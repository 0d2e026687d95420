# Invader — a verified model of the game tick

A Dafny model of the game logic of `invader.py`, a Space Invaders clone on
pygame. It covers:

- the player's ship with its single bullet;
- the 5 x 10 enemy formation, which slides sideways, steps down at the
  screen's edge and fires beams;
- explosions, and barricade blocks ("torchka") that wear out after four hits;
- the `Game` object: its START / PLAY / GAMEOVER state machine, score, stage
  and sprite groups, with `init_game`, `set_enemy`, `set_torchka`,
  `update_enemy`, `update`, `collision_detection` and the SPACE-release branch
  of `event_handler`.

pygame is cut down to an integer rectangle (`Geometry`) and to its
`groupcollide` query (`Groups`). Each sprite is a class whose `Update`
changes its own fields. `Update` is proved against a pure step function on a
snapshot of those fields (`State()`), and the game's rules are proved about
that function. The sprite groups are `set` fields of `Game`. A sprite that
calls `kill()` on itself answers `false` from `Update`, and the game then
drops it from its group. The player is updated first, as in `all.update()`.
Sprites created during a tick (the new bullet, beams, explosions) are first
updated on the next tick.

Files:

| file | module |
|---|---|
| `geometry.dfy` | `Geometry` |
| `groups.dfy` | `Groups` |
| `sprites.dfy` | `Sprites` |
| `layout.dfy` | `Layout` |
| `game.dfy` | `Invader` (class `Game`) |

Some methods of `Invader.Game` have no function of their own in the game:
`SetPair`, `StepShots`, `StepCrowd`, `StepGroups`, `Advance`, `Launch`,
`HitShips`, `HitBlocks`, `Tick` and `Settle`. Each is one consecutive part of
`init_game`, `all.update()`, `collision_detection` or `update`. They are split
out so that each method's proof covers only a few groups at a time. Read in
order, their calls give back the original operation: `InitGame` is `Reset`
then `Populate`, `UpdateSprites` is `Advance` then `Launch`,
`CollisionDetection` is `HitShips` then `HitBlocks`, and `Update`'s PLAY
branch is `Tick`, that is `UpdateSprites` then `Settle`.

Where the code and its usual description disagree, the model follows the
code:

- A wave is worth 900 points, not 1000: 10 x 30 + 20 x 20 + 20 x 10
  (`Layout.WaveWorth`, `Invader.Game.WaveScore`).
- The barricade cell left out is the lower middle one.
- An enemy's timer is reset from the interval before the step-down shortens
  it, so the timer can exceed the interval.
- The interval shrinks by 3 at each step-down with no floor, so it and the
  timer can become zero or negative. An enemy whose timer has passed below
  zero never moves again.

## Model

| member | source | states |
|---|---|---|
| Geometry.AtCenter | invader.py:84-85 | the rectangle placed by `rect.center = pos` has the given size and its centre at `pos` |
| Geometry.Rect.Move | invader.py:67-69 | `move_ip` keeps the size and moves the centre by the offset |
| Geometry.ClampAxis | invader.py:70 | one axis of `clamp`: a span that fits ends up inside the range, one already inside stays put, one that sticks out is pushed flush with the edge it crossed |
| Geometry.Clamp | invader.py:70 | `rect.clamp(SCR_RECT)` keeps the size, puts any rectangle that fits inside the screen, and leaves one already inside unchanged |
| Groups.GroupCollide | invader.py:363-364 | `groupcollide`: each answered sprite took a non-empty set of overlapping sprites, no sprite is taken twice, each key in visiting order took every overlapping sprite no earlier key had taken, and afterwards no sprite of the first group overlaps one left in the second, whatever the visiting order |
| Groups.CollisionNeedsOverlap | invader.py:363-395 | a collision pass answers nothing unless some pair of its two groups overlaps |
| Groups.TakenAdd | invader.py:363-364 | recording one more hit adds exactly its sprites to the taken ones |
| Groups.VisitExhausts | invader.py:363-364 | after a sprite of the first group is visited, no sprite left in the second group overlaps it |
| Groups.VisitCollides | invader.py:363-364 | a visit that took sprites keeps the answer well formed (disjoint, overlapping, distinct keys) |
| Groups.VisitGreedy | invader.py:363-364 | a visit that takes every overlapping sprite still in the second group keeps the answer greedy in visiting order |
| Sprites.ClampSteers | invader.py:66-70 | for a ship on the screen, the move and clamp land the left edge where the held keys steer it (left over right, stopped at the edges) and keep its height |
| Sprites.PlayerStep | invader.py:59-70 | a paused ship only counts its pause down and shows the hit image; an unpaused one ends inside the screen at the steered position, never changing its lives |
| Sprites.Player.constructor | invader.py:49-57 | a new ship: left edge at x = 300, bottom on the screen's bottom, 3 lives, not paused |
| Sprites.Player.Update | invader.py:59-73 | the ship's new state is `PlayerStep` of the old one, and it fires exactly when unpaused, space is held and no bullet is in flight |
| Sprites.BulletStep | invader.py:88-94 | a paused bullet only counts down; otherwise it rises 10 pixels and is removed exactly when its top passes above the screen |
| Sprites.Bullet.constructor | invader.py:82-86 | a bullet is centred on the given point, not paused |
| Sprites.Bullet.Update | invader.py:88-94 | it survives exactly when `BulletStep` does, in the state `BulletStep` gives |
| Sprites.BeamStep | invader.py:176-182 | a paused beam only counts down; otherwise it falls 5 pixels and is removed exactly when its bottom passes below the screen |
| Sprites.Beam.constructor | invader.py:170-174 | a beam is centred on the given point, not paused |
| Sprites.Beam.Update | invader.py:176-182 | it survives exactly when `BeamStep` does, in the state `BeamStep` gives |
| Sprites.EnemyStep | invader.py:121-142 | paused: only the pause counts down. Timer not due: only the timer counts down. Due and sliding: moves one step sideways, not downed. Due and stopped: steps down one sprite height in the same column, reverses, interval 3 shorter, downed. Either move re-arms the timer from the old interval minus one, counts a frame and keeps speed equal to plus or minus the width |
| Sprites.EnemyAt | invader.py:107-119 | a new enemy is centred on its spawn point, slides right by its width every 60 ticks and starts with a full interval |
| Sprites.Enemy.constructor | invader.py:107-161 | the new enemy's state is `EnemyAt` and its point value (10, 20 or 30) is the one its class carries |
| Sprites.Enemy.Update | invader.py:121-142 | the enemy's new state is `EnemyStep` of the old one, and it fires exactly when unpaused and its coin says so |
| Sprites.Enemy.MoveDown | invader.py:144-145 | the centre moves to `moved_height` in the same column, size unchanged |
| Sprites.SumPointsAppend | invader.py:365-373 | the points for two runs of destroyed enemies add up |
| Sprites.SumPointsRemove | invader.py:365-373 | taking one enemy out of a listing takes exactly its points off the sum |
| Sprites.SumPointsOrderFree | invader.py:365-373 | the score for a set of destroyed enemies does not depend on the order `groupcollide` visited them in |
| Sprites.ExplosionStep | invader.py:199-203 | an update counts one frame and shows one of the four images; the explosion removes itself exactly when the count reaches 20 |
| Sprites.Explosion.constructor | invader.py:192-197 | an explosion is centred on the given point at frame 0 |
| Sprites.Explosion.Update | invader.py:199-203 | it survives exactly when `ExplosionStep` does, in the state `ExplosionStep` gives |
| Sprites.ExplosionLifetime | invader.py:189-203 | an explosion at frame f survives n more updates exactly when f + n < 20, so a new one lasts 20 updates |
| Sprites.TorchkaStep | invader.py:217-221 | a block removes itself exactly when hit more than 3 times, otherwise it keeps its place and count and shows one of the four damage images |
| Sprites.Torchka.constructor | invader.py:210-215 | a block is centred on the given point, undamaged |
| Sprites.Torchka.Update | invader.py:217-221 | it survives exactly when `TorchkaStep` does, in the state `TorchkaStep` gives |
| Sprites.BarricadeLifetime | invader.py:217-221 | over a run of updates with given hits between them, a block survives exactly when its starting count plus every hit but the last one's stays below 4, and its count is the starting count plus all the hits |
| Layout.StartHeight | invader.py:271 | the formation starts 48 to 384 pixels down, 48 more per stage, cycling every 8 stages |
| Layout.WaveSpawn | invader.py:272-279 | the i-th enemy of a wave is worth 10, 20 or 30 |
| Layout.Wave | invader.py:272-279 | the reference definition of a wave: 50 spawns, the i-th being `WaveSpawn(stage, i)`; what a wave holds is stated by `WavePrefix` and `WaveWorth` |
| Layout.SpawnWorth | invader.py:274-279 | the first ten enemies made are worth 30, the next twenty 20, the last twenty 10 |
| Layout.WavePrefix | invader.py:272-279 | the first n enemies made are worth the row-by-row total and contain the matching number of each kind |
| Layout.WaveWorth | invader.py:269-279 | a wave holds 10 enemies worth 30, 20 worth 20 and 20 worth 10, 900 points in all |
| Layout.WaveCentresDistinct | invader.py:272-279 | no two enemies of a wave share a centre |
| Layout.Barricade | invader.py:281-285 | a barricade is five block centres in its 48 x 32 box, without the lower middle cell |
| Invader.Game.constructor | invader.py:226-234 | a new game is as `init_game` leaves it, in START: score 0, stage 0, a new ship at its start place with 3 lives, nothing in flight, the enemies exactly the stage-0 wave as `Layout.Wave` places it, and the blocks exactly the four intact barricades at `Layout.BarricadeSites` |
| Invader.Game.InitGame | invader.py:240-267 | START, score 0, stage 0, a new ship with 3 lives at its start place, no bullet, beam or explosion, the enemies exactly the 50 new enemies of the stage-0 wave at their `Layout.Wave` places and points, and the blocks exactly the 20 new undamaged blocks of the barricades at (104, 500), (224, 500), (344, 500) and (464, 500) |
| Invader.Game.Reset | invader.py:240-262 | a new ship at its start place with 3 lives, START, score 0, stage 0, and every group empty |
| Invader.Game.Populate | invader.py:261-267 | starting from empty groups, the enemies become exactly the current stage's wave and the blocks exactly the four barricades at their sites, all new and undamaged |
| Invader.Game.SetBarricades | invader.py:264-267 | the four `set_torchka` calls add exactly the 20 new blocks of the four barricades, barricade by barricade at `Layout.BarricadeSites`, and keep the old ones |
| Invader.Game.SetPair | invader.py:264-265 | two `set_torchka` calls add exactly the blocks of the two barricades at the given sites |
| Invader.Game.BarricadesJoin | invader.py:264-267 | the four barricades built at the four sites, in order, make up the barricade layout |
| Invader.Game.BarricadesIntact | invader.py:210-215 | every block of a built barricade layout is undamaged |
| Invader.Game.WaveGrows | invader.py:272-279 | the enemy made at column x, row y is the next one of the wave |
| Invader.Game.WaveDistinct | invader.py:272-279 | the enemies made for a wave are distinct objects |
| Invader.Game.BuiltWavePoints | invader.py:272-279 | the first n enemies of a built wave are worth the points of the first n places of `Layout.Wave` |
| Invader.Game.WaveScore | invader.py:365-373 | destroying a whole built wave scores exactly 900, in any order |
| Invader.Game.AddEnemy | invader.py:274-279 | a new enemy with its spawn state and point value joins the enemy group |
| Invader.Game.SetEnemy | invader.py:269-279 | the enemy group gains exactly the 50 new, distinct enemies of this stage's wave, in creation order |
| Invader.Game.BarricadeGrows | invader.py:282-285 | the block made at cell (x, y) is the next one of the barricade |
| Invader.Game.AddTorchka | invader.py:210-215 | a new undamaged block joins the block group |
| Invader.Game.SetTorchka | invader.py:281-285 | the block group gains exactly the five new, undamaged blocks of one barricade at their layout centres |
| Invader.Game.UpdateBullets | invader.py:88-94 | every bullet steps once, the ones whose step removes them leave the group, and the group never grows |
| Invader.Game.UpdateBeams | invader.py:176-182 | every beam steps once, the ones whose step removes them leave the group |
| Invader.Game.UpdateExplosions | invader.py:199-203 | every explosion steps once, the finished ones leave |
| Invader.Game.UpdateTorchkas | invader.py:217-221 | every block steps once, the worn-out ones leave |
| Invader.Game.UpdateEnemies | invader.py:121-142 | every enemy steps once; the shooters are exactly the unpaused enemies whose coin came up |
| Invader.Game.AddBullet | invader.py:71-73 | a new bullet centred on the given point joins the bullet group |
| Invader.Game.AddBeam | invader.py:141-142 | a new beam centred on the given point joins the beam group |
| Invader.Game.SpawnBeams | invader.py:141-142 | every firing enemy gets its own new beam centred on its new position, and those are the only beams added |
| Invader.Game.StepShots | invader.py:305 | the bullets and beams in flight each step once |
| Invader.Game.StepCrowd | invader.py:305 | the enemies, explosions and blocks each step once |
| Invader.Game.StepGroups | invader.py:305 | every sprite but the ship that was there when the tick began steps exactly once |
| Invader.Game.Advance | invader.py:303-305 | the ship, if alive, steps and says it fires exactly when `PlayerFires` (and then no bullet is in flight); every other sprite that was there steps once |
| Invader.Game.Launch | invader.py:303-305 | one new bullet at the ship's centre exactly when it fires, and one new beam per firing enemy; the groups gain only those |
| Invader.Game.UpdateSprites | invader.py:303-305 | the ship, if alive, steps first and fires from its new centre exactly when `PlayerFires`; at most one bullet stays in flight; every enemy steps by `EnemyStep` and each firing enemy adds one new beam at its new centre; bullets, beams, explosions and blocks that were there step once and leave exactly when their step removes them, and the groups gain only the new bullet and beams |
| Invader.Game.StopFormation | invader.py:297-298 | every enemy's `move_flag` is cleared and nothing else changes |
| Invader.Game.UpdateEnemy | invader.py:287-299 | GAMEOVER exactly when a visited enemy is past the 90% line; when some enemy is at the edge, due and not just downed, the scan stops at such an enemy and every enemy is stopped; otherwise all are visited and nothing changes |
| Invader.Game.AddExplosion | invader.py:365-366 | a new explosion centred on the given rectangle joins the explosions |
| Invader.Game.ShootEnemies | invader.py:363-373 | enemies and bullets that overlap are removed together, the answer is the greedy `groupcollide` answer over the groups as they were for some visiting order, each destroyed enemy gets an explosion at its centre, and the score grows by exactly their points |
| Invader.Game.RemoveShot | invader.py:363-364 | the destroyed enemies and the bullets they took leave their groups, keeping at most one bullet |
| Invader.Game.ScoreKills | invader.py:365-373 | one explosion per destroyed enemy, in order, and the score grows by the sum of their points |
| Invader.Game.PauseAll | invader.py:383-384 | the ship, the bullets, the enemies and the beams get a pause of 20 ticks and nothing else of theirs changes |
| Invader.Game.ShootPlayer | invader.py:375-384 | the beams touching the ship are removed. Without a hit nothing else changes. With no life left the ship is killed and the game is over. Otherwise exactly one life is lost, one explosion appears on the ship and all moving sprites pause for 20 ticks |
| Invader.Game.DamageBlocks | invader.py:389-390 | each struck block gains exactly one damage, the others are unchanged |
| Invader.Game.ShieldBullets | invader.py:386-390 | bullets overlapping a block are removed, the blocks in visiting order taking every overlapping bullet still there, each block hit gains exactly one damage however many bullets hit it, the blocks stay; only bullets still in the group take part, so one spent on an enemy cannot also damage a block |
| Invader.Game.DropBullets | invader.py:386-388 | the spent bullets leave the group, which does not grow |
| Invader.Game.ShieldBeams | invader.py:391-395 | beams overlapping a block are removed; the blocks are visited in some order and each takes every overlapping beam no earlier block took, so a beam damages one block only; each block hit gains exactly one damage |
| Invader.Game.CollisionDetection | invader.py:360-395 | the four passes keep at most one bullet in flight and a killed ship only with GAMEOVER, answer the destroyed enemies as a duplicate-free sequence that are exactly the enemies that left the group, raise the score by exactly their points, and change the state only to GAMEOVER |
| Invader.Game.HitShips | invader.py:363-384 | the first two passes keep the invariant, answer the destroyed enemies (distinct, exactly those that left the group), raise the score by their points and change the state only to GAMEOVER |
| Invader.Game.HitBlocks | invader.py:386-395 | the barricade passes keep the invariant |
| Invader.Game.Update | invader.py:301-311 | the invariant is kept; the score never falls; the state changes only from PLAY to GAMEOVER; outside PLAY only the stage-clear check runs: the score, the ship, the bullets, beams, explosions and blocks are untouched, both as groups and sprite by sprite, and so are the enemies unless the group was empty; the stage goes up by one only together with a fresh wave, and then the enemies are exactly the new stage's wave; an enemy is always left |
| Invader.Game.Tick | invader.py:303-308 | one tick of play keeps the invariant, never lowers the score and changes the state only to GAMEOVER |
| Invader.Game.Settle | invader.py:306-308 | the formation check and the collisions keep the invariant, never lower the score and change the state only to GAMEOVER |
| Invader.Game.NextStage | invader.py:309-311 | exactly when no enemy is left, the stage goes up by one and the enemies become exactly the new stage's wave as `Layout.Wave` places it; otherwise nothing changes |
| Invader.Game.SpaceReleased | invader.py:405-410 | START becomes PLAY with nothing else changed; GAMEOVER becomes PLAY after a full `init_game` reset (score 0, stage 0, a new ship with 3 lives, the stage-0 wave, the four intact barricades at their sites); PLAY is left unchanged |

## Left out

- Drawing, images, fonts, the display and the clock loop of `Game.__init__` (invader.py:14-40, 226-238, 313-358, 412-421): I/O with no game logic. An image is kept only as an index (the hit image of the ship, the frame of an explosion, the damage image of a block). The two-image animation of the enemies is kept only as a frame count.
- Quitting on QUIT or ESC (invader.py:399-404): process control.
- The random beam draw `prob_beam > random.random()` is a parameter: the set of enemies whose coin came up this tick.
- The held keys are a parameter (`Keys`) instead of a keyboard poll, and the sprite sizes are a parameter (`Sizes`) instead of image files.
- Float arithmetic is replaced by exact integers: the 90% line is `10 * bottom > 9 * 580` and the ship's start is x = 300.
- The group iteration order is left open. `update_enemy` and the collision passes hold for any order, and `update_enemy` states its GAMEOVER rule for the enemies it visited.
- `all` is not a group of its own. It is the live ship plus the other groups, and the explosions are kept in a set of their own.
- The 20-tick pause is also written into explosions and blocks in the source, which never read it. The model leaves their state as it is.
- Invader.Game.CollisionDetection: states the invariant, the destroyed enemies and the score they bring, and the state; it does not restate the bullets, beams and blocks. The individual passes are stated on `ShootEnemies`, `ShootPlayer`, `ShieldBullets` and `ShieldBeams`.
- Invader.Game.HitShips: states the invariant, the destroyed enemies and the score they bring, and the state; it does not restate the bullets, beams and ship; the passes' full effects are on `ShootEnemies` and `ShootPlayer`.
- Invader.Game.HitBlocks: states only the invariant; the damage is on `ShieldBullets` and `ShieldBeams`.
- Invader.Game.Tick: states the invariant, the score and the state; the effects of each step are on the methods it calls.
- Invader.Game.Settle: states the invariant, the score and the state, like `Tick`.
- Invader.Game.Update: states the invariant, the score, the state and the stage; the effects within a tick are on the methods it calls.
- There is no single lemma saying that with no overlap anywhere a tick's collisions change nothing. `Groups.CollisionNeedsOverlap` gives that for each pass, and the pass contracts state what an empty answer leaves unchanged.
- Player life and enemy point values are carried by their types: life is a `nat` and points are 10, 20 or 30, so "life never goes negative" and "each kill is worth 10, 20 or 30" are type facts, not ensures clauses.
