/**
  The `Game` object of invader.py (invader.py:224-410 without drawing,
  images and the clock loop): its state machine START / PLAY / GAMEOVER,
  score and stage, and the sprite groups it owns. The pygame groups are
  sets of sprites; `all` is not a field of its own but the union of the
  player (while it has not been killed) and the other groups.
 */
module Invader {
  import opened Geometry
  import opened Groups
  import opened Sprites
  import opened Layout

  datatype GameState = Start | Play | GameOver

  /** The size of each sprite's image (the images themselves are not modelled). */
  datatype Sizes = Sizes(player: Size, bullet: Size, enemy10: Size, enemy20: Size, enemy30: Size,
                         beam: Size, explosion: Size, torchka: Size)

  /** The image size of an enemy worth `points`. */
  function EnemySize(sizes: Sizes, points: int): Size {
    if points == 30 then sizes.enemy30 else if points == 20 then sizes.enemy20 else sizes.enemy10
  }

  /** Ticks every sprite stands still after the player loses a life. */
  const PauseTicks: nat := 20

  /** An enemy whose bottom is below 90% of the screen height ends the game
      (`rect.bottom > SCR_RECT.height * 0.9`, in integers). */
  predicate PastLoseLine(r: Rect) {
    10 * r.Bottom() > 9 * ScreenHeight
  }

  /** The enemy that stops the formation in `update_enemy`: one more step
      would take it off the screen, its timer is due and it did not just step
      down. */
  predicate AtEdge(s: EnemyState) {
    (s.rect.left - s.rect.width < 0 || s.rect.Right() + s.rect.width >= ScreenWidth) &&
    s.updateTimer == 0 && !s.downedFlag
  }

  /** The number of blocks `set_torchka` has made before cell (x, y). */
  function BlocksBefore(x: int, y: int): int {
    if y == 0 then x else if y == 1 then (if x <= 1 then 3 + x else 2 + x) else 5
  }

  class Game {
    const sizes: Sizes
    var state: GameState
    var score: nat
    var stage: nat
    var player: Player
    var playerAlive: bool
    var bullets: set<Bullet>
    var enemies: set<Enemy>
    var beams: set<Beam>
    var explosions: set<Explosion>
    var torchkas: set<Torchka>
    /** The enemies the last `set_enemy` made, in creation order. */
    ghost var formation: seq<Enemy>
    /** The blocks `init_game` made, barricade by barricade. */
    ghost var barricades: seq<Torchka>

    /** What every tick keeps: the player has at most one bullet in flight,
        because it fires only when the bullet group is empty, and the ship is
        killed only together with the move to GAMEOVER. */
    ghost predicate Valid()
      reads this`bullets, this`playerAlive, this`state
    {
      |bullets| <= 1 && (playerAlive || state == GameOver)
    }

    /** `Game.__init__` up to the clock loop. */
    constructor (sizes: Sizes)
      ensures Valid() && Started()
    {
      this.sizes := sizes;
      // Every field must hold a value before `new;`: this ship stands in
      // until `InitGame` makes the game's first one.
      player := new Player(sizes.player);
      new;
      InitGame();
    }

    /** The game as `init_game` leaves it. */
    ghost predicate Started()
      reads this`state, this`score, this`stage, this`playerAlive, this`player, this`bullets,
            this`beams, this`explosions, this`enemies, this`torchkas, this`formation, this`barricades,
            player, torchkas, formation, barricades
    {
      state == Start && NewGame()
    }

    /** Everything `init_game` sets apart from the game state: no score, the
        first stage, a new ship, the first stage's wave, the four barricades
        intact at their sites and nothing in flight. */
    ghost predicate NewGame()
      reads this`score, this`stage, this`playerAlive, this`player, this`bullets,
            this`beams, this`explosions, this`enemies, this`torchkas, this`formation, this`barricades,
            player, torchkas, formation, barricades
    {
      Blank() && Stocked()
    }

    /** No score, the first stage, a new ship at its start and nothing in flight. */
    ghost predicate Blank()
      reads this`score, this`stage, this`playerAlive, this`player, this`bullets, this`beams, this`explosions, player
    {
      score == 0 && stage == 0 && playerAlive &&
      player.State() == PlayerState(Rect(ScreenWidth / 2, ScreenHeight - sizes.player.height,
                                         sizes.player.width, sizes.player.height), StartLife, 0, 0) &&
      bullets == {} && beams == {} && explosions == {}
    }

    /** The enemies are exactly the current stage's wave and the blocks are
        exactly the four barricades, intact at their sites. */
    ghost predicate Stocked()
      reads this`stage, this`enemies, this`torchkas, this`formation, this`barricades,
            torchkas, formation, barricades
    {
      |formation| == WaveSize && WaveBuilt(formation) && enemies == Elements(formation) &&
      |enemies| == WaveSize &&
      BarricadesBuilt(barricades) && torchkas == Elements(barricades) && |torchkas| == 4 * 5 &&
      (forall t :: t in torchkas ==> t.count == 0)
    }

    /** `init_game`: a new player, the first wave and four barricades. */
    method InitGame()
      modifies this
      ensures Valid() && Started()
      ensures fresh(player)
      ensures forall e :: e in enemies ==> fresh(e)
      ensures forall t :: t in torchkas ==> fresh(t)
    {
      Reset();
      Populate();
    }

    /** The first half of `init_game`: the new player, and every group emptied. */
    method Reset()
      modifies this`state, this`score, this`stage, this`player, this`playerAlive, this`bullets,
               this`enemies, this`beams, this`explosions, this`torchkas
      ensures state == Start && Blank() && enemies == {} && torchkas == {}
      ensures fresh(player)
    {
      var p := new Player(sizes.player);
      state, score, stage, player, playerAlive := Start, 0, 0, p, true;
      bullets, enemies, beams, explosions, torchkas := {}, {}, {}, {}, {};
    }

    /** What `init_game` creates after the player: the current stage's wave,
        then the four barricades, recorded in `formation` and `barricades`. */
    method Populate()
      requires enemies == {} && torchkas == {}
      modifies this`enemies, this`torchkas, this`formation, this`barricades
      ensures Stocked()
      ensures forall e :: e in enemies ==> fresh(e)
      ensures forall t :: t in torchkas ==> fresh(t)
    {
      formation := SetEnemy();
      barricades := SetBarricades();
      BarricadesIntact(barricades);
    }

    /** `blocks` are the blocks of the four barricades, five each, placed at
        `Layout.BarricadeSites` in order. */
    ghost predicate BarricadesBuilt(blocks: seq<Torchka>)
      reads blocks
    {
      |blocks| == 5 * |BarricadeSites| &&
      forall s :: 0 <= s < |BarricadeSites| ==>
        BarricadeBuilt(blocks[5 * s..5 * s + 5], BarricadeSites[s].0, BarricadeSites[s].1)
    }

    lemma BarricadesJoin(b0: seq<Torchka>, b1: seq<Torchka>, b2: seq<Torchka>, b3: seq<Torchka>)
      requires |b0| == 5 && BarricadeBuilt(b0, 104, 500) && |b1| == 5 && BarricadeBuilt(b1, 224, 500)
      requires |b2| == 5 && BarricadeBuilt(b2, 344, 500) && |b3| == 5 && BarricadeBuilt(b3, 464, 500)
      ensures BarricadesBuilt(b0 + b1 + b2 + b3)
      ensures Elements(b0 + b1 + b2 + b3) == Elements(b0) + Elements(b1) + Elements(b2) + Elements(b3)
    {
      var blocks := b0 + b1 + b2 + b3;
      assert blocks[0..5] == b0 && blocks[5..10] == b1 && blocks[10..15] == b2 && blocks[15..20] == b3;
    }

    /** The blocks of built barricades are all undamaged. */
    lemma BarricadesIntact(blocks: seq<Torchka>)
      requires BarricadesBuilt(blocks)
      ensures forall t :: t in blocks ==> t.count == 0
    {
      forall t | t in blocks ensures t.count == 0 {
        var k :| 0 <= k < |blocks| && blocks[k] == t;
        var s := k / 5;
        assert 0 <= s < |BarricadeSites|;
        var part := blocks[5 * s..5 * s + 5];
        assert BarricadeBuilt(part, BarricadeSites[s].0, BarricadeSites[s].1);
        assert part[k - 5 * s] == t;
      }
    }

    /** Two of the four `set_torchka` calls of `init_game`. */
    method SetPair(px: int, qx: int) returns (ghost b: seq<Torchka>, ghost c: seq<Torchka>)
      modifies this`torchkas
      ensures |b| == 5 && BarricadeBuilt(b, px, 500) && |c| == 5 && BarricadeBuilt(c, qx, 500)
      ensures torchkas == old(torchkas) + Elements(b) + Elements(c)
      ensures |torchkas| == |old(torchkas)| + 2 * 5
      ensures forall t :: t in torchkas ==> t in old(torchkas) || fresh(t)
    {
      b := SetTorchka(px, 500);
      c := SetTorchka(qx, 500);
    }

    /** The four `set_torchka` calls of `init_game`, at `Layout.BarricadeSites`. */
    method SetBarricades() returns (ghost blocks: seq<Torchka>)
      modifies this`torchkas
      ensures BarricadesBuilt(blocks) && torchkas == old(torchkas) + Elements(blocks)
      ensures |torchkas| == |old(torchkas)| + 4 * 5
      ensures forall t :: t in torchkas ==> t in old(torchkas) || fresh(t)
    {
      var b0, b1 := SetPair(104, 224);
      var b2, b3 := SetPair(344, 464);
      BarricadesJoin(b0, b1, b2, b3);
      blocks := b0 + b1 + b2 + b3;
    }

    /** `e` is a new enemy made for `spawn`. */
    ghost predicate SpawnedAs(e: Enemy, spawn: Spawn)
      reads e
    {
      e.points == spawn.points && e.State() == EnemyAt(spawn.cx, spawn.cy, EnemySize(sizes, spawn.points))
    }

    /** `wave` holds the first |wave| enemies of this stage's wave, in order. */
    ghost predicate WaveBuilt(wave: seq<Enemy>)
      reads this`stage, wave
    {
      |wave| <= WaveSize && forall i :: 0 <= i < |wave| ==> SpawnedAs(wave[i], WaveSpawn(stage, i))
    }

    lemma WaveGrows(wave: seq<Enemy>, x: int, y: int, e: Enemy)
      requires 0 <= x < WaveColumns && 0 <= y < WaveRows && |wave| == 10 * y + x
      requires WaveBuilt(wave)
      requires e.points == RowPoints(y)
      requires e.State() == EnemyAt(x * 30 + 36, y * 30 + StartHeight(stage), EnemySize(sizes, RowPoints(y)))
      ensures WaveBuilt(wave + [e]) && Elements(wave + [e]) == Elements(wave) + {e}
    {
      var i := 10 * y + x;
      assert i % 10 == x && i / 10 == y;
      assert SpawnedAs(e, WaveSpawn(stage, i));
      assert Elements(wave + [e]) == Elements(wave) + {e};
    }

    /** The first n enemies of a built wave are worth the points of the first
        n places of `Layout.Wave`. */
    lemma {:induction false} BuiltWavePoints(wave: seq<Enemy>, n: nat)
      requires WaveBuilt(wave) && n <= |wave|
      ensures SumPoints(wave[..n]) == PointsOf(Wave(stage)[..n])
    {
      if n > 0 {
        SumPointsPrefix(wave, n);
        PointsOfPrefix(Wave(stage), n);
        assert SpawnedAs(wave[n - 1], WaveSpawn(stage, n - 1));
        BuiltWavePoints(wave, n - 1);
      }
    }

    /** Destroying a whole wave scores 900, in whatever order the collisions
        take its enemies. */
    lemma WaveScore(wave: seq<Enemy>, killed: seq<Enemy>)
      requires |wave| == WaveSize && WaveBuilt(wave)
      requires multiset(killed) == multiset(wave)
      ensures SumPoints(killed) == 900
    {
      BuiltWavePoints(wave, WaveSize);
      WaveWorth(stage);
      assert wave[..WaveSize] == wave;
      assert Wave(stage)[..WaveSize] == Wave(stage);
      SumPointsOrderFree(killed, wave);
    }

    /** Enemies made for different places of a wave are different objects,
        because they are centred at different points. */
    lemma WaveDistinct(wave: seq<Enemy>)
      requires WaveBuilt(wave)
      ensures Distinct(wave)
    {
      forall i, j | 0 <= i < j < |wave| ensures wave[i] != wave[j] {
        WaveCentresDistinct(stage, i, j);
      }
    }

    /** An enemy is made and joins the `enemies` group (the sprite's
        `containers`). */
    method AddEnemy(cx: int, cy: int, points: Points) returns (e: Enemy)
      modifies this`enemies
      ensures fresh(e)
      ensures forall x :: x in enemies <==> x in old(enemies) || x == e
      ensures e.points == points && e.State() == EnemyAt(cx, cy, EnemySize(sizes, points))
    {
      e := new Enemy(cx, cy, EnemySize(sizes, points), points);
      enemies := enemies + {e};
    }

    /** `set_enemy`: the wave of the current stage, one enemy per position of
        `Layout.Wave`, all new. */
    method SetEnemy() returns (ghost wave: seq<Enemy>)
      modifies this`enemies
      ensures |wave| == WaveSize && WaveBuilt(wave) && Distinct(wave)
      ensures forall e :: e in wave ==> fresh(e)
      ensures forall e :: e in enemies <==> e in old(enemies) || e in wave
      ensures |enemies| == |old(enemies)| + WaveSize
    {
      var startHeight := StartHeight(stage);
      wave := [];
      for y := 0 to 5
        invariant |wave| == 10 * y && WaveBuilt(wave)
        invariant forall e :: e in enemies <==> e in old(enemies) || e in wave
        invariant forall e :: e in wave ==> e !in old(enemies) && fresh(e)
      {
        for x := 0 to 10
          invariant |wave| == 10 * y + x && WaveBuilt(wave)
          invariant forall e :: e in enemies <==> e in old(enemies) || e in wave
          invariant forall e :: e in wave ==> e !in old(enemies) && fresh(e)
        {
          var e := AddEnemy(x * 30 + 36, y * 30 + startHeight, RowPoints(y));
          WaveGrows(wave, x, y, e);
          wave := wave + [e];
        }
      }
      WaveDistinct(wave);
      assert enemies == old(enemies) + Elements(wave);
      CardinalityAdd(old(enemies), wave);
    }

    /** `t` is a new, undamaged block centred at (cx, cy). */
    ghost predicate BlockAt(t: Torchka, cx: int, cy: int)
      reads t
    {
      t.State() == TorchkaState(AtCenter(cx, cy, sizes.torchka.width, sizes.torchka.height), 0, 0)
    }

    /** `blocks` are the first |blocks| blocks of the barricade at (px, py). */
    ghost predicate BarricadeBuilt(blocks: seq<Torchka>, px: int, py: int)
      reads blocks
    {
      |blocks| <= 5 && Distinct(blocks) &&
      forall k :: 0 <= k < |blocks| ==> BlockAt(blocks[k], Barricade(px, py)[k].0, Barricade(px, py)[k].1)
    }

    lemma BarricadeGrows(blocks: seq<Torchka>, px: int, py: int, x: int, y: int, t: Torchka)
      requires 0 <= x < 3 && 0 <= y < 2 && !(y == 1 && x == 1) && |blocks| == BlocksBefore(x, y)
      requires BarricadeBuilt(blocks, px, py) && t !in blocks && BlockAt(t, px + x * 16, py + y * 16)
      ensures BarricadeBuilt(blocks + [t], px, py)
    {
      assert Barricade(px, py)[|blocks|] == (px + x * 16, py + y * 16);
      assert (blocks + [t])[|blocks|] == t;
    }

    /** A barricade block is made and joins the `torchkas` group. */
    method AddTorchka(cx: int, cy: int) returns (t: Torchka)
      modifies this`torchkas
      ensures fresh(t) && BlockAt(t, cx, cy) && t.count == 0
      ensures forall x :: x in torchkas <==> x in old(torchkas) || x == t
    {
      t := new Torchka(cx, cy, sizes.torchka);
      torchkas := torchkas + {t};
    }

    /** `set_torchka(pos)`: the five blocks of one barricade, all new, centred
        as `Layout.Barricade` says. */
    method SetTorchka(px: int, py: int) returns (ghost blocks: seq<Torchka>)
      modifies this`torchkas
      ensures |blocks| == 5 && BarricadeBuilt(blocks, px, py)
      ensures forall t :: t in blocks ==> fresh(t) && t.count == 0
      ensures torchkas == old(torchkas) + Elements(blocks)
      ensures |torchkas| == |old(torchkas)| + 5
      ensures forall t :: t in torchkas ==> t in old(torchkas) || fresh(t)
    {
      blocks := [];
      for y := 0 to 2
        invariant |blocks| == BlocksBefore(0, y) && BarricadeBuilt(blocks, px, py)
        invariant forall t :: t in blocks ==> fresh(t) && t.count == 0
        invariant forall t :: t in torchkas <==> t in old(torchkas) || t in blocks
      {
        for x := 0 to 3
          invariant |blocks| == BlocksBefore(x, y) && BarricadeBuilt(blocks, px, py)
          invariant forall t :: t in blocks ==> fresh(t) && t.count == 0
          invariant forall t :: t in torchkas <==> t in old(torchkas) || t in blocks
        {
          if !(y == 1 && x == 1) {
            var t := AddTorchka(px + x * 16, py + y * 16);
            BarricadeGrows(blocks, px, py, x, y, t);
            blocks := blocks + [t];
          }
        }
      }
      assert torchkas == old(torchkas) + Elements(blocks);
      CardinalityAdd(old(torchkas), blocks);
    }

    // -------------------------------------------------------------------------
    // One tick of `all.update()`: the player first (it was added to `all`
    // first), then every other sprite that was on the screen when the tick
    // began; sprites spawned during the tick are first updated on the next.

    /** The bullets' part of `all.update()`: each steps once and those whose
        step removes them leave the group. */
    method UpdateBullets()
      modifies this`bullets, bullets
      ensures |bullets| <= |old(bullets)|
      ensures forall b :: b in bullets <==> b in old(bullets) && BulletStep(old(b.State())).Some?
      ensures forall b :: b in bullets ==> b.State() == BulletStep(old(b.State())).value
    {
      var todo, kept := bullets, {};
      while todo != {}
        invariant todo <= old(bullets)
        invariant forall b :: b in kept <==> b in old(bullets) && b !in todo && BulletStep(old(b.State())).Some?
        invariant forall b :: b in kept ==> b.State() == BulletStep(old(b.State())).value
        invariant forall b :: b in todo ==> b.State() == old(b.State())
        decreases todo
      {
        var b :| b in todo;
        var alive := b.Update();
        if alive {
          kept := kept + {b};
        }
        todo := todo - {b};
      }
      SubsetCardinality(kept, old(bullets));
      bullets := kept;
    }

    /** The beams' part of `all.update()`. */
    method UpdateBeams()
      modifies this`beams, beams
      ensures forall b :: b in beams <==> b in old(beams) && BeamStep(old(b.State())).Some?
      ensures forall b :: b in beams ==> b.State() == BeamStep(old(b.State())).value
    {
      var todo, kept := beams, {};
      while todo != {}
        invariant todo <= old(beams)
        invariant forall b :: b in kept <==> b in old(beams) && b !in todo && BeamStep(old(b.State())).Some?
        invariant forall b :: b in kept ==> b.State() == BeamStep(old(b.State())).value
        invariant forall b :: b in todo ==> b.State() == old(b.State())
        decreases todo
      {
        var b :| b in todo;
        var alive := b.Update();
        if alive {
          kept := kept + {b};
        }
        todo := todo - {b};
      }
      beams := kept;
    }

    /** The explosions' part of `all.update()`. */
    method UpdateExplosions()
      modifies this`explosions, explosions
      ensures forall x :: x in explosions <==> x in old(explosions) && ExplosionStep(old(x.State())).Some?
      ensures forall x :: x in explosions ==> x.State() == ExplosionStep(old(x.State())).value
    {
      var todo, kept := explosions, {};
      while todo != {}
        invariant todo <= old(explosions)
        invariant forall x :: x in kept <==> x in old(explosions) && x !in todo && ExplosionStep(old(x.State())).Some?
        invariant forall x :: x in kept ==> x.State() == ExplosionStep(old(x.State())).value
        invariant forall x :: x in todo ==> x.State() == old(x.State())
        decreases todo
      {
        var x :| x in todo;
        var alive := x.Update();
        if alive {
          kept := kept + {x};
        }
        todo := todo - {x};
      }
      explosions := kept;
    }

    /** The barricade blocks' part of `all.update()`. */
    method UpdateTorchkas()
      modifies this`torchkas, torchkas
      ensures forall t :: t in torchkas <==> t in old(torchkas) && TorchkaStep(old(t.State())).Some?
      ensures forall t :: t in torchkas ==> t.State() == TorchkaStep(old(t.State())).value
    {
      var todo, kept := torchkas, {};
      while todo != {}
        invariant todo <= old(torchkas)
        invariant forall t :: t in kept <==> t in old(torchkas) && t !in todo && TorchkaStep(old(t.State())).Some?
        invariant forall t :: t in kept ==> t.State() == TorchkaStep(old(t.State())).value
        invariant forall t :: t in todo ==> t.State() == old(t.State())
        decreases todo
      {
        var t :| t in todo;
        var alive := t.Update();
        if alive {
          kept := kept + {t};
        }
        todo := todo - {t};
      }
      torchkas := kept;
    }

    /** The enemies' part of `all.update()`; `coins` are the enemies whose
        random draw asks for a beam this tick. Enemies never remove
        themselves. Answers the enemies that fire. */
    method UpdateEnemies(coins: set<Enemy>) returns (shooters: set<Enemy>)
      modifies enemies
      ensures forall e :: e in enemies ==> e.State() == EnemyStep(old(e.State()))
      ensures forall e :: e in shooters <==> e in enemies && EnemyFires(old(e.State()), e in coins)
    {
      var todo := enemies;
      shooters := {};
      while todo != {}
        invariant todo <= enemies
        invariant forall e :: e in enemies && e !in todo ==> e.State() == EnemyStep(old(e.State()))
        invariant forall e :: e in todo ==> e.State() == old(e.State())
        invariant forall e :: e in shooters <==> e in enemies && e !in todo && EnemyFires(old(e.State()), e in coins)
        decreases todo
      {
        var e :| e in todo;
        var fires := e.Update(e in coins);
        if fires {
          shooters := shooters + {e};
        }
        todo := todo - {e};
      }
    }

    /** A bullet is made at (cx, cy) and joins the `bullets` group. */
    method AddBullet(cx: int, cy: int) returns (b: Bullet)
      modifies this`bullets
      ensures fresh(b)
      ensures b.State() == Shot(AtCenter(cx, cy, sizes.bullet.width, sizes.bullet.height), 0)
      ensures bullets == old(bullets) + {b}
    {
      b := new Bullet(cx, cy, sizes.bullet);
      bullets := bullets + {b};
    }

    /** `b` is a new beam fired by `e`: centred on the enemy, not paused. */
    ghost predicate FiredBy(b: Beam, e: Enemy)
      reads b, e
    {
      b.State() == Shot(AtCenter(e.rect.CenterX(), e.rect.CenterY(), sizes.beam.width, sizes.beam.height), 0)
    }

    /** A beam is made at (cx, cy) and joins the `beams` group. */
    method AddBeam(cx: int, cy: int) returns (b: Beam)
      modifies this`beams
      ensures fresh(b)
      ensures b.State() == Shot(AtCenter(cx, cy, sizes.beam.width, sizes.beam.height), 0)
      ensures forall x :: x in beams <==> x in old(beams) || x == b
    {
      b := new Beam(cx, cy, sizes.beam);
      beams := beams + {b};
    }

    /** The `Beam(self.rect.center)` of every enemy that fires: one new beam
        each, centred on it. */
    method SpawnBeams(shooters: set<Enemy>) returns (ghost made: map<Enemy, Beam>)
      modifies this`beams
      ensures made.Keys == shooters
      ensures forall e :: e in shooters ==> fresh(made[e]) && FiredBy(made[e], e)
      ensures forall e, e' :: e in shooters && e' in shooters && e != e' ==> made[e] != made[e']
      ensures forall b :: b in beams <==> b in old(beams) || b in made.Values
    {
      var todo := shooters;
      made := map[];
      while todo != {}
        invariant todo <= shooters && made.Keys == shooters - todo
        invariant forall e :: e in made ==> fresh(made[e]) && FiredBy(made[e], e)
        invariant forall e, e' :: e in made && e' in made && e != e' ==> made[e] != made[e']
        invariant forall b :: b in beams <==> b in old(beams) || b in made.Values
        decreases todo
      {
        var e :| e in todo;
        var b := AddBeam(e.rect.CenterX(), e.rect.CenterY());
        ValuesAdd(made, e, b);
        made := made[e := b];
        todo := todo - {e};
      }
    }

    /** The bullets and beams that were in flight step once. */
    method StepShots()
      modifies this`bullets, this`beams, bullets, beams
      ensures forall b :: b in bullets <==> b in old(bullets) && BulletStep(old(b.State())).Some?
      ensures forall b :: b in bullets ==> b.State() == BulletStep(old(b.State())).value
      ensures |bullets| <= |old(bullets)|
      ensures forall b :: b in beams <==> b in old(beams) && BeamStep(old(b.State())).Some?
      ensures forall b :: b in beams ==> b.State() == BeamStep(old(b.State())).value
    {
      UpdateBullets();
      UpdateBeams();
    }

    /** The enemies, explosions and barricade blocks step once. */
    method StepCrowd(coins: set<Enemy>) returns (shooters: set<Enemy>)
      modifies this`explosions, this`torchkas, enemies, explosions, torchkas
      ensures forall e :: e in enemies ==> e.State() == EnemyStep(old(e.State()))
      ensures forall e :: e in shooters <==> e in enemies && EnemyFires(old(e.State()), e in coins)
      ensures forall x :: x in explosions <==> x in old(explosions) && ExplosionStep(old(x.State())).Some?
      ensures forall x :: x in explosions ==> x.State() == ExplosionStep(old(x.State())).value
      ensures forall t :: t in torchkas <==> t in old(torchkas) && TorchkaStep(old(t.State())).Some?
      ensures forall t :: t in torchkas ==> t.State() == TorchkaStep(old(t.State())).value
    {
      shooters := UpdateEnemies(coins);
      UpdateExplosions();
      UpdateTorchkas();
    }

    /** Every sprite but the player that was on the screen when the tick
        began steps once. */
    method StepGroups(coins: set<Enemy>) returns (shooters: set<Enemy>)
      modifies this`bullets, this`beams, this`explosions, this`torchkas, bullets, enemies, beams, explosions, torchkas
      ensures forall b :: b in bullets <==> b in old(bullets) && BulletStep(old(b.State())).Some?
      ensures forall b :: b in bullets ==> b.State() == BulletStep(old(b.State())).value
      ensures |bullets| <= |old(bullets)|
      ensures forall b :: b in beams <==> b in old(beams) && BeamStep(old(b.State())).Some?
      ensures forall b :: b in beams ==> b.State() == BeamStep(old(b.State())).value
      ensures forall e :: e in enemies ==> e.State() == EnemyStep(old(e.State()))
      ensures forall e :: e in shooters <==> e in enemies && EnemyFires(old(e.State()), e in coins)
      ensures forall x :: x in explosions <==> x in old(explosions) && ExplosionStep(old(x.State())).Some?
      ensures forall x :: x in explosions ==> x.State() == ExplosionStep(old(x.State())).value
      ensures forall t :: t in torchkas <==> t in old(torchkas) && TorchkaStep(old(t.State())).Some?
      ensures forall t :: t in torchkas ==> t.State() == TorchkaStep(old(t.State())).value
    {
      StepShots();
      shooters := StepCrowd(coins);
    }

    /** The stepping half of `all.update()`: the player, when it has not been
        killed, moves first and says whether it fires; then every other sprite
        that was there steps once. */
    method Advance(keys: Keys, coins: set<Enemy>) returns (fire: bool, shooters: set<Enemy>)
      modifies this`bullets, this`beams, this`explosions, this`torchkas,
               player, bullets, enemies, beams, explosions, torchkas
      ensures player.State() == if playerAlive then PlayerStep(old(player.State()), keys) else old(player.State())
      ensures fire == (playerAlive && PlayerFires(old(player.State()), keys, |old(bullets)|))
      ensures fire ==> bullets == {}
      ensures forall b :: b in bullets <==> b in old(bullets) && BulletStep(old(b.State())).Some?
      ensures forall b :: b in bullets ==> b.State() == BulletStep(old(b.State())).value
      ensures |bullets| <= |old(bullets)|
      ensures forall b :: b in beams <==> b in old(beams) && BeamStep(old(b.State())).Some?
      ensures forall b :: b in beams ==> b.State() == BeamStep(old(b.State())).value
      ensures forall e :: e in enemies ==> e.State() == EnemyStep(old(e.State()))
      ensures forall e :: e in shooters <==> e in enemies && EnemyFires(old(e.State()), e in coins)
      ensures forall x :: x in explosions <==> x in old(explosions) && ExplosionStep(old(x.State())).Some?
      ensures forall x :: x in explosions ==> x.State() == ExplosionStep(old(x.State())).value
      ensures forall t :: t in torchkas <==> t in old(torchkas) && TorchkaStep(old(t.State())).Some?
      ensures forall t :: t in torchkas ==> t.State() == TorchkaStep(old(t.State())).value
    {
      fire := false;
      if playerAlive {
        fire := player.Update(keys, bullets);
      }
      shooters := StepGroups(coins);
    }

    /** The spawning half of `all.update()`: the player's bullet, when it
        fires, from the ship's new centre, and one beam for each enemy that
        fires. */
    method Launch(fire: bool, shooters: set<Enemy>) returns (ghost shot: set<Bullet>, ghost made: map<Enemy, Beam>)
      requires fire ==> bullets == {}
      modifies this`bullets, this`beams
      ensures |shot| == if fire then 1 else 0
      ensures forall b :: b in shot ==>
                fresh(b) && b.State() == Shot(AtCenter(player.rect.CenterX(), player.rect.CenterY(),
                                                       sizes.bullet.width, sizes.bullet.height), 0)
      ensures bullets == old(bullets) + shot
      ensures made.Keys == shooters
      ensures forall e :: e in shooters ==> fresh(made[e]) && FiredBy(made[e], e)
      ensures forall b :: b in beams <==> b in old(beams) || b in made.Values
    {
      shot := {};
      if fire {
        var b := AddBullet(player.rect.CenterX(), player.rect.CenterY());
        shot := {b};
      }
      made := SpawnBeams(shooters);
    }

    /** `all.update()` during play: `Advance`, then `Launch`. Answers the new
        bullet (none or one) and the new beam of each enemy that fired. */
    method UpdateSprites(keys: Keys, coins: set<Enemy>) returns (ghost shot: set<Bullet>, ghost made: map<Enemy, Beam>)
      requires Valid()
      modifies this`bullets, this`beams, this`explosions, this`torchkas,
               player, bullets, enemies, beams, explosions, torchkas
      ensures Valid()
      ensures player.State() == if playerAlive then PlayerStep(old(player.State()), keys) else old(player.State())
      ensures shot != {} <==> playerAlive && PlayerFires(old(player.State()), keys, |old(bullets)|)
      ensures forall b :: b in shot ==>
                fresh(b) && b.State() == Shot(AtCenter(player.rect.CenterX(), player.rect.CenterY(),
                                                       sizes.bullet.width, sizes.bullet.height), 0)
      ensures forall b :: b in bullets <==> b in shot || (b in old(bullets) && BulletStep(old(b.State())).Some?)
      ensures forall b :: b in bullets && b !in shot ==> b.State() == BulletStep(old(b.State())).value
      ensures forall e :: e in enemies ==> e.State() == EnemyStep(old(e.State()))
      ensures forall e :: e in made <==> e in enemies && EnemyFires(old(e.State()), e in coins)
      ensures forall e :: e in made ==> fresh(made[e]) && FiredBy(made[e], e)
      ensures forall b :: b in beams <==> b in made.Values || (b in old(beams) && BeamStep(old(b.State())).Some?)
      ensures forall b :: b in beams && b !in made.Values ==> b.State() == BeamStep(old(b.State())).value
      ensures forall x :: x in explosions <==> x in old(explosions) && ExplosionStep(old(x.State())).Some?
      ensures forall x :: x in explosions ==> x.State() == ExplosionStep(old(x.State())).value
      ensures forall t :: t in torchkas <==> t in old(torchkas) && TorchkaStep(old(t.State())).Some?
      ensures forall t :: t in torchkas ==> t.State() == TorchkaStep(old(t.State())).value
    {
      var fire, shooters := Advance(keys, coins);
      shot, made := Launch(fire, shooters);
    }

    // -------------------------------------------------------------------------
    // update_enemy

    /** The inner loop of `update_enemy`: every enemy's `move_flag` is
        cleared, so that each steps down at its next move. */
    method StopFormation()
      modifies enemies
      ensures forall e :: e in enemies ==> e.State() == old(e.State()).(moveFlag := false)
    {
      forall e | e in enemies {
        e.moveFlag := false;
      }
    }

    /** `update_enemy`: the enemies are visited in some order. One whose
        bottom is past the lose line ends the game; the first one found at the
        edge (`AtEdge`) stops the whole formation and ends the visit. Answers
        the enemies visited. */
    method UpdateEnemy() returns (ghost visited: set<Enemy>)
      modifies this`state, enemies
      ensures visited <= enemies
      ensures state == GameOver <==> old(state) == GameOver || exists e :: e in visited && PastLoseLine(e.rect)
      ensures state == old(state) || state == GameOver
      ensures (exists e :: e in enemies && AtEdge(old(e.State()))) ==>
                (exists e :: e in visited && AtEdge(old(e.State()))) &&
                forall e :: e in enemies ==> e.State() == old(e.State()).(moveFlag := false)
      ensures (forall e :: e in enemies ==> !AtEdge(old(e.State()))) ==>
                visited == enemies && forall e :: e in enemies ==> e.State() == old(e.State())
    {
      var todo := enemies;
      visited := {};
      while todo != {}
        invariant todo <= enemies && visited == enemies - todo
        invariant state == GameOver <==> old(state) == GameOver || exists e :: e in visited && PastLoseLine(e.rect)
        invariant state == old(state) || state == GameOver
        invariant forall e :: e in visited ==> !AtEdge(e.State())
        invariant forall e :: e in enemies ==> e.State() == old(e.State())
        decreases todo
      {
        var e :| e in todo;
        todo := todo - {e};
        visited := visited + {e};
        if PastLoseLine(e.rect) {
          state := GameOver;
        }
        if AtEdge(e.State()) {
          assert AtEdge(old(e.State()));
          StopFormation();
          return;
        }
      }
    }

    // -------------------------------------------------------------------------
    // collision_detection

    function EnemyRects(): map<Enemy, Rect>
      reads this`enemies, enemies
    {
      map e | e in enemies :: e.rect
    }

    function BulletRects(): map<Bullet, Rect>
      reads this`bullets, bullets
    {
      map b | b in bullets :: b.rect
    }

    function BeamRects(): map<Beam, Rect>
      reads this`beams, beams
    {
      map b | b in beams :: b.rect
    }

    function TorchkaRects(): map<Torchka, Rect>
      reads this`torchkas, torchkas
    {
      map t | t in torchkas :: t.rect
    }

    /** `x` is a new explosion centred on `r`. */
    ghost predicate BlastAt(x: Explosion, r: Rect)
      reads x
    {
      x.State() == ExplosionState(AtCenter(r.CenterX(), r.CenterY(), sizes.explosion.width, sizes.explosion.height), 0, 0)
    }

    /** An explosion is made centred on `r` and joins `all`. */
    method AddExplosion(r: Rect) returns (x: Explosion)
      modifies this`explosions
      ensures fresh(x) && BlastAt(x, r)
      ensures forall y :: y in explosions <==> y in old(explosions) || y == x
    {
      x := new Explosion(r.CenterX(), r.CenterY(), sizes.explosion);
      explosions := explosions + {x};
    }

    /** The first pass: `groupcollide(enemies, bullets, True, True)`. Every
        enemy hit by a bullet is destroyed with the bullets that hit it, an
        explosion appears where it was and the score grows by its points.
        Answers the enemies destroyed, in the order visited, the bullets each
        took and the explosions made for them. */
    method ShootEnemies() returns (killed: seq<Enemy>, hits: map<Enemy, set<Bullet>>,
                                   ghost blasts: seq<Explosion>)
      requires Valid()
      modifies this`enemies, this`bullets, this`explosions, this`score
      ensures Valid()
      ensures Collided(old(EnemyRects()), old(BulletRects()), killed, hits)
      ensures Exhausted(old(EnemyRects()), old(BulletRects()), old(EnemyRects()).Keys, Taken(hits))
      ensures Greedy(old(EnemyRects()), old(BulletRects()), killed, hits)
      ensures forall e :: e in enemies <==> e in old(enemies) && e !in Elements(killed)
      ensures forall b :: b in bullets <==> b in old(bullets) && b !in Taken(hits)
      ensures score == old(score) + SumPoints(killed)
      ensures |blasts| == |killed|
      ensures forall k :: 0 <= k < |killed| ==> fresh(blasts[k]) && BlastAt(blasts[k], killed[k].rect)
      ensures forall x :: x in explosions <==> x in old(explosions) || x in Elements(blasts)
    {
      killed, hits := GroupCollide(EnemyRects(), BulletRects());
      RemoveShot(Elements(killed), Taken(hits));
      blasts := ScoreKills(killed);
    }

    /** The `dokill` half of the first pass: the enemies and the bullets that
        collided leave their groups. */
    method RemoveShot(dead: set<Enemy>, spent: set<Bullet>)
      requires Valid()
      modifies this`enemies, this`bullets
      ensures Valid()
      ensures forall e :: e in enemies <==> e in old(enemies) && e !in dead
      ensures forall b :: b in bullets <==> b in old(bullets) && b !in spent
    {
      enemies := enemies - dead;
      SubsetCardinality(bullets - spent, bullets);
      bullets := bullets - spent;
    }

    /** The scoring half of the first pass: for each enemy destroyed, in
        order, an explosion at its centre and its points added to the score. */
    method ScoreKills(killed: seq<Enemy>) returns (ghost blasts: seq<Explosion>)
      modifies this`explosions, this`score
      ensures score == old(score) + SumPoints(killed)
      ensures |blasts| == |killed|
      ensures forall k :: 0 <= k < |killed| ==> fresh(blasts[k]) && BlastAt(blasts[k], killed[k].rect)
      ensures forall x :: x in explosions <==> x in old(explosions) || x in Elements(blasts)
    {
      blasts := [];
      for i := 0 to |killed|
        invariant |blasts| == i
        invariant score == old(score) + SumPoints(killed[..i])
        invariant forall k :: 0 <= k < i ==> fresh(blasts[k]) && BlastAt(blasts[k], killed[k].rect)
        invariant forall x :: x in explosions <==> x in old(explosions) || x in blasts
      {
        var e := killed[i];
        var x := AddExplosion(e.rect);
        score := score + e.points;
        assert killed[..i + 1] == killed[..i] + [e];
        SumPointsAppend(killed[..i], [e]);
        blasts := blasts + [x];
      }
      assert killed[..|killed|] == killed;
    }

    /** The pause after a lost life: the player, the bullets, the enemies and
        the beams stand still for `PauseTicks` ticks. */
    method PauseAll()
      modifies player, bullets, enemies, beams
      ensures player.State() == old(player.State()).(pauseTime := PauseTicks)
      ensures forall b :: b in bullets ==> b.State() == old(b.State()).(pauseTime := PauseTicks)
      ensures forall e :: e in enemies ==> e.State() == old(e.State()).(pauseTime := PauseTicks)
      ensures forall b :: b in beams ==> b.State() == old(b.State()).(pauseTime := PauseTicks)
    {
      player.pauseTime := PauseTicks;
      forall b | b in bullets {
        b.pauseTime := PauseTicks;
      }
      forall e | e in enemies {
        e.pauseTime := PauseTicks;
      }
      forall b | b in beams {
        b.pauseTime := PauseTicks;
      }
    }

    /** The second pass: `spritecollide(player, beams, True)`. The beams
        touching the ship are destroyed; if there was one, a ship with no life
        left is killed and the game is over, otherwise it loses a life, an
        explosion appears on it and everything pauses. Answers the beams that
        hit and the explosion made, if any. */
    method ShootPlayer() returns (hit: set<Beam>, ghost blast: set<Explosion>)
      modifies this`beams, this`explosions, this`state, this`playerAlive, player, bullets, enemies, beams
      ensures forall b :: b in hit <==> b in old(beams) && Overlaps(old(player.rect), old(b.rect))
      ensures forall b :: b in beams <==> b in old(beams) && b !in hit
      ensures forall x :: x in explosions <==> x in old(explosions) || x in blast
      ensures hit == {} ==>
                state == old(state) && playerAlive == old(playerAlive) && blast == {} &&
                player.State() == old(player.State()) &&
                (forall b :: b in bullets ==> b.State() == old(b.State())) &&
                (forall e :: e in enemies ==> e.State() == old(e.State())) &&
                (forall b :: b in beams ==> b.State() == old(b.State()))
      ensures hit != {} && old(player.life) == 0 ==>
                state == GameOver && !playerAlive && blast == {} &&
                player.State() == old(player.State()) &&
                (forall b :: b in bullets ==> b.State() == old(b.State())) &&
                (forall e :: e in enemies ==> e.State() == old(e.State())) &&
                (forall b :: b in beams ==> b.State() == old(b.State()))
      ensures hit != {} && old(player.life) > 0 ==>
                state == old(state) && playerAlive == old(playerAlive) &&
                player.State() == old(player.State()).(life := old(player.life) - 1, pauseTime := PauseTicks) &&
                (forall b :: b in bullets ==> b.State() == old(b.State()).(pauseTime := PauseTicks)) &&
                (forall e :: e in enemies ==> e.State() == old(e.State()).(pauseTime := PauseTicks)) &&
                (forall b :: b in beams ==> b.State() == old(b.State()).(pauseTime := PauseTicks)) &&
                |blast| == 1 && forall x :: x in blast ==> fresh(x) && BlastAt(x, player.rect)
    {
      hit := set b | b in beams && Overlaps(player.rect, b.rect);
      beams := beams - hit;
      blast := {};
      if hit != {} {
        if player.life == 0 {
          playerAlive := false;
          state := GameOver;
        } else {
          player.life := player.life - 1;
          var x := AddExplosion(player.rect);
          blast := {x};
          PauseAll();
        }
      }
    }

    /** Each block in `struck` gains one damage; the other blocks are left as they were. */
    method DamageBlocks(struck: set<Torchka>)
      modifies torchkas
      ensures forall t :: t in torchkas ==>
                t.State() == old(t.State()).(count := old(t.count) + if t in struck then 1 else 0)
    {
      forall t | t in torchkas && t in struck {
        t.count := t.count + 1;
      }
    }

    /** The third pass: `groupcollide(torchkas, bullets, False, True)`. The
        bullets that hit a block are destroyed and each block hit gains one
        damage, however many bullets hit it. */
    method ShieldBullets() returns (struck: seq<Torchka>, hits: map<Torchka, set<Bullet>>)
      modifies this`bullets, torchkas
      ensures Collided(old(TorchkaRects()), old(BulletRects()), struck, hits)
      ensures Exhausted(old(TorchkaRects()), old(BulletRects()), old(TorchkaRects()).Keys, Taken(hits))
      ensures Greedy(old(TorchkaRects()), old(BulletRects()), struck, hits)
      ensures forall b :: b in bullets <==> b in old(bullets) && b !in Taken(hits)
      ensures |bullets| <= |old(bullets)|
      ensures forall t :: t in torchkas ==>
                t.State() == old(t.State()).(count := old(t.count) + if t in hits.Keys then 1 else 0)
    {
      struck, hits := GroupCollide(TorchkaRects(), BulletRects());
      DamageBlocks(hits.Keys);
      DropBullets(Taken(hits));
    }

    /** The bullets in `spent` leave their group. */
    method DropBullets(spent: set<Bullet>)
      modifies this`bullets
      ensures forall b :: b in bullets <==> b in old(bullets) && b !in spent
      ensures |bullets| <= |old(bullets)|
    {
      SubsetCardinality(bullets - spent, bullets);
      bullets := bullets - spent;
    }

    /** The fourth pass: `groupcollide(torchkas, beams, False, True)`. */
    method ShieldBeams() returns (struck: seq<Torchka>, hits: map<Torchka, set<Beam>>)
      modifies this`beams, torchkas
      ensures Collided(old(TorchkaRects()), old(BeamRects()), struck, hits)
      ensures Exhausted(old(TorchkaRects()), old(BeamRects()), old(TorchkaRects()).Keys, Taken(hits))
      ensures Greedy(old(TorchkaRects()), old(BeamRects()), struck, hits)
      ensures forall b :: b in beams <==> b in old(beams) && b !in Taken(hits)
      ensures forall t :: t in torchkas ==>
                t.State() == old(t.State()).(count := old(t.count) + if t in hits.Keys then 1 else 0)
    {
      struck, hits := GroupCollide(TorchkaRects(), BeamRects());
      DamageBlocks(hits.Keys);
      beams := beams - Taken(hits);
    }

    /** `collision_detection`: the four passes in order. Answers the enemies
        destroyed. */
    method CollisionDetection() returns (killed: seq<Enemy>)
      requires Valid()
      modifies this`enemies, this`bullets, this`beams, this`explosions, this`score, this`state,
               this`playerAlive, player, bullets, enemies, beams, torchkas
      ensures Valid()
      ensures Distinct(killed)
      ensures forall e :: e in enemies <==> e in old(enemies) && e !in Elements(killed)
      ensures score == old(score) + SumPoints(killed)
      ensures state == old(state) || state == GameOver
    {
      killed := HitShips();
      HitBlocks();
    }

    /** The first two passes of `collision_detection`: bullets against enemies,
        then beams against the ship. */
    method HitShips() returns (killed: seq<Enemy>)
      requires Valid()
      modifies this`enemies, this`bullets, this`beams, this`explosions, this`score, this`state,
               this`playerAlive, player, bullets, enemies, beams
      ensures Valid()
      ensures Distinct(killed)
      ensures forall e :: e in enemies <==> e in old(enemies) && e !in Elements(killed)
      ensures score == old(score) + SumPoints(killed)
      ensures state == old(state) || state == GameOver
    {
      var hits;
      ghost var blasts;
      killed, hits, blasts := ShootEnemies();
      var hit, blast := ShootPlayer();
    }

    /** The last two passes of `collision_detection`: bullets, then beams,
        against the barricades. */
    method HitBlocks()
      requires Valid()
      modifies this`bullets, this`beams, torchkas
      ensures Valid()
    {
      var struck, hits := ShieldBullets();
      var struck', hits' := ShieldBeams();
    }

    // -------------------------------------------------------------------------
    // update and event_handler

    /** `Game.update`: while playing, one tick of the game; then, whatever the
        state, the next stage's wave when no enemy is left. */
    method Update(keys: Keys, coins: set<Enemy>)
      requires Valid()
      modifies this`state, this`score, this`stage, this`playerAlive, this`bullets, this`enemies,
               this`beams, this`explosions, this`torchkas, this`formation,
               player, bullets, enemies, beams, explosions, torchkas
      ensures Valid()
      ensures enemies != {}
      ensures score >= old(score)
      ensures state == old(state) || (old(state) == Play && state == GameOver)
      ensures old(state) != Play ==>
                score == old(score) && stage == old(stage) + (if old(enemies) == {} then 1 else 0)
      ensures old(state) != Play ==>
                playerAlive == old(playerAlive) && player.State() == old(player.State()) &&
                bullets == old(bullets) && beams == old(beams) && explosions == old(explosions) &&
                torchkas == old(torchkas) && (forall t :: t in torchkas ==> t.State() == old(t.State())) &&
                (forall b :: b in bullets ==> b.State() == old(b.State())) &&
                (forall b :: b in beams ==> b.State() == old(b.State())) &&
                (forall x :: x in explosions ==> x.State() == old(x.State()))
      ensures old(state) != Play && old(enemies) != {} ==>
                enemies == old(enemies) && forall e :: e in enemies ==> e.State() == old(e.State())
      ensures stage == old(stage) ||
              (stage == old(stage) + 1 && |enemies| == WaveSize &&
               |formation| == WaveSize && WaveBuilt(formation) && enemies == Elements(formation))
    {
      if state == Play {
        Tick(keys, coins);
      }
      NextStage();
    }

    /** The PLAY branch of `Game.update`: `all.update()`, `update_enemy` and
        `collision_detection`. The score never falls, and the only change of
        state is to GAMEOVER. */
    method Tick(keys: Keys, coins: set<Enemy>)
      requires Valid()
      modifies this`state, this`score, this`playerAlive, this`bullets, this`enemies,
               this`beams, this`explosions, this`torchkas,
               player, bullets, enemies, beams, explosions, torchkas
      ensures Valid()
      ensures score >= old(score)
      ensures state == old(state) || state == GameOver
    {
      var shot, made := UpdateSprites(keys, coins);
      Settle();
    }

    /** What follows `all.update()` in a tick: `update_enemy`, then
        `collision_detection`. */
    method Settle()
      requires Valid()
      modifies this`state, this`score, this`playerAlive, this`bullets, this`enemies,
               this`beams, this`explosions, player, bullets, enemies, beams, torchkas
      ensures Valid()
      ensures score >= old(score)
      ensures state == old(state) || state == GameOver
    {
      var visited := UpdateEnemy();
      var killed := CollisionDetection();
    }

    /** The end of `Game.update`: when the last enemy is gone, the stage goes
        up by one and `set_enemy` brings the next wave, so that there is
        always an enemy left. */
    method NextStage()
      modifies this`stage, this`enemies, this`formation
      ensures enemies != {}
      ensures old(enemies) != {} ==> stage == old(stage) && enemies == old(enemies) && formation == old(formation)
      ensures old(enemies) == {} ==>
                stage == old(stage) + 1 && |enemies| == WaveSize &&
                |formation| == WaveSize && WaveBuilt(formation) && enemies == Elements(formation) &&
                forall e :: e in enemies ==> fresh(e)
    {
      if enemies == {} {
        stage := stage + 1;
        formation := SetEnemy();
      }
    }

    /** The SPACE-release branch of `event_handler`: the title screen starts
        play, and after a game over a new game is set up and starts at once;
        during play nothing happens. */
    method SpaceReleased()
      requires Valid()
      modifies this
      ensures Valid()
      ensures old(state) == Play ==> unchanged(this)
      ensures old(state) == Start ==>
                state == Play && score == old(score) && stage == old(stage) && player == old(player) &&
                playerAlive == old(playerAlive) && bullets == old(bullets) && enemies == old(enemies) &&
                beams == old(beams) && explosions == old(explosions) && torchkas == old(torchkas)
      ensures old(state) == GameOver ==> state == Play && NewGame() && fresh(player)
    {
      if state == Start {
        state := Play;
      } else if state == GameOver {
        InitGame();
        state := Play;
      }
    }
  }
}
