/**
  The sprites of the game (invader.py:43-221): the player's ship, its bullet,
  the enemies of the formation, their beams, explosions and the barricade
  blocks ("torchka"). Each sprite is an object whose `Update` changes its own
  fields once per tick; each is specified by a pure step function over a
  snapshot of those fields (`State()`), and what the game promises about a
  sprite is proved about that function. Images are kept only as indices.
  A sprite that removes itself from its groups (`kill()`) is modelled by
  `Update` answering `false`; the game then drops it from its groups.
 */
module Sprites {
  import opened Geometry

  /** The size of a sprite's image, read from its image file. */
  datatype Size = Size(width: nat, height: nat)

  /** The keys held down during a tick. */
  datatype Keys = Keys(left: bool, right: bool, space: bool)

  const PlayerSpeed: int := 5
  const BulletSpeed: int := 10
  const BeamSpeed: int := 5
  const StartLife: nat := 3
  /** Ticks between two moves of a fresh enemy. */
  const StartUpdateTime: int := 60
  /** How much shorter the interval gets at each step-down. */
  const UpdateTimeStep: int := 3
  /** Ticks each explosion image stays on screen. */
  const AniCycle: nat := 5
  /** Images in explosion.png. */
  const ExplosionImages: nat := 4
  const MaxFrame: nat := ExplosionImages * AniCycle
  /** Damage images in torchka.png: counts 0 to 3 are drawn, more removes the block. */
  const TorchkaImages: nat := 4

  // ---------------------------------------------------------------------------
  // Player (invader.py:43-73)

  datatype PlayerState = PlayerState(rect: Rect, life: nat, pauseTime: nat, image: nat)

  /** Where the player's left edge ends up for the held keys, starting inside
      the screen: five pixels towards the held key, left winning over right,
      stopped at the screen's edges. */
  function SteeredLeft(r: Rect, keys: Keys): int {
    if keys.left then
      (if r.left - PlayerSpeed < 0 then 0 else r.left - PlayerSpeed)
    else if keys.right then
      (if r.Right() + PlayerSpeed > ScreenWidth then ScreenWidth - r.width else r.left + PlayerSpeed)
    else r.left
  }

  /** The horizontal move for the held keys: left wins over right. */
  function KeyShift(keys: Keys): int {
    if keys.left then -PlayerSpeed else if keys.right then PlayerSpeed else 0
  }

  lemma ClampSteers(r: Rect, keys: Keys)
    ensures r.Inside(Screen) ==> Clamp(r.Move(KeyShift(keys), 0), Screen).left == SteeredLeft(r, keys)
    ensures r.Inside(Screen) ==> Clamp(r.Move(KeyShift(keys), 0), Screen).top == r.top
  {
    if r.Inside(Screen) {
      var m := r.Move(KeyShift(keys), 0);
      assert m == Rect(r.left + KeyShift(keys), r.top, r.width, r.height);
      assert Clamp(m, Screen) == Rect(ClampAxis(m.left, r.width, 0, ScreenWidth),
                                      ClampAxis(r.top, r.height, 0, ScreenHeight), r.width, r.height);
      if r.width == ScreenWidth {
        assert r.left == 0;
      }
      if r.height == ScreenHeight {
        assert r.top == 0;
      }
    }
  }

  /** `Player.update`: while paused the ship only counts down and shows its
      hit image; otherwise it moves with the keys and is clamped to the screen. */
  function PlayerStep(s: PlayerState, keys: Keys): (r: PlayerState)
    ensures r.life == s.life && r.rect.width == s.rect.width && r.rect.height == s.rect.height
    ensures s.pauseTime != 0 ==> r == s.(pauseTime := s.pauseTime - 1, image := 1)
    ensures s.pauseTime == 0 ==> r.pauseTime == 0 && r.image == 0
    ensures s.pauseTime == 0 && s.rect.width <= ScreenWidth && s.rect.height <= ScreenHeight ==>
              r.rect.Inside(Screen)
    ensures s.pauseTime == 0 && s.rect.Inside(Screen) ==>
              r.rect.top == s.rect.top && r.rect.left == SteeredLeft(s.rect, keys)
  {
    if s.pauseTime != 0 then
      s.(pauseTime := s.pauseTime - 1, image := 1)
    else
      ClampSteers(s.rect, keys);
      s.(image := 0, rect := Clamp(s.rect.Move(KeyShift(keys), 0), Screen))
  }

  /** Whether `Player.update` fires: not paused, space held and no bullet in flight. */
  predicate PlayerFires(s: PlayerState, keys: Keys, bulletsInFlight: nat) {
    s.pauseTime == 0 && keys.space && bulletsInFlight == 0
  }

  class Player {
    var rect: Rect
    var life: nat
    var pauseTime: nat
    var image: nat

    function State(): PlayerState
      reads this
    {
      PlayerState(rect, life, pauseTime, image)
    }

    /** A new ship: left edge at the middle of the screen, bottom on the
        bottom edge, three lives. */
    constructor (size: Size)
      ensures State() == PlayerState(Rect(ScreenWidth / 2, ScreenHeight - size.height, size.width, size.height),
                                     StartLife, 0, 0)
    {
      rect := Rect(ScreenWidth / 2, ScreenHeight - size.height, size.width, size.height);
      life := StartLife;
      pauseTime := 0;
      image := 0;
    }

    /** `Player.update`. `bullets` is the bullet group the player was given;
        `fire` says whether a bullet is to be spawned at the ship's centre. */
    method Update(keys: Keys, bullets: set<Bullet>) returns (fire: bool)
      modifies this
      ensures State() == PlayerStep(old(State()), keys)
      ensures fire == PlayerFires(old(State()), keys, |bullets|)
    {
      if pauseTime != 0 {
        pauseTime := pauseTime - 1;
        image := 1;
        return false;
      }
      image := 0;
      if keys.left {
        rect := rect.Move(-PlayerSpeed, 0);
      } else if keys.right {
        rect := rect.Move(PlayerSpeed, 0);
      }
      rect := Clamp(rect, Screen);
      fire := keys.space && |bullets| == 0;
    }
  }

  // ---------------------------------------------------------------------------
  // Bullet (invader.py:76-94) and Beam (invader.py:164-182)

  /** The fields a bullet or a beam has. */
  datatype Shot = Shot(rect: Rect, pauseTime: nat)

  /** `Bullet.update`: `None` when the bullet removes itself. */
  function BulletStep(s: Shot): (r: Option<Shot>)
    ensures s.pauseTime != 0 ==> r == Some(s.(pauseTime := s.pauseTime - 1))
    ensures s.pauseTime == 0 ==> (r.Some? <==> s.rect.top >= BulletSpeed)
    ensures s.pauseTime == 0 && r.Some? ==>
              r.value.pauseTime == 0 && r.value.rect.width == s.rect.width && r.value.rect.height == s.rect.height &&
              r.value.rect.CenterX() == s.rect.CenterX() && r.value.rect.CenterY() == s.rect.CenterY() - BulletSpeed
  {
    if s.pauseTime != 0 then Some(s.(pauseTime := s.pauseTime - 1))
    else
      var moved := s.rect.Move(0, -BulletSpeed);
      if moved.top < 0 then None else Some(s.(rect := moved))
  }

  /** `Beam.update`: `None` when the beam removes itself. */
  function BeamStep(s: Shot): (r: Option<Shot>)
    ensures s.pauseTime != 0 ==> r == Some(s.(pauseTime := s.pauseTime - 1))
    ensures s.pauseTime == 0 ==> (r.Some? <==> s.rect.Bottom() + BeamSpeed <= ScreenHeight)
    ensures s.pauseTime == 0 && r.Some? ==>
              r.value.pauseTime == 0 && r.value.rect.width == s.rect.width && r.value.rect.height == s.rect.height &&
              r.value.rect.CenterX() == s.rect.CenterX() && r.value.rect.CenterY() == s.rect.CenterY() + BeamSpeed
  {
    if s.pauseTime != 0 then Some(s.(pauseTime := s.pauseTime - 1))
    else
      var moved := s.rect.Move(0, BeamSpeed);
      if moved.Bottom() > ScreenHeight then None else Some(s.(rect := moved))
  }

  class Bullet {
    var rect: Rect
    var pauseTime: nat

    function State(): Shot
      reads this
    {
      Shot(rect, pauseTime)
    }

    constructor (cx: int, cy: int, size: Size)
      ensures State() == Shot(AtCenter(cx, cy, size.width, size.height), 0)
    {
      rect := AtCenter(cx, cy, size.width, size.height);
      pauseTime := 0;
    }

    method Update() returns (alive: bool)
      modifies this
      ensures alive == BulletStep(old(State())).Some?
      ensures alive ==> State() == BulletStep(old(State())).value
    {
      if pauseTime != 0 {
        pauseTime := pauseTime - 1;
        return true;
      }
      rect := rect.Move(0, -BulletSpeed);
      alive := rect.top >= 0;
    }
  }

  class Beam {
    var rect: Rect
    var pauseTime: nat

    function State(): Shot
      reads this
    {
      Shot(rect, pauseTime)
    }

    constructor (cx: int, cy: int, size: Size)
      ensures State() == Shot(AtCenter(cx, cy, size.width, size.height), 0)
    {
      rect := AtCenter(cx, cy, size.width, size.height);
      pauseTime := 0;
    }

    method Update() returns (alive: bool)
      modifies this
      ensures alive == BeamStep(old(State())).Some?
      ensures alive ==> State() == BeamStep(old(State())).value
    {
      if pauseTime != 0 {
        pauseTime := pauseTime - 1;
        return true;
      }
      rect := rect.Move(0, BeamSpeed);
      alive := rect.Bottom() <= ScreenHeight;
    }
  }

  // ---------------------------------------------------------------------------
  // Enemy, Enemy20, Enemy30 (invader.py:97-161)

  /** The moving part of an enemy; `frame` counts the moves made (the image
      shown is the previous count modulo 2). */
  datatype EnemyState = EnemyState(rect: Rect, movedHeight: int, speed: int, pauseTime: nat,
                                   updateTime: int, updateTimer: int, moveFlag: bool, downedFlag: bool,
                                   frame: nat)

  /** What every enemy keeps true: the horizontal step is one sprite width in
      one direction or the other, and `movedHeight` is where its centre goes on
      the next step-down, one sprite height lower. */
  predicate Shaped(s: EnemyState) {
    (s.speed == s.rect.width || s.speed + s.rect.width == 0) &&
    s.movedHeight == s.rect.CenterY() + s.rect.height
  }

  /** `Enemy.update` without the beam: a paused enemy only counts its pause
      down; otherwise its timer counts down, and when it is at zero the enemy
      either steps sideways or, when the formation has been stopped, steps down
      one row, reverses and shortens its interval by 3. */
  function EnemyStep(s: EnemyState): (r: EnemyState)
    ensures r.rect.width == s.rect.width && r.rect.height == s.rect.height
    ensures Shaped(s) ==> Shaped(r)
    ensures r.updateTime <= s.updateTime
    ensures s.pauseTime != 0 ==> r == s.(pauseTime := s.pauseTime - 1)
    ensures s.pauseTime == 0 && s.updateTimer != 0 ==> r == s.(updateTimer := s.updateTimer - 1)
    ensures s.pauseTime == 0 && s.updateTimer == 0 ==>
              r.pauseTime == 0 && r.moveFlag && r.frame == s.frame + 1 && r.updateTimer == s.updateTime - 1
    ensures s.pauseTime == 0 && s.updateTimer == 0 && s.moveFlag ==>
              r.rect.left == s.rect.left + s.speed && r.rect.top == s.rect.top &&
              !r.downedFlag && r.speed == s.speed && r.updateTime == s.updateTime
    ensures s.pauseTime == 0 && s.updateTimer == 0 && !s.moveFlag ==>
              r.rect.left == s.rect.left && (Shaped(s) ==> r.rect.top == s.rect.top + s.rect.height) &&
              r.downedFlag && r.speed == -s.speed && r.updateTime == s.updateTime - UpdateTimeStep
  {
    if s.pauseTime != 0 then
      s.(pauseTime := s.pauseTime - 1)
    else if s.updateTimer != 0 then
      s.(updateTimer := s.updateTimer - 1)
    else
      var moved :=
        if s.moveFlag then
          s.(rect := s.rect.Move(s.speed, 0), downedFlag := false)
        else
          s.(rect := AtCenter(s.rect.CenterX(), s.movedHeight, s.rect.width, s.rect.height),
             updateTime := s.updateTime - UpdateTimeStep, downedFlag := true,
             speed := -s.speed, moveFlag := true);
      moved.(frame := s.frame + 1, movedHeight := moved.rect.CenterY() + moved.rect.height,
             updateTimer := s.updateTime - 1)
  }

  /** A new enemy centred at (cx, cy): stepping one width to the right every
      60 ticks, starting with a full interval. */
  function EnemyAt(cx: int, cy: int, size: Size): (s: EnemyState)
    ensures Shaped(s) && s.rect.CenterX() == cx && s.rect.CenterY() == cy
    ensures s.rect.width == size.width && s.rect.height == size.height && s.speed == size.width
    ensures s.pauseTime == 0 && s.updateTime == StartUpdateTime && s.updateTimer == StartUpdateTime
    ensures s.moveFlag && !s.downedFlag
  {
    EnemyState(AtCenter(cx, cy, size.width, size.height), cy + size.height, size.width, 0,
               StartUpdateTime, StartUpdateTime, true, false, 0)
  }

  /** An enemy fires a beam when it is not paused and the coin it was given
      (the `prob_beam > random.random()` draw) says so. */
  predicate EnemyFires(s: EnemyState, coin: bool) {
    s.pauseTime == 0 && coin
  }

  /** What destroying an enemy scores: its class decides. */
  type Points = p: int | p == 10 || p == 20 || p == 30 witness 10

  /** One enemy; `points` is 10 for `Enemy`, 20 for `Enemy20`, 30 for `Enemy30`. */
  class Enemy {
    const points: Points
    var rect: Rect
    var movedHeight: int
    var speed: int
    var pauseTime: nat
    var updateTime: int
    var updateTimer: int
    var moveFlag: bool
    var downedFlag: bool
    var frame: nat

    function State(): EnemyState
      reads this
    {
      EnemyState(rect, movedHeight, speed, pauseTime, updateTime, updateTimer, moveFlag, downedFlag, frame)
    }

    constructor (cx: int, cy: int, size: Size, points: Points)
      ensures this.points == points
      ensures State() == EnemyAt(cx, cy, size)
    {
      this.points := points;
      var r := AtCenter(cx, cy, size.width, size.height);
      rect := r;
      movedHeight := r.CenterY() + r.height;
      speed := r.width;
      pauseTime := 0;
      updateTime := StartUpdateTime;
      updateTimer := StartUpdateTime;
      moveFlag := true;
      downedFlag := false;
      frame := 0;
    }

    /** `Enemy.update`. `coin` is this tick's random draw; `fires` says
        whether a beam is to be spawned at the enemy's (new) centre. */
    method Update(coin: bool) returns (fires: bool)
      modifies this
      ensures State() == EnemyStep(old(State()))
      ensures fires == EnemyFires(old(State()), coin)
    {
      if pauseTime != 0 {
        pauseTime := pauseTime - 1;
        return false;
      }
      if updateTimer == 0 {
        updateTimer := updateTime;
        if moveFlag {
          rect := rect.Move(speed, 0);
          downedFlag := false;
        } else {
          MoveDown();
          updateTime := updateTime - UpdateTimeStep;
          downedFlag := true;
          speed := -speed;
          moveFlag := true;
        }
        frame := frame + 1;
        movedHeight := rect.CenterY() + rect.height;
      }
      updateTimer := updateTimer - 1;
      fires := coin;
    }

    /** `Enemy.move_down`: the centre goes to `movedHeight`, same column. */
    method MoveDown()
      modifies this`rect
      ensures rect.CenterX() == old(rect).CenterX() && rect.CenterY() == movedHeight
      ensures rect.width == old(rect).width && rect.height == old(rect).height
    {
      rect := AtCenter(rect.CenterX(), movedHeight, rect.width, rect.height);
    }
  }

  /** Points scored for destroying the enemies of `es`. */
  function SumPoints(es: seq<Enemy>): nat {
    if es == [] then 0 else es[0].points + SumPoints(es[1..])
  }

  lemma {:induction false} SumPointsAppend(a: seq<Enemy>, b: seq<Enemy>)
    ensures SumPoints(a + b) == SumPoints(a) + SumPoints(b)
  {
    if a != [] {
      assert (a + b)[0] == a[0] && (a + b)[1..] == a[1..] + b;
      SumPointsAppend(a[1..], b);
    } else {
      assert a + b == b;
    }
  }

  /** The points of a prefix grow by the points of its next enemy. */
  lemma SumPointsPrefix(es: seq<Enemy>, n: int)
    requires 0 < n <= |es|
    ensures SumPoints(es[..n]) == SumPoints(es[..n - 1]) + es[n - 1].points
  {
    assert es[..n] == es[..n - 1] + [es[n - 1]];
    SumPointsAppend(es[..n - 1], [es[n - 1]]);
    assert [es[n - 1]][1..] == [];
  }

  /** Taking out the element at `k` removes one occurrence of it. */
  lemma MultisetRemove<T>(b: seq<T>, k: int)
    requires 0 <= k < |b|
    ensures multiset(b[..k] + b[k + 1..]) == multiset(b) - multiset{b[k]}
  {
    assert b == b[..k] + [b[k]] + b[k + 1..];
  }

  /** Taking out the enemy at `k` takes its points out of the sum. */
  lemma SumPointsRemove(b: seq<Enemy>, k: int)
    requires 0 <= k < |b|
    ensures SumPoints(b) == b[k].points + SumPoints(b[..k] + b[k + 1..])
  {
    assert b == b[..k] + ([b[k]] + b[k + 1..]);
    SumPointsAppend(b[..k], [b[k]] + b[k + 1..]);
    SumPointsAppend(b[..k], b[k + 1..]);
    assert ([b[k]] + b[k + 1..])[1..] == b[k + 1..];
  }

  /** The score for a set of destroyed enemies does not depend on the order
      they were destroyed in: two listings with the same elements score the same. */
  lemma {:induction false} SumPointsOrderFree(a: seq<Enemy>, b: seq<Enemy>)
    requires multiset(a) == multiset(b)
    ensures SumPoints(a) == SumPoints(b)
  {
    if a != [] {
      var x := a[0];
      assert x in multiset(b) by {
        assert x in multiset(a);
      }
      var k :| 0 <= k < |b| && b[k] == x;
      var rest := b[..k] + b[k + 1..];
      assert multiset(a[1..]) == multiset(rest) by {
        MultisetRemove(b, k);
        MultisetRemove(a, 0);
        assert a[..0] + a[1..] == a[1..];
      }
      SumPointsOrderFree(a[1..], rest);
      SumPointsRemove(b, k);
    } else {
      assert |multiset(b)| == 0;
    }
  }

  // ---------------------------------------------------------------------------
  // Explosion (invader.py:185-203)

  datatype ExplosionState = ExplosionState(rect: Rect, frame: nat, image: nat)

  /** `Explosion.update`: shows image `frame / 5`, counts the frame and removes
      itself (`None`) when the count reaches 4 * 5. */
  function ExplosionStep(s: ExplosionState): (r: Option<ExplosionState>)
    ensures r.None? <==> s.frame + 1 == MaxFrame
    ensures r.Some? ==> r.value.rect == s.rect && r.value.frame == s.frame + 1
    ensures r.Some? && s.frame < MaxFrame ==> r.value.image < ExplosionImages
  {
    var t := s.(image := s.frame / AniCycle, frame := s.frame + 1);
    if t.frame == MaxFrame then None else Some(t)
  }

  class Explosion {
    var rect: Rect
    var frame: nat
    var image: nat

    function State(): ExplosionState
      reads this
    {
      ExplosionState(rect, frame, image)
    }

    constructor (cx: int, cy: int, size: Size)
      ensures State() == ExplosionState(AtCenter(cx, cy, size.width, size.height), 0, 0)
    {
      rect := AtCenter(cx, cy, size.width, size.height);
      frame := 0;
      image := 0;
    }

    method Update() returns (alive: bool)
      modifies this
      ensures alive == ExplosionStep(old(State())).Some?
      ensures alive ==> State() == ExplosionStep(old(State())).value
    {
      image := frame / AniCycle;
      frame := frame + 1;
      alive := frame != MaxFrame;
    }
  }

  /** The explosion after `n` more updates, `None` once it has removed itself. */
  function ExplosionAfter(s: ExplosionState, n: nat): Option<ExplosionState>
    decreases n
  {
    if n == 0 then Some(s)
    else match ExplosionStep(s)
      case None => None
      case Some(t) => ExplosionAfter(t, n - 1)
  }

  /** An explosion shown from frame `f` stays for exactly `MaxFrame - f - 1`
      more updates and is gone after the next one: a new explosion (frame 0)
      lives for 20 updates. */
  lemma {:induction false} ExplosionLifetime(s: ExplosionState, n: nat)
    requires s.frame < MaxFrame
    ensures ExplosionAfter(s, n).Some? <==> s.frame + n < MaxFrame
    ensures ExplosionAfter(s, n).Some? ==> ExplosionAfter(s, n).value.frame == s.frame + n
    decreases n
  {
    if n > 0 && s.frame + 1 < MaxFrame {
      ExplosionLifetime(ExplosionStep(s).value, n - 1);
    }
  }

  // ---------------------------------------------------------------------------
  // Torchka, one barricade block (invader.py:206-221)

  datatype TorchkaState = TorchkaState(rect: Rect, count: nat, image: nat)

  /** `Torchka.update`: a block hit more than three times removes itself
      (`None`); otherwise it shows the damage image for its hit count. */
  function TorchkaStep(s: TorchkaState): (r: Option<TorchkaState>)
    ensures r.None? <==> s.count >= TorchkaImages
    ensures r.Some? ==> r.value.rect == s.rect && r.value.count == s.count && r.value.image < TorchkaImages
  {
    if s.count > 3 then None else Some(s.(image := s.count))
  }

  class Torchka {
    var rect: Rect
    var count: nat
    var image: nat

    function State(): TorchkaState
      reads this
    {
      TorchkaState(rect, count, image)
    }

    constructor (cx: int, cy: int, size: Size)
      ensures State() == TorchkaState(AtCenter(cx, cy, size.width, size.height), 0, 0)
    {
      rect := AtCenter(cx, cy, size.width, size.height);
      count := 0;
      image := 0;
    }

    method Update() returns (alive: bool)
      modifies this
      ensures alive == TorchkaStep(old(State())).Some?
      ensures alive ==> State() == TorchkaStep(old(State())).value
    {
      if count > 3 {
        return false;
      }
      image := count;
      alive := true;
    }
  }

  /** Total of a list of hit counts. */
  function Total(hits: seq<nat>): nat {
    if hits == [] then 0 else hits[0] + Total(hits[1..])
  }

  /** A barricade block over several ticks: each tick it updates, then takes
      `hits[i]` hits in that tick's collisions (one per colliding pass).
      `None` once it has removed itself. */
  function BarricadeAfter(s: TorchkaState, hits: seq<nat>): Option<TorchkaState>
    decreases hits
  {
    if hits == [] then Some(s)
    else match TorchkaStep(s)
      case None => None
      case Some(t) => BarricadeAfter(t.(count := t.count + hits[0]), hits[1..])
  }

  /** A block is still there after a run of ticks exactly when the hits it took
      before the last tick's update total at most 3: it absorbs four hits and
      is removed by the first update that finds a fourth. */
  lemma {:induction false} BarricadeLifetime(s: TorchkaState, hits: seq<nat>)
    ensures BarricadeAfter(s, hits).Some? <==> hits == [] || s.count + Total(hits[..|hits| - 1]) < TorchkaImages
    ensures BarricadeAfter(s, hits).Some? ==> BarricadeAfter(s, hits).value.count == s.count + Total(hits)
    decreases hits
  {
    if hits != [] && s.count < TorchkaImages {
      var t := TorchkaStep(s).value.(count := s.count + hits[0]);
      BarricadeLifetime(t, hits[1..]);
      if |hits| > 1 {
        assert hits[..|hits| - 1][1..] == hits[1..][..|hits| - 2];
      } else {
        assert hits[..|hits| - 1] == [];
      }
      assert BarricadeAfter(s, hits) == BarricadeAfter(t, hits[1..]);
    }
  }
}
