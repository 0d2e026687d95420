/**
  Where a wave of enemies and the barricades are placed (invader.py:264-285):
  the 5 x 10 formation whose top row depends on the stage, the points each
  row is worth, and the five blocks of one barricade.
 */
module Layout {

  const WaveRows: nat := 5
  const WaveColumns: nat := 10
  const WaveSize: nat := WaveRows * WaveColumns

  /** Centre height of the formation's top row: 48 pixels further down for
      each stage, back to the top every 8 stages. */
  function StartHeight(stage: int): (h: int)
    ensures 48 <= h <= 8 * 48 && h % 48 == 0
  {
    (stage % 8 + 1) * 48
  }

  /** Points of an enemy in row `y` (0 is the top row): the top row holds
      `Enemy30`, the next two `Enemy20`, the last two `Enemy`. */
  function RowPoints(y: int): int
    requires 0 <= y < WaveRows
  {
    if y == 0 then 30 else if y == 1 || y == 2 then 20 else 10
  }

  /** One enemy to spawn: its centre and its point value. */
  datatype Spawn = Spawn(cx: int, cy: int, points: int)

  /** The `i`-th enemy `set_enemy` creates: rows outer, columns inner. */
  function WaveSpawn(stage: int, i: int): (s: Spawn)
    requires 0 <= i < WaveSize
    ensures s.points == 10 || s.points == 20 || s.points == 30
  {
    var x, y := i % WaveColumns, i / WaveColumns;
    Spawn(x * 30 + 36, y * 30 + StartHeight(stage), RowPoints(y))
  }

  /** The whole wave of stage `stage`, in creation order. */
  function Wave(stage: int): (w: seq<Spawn>)
    ensures |w| == WaveSize
    ensures forall i :: 0 <= i < WaveSize ==> w[i] == WaveSpawn(stage, i)
  {
    seq(WaveSize, i requires 0 <= i < WaveSize => WaveSpawn(stage, i))
  }

  function PointsOf(w: seq<Spawn>): int {
    if w == [] then 0 else PointsOf(w[..|w| - 1]) + w[|w| - 1].points
  }

  lemma PointsOfPrefix(w: seq<Spawn>, n: int)
    requires 0 < n <= |w|
    ensures PointsOf(w[..n]) == PointsOf(w[..n - 1]) + w[n - 1].points
  {
    assert w[..n][..n - 1] == w[..n - 1];
  }

  /** How many spawns of `w` are worth `p` points. */
  function CountWorth(w: seq<Spawn>, p: int): nat {
    if w == [] then 0 else CountWorth(w[..|w| - 1], p) + (if w[|w| - 1].points == p then 1 else 0)
  }

  /** Points of the first `n` enemies of a wave, row by row. */
  function PrefixPoints(n: int): int {
    if n <= 10 then 30 * n else if n <= 30 then 300 + 20 * (n - 10) else 700 + 10 * (n - 30)
  }

  lemma {:induction false} WavePrefix(stage: int, n: nat)
    requires n <= WaveSize
    ensures PointsOf(Wave(stage)[..n]) == PrefixPoints(n)
    ensures CountWorth(Wave(stage)[..n], 30) == (if n <= 10 then n else 10)
    ensures CountWorth(Wave(stage)[..n], 20) == (if n <= 10 then 0 else if n <= 30 then n - 10 else 20)
    ensures CountWorth(Wave(stage)[..n], 10) == (if n <= 30 then 0 else n - 30)
  {
    if n > 0 {
      var p := Wave(stage)[..n];
      WavePrefix(stage, n - 1);
      assert |p| == n && p[..n - 1] == Wave(stage)[..n - 1] && p[n - 1] == WaveSpawn(stage, n - 1);
      SpawnWorth(stage, n - 1);
    }
  }

  /** The first ten enemies created are worth 30, the next twenty 20, the
      last twenty 10. */
  lemma SpawnWorth(stage: int, k: int)
    requires 0 <= k < WaveSize
    ensures WaveSpawn(stage, k).points == if k < 10 then 30 else if k < 30 then 20 else 10
  {
    var y := k / WaveColumns;
    assert y == 0 <==> k < 10;
    assert (y == 1 || y == 2) <==> 10 <= k < 30;
  }

  /** A wave is 10 enemies worth 30, 20 worth 20 and 20 worth 10, 900
      points in all (`Invader.Game.WaveScore` carries this to the score). */
  lemma WaveWorth(stage: int)
    ensures CountWorth(Wave(stage), 30) == 10
    ensures CountWorth(Wave(stage), 20) == 20
    ensures CountWorth(Wave(stage), 10) == 20
    ensures PointsOf(Wave(stage)) == 900
  {
    WavePrefix(stage, WaveSize);
    assert Wave(stage)[..WaveSize] == Wave(stage);
  }

  /** No two enemies of a wave share a centre. */
  lemma WaveCentresDistinct(stage: int, i: int, j: int)
    requires 0 <= i < WaveSize && 0 <= j < WaveSize && i != j
    ensures (WaveSpawn(stage, i).cx, WaveSpawn(stage, i).cy) != (WaveSpawn(stage, j).cx, WaveSpawn(stage, j).cy)
  {
    assert i == (i / WaveColumns) * WaveColumns + i % WaveColumns;
    assert j == (j / WaveColumns) * WaveColumns + j % WaveColumns;
  }

  /** The centres of the five blocks of the barricade placed at (px, py): a
      3 x 2 grid of 16-pixel cells without the lower middle one. */
  function Barricade(px: int, py: int): (b: seq<(int, int)>)
    ensures |b| == 5
    ensures forall k :: 0 <= k < 5 ==> px <= b[k].0 <= px + 32 && py <= b[k].1 <= py + 16
    ensures (px + 16, py + 16) !in b
  {
    [(px, py), (px + 16, py), (px + 32, py), (px, py + 16), (px + 32, py + 16)]
  }

  /** Where `init_game` puts the four barricades. */
  const BarricadeSites: seq<(int, int)> := [(104, 500), (224, 500), (344, 500), (464, 500)]
}
