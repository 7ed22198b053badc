/**
 * The repair-target search of AIController.findDamagedBuilding: a nested
 * scan over the 50 x 50 tile window centred on the unit's tile that keeps
 * the closest building of the unit's own team closer than 200 world units.
 * Despite the method's name, nothing here looks at a building's health.
 *
 * The tile grid (Vars.world.build) and the distance from the unit to a
 * building (Mathf.dst) are inputs.
 */
module BuildingSearch {
  import opened Wrappers

  datatype Building = Building(id: nat, team: nat, x: real, y: real)

  /** The building standing on each tile, if any (Vars.world.build(x, y)). */
  type Grid = (int, int) -> Option<Building>

  /** The distance from the searching unit to each building. */
  type Metric = Building -> real

  const TileSize: real := 8.0
  /** The window reaches 25 tiles below and 24 tiles above the unit's tile on each axis. */
  const HalfWindow: int := 25
  const WindowWidth: int := 50
  const SearchRange: real := 200.0
  /** The initial value of `minDist` in the scan. */
  const FarAway: real := 999999.0

  /** Java's `(int)` cast of a float: truncation toward zero. */
  function TruncToInt(r: real): (i: int)
    ensures r >= 0.0 ==> i as real <= r < i as real + 1.0
    ensures r < 0.0 ==> i as real - 1.0 < r <= i as real
  {
    if r >= 0.0 then r.Floor else -((-r).Floor)
  }

  /** The tile coordinate `(int)(unit.x / 8f)` of a world coordinate. */
  function TileCoord(w: real): int {
    TruncToInt(w / TileSize)
  }

  /** The tile at offset (a, b) from the window's lower corner (tx - 25, ty - 25). */
  function Tile(grid: Grid, tx: int, ty: int, a: int, b: int): Option<Building> {
    grid(tx - HalfWindow + a, ty - HalfWindow + b)
  }

  /**
   * Offset (a, b) lies in the window and the scan has passed it once it has
   * finished i columns and j tiles of column i: the outer loop runs over x,
   * the inner one over y.
   */
  predicate Seen(a: int, b: int, i: int, j: int) {
    0 <= a < WindowWidth && 0 <= b < WindowWidth && (a < i || (a == i && b < j))
  }

  /** A tile whose building the search may pick. */
  predicate Qualifies(cell: Option<Building>, team: nat, dst: Metric) {
    cell.Some? && cell.value.team == team && dst(cell.value) < SearchRange
  }

  /** The loop's two variables: `closest` and `minDist`. */
  datatype Scan = Scan(closest: Option<Building>, minDist: real)

  /** One iteration of the inner loop body. */
  function Visit(s: Scan, cell: Option<Building>, team: nat, dst: Metric): Scan {
    match cell
    case None => s
    case Some(b) =>
      if b.team == team && dst(b) < s.minDist && dst(b) < SearchRange then Scan(Some(b), dst(b)) else s
  }

  /** The scan state after i whole columns and the first j tiles of column i. */
  function ScanTo(grid: Grid, tx: int, ty: int, team: nat, dst: Metric, i: nat, j: nat): Scan
    requires j <= WindowWidth
    decreases i, j
  {
    if j == 0 then
      if i == 0 then Scan(None, FarAway) else ScanTo(grid, tx, ty, team, dst, i - 1, WindowWidth)
    else Visit(ScanTo(grid, tx, ty, team, dst, i, j - 1), Tile(grid, tx, ty, i, j - 1), team, dst)
  }

  /** What findDamagedBuilding returns for a unit standing on tile (tx, ty). */
  function Closest(grid: Grid, tx: int, ty: int, team: nat, dst: Metric): Option<Building> {
    ScanTo(grid, tx, ty, team, dst, WindowWidth, 0).closest
  }

  /** The scan's result so far: the first of the nearest qualifying buildings seen, or none. */
  ghost predicate ScanSoFar(grid: Grid, tx: int, ty: int, team: nat, dst: Metric, i: int, j: int, s: Scan) {
    && (s.closest.None? <==> forall a, b :: Seen(a, b, i, j) ==> !Qualifies(Tile(grid, tx, ty, a, b), team, dst))
    && (s.closest.None? ==> s.minDist == FarAway)
    && (s.closest.Some? ==>
          && s.minDist == dst(s.closest.value)
          && Qualifies(s.closest, team, dst)
          && (exists a, b :: Seen(a, b, i, j) && Tile(grid, tx, ty, a, b) == s.closest
               && forall a', b' :: Seen(a', b', a, b) && Qualifies(Tile(grid, tx, ty, a', b'), team, dst) ==>
                    dst(s.closest.value) < dst(Tile(grid, tx, ty, a', b').value)))
    && forall a, b :: Seen(a, b, i, j) && Qualifies(Tile(grid, tx, ty, a, b), team, dst) ==>
         s.minDist <= dst(Tile(grid, tx, ty, a, b).value)
  }

  /** The scan keeps its meaning, tile by tile. */
  lemma {:induction false} ScanToSpec(grid: Grid, tx: int, ty: int, team: nat, dst: Metric, i: nat, j: nat)
    requires i <= WindowWidth && j <= WindowWidth && (i < WindowWidth || j == 0)
    ensures ScanSoFar(grid, tx, ty, team, dst, i, j, ScanTo(grid, tx, ty, team, dst, i, j))
    decreases i, j
  {
    if j == 0 {
      if i > 0 {
        ScanToSpec(grid, tx, ty, team, dst, i - 1, WindowWidth);
        NextColumn(grid, tx, ty, team, dst, i, ScanTo(grid, tx, ty, team, dst, i, j));
      }
    } else {
      ScanToSpec(grid, tx, ty, team, dst, i, j - 1);
      VisitKeepsScan(grid, tx, ty, team, dst, i, j, ScanTo(grid, tx, ty, team, dst, i, j - 1));
    }
  }

  /** Having finished column i - 1 is the same as standing at the start of column i. */
  lemma NextColumn(grid: Grid, tx: int, ty: int, team: nat, dst: Metric, i: int, s: Scan)
    requires ScanSoFar(grid, tx, ty, team, dst, i - 1, WindowWidth, s)
    ensures ScanSoFar(grid, tx, ty, team, dst, i, 0, s)
  {
    assert forall a, b :: Seen(a, b, i, 0) <==> Seen(a, b, i - 1, WindowWidth);
  }

  /** One loop iteration at offset (i, j - 1) extends the scanned region by that tile. */
  lemma VisitKeepsScan(grid: Grid, tx: int, ty: int, team: nat, dst: Metric, i: int, j: int, p: Scan)
    requires 0 <= i < WindowWidth && 0 < j <= WindowWidth
    requires ScanSoFar(grid, tx, ty, team, dst, i, j - 1, p)
    ensures ScanSoFar(grid, tx, ty, team, dst, i, j, Visit(p, Tile(grid, tx, ty, i, j - 1), team, dst))
  {
    var c := Tile(grid, tx, ty, i, j - 1);
    var s := Visit(p, c, team, dst);
    assert forall a, b :: Seen(a, b, i, j) <==> Seen(a, b, i, j - 1) || (a == i && b == j - 1);
    if s != p {
      assert Qualifies(c, team, dst) && s.closest == c;
      assert Seen(i, j - 1, i, j) && Tile(grid, tx, ty, i, j - 1) == s.closest;
      assert forall a', b' :: Seen(a', b', i, j - 1) && Qualifies(Tile(grid, tx, ty, a', b'), team, dst) ==>
        dst(s.closest.value) < dst(Tile(grid, tx, ty, a', b').value);
    } else if s.closest.Some? {
      var a, b :| Seen(a, b, i, j - 1) && Tile(grid, tx, ty, a, b) == p.closest
        && forall a', b' :: Seen(a', b', a, b) && Qualifies(Tile(grid, tx, ty, a', b'), team, dst) ==>
             dst(p.closest.value) < dst(Tile(grid, tx, ty, a', b').value);
      assert Seen(a, b, i, j);
    }
  }

  /**
   * findDamagedBuilding finds nothing exactly when no tile of the window
   * holds a building of the unit's team closer than 200; otherwise it returns
   * such a building, no farther than any other, and the first one in scan
   * order among the nearest.
   */
  lemma ClosestSpec(grid: Grid, tx: int, ty: int, team: nat, dst: Metric)
    ensures var r := Closest(grid, tx, ty, team, dst);
      && (r.None? <==> forall a, b :: InWindow(a, b) ==> !Qualifies(Tile(grid, tx, ty, a, b), team, dst))
      && (r.Some? ==>
            && r.value.team == team && dst(r.value) < SearchRange
            && (exists a, b :: InWindow(a, b) && Tile(grid, tx, ty, a, b) == r
                 && forall a', b' :: Seen(a', b', a, b) && Qualifies(Tile(grid, tx, ty, a', b'), team, dst) ==>
                      dst(r.value) < dst(Tile(grid, tx, ty, a', b').value))
            && forall a, b :: InWindow(a, b) && Qualifies(Tile(grid, tx, ty, a, b), team, dst) ==>
                 dst(r.value) <= dst(Tile(grid, tx, ty, a, b).value))
  {
    ScanToSpec(grid, tx, ty, team, dst, WindowWidth, 0);
    assert forall a, b :: InWindow(a, b) <==> Seen(a, b, WindowWidth, 0);
  }

  /** Offset (a, b) lies in the 50 x 50 window. */
  predicate InWindow(a: int, b: int) {
    0 <= a < WindowWidth && 0 <= b < WindowWidth
  }
}
