/**
 * The two location features of a trip.
 *
 * The hexagon step gives each trip the finest h3 cell of its pickup and of
 * its dropoff point, but only when all four coordinates lie strictly inside
 * the world box. The location step expands each point cell to its chain of
 * ancestors at resolutions 1..15, explodes that chain and each region's cell
 * list into one row per cell, inner-joins the two on the cell, and then
 * inner-joins the pickup and dropoff results on the trip key.
 */
module Coordinates {
  import opened Common
  import opened H3
  import opened Records
  import opened Sorting
  import opened Strings
  import opened Merge

  // ---------------------------------------------------------------------
  // get_hexagon

  /**
   * One trip after `get_hexagon(df, prefix, resolution)`: the role's cell
   * column is written only when the trip passes the world filter.
   */
  function AssignHexagon(t: Trip, role: Role, resolution: nat, lib: Lib): Trip {
    if InWorld(t) then
      WithHexagon(t, role, Some(lib.geoToH3(Latitude(t, role).value, Longitude(t, role).value, resolution)))
    else t
  }

  /** `get_hexagon` writes the role's cell column of every row in place and touches nothing else. */
  method GetHexagon(df: TripFrame, role: Role, resolution: nat, lib: Lib)
    modifies df
    ensures df.rows == Map(old(df.rows), t => AssignHexagon(t, role, resolution, lib))
    ensures df.isCorrect == old(df.isCorrect) && df.timeInWeek == old(df.timeInWeek)
  {
    df.rows := Map(df.rows, t => AssignHexagon(t, role, resolution, lib));
  }

  /**
   * A trip without a cell for `role` gets one exactly when all four of its
   * coordinates pass the world filter, and the cell is `geo_to_h3` of the
   * role's own latitude and longitude at the requested resolution.
   */
  lemma HexagonOnlyInWorld(t: Trip, role: Role, resolution: nat, lib: Lib)
    requires Hexagon(t, role).None?
    ensures Hexagon(AssignHexagon(t, role, resolution, lib), role).Some? <==> InWorld(t)
    ensures InWorld(t) ==>
      Latitude(t, role).Some? && Longitude(t, role).Some? &&
      Hexagon(AssignHexagon(t, role, resolution, lib), role).value
        == lib.geoToH3(Latitude(t, role).value, Longitude(t, role).value, resolution)
  {
  }

  function OtherRole(role: Role): Role {
    if role == Pickup then Dropoff else Pickup
  }

  /** Only the role's own cell column may change; the other role's cell and every other field stay. */
  lemma AssignHexagonFrame(t: Trip, role: Role, resolution: nat, lib: Lib)
    ensures Hexagon(AssignHexagon(t, role, resolution, lib), OtherRole(role)) == Hexagon(t, OtherRole(role))
    ensures WithHexagon(AssignHexagon(t, role, resolution, lib), role, Hexagon(t, role)) == t
    ensures !InWorld(t) ==> AssignHexagon(t, role, resolution, lib) == t
  {
  }

  /** A coordinate exactly on the world boundary fails the strict filter, for both roles. */
  lemma BoundaryRejected(t: Trip, role: Role)
    requires Latitude(t, role) == Some(90.0) || Latitude(t, role) == Some(-90.0)
      || Longitude(t, role) == Some(180.0) || Longitude(t, role) == Some(-180.0)
    ensures !InWorld(t)
  {
  }

  /** What the hexagon file keeps of a trip: the columns matching `key|hexagon`, with the index. */
  datatype HexRow = HexRow(index: nat, key: string, pickupHexagon: Option<Cell>, dropoffHexagon: Option<Cell>)

  function PointHexagon(r: HexRow, role: Role): Option<Cell> {
    if role == Pickup then r.pickupHexagon else r.dropoffHexagon
  }

  function HexagonRow(t: Trip): HexRow {
    HexRow(t.index, t.key, t.pickupHexagon, t.dropoffHexagon)
  }

  /** A trip after both `get_hexagon` calls of `process_hexagons`, reduced to its hexagon row. */
  function HexagonsOf(t: Trip, resolution: nat, lib: Lib): HexRow {
    HexagonRow(AssignHexagon(AssignHexagon(t, Pickup, resolution, lib), Dropoff, resolution, lib))
  }

  /**
   * One bad coordinate denies a cell to both roles: a loaded trip ends with
   * either both cells or neither, both exactly when it passes the world
   * filter, each computed from its own point; at the default resolution 15
   * both cells are at the finest resolution.
   */
  lemma BothCellsOrNeither(t: Trip, resolution: nat, lib: Lib)
    requires t.pickupHexagon.None? && t.dropoffHexagon.None?
    ensures var h := HexagonsOf(t, resolution, lib);
      && h.index == t.index && h.key == t.key
      && (h.pickupHexagon.Some? <==> InWorld(t))
      && (h.dropoffHexagon.Some? <==> InWorld(t))
      && (InWorld(t) ==>
            && h.pickupHexagon == Some(lib.geoToH3(t.pickupLatitude.value, t.pickupLongitude.value, resolution))
            && h.dropoffHexagon == Some(lib.geoToH3(t.dropoffLatitude.value, t.dropoffLongitude.value, resolution)))
    ensures PointsAtResolution(lib) && resolution == FinestResolution ==>
      AtFinest(HexagonsOf(t, resolution, lib).pickupHexagon) && AtFinest(HexagonsOf(t, resolution, lib).dropoffHexagon)
  {
    var p := AssignHexagon(t, Pickup, resolution, lib);
    assert InWorld(p) == InWorld(t);
  }

  /** The rows of one hexagon file. */
  function HexagonFile(rows: seq<Trip>, resolution: nat, lib: Lib): seq<HexRow> {
    Map(rows, t => HexagonsOf(t, resolution, lib))
  }

  /**
   * `process_hexagons`: for each data file, in the order given, both roles'
   * cells are written and the `key|hexagon` columns are saved under
   * "hexagon_" + the file's base name.
   */
  method ProcessHexagons(files: seq<(string, seq<Trip>)>, lib: Lib, resolution: nat := 15)
      returns (saved: seq<(string, seq<HexRow>)>)
    ensures |saved| == |files|
    ensures forall i :: 0 <= i < |files| ==>
      saved[i] == ("hexagon_" + files[i].0, HexagonFile(files[i].1, resolution, lib))
  {
    saved := [];
    for i := 0 to |files|
      invariant |saved| == i
      invariant forall k :: 0 <= k < i ==>
        saved[k] == ("hexagon_" + files[k].0, HexagonFile(files[k].1, resolution, lib))
    {
      var df := new TripFrame(files[i].1);
      GetHexagon(df, Pickup, resolution, lib);
      GetHexagon(df, Dropoff, resolution, lib);
      var kept := Map(df.rows, HexagonRow);
      assert kept == HexagonFile(files[i].1, resolution, lib);
      saved := saved + [("hexagon_" + files[i].0, kept)];
    }
  }

  // ---------------------------------------------------------------------
  // find_location

  /** `h3_to_parent` raises for a resolution above the cell's own, so a chain needs a finest cell. */
  predicate AtFinest(h: Option<Cell>) {
    h.Some? ==> Resolution(h.value) == FinestResolution
  }

  predicate AllAtFinest(rows: seq<HexRow>, role: Role) {
    forall i :: 0 <= i < |rows| ==> AtFinest(PointHexagon(rows[i], role))
  }

  /**
   * The `<prefix>_hexagon_ls` value of one point: for a cell, its ancestors
   * at resolutions 1, 2, …, 15 in that order, the last being the cell
   * itself and resolution 0 never included; for a missing cell, no ancestor.
   */
  function Ancestors(h: Option<Cell>): (chain: seq<Cell>)
    requires AtFinest(h)
    ensures h.None? ==> chain == []
    ensures h.Some? ==>
      && |chain| == FinestResolution
      && chain[FinestResolution - 1] == h.value
      && forall k :: 0 <= k < |chain| ==> Resolution(chain[k]) == k + 1 && IsAncestor(chain[k], h.value)
  {
    if h.None? then []
    else seq(FinestResolution, k requires 0 <= k < FinestResolution => ToParent(h.value, k + 1))
  }

  /** A cell is in the chain exactly when it is an ancestor of the point's cell at one of resolutions 1..15. */
  lemma AncestorsMembership(h: Cell, c: Cell)
    requires AtFinest(Some(h))
    ensures c in Ancestors(Some(h)) <==> exists r :: 1 <= r <= FinestResolution && c == ToParent(h, r)
  {
    var chain := Ancestors(Some(h));
    if c in chain {
      var k :| 0 <= k < |chain| && chain[k] == c;
      AncestorIsParent(c, h);
      assert c == ToParent(h, k + 1);
    }
    if exists r :: 1 <= r <= FinestResolution && c == ToParent(h, r) {
      var r :| 1 <= r <= FinestResolution && c == ToParent(h, r);
      AncestorIsParent(chain[r - 1], h);
      assert chain[r - 1] == c;
    }
  }

  function AncestorColumn(rows: seq<HexRow>, role: Role): (column: seq<seq<Cell>>)
    requires AllAtFinest(rows, role)
    ensures |column| == |rows|
    ensures forall i :: 0 <= i < |rows| ==> column[i] == Ancestors(PointHexagon(rows[i], role))
    decreases |rows|
  {
    if rows == [] then [] else [Ancestors(PointHexagon(rows[0], role))] + AncestorColumn(rows[1..], role)
  }

  /**
   * pandas `explode` of one list: one row per element, and one NaN row for
   * the empty list.
   */
  function Explode<T>(xs: seq<T>): seq<Option<T>> {
    if xs == [] then [None] else Map(xs, x => Some(x))
  }

  lemma ExplodeMembership<T>(xs: seq<T>, y: Option<T>)
    ensures y in Explode(xs) <==> (xs == [] && y == None) || (y.Some? && y.value in xs)
  {
    if xs != [] && y.Some? && y.value in xs {
      var i :| 0 <= i < |xs| && xs[i] == y.value;
      assert Explode(xs)[i] == y;
    }
  }

  /** `explode` of a frame whose first column holds lists; the second column is repeated. */
  function ExplodeFrame<T, V>(frame: seq<(seq<T>, V)>): seq<(Option<T>, V)>
    decreases |frame|
  {
    if frame == [] then []
    else Map(Explode(frame[0].0), x => (x, frame[0].1)) + ExplodeFrame(frame[1..])
  }

  lemma {:induction false} ExplodeFrameMembership<T, V>(frame: seq<(seq<T>, V)>, x: Option<T>, v: V)
    ensures (x, v) in ExplodeFrame(frame) <==>
      exists i :: 0 <= i < |frame| && frame[i].1 == v && x in Explode(frame[i].0)
    decreases |frame|
  {
    if frame != [] {
      ExplodeFrameMembership(frame[1..], x, v);
      var head := Map(Explode(frame[0].0), y => (y, frame[0].1));
      if (x, v) in head {
        var n :| 0 <= n < |head| && head[n] == (x, v);
        assert Explode(frame[0].0)[n] == x;
      }
      if x in Explode(frame[0].0) && frame[0].1 == v {
        var n :| 0 <= n < |Explode(frame[0].0)| && Explode(frame[0].0)[n] == x;
        assert head[n] == (x, v);
      }
      if (x, v) in ExplodeFrame(frame[1..]) {
        var i :| 0 <= i < |frame[1..]| && frame[1..][i].1 == v && x in Explode(frame[1..][i].0);
        assert frame[i + 1] == frame[1..][i];
      }
      if exists i :: 0 <= i < |frame| && frame[i].1 == v && x in Explode(frame[i].0) {
        var i :| 0 <= i < |frame| && frame[i].1 == v && x in Explode(frame[i].0);
        if i > 0 {
          assert frame[1..][i - 1] == frame[i];
        }
      }
    }
  }

  /** One row of an external shapes table: the region's id value and its cell list. */
  datatype Area = Area(region: Datum, hexagons: seq<Cell>)

  function AreaFrame(areas: seq<Area>): seq<(seq<Cell>, Datum)> {
    Map(areas, (a: Area) => (a.hexagons, a.region))
  }

  function PointFrame(rows: seq<HexRow>, role: Role): seq<(seq<Cell>, string)>
    requires AllAtFinest(rows, role)
  {
    var column := AncestorColumn(rows, role);
    seq(|rows|, i requires 0 <= i < |rows| => (column[i], rows[i].key))
  }

  /** The merged rows (cell, region, key) before the projection to key and region. */
  function Matched(rows: seq<HexRow>, areas: seq<Area>, role: Role): seq<(Option<Cell>, Datum, string)>
    requires AllAtFinest(rows, role)
  {
    InnerMerge(ExplodeFrame(AreaFrame(areas)), ExplodeFrame(PointFrame(rows, role)))
  }

  /** The (key, region) rows `find_location` returns. */
  function Locate(rows: seq<HexRow>, areas: seq<Area>, role: Role): seq<(string, Datum)>
    requires AllAtFinest(rows, role)
  {
    Map(Matched(rows, areas, role), (m: (Option<Cell>, Datum, string)) => (m.2, m.1))
  }

  /**
   * Two exploded lists have a row in common: a cell in both, or both lists
   * empty (their NaN rows match each other in the merge).
   */
  predicate Joins(xs: seq<Cell>, ys: seq<Cell>) {
    (xs == [] && ys == []) || exists c :: c in xs && c in ys
  }

  lemma JoinsExploded(xs: seq<Cell>, ys: seq<Cell>)
    ensures Joins(xs, ys) <==> exists x :: x in Explode(xs) && x in Explode(ys)
  {
    if xs == [] && ys == [] {
      ExplodeMembership(xs, None);
      ExplodeMembership(ys, None);
    } else if c :| c in xs && c in ys {
      ExplodeMembership(xs, Some(c));
      ExplodeMembership(ys, Some(c));
    }
    if x :| x in Explode(xs) && x in Explode(ys) {
      ExplodeMembership(xs, x);
      ExplodeMembership(ys, x);
    }
  }

  /** A located row is a merged row: a shared exploded value of a region row and a point row. */
  lemma LocateMembership(rows: seq<HexRow>, areas: seq<Area>, role: Role, key: string, region: Datum)
    requires AllAtFinest(rows, role)
    ensures (key, region) in Locate(rows, areas, role) <==>
      exists x :: (x, region) in ExplodeFrame(AreaFrame(areas)) && (x, key) in ExplodeFrame(PointFrame(rows, role))
  {
    var M := Matched(rows, areas, role);
    if (key, region) in Locate(rows, areas, role) {
      var n :| 0 <= n < |M| && (M[n].2, M[n].1) == (key, region);
      var x := M[n].0;
      assert M[n] == (x, region, key);
      InnerMergePairs(ExplodeFrame(AreaFrame(areas)), ExplodeFrame(PointFrame(rows, role)), x, region, key);
    }
    if x :| (x, region) in ExplodeFrame(AreaFrame(areas)) && (x, key) in ExplodeFrame(PointFrame(rows, role)) {
      InnerMergePairs(ExplodeFrame(AreaFrame(areas)), ExplodeFrame(PointFrame(rows, role)), x, region, key);
      var n :| 0 <= n < |M| && M[n] == (x, region, key);
      assert Locate(rows, areas, role)[n] == (key, region);
    }
  }

  /** The exploded value `x` is shared by region row `j` (with id `region`) and point row `i` (with `key`). */
  lemma SharedValue(rows: seq<HexRow>, areas: seq<Area>, role: Role, key: string, region: Datum, x: Option<Cell>)
    requires AllAtFinest(rows, role)
    ensures (x, region) in ExplodeFrame(AreaFrame(areas)) && (x, key) in ExplodeFrame(PointFrame(rows, role)) <==>
      exists i, j :: 0 <= i < |rows| && 0 <= j < |areas| && rows[i].key == key && areas[j].region == region
        && x in Explode(Ancestors(PointHexagon(rows[i], role))) && x in Explode(areas[j].hexagons)
  {
    var A := AreaFrame(areas);
    var P := PointFrame(rows, role);
    ExplodeFrameMembership(A, x, region);
    ExplodeFrameMembership(P, x, key);
    if (x, region) in ExplodeFrame(A) && (x, key) in ExplodeFrame(P) {
      var j :| 0 <= j < |A| && A[j].1 == region && x in Explode(A[j].0);
      var i :| 0 <= i < |P| && P[i].1 == key && x in Explode(P[i].0);
      assert x in Explode(Ancestors(PointHexagon(rows[i], role))) && x in Explode(areas[j].hexagons);
    }
    if exists i, j :: 0 <= i < |rows| && 0 <= j < |areas| && rows[i].key == key && areas[j].region == region
        && x in Explode(Ancestors(PointHexagon(rows[i], role))) && x in Explode(areas[j].hexagons) {
      var i, j :| 0 <= i < |rows| && 0 <= j < |areas| && rows[i].key == key && areas[j].region == region
        && x in Explode(Ancestors(PointHexagon(rows[i], role))) && x in Explode(areas[j].hexagons);
      assert A[j].1 == region && x in Explode(A[j].0);
      assert P[i].1 == key && x in Explode(P[i].0);
    }
  }

  /**
   * Every located (key, region) row has a witness and every witness gives a
   * row: some point row with that key and some region row with that id
   * whose exploded lists share a value.
   */
  lemma LocateWitness(rows: seq<HexRow>, areas: seq<Area>, role: Role, key: string, region: Datum)
    requires AllAtFinest(rows, role)
    ensures (key, region) in Locate(rows, areas, role) <==>
      exists i, j :: 0 <= i < |rows| && 0 <= j < |areas| && rows[i].key == key && areas[j].region == region
        && Joins(Ancestors(PointHexagon(rows[i], role)), areas[j].hexagons)
  {
    LocateMembership(rows, areas, role, key, region);
    if (key, region) in Locate(rows, areas, role) {
      var x :| (x, region) in ExplodeFrame(AreaFrame(areas)) && (x, key) in ExplodeFrame(PointFrame(rows, role));
      SharedValue(rows, areas, role, key, region, x);
      var i, j :| 0 <= i < |rows| && 0 <= j < |areas| && rows[i].key == key && areas[j].region == region
        && x in Explode(Ancestors(PointHexagon(rows[i], role))) && x in Explode(areas[j].hexagons);
      JoinsExploded(Ancestors(PointHexagon(rows[i], role)), areas[j].hexagons);
    }
    if exists i, j :: 0 <= i < |rows| && 0 <= j < |areas| && rows[i].key == key && areas[j].region == region
        && Joins(Ancestors(PointHexagon(rows[i], role)), areas[j].hexagons) {
      var i, j :| 0 <= i < |rows| && 0 <= j < |areas| && rows[i].key == key && areas[j].region == region
        && Joins(Ancestors(PointHexagon(rows[i], role)), areas[j].hexagons);
      JoinsExploded(Ancestors(PointHexagon(rows[i], role)), areas[j].hexagons);
      var x :| x in Explode(Ancestors(PointHexagon(rows[i], role))) && x in Explode(areas[j].hexagons);
      SharedValue(rows, areas, role, key, region, x);
    }
  }

  /** For a point with a cell, joining a region means one of its 15 ancestors is one of the region's cells. */
  lemma JoinsWithCell(h: Cell, ys: seq<Cell>)
    requires AtFinest(Some(h))
    ensures Joins(Ancestors(Some(h)), ys) <==> exists r :: 1 <= r <= FinestResolution && ToParent(h, r) in ys
  {
    if Joins(Ancestors(Some(h)), ys) {
      var c :| c in Ancestors(Some(h)) && c in ys;
      AncestorsMembership(h, c);
    }
    if exists r :: 1 <= r <= FinestResolution && ToParent(h, r) in ys {
      var r :| 1 <= r <= FinestResolution && ToParent(h, r) in ys;
      AncestorsMembership(h, ToParent(h, r));
    }
  }

  /**
   * A point without a cell has an empty chain, whose NaN row matches only
   * the NaN row of a region with an empty cell list: it is located exactly
   * in such regions, and nowhere when every region has cells.
   */
  lemma MissingHexagon(p: HexRow, areas: seq<Area>, role: Role, region: Datum)
    requires PointHexagon(p, role).None?
    ensures (p.key, region) in Locate([p], areas, role) <==>
      exists j :: 0 <= j < |areas| && areas[j].region == region && areas[j].hexagons == []
    ensures (forall j :: 0 <= j < |areas| ==> areas[j].hexagons != []) ==> Locate([p], areas, role) == []
  {
    LocateWitness([p], areas, role, p.key, region);
    if forall j :: 0 <= j < |areas| ==> areas[j].hexagons != [] {
      var located := Locate([p], areas, role);
      if located != [] {
        var y := located[0];
        assert y in located;
        LocateWitness([p], areas, role, y.0, y.1);
        assert false;
      }
    }
  }

  /** The name of a located-region column: the role's prefix, "_", and the region id column. */
  function LocationColumn(role: Role, regionId: string): string {
    RolePrefix(role) + "_" + regionId
  }

  /** A table of key and located-region columns. */
  datatype Located = Located(columns: seq<string>, rows: seq<(string, Datum)>)

  /** The hexagon file as loaded by `process_location`; `find_location` adds `<prefix>_hexagon_ls` to it. */
  class HexagonFrame {
    var rows: seq<HexRow>
    var hexagonLs: map<Role, seq<seq<Cell>>>

    constructor (rows: seq<HexRow>)
      ensures this.rows == rows && hexagonLs == map[]
    {
      this.rows := rows;
      hexagonLs := map[];
    }
  }

  /**
   * `find_location`: stores the ancestor column on the point frame, and
   * returns the located rows under the columns "key" and
   * `LocationColumn(role, regionId)`.
   */
  method FindLocation(df: HexagonFrame, areas: seq<Area>, role: Role, regionId: string) returns (located: Located)
    requires AllAtFinest(df.rows, role)
    modifies df
    ensures df.rows == old(df.rows)
    ensures df.hexagonLs == old(df.hexagonLs)[role := AncestorColumn(df.rows, role)]
    ensures located.columns == ["key", LocationColumn(role, regionId)]
    ensures located.rows == Locate(df.rows, areas, role)
  {
    df.hexagonLs := df.hexagonLs[role := AncestorColumn(df.rows, role)];
    located := Located(["key", LocationColumn(role, regionId)], Locate(df.rows, areas, role));
  }

  // ---------------------------------------------------------------------
  // process_location

  /** A location file: key, pickup region and dropoff region. */
  datatype Combined = Combined(columns: seq<string>, rows: seq<(string, Datum, Datum)>)

  predicate BothAtFinest(rows: seq<HexRow>) {
    AllAtFinest(rows, Pickup) && AllAtFinest(rows, Dropoff)
  }

  /** The rows of `dfA.merge(dfB, on=["key"])`. */
  function LocationRows(rows: seq<HexRow>, areas: seq<Area>): seq<(string, Datum, Datum)>
    requires BothAtFinest(rows)
  {
    InnerMerge(Locate(rows, areas, Pickup), Locate(rows, areas, Dropoff))
  }

  /** A combined row exists exactly when the key was located at pickup and at dropoff. */
  lemma CombinedNeedsBoth(rows: seq<HexRow>, areas: seq<Area>, key: string, p: Datum, d: Datum)
    requires BothAtFinest(rows)
    ensures (key, p, d) in LocationRows(rows, areas) <==>
      (key, p) in Locate(rows, areas, Pickup) && (key, d) in Locate(rows, areas, Dropoff)
  {
    InnerMergePairs(Locate(rows, areas, Pickup), Locate(rows, areas, Dropoff), key, p, d);
  }

  /**
   * End to end for one loaded trip at the default resolution: it has a
   * location row (key, p, d) exactly when it passes the world filter, some
   * region with id p holds an ancestor of its pickup cell and some region
   * with id d holds an ancestor of its dropoff cell — given regions that
   * all have cells.
   */
  lemma TripLocation(t: Trip, lib: Lib, areas: seq<Area>, p: Datum, d: Datum)
    requires t.pickupHexagon.None? && t.dropoffHexagon.None?
    requires PointsAtResolution(lib)
    requires forall j :: 0 <= j < |areas| ==> areas[j].hexagons != []
    ensures var h := HexagonsOf(t, FinestResolution, lib);
      BothAtFinest([h]) &&
      ((t.key, p, d) in LocationRows([h], areas) <==>
        && InWorld(t)
        && (exists j, r :: 0 <= j < |areas| && areas[j].region == p && 1 <= r <= FinestResolution
              && ToParent(h.pickupHexagon.value, r) in areas[j].hexagons)
        && (exists j, r :: 0 <= j < |areas| && areas[j].region == d && 1 <= r <= FinestResolution
              && ToParent(h.dropoffHexagon.value, r) in areas[j].hexagons))
  {
    var h := HexagonsOf(t, FinestResolution, lib);
    BothCellsOrNeither(t, FinestResolution, lib);
    assert BothAtFinest([h]);
    CombinedNeedsBoth([h], areas, t.key, p, d);
    if InWorld(t) {
      forall role: Role ensures (t.key, if role == Pickup then p else d) in Locate([h], areas, role) <==>
          exists j, r :: 0 <= j < |areas| && areas[j].region == (if role == Pickup then p else d)
            && 1 <= r <= FinestResolution && ToParent(PointHexagon(h, role).value, r) in areas[j].hexagons
      {
        var region := if role == Pickup then p else d;
        LocateWitness([h], areas, role, t.key, region);
        forall j | 0 <= j < |areas|
          ensures Joins(Ancestors(PointHexagon(h, role)), areas[j].hexagons) <==>
            exists r :: 1 <= r <= FinestResolution && ToParent(PointHexagon(h, role).value, r) in areas[j].hexagons
        {
          JoinsWithCell(PointHexagon(h, role).value, areas[j].hexagons);
        }
      }
    } else {
      MissingHexagon(h, areas, Pickup, p);
    }
  }

  /** The body of the `process_location` loop for one loaded hexagon file. */
  method LocateFile(rows: seq<HexRow>, areas: seq<Area>, regionId: string) returns (combined: Combined)
    requires BothAtFinest(rows)
    ensures combined == Combined(["key", LocationColumn(Pickup, regionId), LocationColumn(Dropoff, regionId)], LocationRows(rows, areas))
  {
    var df := new HexagonFrame(rows);
    var dfA := FindLocation(df, areas, Pickup, regionId);
    var dfB := FindLocation(df, areas, Dropoff, regionId);
    combined := Combined([dfA.columns[0], dfA.columns[1], dfB.columns[1]], InnerMerge(dfA.rows, dfB.rows));
  }

  /** What `process_location` saves for one hexagon file: its new name and its location table. */
  function LocationOutput(file: (string, seq<HexRow>), areas: seq<Area>, locationType: string, regionId: string): (string, Combined)
    requires BothAtFinest(file.1)
  {
    (Replace(file.0, "hexagon", locationType),
     Combined(["key", LocationColumn(Pickup, regionId), LocationColumn(Dropoff, regionId)], LocationRows(file.1, areas)))
  }

  /**
   * `process_location`: for each hexagon file in sorted name order, both
   * roles are located against the same shapes table and merged on key, and
   * the result is saved under the name with "hexagon" replaced by the
   * location type.
   */
  method ProcessLocation(files: seq<(string, seq<HexRow>)>, areas: seq<Area>, locationType: string, regionId: string)
      returns (saved: seq<(string, Combined)>)
    requires forall i :: 0 <= i < |files| ==> BothAtFinest(files[i].1)
    ensures var ordered := Sort(files, NameLe);
      && multiset(ordered) == multiset(files) && SortedBy(ordered, NameLe)
      && |saved| == |ordered|
      && forall i :: 0 <= i < |ordered| ==>
        BothAtFinest(ordered[i].1) && saved[i] == LocationOutput(ordered[i], areas, locationType, regionId)
  {
    var ordered := Sort(files, NameLe);
    SortedFilesAtFinest(files);
    SortPermutation(files, NameLe);
    NameOrder();
    SortSorted(files, NameLe);
    saved := LocateFiles(ordered, areas, locationType, regionId);
  }

  /** Sorting the hexagon files keeps every one of them at the finest resolution. */
  lemma SortedFilesAtFinest(files: seq<(string, seq<HexRow>)>)
    requires forall i :: 0 <= i < |files| ==> BothAtFinest(files[i].1)
    ensures forall i :: 0 <= i < |Sort(files, NameLe)| ==> BothAtFinest(Sort(files, NameLe)[i].1)
  {
    var ordered := Sort(files, NameLe);
    SortPermutation(files, NameLe);
    forall i | 0 <= i < |ordered| ensures BothAtFinest(ordered[i].1) {
      assert ordered[i] in multiset(files);
    }
  }

  /** The loop of `process_location` over the hexagon files, in the order given. */
  method LocateFiles(files: seq<(string, seq<HexRow>)>, areas: seq<Area>, locationType: string, regionId: string)
      returns (saved: seq<(string, Combined)>)
    requires forall i :: 0 <= i < |files| ==> BothAtFinest(files[i].1)
    ensures |saved| == |files|
    ensures forall i :: 0 <= i < |files| ==> saved[i] == LocationOutput(files[i], areas, locationType, regionId)
  {
    saved := [];
    for i := 0 to |files|
      invariant |saved| == i
      invariant forall k :: 0 <= k < i ==> saved[k] == LocationOutput(files[k], areas, locationType, regionId)
    {
      var output := SaveLocation(files[i], areas, locationType, regionId);
      saved := saved + [output];
    }
  }

  /** One file of the `process_location` loop: its location table under its new name. */
  method SaveLocation(file: (string, seq<HexRow>), areas: seq<Area>, locationType: string, regionId: string)
      returns (output: (string, Combined))
    requires BothAtFinest(file.1)
    ensures output == LocationOutput(file, areas, locationType, regionId)
  {
    var combined := LocateFile(file.1, areas, regionId);
    output := (Replace(file.0, "hexagon", locationType), combined);
  }

  /** File names compare as strings. */
  predicate NameLe(a: (string, seq<HexRow>), b: (string, seq<HexRow>)) {
    LexLe(a.0, b.0)
  }

  /** Comparing files by name is an order `sorted` can use. */
  lemma NameOrder()
    ensures TotalPreorder(NameLe)
  {
    LexIsTotalPreorder();
    forall a, b ensures NameLe(a, b) || NameLe(b, a) {
      assert LexLe(a.0, b.0) || LexLe(b.0, a.0);
    }
    forall a, b, c | NameLe(a, b) && NameLe(b, c) ensures NameLe(a, c) {
      assert LexLe(a.0, b.0) && LexLe(b.0, c.0);
    }
  }

  /**
   * The `region_ids` table of the location entry point: the region id
   * column of each shapes table, and a `KeyError` for any other name.
   */
  function RegionIdFor(locationType: string): (r: Result<string>)
    ensures locationType in {"borough_shoreline", "borough_water"} ==> r == Ok("BoroName")
    ensures locationType in {"state_assembly_shoreline", "state_assembly_water"} ==> r == Ok("AssemDist")
    ensures r.Ok? <==> locationType in {"borough_shoreline", "borough_water", "state_assembly_shoreline", "state_assembly_water"}
    ensures r.Err? ==> r.error == KeyError(locationType)
  {
    var ids := map[
      "borough_shoreline" := "BoroName",
      "borough_water" := "BoroName",
      "state_assembly_shoreline" := "AssemDist",
      "state_assembly_water" := "AssemDist"];
    if locationType in ids then Ok(ids[locationType]) else Err(KeyError(locationType))
  }
}
