/**
 * The shapes tables: GeoJSON region boundaries are downloaded for the
 * selected datasets, and each region's geometry is turned into a sorted
 * list of h3 cells (compacted, so cells of several resolutions).
 */
module Geography {
  import opened Common
  import opened H3
  import opened Sorting
  import opened Strings

  // ---------------------------------------------------------------------
  // shape_to_hexagons

  /** A shapely geometry, as far as its `type` and its parts go. */
  datatype Shape =
    | PolygonShape(polygon: Polygon)
    | MultiPolygonShape(geoms: seq<Shape>)
    | OtherShape(kind: string)  // "Point", "LineString", "GeometryCollection", …

  /** h3 tokens sort as their 64-bit indexes do, a total order. */
  lemma CellOrder()
    ensures TotalPreorder(CellLe)
  {
  }

  /** The cells of a polygon: `sorted(compact(polyfill(shape, resolution)))`. */
  function PolygonCells(p: Polygon, resolution: nat, lib: Lib): seq<Cell> {
    Sort(lib.compact(lib.polyfill(p, resolution)), CellLe)
  }

  /**
   * The cells of a geometry, or the error it raises: a multi-part shape
   * concatenates the unsorted-then-sorted results of its parts, in order,
   * and sorts the whole; any other type never binds `hexagons`.
   */
  function ShapeCells(shape: Shape, resolution: nat, lib: Lib): (r: Result<seq<Cell>>)
    ensures r.Err? ==> r.error == UnboundLocalError("hexagons")
    decreases shape
  {
    match shape
    case PolygonShape(p) => Ok(PolygonCells(p, resolution, lib))
    case MultiPolygonShape(geoms) =>
      (match PartsCells(geoms, resolution, lib)
       case Err(e) => Err(e)
       case Ok(cells) => Ok(Sort(cells, CellLe)))
    case OtherShape(_) => Err(UnboundLocalError("hexagons"))
  }

  /** `hexagons += shape_to_hexagons(g, resolution)` over the parts: the first failure, or all their cells. */
  function PartsCells(geoms: seq<Shape>, resolution: nat, lib: Lib): (r: Result<seq<Cell>>)
    ensures r.Err? ==> r.error == UnboundLocalError("hexagons")
    decreases geoms
  {
    if geoms == [] then Ok([])
    else match ShapeCells(geoms[0], resolution, lib)
      case Err(e) => Err(e)
      case Ok(first) =>
        match PartsCells(geoms[1..], resolution, lib)
        case Err(e) => Err(e)
        case Ok(rest) => Ok(first + rest)
  }

  /** One more part at the end: a failure stays, otherwise the part's result is added. */
  lemma {:induction false} PartsCellsAppend(geoms: seq<Shape>, g: Shape, resolution: nat, lib: Lib)
    ensures PartsCells(geoms + [g], resolution, lib) ==
      match PartsCells(geoms, resolution, lib)
      case Err(e) => Err(e)
      case Ok(cells) =>
        match ShapeCells(g, resolution, lib)
        case Err(e) => Err(e)
        case Ok(more) => Ok(cells + more)
    decreases |geoms|
  {
    if geoms == [] {
      assert geoms + [g] == [g] && [g][0] == g && [g][1..] == [];
      if ShapeCells(g, resolution, lib).Ok? {
        var more := ShapeCells(g, resolution, lib).value;
        assert more + [] == [] + more;
      }
    } else {
      assert (geoms + [g])[0] == geoms[0];
      assert (geoms + [g])[1..] == geoms[1..] + [g];
      PartsCellsAppend(geoms[1..], g, resolution, lib);
      match ShapeCells(geoms[0], resolution, lib)
      case Err(e) =>
      case Ok(first) =>
        match PartsCells(geoms[1..], resolution, lib)
        case Err(e) =>
        case Ok(rest) =>
          if ShapeCells(g, resolution, lib).Ok? {
            assert first + (rest + ShapeCells(g, resolution, lib).value) == (first + rest) + ShapeCells(g, resolution, lib).value;
          }
    }
  }

  /** Once a prefix of the parts fails, so do all the parts, with the same error. */
  lemma {:induction false} PartsCellsFailFast(geoms: seq<Shape>, k: nat, resolution: nat, lib: Lib)
    requires k <= |geoms|
    requires PartsCells(geoms[..k], resolution, lib).Err?
    ensures PartsCells(geoms, resolution, lib) == PartsCells(geoms[..k], resolution, lib)
    decreases k
  {
    assert k > 0;
    if ShapeCells(geoms[0], resolution, lib).Ok? {
      assert geoms[..k][1..] == geoms[1..][..k - 1];
      PartsCellsFailFast(geoms[1..], k - 1, resolution, lib);
    }
  }

  /**
   * `shape_to_hexagons`: a Polygon is filled, compacted and sorted; a
   * MultiPolygon grows a list with each part's cells and sorts it; any
   * other geometry raises.
   */
  method ShapeToHexagons(shape: Shape, resolution: nat, lib: Lib) returns (r: Result<seq<Cell>>)
    ensures r == ShapeCells(shape, resolution, lib)
    decreases shape
  {
    match shape {
      case PolygonShape(p) =>
        var hexagons := lib.compact(lib.polyfill(p, resolution));
        r := Ok(Sort(hexagons, CellLe));
      case MultiPolygonShape(geoms) =>
        var hexagons: seq<Cell> := [];
        for i := 0 to |geoms|
          invariant PartsCells(geoms[..i], resolution, lib) == Ok(hexagons)
        {
          var part := ShapeToHexagons(geoms[i], resolution, lib);
          assert geoms[..i + 1] == geoms[..i] + [geoms[i]];
          PartsCellsAppend(geoms[..i], geoms[i], resolution, lib);
          if part.Err? {
            PartsCellsFailFast(geoms, i + 1, resolution, lib);
            r := Err(part.error);
            return;
          }
          hexagons := hexagons + part.value;
        }
        assert geoms[..|geoms|] == geoms;
        r := Ok(Sort(hexagons, CellLe));
      case OtherShape(_) =>
        r := Err(UnboundLocalError("hexagons"));
    }
  }

  /** Whenever there is a result, it is sorted. */
  lemma ShapeCellsSorted(shape: Shape, resolution: nat, lib: Lib)
    ensures ShapeCells(shape, resolution, lib).Ok? ==> SortedBy(ShapeCells(shape, resolution, lib).value, CellLe)
  {
    CellOrder();
    match shape
    case PolygonShape(p) =>
      SortSorted(lib.compact(lib.polyfill(p, resolution)), CellLe);
    case MultiPolygonShape(geoms) =>
      if PartsCells(geoms, resolution, lib).Ok? {
        SortSorted(PartsCells(geoms, resolution, lib).value, CellLe);
      }
    case OtherShape(_) =>
  }

  /** A polygon's result is a sorted permutation of its compacted fill at the resolution passed in. */
  lemma PolygonResult(p: Polygon, resolution: nat, lib: Lib)
    ensures ShapeCells(PolygonShape(p), resolution, lib).Ok?
    ensures var cells := ShapeCells(PolygonShape(p), resolution, lib).value;
      && multiset(cells) == multiset(lib.compact(lib.polyfill(p, resolution)))
      && SortedBy(cells, CellLe)
  {
    SortPermutation(lib.compact(lib.polyfill(p, resolution)), CellLe);
    ShapeCellsSorted(PolygonShape(p), resolution, lib);
  }

  lemma {:induction false} PartsCellsConcat(geoms: seq<Shape>, parts: seq<seq<Cell>>, resolution: nat, lib: Lib)
    requires |parts| == |geoms|
    requires forall i :: 0 <= i < |geoms| ==> ShapeCells(geoms[i], resolution, lib) == Ok(parts[i])
    ensures PartsCells(geoms, resolution, lib) == Ok(Concat(parts))
    decreases |geoms|
  {
    if geoms != [] {
      PartsCellsConcat(geoms[1..], parts[1..], resolution, lib);
    }
  }

  /**
   * When every part succeeds, a MultiPolygon's result is a sorted
   * permutation of the concatenation of the parts' results, duplicates
   * kept, so its length is the sum of theirs.
   */
  lemma MultiPolygonResult(geoms: seq<Shape>, parts: seq<seq<Cell>>, resolution: nat, lib: Lib)
    requires |parts| == |geoms|
    requires forall i :: 0 <= i < |geoms| ==> ShapeCells(geoms[i], resolution, lib) == Ok(parts[i])
    ensures ShapeCells(MultiPolygonShape(geoms), resolution, lib).Ok?
    ensures var cells := ShapeCells(MultiPolygonShape(geoms), resolution, lib).value;
      && multiset(cells) == multiset(Concat(parts))
      && |cells| == TotalLength(parts)
      && SortedBy(cells, CellLe)
  {
    PartsCellsConcat(geoms, parts, resolution, lib);
    SortPermutation(Concat(parts), CellLe);
    ConcatLength(parts);
    ShapeCellsSorted(MultiPolygonShape(geoms), resolution, lib);
  }

  /** The first failing part decides a MultiPolygon's error. */
  lemma {:induction false} MultiPolygonFirstError(geoms: seq<Shape>, k: nat, resolution: nat, lib: Lib)
    requires k < |geoms| && ShapeCells(geoms[k], resolution, lib).Err?
    requires forall i :: 0 <= i < k ==> ShapeCells(geoms[i], resolution, lib).Ok?
    ensures ShapeCells(MultiPolygonShape(geoms), resolution, lib) == ShapeCells(geoms[k], resolution, lib)
    decreases k
  {
    if k > 0 {
      MultiPolygonFirstError(geoms[1..], k - 1, resolution, lib);
    }
  }

  /** Polygons all the way down: every part, at every depth, is a Polygon or a MultiPolygon. */
  predicate OnlyPolygons(shape: Shape)
    decreases shape
  {
    match shape
    case PolygonShape(_) => true
    case MultiPolygonShape(geoms) => forall i :: 0 <= i < |geoms| ==> OnlyPolygons(geoms[i])
    case OtherShape(_) => false
  }

  /** A geometry has cells exactly when it is polygons all the way down; otherwise it raises. */
  lemma {:induction false} ShapeCellsDefined(shape: Shape, resolution: nat, lib: Lib)
    ensures ShapeCells(shape, resolution, lib).Ok? <==> OnlyPolygons(shape)
    ensures ShapeCells(shape, resolution, lib).Err? && !shape.MultiPolygonShape? ==>
      ShapeCells(shape, resolution, lib).error == UnboundLocalError("hexagons")
    decreases shape
  {
    if shape.MultiPolygonShape? {
      PartsDefined(shape.geoms, resolution, lib);
    }
  }

  lemma {:induction false} PartsDefined(geoms: seq<Shape>, resolution: nat, lib: Lib)
    ensures PartsCells(geoms, resolution, lib).Ok? <==> forall i :: 0 <= i < |geoms| ==> OnlyPolygons(geoms[i])
    decreases geoms
  {
    if geoms != [] {
      ShapeCellsDefined(geoms[0], resolution, lib);
      PartsDefined(geoms[1..], resolution, lib);
      if forall i :: 0 <= i < |geoms[1..]| ==> OnlyPolygons(geoms[1..][i]) {
        forall i | 1 <= i < |geoms| ensures OnlyPolygons(geoms[i]) {
          assert geoms[i] == geoms[1..][i - 1];
        }
      }
    }
  }

  /** The polygons a geometry is made of, depth first, in order. */
  function Leaves(shape: Shape): seq<Polygon>
    decreases shape
  {
    match shape
    case PolygonShape(p) => [p]
    case MultiPolygonShape(geoms) => PartsLeaves(geoms)
    case OtherShape(_) => []
  }

  function PartsLeaves(geoms: seq<Shape>): seq<Polygon>
    decreases geoms
  {
    if geoms == [] then [] else Leaves(geoms[0]) + PartsLeaves(geoms[1..])
  }

  /**
   * Every part is filled at the resolution passed in: a cell is in a
   * geometry's result exactly when it is in the compacted fill, at that
   * resolution, of one of the polygons the geometry is made of.
   */
  lemma {:induction false} CellsFromLeaves(shape: Shape, resolution: nat, lib: Lib, c: Cell)
    requires ShapeCells(shape, resolution, lib).Ok?
    ensures c in ShapeCells(shape, resolution, lib).value <==>
      exists p :: p in Leaves(shape) && c in lib.compact(lib.polyfill(p, resolution))
    decreases shape
  {
    match shape
    case PolygonShape(p) =>
      SortPermutation(lib.compact(lib.polyfill(p, resolution)), CellLe);
      assert c in ShapeCells(shape, resolution, lib).value <==> c in multiset(lib.compact(lib.polyfill(p, resolution)));
    case MultiPolygonShape(geoms) =>
      var cells := PartsCells(geoms, resolution, lib).value;
      SortPermutation(cells, CellLe);
      assert c in ShapeCells(shape, resolution, lib).value <==> c in multiset(cells);
      PartsCellsFromLeaves(geoms, resolution, lib, c);
  }

  lemma {:induction false} PartsCellsFromLeaves(geoms: seq<Shape>, resolution: nat, lib: Lib, c: Cell)
    requires PartsCells(geoms, resolution, lib).Ok?
    ensures c in PartsCells(geoms, resolution, lib).value <==>
      exists p :: p in PartsLeaves(geoms) && c in lib.compact(lib.polyfill(p, resolution))
    decreases geoms
  {
    if geoms != [] {
      CellsFromLeaves(geoms[0], resolution, lib, c);
      PartsCellsFromLeaves(geoms[1..], resolution, lib, c);
      var first := Leaves(geoms[0]);
      var rest := PartsLeaves(geoms[1..]);
      assert PartsLeaves(geoms) == first + rest;
      if exists p :: p in first + rest && c in lib.compact(lib.polyfill(p, resolution)) {
        var p :| p in first + rest && c in lib.compact(lib.polyfill(p, resolution));
        assert p in first || p in rest;
      }
    }
  }

  // ---------------------------------------------------------------------
  // download_geojson and process_geometry

  /** One entry of the links file. */
  datatype Link = Link(name: string, boundary: string, url: string)

  /** The part of an HTTP response the download reads. */
  datatype Response = Response(statusCode: int, text: string)

  /** `datasets` as the filter reads it: absent, or its comma-separated names with surrounding whitespace removed. */
  function SelectedNames(datasets: Option<string>): Option<seq<string>> {
    if datasets.None? then None else Some(Map(Split(datasets.value, ','), Strip))
  }

  predicate Wanted(names: Option<seq<string>>, name: string) {
    names.None? || name in names.value
  }

  /** A dataset is wanted when no list is given, or when it is one of the stripped comma-separated pieces. */
  lemma WantedIff(datasets: Option<string>, name: string)
    ensures Wanted(SelectedNames(datasets), name) <==>
      datasets.None? || exists piece :: piece in Split(datasets.value, ',') && Strip(piece) == name
  {
    if datasets.Some? {
      var pieces := Split(datasets.value, ',');
      var names := Map(pieces, Strip);
      if name in names {
        var k :| 0 <= k < |names| && names[k] == name;
        assert pieces[k] in pieces;
      }
      if piece :| piece in pieces && Strip(piece) == name {
        var k :| 0 <= k < |pieces| && pieces[k] == piece;
        assert names[k] == name;
      }
    }
  }

  /**
   * Names written as a comma-separated list, each with no comma and no
   * surrounding whitespace, select exactly those names.
   */
  lemma SelectListedNames(listed: seq<string>, name: string)
    requires |listed| >= 1
    requires forall k :: 0 <= k < |listed| ==> ',' !in listed[k] && Stripped(listed[k])
    ensures Wanted(SelectedNames(Some(Join(listed, ','))), name) <==> name in listed
  {
    SplitJoin(listed, ',');
    var names := Map(listed, Strip);
    forall k | 0 <= k < |listed| ensures names[k] == listed[k] {
      StripProperties(listed[k]);
    }
    assert names == listed;
  }

  /** The file a link's body is saved to, inside the output folder. */
  function GeojsonName(l: Link): string {
    l.name + "_" + l.boundary + ".geojson"
  }

  /** The links requested, in file order. */
  function Requests(links: seq<Link>, names: Option<seq<string>>): seq<string>
    decreases |links|
  {
    if links == [] then []
    else
      var last := links[|links| - 1];
      Requests(links[..|links| - 1], names) + (if Wanted(names, last.name) then [last.url] else [])
  }

  /** The files saved, in file order: the wanted links that answered with status 200. */
  function Downloads(links: seq<Link>, names: Option<seq<string>>, get: string -> Response): seq<(string, string)>
    decreases |links|
  {
    if links == [] then []
    else
      var last := links[|links| - 1];
      Downloads(links[..|links| - 1], names, get)
        + (if Wanted(names, last.name) && get(last.url).statusCode == 200
           then [(GeojsonName(last), get(last.url).text)] else [])
  }

  /** A link is fetched exactly when its dataset is wanted. */
  lemma {:induction false} RequestsMembership(links: seq<Link>, names: Option<seq<string>>, url: string)
    ensures url in Requests(links, names) <==>
      exists k :: 0 <= k < |links| && links[k].url == url && Wanted(names, links[k].name)
    decreases |links|
  {
    if links != [] {
      var init := links[..|links| - 1];
      RequestsMembership(init, names, url);
      if url in Requests(init, names) {
        var k :| 0 <= k < |init| && init[k].url == url && Wanted(names, init[k].name);
        assert links[k] == init[k];
      }
      if k :| 0 <= k < |links| && links[k].url == url && Wanted(names, links[k].name) {
        if k < |init| {
          assert init[k] == links[k];
        }
      }
    }
  }

  /** A file is saved exactly for a wanted link whose response has status 200, with the response's text. */
  lemma {:induction false} DownloadsMembership(links: seq<Link>, names: Option<seq<string>>, get: string -> Response, saved: (string, string))
    ensures saved in Downloads(links, names, get) <==>
      exists k :: 0 <= k < |links| && Wanted(names, links[k].name) && get(links[k].url).statusCode == 200
        && saved == (GeojsonName(links[k]), get(links[k].url).text)
    decreases |links|
  {
    if links != [] {
      var init := links[..|links| - 1];
      DownloadsMembership(init, names, get, saved);
      if saved in Downloads(init, names, get) {
        var k :| 0 <= k < |init| && Wanted(names, init[k].name) && get(init[k].url).statusCode == 200
          && saved == (GeojsonName(init[k]), get(init[k].url).text);
        assert links[k] == init[k];
      }
      if k :| (0 <= k < |links| && Wanted(names, links[k].name) && get(links[k].url).statusCode == 200
          && saved == (GeojsonName(links[k]), get(links[k].url).text)) {
        if k < |init| {
          assert init[k] == links[k];
        }
      }
    }
  }

  /** The file names of a sequence of writes, in order. */
  function Paths(writes: seq<(string, string)>): (paths: seq<string>)
    ensures |paths| == |writes|
    ensures forall k :: 0 <= k < |writes| ==> paths[k] == writes[k].0
    decreases |writes|
  {
    if writes == [] then []
    else Paths(writes[..|writes| - 1]) + [writes[|writes| - 1].0]
  }

  /**
   * The output folder after a sequence of writes, as a map from file name
   * to contents: writing a file again replaces what it held. Files the
   * folder held before are never read back, so they are left out.
   */
  function Folder(writes: seq<(string, string)>): (folder: map<string, string>)
    ensures forall k :: 0 <= k < |writes| ==> writes[k].0 in folder
    decreases |writes|
  {
    if writes == [] then map[]
    else
      var init, last := writes[..|writes| - 1], writes[|writes| - 1];
      var folder := Folder(init)[last.0 := last.1];
      assert forall k :: 0 <= k < |init| ==> init[k] == writes[k];
      folder
  }

  /** Every file in the folder holds the text of one of the writes to it. */
  lemma {:induction false} FolderWritten(writes: seq<(string, string)>, name: string)
    requires name in Folder(writes)
    ensures exists k :: 0 <= k < |writes| && writes[k] == (name, Folder(writes)[name])
    decreases |writes|
  {
    var init, last := writes[..|writes| - 1], writes[|writes| - 1];
    if name != last.0 {
      FolderWritten(init, name);
      var k :| 0 <= k < |init| && init[k] == (name, Folder(init)[name]);
      assert writes[k] == init[k];
    }
  }

  /** A file holds the text of the last write to it. */
  lemma {:induction false} FolderLastWrite(writes: seq<(string, string)>, j: nat)
    requires j < |writes|
    requires forall k :: j < k < |writes| ==> writes[k].0 != writes[j].0
    ensures writes[j].0 in Folder(writes) && Folder(writes)[writes[j].0] == writes[j].1
    decreases |writes|
  {
    if j < |writes| - 1 {
      var init := writes[..|writes| - 1];
      assert init[j] == writes[j];
      forall k | j < k < |init| ensures init[k].0 != init[j].0 {
        assert init[k] == writes[k];
      }
      FolderLastWrite(init, j);
    }
  }

  /** One more link fetches its URL when wanted and adds its file when the answer has status 200. */
  lemma DownloadStep(links: seq<Link>, names: Option<seq<string>>, get: string -> Response, i: nat)
    requires i < |links|
    ensures Requests(links[..i + 1], names) ==
      Requests(links[..i], names) + (if Wanted(names, links[i].name) then [links[i].url] else [])
    ensures Downloads(links[..i + 1], names, get) ==
      Downloads(links[..i], names, get)
        + (if Wanted(names, links[i].name) && get(links[i].url).statusCode == 200
           then [(GeojsonName(links[i]), get(links[i].url).text)] else [])
  {
    assert links[..i + 1][..i] == links[..i];
  }

  /** One more write lists one more file and replaces that file's contents. */
  lemma WriteStep(writes: seq<(string, string)>, w: (string, string))
    ensures Paths(writes + [w]) == Paths(writes) + [w.0]
    ensures Folder(writes + [w]) == Folder(writes)[w.0 := w.1]
  {
    assert (writes + [w])[..|writes|] == writes;
  }

  /**
   * `download_geojson`: the links of the wanted datasets are fetched in
   * file order; each answer with status 200 is written to its file in the
   * output folder and the file listed.
   */
  method DownloadGeojson(links: seq<Link>, datasets: Option<string>, get: string -> Response)
      returns (requested: seq<string>, saved: seq<string>, folder: map<string, string>)
    ensures requested == Requests(links, SelectedNames(datasets))
    ensures saved == Paths(Downloads(links, SelectedNames(datasets), get))
    ensures folder == Folder(Downloads(links, SelectedNames(datasets), get))
  {
    var names := SelectedNames(datasets);
    requested := [];
    saved := [];
    folder := map[];
    for i := 0 to |links|
      invariant requested == Requests(links[..i], names)
      invariant saved == Paths(Downloads(links[..i], names, get))
      invariant folder == Folder(Downloads(links[..i], names, get))
    {
      var elem := links[i];
      ghost var before := Downloads(links[..i], names, get);
      DownloadStep(links, names, get, i);
      assert before + [] == before;
      if Wanted(names, elem.name) {
        var req := get(elem.url);
        requested := requested + [elem.url];
        if req.statusCode == 200 {
          var fl := GeojsonName(elem);
          WriteStep(before, (fl, req.text));
          folder := folder[fl := req.text];
          saved := saved + [fl];
        }
      }
    }
    assert links[..|links|] == links;
  }

  /** One region of a GeoJSON file: its properties and its geometry. */
  datatype Feature = Feature(properties: seq<(string, Datum)>, geometry: Shape)

  /** A row of a shapes table: the region's properties and its `hexagons` list, geometry dropped. */
  datatype Region = Region(properties: seq<(string, Datum)>, hexagons: seq<Cell>)

  /** `convert_hexagon`: every feature with its geometry's cells; the first failing geometry raises. */
  function ConvertHexagon(features: seq<Feature>, resolution: nat, lib: Lib): (r: Result<seq<Region>>)
    ensures r.Ok? ==> |r.value| == |features|
    ensures r.Err? ==> r.error == UnboundLocalError("hexagons")
    decreases |features|
  {
    if features == [] then Ok([])
    else match ShapeCells(features[0].geometry, resolution, lib)
      case Err(e) => Err(e)
      case Ok(cells) =>
        match ConvertHexagon(features[1..], resolution, lib)
        case Err(e) => Err(e)
        case Ok(rest) => Ok([Region(features[0].properties, cells)] + rest)
  }

  /** Each region row keeps its feature's properties and holds its geometry's cells at the resolution given. */
  lemma {:induction false} ConvertHexagonRows(features: seq<Feature>, resolution: nat, lib: Lib)
    ensures ConvertHexagon(features, resolution, lib).Ok? <==>
      forall k :: 0 <= k < |features| ==> OnlyPolygons(features[k].geometry)
    ensures ConvertHexagon(features, resolution, lib).Ok? ==>
      var rows := ConvertHexagon(features, resolution, lib).value;
      && |rows| == |features|
      && forall k :: 0 <= k < |features| ==>
           ShapeCells(features[k].geometry, resolution, lib).Ok? &&
           rows[k] == Region(features[k].properties, ShapeCells(features[k].geometry, resolution, lib).value)
    decreases |features|
  {
    if features != [] {
      ShapeCellsDefined(features[0].geometry, resolution, lib);
      ConvertHexagonRows(features[1..], resolution, lib);
      if forall k :: 0 <= k < |features[1..]| ==> OnlyPolygons(features[1..][k].geometry) {
        forall k | 1 <= k < |features| ensures OnlyPolygons(features[k].geometry) {
          assert features[k] == features[1..][k - 1];
        }
      }
    }
  }

  /** Opening a saved file, decoding its GeoJSON and converting it; a file not in the folder cannot be opened. */
  function ConvertFile(name: string, folder: map<string, string>, decode: string -> seq<Feature>,
                       resolution: nat, lib: Lib): (r: Result<seq<Region>>)
    ensures r.Ok? ==> name in folder && |r.value| == |decode(folder[name])|
    ensures r.Err? ==> r.error == UnboundLocalError("hexagons") || (name !in folder && r.error == FileNotFoundError(name))
  {
    if name !in folder then Err(FileNotFoundError(name))
    else ConvertHexagon(decode(folder[name]), resolution, lib)
  }

  /** The shapes tables of the saved files, read from the folder, or the error of the first file that fails. */
  function ShapesTables(saved: seq<string>, folder: map<string, string>, decode: string -> seq<Feature>,
                        resolution: nat, lib: Lib): (r: (seq<(string, seq<Region>)>, Option<Error>))
    ensures |r.0| <= |saved|
    ensures r.1.Some? ==> r.1.value == UnboundLocalError("hexagons") || r.1.value.FileNotFoundError?
    decreases |saved|
  {
    if saved == [] then ([], None)
    else match ConvertFile(saved[0], folder, decode, resolution, lib)
      case Err(e) => ([], Some(e))
      case Ok(rows) =>
        var rest := ShapesTables(saved[1..], folder, decode, resolution, lib);
        ([(Replace(saved[0], ".geojson", ".parquet"), rows)] + rest.0, rest.1)
  }

  /**
   * Converting without failure writes one table per saved file, in order,
   * named after the file with ".geojson" replaced by ".parquet" and holding
   * the regions of what the folder holds under that name; there is no
   * failure exactly when every file converts.
   */
  lemma {:induction false} ShapesTablesComplete(saved: seq<string>, folder: map<string, string>,
                                                decode: string -> seq<Feature>, resolution: nat, lib: Lib)
    ensures ShapesTables(saved, folder, decode, resolution, lib).1.None? <==>
      forall k :: 0 <= k < |saved| ==> ConvertFile(saved[k], folder, decode, resolution, lib).Ok?
    ensures ShapesTables(saved, folder, decode, resolution, lib).1.None? ==>
      var written := ShapesTables(saved, folder, decode, resolution, lib).0;
      && |written| == |saved|
      && forall k :: 0 <= k < |saved| ==>
           written[k] == (Replace(saved[k], ".geojson", ".parquet"), ConvertFile(saved[k], folder, decode, resolution, lib).value)
    decreases |saved|
  {
    if saved != [] {
      ShapesTablesComplete(saved[1..], folder, decode, resolution, lib);
      if forall k :: 0 <= k < |saved[1..]| ==> ConvertFile(saved[1..][k], folder, decode, resolution, lib).Ok? {
        forall k | 1 <= k < |saved| ensures ConvertFile(saved[k], folder, decode, resolution, lib).Ok? {
          assert saved[k] == saved[1..][k - 1];
        }
      }
      if ShapesTables(saved, folder, decode, resolution, lib).1.None? {
        var written := ShapesTables(saved, folder, decode, resolution, lib).0;
        forall k | 1 <= k < |saved|
          ensures written[k] == (Replace(saved[k], ".geojson", ".parquet"), ConvertFile(saved[k], folder, decode, resolution, lib).value)
        {
          assert saved[k] == saved[1..][k - 1];
        }
      }
    }
  }

  /**
   * The first file that fails to convert stops the run with its error:
   * the tables written are those of the files before it, and no later
   * file is converted.
   */
  lemma {:induction false} ShapesTablesStops(saved: seq<string>, folder: map<string, string>,
                                             decode: string -> seq<Feature>, resolution: nat, lib: Lib, j: nat)
    requires j < |saved|
    requires forall k :: 0 <= k < j ==> ConvertFile(saved[k], folder, decode, resolution, lib).Ok?
    requires ConvertFile(saved[j], folder, decode, resolution, lib).Err?
    ensures ShapesTables(saved, folder, decode, resolution, lib) ==
      (ShapesTables(saved[..j], folder, decode, resolution, lib).0, Some(ConvertFile(saved[j], folder, decode, resolution, lib).error))
    decreases j
  {
    if j > 0 {
      forall k | 0 <= k < j - 1 ensures ConvertFile(saved[1..][k], folder, decode, resolution, lib).Ok? {
        assert saved[1..][k] == saved[k + 1];
      }
      assert saved[1..][j - 1] == saved[j];
      ShapesTablesStops(saved[1..], folder, decode, resolution, lib, j - 1);
      assert saved[..j][1..] == saved[1..][..j - 1];
    }
  }

  /** When every listed file is in the folder, the only error that can stop the run is the unbound `hexagons`. */
  lemma {:induction false} ShapesTablesFound(saved: seq<string>, folder: map<string, string>,
                                             decode: string -> seq<Feature>, resolution: nat, lib: Lib)
    requires forall k :: 0 <= k < |saved| ==> saved[k] in folder
    ensures ShapesTables(saved, folder, decode, resolution, lib).1.Some? ==>
      ShapesTables(saved, folder, decode, resolution, lib).1.value == UnboundLocalError("hexagons")
    decreases |saved|
  {
    if saved != [] {
      forall k | 0 <= k < |saved[1..]| ensures saved[1..][k] in folder {
        assert saved[1..][k] == saved[k + 1];
      }
      ShapesTablesFound(saved[1..], folder, decode, resolution, lib);
    }
  }

  /**
   * Converting what was downloaded: every listed file is found, and the
   * table written for the k-th saved file holds the regions of the LAST
   * text written under its name, so links sharing a name and boundary
   * produce the same table, from the last of their answers.
   */
  lemma DownloadedTables(writes: seq<(string, string)>, decode: string -> seq<Feature>, resolution: nat, lib: Lib,
                         k: nat, j: nat)
    requires k <= j < |writes| && writes[j].0 == writes[k].0
    requires forall i :: j < i < |writes| ==> writes[i].0 != writes[j].0
    ensures var r := ShapesTables(Paths(writes), Folder(writes), decode, resolution, lib);
      && (r.1.Some? ==> r.1.value == UnboundLocalError("hexagons"))
      && (r.1.None? ==>
            && |r.0| == |writes|
            && ConvertHexagon(decode(writes[j].1), resolution, lib).Ok?
            && r.0[k] == (Replace(writes[k].0, ".geojson", ".parquet"), ConvertHexagon(decode(writes[j].1), resolution, lib).value))
  {
    ShapesTablesFound(Paths(writes), Folder(writes), decode, resolution, lib);
    ShapesTablesComplete(Paths(writes), Folder(writes), decode, resolution, lib);
    FolderLastWrite(writes, j);
  }

  /** The loop of `process_geometry`: each listed file, in order, opened, converted and written, until one fails. */
  method ConvertSaved(saved: seq<string>, folder: map<string, string>, decode: string -> seq<Feature>,
                      resolution: nat, lib: Lib)
      returns (written: seq<(string, seq<Region>)>, failure: Option<Error>)
    ensures (written, failure) == ShapesTables(saved, folder, decode, resolution, lib)
  {
    written := [];
    failure := None;
    var i := 0;
    assert saved[0..] == saved;
    while i < |saved|
      invariant 0 <= i <= |saved|
      invariant ShapesTables(saved, folder, decode, resolution, lib).0 == written + ShapesTables(saved[i..], folder, decode, resolution, lib).0
      invariant ShapesTables(saved, folder, decode, resolution, lib).1 == ShapesTables(saved[i..], folder, decode, resolution, lib).1
      decreases |saved| - i
    {
      var df := ConvertFile(saved[i], folder, decode, resolution, lib);
      assert saved[i..][0] == saved[i];
      assert saved[i..][1..] == saved[i + 1..];
      if df.Err? {
        assert written + [] == written;
        failure := Some(df.error);
        return;
      }
      written := written + [(Replace(saved[i], ".geojson", ".parquet"), df.value)];
      i := i + 1;
    }
    assert saved[i..] == [];
    assert written + [] == written;
  }

  /**
   * `process_geometry`: downloads the wanted datasets, then opens each
   * saved file, in order, decodes it and converts it at `resolution` (11
   * unless given), until a file fails. `decode` stands for reading the
   * GeoJSON text into features.
   */
  method ProcessGeometry(links: seq<Link>, datasets: Option<string>, get: string -> Response,
                         decode: string -> seq<Feature>, lib: Lib, resolution: nat := 11)
      returns (written: seq<(string, seq<Region>)>, failure: Option<Error>)
    ensures var writes := Downloads(links, SelectedNames(datasets), get);
      (written, failure) == ShapesTables(Paths(writes), Folder(writes), decode, resolution, lib)
  {
    var _, saved, folder := DownloadGeojson(links, datasets, get);
    written, failure := ConvertSaved(saved, folder, decode, resolution, lib);
  }
}
