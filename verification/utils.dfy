/**
 * The feature transformers. Each one reads a list of trip files, computes
 * one or more columns per trip, concatenates the files' results and orders
 * the rows by index label, so that every feature array lists the trips in
 * the same order.
 */
module FeatureUtils {
  import opened Common
  import opened Records
  import opened Sorting
  import opened Strings
  import Coordinates

  // ---------------------------------------------------------------------
  // Per-row values

  /** The `is_correct` flag: 1.0 for a trip whose four coordinates are inside the New York box. */
  function IsCorrect(t: Trip): (flag: real)
    ensures flag == 1.0 <==> InNycBox(t)
    ensures flag == 0.0 <==> !InNycBox(t)
  {
    if InNycBox(t) then 1.0 else 0.0
  }

  /**
   * A trip after `GeographicalCoordinates.transform_single`: unchanged when
   * its four coordinates pass the world filter, otherwise with all four set
   * to null.
   */
  function NullInvalid(t: Trip): (u: Trip)
    ensures InWorld(t) ==> u == t
    ensures !InWorld(t) ==>
      && u.pickupLatitude.None? && u.pickupLongitude.None?
      && u.dropoffLatitude.None? && u.dropoffLongitude.None?
    ensures u.(pickupLatitude := t.pickupLatitude, pickupLongitude := t.pickupLongitude,
               dropoffLatitude := t.dropoffLatitude, dropoffLongitude := t.dropoffLongitude) == t
  {
    if InWorld(t) then t
    else t.(pickupLatitude := None, pickupLongitude := None, dropoffLatitude := None, dropoffLongitude := None)
  }

  /** Nulling is done once for all: a nulled trip fails the filter and stays as it is. */
  lemma NullInvalidIdempotent(t: Trip)
    ensures NullInvalid(NullInvalid(t)) == NullInvalid(t)
    ensures InWorld(NullInvalid(t)) <==> InWorld(t)
  {
  }

  /** The coordinate feature's column order. */
  const CoordinateColumns: seq<string> := ["pickup_latitude", "pickup_longitude", "dropoff_latitude", "dropoff_longitude"]

  /** A trip's coordinate row, in the order of `CoordinateColumns`. */
  function CoordinateRow(t: Trip): seq<Datum> {
    [NumToDatum(t.pickupLatitude), NumToDatum(t.pickupLongitude),
     NumToDatum(t.dropoffLatitude), NumToDatum(t.dropoffLongitude)]
  }

  /**
   * `time_in_week`: weekday · 24 + hours since midnight, with Sunday as day
   * 0. The value lies in the weekday's own 24-hour slot, so the weekday and
   * the time of day can be read back from it.
   */
  function TimeInWeek(ts: Timestamp): (hours: real)
    ensures (ts.weekday * 24) as real <= hours < ((ts.weekday + 1) * 24) as real
    ensures hours - (ts.weekday * 24) as real == ts.secondsOfDay / 3600.0
  {
    (ts.weekday * 24) as real + ts.secondsOfDay / 3600.0
  }

  /** Every `time_in_week` lies in [0, 168). */
  lemma TimeInWeekBounds(ts: Timestamp)
    ensures 0.0 <= TimeInWeek(ts) < 168.0
  {
  }

  /** Two timestamps with the same `time_in_week` have the same weekday and time of day. */
  lemma TimeInWeekInjective(a: Timestamp, b: Timestamp)
    requires TimeInWeek(a) == TimeInWeek(b)
    ensures a == b
  {
  }

  // ---------------------------------------------------------------------
  // transform_single: the per-file steps that write a column into the frame

  /** A frame's rows, each tagged with its index label. */
  function Tag<T>(rows: seq<Trip>, f: Trip -> T): (tagged: seq<Indexed<T>>)
    ensures |tagged| == |rows|
    ensures forall i :: 0 <= i < |rows| ==> tagged[i].index == rows[i].index && tagged[i].value == f(rows[i])
  {
    Map(rows, (t: Trip) => Indexed(t.index, f(t)))
  }

  /** `GeographicalBoundingBox.transform_single`: writes `is_correct` and returns that column, one row per trip. */
  method BoundingBoxSingle(df: TripFrame) returns (out: seq<Indexed<seq<Datum>>>)
    modifies df
    ensures df.rows == old(df.rows) && df.timeInWeek == old(df.timeInWeek)
    ensures df.isCorrect == Map(df.rows, IsCorrect)
    ensures out == Tag(df.rows, (t: Trip) => [Number(IsCorrect(t))])
  {
    df.isCorrect := Map(df.rows, IsCorrect);
    out := Tag(df.rows, (t: Trip) => [Number(IsCorrect(t))]);
  }

  /**
   * `GeographicalCoordinates.transform_single`: nulls the four coordinates
   * of every row that fails the world filter, in place, and returns them.
   */
  method CoordinatesSingle(df: TripFrame) returns (out: seq<Indexed<seq<Datum>>>)
    modifies df
    ensures df.rows == Map(old(df.rows), NullInvalid)
    ensures df.isCorrect == old(df.isCorrect) && df.timeInWeek == old(df.timeInWeek)
    ensures out == Tag(old(df.rows), (t: Trip) => CoordinateRow(NullInvalid(t)))
  {
    var rows := df.rows;
    df.rows := Map(rows, NullInvalid);
    out := Tag(rows, (t: Trip) => CoordinateRow(NullInvalid(t)));
  }

  function TripTimeInWeek(t: Trip): real {
    TimeInWeek(t.pickupDatetime)
  }

  /** `Timestamp_Week.transform_single`: writes `time_in_week` and returns that column. */
  method TimeInWeekSingle(df: TripFrame) returns (out: seq<Indexed<seq<Datum>>>)
    modifies df
    ensures df.rows == old(df.rows) && df.isCorrect == old(df.isCorrect)
    ensures df.timeInWeek == Map(df.rows, TripTimeInWeek)
    ensures out == Tag(df.rows, (t: Trip) => [Number(TripTimeInWeek(t))])
  {
    df.timeInWeek := Map(df.rows, TripTimeInWeek);
    out := Tag(df.rows, (t: Trip) => [Number(TripTimeInWeek(t))]);
  }

  /** The columns of `columns` that start with `prefix`, in order (a list comprehension). */
  function WithPrefix(columns: seq<string>, prefix: string): (r: seq<string>)
    ensures forall x :: x in r <==> x in columns && IsPrefix(prefix, x)
    ensures |r| <= |columns|
    decreases |columns|
  {
    if columns == [] then []
    else (if IsPrefix(prefix, columns[0]) then [columns[0]] else []) + WithPrefix(columns[1..], prefix)
  }

  /**
   * The comprehension keeps each column starting with `prefix` as often as
   * it occurs and drops every other, so its length counts those columns.
   */
  lemma {:induction false} WithPrefixCount(columns: seq<string>, prefix: string)
    ensures forall x :: multiset(WithPrefix(columns, prefix))[x] == if IsPrefix(prefix, x) then multiset(columns)[x] else 0
    decreases |columns|
  {
    if columns != [] {
      WithPrefixCount(columns[1..], prefix);
      assert columns == [columns[0]] + columns[1..];
    }
  }

  /**
   * `Location.transform_single`: the one "pickup…" column, then the one
   * "dropoff…" column; the assertion fails unless there is exactly one of each.
   */
  function LocationColumns(columns: seq<string>): (r: Result<(string, string)>)
    ensures r.Ok? <==> |WithPrefix(columns, "pickup")| == 1 && |WithPrefix(columns, "dropoff")| == 1
    ensures r.Ok? ==>
      && r.value.0 in columns && IsPrefix("pickup", r.value.0)
      && r.value.1 in columns && IsPrefix("dropoff", r.value.1)
      && (forall c :: c in columns && IsPrefix("pickup", c) ==> c == r.value.0)
      && (forall c :: c in columns && IsPrefix("dropoff", c) ==> c == r.value.1)
    ensures r.Err? ==> r.error.AssertionError?
  {
    var pickup := WithPrefix(columns, "pickup");
    var dropoff := WithPrefix(columns, "dropoff");
    if |pickup| != 1 then Err(AssertionError("len(column_pickup) == 1"))
    else if |dropoff| != 1 then Err(AssertionError("len(column_dropoff) == 1"))
    else
      assert pickup[0] in pickup && dropoff[0] in dropoff;
      Ok((pickup[0], dropoff[0]))
  }

  /** A location file, as the location step writes it, passes the assertions and yields its two region columns. */
  lemma LocationFileColumns(regionId: string)
    ensures LocationColumns(["key", Coordinates.LocationColumn(Pickup, regionId), Coordinates.LocationColumn(Dropoff, regionId)])
      == Ok((Coordinates.LocationColumn(Pickup, regionId), Coordinates.LocationColumn(Dropoff, regionId)))
  {
    var p := Coordinates.LocationColumn(Pickup, regionId);
    var d := Coordinates.LocationColumn(Dropoff, regionId);
    var columns := ["key", p, d];
    assert p[..6] == "pickup";
    assert d[..7] == "dropoff";
    assert !IsPrefix("pickup", d) by { assert d[0] == 'd'; }
    assert !IsPrefix("dropoff", p) by { assert p[0] == 'p'; }
    assert WithPrefix(columns[2..], "pickup") == [];
    assert WithPrefix(columns[1..], "pickup") == [p];
    assert WithPrefix(columns, "pickup") == [p];
    assert WithPrefix(columns[2..], "dropoff") == [d];
    assert WithPrefix(columns[1..], "dropoff") == [d];
    assert WithPrefix(columns, "dropoff") == [d];
  }

  // ---------------------------------------------------------------------
  // transform: concat, then sort_index

  predicate IndexLe<T>(a: Indexed<T>, b: Indexed<T>) {
    a.index <= b.index
  }

  lemma IndexOrder<T(!new)>()
    ensures TotalPreorder((a: Indexed<T>, b: Indexed<T>) => IndexLe(a, b))
  {
  }

  function Values<T>(rows: seq<Indexed<T>>): seq<T> {
    Map(rows, (r: Indexed<T>) => r.value)
  }

  /** `pandas.concat(frames).sort_index().values`. */
  function ConcatSortIndex<T>(frames: seq<seq<Indexed<T>>>): (r: seq<T>)
    ensures |r| == TotalLength(frames)
  {
    ConcatLength(frames);
    SortPermutation(Concat(frames), IndexLe);
    Values(Sort(Concat(frames), IndexLe))
  }

  /**
   * The concatenation holds every row of every frame, and sorting keeps
   * them all: the output has the summed row count, its rows are a
   * permutation of the frames' rows, and their index labels are ascending.
   */
  lemma ConcatSortIndexRows<T(!new)>(frames: seq<seq<Indexed<T>>>)
    ensures |ConcatSortIndex(frames)| == TotalLength(frames)
    ensures multiset(Sort(Concat(frames), IndexLe)) == multiset(Concat(frames))
    ensures SortedBy(Sort(Concat(frames), IndexLe), IndexLe)
  {
    ConcatLength(frames);
    SortPermutation(Concat(frames), IndexLe);
    IndexOrder<T>();
    SortSorted(Concat(frames), IndexLe);
  }

  /** Tagging each file with `f` and concatenating is tagging the concatenation. */
  lemma {:induction false} ConcatTag<T>(files: seq<seq<Trip>>, f: Trip -> T)
    ensures Concat(Map(files, rows => Tag(rows, f))) == Tag(Concat(files), f)
    decreases |files|
  {
    if files != [] {
      assert Map(files, rows => Tag(rows, f))[1..] == Map(files[1..], rows => Tag(rows, f));
      ConcatTag(files[1..], f);
    }
  }

  /** The order every feature array lists trips in: by index label, ties in file order. */
  function TripOrder(files: seq<seq<Trip>>): seq<Trip> {
    Values(Sort(Tag(Concat(files), t => t), IndexLe))
  }

  /**
   * Row alignment of the features: a feature computed row by row with `f`
   * is `f` applied to the trips in `TripOrder`, whatever `f` is, so the
   * k-th row of every such feature describes the same trip.
   */
  lemma FeatureAligned<T>(files: seq<seq<Trip>>, f: Trip -> T)
    ensures ConcatSortIndex(Map(files, rows => Tag(rows, f))) == Map(TripOrder(files), f)
  {
    var all := Concat(files);
    ConcatTag(files, f);
    var g := (r: Indexed<Trip>) => Indexed(r.index, f(r.value));
    var tagged := Tag(all, t => t);
    assert Map(tagged, g) == Tag(all, f);
    SortMap(tagged, g, IndexLe, IndexLe);
    var sorted := Sort(tagged, IndexLe);
    assert Values(Map(sorted, g)) == Map(Values(sorted), f);
  }

  // ---------------------------------------------------------------------
  // The transformers

  /** The transformers that compute their columns from trip files. */
  datatype Kind = FareAmount | PassengerCount | BoundingBox | GeoCoordinates | TimestampWeek | PrimaryKey

  /** One trip's row of a transformer's output. */
  function FeatureRow(kind: Kind, t: Trip): seq<Datum> {
    match kind
    case FareAmount => [NumToDatum(t.fareAmount)]
    case PassengerCount => [Number(t.passengerCount as real)]
    case BoundingBox => [Number(IsCorrect(t))]
    case GeoCoordinates => CoordinateRow(NullInvalid(t))
    case TimestampWeek => [Number(TripTimeInWeek(t))]
    case PrimaryKey => [Number(t.index as real)]
  }

  function Width(kind: Kind): nat {
    if kind == GeoCoordinates then 4 else 1
  }

  /** The array a transformer returns for a list of trip files. */
  function FeatureArray(kind: Kind, files: seq<seq<Trip>>): (arr: seq<seq<Datum>>)
    ensures arr == Map(TripOrder(files), t => FeatureRow(kind, t))
    ensures |arr| == TotalLength(files)
    ensures forall k :: 0 <= k < |arr| ==> |arr[k]| == Width(kind)
  {
    FeatureAligned(files, t => FeatureRow(kind, t));
    ConcatSortIndexRows(Map(files, rows => Tag(rows, t => FeatureRow(kind, t))));
    ConcatLength(files);
    SortPermutation(Tag(Concat(files), t => t), IndexLe);
    ConcatSortIndex(Map(files, rows => Tag(rows, t => FeatureRow(kind, t))))
  }

  /** What `pandas.concat` raises when it is handed no frame at all. */
  const NoObjects: Error := ValueError("No objects to concatenate")

  /**
   * What `transform` returns for a list of trip files: the concatenation
   * raises on an empty list; otherwise every trip's feature row, in
   * index-label order.
   */
  function Transformed(kind: Kind, files: seq<seq<Trip>>): (r: Result<seq<seq<Datum>>>)
    ensures r.Err? <==> files == []
    ensures r.Err? ==> r.error == NoObjects
    ensures r.Ok? ==> r.value == Map(TripOrder(files), t => FeatureRow(kind, t)) && |r.value| == TotalLength(files)
  {
    if files == [] then Err(NoObjects) else Ok(FeatureArray(kind, files))
  }

  /** The transformers share `fit` and `fit_transform`; `transform` dispatches on the kind. */
  class Transformer {
    const kind: Kind

    constructor (kind: Kind)
      ensures this.kind == kind
    {
      this.kind := kind;
    }

    /** `fit` learns nothing and returns the transformer itself. */
    method Fit() returns (t: Transformer)
      ensures t == this
    {
      t := this;
    }

    /** The per-file step: a fresh frame per file, its column written by `transform_single` where there is one. */
    method TransformSingle(rows: seq<Trip>) returns (out: seq<Indexed<seq<Datum>>>)
      ensures out == Tag(rows, t => FeatureRow(kind, t))
    {
      var df := new TripFrame(rows);
      match kind {
        case BoundingBox =>
          out := BoundingBoxSingle(df);
        case GeoCoordinates =>
          out := CoordinatesSingle(df);
        case TimestampWeek =>
          out := TimeInWeekSingle(df);
        case FareAmount =>
          out := Tag(df.rows, (t: Trip) => [NumToDatum(t.fareAmount)]);
        case PassengerCount =>
          out := Tag(df.rows, (t: Trip) => [Number(t.passengerCount as real)]);
        case PrimaryKey =>
          out := Tag(df.rows, (t: Trip) => [Number(t.index as real)]);
      }
    }

    /**
     * `transform`: each file's rows, concatenated, ordered by index label;
     * the concatenation of no file raises.
     */
    method Transform(files: seq<seq<Trip>>) returns (arr: Result<seq<seq<Datum>>>)
      ensures arr == Transformed(kind, files)
    {
      var parts: seq<seq<Indexed<seq<Datum>>>> := [];
      for i := 0 to |files|
        invariant |parts| == i
        invariant forall k :: 0 <= k < i ==> parts[k] == Tag(files[k], t => FeatureRow(kind, t))
      {
        var part := TransformSingle(files[i]);
        parts := parts + [part];
      }
      if parts == [] {
        return Err(NoObjects);
      }
      assert parts == Map(files, rows => Tag(rows, t => FeatureRow(kind, t)));
      arr := Ok(ConcatSortIndex(parts));
    }

    /** `fit_transform` is `transform`. */
    method FitTransform(files: seq<seq<Trip>>) returns (arr: Result<seq<seq<Datum>>>)
      ensures arr == Transformed(kind, files)
    {
      var fitted := Fit();
      arr := fitted.Transform(files);
    }
  }

  /**
   * `Location.transform` over location files: each file's two region
   * columns under its merge's fresh 0..n-1 index labels, concatenated and
   * ordered by label; the first file failing the column assertion raises,
   * and so does the concatenation of no file.
   */
  function LocationArray(files: seq<Coordinates.Combined>): (r: Result<seq<seq<Datum>>>)
    ensures files == [] ==> r == Err(NoObjects)
    ensures files != [] ==> (r.Ok? <==> LocationFrames(files).Ok?)
    ensures r.Ok? ==> |r.value| == TotalLength(LocationFrames(files).value)
  {
    match LocationFrames(files)
    case Err(e) => Err(e)
    case Ok(frames) =>
      ConcatSortIndexRows(frames);
      if frames == [] then Err(NoObjects) else Ok(ConcatSortIndex(frames))
  }

  /**
   * `df[name]` on a row of a location file: the field under the column
   * `name`, looked up in `columns`. A location file has three fields (key,
   * pickup region, dropoff region), so a name past the third has no value.
   */
  function Field(file: Coordinates.Combined, i: nat, name: string): Datum
    requires i < |file.rows|
  {
    var row := file.rows[i];
    if |file.columns| > 0 && file.columns[0] == name then Text(row.0)
    else if |file.columns| > 1 && file.columns[1] == name then row.1
    else if |file.columns| > 2 && file.columns[2] == name then row.2
    else Null
  }

  /**
   * One location file's frame after `transform_single`: each row's values
   * under the pickup and the dropoff column the assertions found, under
   * the merge's fresh label, which is its position.
   */
  function LocationFrame(file: Coordinates.Combined): (frame: seq<Indexed<seq<Datum>>>)
    requires LocationColumns(file.columns).Ok?
    ensures |frame| == |file.rows|
    ensures var (pickup, dropoff) := LocationColumns(file.columns).value;
      forall i :: 0 <= i < |frame| ==> frame[i] == Indexed(i, [Field(file, i, pickup), Field(file, i, dropoff)])
  {
    var (pickup, dropoff) := LocationColumns(file.columns).value;
    seq(|file.rows|, i requires 0 <= i < |file.rows| => Indexed(i, [Field(file, i, pickup), Field(file, i, dropoff)]))
  }

  /**
   * On a file as the location step writes it, the pickup and dropoff
   * columns are the second and third fields of each row.
   */
  lemma LocationFrameWritten(file: Coordinates.Combined, regionId: string)
    requires file.columns == ["key", Coordinates.LocationColumn(Pickup, regionId), Coordinates.LocationColumn(Dropoff, regionId)]
    ensures LocationColumns(file.columns).Ok?
    ensures forall i :: 0 <= i < |file.rows| ==> LocationFrame(file)[i] == Indexed(i, [file.rows[i].1, file.rows[i].2])
  {
    LocationFileColumns(regionId);
    var p := Coordinates.LocationColumn(Pickup, regionId);
    var d := Coordinates.LocationColumn(Dropoff, regionId);
    assert p[0] == 'p' && d[0] == 'd';
    assert p != "key" && d != "key" && d != p;
  }

  /** The per-file frames of `Location.transform`, one per file, or the first file's failed assertion. */
  function LocationFrames(files: seq<Coordinates.Combined>): (r: Result<seq<seq<Indexed<seq<Datum>>>>>)
    ensures r.Ok? <==> forall k :: 0 <= k < |files| ==> LocationColumns(files[k].columns).Ok?
    ensures r.Ok? ==> |r.value| == |files|
    ensures r.Ok? ==> forall k :: 0 <= k < |files| ==> r.value[k] == LocationFrame(files[k])
    decreases |files|
  {
    if files == [] then Ok([])
    else match LocationColumns(files[0].columns)
      case Err(e) => Err(e)
      case Ok(_) =>
        match LocationFrames(files[1..])
        case Err(e) => Err(e)
        case Ok(rest) =>
          assert forall k :: 1 <= k < |files| ==> files[k] == files[1..][k - 1];
          Ok([LocationFrame(files[0])] + rest)
  }

  /** Location files as the location step writes them pass, and each contributes all its rows. */
  lemma {:induction false} LocationArrayRows(files: seq<Coordinates.Combined>, regionId: string)
    requires forall k :: 0 <= k < |files| ==>
      files[k].columns == ["key", Coordinates.LocationColumn(Pickup, regionId), Coordinates.LocationColumn(Dropoff, regionId)]
    ensures LocationFrames(files).Ok?
    ensures |LocationFrames(files).value| == |files|
    ensures forall k :: 0 <= k < |files| ==> |LocationFrames(files).value[k]| == |files[k].rows|
    decreases |files|
  {
    if files != [] {
      LocationFileColumns(regionId);
      LocationArrayRows(files[1..], regionId);
    }
  }

  /** `x` is the frame row of row `i` of file `k`: its pickup and dropoff values under its position. */
  predicate RowOf(files: seq<Coordinates.Combined>, k: int, i: int, x: Indexed<seq<Datum>>) {
    && 0 <= k < |files| && 0 <= i < |files[k].rows| && LocationColumns(files[k].columns).Ok?
    && x == Indexed(i, [Field(files[k], i, LocationColumns(files[k].columns).value.0),
                        Field(files[k], i, LocationColumns(files[k].columns).value.1)])
  }

  /** The frames hold exactly the frame rows of every row of every file. */
  lemma LocationFramesMembership(files: seq<Coordinates.Combined>, x: Indexed<seq<Datum>>)
    requires LocationFrames(files).Ok?
    ensures x in Concat(LocationFrames(files).value) <==> exists k, i :: RowOf(files, k, i, x)
  {
    var frames := LocationFrames(files).value;
    ConcatMembership(frames, x);
    if x in Concat(frames) {
      var k :| 0 <= k < |frames| && x in frames[k];
      var i :| 0 <= i < |frames[k]| && frames[k][i] == x;
      assert RowOf(files, k, i, x);
    }
    if exists k, i :: RowOf(files, k, i, x) {
      var k, i :| RowOf(files, k, i, x);
      assert frames[k][i] == x;
    }
  }

  /**
   * What a location array holds: the pickup and dropoff regions of every
   * row of every file, each once per occurrence, ordered by their labels
   * (each row's position in its own file).
   */
  lemma LocationArrayContents(files: seq<Coordinates.Combined>)
    requires LocationArray(files).Ok?
    ensures var labelled := Sort(Concat(LocationFrames(files).value), IndexLe);
      && multiset(labelled) == multiset(Concat(LocationFrames(files).value))
      && SortedBy(labelled, IndexLe)
      && |LocationArray(files).value| == |labelled|
      && (forall n :: 0 <= n < |labelled| ==> LocationArray(files).value[n] == labelled[n].value)
      && forall x :: x in labelled <==> exists k, i :: RowOf(files, k, i, x)
  {
    var frames := LocationFrames(files).value;
    var labelled := Sort(Concat(frames), IndexLe);
    ConcatSortIndexRows(frames);
    forall x
      ensures x in labelled <==> exists k, i :: RowOf(files, k, i, x)
    {
      assert x in labelled <==> x in multiset(Concat(frames));
      LocationFramesMembership(files, x);
    }
  }
}
