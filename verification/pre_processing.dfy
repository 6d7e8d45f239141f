/**
 * The pre-processing script: flags outlier trips, draws the train/test
 * status of every trip, saves each feature array of the training files as
 * a pickle under "full", cuts every saved array to its first rows under
 * "small", and splits every saved array into "train" and "test" by the
 * saved status.
 *
 * Pickle files are entries of a store, one map per folder from base name to array; the
 * random draws and the haversine distance are inputs.
 */
module PreProcessing {
  import opened Common
  import opened Records
  import opened Sorting
  import opened FeatureUtils
  import Coordinates

  /** A two-dimensional array, row by row. */
  type Matrix = seq<seq<Datum>>

  // ---------------------------------------------------------------------
  // Outliers and the train/test status

  /** `value > bound`; a null (NaN) compares false. */
  predicate Gt(d: Datum, bound: real) {
    d.Number? && d.x > bound
  }

  /** `value < bound`; a null (NaN) compares false. */
  predicate Lt(d: Datum, bound: real) {
    d.Number? && d.x < bound
  }

  /** The row test of `detect_outliers`: in the box, 0 < distance < 100 and 0 < fare < 100, all strict. */
  predicate IsGood(isCorrect: Datum, distance: Datum, fare: Datum) {
    && isCorrect == Number(1.0)
    && Gt(distance, 0.0) && Lt(distance, 100.0)
    && Gt(fare, 0.0) && Lt(fare, 100.0)
  }

  /** The distance feature: `haversine` of each coordinate row, one column. */
  function Distances(coordinates: Matrix, haversine: seq<Datum> -> Datum): (d: Matrix)
    ensures |d| == |coordinates|
    ensures forall k :: 0 <= k < |d| ==> d[k] == [haversine(coordinates[k])]
  {
    Map(coordinates, (row: seq<Datum>) => [haversine(row)])
  }

  /** The outlier test applied to one trip, through the three features it reads. */
  predicate IsGoodTrip(t: Trip, haversine: seq<Datum> -> Datum) {
    IsGood(Number(IsCorrect(t)), haversine(CoordinateRow(NullInvalid(t))), NumToDatum(t.fareAmount))
  }

  /**
   * `detect_outliers`: one flag per trip of the training files, in the
   * order the feature arrays list trips; without any file its first
   * transform raises.
   */
  function DetectOutliers(files: seq<seq<Trip>>, haversine: seq<Datum> -> Datum): (r: Result<seq<bool>>)
    ensures r.Err? <==> files == []
    ensures r.Err? ==> r.error == NoObjects
    ensures r.Ok? ==> |r.value| == TotalLength(files) == |TripOrder(files)|
    ensures r.Ok? ==> forall k :: 0 <= k < |r.value| ==> (r.value[k] <==> IsGoodTrip(TripOrder(files)[k], haversine))
  {
    if files == [] then Err(NoObjects)
    else
      OutliersAligned(files, haversine);
      Ok(OutlierFlags(FeatureArray(BoundingBox, files), Distances(FeatureArray(GeoCoordinates, files), haversine),
                      FeatureArray(FareAmount, files)))
  }

  /** The three columns `detect_outliers` reads hold, row by row, the features of the same trip. */
  lemma OutliersAligned(files: seq<seq<Trip>>, haversine: seq<Datum> -> Datum)
    ensures var trips := TripOrder(files);
      var box := FeatureArray(BoundingBox, files);
      var distance := Distances(FeatureArray(GeoCoordinates, files), haversine);
      var fare := FeatureArray(FareAmount, files);
      && |box| == |distance| == |fare| == |trips|
      && forall k :: 0 <= k < |trips| ==>
        && box[k] == [Number(IsCorrect(trips[k]))]
        && distance[k] == [haversine(CoordinateRow(NullInvalid(trips[k])))]
        && fare[k] == [NumToDatum(trips[k].fareAmount)]
  {
    var trips := TripOrder(files);
    var coordinates := FeatureArray(GeoCoordinates, files);
    forall k | 0 <= k < |trips|
      ensures coordinates[k] == CoordinateRow(NullInvalid(trips[k]))
    {
      assert coordinates[k] == FeatureRow(GeoCoordinates, trips[k]);
    }
  }

  /** The outlier test row by row over the three feature columns. */
  function OutlierFlags(box: Matrix, distance: Matrix, fare: Matrix): (isGood: seq<bool>)
    requires |distance| == |box| && |fare| == |box|
    requires forall k :: 0 <= k < |box| ==> |box[k]| > 0 && |distance[k]| > 0 && |fare[k]| > 0
    ensures |isGood| == |box|
    ensures forall k :: 0 <= k < |box| ==> (isGood[k] <==> IsGood(box[k][0], distance[k][0], fare[k][0]))
  {
    seq(|box|, k requires 0 <= k < |box| => IsGood(box[k][0], distance[k][0], fare[k][0]))
  }

  /**
   * A trip is good exactly when its four coordinates are in the New York
   * box, its distance is strictly between 0 and 100 and its fare strictly
   * between 0 and 100: the nulling of the coordinate feature never
   * touches a trip in the box.
   */
  lemma GoodTrip(t: Trip, haversine: seq<Datum> -> Datum)
    ensures IsGoodTrip(t, haversine) <==>
      && InNycBox(t)
      && Gt(haversine(CoordinateRow(t)), 0.0) && Lt(haversine(CoordinateRow(t)), 100.0)
      && Above(t.fareAmount, 0.0) && Below(t.fareAmount, 100.0)
  {
    NycBoxInsideWorld(t);
  }

  /**
   * The status `train_test_split_index` assigns: 2 for a trip that is not
   * good, otherwise 1 when its draw exceeds the training fraction and 0
   * when it does not.
   */
  function SplitStatus(isGood: seq<bool>, fractionTrain: real, draws: seq<real>): (status: seq<int>)
    requires |draws| == |isGood|
    ensures |status| == |isGood|
    ensures forall k :: 0 <= k < |status| ==>
      && (status[k] == 2 <==> !isGood[k])
      && (status[k] == 1 <==> isGood[k] && draws[k] > fractionTrain)
      && (status[k] == 0 <==> isGood[k] && draws[k] <= fractionTrain)
  {
    seq(|isGood|, k requires 0 <= k < |isGood| =>
      if !isGood[k] then 2 else if draws[k] > fractionTrain then 1 else 0)
  }

  /**
   * `train_test_split_index`: the draws compared with the fraction into an
   * integer array, then the entries of bad trips overwritten with 2.
   */
  method TrainTestSplitIndex(isGood: seq<bool>, fractionTrain: real, draws: seq<real>) returns (status: seq<int>)
    requires |draws| == |isGood|
    ensures status == SplitStatus(isGood, fractionTrain, draws)
  {
    var size := |isGood|;
    var a := new int[size];
    for k := 0 to size
      invariant forall j :: 0 <= j < k ==> a[j] == if draws[j] > fractionTrain then 1 else 0
    {
      a[k] := if draws[k] > fractionTrain then 1 else 0;
    }
    for k := 0 to size
      invariant forall j :: 0 <= j < k ==> a[j] == SplitStatus(isGood, fractionTrain, draws)[j]
      invariant forall j :: k <= j < size ==> a[j] == if draws[j] > fractionTrain then 1 else 0
    {
      if !isGood[k] {
        a[k] := 2;
      }
    }
    status := a[..];
  }

  // ---------------------------------------------------------------------
  // Slicing and masking

  function Min(a: int, b: int): int {
    if a <= b then a else b
  }

  /**
   * Python's `arr[:examples]` along the rows: the first `examples` rows,
   * or all but the last `-examples` when negative, never more than there are.
   */
  function Take<T>(s: seq<T>, examples: int): (r: seq<T>)
    ensures |r| <= |s| && r == s[..|r|]
    ensures examples >= 0 ==> |r| == Min(examples, |s|)
    ensures examples < 0 ==> |r| == if |s| + examples >= 0 then |s| + examples else 0
  {
    if examples >= 0 then (if examples <= |s| then s[..examples] else s)
    else if |s| + examples >= 0 then s[..|s| + examples] else []
  }

  /** The row numbers whose status is `value`, in increasing order. */
  function Positions(status: seq<Datum>, value: Datum): (ps: seq<nat>)
    ensures forall i :: 0 <= i < |ps| ==> ps[i] < |status| && status[ps[i]] == value
    ensures forall k :: 0 <= k < |status| && status[k] == value ==> k in ps
    ensures forall i, j :: 0 <= i < j < |ps| ==> ps[i] < ps[j]
    decreases |status|
  {
    if status == [] then []
    else
      var init := Positions(status[..|status| - 1], value);
      if status[|status| - 1] == value then init + [|status| - 1] else init
  }

  /**
   * `arr[status == value, :]`: the rows at the positions whose status is
   * `value`, in their order; a status of another length than the array
   * raises.
   */
  function Mask<T>(rows: seq<T>, status: seq<Datum>, value: Datum): (r: Result<seq<T>>)
    ensures r.Err? <==> |rows| != |status|
    ensures r.Err? ==> r.error.IndexError?
    ensures r.Ok? ==> |r.value| == |Positions(status, value)|
    ensures r.Ok? ==> forall i :: 0 <= i < |r.value| ==> r.value[i] == rows[Positions(status, value)[i]]
  {
    if |rows| != |status| then Err(IndexError("boolean index did not match indexed array"))
    else
      var ps := Positions(status, value);
      Ok(seq(|ps|, i requires 0 <= i < |ps| => rows[ps[i]]))
  }

  /**
   * The two masks of the split never share a row, and a row with status 2
   * (an outlier) is in neither.
   */
  lemma SplitDisjoint(status: seq<Datum>, k: nat)
    requires k < |status|
    ensures !(k in Positions(status, Number(0.0)) && k in Positions(status, Number(1.0)))
    ensures status[k] == Number(2.0) ==> k !in Positions(status, Number(0.0)) && k !in Positions(status, Number(1.0))
    ensures status[k] == Number(0.0) ==> k in Positions(status, Number(0.0))
    ensures status[k] == Number(1.0) ==> k in Positions(status, Number(1.0))
  {
    var train := Positions(status, Number(0.0));
    var test := Positions(status, Number(1.0));
    if k in train {
      var i :| 0 <= i < |train| && train[i] == k;
    }
    if k in test {
      var i :| 0 <= i < |test| && test[i] == k;
    }
  }

  // ---------------------------------------------------------------------
  // Saved arrays

  /** `arr.reshape(-1, 1)`: every element on a row of its own, in row-major order. */
  function Reshape1(m: Matrix): (r: Matrix)
    ensures |r| == TotalLength(m)
    ensures forall k :: 0 <= k < |r| ==> |r[k]| == 1
    ensures Concat(r) == Concat(m)
    decreases |m|
  {
    if m == [] then []
    else
      var head := Map(m[0], (x: Datum) => [x]);
      ColumnOfValues(m[0]);
      ConcatAppendFront(head, Reshape1(m[1..]));
      head + Reshape1(m[1..])
  }

  /** The column holding a sequence's values holds them in order. */
  lemma {:induction false} ColumnOfValues(xs: seq<Datum>)
    ensures Concat(Map(xs, (x: Datum) => [x])) == xs
    decreases |xs|
  {
    if xs != [] {
      ColumnOfValues(xs[1..]);
      assert Map(xs, (x: Datum) => [x])[1..] == Map(xs[1..], (x: Datum) => [x]);
    }
  }

  /** Concatenation distributes over `+`. */
  lemma {:induction false} ConcatAppendFront<T>(a: seq<seq<T>>, b: seq<seq<T>>)
    ensures Concat(a + b) == Concat(a) + Concat(b)
    ensures TotalLength(a + b) == TotalLength(a) + TotalLength(b)
    decreases |a|
  {
    if a == [] {
      assert a + b == b;
    } else {
      assert (a + b)[0] == a[0];
      assert (a + b)[1..] == a[1..] + b;
      ConcatAppendFront(a[1..], b);
    }
  }

  /** The status array as `train_test_split_index` leaves it, one integer per row. */
  function StatusColumn(status: seq<int>): (m: Matrix)
    ensures |m| == |status|
    ensures forall k :: 0 <= k < |m| ==> m[k] == [Number(status[k] as real)]
  {
    Map(status, (s: int) => [Number(s as real)])
  }

  /**
   * A file of the "train" or "test" folder: a pickled array, or a file that
   * `open(..., "wb")` emptied before the dump into it raised, which
   * `pickle.load` can no longer read.
   */
  datatype PickleFile = Pickled(arr: Matrix) | Truncated

  /**
   * The pickle files on disk: an array per base name in "full" and
   * "small", a file per base name in "train" and "test".
   */
  class PickleStore {
    var full: map<string, Matrix>
    var small: map<string, Matrix>
    var train: map<string, PickleFile>
    var test: map<string, PickleFile>

    constructor (full: map<string, Matrix>, small: map<string, Matrix>, train: map<string, PickleFile>, test: map<string, PickleFile>)
      ensures this.full == full && this.small == small && this.train == train && this.test == test
    {
      this.full := full;
      this.small := small;
      this.train := train;
      this.test := test;
    }
  }

  /** The base name of a saved array. */
  function PickleName(name: string): string {
    name + ".pickle"
  }

  /** A plan entry: the array's name and the array, or the error computing it raises. */
  type PlanItem = (string, Result<Matrix>)

  /**
   * Running a plan over the "full" folder: an entry whose file exists is
   * skipped without being computed; any other is computed and saved
   * reshaped to one column; the first error stops the run.
   */
  function Run(full: map<string, Matrix>, plan: seq<PlanItem>): (r: (map<string, Matrix>, Option<Error>))
    ensures full.Keys <= r.0.Keys
    decreases |plan|
  {
    if plan == [] then (full, None)
    else
      var key := PickleName(plan[0].0);
      if key in full then Run(full, plan[1..])
      else match plan[0].1
        case Err(e) => (full, Some(e))
        case Ok(arr) => Run(full[key := Reshape1(arr)], plan[1..])
  }

  /** A run never overwrites or deletes a file. */
  lemma {:induction false} RunKeepsExisting(full: map<string, Matrix>, plan: seq<PlanItem>)
    ensures forall k :: k in full ==> k in Run(full, plan).0 && Run(full, plan).0[k] == full[k]
    decreases |plan|
  {
    if plan != [] {
      var key := PickleName(plan[0].0);
      if key in full {
        RunKeepsExisting(full, plan[1..]);
      } else if plan[0].1.Ok? {
        RunKeepsExisting(full[key := Reshape1(plan[0].1.value)], plan[1..]);
      }
    }
  }

  /**
   * A run that ends without error leaves a file for every entry of the
   * plan, and every file it wrote is the reshaped array of its entry.
   */
  lemma {:induction false} RunComplete(full: map<string, Matrix>, plan: seq<PlanItem>)
    requires Run(full, plan).1.None?
    ensures forall i :: 0 <= i < |plan| ==> PickleName(plan[i].0) in Run(full, plan).0
    ensures forall k :: k in Run(full, plan).0 && k !in full ==>
      exists i :: (0 <= i < |plan| && k == PickleName(plan[i].0) && plan[i].1.Ok?
        && Run(full, plan).0[k] == Reshape1(plan[i].1.value))
    decreases |plan|
  {
    if plan != [] {
      var key := PickleName(plan[0].0);
      var next := if key in full then full else full[key := Reshape1(plan[0].1.value)];
      RunComplete(next, plan[1..]);
      RunKeepsExisting(next, plan[1..]);
      var out := Run(full, plan).0;
      forall i | 0 <= i < |plan|
        ensures PickleName(plan[i].0) in out
      {
        if i > 0 {
          assert plan[1..][i - 1] == plan[i];
        }
      }
      forall k | k in out && k !in full
        ensures exists i :: (0 <= i < |plan| && k == PickleName(plan[i].0) && plan[i].1.Ok?
          && out[k] == Reshape1(plan[i].1.value))
      {
        if k == key {
          assert 0 < |plan| && k == PickleName(plan[0].0) && plan[0].1.Ok? && out[k] == Reshape1(plan[0].1.value);
        } else {
          var j :| 0 <= j < |plan[1..]| && k == PickleName(plan[1..][j].0) && plan[1..][j].1.Ok?
            && out[k] == Reshape1(plan[1..][j].1.value);
          assert plan[1..][j] == plan[j + 1];
        }
      }
    }
  }

  /** A second run of a plan that succeeded finds every file and writes nothing. */
  lemma {:induction false} RunIdempotent(full: map<string, Matrix>, plan: seq<PlanItem>)
    requires Run(full, plan).1.None?
    ensures Run(Run(full, plan).0, plan) == (Run(full, plan).0, None)
  {
    RunComplete(full, plan);
    AllPresentSkipped(Run(full, plan).0, plan);
  }

  /** A run over files that are all present writes nothing. */
  lemma {:induction false} AllPresentSkipped(full: map<string, Matrix>, plan: seq<PlanItem>)
    requires forall i :: 0 <= i < |plan| ==> PickleName(plan[i].0) in full
    ensures Run(full, plan) == (full, None)
    decreases |plan|
  {
    if plan != [] {
      forall i | 0 <= i < |plan[1..]|
        ensures PickleName(plan[1..][i].0) in full
      {
        assert plan[1..][i] == plan[i + 1];
      }
      AllPresentSkipped(full, plan[1..]);
    }
  }

  /**
   * A run that reaches, past files that are all present, an entry whose
   * file is missing and whose array raises stops there with that error
   * and writes nothing.
   */
  lemma {:induction false} RunStopsAtFailure(full: map<string, Matrix>, plan: seq<PlanItem>, i: nat)
    requires i < |plan|
    requires forall j :: 0 <= j < i ==> PickleName(plan[j].0) in full
    requires PickleName(plan[i].0) !in full && plan[i].1.Err?
    ensures Run(full, plan) == (full, Some(plan[i].1.error))
    decreases i
  {
    if i > 0 {
      forall j | 0 <= j < i - 1
        ensures PickleName(plan[1..][j].0) in full
      {
        assert plan[1..][j] == plan[j + 1];
      }
      RunStopsAtFailure(full, plan[1..], i - 1);
    }
  }

  /** The training fraction of `generate_features`. */
  const FractionTrain: real := 0.75

  /**
   * The status entry of the plan: `train_test_split_index` of the outlier
   * flags with fraction 0.75, or the error `detect_outliers` raises.
   */
  function StatusItem(trainFiles: seq<seq<Trip>>, draws: seq<real>, haversine: seq<Datum> -> Datum): Result<Matrix>
    requires |draws| == TotalLength(trainFiles)
  {
    match DetectOutliers(trainFiles, haversine)
    case Err(e) => Err(e)
    case Ok(isGood) => Ok(StatusColumn(SplitStatus(isGood, FractionTrain, draws)))
  }

  /** The other arrays `generate_features` computes from the training files, in its plan's order. */
  function FeaturePlan(trainFiles: seq<seq<Trip>>, haversine: seq<Datum> -> Datum): seq<PlanItem> {
    [("fare", Transformed(FareAmount, trainFiles)),
     ("passenger_count", Transformed(PassengerCount, trainFiles)),
     ("coordinates", Transformed(GeoCoordinates, trainFiles)),
     ("distance", match Transformed(GeoCoordinates, trainFiles)
                  case Err(e) => Err(e)
                  case Ok(coordinates) => Ok(Distances(coordinates, haversine))),
     ("timestamp_week", Transformed(TimestampWeek, trainFiles)),
     ("primary_key", Transformed(PrimaryKey, trainFiles))]
  }

  /**
   * The location arrays, from the location files of the training files of
   * each region type (`locationFiles(name)`).
   */
  function LocationPlan(locationFiles: string -> seq<Coordinates.Combined>): seq<PlanItem> {
    [("borough", LocationArray(locationFiles("borough"))),
     ("state_assembly", LocationArray(locationFiles("state_assembly")))]
  }

  /** The whole plan of `generate_features`, for given draws. */
  function GeneratePlan(trainFiles: seq<seq<Trip>>, draws: seq<real>, haversine: seq<Datum> -> Datum,
                        locationFiles: string -> seq<Coordinates.Combined>): seq<PlanItem>
    requires |draws| == TotalLength(trainFiles)
  {
    [("train_test_split", StatusItem(trainFiles, draws, haversine))] + FeaturePlan(trainFiles, haversine)
      + LocationPlan(locationFiles)
  }

  /**
   * `generate_features`: the status drawn from the outlier flags with
   * fraction 0.75, then every array of the plan whose file is missing
   * computed and saved into "full" as one column. A location array whose
   * files fail the column check stops the run with that error.
   */
  method GenerateFeatures(store: PickleStore, trainFiles: seq<seq<Trip>>, draws: seq<real>,
                          haversine: seq<Datum> -> Datum, locationFiles: string -> seq<Coordinates.Combined>)
    returns (failure: Option<Error>)
    requires |draws| == TotalLength(trainFiles)
    modifies store
    ensures (store.full, failure) == Run(old(store.full), GeneratePlan(trainFiles, draws, haversine, locationFiles))
    ensures store.small == old(store.small) && store.train == old(store.train) && store.test == old(store.test)
  {
    var statusItem: Result<Matrix>;
    match DetectOutliers(trainFiles, haversine) {
      case Err(e) =>
        statusItem := Err(e);
      case Ok(isGood) =>
        var status := TrainTestSplitIndex(isGood, FractionTrain, draws);
        statusItem := Ok(StatusColumn(status));
    }
    var plan := [("train_test_split", statusItem)] + FeaturePlan(trainFiles, haversine) + LocationPlan(locationFiles);
    assert plan == GeneratePlan(trainFiles, draws, haversine, locationFiles);
    var before := store.full;
    failure := None;
    var i := 0;
    while i < |plan|
      invariant 0 <= i <= |plan|
      invariant failure.None?
      invariant Run(before, plan) == Run(store.full, plan[i..])
      invariant store.small == old(store.small) && store.train == old(store.train) && store.test == old(store.test)
    {
      var key := PickleName(plan[i].0);
      assert plan[i..][1..] == plan[i + 1..];
      if key !in store.full {
        match plan[i].1
        case Err(e) =>
          failure := Some(e);
          return;
        case Ok(arr) =>
          store.full := store.full[key := Reshape1(arr)];
      }
      i := i + 1;
    }
  }

  /**
   * Without training files, the first array `generate_features` has to
   * compute raises "No objects to concatenate", and nothing is saved.
   */
  lemma NoTrainFiles(full: map<string, Matrix>, haversine: seq<Datum> -> Datum,
                     locationFiles: string -> seq<Coordinates.Combined>, i: nat)
    requires i < 7
    requires forall j :: 0 <= j < i ==> PickleName(GeneratePlan([], [], haversine, locationFiles)[j].0) in full
    requires PickleName(GeneratePlan([], [], haversine, locationFiles)[i].0) !in full
    ensures Run(full, GeneratePlan([], [], haversine, locationFiles)) == (full, Some(NoObjects))
  {
    RunStopsAtFailure(full, GeneratePlan([], [], haversine, locationFiles), i);
  }

  /**
   * An empty glob of location files raises "No objects to concatenate"
   * when its array is the first one missing: nothing is saved for it, so
   * the next run tries again.
   */
  lemma EmptyLocationGlob(full: map<string, Matrix>, trainFiles: seq<seq<Trip>>, draws: seq<real>,
                          haversine: seq<Datum> -> Datum, locationFiles: string -> seq<Coordinates.Combined>)
    requires |draws| == TotalLength(trainFiles)
    requires forall j :: 0 <= j < 7 ==> PickleName(GeneratePlan(trainFiles, draws, haversine, locationFiles)[j].0) in full
    requires PickleName("borough") !in full && locationFiles("borough") == []
    ensures Run(full, GeneratePlan(trainFiles, draws, haversine, locationFiles)) == (full, Some(NoObjects))
  {
    var plan := GeneratePlan(trainFiles, draws, haversine, locationFiles);
    assert plan[7] == ("borough", LocationArray([]));
    RunStopsAtFailure(full, plan, 7);
  }

  /**
   * A saved array holds as many rows as the computed array had elements:
   * one per trip for the one-column features and the status, four per
   * trip for the coordinates.
   */
  lemma SavedRowCounts(kind: Kind, trainFiles: seq<seq<Trip>>, status: seq<int>)
    ensures |Reshape1(FeatureArray(kind, trainFiles))| == Width(kind) * TotalLength(trainFiles)
    ensures |Reshape1(StatusColumn(status))| == |status|
  {
    UniformWidth(FeatureArray(kind, trainFiles), Width(kind));
    UniformWidth(StatusColumn(status), 1);
  }

  /** An array whose rows all have `w` elements has `w` times as many elements as rows. */
  lemma {:induction false} UniformWidth(m: Matrix, w: nat)
    requires forall k :: 0 <= k < |m| ==> |m[k]| == w
    ensures TotalLength(m) == w * |m|
    decreases |m|
  {
    if m != [] {
      UniformWidth(m[1..], w);
      assert w * |m| == w + w * |m[1..]|;
    }
  }

  // ---------------------------------------------------------------------
  // simplify and train_test_split

  /**
   * `simplify`: for every array in "full", its first `examples` rows saved
   * under the same base name in "small"; the other folders do not change.
   */
  method Simplify(store: PickleStore, examples: int)
    modifies store
    ensures store.full == old(store.full) && store.train == old(store.train) && store.test == old(store.test)
    ensures forall name :: name in store.full ==> name in store.small && store.small[name] == Take(store.full[name], examples)
    ensures forall name :: name in old(store.small) && name !in store.full ==>
      name in store.small && store.small[name] == old(store.small)[name]
    ensures forall name :: name in store.small ==> name in store.full || name in old(store.small)
  {
    var full := store.full;
    var saved: map<string, Matrix> := map[];
    var todo := full.Keys;
    while todo != {}
      invariant todo !! saved.Keys && todo + saved.Keys == full.Keys
      invariant forall name :: name in saved ==> saved[name] == Take(full[name], examples)
      decreases todo
    {
      var name :| name in todo;
      saved := saved[name := Take(full[name], examples)];
      todo := todo - {name};
    }
    store.small := store.small + saved;
  }

  /** With the default `examples` of 0, every array in "small" is empty. */
  lemma SimplifyDefault(full: Matrix)
    ensures Take(full, 0) == []
  {
  }

  /** The base name of the saved status. */
  const StatusFile: string := "train_test_split.pickle"

  /** The status `train_test_split` reads: the saved status flattened, cut to `examples`. */
  function LoadedStatus(full: map<string, Matrix>, examples: int): seq<Datum>
    requires StatusFile in full
  {
    Take(Concat(full[StatusFile]), examples)
  }

  /** `train` and `test` are the status 0 and status 1 rows of `full` cut to `examples` rows. */
  predicate SplitOf(full: Matrix, status: seq<Datum>, examples: int, train: Matrix, test: Matrix) {
    && |Take(full, examples)| == |status|
    && Mask(Take(full, examples), status, Number(0.0)) == Ok(train)
    && Mask(Take(full, examples), status, Number(1.0)) == Ok(test)
  }

  /** The split of one array: both halves, or the IndexError of a length mismatch. */
  function SplitArray(full: Matrix, status: seq<Datum>, examples: int): (r: Result<(Matrix, Matrix)>)
    ensures r.Ok? <==> |Take(full, examples)| == |status|
    ensures r.Ok? ==> SplitOf(full, status, examples, r.value.0, r.value.1)
    ensures r.Err? ==> r.error.IndexError?
  {
    var arr := Take(full, examples);
    match Mask(arr, status, Number(0.0))
    case Err(e) => Err(e)
    case Ok(train) => Ok((train, Mask(arr, status, Number(1.0)).value))
  }

  /** The halves of the array `name` of "full" are pickled under its name in both folders. */
  predicate Written(full: map<string, Matrix>, status: seq<Datum>, examples: int,
                    train: map<string, PickleFile>, test: map<string, PickleFile>, name: string)
    requires name in full
  {
    && name in train && name in test && train[name].Pickled? && test[name].Pickled?
    && SplitOf(full[name], status, examples, train[name].arr, test[name].arr)
  }

  /** The file `name` of a folder is as it was: present with the same content, or still absent. */
  predicate Untouched(folder0: map<string, PickleFile>, folder: map<string, PickleFile>, name: string) {
    && (name in folder <==> name in folder0)
    && (name in folder0 ==> folder[name] == folder0[name])
  }

  /**
   * The folders after the split stopped at the array `bad`: its length
   * differs from the status, its train file is emptied and its test file
   * untouched; every other array of "full" is either split or untouched.
   */
  predicate SplitFailedAt(full: map<string, Matrix>, status: seq<Datum>, examples: int,
                          train0: map<string, PickleFile>, test0: map<string, PickleFile>,
                          train: map<string, PickleFile>, test: map<string, PickleFile>, bad: string)
  {
    && bad in full && |Take(full[bad], examples)| != |status|
    && bad in train && train[bad] == Truncated && Untouched(test0, test, bad)
    && forall name :: name in full && name != bad ==>
         || Written(full, status, examples, train, test, name)
         || (Untouched(train0, train, name) && Untouched(test0, test, name))
  }

  /**
   * The loop of `train_test_split` over the arrays of "full": each one's
   * halves are written into `train` and `test` under its base name, until
   * an array whose length differs from the status raises. The train file
   * of that array is opened for writing, and so emptied, before its mask
   * raises; its test file is not reached.
   */
  method SplitAll(full: map<string, Matrix>, status: seq<Datum>, examples: int,
                  train0: map<string, PickleFile>, test0: map<string, PickleFile>)
    returns (train: map<string, PickleFile>, test: map<string, PickleFile>, failure: Option<Error>)
    ensures failure.None? <==> forall name :: name in full ==> |Take(full[name], examples)| == |status|
    ensures failure.Some? ==> failure.value.IndexError?
    ensures failure.None? ==> forall name :: name in full ==> Written(full, status, examples, train, test, name)
    ensures failure.Some? ==> exists bad :: SplitFailedAt(full, status, examples, train0, test0, train, test, bad)
    ensures forall name :: name !in full ==> Untouched(train0, train, name) && Untouched(test0, test, name)
    ensures forall name :: name in train0 && name !in full ==> name in train && train[name] == train0[name]
    ensures forall name :: name in test0 && name !in full ==> name in test && test[name] == test0[name]
    ensures forall name :: name in train ==> name in full || name in train0
    ensures forall name :: name in test ==> name in full || name in test0
  {
    train, test := train0, test0;
    var todo := full.Keys;
    while todo != {}
      invariant todo <= full.Keys
      invariant forall name :: name in full && name !in todo ==> Written(full, status, examples, train, test, name)
      invariant forall name :: name !in full || name in todo ==> Untouched(train0, train, name) && Untouched(test0, test, name)
      decreases todo
    {
      var name :| name in todo;
      var split := SplitArray(full[name], status, examples);
      if split.Err? {
        train, failure := train[name := Truncated], Some(split.error);
        assert SplitFailedAt(full, status, examples, train0, test0, train, test, name);
        return;
      }
      train, test := train[name := Pickled(split.value.0)], test[name := Pickled(split.value.1)];
      todo := todo - {name};
    }
    failure := None;
  }


  /**
   * `train_test_split`: every array in "full", cut to `examples` rows, is
   * masked with the status cut alike; status 0 rows go to "train", status
   * 1 rows to "test". A missing status file raises before anything is
   * written; an array whose length differs from the status raises, leaving
   * its train file empty.
   */
  method TrainTestSplit(store: PickleStore, examples: int) returns (failure: Option<Error>)
    modifies store
    ensures store.full == old(store.full) && store.small == old(store.small)
    ensures forall name :: name in old(store.train) && name !in store.full ==>
      name in store.train && store.train[name] == old(store.train)[name]
    ensures forall name :: name in old(store.test) && name !in store.full ==>
      name in store.test && store.test[name] == old(store.test)[name]
    ensures forall name :: name in store.train ==> name in store.full || name in old(store.train)
    ensures forall name :: name in store.test ==> name in store.full || name in old(store.test)
    ensures StatusFile !in store.full ==>
      failure == Some(FileNotFoundError("full/train_test_split.pickle"))
      && store.train == old(store.train) && store.test == old(store.test)
    ensures StatusFile in store.full ==>
      && (failure.None? <==> forall name :: name in store.full ==>
            |Take(store.full[name], examples)| == |LoadedStatus(store.full, examples)|)
      && (failure.Some? ==> failure.value.IndexError?)
      && (failure.None? ==> forall name :: name in store.full ==>
            Written(store.full, LoadedStatus(store.full, examples), examples, store.train, store.test, name))
      && (failure.Some? ==> exists bad :: SplitFailedAt(store.full, LoadedStatus(store.full, examples), examples,
                                                         old(store.train), old(store.test), store.train, store.test, bad))
  {
    if StatusFile !in store.full {
      return Some(FileNotFoundError("full/train_test_split.pickle"));
    }
    var train, test;
    var status := LoadedStatus(store.full, examples);
    train, test, failure := SplitAll(store.full, status, examples, store.train, store.test);
    if failure.Some? {
      ghost var bad :| SplitFailedAt(store.full, status, examples, store.train, store.test, train, test, bad);
      store.train, store.test := train, test;
      assert SplitFailedAt(store.full, status, examples, old(store.train), old(store.test), store.train, store.test, bad);
    } else {
      store.train, store.test := train, test;
    }
  }

  /**
   * The split of a folder `generate_features` filled from at least one
   * trip fails once `examples` reaches past the trips: the status holds
   * one row per trip, the coordinates four.
   */
  lemma CoordinatesOutgrowStatus(full: map<string, Matrix>, n: nat, examples: int)
    requires StatusFile in full && "coordinates.pickle" in full
    requires forall k :: 0 <= k < |full[StatusFile]| ==> |full[StatusFile][k]| == 1
    requires |full[StatusFile]| == n && |full["coordinates.pickle"]| == 4 * n
    requires 0 < n < examples
    ensures |Take(full["coordinates.pickle"], examples)| != |LoadedStatus(full, examples)|
  {
    UniformWidth(full[StatusFile], 1);
    ConcatLength(full[StatusFile]);
  }

  /** A one-column array's k-th row holds the k-th of its values. */
  lemma {:induction false} UnitRows(m: Matrix)
    requires forall k :: 0 <= k < |m| ==> |m[k]| == 1
    ensures |Concat(m)| == |m|
    ensures forall k :: 0 <= k < |m| ==> m[k] == [Concat(m)[k]]
    decreases |m|
  {
    if m != [] {
      UnitRows(m[1..]);
      forall k | 0 <= k < |m| ensures m[k] == [Concat(m)[k]] {
        if k > 0 {
          assert m[k] == m[1..][k - 1];
        } else {
          assert m[0] == [m[0][0]];
        }
      }
    }
  }

  /**
   * The split masks the saved coordinates value by value, not trip by
   * trip: with two trips, the first drawn for training and the second for
   * testing, "train" receives only the first trip's first coordinate and
   * "test" its second one, while the second trip's coordinates go nowhere.
   */
  lemma CoordinatesSplitPerValue(a: Datum, b: Datum, c: Datum, d: Datum, e: Datum, f: Datum, g: Datum, h: Datum)
    ensures SplitArray(Reshape1([[a, b, c, d], [e, f, g, h]]), [Number(0.0), Number(1.0)], 2) == Ok(([[a]], [[b]]))
  {
    var saved := Reshape1([[a, b, c, d], [e, f, g, h]]);
    var status := [Number(0.0), Number(1.0)];
    assert Concat(saved) == [a, b, c, d, e, f, g, h] by {
      assert Concat([[e, f, g, h]]) == [e, f, g, h] + Concat([]);
    }
    UnitRows(saved);
    var cut := Take(saved, 2);
    assert cut == [[a], [b]];
    TwoStatusMasks(cut);
  }

  /** Two rows masked by the status of two trips, the first drawn for training and the second for testing. */
  lemma TwoStatusMasks(rows: Matrix)
    requires |rows| == 2
    ensures Mask(rows, [Number(0.0), Number(1.0)], Number(0.0)) == Ok([rows[0]])
    ensures Mask(rows, [Number(0.0), Number(1.0)], Number(1.0)) == Ok([rows[1]])
  {
    var status := [Number(0.0), Number(1.0)];
    assert status[..1] == [Number(0.0)];
    assert status[..1][..0] == [];
    assert Positions(status, Number(0.0)) == [0];
    assert Positions(status, Number(1.0)) == [1];
    var train := Mask(rows, status, Number(0.0));
    var test := Mask(rows, status, Number(1.0));
    assert train.Ok? && |train.value| == 1 && train.value[0] == rows[0];
    assert train.value == [rows[0]];
    assert test.Ok? && |test.value| == 1 && test.value[0] == rows[1];
    assert test.value == [rows[1]];
  }
}
