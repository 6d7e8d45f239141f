/**
 * Shared vocabulary: optional values, the exceptions the pipeline can raise,
 * dataframe cell values and a few sequence helpers.
 */
module Common {

  datatype Option<+T> = None | Some(value: T)

  /** The Python exceptions that end a unit of work in the pipeline. */
  datatype Error =
    | KeyError(name: string)          // a missing column or dictionary key
    | ValueError(reason: string)      // a failed conversion or a length mismatch
    | IndexError(reason: string)      // a boolean mask of the wrong length
    | AssertionError(reason: string)  // a failed `assert`
    | UnboundLocalError(name: string) // a local variable read before assignment
    | EmptyDataError                  // a CSV file with no line to take columns from
    | FileNotFoundError(path: string) // a file opened for reading that does not exist

  datatype Result<+T> = Ok(value: T) | Err(error: Error)

  /** A float cell of a dataframe; None stands for NaN / null. */
  type Num = Option<real>

  /** `x > bound` as pandas evaluates it: a NaN compares false. */
  predicate Above(x: Num, bound: real) { x.Some? && x.value > bound }

  /** `x < bound` as pandas evaluates it: a NaN compares false. */
  predicate Below(x: Num, bound: real) { x.Some? && x.value < bound }

  /** A cell of a numpy array built from a dataframe's `.values`. */
  datatype Datum = Null | Number(x: real) | Text(s: string)

  function NumToDatum(x: Num): Datum {
    if x.Some? then Number(x.value) else Null
  }

  /** A value together with the dataframe index label of its row. */
  datatype Indexed<+T> = Indexed(index: nat, value: T)

  /** `pandas.concat` of several frames: their rows one after the other. */
  function Concat<T>(parts: seq<seq<T>>): seq<T>
    decreases |parts|
  {
    if parts == [] then [] else parts[0] + Concat(parts[1..])
  }

  /** The sum of the row counts of several frames. */
  function TotalLength<T>(parts: seq<seq<T>>): nat
    decreases |parts|
  {
    if parts == [] then 0 else |parts[0]| + TotalLength(parts[1..])
  }

  lemma {:induction false} ConcatLength<T>(parts: seq<seq<T>>)
    ensures |Concat(parts)| == TotalLength(parts)
    decreases |parts|
  {
    if parts != [] {
      ConcatLength(parts[1..]);
    }
  }

  /** Adding one frame at the end of a concatenation appends its rows. */
  lemma {:induction false} ConcatAppend<T>(parts: seq<seq<T>>, last: seq<T>)
    ensures Concat(parts + [last]) == Concat(parts) + last
    decreases |parts|
  {
    if parts == [] {
      assert [last][1..] == [];
    } else {
      assert (parts + [last])[1..] == parts[1..] + [last];
      ConcatAppend(parts[1..], last);
    }
  }

  /** Every element of the concatenation comes from one of the parts, and conversely. */
  lemma {:induction false} ConcatMembership<T>(parts: seq<seq<T>>, x: T)
    ensures x in Concat(parts) <==> exists p :: 0 <= p < |parts| && x in parts[p]
    decreases |parts|
  {
    if parts != [] {
      ConcatMembership(parts[1..], x);
      if x in Concat(parts[1..]) {
        var p :| 0 <= p < |parts[1..]| && x in parts[1..][p];
        assert x in parts[p + 1];
      }
      if exists p :: 0 <= p < |parts| && x in parts[p] {
        var p :| 0 <= p < |parts| && x in parts[p];
        if p > 0 {
          assert x in parts[1..][p - 1];
        }
      }
    }
  }

  /** Number of positions of `s` holding `x`. */
  function Count<T(==)>(s: seq<T>, x: T): nat
    decreases |s|
  {
    if s == [] then 0 else (if s[0] == x then 1 else 0) + Count(s[1..], x)
  }

  /**
   * `f` applied to every element in order, the results collected while
   * they succeed; the first failure is the result.
   */
  function AllOk<A, B>(xs: seq<A>, f: A --> Result<B>): (r: Result<seq<B>>)
    requires forall i :: 0 <= i < |xs| ==> f.requires(xs[i])
    ensures r.Ok? <==> forall i :: 0 <= i < |xs| ==> f(xs[i]).Ok?
    ensures r.Ok? ==> |r.value| == |xs| && forall i :: 0 <= i < |xs| ==> f(xs[i]) == Ok(r.value[i])
    ensures r.Err? ==> exists i :: 0 <= i < |xs| && f(xs[i]) == Err(r.error)
    decreases |xs|
  {
    if xs == [] then Ok([])
    else
      var init := xs[..|xs| - 1];
      assert forall i :: 0 <= i < |init| ==> init[i] == xs[i];
      match AllOk(init, f)
      case Err(e) => Err(e)
      case Ok(ys) =>
        match f(xs[|xs| - 1])
        case Err(e) => Err(e)
        case Ok(y) => Ok(ys + [y])
  }
}
