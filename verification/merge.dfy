/**
 * `pandas.merge(left, right, on=key)` with the default inner join: one
 * output row for every pair of a left row and a right row whose keys are
 * equal, duplicates kept. Keys are compared with `==`; a key type with a
 * null value (Option) therefore matches null to null, as pandas does.
 */
module Merge {

  /** The rows `l` contributes: `l` joined with each right row of equal key. */
  function MatchesOf<K(==), A, B>(l: (K, A), right: seq<(K, B)>): (r: seq<(K, A, B)>)
    ensures |r| <= |right|
    decreases |right|
  {
    if right == [] then []
    else (if right[0].0 == l.0 then [(l.0, l.1, right[0].1)] else []) + MatchesOf(l, right[1..])
  }

  function InnerMerge<K(==), A, B>(left: seq<(K, A)>, right: seq<(K, B)>): seq<(K, A, B)>
    decreases |left|
  {
    if left == [] then [] else MatchesOf(left[0], right) + InnerMerge(left[1..], right)
  }

  lemma {:induction false} MatchesOfMembership<K, A, B>(l: (K, A), right: seq<(K, B)>, x: (K, A, B))
    ensures x in MatchesOf(l, right) <==>
      exists j :: 0 <= j < |right| && right[j].0 == l.0 && x == (l.0, l.1, right[j].1)
    decreases |right|
  {
    if right != [] {
      MatchesOfMembership(l, right[1..], x);
      if x in MatchesOf(l, right[1..]) {
        var j :| 0 <= j < |right[1..]| && right[1..][j].0 == l.0 && x == (l.0, l.1, right[1..][j].1);
        assert right[j + 1] == right[1..][j];
      }
      if exists j :: 0 <= j < |right| && right[j].0 == l.0 && x == (l.0, l.1, right[j].1) {
        var j :| 0 <= j < |right| && right[j].0 == l.0 && x == (l.0, l.1, right[j].1);
        if j > 0 {
          assert right[1..][j - 1] == right[j];
        }
      }
    }
  }

  /**
   * A row is in the merge exactly when some left row and some right row
   * share its key and carry its two values: every output row has a witness
   * pair, and every matching pair produces a row.
   */
  lemma {:induction false} InnerMergeMembership<K, A, B>(left: seq<(K, A)>, right: seq<(K, B)>, x: (K, A, B))
    ensures x in InnerMerge(left, right) <==>
      exists i, j :: 0 <= i < |left| && 0 <= j < |right| && left[i].0 == right[j].0
        && x == (left[i].0, left[i].1, right[j].1)
    decreases |left|
  {
    if left != [] {
      InnerMergeMembership(left[1..], right, x);
      MatchesOfMembership(left[0], right, x);
      if x in InnerMerge(left[1..], right) {
        var i, j :| 0 <= i < |left[1..]| && 0 <= j < |right| && left[1..][i].0 == right[j].0
          && x == (left[1..][i].0, left[1..][i].1, right[j].1);
        assert left[i + 1] == left[1..][i];
      }
      if exists i, j :: 0 <= i < |left| && 0 <= j < |right| && left[i].0 == right[j].0
          && x == (left[i].0, left[i].1, right[j].1) {
        var i, j :| 0 <= i < |left| && 0 <= j < |right| && left[i].0 == right[j].0
          && x == (left[i].0, left[i].1, right[j].1);
        if i > 0 {
          assert left[1..][i - 1] == left[i];
        }
      }
    }
  }

  /** A merged row (k, a, b) exists exactly when (k, a) is a left row and (k, b) a right row. */
  lemma InnerMergePairs<K, A, B>(left: seq<(K, A)>, right: seq<(K, B)>, k: K, a: A, b: B)
    ensures (k, a, b) in InnerMerge(left, right) <==> (k, a) in left && (k, b) in right
  {
    InnerMergeMembership(left, right, (k, a, b));
    if (k, a) in left && (k, b) in right {
      var i :| 0 <= i < |left| && left[i] == (k, a);
      var j :| 0 <= j < |right| && right[j] == (k, b);
      assert left[i].0 == right[j].0 && (k, a, b) == (left[i].0, left[i].1, right[j].1);
    }
  }

  lemma {:induction false} MatchesOfMultiplicity<K, A, B>(l: (K, A), right: seq<(K, B)>, k: K, a: A, b: B)
    ensures multiset(MatchesOf(l, right))[(k, a, b)] == if l == (k, a) then multiset(right)[(k, b)] else 0
    decreases |right|
  {
    if right != [] {
      MatchesOfMultiplicity(l, right[1..], k, a, b);
      assert right == [right[0]] + right[1..];
    }
  }

  /**
   * No deduplication: a row (k, a, b) appears as many times as (k, a)
   * appears on the left times the number of times (k, b) appears on the right.
   */
  lemma {:induction false} InnerMergeMultiplicity<K, A, B>(left: seq<(K, A)>, right: seq<(K, B)>, k: K, a: A, b: B)
    ensures multiset(InnerMerge(left, right))[(k, a, b)] == multiset(left)[(k, a)] * multiset(right)[(k, b)]
    decreases |left|
  {
    if left != [] {
      var here := MatchesOf(left[0], right);
      var tail := InnerMerge(left[1..], right);
      var m := multiset(right)[(k, b)];
      var rest := multiset(left[1..])[(k, a)];
      InnerMergeMultiplicity(left[1..], right, k, a, b);
      MatchesOfMultiplicity(left[0], right, k, a, b);
      HeadCount(left, (k, a));
      UnionCount(here, tail, (k, a, b));
      if left[0] == (k, a) {
        SuccTimes(rest, m);
      }
    }
  }

  /** The count of `x` in a non-empty sequence: the head's share plus the rest's. */
  lemma HeadCount<T>(s: seq<T>, x: T)
    requires s != []
    ensures multiset(s)[x] == (if s[0] == x then 1 else 0) + multiset(s[1..])[x]
  {
    assert s == [s[0]] + s[1..];
  }

  /** The count of `x` in a concatenation is the sum of its counts. */
  lemma UnionCount<T>(s: seq<T>, t: seq<T>, x: T)
    ensures multiset(s + t)[x] == multiset(s)[x] + multiset(t)[x]
  {
  }

  lemma SuccTimes(x: nat, m: nat)
    ensures (x + 1) * m == m + x * m
  {
  }
}
