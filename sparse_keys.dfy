/**
 * The key order of the registry's LongSparseArray: its keys are kept in a strictly
 * increasing array, which put inserts into and remove deletes from, and valueAt(i)
 * walks in that order.
 */
module SparseKeys {

  predicate Sorted(s: seq<int>)
  {
    forall i, j :: 0 <= i < j < |s| ==> s[i] < s[j]
  }

  /** The key order after put(x): x added once, in its place. */
  function Insert(s: seq<int>, x: int): (r: seq<int>)
    requires Sorted(s)
    ensures Sorted(r)
    ensures forall y :: y in r <==> y in s || y == x
    ensures |r| > 0 && (r[0] == x || (s != [] && r[0] == s[0]))
  {
    if s == [] then [x]
    else if x < s[0] then [x] + s
    else if x == s[0] then s
    else [s[0]] + Insert(s[1..], x)
  }

  /** The key order after remove(x): x gone, every other key kept in order. */
  function Remove(s: seq<int>, x: int): (r: seq<int>)
    requires Sorted(s)
    ensures Sorted(r)
    ensures forall y :: y in r <==> y in s && y != x
  {
    if s == [] then []
    else if s[0] == x then s[1..]
    else
      var rest := Remove(s[1..], x);
      assert forall k :: 0 <= k < |rest| ==> rest[k] in s[1..] && s[0] < rest[k];
      [s[0]] + rest
  }
}
