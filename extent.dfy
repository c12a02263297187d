/** The minimum, maximum and extent of a list of numbers, as d3.min, d3.max, d3.extent
    and lodash's minBy/maxBy compute them. An empty list has none (JavaScript's
    `undefined`). */
module Extent {
  import opened Wrappers
  import opened Utils

  function MinOf(s: seq<real>): (r: Option<real>)
    ensures r.None? <==> s == []
    ensures r.Some? ==> r.value in s
    ensures r.Some? ==> forall i :: 0 <= i < |s| ==> r.value <= s[i]
  {
    if s == [] then None
    else
      match MinOf(s[1..])
      case None => Some(s[0])
      case Some(m) => Some(if s[0] <= m then s[0] else m)
  }

  function MaxOf(s: seq<real>): (r: Option<real>)
    ensures r.None? <==> s == []
    ensures r.Some? ==> r.value in s
    ensures r.Some? ==> forall i :: 0 <= i < |s| ==> s[i] <= r.value
  {
    if s == [] then None
    else
      match MaxOf(s[1..])
      case None => Some(s[0])
      case Some(m) => Some(if s[0] >= m then s[0] else m)
  }

  /** d3.extent: [minimum, maximum], or nothing for an empty list. */
  function ExtentOf(s: seq<real>): (r: Option<Interval>)
    ensures r.None? <==> s == []
    ensures r.Some? ==> r.value.lo <= r.value.hi && r.value.lo in s && r.value.hi in s
    ensures r.Some? ==> forall i :: 0 <= i < |s| ==> r.value.lo <= s[i] <= r.value.hi
  {
    match (MinOf(s), MaxOf(s))
    case (Some(lo), Some(hi)) => Some(Interval(lo, hi))
    case _ => None
  }
}

/** Ascending sort of numbers, lodash's `_.sortBy(samples)`. */
module Sorting {

  predicate Sorted(s: seq<real>) {
    forall i, j :: 0 <= i < j < |s| ==> s[i] <= s[j]
  }

  function Insert(x: real, s: seq<real>): (r: seq<real>)
    requires Sorted(s)
    ensures Sorted(r)
    ensures multiset(r) == multiset(s) + multiset{x}
    ensures forall v :: v in r <==> v == x || v in s
  {
    if s == [] || x <= s[0] then [x] + s
    else
      assert s == [s[0]] + s[1..];
      var rest := Insert(x, s[1..]);
      assert forall k :: 0 <= k < |rest| ==> s[0] <= rest[k] by {
        forall k | 0 <= k < |rest| ensures s[0] <= rest[k] {
          assert rest[k] in rest;
        }
      }
      [s[0]] + rest
  }

  function SortAscending(s: seq<real>): (r: seq<real>)
    ensures Sorted(r)
    ensures multiset(r) == multiset(s)
  {
    if s == [] then []
    else
      assert s == [s[0]] + s[1..];
      Insert(s[0], SortAscending(s[1..]))
  }

  lemma SortedLength(s: seq<real>)
    ensures |SortAscending(s)| == |s|
  {
    assert |multiset(SortAscending(s))| == |multiset(s)|;
  }

  /** Sorting keeps exactly the same numbers. */
  lemma SortedMembers(s: seq<real>, v: real)
    ensures v in SortAscending(s) <==> v in s
  {
    assert v in SortAscending(s) <==> v in multiset(SortAscending(s));
  }

  /** A sorted list is its own sort: sorting twice changes nothing. */
  lemma {:induction false} SortIdempotent(s: seq<real>)
    requires Sorted(s)
    ensures SortAscending(s) == s
  {
    if s != [] {
      SortIdempotent(s[1..]);
      assert SortAscending(s[1..]) == s[1..];
    }
  }
}
