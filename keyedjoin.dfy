/** d3's keyed data join, `selection.data(data, key)`, on the keys alone.

    The existing nodes and the new data each carry a key. The first node with a
    given key is claimed by the first datum with that key (the update selection);
    every other datum enters, and every node not claimed exits. Entering nodes are
    inserted before the update node of the next datum that has one, or appended
    when no later datum does; update nodes stay where they are. */
module KeyedJoin {
  import opened Wrappers

  /** The index of the first occurrence of `key`. */
  function FirstIndex(ks: seq<string>, key: string): (r: Option<nat>)
    ensures r.None? <==> key !in ks
    ensures r.Some? ==> r.value < |ks| && ks[r.value] == key
    ensures r.Some? ==> forall j :: 0 <= j < r.value ==> ks[j] != key
    decreases |ks|
  {
    if ks == [] then None
    else if ks[0] == key then Some(0)
    else
      match FirstIndex(ks[1..], key)
      case None => None
      case Some(j) => Some(j + 1)
  }

  /** `FirstIndex` is the unique first occurrence. */
  lemma FirstIndexIff(ks: seq<string>, key: string, i: nat)
    ensures FirstIndex(ks, key) == Some(i) <==>
            i < |ks| && ks[i] == key && forall j :: 0 <= j < i ==> ks[j] != key
  {
    if i < |ks| && ks[i] == key && (forall j :: 0 <= j < i ==> ks[j] != key) {
      assert key in ks;
      var r := FirstIndex(ks, key).value;
      assert !(r < i) && !(i < r);
    }
  }

  /** The node claimed by datum i, if any: datum i must be the first with its key. */
  function Match(nk: seq<string>, dk: seq<string>, i: nat): (r: Option<nat>)
    requires i < |dk|
    ensures r.Some? ==> r.value < |nk| && nk[r.value] == dk[i]
  {
    if FirstIndex(dk, dk[i]) == Some(i) then FirstIndex(nk, dk[i]) else None
  }

  /** The datum claiming node k, if any: node k must be the first with its key. */
  function MatchOf(nk: seq<string>, dk: seq<string>, k: nat): (r: Option<nat>)
    requires k < |nk|
    ensures r.Some? ==> r.value < |dk| && dk[r.value] == nk[k]
  {
    if FirstIndex(nk, nk[k]) == Some(k) then FirstIndex(dk, nk[k]) else None
  }

  /** Datum i claims node k exactly when node k is claimed by datum i. */
  lemma MatchDual(nk: seq<string>, dk: seq<string>, i: nat, k: nat)
    requires i < |dk| && k < |nk|
    ensures Match(nk, dk, i) == Some(k) <==> MatchOf(nk, dk, k) == Some(i)
  {
    if Match(nk, dk, i) == Some(k) {
      assert nk[k] == dk[i];
    }
    if MatchOf(nk, dk, k) == Some(i) {
      assert nk[k] == dk[i];
    }
  }

  /** Two data never claim the same node. */
  lemma MatchInjective(nk: seq<string>, dk: seq<string>, i: nat, j: nat)
    requires i < |dk| && j < |dk| && Match(nk, dk, i).Some? && Match(nk, dk, i) == Match(nk, dk, j)
    ensures i == j
  {
    var k := Match(nk, dk, i).value;
    MatchDual(nk, dk, i, k);
    MatchDual(nk, dk, j, k);
  }

  /** The first datum at or after j that claims a node. */
  function NextClaimant(nk: seq<string>, dk: seq<string>, j: nat): (r: Option<nat>)
    ensures r.Some? ==> j <= r.value < |dk| && Match(nk, dk, r.value).Some?
    ensures r.Some? ==> forall l :: j <= l < r.value ==> Match(nk, dk, l).None?
    ensures r.None? ==> forall l :: j <= l < |dk| ==> Match(nk, dk, l).None?
    decreases |dk| - j
  {
    if j >= |dk| then None
    else if Match(nk, dk, j).Some? then Some(j)
    else NextClaimant(nk, dk, j + 1)
  }

  /** The update node an entering datum i is inserted before (d3's `_next`), or
      none when it is appended. */
  function Anchor(nk: seq<string>, dk: seq<string>, i: nat): (r: Option<nat>)
    ensures r.Some? ==> r.value < |nk|
  {
    match NextClaimant(nk, dk, i + 1)
    case Some(m) => Match(nk, dk, m)
    case None => None
  }

  /** An anchor is always a claimed node. */
  lemma AnchorClaimed(nk: seq<string>, dk: seq<string>, i: nat)
    requires Anchor(nk, dk, i).Some?
    ensures MatchOf(nk, dk, Anchor(nk, dk, i).value).Some?
  {
    var m := NextClaimant(nk, dk, i + 1).value;
    MatchDual(nk, dk, m, Anchor(nk, dk, i).value);
  }

  predicate Entering(nk: seq<string>, dk: seq<string>, i: nat)
    requires i < |dk|
  {
    Match(nk, dk, i).None?
  }

  predicate Increasing(s: seq<nat>) {
    forall p, q :: 0 <= p < q < |s| ==> s[p] < s[q]
  }

  /** The entering data from index j on whose anchor is `a`, in data order: they are
      inserted one after another at the same place. */
  function EnteringAt(nk: seq<string>, dk: seq<string>, a: Option<nat>, j: nat): (r: seq<nat>)
    ensures forall x :: x in r <==> j <= x < |dk| && Entering(nk, dk, x) && Anchor(nk, dk, x) == a
    decreases |dk| - j
  {
    if j >= |dk| then []
    else (if Entering(nk, dk, j) && Anchor(nk, dk, j) == a then [j] else []) + EnteringAt(nk, dk, a, j + 1)
  }

  /** The entering data at one place keep data order, so none is inserted twice. */
  lemma {:induction false} EnteringAtIncreasing(nk: seq<string>, dk: seq<string>, a: Option<nat>, j: nat)
    ensures Increasing(EnteringAt(nk, dk, a, j))
    decreases |dk| - j
  {
    if j < |dk| {
      var head := if Entering(nk, dk, j) && Anchor(nk, dk, j) == a then [j] else [];
      var tail := EnteringAt(nk, dk, a, j + 1);
      EnteringAtIncreasing(nk, dk, a, j + 1);
      assert forall q :: 0 <= q < |tail| ==> j < tail[q] by {
        forall q | 0 <= q < |tail| ensures j < tail[q] {
          assert tail[q] in tail;
        }
      }
      assert EnteringAt(nk, dk, a, j) == head + tail;
    }
  }

  /** The data indices of the nodes after the join, in document order, from node k
      on, exits left out: before each update node the data inserted before it,
      then that node; after the last, the appended data. */
  function Origins(nk: seq<string>, dk: seq<string>, k: nat): seq<nat>
    requires k <= |nk|
    decreases |nk| - k
  {
    if k == |nk| then EnteringAt(nk, dk, None, 0)
    else
      (match MatchOf(nk, dk, k)
       case Some(i) => EnteringAt(nk, dk, Some(k), 0) + [i]
       case None => [])
      + Origins(nk, dk, k + 1)
  }

  /** Where datum x ends up relative to node k: it claims node k or a later one, or
      it enters before node k or a later one, or it is appended. */
  predicate AtOrAfter(nk: seq<string>, dk: seq<string>, k: nat, x: nat) {
    x < |dk| && (
      || (Match(nk, dk, x).Some? && Match(nk, dk, x).value >= k)
      || (Entering(nk, dk, x) && (Anchor(nk, dk, x).None? || Anchor(nk, dk, x).value >= k)))
  }

  /** The data placed at node k: the entering data anchored there, then its claimant. */
  lemma SegmentMembers(nk: seq<string>, dk: seq<string>, k: nat, i: nat, x: nat)
    requires k < |nk| && MatchOf(nk, dk, k) == Some(i)
    ensures x in EnteringAt(nk, dk, Some(k), 0) + [i] <==>
            x < |dk| && (Match(nk, dk, x) == Some(k) || (Entering(nk, dk, x) && Anchor(nk, dk, x) == Some(k)))
  {
    if x < |dk| {
      MatchDual(nk, dk, x, k);
    }
  }

  /** What is in the joined document from node k on. */
  lemma {:induction false} OriginsMembers(nk: seq<string>, dk: seq<string>, k: nat, x: nat)
    requires k <= |nk|
    ensures x in Origins(nk, dk, k) <==> AtOrAfter(nk, dk, k, x)
    decreases |nk| - k, 1
  {
    if k == |nk| {
      AppendedMembers(nk, dk, x);
    } else {
      MembersStep(nk, dk, k, x);
    }
  }

  /** The membership step at node k, from what is in the document after it. */
  lemma {:induction false} MembersStep(nk: seq<string>, dk: seq<string>, k: nat, x: nat)
    requires k < |nk|
    ensures x in Origins(nk, dk, k) <==> AtOrAfter(nk, dk, k, x)
    decreases |nk| - k, 0
  {
    OriginsMembers(nk, dk, k + 1, x);
    if MatchOf(nk, dk, k).None? {
      UnclaimedMembers(nk, dk, k, x);
    } else {
      ClaimedMembers(nk, dk, k, x);
    }
  }

  /** After the last node: the appended data. */
  lemma AppendedMembers(nk: seq<string>, dk: seq<string>, x: nat)
    ensures x in Origins(nk, dk, |nk|) <==> AtOrAfter(nk, dk, |nk|, x)
  {
    assert Origins(nk, dk, |nk|) == EnteringAt(nk, dk, None, 0);
  }

  /** The membership step at an unclaimed node. */
  lemma UnclaimedMembers(nk: seq<string>, dk: seq<string>, k: nat, x: nat)
    requires k < |nk| && MatchOf(nk, dk, k).None?
    requires x in Origins(nk, dk, k + 1) <==> AtOrAfter(nk, dk, k + 1, x)
    ensures x in Origins(nk, dk, k) <==> AtOrAfter(nk, dk, k, x)
  {
    UnclaimedOrigins(nk, dk, k);
    UnclaimedAt(nk, dk, k, x);
  }

  /** The membership step at a claimed node. */
  lemma ClaimedMembers(nk: seq<string>, dk: seq<string>, k: nat, x: nat)
    requires k < |nk| && MatchOf(nk, dk, k).Some?
    requires x in Origins(nk, dk, k + 1) <==> AtOrAfter(nk, dk, k + 1, x)
    ensures x in Origins(nk, dk, k) <==> AtOrAfter(nk, dk, k, x)
  {
    var seg := EnteringAt(nk, dk, Some(k), 0) + [MatchOf(nk, dk, k).value];
    ClaimedStep(nk, dk, k, x);
    assert x in Origins(nk, dk, k) <==> x in seg || x in Origins(nk, dk, k + 1);
    AtOrAfterStep(nk, dk, k, x);
  }

  /** Placed at node k or later: placed at node k, or at node k + 1 or later. */
  lemma AtOrAfterStep(nk: seq<string>, dk: seq<string>, k: nat, x: nat)
    ensures AtOrAfter(nk, dk, k, x) <==>
            (x < |dk| && (Match(nk, dk, x) == Some(k) || (Entering(nk, dk, x) && Anchor(nk, dk, x) == Some(k))))
            || AtOrAfter(nk, dk, k + 1, x)
  {
  }

  /** An unclaimed node exits and places nothing. */
  lemma UnclaimedOrigins(nk: seq<string>, dk: seq<string>, k: nat)
    requires k < |nk| && MatchOf(nk, dk, k).None?
    ensures Origins(nk, dk, k) == Origins(nk, dk, k + 1)
  {
    assert Origins(nk, dk, k) == [] + Origins(nk, dk, k + 1);
  }

  /** No datum claims an unclaimed node, and none is anchored at it. */
  lemma UnclaimedAt(nk: seq<string>, dk: seq<string>, k: nat, x: nat)
    requires k < |nk| && MatchOf(nk, dk, k).None?
    ensures AtOrAfter(nk, dk, k, x) <==> AtOrAfter(nk, dk, k + 1, x)
  {
    if x < |dk| {
      if Match(nk, dk, x) == Some(k) {
        MatchDual(nk, dk, x, k);
      }
      if Entering(nk, dk, x) && Anchor(nk, dk, x) == Some(k) {
        AnchorClaimed(nk, dk, x);
      }
    }
  }

  lemma ClaimedStep(nk: seq<string>, dk: seq<string>, k: nat, x: nat)
    requires k < |nk| && MatchOf(nk, dk, k).Some?
    ensures Origins(nk, dk, k) == (EnteringAt(nk, dk, Some(k), 0) + [MatchOf(nk, dk, k).value]) + Origins(nk, dk, k + 1)
    ensures x in EnteringAt(nk, dk, Some(k), 0) + [MatchOf(nk, dk, k).value] <==>
            x < |dk| && (Match(nk, dk, x) == Some(k) || (Entering(nk, dk, x) && Anchor(nk, dk, x) == Some(k)))
  {
    SegmentMembers(nk, dk, k, MatchOf(nk, dk, k).value, x);
  }

  predicate NoDup(s: seq<nat>) {
    forall p, q :: 0 <= p < q < |s| ==> s[p] != s[q]
  }

  lemma NoDupConcat(a: seq<nat>, b: seq<nat>)
    requires NoDup(a) && NoDup(b)
    requires forall x :: x in a ==> x !in b
    ensures NoDup(a + b)
  {
    forall p, q | 0 <= p < q < |a + b| ensures (a + b)[p] != (a + b)[q] {
      if p < |a| && q >= |a| {
        assert (a + b)[p] in a && (a + b)[q] in b;
      }
    }
  }

  /** No datum appears twice in the joined document. */
  lemma {:induction false} OriginsNoDup(nk: seq<string>, dk: seq<string>, k: nat)
    requires k <= |nk|
    ensures NoDup(Origins(nk, dk, k))
    decreases |nk| - k, 1
  {
    if k < |nk| {
      NoDupStep(nk, dk, k);
    } else {
      AppendedNoDup(nk, dk);
    }
  }

  lemma {:induction false} NoDupStep(nk: seq<string>, dk: seq<string>, k: nat)
    requires k < |nk|
    ensures NoDup(Origins(nk, dk, k))
    decreases |nk| - k, 0
  {
    OriginsNoDup(nk, dk, k + 1);
    if MatchOf(nk, dk, k).None? {
      UnclaimedOrigins(nk, dk, k);
    } else {
      OriginsClaimed(nk, dk, k);
    }
  }

  lemma AppendedNoDup(nk: seq<string>, dk: seq<string>)
    ensures NoDup(Origins(nk, dk, |nk|))
  {
    assert Origins(nk, dk, |nk|) == EnteringAt(nk, dk, None, 0);
    EnteringAtIncreasing(nk, dk, None, 0);
  }

  /** A claimed node adds its claimant and the data entering before it, none of
      which the later nodes bring. */
  lemma OriginsClaimed(nk: seq<string>, dk: seq<string>, k: nat)
    requires k < |nk| && MatchOf(nk, dk, k).Some? && NoDup(Origins(nk, dk, k + 1))
    ensures NoDup(Origins(nk, dk, k))
  {
    var i := MatchOf(nk, dk, k).value;
    var seg := EnteringAt(nk, dk, Some(k), 0);
    var rest := Origins(nk, dk, k + 1);
    ClaimedStep(nk, dk, k, 0);
    MatchDual(nk, dk, i, k);
    assert i !in seg;
    EnteringAtIncreasing(nk, dk, Some(k), 0);
    NoDupConcat(seg, [i]);
    forall x | x in seg + [i] ensures x !in rest {
      ClaimedStep(nk, dk, k, x);
      OriginsMembers(nk, dk, k + 1, x);
    }
    NoDupConcat(seg + [i], rest);
  }

  /** Every datum appears in the joined document. */
  lemma OriginsCover(nk: seq<string>, dk: seq<string>, x: nat)
    ensures x in Origins(nk, dk, 0) <==> x < |dk|
  {
    OriginsMembers(nk, dk, 0, x);
  }

  /** The indices below n. */
  function Range(n: nat): (r: set<nat>)
    ensures forall x: nat :: x in r <==> x < n
    ensures |r| == n
  {
    if n == 0 then {} else Range(n - 1) + {n - 1}
  }

  function Elems(s: seq<nat>): (r: set<nat>)
    ensures forall x :: x in r <==> x in s
  {
    set x | x in s
  }

  lemma {:induction false} CardNoDup(s: seq<nat>)
    requires NoDup(s)
    ensures |Elems(s)| == |s|
  {
    if s != [] {
      var t := s[..|s| - 1];
      assert NoDup(t);
      CardNoDup(t);
      assert s == t + [s[|s| - 1]];
      assert s[|s| - 1] !in t;
      assert Elems(s) == Elems(t) + {s[|s| - 1]};
    }
  }

  lemma SameElems(o: seq<nat>, n: nat)
    requires NoDup(o)
    requires forall x: nat :: x in o <==> x < n
    ensures |o| == n
  {
    CardNoDup(o);
    assert Elems(o) == Range(n);
  }

  /** One node per datum after the join: the document holds exactly the data
      indices 0 to |data| - 1, each once. */
  lemma OriginsLength(nk: seq<string>, dk: seq<string>)
    ensures |Origins(nk, dk, 0)| == |dk|
    ensures NoDup(Origins(nk, dk, 0))
    ensures forall x: nat :: x in Origins(nk, dk, 0) <==> x < |dk|
  {
    var o := Origins(nk, dk, 0);
    OriginsNoDup(nk, dk, 0);
    forall x: nat ensures x in o <==> x < |dk| {
      OriginsCover(nk, dk, x);
    }
    SameElems(o, |dk|);
  }

  /** A node stays exactly when it is the first with its key and some datum has that key. */
  lemma KeptIff(nk: seq<string>, dk: seq<string>, k: nat)
    requires k < |nk|
    ensures MatchOf(nk, dk, k).Some? <==> FirstIndex(nk, nk[k]) == Some(k) && nk[k] in dk
  {
  }

  /** The claimants of nodes k, k + 1, ..., in node order. */
  function Claimants(nk: seq<string>, dk: seq<string>, k: nat): (r: seq<nat>)
    requires k <= |nk|
    requires forall j :: 0 <= j < |nk| ==> MatchOf(nk, dk, j).Some?
    ensures |r| == |nk| - k
    ensures forall p :: 0 <= p < |r| ==> r[p] == MatchOf(nk, dk, k + p).value
  {
    seq<nat>(|nk| - k, p requires 0 <= p < |nk| - k => MatchOf(nk, dk, k + p).value)
  }

  /** The claimants from node k: node k's, then those from node k + 1. */
  lemma ClaimantsStep(nk: seq<string>, dk: seq<string>, k: nat)
    requires k < |nk|
    requires forall j :: 0 <= j < |nk| ==> MatchOf(nk, dk, j).Some?
    ensures Claimants(nk, dk, k) == [MatchOf(nk, dk, k).value] + Claimants(nk, dk, k + 1)
  {
    var a, b := Claimants(nk, dk, k), [MatchOf(nk, dk, k).value] + Claimants(nk, dk, k + 1);
    forall p | 0 <= p < |a| ensures a[p] == b[p] {
      if p > 0 {
        assert b[p] == Claimants(nk, dk, k + 1)[p - 1];
      }
    }
  }

  /** When every datum claims a node and every node is claimed, nothing enters and
      the document order is the nodes' order. */
  lemma {:induction false} OriginsAllClaimed(nk: seq<string>, dk: seq<string>, k: nat)
    requires k <= |nk|
    requires forall i :: 0 <= i < |dk| ==> Match(nk, dk, i).Some?
    requires forall j :: 0 <= j < |nk| ==> MatchOf(nk, dk, j).Some?
    ensures Origins(nk, dk, k) == Claimants(nk, dk, k)
    decreases |nk| - k, 1
  {
    if k == |nk| {
      NothingEnters(nk, dk, None);
    } else {
      AllClaimedStep(nk, dk, k);
    }
  }

  lemma {:induction false} AllClaimedStep(nk: seq<string>, dk: seq<string>, k: nat)
    requires k < |nk|
    requires forall i :: 0 <= i < |dk| ==> Match(nk, dk, i).Some?
    requires forall j :: 0 <= j < |nk| ==> MatchOf(nk, dk, j).Some?
    ensures Origins(nk, dk, k) == Claimants(nk, dk, k)
    decreases |nk| - k, 0
  {
    OriginsAllClaimed(nk, dk, k + 1);
    NothingEnters(nk, dk, Some(k));
    ClaimedStep(nk, dk, k, 0);
    ClaimantsStep(nk, dk, k);
    assert [] + [MatchOf(nk, dk, k).value] == [MatchOf(nk, dk, k).value];
  }

  lemma NothingEnters(nk: seq<string>, dk: seq<string>, a: Option<nat>)
    requires forall i :: 0 <= i < |dk| ==> Match(nk, dk, i).Some?
    ensures EnteringAt(nk, dk, a, 0) == []
  {
    NothingEntersFrom(nk, dk, a, 0);
  }

  lemma {:induction false} NothingEntersFrom(nk: seq<string>, dk: seq<string>, a: Option<nat>, j: nat)
    requires forall i :: 0 <= i < |dk| ==> Match(nk, dk, i).Some?
    ensures EnteringAt(nk, dk, a, j) == []
    decreases |dk| - j
  {
    if j < |dk| {
      NothingEntersFrom(nk, dk, a, j + 1);
      assert !Entering(nk, dk, j);
    }
  }
}
