/** A small model of the document: elements with a tag, a class, attributes and
    children, the descendant selectors d3's `select` uses, and the
    create-if-absent guard `selectEnter` (src/common/utils.js, src/utils.js). */
module Dom {
  import opened Wrappers
  import opened Records

  datatype Elem = Elem(tag: string, cls: string, attrs: map<string, Value>, children: seq<Elem>)

  /** `.name` selects by class, a bare name by tag. */
  datatype Selector = ByClass(name: string) | ByTag(name: string)

  predicate Matches(e: Elem, q: Selector) {
    match q
    case ByClass(c) => e.cls == c
    case ByTag(t) => e.tag == t
  }

  /** Some element of the forest, or a descendant of one, matches. */
  predicate AnyIn(es: seq<Elem>, q: Selector)
    decreases es
  {
    es != [] && (Matches(es[0], q) || AnyIn(es[0].children, q) || AnyIn(es[1..], q))
  }

  /** `node.select(q)` is not empty: some strict descendant matches. */
  predicate HasMatch(e: Elem, q: Selector) {
    AnyIn(e.children, q)
  }

  /** The number of matching elements in a forest. */
  function CountIn(es: seq<Elem>, q: Selector): nat
    decreases es
  {
    if es == [] then 0
    else CountTree(es[0], q) + CountIn(es[1..], q)
  }

  /** The number of matching elements in a tree, its root included. */
  function CountTree(e: Elem, q: Selector): nat
    decreases e
  {
    (if Matches(e, q) then 1 else 0) + CountIn(e.children, q)
  }

  lemma {:induction false} AnyInIffCount(es: seq<Elem>, q: Selector)
    ensures AnyIn(es, q) <==> CountIn(es, q) > 0
    decreases es
  {
    if es != [] {
      AnyInIffCount(es[0].children, q);
      AnyInIffCount(es[1..], q);
    }
  }

  lemma {:induction false} CountInConcat(a: seq<Elem>, b: seq<Elem>, q: Selector)
    ensures CountIn(a + b, q) == CountIn(a, q) + CountIn(b, q)
    decreases a
  {
    if a != [] {
      assert (a + b)[0] == a[0];
      assert (a + b)[1..] == a[1..] + b;
      CountInConcat(a[1..], b, q);
    } else {
      assert a + b == b;
    }
  }

  /** A forest of trees without a match has none. */
  lemma {:induction false} CountInNone(es: seq<Elem>, q: Selector)
    requires forall i :: 0 <= i < |es| ==> CountTree(es[i], q) == 0
    ensures CountIn(es, q) == 0
    decreases es
  {
    if es != [] {
      assert forall i :: 0 <= i < |es[1..]| ==> es[1..][i] == es[i + 1];
      CountInNone(es[1..], q);
    }
  }

  lemma CountInSingle(e: Elem, q: Selector)
    ensures CountIn([e], q) == CountTree(e, q)
  {
    assert [e][1..] == [];
  }

  /** Appending one tree adds the matches inside it. */
  lemma CountInAppend(es: seq<Elem>, e: Elem, q: Selector)
    ensures CountIn(es + [e], q) == CountIn(es, q) + CountTree(e, q)
  {
    CountInConcat(es, [e], q);
    CountInSingle(e, q);
  }

  lemma AnyInConcat(a: seq<Elem>, b: seq<Elem>, q: Selector)
    ensures AnyIn(a + b, q) <==> AnyIn(a, q) || AnyIn(b, q)
  {
    AnyInIffCount(a + b, q);
    AnyInIffCount(a, q);
    AnyInIffCount(b, q);
    CountInConcat(a, b, q);
  }

  /** selectEnter: the selection itself when none of its elements has a
      descendant matching `q`, and the empty selection otherwise. */
  function SelectEnter(sel: seq<Elem>, q: Selector): (r: seq<Elem>)
    ensures (forall i :: 0 <= i < |sel| ==> !HasMatch(sel[i], q)) ==> r == sel
    ensures (exists i :: 0 <= i < |sel| && HasMatch(sel[i], q)) ==> r == []
  {
    if forall i :: 0 <= i < |sel| ==> !HasMatch(sel[i], q) then sel else []
  }

  /** `selection.append(child)` on every element of a selection. */
  function AppendAll(sel: seq<Elem>, child: Elem): (r: seq<Elem>)
    ensures |r| == |sel|
    ensures forall i :: 0 <= i < |sel| ==> r[i] == sel[i].(children := sel[i].children + [child])
  {
    seq(|sel|, i requires 0 <= i < |sel| => sel[i].(children := sel[i].children + [child]))
  }

  /** `selectEnter(node, q).append(child)` on one node. */
  function AppendIfAbsent(e: Elem, q: Selector, child: Elem): Elem {
    var s := AppendAll(SelectEnter([e], q), child);
    if s == [] then e else s[0]
  }

  /** The guard appends exactly when nothing matches, and then the matching child:
      a chained append never makes a second matching element. */
  lemma AppendIfAbsentCount(e: Elem, q: Selector, child: Elem)
    requires Matches(child, q) && !AnyIn(child.children, q)
    ensures CountIn(AppendIfAbsent(e, q, child).children, q)
            == if HasMatch(e, q) then CountIn(e.children, q) else 1
  {
    AnyInIffCount(e.children, q);
    AnyInIffCount(child.children, q);
    if !HasMatch(e, q) {
      CountInConcat(e.children, [child], q);
      assert [child][1..] == [];
    }
  }

  /** Running the guarded append twice is running it once. */
  lemma AppendIfAbsentIdempotent(e: Elem, q: Selector, child: Elem)
    requires Matches(child, q)
    ensures AppendIfAbsent(AppendIfAbsent(e, q, child), q, child) == AppendIfAbsent(e, q, child)
  {
    if !HasMatch(e, q) {
      AnyInConcat(e.children, [child], q);
    }
  }

  /** The first matching element of a forest in document order (`select(q)`). */
  function FirstIn(es: seq<Elem>, q: Selector): (r: Option<Elem>)
    ensures r.Some? <==> AnyIn(es, q)
    ensures r.Some? ==> Matches(r.value, q)
    decreases es
  {
    if es == [] then None
    else if Matches(es[0], q) then Some(es[0])
    else if AnyIn(es[0].children, q) then FirstIn(es[0].children, q)
    else FirstIn(es[1..], q)
  }

  /** `select(q).call(f)`: change the first matching element of a forest, if any. */
  function UpdateFirstIn(es: seq<Elem>, q: Selector, f: Elem -> Elem): (r: seq<Elem>)
    ensures |r| == |es|
    decreases es
  {
    if es == [] then []
    else if Matches(es[0], q) then [f(es[0])] + es[1..]
    else if AnyIn(es[0].children, q) then [es[0].(children := UpdateFirstIn(es[0].children, q, f))] + es[1..]
    else [es[0]] + UpdateFirstIn(es[1..], q, f)
  }

  /** f keeps the element matching q and keeps the number of p-matches in it. */
  ghost predicate Preserves(f: Elem -> Elem, q: Selector, p: Selector) {
    forall e {:trigger f(e)} :: Matches(e, q) ==> Matches(f(e), q) && CountTree(f(e), p) == CountTree(e, p)
  }

  /** Changing the first match leaves the number of p-matches alone. */
  lemma {:induction false} UpdateFirstInCount(es: seq<Elem>, q: Selector, f: Elem -> Elem, p: Selector)
    requires Preserves(f, q, p)
    ensures CountIn(UpdateFirstIn(es, q, f), p) == CountIn(es, p)
    decreases es
  {
    if es != [] {
      var r := UpdateFirstIn(es, q, f);
      if Matches(es[0], q) {
        assert r[0] == f(es[0]) && r[1..] == es[1..];
      } else if AnyIn(es[0].children, q) {
        UpdateFirstInCount(es[0].children, q, f, p);
        assert r[1..] == es[1..];
      } else {
        UpdateFirstInCount(es[1..], q, f, p);
        assert r[1..] == UpdateFirstIn(es[1..], q, f);
      }
    }
  }

  /** The first match after the change is the changed old first match. */
  lemma {:induction false} UpdateFirstInFirst(es: seq<Elem>, q: Selector, f: Elem -> Elem)
    requires forall e {:trigger f(e)} :: Matches(e, q) ==> Matches(f(e), q)
    ensures FirstIn(UpdateFirstIn(es, q, f), q)
            == (match FirstIn(es, q) case None => None case Some(e) => Some(f(e)))
    decreases es
  {
    if es != [] {
      var r := UpdateFirstIn(es, q, f);
      if Matches(es[0], q) {
        assert r[0] == f(es[0]);
      } else if AnyIn(es[0].children, q) {
        UpdateFirstInFirst(es[0].children, q, f);
      } else {
        UpdateFirstInFirst(es[1..], q, f);
        assert r[1..] == UpdateFirstIn(es[1..], q, f);
      }
    }
  }

  /** `select(q).attr(...)`: set attributes on the first matching element. */
  function SetAttrs(a: map<string, Value>): Elem -> Elem {
    (e: Elem) => e.(attrs := e.attrs + a)
  }

  lemma SetAttrsPreserves(a: map<string, Value>, q: Selector, p: Selector)
    ensures Preserves(SetAttrs(a), q, p)
  {
  }

  /** `select(q).remove()`: detach the first matching element, if any. */
  function RemoveFirstIn(es: seq<Elem>, q: Selector): (r: seq<Elem>)
    decreases es
  {
    if es == [] then []
    else if Matches(es[0], q) then es[1..]
    else if AnyIn(es[0].children, q) then [es[0].(children := RemoveFirstIn(es[0].children, q))] + es[1..]
    else [es[0]] + RemoveFirstIn(es[1..], q)
  }

  /** Removing the first match takes away that element and everything inside it. */
  lemma {:induction false} RemoveFirstInCount(es: seq<Elem>, q: Selector)
    requires AnyIn(es, q)
    ensures CountIn(RemoveFirstIn(es, q), q)
            == CountIn(es, q) - 1 - CountIn(FirstIn(es, q).value.children, q)
    decreases es
  {
    var r := RemoveFirstIn(es, q);
    if Matches(es[0], q) {
    } else if AnyIn(es[0].children, q) {
      RemoveFirstInCount(es[0].children, q);
      assert r[1..] == es[1..];
    } else {
      RemoveFirstInCount(es[1..], q);
      assert r[1..] == RemoveFirstIn(es[1..], q);
    }
  }

  /** `selection.insert(child, ':first-child')`. */
  function InsertFirst(e: Elem, child: Elem): (r: Elem)
    ensures |r.children| == |e.children| + 1
    ensures r.children[0] == child && r.children[1..] == e.children
  {
    e.(children := [child] + e.children)
  }

  /** A node's removal: none pending, or `transition().delay(delay).remove()`
      scheduled, with its delay (none when `undefined`). */
  datatype Detach = Attached | Exiting(delay: Option<real>)

  /** d3's default transition duration, in milliseconds. */
  const DefaultDuration: real := 250.0

  /** When a pending removal takes the node out of the document, in milliseconds
      from the call, if ever: `remove()` runs as the transition ends, one default
      duration after its delay (at the first frame when that is already past). An
      `undefined` delay is not a number, so the transition never starts and the
      node stays in the document. */
  function RemovedAt(d: Detach): (t: Option<real>)
    ensures t.Some? <==> d.Exiting? && d.delay.Some?
    ensures t.Some? ==> t.value >= 0.0 && t.value >= d.delay.value + DefaultDuration
    ensures t.Some? && d.delay.value >= -DefaultDuration ==> t.value == d.delay.value + DefaultDuration
  {
    if d.Exiting? && d.delay.Some? then
      Some(if d.delay.value + DefaultDuration < 0.0 then 0.0 else d.delay.value + DefaultDuration)
    else None
  }

  /** What the flower bud's `mouseover` and `mouseout` listeners act with: the
      options of the draw that created the bud, which they closed over, and the
      datum of the bud's group (`this.parentNode`), which `append` copied from the
      node when the group was created. */
  datatype BudListener = BudListener(opts: map<string, Value>, datum: Bound)

  /** A node of a chart's scene (`g.point` or a scatter plot's circle holder): its
      own attributes, the subtree the glyph draws inside it, the datum bound to it,
      and its scheduled removal. The plots update these in place. */
  class Node {
    var attrs: map<string, Value>
    var children: seq<Elem>
    var datum: Bound
    var detach: Detach
    /** The event listeners registered on this node's glyph, if any. */
    var listener: Option<BudListener>

    constructor (datum: Bound, attrs: map<string, Value>)
      ensures this.datum == datum && this.attrs == attrs
      ensures children == [] && detach == Attached && listener == None
    {
      this.datum := datum;
      this.attrs := attrs;
      children := [];
      detach := Attached;
      listener := None;
    }

    /** The node's fields, as a value. */
    function State(): NodeState
      reads this
    {
      NodeState(attrs, children, datum, detach, listener)
    }

    /** The element this node stands for, as seen by a selector. */
    function AsElem(): Elem
      reads this
    {
      Elem("g", "point", attrs, children)
    }
  }

  /** A snapshot of a node's fields. */
  datatype NodeState = NodeState(attrs: map<string, Value>, children: seq<Elem>, datum: Bound,
                                 detach: Detach, listener: Option<BudListener>)

  /** Snapshots of the nodes of a selection, in order. */
  function States(sel: seq<Node>): (r: seq<NodeState>)
    reads sel
    ensures |r| == |sel| && forall i :: 0 <= i < |sel| ==> r[i] == sel[i].State()
  {
    seq(|sel|, i reads sel requires 0 <= i < |sel| => sel[i].State())
  }

  /** No node occurs twice in a selection. */
  predicate Distinct(sel: seq<Node>) {
    forall i, j :: 0 <= i < j < |sel| ==> sel[i] != sel[j]
  }

  /** The d3 idiom `selection.each(...)` that changes the subtree of every node of
      a selection, each by a function of its bound datum and its old subtree. */
  method UpdateEach(sel: seq<Node>, f: (Bound, seq<Elem>) -> seq<Elem>)
    requires Distinct(sel)
    modifies sel
    ensures forall n :: n in sel ==> n.children == f(n.datum, old(n.children))
    ensures forall n :: n in sel ==> n.datum == old(n.datum) && n.attrs == old(n.attrs)
                                     && n.detach == old(n.detach) && n.listener == old(n.listener)
  {
    var i := 0;
    while i < |sel|
      invariant 0 <= i <= |sel|
      invariant forall k :: 0 <= k < i ==> sel[k].children == f(sel[k].datum, old(sel[k].children))
      invariant forall k :: i <= k < |sel| ==> sel[k].children == old(sel[k].children)
      invariant forall n :: n in sel ==> n.datum == old(n.datum) && n.attrs == old(n.attrs)
                                         && n.detach == old(n.detach) && n.listener == old(n.listener)
    {
      sel[i].children := f(sel[i].datum, sel[i].children);
      i := i + 1;
    }
  }
}
