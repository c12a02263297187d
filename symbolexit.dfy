/** The `removeSymbol` shared by the point, arrow and flower glyphs
    (src/pointsymbol.js, src/arrowsymbol.js, src/flowersymbol.js). */
module SymbolExit {
  import opened Wrappers
  import opened Records
  import opened Dom

  /** The first `.symbol` of a node shrinks to `scale(0)` and fades out over `exitDuration`. */
  function ShrinkAttrs(exitDuration: Option<real>): (a: map<string, Value>)
    ensures "transform" in a && "fill-opacity" in a
    ensures Settled(a["transform"]) == Some(Transform([Scale(0.0)]))
    ensures Settled(a["fill-opacity"]) == Some(Num(0.0))
    ensures a["transform"].Tween? && a["transform"].duration == exitDuration
    ensures a["fill-opacity"].Tween? && a["fill-opacity"].duration == exitDuration
  {
    map["transform" := Tween(None, Some(Transform([Scale(0.0)])), 0.0, exitDuration),
        "fill-opacity" := Tween(None, Some(Num(0.0)), 0.0, exitDuration)]
  }

  /** An element in the state an exit leaves it: scaled to nothing and transparent. */
  predicate ShrunkState(e: Elem) {
    && "transform" in e.attrs && Settled(e.attrs["transform"]) == Some(Transform([Scale(0.0)]))
    && "fill-opacity" in e.attrs && Settled(e.attrs["fill-opacity"]) == Some(Num(0.0))
  }

  /** The subtree of a node after removeSymbol has set up its exit transition. */
  function Shrunk(children: seq<Elem>, exitDuration: Option<real>): seq<Elem> {
    UpdateFirstIn(children, ByClass("symbol"), SetAttrs(ShrinkAttrs(exitDuration)))
  }

  /** Shrinking keeps every element of the glyph and ends the first `.symbol` in the shrunk state. */
  lemma ShrunkSpec(children: seq<Elem>, exitDuration: Option<real>, p: Selector)
    ensures CountIn(Shrunk(children, exitDuration), p) == CountIn(children, p)
    ensures AnyIn(children, ByClass("symbol")) ==>
              var s := FirstIn(Shrunk(children, exitDuration), ByClass("symbol"));
              s.Some? && ShrunkState(s.value)
  {
    var f := SetAttrs(ShrinkAttrs(exitDuration));
    SetAttrsPreserves(ShrinkAttrs(exitDuration), ByClass("symbol"), p);
    UpdateFirstInCount(children, ByClass("symbol"), f, p);
    UpdateFirstInFirst(children, ByClass("symbol"), f);
  }

  /** `selection.select('.symbol')` binds each node's datum to its first `.symbol`,
      which on a flower node is the group the bud's listeners act on. */
  function Rebound(l: Option<BudListener>, d: Bound): (r: Option<BudListener>)
    ensures r.Some? <==> l.Some?
    ensures r.Some? ==> r.value.opts == l.value.opts && r.value.datum == d
  {
    if l.Some? then Some(l.value.(datum := d)) else None
  }

  /** When a node whose exit was set up with `exitDuration` leaves the document:
      one default duration after `exitDuration`, and never when it is `undefined`. */
  lemma ExitRemovedAt(exitDuration: Option<real>)
    ensures exitDuration.None? ==> RemovedAt(Exiting(exitDuration)).None?
    ensures exitDuration.Some? && exitDuration.value >= 0.0 ==>
              RemovedAt(Exiting(exitDuration)) == Some(exitDuration.value + DefaultDuration)
  {
  }

  /** removeSymbol on a selection: every node's glyph shrinks over `exitDuration`
      and the node's removal is scheduled with `exitDuration` as its delay. */
  method RemoveEach(sel: seq<Node>, exitDuration: Option<real>)
    requires Distinct(sel)
    modifies sel
    ensures forall n :: n in sel ==> n.children == Shrunk(old(n.children), exitDuration)
                                     && n.detach == Exiting(exitDuration)
    ensures forall n :: n in sel ==> n.datum == old(n.datum) && n.attrs == old(n.attrs)
                                     && n.listener == Rebound(old(n.listener), n.datum)
  {
    var i := 0;
    while i < |sel|
      invariant 0 <= i <= |sel|
      invariant forall k :: 0 <= k < i ==> sel[k].children == Shrunk(old(sel[k].children), exitDuration)
                                           && sel[k].detach == Exiting(exitDuration)
                                           && sel[k].listener == Rebound(old(sel[k].listener), sel[k].datum)
      invariant forall k :: i <= k < |sel| ==> sel[k].children == old(sel[k].children)
                                               && sel[k].listener == old(sel[k].listener)
      invariant forall k :: 0 <= k < |sel| ==> sel[k].datum == old(sel[k].datum) && sel[k].attrs == old(sel[k].attrs)
    {
      RemoveOne(sel[i], exitDuration);
      i := i + 1;
    }
  }

  /** removeSymbol on one node. */
  method RemoveOne(n: Node, exitDuration: Option<real>)
    modifies n
    ensures n.children == Shrunk(old(n.children), exitDuration) && n.detach == Exiting(exitDuration)
    ensures n.listener == Rebound(old(n.listener), n.datum)
    ensures n.datum == old(n.datum) && n.attrs == old(n.attrs)
  {
    n.children := Shrunk(n.children, exitDuration);
    n.listener := Rebound(n.listener, n.datum);
    n.detach := Exiting(exitDuration);
  }
}
