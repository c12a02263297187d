/** The index join of the distribution plots (src/distributionplot.js,
    src/plotcomponents/distributionplot.js): `selectAll('.point').data(samples)`
    pairs node i with sample i, the nodes with a sample are redrawn and moved,
    the samples without a node get a new `g.point`, and the nodes without a
    sample go through the glyph's `remove`. */
module SampleJoin {
  import opened Wrappers
  import opened Utils
  import opened Records
  import opened Dom
  import opened Layout
  import opened Sorting
  import SymbolExit
  import Glyph

  /** `setPosition`: `translate(xScale(d), yScale(pdf(d)))`; not a number (kept as
      `Other`) when a scale's domain is not one. */
  function Position(xs: LinearScale, ys: LinearScale, pdf: real -> real, d: real): Value {
    match (Apply(xs, d), Apply(ys, pdf(d)))
    case (Some(x), Some(y)) => Transform([Translate(x, y)])
    case _ => Other
  }

  /** The horizontal position a sample is drawn at. */
  function XOf(v: Value): real {
    if v.Transform? && |v.ops| == 1 && v.ops[0].Translate? then v.ops[0].dx else 0.0
  }

  /** Sorted samples are drawn left to right: along the document order of the
      points their x positions never decrease. */
  lemma LeftToRight(xs: LinearScale, ys: LinearScale, pdf: real -> real, s: seq<real>, i: nat, j: nat)
    requires Sorted(s) && i <= j < |s|
    requires xs.domain.Some? && xs.domain.value.lo < xs.domain.value.hi && xs.range.lo < xs.range.hi
    requires ys.domain.Some?
    ensures Position(xs, ys, pdf, s[i]).Transform? && Position(xs, ys, pdf, s[j]).Transform?
    ensures XOf(Position(xs, ys, pdf, s[i])) <= XOf(Position(xs, ys, pdf, s[j]))
  {
    var d, r := xs.domain.value, xs.range;
    var t1, t2 := (s[i] - d.lo) / (d.hi - d.lo), (s[j] - d.lo) / (d.hi - d.lo);
    assert t1 <= t2 by {
      assert t2 - t1 == (s[j] - s[i]) / (d.hi - d.lo);
    }
    assert t1 * (r.hi - r.lo) <= t2 * (r.hi - r.lo) by {
      MulLessEq(t1, t2, r.hi - r.lo);
    }
  }

  lemma MulLessEq(a: real, b: real, c: real)
    requires a <= b && c > 0.0
    ensures a * c <= b * c
  {
  }

  /** A new point for sample `d`: `enter().append('g').attr('class', 'point')
      .call(setPosition)`, its transform set at once. */
  method Enter(d: real, xs: LinearScale, ys: LinearScale, pdf: real -> real) returns (n: Node)
    ensures fresh(n)
    ensures n.datum == Sample(d) && n.attrs == map["transform" := Position(xs, ys, pdf, d)]
    ensures n.children == [] && n.detach == Attached && n.listener == None
  {
    n := new Node(Sample(d), map["transform" := Position(xs, ys, pdf, d)]);
  }

  /** `.data(samples)` on the nodes that have a sample: node i is bound to sample i. */
  method Bind(update: seq<Node>, samples: seq<real>)
    requires |update| <= |samples| && Distinct(update)
    modifies update
    ensures forall k :: 0 <= k < |update| ==> update[k].datum == Sample(samples[k])
    ensures forall e :: e in update ==>
              && e.children == old(e.children) && e.attrs == old(e.attrs)
              && e.detach == old(e.detach) && e.listener == old(e.listener)
  {
    var i := 0;
    while i < |update|
      invariant 0 <= i <= |update|
      invariant forall k :: 0 <= k < i ==> update[k].datum == Sample(samples[k])
      invariant forall e :: e in update ==>
                  && e.children == old(e.children) && e.attrs == old(e.attrs)
                  && e.detach == old(e.detach) && e.listener == old(e.listener)
    {
      update[i].datum := Sample(samples[i]);
      i := i + 1;
    }
  }

  /** `transition().duration(updateDuration).call(setPosition)` on the updated nodes. */
  method Move(update: seq<Node>, samples: seq<real>, xs: LinearScale, ys: LinearScale, pdf: real -> real, updateDuration: real)
    requires |update| <= |samples| && Distinct(update)
    modifies update
    ensures forall k :: 0 <= k < |update| ==>
              update[k].attrs == old(update[k].attrs)["transform" := Tween(None, Some(Position(xs, ys, pdf, samples[k])), 0.0, Some(updateDuration))]
    ensures forall e :: e in update ==>
              && e.children == old(e.children) && e.datum == old(e.datum)
              && e.detach == old(e.detach) && e.listener == old(e.listener)
  {
    var i := 0;
    while i < |update|
      invariant 0 <= i <= |update|
      invariant forall k :: 0 <= k < i ==>
                  update[k].attrs == old(update[k].attrs)["transform" := Tween(None, Some(Position(xs, ys, pdf, samples[k])), 0.0, Some(updateDuration))]
      invariant forall k :: i <= k < |update| ==> update[k].attrs == old(update[k].attrs)
      invariant forall e :: e in update ==>
                  && e.children == old(e.children) && e.datum == old(e.datum)
                  && e.detach == old(e.detach) && e.listener == old(e.listener)
    {
      update[i].attrs := update[i].attrs["transform" := Tween(None, Some(Position(xs, ys, pdf, samples[i])), 0.0, Some(updateDuration))];
      i := i + 1;
    }
  }

  /** New points for the given samples, in order. */
  method EnterAll(samples: seq<real>, xs: LinearScale, ys: LinearScale, pdf: real -> real) returns (entered: seq<Node>)
    ensures |entered| == |samples|
    ensures Distinct(entered)
    ensures forall k :: 0 <= k < |entered| ==> fresh(entered[k])
    ensures forall k :: 0 <= k < |entered| ==>
              && entered[k].datum == Sample(samples[k]) && entered[k].attrs == map["transform" := Position(xs, ys, pdf, samples[k])]
              && entered[k].children == [] && entered[k].detach == Attached && entered[k].listener == None
  {
    entered := [];
    var i := 0;
    while i < |samples|
      invariant 0 <= i <= |samples|
      invariant |entered| == i
      invariant forall k :: 0 <= k < |entered| ==> fresh(entered[k])
      invariant Distinct(entered)
      invariant forall k :: 0 <= k < |entered| ==>
                  && entered[k].datum == Sample(samples[k]) && entered[k].attrs == map["transform" := Position(xs, ys, pdf, samples[k])]
                  && entered[k].children == [] && entered[k].detach == Attached && entered[k].listener == None
    {
      var node := Enter(samples[i], xs, ys, pdf);
      entered := entered + [node];
      i := i + 1;
    }
  }

  /** The two parts of a selection without repeats share no node. */
  lemma DistinctSplit(sel: seq<Node>, n: nat)
    requires Distinct(sel) && n <= |sel|
    ensures Distinct(sel[..n]) && Distinct(sel[n..])
    ensures forall e :: e in sel[n..] ==> e !in sel[..n]
  {
    forall e | e in sel[n..] ensures e !in sel[..n] {
      var k :| 0 <= k < |sel| - n && sel[n..][k] == e;
      assert sel[n + k] == e;
      assert forall j :: 0 <= j < n ==> sel[..n][j] == sel[j] != e;
    }
  }

  lemma DistinctConcat(a: seq<Node>, b: seq<Node>)
    requires Distinct(a) && Distinct(b)
    requires forall x, y :: x in a && y in b ==> x != y
    ensures Distinct(a + b)
  {
    forall p, q | 0 <= p < q < |a + b| ensures (a + b)[p] != (a + b)[q] {
      if q < |a| {
      } else if p >= |a| {
        assert (a + b)[p] == b[p - |a|] && (a + b)[q] == b[q - |a|];
      } else {
        assert (a + b)[p] in a && (a + b)[q] in b;
      }
    }
  }

  /** A node that keeps a sample, after the join: bound to the sample, redrawn on
      its old subtree, and moving from where it was to the sample's position. */
  function UpdatedState(b: NodeState, d: real, g: Glyph.Glyph, args: map<string, Value>,
                        xs: LinearScale, ys: LinearScale, pdf: real -> real, updateDuration: real): NodeState
  {
    NodeState(b.attrs["transform" := Tween(None, Some(Position(xs, ys, pdf, d)), 0.0, Some(updateDuration))],
              Glyph.DrawnChildren(g, b.children, Sample(d), args), Sample(d), b.detach,
              Glyph.ListenerAfter(g, b.children, b.listener, Sample(d), args))
  }

  /** A new node for a sample: placed at the sample's position at once, and drawn
      on an empty subtree. */
  function EnteredState(d: real, g: Glyph.Glyph, args: map<string, Value>,
                        xs: LinearScale, ys: LinearScale, pdf: real -> real): NodeState
  {
    NodeState(map["transform" := Position(xs, ys, pdf, d)], Glyph.DrawnChildren(g, [], Sample(d), args),
              Sample(d), Attached, Glyph.ListenerAfter(g, [], None, Sample(d), args))
  }

  /** A node without a sample: its symbol shrinking, and its removal scheduled
      with the glyph's exit duration as the delay; its datum and position stay. */
  function ExitedState(b: NodeState, g: Glyph.Glyph): NodeState {
    var t := Glyph.ExitDuration(g, map[]);
    NodeState(b.attrs, SymbolExit.Shrunk(b.children, t), b.datum, Exiting(t), SymbolExit.Rebound(b.listener, b.datum))
  }

  /** The kept nodes after the update, as values: node i updated with sample i. */
  function Updates(before: seq<NodeState>, samples: seq<real>, g: Glyph.Glyph, args: map<string, Value>,
                   xs: LinearScale, ys: LinearScale, pdf: real -> real, updateDuration: real): (r: seq<NodeState>)
    requires |before| == |samples|
    ensures |r| == |samples|
  {
    seq(|samples|, i requires 0 <= i < |samples| => UpdatedState(before[i], samples[i], g, args, xs, ys, pdf, updateDuration))
  }

  /** The new nodes, as values: one per sample, in order. */
  function Enters(samples: seq<real>, g: Glyph.Glyph, args: map<string, Value>,
                  xs: LinearScale, ys: LinearScale, pdf: real -> real): (r: seq<NodeState>)
    ensures |r| == |samples|
  {
    seq(|samples|, i requires 0 <= i < |samples| => EnteredState(samples[i], g, args, xs, ys, pdf))
  }

  /** The `.point` nodes after `data(samples)`, as values: one per sample, node i
      bound to sample i; the first ones are the old nodes updated, the rest new
      nodes placed at their sample's position at once. */
  function JoinedStates(before: seq<NodeState>, samples: seq<real>, g: Glyph.Glyph, args: map<string, Value>,
                        xs: LinearScale, ys: LinearScale, pdf: real -> real, updateDuration: real): (r: seq<NodeState>)
    ensures |r| == |samples|
  {
    var n := Kept(|before|, |samples|);
    Updates(before[..n], samples[..n], g, args, xs, ys, pdf, updateDuration) + Enters(samples[n..], g, args, xs, ys, pdf)
  }

  /** Node i after the join: the old node i updated with sample i while there is
      one, else a new node for sample i. */
  lemma JoinedAt(before: seq<NodeState>, samples: seq<real>, g: Glyph.Glyph, args: map<string, Value>,
                 xs: LinearScale, ys: LinearScale, pdf: real -> real, updateDuration: real, i: nat)
    requires i < |samples|
    ensures JoinedStates(before, samples, g, args, xs, ys, pdf, updateDuration)[i]
            == if i < |before| then UpdatedState(before[i], samples[i], g, args, xs, ys, pdf, updateDuration)
               else EnteredState(samples[i], g, args, xs, ys, pdf)
  {
    var n := Kept(|before|, |samples|);
    var u, e := Updates(before[..n], samples[..n], g, args, xs, ys, pdf, updateDuration), Enters(samples[n..], g, args, xs, ys, pdf);
    assert JoinedStates(before, samples, g, args, xs, ys, pdf, updateDuration) == u + e;
    if i < n {
      assert (u + e)[i] == u[i];
      assert before[..n][i] == before[i] && samples[..n][i] == samples[i];
    } else {
      assert (u + e)[i] == e[i - n];
      assert samples[n..][i - n] == samples[i];
    }
  }

  /** After the join node i is bound to sample i, whether it is old or new. */
  lemma JoinedDatum(before: seq<NodeState>, samples: seq<real>, g: Glyph.Glyph, args: map<string, Value>,
                    xs: LinearScale, ys: LinearScale, pdf: real -> real, updateDuration: real, i: nat)
    requires i < |samples|
    ensures JoinedStates(before, samples, g, args, xs, ys, pdf, updateDuration)[i].datum == Sample(samples[i])
  {
    JoinedAt(before, samples, g, args, xs, ys, pdf, updateDuration, i);
  }

  /** An old node keeps its place and stays attached as it was; a new node is
      attached, with only its transform set, at its sample's position. */
  lemma JoinedPlacement(before: seq<NodeState>, samples: seq<real>, g: Glyph.Glyph, args: map<string, Value>,
                        xs: LinearScale, ys: LinearScale, pdf: real -> real, updateDuration: real, i: nat)
    requires i < |samples|
    ensures var r := JoinedStates(before, samples, g, args, xs, ys, pdf, updateDuration);
            && (i < |before| ==> r[i].detach == before[i].detach
                                 && r[i].attrs == before[i].attrs["transform" := Tween(None, Some(Position(xs, ys, pdf, samples[i])), 0.0, Some(updateDuration))])
            && (i >= |before| ==> r[i].detach == Attached && r[i].attrs == map["transform" := Position(xs, ys, pdf, samples[i])])
  {
    JoinedAt(before, samples, g, args, xs, ys, pdf, updateDuration, i);
  }

  /** The nodes past the samples, as values. */
  function ExitedStates(before: seq<NodeState>, g: Glyph.Glyph): (r: seq<NodeState>)
    ensures |r| == |before|
  {
    seq(|before|, i requires 0 <= i < |before| => ExitedState(before[i], g))
  }

  /** A redraw with as many samples as points only updates: every node keeps its
      place, none is added and none leaves. */
  lemma SameCount(before: seq<NodeState>, samples: seq<real>, g: Glyph.Glyph, args: map<string, Value>,
                  xs: LinearScale, ys: LinearScale, pdf: real -> real, updateDuration: real)
    requires |before| == |samples|
    ensures Kept(|before|, |samples|) == |samples| && before[Kept(|before|, |samples|)..] == []
    ensures JoinedStates(before, samples, g, args, xs, ys, pdf, updateDuration)
            == Updates(before, samples, g, args, xs, ys, pdf, updateDuration)
  {
    assert before[..|before|] == before && samples[..|samples|] == samples;
  }

  /** Snapshots distribute over the concatenation of selections. */
  lemma StatesConcat(a: seq<Node>, b: seq<Node>)
    ensures States(a + b) == States(a) + States(b)
  {
    assert forall i :: 0 <= i < |a + b| ==> States(a + b)[i] == (States(a) + States(b))[i];
  }

  /** The update selection: bound to its samples, redrawn, then moved. */
  method UpdateAll(update: seq<Node>, samples: seq<real>, g: Glyph.Glyph, args: map<string, Value>,
                   xs: LinearScale, ys: LinearScale, pdf: real -> real, updateDuration: real)
    requires |update| == |samples| && Distinct(update)
    modifies update
    ensures States(update) == Updates(old(States(update)), samples, g, args, xs, ys, pdf, updateDuration)
  {
    Bind(update, samples);
    Glyph.Draw(g, update, args);
    Move(update, samples, xs, ys, pdf, updateDuration);
  }

  /** The enter selection: a new point per sample, positioned, then drawn. */
  method EnterDrawn(samples: seq<real>, g: Glyph.Glyph, args: map<string, Value>, xs: LinearScale, ys: LinearScale, pdf: real -> real)
    returns (entered: seq<Node>)
    ensures |entered| == |samples|
    ensures Distinct(entered)
    ensures forall k :: 0 <= k < |entered| ==> fresh(entered[k])
    ensures States(entered) == Enters(samples, g, args, xs, ys, pdf)
  {
    entered := EnterAll(samples, xs, ys, pdf);
    Glyph.Draw(g, entered, args);
  }

  /** `exit().call(symbol.remove)`. */
  method RemoveAll(g: Glyph.Glyph, exits: seq<Node>)
    requires Distinct(exits)
    modifies exits
    ensures States(exits) == ExitedStates(old(States(exits)), g)
  {
    Glyph.Remove(g, exits, map[]);
  }

  /** The update and enter selections merged: the kept nodes updated, then the new
      nodes for the remaining samples. */
  method UpdateEnter(update: seq<Node>, kept: seq<real>, rest: seq<real>, g: Glyph.Glyph, args: map<string, Value>,
                     xs: LinearScale, ys: LinearScale, pdf: real -> real, updateDuration: real)
    returns (live: seq<Node>)
    requires |update| == |kept| && Distinct(update)
    modifies update
    ensures |live| == |kept| + |rest| && Distinct(live) && live[..|update|] == update
    ensures forall i :: |update| <= i < |live| ==> fresh(live[i])
    ensures States(live) == Updates(old(States(update)), kept, g, args, xs, ys, pdf, updateDuration)
                            + Enters(rest, g, args, xs, ys, pdf)
  {
    UpdateAll(update, kept, g, args, xs, ys, pdf, updateDuration);
    var entered := EnterDrawn(rest, g, args, xs, ys, pdf);
    live := update + entered;
    forall a, b | a in update && b in entered ensures a != b {
      assert old(allocated(a)) && fresh(b);
    }
    DistinctConcat(update, entered);
    StatesConcat(update, entered);
  }

  /** The outcome of the join, on the nodes and their snapshots: `live` is the
      `.point` nodes bound to a sample, in document order, one per sample; the
      old nodes that keep a sample stay in their places, followed by the new
      ones; `exits` is the old nodes past the samples, their removal pending
      (see `Dom.RemovedAt`); `after` and
      `exitAfter` are the states they are left in, given the states `before` of
      the old nodes. */
  predicate Outcome(points: seq<Node>, before: seq<NodeState>, samples: seq<real>, g: Glyph.Glyph,
                    args: map<string, Value>, xs: LinearScale, ys: LinearScale, pdf: real -> real, updateDuration: real,
                    live: seq<Node>, after: seq<NodeState>, exits: seq<Node>, exitAfter: seq<NodeState>)
  {
    var n := Kept(|points|, |samples|);
    && |before| == |points|
    && |live| == |samples| && Distinct(live)
    && live[..n] == points[..n]
    && exits == points[n..]
    && after == JoinedStates(before, samples, g, args, xs, ys, pdf, updateDuration)
    && exitAfter == ExitedStates(before[n..], g)
  }

  /** `selectAll('.point').data(samples)` and its update, enter and exit. */
  method Join(points: seq<Node>, samples: seq<real>, g: Glyph.Glyph, args: map<string, Value>,
              xs: LinearScale, ys: LinearScale, pdf: real -> real, updateDuration: real)
    returns (live: seq<Node>, exits: seq<Node>)
    requires Distinct(points)
    modifies points
    ensures Outcome(points, old(States(points)), samples, g, args, xs, ys, pdf, updateDuration,
                    live, States(live), exits, States(exits))
    ensures forall i :: Kept(|points|, |samples|) <= i < |live| ==> fresh(live[i])
  {
    var n := Kept(|points|, |samples|);
    var update := points[..n];
    exits := points[n..];
    ghost var before := States(points);
    assert States(update) == before[..n] && States(exits) == before[n..];
    DistinctSplit(points, n);
    live := UpdateEnter(update, samples[..n], samples[n..], g, args, xs, ys, pdf, updateDuration);
    forall k | n <= k < |live| ensures live[k] !in exits {
      assert fresh(live[k]);
    }
    RemoveAll(g, exits);
  }

  /** How many nodes keep a sample: as many as there are both nodes and samples. */
  function Kept(nodes: nat, samples: nat): (n: nat)
    ensures n <= nodes && n <= samples && (n == nodes || n == samples)
  {
    if samples < nodes then samples else nodes
  }
}
