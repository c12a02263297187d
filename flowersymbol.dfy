/** The flower glyph (src/flowersymbol.js): a bud that grows in and, on hover,
    opens into three sepals and three petals sized by the datum's x and y. */
module FlowerSymbol {
  import opened Wrappers
  import opened Utils
  import opened Records
  import opened Dom
  import SymbolExit

  /** defineSymbol(symbolProps). */
  datatype Symbol = Symbol(props: map<string, Value>)

  /** The options draw and remove see: `{...args, ...symbolProps}`, the symbol's
      own properties winning over the call's arguments. */
  function Options(sym: Symbol, args: map<string, Value>): (o: map<string, Value>)
    ensures o.Keys == sym.props.Keys + args.Keys
    ensures forall k :: k in sym.props ==> o[k] == sym.props[k]
    ensures forall k :: k in args && k !in sym.props ==> o[k] == args[k]
  {
    Spread(args, sym.props)
  }

  // ---------------------------------------------------------------- templates

  function Template(id: string): (t: Elem)
    ensures t.tag == "defs" && |t.children| == 1 && t.children[0].attrs == map["id" := Str(id)]
  {
    Elem("defs", "", map[], [Elem("g", "", map["id" := Str(id)], [
      Elem("path", "", map[], []), Elem("path", "", map[], [])])])
  }

  /** initSymbol(svg): one `defs` holding the sepal template and one holding the petal template. */
  function Init(svg: Elem): (r: Elem)
    ensures r.tag == svg.tag && r.cls == svg.cls && r.attrs == svg.attrs
    ensures |r.children| == |svg.children| + 2 && r.children[..|svg.children|] == svg.children
    ensures r.children[|svg.children|..] == [Template("sepal"), Template("petal")]
  {
    svg.(children := svg.children + [Template("sepal"), Template("petal")])
  }

  // ---------------------------------------------------------------- options

  /** The options drawSymbol destructures, with their defaults, and the upper ends
      of the two scales' domains. */
  datatype DrawOptions = DrawOptions(
    symbolRadius: real, expandedSymbolRadius: real, opacity: real,
    enterDuration: real, drawLeavesDuration: real,
    hideLeavesAverageDelay: real, hideLeavesDuration: real,
    xmax: Option<real>, ymax: Option<real>)

  /** `scale.domain()[1]`; none when the domain is not a number. */
  function Upper(d: Option<Interval>): Option<real> {
    if d.Some? then Some(d.value.hi) else None
  }

  /** None when xScale or yScale is missing: reading `xScale.domain()` then throws. */
  function Resolve(opts: map<string, Value>): (r: Option<DrawOptions>)
    ensures r.Some? <==> "xScale" in opts && opts["xScale"].ScaleOf? && "yScale" in opts && opts["yScale"].ScaleOf?
    ensures r.Some? ==> r.value.xmax == Upper(opts["xScale"].domain) && r.value.ymax == Upper(opts["yScale"].domain)
    ensures r.Some? && "symbolRadius" !in opts ==> r.value.symbolRadius == 4.0
    ensures r.Some? && "expandedSymbolRadius" !in opts ==> r.value.expandedSymbolRadius == 30.0
    ensures r.Some? && "opacity" !in opts ==> r.value.opacity == 0.6
    ensures r.Some? && "enterDuration" !in opts ==> r.value.enterDuration == 500.0
    ensures r.Some? && "drawLeavesDuration" !in opts ==> r.value.drawLeavesDuration == 500.0
    ensures r.Some? && "hideLeavesAverageDelay" !in opts ==> r.value.hideLeavesAverageDelay == 1500.0
    ensures r.Some? && "hideLeavesDuration" !in opts ==> r.value.hideLeavesDuration == 500.0
    ensures r.Some? && "symbolRadius" in opts && opts["symbolRadius"].Num? ==> r.value.symbolRadius == opts["symbolRadius"].n
    ensures r.Some? && "expandedSymbolRadius" in opts && opts["expandedSymbolRadius"].Num? ==>
              r.value.expandedSymbolRadius == opts["expandedSymbolRadius"].n
    ensures r.Some? && "opacity" in opts && opts["opacity"].Num? ==> r.value.opacity == opts["opacity"].n
    ensures r.Some? && "enterDuration" in opts && opts["enterDuration"].Num? ==> r.value.enterDuration == opts["enterDuration"].n
    ensures r.Some? && "drawLeavesDuration" in opts && opts["drawLeavesDuration"].Num? ==>
              r.value.drawLeavesDuration == opts["drawLeavesDuration"].n
    ensures r.Some? && "hideLeavesAverageDelay" in opts && opts["hideLeavesAverageDelay"].Num? ==>
              r.value.hideLeavesAverageDelay == opts["hideLeavesAverageDelay"].n
    ensures r.Some? && "hideLeavesDuration" in opts && opts["hideLeavesDuration"].Num? ==>
              r.value.hideLeavesDuration == opts["hideLeavesDuration"].n
  {
    if "xScale" in opts && opts["xScale"].ScaleOf? && "yScale" in opts && opts["yScale"].ScaleOf? then
      Some(DrawOptions(
        NumOr(opts, "symbolRadius", 4.0), NumOr(opts, "expandedSymbolRadius", 30.0),
        NumOr(opts, "opacity", 0.6), NumOr(opts, "enterDuration", 500.0),
        NumOr(opts, "drawLeavesDuration", 500.0), NumOr(opts, "hideLeavesAverageDelay", 1500.0),
        NumOr(opts, "hideLeavesDuration", 500.0),
        Upper(opts["xScale"].domain), Upper(opts["yScale"].domain)))
    else None
  }

  // ---------------------------------------------------------------- the bud

  const Bud := ByClass("bud")
  const Title := ByTag("title")

  /** `g.symbol` holding a `circle.bud` of radius 0 and opacity 0. */
  function BudGroup(): Elem {
    Elem("g", "symbol", map[], [Elem("circle", "bud", map[
      "r" := Num(0.0), "fill-opacity" := Num(0.0), "fill" := Str("purple")], [])])
  }

  function TitleOf(b: Bound): string {
    if b.Record? && "title" in b.d.rest && b.d.rest["title"].Str? then b.d.rest["title"].s else ""
  }

  /** The bud grows to `symbolRadius` and fades to `opacity` over `enterDuration`;
      it gets a title if asked to, and its first title shows the datum's title. */
  function FinishBud(o: DrawOptions, addTitle: bool, title: string): Elem -> Elem {
    (e: Elem) =>
      var grown := e.(attrs := e.attrs + map[
        "r" := Tween(None, Some(Num(o.symbolRadius)), 0.0, Some(o.enterDuration)),
        "fill-opacity" := Tween(None, Some(Num(o.opacity)), 0.0, Some(o.enterDuration))]);
      var titled := if addTitle then grown.(children := grown.children + [Elem("title", "", map[], [])]) else grown;
      titled.(children := UpdateFirstIn(titled.children, Title, SetAttrs(map["text" := Str(title)])))
  }

  lemma FinishBudPreserves(o: DrawOptions, addTitle: bool, title: string)
    ensures Preserves(FinishBud(o, addTitle, title), Bud, Bud)
  {
    var f := FinishBud(o, addTitle, title);
    forall e | Matches(e, Bud) ensures Matches(f(e), Bud) && CountTree(f(e), Bud) == CountTree(e, Bud) {
      var t := Elem("title", "", map[], []);
      var cs := if addTitle then e.children + [t] else e.children;
      if addTitle {
        CountInAppend(e.children, t, Bud);
      }
      SetAttrsPreserves(map["text" := Str(title)], Title, Bud);
      UpdateFirstInCount(cs, Title, SetAttrs(map["text" := Str(title)]), Bud);
    }
  }

  /** Whether the first bud of a node's subtree has a title. */
  predicate BudHasTitle(cs: seq<Elem>) {
    var b := FirstIn(cs, Bud);
    b.Some? && AnyIn(b.value.children, Title)
  }

  /** drawSymbol on one node, the guards taken per node: the bud group is
      appended only if the node has no bud, a title only if its bud has none. */
  function Drawn(cs: seq<Elem>, b: Bound, o: DrawOptions): seq<Elem> {
    var withBud := if AnyIn(cs, Bud) then cs else cs + [BudGroup()];
    UpdateFirstIn(withBud, Bud, FinishBud(o, !BudHasTitle(withBud), TitleOf(b)))
  }

  lemma BudGroupCount()
    ensures CountTree(BudGroup(), Bud) == 1
  {
    var c := BudGroup().children[0];
    CountInSingle(c, Bud);
  }

  /** The bud is created only if absent: after a draw a node has exactly one bud
      if it had none, and as many as before otherwise. */
  lemma DrawnBudOnce(cs: seq<Elem>, b: Bound, o: DrawOptions)
    ensures CountIn(Drawn(cs, b, o), Bud) == if CountIn(cs, Bud) == 0 then 1 else CountIn(cs, Bud)
  {
    AnyInIffCount(cs, Bud);
    var withBud := if AnyIn(cs, Bud) then cs else cs + [BudGroup()];
    if !AnyIn(cs, Bud) {
      CountInAppend(cs, BudGroup(), Bud);
      BudGroupCount();
    }
    FinishBudPreserves(o, !BudHasTitle(withBud), TitleOf(b));
    UpdateFirstInCount(withBud, Bud, FinishBud(o, !BudHasTitle(withBud), TitleOf(b)), Bud);
  }

  /** Redrawing never adds a second bud. */
  lemma RedrawKeepsOneBud(cs: seq<Elem>, b: Bound, o: DrawOptions, b2: Bound, o2: DrawOptions)
    requires CountIn(cs, Bud) <= 1
    ensures CountIn(Drawn(Drawn(cs, b, o), b2, o2), Bud) == 1
  {
    DrawnBudOnce(cs, b, o);
    DrawnBudOnce(Drawn(cs, b, o), b2, o2);
  }

  // ------------------------------------------- the bud guard on a whole selection

  /** drawSymbol as written on a selection of node subtrees: `selectEnter` tests the
      whole selection, so the bud group is appended to every node when no node has
      a bud and to none otherwise; titles likewise across all buds. */
  function DrawnSelection(css: seq<seq<Elem>>, bs: seq<Bound>, o: DrawOptions): (r: seq<seq<Elem>>)
    requires |bs| == |css|
    ensures |r| == |css|
  {
    var withBud := WithBuds(css);
    var addTitle := NoTitles(withBud);
    seq(|css|, i requires 0 <= i < |css| => UpdateFirstIn(withBud[i], Bud, FinishBud(o, addTitle, TitleOf(bs[i]))))
  }

  /** `selectEnter(selection, '.bud')` is the whole selection when no node has a bud. */
  predicate NoBuds(css: seq<seq<Elem>>) {
    forall i :: 0 <= i < |css| ==> !AnyIn(css[i], Bud)
  }

  /** `selectEnter(buds, 'title')` is all the buds when no bud has a title. */
  predicate NoTitles(css: seq<seq<Elem>>) {
    forall i :: 0 <= i < |css| ==> !BudHasTitle(css[i])
  }

  function WithBuds(css: seq<seq<Elem>>): (r: seq<seq<Elem>>)
    ensures |r| == |css|
    ensures forall i :: 0 <= i < |css| ==> r[i] == if NoBuds(css) then css[i] + [BudGroup()] else css[i]
  {
    seq(|css|, i requires 0 <= i < |css| => if NoBuds(css) then css[i] + [BudGroup()] else css[i])
  }

  /** The first match of a forest extended by a tree with no earlier match is in that tree. */
  lemma FirstInAppend(cs: seq<Elem>, e: Elem, q: Selector)
    requires !AnyIn(cs, q)
    ensures FirstIn(cs + [e], q) == FirstIn([e], q)
    decreases cs
  {
    if cs != [] {
      assert (cs + [e])[1..] == cs[1..] + [e];
      FirstInAppend(cs[1..], e, q);
    } else {
      assert cs + [e] == [e];
    }
  }

  /** A selection whose nodes all have buds, or none has, and whose buds all have
      titles, or none has. */
  predicate Uniform(css: seq<seq<Elem>>) {
    || (forall i :: 0 <= i < |css| ==> !AnyIn(css[i], Bud))
    || ((forall i :: 0 <= i < |css| ==> AnyIn(css[i], Bud))
        && ((forall i :: 0 <= i < |css| ==> BudHasTitle(css[i]))
            || (forall i :: 0 <= i < |css| ==> !BudHasTitle(css[i]))))
  }

  /** On a uniform selection, such as every selection the plots pass (the freshly
      entered nodes, or the nodes drawn before), the selection-wide guard and the
      per-node guard agree. */
  lemma UniformSelectionAgrees(css: seq<seq<Elem>>, bs: seq<Bound>, o: DrawOptions, i: int)
    requires |bs| == |css| && Uniform(css) && 0 <= i < |css|
    ensures DrawnSelection(css, bs, o)[i] == Drawn(css[i], bs[i], o)
  {
    var withBud := WithBuds(css);
    if NoBuds(css) {
      forall k | 0 <= k < |css| ensures !BudHasTitle(withBud[k]) {
        FirstInAppend(css[k], BudGroup(), Bud);
        CountInSingle(BudGroup().children[0], Bud);
        assert [BudGroup()][1..] == [];
      }
      assert NoTitles(withBud);
      assert withBud[i] == css[i] + [BudGroup()];
      assert !BudHasTitle(withBud[i]);
    } else {
      assert forall k :: 0 <= k < |css| ==> AnyIn(css[k], Bud);
      assert withBud == css;
      assert NoTitles(withBud) == !BudHasTitle(css[i]);
    }
  }

  /** The selection-wide guard loses buds: with one node that has a bud and one
      that has none, the second one is left without a bud, where the per-node
      guard gives it one. */
  lemma MixedSelectionLosesBud(o: DrawOptions, b: Bound)
    ensures var css := [[BudGroup()], []];
      && CountIn(DrawnSelection(css, [b, b], o)[1], Bud) == 0
      && CountIn(Drawn(css[1], b, o), Bud) == 1
  {
    var css: seq<seq<Elem>> := [[BudGroup()], []];
    CountInSingle(BudGroup().children[0], Bud);
    assert AnyIn(css[0], Bud);
    assert !NoBuds(css);
    assert WithBuds(css)[1] == [];
    assert DrawnSelection(css, [b, b], o)[1] == [];
    DrawnBudOnce(css[1], b, o);
  }

  // ---------------------------------------------------------------- the leaves

  const Leaves := ByClass("leaves")
  const LeafTemplateLength := 23.0
  const LeafOverlap := 3.0

  /** Leaves 0 to 2 use the sepal template, 3 to 5 the petal template. */
  function LeafUrl(k: nat): string {
    if k < 3 then "#sepal" else "#petal"
  }

  /** `360/3 * (leafNr % 3) + (leafNr < 3 ? 360/6 : 0)`. */
  function LeafAngle(k: nat): real {
    120.0 * ((k % 3) as real) + (if k < 3 then 60.0 else 0.0)
  }

  /** The six angles are 60, 180, 300 for the sepals and 0, 120, 240 for the petals:
      distinct multiples of 60 below 360. */
  lemma LeafAngles()
    ensures [LeafAngle(0), LeafAngle(1), LeafAngle(2)] == [60.0, 180.0, 300.0]
    ensures [LeafAngle(3), LeafAngle(4), LeafAngle(5)] == [0.0, 120.0, 240.0]
    ensures forall j, k :: 0 <= j < k < 6 ==> LeafAngle(j) != LeafAngle(k)
  {
  }

  /** `Math.max(0, v / xymax)` in JavaScript: none when the quotient is not a finite
      number (v undefined, xymax not a number, 0/0, and v/0 for v > 0); v/0 for
      v < 0 is -Infinity, which the max turns into 0. */
  function RelativeArea(v: Option<real>, xymax: Option<real>): (r: Option<real>)
    ensures xymax.Some? && xymax.value != 0.0 && v.Some? ==>
              r == Some(if v.value / xymax.value < 0.0 then 0.0 else v.value / xymax.value)
    ensures v.None? || xymax.None? ==> r.None?
    ensures r.Some? ==> r.value >= 0.0
  {
    match (v, xymax)
    case (Some(x), Some(m)) =>
      if m == 0.0 then (if x < 0.0 then Some(0.0) else None)
      else Some(if x / m < 0.0 then 0.0 else x / m)
    case _ => None
  }

  /** `Math.max(xmax, ymax)`, not a number when either is not. */
  function XYMax(o: DrawOptions): (r: Option<real>)
    ensures r.Some? <==> o.xmax.Some? && o.ymax.Some?
    ensures r.Some? ==> r.value >= o.xmax.value && r.value >= o.ymax.value
    ensures r.Some? ==> r.value == o.xmax.value || r.value == o.ymax.value
  {
    if o.xmax.Some? && o.ymax.Some? then Some(if o.xmax.value >= o.ymax.value then o.xmax.value else o.ymax.value)
    else None
  }

  /** Sepals are sized by the datum's x, petals by its y, relative to the larger domain end. */
  function LeafArea(k: nat, b: Bound, o: DrawOptions): Option<real> {
    RelativeArea(NumField(b, if k < 3 then "x" else "y"), XYMax(o))
  }

  function LeafScaleFactor(o: DrawOptions): real {
    (o.expandedSymbolRadius - o.symbolRadius) / (LeafTemplateLength - LeafOverlap)
  }

  /** One `use` of a template: it starts at scale 0 and grows, over
      `drawLeavesDuration`, to `leafScaleFactor * sqrt(area)`; a non-finite area
      gives a transform that is not a number. */
  function Leaf(k: nat, b: Bound, o: DrawOptions): Elem {
    var start := Transform([Rotate(LeafAngle(k)), Translate(o.symbolRadius, 0.0), Scale(0.0), Translate(-LeafOverlap, 0.0)]);
    var end := match LeafArea(k, b, o)
      case Some(a) => Transform([Rotate(LeafAngle(k)), Translate(o.symbolRadius, 0.0),
                                 ScaleRoot(LeafScaleFactor(o), a), Translate(-LeafOverlap, 0.0)])
      case None => Other;
    Elem("use", "", map["href" := Str(LeafUrl(k)),
                        "transform" := Tween(Some(start), Some(end), 0.0, Some(o.drawLeavesDuration))], [])
  }

  /** The six leaves drawLeaves appends, in order. */
  function AllLeaves(b: Bound, o: DrawOptions): (r: seq<Elem>)
    ensures |r| == 6
    ensures forall k :: 0 <= k < 6 ==> r[k] == Leaf(k, b, o)
  {
    seq(6, k requires 0 <= k < 6 => Leaf(k, b, o))
  }

  /** The `for (leafNr = 0; leafNr < 6; leafNr++)` loop of drawLeaves. */
  method DrawLeafUses(b: Bound, o: DrawOptions) returns (uses: seq<Elem>)
    ensures uses == AllLeaves(b, o)
  {
    uses := [];
    var leafNr := 0;
    while leafNr < 6
      invariant 0 <= leafNr <= 6
      invariant |uses| == leafNr
      invariant forall k :: 0 <= k < leafNr ==> uses[k] == Leaf(k, b, o)
    {
      uses := uses + [Leaf(leafNr, b, o)];
      leafNr := leafNr + 1;
    }
  }

  /** Exactly six leaves: three sepals then three petals, with their angles and areas. */
  lemma LeavesLayout(b: Bound, o: DrawOptions, k: nat)
    requires k < 6
    ensures AllLeaves(b, o)[k].attrs["href"] == Str(if k < 3 then "#sepal" else "#petal")
    ensures AllLeaves(b, o)[k].attrs["transform"].from.value.ops[0] == Rotate(LeafAngle(k))
    ensures LeafArea(k, b, o) == RelativeArea(if k < 3 then NumField(b, "x") else NumField(b, "y"), XYMax(o))
  {
  }

  /** The `g.leaves` group, turned by a random angle in [-60, 60). */
  function LeavesGroup(b: Bound, o: DrawOptions, rnd: real): Elem {
    Elem("g", "leaves", map["transform" := Transform([Rotate(60.0 * (-1.0 + 2.0 * rnd))])], AllLeaves(b, o))
  }

  lemma LeavesGroupRotation(b: Bound, o: DrawOptions, rnd: real)
    requires 0.0 <= rnd < 1.0
    ensures var t := LeavesGroup(b, o, rnd).attrs["transform"].ops[0].deg; -60.0 <= t < 60.0
  {
  }

  /** The mouseover handler on the bud's group: draw the leaves, behind the bud,
      only when the group has no `.leaves` yet. */
  function WithLeaves(g: Elem, b: Bound, o: DrawOptions, rnd: real): Elem {
    if HasMatch(g, Leaves) then g
    else InsertFirst(g.(children := UpdateFirstIn(g.children, Bud, SetAttrs(map["fill-opacity" := Num(1.0)]))),
                     LeavesGroup(b, o, rnd))
  }

  lemma LeavesGroupCount(b: Bound, o: DrawOptions, rnd: real)
    ensures CountTree(LeavesGroup(b, o, rnd), Leaves) == 1
  {
    var ls := AllLeaves(b, o);
    forall k | 0 <= k < 6 ensures CountTree(ls[k], Leaves) == 0 {
      var e := Leaf(k, b, o);
      assert e.cls == "" && e.children == [];
    }
    CountInNone(ls, Leaves);
  }

  /** Hovering adds one leaves group to a group without one and changes nothing
      otherwise; hovering twice is hovering once. */
  lemma WithLeavesOnce(g: Elem, b: Bound, o: DrawOptions, rnd: real, rnd2: real)
    ensures CountIn(WithLeaves(g, b, o, rnd).children, Leaves)
            == if HasMatch(g, Leaves) then CountIn(g.children, Leaves) else 1
    ensures WithLeaves(WithLeaves(g, b, o, rnd), b, o, rnd2) == WithLeaves(g, b, o, rnd)
  {
    if !HasMatch(g, Leaves) {
      var cs := UpdateFirstIn(g.children, Bud, SetAttrs(map["fill-opacity" := Num(1.0)]));
      SetAttrsPreserves(map["fill-opacity" := Num(1.0)], Bud, Leaves);
      UpdateFirstInCount(g.children, Bud, SetAttrs(map["fill-opacity" := Num(1.0)]), Leaves);
      AnyInIffCount(g.children, Leaves);
      LeavesGroupCount(b, o, rnd);
      var r := WithLeaves(g, b, o, rnd);
      assert r.children == [LeavesGroup(b, o, rnd)] + cs;
      CountInConcat([LeavesGroup(b, o, rnd)], cs, Leaves);
      CountInSingle(LeavesGroup(b, o, rnd), Leaves);
      AnyInIffCount(r.children, Leaves);
    }
  }

  /** The hover handler applied to the bud's group. */
  function Hover(b: Bound, o: DrawOptions, rnd: real): Elem -> Elem {
    (g: Elem) => WithLeaves(g, b, o, rnd)
  }

  /** `(0.5 + Math.random()) * hideLeavesAverageDelay`. */
  function HideDelay(rnd: real, average: real): (delay: real)
    requires 0.0 <= rnd < 1.0
    ensures average >= 0.0 ==> 0.5 * average <= delay <= 1.5 * average
    ensures average > 0.0 ==> delay < 1.5 * average
  {
    DelayBounds(rnd, average);
    (0.5 + rnd) * average
  }

  lemma DelayBounds(rnd: real, average: real)
    requires 0.0 <= rnd < 1.0
    ensures average >= 0.0 ==> 0.5 * average <= (0.5 + rnd) * average <= 1.5 * average
    ensures average > 0.0 ==> (0.5 + rnd) * average < 1.5 * average
  {
    if average >= 0.0 {
      MulMonotone(0.5, 0.5 + rnd, average);
      MulMonotone(0.5 + rnd, 1.5, average);
    }
  }

  lemma MulMonotone(a: real, b: real, c: real)
    requires a <= b && c >= 0.0
    ensures a * c <= b * c
    ensures a < b && c > 0.0 ==> a * c < b * c
  {
  }

  /** The mouseout handler, by its end state: after the delay the bud fades back
      to `opacity` (over d3's default 250 ms), and the leaves group shrinks over
      `hideLeavesDuration` and is removed. */
  function WithoutLeaves(g: Elem, o: DrawOptions, delay: real): Elem {
    g.(children := RemoveFirstIn(
      UpdateFirstIn(g.children, Bud, SetAttrs(map["fill-opacity" := Tween(None, Some(Num(o.opacity)), delay, Some(250.0))])),
      Leaves))
  }

  /** Hiding the one leaves group the hover drew leaves none. */
  lemma HideRemovesLeaves(g: Elem, b: Bound, o: DrawOptions, rnd: real, delay: real)
    requires !HasMatch(g, Leaves)
    ensures CountIn(WithoutLeaves(WithLeaves(g, b, o, rnd), o, delay).children, Leaves) == 0
  {
    var h := WithLeaves(g, b, o, rnd);
    WithLeavesOnce(g, b, o, rnd, rnd);
    var f := SetAttrs(map["fill-opacity" := Tween(None, Some(Num(o.opacity)), delay, Some(250.0))]);
    SetAttrsPreserves(map["fill-opacity" := Tween(None, Some(Num(o.opacity)), delay, Some(250.0))], Bud, Leaves);
    var cs := UpdateFirstIn(h.children, Bud, f);
    UpdateFirstInCount(h.children, Bud, f, Leaves);
    AnyInIffCount(cs, Leaves);
    RemoveFirstInCount(cs, Leaves);
  }

  // ---------------------------------------------------------------- on nodes

  /** symbol.draw(selection, args). Throws, changing nothing, when the options lack
      xScale or yScale. A node that gets its bud now also gets the bud's
      listeners, which keep this call's options. */
  method Draw(sym: Symbol, sel: seq<Node>, args: map<string, Value>) returns (drawn: bool)
    requires Distinct(sel)
    modifies sel
    ensures drawn <==> Resolve(Options(sym, args)).Some?
    ensures !drawn ==> forall n :: n in sel ==> n.children == old(n.children) && n.listener == old(n.listener)
    ensures drawn ==> forall n :: n in sel ==>
              && n.children == Drawn(old(n.children), n.datum, Resolve(Options(sym, args)).value)
              && n.listener == Listener(old(n.children), old(n.listener), n.datum, Options(sym, args))
    ensures forall n :: n in sel ==> n.datum == old(n.datum) && n.attrs == old(n.attrs) && n.detach == old(n.detach)
  {
    var opts := Options(sym, args);
    var resolved := Resolve(opts);
    if resolved.None? {
      return false;
    }
    DrawAll(sel, resolved.value, opts);
    return true;
  }

  /** The loop over the selection's nodes, in two passes: the listeners are
      registered on the nodes that get a bud, then every node is drawn. */
  method DrawAll(sel: seq<Node>, o: DrawOptions, opts: map<string, Value>)
    requires Distinct(sel)
    modifies sel
    ensures forall n :: n in sel ==> n.children == Drawn(old(n.children), n.datum, o)
    ensures forall n :: n in sel ==> n.listener == Listener(old(n.children), old(n.listener), n.datum, opts)
    ensures forall n :: n in sel ==> n.datum == old(n.datum) && n.attrs == old(n.attrs) && n.detach == old(n.detach)
  {
    var i := 0;
    while i < |sel|
      invariant 0 <= i <= |sel|
      invariant forall k :: 0 <= k < i ==> sel[k].listener == Listener(sel[k].children, old(sel[k].listener), sel[k].datum, opts)
      invariant forall k :: i <= k < |sel| ==> sel[k].listener == old(sel[k].listener)
      invariant forall n :: n in sel ==> n.children == old(n.children) && n.datum == old(n.datum)
                                         && n.attrs == old(n.attrs) && n.detach == old(n.detach)
    {
      if !AnyIn(sel[i].children, Bud) {
        sel[i].listener := Some(BudListener(opts, sel[i].datum));
      }
      i := i + 1;
    }
    UpdateEach(sel, (b: Bound, cs: seq<Elem>) => Drawn(cs, b, o));
  }

  /** A node's bud listeners after a draw: new ones, over this call's options and
      the node's datum as the bud's group gets it, if the bud is created now; the
      old ones otherwise. */
  function Listener(cs: seq<Elem>, before: Option<BudListener>, b: Bound, opts: map<string, Value>): Option<BudListener> {
    if AnyIn(cs, Bud) then before else Some(BudListener(opts, b))
  }

  /** The bud's group keeps the datum it was created with: a node that got its bud
      while bound to `b1` and is then rebound to `b2` and redrawn still hovers with
      `b1` and with the first draw's options. */
  lemma ListenerKeepsCreationDatum(cs: seq<Elem>, l: Option<BudListener>, b1: Bound, o: DrawOptions,
                                   opts: map<string, Value>, b2: Bound, opts2: map<string, Value>)
    requires !AnyIn(cs, Bud)
    ensures Listener(Drawn(cs, b1, o), Listener(cs, l, b1, opts), b2, opts2) == Some(BudListener(opts, b1))
  {
    DrawnBudOnce(cs, b1, o);
    AnyInIffCount(Drawn(cs, b1, o), Bud);
  }

  /** Hovering the bud of a node: its group (the bud's parent, the node's first
      `.symbol`) gets the leaves, sized by the group's own datum and using the
      options the listener kept. Nothing happens on a node without a bud listener. */
  method MouseOver(n: Node, rnd: real) returns (changed: bool)
    modifies n
    ensures changed <==> old(n.listener).Some? && Resolve(old(n.listener).value.opts).Some?
    ensures changed ==> n.children == UpdateFirstIn(old(n.children), ByClass("symbol"),
              Hover(old(n.listener).value.datum, Resolve(old(n.listener).value.opts).value, rnd))
    ensures !changed ==> n.children == old(n.children)
    ensures n.datum == old(n.datum) && n.attrs == old(n.attrs) && n.detach == old(n.detach) && n.listener == old(n.listener)
  {
    if n.listener.None? || Resolve(n.listener.value.opts).None? {
      return false;
    }
    var o := Resolve(n.listener.value.opts).value;
    var d := n.listener.value.datum;
    var uses := DrawLeafUses(d, o);
    assert Elem("g", "leaves", map["transform" := Transform([Rotate(60.0 * (-1.0 + 2.0 * rnd))])], uses) == LeavesGroup(d, o, rnd);
    n.children := UpdateFirstIn(n.children, ByClass("symbol"), Hover(d, o, rnd));
    return true;
  }

  /** Moving the pointer off the bud: the leaves hide after a delay in
      [0.5, 1.5) times `hideLeavesAverageDelay`; the new subtree is the end state. */
  method MouseOut(n: Node, rnd: real) returns (delay: Option<real>)
    requires 0.0 <= rnd < 1.0
    modifies n
    ensures delay.Some? <==> old(n.listener).Some? && Resolve(old(n.listener).value.opts).Some?
    ensures delay.Some? ==>
              var o := Resolve(old(n.listener).value.opts).value;
              && delay.value == HideDelay(rnd, o.hideLeavesAverageDelay)
              && n.children == UpdateFirstIn(old(n.children), ByClass("symbol"), (g: Elem) => WithoutLeaves(g, o, delay.value))
    ensures delay.None? ==> n.children == old(n.children)
    ensures n.datum == old(n.datum) && n.attrs == old(n.attrs) && n.detach == old(n.detach) && n.listener == old(n.listener)
  {
    if n.listener.None? || Resolve(n.listener.value.opts).None? {
      return None;
    }
    var o := Resolve(n.listener.value.opts).value;
    var d := HideDelay(rnd, o.hideLeavesAverageDelay);
    n.children := UpdateFirstIn(n.children, ByClass("symbol"), (g: Elem) => WithoutLeaves(g, o, d));
    return Some(d);
  }

  /** symbol.remove(selection, args): the symbol shrinks over `exitDuration`
      (500 by default), and the node's removal is scheduled with `exitDuration` as
      its delay: it leaves the document one default duration later. */
  method Remove(sym: Symbol, sel: seq<Node>, args: map<string, Value>)
    requires Distinct(sel)
    modifies sel
    ensures forall n :: n in sel ==>
              n.children == SymbolExit.Shrunk(old(n.children), Some(NumOr(Options(sym, args), "exitDuration", 500.0)))
              && n.detach == Exiting(Some(NumOr(Options(sym, args), "exitDuration", 500.0)))
    ensures forall n :: n in sel ==> n.datum == old(n.datum) && n.attrs == old(n.attrs)
                                     && n.listener == SymbolExit.Rebound(old(n.listener), n.datum)
  {
    SymbolExit.RemoveEach(sel, Some(NumOr(Options(sym, args), "exitDuration", 500.0)));
  }
}
