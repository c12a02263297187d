/** The arrow glyph (src/arrowsymbol.js): a rotated arrow path that fades in. */
module ArrowSymbol {
  import opened Wrappers
  import opened Records
  import opened Dom
  import SymbolExit

  /** A defined arrow glyph and the properties it merges into every call. */
  datatype Symbol = Symbol(props: map<string, Value>)

  /** `defineSymbol(svg, symbolProps)` as declared: the properties are the second
      argument, and an `undefined` one spreads as no properties at all. Every
      caller passes a single object, which lands in `svg` and is ignored. */
  function Define(svg: map<string, Value>, symbolProps: Option<map<string, Value>>): (s: Symbol)
    ensures symbolProps.None? ==> s.props == map[]
    ensures symbolProps.Some? ==> s.props == symbolProps.value
  {
    Symbol(if symbolProps.Some? then symbolProps.value else map[])
  }

  /** `defineSymbol(symbolProps)`, the one-argument signature the callers use. */
  function DefineIntended(symbolProps: map<string, Value>): (s: Symbol)
    ensures s.props == symbolProps
  {
    Symbol(symbolProps)
  }

  /** The options draw and remove see: `{...symbolProps, ...args}`, the call's arguments winning. */
  function Options(sym: Symbol, args: map<string, Value>): (o: map<string, Value>)
    ensures o.Keys == sym.props.Keys + args.Keys
    ensures forall k :: k in args ==> o[k] == args[k]
    ensures forall k :: k in sym.props && k !in args ==> o[k] == sym.props[k]
  {
    Spread(sym.props, args)
  }

  /** The path `m 0 0 l L 0 l -l -l m l l l -l l`: a shaft of length L and two
      head strokes of size l. */
  function ArrowPath(len: real, head: real): seq<PathCmd> {
    [MoveBy(0.0, 0.0), LineBy(len, 0.0), LineBy(-head, -head), MoveBy(head, head), LineBy(-head, head)]
  }

  datatype Point = Point(x: real, y: real)
  datatype Segment = Segment(from: Point, to: Point)

  /** The strokes a relative path draws, starting from `at`. */
  function Trace(at: Point, cmds: seq<PathCmd>): seq<Segment>
    decreases |cmds|
  {
    if cmds == [] then []
    else
      match cmds[0]
      case MoveBy(dx, dy) => Trace(Point(at.x + dx, at.y + dy), cmds[1..])
      case LineBy(dx, dy) =>
        var to := Point(at.x + dx, at.y + dy);
        [Segment(at, to)] + Trace(to, cmds[1..])
  }

  /** The arrow is a shaft from the origin to the tip (L, 0) and two head strokes
      from the tip to (L - l, -l) and (L - l, l). */
  lemma ArrowStrokes(len: real, head: real)
    ensures Trace(Point(0.0, 0.0), ArrowPath(len, head))
         == [Segment(Point(0.0, 0.0), Point(len, 0.0)),
             Segment(Point(len, 0.0), Point(len - head, -head)),
             Segment(Point(len, 0.0), Point(len - head, head))]
  {
    var p := ArrowPath(len, head);
    var o, tip := Point(0.0, 0.0), Point(len, 0.0);
    assert Trace(Point(len - head, -head), p[3..]) == Trace(tip, p[4..]);
    assert Trace(tip, p[4..]) == [Segment(tip, Point(len - head, head))] + Trace(Point(len - head, head), p[5..]);
    assert p[5..] == [];
    assert Trace(tip, p[2..]) == [Segment(tip, Point(len - head, -head))] + Trace(Point(len - head, -head), p[3..]);
    assert Trace(o, p) == Trace(o, p[1..]);
    assert Trace(o, p[1..]) == [Segment(o, tip)] + Trace(tip, p[2..]);
  }

  /** `d.angle || 0`: the datum's angle, or 0 when it has none (0 stays 0). */
  function Rotation(b: Bound): (deg: real)
    ensures NumField(b, "angle").None? ==> deg == 0.0
    ensures NumField(b, "angle").Some? ==> deg == NumField(b, "angle").value
  {
    match NumField(b, "angle")
    case None => 0.0
    case Some(a) => a
  }

  function ArrowElem(b: Bound, opts: map<string, Value>): Elem {
    var len := NumOr(opts, "arrowLength", 15.0);
    var head := NumOr(opts, "arrowHeadlength", 3.0);
    Elem("path", "", map[
      "transform" := Transform([Rotate(Rotation(b))]),
      "d" := PathData(ArrowPath(len, head)),
      "opacity" := Animate(Num(0.0), Some(Num(1.0)), NumOpt(opts, "enterDuration"))], [])
  }

  /** The arrow is rotated by the datum's angle, has length `arrowLength` (15 by
      default) and head `arrowHeadlength` (3 by default), and fades from opacity 0
      to 1 over `enterDuration`. */
  lemma ArrowElemSpec(b: Bound, opts: map<string, Value>)
    ensures var a := ArrowElem(b, opts);
      && a.attrs["transform"] == Transform([Rotate(Rotation(b))])
      && ("arrowLength" !in opts && "arrowHeadlength" !in opts ==> a.attrs["d"] == PathData(ArrowPath(15.0, 3.0)))
      && Initial(a.attrs["opacity"]) == Some(Num(0.0))
      && Settled(a.attrs["opacity"]) == Some(Num(1.0))
      && a.attrs["opacity"].duration == NumOpt(opts, "enterDuration")
  {
  }

  /** drawSymbol on one node: a new `g.symbol` holding the arrow is appended. */
  function Drawn(b: Bound, children: seq<Elem>, opts: map<string, Value>): seq<Elem> {
    children + [Elem("g", "symbol", map[], [ArrowElem(b, opts)])]
  }

  /** There is no absence check: every draw adds one more `.symbol` group and keeps what was there. */
  lemma DrawAddsSymbol(b: Bound, children: seq<Elem>, opts: map<string, Value>)
    ensures Drawn(b, children, opts)[..|children|] == children
    ensures CountIn(Drawn(b, children, opts), ByClass("symbol")) == CountIn(children, ByClass("symbol")) + 1
  {
    var a := ArrowElem(b, opts);
    var g := Elem("g", "symbol", map[], [a]);
    CountInAppend(children, g, ByClass("symbol"));
    CountInSingle(a, ByClass("symbol"));
    assert CountIn(a.children, ByClass("symbol")) == 0;
  }

  /** The call `arrowSymbol({enterDuration: 500, exitDuration: 500})` as written:
      both durations are lost, so an exit the caller gives no duration has none. */
  lemma OneArgumentCallLosesDurations(args: map<string, Value>)
    requires "exitDuration" !in args && "enterDuration" !in args
    ensures var o := Options(Define(map["enterDuration" := Num(500.0), "exitDuration" := Num(500.0)], None), args);
            NumOpt(o, "exitDuration") == None && NumOpt(o, "enterDuration") == None
  {
  }

  /** With the intended signature the same call keeps both 500 ms durations. */
  lemma IntendedCallKeepsDurations(args: map<string, Value>)
    requires "exitDuration" !in args && "enterDuration" !in args
    ensures var o := Options(DefineIntended(map["enterDuration" := Num(500.0), "exitDuration" := Num(500.0)]), args);
            NumOpt(o, "exitDuration") == Some(500.0) && NumOpt(o, "enterDuration") == Some(500.0)
  {
  }

  /** symbol.draw(selection, args). */
  method Draw(sym: Symbol, sel: seq<Node>, args: map<string, Value>)
    requires Distinct(sel)
    modifies sel
    ensures forall n :: n in sel ==> n.children == Drawn(n.datum, old(n.children), Options(sym, args))
    ensures forall n :: n in sel ==> n.datum == old(n.datum) && n.attrs == old(n.attrs)
                                     && n.detach == old(n.detach) && n.listener == old(n.listener)
  {
    var opts := Options(sym, args);
    UpdateEach(sel, (b: Bound, cs: seq<Elem>) => Drawn(b, cs, opts));
  }

  /** symbol.remove(selection, args): the symbol is scaled to 0 over
      `exitDuration`, and the node's removal is scheduled with `exitDuration` as
      its delay: it leaves the document one default duration later, or never when
      `exitDuration` is `undefined` (see `SymbolExit.ExitRemovedAt`). */
  method Remove(sym: Symbol, sel: seq<Node>, args: map<string, Value>)
    requires Distinct(sel)
    modifies sel
    ensures forall n :: n in sel ==>
              n.children == SymbolExit.Shrunk(old(n.children), NumOpt(Options(sym, args), "exitDuration"))
              && n.detach == Exiting(NumOpt(Options(sym, args), "exitDuration"))
    ensures forall n :: n in sel ==> n.datum == old(n.datum) && n.attrs == old(n.attrs)
                                     && n.listener == SymbolExit.Rebound(old(n.listener), n.datum)
  {
    SymbolExit.RemoveEach(sel, NumOpt(Options(sym, args), "exitDuration"));
  }
}
