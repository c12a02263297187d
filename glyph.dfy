/** The glyph plug-in interface the distribution plots call: `symbol.init(svg)`
    (optional), `symbol.draw(selection, args)` and `symbol.remove(selection, args)`,
    dispatched to the point, arrow and flower glyphs. */
module Glyph {
  import opened Wrappers
  import opened Records
  import opened Dom
  import SymbolExit
  import PointSymbol
  import ArrowSymbol
  import FlowerSymbol

  datatype Glyph =
    | PointGlyph(point: PointSymbol.Symbol)
    | ArrowGlyph(arrow: ArrowSymbol.Symbol)
    | FlowerGlyph(flower: FlowerSymbol.Symbol)

  /** `(symbol && symbol.init) || _.noop`: only the flower glyph has an init. */
  function Init(g: Glyph, svg: Elem): (r: Elem)
    ensures !g.FlowerGlyph? ==> r == svg
    ensures g.FlowerGlyph? ==> r == FlowerSymbol.Init(svg)
  {
    if g.FlowerGlyph? then FlowerSymbol.Init(svg) else svg
  }

  /** A node's subtree after `draw`. The flower glyph throws, drawing nothing,
      without both scales. */
  function DrawnChildren(g: Glyph, cs: seq<Elem>, b: Bound, args: map<string, Value>): seq<Elem> {
    match g
    case PointGlyph(s) => PointSymbol.Drawn(cs, PointSymbol.Options(s, args))
    case ArrowGlyph(s) => ArrowSymbol.Drawn(b, cs, ArrowSymbol.Options(s, args))
    case FlowerGlyph(s) =>
      var o := FlowerSymbol.Resolve(FlowerSymbol.Options(s, args));
      if o.Some? then FlowerSymbol.Drawn(cs, b, o.value) else cs
  }

  /** A node's listeners after `draw`: only the flower registers any. */
  function ListenerAfter(g: Glyph, cs: seq<Elem>, before: Option<BudListener>, b: Bound, args: map<string, Value>)
    : Option<BudListener>
  {
    if g.FlowerGlyph? && FlowerSymbol.Resolve(FlowerSymbol.Options(g.flower, args)).Some? then
      FlowerSymbol.Listener(cs, before, b, FlowerSymbol.Options(g.flower, args))
    else before
  }

  /** The duration of the exit transition: `exitDuration` as merged, 500 by default
      for the flower, `undefined` (none) otherwise. */
  function ExitDuration(g: Glyph, args: map<string, Value>): Option<real> {
    match g
    case PointGlyph(s) => NumOpt(PointSymbol.Options(s, args), "exitDuration")
    case ArrowGlyph(s) => NumOpt(ArrowSymbol.Options(s, args), "exitDuration")
    case FlowerGlyph(s) => Some(NumOr(FlowerSymbol.Options(s, args), "exitDuration", 500.0))
  }

  /** When a node the glyph removes leaves the document: a flower one default
      duration after its `exitDuration`, 750 ms by default; a point or an arrow
      without an `exitDuration` never. */
  lemma RemovalTime(g: Glyph, args: map<string, Value>)
    ensures RemovedAt(Exiting(ExitDuration(g, args))).None? ==> !g.FlowerGlyph?
    ensures g.FlowerGlyph? && "exitDuration" !in FlowerSymbol.Options(g.flower, args) ==>
              RemovedAt(Exiting(ExitDuration(g, args))) == Some(750.0)
    ensures g.PointGlyph? && "exitDuration" !in PointSymbol.Options(g.point, args) ==>
              RemovedAt(Exiting(ExitDuration(g, args))).None?
    ensures g.ArrowGlyph? && "exitDuration" !in ArrowSymbol.Options(g.arrow, args) ==>
              RemovedAt(Exiting(ExitDuration(g, args))).None?
  {
  }

  /** Only the flower glyph's draw can fail. */
  lemma DrawFails(g: Glyph, cs: seq<Elem>, b: Bound, args: map<string, Value>)
    requires g.FlowerGlyph? && !("xScale" in args && args["xScale"].ScaleOf? && "yScale" in args && args["yScale"].ScaleOf?)
    requires "xScale" !in g.flower.props && "yScale" !in g.flower.props
    ensures DrawnChildren(g, cs, b, args) == cs
  {
  }

  method Draw(g: Glyph, sel: seq<Node>, args: map<string, Value>)
    requires Distinct(sel)
    modifies sel
    ensures forall n :: n in sel ==> n.children == DrawnChildren(g, old(n.children), n.datum, args)
    ensures forall n :: n in sel ==> n.listener == ListenerAfter(g, old(n.children), old(n.listener), n.datum, args)
    ensures forall n :: n in sel ==> n.datum == old(n.datum) && n.attrs == old(n.attrs) && n.detach == old(n.detach)
  {
    match g
    case PointGlyph(s) => PointSymbol.Draw(s, sel, args);
    case ArrowGlyph(s) => ArrowSymbol.Draw(s, sel, args);
    case FlowerGlyph(s) =>
      var drawn := FlowerSymbol.Draw(s, sel, args);
  }

  method Remove(g: Glyph, sel: seq<Node>, args: map<string, Value>)
    requires Distinct(sel)
    modifies sel
    ensures forall n :: n in sel ==> n.children == SymbolExit.Shrunk(old(n.children), ExitDuration(g, args))
    ensures forall n :: n in sel ==> n.detach == Exiting(ExitDuration(g, args))
    ensures forall n :: n in sel ==> n.datum == old(n.datum) && n.attrs == old(n.attrs)
                                     && n.listener == SymbolExit.Rebound(old(n.listener), n.datum)
  {
    match g
    case PointGlyph(s) => PointSymbol.Remove(s, sel, args);
    case ArrowGlyph(s) => ArrowSymbol.Remove(s, sel, args);
    case FlowerGlyph(s) => FlowerSymbol.Remove(s, sel, args);
  }
}
