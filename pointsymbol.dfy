/** The point glyph (src/pointsymbol.js): a purple circle that grows in. */
module PointSymbol {
  import opened Wrappers
  import opened Records
  import opened Dom
  import SymbolExit

  /** A defined point glyph and the properties it merges into every call. */
  datatype Symbol = Symbol(props: map<string, Value>)

  /** `defineSymbol(svg, symbolProps)` as declared: the properties are the second
      argument, and an `undefined` one spreads as no properties at all. Every
      caller passes a single object, which lands in `svg` and is ignored. */
  function Define(svg: map<string, Value>, symbolProps: Option<map<string, Value>>): (s: Symbol)
    ensures symbolProps.None? ==> s.props == map[]
    ensures symbolProps.Some? ==> s.props == symbolProps.value
  {
    Symbol(if symbolProps.Some? then symbolProps.value else map[])
  }

  /** `defineSymbol(symbolProps)`, the one-argument signature the callers use and
      the flower glyph declares. */
  function DefineIntended(symbolProps: map<string, Value>): (s: Symbol)
    ensures s.props == symbolProps
  {
    Symbol(symbolProps)
  }

  /** The options draw and remove see: `{...symbolProps, ...args}`, the call's arguments winning. */
  function Options(sym: Symbol, args: map<string, Value>): (o: map<string, Value>)
    ensures o.Keys == sym.props.Keys + args.Keys
    ensures forall k :: k in args ==> o[k] == args[k]
    ensures forall k :: k in sym.props && k !in args ==> o[k] == sym.props[k]
  {
    Spread(sym.props, args)
  }

  function Circle(opts: map<string, Value>): Elem {
    var duration := NumOpt(opts, "enterDuration");
    Elem("circle", "", map[
      "r" := Animate(Num(0.0), NumValue(NumOpt(opts, "symbolRadius")), duration),
      "fill-opacity" := Animate(Num(0.0), Some(Num(1.0)), duration),
      "fill" := Str("purple")], [])
  }

  /** The circle starts at radius 0 and opacity 0 and ends at radius `symbolRadius`
      and opacity 1, both over `enterDuration`. */
  lemma CircleGrowsIn(opts: map<string, Value>)
    ensures var c := Circle(opts);
      && Initial(c.attrs["r"]) == Some(Num(0.0))
      && Settled(c.attrs["r"]) == NumValue(NumOpt(opts, "symbolRadius"))
      && Initial(c.attrs["fill-opacity"]) == Some(Num(0.0))
      && Settled(c.attrs["fill-opacity"]) == Some(Num(1.0))
      && c.attrs["r"].duration == NumOpt(opts, "enterDuration")
  {
  }

  /** drawSymbol on one node: a new `g.symbol` holding the circle is appended,
      whatever the node already holds. */
  function Drawn(children: seq<Elem>, opts: map<string, Value>): seq<Elem> {
    children + [Elem("g", "symbol", map[], [Circle(opts)])]
  }

  /** There is no absence check: each draw adds one more `.symbol` group and
      one more circle, and keeps what was there. */
  lemma DrawAddsSymbol(children: seq<Elem>, opts: map<string, Value>)
    ensures Drawn(children, opts)[..|children|] == children
    ensures CountIn(Drawn(children, opts), ByClass("symbol")) == CountIn(children, ByClass("symbol")) + 1
    ensures CountIn(Drawn(children, opts), ByTag("circle")) == CountIn(children, ByTag("circle")) + 1
  {
    var c := Circle(opts);
    var g := Elem("g", "symbol", map[], [c]);
    CountInAppend(children, g, ByClass("symbol"));
    CountInAppend(children, g, ByTag("circle"));
    CountInSingle(c, ByClass("symbol"));
    CountInSingle(c, ByTag("circle"));
    assert CountIn(c.children, ByClass("symbol")) == 0 && CountIn(c.children, ByTag("circle")) == 0;
  }

  /** The call `pointSymbol({symbolRadius: 2})` as written: the radius is lost, so
      the circle's `r` transitions to `undefined`, which removes the attribute and
      leaves the point at radius 0. */
  lemma OneArgumentCallLosesRadius(args: map<string, Value>)
    requires "symbolRadius" !in args
    ensures Settled(Circle(Options(Define(map["symbolRadius" := Num(2.0)], None), args)).attrs["r"]) == None
  {
  }

  /** With the intended signature the same call ends at radius 2. */
  lemma IntendedCallKeepsRadius(args: map<string, Value>)
    requires "symbolRadius" !in args
    ensures Settled(Circle(Options(DefineIntended(map["symbolRadius" := Num(2.0)]), args)).attrs["r"]) == Some(Num(2.0))
  {
  }

  /** symbol.draw(selection, args). */
  method Draw(sym: Symbol, sel: seq<Node>, args: map<string, Value>)
    requires Distinct(sel)
    modifies sel
    ensures forall n :: n in sel ==> n.children == Drawn(old(n.children), Options(sym, args))
    ensures forall n :: n in sel ==> n.datum == old(n.datum) && n.attrs == old(n.attrs)
                                     && n.detach == old(n.detach) && n.listener == old(n.listener)
  {
    var opts := Options(sym, args);
    UpdateEach(sel, (b: Bound, cs: seq<Elem>) => Drawn(cs, opts));
  }

  /** symbol.remove(selection, args): the symbol shrinks and fades over
      `exitDuration`, and the node's removal is scheduled with `exitDuration` as
      its delay: it leaves the document one default duration later, or never when
      `exitDuration` is `undefined` (see `SymbolExit.ExitRemovedAt`). */
  method Remove(sym: Symbol, sel: seq<Node>, args: map<string, Value>)
    requires Distinct(sel)
    modifies sel
    ensures forall n :: n in sel ==>
              n.children == SymbolExit.Shrunk(old(n.children), NumOpt(Options(sym, args), "exitDuration"))
              && n.detach == Exiting(NumOpt(Options(sym, args), "exitDuration"))
    ensures forall n :: n in sel ==> n.datum == old(n.datum) && n.attrs == old(n.attrs)
                                     && n.listener == SymbolExit.Rebound(old(n.listener), n.datum)
  {
    SymbolExit.RemoveEach(sel, NumOpt(Options(sym, args), "exitDuration"));
  }
}
