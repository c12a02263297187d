/** The svg both distribution plots keep in their container: created once by
    `selectEnter(container, '.<class>').append('svg')`, with the glyph's `init`
    run on the new svg only, and sized on every draw (src/distributionplot.js,
    src/plotcomponents/distributionplot.js). */
module ChartSvg {
  import opened Wrappers
  import opened Records
  import opened Dom
  import opened Layout
  import Glyph
  import FlowerSymbol

  /** The `width`/`height` attribute: the configured number, or '100%'. */
  function SizeValue(s: Size): Value {
    if s.Fixed? then Num(s.px) else Str("100%")
  }

  function SizeAttrs(w: Size, h: Size): map<string, Value> {
    map["height" := SizeValue(h), "width" := SizeValue(w)]
  }

  /** `append('svg').attr('class', cls).call(symbol.init)`. */
  function NewSvg(cls: string, g: Glyph.Glyph): Elem {
    Glyph.Init(g, Elem("svg", cls, map[], []))
  }

  /** The container after the svg step of a draw: the svg appended if no element
      of its class is there yet, then the first svg sized. */
  function Framed(c: Elem, cls: string, g: Glyph.Glyph, w: Size, h: Size): Elem {
    FramedWith(c, cls, NewSvg(cls, g), w, h)
  }

  /** The same step for a given new svg (the function plot runs no init on it). */
  function FramedWith(c: Elem, cls: string, svg: Elem, w: Size, h: Size): Elem {
    var e := AppendIfAbsent(c, ByClass(cls), svg);
    e.(children := UpdateFirstIn(e.children, ByTag("svg"), SetAttrs(SizeAttrs(w, h))))
  }

  /** Sizing the svg changes no count of matching elements. */
  lemma SizedCount(es: seq<Elem>, w: Size, h: Size, p: Selector)
    ensures CountIn(UpdateFirstIn(es, ByTag("svg"), SetAttrs(SizeAttrs(w, h))), p) == CountIn(es, p)
  {
    SetAttrsPreserves(SizeAttrs(w, h), ByTag("svg"), p);
    UpdateFirstInCount(es, ByTag("svg"), SetAttrs(SizeAttrs(w, h)), p);
  }

  /** The new svg holds no element of its own class. */
  lemma NewSvgCount(cls: string, g: Glyph.Glyph)
    requires cls != ""
    ensures CountTree(NewSvg(cls, g), ByClass(cls)) == 1
  {
    var q := ByClass(cls);
    if g.FlowerGlyph? {
      TemplatesCount(q);
      assert NewSvg(cls, g).children == [FlowerSymbol.Template("sepal"), FlowerSymbol.Template("petal")];
    }
  }

  /** The two templates: two `defs`, and no element with a class. */
  lemma TemplatesCount(q: Selector)
    requires q == ByTag("defs") || (q.ByClass? && q.name != "")
    ensures CountIn([FlowerSymbol.Template("sepal"), FlowerSymbol.Template("petal")], q) == if q == ByTag("defs") then 2 else 0
  {
    var s, p := FlowerSymbol.Template("sepal"), FlowerSymbol.Template("petal");
    var path := Elem("path", "", map[], []);
    assert CountTree(path, q) == 0 by {
      assert CountIn(path.children, q) == 0;
    }
    assert CountIn([path, path], q) == 0 by {
      assert [path, path][1..] == [path];
      CountInSingle(path, q);
    }
    assert CountIn(s.children, q) == 0 by {
      CountInSingle(s.children[0], q);
    }
    assert CountIn(p.children, q) == 0 by {
      CountInSingle(p.children[0], q);
    }
    CountInAppend([s], p, q);
    CountInSingle(s, q);
    assert [s] + [p] == [s, p];
  }

  /** There is exactly one svg of the chart's class after a draw when there was
      none before; an existing one is never duplicated. */
  lemma FramedOnce(c: Elem, cls: string, g: Glyph.Glyph, w: Size, h: Size)
    requires cls != ""
    ensures CountIn(Framed(c, cls, g, w, h).children, ByClass(cls))
            == if HasMatch(c, ByClass(cls)) then CountIn(c.children, ByClass(cls)) else 1
  {
    var q := ByClass(cls);
    var e := AppendIfAbsent(c, q, NewSvg(cls, g));
    SizedCount(e.children, w, h, q);
    if !HasMatch(c, q) {
      AnyInIffCount(c.children, q);
      NewSvgCount(cls, g);
      CountInAppend(c.children, NewSvg(cls, g), q);
    }
  }

  /** `symbol.init` runs only with the svg's creation: the flower's two templates
      are added on the first draw into an empty container and never again. */
  lemma FramedInitOnce(c: Elem, cls: string, g: Glyph.Glyph, w: Size, h: Size)
    requires cls != ""
    ensures CountIn(Framed(c, cls, g, w, h).children, ByTag("defs"))
            == CountIn(c.children, ByTag("defs")) + (if !HasMatch(c, ByClass(cls)) && g.FlowerGlyph? then 2 else 0)
  {
    var q := ByTag("defs");
    var e := AppendIfAbsent(c, ByClass(cls), NewSvg(cls, g));
    SizedCount(e.children, w, h, q);
    if !HasMatch(c, ByClass(cls)) {
      CountInAppend(c.children, NewSvg(cls, g), q);
      if g.FlowerGlyph? {
        TemplatesCount(q);
        assert NewSvg(cls, g).children == [FlowerSymbol.Template("sepal"), FlowerSymbol.Template("petal")];
      }
    }
  }

  /** After a draw the container's first svg has the configured width and height. */
  lemma FramedSized(c: Elem, cls: string, g: Glyph.Glyph, w: Size, h: Size)
    requires AnyIn(c.children, ByTag("svg")) || !HasMatch(c, ByClass(cls))
    ensures var s := FirstIn(Framed(c, cls, g, w, h).children, ByTag("svg"));
            && s.Some? && "width" in s.value.attrs && "height" in s.value.attrs
            && s.value.attrs["width"] == SizeValue(w) && s.value.attrs["height"] == SizeValue(h)
  {
    var e := AppendIfAbsent(c, ByClass(cls), NewSvg(cls, g));
    if !HasMatch(c, ByClass(cls)) {
      AnyInConcat(c.children, [NewSvg(cls, g)], ByTag("svg"));
      assert AnyIn([NewSvg(cls, g)], ByTag("svg"));
    }
    UpdateFirstInFirst(e.children, ByTag("svg"), SetAttrs(SizeAttrs(w, h)));
  }

  const LineClass := ByClass("line")

  /** A plot's line as created: `append('path')` with class `line`, no fill, and
      the configured stroke and opacity. */
  function LineTemplate(lineColor: string, lineOpacity: real): Elem {
    Elem("path", "line", map["fill" := Str("none"), "stroke" := Str(lineColor), "opacity" := Num(lineOpacity)], [])
  }

  /** `selectEnter(group, '.line').append('path')...` followed by
      `group.select('.line')` given the attributes `a`: the line created if the
      group has none, then the first line updated. */
  function UpdateLine(group: Elem, lineColor: string, lineOpacity: real, a: map<string, Value>): Elem {
    var e := AppendIfAbsent(group, LineClass, LineTemplate(lineColor, lineOpacity));
    e.(children := UpdateFirstIn(e.children, LineClass, SetAttrs(a)))
  }

  /** The line is created only when the group has none: the update never adds a
      second one. */
  lemma UpdateLineCount(group: Elem, lineColor: string, lineOpacity: real, a: map<string, Value>)
    ensures CountIn(UpdateLine(group, lineColor, lineOpacity, a).children, LineClass)
            == if HasMatch(group, LineClass) then CountIn(group.children, LineClass) else 1
  {
    var q := LineClass;
    var e := AppendIfAbsent(group, q, LineTemplate(lineColor, lineOpacity));
    AppendIfAbsentCount(group, q, LineTemplate(lineColor, lineOpacity));
    SetAttrsPreserves(a, q, q);
    UpdateFirstInCount(e.children, q, SetAttrs(a), q);
  }

  /** After the update the first line carries every attribute given. */
  lemma UpdateLineFirst(group: Elem, lineColor: string, lineOpacity: real, a: map<string, Value>)
    ensures var l := FirstIn(UpdateLine(group, lineColor, lineOpacity, a).children, LineClass);
            l.Some? && forall k :: k in a ==> k in l.value.attrs && l.value.attrs[k] == a[k]
  {
    var q := LineClass;
    var t := LineTemplate(lineColor, lineOpacity);
    var e := AppendIfAbsent(group, q, t);
    if !HasMatch(group, q) {
      AnyInConcat(group.children, [t], q);
      assert AnyIn([t], q);
    }
    UpdateFirstInFirst(e.children, q, SetAttrs(a));
  }
}
