/** The values the charts pass around: attribute and option values, data records,
    and the datum bound to a scene node. */
module Records {
  import opened Wrappers
  import opened Utils

  /** One step of an SVG `transform` attribute. `ScaleRoot(k, a)` is `scale(k * sqrt(a))`,
      kept unevaluated because square roots are not modelled. */
  datatype TransformOp = Rotate(deg: real) | Translate(dx: real, dy: real) | Scale(k: real) | ScaleRoot(k: real, area: real)

  /** One command of a relative SVG path (`m dx dy` / `l dx dy`). */
  datatype PathCmd = MoveBy(dx: real, dy: real) | LineBy(dx: real, dy: real)

  /** An attribute, style or option value. A transition on an attribute is kept as
      a `Tween`: the value it starts from (none: whatever the attribute holds when
      the transition starts), the value it ends at (none when the end value is
      `undefined`, which removes the attribute), its delay and its duration (none
      when the duration is `undefined`). `Reals` is an array of numbers bound to
      an element with `.datum(...)`; `Curve` is the path a `d3.line()` draws,
      given by the pixel points it passes through; `Polylines` is the path of a
      `d3.line()` with `.defined(...)`, one polyline per run of defined points. */
  datatype Value =
    | Num(n: real)
    | Str(s: string)
    | Transform(ops: seq<TransformOp>)
    | PathData(cmds: seq<PathCmd>)
    | ScaleOf(domain: Option<Interval>)
    | Reals(vs: seq<real>)
    | Curve(pts: seq<(real, real)>)
    | Polylines(lines: seq<seq<(real, real)>>)
    | Tween(from: Option<Value>, to: Option<Value>, delay: real, duration: Option<real>)
    | Other

  /** A data record `{id, x, y, ...rest}`; `rest` holds every other field. */
  datatype Datum = Datum(id: string, x: real, y: real, rest: map<string, Value>)

  /** What a scene node is bound to: a bare number (distribution samples) or a record. */
  datatype Bound = Sample(v: real) | Record(d: Datum)

  /** A numeric field of the bound datum; a bare number has no fields (`undefined`). */
  function NumField(b: Bound, name: string): (r: Option<real>)
    ensures b.Sample? ==> r.None?
    ensures b.Record? && name == "x" ==> r == Some(b.d.x)
    ensures b.Record? && name == "y" ==> r == Some(b.d.y)
  {
    match b
    case Sample(_) => None
    case Record(d) =>
      if name == "x" then Some(d.x)
      else if name == "y" then Some(d.y)
      else if name in d.rest && d.rest[name].Num? then Some(d.rest[name].n)
      else None
  }

  /** A numeric option from an option object; anything else reads as `undefined`. */
  function NumOpt(props: map<string, Value>, name: string): Option<real> {
    if name in props && props[name].Num? then Some(props[name].n) else None
  }

  /** A numeric option with a destructuring default (`{name = dflt}`): the default
      applies when the option is `undefined`, and a number given wins. A value
      given that is not a number reads as the default here, where JavaScript
      would keep it. */
  function NumOr(props: map<string, Value>, name: string, dflt: real): (r: real)
    ensures name !in props ==> r == dflt
    ensures name in props && props[name].Num? ==> r == props[name].n
  {
    if name in props && props[name].Num? then props[name].n else dflt
  }

  /** Object spread `{...a, ...b}`: every key of either, the right-hand object winning. */
  function Spread(a: map<string, Value>, b: map<string, Value>): (r: map<string, Value>)
    ensures r.Keys == a.Keys + b.Keys
    ensures forall k :: k in b ==> r[k] == b[k]
    ensures forall k :: k in a && k !in b ==> r[k] == a[k]
  {
    a + b
  }

  /** The value an attribute shows once every transition on it has finished. */
  function Settled(v: Value): Option<Value> {
    if v.Tween? then v.to else Some(v)
  }

  /** The value an attribute shows when its transition starts. */
  function Initial(v: Value): Option<Value> {
    if v.Tween? then v.from else Some(v)
  }

  /** A transition from a known value to a known value. */
  function Animate(from: Value, to: Option<Value>, duration: Option<real>): (r: Value)
    ensures Initial(r) == Some(from) && Settled(r) == to
  {
    Tween(Some(from), to, 0.0, duration)
  }

  /** An optional number as an attribute value; `undefined` removes the attribute. */
  function NumValue(n: Option<real>): (r: Option<Value>)
    ensures n.None? <==> r.None?
    ensures n.Some? ==> r == Some(Num(n.value))
  {
    match n
    case None => None
    case Some(v) => Some(Num(v))
  }
}
