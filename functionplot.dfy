/** The function plot (src/functionplot.js): a function sampled over the x domain,
    or data given as x and y arrays, drawn as one line; the x domain from the
    configuration, a default or the data, and the y domain from the configuration,
    partly from the configuration and partly from the data, or wholly from the
    data. */
module FunctionPlot {
  import opened Wrappers
  import opened Utils
  import opened Records
  import opened Dom
  import opened Layout
  import opened Extent
  import ChartSvg
  import DistributionPlot

  /** What the chart is bound to: a function, or `{x, y}` arrays of data. */
  datatype FuncOrData = Func(f: real -> real) | Data(x: seq<real>, y: seq<real>)

  /** A line point `{x, y}`; a coordinate is none where it is `undefined`. */
  datatype LinePoint = LinePoint(x: Option<real>, y: Option<real>)

  /** The `yDomain` option: `[min, max]`, either of which may be `undefined`. */
  datatype YBounds = YBounds(lo: Option<real>, hi: Option<real>)

  function ElemAt(s: seq<real>, i: nat): Option<real> {
    if i < |s| then Some(s[i]) else None
  }

  /** What is left of an array once its first element is consumed. */
  function Tail(s: seq<real>): seq<real> {
    if s == [] then [] else s[1..]
  }

  /** `_.zipWith(x, y, (x, y) => ({x, y}))`: as long as the longer array, the
      shorter one padded with `undefined` (see `ZipWithAt`). */
  function ZipWith(x: seq<real>, y: seq<real>): (r: seq<LinePoint>)
    ensures |r| == if |x| >= |y| then |x| else |y|
    decreases |x| + |y|
  {
    if x == [] && y == [] then []
    else [LinePoint(ElemAt(x, 0), ElemAt(y, 0))] + ZipWith(Tail(x), Tail(y))
  }

  /** Point i of the zip pairs x[i] with y[i], `undefined` past an array's end. */
  lemma {:induction false} ZipWithAt(x: seq<real>, y: seq<real>, i: nat)
    requires i < |ZipWith(x, y)|
    ensures ZipWith(x, y)[i] == LinePoint(ElemAt(x, i), ElemAt(y, i))
    decreases i
  {
    if i > 0 {
      ZipWithAt(Tail(x), Tail(y), i - 1);
      assert ElemAt(Tail(x), i - 1) == ElemAt(x, i);
      assert ElemAt(Tail(y), i - 1) == ElemAt(y, i);
    }
  }

  /** The defined x coordinates of a list of points, in order. */
  function XsOf(pts: seq<LinePoint>): (r: seq<real>)
    ensures |r| <= |pts|
  {
    if pts == [] then []
    else (if pts[0].x.Some? then [pts[0].x.value] else []) + XsOf(pts[1..])
  }

  /** The defined y coordinates of a list of points, in order: what `d3.extent`,
      `d3.min` and `d3.max` look at. */
  function YsOf(pts: seq<LinePoint>): (r: seq<real>)
    ensures |r| <= |pts|
  {
    if pts == [] then []
    else (if pts[0].y.Some? then [pts[0].y.value] else []) + YsOf(pts[1..])
  }

  lemma XsOfCons(p: LinePoint, rest: seq<LinePoint>)
    ensures XsOf([p] + rest) == (if p.x.Some? then [p.x.value] else []) + XsOf(rest)
  {
    assert ([p] + rest)[1..] == rest;
  }

  lemma YsOfCons(p: LinePoint, rest: seq<LinePoint>)
    ensures YsOf([p] + rest) == (if p.y.Some? then [p.y.value] else []) + YsOf(rest)
  {
    assert ([p] + rest)[1..] == rest;
  }

  /** Zipping loses no x: the defined x coordinates of the points are the x array. */
  lemma {:induction false} ZipUnzipX(x: seq<real>, y: seq<real>)
    ensures XsOf(ZipWith(x, y)) == x
    decreases |x| + |y|
  {
    if !(x == [] && y == []) {
      ZipUnzipX(Tail(x), Tail(y));
      XsOfCons(LinePoint(ElemAt(x, 0), ElemAt(y, 0)), ZipWith(Tail(x), Tail(y)));
      if x != [] {
        assert x == [x[0]] + Tail(x);
      }
    }
  }

  /** Zipping loses no y: the defined y coordinates of the points are the y array. */
  lemma {:induction false} ZipUnzipY(x: seq<real>, y: seq<real>)
    ensures YsOf(ZipWith(x, y)) == y
    decreases |x| + |y|
  {
    if !(x == [] && y == []) {
      ZipUnzipY(Tail(x), Tail(y));
      YsOfCons(LinePoint(ElemAt(x, 0), ElemAt(y, 0)), ZipWith(Tail(x), Tail(y)));
      if y != [] {
        assert y == [y[0]] + Tail(y);
      }
    }
  }

  /** The x domain of a function: `xDomain`, or [0, 10]. */
  function FuncDomain(xDomain: Option<Interval>): Interval {
    if xDomain.Some? then xDomain.value else Interval(0.0, 10.0)
  }

  /** The x domain: for a function `xDomain` or [0, 10]; for data `xDomain` or the
      extent of x, none (not a number) for no x. */
  function XDomain(xDomain: Option<Interval>, input: FuncOrData): (r: Option<Interval>)
    ensures xDomain.Some? ==> r == xDomain
    ensures input.Func? && xDomain.None? ==> r == Some(Interval(0.0, 10.0))
    ensures input.Data? && xDomain.None? ==> (r.None? <==> input.x == [])
  {
    match input
    case Func(_) => Some(FuncDomain(xDomain))
    case Data(x, _) => if xDomain.Some? then xDomain else ExtentOf(x)
  }

  /** Without a given domain every x of the data lies in the x domain. */
  lemma XDomainCovers(x: seq<real>, y: seq<real>)
    requires x != []
    ensures var d := XDomain(None, Data(x, y)).value;
            forall i :: 0 <= i < |x| ==> d.lo <= x[i] <= d.hi
  {
  }

  /** The points of a function: `(p, f(p))` for every grid point p of its domain. */
  function FuncPoints(f: real -> real, grid: seq<real>): (r: seq<LinePoint>)
    ensures |r| == |grid|
    ensures forall i :: 0 <= i < |r| ==> r[i] == LinePoint(Some(grid[i]), Some(f(grid[i])))
  {
    if grid == [] then []
    else [LinePoint(Some(grid[0]), Some(f(grid[0])))] + FuncPoints(f, grid[1..])
  }

  /** `linePoints`: for a function its values over `linspace(...xDomain, nLinePoints)`;
      for data the zipped arrays. */
  function LinePoints(input: FuncOrData, xDomain: Option<Interval>, nLinePoints: nat,
                      linspace: (real, real, nat) -> seq<real>): seq<LinePoint>
  {
    match input
    case Func(f) => FuncPoints(f, linspace(FuncDomain(xDomain).lo, FuncDomain(xDomain).hi, nLinePoints))
    case Data(x, y) => ZipWith(x, y)
  }

  /** Every point of a function lies on its graph, at a grid x. */
  lemma FuncPointsOnGraph(f: real -> real, xDomain: Option<Interval>, nLinePoints: nat,
                          linspace: (real, real, nat) -> seq<real>, p: LinePoint)
    requires p in LinePoints(Func(f), xDomain, nLinePoints, linspace)
    ensures p.x.Some? && p.y == Some(f(p.x.value))
    ensures p.x.value in linspace(FuncDomain(xDomain).lo, FuncDomain(xDomain).hi, nLinePoints)
  {
  }

  /** The y domain is found from the data when `yDomain` is absent or both its
      bounds are `undefined`. */
  predicate Auto(yDomain: Option<YBounds>) {
    yDomain.None? || (yDomain.value.lo.None? && yDomain.value.hi.None?)
  }

  /** The y domain: from the data, the extent of the ys widened by `factor` and made
      nice; or the given bounds, a missing upper bound put `factor` times the
      distance to the largest y above the lower bound, a missing lower bound
      `factor` times the distance to the smallest y below the upper one. None (not
      a number) when a bound has to come from the data and there are no ys. */
  function YDomain(yDomain: Option<YBounds>, ys: seq<real>, factor: real, nice: Interval -> Interval): (r: Option<Interval>)
    ensures Auto(yDomain) ==> (r.None? <==> ys == [])
    ensures !Auto(yDomain) && yDomain.value.lo.Some? && yDomain.value.hi.Some? ==>
              r == Some(Interval(yDomain.value.lo.value, yDomain.value.hi.value))
    ensures !Auto(yDomain) && (yDomain.value.lo.None? || yDomain.value.hi.None?) ==> (r.None? <==> ys == [])
    ensures !Auto(yDomain) && yDomain.value.lo.Some? && r.Some? ==> r.value.lo == yDomain.value.lo.value
    ensures !Auto(yDomain) && yDomain.value.hi.Some? && r.Some? ==> r.value.hi == yDomain.value.hi.value
  {
    if Auto(yDomain) then
      match ExtentOf(ys)
      case None => None
      case Some(e) => Some(nice(ExtendDomainByFactor(e, factor)))
    else
      var b := yDomain.value;
      if b.lo.Some? && b.hi.Some? then Some(Interval(b.lo.value, b.hi.value))
      else if b.hi.None? then
        match MaxOf(ys)
        case None => None
        case Some(m) => Some(Interval(b.lo.value, b.lo.value + (m - b.lo.value) * factor))
      else
        match MinOf(ys)
        case None => None
        case Some(m) => Some(Interval(b.hi.value + (m - b.hi.value) * factor, b.hi.value))
  }

  lemma MulAtLeast(a: real, f: real)
    requires a >= 0.0 && f >= 1.0
    ensures a * f >= a
  {
    assert a * f - a == a * (f - 1.0);
    MulNonNegative(a, f - 1.0);
  }

  /** Found from the data with a factor of at least one, the y domain covers every y. */
  lemma YAutoCovers(yDomain: Option<YBounds>, ys: seq<real>, factor: real, nice: Interval -> Interval)
    requires Auto(yDomain) && ys != [] && factor >= 1.0 && DistributionPlot.Widens(nice)
    ensures var d := YDomain(yDomain, ys, factor, nice).value;
            forall i :: 0 <= i < |ys| ==> d.lo <= ys[i] <= d.hi
  {
    var e := ExtentOf(ys).value;
    ExtendDomainByFactorContains(e, factor);
    assert Contains(nice(ExtendDomainByFactor(e, factor)), ExtendDomainByFactor(e, factor));
  }

  /** With only the lower bound given, and no y below it, the found upper bound is
      above every y: the largest y lies `factor` times closer to the lower bound. */
  lemma YUpperCovers(lo: real, ys: seq<real>, factor: real, nice: Interval -> Interval)
    requires ys != [] && factor >= 1.0
    requires forall i :: 0 <= i < |ys| ==> lo <= ys[i]
    ensures var d := YDomain(Some(YBounds(Some(lo), None)), ys, factor, nice).value;
            && d.lo == lo
            && forall i :: 0 <= i < |ys| ==> ys[i] <= d.hi
  {
    var m := MaxOf(ys).value;
    assert lo <= m by {
      assert ys[0] <= m;
    }
    MulAtLeast(m - lo, factor);
    var w := (m - lo) * factor;
    assert w >= m - lo;
    var d := YDomain(Some(YBounds(Some(lo), None)), ys, factor, nice);
    assert d.value.hi == lo + w;
    forall i | 0 <= i < |ys| ensures ys[i] <= d.value.hi {
      assert ys[i] <= m;
    }
  }

  /** With only the upper bound given, and no y above it, the found lower bound is
      below every y. */
  lemma YLowerCovers(hi: real, ys: seq<real>, factor: real, nice: Interval -> Interval)
    requires ys != [] && factor >= 1.0
    requires forall i :: 0 <= i < |ys| ==> ys[i] <= hi
    ensures var d := YDomain(Some(YBounds(None, Some(hi))), ys, factor, nice).value;
            && d.hi == hi
            && forall i :: 0 <= i < |ys| ==> d.lo <= ys[i]
  {
    var m := MinOf(ys).value;
    assert m <= hi by {
      assert m <= ys[0];
    }
    MulAtLeast(hi - m, factor);
    var w := (hi - m) * factor;
    assert w >= hi - m;
    assert (m - hi) * factor == -w;
    var d := YDomain(Some(YBounds(None, Some(hi))), ys, factor, nice);
    assert d.value.lo == hi + (m - hi) * factor;
    assert d.value.lo == hi - w;
    forall i | 0 <= i < |ys| ensures d.value.lo <= ys[i] {
      assert m <= ys[i];
    }
  }

  /** The points `d3.line()` draws through, in order: those whose y is defined
      (`.defined(d => isFinite(d.y))`). */
  function Drawn(pts: seq<LinePoint>): (r: seq<LinePoint>)
    ensures |r| <= |pts|
    ensures forall i :: 0 <= i < |r| ==> r[i].y.Some?
  {
    if pts == [] then []
    else (if pts[0].y.Some? then [pts[0]] else []) + Drawn(pts[1..])
  }

  /** A point is drawn exactly when it is one of the points and its y is defined. */
  lemma {:induction false} DrawnMembers(pts: seq<LinePoint>, p: LinePoint)
    ensures p in Drawn(pts) <==> p in pts && p.y.Some?
  {
    if pts != [] {
      DrawnMembers(pts[1..], p);
      assert pts == [pts[0]] + pts[1..];
    }
  }

  /** Every drawn point has an x, so none of them lands at a not-a-number x. */
  predicate AllX(pts: seq<LinePoint>) {
    forall i :: 0 <= i < |pts| ==> pts[i].x.Some?
  }

  /** A function's line passes through all its points, in grid order. */
  lemma {:induction false} FuncPointsDrawn(f: real -> real, grid: seq<real>)
    ensures Drawn(FuncPoints(f, grid)) == FuncPoints(f, grid)
    ensures AllX(Drawn(FuncPoints(f, grid)))
  {
    if grid != [] {
      FuncPointsDrawn(f, grid[1..]);
      assert FuncPoints(f, grid)[1..] == FuncPoints(f, grid[1..]);
    }
  }

  /** The line through data passes through every point whose y is given, and when
      there are at least as many x as y every one of them has its x. */
  lemma {:induction false} ZipDrawn(x: seq<real>, y: seq<real>)
    requires |y| <= |x|
    ensures AllX(Drawn(ZipWith(x, y)))
    ensures |Drawn(ZipWith(x, y))| == |y|
    decreases |x|
  {
    if x != [] {
      ZipDrawn(Tail(x), Tail(y));
      var r := ZipWith(x, y);
      var d := Drawn(r[1..]);
      assert r[0] == LinePoint(Some(x[0]), ElemAt(y, 0)) && r[1..] == ZipWith(Tail(x), Tail(y));
      if y != [] {
        assert Drawn(r) == [r[0]] + d;
        assert forall i :: 0 < i < |[r[0]] + d| ==> ([r[0]] + d)[i] == d[i - 1];
      } else {
        assert Drawn(r) == d;
      }
    }
  }

  /** The runs of consecutive points whose y is defined, in order: the line ends
      its segment at every point that `.defined(...)` rejects, and starts a new one
      at the next point it accepts. */
  function Runs(pts: seq<LinePoint>): (r: seq<seq<LinePoint>>)
    ensures pts != [] && pts[0].y.Some? ==> r != [] && r[0] != [] && r[0][0] == pts[0]
    decreases |pts|
  {
    if pts == [] then []
    else
      var rest := Runs(pts[1..]);
      if pts[0].y.None? then rest
      else if |pts| > 1 && pts[1].y.Some? then [[pts[0]] + rest[0]] + rest[1..]
      else [[pts[0]]] + rest
  }

  /** The sequences of a sequence, joined end to end. */
  function Flatten<T>(s: seq<seq<T>>): seq<T>
    decreases |s|
  {
    if s == [] then [] else s[0] + Flatten(s[1..])
  }

  /** Every run has a point, and every point of a run is a point of the line with a y. */
  lemma {:induction false} RunsShape(pts: seq<LinePoint>)
    ensures forall k :: 0 <= k < |Runs(pts)| ==> Runs(pts)[k] != []
    ensures forall k, i :: 0 <= k < |Runs(pts)| && 0 <= i < |Runs(pts)[k]| ==> Runs(pts)[k][i] in pts && Runs(pts)[k][i].y.Some?
    decreases |pts|
  {
    if pts != [] {
      var rest := Runs(pts[1..]);
      RunsShape(pts[1..]);
      forall q | q in pts[1..] ensures q in pts {}
    }
  }

  /** Joined end to end, the runs are exactly the drawn points. */
  lemma {:induction false} RunsFlatten(pts: seq<LinePoint>)
    ensures Flatten(Runs(pts)) == Drawn(pts)
    decreases |pts|
  {
    if pts != [] {
      RunsFlatten(pts[1..]);
      var rest := Runs(pts[1..]);
      if pts[0].y.Some? {
        if |pts| > 1 && pts[1].y.Some? {
          var r := [[pts[0]] + rest[0]] + rest[1..];
          assert r[1..] == rest[1..];
          assert Flatten(rest) == rest[0] + Flatten(rest[1..]);
          assert Flatten(r) == [pts[0]] + Flatten(rest);
        } else {
          var r := [[pts[0]]] + rest;
          assert r[1..] == rest;
        }
      }
    }
  }

  /** Points that all have a y make one unbroken run. */
  lemma {:induction false} UnbrokenOneRun(pts: seq<LinePoint>)
    requires pts != [] && forall i :: 0 <= i < |pts| ==> pts[i].y.Some?
    ensures Runs(pts) == [pts]
    decreases |pts|
  {
    var a, rest := pts[0], pts[1..];
    assert pts == [a] + rest;
    RunsCons(a, rest);
    if rest != [] {
      assert pts[1] == rest[0];
      UnbrokenOneRun(rest);
      assert Runs(rest)[0] == rest && Runs(rest)[1..] == [];
    } else {
      assert Runs(rest) == [];
      assert [a] == pts;
    }
  }

  /** The runs of a line with one more point in front. */
  lemma RunsCons(a: LinePoint, rest: seq<LinePoint>)
    ensures a.y.None? ==> Runs([a] + rest) == Runs(rest)
    ensures a.y.Some? && rest != [] && rest[0].y.Some? ==> Runs([a] + rest) == [[a] + Runs(rest)[0]] + Runs(rest)[1..]
    ensures a.y.Some? && (rest == [] || rest[0].y.None?) ==> Runs([a] + rest) == [[a]] + Runs(rest)
  {
    assert ([a] + rest)[1..] == rest;
  }

  /** A point without a y breaks the line: the runs are those before it followed
      by those after it. With UnbrokenOneRun this fixes the runs of every line. */
  lemma {:induction false} GapSplits(before: seq<LinePoint>, gap: LinePoint, after: seq<LinePoint>)
    requires gap.y.None?
    ensures Runs(before + [gap] + after) == Runs(before) + Runs(after)
    decreases |before|
  {
    if before == [] {
      assert before + [gap] + after == [gap] + after;
      RunsCons(gap, after);
    } else {
      var a, b := before[0], before[1..];
      var tail := b + [gap] + after;
      assert before == [a] + b && before + [gap] + after == [a] + tail;
      GapSplits(b, gap, after);
      RunsCons(a, b);
      RunsCons(a, tail);
      var rb, ra := Runs(b), Runs(after);
      assert tail[0] == (if b == [] then gap else b[0]);
      if a.y.Some? && b != [] && b[0].y.Some? {
        assert (rb + ra)[0] == rb[0] && (rb + ra)[1..] == rb[1..] + ra;
      }
    }
  }

  /** A function's line is one unbroken polyline through all its points. */
  lemma FuncPointsOneRun(f: real -> real, grid: seq<real>)
    requires grid != []
    ensures Runs(FuncPoints(f, grid)) == [FuncPoints(f, grid)]
  {
    UnbrokenOneRun(FuncPoints(f, grid));
  }

  /** Every point of every run has an x when every drawn point does, and a y. */
  lemma RunsHaveX(pts: seq<LinePoint>)
    requires AllX(Drawn(pts))
    ensures forall k, i :: 0 <= k < |Runs(pts)| && 0 <= i < |Runs(pts)[k]| ==> Runs(pts)[k][i].x.Some? && Runs(pts)[k][i].y.Some?
  {
    var r: seq<seq<LinePoint>> := Runs(pts);
    RunsShape(pts);
    forall k: int, i: int | 0 <= k < |r| && 0 <= i < |r[k]| ensures r[k][i].x.Some? && r[k][i].y.Some? {
      DrawnMembers(pts, r[k][i]);
    }
  }

  /** The path through the drawn points in pixels, one polyline per run of points
      with a y; not a number when a domain is not one or a drawn point has no x. */
  function LineValue(xs: LinearScale, ys: LinearScale, pts: seq<LinePoint>): (v: Value)
    ensures v.Polylines? <==> xs.domain.Some? && ys.domain.Some? && AllX(Drawn(pts))
    ensures v.Polylines? ==>
              && |v.lines| == |Runs(pts)|
              && forall k :: 0 <= k < |v.lines| ==>
                   && |v.lines[k]| == |Runs(pts)[k]|
                   && forall i :: 0 <= i < |v.lines[k]| ==>
                        && Runs(pts)[k][i].x.Some? && Runs(pts)[k][i].y.Some?
                        && Some(v.lines[k][i].0) == Apply(xs, Runs(pts)[k][i].x.value)
                        && Some(v.lines[k][i].1) == Apply(ys, Runs(pts)[k][i].y.value)
  {
    var r: seq<seq<LinePoint>> := Runs(pts);
    if xs.domain.Some? && ys.domain.Some? && AllX(Drawn(pts)) then
      RunsHaveX(pts);
      Polylines(seq(|r|, k requires 0 <= k < |r| =>
        seq(|r[k]|, i requires 0 <= i < |r[k]| => (Apply(xs, r[k][i].x.value).value, Apply(ys, r[k][i].y.value).value))))
    else Other
  }

  /** `.transition().duration(updateDuration)` setting stroke, opacity and the curve. */
  function LineAttrs(pts: seq<LinePoint>, lineColor: string, lineOpacity: real, updateDuration: real,
                     xs: LinearScale, ys: LinearScale): map<string, Value>
  {
    map["stroke" := Tween(None, Some(Str(lineColor)), 0.0, Some(updateDuration)),
        "opacity" := Tween(None, Some(Num(lineOpacity)), 0.0, Some(updateDuration)),
        "d" := Tween(None, Some(LineValue(xs, ys, pts)), 0.0, Some(updateDuration))]
  }

  const GroupClass := "functionPlotGroup"

  /** `g.functionPlotGroup` as it is created, holding the two axis groups. */
  function PlotGroup(): (g: Elem)
    ensures CountIn(g.children, ChartSvg.LineClass) == 0
  {
    var x, y := Elem("g", "xAxis", map[], []), Elem("g", "yAxis", map[], []);
    assert CountIn([y], ChartSvg.LineClass) == 0 by {
      assert [y][1..] == [];
    }
    Elem("g", GroupClass, map[], [x, y])
  }

  /** The plot group after a draw: moved inside the margins, and its line created
      if absent and moved to the new curve; the line is drawn whatever the opacity. */
  function DrawGroup(group: Elem, m: Margin, pts: seq<LinePoint>, lineColor: string, lineOpacity: real,
                     updateDuration: real, xs: LinearScale, ys: LinearScale): Elem
    requires m.Sides?
  {
    var moved := group.(attrs := group.attrs["transform" := Transform([Translate(m.left, m.top)])]);
    ChartSvg.UpdateLine(moved, lineColor, lineOpacity, LineAttrs(pts, lineColor, lineOpacity, updateDuration, xs, ys))
  }

  /** After every draw the group holds exactly one line, if it held at most one. */
  lemma DrawGroupCount(group: Elem, m: Margin, pts: seq<LinePoint>, lineColor: string, lineOpacity: real,
                       updateDuration: real, xs: LinearScale, ys: LinearScale)
    requires m.Sides? && CountIn(group.children, ChartSvg.LineClass) <= 1
    ensures CountIn(DrawGroup(group, m, pts, lineColor, lineOpacity, updateDuration, xs, ys).children, ChartSvg.LineClass) == 1
  {
    var moved := group.(attrs := group.attrs["transform" := Transform([Translate(m.left, m.top)])]);
    var a := LineAttrs(pts, lineColor, lineOpacity, updateDuration, xs, ys);
    ChartSvg.UpdateLineCount(moved, lineColor, lineOpacity, a);
    AnyInIffCount(group.children, ChartSvg.LineClass);
  }

  /** After a draw the group sits at the margins and its line moves to the curve
      through the drawn points. */
  lemma DrawGroupLine(group: Elem, m: Margin, pts: seq<LinePoint>, lineColor: string, lineOpacity: real,
                      updateDuration: real, xs: LinearScale, ys: LinearScale)
    requires m.Sides?
    ensures var g := DrawGroup(group, m, pts, lineColor, lineOpacity, updateDuration, xs, ys);
            var l := FirstIn(g.children, ChartSvg.LineClass);
            && g.attrs["transform"] == Transform([Translate(m.left, m.top)])
            && l.Some?
            && "d" in l.value.attrs && l.value.attrs["d"] == Tween(None, Some(LineValue(xs, ys, pts)), 0.0, Some(updateDuration))
            && "stroke" in l.value.attrs && l.value.attrs["stroke"] == Tween(None, Some(Str(lineColor)), 0.0, Some(updateDuration))
            && "opacity" in l.value.attrs && l.value.attrs["opacity"] == Tween(None, Some(Num(lineOpacity)), 0.0, Some(updateDuration))
  {
    var moved := group.(attrs := group.attrs["transform" := Transform([Translate(m.left, m.top)])]);
    var a := LineAttrs(pts, lineColor, lineOpacity, updateDuration, xs, ys);
    ChartSvg.UpdateLineFirst(moved, lineColor, lineOpacity, a);
    assert "d" in a && "stroke" in a && "opacity" in a;
    assert AppendIfAbsent(moved, ChartSvg.LineClass, ChartSvg.LineTemplate(lineColor, lineOpacity)).attrs == moved.attrs;
  }

  const SvgClass := "distributionPlotSvg"

  /** `append('svg').attr('class', 'distributionPlotSvg')`: no init runs on it. */
  function NewSvg(): Elem {
    Elem("svg", SvgClass, map[], [])
  }

  /** The plot function and the chart it draws into: the configuration it closes
      over, the margin and scales it reassigns on every call, the container with
      its svg, and the plot group holding the line. */
  class Plot {
    const width: Size
    const height: Size
    const updateDuration: real
    const xDomain: Option<Interval>
    const yDomain: Option<YBounds>
    const lineColor: string
    const lineOpacity: real
    const nLinePoints: nat
    const factor: real
    var margin: Margin
    var xScale: LinearScale
    var yScale: LinearScale
    var container: Elem
    var group: Elem

    ghost predicate Valid()
      reads this
    {
      CountIn(group.children, ChartSvg.LineClass) <= 1
    }

    /** `functionPlot(config)` with the chart's container: the defaults are a
        10/10/25/25 margin, a 500 ms update, a blue line of opacity 1 through 100
        points, and a y extent widened by 1.5. */
    constructor(width: Size, height: Size, margin: Option<Margin>, updateDuration: Option<real>,
                xDomain: Option<Interval>, yDomain: Option<YBounds>, lineColor: Option<string>,
                lineOpacity: Option<real>, nLinePoints: Option<nat>, factor: Option<real>, container: Elem)
      ensures Valid()
      ensures this.width == width && this.height == height
      ensures this.margin == (if margin.Some? then margin.value else Sides(10.0, 10.0, 25.0, 25.0))
      ensures this.updateDuration == (if updateDuration.Some? then updateDuration.value else 500.0)
      ensures this.xDomain == xDomain && this.yDomain == yDomain
      ensures this.lineColor == (if lineColor.Some? then lineColor.value else "blue")
      ensures this.lineOpacity == (if lineOpacity.Some? then lineOpacity.value else 1.0)
      ensures this.nLinePoints == (if nLinePoints.Some? then nLinePoints.value else 100)
      ensures this.factor == (if factor.Some? then factor.value else 1.5)
      ensures this.container == container && group == PlotGroup()
    {
      this.width, this.height := width, height;
      this.margin := if margin.Some? then margin.value else Sides(10.0, 10.0, 25.0, 25.0);
      this.updateDuration := if updateDuration.Some? then updateDuration.value else 500.0;
      this.xDomain, this.yDomain := xDomain, yDomain;
      this.lineColor := if lineColor.Some? then lineColor.value else "blue";
      this.lineOpacity := if lineOpacity.Some? then lineOpacity.value else 1.0;
      this.nLinePoints := if nLinePoints.Some? then nLinePoints.value else 100;
      this.factor := if factor.Some? then factor.value else 1.5;
      xScale := LinearScale(Some(Interval(0.0, 1.0)), Interval(0.0, 1.0));
      yScale := LinearScale(Some(Interval(0.0, 1.0)), Interval(0.0, 1.0));
      this.container, group := container, PlotGroup();
    }

    /** `plot(selection)` on the chart bound to `input`: the svg framed, the margin
        normalised, the scales fitted to the line points, the group moved inside
        the margins and the line moved to the curve through the points. */
    method Draw(input: FuncOrData, nice: Interval -> Interval, linspace: (real, real, nat) -> seq<real>,
                clientWidth: real, clientHeight: real)
      requires Valid()
      modifies this
      ensures Valid()
      ensures container == ChartSvg.FramedWith(old(container), SvgClass, NewSvg(), width, height)
      ensures margin == Normalize(old(margin))
      ensures xScale == LinearScale(XDomain(xDomain, input), XRange(PlotWidth(width, clientWidth, margin)))
      ensures yScale == LinearScale(YDomain(yDomain, YsOf(LinePoints(input, xDomain, nLinePoints, linspace)), factor, nice),
                                    YRange(PlotHeight(height, clientHeight, margin)))
      ensures group == DrawGroup(old(group), margin, LinePoints(input, xDomain, nLinePoints, linspace),
                                 lineColor, lineOpacity, updateDuration, xScale, yScale)
      ensures CountIn(group.children, ChartSvg.LineClass) == 1
    {
      var m := Normalize(margin);
      var pts := LinePoints(input, xDomain, nLinePoints, linspace);
      var xs := LinearScale(XDomain(xDomain, input), XRange(PlotWidth(width, clientWidth, m)));
      var ys := LinearScale(YDomain(yDomain, YsOf(pts), factor, nice), YRange(PlotHeight(height, clientHeight, m)));
      DrawGroupCount(group, m, pts, lineColor, lineOpacity, updateDuration, xs, ys);
      container := ChartSvg.FramedWith(container, SvgClass, NewSvg(), width, height);
      margin, xScale, yScale := m, xs, ys;
      group := DrawGroup(group, m, pts, lineColor, lineOpacity, updateDuration, xs, ys);
    }
  }
}
