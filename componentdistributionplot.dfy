/** The distribution plot component (src/plotcomponents/distributionplot.js): the
    samples drawn with a glyph and joined by index as in the first distribution
    plot, the x domain padded around the samples, and the density drawn as one
    line over the whole x domain, through a regular grid and through every sample
    inside the domain. */
module ComponentDistributionPlot {
  import opened Wrappers
  import opened Utils
  import opened Records
  import opened Dom
  import opened Layout
  import opened Extent
  import opened Sorting
  import Glyph
  import ChartSvg
  import SampleJoin
  import DistributionPlot

  /** lodash's `_.inRange(v, a, b)`: from the smaller bound, inclusive, to the
      larger one, exclusive. */
  predicate InRange(v: real, a: real, b: real) {
    if a <= b then a <= v < b else b <= v < a
  }

  /** `samples.filter(s => _.inRange(s, ...domain))`, in order. */
  function Within(samples: seq<real>, d: Interval): (r: seq<real>)
    ensures forall v :: v in r <==> v in samples && InRange(v, d.lo, d.hi)
    ensures |r| <= |samples|
  {
    if samples == [] then []
    else (if InRange(samples[0], d.lo, d.hi) then [samples[0]] else []) + Within(samples[1..], d)
  }

  /** The x domain: `xDomain` when given, else the extent of the samples widened
      to twice its span and made nice; none (not a number) for no samples. */
  function XDomain(xDomain: Option<Interval>, samples: seq<real>, nice: Interval -> Interval): (r: Option<Interval>)
    ensures xDomain.Some? ==> r == xDomain
    ensures xDomain.None? ==> (r.None? <==> samples == [])
  {
    if xDomain.Some? then xDomain
    else
      match ExtentOf(samples)
      case None => None
      case Some(e) => Some(nice(ExtendDomainByFactor(e, 2.0)))
  }

  /** Without a given x domain there is half the samples' span free on either side
      of them. */
  lemma XDomainPadded(samples: seq<real>, nice: Interval -> Interval)
    requires DistributionPlot.Widens(nice) && samples != []
    ensures var d, e := XDomain(None, samples, nice), ExtentOf(samples);
            && d.Some? && e.Some?
            && d.value.lo <= e.value.lo - Span(e.value) / 2.0
            && e.value.hi + Span(e.value) / 2.0 <= d.value.hi
  {
    var e := ExtentOf(samples).value;
    assert Contains(nice(ExtendDomainByFactor(e, 2.0)), ExtendDomainByFactor(e, 2.0));
  }

  /** Without a given x domain, samples that are not all equal all lie in it,
      upper end excluded: the line runs through every one of them. */
  lemma SamplesInside(samples: seq<real>, nice: Interval -> Interval)
    requires DistributionPlot.Widens(nice) && samples != []
    requires ExtentOf(samples).value.lo < ExtentOf(samples).value.hi
    ensures var d := XDomain(None, samples, nice).value;
            forall i :: 0 <= i < |samples| ==> InRange(samples[i], d.lo, d.hi)
  {
    XDomainPadded(samples, nice);
  }

  /** `linePoints`: `linspace(lo, hi, nLinePoints)` and the samples inside the x
      domain, sorted together; none when the domain is not a number. */
  function LinePoints(domain: Option<Interval>, samples: seq<real>, nLinePoints: nat,
                      linspace: (real, real, nat) -> seq<real>): (r: seq<real>)
    ensures Sorted(r)
    ensures domain.None? ==> r == []
    ensures domain.Some? ==> multiset(r) == multiset(linspace(domain.value.lo, domain.value.hi, nLinePoints))
                                           + multiset(Within(samples, domain.value))
  {
    match domain
    case None => []
    case Some(d) => SortAscending(linspace(d.lo, d.hi, nLinePoints) + Within(samples, d))
  }

  /** A value is a line point exactly when it is on the grid or is a sample inside
      the domain. */
  lemma LinePointsMembers(d: Interval, samples: seq<real>, nLinePoints: nat,
                          linspace: (real, real, nat) -> seq<real>, v: real)
    ensures v in LinePoints(Some(d), samples, nLinePoints, linspace)
            <==> v in linspace(d.lo, d.hi, nLinePoints) || (v in samples && InRange(v, d.lo, d.hi))
  {
    var r := LinePoints(Some(d), samples, nLinePoints, linspace);
    var grid, inside := linspace(d.lo, d.hi, nLinePoints), Within(samples, d);
    assert v in r <==> v in multiset(r);
    assert v in multiset(grid + inside) <==> v in grid + inside;
    assert multiset(grid + inside) == multiset(grid) + multiset(inside);
  }

  /** There are as many line points as grid points and samples inside the domain. */
  lemma LinePointsCount(d: Interval, samples: seq<real>, nLinePoints: nat, linspace: (real, real, nat) -> seq<real>)
    ensures |LinePoints(Some(d), samples, nLinePoints, linspace)|
            == |linspace(d.lo, d.hi, nLinePoints)| + |Within(samples, d)|
  {
    var r := LinePoints(Some(d), samples, nLinePoints, linspace);
    assert |multiset(r)| == |r|;
    var grid, inside := linspace(d.lo, d.hi, nLinePoints), Within(samples, d);
    assert |multiset(grid + inside)| == |grid + inside|;
    assert multiset(grid + inside) == multiset(grid) + multiset(inside);
  }

  /** The y domain: `yDomain` when given, else from 0 to one and a half times the
      largest density over the line points (not made nice); none (not a number)
      without line points. */
  function YDomain(yDomain: Option<Interval>, linePoints: seq<real>, pdf: real -> real): (r: Option<Interval>)
    ensures yDomain.Some? ==> r == yDomain
    ensures yDomain.None? ==> (r.None? <==> linePoints == [])
    ensures yDomain.None? && r.Some? ==>
              && r.value.lo == 0.0
              && (forall i :: 0 <= i < |linePoints| ==> 1.5 * pdf(linePoints[i]) <= r.value.hi)
              && (exists i :: 0 <= i < |linePoints| && r.value.hi == 1.5 * pdf(linePoints[i]))
  {
    if yDomain.Some? then yDomain
    else
      match MaxOf(DistributionPlot.Densities(pdf, linePoints))
      case None => None
      case Some(m) => Some(Interval(0.0, m * 1.5))
  }

  /** The curve `d3.line()` draws through the line points: `(xScale(x),
      yScale(pdf(x)))` for each; not a number when a domain is not one. */
  function LineValue(xs: LinearScale, ys: LinearScale, pdf: real -> real, pts: seq<real>): (v: Value)
    ensures xs.domain.Some? && ys.domain.Some? ==>
              && v.Curve? && |v.pts| == |pts|
              && forall i :: 0 <= i < |pts| ==>
                   Some(v.pts[i].0) == Apply(xs, pts[i]) && Some(v.pts[i].1) == Apply(ys, pdf(pts[i]))
  {
    if xs.domain.Some? && ys.domain.Some? then
      Curve(seq(|pts|, i requires 0 <= i < |pts| => (Apply(xs, pts[i]).value, Apply(ys, pdf(pts[i])).value)))
    else Other
  }

  /** `.datum(linePoints).transition().duration(updateDuration)` setting stroke,
      opacity and the curve; the bound datum is kept under d3's `__data__`. */
  function LineAttrs(pts: seq<real>, lineColor: string, lineOpacity: real, updateDuration: real,
                     xs: LinearScale, ys: LinearScale, pdf: real -> real): map<string, Value>
  {
    map["__data__" := Reals(pts),
        "stroke" := Tween(None, Some(Str(lineColor)), 0.0, Some(updateDuration)),
        "opacity" := Tween(None, Some(Num(lineOpacity)), 0.0, Some(updateDuration)),
        "d" := Tween(None, Some(LineValue(xs, ys, pdf, pts)), 0.0, Some(updateDuration))]
  }

  /** The plot group after the line step: with a positive opacity the line is
      created if absent and then bound and moved to the new curve; otherwise the
      first line is removed. */
  function DrawLine(group: Elem, pts: seq<real>, lineColor: string, lineOpacity: real, updateDuration: real,
                    xs: LinearScale, ys: LinearScale, pdf: real -> real): Elem
  {
    if lineOpacity > 0.0 then
      ChartSvg.UpdateLine(group, lineColor, lineOpacity, LineAttrs(pts, lineColor, lineOpacity, updateDuration, xs, ys, pdf))
    else
      group.(children := RemoveFirstIn(group.children, ChartSvg.LineClass))
  }

  /** The plot group holds at most one line, and after a draw exactly one when the
      opacity is positive and none otherwise. */
  lemma LineCount(group: Elem, pts: seq<real>, lineColor: string, lineOpacity: real, updateDuration: real,
                  xs: LinearScale, ys: LinearScale, pdf: real -> real)
    requires CountIn(group.children, ChartSvg.LineClass) <= 1
    ensures CountIn(DrawLine(group, pts, lineColor, lineOpacity, updateDuration, xs, ys, pdf).children, ChartSvg.LineClass)
            == if lineOpacity > 0.0 then 1 else 0
  {
    var q := ChartSvg.LineClass;
    AnyInIffCount(group.children, q);
    if lineOpacity > 0.0 {
      ChartSvg.UpdateLineCount(group, lineColor, lineOpacity, LineAttrs(pts, lineColor, lineOpacity, updateDuration, xs, ys, pdf));
    } else if AnyIn(group.children, q) {
      RemoveFirstInCount(group.children, q);
    } else {
      RemoveNone(group.children, q);
    }
  }

  /** Removing from a forest without a match changes nothing. */
  lemma {:induction false} RemoveNone(es: seq<Elem>, q: Selector)
    requires !AnyIn(es, q)
    ensures RemoveFirstIn(es, q) == es
    decreases es
  {
    if es != [] {
      RemoveNone(es[1..], q);
    }
  }

  /** After a draw with a positive opacity the line is bound to the line points
      and moving to their curve, with the configured stroke and opacity. */
  lemma LineDrawn(group: Elem, pts: seq<real>, lineColor: string, lineOpacity: real, updateDuration: real,
                  xs: LinearScale, ys: LinearScale, pdf: real -> real)
    requires lineOpacity > 0.0
    ensures var l := FirstIn(DrawLine(group, pts, lineColor, lineOpacity, updateDuration, xs, ys, pdf).children, ChartSvg.LineClass);
            && l.Some?
            && "__data__" in l.value.attrs && l.value.attrs["__data__"] == Reals(pts)
            && "d" in l.value.attrs && l.value.attrs["d"] == Tween(None, Some(LineValue(xs, ys, pdf, pts)), 0.0, Some(updateDuration))
            && "stroke" in l.value.attrs && l.value.attrs["stroke"] == Tween(None, Some(Str(lineColor)), 0.0, Some(updateDuration))
            && "opacity" in l.value.attrs && l.value.attrs["opacity"] == Tween(None, Some(Num(lineOpacity)), 0.0, Some(updateDuration))
  {
    ChartSvg.UpdateLineFirst(group, lineColor, lineOpacity, LineAttrs(pts, lineColor, lineOpacity, updateDuration, xs, ys, pdf));
  }

  /** The plot group as the model starts it: `g.distributionPlotGroup`, without
      a line. */
  function PlotGroup(): (g: Elem)
    ensures CountIn(g.children, ChartSvg.LineClass) == 0
  {
    Elem("g", "distributionPlotGroup", map[], [])
  }

  /** The plot function and the chart it draws into: the configuration it closes
      over, the margin and scales it reassigns on every call (`plot.xScale` and
      `plot.yScale` expose the scales), the container with its svg, the plot
      group holding the line, and the `.point` nodes. */
  class Plot {
    const width: Size
    const height: Size
    const glyph: Glyph.Glyph
    const updateDuration: real
    const xDomain: Option<Interval>
    const yDomain: Option<Interval>
    const lineColor: string
    const lineOpacity: real
    const nLinePoints: nat
    const drawSamples: bool
    const nSamples: nat
    var margin: Margin
    var xScale: LinearScale
    var yScale: LinearScale
    var container: Elem
    var group: Elem
    var points: seq<Node>
    var exiting: seq<Node>

    ghost predicate Valid()
      reads this
    {
      Distinct(points) && |points| <= nSamples && CountIn(group.children, ChartSvg.LineClass) <= 1
    }

    /** `distributionPlot(config)` with the chart's container: the defaults are a
        10/10/35/45 margin, a 500 ms update, a blue line of opacity 0.3 through
        100 grid points, samples drawn, the point glyph of radius 2, and 100
        samples a draw. */
    constructor(width: Size, height: Size, margin: Option<Margin>, updateDuration: Option<real>,
                xDomain: Option<Interval>, yDomain: Option<Interval>, lineColor: Option<string>,
                lineOpacity: Option<real>, nLinePoints: Option<nat>, drawSamples: Option<bool>,
                glyph: Option<Glyph.Glyph>, nSamples: Option<nat>, container: Elem)
      ensures Valid()
      ensures this.width == width && this.height == height
      ensures this.margin == (if margin.Some? then margin.value else Sides(10.0, 10.0, 35.0, 45.0))
      ensures this.updateDuration == (if updateDuration.Some? then updateDuration.value else 500.0)
      ensures this.xDomain == xDomain && this.yDomain == yDomain
      ensures this.lineColor == (if lineColor.Some? then lineColor.value else "blue")
      ensures this.lineOpacity == (if lineOpacity.Some? then lineOpacity.value else 0.3)
      ensures this.nLinePoints == (if nLinePoints.Some? then nLinePoints.value else 100)
      ensures this.drawSamples == (if drawSamples.Some? then drawSamples.value else true)
      ensures this.glyph == (if glyph.Some? then glyph.value else DistributionPlot.DefaultGlyph())
      ensures this.nSamples == (if nSamples.Some? then nSamples.value else 100)
      ensures this.container == container && group == PlotGroup() && points == [] && exiting == []
    {
      this.width, this.height := width, height;
      this.margin := if margin.Some? then margin.value else Sides(10.0, 10.0, 35.0, 45.0);
      this.updateDuration := if updateDuration.Some? then updateDuration.value else 500.0;
      this.xDomain, this.yDomain := xDomain, yDomain;
      this.lineColor := if lineColor.Some? then lineColor.value else "blue";
      this.lineOpacity := if lineOpacity.Some? then lineOpacity.value else 0.3;
      this.nLinePoints := if nLinePoints.Some? then nLinePoints.value else 100;
      this.drawSamples := if drawSamples.Some? then drawSamples.value else true;
      this.glyph := if glyph.Some? then glyph.value else DistributionPlot.DefaultGlyph();
      this.nSamples := if nSamples.Some? then nSamples.value else 100;
      xScale := LinearScale(Some(Interval(0.0, 1.0)), Interval(0.0, 1.0));
      yScale := LinearScale(Some(Interval(0.0, 1.0)), Interval(0.0, 1.0));
      this.container, group, points, exiting := container, PlotGroup(), [], [];
    }

    /** `plot(selection)` on the chart, for the `draws` taken from the
        distribution: the svg framed, the margin normalised, the samples sorted,
        the scales fitted, the points joined to the samples when `drawSamples`
        is set, and the line drawn or removed. */
    method Draw(draws: seq<real>, pdf: real -> real, nice: Interval -> Interval,
                linspace: (real, real, nat) -> seq<real>, clientWidth: real, clientHeight: real)
      requires Valid() && |draws| == nSamples
      modifies this, points
      ensures Valid()
      ensures container == ChartSvg.Framed(old(container), DistributionPlot.SvgClass, glyph, width, height)
      ensures margin == Normalize(old(margin))
      ensures xScale == LinearScale(XDomain(xDomain, SortAscending(draws), nice),
                                    XRange(PlotWidth(width, clientWidth, margin)))
      ensures yScale == LinearScale(YDomain(yDomain, LinePoints(xScale.domain, SortAscending(draws), nLinePoints, linspace), pdf),
                                    YRange(PlotHeight(height, clientHeight, margin)))
      ensures group == DrawLine(old(group), LinePoints(xScale.domain, SortAscending(draws), nLinePoints, linspace),
                                lineColor, lineOpacity, updateDuration, xScale, yScale, pdf)
      ensures CountIn(group.children, ChartSvg.LineClass) == if lineOpacity > 0.0 then 1 else 0
      ensures !drawSamples ==> points == old(points) && exiting == old(exiting) && States(points) == old(States(points))
      ensures drawSamples ==>
                SampleJoin.Outcome(old(points), old(States(points)), SortAscending(draws), glyph,
                                   DistributionPlot.DrawArgs(xScale, yScale, updateDuration), xScale, yScale, pdf, updateDuration,
                                   points, States(points), exiting, States(exiting))
      ensures drawSamples ==> |points| == nSamples && exiting == []
    {
      var samples := SortAscending(draws);
      SortedLength(draws);
      Fit(samples, pdf, nice, linspace, clientWidth, clientHeight);
      DrawPoints(samples, pdf);
    }

    /** The svg framed, the margin and scales fitted (the x domain to the samples,
        the y domain to the densities over the line points), and the line drawn
        or removed. The line is independent of the points, so it is drawn here,
        before them. */
    method Fit(samples: seq<real>, pdf: real -> real, nice: Interval -> Interval,
               linspace: (real, real, nat) -> seq<real>, clientWidth: real, clientHeight: real)
      requires Valid()
      modifies this
      ensures Valid()
      ensures container == ChartSvg.Framed(old(container), DistributionPlot.SvgClass, glyph, width, height)
      ensures margin == Normalize(old(margin))
      ensures xScale == LinearScale(XDomain(xDomain, samples, nice), XRange(PlotWidth(width, clientWidth, margin)))
      ensures yScale == LinearScale(YDomain(yDomain, LinePoints(xScale.domain, samples, nLinePoints, linspace), pdf),
                                    YRange(PlotHeight(height, clientHeight, margin)))
      ensures group == DrawLine(old(group), LinePoints(xScale.domain, samples, nLinePoints, linspace),
                                lineColor, lineOpacity, updateDuration, xScale, yScale, pdf)
      ensures CountIn(group.children, ChartSvg.LineClass) == if lineOpacity > 0.0 then 1 else 0
      ensures points == old(points) && exiting == old(exiting) && States(points) == old(States(points))
    {
      var c := ChartSvg.Framed(container, DistributionPlot.SvgClass, glyph, width, height);
      var m := Normalize(margin);
      var xs := LinearScale(XDomain(xDomain, samples, nice), XRange(PlotWidth(width, clientWidth, m)));
      var linePoints := LinePoints(xs.domain, samples, nLinePoints, linspace);
      var ys := LinearScale(YDomain(yDomain, linePoints, pdf), YRange(PlotHeight(height, clientHeight, m)));
      ghost var st := States(points);
      container, margin, xScale, yScale := c, m, xs, ys;
      assert States(points) == st;
      DrawLineStep(linePoints, pdf);
    }

    /** The line through `linePoints` drawn, or removed, with the fitted scales. */
    method DrawLineStep(linePoints: seq<real>, pdf: real -> real)
      requires CountIn(group.children, ChartSvg.LineClass) <= 1
      modifies this
      ensures group == DrawLine(old(group), linePoints, lineColor, lineOpacity, updateDuration, xScale, yScale, pdf)
      ensures CountIn(group.children, ChartSvg.LineClass) == if lineOpacity > 0.0 then 1 else 0
      ensures container == old(container) && margin == old(margin) && xScale == old(xScale) && yScale == old(yScale)
      ensures points == old(points) && exiting == old(exiting) && States(points) == old(States(points))
    {
      LineCount(group, linePoints, lineColor, lineOpacity, updateDuration, xScale, yScale, pdf);
      group := DrawLine(group, linePoints, lineColor, lineOpacity, updateDuration, xScale, yScale, pdf);
    }

    /** With `drawSamples` the points joined to the sorted samples with the fitted
        scales; without, the points left as they are. */
    method DrawPoints(samples: seq<real>, pdf: real -> real)
      requires Valid() && |samples| == nSamples
      modifies this, points
      ensures Valid()
      ensures container == old(container) && margin == old(margin) && xScale == old(xScale) && yScale == old(yScale)
      ensures group == old(group)
      ensures !drawSamples ==> points == old(points) && exiting == old(exiting) && States(points) == old(States(points))
      ensures drawSamples ==>
                SampleJoin.Outcome(old(points), old(States(points)), samples, glyph,
                                   DistributionPlot.DrawArgs(xScale, yScale, updateDuration), xScale, yScale, pdf, updateDuration,
                                   points, States(points), exiting, States(exiting))
    {
      if !drawSamples {
        return;
      }
      ghost var before := States(points);
      var args := DistributionPlot.DrawArgs(xScale, yScale, updateDuration);
      var live, exits := SampleJoin.Join(points, samples, glyph, args, xScale, yScale, pdf, updateDuration);
      ghost var liveStates, exitStates := States(live), States(exits);
      assert SampleJoin.Outcome(old(points), before, samples, glyph, args, xScale, yScale, pdf, updateDuration,
                                live, liveStates, exits, exitStates);
      points, exiting := live, exits;
      assert States(points) == liveStates && States(exiting) == exitStates;
    }
  }
}
