/** The distribution plot (src/distributionplot.js): samples drawn from a
    distribution, sorted, and drawn at (sample, pdf(sample)) with a glyph, the
    axes fitted to the samples unless given. */
module DistributionPlot {
  import opened Wrappers
  import opened Utils
  import opened Records
  import opened Dom
  import opened Layout
  import opened Extent
  import opened Sorting
  import Glyph
  import PointSymbol
  import ChartSvg
  import SampleJoin

  /** The default glyph, `pointSymbol({symbolRadius: 2})`, with the radius reaching
      the glyph's properties (see `PointSymbol.DefineIntended`). */
  function DefaultGlyph(): (g: Glyph.Glyph)
    ensures g.PointGlyph? && g.point.props == map["symbolRadius" := Num(2.0)]
  {
    Glyph.PointGlyph(PointSymbol.DefineIntended(map["symbolRadius" := Num(2.0)]))
  }

  /** The default glyph has no `exitDuration`, as corrected and as written: a
      point that loses its sample shrinks, but its removal never runs and it stays
      in the document. */
  lemma DefaultGlyphNeverRemoves()
    ensures RemovedAt(Exiting(Glyph.ExitDuration(DefaultGlyph(), map[]))).None?
    ensures RemovedAt(Exiting(Glyph.ExitDuration(
              Glyph.PointGlyph(PointSymbol.Define(map["symbolRadius" := Num(2.0)], None)), map[]))).None?
  {
  }

  const SvgClass := "distributionPlotSvg"

  /** The x domain: `xDomain` when given, else the extent of the samples made nice;
      none (not a number) for no samples. */
  function XDomain(xDomain: Option<Interval>, samples: seq<real>, nice: Interval -> Interval): (r: Option<Interval>)
    ensures xDomain.Some? ==> r == xDomain
    ensures xDomain.None? ==> (r.None? <==> samples == [])
  {
    if xDomain.Some? then xDomain
    else
      match ExtentOf(samples)
      case None => None
      case Some(e) => Some(nice(e))
  }

  /** The pdf at every sample. */
  function Densities(pdf: real -> real, s: seq<real>): (r: seq<real>)
    ensures |r| == |s| && forall i :: 0 <= i < |s| ==> r[i] == pdf(s[i])
  {
    seq(|s|, i requires 0 <= i < |s| => pdf(s[i]))
  }

  /** The y domain: `yDomain` when given, else [0, largest pdf over the samples]
      made nice; none (not a number) for no samples. */
  function YDomain(yDomain: Option<Interval>, samples: seq<real>, pdf: real -> real, nice: Interval -> Interval): (r: Option<Interval>)
    ensures yDomain.Some? ==> r == yDomain
    ensures yDomain.None? ==> (r.None? <==> samples == [])
  {
    if yDomain.Some? then yDomain
    else
      match MaxOf(Densities(pdf, samples))
      case None => None
      case Some(m) => Some(nice(Interval(0.0, m)))
  }

  /** d3's `nice()` only ever widens a domain, to round numbers. */
  ghost predicate Widens(nice: Interval -> Interval) {
    forall d {:trigger nice(d)} :: Contains(nice(d), d)
  }

  /** Without a given x domain every sample lies inside the x domain. */
  lemma XDomainCovers(samples: seq<real>, nice: Interval -> Interval)
    requires Widens(nice) && samples != []
    ensures var d := XDomain(None, samples, nice);
            d.Some? && forall i :: 0 <= i < |samples| ==> d.value.lo <= samples[i] <= d.value.hi
  {
    var e := ExtentOf(samples).value;
    assert Contains(nice(e), e);
  }

  /** Without a given y domain it starts at 0 and every sample's density lies at
      or below its top. */
  lemma YDomainCovers(samples: seq<real>, pdf: real -> real, nice: Interval -> Interval)
    requires Widens(nice) && samples != []
    ensures var d := YDomain(None, samples, pdf, nice);
            && d.Some? && d.value.lo <= 0.0
            && forall i :: 0 <= i < |samples| ==> pdf(samples[i]) <= d.value.hi
  {
    var ds := Densities(pdf, samples);
    var m := MaxOf(ds).value;
    assert Contains(nice(Interval(0.0, m)), Interval(0.0, m));
    forall i | 0 <= i < |samples| ensures pdf(samples[i]) <= m {
      assert ds[i] == pdf(samples[i]);
    }
  }

  /** The plot function and the chart it draws into: the configuration it closes
      over, the margin and scales it reassigns on every call, the container with
      its svg, and the `.point` nodes. `exiting` holds the nodes the last draw
      removed. */
  class Plot {
    const width: Size
    const height: Size
    const glyph: Glyph.Glyph
    const updateDuration: real
    const xDomain: Option<Interval>
    const yDomain: Option<Interval>
    const nSamples: nat
    var margin: Margin
    var xScale: LinearScale
    var yScale: LinearScale
    var container: Elem
    var points: seq<Node>
    var exiting: seq<Node>

    ghost predicate Valid()
      reads this
    {
      Distinct(points) && |points| <= nSamples
    }

    /** `distributionPlot(config)` with the chart's container: the defaults are a
        10/10/25/25 margin, the point glyph of radius 2, a 500 ms update and 100
        samples a draw; the scales start as d3's [0, 1] → [0, 1]. */
    constructor(width: Size, height: Size, margin: Option<Margin>, glyph: Option<Glyph.Glyph>,
                updateDuration: Option<real>, xDomain: Option<Interval>, yDomain: Option<Interval>,
                nSamples: Option<nat>, container: Elem)
      ensures Valid()
      ensures this.width == width && this.height == height
      ensures this.margin == (if margin.Some? then margin.value else Sides(10.0, 10.0, 25.0, 25.0))
      ensures this.glyph == (if glyph.Some? then glyph.value else DefaultGlyph())
      ensures this.updateDuration == (if updateDuration.Some? then updateDuration.value else 500.0)
      ensures this.xDomain == xDomain && this.yDomain == yDomain
      ensures this.nSamples == (if nSamples.Some? then nSamples.value else 100)
      ensures this.container == container && points == [] && exiting == []
    {
      this.width, this.height := width, height;
      this.margin := if margin.Some? then margin.value else Sides(10.0, 10.0, 25.0, 25.0);
      this.glyph := if glyph.Some? then glyph.value else DefaultGlyph();
      this.updateDuration := if updateDuration.Some? then updateDuration.value else 500.0;
      this.xDomain, this.yDomain := xDomain, yDomain;
      this.nSamples := if nSamples.Some? then nSamples.value else 100;
      xScale := LinearScale(Some(Interval(0.0, 1.0)), Interval(0.0, 1.0));
      yScale := LinearScale(Some(Interval(0.0, 1.0)), Interval(0.0, 1.0));
      this.container, points, exiting := container, [], [];
    }

    /** `plot(selection)` on the chart, for the `draws` taken from the
        distribution, one per sample asked for: the svg is created once and sized,
        the margin normalised, the samples sorted, the scales fitted, and the
        points joined to the samples by index. */
    method Draw(draws: seq<real>, pdf: real -> real, nice: Interval -> Interval, clientWidth: real, clientHeight: real)
      requires Valid() && |draws| == nSamples
      modifies this, points
      ensures Valid()
      ensures container == ChartSvg.Framed(old(container), SvgClass, glyph, width, height)
      ensures margin == Normalize(old(margin))
      ensures xScale == LinearScale(XDomain(xDomain, SortAscending(draws), nice),
                                    XRange(PlotWidth(width, clientWidth, margin)))
      ensures yScale == LinearScale(YDomain(yDomain, SortAscending(draws), pdf, nice),
                                    YRange(PlotHeight(height, clientHeight, margin)))
      ensures SampleJoin.Outcome(old(points), old(States(points)), SortAscending(draws), glyph,
                                 DrawArgs(xScale, yScale, updateDuration), xScale, yScale, pdf, updateDuration,
                                 points, States(points), exiting, States(exiting))
      ensures |points| == nSamples && exiting == []
    {
      var samples := SortAscending(draws);
      SortedLength(draws);
      Fit(samples, pdf, nice, clientWidth, clientHeight);
      JoinPoints(samples, pdf);
    }

    /** The svg framed and the margin and scales fitted to the sorted samples. */
    method Fit(samples: seq<real>, pdf: real -> real, nice: Interval -> Interval, clientWidth: real, clientHeight: real)
      modifies this
      ensures container == ChartSvg.Framed(old(container), SvgClass, glyph, width, height)
      ensures margin == Normalize(old(margin))
      ensures xScale == LinearScale(XDomain(xDomain, samples, nice), XRange(PlotWidth(width, clientWidth, margin)))
      ensures yScale == LinearScale(YDomain(yDomain, samples, pdf, nice), YRange(PlotHeight(height, clientHeight, margin)))
      ensures points == old(points) && exiting == old(exiting) && States(points) == old(States(points))
    {
      container := ChartSvg.Framed(container, SvgClass, glyph, width, height);
      margin := Normalize(margin);
      xScale := LinearScale(XDomain(xDomain, samples, nice), XRange(PlotWidth(width, clientWidth, margin)));
      yScale := LinearScale(YDomain(yDomain, samples, pdf, nice), YRange(PlotHeight(height, clientHeight, margin)));
    }

    /** The points joined to the sorted samples with the fitted scales. */
    method JoinPoints(samples: seq<real>, pdf: real -> real)
      requires Valid() && |samples| == nSamples
      modifies this, points
      ensures Valid()
      ensures container == old(container) && margin == old(margin) && xScale == old(xScale) && yScale == old(yScale)
      ensures SampleJoin.Outcome(old(points), old(States(points)), samples, glyph,
                                 DrawArgs(xScale, yScale, updateDuration), xScale, yScale, pdf, updateDuration,
                                 points, States(points), exiting, States(exiting))
    {
      ghost var before := States(points);
      var args := DrawArgs(xScale, yScale, updateDuration);
      var live, exits := SampleJoin.Join(points, samples, glyph, args, xScale, yScale, pdf, updateDuration);
      ghost var liveStates, exitStates := States(live), States(exits);
      assert SampleJoin.Outcome(old(points), before, samples, glyph, args, xScale, yScale, pdf, updateDuration,
                                live, liveStates, exits, exitStates);
      points, exiting := live, exits;
      assert States(points) == liveStates && States(exiting) == exitStates;
    }
  }

  /** `{xScale, yScale, updateDuration}`, the arguments the glyph's draw gets. */
  function DrawArgs(xs: LinearScale, ys: LinearScale, updateDuration: real): (a: map<string, Value>)
    ensures a.Keys == {"xScale", "yScale", "updateDuration"}
  {
    map["xScale" := ScaleOf(xs.domain), "yScale" := ScaleOf(ys.domain), "updateDuration" := Num(updateDuration)]
  }
}
