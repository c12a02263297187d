/** Plot layout shared by the distribution and function plots: the margin
    option, the svg size, the drawing area inside the margins and d3's linear
    scales from data to pixels. */
module Layout {
  import opened Wrappers
  import opened Utils

  /** The `margin` option: one number for every side, or an object of four sides. */
  datatype Margin = Uniform(all: real) | Sides(top: real, right: real, bottom: real, left: real)

  /** `if (typeof margin === 'number') margin = {top: margin, ...}`. */
  function Normalize(m: Margin): (r: Margin)
    ensures r.Sides?
    ensures m.Uniform? ==> r.top == m.all && r.right == m.all && r.bottom == m.all && r.left == m.all
    ensures m.Sides? ==> r == m
  {
    match m
    case Uniform(v) => Sides(v, v, v, v)
    case Sides(_, _, _, _) => m
  }

  /** The normalised margin stays as it is on every later call. */
  lemma NormalizeIdempotent(m: Margin)
    ensures Normalize(Normalize(m)) == Normalize(m)
  {
  }

  /** The svg's `width` or `height` attribute: the configured number, or '100%'. */
  datatype Size = Fixed(px: real) | Full

  /** The size the plot area is carved from: the configured size, or the
      container's client size when the svg fills it. */
  function Available(s: Size, client: real): real {
    if s.Fixed? then s.px else client
  }

  /** `plotWidth`: the available width minus the left and right margins. */
  function PlotWidth(w: Size, clientWidth: real, m: Margin): (r: real)
    requires m.Sides?
    ensures r + m.left + m.right == Available(w, clientWidth)
  {
    Available(w, clientWidth) - m.left - m.right
  }

  /** `plotHeight`: the available height minus the top and bottom margins. */
  function PlotHeight(h: Size, clientHeight: real, m: Margin): (r: real)
    requires m.Sides?
    ensures r + m.top + m.bottom == Available(h, clientHeight)
  {
    Available(h, clientHeight) - m.top - m.bottom
  }

  /** A d3 linear scale. The domain is none when it is not a number (the extent of
      no values). */
  datatype LinearScale = LinearScale(domain: Option<Interval>, range: Interval)

  /** `xScale.range([0, plotWidth])`. */
  function XRange(plotWidth: real): Interval {
    Interval(0.0, plotWidth)
  }

  /** `yScale.range([plotHeight, 0])`: flipped, higher values are drawn higher up. */
  function YRange(plotHeight: real): Interval {
    Interval(plotHeight, 0.0)
  }

  /** `scale(v)`: the domain mapped linearly onto the range, a degenerate domain
      mapping everything to the middle of the range as d3 does; none when the
      domain is not a number. */
  function Apply(s: LinearScale, v: real): Option<real> {
    match s.domain
    case None => None
    case Some(d) =>
      if d.hi == d.lo then Some(s.range.lo + 0.5 * (s.range.hi - s.range.lo))
      else Some(s.range.lo + (v - d.lo) / (d.hi - d.lo) * (s.range.hi - s.range.lo))
  }

  /** The ends of the domain go to the ends of the range. */
  lemma ApplyEnds(d: Interval, r: Interval)
    requires d.lo != d.hi
    ensures Apply(LinearScale(Some(d), r), d.lo) == Some(r.lo)
    ensures Apply(LinearScale(Some(d), r), d.hi) == Some(r.hi)
  {
    var k, w := d.hi - d.lo, r.hi - r.lo;
    var s := LinearScale(Some(d), r);
    var t1, t0 := (d.hi - d.lo) / k, (d.lo - d.lo) / k;
    assert t1 == 1.0 by { DivSelf(k); }
    assert t0 == 0.0 by { ZeroDiv(k); }
    assert Apply(s, d.hi).value == r.lo + t1 * w;
    assert Apply(s, d.lo).value == r.lo + t0 * w;
  }

  lemma DivSelf(x: real)
    requires x != 0.0
    ensures x / x == 1.0
  {
  }

  lemma ZeroDiv(x: real)
    requires x != 0.0
    ensures 0.0 / x == 0.0
  {
  }

  /** With the flipped y range a larger value is drawn higher (at a smaller pixel y). */
  lemma YFlipped(d: Interval, plotHeight: real, v: real, w: real)
    requires d.lo < d.hi && plotHeight > 0.0 && v < w
    ensures Apply(LinearScale(Some(d), YRange(plotHeight)), w).value < Apply(LinearScale(Some(d), YRange(plotHeight)), v).value
  {
    var t1, t2 := (v - d.lo) / (d.hi - d.lo), (w - d.lo) / (d.hi - d.lo);
    assert t1 < t2 by {
      assert t2 - t1 == (w - v) / (d.hi - d.lo);
    }
    MulLess(t1, t2, plotHeight);
  }

  /** With the x range a larger value is drawn further right. */
  lemma XIncreasing(d: Interval, plotWidth: real, v: real, w: real)
    requires d.lo < d.hi && plotWidth > 0.0 && v < w
    ensures Apply(LinearScale(Some(d), XRange(plotWidth)), v).value < Apply(LinearScale(Some(d), XRange(plotWidth)), w).value
  {
    var t1, t2 := (v - d.lo) / (d.hi - d.lo), (w - d.lo) / (d.hi - d.lo);
    assert t1 < t2 by {
      assert t2 - t1 == (w - v) / (d.hi - d.lo);
    }
    MulLess(t1, t2, plotWidth);
  }

  lemma MulLess(a: real, b: real, c: real)
    requires a < b && c > 0.0
    ensures a * c < b * c
  {
  }
}
