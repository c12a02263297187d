/** Interval arithmetic on axis domains (src/common/utils.js, src/utils.js). */
module Utils {

  /** A two-element domain array `[domain[0], domain[1]]`. Nothing forces lo <= hi. */
  datatype Interval = Interval(lo: real, hi: real)

  function Span(d: Interval): real { d.hi - d.lo }

  function Mid(d: Interval): real { (d.lo + d.hi) / 2.0 }

  predicate Contains(outer: Interval, inner: Interval) {
    outer.lo <= inner.lo && inner.hi <= outer.hi
  }

  /** extendDomainBy: widen a domain by a fixed margin on both sides. */
  function ExtendDomainBy(d: Interval, margin: real): (r: Interval)
    ensures Span(r) == Span(d) + 2.0 * margin
    ensures Mid(r) == Mid(d)
  {
    Interval(d.lo - margin, d.hi + margin)
  }

  lemma ExtendDomainByZero(d: Interval)
    ensures ExtendDomainBy(d, 0.0) == d
  {
  }

  /** Widening by m and then by -m gives back the domain. */
  lemma ExtendDomainByInverse(d: Interval, m: real)
    ensures ExtendDomainBy(ExtendDomainBy(d, m), -m) == d
  {
  }

  /** A non-negative margin widens the domain around the original one. */
  lemma ExtendDomainByContains(d: Interval, m: real)
    requires m >= 0.0
    ensures Contains(ExtendDomainBy(d, m), d)
  {
  }

  /** extendDomainByFactor: scale the span of a domain by `factor` about its midpoint. */
  function ExtendDomainByFactor(d: Interval, factor: real): (r: Interval)
    ensures Mid(r) == Mid(d)
    ensures Span(r) == Span(d) * factor
  {
    var span := d.hi - d.lo;
    Interval(d.lo - span / 2.0 * (factor - 1.0), d.hi + span / 2.0 * (factor - 1.0))
  }

  lemma ExtendDomainByFactorOne(d: Interval)
    ensures ExtendDomainByFactor(d, 1.0) == d
  {
  }

  /** For an ordered domain and a factor of at least one the widened domain covers the original. */
  lemma ExtendDomainByFactorContains(d: Interval, factor: real)
    requires d.lo <= d.hi && factor >= 1.0
    ensures Contains(ExtendDomainByFactor(d, factor), d)
  {
    MulNonNegative((d.hi - d.lo) / 2.0, factor - 1.0);
  }

  lemma MulNonNegative(a: real, b: real)
    requires a >= 0.0 && b >= 0.0
    ensures a * b >= 0.0
  {
  }

  /** Widening by f and then by g is widening by f * g. */
  lemma ExtendDomainByFactorCompose(d: Interval, f: real, g: real)
    ensures ExtendDomainByFactor(ExtendDomainByFactor(d, f), g) == ExtendDomainByFactor(d, f * g)
  {
    var r := ExtendDomainByFactor(d, f);
    var s := ExtendDomainByFactor(r, g);
    var t := ExtendDomainByFactor(d, f * g);
    assert Mid(s) == Mid(t) && Span(s) == Span(t) by {
      assert Span(s) == Span(r) * g == (Span(d) * f) * g;
    }
    IntervalFromMidSpan(s, t);
  }

  /** Midpoint and span determine a domain. */
  lemma IntervalFromMidSpan(a: Interval, b: Interval)
    requires Mid(a) == Mid(b) && Span(a) == Span(b)
    ensures a == b
  {
  }

  /** sq: the square of a number, `Math.pow(x, 2)`. */
  function Sq(x: real): (r: real)
    ensures r >= 0.0
  {
    x * x
  }

  lemma SqEven(x: real)
    ensures Sq(-x) == Sq(x)
  {
  }
}
