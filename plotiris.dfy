/** The iris denoising demo of src/plotIris.js: module-level variables hold the
    original data, the noisy data, the noise distribution and the denoised data;
    `updateData`, `updateNoise` and `updateAfterNoise` reassign them and draw five
    panels, two of which are redrawn later by timers (500 ms and 2000 ms) that read
    the variables when they fire. The iris data, the noise and the Gaussian's
    density are inputs; a panel is kept as the renders made into it. */
module PlotIris {
  import opened Wrappers
  import opened Records
  import opened Compare

  const NoiseStdDev: real := 1.3
  const XDomain: (real, real) := (10.0, 25.0)
  const YDomain: (real, real) := (-2.0, 13.0)

  // ---------------------------------------------------------------- optimalDenoise

  function Sum(xs: seq<real>): real {
    if xs == [] then 0.0 else xs[0] + Sum(xs[1..])
  }

  /** `_.mean`, which is NaN on an empty array. */
  function Mean(xs: seq<real>): Option<real> {
    if xs == [] then None else Some(Sum(xs) / |xs| as real)
  }

  /** `pNoise`: the density of the noise that would carry each datum to the sample. */
  function Weights(sample: Datum, data: seq<Datum>, pdf: real -> real): (ps: seq<real>)
    ensures |ps| == |data|
    ensures forall i :: 0 <= i < |data| ==> ps[i] == pdf(sample.x - data[i].x) * pdf(sample.y - data[i].y)
  {
    seq(|data|, i requires 0 <= i < |data| => pdf(sample.x - data[i].x) * pdf(sample.y - data[i].y))
  }

  function Xs(data: seq<Datum>): (r: seq<real>)
    ensures |r| == |data| && forall i :: 0 <= i < |data| ==> r[i] == data[i].x
  {
    seq(|data|, i requires 0 <= i < |data| => data[i].x)
  }

  function Ys(data: seq<Datum>): (r: seq<real>)
    ensures |r| == |data| && forall i :: 0 <= i < |data| ==> r[i] == data[i].y
  {
    seq(|data|, i requires 0 <= i < |data| => data[i].y)
  }

  function Weighted(vs: seq<real>, ps: seq<real>): (r: seq<real>)
    requires |vs| == |ps|
    ensures |r| == |vs| && forall i :: 0 <= i < |vs| ==> r[i] == vs[i] * ps[i]
  {
    seq(|vs|, i requires 0 <= i < |vs| => vs[i] * ps[i])
  }

  /** `optimalDenoise({noisySample, originalData, noiseDistribution})`, `pdf` being
      the noise distribution's density: the data's coordinates averaged with the
      weights `pNoise`. None stands for the NaN or infinite quotient of an empty
      data set or of weights that sum to zero. */
  function OptimalDenoise(sample: Datum, data: seq<Datum>, pdf: real -> real): (r: Option<(real, real)>)
    ensures data == [] ==> r.None?
  {
    var ps := Weights(sample, data, pdf);
    var den := Mean(ps);
    var numX := Mean(Weighted(Xs(data), ps));
    var numY := Mean(Weighted(Ys(data), ps));
    if den.None? || den.value == 0.0 || numX.None? || numY.None? then None
    else Some((numX.value / den.value, numY.value / den.value))
  }

  /** The weighted sum `Σ vs[i] * ps[i]`, term by term. */
  function Dot(vs: seq<real>, ps: seq<real>): real
    requires |vs| == |ps|
  {
    if vs == [] then 0.0 else vs[0] * ps[0] + Dot(vs[1..], ps[1..])
  }

  lemma {:induction false} SumWeighted(vs: seq<real>, ps: seq<real>)
    requires |vs| == |ps|
    ensures Sum(Weighted(vs, ps)) == Dot(vs, ps)
  {
    if vs != [] {
      var w := Weighted(vs, ps);
      assert w[1..] == Weighted(vs[1..], ps[1..]) by {
        forall i | 0 <= i < |vs| - 1 ensures w[1..][i] == Weighted(vs[1..], ps[1..])[i] {
          assert w[1..][i] == w[i + 1];
        }
      }
      SumWeighted(vs[1..], ps[1..]);
    }
  }

  /** A sum of positive weights over a non-empty sequence is positive. */
  lemma {:induction false} SumPositive(ps: seq<real>)
    requires ps != [] && forall i :: 0 <= i < |ps| ==> ps[i] > 0.0
    ensures Sum(ps) > 0.0
  {
    if |ps| > 1 {
      SumPositive(ps[1..]);
    }
  }

  /** Values of at least lo, weighted by non-negative weights, sum to at least lo
      times the total weight. */
  lemma {:induction false} DotAbove(vs: seq<real>, ps: seq<real>, lo: real)
    requires |vs| == |ps|
    requires forall i :: 0 <= i < |vs| ==> ps[i] >= 0.0 && lo <= vs[i]
    ensures lo * Sum(ps) <= Dot(vs, ps)
  {
    if vs == [] {
      ScaleZero(lo, Sum(ps));
    } else {
      DotAbove(vs[1..], ps[1..], lo);
      StepAbove(lo, vs[0], ps[0], Sum(ps[1..]), Dot(vs[1..], ps[1..]));
    }
  }

  /** Values of at most hi, weighted by non-negative weights, sum to at most hi
      times the total weight. */
  lemma {:induction false} DotBelow(vs: seq<real>, ps: seq<real>, hi: real)
    requires |vs| == |ps|
    requires forall i :: 0 <= i < |vs| ==> ps[i] >= 0.0 && vs[i] <= hi
    ensures Dot(vs, ps) <= hi * Sum(ps)
  {
    if vs == [] {
      ScaleZero(hi, Sum(ps));
    } else {
      DotBelow(vs[1..], ps[1..], hi);
      StepBelow(hi, vs[0], ps[0], Sum(ps[1..]), Dot(vs[1..], ps[1..]));
    }
  }

  lemma StepAbove(lo: real, v: real, p: real, s: real, w: real)
    requires p >= 0.0 && lo <= v && lo * s <= w
    ensures lo * (p + s) <= v * p + w
  {
    Utils.MulNonNegative(v - lo, p);
  }

  lemma StepBelow(hi: real, v: real, p: real, s: real, w: real)
    requires p >= 0.0 && v <= hi && w <= hi * s
    ensures v * p + w <= hi * (p + s)
  {
    Utils.MulNonNegative(hi - v, p);
  }

  lemma ScaleZero(c: real, s: real)
    requires s == 0.0
    ensures c * s == 0.0
  {
  }

  lemma RatioAbove(a: real, b: real, lo: real)
    requires b > 0.0 && lo * b <= a
    ensures lo <= a / b
  {
  }

  lemma RatioBelow(a: real, b: real, hi: real)
    requires b > 0.0 && a <= hi * b
    ensures a / b <= hi
  {
  }

  /** Dividing both means by the count leaves their quotient unchanged. */
  lemma CancelCount(a: real, b: real, n: real)
    requires n > 0.0 && b != 0.0
    ensures b / n != 0.0 && (a / n) / (b / n) == a / b
  {
  }

  /** A weighted mean with non-negative weights of values of at least lo is at least lo. */
  lemma MeanAbove(vs: seq<real>, ps: seq<real>, lo: real)
    requires |vs| == |ps| && Sum(ps) > 0.0
    requires forall i :: 0 <= i < |vs| ==> ps[i] >= 0.0 && lo <= vs[i]
    ensures lo <= Dot(vs, ps) / Sum(ps)
  {
    RatioAbove(Dot(vs, ps), Sum(ps), lo) by {
      DotAbove(vs, ps, lo);
    }
  }

  /** A weighted mean with non-negative weights of values of at most hi is at most hi. */
  lemma MeanBelow(vs: seq<real>, ps: seq<real>, hi: real)
    requires |vs| == |ps| && Sum(ps) > 0.0
    requires forall i :: 0 <= i < |vs| ==> ps[i] >= 0.0 && vs[i] <= hi
    ensures Dot(vs, ps) / Sum(ps) <= hi
  {
    RatioBelow(Dot(vs, ps), Sum(ps), hi) by {
      DotBelow(vs, ps, hi);
    }
  }

  /** A density positive everywhere gives every datum a positive weight. */
  lemma WeightsPositive(sample: Datum, data: seq<Datum>, pdf: real -> real)
    requires forall z :: pdf(z) > 0.0
    ensures forall i :: 0 <= i < |data| ==> Weights(sample, data, pdf)[i] > 0.0
  {
    forall i | 0 <= i < |data| ensures Weights(sample, data, pdf)[i] > 0.0 {
      var p, q := pdf(sample.x - data[i].x), pdf(sample.y - data[i].y);
      assert p > 0.0 && q > 0.0;
      assert p * q > 0.0;
    }
  }

  /** With non-empty data and weights of non-zero sum, the estimate is each
      coordinate's weighted sum over the total weight: the means' common count
      cancels. */
  lemma OptimalDenoiseRatio(sample: Datum, data: seq<Datum>, pdf: real -> real)
    requires data != [] && Sum(Weights(sample, data, pdf)) != 0.0
    ensures var ps := Weights(sample, data, pdf);
            OptimalDenoise(sample, data, pdf)
              == Some((Dot(Xs(data), ps) / Sum(ps), Dot(Ys(data), ps) / Sum(ps)))
  {
    var ps := Weights(sample, data, pdf);
    var n := |data| as real;
    SumWeighted(Xs(data), ps);
    SumWeighted(Ys(data), ps);
    CancelCount(Dot(Xs(data), ps), Sum(ps), n);
    CancelCount(Dot(Ys(data), ps), Sum(ps), n);
  }

  /** With a density that is positive everywhere, the estimate for any sample exists
      and lies in every box that holds all of the data: a weighted mean of the data. */
  lemma OptimalDenoiseWithin(sample: Datum, data: seq<Datum>, pdf: real -> real,
                             xlo: real, xhi: real, ylo: real, yhi: real)
    requires data != [] && forall z :: pdf(z) > 0.0
    requires forall i :: 0 <= i < |data| ==> xlo <= data[i].x <= xhi && ylo <= data[i].y <= yhi
    ensures var r := OptimalDenoise(sample, data, pdf);
            r.Some? && xlo <= r.value.0 <= xhi && ylo <= r.value.1 <= yhi
  {
    var ps := Weights(sample, data, pdf);
    WeightsPositive(sample, data, pdf);
    SumPositive(ps);
    OptimalDenoiseRatio(sample, data, pdf);
    MeanAbove(Xs(data), ps, xlo);
    MeanBelow(Xs(data), ps, xhi);
    MeanAbove(Ys(data), ps, ylo);
    MeanBelow(Ys(data), ps, yhi);
  }

  /** The estimate the demo merges into a noisy sample, for the noise variance v
      and the density `pdf(v, z)` of the centred Gaussian of variance v. A
      non-finite estimate has no real coordinates; the sample's own stand in for
      them, a case DenoisedWithin shows is never taken. */
  function IrisEstimate(data: seq<Datum>, v: real, pdf: (real, real) -> real): Datum -> Estimate {
    (s: Datum) =>
      var e := OptimalDenoise(s, data, z => pdf(v, z));
      if e.Some? then Estimate(e.value.0, e.value.1, None) else Estimate(s.x, s.y, None)
  }

  /** Denoising keeps each sample's id and other fields and moves it into every box
      that holds all of the original data. */
  lemma DenoisedWithin(noisy: seq<Datum>, data: seq<Datum>, v: real, pdf: (real, real) -> real,
                       xlo: real, xhi: real, ylo: real, yhi: real)
    requires data != [] && forall w, z :: pdf(w, z) > 0.0
    requires forall i :: 0 <= i < |data| ==> xlo <= data[i].x <= xhi && ylo <= data[i].y <= yhi
    ensures var d := Denoised(noisy, IrisEstimate(data, v, pdf));
            && |d| == |noisy|
            && forall i :: 0 <= i < |d| ==>
                 && d[i].id == noisy[i].id && d[i].rest == noisy[i].rest
                 && xlo <= d[i].x <= xhi && ylo <= d[i].y <= yhi
  {
    var d := Denoised(noisy, IrisEstimate(data, v, pdf));
    forall i | 0 <= i < |d|
      ensures d[i].id == noisy[i].id && d[i].rest == noisy[i].rest
      ensures xlo <= d[i].x <= xhi && ylo <= d[i].y <= yhi
    {
      OptimalDenoiseWithin(noisy[i], data, z => pdf(v, z), xlo, xhi, ylo, yhi);
    }
  }

  // ---------------------------------------------------------------- compareData

  /** `compareData` as the demo calls it, on inputs that always line up. */
  function Offsets(s: seq<Datum>, t: seq<Datum>): (r: seq<Datum>)
    requires |s| <= |t|
    ensures CompareByIndex(s, t) == Ok(r)
  {
    CompareByIndex(s, t).value
  }

  /** The arrows from the data to its noisy version start at the data and are
      exactly the noise drawn. */
  lemma NoiseArrowsAreNoise(orig: seq<Datum>, noise: nat -> real, i: nat)
    requires i < |orig|
    ensures var a := Offsets(orig, Noisy(orig, noise))[i];
            && a.id == orig[i].id && a.x == orig[i].x && a.y == orig[i].y
            && a.rest["dx"] == Num(noise(2 * i)) && a.rest["dy"] == Num(noise(2 * i + 1))
  {
    var a := Offsets(orig, Noisy(orig, noise))[i];
    var n := Noisy(orig, noise)[i];
    assert orig[i].x + a.rest["dx"].n == n.x == orig[i].x + noise(2 * i);
    assert orig[i].y + a.rest["dy"].n == n.y == orig[i].y + noise(2 * i + 1);
  }

  // ---------------------------------------------------------------- the demo

  /** The containers `#plotIris_data`, `_noise`, `_noisy`, `_denoise`, `_denoised`. */
  datatype Panel = DataPanel | NoisePanel | NoisyPanel | DenoisePanel | DenoisedPanel

  /** The glyph a render draws with: flowers of an opacity, or the shared arrow plot
      (arrows of opacity 0.6). */
  datatype Glyph = Flowers(opacity: real) | Arrows

  /** `d3.select(panel).datum(data).call(scatterPlot({... symbol, updateDuration}))`. */
  datatype Render = Render(panel: Panel, glyph: Glyph, updateDuration: Option<real>, data: seq<Datum>)

  /** The module variable a timer's callback reads when it fires. */
  datatype Variable = NoisyVar | DenoisedVar

  /** A `setTimeout` callback due at time `at`, drawing a variable into a panel. */
  datatype Timer = Timer(at: real, panel: Panel, opacity: real, updateDuration: real, source: Variable)

  /** Timers in the order they fire: by due time, and by creation among equal times. */
  predicate Due(ts: seq<Timer>) {
    forall i, j :: 0 <= i < j < |ts| ==> ts[i].at <= ts[j].at
  }

  /** Where a timer due at t.at is queued: behind every timer due no later. */
  function Place(ts: seq<Timer>, t: Timer): (k: nat)
    ensures k <= |ts|
    ensures forall i :: 0 <= i < k ==> ts[i].at <= t.at
    ensures k < |ts| ==> t.at < ts[k].at
  {
    if ts == [] || t.at < ts[0].at then 0 else 1 + Place(ts[1..], t)
  }

  /** `setTimeout`: timers due at the same time fire in the order they were set. */
  function Schedule(ts: seq<Timer>, t: Timer): (r: seq<Timer>)
    requires Due(ts)
    ensures Due(r)
  {
    var k := Place(ts, t);
    var r := ts[..k] + [t] + ts[k..];
    assert forall i :: 0 <= i < |r| ==> r[i] == if i < k then ts[i] else if i == k then t else ts[i - 1];
    r
  }

  /** Two timers set one after the other for 500 and 2000 ms, behind timers that
      are all due already, fire after those and in the order they were set. */
  lemma {:induction false} ScheduleAfterDue(ts: seq<Timer>, t: real, a: Timer, b: Timer)
    requires Due(ts) && forall i :: 0 <= i < |ts| ==> ts[i].at <= t
    requires a.at == t + 500.0 && b.at == t + 2000.0
    ensures Schedule(Schedule(ts, a), b) == ts + [a, b]
  {
    assert Place(ts, a) == |ts| by { PlaceAfterAll(ts, a); }
    assert ts[..|ts|] == ts;
    assert Schedule(ts, a) == ts + [a];
    PlaceAfterAll(ts + [a], b);
    assert (ts + [a])[..|ts| + 1] == ts + [a];
  }

  lemma {:induction false} PlaceAfterAll(ts: seq<Timer>, t: Timer)
    requires forall i :: 0 <= i < |ts| ==> ts[i].at <= t.at
    ensures Place(ts, t) == |ts|
  {
    if ts != [] {
      PlaceAfterAll(ts[1..], t);
    }
  }

  /** The demo's module state; `undefined` is None. `noiseVariance` is the variance
      of the Gaussian `noiseDistribution`. */
  class Demo {
    var originalData: Option<seq<Datum>>
    var noisyData: Option<seq<Datum>>
    var noiseVariance: Option<real>
    var denoisedData: Option<seq<Datum>>
    var now: real
    var rendered: seq<Render>
    var timers: seq<Timer>

    /** The variables are set in order (data, then noise with its distribution, then
        the denoised data) and never unset, and a timer is queued only once both
        variables it may read are set. */
    ghost predicate Valid()
      reads this
    {
      && Due(timers)
      && (noisyData.Some? <==> noiseVariance.Some?)
      && (noisyData.Some? ==> originalData.Some?)
      && (denoisedData.Some? ==> noisyData.Some?)
      && (timers != [] ==> denoisedData.Some?)
    }

    /** The module as loaded: no variable set, nothing drawn. */
    constructor (t: real)
      ensures Valid() && now == t && rendered == [] && timers == []
      ensures originalData.None? && noisyData.None? && denoisedData.None? && noiseVariance.None?
    {
      originalData, noisyData, denoisedData, noiseVariance := None, None, None, None;
      now, rendered, timers := t, [], [];
    }

    /** `updateData()`: the iris data becomes the original data, drawn as flowers. */
    method UpdateData(irisData: seq<Datum>)
      requires Valid()
      modifies this
      ensures Valid() && originalData == Some(irisData)
      ensures rendered == old(rendered) + [Render(DataPanel, Flowers(0.3), None, irisData)]
      ensures noisyData == old(noisyData) && denoisedData == old(denoisedData)
      ensures noiseVariance == old(noiseVariance) && timers == old(timers) && now == old(now)
    {
      originalData := Some(irisData);
      rendered := rendered + [Render(DataPanel, Flowers(0.3), None, irisData)];
    }

    /** `updateNoise()`: store the noise distribution and the noisy data (x drawn
        before y, record by record), and draw the arrows from data to noisy data.
        The original data must be set: `undefined.map` throws. */
    method UpdateNoise(noise: nat -> real) returns (noisy: seq<Datum>, variance: real)
      requires Valid() && originalData.Some?
      modifies this
      ensures Valid()
      ensures variance == NoiseStdDev * NoiseStdDev && noiseVariance == Some(variance)
      ensures noisy == Noisy(originalData.value, noise) && noisyData == Some(noisy)
      ensures rendered == old(rendered) + [Render(NoisePanel, Arrows, None, Offsets(originalData.value, noisy))]
      ensures originalData == old(originalData) && denoisedData == old(denoisedData)
      ensures timers == old(timers) && now == old(now)
    {
      variance := NoiseStdDev * NoiseStdDev;
      noiseVariance := Some(variance);
      noisy := Noisy(originalData.value, noise);
      noisyData := Some(noisy);
      rendered := rendered + [Render(NoisePanel, Arrows, None, Offsets(originalData.value, noisy))];
    }

    /** `updateAfterNoise()` at time t: denoise the stored noisy data under the
        stored noise distribution, draw the data, arrows and noisy data at once,
        and queue the switches of the noisy panel to the noisy data 500 ms later
        and of the denoised panel to the denoised data 2000 ms later. The noisy
        data must be set: `undefined.map` throws. */
    method UpdateAfterNoise(t: real, pdf: (real, real) -> real)
      requires Valid() && now <= t && noisyData.Some?
      modifies this
      ensures Valid() && now == t
      ensures originalData == old(originalData) && noisyData == old(noisyData) && noiseVariance == old(noiseVariance)
      ensures denoisedData == Some(Denoised(noisyData.value, IrisEstimate(originalData.value, noiseVariance.value, pdf)))
      ensures rendered == old(rendered) + [
                Render(NoisyPanel, Flowers(0.3), None, originalData.value),
                Render(DenoisePanel, Arrows, None, Offsets(noisyData.value, denoisedData.value)),
                Render(DenoisedPanel, Flowers(0.2), None, noisyData.value)]
      ensures timers == Schedule(Schedule(old(timers), Timer(t + 500.0, NoisyPanel, 0.3, 1500.0, NoisyVar)),
                                 Timer(t + 2000.0, DenoisedPanel, 0.2, 1000.0, DenoisedVar))
    {
      var denoised := Denoised(noisyData.value, IrisEstimate(originalData.value, noiseVariance.value, pdf));
      denoisedData := Some(denoised);
      now := t;
      rendered := rendered + [Render(NoisyPanel, Flowers(0.3), None, originalData.value)];
      timers := Schedule(timers, Timer(t + 500.0, NoisyPanel, 0.3, 1500.0, NoisyVar));
      rendered := rendered + [Render(DenoisePanel, Arrows, None, Offsets(noisyData.value, denoised))];
      rendered := rendered + [Render(DenoisedPanel, Flowers(0.2), None, noisyData.value)];
      timers := Schedule(timers, Timer(t + 2000.0, DenoisedPanel, 0.2, 1000.0, DenoisedVar));
    }

    /** The render a timer makes: the variable it reads, as it is when it fires. */
    function TimerRender(tm: Timer): Render
      requires denoisedData.Some? && noisyData.Some?
      reads this
    {
      Render(tm.panel, Flowers(tm.opacity), Some(tm.updateDuration),
             if tm.source == NoisyVar then noisyData.value else denoisedData.value)
    }

    /** The event loop runs the earliest queued timer, no earlier than it is due. */
    method FireNext()
      requires Valid() && timers != []
      modifies this
      ensures Valid()
      ensures rendered == old(rendered) + [old(TimerRender(timers[0]))]
      ensures timers == old(timers[1..])
      ensures now == if old(now) < old(timers[0].at) then old(timers[0].at) else old(now)
      ensures originalData == old(originalData) && noisyData == old(noisyData)
      ensures denoisedData == old(denoisedData) && noiseVariance == old(noiseVariance)
    {
      var tm := timers[0];
      rendered := rendered + [TimerRender(tm)];
      timers := timers[1..];
      if now < tm.at {
        now := tm.at;
      }
    }

    /** `updateAfterData()`: updateNoise, then updateAfterNoise on what it stored. */
    method UpdateAfterData(t: real, noise: nat -> real, pdf: (real, real) -> real)
      requires Valid() && now <= t && originalData.Some?
      modifies this
      ensures Valid() && now == t && originalData == old(originalData)
      ensures noisyData == Some(Noisy(originalData.value, noise))
      ensures noiseVariance == Some(NoiseStdDev * NoiseStdDev)
      ensures denoisedData == Some(Denoised(noisyData.value, IrisEstimate(originalData.value, NoiseStdDev * NoiseStdDev, pdf)))
      ensures rendered == old(rendered) + [
                Render(NoisePanel, Arrows, None, Offsets(originalData.value, noisyData.value)),
                Render(NoisyPanel, Flowers(0.3), None, originalData.value),
                Render(DenoisePanel, Arrows, None, Offsets(noisyData.value, denoisedData.value)),
                Render(DenoisedPanel, Flowers(0.2), None, noisyData.value)]
      ensures timers == Schedule(Schedule(old(timers), Timer(t + 500.0, NoisyPanel, 0.3, 1500.0, NoisyVar)),
                                 Timer(t + 2000.0, DenoisedPanel, 0.2, 1000.0, DenoisedVar))
    {
      var noisy, variance := UpdateNoise(noise);
      UpdateAfterNoise(t, pdf);
    }

    /** `updateAll()`: updateData, updateNoise and updateAfterNoise in turn. With
        every earlier timer already due, the noisy panel is switched to the noisy
        data 500 ms later and the denoised panel to the denoised data 2000 ms later. */
    method UpdateAll(t: real, irisData: seq<Datum>, noise: nat -> real, pdf: (real, real) -> real)
      requires Valid() && now <= t
      modifies this
      ensures Valid() && now == t && originalData == Some(irisData)
      ensures noisyData == Some(Noisy(irisData, noise)) && noiseVariance == Some(NoiseStdDev * NoiseStdDev)
      ensures denoisedData == Some(Denoised(noisyData.value, IrisEstimate(irisData, NoiseStdDev * NoiseStdDev, pdf)))
      ensures rendered == old(rendered) + [
                Render(DataPanel, Flowers(0.3), None, irisData),
                Render(NoisePanel, Arrows, None, Offsets(irisData, noisyData.value)),
                Render(NoisyPanel, Flowers(0.3), None, irisData),
                Render(DenoisePanel, Arrows, None, Offsets(noisyData.value, denoisedData.value)),
                Render(DenoisedPanel, Flowers(0.2), None, noisyData.value)]
      ensures (forall i :: 0 <= i < |old(timers)| ==> old(timers)[i].at <= t) ==>
                timers == old(timers) + [Timer(t + 500.0, NoisyPanel, 0.3, 1500.0, NoisyVar),
                                         Timer(t + 2000.0, DenoisedPanel, 0.2, 1000.0, DenoisedVar)]
    {
      UpdateData(irisData);
      ghost var before := timers;
      UpdateAfterData(t, noise, pdf);
      if forall i :: 0 <= i < |before| ==> before[i].at <= t {
        ScheduleAfterDue(before, t, Timer(t + 500.0, NoisyPanel, 0.3, 1500.0, NoisyVar),
                         Timer(t + 2000.0, DenoisedPanel, 0.2, 1000.0, DenoisedVar));
      }
    }
  }
}
