/** The 2-D denoising page of src/plots/plot2d.js: `computeAll` derives the noisy
    data (noise drawn from a generator reseeded with 42 on every computation) and
    the 12 × 12 denoising vector field from freshly generated banana data;
    `getOrComputeAll` memoizes it under the stable serialisation of its
    arguments; `init` skips a page whose container is missing and otherwise
    builds three subplots and draws the memoized data into them. */
module Plot2dPage {
  import opened Wrappers
  import opened Records
  import opened Utils
  import opened Compare

  const NoiseSeed: nat := 42
  const VectorFieldSize: nat := 12
  const NoiseStdDev: real := 0.7
  const Domain: (real, real) := (0.0, 12.0)

  /** The argument of computeAll. */
  datatype Settings = Settings(dataStdDev: real, noiseStdDev: real, xDomain: (real, real), yDomain: (real, real))

  /** What computeAll returns. */
  datatype Computed = Computed(originalData: seq<Datum>, noisyData: seq<Datum>, denoiseField: seq<Datum>)

  /** The computations the page calls but does not define: `random(seed, k)` is
      the k-th number `rand.random()` gives after `rand.seed(seed)`, `ppf(v, p)`
      the quantile of the centred Gaussian of variance v, `optimalDenoise(data, v,
      s)` the estimate for sample s under that noise, `linspace`, and JavaScript's
      number to string conversion. */
  datatype Sources = Sources(
    random: (nat, nat) -> real,
    ppf: (real, real) -> real,
    optimalDenoise: (seq<Datum>, real, Datum) -> Estimate,
    linspace: (real, real, nat) -> seq<real>,
    show: real -> string)

  /** `sampleNoise` after `rand.seed(42)`: the k-th call's value. */
  function SeededNoise(noiseStdDev: real, src: Sources): nat -> real {
    (k: nat) => src.ppf(Sq(noiseStdDev), src.random(NoiseSeed, k))
  }

  /** `computeAll(settings)`, `originalData` being what `generateBananaData` returns. */
  function ComputeAll(s: Settings, originalData: seq<Datum>, src: Sources): Computed {
    var noise := SeededNoise(s.noiseStdDev, src);
    var denoise := (g: Datum) => src.optimalDenoise(originalData, Sq(s.noiseStdDev), g);
    var grid := VectorGrid(s.xDomain, s.yDomain, VectorFieldSize, src.linspace, src.show);
    Computed(originalData, Noisy(originalData, noise), DenoiseField(grid, denoise))
  }

  /** The noisy data has one record per datum with the same id and every other
      field but x and y; its noise is the same on every computation, the
      generator being reseeded with 42: x gets the (2i)-th draw and y the
      (2i+1)-th. */
  lemma ComputeAllNoise(s: Settings, originalData: seq<Datum>, src: Sources, i: nat)
    requires i < |originalData|
    ensures var c := ComputeAll(s, originalData, src);
            && c.originalData == originalData
            && SameIds(originalData, c.noisyData)
            && c.noisyData[i].rest == originalData[i].rest
            && c.noisyData[i].x == originalData[i].x + src.ppf(Sq(s.noiseStdDev), src.random(NoiseSeed, 2 * i))
            && c.noisyData[i].y == originalData[i].y + src.ppf(Sq(s.noiseStdDev), src.random(NoiseSeed, 2 * i + 1))
  {
    NoisyKeeps(originalData, SeededNoise(s.noiseStdDev, src));
  }

  /** The vector field has 12 × 12 arrows, row by row along x; arrow 12i + j starts
      at the grid point (xs[i], ys[j]) and carries the id 'x'+xs[i]+'y'+ys[j]. */
  lemma ComputeAllField(s: Settings, originalData: seq<Datum>, src: Sources, i: nat, j: nat)
    requires |src.linspace(s.xDomain.0, s.xDomain.1, VectorFieldSize)| == VectorFieldSize
    requires |src.linspace(s.yDomain.0, s.yDomain.1, VectorFieldSize)| == VectorFieldSize
    requires i < VectorFieldSize && j < VectorFieldSize
    ensures var f := ComputeAll(s, originalData, src).denoiseField;
            var xs := src.linspace(s.xDomain.0, s.xDomain.1, VectorFieldSize);
            var ys := src.linspace(s.yDomain.0, s.yDomain.1, VectorFieldSize);
            && |f| == 144
            && f[12 * i + j].id == "x" + src.show(xs[i]) + "y" + src.show(ys[j])
            && f[12 * i + j].x == xs[i] && f[12 * i + j].y == ys[j]
  {
    var xs := src.linspace(s.xDomain.0, s.xDomain.1, VectorFieldSize);
    var ys := src.linspace(s.yDomain.0, s.yDomain.1, VectorFieldSize);
    GridAt(xs, ys, src.show, i, j);
    assert i * 12 + j == 12 * i + j;
  }

  // ---------------------------------------------------------------- the memo

  /** `jsonStableStringify([settings])`: keys in sorted order, so the key does not
      depend on the order the settings object was built in. */
  function StableKey(s: Settings, show: real -> string): string {
    "[{\"dataStdDev\":" + show(s.dataStdDev)
      + ",\"noiseStdDev\":" + show(s.noiseStdDev)
      + ",\"xDomain\":[" + show(s.xDomain.0) + "," + show(s.xDomain.1) + "]"
      + ",\"yDomain\":[" + show(s.yDomain.0) + "," + show(s.yDomain.1) + "]}]"
  }

  /** `_.memoize(computeAll, args => jsonStableStringify(args))`: an unbounded cache
      from serialised arguments to results, filled on a miss. */
  class Memo {
    var cache: map<string, Computed>

    constructor ()
      ensures cache == map[]
    {
      cache := map[];
    }

    /** `getOrComputeAll(settings)`. `generated` is what `generateBananaData` would
        return if it were called now; it is called only on a miss. */
    method GetOrComputeAll(s: Settings, generated: seq<Datum>, src: Sources) returns (r: Computed)
      modifies this
      ensures StableKey(s, src.show) in old(cache) ==> r == old(cache)[StableKey(s, src.show)] && cache == old(cache)
      ensures StableKey(s, src.show) !in old(cache) ==>
                r == ComputeAll(s, generated, src) && cache == old(cache)[StableKey(s, src.show) := r]
      ensures StableKey(s, src.show) in cache && cache[StableKey(s, src.show)] == r
    {
      var key := StableKey(s, src.show);
      if key in cache {
        r := cache[key];
      } else {
        r := ComputeAll(s, generated, src);
        cache := cache[key := r];
      }
    }
  }

  // ---------------------------------------------------------------- the page

  /** The subplot containers `.plotContainer.data`, `.noisy` and `.denoise`. */
  datatype Panel = DataPanel | NoisyPanel | DenoisePanel

  /** The message logged for a missing container. */
  function SkipMessage(containerId: string): string {
    "No element found with id " + containerId + ". Skipping this plot."
  }

  /** What `updateAll` draws: each panel's scatter plot bound to its part of the result. */
  function Panels(c: Computed): (m: map<Panel, seq<Datum>>)
    ensures m.Keys == {DataPanel, NoisyPanel, DenoisePanel}
  {
    map[DataPanel := c.originalData, NoisyPanel := c.noisyData, DenoisePanel := c.denoiseField]
  }

  /** The settings `updateAll` passes: the slider's data standard deviation, noise
      0.7, and the fixed domains. */
  function PageSettings(dataStdDev: real): Settings {
    Settings(dataStdDev, NoiseStdDev, Domain, Domain)
  }

  /** One page: the console, whether its subplots were built, and what each panel shows. */
  class Page {
    var log: seq<string>
    var built: bool
    var shown: map<Panel, seq<Datum>>

    constructor ()
      ensures log == [] && !built && shown == map[]
    {
      log, built, shown := [], false, map[];
    }

    /** `updateAll()`: the memoized computation for the current settings, drawn. */
    method UpdateAll(memo: Memo, dataStdDev: real, generated: seq<Datum>, src: Sources)
      modifies this, memo
      ensures log == old(log) && built == old(built)
      ensures StableKey(PageSettings(dataStdDev), src.show) in memo.cache
      ensures shown == Panels(memo.cache[StableKey(PageSettings(dataStdDev), src.show)])
      ensures StableKey(PageSettings(dataStdDev), src.show) in old(memo.cache) ==>
                memo.cache == old(memo.cache)
      ensures StableKey(PageSettings(dataStdDev), src.show) !in old(memo.cache) ==>
                memo.cache == old(memo.cache)[StableKey(PageSettings(dataStdDev), src.show) :=
                                              ComputeAll(PageSettings(dataStdDev), generated, src)]
    {
      var c := memo.GetOrComputeAll(PageSettings(dataStdDev), generated, src);
      shown := Panels(c);
    }

    /** `init(containerId, options)`: with no container, log and touch nothing;
        otherwise replace the container's contents by the three subplots and draw
        them for the slider's initial value. */
    method Init(containerId: string, found: bool, memo: Memo, dataStdDev: real, generated: seq<Datum>, src: Sources)
      modifies this, memo
      ensures !found ==> log == old(log) + [SkipMessage(containerId)] && built == old(built)
                         && shown == old(shown) && memo.cache == old(memo.cache)
      ensures found ==> log == old(log) && built
      ensures found ==> StableKey(PageSettings(dataStdDev), src.show) in memo.cache
                        && shown == Panels(memo.cache[StableKey(PageSettings(dataStdDev), src.show)])
      ensures found && StableKey(PageSettings(dataStdDev), src.show) in old(memo.cache) ==> memo.cache == old(memo.cache)
      ensures found && StableKey(PageSettings(dataStdDev), src.show) !in old(memo.cache) ==>
                memo.cache == old(memo.cache)[StableKey(PageSettings(dataStdDev), src.show) :=
                                              ComputeAll(PageSettings(dataStdDev), generated, src)]
    {
      if !found {
        log := log + [SkipMessage(containerId)];
        return;
      }
      built := true;
      shown := map[];
      UpdateAll(memo, dataStdDev, generated, src);
    }
  }
}
