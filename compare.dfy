/** The data transforms of the denoising demos (src/plot2d.js, src/plots/plot2d.js,
    src/plotIris.js): pairing each source record with a target record to draw an
    arrow between them, corrupting records with noise, replacing them by their
    denoised estimates, and the grid of points the denoising vector field is
    drawn on. */
module Compare {
  import opened Wrappers
  import opened Records

  /** Why `compareData` throws: `targetData[i]` is `undefined` (the targets run
      out before the sources), or no target has the source's id (`_.find` gives
      `undefined`). The index is the source record being paired. */
  datatype CompareError = ShortTarget(index: nat) | NoMatch(index: nat)

  /** Some target carries the id. */
  predicate HasId(ts: seq<Datum>, id: string) {
    exists j :: 0 <= j < |ts| && ts[j].id == id
  }

  /** No two targets share an id. */
  predicate DistinctIds(ts: seq<Datum>) {
    forall i, j :: 0 <= i < j < |ts| ==> ts[i].id != ts[j].id
  }

  /** `_.findIndex(ts, t => t.id === id)`: the first target with the id. */
  function FindById(ts: seq<Datum>, id: string): (r: Option<nat>)
    ensures r.Some? ==> r.value < |ts| && ts[r.value].id == id
    ensures r.Some? ==> forall j :: 0 <= j < r.value ==> ts[j].id != id
    ensures r.None? <==> !HasId(ts, id)
  {
    if ts == [] then None
    else if ts[0].id == id then Some(0)
    else
      match FindById(ts[1..], id)
      case None => assert forall j :: 1 <= j < |ts| ==> ts[j] == ts[1..][j - 1]; None
      case Some(j) => Some(j + 1)
  }

  /** The target of source record i: `targetData[i]` when it has the same id (the
      quick heuristic), otherwise the first target with that id. */
  function TargetAt(s: seq<Datum>, t: seq<Datum>, i: nat): (r: Result<Datum, CompareError>)
    requires i < |s|
    ensures r.Ok? <==> i < |t| && HasId(t, s[i].id)
    ensures r == Err(ShortTarget(i)) <==> i >= |t|
    ensures r.Ok? ==> r.value.id == s[i].id && r.value in t
  {
    if i >= |t| then Err(ShortTarget(i))
    else if t[i].id == s[i].id then Ok(t[i])
    else
      match FindById(t, s[i].id)
      case None => Err(NoMatch(i))
      case Some(j) => Ok(t[j])
  }

  /** With distinct ids the index shortcut finds the very target the search would. */
  lemma ShortcutAgrees(s: seq<Datum>, t: seq<Datum>, i: nat)
    requires i < |s| && DistinctIds(t) && TargetAt(s, t, i).Ok?
    ensures TargetAt(s, t, i).value == t[FindById(t, s[i].id).value]
  {
    var j := FindById(t, s[i].id).value;
    if t[i].id == s[i].id {
      assert j <= i;
      assert i <= j;
    }
  }

  /** `pNoisySample` copied from a record when it has one. */
  function PNoisy(p: Datum): map<string, Value> {
    if "pNoisySample" in p.rest then map["pNoisySample" := p.rest["pNoisySample"]] else map[]
  }

  /** The arrow record `{id, x, y, dx, dy, pNoisySample}` from source d to target
      tgt, `pNoisySample` read from the record p at the same position. */
  function Arrow(d: Datum, tgt: Datum, p: Datum): (a: Datum)
    ensures a.id == d.id && a.x == d.x && a.y == d.y
    ensures a.rest.Keys == {"dx", "dy"} + PNoisy(p).Keys
    ensures a.rest["dx"].Num? && a.rest["dy"].Num?
    ensures d.x + a.rest["dx"].n == tgt.x && d.y + a.rest["dy"].n == tgt.y
    ensures "pNoisySample" in p.rest ==> a.rest["pNoisySample"] == p.rest["pNoisySample"]
  {
    Datum(d.id, d.x, d.y, PNoisy(p)["dx" := Num(tgt.x - d.x)]["dy" := Num(tgt.y - d.y)])
  }

  /** `compareData` of src/plot2d.js and src/plots/plot2d.js from source record k on:
      `sourceData.map`, throwing at the first record it cannot pair. */
  function CompareFrom(s: seq<Datum>, t: seq<Datum>, k: nat): (r: Result<seq<Datum>, CompareError>)
    requires k <= |s|
    ensures r.Ok? ==> |r.value| == |s| - k
    ensures r.Err? ==> k <= r.error.index < |s| && TargetAt(s, t, r.error.index) == Err(r.error)
    decreases |s| - k
  {
    if k == |s| then Ok([])
    else
      match TargetAt(s, t, k)
      case Err(e) => Err(e)
      case Ok(tgt) =>
        match CompareFrom(s, t, k + 1)
        case Err(e) => Err(e)
        case Ok(rest) => Ok([Arrow(s[k], tgt, t[k])] + rest)
  }

  /** The pairing goes through exactly when every record from k on has a target,
      and it throws at the first record that has none. */
  lemma {:induction false} CompareFromOk(s: seq<Datum>, t: seq<Datum>, k: nat)
    requires k <= |s|
    ensures CompareFrom(s, t, k).Ok? <==> forall i :: k <= i < |s| ==> TargetAt(s, t, i).Ok?
    ensures CompareFrom(s, t, k).Err? ==> forall i :: k <= i < CompareFrom(s, t, k).error.index ==> TargetAt(s, t, i).Ok?
    decreases |s| - k
  {
    if k < |s| {
      CompareFromOk(s, t, k + 1);
      if TargetAt(s, t, k).Ok? {
        assert CompareFrom(s, t, k).Ok? <==> CompareFrom(s, t, k + 1).Ok?;
        assert CompareFrom(s, t, k).Err? ==> CompareFrom(s, t, k) == Err(CompareFrom(s, t, k + 1).error);
      }
    }
  }

  function CompareData(s: seq<Datum>, t: seq<Datum>): Result<seq<Datum>, CompareError> {
    CompareFrom(s, t, 0)
  }

  /** `compareData` succeeds exactly when there are at least as many targets as
      sources and every source id is among the targets. */
  lemma CompareDataOk(s: seq<Datum>, t: seq<Datum>)
    ensures CompareData(s, t).Ok? <==> |s| <= |t| && forall i :: 0 <= i < |s| ==> HasId(t, s[i].id)
  {
    CompareFromOk(s, t, 0);
    if |s| > |t| {
      assert !TargetAt(s, t, |t|).Ok?;
    } else {
      forall i | 0 <= i < |s| ensures TargetAt(s, t, i).Ok? <==> HasId(t, s[i].id) {
      }
    }
  }

  lemma {:induction false} CompareFromAt(s: seq<Datum>, t: seq<Datum>, k: nat, i: nat)
    requires k <= i < |s| && CompareFrom(s, t, k).Ok?
    ensures i < |t| && TargetAt(s, t, i).Ok?
    ensures CompareFrom(s, t, k).value[i - k] == Arrow(s[i], TargetAt(s, t, i).value, t[i])
    decreases i - k
  {
    var tgt := TargetAt(s, t, k);
    var rest := CompareFrom(s, t, k + 1);
    assert tgt.Ok? && rest.Ok?;
    var v := CompareFrom(s, t, k).value;
    assert v == [Arrow(s[k], tgt.value, t[k])] + rest.value;
    if i > k {
      CompareFromAt(s, t, k + 1, i);
      assert v[i - k] == rest.value[i - k - 1];
    }
  }

  /** Arrow i starts at source record i, points at a target with the same id, and
      carries the `pNoisySample` of `targetData[i]`, the target at the same
      position whatever target the id matched. */
  lemma CompareDataAt(s: seq<Datum>, t: seq<Datum>, i: nat)
    requires i < |s| && CompareData(s, t).Ok?
    ensures i < |t| && TargetAt(s, t, i).Ok?
    ensures CompareData(s, t).value[i] == Arrow(s[i], TargetAt(s, t, i).value, t[i])
  {
    CompareFromAt(s, t, 0, i);
  }

  /** The same pairing done by search alone, without the index shortcut. */
  function CompareByIdFrom(s: seq<Datum>, t: seq<Datum>, k: nat): (r: Result<seq<Datum>, CompareError>)
    requires k <= |s|
    decreases |s| - k
  {
    if k == |s| then Ok([])
    else if k >= |t| then Err(ShortTarget(k))
    else
      match FindById(t, s[k].id)
      case None => Err(NoMatch(k))
      case Some(j) =>
        match CompareByIdFrom(s, t, k + 1)
        case Err(e) => Err(e)
        case Ok(rest) => Ok([Arrow(s[k], t[j], t[k])] + rest)
  }

  /** With distinct target ids the shortcut changes nothing: `compareData` is the
      search-only pairing, results and errors alike. */
  lemma {:induction false} ShortcutTransparent(s: seq<Datum>, t: seq<Datum>, k: nat)
    requires k <= |s| && DistinctIds(t)
    ensures CompareFrom(s, t, k) == CompareByIdFrom(s, t, k)
    decreases |s| - k
  {
    if k < |s| {
      ShortcutTransparent(s, t, k + 1);
      if k < |t| {
        var found := FindById(t, s[k].id);
        assert found.None? <==> !TargetAt(s, t, k).Ok?;
        if found.Some? {
          ShortcutAgrees(s, t, k);
          assert TargetAt(s, t, k) == Ok(t[found.value]);
        }
      }
    }
  }

  /** Records that line up: the same ids at the same positions. */
  predicate SameIds(a: seq<Datum>, b: seq<Datum>) {
    |a| == |b| && forall i :: 0 <= i < |a| ==> a[i].id == b[i].id
  }

  /** Lined-up records always pair up, each with the target at its own position. */
  lemma SameIdsCompare(s: seq<Datum>, t: seq<Datum>, i: nat)
    requires SameIds(s, t) && i < |s|
    ensures CompareData(s, t).Ok?
    ensures CompareData(s, t).value[i] == Arrow(s[i], t[i], t[i])
  {
    assert forall j :: 0 <= j < |s| ==> TargetAt(s, t, j).Ok?;
    CompareFromOk(s, t, 0);
    CompareDataAt(s, t, i);
  }

  /** `compareData` of src/plotIris.js: every field of source i kept, and dx, dy
      the offset to `targetData[i]`; it throws at the first source without a
      target at its position. */
  function CompareByIndex(s: seq<Datum>, t: seq<Datum>): (r: Result<seq<Datum>, nat>)
    ensures r.Ok? <==> |s| <= |t|
    ensures r.Err? ==> r.error == |t|
    ensures r.Ok? ==> |r.value| == |s|
    ensures r.Ok? ==> forall i :: 0 <= i < |s| ==>
              && r.value[i].id == s[i].id && r.value[i].x == s[i].x && r.value[i].y == s[i].y
              && r.value[i].rest.Keys == s[i].rest.Keys + {"dx", "dy"}
              && (forall f :: f in s[i].rest && f != "dx" && f != "dy" ==> r.value[i].rest[f] == s[i].rest[f])
              && r.value[i].rest["dx"].Num? && r.value[i].rest["dy"].Num?
              && s[i].x + r.value[i].rest["dx"].n == t[i].x && s[i].y + r.value[i].rest["dy"].n == t[i].y
  {
    if |s| > |t| then Err(|t|)
    else Ok(seq(|s|, i requires 0 <= i < |s| =>
              Datum(s[i].id, s[i].x, s[i].y, s[i].rest["dx" := Num(t[i].x - s[i].x)]["dy" := Num(t[i].y - s[i].y)])))
  }

  /** `data.map(d => ({...d, x: d.x + sampleNoise(), y: d.y + sampleNoise()}))`,
      `noise(k)` being the k-th value `sampleNoise` returns: x is drawn before y,
      record by record. */
  function Noisy(data: seq<Datum>, noise: nat -> real): (r: seq<Datum>)
    ensures |r| == |data|
    ensures forall i :: 0 <= i < |r| ==>
              r[i] == Datum(data[i].id, data[i].x + noise(2 * i), data[i].y + noise(2 * i + 1), data[i].rest)
  {
    seq(|data|, i requires 0 <= i < |data| =>
      Datum(data[i].id, data[i].x + noise(2 * i), data[i].y + noise(2 * i + 1), data[i].rest))
  }

  /** What `optimalDenoise` returns for a sample: the estimated x and y, and in
      the plot2d demos the probability of the sample. */
  datatype Estimate = Estimate(x: real, y: real, pNoisySample: Option<real>)

  /** `{...sample, ...optimalDenoise(sample)}`: x and y replaced by the estimate, and
      `pNoisySample` added when the estimate has one. */
  function DenoiseOne(n: Datum, e: Estimate): Datum {
    Datum(n.id, e.x, e.y,
          if e.pNoisySample.Some? then n.rest["pNoisySample" := Num(e.pNoisySample.value)] else n.rest)
  }

  /** `noisyData.map(s => ({...s, ...optimalDenoise(s)}))`. */
  function Denoised(noisy: seq<Datum>, denoise: Datum -> Estimate): (r: seq<Datum>)
    ensures |r| == |noisy|
  {
    seq(|noisy|, i requires 0 <= i < |noisy| => DenoiseOne(noisy[i], denoise(noisy[i])))
  }

  /** Noise and denoising keep every field but x and y: the id, and every other field
      (denoising adds `pNoisySample`). */
  lemma NoisyKeeps(data: seq<Datum>, noise: nat -> real)
    ensures SameIds(data, Noisy(data, noise))
    ensures forall i :: 0 <= i < |data| ==> Noisy(data, noise)[i].rest == data[i].rest
  {
  }

  lemma DenoisedKeeps(noisy: seq<Datum>, denoise: Datum -> Estimate)
    ensures SameIds(noisy, Denoised(noisy, denoise))
    ensures forall i, f :: 0 <= i < |noisy| && f in noisy[i].rest && f != "pNoisySample" ==>
              f in Denoised(noisy, denoise)[i].rest && Denoised(noisy, denoise)[i].rest[f] == noisy[i].rest[f]
    ensures forall i :: 0 <= i < |noisy| ==>
              Denoised(noisy, denoise)[i].x == denoise(noisy[i]).x && Denoised(noisy, denoise)[i].y == denoise(noisy[i]).y
  {
  }

  /** The arrows from the data to its noisy version are the noise itself. */
  lemma NoiseArrows(data: seq<Datum>, noise: nat -> real, i: nat)
    requires i < |data|
    ensures CompareData(data, Noisy(data, noise)).Ok?
    ensures var a := CompareData(data, Noisy(data, noise)).value[i];
            "dx" in a.rest && a.rest["dx"] == Num(noise(2 * i)) && "dy" in a.rest && a.rest["dy"] == Num(noise(2 * i + 1))
  {
    SameIdsCompare(data, Noisy(data, noise), i);
  }

  /** A grid point `{x, y, id: 'x'+x+'y'+y}`, `show` being JavaScript's number to
      string conversion. */
  function GridPoint(x: real, y: real, show: real -> string): Datum {
    Datum("x" + show(x) + "y" + show(y), x, y, map[])
  }

  /** `_.flatten(xs.map(x => ys.map(y => point(x, y))))`: row by row, one row per x. */
  function Grid(xs: seq<real>, ys: seq<real>, show: real -> string): (r: seq<Datum>)
    ensures |r| == |xs| * |ys|
  {
    if xs == [] then []
    else seq(|ys|, j requires 0 <= j < |ys| => GridPoint(xs[0], ys[j], show)) + Grid(xs[1..], ys, show)
  }

  /** Point `i * |ys| + j` of the grid is (xs[i], ys[j]). */
  lemma {:induction false} GridAt(xs: seq<real>, ys: seq<real>, show: real -> string, i: nat, j: nat)
    requires i < |xs| && j < |ys|
    ensures i * |ys| + j < |Grid(xs, ys, show)|
    ensures Grid(xs, ys, show)[i * |ys| + j] == GridPoint(xs[i], ys[j], show)
  {
    var row := seq(|ys|, j requires 0 <= j < |ys| => GridPoint(xs[0], ys[j], show));
    assert Grid(xs, ys, show) == row + Grid(xs[1..], ys, show);
    if i > 0 {
      GridAt(xs[1..], ys, show, i - 1, j);
      assert (i - 1) * |ys| + j + |ys| == i * |ys| + j;
    }
  }

  /** `vectorFieldSize` points along each axis, from the x and y domain. */
  function VectorGrid(xDomain: (real, real), yDomain: (real, real), size: nat,
                      linspace: (real, real, nat) -> seq<real>, show: real -> string): seq<Datum>
  {
    Grid(linspace(xDomain.0, xDomain.1, size), linspace(yDomain.0, yDomain.1, size), show)
  }

  /** The denoising vector field: an arrow from every grid point to its estimate.
      The denoised grid lines up with the grid, so the pairing never fails. */
  function DenoiseField(grid: seq<Datum>, denoise: Datum -> Estimate): (r: seq<Datum>)
    ensures |r| == |grid|
    ensures forall i :: 0 <= i < |grid| ==> r[i] == Arrow(grid[i], Denoised(grid, denoise)[i], Denoised(grid, denoise)[i])
  {
    var target := Denoised(grid, denoise);
    DenoisedKeeps(grid, denoise);
    assert CompareData(grid, target).Ok? by {
      if grid != [] {
        SameIdsCompare(grid, target, 0);
      }
    }
    forall i | 0 <= i < |grid|
      ensures CompareData(grid, target).value[i] == Arrow(grid[i], target[i], target[i])
    {
      SameIdsCompare(grid, target, i);
    }
    CompareData(grid, target).value
  }

  /** With a linspace of `size` points on each axis the field has size² arrows, in
      the grid's row order: 144 in src/plots/plot2d.js, 256 in src/plot2d.js. */
  lemma FieldSize(xDomain: (real, real), yDomain: (real, real), size: nat,
                  linspace: (real, real, nat) -> seq<real>, show: real -> string, denoise: Datum -> Estimate)
    requires |linspace(xDomain.0, xDomain.1, size)| == size && |linspace(yDomain.0, yDomain.1, size)| == size
    ensures |DenoiseField(VectorGrid(xDomain, yDomain, size, linspace, show), denoise)| == size * size
  {
  }
}
