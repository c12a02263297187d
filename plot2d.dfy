/** The 2-D denoising demo of src/plot2d.js: four panels (data, noisy, denoise,
    denoised), the data drawn at once, and the story data → noisy → denoised told
    by the named transition chain 'plot2dAnimation', whose listeners redraw the
    panels. A new `updateData` starts a zero-length transition with the same name,
    which stops a story still playing and empties every panel but the data one.
    The banana data, the noise and the optimal denoiser are inputs; a panel's
    scatter plot is kept as the data last bound to it. */
module Plot2d {
  import opened Wrappers
  import opened Records
  import opened Compare
  import opened Transitions

  /** The subplot containers `.data`, `.noisy`, `.denoise`, `.denoised`. */
  datatype Panel = DataPanel | NoisyPanel | DenoisePanel | DenoisedPanel

  /** The scatter plot configurations the demo draws with. */
  datatype Plot =
    | PlotOriginalData | PlotTransitionArrows | PlotTransitionArrowsQuickExit
    | PlotNoisyData | PlotDenoiseArrows | PlotDenoisedData

  /** `container.select(panel).datum(data).call(plot)`. */
  datatype Render = Render(panel: Panel, plot: Plot, data: seq<Datum>)

  const AnimationName: string := "plot2dAnimation"
  const VectorFieldSize: nat := 16
  /** The fixed x and y domain of every panel. */
  const Domain: (real, real) := (0.0, 12.0)

  /** What an update draws on but does not compute itself: the successive values
      `sampleNoise()` returns, `optimalDenoise` for the stored data (its noise
      distribution is fixed, the standard deviation being 1.0), `linspace`, and
      JavaScript's number to string conversion. */
  datatype Sources = Sources(
    noise: nat -> real,
    optimalDenoise: (seq<Datum>, Datum) -> Estimate,
    linspace: (real, real, nat) -> seq<real>,
    show: real -> string)

  /** The data updateAfterData derives from the stored data, and the arrows its
      listeners draw from the data to the noisy data and from the noisy data to
      the denoised data. */
  datatype Derived = Derived(noisyData: seq<Datum>, denoisedData: seq<Datum>, denoiseField: seq<Datum>,
                             noiseArrows: seq<Datum>, denoiseArrows: seq<Datum>)

  function Derive(orig: seq<Datum>, src: Sources): (d: Derived)
    ensures SameIds(orig, d.noisyData) && SameIds(d.noisyData, d.denoisedData)
    ensures CompareData(orig, d.noisyData) == Ok(d.noiseArrows)
    ensures CompareData(d.noisyData, d.denoisedData) == Ok(d.denoiseArrows)
  {
    var noisy := Noisy(orig, src.noise);
    var denoise := (s: Datum) => src.optimalDenoise(orig, s);
    NoisyKeeps(orig, src.noise);
    DenoisedKeeps(noisy, denoise);
    var denoised := Denoised(noisy, denoise);
    Derived(noisy, denoised,
            DenoiseField(VectorGrid(Domain, Domain, VectorFieldSize, src.linspace, src.show), denoise),
            Arrows(orig, noisy), Arrows(noisy, denoised))
  }

  /** `compareData` on records that line up, which never throws. */
  function Arrows(s: seq<Datum>, t: seq<Datum>): (r: seq<Datum>)
    requires SameIds(s, t)
    ensures CompareData(s, t) == Ok(r)
  {
    assert forall i :: 0 <= i < |s| ==> HasId(t, s[i].id) by {
      forall i | 0 <= i < |s| ensures HasId(t, s[i].id) {
        assert t[i].id == s[i].id;
      }
    }
    CompareDataOk(s, t);
    CompareData(s, t).value
  }

  // ---------------------------------------------------------------- the two chains

  /** The start listener of updateData's zero-length transition: empty data bound
      to every plot of the three later panels. */
  function Clear(): seq<Render> {
    [Render(NoisyPanel, PlotNoisyData, []),
     Render(NoisyPanel, PlotTransitionArrowsQuickExit, []),
     Render(DenoisePanel, PlotDenoiseArrows, []),
     Render(DenoisedPanel, PlotTransitionArrowsQuickExit, []),
     Render(DenoisedPanel, PlotDenoisedData, [])]
  }

  function ClearChain(t: real): Chain<Render> {
    Chain(AnimationName, t, [Step(0.0, Clear(), [])])
  }

  /** The durations of the story's eight steps. */
  const StoryDurations: seq<real> := [1000.0, 500.0, 1000.0, 500.0, 1000.0, 1000.0, 500.0, 1000.0]

  /** When the story's end listeners run, counted from its start. */
  const StoryEnds: seq<real> := [1000.0, 1500.0, 2500.0, 3000.0, 4000.0, 5000.0, 5500.0, 6500.0]

  /** What each step's end listener draws. */
  function StoryEnd(orig: seq<Datum>, d: Derived): (r: seq<Render>)
    ensures |r| == 8
  {
    [Render(NoisyPanel, PlotTransitionArrows, d.noiseArrows),
     Render(NoisyPanel, PlotNoisyData, d.noisyData),
     Render(NoisyPanel, PlotTransitionArrows, []),
     Render(DenoisePanel, PlotDenoiseArrows, d.denoiseField),
     Render(DenoisedPanel, PlotNoisyData, d.noisyData),
     Render(DenoisedPanel, PlotTransitionArrows, d.denoiseArrows),
     Render(DenoisedPanel, PlotDenoisedData, d.denoisedData),
     Render(DenoisedPanel, PlotTransitionArrows, [])]
  }

  /** The eight steps of updateAfterData's story: the first also has a start
      listener, showing the original data on the noisy panel. */
  function Story(orig: seq<Datum>, d: Derived): (r: seq<Step<Render>>)
    ensures |r| == 8
  {
    var ends := StoryEnd(orig, d);
    seq(8, k requires 0 <= k < 8 =>
      Step(StoryDurations[k], if k == 0 then [Render(NoisyPanel, PlotOriginalData, orig)] else [], [ends[k]]))
  }

  function StoryChain(t: real, orig: seq<Datum>, src: Sources): Chain<Render> {
    Chain(AnimationName, t, Story(orig, Derive(orig, src)))
  }

  /** The step ends of any chain with the story's durations. */
  lemma StoryOffsets(steps: seq<Step<Render>>)
    requires |steps| == 8 && forall k :: 0 <= k < 8 ==> steps[k].duration == StoryDurations[k]
    ensures NonNegative(steps) && Offset(steps, 0) == 0.0
    ensures forall k :: 0 <= k < 8 ==> Offset(steps, k + 1) == StoryEnds[k]
  {
    assert Offset(steps, 1) == 1000.0;
    assert Offset(steps, 2) == 1500.0;
    assert Offset(steps, 3) == 2500.0;
    assert Offset(steps, 4) == 3000.0;
    assert Offset(steps, 5) == 4000.0;
    assert Offset(steps, 6) == 5000.0;
    assert Offset(steps, 7) == 5500.0;
    assert Offset(steps, 8) == 6500.0;
  }

  /** The story has eight steps of 1000, 500, 1000, 500, 1000, 1000, 500 and 1000 ms
      whose ends fall 1000, 1500, …, 6500 ms after its start; the first step
      starts when the story does. */
  lemma StoryTiming(t: real, orig: seq<Datum>, d: Derived)
    ensures var c := Chain(AnimationName, t, Story(orig, d));
            && |c.steps| == 8 && NonNegative(c.steps)
            && StartTime(c, 0) == t
            && forall k :: 0 <= k < 8 ==> EndTime(c, k) == t + StoryEnds[k]
  {
    StoryOffsets(Story(orig, d));
  }

  /** Run without interruption, the story's listeners run in the order they are
      written: the start listener showing the original data on the noisy panel
      at the start, then one end listener per step, each strictly later than the
      one before. */
  lemma StoryEvents(t: real, orig: seq<Datum>, d: Derived)
    ensures var es := Events(Chain(AnimationName, t, Story(orig, d)));
            && |es| == 9
            && es[0] == Event(t, Render(NoisyPanel, PlotOriginalData, orig))
            && (forall k :: 0 <= k < 8 ==> es[k + 1] == Event(t + StoryEnds[k], StoryEnd(orig, d)[k]))
            && forall i, j :: 0 <= i < j < 9 ==> es[i].time < es[j].time
  {
    var c := Chain(AnimationName, t, Story(orig, d));
    var ends := StoryEnd(orig, d);
    StoryTiming(t, orig, d);
    StoryEventsFrom(c, t, ends, 1);
    var es := Events(c);
    var rest := EventsFrom(c, 1);
    assert es == [Event(t, Render(NoisyPanel, PlotOriginalData, orig)), Event(t + StoryEnds[0], ends[0])] + rest by {
      assert EventsFrom(c, 0) == At(StartTime(c, 0), c.steps[0].onStart) + At(EndTime(c, 0), c.steps[0].onEnd) + rest;
    }
    forall k | 1 <= k < 8 ensures es[k + 1] == Event(t + StoryEnds[k], ends[k]) {
      assert es[k + 1] == rest[k - 1];
    }
    forall i, j | 0 <= i < j < 9 ensures es[i].time < es[j].time {
      if i > 0 {
        assert es[i].time == t + StoryEnds[i - 1];
      }
      assert es[j].time == t + StoryEnds[j - 1];
    }
  }

  /** From step m on, the story's listeners are the end listeners, one per step. */
  lemma {:induction false} StoryEventsFrom(c: Chain<Render>, t: real, ends: seq<Render>, m: nat)
    requires |c.steps| == 8 && |ends| == 8 && m <= 8
    requires forall k :: 0 <= k < 8 ==> c.steps[k].onEnd == [ends[k]] && EndTime(c, k) == t + StoryEnds[k]
    requires forall k :: 1 <= k < 8 ==> c.steps[k].onStart == []
    requires 1 <= m
    ensures |EventsFrom(c, m)| == 8 - m
    ensures forall k :: m <= k < 8 ==> EventsFrom(c, m)[k - m] == Event(t + StoryEnds[k], ends[k])
    decreases 8 - m
  {
    if m < 8 {
      StoryEventsFrom(c, t, ends, m + 1);
      assert EventsFrom(c, m) == At(EndTime(c, m), c.steps[m].onEnd) + EventsFrom(c, m + 1);
    }
  }

  // ---------------------------------------------------------------- what the panels show

  /** The data bound to each plot of each panel. */
  type Shown = map<(Panel, Plot), seq<Datum>>

  /** Running renders one after the other. */
  function Apply(m: Shown, rs: seq<Render>): Shown
    decreases |rs|
  {
    if rs == [] then m
    else Apply(m[Key(rs[0]) := rs[0].data], rs[1..])
  }

  function Actions(es: seq<Event<Render>>): (r: seq<Render>)
    ensures |r| == |es| && forall i :: 0 <= i < |es| ==> r[i] == es[i].action
  {
    seq(|es|, i requires 0 <= i < |es| => es[i].action)
  }

  function Key(r: Render): (Panel, Plot) {
    (r.panel, r.plot)
  }

  /** The last render of a plot decides what it shows. */
  lemma {:induction false} ApplyLast(m: Shown, rs: seq<Render>, i: nat)
    requires i < |rs| && forall j :: i < j < |rs| ==> Key(rs[j]) != Key(rs[i])
    ensures Key(rs[i]) in Apply(m, rs) && Apply(m, rs)[Key(rs[i])] == rs[i].data
    decreases |rs|
  {
    var m' := m[Key(rs[0]) := rs[0].data];
    if i == 0 {
      ApplyUntouched(m', rs[1..], Key(rs[0]));
    } else {
      ApplyLast(m', rs[1..], i - 1);
    }
  }

  /** Renders of other plots leave a plot alone. */
  lemma {:induction false} ApplyUntouched(m: Shown, rs: seq<Render>, key: (Panel, Plot))
    requires key in m && forall j :: 0 <= j < |rs| ==> Key(rs[j]) != key
    ensures key in Apply(m, rs) && Apply(m, rs)[key] == m[key]
    decreases |rs|
  {
    if rs != [] {
      ApplyUntouched(m[Key(rs[0]) := rs[0].data], rs[1..], key);
    }
  }

  /** Once the story has played to the end, the noisy panel shows the noisy data
      and no arrows, the denoise panel the denoising vector field, and the
      denoised panel the denoised data and no arrows. */
  lemma StoryEndState(m: Shown, t: real, orig: seq<Datum>, d: Derived)
    ensures var r := Apply(m, Actions(Events(Chain(AnimationName, t, Story(orig, d)))));
            && (NoisyPanel, PlotOriginalData) in r && r[(NoisyPanel, PlotOriginalData)] == orig
            && (NoisyPanel, PlotNoisyData) in r && r[(NoisyPanel, PlotNoisyData)] == d.noisyData
            && (NoisyPanel, PlotTransitionArrows) in r && r[(NoisyPanel, PlotTransitionArrows)] == []
            && (DenoisePanel, PlotDenoiseArrows) in r && r[(DenoisePanel, PlotDenoiseArrows)] == d.denoiseField
            && (DenoisedPanel, PlotNoisyData) in r && r[(DenoisedPanel, PlotNoisyData)] == d.noisyData
            && (DenoisedPanel, PlotDenoisedData) in r && r[(DenoisedPanel, PlotDenoisedData)] == d.denoisedData
            && (DenoisedPanel, PlotTransitionArrows) in r && r[(DenoisedPanel, PlotTransitionArrows)] == []
  {
    var es := Events(Chain(AnimationName, t, Story(orig, d)));
    StoryEvents(t, orig, d);
    var rs := [Render(NoisyPanel, PlotOriginalData, orig)] + StoryEnd(orig, d);
    assert Actions(es) == rs;
    StoryRendersLast(m, orig, d);
  }

  lemma StoryRendersLast(m: Shown, orig: seq<Datum>, d: Derived)
    ensures var r := Apply(m, [Render(NoisyPanel, PlotOriginalData, orig)] + StoryEnd(orig, d));
            && (NoisyPanel, PlotOriginalData) in r && r[(NoisyPanel, PlotOriginalData)] == orig
            && (NoisyPanel, PlotNoisyData) in r && r[(NoisyPanel, PlotNoisyData)] == d.noisyData
            && (NoisyPanel, PlotTransitionArrows) in r && r[(NoisyPanel, PlotTransitionArrows)] == []
            && (DenoisePanel, PlotDenoiseArrows) in r && r[(DenoisePanel, PlotDenoiseArrows)] == d.denoiseField
            && (DenoisedPanel, PlotNoisyData) in r && r[(DenoisedPanel, PlotNoisyData)] == d.noisyData
            && (DenoisedPanel, PlotDenoisedData) in r && r[(DenoisedPanel, PlotDenoisedData)] == d.denoisedData
            && (DenoisedPanel, PlotTransitionArrows) in r && r[(DenoisedPanel, PlotTransitionArrows)] == []
  {
    var rs := [Render(NoisyPanel, PlotOriginalData, orig)] + StoryEnd(orig, d);
    var keys := [(NoisyPanel, PlotOriginalData), (NoisyPanel, PlotTransitionArrows), (NoisyPanel, PlotNoisyData),
                 (NoisyPanel, PlotTransitionArrows), (DenoisePanel, PlotDenoiseArrows), (DenoisedPanel, PlotNoisyData),
                 (DenoisedPanel, PlotTransitionArrows), (DenoisedPanel, PlotDenoisedData), (DenoisedPanel, PlotTransitionArrows)];
    assert forall j :: 0 <= j < 9 ==> Key(rs[j]) == keys[j];
    ApplyLast(m, rs, 0);
    ApplyLast(m, rs, 2);
    ApplyLast(m, rs, 3);
    ApplyLast(m, rs, 4);
    ApplyLast(m, rs, 5);
    ApplyLast(m, rs, 7);
    ApplyLast(m, rs, 8);
  }

  /** The clear chain's start listener binds [] to every plot it touches, and it
      touches every panel but the data one. */
  lemma ClearEmptiesLaterPanels()
    ensures forall r :: r in Clear() ==> r.data == [] && r.panel != DataPanel
    ensures (set r | r in Clear() :: r.panel) == {NoisyPanel, DenoisePanel, DenoisedPanel}
  {
    assert Clear()[0].panel == NoisyPanel && Clear()[2].panel == DenoisePanel && Clear()[3].panel == DenoisedPanel;
  }

  /** `updateData` at time t stops any story of the same name: of every chain
      started before it, only listeners due by t run. Its own zero-length step
      still runs its start listener, which empties the later panels. */
  lemma UpdateDataCancels(cs: seq<Chain<Render>>, later: seq<Chain<Render>>, t: real, i: nat)
    requires Chronological(cs + [ClearChain(t)] + later) && i < |cs|
    requires cs[i].name == AnimationName
    ensures forall e :: e in Fired(cs + [ClearChain(t)] + later, i) ==> e.time <= t
    ensures Fired(cs + [ClearChain(t)] + later, |cs|) == [Event(t, Clear()[0]), Event(t, Clear()[1]),
              Event(t, Clear()[2]), Event(t, Clear()[3]), Event(t, Clear()[4])]
  {
    var all := cs + [ClearChain(t)] + later;
    assert all[|cs|] == ClearChain(t);
    forall e | e in Fired(all, i) ensures e.time <= t {
      CutoffFires(all, i, e.time);
      var k :| 0 <= k < |Events(all[i])| && Events(all[i])[k] == e;
      assert Fires(all, i, e.time);
    }
    InstantRuns(all, |cs|);
    var z := ClearChain(t);
    assert Events(z) == At(StartTime(z, 0), z.steps[0].onStart) + At(EndTime(z, 0), z.steps[0].onEnd) + EventsFrom(z, 1);
  }

  /** `updateAll` makes both chains at the same time t. The clear chain runs whole
      (its start listener first, being the older), and so does the story when no
      newer transition of that name follows. */
  lemma UpdateAllRuns(cs: seq<Chain<Render>>, t: real, orig: seq<Datum>, src: Sources)
    requires Chronological(cs + [ClearChain(t), StoryChain(t, orig, src)])
    ensures var all := cs + [ClearChain(t), StoryChain(t, orig, src)];
            && Fired(all, |cs|) == Events(ClearChain(t))
            && Fired(all, |cs| + 1) == Events(StoryChain(t, orig, src))
  {
    var all := cs + [ClearChain(t), StoryChain(t, orig, src)];
    assert all[|cs|] == ClearChain(t) && all[|cs| + 1] == StoryChain(t, orig, src);
    InstantRuns(all, |cs|);
    NewestRuns(all, |cs| + 1);
  }

  // ---------------------------------------------------------------- the demo

  /** The state `init` closes over: the data stored by the last updateData, the
      clock, every 'plot2dAnimation' transition made so far, and the renders made
      outside transitions (the data panel). */
  class Demo {
    var originalData: seq<Datum>
    var now: real
    var schedule: seq<Chain<Render>>
    var drawn: seq<Render>

    ghost predicate Valid()
      reads this
    {
      && Chronological(schedule)
      && forall i :: 0 <= i < |schedule| ==> schedule[i].at <= now && NonNegative(schedule[i].steps)
    }

    /** `init(containerId)` at time t, ending with `updateAll()`. */
    constructor (t: real, data: seq<Datum>, src: Sources)
      ensures Valid() && now == t && originalData == data
      ensures schedule == [ClearChain(t), StoryChain(t, data, src)]
      ensures drawn == [Render(DataPanel, PlotOriginalData, data)]
    {
      originalData, now, schedule, drawn := [], t, [], [];
      new;
      UpdateAll(t, data, src);
    }

    /** `updateData()` at time t: store and draw the new data, and start the
        clearing transition. */
    method UpdateData(t: real, data: seq<Datum>)
      requires Valid() && now <= t
      modifies this
      ensures Valid() && now == t && originalData == data
      ensures drawn == old(drawn) + [Render(DataPanel, PlotOriginalData, data)]
      ensures schedule == old(schedule) + [ClearChain(t)]
    {
      originalData := data;
      drawn := drawn + [Render(DataPanel, PlotOriginalData, data)];
      schedule := schedule + [ClearChain(t)];
      now := t;
    }

    /** `updateAfterData()` at time t: derive the noisy and denoised data from the
        stored data and start the story. Its noise variance is `sq(noiseStdDev)`
        with the `sq` of src/common/utils.js:26; the one src/plot2d.js:5 imports is
        not exported by src/utils.js. */
    method UpdateAfterData(t: real, src: Sources)
      requires Valid() && now <= t
      modifies this
      ensures Valid() && now == t
      ensures originalData == old(originalData) && drawn == old(drawn)
      ensures schedule == old(schedule) + [StoryChain(t, originalData, src)]
    {
      var c := StoryChain(t, originalData, src);
      StoryTiming(t, originalData, Derive(originalData, src));
      schedule := schedule + [c];
      now := t;
    }

    /** `updateAll()`: updateData, then updateAfterData on the data just stored. */
    method UpdateAll(t: real, data: seq<Datum>, src: Sources)
      requires Valid() && now <= t
      modifies this
      ensures Valid() && now == t && originalData == data
      ensures drawn == old(drawn) + [Render(DataPanel, PlotOriginalData, data)]
      ensures schedule == old(schedule) + [ClearChain(t), StoryChain(t, data, src)]
    {
      UpdateData(t, data);
      UpdateAfterData(t, src);
    }
  }
}
