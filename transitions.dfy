/** Named d3 transitions, kept by their timing: a chain `d3.transition(name)`
    `.duration(d0).on('start', …).on('end', …).transition().duration(d1)…`
    created at some time, whose listeners run when each step starts and ends, and
    the exclusivity of a name: once a newer transition with the same name starts,
    the older chain's steps that have not ended never end (an active step is
    interrupted, its pending successors are cancelled). Interpolation and the
    frame-by-frame clock are not modelled; a transition starts at the time it is
    created. */
module Transitions {
  import opened Wrappers

  /** One step of a chain: its duration and the listeners registered for its
      'start' and 'end' events, as the effects they have. */
  datatype Step<A> = Step(duration: real, onStart: seq<A>, onEnd: seq<A>)

  /** `d3.transition(name)` created at time `at`, with the steps chained to it. */
  datatype Chain<A> = Chain(name: string, at: real, steps: seq<Step<A>>)

  /** A listener running at a point in time. */
  datatype Event<A> = Event(time: real, action: A)

  /** d3 refuses negative durations. */
  predicate NonNegative<A>(steps: seq<Step<A>>) {
    forall k :: 0 <= k < |steps| ==> steps[k].duration >= 0.0
  }

  // ---------------------------------------------------------------- timing of one chain

  /** The time from the start of the chain to the start of step k: each chained
      step starts when the one before it ends. */
  function Offset<A>(steps: seq<Step<A>>, k: nat): (r: real)
    requires k <= |steps|
    ensures NonNegative(steps) ==> r >= 0.0
  {
    if k == 0 then 0.0 else Offset(steps, k - 1) + steps[k - 1].duration
  }

  function StartTime<A>(c: Chain<A>, k: nat): real
    requires k < |c.steps|
  {
    c.at + Offset(c.steps, k)
  }

  function EndTime<A>(c: Chain<A>, k: nat): real
    requires k < |c.steps|
  {
    c.at + Offset(c.steps, k + 1)
  }

  /** A step ends `duration` after it starts, and the next step starts as it ends. */
  lemma StepTiming<A>(c: Chain<A>, k: nat)
    requires k < |c.steps|
    ensures EndTime(c, k) == StartTime(c, k) + c.steps[k].duration
    ensures k + 1 < |c.steps| ==> StartTime(c, k + 1) == EndTime(c, k)
  {
  }

  /** Later steps end no earlier. */
  lemma {:induction false} OffsetMonotone<A>(steps: seq<Step<A>>, j: nat, k: nat)
    requires NonNegative(steps) && j <= k <= |steps|
    ensures Offset(steps, j) <= Offset(steps, k)
    decreases k - j
  {
    if j < k {
      OffsetMonotone(steps, j, k - 1);
    }
  }

  /** With positive durations the steps end strictly one after the other, in the
      order they were chained. */
  lemma {:induction false} EndsInOrder<A>(c: Chain<A>, j: nat, k: nat)
    requires forall i :: 0 <= i < |c.steps| ==> c.steps[i].duration > 0.0
    requires j < k < |c.steps|
    ensures EndTime(c, j) < EndTime(c, k)
    decreases k - j
  {
    if j < k - 1 {
      EndsInOrder(c, j, k - 1);
    }
  }

  // ---------------------------------------------------------------- the listeners of one chain

  /** Listeners that all run at time t, in the order they were registered. */
  function At<A>(t: real, actions: seq<A>): (r: seq<Event<A>>)
    ensures |r| == |actions|
    ensures forall i :: 0 <= i < |r| ==> r[i] == Event(t, actions[i])
  {
    seq(|actions|, i requires 0 <= i < |actions| => Event(t, actions[i]))
  }

  /** The listeners of steps k and later: each step's 'start' listeners, then its 'end' listeners. */
  function EventsFrom<A>(c: Chain<A>, k: nat): seq<Event<A>>
    requires k <= |c.steps|
    decreases |c.steps| - k
  {
    if k == |c.steps| then []
    else At(StartTime(c, k), c.steps[k].onStart) + At(EndTime(c, k), c.steps[k].onEnd) + EventsFrom(c, k + 1)
  }

  /** Every listener of a chain, in the order the chain runs them when nothing stops it. */
  function Events<A>(c: Chain<A>): seq<Event<A>> {
    EventsFrom(c, 0)
  }

  predicate Ordered<A>(es: seq<Event<A>>) {
    forall i, j :: 0 <= i < j < |es| ==> es[i].time <= es[j].time
  }

  /** The listeners of a chain run in time order, none before the chain's step k starts. */
  lemma {:induction false} EventsFromOrdered<A>(c: Chain<A>, k: nat)
    requires NonNegative(c.steps) && k <= |c.steps|
    ensures Ordered(EventsFrom(c, k))
    ensures forall e :: e in EventsFrom(c, k) ==> c.at + Offset(c.steps, k) <= e.time
    decreases |c.steps| - k
  {
    if k < |c.steps| {
      EventsFromOrdered(c, k + 1);
      var a := At(StartTime(c, k), c.steps[k].onStart);
      var b := At(EndTime(c, k), c.steps[k].onEnd);
      var rest := EventsFrom(c, k + 1);
      assert EventsFrom(c, k) == a + b + rest;
      forall i, j | 0 <= i < j < |a + b + rest|
        ensures (a + b + rest)[i].time <= (a + b + rest)[j].time
      {
        if j >= |a + b| {
          assert (a + b + rest)[j] in rest;
        }
      }
    }
  }

  lemma EventsOrdered<A>(c: Chain<A>)
    requires NonNegative(c.steps)
    ensures Ordered(Events(c))
    ensures forall e :: e in Events(c) ==> c.at <= e.time
  {
    EventsFromOrdered(c, 0);
  }

  // ---------------------------------------------------------------- exclusivity of a name

  /** Chains in the order they were created, at times that never go back. */
  predicate Chronological<A>(cs: seq<Chain<A>>) {
    forall i, j :: 0 <= i < j < |cs| ==> cs[i].at <= cs[j].at
  }

  /** A listener of chain i due at time t runs unless a newer chain with the same
      name started before t. */
  predicate Fires<A>(cs: seq<Chain<A>>, i: nat, t: real)
    requires i < |cs|
  {
    forall j :: i < j < |cs| && cs[j].name == cs[i].name ==> t <= cs[j].at
  }

  /** When the first newer chain with the same name as chain i (from index j on) starts. */
  function CutoffFrom<A>(cs: seq<Chain<A>>, i: nat, j: nat): (r: Option<real>)
    requires i < j <= |cs|
    ensures r.None? <==> forall k :: j <= k < |cs| ==> cs[k].name != cs[i].name
    ensures r.Some? ==> exists k :: j <= k < |cs| && cs[k].name == cs[i].name && cs[k].at == r.value
    decreases |cs| - j
  {
    if j == |cs| then None
    else if cs[j].name == cs[i].name then Some(cs[j].at)
    else CutoffFrom(cs, i, j + 1)
  }

  /** The time a newer transition with the same name stops chain i, if any does. */
  function Cutoff<A>(cs: seq<Chain<A>>, i: nat): Option<real>
    requires i < |cs|
  {
    CutoffFrom(cs, i, i + 1)
  }

  lemma {:induction false} CutoffFromFires<A>(cs: seq<Chain<A>>, i: nat, j: nat, t: real)
    requires Chronological(cs) && i < j <= |cs|
    requires forall k :: i < k < j ==> cs[k].name != cs[i].name
    ensures Fires(cs, i, t) <==> CutoffFrom(cs, i, j).None? || t <= CutoffFrom(cs, i, j).value
    decreases |cs| - j
  {
    if j < |cs| && cs[j].name != cs[i].name {
      CutoffFromFires(cs, i, j + 1, t);
    }
  }

  /** A listener runs exactly when it is due no later than the cutoff. */
  lemma CutoffFires<A>(cs: seq<Chain<A>>, i: nat, t: real)
    requires Chronological(cs) && i < |cs|
    ensures Fires(cs, i, t) <==> Cutoff(cs, i).None? || t <= Cutoff(cs, i).value
  {
    CutoffFromFires(cs, i, i + 1, t);
  }

  /** The listeners due no later than the cutoff. */
  function Until<A>(es: seq<Event<A>>, cut: Option<real>): (r: seq<Event<A>>)
    ensures forall i :: 0 <= i < |r| ==> r[i] in es && (cut.None? || r[i].time <= cut.value)
    ensures forall i :: 0 <= i < |es| && (cut.None? || es[i].time <= cut.value) ==> es[i] in r
  {
    if es == [] then []
    else if cut.None? || es[0].time <= cut.value then [es[0]] + Until(es[1..], cut)
    else Until(es[1..], cut)
  }

  /** The listeners of chain i that run, in the order they run. */
  function Fired<A>(cs: seq<Chain<A>>, i: nat): seq<Event<A>>
    requires i < |cs|
  {
    Until(Events(cs[i]), Cutoff(cs, i))
  }

  /** Listeners due after the cutoff never run. */
  lemma {:induction false} UntilNone<A>(es: seq<Event<A>>, t: real)
    requires forall k :: 0 <= k < |es| ==> t < es[k].time
    ensures Until(es, Some(t)) == []
  {
    if es != [] {
      UntilNone(es[1..], t);
    }
  }

  lemma OrderedTail<A>(es: seq<Event<A>>)
    requires Ordered(es) && es != []
    ensures Ordered(es[1..])
    ensures forall k :: 0 <= k < |es[1..]| ==> es[0].time <= es[1..][k].time
  {
    assert forall k :: 0 <= k < |es[1..]| ==> es[1..][k] == es[k + 1];
  }

  /** Stopping a time-ordered list keeps a prefix of it: what has run stays run,
      and everything later is dropped. */
  lemma {:induction false} UntilPrefix<A>(es: seq<Event<A>>, t: real)
    requires Ordered(es)
    ensures Until(es, Some(t)) <= es
    ensures forall i :: |Until(es, Some(t))| <= i < |es| ==> t < es[i].time
  {
    if es != [] {
      OrderedTail(es);
      if es[0].time <= t {
        UntilPrefix(es[1..], t);
        var r := Until(es[1..], Some(t));
        assert Until(es, Some(t)) == [es[0]] + r;
        assert forall i :: |r| <= i < |es[1..]| ==> t < es[1..][i].time;
        assert forall i :: |r| + 1 <= i < |es| ==> es[i] == es[1..][i - 1];
      } else {
        UntilNone(es[1..], t);
      }
    }
  }

  lemma UntilAll<A>(es: seq<Event<A>>)
    ensures Until(es, None) == es
  {
    if es != [] {
      UntilAll(es[1..]);
      assert es == [es[0]] + es[1..];
    }
  }

  /** Cancelling a chain keeps the listeners that had run and drops every later one:
      what runs is a prefix of the chain, every listener in it is due no later than
      the newer transition's start, and every listener left out is due after it. */
  lemma FiredPrefix<A>(cs: seq<Chain<A>>, i: nat)
    requires i < |cs| && NonNegative(cs[i].steps)
    ensures Fired(cs, i) <= Events(cs[i])
    ensures Cutoff(cs, i).None? ==> Fired(cs, i) == Events(cs[i])
    ensures Cutoff(cs, i).Some? ==>
              (forall e :: e in Fired(cs, i) ==> e.time <= Cutoff(cs, i).value)
              && forall k :: |Fired(cs, i)| <= k < |Events(cs[i])| ==> Cutoff(cs, i).value < Events(cs[i])[k].time
  {
    EventsOrdered(cs[i]);
    if Cutoff(cs, i).Some? {
      UntilPrefix(Events(cs[i]), Cutoff(cs, i).value);
    } else {
      UntilAll(Events(cs[i]));
    }
  }

  /** The newest chain of a name runs completely. */
  lemma NewestRuns<A>(cs: seq<Chain<A>>, i: nat)
    requires i < |cs| && forall j :: i < j < |cs| ==> cs[j].name != cs[i].name
    ensures Fired(cs, i) == Events(cs[i])
  {
    UntilAll(Events(cs[i]));
  }

  /** A chain of zero-duration steps created no later than every newer chain of its
      name still runs all its listeners: both 'start' and 'end' of each step. */
  lemma InstantRuns<A>(cs: seq<Chain<A>>, i: nat)
    requires Chronological(cs) && i < |cs|
    requires forall k :: 0 <= k < |cs[i].steps| ==> cs[i].steps[k].duration == 0.0
    ensures Fired(cs, i) == Events(cs[i])
  {
    var c := cs[i];
    assert NonNegative(c.steps);
    EventsOrdered(c);
    if Cutoff(cs, i).Some? {
      var t := Cutoff(cs, i).value;
      assert c.at <= t by {
        var k :| i < k < |cs| && cs[k].name == cs[i].name && cs[k].at == t;
      }
      InstantOffsets(c.steps, |c.steps|);
      EventsAtStart(c, 0);
      UntilKeepsAll(Events(c), t);
    } else {
      UntilAll(Events(c));
    }
  }

  lemma {:induction false} InstantOffsets<A>(steps: seq<Step<A>>, k: nat)
    requires k <= |steps| && forall j :: 0 <= j < |steps| ==> steps[j].duration == 0.0
    ensures forall j :: 0 <= j <= k ==> Offset(steps, j) == 0.0
  {
    if k > 0 {
      InstantOffsets(steps, k - 1);
    }
  }

  lemma {:induction false} EventsAtStart<A>(c: Chain<A>, k: nat)
    requires k <= |c.steps| && forall j :: 0 <= j <= |c.steps| ==> Offset(c.steps, j) == 0.0
    ensures forall e :: e in EventsFrom(c, k) ==> e.time == c.at
    decreases |c.steps| - k
  {
    if k < |c.steps| {
      EventsAtStart(c, k + 1);
    }
  }

  lemma {:induction false} UntilKeepsAll<A>(es: seq<Event<A>>, t: real)
    requires forall e :: e in es ==> e.time <= t
    ensures Until(es, Some(t)) == es
  {
    if es != [] {
      assert forall e :: e in es[1..] ==> e in es;
      UntilKeepsAll(es[1..], t);
      assert es == [es[0]] + es[1..];
    }
  }
}
