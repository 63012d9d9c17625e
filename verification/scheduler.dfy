/**
 * The look-ahead scheduler of script.js as a pure function of the sequence,
 * the tempo, the playhead and the horizon, with the properties of what one
 * tick emits.
 */
module Scheduler {
  import opened Wrappers
  import opened Pattern

  /** How far past the audio clock one tick schedules, in seconds. */
  const ScheduleAhead: real := 0.1

  /** Tempo range in beats per minute. */
  const MinTempo := 1
  const MaxTempo := 300

  /** Click frequencies in hertz: accented pulses and strong pulses. */
  const BaseFrequency := 440
  const StrongFrequency := 880

  /**
   * The shortest pulse is 60 / (MaxTempo * MaxSubdivisions) = 1/80 s, so one
   * second of horizon holds at most 80 pulse starts.
   */
  const PulsesPerSecondBound := 80

  /** Where playback stands: the measure, the pulse within it, and when that pulse sounds. */
  datatype Playhead = Playhead(measure: int, pulse: int, time: real)

  /** What a tick hands on: a click for the audio clock, or a highlight for the display. */
  datatype Event =
    | Sound(time: real, frequency: int)
    | Visual(measure: int, pulse: int, time: real)

  datatype TickResult = TickResult(head: Playhead, events: seq<Event>)

  predicate Playable(ms: seq<Measure>, tempo: int) {
    MinTempo <= tempo <= MaxTempo &&
    forall i :: 0 <= i < |ms| ==> WellFormed(ms[i])
  }

  /** The playhead names an existing measure (its pulse may lie past the pattern). */
  predicate Positioned(ms: seq<Measure>, h: Playhead) {
    0 <= h.measure < |ms| && 0 <= h.pulse
  }

  /** The playhead names an existing pulse of an existing measure. */
  predicate InRange(ms: seq<Measure>, h: Playhead) {
    Positioned(ms, h) && h.pulse < ms[h.measure].subdivisions
  }

  /** What a tick needs in order to run: an empty sequence is fine. */
  predicate Schedulable(ms: seq<Measure>, tempo: int, h: Playhead) {
    Playable(ms, tempo) && 0 <= h.measure && 0 <= h.pulse &&
    (|ms| > 0 ==> h.measure < |ms|)
  }

  /** Seconds between two pulses: one beat of 60/tempo seconds split into `subdivisions`. */
  function PulseDuration(tempo: int, subdivisions: int): (d: real)
    requires MinTempo <= tempo <= MaxTempo && 1 <= subdivisions <= MaxSubdivisions
    ensures d * (subdivisions as real) * (tempo as real) == 60.0
    ensures d * (PulsesPerSecondBound as real) >= 1.0
  {
    BeatSplit(tempo, subdivisions);
    (60.0 / tempo as real) / subdivisions as real
  }

  /**
   * `subdivisions` pulses fill exactly one beat, and no pulse is shorter than
   * 1 / PulsesPerSecondBound seconds.
   */
  lemma BeatSplit(tempo: int, subdivisions: int)
    requires MinTempo <= tempo <= MaxTempo && 1 <= subdivisions <= MaxSubdivisions
    ensures var d := (60.0 / tempo as real) / subdivisions as real;
      d * (subdivisions as real) * (tempo as real) == 60.0 &&
      d * (PulsesPerSecondBound as real) >= 1.0
  {
    var d := (60.0 / tempo as real) / subdivisions as real;
    assert d * (subdivisions as real) == 60.0 / tempo as real;
    assert d * (subdivisions as real) * (tempo as real) == 60.0;
    assert (tempo * subdivisions) as real == (tempo as real) * (subdivisions as real);
    assert tempo * subdivisions <= MaxTempo * MaxSubdivisions by {
      assert tempo * subdivisions <= MaxTempo * subdivisions;
    }
    assert d * ((tempo * subdivisions) as real) == 60.0;
    assert d * ((tempo * subdivisions) as real) <= d * 4800.0;
  }

  /** The click frequency for a sounding pulse state. */
  function Frequency(state: int): (f: int)
    ensures f == BaseFrequency || f == StrongFrequency
    ensures f == StrongFrequency <==> state == Strong
  {
    if state == Strong then StrongFrequency else BaseFrequency
  }

  /** The stored state of pulse `p`, or None when the pattern has no such entry. */
  function StateAt(m: Measure, p: int): (r: Option<int>)
    ensures r.Some? <==> 0 <= p < |m.pattern|
    ensures r.Some? ==> r.value == m.pattern[p]
    ensures WellFormed(m) && r.Some? ==> IsPulseState(r.value)
  {
    if 0 <= p < |m.pattern| then Some(m.pattern[p]) else None
  }

  /** What the pulse under the playhead emits: a click when it sounds, then always a highlight. */
  function PulseEvents(ms: seq<Measure>, h: Playhead): (e: seq<Event>)
    requires Positioned(ms, h)
    ensures 1 <= |e| <= 2 && e[|e| - 1] == Visual(h.measure, h.pulse, h.time)
    ensures forall i :: 0 <= i < |e| ==> e[i].time == h.time
    ensures |e| == 2 <==> StateAt(ms[h.measure], h.pulse).Some? && StateAt(ms[h.measure], h.pulse).value > Silent
    ensures |e| == 2 ==> e[0] == Sound(h.time, Frequency(StateAt(ms[h.measure], h.pulse).value))
  {
    var state := StateAt(ms[h.measure], h.pulse);
    (if state.Some? && state.value > 0 then [Sound(h.time, Frequency(state.value))] else [])
    + [Visual(h.measure, h.pulse, h.time)]
  }

  /** Each pulse state, and a pulse the pattern lacks, emits what a metronome click should. */
  lemma PulseEventsByState(ms: seq<Measure>, h: Playhead)
    requires Positioned(ms, h)
    ensures var v := Visual(h.measure, h.pulse, h.time);
      var state := StateAt(ms[h.measure], h.pulse);
      (state == None ==> PulseEvents(ms, h) == [v]) &&
      (state == Some(Silent) ==> PulseEvents(ms, h) == [v]) &&
      (state == Some(Accent) ==> PulseEvents(ms, h) == [Sound(h.time, 440), v]) &&
      (state == Some(Strong) ==> PulseEvents(ms, h) == [Sound(h.time, 880), v])
  {
  }

  /** Moving on from the last of `n` measures comes back to the first one. */
  lemma NextMeasureWraps(i: int, n: int)
    requires 0 <= i < n
    ensures (i + 1) % n == if i + 1 < n then i + 1 else 0
  {
    if i + 1 == n {
      assert (i + 1) % n == n % n;
    }
  }

  /** The playhead one pulse later: the next pulse, or the first pulse of the next measure. */
  function Advance(ms: seq<Measure>, tempo: int, h: Playhead): (r: Playhead)
    requires Playable(ms, tempo) && Positioned(ms, h)
    ensures InRange(ms, r)
    ensures r.time == h.time + PulseDuration(tempo, ms[h.measure].subdivisions)
    ensures h.pulse + 1 < ms[h.measure].subdivisions ==>
      r.measure == h.measure && r.pulse == h.pulse + 1
    ensures h.measure < |ms| - 1 && h.pulse + 1 >= ms[h.measure].subdivisions ==>
      r.measure == h.measure + 1 && r.pulse == 0
    ensures h.measure == |ms| - 1 && h.pulse + 1 >= ms[h.measure].subdivisions ==>
      r.measure == 0 && r.pulse == 0
  {
    NextMeasureWraps(h.measure, |ms|);
    var m := ms[h.measure];
    var next := h.pulse + 1;
    var time := h.time + PulseDuration(tempo, m.subdivisions);
    if next >= m.subdivisions then Playhead((h.measure + 1) % |ms|, 0, time)
    else Playhead(h.measure, next, time)
  }

  /** Termination measure of the scheduling loop: pulses that still fit before the horizon. */
  function Budget(time: real, horizon: real): int
  {
    ((horizon - time) * (PulsesPerSecondBound as real)).Floor
  }

  lemma BudgetDrops(time: real, d: real, horizon: real)
    requires time < horizon
    requires d * (PulsesPerSecondBound as real) >= 1.0
    ensures 0 <= Budget(time, horizon)
    ensures Budget(time + d, horizon) < Budget(time, horizon)
  {
    var x := (horizon - time) * (PulsesPerSecondBound as real);
    var y := (horizon - (time + d)) * (PulsesPerSecondBound as real);
    assert y == x - d * (PulsesPerSecondBound as real);
  }

  /**
   * One run of the scheduling loop: while the playhead's time lies before the
   * horizon, emit the pulse's events and advance; an empty sequence emits nothing.
   */
  function Run(ms: seq<Measure>, tempo: int, h: Playhead, horizon: real): (r: TickResult)
    requires Schedulable(ms, tempo, h)
    ensures Schedulable(ms, tempo, r.head)
    decreases Budget(h.time, horizon)
  {
    if horizon <= h.time || |ms| == 0 then TickResult(h, [])
    else
      var next := Advance(ms, tempo, h);
      BudgetDrops(h.time, PulseDuration(tempo, ms[h.measure].subdivisions), horizon);
      var rest := Run(ms, tempo, next, horizon);
      TickResult(rest.head, PulseEvents(ms, h) + rest.events)
  }

  /**
   * Where a run leaves the playhead: at or past the horizon unless there is
   * nothing to play, never earlier than it was, and on an existing pulse
   * once a pulse was played (a pulse index
   * left past a shortened measure is wrapped by playing it).
   */
  lemma {:induction false} RunHead(ms: seq<Measure>, tempo: int, h: Playhead, horizon: real)
    requires Schedulable(ms, tempo, h)
    ensures var r := Run(ms, tempo, h, horizon);
      h.time <= r.head.time &&
      (horizon <= r.head.time || (|ms| == 0 && r.head == h && r.events == [])) &&
      (r.events == [] ==> r.head == h) &&
      (r.events != [] ==> InRange(ms, r.head))
    decreases Budget(h.time, horizon)
  {
    if horizon <= h.time || |ms| == 0 {
    } else {
      var next := Advance(ms, tempo, h);
      BudgetDrops(h.time, PulseDuration(tempo, ms[h.measure].subdivisions), horizon);
      RunHead(ms, tempo, next, horizon);
    }
  }

  lemma AppendAssociates<T>(a: seq<T>, b: seq<T>, c: seq<T>)
    ensures a + (b + c) == (a + b) + c
  {
  }

  /** A run that has a pulse to play plays it and continues from the next playhead. */
  lemma RunStep(ms: seq<Measure>, tempo: int, h: Playhead, horizon: real)
    requires Playable(ms, tempo) && Positioned(ms, h) && h.time < horizon
    ensures var rest := Run(ms, tempo, Advance(ms, tempo, h), horizon);
      Run(ms, tempo, h, horizon) == TickResult(rest.head, PulseEvents(ms, h) + rest.events)
  {
  }

  /**
   * A run seen part way: the events emitted so far followed by the run from
   * the current playhead. Playing one more pulse keeps that picture.
   */
  lemma RunResumes(ms: seq<Measure>, tempo: int, start: Playhead, h: Playhead, horizon: real, done: seq<Event>)
    requires Schedulable(ms, tempo, start)
    requires Playable(ms, tempo) && Positioned(ms, h) && h.time < horizon
    requires var r := Run(ms, tempo, h, horizon);
      Run(ms, tempo, start, horizon) == TickResult(r.head, done + r.events)
    ensures var next := Advance(ms, tempo, h); var r := Run(ms, tempo, next, horizon);
      Run(ms, tempo, start, horizon) == TickResult(r.head, (done + PulseEvents(ms, h)) + r.events)
  {
    var next := Advance(ms, tempo, h);
    RunStep(ms, tempo, h, horizon);
    AppendAssociates(done, PulseEvents(ms, h), Run(ms, tempo, next, horizon).events);
  }

  /** The pulses a run of events went through, read off its highlight events. */
  function Pulses(evs: seq<Event>): seq<Playhead>
  {
    if evs == [] then []
    else match evs[0]
      case Visual(m, p, t) => [Playhead(m, p, t)] + Pulses(evs[1..])
      case Sound(_, _) => Pulses(evs[1..])
  }

  /** The events of a list of pulses, one pulse after another. */
  function Expand(ms: seq<Measure>, ps: seq<Playhead>): seq<Event>
    requires forall k :: 0 <= k < |ps| ==> Positioned(ms, ps[k])
  {
    if ps == [] then [] else PulseEvents(ms, ps[0]) + Expand(ms, ps[1..])
  }

  lemma {:induction false} PulsesOfStep(ms: seq<Measure>, h: Playhead, rest: seq<Event>)
    requires Positioned(ms, h)
    ensures Pulses(PulseEvents(ms, h) + rest) == [h] + Pulses(rest)
  {
    var v := Visual(h.measure, h.pulse, h.time);
    var pe := PulseEvents(ms, h);
    assert ([v] + rest)[1..] == rest;
    if |pe| == 2 {
      assert (pe + rest)[1..] == [v] + rest;
    } else {
      assert pe + rest == [v] + rest;
    }
  }

  /**
   * `ps` is a chain of pulses from `start`: it begins there, each pulse is
   * the one after the previous, and `end` is the pulse after the last.
   */
  predicate Chain(ms: seq<Measure>, tempo: int, start: Playhead, ps: seq<Playhead>, end: Playhead)
    requires Playable(ms, tempo)
  {
    (forall k :: 0 <= k < |ps| ==> Positioned(ms, ps[k])) &&
    (ps != [] ==> ps[0] == start && end == Advance(ms, tempo, ps[|ps| - 1])) &&
    (forall k :: 0 <= k < |ps| - 1 ==> ps[k + 1] == Advance(ms, tempo, ps[k]))
  }

  /** Putting a pulse in front of the chain that starts at the pulse after it gives a chain. */
  lemma {:induction false} ChainCons(ms: seq<Measure>, tempo: int, h: Playhead, ps: seq<Playhead>, end: Playhead)
    requires Playable(ms, tempo) && Positioned(ms, h)
    requires Chain(ms, tempo, Advance(ms, tempo, h), ps, end)
    requires ps == [] ==> end == Advance(ms, tempo, h)
    ensures Chain(ms, tempo, h, [h] + ps, end)
    ensures Expand(ms, [h] + ps) == PulseEvents(ms, h) + Expand(ms, ps)
  {
    var qs := [h] + ps;
    assert qs[1..] == ps;
    if ps != [] {
      assert qs[|qs| - 1] == ps[|ps| - 1];
    }
    forall k | 0 <= k < |qs| - 1
      ensures qs[k + 1] == Advance(ms, tempo, qs[k])
    {
      if k > 0 {
        assert qs[k] == ps[k - 1] && qs[k + 1] == ps[k];
      }
    }
  }

  /**
   * A run visits a chain of pulses that starts at the playhead and ends
   * just before the new playhead, and its events are exactly the events of
   * those pulses, in order.
   */
  lemma {:induction false} RunPulses(ms: seq<Measure>, tempo: int, h: Playhead, horizon: real)
    requires Schedulable(ms, tempo, h)
    ensures var r := Run(ms, tempo, h, horizon); var ps := Pulses(r.events);
      Chain(ms, tempo, h, ps, r.head) &&
      r.events == Expand(ms, ps) &&
      (ps == [] <==> |ms| == 0 || horizon <= h.time)
    decreases Budget(h.time, horizon)
  {
    if horizon <= h.time || |ms| == 0 {
    } else {
      var next := Advance(ms, tempo, h);
      BudgetDrops(h.time, PulseDuration(tempo, ms[h.measure].subdivisions), horizon);
      RunPulses(ms, tempo, next, horizon);
      RunHead(ms, tempo, next, horizon);
      var rest := Run(ms, tempo, next, horizon);
      RunStep(ms, tempo, h, horizon);
      PulsesOfStep(ms, h, rest.events);
      ChainCons(ms, tempo, h, Pulses(rest.events), rest.head);
    }
  }

  /** Every event's time lies in [lo, hi). */
  predicate Within(evs: seq<Event>, lo: real, hi: real) {
    forall i :: 0 <= i < |evs| ==> lo <= evs[i].time < hi
  }

  /** Times never go back, and every event after a highlight is strictly later than it. */
  predicate Ordered(evs: seq<Event>) {
    (forall i, j :: 0 <= i < j < |evs| ==> evs[i].time <= evs[j].time) &&
    (forall i, j :: 0 <= i < j < |evs| && evs[i].Visual? ==> evs[i].time < evs[j].time)
  }

  lemma PulseEventsAtOnce(ms: seq<Measure>, h: Playhead)
    requires Positioned(ms, h)
    ensures var pe := PulseEvents(ms, h);
      Ordered(pe) && forall i :: 0 <= i < |pe| ==> pe[i].time == h.time
  {
  }

  lemma {:induction false} OrderedAppend(a: seq<Event>, b: seq<Event>, t: real, lo: real, hi: real)
    requires Ordered(a) && Ordered(b)
    requires forall i :: 0 <= i < |a| ==> a[i].time == t
    requires t < lo && Within(b, lo, hi)
    ensures Ordered(a + b)
  {
    var c := a + b;
    forall i, j | 0 <= i < j < |c|
      ensures c[i].time <= c[j].time
      ensures c[i].Visual? ==> c[i].time < c[j].time
    {
      if j >= |a| {
        assert c[j] == b[j - |a|];
        if i >= |a| { assert c[i] == b[i - |a|]; }
      }
    }
  }

  /**
   * Every event of a run lies in [playhead time, horizon); times never go
   * back, and every event after a highlight is strictly later than it.
   */
  lemma {:induction false} RunTimes(ms: seq<Measure>, tempo: int, h: Playhead, horizon: real)
    requires Schedulable(ms, tempo, h)
    ensures Within(Run(ms, tempo, h, horizon).events, h.time, horizon)
    ensures Ordered(Run(ms, tempo, h, horizon).events)
    decreases Budget(h.time, horizon)
  {
    if horizon <= h.time || |ms| == 0 {
    } else {
      var next := Advance(ms, tempo, h);
      BudgetDrops(h.time, PulseDuration(tempo, ms[h.measure].subdivisions), horizon);
      RunTimes(ms, tempo, next, horizon);
      var pe := PulseEvents(ms, h);
      var rest := Run(ms, tempo, next, horizon).events;
      var evs := Run(ms, tempo, h, horizon).events;
      assert evs == pe + rest;
      PulseEventsAtOnce(ms, h);
      OrderedAppend(pe, rest, h.time, next.time, horizon);
      forall i | 0 <= i < |evs|
        ensures h.time <= evs[i].time < horizon
      {
        if i >= |pe| { assert evs[i] == rest[i - |pe|]; }
      }
    }
  }

  /**
   * One tick processes a bounded number of pulses: at most one more than the
   * shortest possible pulses that fit between the playhead and the horizon.
   */
  lemma {:induction false} RunPulseCount(ms: seq<Measure>, tempo: int, h: Playhead, horizon: real)
    requires Schedulable(ms, tempo, h)
    ensures |Pulses(Run(ms, tempo, h, horizon).events)| <=
      if h.time < horizon then Budget(h.time, horizon) + 1 else 0
    decreases Budget(h.time, horizon)
  {
    if horizon <= h.time || |ms| == 0 {
    } else {
      var next := Advance(ms, tempo, h);
      BudgetDrops(h.time, PulseDuration(tempo, ms[h.measure].subdivisions), horizon);
      RunPulseCount(ms, tempo, next, horizon);
      var rest := Run(ms, tempo, next, horizon);
      PulsesOfStep(ms, h, rest.events);
    }
  }

  /**
   * Two ticks in a row emit exactly what one tick to the later horizon emits:
   * no pulse is emitted twice and none is skipped.
   */
  lemma {:induction false} RunSplit(ms: seq<Measure>, tempo: int, h: Playhead, first: real, second: real)
    requires Schedulable(ms, tempo, h)
    requires first <= second
    ensures var a := Run(ms, tempo, h, first);
      var b := Run(ms, tempo, a.head, second);
      Run(ms, tempo, h, second) == TickResult(b.head, a.events + b.events)
    decreases Budget(h.time, first)
  {
    if first <= h.time || |ms| == 0 {
    } else {
      var next := Advance(ms, tempo, h);
      BudgetDrops(h.time, PulseDuration(tempo, ms[h.measure].subdivisions), first);
      RunSplit(ms, tempo, next, first, second);
      var pe := PulseEvents(ms, h);
      var a := Run(ms, tempo, next, first);
      var b := Run(ms, tempo, a.head, second);
      RunStep(ms, tempo, h, first);
      RunStep(ms, tempo, h, second);
      assert Run(ms, tempo, h, first) == TickResult(a.head, pe + a.events);
      assert Run(ms, tempo, h, second) == TickResult(b.head, pe + (a.events + b.events));
      AppendAssociates(pe, a.events, b.events);
    }
  }
}
