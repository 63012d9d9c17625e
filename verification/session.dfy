/**
 * The metronome session of script.js: the shared state, the look-ahead tick
 * that plays it, and the transport and editing handlers that change it.
 */
module Session {
  import opened Wrappers
  import opened Pattern
  import opened Scheduler

  /** Tempo of a fresh session and of a document that has none. */
  const DefaultTempo := 120

  /** Delay between pressing play and the first pulse, in seconds. */
  const LeadIn: real := 0.1

  /**
   * A saved session (local storage, a preset, an exported file) as parsed:
   * a field the document lacks is None.
   */
  datatype Document = Document(tempo: Option<int>, measures: Option<seq<Measure>>)

  /** A document of the shape the application itself writes. */
  predicate ValidDocument(doc: Document) {
    (doc.tempo.Some? ==> doc.tempo.value == 0 || MinTempo <= doc.tempo.value <= MaxTempo) &&
    (doc.measures.Some? ==>
      forall i :: 0 <= i < |doc.measures.value| ==> WellFormed(doc.measures.value[i]))
  }

  /** The tempo a loaded document yields: a missing or zero tempo falls back to the default. */
  function LoadedTempo(tempo: Option<int>): (t: int)
    ensures t != 0
    ensures tempo.Some? && tempo.value != 0 ==> t == tempo.value
    ensures t == DefaultTempo || tempo == Some(t)
  {
    if tempo.Some? && tempo.value != 0 then tempo.value else DefaultTempo
  }

  /** The measures a loaded document yields: none when it has none. */
  function LoadedMeasures(measures: Option<seq<Measure>>): (r: seq<Measure>)
    ensures measures.Some? ==> r == measures.value
    ensures r != [] ==> measures == Some(r)
  {
    if measures.Some? then measures.value else []
  }

  function Distance(a: int, b: int): nat {
    if a <= b then b - a else a - b
  }

  /** A typed tempo brought into the accepted range: the closest accepted tempo. */
  function ClampTempo(n: int): (t: int)
    ensures MinTempo <= t <= MaxTempo
    ensures forall k :: MinTempo <= k <= MaxTempo ==> Distance(t, n) <= Distance(k, n)
  {
    var capped := if n < MaxTempo then n else MaxTempo;
    if MinTempo < capped then capped else MinTempo
  }

  /** What pressing the play/pause button did. */
  datatype Toggle = Started | Paused | NothingToPlay

  class Metronome {
    var tempo: int
    var measures: seq<Measure>
    var isPlaying: bool
    /** Index of the measure open in the editor, or -1 when the editor is closed. */
    var currentEditingMeasure: int
    /** The playhead. */
    var currentMeasure: int
    var currentPulse: int
    var nextNoteTime: real

    /**
     * The session invariant. The pulse index may lie past a measure that was
     * shortened during playback; the tick wraps it.
     */
    predicate Valid()
      reads this
    {
      Playable(measures, tempo) &&
      0 <= currentMeasure && 0 <= currentPulse &&
      -1 <= currentEditingMeasure < |measures| &&
      (isPlaying ==> currentMeasure < |measures|)
    }

    function Head(): Playhead
      reads this
    {
      Playhead(currentMeasure, currentPulse, nextNoteTime)
    }

    /** The document every save writes: the tempo and the measures. */
    function Saved(): Document
      reads this
    {
      Document(Some(tempo), Some(measures))
    }

    /** Session start: restore the saved document if any, and never start without a measure. */
    constructor (saved: Option<Document>)
      requires saved.Some? ==> ValidDocument(saved.value)
      ensures Valid()
      ensures tempo == if saved.Some? then LoadedTempo(saved.value.tempo) else DefaultTempo
      ensures saved.Some? && LoadedMeasures(saved.value.measures) != [] ==>
        measures == LoadedMeasures(saved.value.measures)
      ensures saved.None? || LoadedMeasures(saved.value.measures) == [] ==>
        measures == [DefaultMeasure()]
      ensures !isPlaying && currentEditingMeasure == -1
      ensures Head() == Playhead(0, 0, 0.0)
    {
      isPlaying := false;
      tempo := DefaultTempo;
      measures := [];
      currentEditingMeasure := -1;
      currentMeasure := 0;
      currentPulse := 0;
      nextNoteTime := 0.0;
      new;
      if saved.Some? {
        tempo := LoadedTempo(saved.value.tempo);
        measures := LoadedMeasures(saved.value.measures);
      }
      if |measures| == 0 {
        measures := measures + [DefaultMeasure()];
      }
    }

    /**
     * One pass of the look-ahead scheduler at audio-clock time `now`: emits the
     * events of every pulse that starts before now + ScheduleAhead and moves
     * the playhead past them.
     */
    method Tick(now: real) returns (events: seq<Event>)
      requires Valid()
      requires |measures| > 0 ==> currentMeasure < |measures|
      modifies this`nextNoteTime, this`currentPulse, this`currentMeasure
      ensures Valid()
      ensures TickResult(Head(), events) == Run(measures, tempo, old(Head()), now + ScheduleAhead)
    {
      var horizon := now + ScheduleAhead;
      ghost var start := Head();
      events := [];
      while nextNoteTime < horizon
        invariant Schedulable(measures, tempo, Head())
        invariant var r := Run(measures, tempo, Head(), horizon);
          Run(measures, tempo, start, horizon) == TickResult(r.head, events + r.events)
        decreases Budget(nextNoteTime, horizon)
      {
        if |measures| == 0 {
          return;
        }
        ghost var here := Head();
        var emitted := SchedulePulse();
        BudgetDrops(here.time, nextNoteTime - here.time, horizon);
        RunResumes(measures, tempo, start, here, horizon, events);
        events := events + emitted;
      }
    }

    /**
     * The body of the scheduling loop: the events of the pulse under the
     * playhead (a click if its state is above silent, then a highlight), and
     * the playhead moved on by one pulse, wrapping to the next measure.
     */
    method SchedulePulse() returns (emitted: seq<Event>)
      requires Playable(measures, tempo)
      requires Positioned(measures, Head())
      modifies this`nextNoteTime, this`currentPulse, this`currentMeasure
      ensures emitted == PulseEvents(measures, old(Head()))
      ensures Head() == Advance(measures, tempo, old(Head()))
    {
      var measure := measures[currentMeasure];
      var subdivisions := measure.subdivisions;
      var pulseDuration := PulseDuration(tempo, subdivisions);
      var pulseState := StateAt(measure, currentPulse);
      emitted := [];
      if pulseState.Some? && pulseState.value > 0 {
        emitted := emitted + [Sound(nextNoteTime, Frequency(pulseState.value))];
      }
      emitted := emitted + [Visual(currentMeasure, currentPulse, nextNoteTime)];
      nextNoteTime := nextNoteTime + pulseDuration;
      currentPulse := currentPulse + 1;
      if currentPulse >= subdivisions {
        currentPulse := 0;
        currentMeasure := (currentMeasure + 1) % |measures|;
      }
    }

    /**
     * The play/pause button. Starting needs at least one measure; it starts at
     * the last measure (the first when there is only one) with a lead-in.
     * Pausing keeps the playhead.
     */
    method PlayPause(now: real) returns (outcome: Toggle)
      requires Valid()
      modifies this`isPlaying, this`nextNoteTime, this`currentMeasure, this`currentPulse
      ensures Valid()
      ensures old(isPlaying) ==> outcome == Paused && !isPlaying && Head() == old(Head())
      ensures !old(isPlaying) && |measures| == 0 ==>
        outcome == NothingToPlay && !isPlaying && Head() == old(Head())
      ensures !old(isPlaying) && |measures| > 0 ==>
        outcome == Started && isPlaying &&
        Head() == Playhead(if |measures| > 1 then |measures| - 1 else 0, 0, now + LeadIn) &&
        InRange(measures, Head())
    {
      if !isPlaying {
        if |measures| == 0 {
          return NothingToPlay;
        }
        isPlaying := true;
        nextNoteTime := now + LeadIn;
        currentMeasure := if |measures| > 1 then |measures| - 1 else 0;
        currentPulse := 0;
        outcome := Started;
      } else {
        isPlaying := false;
        outcome := Paused;
      }
    }

    /** The stop button: playback halts and the playhead returns to the first pulse. */
    method Stop()
      modifies this`isPlaying, this`currentMeasure, this`currentPulse
      ensures old(Valid()) ==> Valid()
      ensures !isPlaying && currentMeasure == 0 && currentPulse == 0
    {
      isPlaying := false;
      currentMeasure := 0;
      currentPulse := 0;
    }

    /** A tempo typed into the tempo box; input that is not a number is ignored. */
    method SetTypedTempo(input: Option<int>)
      requires Valid()
      modifies this`tempo
      ensures Valid()
      ensures input.None? ==> tempo == old(tempo)
      ensures input.Some? ==> tempo == ClampTempo(input.value)
    {
      if input.None? {
        return;
      }
      tempo := ClampTempo(input.value);
    }

    /** The add-measure button appends the default measure. */
    method AddMeasure()
      requires Valid()
      modifies this`measures
      ensures Valid()
      ensures measures == old(measures) + [DefaultMeasure()]
    {
      measures := measures + [DefaultMeasure()];
    }

    /**
     * A measure's remove button: stops playback if it is running, deletes the
     * measure and keeps the editor on the measure it showed.
     */
    method RemoveMeasure(index: int)
      requires Valid()
      requires 0 <= index < |measures|
      modifies this`measures, this`currentEditingMeasure, this`isPlaying,
        this`currentMeasure, this`currentPulse
      ensures Valid()
      ensures measures == Removed(old(measures), index)
      ensures currentEditingMeasure == EditingAfterRemoval(old(currentEditingMeasure), index)
      ensures !isPlaying
      ensures old(isPlaying) ==> currentMeasure == 0 && currentPulse == 0
      ensures !old(isPlaying) ==>
        currentMeasure == old(currentMeasure) && currentPulse == old(currentPulse)
    {
      if isPlaying {
        Stop();
      }
      measures := measures[..index] + measures[index + 1..];
      if currentEditingMeasure == index {
        currentEditingMeasure := -1;
      } else if currentEditingMeasure > index {
        currentEditingMeasure := currentEditingMeasure - 1;
      }
    }

    /** Clicking a measure block opens that measure in the editor. */
    method SelectMeasure(index: int)
      requires Valid()
      requires 0 <= index < |measures|
      modifies this`currentEditingMeasure
      ensures Valid()
      ensures currentEditingMeasure == index
    {
      currentEditingMeasure := index;
    }

    /** The editor's close button. */
    method CloseEditor()
      requires Valid()
      modifies this`currentEditingMeasure
      ensures Valid()
      ensures currentEditingMeasure == -1
    {
      currentEditingMeasure := -1;
    }

    /**
     * A subdivision count typed into the editor: a count in 1..16 resizes the
     * open measure's pattern; anything else, or no open measure, changes nothing.
     * The playhead is not corrected.
     */
    method ResizeSubdivisions(input: Option<int>)
      requires Valid()
      modifies this`measures
      ensures Valid()
      ensures var e := currentEditingMeasure;
        if 0 <= e && input.Some? && 1 <= input.value <= MaxSubdivisions then
          |measures| == |old(measures)| &&
          measures == old(measures)[e := Measure(input.value, Resized(old(measures)[e].pattern, input.value))]
        else measures == old(measures)
    {
      if currentEditingMeasure < 0 {
        return;
      }
      var measure := measures[currentEditingMeasure];
      if input.Some? && 0 < input.value <= MaxSubdivisions {
        var newSubdivisions := input.value;
        ResizeKeepsWellFormed(measure, newSubdivisions);
        measure := measure.(pattern := Resized(measure.pattern, newSubdivisions));
        measure := measure.(subdivisions := newSubdivisions);
        measures := measures[currentEditingMeasure := measure];
      }
    }

    /** Clicking pulse `index` of the open measure rotates that pulse's state and no other. */
    method TogglePulse(index: int)
      requires Valid()
      requires 0 <= currentEditingMeasure
      requires 0 <= index < measures[currentEditingMeasure].subdivisions
      modifies this`measures
      ensures Valid()
      ensures var e := currentEditingMeasure; var m := old(measures)[e];
        measures == old(measures)[e := m.(pattern := m.pattern[index := Rotated(m.pattern[index])])]
    {
      var measure := measures[currentEditingMeasure];
      measure := measure.(pattern := measure.pattern[index := Rotated(measure.pattern[index])]);
      measures := measures[currentEditingMeasure := measure];
    }

    /**
     * Loading a preset or an imported file: tempo and measures come from the
     * document, the editor closes, and running playback stops.
     */
    method LoadDocument(doc: Document)
      requires Valid()
      requires ValidDocument(doc)
      modifies this`tempo, this`measures, this`currentEditingMeasure, this`isPlaying,
        this`currentMeasure, this`currentPulse
      ensures Valid()
      ensures tempo == LoadedTempo(doc.tempo) && measures == LoadedMeasures(doc.measures)
      ensures currentEditingMeasure == -1 && !isPlaying
      ensures old(isPlaying) ==> currentMeasure == 0 && currentPulse == 0
      ensures !old(isPlaying) ==>
        currentMeasure == old(currentMeasure) && currentPulse == old(currentPulse)
    {
      tempo := LoadedTempo(doc.tempo);
      measures := LoadedMeasures(doc.measures);
      currentEditingMeasure := -1;
      if isPlaying {
        Stop();
      }
    }
  }

  /** Saving a valid session and loading the result gives back its tempo and measures. */
  lemma SaveLoadRoundTrip(m: Metronome)
    requires m.Valid()
    ensures ValidDocument(m.Saved())
    ensures LoadedTempo(m.Saved().tempo) == m.tempo
    ensures LoadedMeasures(m.Saved().measures) == m.measures
  {
  }
}
