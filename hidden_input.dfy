/**
 * The hidden-input indicator: a ring of segments in which a random segment
 * lights up at every edit, so that typing shows without showing what is
 * typed.  Its phase lives in egui's temporary widget memory; `Show` handles
 * one frame of input events against it.  The painting is not modelled.
 *
 * The random generator is replaced by rolls the caller supplies, one per
 * event, each in the interval the source asks `random_range` for.
 */
module HiddenInput {
  import opened Wrappers
  import opened Egui

  newtype u8 = x: int | 0 <= x < 0x100

  /** Whether the last edit added or deleted. */
  datatype IndicatorInputPhase = Add | Delete

  /** The highlighted segment (none before the first edit) and the last edit's kind. */
  datatype IndicatorInputState = IndicatorInputState(highlightedSegment: Option<u8>, phase: IndicatorInputPhase)

  /** `IndicatorInputState::default()`. */
  const DEFAULT_INPUT_STATE: IndicatorInputState := IndicatorInputState(None, Add)

  /** A highlight names a segment of a ring of `segments`, or nothing. */
  predicate InRange(highlight: Option<u8>, segments: u8) {
    highlight.None? || highlight.value < segments
  }

  /** `roll` lies in the interval `next_highlight` draws from: `1..segments` once a segment is lit, else `0..segments`. */
  predicate RollFits(highlight: Option<u8>, segments: u8, roll: u8) {
    if highlight.Some? then 1 <= roll < segments else roll < segments
  }

  datatype IndicatorPhase =
    | Visible(state: IndicatorInputState)
    | Hidden(state: IndicatorInputState)
    | Submitting
    | Inactive
  {
    /** Taking input, shown or hidden: the only phases the input mutators act on. */
    predicate Editing() {
      Visible? || Hidden?
    }

    /** `set_input_phase`: records the edit kind, keeping the variant and the highlight. */
    function SetInputPhase(p: IndicatorInputPhase): (r: IndicatorPhase)
      ensures r.Visible? == Visible? && r.Hidden? == Hidden?
      ensures Editing() ==> r.state.phase == p && r.state.highlightedSegment == state.highlightedSegment
      ensures !Editing() ==> r == this
    {
      match this
      case Visible(s) => Visible(s.(phase := p))
      case Hidden(s) => Hidden(s.(phase := p))
      case _ => this
    }

    /** `submit`: from any phase. */
    function Submit(): (r: IndicatorPhase)
      ensures r.Submitting?
    {
      Submitting
    }

    /**
     * `edit`: starts taking input, hidden or shown as asked, with no
     * highlight; a phase already taking input is kept, whatever `hidden` says.
     */
    function Edit(hidden: bool): (r: IndicatorPhase)
      ensures r.Editing()
      ensures Editing() ==> r == this
      ensures !Editing() ==> r.Hidden? == hidden && r.state == DEFAULT_INPUT_STATE
    {
      if Editing() then this
      else if hidden then Hidden(DEFAULT_INPUT_STATE)
      else Visible(DEFAULT_INPUT_STATE)
    }

    /**
     * `next_highlight`: lights a segment of the ring, never the one lit
     * before; the roll of 0 is excluded from a draw after the first, and a
     * roll that hits the old segment lights segment 0 instead.
     */
    function NextHighlight(segments: u8, roll: u8): (r: IndicatorPhase)
      requires Editing() ==> RollFits(state.highlightedSegment, segments, roll)
      ensures r.Visible? == Visible? && r.Hidden? == Hidden?
      ensures Editing() ==>
        && r.state.phase == state.phase
        && r.state.highlightedSegment.Some? && r.state.highlightedSegment.value < segments
        && (state.highlightedSegment.Some? ==> r.state.highlightedSegment != state.highlightedSegment)
      ensures !Editing() ==> r == this
    {
      if !Editing() then this
      else
        var next: u8 := match state.highlightedSegment
          case Some(index) => if roll == index then 0 else roll
          case None => roll;
        var s := state.(highlightedSegment := Some(next));
        if Visible? then Visible(s) else Hidden(s)
    }

    /** `clear_highlight`: unlights the ring, keeping the variant and the edit kind. */
    function ClearHighlight(): (r: IndicatorPhase)
      ensures r.Visible? == Visible? && r.Hidden? == Hidden?
      ensures Editing() ==> r.state == state.(highlightedSegment := None)
      ensures !Editing() ==> r == this
    {
      match this
      case Visible(s) => Visible(s.(highlightedSegment := None))
      case Hidden(s) => Hidden(s.(highlightedSegment := None))
      case _ => this
    }
  }

  /** `IndicatorPhase::default()`. */
  const DEFAULT_PHASE: IndicatorPhase := Inactive

  /** Editing twice is editing once, whatever the second flag. */
  lemma EditIdempotent(ph: IndicatorPhase, hidden: bool, again: bool)
    ensures ph.Edit(hidden).Edit(again) == ph.Edit(hidden)
  {
  }

  /**
   * Every segment other than the lit one can come next: with a segment
   * lit, a ring needs at least two segments, and the target is reached by
   * the roll naming it, or, for segment 0, by the roll naming the old one.
   */
  lemma NextHighlightReaches(ph: IndicatorPhase, segments: u8, target: u8)
    requires ph.Editing() && target < segments && InRange(ph.state.highlightedSegment, segments)
    requires ph.state.highlightedSegment.Some? ==> target != ph.state.highlightedSegment.value
    ensures exists roll: u8 | RollFits(ph.state.highlightedSegment, segments, roll) ::
      ph.NextHighlight(segments, roll).state.highlightedSegment == Some(target)
  {
    var roll := target;
    if ph.state.highlightedSegment.Some? && target == 0 {
      roll := ph.state.highlightedSegment.value;
    }
    assert RollFits(ph.state.highlightedSegment, segments, roll);
    assert ph.NextHighlight(segments, roll).state.highlightedSegment == Some(target);
  }

  /** An egui `Stroke`: width and packed colour. */
  datatype Stroke = Stroke(width: real, color: bv32)

  /** `Stroke::default()`: no width, transparent. */
  const DEFAULT_STROKE: Stroke := Stroke(0.0, 0)

  /** The temporary widget memory slot the indicator keeps its phase in; an empty slot reads as the default. */
  class TempData {
    var phase: IndicatorPhase

    constructor()
      ensures phase == DEFAULT_PHASE
    {
      phase := DEFAULT_PHASE;
    }

    /** An edit event through `data_mut`: mark its kind, then light a new segment. */
    method MarkEdit(kind: IndicatorInputPhase, segments: u8, roll: u8)
      requires phase.Editing() ==> RollFits(phase.state.highlightedSegment, segments, roll)
      modifies this
      ensures phase == old(phase).SetInputPhase(kind).NextHighlight(segments, roll)
    {
      phase := phase.SetInputPhase(kind);
      phase := phase.NextHighlight(segments, roll);
    }
  }

  /** What one frame of `show` leaves: the text, the phase and what was submitted. */
  datatype Frame = Frame(text: string, phase: IndicatorPhase, submitted: Option<string>)

  /** A pressed Backspace on non-empty text, or text: the events that light a new segment. */
  predicate Lights(e: Event, text: string) {
    e.Text? || (IsPress(e, Backspace) && text != [])
  }

  /** The roll for event `e` lies in the interval its draw uses. */
  predicate StepFits(f: Frame, segments: u8, e: Event, roll: u8) {
    Lights(e, f.text) && f.phase.Editing() ==> RollFits(f.phase.state.highlightedSegment, segments, roll)
  }

  /**
   * One event of the loop in `Indicator::show`: text is appended and marks an
   * addition; a pressed Backspace pops and marks a deletion only when a
   * character went; a pressed Enter moves the whole text into `submitted`.
   * Modifiers are not looked at.
   */
  function ShowEvent(f: Frame, segments: u8, e: Event, roll: u8): (r: Frame)
    requires StepFits(f, segments, e, roll)
    ensures r.phase.Visible? == f.phase.Visible? && r.phase.Hidden? == f.phase.Hidden?
    ensures !f.phase.Editing() ==> r.phase == f.phase
    ensures Lights(e, f.text) && f.phase.Editing() ==>
      r.phase.state.phase == (if e.Text? then Add else Delete) && InRange(r.phase.state.highlightedSegment, segments)
    ensures !Lights(e, f.text) ==> r.phase == f.phase
    ensures IsPress(e, Enter) ==> r.text == [] && r.submitted == Some(f.text)
    ensures e.Text? ==> r.text == f.text + e.text && r.submitted == f.submitted
    ensures IsPress(e, Backspace) ==> r.text == Pop(f.text) && r.submitted == f.submitted
  {
    match e
    case Text(t) => Frame(f.text + t, f.phase.SetInputPhase(Add).NextHighlight(segments, roll), f.submitted)
    case Key(k, pressed, _) =>
      if pressed && k == Backspace then
        if f.text != [] then Frame(Pop(f.text), f.phase.SetInputPhase(Delete).NextHighlight(segments, roll), f.submitted)
        else f
      else if pressed && k == Enter then Frame([], f.phase, Some(f.text))
      else f
    case OtherEvent => f
  }

  /** Every roll used by the frame lies in its draw's interval; `rolls[i]` is event `i`'s roll. */
  predicate ShowFits(f: Frame, segments: u8, events: seq<Event>, rolls: seq<u8>)
    requires |events| <= |rolls|
    decreases |events|, 0
  {
    events == [] ||
    (&& ShowFits(f, segments, events[..|events| - 1], rolls)
     && StepFits(ShowEvents(f, segments, events[..|events| - 1], rolls), segments, events[|events| - 1], rolls[|events| - 1]))
  }

  /** The frame after all of `events`. */
  function ShowEvents(f: Frame, segments: u8, events: seq<Event>, rolls: seq<u8>): (r: Frame)
    requires |events| <= |rolls| && ShowFits(f, segments, events, rolls)
    decreases |events|, 1
  {
    if events == [] then f
    else ShowEvent(ShowEvents(f, segments, events[..|events| - 1], rolls), segments, events[|events| - 1], rolls[|events| - 1])
  }

  /** The rolls fit every prefix of a frame whose rolls fit. */
  lemma {:induction false} ShowFitsPrefix(f: Frame, segments: u8, events: seq<Event>, rolls: seq<u8>, i: nat)
    requires |events| <= |rolls| && ShowFits(f, segments, events, rolls) && i <= |events|
    ensures ShowFits(f, segments, events[..i], rolls)
    decreases |events|
  {
    if i < |events| {
      assert events[..|events| - 1][..i] == events[..i];
      ShowFitsPrefix(f, segments, events[..|events| - 1], rolls, i);
    } else {
      assert events[..i] == events;
    }
  }

  /**
   * A frame never changes what kind of phase the indicator is in, leaves a
   * phase that is not taking input alone, and keeps the lit segment on the ring.
   */
  lemma {:induction false} ShowKeepsPhase(f: Frame, segments: u8, events: seq<Event>, rolls: seq<u8>)
    requires |events| <= |rolls| && ShowFits(f, segments, events, rolls)
    ensures var r := ShowEvents(f, segments, events, rolls);
      && r.phase.Visible? == f.phase.Visible? && r.phase.Hidden? == f.phase.Hidden?
      && (!f.phase.Editing() ==> r.phase == f.phase)
      && (f.phase.Editing() && InRange(f.phase.state.highlightedSegment, segments) ==>
            InRange(r.phase.state.highlightedSegment, segments))
    decreases |events|
  {
    if events != [] {
      ShowKeepsPhase(f, segments, events[..|events| - 1], rolls);
    }
  }

  /** All the text of a run of text events. */
  function Concat(events: seq<Event>): string
    requires forall i | 0 <= i < |events| :: events[i].Text?
    decreases |events|
  {
    if events == [] then [] else Concat(events[..|events| - 1]) + events[|events| - 1].text
  }

  /** Text alone is appended in order, and submits nothing. */
  lemma {:induction false} ShowAppendsText(f: Frame, segments: u8, events: seq<Event>, rolls: seq<u8>)
    requires |events| <= |rolls| && ShowFits(f, segments, events, rolls)
    requires forall i | 0 <= i < |events| :: events[i].Text?
    ensures ShowEvents(f, segments, events, rolls).text == f.text + Concat(events)
    ensures ShowEvents(f, segments, events, rolls).submitted == f.submitted
    decreases |events|
  {
    if events != [] {
      ShowAppendsText(f, segments, events[..|events| - 1], rolls);
    }
  }

  /** The indicator widget: its look, and the text it edits (`text: &mut String`). */
  class Indicator {
    const radius: real
    const gapWidth: real
    const segments: u8
    const addHighlightStroke: Stroke
    const addStroke: Stroke
    const deleteHighlightStroke: Stroke
    const deleteStroke: Stroke
    const submitStroke: Stroke
    const inactiveStroke: Stroke
    var text: string

    /** `Indicator::new`: a six-segment ring of radius 50 with default strokes. */
    constructor(text: string)
      ensures this.text == text && radius == 50.0 && gapWidth == 1.0 && segments == 6
      ensures addHighlightStroke == addStroke == deleteHighlightStroke == deleteStroke == DEFAULT_STROKE
      ensures submitStroke == inactiveStroke == DEFAULT_STROKE
    {
      this.text := text;
      radius := 50.0;
      gapWidth := 1.0;
      segments := 6;
      addHighlightStroke := DEFAULT_STROKE;
      addStroke := DEFAULT_STROKE;
      deleteHighlightStroke := DEFAULT_STROKE;
      deleteStroke := DEFAULT_STROKE;
      submitStroke := DEFAULT_STROKE;
      inactiveStroke := DEFAULT_STROKE;
    }

    /** The ring's fill: after the last edit's kind while taking input, else the phase's own. */
    function StrokeFor(phase: IndicatorPhase): (s: Stroke)
      ensures phase.Editing() && phase.state.phase.Add? ==> s == addStroke
      ensures phase.Editing() && phase.state.phase.Delete? ==> s == deleteStroke
      ensures phase.Submitting? ==> s == submitStroke
      ensures phase.Inactive? ==> s == inactiveStroke
    {
      match phase
      case Visible(st) => if st.phase.Add? then addStroke else deleteStroke
      case Hidden(st) => if st.phase.Add? then addStroke else deleteStroke
      case Submitting => submitStroke
      case Inactive => inactiveStroke
    }

    /** `set_input_phase` picks the matching fill while taking input; `submit` picks the submit fill. */
    lemma StrokeFollowsMutators(phase: IndicatorPhase)
      ensures phase.Editing() ==> StrokeFor(phase.SetInputPhase(Add)) == addStroke
      ensures phase.Editing() ==> StrokeFor(phase.SetInputPhase(Delete)) == deleteStroke
      ensures StrokeFor(phase.Submit()) == submitStroke
      ensures StrokeFor(DEFAULT_PHASE) == inactiveStroke
    {
    }

    /**
     * `show` without the painting: with focus, the frame's events edit the
     * text and the phase as `ShowEvents` says; without focus nothing
     * changes.  The fill is chosen from the phase as it was before the
     * frame's events.
     */
    method Show(memory: TempData, hasFocus: bool, events: seq<Event>, rolls: seq<u8>) returns (submitted: Option<string>, fill: Stroke)
      requires |events| <= |rolls|
      requires hasFocus ==> ShowFits(Frame(text, memory.phase, None), segments, events, rolls)
      modifies this, memory
      ensures hasFocus ==>
        Frame(text, memory.phase, submitted) == ShowEvents(Frame(old(text), old(memory.phase), None), segments, events, rolls)
      ensures !hasFocus ==> text == old(text) && memory.phase == old(memory.phase) && submitted.None?
      ensures fill == StrokeFor(old(memory.phase))
    {
      var state := memory.phase;
      submitted := None;
      if hasFocus {
        ghost var start := Frame(text, memory.phase, None);
        for i := 0 to |events|
          invariant ShowFits(start, segments, events[..i], rolls)
          invariant Frame(text, memory.phase, submitted) == ShowEvents(start, segments, events[..i], rolls)
        {
          ShowFitsPrefix(start, segments, events, rolls, i + 1);
          assert events[..i + 1][..i] == events[..i];
          match events[i]
          case Text(t) =>
            text := text + t;
            memory.MarkEdit(Add, segments, rolls[i]);
          case Key(k, pressed, _) =>
            if pressed && k == Backspace {
              if text != [] {
                text := Pop(text);
                memory.MarkEdit(Delete, segments, rolls[i]);
              }
            } else if pressed && k == Enter {
              submitted := Some(text);
              text := [];
            }
          case OtherEvent =>
        }
        assert events[..|events|] == events;
      }
      fill := StrokeFor(state);
    }
  }
}
