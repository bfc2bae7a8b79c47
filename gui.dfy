/**
 * The interaction bridge: the two shared cells the render pass polls, the
 * input-handling half of the render pass, and `UiManager`, which answers
 * the driver's prompts with what the user types.
 *
 * The two tasks are run as a sequential alternation.  Wherever the bridge
 * awaits the user, render passes run, one scripted frame of input events
 * each, until the sender the bridge left in the input cell fires.  A oneshot
 * sender is a token `Sender(id)`; the bridge mints each one fresh.
 */
module Gui {
  import opened Wrappers
  import opened Egui
  import GreetdClient
  import Settings

  /** How a displayed message expects input. */
  datatype UiDisplayInputVisibility = NoInput(showConfirmMessage: bool) | Hidden | Shown

  /** What the render pass shows. */
  datatype UiDisplayState =
    | Empty
    | Message(message: string, showInput: UiDisplayInputVisibility)
    | Loading

  /** A oneshot sender, identified by its channel. */
  datatype Sender = Sender(id: nat)

  /** What the render pass accepts, with the sender it completes. */
  datatype UiInputState =
    | NoInput
    | Confirm(notifier: Sender)
    | Text(responder: Sender)
  {
    /** `get_type`: the variant's tag, without its sender. */
    function GetType(): (t: UiInputStateType)
      ensures t == UiInputStateType.NoInput <==> NoInput?
      ensures t == UiInputStateType.Confirm <==> Confirm?
      ensures t == UiInputStateType.Text <==> Text?
    {
      match this
      case NoInput => UiInputStateType.NoInput
      case Confirm(_) => UiInputStateType.Confirm
      case Text(_) => UiInputStateType.Text
    }

    /** The sender the cell holds. */
    function Holder(): Sender
      requires !NoInput?
    {
      if Confirm? then notifier else responder
    }
  }

  datatype UiInputStateType = NoInput | Confirm | Text

  /** What a render pass sends on the sender it took out of the input cell. */
  datatype Handoff = Notified(sender: Sender) | Sent(sender: Sender, text: string)

  /** The state of one render pass's input handling. */
  datatype Pass = Pass(input: UiInputState, current: string, fired: Option<Handoff>)

  /**
   * The text-mode pass is at rest: either the responder is still in the
   * cell and nothing was sent, or it was taken and the text sent on it.
   */
  predicate TextPassState(p: Pass) {
    || (p.input.Text? && p.fired.None?)
    || (p.input.NoInput? && p.fired.Some? && p.fired.value.Sent?)
  }

  /**
   * One event of the text-mode pass: a plain Enter takes the responder and
   * sends the whole buffer, leaving it empty; a plain Backspace pops; text
   * is appended.  A plain Enter after the responder was taken is ignored
   * (see `TextEventAsWritten` for what the source does instead).
   */
  function TextEvent(p: Pass, e: Event): (r: Pass)
    requires TextPassState(p)
    ensures TextPassState(r)
    ensures p.fired.Some? ==> r.fired == p.fired && r.input == p.input
    ensures r.fired.None? ==> r.input == p.input
    ensures p.fired.None? && r.fired.Some? ==> r.fired == Some(Sent(p.input.responder, p.current)) && r.current == []
  {
    if IsPlainPress(e, Enter) then
      if p.input.Text? then Pass(UiInputState.NoInput, [], Some(Sent(p.input.responder, p.current))) else p
    else if IsPlainPress(e, Backspace) then p.(current := Pop(p.current))
    else if e.Text? then p.(current := p.current + e.text)
    else p
  }

  /** The text-mode pass over a frame's events, in order. */
  function TextEvents(p: Pass, events: seq<Event>): (r: Pass)
    requires TextPassState(p)
    ensures TextPassState(r)
    ensures p.fired.Some? ==> r.fired == p.fired && r.input == p.input
    ensures r.fired.None? ==> r.input == p.input
    ensures p.fired.None? && r.fired.Some? ==> r.fired.value.sender == p.input.responder
    decreases |events|
  {
    if events == [] then p
    else TextEvent(TextEvents(p, events[..|events| - 1]), events[|events| - 1])
  }

  /** The pass over `a + b` is the pass over `a` continued over `b`. */
  lemma {:induction false} TextEventsAppend(p: Pass, a: seq<Event>, b: seq<Event>)
    requires TextPassState(p)
    ensures TextEvents(p, a + b) == TextEvents(TextEvents(p, a), b)
    decreases |b|
  {
    if b == [] {
      assert a + b == a;
    } else {
      var b' := b[..|b| - 1];
      assert (a + b)[..|a + b| - 1] == a + b';
      TextEventsAppend(p, a, b');
    }
  }

  /** Editing by a run of events: appending text, popping on a plain Backspace. */
  function Typed(current: string, events: seq<Event>): string
    decreases |events|
  {
    if events == [] then current
    else
      var before := Typed(current, events[..|events| - 1]);
      var e := events[|events| - 1];
      if IsPlainPress(e, Backspace) then Pop(before)
      else if e.Text? then before + e.text
      else before
  }

  /** No plain Enter among `events`. */
  predicate NoPlainEnter(events: seq<Event>) {
    forall i | 0 <= i < |events| :: !IsPlainPress(events[i], Enter)
  }

  /** Without a plain Enter the responder stays in the cell and the buffer is just edited. */
  lemma {:induction false} TextEventsWithoutEnter(s: Sender, current: string, events: seq<Event>)
    requires NoPlainEnter(events)
    ensures TextEvents(Pass(UiInputState.Text(s), current, None), events)
         == Pass(UiInputState.Text(s), Typed(current, events), None)
    decreases |events|
  {
    if events != [] {
      TextEventsWithoutEnter(s, current, events[..|events| - 1]);
    }
  }

  /** A text-mode pass that starts with the responder in the cell fires exactly when the frame holds a plain Enter. */
  lemma {:induction false} TextPassFiresAtEnter(s: Sender, current: string, events: seq<Event>)
    ensures TextEvents(Pass(UiInputState.Text(s), current, None), events).fired.Some? <==> !NoPlainEnter(events)
    decreases |events|
  {
    if events != [] {
      var init := events[..|events| - 1];
      TextPassFiresAtEnter(s, current, init);
      assert forall i | 0 <= i < |init| :: init[i] == events[i];
      assert NoPlainEnter(events) <==> NoPlainEnter(init) && !IsPlainPress(events[|events| - 1], Enter);
    }
  }

  /**
   * The first plain Enter of a text-mode pass sends exactly the buffer typed
   * up to it, whatever follows in the frame.
   */
  lemma SubmitsBufferAtFirstEnter(s: Sender, current: string, before: seq<Event>, enter: Event, after: seq<Event>)
    requires NoPlainEnter(before) && IsPlainPress(enter, Enter)
    ensures TextEvents(Pass(UiInputState.Text(s), current, None), before + [enter] + after).fired
         == Some(Sent(s, Typed(current, before)))
  {
    var p := Pass(UiInputState.Text(s), current, None);
    TextEventsWithoutEnter(s, current, before);
    TextEventsAppend(p, before, [enter]);
    assert TextEvents(p, before + [enter]).fired == Some(Sent(s, Typed(current, before))) by {
      assert TextEvents(TextEvents(p, before), [enter])
          == TextEvent(TextEvents(TextEvents(p, before), []), enter);
    }
    TextEventsAppend(p, before + [enter], after);
  }

  /**
   * The text-mode event step as `draw_ui` writes it: a
   * plain Enter always takes the input cell and requires a responder in it,
   * so once the responder was taken in this pass a further plain Enter
   * reaches `unreachable!()`.  `None` is that panic.
   */
  function TextEventAsWritten(p: Pass, e: Event): (r: Option<Pass>)
    requires TextPassState(p)
  {
    if IsPlainPress(e, Enter) && !p.input.Text? then None
    else Some(TextEvent(p, e))
  }

  /** The source's text-mode pass over a frame; `None` once it has panicked. */
  function TextEventsAsWritten(p: Pass, events: seq<Event>): (r: Option<Pass>)
    requires TextPassState(p)
    ensures r.Some? ==> TextPassState(r.value)
    decreases |events|
  {
    if events == [] then Some(p)
    else
      match TextEventsAsWritten(p, events[..|events| - 1])
      case None => None
      case Some(q) => TextEventAsWritten(q, events[|events| - 1])
  }

  /** How many plain Enter presses `events` holds. */
  function PlainEnters(events: seq<Event>): nat
    decreases |events|
  {
    if events == [] then 0
    else PlainEnters(events[..|events| - 1]) + (if IsPlainPress(events[|events| - 1], Enter) then 1 else 0)
  }

  /**
   * The source's text-mode pass panics exactly when the frame holds a
   * second plain Enter; before that it has sent nothing until the first.
   */
  lemma {:induction false} AsWrittenPanicsOnSecondEnter(s: Sender, current: string, events: seq<Event>)
    ensures var r := TextEventsAsWritten(Pass(UiInputState.Text(s), current, None), events);
      && (r.None? <==> PlainEnters(events) >= 2)
      && (r.Some? ==> (r.value.fired.None? <==> PlainEnters(events) == 0))
    decreases |events|
  {
    if events != [] {
      AsWrittenPanicsOnSecondEnter(s, current, events[..|events| - 1]);
    }
  }

  /** The smallest such frame: two plain Enter presses. */
  lemma DoubleEnterPanics(s: Sender, current: string)
    ensures var enter := Key(Enter, true, Modifiers(false, false, false, false, false));
      TextEventsAsWritten(Pass(UiInputState.Text(s), current, None), [enter, enter]).None?
  {
    var enter := Key(Enter, true, Modifiers(false, false, false, false, false));
    AsWrittenPanicsOnSecondEnter(s, current, [enter, enter]);
    assert [enter, enter][..1] == [enter];
    assert [enter][..0] == [];
  }

  /** Wherever the source does not panic, the corrected pass does exactly what it does. */
  lemma {:induction false} CorrectedAgreesWithSource(p: Pass, events: seq<Event>)
    requires TextPassState(p)
    ensures TextEventsAsWritten(p, events).Some? ==> TextEventsAsWritten(p, events).value == TextEvents(p, events)
    decreases |events|
  {
    if events != [] {
      CorrectedAgreesWithSource(p, events[..|events| - 1]);
    }
  }

  /**
   * The input-handling half of `draw_ui`'s render pass, by the
   * input cell's tag: nothing without input; a press of Enter takes the
   * notifier and fires it; text mode runs the text pass.  A pass fires only
   * the sender in the cell, and empties the cell exactly when it fires:
   * a confirmation on any press of Enter, a text field on a plain Enter.
   */
  function PaintInput(input: UiInputState, current: string, events: seq<Event>): (r: Pass)
    ensures input.Confirm? ==> (r.fired.Some? <==> KeyPressed(events, Enter))
    ensures input.Text? ==> (r.fired.Some? <==> !NoPlainEnter(events))
    ensures r.fired.None? ==> r.input == input
    ensures r.fired.Some? ==> !input.NoInput? && r.input.NoInput? && r.fired.value.sender == input.Holder()
    ensures r.fired.Some? ==> (r.fired.value.Notified? <==> input.Confirm?)
    ensures !input.Text? ==> r.current == current
  {
    match input.GetType()
    case NoInput => Pass(input, current, None)
    case Confirm =>
      if KeyPressed(events, Enter) then Pass(UiInputState.NoInput, current, Some(Notified(input.notifier)))
      else Pass(input, current, None)
    case Text =>
      TextPassFiresAtEnter(input.responder, current, events);
      TextEvents(Pass(input, current, None), events)
  }

  /** Where waiting on the user leaves the cell, the buffer and the frames. */
  datatype Awaited = Awaited(input: UiInputState, current: string, rest: seq<seq<Event>>, fired: Option<Handoff>)

  /**
   * Render passes over `frames` until one fires.  If one does, it fired the
   * sender the cell held and the cell is empty; if none does, every frame
   * was used and the cell still holds its sender.
   */
  function AwaitFrames(input: UiInputState, current: string, frames: seq<seq<Event>>): (a: Awaited)
    ensures a.fired.None? ==> a.input == input && a.rest == []
    ensures a.fired.Some? ==> !input.NoInput? && a.input.NoInput? && a.fired.value.sender == input.Holder()
    ensures a.fired.Some? ==> (a.fired.value.Notified? <==> input.Confirm?)
    ensures !input.Text? ==> a.current == current
    decreases |frames|
  {
    if frames == [] then Awaited(input, current, [], None)
    else
      var p := PaintInput(input, current, frames[0]);
      if p.fired.Some? then Awaited(p.input, p.current, frames[1..], p.fired)
      else AwaitFrames(p.input, p.current, frames[1..])
  }

  /** Waiting consumes frames from the front: what is left is a suffix of the script. */
  lemma {:induction false} AwaitLeavesSuffix(input: UiInputState, current: string, frames: seq<seq<Event>>)
    ensures var a := AwaitFrames(input, current, frames);
      |a.rest| <= |frames| && a.rest == frames[|frames| - |a.rest|..]
    decreases |frames|
  {
    if frames != [] {
      var p := PaintInput(input, current, frames[0]);
      if p.fired.None? {
        AwaitLeavesSuffix(p.input, p.current, frames[1..]);
        var a := AwaitFrames(p.input, p.current, frames[1..]);
        assert frames[1..][|frames| - 1 - |a.rest|..] == frames[|frames| - |a.rest|..];
      }
    }
  }

  /**
   * What the render side carries from one state packet to the next: the
   * text typed so far, the frames still to come, and the next channel id.
   */
  datatype View = View(current: string, frames: seq<seq<Event>>, channel: nat)

  /**
   * The bridge's answer to one prompt, from view `v`: an input prompt waits
   * for a submission on a fresh responder and answers it; an info prompt
   * answers nothing at once and leaves everything as it was; an error
   * prompt waits for a confirmation on a fresh notifier and answers
   * nothing.  `None`: the frames ran out first.
   */
  function PromptStep(prompt: GreetdClient.AuthPrompt, v: View): (r: Option<(Option<string>, View)>)
    ensures r.Some? ==> (r.value.0.Some? <==> prompt.Input?)
    ensures prompt.Info? ==> r == Some((None, v))
    ensures !prompt.Info? && r.Some? ==> r.value.1.channel == v.channel + 1
    ensures prompt.Error? && r.Some? ==> r.value.1.current == v.current
  {
    match prompt
    case Input(_, _) =>
      var typed := AwaitFrames(UiInputState.Text(Sender(v.channel)), v.current, v.frames);
      if typed.fired.Some? then Some((Some(typed.fired.value.text), View(typed.current, typed.rest, v.channel + 1)))
      else None
    case Info(_) => Some((None, v))
    case Error(_) =>
      var confirmed := AwaitFrames(UiInputState.Confirm(Sender(v.channel)), v.current, v.frames);
      if confirmed.fired.Some? then Some((None, View(confirmed.current, confirmed.rest, v.channel + 1)))
      else None
  }

  /**
   * How the bridge starts, from view `v`: a confirmation on a fresh
   * notifier, then the fixed username or one submitted on a fresh
   * responder.  `None`: the frames ran out first.
   */
  function StartStep(restrictedUser: Option<string>, v: View): (r: Option<(string, View)>)
    ensures r.Some? && restrictedUser.Some? ==> r.value.0 == restrictedUser.value && r.value.1.channel == v.channel + 1
    ensures r.Some? && restrictedUser.None? ==> r.value.1.channel == v.channel + 2
    ensures v.frames == [] ==> r.None?
  {
    var gate := AwaitFrames(UiInputState.Confirm(Sender(v.channel)), v.current, v.frames);
    if gate.fired.None? then None
    else match restrictedUser
      case Some(user) => Some((user, View(gate.current, gate.rest, v.channel + 1)))
      case None =>
        var typed := AwaitFrames(UiInputState.Text(Sender(v.channel + 1)), gate.current, gate.rest);
        if typed.fired.None? then None
        else Some((typed.fired.value.text, View(typed.current, typed.rest, v.channel + 2)))
  }

  /** The two lock-protected cells: the bridge writes them, the render pass reads them. */
  class UiState {
    var display: UiDisplayState
    var input: UiInputState

    /** `UiState::default()`. */
    constructor ()
      ensures display == Empty && input == UiInputState.NoInput
    {
      display := Empty;
      input := UiInputState.NoInput;
    }

    /** `std::mem::take` on the input cell: its sender comes out, `NoInput` stays behind. */
    method TakeInput() returns (taken: UiInputState)
      modifies this
      ensures taken == old(input) && input == UiInputState.NoInput && display == old(display)
    {
      taken := input;
      input := UiInputState.NoInput;
    }
  }

  /**
   * The render side: the cells it polls, the text typed so far, and the
   * input events of the frames still to come (one entry per render pass).
   */
  class Gui {
    const uiState: UiState
    var currentInput: string
    var frames: seq<seq<Event>>

    constructor (uiState: UiState, frames: seq<seq<Event>>)
      ensures this.uiState == uiState && currentInput == [] && this.frames == frames
    {
      this.uiState := uiState;
      currentInput := [];
      this.frames := frames;
    }

    /**
     * The input-handling half of `draw_ui` over one frame's events.  The
     * display cell is only read.
     */
    method DrawUi(events: seq<Event>) returns (fired: Option<Handoff>)
      modifies this, uiState
      ensures Pass(uiState.input, currentInput, fired) == PaintInput(old(uiState.input), old(currentInput), events)
      ensures uiState.display == old(uiState.display) && frames == old(frames)
    {
      fired := None;
      match uiState.input.GetType()
      case NoInput =>
      case Confirm =>
        if KeyPressed(events, Enter) {
          var taken := uiState.TakeInput();
          fired := Some(Notified(taken.notifier));
        }
      case Text =>
        ghost var start := Pass(uiState.input, currentInput, None);
        for i := 0 to |events|
          invariant Pass(uiState.input, currentInput, fired) == TextEvents(start, events[..i])
          invariant uiState.display == old(uiState.display) && frames == old(frames)
        {
          assert events[..i + 1][..i] == events[..i];
          var e := events[i];
          if IsPlainPress(e, Enter) {
            if uiState.input.Text? {
              var taken := uiState.TakeInput();
              fired := Some(Sent(taken.responder, currentInput));
              currentInput := [];
            }
          } else if IsPlainPress(e, Backspace) {
            currentInput := Pop(currentInput);
          } else if e.Text? {
            currentInput := currentInput + e.text;
          }
        }
        assert events[..|events|] == events;
    }

    /** One frame of `GUI::update` (painting left out): the input half of `draw_ui` on the next frame. */
    method Update() returns (fired: Option<Handoff>)
      requires frames != []
      modifies this, uiState
      ensures Pass(uiState.input, currentInput, fired) == PaintInput(old(uiState.input), old(currentInput), old(frames)[0])
      ensures frames == old(frames)[1..] && uiState.display == old(uiState.display)
    {
      var events := frames[0];
      frames := frames[1..];
      fired := DrawUi(events);
    }
  }

  const USERNAME_PROMPT: string := "Username:"

  /** What the bridge hands back to the driver for one state packet. */
  datatype StateReply = Answer(response: Option<string>) | Command(command: seq<string>)

  /** The bridge: it owns the writing side of the cells and answers the driver. */
  class UiManager {
    const state: UiState
    const gui: Gui
    const config: Settings.Config
    var nextChannel: nat
    var finished: bool

    /** The render side polls this bridge's cells. */
    predicate Valid() {
      gui.uiState == state
    }

    /** The render side's view as the bridge leaves it between packets. */
    function Snapshot(): View
      reads this, gui
    {
      View(gui.currentInput, gui.frames, nextChannel)
    }

    /** `UiManager::new` with the `GUI` that shares its cells: both cells start at their defaults. */
    constructor (config: Settings.Config, frames: seq<seq<Event>>)
      ensures Valid() && fresh(state) && fresh(gui)
      ensures this.config == config && gui.frames == frames && gui.currentInput == []
      ensures state.display == Empty && state.input == UiInputState.NoInput
      ensures nextChannel == 0 && !finished
    {
      var s := new UiState();
      state := s;
      gui := new Gui(s, frames);
      this.config := config;
      nextChannel := 0;
      finished := false;
    }

    /** `oneshot::channel()`: a sender never handed out before. */
    method NewSender() returns (s: Sender)
      modifies this
      ensures s == Sender(old(nextChannel)) && nextChannel == old(nextChannel) + 1
      ensures finished == old(finished)
    {
      s := Sender(nextChannel);
      nextChannel := nextChannel + 1;
    }

    /** Waits on the user: render passes run until the sender in the input cell fires. */
    method AwaitHandoff() returns (fired: Option<Handoff>)
      requires Valid()
      modifies gui, state
      ensures var a := AwaitFrames(old(state.input), old(gui.currentInput), old(gui.frames));
        && fired == a.fired && state.input == a.input
        && gui.currentInput == a.current && gui.frames == a.rest
      ensures state.display == old(state.display)
    {
      fired := None;
      while fired.None? && gui.frames != []
        invariant Valid()
        invariant fired.None? ==>
          AwaitFrames(state.input, gui.currentInput, gui.frames)
            == AwaitFrames(old(state.input), old(gui.currentInput), old(gui.frames))
        invariant fired.Some? ==>
          Awaited(state.input, gui.currentInput, gui.frames, fired)
            == AwaitFrames(old(state.input), old(gui.currentInput), old(gui.frames))
        invariant state.display == old(state.display)
        decreases |gui.frames|
      {
        fired := gui.Update();
      }
    }

    /**
     * The start of `UiManager::run`: the bridge first arms a confirmation
     * and waits for it; then the username is the fixed one, with the display
     * left as it was, or is asked for with a visible text field, showing a
     * spinner once it is captured.  `None`: the user has not yet done what
     * is awaited.
     */
    method Start() returns (username: Option<string>)
      requires Valid()
      modifies this, gui, state
      ensures Valid() && finished == old(finished) && nextChannel >= old(nextChannel)
      ensures username.None? ==> gui.frames == []
      ensures var start := StartStep(config.restrictedUser, old(Snapshot()));
        && (username.None? <==> start.None?)
        && (username.Some? ==> username.value == start.value.0 && Snapshot() == start.value.1)
      ensures var gate := AwaitFrames(UiInputState.Confirm(Sender(old(nextChannel))), old(gui.currentInput), old(gui.frames));
        && (gate.fired.None? ==>
              && username.None? && state.display == old(state.display)
              && state.input == UiInputState.Confirm(Sender(old(nextChannel))) && gui.frames == [])
        && (gate.fired.Some? && config.restrictedUser.Some? ==>
              && username == config.restrictedUser && state.display == old(state.display)
              && state.input == UiInputState.NoInput
              && gui.currentInput == gate.current && gui.frames == gate.rest)
        && (gate.fired.Some? && config.restrictedUser.None? ==>
              var typed := AwaitFrames(UiInputState.Text(Sender(old(nextChannel) + 1)), gate.current, gate.rest);
              && (typed.fired.None? ==>
                    && username.None? && state.display == Message(USERNAME_PROMPT, Shown)
                    && state.input == UiInputState.Text(Sender(old(nextChannel) + 1)))
              && (typed.fired.Some? ==>
                    && username == Some(typed.fired.value.text) && state.display == Loading
                    && state.input == UiInputState.NoInput
                    && gui.currentInput == typed.current && gui.frames == typed.rest))
    {
      var notifier := NewSender();
      state.input := UiInputState.Confirm(notifier);
      var fired := AwaitHandoff();
      if fired.None? {
        return None;
      }
      match config.restrictedUser
      case Some(user) =>
        username := Some(user);
      case None =>
        var responder := NewSender();
        state.display := Message(USERNAME_PROMPT, Shown);
        state.input := UiInputState.Text(responder);
        fired := AwaitHandoff();
        if fired.None? {
          return None;
        }
        state.display := Loading;
        username := Some(fired.value.text);
    }

    /**
     * One state packet of the loop in `UiManager::run`.  An input prompt shows
     * its text with the typing shown or hidden and answers what the user
     * submits; an info prompt shows its note and answers nothing at once,
     * leaving the input cell alone; an error prompt shows its note, asks for
     * a confirmation and answers nothing once confirmed.  Success shows the
     * spinner, answers the configured command and ends the bridge.  `None`:
     * the user has not yet done what is awaited.
     */
    method HandleState(packet: GreetdClient.StatePacket) returns (reply: Option<StateReply>)
      requires Valid() && !finished && state.input.NoInput?
      modifies this, gui, state
      ensures Valid() && nextChannel >= old(nextChannel)
      ensures finished <==> packet.Success?
      ensures packet.Prompt? ==> var step := PromptStep(packet.prompt, old(Snapshot()));
        && (reply.None? <==> step.None?)
        && (reply.Some? ==> reply.value == Answer(step.value.0) && Snapshot() == step.value.1)
      ensures packet.Success? ==> Snapshot() == old(Snapshot())
      ensures reply.Some? ==> state.input.NoInput?
      ensures reply.None? ==> gui.frames == []
      ensures packet.Prompt? && reply.Some? ==>
        reply.value.Answer? && (reply.value.response.Some? <==> packet.prompt.Input?)
      ensures packet.Success? ==>
        && reply == Some(Command(config.command)) && state.display == Loading
        && state.input == old(state.input)
        && gui.currentInput == old(gui.currentInput) && gui.frames == old(gui.frames)
      ensures packet.Prompt? && packet.prompt.Info? ==>
        && reply == Some(Answer(None))
        && state.display == Message(packet.prompt.note, UiDisplayInputVisibility.NoInput(false))
        && state.input == old(state.input)
        && gui.currentInput == old(gui.currentInput) && gui.frames == old(gui.frames)
      ensures packet.Prompt? && packet.prompt.Input? ==>
        var typed := AwaitFrames(UiInputState.Text(Sender(old(nextChannel))), old(gui.currentInput), old(gui.frames));
        && state.display == Message(packet.prompt.prompt, if packet.prompt.secret then Hidden else Shown)
        && state.input == typed.input && gui.currentInput == typed.current && gui.frames == typed.rest
        && reply == (if typed.fired.Some? then Some(Answer(Some(typed.fired.value.text))) else None)
      ensures packet.Prompt? && packet.prompt.Error? ==>
        var confirmed := AwaitFrames(UiInputState.Confirm(Sender(old(nextChannel))), old(gui.currentInput), old(gui.frames));
        && state.display == Message(packet.prompt.note, UiDisplayInputVisibility.NoInput(true))
        && state.input == confirmed.input && gui.currentInput == old(gui.currentInput) && gui.frames == confirmed.rest
        && reply == (if confirmed.fired.Some? then Some(Answer(None)) else None)
    {
      match packet
      case Prompt(prompt) =>
        match prompt {
          case Input(text, secret) =>
            var responder := NewSender();
            state.display := Message(text, if secret then Hidden else Shown);
            state.input := UiInputState.Text(responder);
            var fired := AwaitHandoff();
            reply := if fired.Some? then Some(Answer(Some(fired.value.text))) else None;
          case Info(note) =>
            state.display := Message(note, UiDisplayInputVisibility.NoInput(false));
            reply := Some(Answer(None));
          case Error(note) =>
            var notifier := NewSender();
            state.display := Message(note, UiDisplayInputVisibility.NoInput(true));
            state.input := UiInputState.Confirm(notifier);
            var fired := AwaitHandoff();
            reply := if fired.Some? then Some(Answer(None)) else None;
        }
      case Success() =>
        state.display := Loading;
        finished := true;
        reply := Some(Command(config.command));
    }
  }
}
