/**
 * Whole exchanges over fresh objects: a daemon script for the client, a
 * frame script for the bridge, and a start-up without a socket path.
 */
module Scenarios {
  import opened Wrappers
  import Ipc
  import opened GreetdClient
  import Driver
  import Egui
  import Gui
  import Settings

  /** Enter pressed with no modifier held. */
  const ENTER: Egui.Event := Egui.Key(Egui.Enter, true, Egui.Modifiers(false, false, false, false, false))

  /** Without `GREETD_SOCK` in the environment the driver cannot be built, and no connect is tried. */
  method MissingAddress() returns (r: Result<Driver.ClientManager, ClientError>, attempts: seq<string>)
    ensures r == Err(MissingEnvVar) && attempts == []
  {
    var listener := new Ipc.Stream([], []);
    var connector := new Ipc.Connector(Some(listener));
    r := Driver.ClientManager.New(map["HOME" := "/root"], connector);
    attempts := connector.attempts;
  }

  /**
   * A secret prompt, then the daemon's authentication error: the client
   * surfaces a secret input prompt, posts the answer, and falls back to an
   * unauthenticated client on the same stream with an `AuthError`, not a
   * generic one.
   */
  method SecretThenRejected() returns (prompt: AuthPrompt, error: ClientError, sent: seq<Ipc.Request>, sameStream: bool)
    ensures prompt == Input("Password:", true)
    ensures error == AuthError("bad credentials")
    ensures sent == [Ipc.CreateSession("alice"), Ipc.PostAuthMessageResponse(Some("hunter2"))]
    ensures sameStream
  {
    var stream := new Ipc.Stream(
      [ Some(Ipc.AuthMessage(Ipc.AuthMessageType.Secret, "Password:")),
        Some(Ipc.Response.Error(Ipc.ErrorType.AuthError, "bad credentials")) ],
      [true, true]);
    var created := Client(stream).CreateSession("alice");
    var first := created.value.Next();
    var prompting := first.value.left;
    prompt := prompting.prompt;
    var posted := prompting.Next(Some("hunter2"));
    var second := posted.value.Next();
    error := second.error.0;
    sameStream := second.error.1.stream == stream;
    sent := stream.sent;
  }

  /** A frame with a plain Enter confirms, keeping the buffer. */
  lemma ConfirmFrame(s: Gui.Sender, current: string, rest: seq<seq<Egui.Event>>)
    ensures Gui.AwaitFrames(Gui.UiInputState.Confirm(s), current, [[ENTER]] + rest)
         == Gui.Awaited(Gui.UiInputState.NoInput, current, rest, Some(Gui.Notified(s)))
  {
    assert ([[ENTER]] + rest)[0] == [ENTER] && ([[ENTER]] + rest)[1..] == rest;
    assert Egui.IsPress([ENTER][0], Egui.Enter);
  }

  /** A frame that types `text` into an empty field and presses Enter sends exactly `text`. */
  lemma TypedFrame(s: Gui.Sender, text: string, rest: seq<seq<Egui.Event>>)
    ensures Gui.AwaitFrames(Gui.UiInputState.Text(s), [], [[Egui.Text(text), ENTER]] + rest)
         == Gui.Awaited(Gui.UiInputState.NoInput, [], rest, Some(Gui.Sent(s, text)))
  {
    var frame := [Egui.Text(text), ENTER];
    assert ([frame] + rest)[0] == frame && ([frame] + rest)[1..] == rest;
    assert frame[..1] == [Egui.Text(text)] && frame[..1][..0] == [];
    var start := Gui.Pass(Gui.UiInputState.Text(s), [], None);
    assert Gui.TextEvents(start, frame[..1]) == Gui.Pass(Gui.UiInputState.Text(s), text, None);
  }

  /** With a fixed user, one confirming frame starts the attempt as that user, the display untouched. */
  method FixedUserStart(user: string) returns (username: Option<string>, shown: Gui.UiDisplayState)
    ensures username == Some(user) && shown == Gui.Empty
  {
    var frames := [[ENTER]];
    var ui := new Gui.UiManager(Settings.Config(Some(user), ["sway"], None), frames);
    assert frames + [] == frames;
    ConfirmFrame(Gui.Sender(0), [], []);
    username := ui.Start();
    shown := ui.state.display;
  }

  /** The frames of a start-up without a fixed user: a confirmation, then the name typed and sent. */
  lemma TypedUserFrames(user: string)
    ensures var gate := Gui.AwaitFrames(Gui.UiInputState.Confirm(Gui.Sender(0)), [], [[ENTER], [Egui.Text(user), ENTER]]);
      && gate.fired.Some?
      && Gui.AwaitFrames(Gui.UiInputState.Text(Gui.Sender(1)), gate.current, gate.rest).fired
         == Some(Gui.Sent(Gui.Sender(1), user))
  {
    var typing := [[Egui.Text(user), ENTER]];
    assert [[ENTER], [Egui.Text(user), ENTER]] == [[ENTER]] + typing;
    assert typing + [] == typing;
    ConfirmFrame(Gui.Sender(0), [], typing);
    TypedFrame(Gui.Sender(1), user, []);
  }

  /**
   * Without a fixed user, one frame confirms, the next types the name and
   * presses Enter: that name starts the attempt, and the spinner replaces
   * the username prompt.
   */
  method TypedUserStart(user: string) returns (username: Option<string>, shown: Gui.UiDisplayState)
    ensures username == Some(user) && shown == Gui.Loading
  {
    var ui := new Gui.UiManager(Settings.Config(None, ["sway"], None), [[ENTER], [Egui.Text(user), ENTER]]);
    TypedUserFrames(user);
    username := ui.Start();
    shown := ui.state.display;
  }

  /** The daemon's script of the login below: one visible question, then success. */
  const LOGIN_INBOX: seq<Option<Ipc.Response>> := [Some(Ipc.AuthMessage(Ipc.AuthMessageType.Visible, "Code:")), Some(Ipc.Success)]

  /** The render side once the fixed user has confirmed: the answer still to be typed. */
  const LOGIN_VIEW: Gui.View := Gui.View([], [[Egui.Text("1234"), ENTER]], 1)

  /**
   * Against that script, with every write going through and the user
   * typing "1234" and Enter, the only way an attempt can be `Settled` is
   * success with the full trace, every write used.
   */
  lemma LoginSettles(exchanges: seq<Driver.Exchange>, outcome: Driver.Outcome, sent: seq<Ipc.Request>, writes: seq<bool>, snap: Gui.View)
    requires Driver.Settled(Driver.Attempt(LOGIN_INBOX, [true, true, true], LOGIN_VIEW, "alice", ["sway"]), exchanges, outcome, sent, writes, snap)
    ensures outcome == Driver.Finished(Ok(()))
    ensures sent == [Ipc.CreateSession("alice"), Ipc.PostAuthMessageResponse(Some("1234")), Ipc.StartSession(["sway"], [])]
    ensures writes == []
  {
    var question := Input("Code:", false);
    var typing := [[Egui.Text("1234"), ENTER]];
    assert typing + [] == typing;
    TypedFrame(Gui.Sender(1), "1234", []);
    assert StepFor(LOGIN_INBOX[0].value) == Prompted(question);
    assert Gui.PromptStep(question, LOGIN_VIEW) == Some((Some("1234"), Gui.View([], [], 2)));
    assert LOGIN_INBOX[1] == Some(Ipc.Success);
    assert |exchanges| <= 1;
    Driver.FullTraceShape("alice", exchanges, ["sway"]);
    assert outcome != Driver.Finished(Err(FailedSocketWrite));
    assert Driver.After([], LOGIN_VIEW) == Some(LOGIN_VIEW);
    assert outcome.Finished?;
    assert outcome.result.Ok? ==> outcome.result.value == ();
    assert LOGIN_INBOX[0..] == LOGIN_INBOX;
    assert exchanges != [];
    assert exchanges[0].prompt == question;
    assert exchanges[..0] == [];
    assert exchanges == [Driver.Exchange(question, Some("1234"))];
    assert Driver.FullTrace("alice", exchanges, ["sway"])
        == [Ipc.CreateSession("alice"), Ipc.PostAuthMessageResponse(Some("1234")), Ipc.StartSession(["sway"], [])];
  }

  /**
   * A whole attempt through the driver: a fixed user confirms, the daemon
   * asks a visible question, the user types "1234" and presses Enter, and
   * the daemon accepts.  The attempt succeeds, the daemon has received
   * exactly `CreateSession`, the typed answer and `StartSession` with the
   * configured command, and all three writes were used.
   */
  method FixedUserLogin() returns (outcome: Driver.Outcome, sent: seq<Ipc.Request>, writesLeft: seq<bool>)
    ensures outcome == Driver.Finished(Ok(()))
    ensures sent == [Ipc.CreateSession("alice"), Ipc.PostAuthMessageResponse(Some("1234")), Ipc.StartSession(["sway"], [])]
    ensures writesLeft == []
  {
    var stream := new Ipc.Stream(LOGIN_INBOX, [true, true, true]);
    var typing := [[Egui.Text("1234"), ENTER]];
    var frames := [[ENTER]] + typing;
    var ui := new Gui.UiManager(Settings.Config(Some("alice"), ["sway"], None), frames);
    ConfirmFrame(Gui.Sender(0), [], typing);
    assert Gui.StartStep(Some("alice"), Gui.View([], frames, 0)) == Some(("alice", LOGIN_VIEW));
    var manager := Driver.ClientManager(Client(stream));
    ghost var username, exchanges;
    outcome, username, exchanges := manager.Run(ui);
    sent := stream.sent;
    writesLeft := stream.writeOutcomes;
    assert sent[0..] == sent;
    LoginSettles(exchanges, outcome, sent, writesLeft, ui.Snapshot());
  }

  /** The daemon's script of the rejected login below: one secret question, then an authentication error. */
  const REJECT_INBOX: seq<Option<Ipc.Response>> :=
    [Some(Ipc.AuthMessage(Ipc.AuthMessageType.Secret, "Password:")), Some(Ipc.Response.Error(Ipc.ErrorType.AuthError, "bad credentials"))]

  /** The render side once the fixed user has confirmed: the password still to be typed. */
  const REJECT_VIEW: Gui.View := Gui.View([], [[Egui.Text("hunter2"), ENTER]], 1)

  /** An attempt either waits on the user, succeeds, or fails with an error. */
  lemma OutcomeCases(o: Driver.Outcome)
    ensures o == Driver.Stalled || o == Driver.Finished(Ok(())) || (o.Finished? && o.result.Err?)
  {
    if o.Finished? && o.result.Ok? {
      assert o.result.value == ();
    }
  }

  /**
   * Against that script, with both writes going through and the user
   * typing "hunter2" and Enter, the only way an attempt can be `Settled` is
   * the daemon's `AuthError` after `CreateSession` and the posted password,
   * every write used.
   */
  lemma RejectedSettles(exchanges: seq<Driver.Exchange>, outcome: Driver.Outcome, sent: seq<Ipc.Request>, writes: seq<bool>, snap: Gui.View)
    requires Driver.Settled(Driver.Attempt(REJECT_INBOX, [true, true], REJECT_VIEW, "alice", ["sway"]), exchanges, outcome, sent, writes, snap)
    ensures outcome == Driver.Finished(Err(AuthError("bad credentials")))
    ensures sent == [Ipc.CreateSession("alice"), Ipc.PostAuthMessageResponse(Some("hunter2"))]
    ensures writes == []
  {
    var question := Input("Password:", true);
    var typing := [[Egui.Text("hunter2"), ENTER]];
    assert typing + [] == typing;
    TypedFrame(Gui.Sender(1), "hunter2", []);
    assert StepFor(REJECT_INBOX[0].value) == Prompted(question);
    assert Gui.PromptStep(question, REJECT_VIEW) == Some((Some("hunter2"), Gui.View([], [], 2)));
    assert StepFor(REJECT_INBOX[1].value) == Rejected(AuthError("bad credentials"));
    assert |exchanges| <= 1;
    Driver.FullTraceShape("alice", exchanges, ["sway"]);
    assert Driver.After([], REJECT_VIEW) == Some(REJECT_VIEW);
    assert REJECT_INBOX[0..] == REJECT_INBOX && REJECT_INBOX[1..] == [REJECT_INBOX[1]];
    assert REJECT_INBOX[0] != Some(Ipc.Success) && REJECT_INBOX[1] != Some(Ipc.Success);
    assert Driver.WriteOk([true, true], 0) && Driver.WriteOk([true, true], 1);
    assert outcome != Driver.Stalled;
    OutcomeCases(outcome);
    assert outcome == Driver.Finished(Err(outcome.result.error));
    assert outcome != Driver.Finished(Err(FailedSocketWrite));
    assert outcome != Driver.Finished(Err(FailedSocketRead));
    assert outcome.Finished? && outcome.result.Err? && outcome.result.error.FromDaemon();
    assert exchanges != [];
    assert exchanges[0].prompt == question;
    assert exchanges[..0] == [];
    assert exchanges == [Driver.Exchange(question, Some("hunter2"))];
    assert Driver.Pending(Driver.Attempt(REJECT_INBOX, [true, true], REJECT_VIEW, "alice", ["sway"]), exchanges)
        == [Ipc.CreateSession("alice"), Ipc.PostAuthMessageResponse(Some("hunter2"))];
  }

  /**
   * A whole rejected attempt through the driver: a fixed user confirms, the
   * daemon asks for a password, the user types "hunter2" and presses Enter,
   * and the daemon answers with an authentication error.  The attempt ends
   * with that `AuthError`, the daemon has received exactly `CreateSession`
   * and the posted password, and both writes were used.
   */
  method SecretRejectedRun() returns (outcome: Driver.Outcome, sent: seq<Ipc.Request>, writesLeft: seq<bool>)
    ensures outcome == Driver.Finished(Err(AuthError("bad credentials")))
    ensures sent == [Ipc.CreateSession("alice"), Ipc.PostAuthMessageResponse(Some("hunter2"))]
    ensures writesLeft == []
  {
    var stream := new Ipc.Stream(REJECT_INBOX, [true, true]);
    var typing := [[Egui.Text("hunter2"), ENTER]];
    var frames := [[ENTER]] + typing;
    var ui := new Gui.UiManager(Settings.Config(Some("alice"), ["sway"], None), frames);
    ConfirmFrame(Gui.Sender(0), [], typing);
    assert Gui.StartStep(Some("alice"), Gui.View([], frames, 0)) == Some(("alice", REJECT_VIEW));
    var manager := Driver.ClientManager(Client(stream));
    ghost var username, exchanges;
    outcome, username, exchanges := manager.Run(ui);
    sent := stream.sent;
    writesLeft := stream.writeOutcomes;
    assert sent[0..] == sent;
    RejectedSettles(exchanges, outcome, sent, writesLeft, ui.Snapshot());
  }

  /** The bridge over an input prompt answers with what the user typed before Enter. */
  method InputPrompt(prompt: string, secret: bool, typed: string) returns (answer: Option<Gui.StateReply>)
    ensures answer == Some(Gui.Answer(Some(typed)))
  {
    var frames := [[Egui.Text(typed), ENTER]];
    var ui := new Gui.UiManager(Settings.Config(None, ["sway"], None), frames);
    assert frames + [] == frames;
    TypedFrame(Gui.Sender(0), typed, []);
    answer := ui.HandleState(Prompt(Input(prompt, secret)));
  }

  /** The bridge over an input prompt shows the prompt, masking the typing when it is secret. */
  method InputPromptShown(prompt: string, secret: bool) returns (shown: Gui.UiDisplayState)
    ensures shown == Gui.Message(prompt, if secret then Gui.Hidden else Gui.Shown)
  {
    var ui := new Gui.UiManager(Settings.Config(None, ["sway"], None), []);
    var _ := ui.HandleState(Prompt(Input(prompt, secret)));
    shown := ui.state.display;
  }

  /** The bridge on success: the spinner, the configured command as the reply, and the bridge is done. */
  method SuccessEndsBridge() returns (command: Option<Gui.StateReply>, last: Gui.UiDisplayState, finished: bool)
    ensures command == Some(Gui.Command(["sway"]))
    ensures last == Gui.Loading && finished
  {
    var ui := new Gui.UiManager(Settings.Config(None, ["sway"], None), []);
    command := ui.HandleState(StatePacket.Success);
    last := ui.state.display;
    finished := ui.finished;
  }

  /** A frame without Enter leaves a confirmation armed and uses up the frames. */
  lemma IdleFrame(s: Gui.Sender, current: string, idle: seq<Egui.Event>)
    requires !Egui.KeyPressed(idle, Egui.Enter)
    ensures Gui.AwaitFrames(Gui.UiInputState.Confirm(s), current, [idle])
         == Gui.Awaited(Gui.UiInputState.Confirm(s), current, [], None)
  {
    assert [idle][0] == idle && [idle][1..] == [];
  }

  /** An error prompt is shown with the confirmation hint and gets no reply while nobody confirms. */
  method ErrorAwaitsConfirmation() returns (waiting: Option<Gui.StateReply>, shown: Gui.UiDisplayState)
    ensures waiting.None?
    ensures shown == Gui.Message("bad credentials", Gui.UiDisplayInputVisibility.NoInput(true))
  {
    var idle: seq<Egui.Event> := [Egui.Text("x")];
    var ui := new Gui.UiManager(Settings.Config(Some("alice"), ["sway"], None), [idle]);
    assert !Egui.KeyPressed(idle, Egui.Enter);
    IdleFrame(Gui.Sender(0), [], idle);
    waiting := ui.HandleState(Prompt(Error("bad credentials")));
    shown := ui.state.display;
  }

  /** An error prompt gets its reply, no answer, once a frame confirms it. */
  method ErrorConfirmed() returns (confirmed: Option<Gui.StateReply>)
    ensures confirmed == Some(Gui.Answer(None))
  {
    var frames := [[ENTER]];
    var ui := new Gui.UiManager(Settings.Config(Some("alice"), ["sway"], None), frames);
    assert frames + [] == frames;
    ConfirmFrame(Gui.Sender(0), [], []);
    confirmed := ui.HandleState(Prompt(Error("bad credentials")));
  }
}
