# cliffcrown greeter core in Dafny

cliffcrown is a graphical greeter for the greetd login daemon. This project
models the logic that is left once painting, the async runtime and the Unix
socket are stripped away:

- **`GreetdClient`** (`client.dfy`): the greetd protocol client as a typestate
  machine. `Client`, `ActiveClient`, `PromptingClient` and
  `SuccessfulClient` each hold the one stream to the daemon. Each transition
  returns the next state, or an error paired with a state that still holds
  the same stream. `StepFor` maps daemon responses to prompts, success or
  daemon errors.
- **`Ipc`** (`ipc.dfy`): the greetd message shapes as datatypes, and a
  scripted stream. The stream logs what it sent, reads from a queue of
  responses (`None` is a message that does not decode), and takes a script of
  write outcomes; once a script runs out, the daemon has hung up. A
  `Connector` stands for `UnixStream::connect`.
- **`Driver`** (`driver.dfy`): `ClientManager`, which runs one login attempt
  against the bridge.
- **`Gui`** (`gui.dfy`): the interaction bridge. It holds the two shared cells
  (display and input), the input-handling half of the render pass, and
  `UiManager`, which turns the driver's prompts into display and input
  changes and answers with what the user typed.
- **`HiddenInput`** (`hidden_input.dfy`): the indicator widget's phase machine
  and the event loop of its `show`.
- **`ChangeDetection`** and **`LateInit`** (`change_detector.dfy`,
  `late_init.dfy`): the dirty-flag cell and the write-once cell.
- **`Settings`** (`settings.dfy`): the config-file fallback and the merge with
  the command line.
- **`Scenarios`** (`scenarios.dfy`): whole exchanges over freshly built
  objects.

The driver and the bridge really run as two tokio tasks. Here they run as a
sequential alternation. Where the source sends a state packet on a oneshot
channel and awaits the reply on the next one, the driver calls
`UiManager.HandleState` and takes its return value. A oneshot sender is a
token `Sender(id)`, and the bridge mints each one fresh. Whenever the bridge
waits on the user, render passes run, one scripted frame of input events
each, until the sender the bridge left in the input cell fires. If the frames
run out first, the user has not acted yet (`None`, or `Stalled` for the
driver).

Two behaviours of the code to note:
- When the daemon rejects the credentials (`Response::Error`),
  `ClientManager::run` ends with the error and never forwards it to the
  bridge. The bridge therefore never shows it. Only the daemon's
  `AuthMessage` of type `Error` is shown behind a confirmation.
- `StartSession` always carries an empty environment (client.rs:285).

## Model

| member | source | states |
|---|---|---|
| GreetdClient.StepFor | src/client.rs:119-161 | Success gives the successful state and nothing else does; an auth message gives exactly the prompt that re-encodes to it, so kind and text are kept; an error response gives a daemon error that re-encodes to it, Error as GenericError and AuthError as AuthError |
| GreetdClient.PromptRoundTrip | src/client.rs:139-160 | every prompt comes back out of the auth message that carries it, so secret and visible input, info and error stay apart |
| GreetdClient.Client.New | src/client.rs:77-85 | without GREETD_SOCK in the environment the result is MissingEnvVar and no connect is attempted; with it, exactly one connect to the path it holds, giving FailedSocketConnection or a client on the connected stream |
| GreetdClient.Client.CreateSession | src/client.rs:87-99 | sends exactly CreateSession{username} when the write goes through, giving an active client on the same stream; otherwise FailedSocketWrite with this same client |
| GreetdClient.ActiveClient.Next | src/client.rs:103-162 | reads one response and writes nothing; an unreadable one gives FailedSocketRead with an unauthenticated client on the same stream; otherwise the state or error StepFor gives, on the same stream |
| GreetdClient.ActiveClient.Cancel | src/client.rs:164-176 | attempts CancelSession and always returns an unauthenticated client on the same stream; the error is present exactly when the write failed |
| GreetdClient.PromptingClient.Next | src/client.rs:180-193 | sends PostAuthMessageResponse with the answer unchanged, so None and Some("") stay apart; a failed write returns this same prompting client, prompt included |
| GreetdClient.PromptingClient.Cancel | src/client.rs:195-207 | as ActiveClient.Cancel |
| GreetdClient.SuccessfulClient.Finish | src/client.rs:211-223 | sends StartSession{cmd, env} as given; a failed write returns this same client for a retry |
| Ipc.Stream.Write | src/client.rs:91-94 | the request reaches the daemon exactly when the scripted write succeeds; the response queue is untouched |
| Ipc.Stream.Read | src/client.rs:107-117 | takes the first scripted response; an exhausted queue reads as a failure |
| Ipc.Connector.Connect | src/client.rs:81-82 | records one connect attempt to the path and yields the listening stream, if any |
| Driver.ClientManager.New | src/client.rs:246-255 | the attempt owns a fresh client, or fails exactly as Client::new does |
| Driver.FullTraceShape | src/client.rs:257-291 | the requests of a successful attempt are CreateSession{username}, then one PostAuthMessageResponse per forwarded prompt carrying its answer, in order, then StartSession{cmd, env = []} |
| Driver.PostsAt | src/client.rs:267-280 | the posted answers are the exchanges' answers, one each, in order |
| Driver.ForwardedAppend | src/client.rs:268-278 | forwarding the next daemon message as one more exchange keeps the exchanges in step with the daemon's messages |
| Driver.ClientManager.Run | src/client.rs:257-291 | the requests sent are a prefix of that full trace, and all of it exactly when the attempt succeeds; if the user never gets past the start-up nothing is sent or written; otherwise the username is the bridge's (StartStep) and the attempt ends Settled; the bridge finishes only after the daemon's success, on the spinner |
| Driver.ClientManager.Serve | src/client.rs:267-290 | the loop of run once the session is requested: from the waiting state Progress, the attempt ends Settled, with the delivered requests on top of what was sent before |
| Driver.Settled | src/client.rs:257-291 | how an attempt ends: the delivered requests are a prefix of the full trace, all of it exactly on success; on FailedSocketWrite everything before the failed write (CreateSession, the post of the last exchange, or StartSession after the daemon's success); on every other ending CreateSession and every post, so a daemon error or unreadable reply comes only after all posts went through; the first d writes went through, then one failed exactly on FailedSocketWrite, and the write script left is the rest; the only errors are FailedSocketWrite, FailedSocketRead and daemon errors; the exchanges are the daemon's first messages, answered as the bridge answers them; success, a daemon error or an unreadable message is the message after the last exchange; a stall is a prompt the bridge cannot answer yet |
| Driver.CreateFailureSettles | src/client.rs:259-262 | a failed CreateSession ends the attempt with nothing delivered, having used its write |
| Driver.ReadFailureSettles | src/client.rs:266-267 | an unreadable response or a daemon error ends the attempt with what was delivered so far and no write used |
| Driver.StallSettles | src/client.rs:269-275 | a prompt the bridge cannot answer yet leaves the attempt stalled, nothing more written |
| Driver.PostSettles | src/client.rs:269-278 | an answered prompt extends the exchanges; the post then goes through and the attempt waits on the daemon again, or fails and ends it on FailedSocketWrite |
| Driver.FinishSettles | src/client.rs:280-287 | after the daemon's success, StartSession going through completes the trace and ends Ok; failing ends the attempt on FailedSocketWrite |
| Driver.AfterAppend | src/client.rs:268-278 | an exchange the bridge answered from the view the earlier ones left extends the bridge's run |
| Driver.SkipStep | src/client.rs:91-94 | each write consumes one outcome of the write script, and goes through exactly when that outcome says so |
| Driver.WriteLogStep | src/client.rs:91-94 | one more write that goes through extends the log of writes that went through |
| Driver.Forward | src/client.rs:269-278 | one prompt goes to the bridge, which answers as PromptStep says; the attempt stalls, with nothing written, exactly when the bridge cannot answer; otherwise the answer is posted with one write, and the attempt goes on with the client that posted it exactly when that write goes through, else ends on FailedSocketWrite |
| Driver.Conclude | src/client.rs:280-287 | after success the bridge shows the spinner and is done, its view untouched; StartSession carries the configured command and no environment with one write, and the attempt ends Ok exactly when that write goes through, else on FailedSocketWrite |
| Driver.AskBridge | src/client.rs:271-275 | the bridge's answer to one packet as the driver relies on it: a prompt is answered as PromptStep says, only input prompts get an answer, success ends the bridge with the configured command and leaves its view alone, and no reply means the frames ran out |
| Driver.AskUsername | src/client.rs:263 | the bridge's start-up as the driver relies on it: the username is the one StartStep gives, leaving the input cell empty, and no username means the frames ran out |
| Egui.Pop | src/gui.rs:183 | String::pop with its result dropped: the last character goes, and an empty string stays empty |
| Gui.UiInputState.GetType | src/gui.rs:267-273 | the tag is NoInput, Confirm or Text exactly when the variant is |
| Gui.TextEvent | src/gui.rs:159-189 | one text-mode event, corrected (see Findings): the pass stays at rest; the first plain Enter sends exactly the buffer on the responder the cell held, and leaves both the buffer and the cell empty; once something was sent, later events never send again or refill the cell; as long as nothing is sent the responder stays in the cell |
| Gui.TextEvents | src/gui.rs:158-190 | the text-mode pass over a frame keeps the pass at rest, and only the responder that was in the cell is ever sent on |
| Gui.TextEventsAppend | src/gui.rs:158-190 | the pass over two runs of events is the pass over the first continued over the second |
| Gui.TextEventsWithoutEnter | src/gui.rs:177-187 | without a plain Enter the responder stays in the cell and the buffer is the edit of the events: appended text, popped on plain Backspace, a no-op on an empty buffer |
| Gui.SubmitsBufferAtFirstEnter | src/gui.rs:160-176 | the first plain Enter sends exactly what was typed before it, whatever follows in the frame |
| Gui.AsWrittenPanicsOnSecondEnter | src/gui.rs:166-172 | the source's text pass panics exactly when a frame holds a second plain Enter, and has sent nothing before the first |
| Gui.DoubleEnterPanics | src/gui.rs:166-172 | a frame of two plain Enter presses reaches the source's unreachable!() |
| Gui.CorrectedAgreesWithSource | src/gui.rs:157-190 | wherever the source does not panic, the corrected pass does exactly what it does |
| Gui.PaintInput | src/gui.rs:140-192 | a confirmation fires exactly when Enter was pressed and a text field exactly when the frame holds a plain Enter; a pass fires only the sender the cell held, empties the cell exactly when it fires, notifies exactly in confirm mode, and leaves the buffer alone outside text mode |
| Gui.TextPassFiresAtEnter | src/gui.rs:158-190 | a text-mode pass with the responder in the cell fires exactly when the frame holds a plain Enter |
| Gui.AwaitFrames | src/gui.rs:140-192 | waiting over frames: if some frame fires, the cell held that sender and is now empty; if none does, every frame was used and the cell still holds its sender |
| Gui.AwaitLeavesSuffix | src/gui.rs:140-192 | waiting consumes frames from the front: the frames left are a suffix of the script |
| Gui.UiState.TakeInput | src/gui.rs:148 | mem::take on the input cell: the old contents come out and NoInput stays behind |
| Gui.Gui.DrawUi | src/gui.rs:140-192 | the input half of draw_ui leaves the cells and buffer as PaintInput says, the display untouched |
| Gui.Gui.Update | src/gui.rs:24-61 | one render pass consumes one scripted frame and runs DrawUi on it |
| Gui.UiManager.constructor | src/gui.rs:290-301 | both cells start at their defaults, Empty and NoInput, shared with the render side |
| Gui.UiManager.NewSender | src/gui.rs:316 | oneshot::channel hands out a sender never handed out before |
| Gui.UiManager.AwaitHandoff | src/gui.rs:322 | waiting on the user runs frames until the sender in the cell fires, as AwaitFrames says |
| Gui.PromptStep | src/gui.rs:358-410 | the bridge's answer to one prompt: only input prompts get an answer; an info prompt answers at once and changes nothing; input and error prompts use one fresh channel, and an error prompt leaves the buffer alone |
| Gui.StartStep | src/gui.rs:316-345 | the bridge's start-up: a fixed user is the username after one fresh channel, otherwise the typed name after two; without frames it cannot start |
| Gui.UiManager.Start | src/gui.rs:316-348 | the username and the view afterwards are exactly what StartStep gives; the input first becomes Confirm and nothing proceeds until it is notified; a configured user is the username with the display left as it was; otherwise the display is Message{"Username:", Shown} with Text input, then Loading once the username is captured |
| Gui.UiManager.HandleState | src/gui.rs:350-423 | a prompt's reply and the view afterwards are exactly what PromptStep gives, and success leaves the view alone; Input shows the prompt, Hidden if secret else Shown, with Text input, and replies with the captured text; Info shows the note with NoInput{false}, leaves the input alone and replies None at once; Error shows the note with NoInput{true}, asks for a confirmation and replies None only once confirmed; Success shows Loading, replies exactly config.command and ends the bridge |
| HiddenInput.IndicatorPhase.SetInputPhase | src/gui/hidden_input.rs:253-261 | while taking input, sets the edit kind and keeps the variant and the highlight; no-op on Submitting and Inactive |
| HiddenInput.IndicatorPhase.Submit | src/gui/hidden_input.rs:263-265 | Submitting from any phase |
| HiddenInput.IndicatorPhase.Edit | src/gui/hidden_input.rs:267-278 | no-op while taking input, whatever the flag; otherwise Hidden or Visible as asked with the default input state (no highlight, Add) |
| HiddenInput.EditIdempotent | src/gui/hidden_input.rs:267-278 | editing twice is editing once, whatever the second flag |
| HiddenInput.IndicatorPhase.NextHighlight | src/gui/hidden_input.rs:280-302 | while taking input, lights a segment in 0..segments that differs from the one lit before, keeping the edit kind; a roll must lie in 1..segments once a segment is lit and in 0..segments before, so two segments are needed once one is lit and one before; no-op otherwise |
| HiddenInput.NextHighlightReaches | src/gui/hidden_input.rs:290-298 | every segment other than the lit one can come next, for some roll in the drawn interval |
| HiddenInput.IndicatorPhase.ClearHighlight | src/gui/hidden_input.rs:304-318 | while taking input, unlights the ring and keeps the variant and edit kind; no-op otherwise |
| HiddenInput.TempData.constructor | src/gui/hidden_input.rs:24-31 | the phase slot reads as the default phase, Inactive, until written |
| HiddenInput.TempData.MarkEdit | src/gui/hidden_input.rs:140-157 | an edit marks its kind, then lights a new segment |
| HiddenInput.ShowEvent | src/gui/hidden_input.rs:137-168 | text is appended and marks Add; a pressed Backspace pops and marks Delete only when a character went; a pressed Enter moves the whole text into submitted and leaves it empty; the phase's variant never changes |
| HiddenInput.ShowFitsPrefix | src/gui/hidden_input.rs:135-169 | rolls that fit a frame fit every prefix of it |
| HiddenInput.ShowKeepsPhase | src/gui/hidden_input.rs:135-169 | a frame never changes the phase's variant, leaves a phase that is not taking input alone, and keeps the lit segment on the ring |
| HiddenInput.ShowAppendsText | src/gui/hidden_input.rs:138-145 | a run of text events appends their text in order and submits nothing |
| HiddenInput.Indicator.constructor | src/gui/hidden_input.rs:52-65 | a six-segment ring of radius 50 and gap 1 with default strokes, editing the given text |
| HiddenInput.Indicator.StrokeFor | src/gui/hidden_input.rs:174-184 | Add picks the add stroke, Delete the delete stroke, Submitting the submit stroke, Inactive the inactive stroke |
| HiddenInput.Indicator.StrokeFollowsMutators | src/gui/hidden_input.rs:174-184 | after set_input_phase the fill matches the edit kind, after submit it is the submit fill, and the default phase has the inactive fill |
| HiddenInput.Indicator.Show | src/gui/hidden_input.rs:123-170 | with focus the events edit the text and phase as ShowEvent says, in order; without focus nothing changes; the fill is chosen from the phase as it was before the frame |
| ChangeDetection.ChangeDetector.constructor | src/util/change_detector.rs:9-14 | the target as given, flagged as changed |
| ChangeDetection.ChangeDetector.Changed | src/util/change_detector.rs:16-18 | reports the flag and changes nothing |
| ChangeDetection.ChangeDetector.TakeChange | src/util/change_detector.rs:20-27 | returns the flag as it was and leaves it clear |
| ChangeDetection.ChangeDetector.TakeChangeTwice | src/util/change_detector.rs:20-27 | a second take_change straight after the first returns false |
| ChangeDetection.ChangeDetector.GetIfChanged | src/util/change_detector.rs:29-31 | the target exactly when the flag was set, leaving it clear |
| ChangeDetection.ChangeDetector.Deref | src/util/change_detector.rs:34-40 | shared access yields the target and leaves the flag alone |
| ChangeDetection.ChangeDetector.DerefMut | src/util/change_detector.rs:42-47 | mutable access sets the flag |
| ChangeDetection.Lifecycle | src/util/change_detector.rs:9-47 | a new detector is seen once, not again after a read, and again after a write, with the written value |
| LateInit.LateInitialiser.Initialise | src/util/late_init.rs:16-19 | stores the value and raises the flag; the handle is consumed, so each handle writes at most once |
| LateInit.LateInitialisee.Get | src/util/late_init.rs:28-34 | Some exactly when initialised, and then the value written |
| LateInit.LateInitialisee.GetMut | src/util/late_init.rs:36-43 | Some exactly when initialised, and a write through it replaces the value; before, nothing is touched |
| LateInit.LateInitialisee.Drop | src/util/late_init.rs:45-53 | the value is dropped only if it was initialised |
| LateInit.LateInitialise | src/util/late_init.rs:55-69 | both handles share one fresh uninitialised cell, and get returns None |
| LateInit.Lifecycle | src/util/late_init.rs:16-69 | a cell reads None, then the value written, and dropping it drops that value |
| Settings.Stash | src/main.rs:44-59 | the parsed file when it opens, reads and parses; the all-missing default otherwise |
| Settings.Merge | src/main.rs:61-68 | restricted user and background come from the command line if given, else from the file; the command from the command line, else the file, else ["bash"] |
| Settings.Load | src/main.rs:44-68 | -u, -b and the trailing command win when given; when the file at the -C path (or /etc/greetd/cliffcrown.toml without one) cannot be opened, read or parsed, the config is the command line's with ["bash"] as the fallback command; otherwise each setting missing from the command line comes from the parsed file, the command falling back to ["bash"] |
| Settings.MergeWithoutFile | src/main.rs:44-68 | without a usable file the command line alone decides, and an empty command line gives no user, no background and bash |
| Scenarios.LoginSettles | src/client.rs:257-291 | against one visible question then success, all writes going through and the user typing the answer, the only way to settle is success with exactly CreateSession, the typed answer and StartSession, every write used |
| Scenarios.FixedUserLogin | src/client.rs:257-291 | a whole attempt with a fixed user, one visible question answered by typing, then success: the driver ends Ok having delivered exactly that trace |
| Scenarios.RejectedSettles | src/client.rs:257-291 | against one secret question then an authentication error, both writes going through and the user typing the password, the only way to settle is that AuthError after exactly CreateSession and the posted password, every write used |
| Scenarios.SecretRejectedRun | src/client.rs:257-291 | a whole attempt with a fixed user, a secret question answered by typing, then the daemon's AuthError: the driver ends with that AuthError having delivered exactly CreateSession and the posted password |
| Scenarios.MissingAddress | src/client.rs:77-82 | without the socket variable, building the driver fails with MissingEnvVar and no connect is tried |
| Scenarios.SecretThenRejected | src/client.rs:103-193 | a secret prompt comes out as secret input; the answer is posted; the daemon's auth error comes out as AuthError, not GenericError, with a client on the same stream |
| Scenarios.ConfirmFrame | src/gui.rs:144-155 | a frame with a plain Enter confirms and keeps the buffer |
| Scenarios.TypedFrame | src/gui.rs:157-190 | a frame that types a text into an empty field and presses Enter sends exactly that text |
| Scenarios.FixedUserStart | src/gui.rs:316-326 | with a configured user, one confirming frame starts the attempt as that user, the display untouched |
| Scenarios.TypedUserFrames | src/gui.rs:316-338 | with no fixed user, a confirming frame then a frame that types the name and presses Enter fire the confirmation and then send exactly that name |
| Scenarios.TypedUserStart | src/gui.rs:316-345 | with no fixed user, confirming and then typing a name starts the attempt as that name, and the display ends on the spinner |
| Scenarios.InputPrompt | src/gui.rs:359-377 | an input prompt is answered with exactly what was typed before Enter |
| Scenarios.InputPromptShown | src/gui.rs:359-369 | an input prompt is shown, with the typing masked exactly when it is secret |
| Scenarios.IdleFrame | src/gui.rs:144-155 | a frame without an Enter press leaves the confirmation armed and fires nothing |
| Scenarios.ErrorAwaitsConfirmation | src/gui.rs:391-406 | an error prompt is shown with the confirmation hint, and gets no reply while nobody confirms |
| Scenarios.ErrorConfirmed | src/gui.rs:391-411 | once a frame confirms, the error prompt gets its reply, with no answer |
| Scenarios.SuccessEndsBridge | src/gui.rs:413-421 | success shows the spinner, replies with the configured command and ends the bridge |

## Left out

- The greetd codec's byte format (`write_to`, `read_from`) belongs to an
  external crate. Requests and responses are abstract datatypes, so there is
  no wire round-trip.
- The io and codec error payloads of `FailedSocketConnection`,
  `FailedSocketWrite` and `FailedSocketRead` are not modelled.
- The `Display` strings of `ClientError` (src/client.rs:20-44) are not modelled.
- The process environment is a map passed to `Client.New`, and the Unix
  socket connect is the `Connector`. A `GREETD_SOCK` that is set but not
  valid Unicode is not modelled.
- The typestate transitions `Client.CreateSession`, `ActiveClient.Next`,
  `ActiveClient.Cancel`, `PromptingClient.Next`, `PromptingClient.Cancel` and
  `SuccessfulClient.Finish` take `self` by move in the source. Here the
  connection states are values that stay usable after a transition, so the
  model does not rule out reusing a consumed state; the driver uses each
  state once.
- tokio semantics (`oneshot`, `RwLock`, `block_in_place`, task scheduling)
  are not modelled. The alternation above stands in for them.
- Render passes are modelled only while the bridge waits on the user; frames
  painted while it waits on the driver are not.
- The ignored `send` results and the `unwrap`s on channels are not modelled.
  In particular, the bridge's panic once the driver ends with an error is
  left out.
- Painting is not modelled: the image-aspect computation, the egui layout in
  `draw_ui` (src/gui.rs:25-138), the drawing in `Indicator::show`
  (src/gui/hidden_input.rs:124-133, 186-233) and src/gui/util.rs.
- `GUI::new` (src/gui.rs:196-227) is style setup, image loaders and task
  spawning.
- The `with_*` builders of `Indicator` are plain field copies.
- Floating-point radii and widths are `real`, and colours are packed into a
  `bv32`.
- `EventFilter::default()` only hides navigation keys, which reach neither
  loop as anything the loops react to.
- HiddenInput.IndicatorPhase: the `&mut self` mutators are functions that
  return the new phase; the memory slot that holds it, `TempData`, is updated
  in place.
- HiddenInput.Indicator.Show: the random generator is a caller-supplied roll
  per event, each in the interval the source draws from. Whether the memory
  slot was ever written is not modelled: an empty slot reads as the default.
- Atomics, memory orderings, `Arc`, `unsafe` and `MaybeUninit` in
  late_init.rs and change_detector.rs are plain fields of one shared object.
  A handle the source consumes by value carries a `live` flag.
- clap and toml parsing, the `println!` calls and `eframe::run_native` in
  src/main.rs are not modelled. The toml decoder is a function parameter of
  `Stash`.

## Findings

| source | as written | input that shows it | evidently intended | confidence | as-written member | corrected member |
|---|---|---|---|---|---|---|
| src/gui.rs:157-176 | in text mode every plain Enter of a frame takes the input cell and expects a responder in it | one frame holding two plain Enter presses: the first sends the buffer and empties the cell, the second reaches `unreachable!()` | a plain Enter after the responder was taken is ignored | low, not executed | Gui.TextEventsAsWritten, Gui.AsWrittenPanicsOnSecondEnter, Gui.DoubleEnterPanics | Gui.TextEvent, Gui.SubmitsBufferAtFirstEnter, Gui.CorrectedAgreesWithSource |

