/**
 * The session driver `ClientManager`: one login attempt, from the username
 * to `StartSession`, run against the bridge as a sequential alternation.
 * Where the source sends a state packet on a oneshot and awaits the reply
 * on the next one, the driver here calls the bridge and takes its reply.
 */
module Driver {
  import opened Wrappers
  import Ipc
  import opened GreetdClient
  import Gui

  /** One prompt the driver forwarded and the answer the bridge gave it. */
  datatype Exchange = Exchange(prompt: AuthPrompt, answer: Option<string>)

  /** The end of an attempt: its result, or still waiting on the user when the frames ran out. */
  datatype Outcome = Finished(result: Result<(), ClientError>) | Stalled

  /** One `PostAuthMessageResponse` per exchange, carrying its answer. */
  function Posts(exchanges: seq<Exchange>): (t: seq<Ipc.Request>)
    ensures |t| == |exchanges|
    decreases |exchanges|
  {
    if exchanges == [] then []
    else Posts(exchanges[..|exchanges| - 1]) + [Ipc.PostAuthMessageResponse(exchanges[|exchanges| - 1].answer)]
  }

  /** The requests of a successful attempt. */
  function FullTrace(username: string, exchanges: seq<Exchange>, command: seq<string>): seq<Ipc.Request> {
    [Ipc.CreateSession(username)] + Posts(exchanges) + [Ipc.StartSession(command, [])]
  }

  /**
   * The shape of the attempt's requests: `CreateSession` first, then one
   * `PostAuthMessageResponse` per exchange with that exchange's answer in
   * order, then `StartSession` with the command and no environment.
   */
  lemma {:induction false} FullTraceShape(username: string, exchanges: seq<Exchange>, command: seq<string>)
    ensures var t := FullTrace(username, exchanges, command);
      && |t| == |exchanges| + 2
      && t[0] == Ipc.CreateSession(username)
      && (forall i | 0 <= i < |exchanges| :: t[i + 1] == Ipc.PostAuthMessageResponse(exchanges[i].answer))
      && t[|t| - 1] == Ipc.StartSession(command, [])
  {
    PostsAt(exchanges);
  }

  /** `Posts` lists the answers in order. */
  lemma {:induction false} PostsAt(exchanges: seq<Exchange>)
    ensures |Posts(exchanges)| == |exchanges|
    ensures forall i | 0 <= i < |exchanges| :: Posts(exchanges)[i] == Ipc.PostAuthMessageResponse(exchanges[i].answer)
    decreases |exchanges|
  {
    if exchanges != [] {
      PostsAt(exchanges[..|exchanges| - 1]);
    }
  }

  /**
   * The exchanges are the daemon's first messages, in order, each carrying
   * its prompt, and only input prompts got an answer.
   */
  ghost predicate Forwarded(inbox: seq<Option<Ipc.Response>>, exchanges: seq<Exchange>) {
    && |exchanges| <= |inbox|
    && (forall i | 0 <= i < |exchanges| :: inbox[i] == Some(AuthMessageFor(exchanges[i].prompt)))
    && (forall i | 0 <= i < |exchanges| :: exchanges[i].answer.Some? <==> exchanges[i].prompt.Input?)
  }

  /** One more exchange over the next daemon message keeps the exchanges forwarded. */
  lemma ForwardedAppend(inbox: seq<Option<Ipc.Response>>, exchanges: seq<Exchange>, e: Exchange)
    requires Forwarded(inbox, exchanges) && |exchanges| < |inbox|
    requires inbox[|exchanges|] == Some(AuthMessageFor(e.prompt)) && (e.answer.Some? <==> e.prompt.Input?)
    ensures Forwarded(inbox, exchanges + [e])
  {
    var extended := exchanges + [e];
    forall i | 0 <= i < |extended|
      ensures inbox[i] == Some(AuthMessageFor(extended[i].prompt))
      ensures extended[i].answer.Some? <==> extended[i].prompt.Input?
    {
      if i < |exchanges| {
        assert extended[i] == exchanges[i];
      }
    }
  }

  /** The script of write outcomes once `n` writes were made against it. */
  ghost function Skip(s: seq<bool>, n: nat): seq<bool> {
    if n >= |s| then [] else s[n..]
  }

  /** Whether write number `i` (counting from 0) of the script goes through. */
  ghost predicate WriteOk(s: seq<bool>, i: nat) {
    i < |s| && s[i]
  }

  /** Each write consumes one outcome of the script, and the next write goes through as `WriteOk` says. */
  lemma SkipStep(s: seq<bool>, n: nat)
    ensures Ipc.WriteGoesThrough(Skip(s, n)) == WriteOk(s, n)
    ensures Ipc.Rest(Skip(s, n)) == Skip(s, n + 1)
  {
  }

  /**
   * How an attempt used the write script `s`: its first `d` writes went
   * through, then one more failed when `failed`, and `rest` is what is left.
   */
  ghost predicate WriteLog(s: seq<bool>, d: nat, failed: bool, rest: seq<bool>) {
    && d <= |s| && false !in s[..d]
    && (failed ==> !WriteOk(s, d))
    && rest == Skip(s, d + (if failed then 1 else 0))
  }

  /** One more write that goes through extends the log. */
  lemma WriteLogStep(s: seq<bool>, d: nat)
    requires WriteLog(s, d, false, Skip(s, d)) && WriteOk(s, d)
    ensures WriteLog(s, d + 1, false, Skip(s, d + 1))
  {
    assert s[..d + 1] == s[..d] + [s[d]];
  }

  /**
   * The bridge's side of the exchanges from view `v`: each exchange's answer
   * is what the bridge gives its prompt from the view the earlier ones left,
   * and the result is the view after all of them.  `None`: the exchanges are
   * not the bridge's answers.
   */
  ghost function After(exchanges: seq<Exchange>, v: Gui.View): Option<Gui.View>
    decreases |exchanges|
  {
    if exchanges == [] then Some(v)
    else match After(exchanges[..|exchanges| - 1], v)
      case None => None
      case Some(w) =>
        var e := exchanges[|exchanges| - 1];
        var step := Gui.PromptStep(e.prompt, w);
        if step.Some? && step.value.0 == e.answer then Some(step.value.1) else None
  }

  /** An exchange the bridge answered from the view the earlier ones left extends them. */
  lemma AfterAppend(exchanges: seq<Exchange>, v: Gui.View, e: Exchange, w: Gui.View)
    requires After(exchanges, v) == Some(w)
    requires Gui.PromptStep(e.prompt, w).Some? && Gui.PromptStep(e.prompt, w).value.0 == e.answer
    ensures After(exchanges + [e], v) == Some(Gui.PromptStep(e.prompt, w).value.1)
  {
    assert (exchanges + [e])[..|exchanges|] == exchanges;
  }

  /**
   * The attempt waits on the user: the daemon message after the exchanges
   * is a prompt, and the bridge runs out of frames answering it from the
   * view the exchanges leave.
   */
  ghost predicate StalledAt(inbox: seq<Option<Ipc.Response>>, exchanges: seq<Exchange>, v: Gui.View) {
    && |exchanges| < |inbox| && inbox[|exchanges|].Some?
    && StepFor(inbox[|exchanges|].value).Prompted?
    && After(exchanges, v).Some?
    && Gui.PromptStep(StepFor(inbox[|exchanges|].value).prompt, After(exchanges, v).value).None?
  }

  /**
   * What one attempt runs against once the bridge has started: the daemon's
   * script and the write script before `CreateSession` went out, the render
   * side's view, the username and the configured command.
   */
  datatype Attempt = Attempt(inbox0: seq<Option<Ipc.Response>>, writes0: seq<bool>, view: Gui.View, username: string, command: seq<string>)

  /** The requests delivered while the attempt is still waiting on the daemon. */
  function Pending(a: Attempt, exchanges: seq<Exchange>): seq<Ipc.Request> {
    [Ipc.CreateSession(a.username)] + Posts(exchanges)
  }

  /**
   * The attempt is waiting on the daemon after `exchanges`: they are the
   * daemon's first messages and the bridge's answers, every write so far
   * went through, and `inbox`, `writes` and `snap` are what is left of the
   * scripts and the render side's view.
   */
  ghost predicate Progress(a: Attempt, exchanges: seq<Exchange>, inbox: seq<Option<Ipc.Response>>, writes: seq<bool>, snap: Gui.View) {
    && Forwarded(a.inbox0, exchanges) && inbox == a.inbox0[|exchanges|..]
    && WriteLog(a.writes0, 1 + |exchanges|, false, writes)
    && After(exchanges, a.view) == Some(snap)
  }

  /**
   * The attempt ended with `outcome` after `exchanges`, having delivered
   * `delta`: all of the full trace exactly on success; on a failed write,
   * everything before the write that failed (`CreateSession`, the post of
   * the last exchange, or `StartSession` after the daemon's success); on
   * any other ending, `CreateSession` and every post.  The writes are as
   * `WriteLog` says; the exchanges are forwarded and answered by the
   * bridge; and the message after them is the success, daemon error or
   * unreadable message that ended it, or a prompt the user has not answered.
   */
  ghost predicate Settled(a: Attempt, exchanges: seq<Exchange>, outcome: Outcome, delta: seq<Ipc.Request>, writes: seq<bool>, snap: Gui.View) {
    && delta <= FullTrace(a.username, exchanges, a.command)
    && (outcome == Finished(Ok(())) <==> delta == FullTrace(a.username, exchanges, a.command))
    && WriteLog(a.writes0, |delta|, outcome == Finished(Err(FailedSocketWrite)), writes)
    && (outcome != Finished(Ok(())) && outcome != Finished(Err(FailedSocketWrite)) ==> delta == Pending(a, exchanges))
    && (outcome == Finished(Err(FailedSocketWrite)) ==>
          || delta == FullTrace(a.username, exchanges, a.command)[..|exchanges|]
          || (delta == Pending(a, exchanges) && |exchanges| < |a.inbox0| && a.inbox0[|exchanges|] == Some(Ipc.Success)))
    && (outcome.Finished? && outcome.result.Err? ==>
          outcome.result.error.FailedSocketWrite? || outcome.result.error.FailedSocketRead? || outcome.result.error.FromDaemon())
    && Forwarded(a.inbox0, exchanges) && After(exchanges, a.view).Some?
    && (outcome != Stalled ==> snap == After(exchanges, a.view).value)
    && (outcome == Stalled ==> StalledAt(a.inbox0, exchanges, a.view))
    && (outcome == Finished(Ok(())) ==> |exchanges| < |a.inbox0| && a.inbox0[|exchanges|] == Some(Ipc.Success))
    && (outcome.Finished? && outcome.result.Err? && outcome.result.error.FromDaemon() ==>
          |exchanges| < |a.inbox0| && a.inbox0[|exchanges|] == Some(DaemonErrorFor(outcome.result.error)))
    && (outcome == Finished(Err(FailedSocketRead)) ==> Ipc.Front(a.inbox0[|exchanges|..]).None?)
  }

  /** A failed `CreateSession` ends the attempt before anything was delivered. */
  lemma CreateFailureSettles(a: Attempt)
    requires !WriteOk(a.writes0, 0)
    ensures Settled(a, [], Finished(Err(FailedSocketWrite)), [], Skip(a.writes0, 1), a.view)
  {
    assert [] <= FullTrace(a.username, [], a.command);
  }

  /** An unreadable response or a daemon error ends the attempt with what was delivered so far. */
  lemma ReadFailureSettles(a: Attempt, exchanges: seq<Exchange>, inbox: seq<Option<Ipc.Response>>, writes: seq<bool>, snap: Gui.View, error: ClientError)
    requires Progress(a, exchanges, inbox, writes, snap)
    requires || (Ipc.Front(inbox).None? && error == FailedSocketRead)
             || (Ipc.Front(inbox).Some? && StepFor(Ipc.Front(inbox).value) == Rejected(error))
    ensures Settled(a, exchanges, Finished(Err(error)), Pending(a, exchanges), writes, snap)
  {
    PendingWithin(a.username, exchanges, a.command);
  }

  /** A prompt the bridge cannot answer yet leaves the attempt stalled with what was delivered so far. */
  lemma StallSettles(a: Attempt, exchanges: seq<Exchange>, inbox: seq<Option<Ipc.Response>>, writes: seq<bool>, snap: Gui.View, prompt: AuthPrompt)
    requires Progress(a, exchanges, inbox, writes, snap)
    requires Ipc.Front(inbox).Some? && StepFor(Ipc.Front(inbox).value) == Prompted(prompt)
    requires Gui.PromptStep(prompt, snap).None?
    ensures Settled(a, exchanges, Stalled, Pending(a, exchanges), writes, snap)
  {
    PendingWithin(a.username, exchanges, a.command);
  }

  /**
   * A prompt the bridge answers extends the exchanges; the post then either
   * goes through and the attempt waits on the daemon again, or fails and
   * ends it.
   */
  lemma PostSettles(a: Attempt, exchanges: seq<Exchange>, inbox: seq<Option<Ipc.Response>>, writes: seq<bool>, snap: Gui.View,
                    prompt: AuthPrompt, answer: Option<string>, snap': Gui.View)
    requires Progress(a, exchanges, inbox, writes, snap)
    requires Ipc.Front(inbox).Some? && StepFor(Ipc.Front(inbox).value) == Prompted(prompt)
    requires Gui.PromptStep(prompt, snap) == Some((answer, snap'))
    ensures var extended := exchanges + [Exchange(prompt, answer)];
      && (Ipc.WriteGoesThrough(writes) ==> Progress(a, extended, Ipc.Rest(inbox), Ipc.Rest(writes), snap'))
      && (!Ipc.WriteGoesThrough(writes) ==> Settled(a, extended, Finished(Err(FailedSocketWrite)), Pending(a, exchanges), Ipc.Rest(writes), snap'))
      && Pending(a, extended) == Pending(a, exchanges) + [Ipc.PostAuthMessageResponse(answer)]
  {
    var k := |exchanges|;
    var e := Exchange(prompt, answer);
    var extended := exchanges + [e];
    assert a.inbox0[k] == Some(AuthMessageFor(prompt));
    ForwardedAppend(a.inbox0, exchanges, e);
    AfterAppend(exchanges, a.view, e, snap);
    SkipStep(a.writes0, 1 + k);
    assert extended[..k] == exchanges;
    assert Ipc.Rest(inbox) == a.inbox0[k + 1..];
    if Ipc.WriteGoesThrough(writes) {
      WriteLogStep(a.writes0, 1 + k);
    } else {
      PendingWithin(a.username, extended, a.command);
      PendingBeforePost(a, exchanges, e);
    }
  }

  /** After the daemon's success, `StartSession` going through completes the trace; failing ends the attempt. */
  lemma FinishSettles(a: Attempt, exchanges: seq<Exchange>, inbox: seq<Option<Ipc.Response>>, writes: seq<bool>, snap: Gui.View)
    requires Progress(a, exchanges, inbox, writes, snap)
    requires Ipc.Front(inbox) == Some(Ipc.Success)
    ensures var ok := Ipc.WriteGoesThrough(writes);
      Settled(a, exchanges, if ok then Finished(Ok(())) else Finished(Err(FailedSocketWrite)),
              if ok then FullTrace(a.username, exchanges, a.command) else Pending(a, exchanges), Ipc.Rest(writes), snap)
  {
    SkipStep(a.writes0, 1 + |exchanges|);
    if Ipc.WriteGoesThrough(writes) {
      WriteLogStep(a.writes0, 1 + |exchanges|);
    } else {
      PendingWithin(a.username, exchanges, a.command);
    }
  }

  /** What was sent on top of `sent0` is exactly `delta`. */
  lemma SentDelta<T>(sent0: seq<T>, delta: seq<T>)
    ensures |sent0| <= |sent0 + delta| && (sent0 + delta)[..|sent0|] == sent0
    ensures (sent0 + delta)[|sent0|..] == delta
  {
  }

  /** The requests of an unfinished attempt are a strict prefix of the full trace. */
  lemma PendingWithin(username: string, exchanges: seq<Exchange>, command: seq<string>)
    ensures [Ipc.CreateSession(username)] + Posts(exchanges) <= FullTrace(username, exchanges, command)
    ensures [Ipc.CreateSession(username)] + Posts(exchanges) != FullTrace(username, exchanges, command)
  {
    assert |[Ipc.CreateSession(username)] + Posts(exchanges)| < |FullTrace(username, exchanges, command)|;
  }

  /** Before the post of exchange `e`, what was delivered is the full trace up to that post. */
  lemma PendingBeforePost(a: Attempt, exchanges: seq<Exchange>, e: Exchange)
    ensures Pending(a, exchanges) == FullTrace(a.username, exchanges + [e], a.command)[..|exchanges| + 1]
  {
    assert (exchanges + [e])[..|exchanges|] == exchanges;
  }

  /**
   * What the driver relies on from the bridge's answer to one state packet;
   * `Gui.UiManager.HandleState` states the rest.
   */
  method AskBridge(ui: Gui.UiManager, packet: StatePacket) returns (reply: Option<Gui.StateReply>)
    requires ui.Valid() && !ui.finished && ui.state.input.NoInput?
    modifies ui, ui.gui, ui.state
    ensures ui.Valid() && (ui.finished <==> packet.Success?)
    ensures reply.Some? ==> ui.state.input.NoInput?
    ensures reply.None? ==> ui.gui.frames == []
    ensures packet.Prompt? && reply.Some? ==>
      reply.value.Answer? && (reply.value.response.Some? <==> packet.prompt.Input?)
    ensures packet.Success? ==> reply == Some(Gui.Command(ui.config.command)) && ui.state.display == Gui.Loading
    ensures packet.Success? ==> ui.Snapshot() == old(ui.Snapshot())
    ensures packet.Prompt? ==> var step := Gui.PromptStep(packet.prompt, old(ui.Snapshot()));
      && (reply.None? <==> step.None?)
      && (reply.Some? ==> reply.value.response == step.value.0 && ui.Snapshot() == step.value.1)
  {
    reply := ui.HandleState(packet);
  }

  /**
   * What the driver relies on from the bridge's start-up;
   * `Gui.UiManager.Start` states the rest.
   */
  method AskUsername(ui: Gui.UiManager) returns (username: Option<string>)
    requires ui.Valid()
    modifies ui, ui.gui, ui.state
    ensures ui.Valid() && ui.finished == old(ui.finished)
    ensures username.None? ==> ui.gui.frames == []
    ensures username.Some? ==> ui.state.input.NoInput?
    ensures var start := Gui.StartStep(ui.config.restrictedUser, old(ui.Snapshot()));
      && (username.None? <==> start.None?)
      && (username.Some? ==> username.value == start.value.0 && ui.Snapshot() == start.value.1)
  {
    username := ui.Start();
  }

  /**
   * One forwarded prompt: the bridge answers it as `Gui.PromptStep` says,
   * and the answer is posted.  The attempt goes on with the client that
   * posted it, or ends: stalled on the user before anything is written, or
   * on the post's write failing.
   */
  method Forward(prompting: PromptingClient, ui: Gui.UiManager) returns (r: Result<ActiveClient, Outcome>, ghost answer: Option<string>)
    requires ui.Valid() && !ui.finished && ui.state.input.NoInput?
    modifies prompting.stream, ui, ui.gui, ui.state
    ensures ui.Valid() && !ui.finished && prompting.stream.inbox == old(prompting.stream.inbox)
    ensures r != Err(Stalled) ==> (answer.Some? <==> prompting.prompt.Input?)
    ensures r.Ok? ==>
      && r.value.stream == prompting.stream && ui.state.input.NoInput?
      && prompting.stream.sent == old(prompting.stream.sent) + [Ipc.PostAuthMessageResponse(answer)]
    ensures r.Err? ==>
      && prompting.stream.sent == old(prompting.stream.sent)
      && (r.error == Stalled ==> ui.gui.frames == [])
      && (r.error == Stalled || r.error == Finished(Err(FailedSocketWrite)))
    ensures var step := Gui.PromptStep(prompting.prompt, old(ui.Snapshot()));
      && (r == Err(Stalled) <==> step.None?)
      && (step.Some? ==> answer == step.value.0 && ui.Snapshot() == step.value.1)
    ensures r == Err(Stalled) ==> prompting.stream.writeOutcomes == old(prompting.stream.writeOutcomes)
    ensures r != Err(Stalled) ==>
      && prompting.stream.writeOutcomes == Ipc.Rest(old(prompting.stream.writeOutcomes))
      && (r.Ok? <==> Ipc.WriteGoesThrough(old(prompting.stream.writeOutcomes)))
  {
    var reply := AskBridge(ui, Prompt(prompting.prompt));
    if reply.None? {
      return Err(Stalled), None;
    }
    answer := reply.value.response;
    var posted := prompting.Next(reply.value.response);
    if posted.Err? {
      return Err(Finished(Err(posted.error.0))), answer;
    }
    r := Ok(posted.value);
  }

  /**
   * The end of an attempt the daemon accepted: the bridge shows the spinner
   * and hands over the command, and `StartSession` carries it with no
   * environment; the attempt succeeds exactly when that write goes through.
   */
  method Conclude(successful: SuccessfulClient, ui: Gui.UiManager) returns (outcome: Outcome)
    requires ui.Valid() && !ui.finished && ui.state.input.NoInput?
    modifies successful.stream, ui, ui.gui, ui.state
    ensures ui.Valid() && ui.finished && ui.state.display == Gui.Loading
    ensures successful.stream.inbox == old(successful.stream.inbox)
    ensures || (outcome == Finished(Ok(()))
                && successful.stream.sent == old(successful.stream.sent) + [Ipc.StartSession(ui.config.command, [])])
            || (outcome == Finished(Err(FailedSocketWrite)) && successful.stream.sent == old(successful.stream.sent))
    ensures outcome == Finished(Ok(())) <==> Ipc.WriteGoesThrough(old(successful.stream.writeOutcomes))
    ensures successful.stream.writeOutcomes == Ipc.Rest(old(successful.stream.writeOutcomes))
    ensures ui.Snapshot() == old(ui.Snapshot())
  {
    var reply := AskBridge(ui, StatePacket.Success);
    var started := successful.Finish(reply.value.command, []);
    outcome := if started.Err? then Finished(Err(started.error.0)) else Finished(Ok(()));
  }

  datatype ClientManager = ClientManager(client: Client) {

    /** `ClientManager::new`: the attempt owns a fresh client, or fails as `Client::new` does. */
    static method New(env: map<string, string>, connector: Ipc.Connector) returns (r: Result<ClientManager, ClientError>)
      modifies connector
      ensures GREETD_SOCK_ENV !in env ==> r == Err(MissingEnvVar) && connector.attempts == old(connector.attempts)
      ensures GREETD_SOCK_ENV in env ==> connector.attempts == old(connector.attempts) + [env[GREETD_SOCK_ENV]]
      ensures GREETD_SOCK_ENV in env && connector.listener.Some? ==> r == Ok(ClientManager(Client(connector.listener.value)))
      ensures GREETD_SOCK_ENV in env && connector.listener.None? ==> r == Err(FailedSocketConnection)
    {
      var client := Client.New(env, connector);
      if client.Err? {
        return Err(client.error);
      }
      return Ok(ClientManager(client.value));
    }

    /**
     * `ClientManager::run`, with the bridge taking its turns.  The requests
     * sent are always a prefix of the full trace for the username and
     * exchanges, and all of it exactly when the attempt succeeds.  If the
     * user never gets past the start-up, nothing is sent.  Otherwise the
     * username is the bridge's, as `Gui.StartStep` says, and the attempt
     * ends `Settled`: the exchanged prompts are the daemon's first messages,
     * in order, answered as the bridge answers them; each delivered request
     * used one write that went through; and the attempt ends at the first
     * failed write, at the unreadable or daemon-error response after the
     * last exchange, or at a prompt the user has not yet answered.
     */
    method Run(ui: Gui.UiManager) returns (outcome: Outcome, ghost username: string, ghost exchanges: seq<Exchange>)
      requires ui.Valid() && !ui.finished && ui.state.input.NoInput?
      modifies client.stream, ui, ui.gui, ui.state
      ensures var sent := client.stream.sent;
        && |old(client.stream.sent)| <= |sent| && sent[..|old(client.stream.sent)|] == old(client.stream.sent)
        && sent[|old(client.stream.sent)|..] <= FullTrace(username, exchanges, ui.config.command)
        && (outcome == Finished(Ok(())) <==> sent[|old(client.stream.sent)|..] == FullTrace(username, exchanges, ui.config.command))
      ensures var start := Gui.StartStep(ui.config.restrictedUser, old(ui.Snapshot()));
        && (start.None? ==>
              && outcome == Stalled && exchanges == [] && client.stream.sent == old(client.stream.sent)
              && client.stream.writeOutcomes == old(client.stream.writeOutcomes))
        && (start.Some? ==>
              && username == start.value.0
              && Settled(Attempt(old(client.stream.inbox), old(client.stream.writeOutcomes), start.value.1, username, ui.config.command),
                         exchanges, outcome, client.stream.sent[|old(client.stream.sent)|..], client.stream.writeOutcomes, ui.Snapshot()))
      ensures Forwarded(old(client.stream.inbox), exchanges)
      ensures outcome == Stalled ==> ui.gui.frames == []
      ensures outcome == Finished(Ok(())) ==> ui.finished
      ensures ui.finished ==> outcome == Finished(Ok(())) || outcome == Finished(Err(FailedSocketWrite))
      ensures ui.finished ==> ui.state.display == Gui.Loading && |exchanges| < |old(client.stream.inbox)| && old(client.stream.inbox)[|exchanges|] == Some(Ipc.Success)
    {
      var stream := client.stream;
      ghost var sent0 := stream.sent;
      ghost var writes0 := stream.writeOutcomes;
      exchanges := [];
      var name := AskUsername(ui);
      if name.None? {
        SentDelta(sent0, []);
        return Stalled, "", [];
      }
      var user := name.value;
      username := user;
      ghost var a := Attempt(stream.inbox, writes0, ui.Snapshot(), user, ui.config.command);
      ghost var delta := [];
      SkipStep(writes0, 0);
      var created := client.CreateSession(user);
      if created.Err? {
        CreateFailureSettles(a);
        outcome := Finished(Err(created.error.0));
      } else {
        assert writes0[..1] == [true];
        assert stream.inbox == a.inbox0[0..];
        outcome, exchanges, delta := Serve(created.value, ui, sent0, a);
      }
      SentDelta(sent0, delta);
    }

    /**
     * The loop of `ClientManager::run` once the session is requested: the
     * attempt `a` ends `Settled`, with `sent0` what the stream had delivered
     * before `CreateSession{a.username}` went out.
     */
    method Serve(start: ActiveClient, ui: Gui.UiManager, ghost sent0: seq<Ipc.Request>, ghost a: Attempt)
      returns (outcome: Outcome, ghost exchanges: seq<Exchange>, ghost delta: seq<Ipc.Request>)
      requires start.stream == client.stream && a.command == ui.config.command
      requires start.stream.sent == sent0 + Pending(a, [])
      requires Progress(a, [], start.stream.inbox, start.stream.writeOutcomes, ui.Snapshot())
      requires ui.Valid() && !ui.finished && ui.state.input.NoInput?
      modifies client.stream, ui, ui.gui, ui.state
      ensures client.stream.sent == sent0 + delta
      ensures Settled(a, exchanges, outcome, delta, client.stream.writeOutcomes, ui.Snapshot())
      ensures outcome == Stalled ==> ui.gui.frames == []
      ensures outcome == Finished(Ok(())) ==> ui.finished
      ensures ui.finished ==> outcome == Finished(Ok(())) || outcome == Finished(Err(FailedSocketWrite))
      ensures ui.finished ==> ui.state.display == Gui.Loading && |exchanges| < |a.inbox0| && a.inbox0[|exchanges|] == Some(Ipc.Success)
    {
      var stream := client.stream;
      var active := start;
      exchanges := [];
      while true
        invariant active.stream == stream
        invariant ui.Valid() && !ui.finished && ui.state.input.NoInput?
        invariant stream.sent == sent0 + Pending(a, exchanges)
        invariant Progress(a, exchanges, stream.inbox, stream.writeOutcomes, ui.Snapshot())
        decreases |stream.inbox|
      {
        ghost var inbox := stream.inbox;
        ghost var writes := stream.writeOutcomes;
        ghost var snap := ui.Snapshot();
        var next := active.Next();
        if next.Err? {
          ReadFailureSettles(a, exchanges, inbox, writes, snap, next.error.0);
          return Finished(Err(next.error.0)), exchanges, Pending(a, exchanges);
        }
        match next.value
        case Left(prompting) =>
          var step, answer := Forward(prompting, ui);
          if step == Err(Stalled) {
            StallSettles(a, exchanges, inbox, writes, snap, prompting.prompt);
            return Stalled, exchanges, Pending(a, exchanges);
          }
          PostSettles(a, exchanges, inbox, writes, snap, prompting.prompt, answer, ui.Snapshot());
          ghost var before := exchanges;
          exchanges := exchanges + [Exchange(prompting.prompt, answer)];
          if step.Err? {
            return step.error, exchanges, Pending(a, before);
          }
          active := step.value;
        case Right(successful) =>
          FinishSettles(a, exchanges, inbox, writes, snap);
          outcome := Conclude(successful, ui);
          if outcome == Finished(Ok(())) {
            return outcome, exchanges, FullTrace(a.username, exchanges, a.command);
          }
          return outcome, exchanges, Pending(a, exchanges);
      }
    }
  }
}
