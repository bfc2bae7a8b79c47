/**
 * The greetd protocol client as a typestate machine.  Each connection state
 * is a value holding the one stream to the daemon; every transition consumes
 * its state and returns the next one, or an error paired with a state that
 * still holds the same stream.
 */
module GreetdClient {
  import opened Wrappers
  import Ipc

  /** The socket path variable `Client::new` consults. */
  const GREETD_SOCK_ENV: string := "GREETD_SOCK"

  /** The ways a transition can fail.  The io/codec error payloads are not modelled. */
  datatype ClientError =
    | MissingEnvVar
    | FailedSocketConnection
    | FailedSocketWrite
    | FailedSocketRead
    | GenericError(description: string)
    | AuthError(description: string)
  {
    /** The two errors the daemon itself reports. */
    predicate FromDaemon() {
      GenericError? || AuthError?
    }
  }

  /** What the daemon asks of the user. */
  datatype AuthPrompt =
    | Input(prompt: string, secret: bool)
    | Info(note: string)
    | Error(note: string)

  /** What `ActiveClient::next` makes of one decoded daemon response. */
  datatype Step = Prompted(prompt: AuthPrompt) | Authenticated | Rejected(error: ClientError)

  /** The daemon message that carries prompt `p`: the inverse of the prompt mapping. */
  function AuthMessageFor(p: AuthPrompt): Ipc.Response {
    match p
    case Input(text, secret) =>
      Ipc.AuthMessage(if secret then Ipc.AuthMessageType.Secret else Ipc.AuthMessageType.Visible, text)
    case Info(note) => Ipc.AuthMessage(Ipc.AuthMessageType.Info, note)
    case Error(note) => Ipc.AuthMessage(Ipc.AuthMessageType.Error, note)
  }

  /** The daemon message that reports daemon error `e`: the inverse of the error mapping. */
  function DaemonErrorFor(e: ClientError): Ipc.Response
    requires e.FromDaemon()
  {
    match e
    case GenericError(d) => Ipc.Response.Error(Ipc.ErrorType.Error, d)
    case AuthError(d) => Ipc.Response.Error(Ipc.ErrorType.AuthError, d)
  }

  /**
   * The response mapping of `ActiveClient::next`.  Nothing of the response
   * is lost: a prompt is re-encoded to exactly the message it came from, an
   * error to exactly the daemon error, so text and kind are kept verbatim.
   */
  function StepFor(resp: Ipc.Response): (s: Step)
    ensures s.Authenticated? <==> resp.Success?
    ensures s.Prompted? <==> resp.AuthMessage?
    ensures s.Prompted? ==> AuthMessageFor(s.prompt) == resp
    ensures s.Rejected? ==> s.error.FromDaemon() && DaemonErrorFor(s.error) == resp
  {
    match resp
    case Success => Authenticated
    case Error(kind, description) =>
      Rejected(if kind == Ipc.ErrorType.Error then GenericError(description) else AuthError(description))
    case AuthMessage(kind, text) =>
      Prompted(
        match kind
        case Visible => Input(text, false)
        case Secret => Input(text, true)
        case Info => Info(text)
        case Error => Error(text))
  }

  /** The other direction: every prompt survives the trip through its daemon message. */
  lemma PromptRoundTrip(p: AuthPrompt)
    ensures StepFor(AuthMessageFor(p)) == Prompted(p)
  {
  }

  /** Unauthenticated: no session requested yet. */
  datatype Client = Client(stream: Ipc.Stream) {

    /**
     * `Client::new`: without `GREETD_SOCK` in the environment `env` it fails
     * with `MissingEnvVar` before any connect is attempted; otherwise it
     * connects once, to the path the variable holds.
     */
    static method New(env: map<string, string>, connector: Ipc.Connector) returns (r: Result<Client, ClientError>)
      modifies connector
      ensures GREETD_SOCK_ENV !in env ==> r == Err(MissingEnvVar) && connector.attempts == old(connector.attempts)
      ensures GREETD_SOCK_ENV in env ==> connector.attempts == old(connector.attempts) + [env[GREETD_SOCK_ENV]]
      ensures GREETD_SOCK_ENV in env && connector.listener.Some? ==> r == Ok(Client(connector.listener.value))
      ensures GREETD_SOCK_ENV in env && connector.listener.None? ==> r == Err(FailedSocketConnection)
    {
      if GREETD_SOCK_ENV !in env {
        return Err(MissingEnvVar);
      }
      var stream := connector.Connect(env[GREETD_SOCK_ENV]);
      if stream.None? {
        return Err(FailedSocketConnection);
      }
      return Ok(Client(stream.value));
    }

    /** Sends `CreateSession{username}`; a failed write hands back this same client. */
    method CreateSession(username: string) returns (r: Result<ActiveClient, (ClientError, Client)>)
      modifies stream
      ensures Ipc.Attempted(stream, Ipc.CreateSession(username))
      ensures r == if Ipc.WriteGoesThrough(old(stream.writeOutcomes))
                   then Ok(ActiveClient(stream))
                   else Err((FailedSocketWrite, this))
    {
      var ok := stream.Write(Ipc.CreateSession(username));
      if !ok {
        return Err((FailedSocketWrite, this));
      }
      return Ok(ActiveClient(stream));
    }
  }

  /** A session was requested; the daemon's next response decides what follows. */
  datatype ActiveClient = ActiveClient(stream: Ipc.Stream) {

    /**
     * Reads one response.  An unreadable one, or a daemon error, falls back
     * to an unauthenticated client on the same stream; a prompt or success
     * advances, as `StepFor` says.  Nothing is written.
     */
    method Next() returns (r: Result<Either<PromptingClient, SuccessfulClient>, (ClientError, Client)>)
      modifies stream
      ensures stream.sent == old(stream.sent) && stream.writeOutcomes == old(stream.writeOutcomes)
      ensures stream.inbox == Ipc.Rest(old(stream.inbox))
      ensures Ipc.Front(old(stream.inbox)).None? ==> r == Err((FailedSocketRead, Client(stream)))
      ensures Ipc.Front(old(stream.inbox)).Some? ==>
        match StepFor(Ipc.Front(old(stream.inbox)).value)
        case Prompted(p) => r == Ok(Left(PromptingClient(stream, p)))
        case Authenticated => r == Ok(Right(SuccessfulClient(stream)))
        case Rejected(e) => r == Err((e, Client(stream)))
    {
      var response := stream.Read();
      if response.None? {
        return Err((FailedSocketRead, Client(stream)));
      }
      match StepFor(response.value)
      case Prompted(p) => r := Ok(Left(PromptingClient(stream, p)));
      case Authenticated => r := Ok(Right(SuccessfulClient(stream)));
      case Rejected(e) => r := Err((e, Client(stream)));
    }

    /** Sends `CancelSession`; always returns to an unauthenticated client on the same stream. */
    method Cancel() returns (c: Client, error: Option<ClientError>)
      modifies stream
      ensures Ipc.Attempted(stream, Ipc.CancelSession)
      ensures c == Client(stream)
      ensures error == if Ipc.WriteGoesThrough(old(stream.writeOutcomes)) then None else Some(FailedSocketWrite)
    {
      var ok := stream.Write(Ipc.CancelSession);
      error := if ok then None else Some(FailedSocketWrite);
      c := Client(stream);
    }
  }

  /** The daemon asked something; it must be answered or cancelled. */
  datatype PromptingClient = PromptingClient(stream: Ipc.Stream, prompt: AuthPrompt) {

    /**
     * Sends `PostAuthMessageResponse` carrying `answer` unchanged; a failed
     * write hands back this same prompting client, prompt included.
     */
    method Next(answer: Option<string>) returns (r: Result<ActiveClient, (ClientError, PromptingClient)>)
      modifies stream
      ensures Ipc.Attempted(stream, Ipc.PostAuthMessageResponse(answer))
      ensures r == if Ipc.WriteGoesThrough(old(stream.writeOutcomes))
                   then Ok(ActiveClient(stream))
                   else Err((FailedSocketWrite, this))
    {
      var ok := stream.Write(Ipc.PostAuthMessageResponse(answer));
      if !ok {
        return Err((FailedSocketWrite, this));
      }
      return Ok(ActiveClient(stream));
    }

    /** Sends `CancelSession`; always returns to an unauthenticated client on the same stream. */
    method Cancel() returns (c: Client, error: Option<ClientError>)
      modifies stream
      ensures Ipc.Attempted(stream, Ipc.CancelSession)
      ensures c == Client(stream)
      ensures error == if Ipc.WriteGoesThrough(old(stream.writeOutcomes)) then None else Some(FailedSocketWrite)
    {
      var ok := stream.Write(Ipc.CancelSession);
      error := if ok then None else Some(FailedSocketWrite);
      c := Client(stream);
    }
  }

  /** The daemon accepted the session. */
  datatype SuccessfulClient = SuccessfulClient(stream: Ipc.Stream) {

    /** Sends `StartSession{cmd, env}`; a failed write hands back this same client. */
    method Finish(command: seq<string>, environment: seq<string>) returns (r: Result<(), (ClientError, SuccessfulClient)>)
      modifies stream
      ensures Ipc.Attempted(stream, Ipc.StartSession(command, environment))
      ensures r == if Ipc.WriteGoesThrough(old(stream.writeOutcomes)) then Ok(()) else Err((FailedSocketWrite, this))
    {
      var ok := stream.Write(Ipc.StartSession(command, environment));
      if !ok {
        return Err((FailedSocketWrite, this));
      }
      return Ok(());
    }
  }

  /**
   * What the driver hands the interaction bridge.  The reply senders of the
   * source are not values here: the bridge answers by returning.
   */
  datatype StatePacket = Prompt(prompt: AuthPrompt) | Success
}
