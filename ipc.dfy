/**
 * The greetd IPC message shapes the client depends on, and the transport
 * the client owns.  The byte layout of the codec is not modelled: requests
 * and responses are abstract values, and the socket is an object that logs
 * delivered requests and replays a scripted daemon.
 */
module Ipc {
  import opened Wrappers

  /** greetd's `ErrorType`. */
  datatype ErrorType = Error | AuthError

  /** greetd's `AuthMessageType`. */
  datatype AuthMessageType = Visible | Secret | Info | Error

  /** greetd's `Request`. */
  datatype Request =
    | CreateSession(username: string)
    | PostAuthMessageResponse(response: Option<string>)
    | StartSession(cmd: seq<string>, env: seq<string>)
    | CancelSession

  /** greetd's `Response`. */
  datatype Response =
    | Success
    | Error(errorType: ErrorType, description: string)
    | AuthMessage(authMessageType: AuthMessageType, authMessage: string)

  /** The first element of a script, or `None` once it is exhausted. */
  function Front<T>(s: seq<Option<T>>): (r: Option<T>)
    ensures r.Some? ==> |s| > 0 && s[0] == r
    ensures s == [] ==> r.None?
  {
    if s == [] then None else s[0]
  }

  /** A script with its first element consumed. */
  function Rest<T>(s: seq<T>): (r: seq<T>)
    ensures |s| > 0 ==> r == s[1..]
    ensures s == [] ==> r == []
  {
    if s == [] then [] else s[1..]
  }

  /** Whether the next write against the script of write outcomes goes through. */
  function WriteGoesThrough(outcomes: seq<bool>): bool {
    outcomes != [] && outcomes[0]
  }

  /**
   * One write of `req` on `s` between the two states: the request reaches
   * the daemon exactly when the write goes through, and nothing is read.
   */
  twostate predicate Attempted(s: Stream, req: Request)
    reads s
  {
    && s.sent == (if WriteGoesThrough(old(s.writeOutcomes)) then old(s.sent) + [req] else old(s.sent))
    && s.writeOutcomes == Rest(old(s.writeOutcomes))
    && s.inbox == old(s.inbox)
  }

  /**
   * The connected Unix stream to the daemon.  `sent` is every request the
   * daemon received, in order; `inbox` is what the daemon will answer, one
   * entry per read (`None`: a message that does not decode); `writeOutcomes`
   * says which writes go through.  An exhausted script means the daemon hung
   * up: every read and write after it fails.
   */
  class Stream {
    var sent: seq<Request>
    var inbox: seq<Option<Response>>
    var writeOutcomes: seq<bool>

    constructor (inbox: seq<Option<Response>>, writeOutcomes: seq<bool>)
      ensures sent == [] && this.inbox == inbox && this.writeOutcomes == writeOutcomes
    {
      sent := [];
      this.inbox := inbox;
      this.writeOutcomes := writeOutcomes;
    }

    /** `Request::write_to`: the request is delivered exactly when the write goes through. */
    method Write(req: Request) returns (ok: bool)
      modifies this
      ensures ok == WriteGoesThrough(old(writeOutcomes))
      ensures sent == if ok then old(sent) + [req] else old(sent)
      ensures writeOutcomes == Rest(old(writeOutcomes)) && inbox == old(inbox)
    {
      ok := WriteGoesThrough(writeOutcomes);
      writeOutcomes := Rest(writeOutcomes);
      if ok {
        sent := sent + [req];
      }
    }

    /** `Response::read_from`: the daemon's next message, `None` when it cannot be read. */
    method Read() returns (r: Option<Response>)
      modifies this
      ensures r == Front(old(inbox))
      ensures inbox == Rest(old(inbox))
      ensures sent == old(sent) && writeOutcomes == old(writeOutcomes)
    {
      r := Front(inbox);
      inbox := Rest(inbox);
    }
  }

  /** `UnixStream::connect`: every attempt is logged; `listener` is the stream a connect yields, if any. */
  class Connector {
    var attempts: seq<string>
    const listener: Option<Stream>

    constructor (listener: Option<Stream>)
      ensures attempts == [] && this.listener == listener
    {
      attempts := [];
      this.listener := listener;
    }

    method Connect(path: string) returns (r: Option<Stream>)
      modifies this
      ensures attempts == old(attempts) + [path]
      ensures r == listener
    {
      attempts := attempts + [path];
      r := listener;
    }
  }
}
