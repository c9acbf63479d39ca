/**
 * What the two transcription clients share: the events they emit, the
 * listen endpoint they connect to, and the session state machine (socket
 * state plus the append-only event log) that their `send`, `finish` and
 * socket callbacks drive.
 */
module Transcription {
  import opened Wrappers
  import opened WebSocket

  /** The payload of an `error` event. */
  datatype ErrorDetail =
    | Message(text: string)      // a message the client raises itself
    | SocketError(info: string)  // the socket's error event, passed on

  /** The error a client's `send` raises while the socket is not OPEN. */
  const NOT_OPEN: ErrorDetail := Message("Could not send. Connection not open.")

  /** The events a transcription client emits, in emission order. */
  datatype Event =
    | Open
    | Close(code: int, reason: string)
    | Error(detail: ErrorDetail)
    | TranscriptReceived(text: string)

  const SCHEME := "wss://"
  const LISTEN_PATH := "/v1/listen?"

  /**
   * The URL both clients open: the scheme, the API host, the listen path and
   * the serialized options.  `query` is the result of serializing the
   * options map.
   */
  function Endpoint(apiUrl: string, query: string): (url: string)
    ensures |url| == |SCHEME| + |apiUrl| + |LISTEN_PATH| + |query|
    ensures url[..|SCHEME|] == SCHEME
    ensures url[|SCHEME|..|SCHEME| + |apiUrl|] == apiUrl
    ensures url[|SCHEME| + |apiUrl|..|url| - |query|] == LISTEN_PATH
    ensures url[|url| - |query|..] == query
  {
    SCHEME + apiUrl + LISTEN_PATH + query
  }

  /** The length of the longest prefix of `s` without a '/'. */
  function HostLength(s: string): (n: nat)
    ensures n <= |s|
    ensures forall i :: 0 <= i < n ==> s[i] != '/'
    ensures n < |s| ==> s[n] == '/'
  {
    if s == [] || s[0] == '/' then 0 else 1 + HostLength(s[1..])
  }

  /** Reads the host and the query back out of a listen URL. */
  function ParseEndpoint(url: string): (r: Option<(string, string)>)
    ensures r.Some? ==> '/' !in r.value.0 && Endpoint(r.value.0, r.value.1) == url
  {
    if |url| < |SCHEME| || url[..|SCHEME|] != SCHEME then None
    else
      var rest := url[|SCHEME|..];
      var n := HostLength(rest);
      var tail := rest[n..];
      if |tail| < |LISTEN_PATH| || tail[..|LISTEN_PATH|] != LISTEN_PATH then None
      else
        assert url == SCHEME + rest[..n] + LISTEN_PATH + tail[|LISTEN_PATH|..];
        Some((rest[..n], tail[|LISTEN_PATH|..]))
  }

  /** A host without '/' and any query are recovered exactly from the URL. */
  lemma EndpointRoundTrip(apiUrl: string, query: string)
    requires '/' !in apiUrl
    ensures ParseEndpoint(Endpoint(apiUrl, query)) == Some((apiUrl, query))
  {
    var url := Endpoint(apiUrl, query);
    var rest := url[|SCHEME|..];
    assert rest == apiUrl + LISTEN_PATH + query;
    assert forall i :: 0 <= i < |apiUrl| ==> rest[i] == apiUrl[i] && rest[i] != '/';
    assert rest[|apiUrl|] == '/';
    var n := HostLength(rest);
    assert n == |apiUrl|;
    assert rest[n..] == LISTEN_PATH + query;
  }

  /** So two sessions to different hosts or with different options never share a URL. */
  lemma EndpointInjective(h1: string, q1: string, h2: string, q2: string)
    requires '/' !in h1 && '/' !in h2
    requires Endpoint(h1, q1) == Endpoint(h2, q2)
    ensures h1 == h2 && q1 == q2
  {
    EndpointRoundTrip(h1, q1);
    EndpointRoundTrip(h2, q2);
  }

  // ---------------------------------------------------------------------------
  // The session state machine shared by both clients
  // ---------------------------------------------------------------------------

  /** A client's observable state: its socket and the events it has emitted. */
  datatype Session = Session(conn: ConnState, events: seq<Event>)

  /** `getIsReady()`: the socket's current state is OPEN; nothing is cached. */
  predicate IsReady(s: Session) {
    s.conn.readyState == OPEN
  }

  /** `send(data)`: transmit when ready, otherwise emit one error and drop the data. */
  function SendStep(s: Session, data: Chunk): (r: Session)
    ensures r.conn.readyState == s.conn.readyState && r.conn.closeCode == s.conn.closeCode
    ensures IsReady(s) ==> r.conn.sent == s.conn.sent + [data] && r.events == s.events
    ensures !IsReady(s) ==> r.conn.sent == s.conn.sent && r.events == s.events + [Error(NOT_OPEN)]
  {
    if IsReady(s) then s.(conn := s.conn.(sent := s.conn.sent + [data]))
    else s.(events := s.events + [Error(NOT_OPEN)])
  }

  /** `finish()`: ask the socket to close normally; emit nothing, send nothing. */
  function FinishStep(s: Session): (r: Session)
    ensures r.events == s.events && r.conn.sent == s.conn.sent
    ensures r.conn.readyState >= CLOSING
    ensures s.conn.readyState <= OPEN ==> r.conn.closeCode == Some(NORMAL_CLOSURE)
    ensures s.conn.readyState >= CLOSING ==> r == s
  {
    s.(conn := CloseRequested(s.conn, NORMAL_CLOSURE))
  }

  /** `finish()` twice is `finish()` once. */
  lemma FinishIdempotent(s: Session)
    ensures FinishStep(FinishStep(s)) == FinishStep(s)
  {
  }

  /** A socket callback (`onopen`, `onclose`, `onerror`, `onmessage`) emitting `emitted`. */
  function CallbackStep(s: Session, emitted: seq<Event>): (r: Session)
    ensures r.conn == s.conn
    ensures r.events == s.events + emitted
  {
    s.(events := s.events + emitted)
  }

  /** One thing that can happen to a session: a call by its owner, or the environment. */
  datatype Step =
    | Send(data: Chunk)
    | Finish
    | Progress(to: ReadyState)       // the transport changes readyState
    | Callback(emitted: seq<Event>)  // a socket callback runs

  function Apply(s: Session, step: Step): Session {
    match step
    case Send(data) => SendStep(s, data)
    case Finish => FinishStep(s)
    case Progress(to) =>
      if CanAdvance(s.conn.readyState, to) then s.(conn := s.conn.(readyState := to)) else s
    case Callback(emitted) => CallbackStep(s, emitted)
  }

  /** The session after `steps`, in order. */
  function Run(s: Session, steps: seq<Step>): Session
    decreases |steps|
  {
    if steps == [] then s else Run(Apply(s, steps[0]), steps[1..])
  }

  /** The events a session emits for `steps` when none of its sends can go out. */
  function DroppedEvents(steps: seq<Step>): (r: seq<Event>)
    ensures |steps| == 0 ==> r == []
    decreases |steps|
  {
    if steps == [] then []
    else
      var here :=
        match steps[0]
        case Send(_) => [Error(NOT_OPEN)]
        case Callback(emitted) => emitted
        case _ => [];
      here + DroppedEvents(steps[1..])
  }

  /** How many `send` calls `steps` holds. */
  function SendCount(steps: seq<Step>): (n: nat)
    ensures n <= |steps|
    decreases |steps|
  {
    if steps == [] then 0 else (if steps[0].Send? then 1 else 0) + SendCount(steps[1..])
  }

  /** How many events in `events` are the client's own not-open error. */
  function NotOpenCount(events: seq<Event>): (n: nat)
    ensures n <= |events|
    decreases |events|
  {
    if events == [] then 0
    else (if events[0] == Error(NOT_OPEN) then 1 else 0) + NotOpenCount(events[1..])
  }

  lemma {:induction false} NotOpenCountAppend(a: seq<Event>, b: seq<Event>)
    ensures NotOpenCount(a + b) == NotOpenCount(a) + NotOpenCount(b)
    decreases |a|
  {
    if a == [] {
      assert a + b == b;
    } else {
      assert (a + b)[1..] == a[1..] + b;
      NotOpenCountAppend(a[1..], b);
    }
  }

  /**
   * The ready state never moves backwards, and the sent frames and the
   * emitted events are append-only logs: nothing is ever withdrawn.
   */
  lemma {:induction false} RunAppendOnly(s: Session, steps: seq<Step>)
    ensures Run(s, steps).conn.readyState >= s.conn.readyState
    ensures s.conn.sent <= Run(s, steps).conn.sent
    ensures s.events <= Run(s, steps).events
    decreases |steps|
  {
    if steps != [] {
      RunAppendOnly(Apply(s, steps[0]), steps[1..]);
    }
  }

  /**
   * On a socket that is CLOSING or CLOSED nothing is ever transmitted again:
   * every later send becomes exactly one not-open error, and the callbacks'
   * events are all that is added besides.
   */
  lemma {:induction false} NothingSentOnceClosing(s: Session, steps: seq<Step>)
    requires s.conn.readyState >= CLOSING
    ensures Run(s, steps).conn.sent == s.conn.sent
    ensures Run(s, steps).events == s.events + DroppedEvents(steps)
    decreases |steps|
  {
    if steps != [] {
      var s' := Apply(s, steps[0]);
      assert s'.conn.readyState >= CLOSING;
      assert s'.conn.sent == s.conn.sent;
      NothingSentOnceClosing(s', steps[1..]);
    }
  }

  /** `send` after `finish()` never transmits, whatever the transport does in between. */
  lemma SendAfterFinishDropped(s: Session, steps: seq<Step>)
    ensures Run(FinishStep(s), steps).conn.sent == s.conn.sent
    ensures Run(FinishStep(s), steps).events == s.events + DroppedEvents(steps)
  {
    NothingSentOnceClosing(FinishStep(s), steps);
  }

  /**
   * Until the transport reports OPEN nothing is transmitted: sends made while
   * CONNECTING are dropped, not queued for later.
   */
  lemma {:induction false} NothingSentBeforeOpen(s: Session, steps: seq<Step>)
    requires s.conn.readyState != OPEN
    requires Progress(OPEN) !in steps
    ensures Run(s, steps).conn.sent == s.conn.sent
    ensures Run(s, steps).events == s.events + DroppedEvents(steps)
    decreases |steps|
  {
    if steps != [] {
      var s' := Apply(s, steps[0]);
      assert s'.conn.readyState != OPEN;
      assert s'.conn.sent == s.conn.sent;
      assert steps == [steps[0]] + steps[1..];
      NothingSentBeforeOpen(s', steps[1..]);
    }
  }

  /**
   * Every `send` has exactly one outcome: either its frame is transmitted or
   * one not-open error is emitted, never both and never neither.
   */
  lemma {:induction false} EverySendAccounted(s: Session, steps: seq<Step>)
    requires forall i :: 0 <= i < |steps| ==> steps[i].Callback? ==> NotOpenCount(steps[i].emitted) == 0
    ensures |Run(s, steps).conn.sent| - |s.conn.sent|
            + NotOpenCount(Run(s, steps).events) - NotOpenCount(s.events)
            == SendCount(steps)
    decreases |steps|
  {
    if steps != [] {
      var s' := Apply(s, steps[0]);
      match steps[0] {
        case Send(data) =>
          if !IsReady(s) {
            NotOpenCountAppend(s.events, [Error(NOT_OPEN)]);
          }
        case Finish =>
        case Progress(to) =>
        case Callback(emitted) =>
          NotOpenCountAppend(s.events, emitted);
      }
      assert forall i :: 0 <= i < |steps[1..]| ==> steps[1..][i] == steps[i + 1];
      EverySendAccounted(s', steps[1..]);
    }
  }
}
