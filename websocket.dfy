/**
 * An abstract WebSocket, as the transcription clients use it: a ready state
 * (CONNECTING, OPEN, CLOSING, CLOSED), the log of frames sent on it and the
 * close code a caller has asked for.  The transport's own progress (handshake
 * completing, the connection dropping) is an environment step, `Advance`.
 */
module WebSocket {
  import opened Wrappers

  /** The four values of `WebSocket.readyState`. */
  type ReadyState = s: int | 0 <= s <= 3

  const CONNECTING: ReadyState := 0
  const OPEN: ReadyState := 1
  const CLOSING: ReadyState := 2
  const CLOSED: ReadyState := 3

  /** Normal closure, section 7.4.1 of RFC 6455. */
  const NORMAL_CLOSURE: int := 1000

  /** One outbound binary frame: an audio chunk, passed through unchanged. */
  type Chunk = seq<bv8>

  /** How the credential travels in the opening handshake. */
  datatype Handshake =
    | Subprotocols(protocols: seq<string>)
    | Headers(fields: seq<(string, string)>)

  /** The observable state of one socket. */
  datatype ConnState = ConnState(readyState: ReadyState, sent: seq<Chunk>, closeCode: Option<int>)

  /** The ready state only moves forward: CLOSED is terminal. */
  predicate CanAdvance(from: ReadyState, to: ReadyState) {
    from < to
  }

  /**
   * `close(code)` as the browser defines it: a socket that is CONNECTING or
   * OPEN starts closing and records the code; on a CLOSING or CLOSED socket
   * the call does nothing.  Nothing is ever transmitted by it.
   */
  function CloseRequested(c: ConnState, code: int): (r: ConnState)
    ensures r.sent == c.sent
    ensures c.readyState <= OPEN ==> r.readyState == CLOSING && r.closeCode == Some(code)
    ensures c.readyState >= CLOSING ==> r == c
    ensures r.readyState >= CLOSING
  {
    if c.readyState <= OPEN then c.(readyState := CLOSING, closeCode := Some(code)) else c
  }

  /** Asking twice to close is the same as asking once. */
  lemma CloseIdempotent(c: ConnState, code: int, code': int)
    ensures CloseRequested(CloseRequested(c, code), code') == CloseRequested(c, code)
  {
  }

  class Socket {
    const url: string
    const handshake: Handshake
    var readyState: ReadyState
    var sent: seq<Chunk>
    var closeCode: Option<int>

    function State(): ConnState
      reads this
    {
      ConnState(readyState, sent, closeCode)
    }

    /** `new WebSocket(url, ...)`: the connection attempt starts at once. */
    constructor (url: string, handshake: Handshake)
      ensures this.url == url && this.handshake == handshake
      ensures State() == ConnState(CONNECTING, [], None)
    {
      this.url := url;
      this.handshake := handshake;
      readyState := CONNECTING;
      sent := [];
      closeCode := None;
    }

    /**
     * `send(data)`.  Only an OPEN socket may be written to: this precondition
     * is the invariant "no audio leaves while the connection is not OPEN",
     * checked at every call site.
     */
    method Send(data: Chunk)
      requires readyState == OPEN
      modifies this
      ensures sent == old(sent) + [data]
      ensures readyState == old(readyState) && closeCode == old(closeCode)
    {
      sent := sent + [data];
    }

    /** `close(code)`. */
    method Close(code: int)
      modifies this
      ensures State() == CloseRequested(old(State()), code)
    {
      if readyState <= OPEN {
        readyState := CLOSING;
        closeCode := Some(code);
      }
    }

    /** The transport moves on by itself: handshake done, closing confirmed, connection lost. */
    method Advance(to: ReadyState)
      requires CanAdvance(readyState, to)
      modifies this
      ensures readyState == to
      ensures sent == old(sent) && closeCode == old(closeCode)
    {
      readyState := to;
    }
  }
}
