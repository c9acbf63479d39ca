/**
 * `BrowserLiveTranscription`: the same send gate and close behaviour as the
 * Deepgram client, but it authenticates with an `Authorization` header and
 * passes every inbound frame on unparsed.
 */
module BrowserLive {
  import opened Wrappers
  import opened WebSocket
  import opened Transcription

  const USER_AGENT := "Subtitler"

  /** The handshake headers: the credential as `token <credentials>` and the fixed user agent. */
  function AuthHeaders(credentials: string): (h: seq<(string, string)>)
    ensures |h| == 2
    ensures h[0].0 == "Authorization" && |h[0].1| == 6 + |credentials| && h[0].1[..6] == "token " && h[0].1[6..] == credentials
    ensures h[1] == ("User-Agent", USER_AGENT)
  {
    [("Authorization", "token " + credentials), ("User-Agent", USER_AGENT)]
  }

  class BrowserLiveTranscription {
    const socket: Socket
    var events: seq<Event>

    function State(): Session
      reads this, socket
    {
      Session(socket.State(), events)
    }

    /** Opens the listen endpoint with the credential in the handshake headers. */
    constructor (credentials: string, apiUrl: string, query: string)
      ensures fresh(socket)
      ensures socket.url == Endpoint(apiUrl, query)
      ensures socket.handshake == Headers(AuthHeaders(credentials))
      ensures State() == Session(ConnState(CONNECTING, [], None), [])
    {
      socket := new Socket(Endpoint(apiUrl, query), Headers(AuthHeaders(credentials)));
      events := [];
    }

    /** `onopen`: emit `open`. */
    method OnOpen()
      modifies this
      ensures State() == CallbackStep(old(State()), [Open])
    {
      events := events + [Open];
    }

    /** `onclose`: emit `close` with the socket's close event. */
    method OnClose(code: int, reason: string)
      modifies this
      ensures State() == CallbackStep(old(State()), [Close(code, reason)])
    {
      events := events + [Close(code, reason)];
    }

    /** `onerror`: emit `error` with the socket's error event. */
    method OnError(info: string)
      modifies this
      ensures State() == CallbackStep(old(State()), [Error(SocketError(info))])
    {
      events := events + [Error(SocketError(info))];
    }

    /** `onmessage`: every frame's raw data becomes one `transcriptReceived`, unfiltered. */
    method OnMessage(data: string)
      modifies this
      ensures State() == CallbackStep(old(State()), [TranscriptReceived(data)])
    {
      events := events + [TranscriptReceived(data)];
    }

    /** `getReadyState()`: the socket's state as it is now. */
    function GetReadyState(): (r: ReadyState)
      reads this, socket
      ensures r == socket.readyState
      ensures (r == OPEN) == IsReady(State())
    {
      socket.readyState
    }

    /** `send(data)`: transmitted if and only if the socket is OPEN; otherwise one error event. */
    method Send(data: Chunk)
      modifies this, socket
      ensures State() == SendStep(old(State()), data)
    {
      if socket.readyState == OPEN {
        socket.Send(data);
      } else {
        events := events + [Error(NOT_OPEN)];
      }
    }

    /** `finish()`: request a normal closure (code 1000). */
    method Finish()
      modifies socket
      ensures State() == FinishStep(old(State()))
    {
      socket.Close(NORMAL_CLOSURE);
    }
  }
}
