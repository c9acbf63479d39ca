/**
 * `DeepgramTranscriber`: a transcription client that authenticates with the
 * subprotocol list ["token", credentials] and surfaces only final, non-empty
 * transcripts from the service's JSON results.
 */
module Deepgram {
  import opened Wrappers
  import opened WebSocket
  import opened Transcription

  /** One interpretation the service offers for a stretch of audio. */
  datatype Alternative = Alternative(transcript: string)

  /**
   * An inbound result frame after JSON parsing: `channel.alternatives` and
   * `is_final`.
   */
  datatype Response = Response(alternatives: seq<Alternative>, isFinal: bool)

  /** What `onmessage` does with one frame. */
  datatype Decision =
    | Emit(text: string)  // emit `transcriptReceived(text)`
    | Ignore              // interim or empty result: nothing is emitted
    | Throws              // `alternatives[0]` is undefined: the handler throws, nothing is emitted

  /**
   * The `onmessage` filter: only the first alternative is read, and its text
   * is surfaced exactly when it is non-empty and the frame is final.
   */
  function Decide(received: Response): (d: Decision)
    ensures d.Throws? <==> received.alternatives == []
    ensures d.Emit? <==> received.alternatives != [] && received.alternatives[0].transcript != "" && received.isFinal
    ensures d.Emit? ==> d.text == received.alternatives[0].transcript
  {
    if received.alternatives == [] then Throws
    else
      var transcript := received.alternatives[0].transcript;
      if transcript != "" && received.isFinal then Emit(transcript) else Ignore
  }

  /** The events one decision adds to the log. */
  function Emitted(d: Decision): (r: seq<Event>)
    ensures |r| <= 1
    ensures r != [] <==> d.Emit?
    ensures d.Emit? ==> r == [TranscriptReceived(d.text)]
  {
    if d.Emit? then [TranscriptReceived(d.text)] else []
  }

  /** Alternatives after the first never change what happens to a frame. */
  lemma FirstAlternativeOnly(first: Alternative, rest: seq<Alternative>, rest': seq<Alternative>, isFinal: bool)
    ensures Decide(Response([first] + rest, isFinal)) == Decide(Response([first] + rest', isFinal))
  {
  }

  class DeepgramTranscriber {
    const socket: Socket
    var events: seq<Event>

    function State(): Session
      reads this, socket
    {
      Session(socket.State(), events)
    }

    /** Opens the listen endpoint with the credential in the subprotocol list. */
    constructor (credentials: string, apiUrl: string, query: string)
      ensures fresh(socket)
      ensures socket.url == Endpoint(apiUrl, query)
      ensures socket.handshake == Subprotocols(["token", credentials])
      ensures State() == Session(ConnState(CONNECTING, [], None), [])
    {
      socket := new Socket(Endpoint(apiUrl, query), Subprotocols(["token", credentials]));
      events := [];
    }

    /** `onopen`: emit `open`. */
    method OnOpen()
      modifies this
      ensures State() == CallbackStep(old(State()), [Open])
    {
      events := events + [Open];
    }

    /** `onclose`: emit `close` with the socket's close event. */
    method OnClose(code: int, reason: string)
      modifies this
      ensures State() == CallbackStep(old(State()), [Close(code, reason)])
    {
      events := events + [Close(code, reason)];
    }

    /** `onerror`: emit `error` with the socket's error event. */
    method OnError(info: string)
      modifies this
      ensures State() == CallbackStep(old(State()), [Error(SocketError(info))])
    {
      events := events + [Error(SocketError(info))];
    }

    /**
     * `onmessage`: emit `transcriptReceived` for a final, non-empty first
     * alternative.  `threw` reports the exception a frame without alternatives
     * raises; such a frame leaves the state unchanged.
     */
    method OnMessage(received: Response) returns (threw: bool)
      modifies this
      ensures threw <==> received.alternatives == []
      ensures State() == CallbackStep(old(State()), Emitted(Decide(received)))
    {
      if received.alternatives == [] {
        threw := true;
        return;
      }
      threw := false;
      var transcript := received.alternatives[0].transcript;
      if transcript != "" && received.isFinal {
        events := events + [TranscriptReceived(transcript)];
      }
    }

    /** `getIsReady()`: read from the socket each time. */
    function GetIsReady(): (ready: bool)
      reads this, socket
      ensures ready <==> socket.readyState == OPEN
      ensures ready == IsReady(State())
    {
      socket.readyState == OPEN
    }

    /** `send(data)`: transmitted only when ready; otherwise one error event and nothing queued. */
    method Send(data: Chunk)
      modifies this, socket
      ensures State() == SendStep(old(State()), data)
    {
      if GetIsReady() {
        socket.Send(data);
      } else {
        events := events + [Error(NOT_OPEN)];
      }
    }

    /** `finish()`: request a normal closure (code 1000). */
    method Finish()
      modifies socket
      ensures State() == FinishStep(old(State()))
    {
      socket.Close(NORMAL_CLOSURE);
    }
  }

  /** A session driven through the scenarios the client is meant to handle. */
  method SessionWalkthrough(key: string, audio: Chunk)
  {
    var t := new DeepgramTranscriber(key, "api.deepgram.com", "language=en-GB&punctuate=true&version=latest");
    t.Send(audio);
    assert t.socket.sent == [] && t.events == [Error(NOT_OPEN)];
    t.socket.Advance(OPEN);
    t.OnOpen();
    t.Send(audio);
    assert t.socket.sent == [audio];
    var threw := t.OnMessage(Response([Alternative("hello world")], true));
    assert !threw && t.events == [Error(NOT_OPEN), Open, TranscriptReceived("hello world")];
    threw := t.OnMessage(Response([Alternative("")], true));
    threw := t.OnMessage(Response([Alternative("hello")], false));
    assert |t.events| == 3;
    t.Finish();
    assert t.socket.closeCode == Some(NORMAL_CLOSURE);
    t.Send(audio);
    assert t.socket.sent == [audio] && |t.events| == 4;
  }
}
