/**
 * The `App` component: its settings state, the start/stop and pop-out
 * buttons, and the listeners `setupDeepgram` attaches to the session and to
 * the recorder.  React's `setState` is modelled as an immediate field update;
 * the handlers read the value from before their own update, as the deferred
 * update makes them do.
 */
module Subtitler {
  import opened Wrappers
  import opened WebSocket
  import opened Transcription
  import opened Deepgram
  import opened MediaRecorder

  /** A session is only attempted with a key of exactly this length, in UTF-16 code units. */
  const API_KEY_LENGTH := 40

  /**
   * JavaScript's `.length` of a string: a character above U+FFFF is a
   * surrogate pair, so it counts twice.
   */
  function Utf16Length(s: string): (n: nat)
    ensures |s| <= n <= 2 * |s|
    ensures (forall i :: 0 <= i < |s| ==> s[i] as int <= 0xFFFF) ==> n == |s|
  {
    if s == [] then 0 else (if s[0] as int > 0xFFFF then 2 else 1) + Utf16Length(s[1..])
  }

  /** A key with one character outside the Basic Multilingual Plane and 38 others is accepted. */
  lemma AstralKeyCountsTwice(rest: string)
    requires |rest| == 38
    requires forall i :: 0 <= i < |rest| ==> rest[i] as int <= 0xFFFF
    ensures |['\U{1F600}'] + rest| == 39
    ensures Utf16Length(['\U{1F600}'] + rest) == API_KEY_LENGTH
  {
    assert (['\U{1F600}'] + rest)[1..] == rest;
  }

  /** `n` copies of one chunk. */
  function Copies(chunk: Chunk, n: nat): (r: seq<Chunk>)
    ensures |r| == n
    ensures forall i :: 0 <= i < n ==> r[i] == chunk
  {
    if n == 0 then [] else Copies(chunk, n - 1) + [chunk]
  }
  const DEEPGRAM_HOST := "api.deepgram.com"
  const RECORDER_TIMESLICE_MS: nat := 1000
  const INITIAL_SUBTITLE_TIMEOUT := 4

  class App {
    var apiKey: string
    var isRunning: bool
    var lastSubtitle: string
    var subtitleTimeout: int
    var isPopOutShown: bool
    var deepgramSocket: DeepgramTranscriber?
    var mediaRecorder: Recorder?
    /** The serialized session options (punctuation on, latest model, British English). */
    const optionsQuery: string

    /** While stopped the component holds no session. */
    ghost predicate Valid()
      reads this
    {
      !isRunning ==> deepgramSocket == null
    }

    constructor (optionsQuery: string)
      ensures Valid()
      ensures apiKey == "" && !isRunning && lastSubtitle == ""
      ensures subtitleTimeout == INITIAL_SUBTITLE_TIMEOUT && !isPopOutShown
      ensures deepgramSocket == null && mediaRecorder == null
      ensures this.optionsQuery == optionsQuery
    {
      apiKey := "";
      isRunning := false;
      lastSubtitle := "";
      subtitleTimeout := INITIAL_SUBTITLE_TIMEOUT;
      isPopOutShown := false;
      deepgramSocket := null;
      mediaRecorder := null;
      this.optionsQuery := optionsQuery;
    }

    /** The API key input changed. */
    method HandleApiKeyChange(value: string)
      requires Valid()
      modifies this
      ensures Valid()
      ensures apiKey == value
      ensures isRunning == old(isRunning) && lastSubtitle == old(lastSubtitle)
      ensures subtitleTimeout == old(subtitleTimeout) && isPopOutShown == old(isPopOutShown)
      ensures deepgramSocket == old(deepgramSocket) && mediaRecorder == old(mediaRecorder)
    {
      apiKey := value;
    }

    /** The pop-out button: show or hide the subtitle window, nothing else. */
    method HandlePopoutWindowButton()
      requires Valid()
      modifies this
      ensures Valid()
      ensures isPopOutShown == !old(isPopOutShown)
      ensures apiKey == old(apiKey) && isRunning == old(isRunning) && lastSubtitle == old(lastSubtitle)
      ensures subtitleTimeout == old(subtitleTimeout)
      ensures deepgramSocket == old(deepgramSocket) && mediaRecorder == old(mediaRecorder)
    {
      isPopOutShown := !isPopOutShown;
    }

    /**
     * The start/stop button.  The running flag flips; when it was running the
     * session is finished, the recorder stopped and the session dropped; when
     * it was not, a session is set up only for a key of exactly 40 characters.
     */
    method HandleStartStopButton()
      requires Valid()
      modifies this, mediaRecorder, if deepgramSocket == null then {} else {deepgramSocket.socket}
      ensures Valid()
      ensures isRunning == !old(isRunning)
      ensures apiKey == old(apiKey) && lastSubtitle == old(lastSubtitle)
      ensures subtitleTimeout == old(subtitleTimeout) && isPopOutShown == old(isPopOutShown)
      // stopping
      ensures old(isRunning) ==> deepgramSocket == null && mediaRecorder == old(mediaRecorder)
      ensures old(isRunning) && old(deepgramSocket) != null ==>
                old(deepgramSocket).State() == FinishStep(old(deepgramSocket.State()))
      ensures old(isRunning) && mediaRecorder != null ==>
                !mediaRecorder.recording && mediaRecorder.dataListeners == old(mediaRecorder.dataListeners)
      // starting with a well-formed key
      ensures !old(isRunning) && Utf16Length(apiKey) == API_KEY_LENGTH ==>
                deepgramSocket != null && fresh(deepgramSocket) && fresh(deepgramSocket.socket)
                && deepgramSocket.socket.url == Endpoint(DEEPGRAM_HOST, optionsQuery)
                && deepgramSocket.socket.handshake == Subprotocols(["token", apiKey])
                && deepgramSocket.State() == Session(ConnState(CONNECTING, [], None), [])
                && mediaRecorder != null
      ensures !old(isRunning) && Utf16Length(apiKey) == API_KEY_LENGTH && old(mediaRecorder) == null ==>
                fresh(mediaRecorder) && !mediaRecorder.recording && mediaRecorder.dataListeners == 0
      ensures !old(isRunning) && Utf16Length(apiKey) == API_KEY_LENGTH && old(mediaRecorder) != null ==>
                mediaRecorder == old(mediaRecorder) && unchanged(mediaRecorder)
      // starting with any other key: nothing is created
      ensures !old(isRunning) && Utf16Length(apiKey) != API_KEY_LENGTH ==>
                deepgramSocket == null && mediaRecorder == old(mediaRecorder)
                && (mediaRecorder != null ==> unchanged(mediaRecorder))
    {
      var wasRunning := isRunning;  // the deferred setState leaves the old value visible
      isRunning := !wasRunning;

      if wasRunning {
        if deepgramSocket != null {
          deepgramSocket.Finish();
        }
        if mediaRecorder != null {
          mediaRecorder.Stop();
        }
        deepgramSocket := null;
      }

      if !wasRunning {
        if Utf16Length(apiKey) == API_KEY_LENGTH {
          SetupDeepgram(apiKey);
        }
      }
    }

    /**
     * Acquires the recorder on first use (the microphone grant is taken as
     * given) and opens a new session with the key and the fixed options.
     */
    method SetupDeepgram(key: string)
      requires isRunning
      modifies this
      ensures Valid()
      ensures deepgramSocket != null && fresh(deepgramSocket) && fresh(deepgramSocket.socket)
      ensures deepgramSocket.socket.url == Endpoint(DEEPGRAM_HOST, optionsQuery)
      ensures deepgramSocket.socket.handshake == Subprotocols(["token", key])
      ensures deepgramSocket.State() == Session(ConnState(CONNECTING, [], None), [])
      ensures old(mediaRecorder) == null ==>
                mediaRecorder != null && fresh(mediaRecorder)
                && !mediaRecorder.recording && mediaRecorder.dataListeners == 0
      ensures old(mediaRecorder) != null ==> mediaRecorder == old(mediaRecorder)
      ensures apiKey == old(apiKey) && isRunning == old(isRunning) && lastSubtitle == old(lastSubtitle)
      ensures subtitleTimeout == old(subtitleTimeout) && isPopOutShown == old(isPopOutShown)
    {
      if mediaRecorder == null {
        mediaRecorder := new Recorder();
      }
      deepgramSocket := new DeepgramTranscriber(key, DEEPGRAM_HOST, optionsQuery);
    }

    /**
     * The session's `open` listener: register a `dataavailable` listener on
     * the recorder and start it with one-second slices.
     */
    method OnSessionOpen()
      modifies mediaRecorder
      ensures mediaRecorder != null ==>
                mediaRecorder.dataListeners == old(mediaRecorder.dataListeners) + 1
                && mediaRecorder.recording && mediaRecorder.timeslice == Some(RECORDER_TIMESLICE_MS)
    {
      if mediaRecorder != null {
        mediaRecorder.AddDataListener();
      }
      if mediaRecorder != null {
        mediaRecorder.Start(RECORDER_TIMESLICE_MS);
      }
    }

    /**
     * One `dataavailable` listener receiving one chunk: it is forwarded only
     * when non-empty and the current session reports ready, so the session's
     * not-open error is never raised from here.
     */
    method DataAvailableListener(chunk: Chunk)
      modifies if deepgramSocket == null then {} else {deepgramSocket, deepgramSocket.socket}
      ensures deepgramSocket != null ==>
                deepgramSocket.State() ==
                  if |chunk| > 0 && IsReady(old(deepgramSocket.State()))
                  then SendStep(old(deepgramSocket.State()), chunk)
                  else old(deepgramSocket.State())
      ensures deepgramSocket != null ==> deepgramSocket.events == old(deepgramSocket.events)
    {
      if |chunk| > 0 && deepgramSocket != null && deepgramSocket.GetIsReady() {
        deepgramSocket.Send(chunk);
      }
    }

    /**
     * The recorder firing `dataavailable`: every registered listener runs, in
     * turn, on the same chunk.  With `n` listeners and a ready session the
     * chunk is transmitted `n` times.
     */
    method DeliverChunk(chunk: Chunk)
      modifies if deepgramSocket == null then {} else {deepgramSocket, deepgramSocket.socket}
      ensures deepgramSocket != null ==> deepgramSocket.events == old(deepgramSocket.events)
      ensures deepgramSocket != null ==>
                deepgramSocket.socket.readyState == old(deepgramSocket.socket.readyState)
                && deepgramSocket.socket.closeCode == old(deepgramSocket.socket.closeCode)
      ensures deepgramSocket != null ==>
                deepgramSocket.socket.sent ==
                  old(deepgramSocket.socket.sent)
                  + if |chunk| > 0 && old(deepgramSocket.socket.readyState) == OPEN
                    then Copies(chunk, if mediaRecorder == null then 0 else mediaRecorder.dataListeners)
                    else []
    {
      var n := if mediaRecorder == null then 0 else mediaRecorder.dataListeners;
      if deepgramSocket == null {
        return;
      }
      var session := deepgramSocket;
      var forwards := |chunk| > 0 && session.socket.readyState == OPEN;
      var k := 0;
      while k < n
        invariant 0 <= k <= n
        invariant deepgramSocket == session
        invariant session.events == old(session.events)
        invariant session.socket.readyState == old(session.socket.readyState)
        invariant session.socket.closeCode == old(session.socket.closeCode)
        invariant session.socket.sent == old(session.socket.sent) + if forwards then Copies(chunk, k) else []
      {
        DataAvailableListener(chunk);
        k := k + 1;
      }
    }

    /** The session's `transcriptReceived` listener: show exactly that text. */
    method OnTranscriptReceived(received: string)
      requires Valid()
      modifies this
      ensures Valid()
      ensures lastSubtitle == received
      ensures apiKey == old(apiKey) && isRunning == old(isRunning)
      ensures subtitleTimeout == old(subtitleTimeout) && isPopOutShown == old(isPopOutShown)
      ensures deepgramSocket == old(deepgramSocket) && mediaRecorder == old(mediaRecorder)
    {
      lastSubtitle := received;
    }
  }

  /**
   * Start, stop and start again with a valid key: the second session's open
   * adds a second `dataavailable` listener to the same recorder, and each
   * listener forwards every chunk to the current session.
   */
  method RestartWalkthrough(key: string, chunk: Chunk)
    requires Utf16Length(key) == API_KEY_LENGTH && |chunk| > 0
  {
    var app := new App("language=en-GB&punctuate=true&version=latest");
    app.HandleApiKeyChange(key);
    app.HandleStartStopButton();
    var first := app.deepgramSocket;
    first.socket.Advance(OPEN);
    first.OnOpen();
    app.OnSessionOpen();
    assert app.mediaRecorder.dataListeners == 1;

    app.HandleStartStopButton();
    assert first.socket.closeCode == Some(NORMAL_CLOSURE);

    app.HandleStartStopButton();
    var second := app.deepgramSocket;
    second.socket.Advance(OPEN);
    second.OnOpen();
    app.OnSessionOpen();
    assert app.mediaRecorder.dataListeners == 2;
  }

  /** With two listeners registered, one chunk from the recorder is transmitted twice. */
  method TwoListenersDeliverTwice(app: App, chunk: Chunk)
    requires app.deepgramSocket != null && app.deepgramSocket.socket.readyState == OPEN
    requires app.mediaRecorder != null && app.mediaRecorder.dataListeners == 2
    requires |chunk| > 0
    modifies app.deepgramSocket, app.deepgramSocket.socket
  {
    var session := app.deepgramSocket;
    ghost var before := session.socket.sent;
    app.DeliverChunk(chunk);
    assert session.socket.sent == before + [chunk, chunk];
  }
}
