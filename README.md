# Live subtitler: transcription session model

This project models the connection logic of a browser live-captioning
client. The client streams microphone audio over a WebSocket to a hosted
speech-to-text service and shows the text it gets back as subtitles.
Three pieces are modelled:

- `DeepgramTranscriber` (`src/DeepgramTranscriber/index.ts`) owns one socket.
  - It authenticates with the subprotocol list `["token", credentials]`.
  - It forwards audio only while the socket is OPEN. Otherwise it emits an
    `error` event.
  - It surfaces an inbound result only when the first alternative's text is
    non-empty and the result is final.
  - It closes with code 1000.
- `BrowserLiveTranscription` (`src/DeepgramBrowserTranscriber/BrowserLive.ts`)
  has the same send gate and close behaviour.
  - It authenticates with an `Authorization: token <credentials>` header and
    a `User-Agent: Subtitler` header.
  - It passes every inbound frame's raw data on as a `transcriptReceived`
    event.
- The `App` component (`src/App.tsx`) has these parts:
  - its initial state;
  - the start/stop button, which sets up a session only for a 40-character
    API key;
  - the pop-out and API-key handlers;
  - the listeners `setupDeepgram` attaches. The session's `open` listener
    starts the recorder in one-second slices. The recorder's `dataavailable`
    listener forwards non-empty chunks while the session is ready. The
    session's `transcriptReceived` listener sets the subtitle.

Modules:

- `WebSocket` (`websocket.dfy`) is the abstract socket. It holds a
  `readyState` in 0..3, the log of frames sent and the requested close code.
  `Socket.Send` requires OPEN. That precondition is the invariant "no audio
  is transmitted unless the socket is OPEN", and it is discharged at every
  call site. `Socket.Close` follows the browser's `close()`: a call on a
  CLOSING or CLOSED socket is ignored. This is an assumption about the
  library, and it is the only reason `finish()` is idempotent.
  `Socket.Advance` is the transport moving on by itself. The ready state only
  moves forward.
- `Transcription` (`transcription.dfy`) holds what both clients share:
  - the events and the listen endpoint, which comes with a parser and a
    round-trip proof;
  - the session state machine, with one step function per operation and
    `Run` over a sequence of steps;
  - the trace lemmas: nothing is sent before OPEN, nothing is sent after
    `finish()`, every `send` has exactly one outcome, and the logs are
    append-only.
- `Deepgram` (`deepgram_transcriber.dfy`) and `BrowserLive`
  (`browser_live.dfy`) hold the two client classes. Each method's `ensures`
  ties the client's state (its socket plus its event log) to the matching
  step function, so the trace lemmas hold for both clients.
- `MediaRecorder` (`media_recorder.dfy`) is the abstract recorder.
- `Subtitler` (`app.dfy`) holds the component.

The socket callbacks `onopen`, `onclose`, `onerror` and `onmessage` are
methods the environment calls. The listeners the component registers are
also methods the environment calls after an event is emitted. The emitter is
an append-only event log. Inbound frames arrive already parsed (`Response`).
The serialized options map is an opaque input string.

The `open` listener adds a `dataavailable` listener every time a session
opens, and it never removes one. The recorder is kept across runs. So
after a stop and a restart, the recorder has two listeners, and each of them
forwards every chunk to the current session. `MediaRecorder.Recorder`
counts these listeners. `Subtitler.App.DeliverChunk` is the recorder firing
`dataavailable`: it runs every registered listener on the chunk, and with `n`
listeners and a ready session the chunk is transmitted `n` times.
`Subtitler.RestartWalkthrough` reaches two listeners after a restart, and
`Subtitler.TwoListenersDeliverTwice` shows that one chunk is then sent twice.

Two facts about the code shape the model:

- A frame without alternatives makes `onmessage` throw
  (`src/DeepgramTranscriber/index.ts:31`). No `error` event is emitted for
  it. This is the `Throws` decision.
- The component checks the key itself. It starts a session only for a key
  whose JavaScript `.length` is 40 (`src/App.tsx:62`). That length counts
  UTF-16 code units, so a character above U+FFFF counts twice
  (`Subtitler.Utf16Length`).

## Model

| member | source | states |
|---|---|---|
| WebSocket.CloseRequested | src/DeepgramTranscriber/index.ts:58-60 | closing a CONNECTING or OPEN socket makes it CLOSING and records the code; closing a CLOSING or CLOSED socket does nothing; no frame is sent |
| WebSocket.CloseIdempotent | src/DeepgramTranscriber/index.ts:58-60 | a second close request changes nothing (the browser `close()` assumption behind `finish()` being idempotent) |
| WebSocket.Socket.constructor | src/DeepgramTranscriber/index.ts:12 | a new socket keeps its URL and handshake, starts CONNECTING, and has sent nothing |
| WebSocket.Socket.Send | src/DeepgramTranscriber/index.ts:48 | transmitting is possible only on an OPEN socket and appends the data unchanged to the sent frames |
| WebSocket.Socket.Close | src/DeepgramTranscriber/index.ts:59 | the socket's new state is `CloseRequested` of its old state |
| WebSocket.Socket.Advance | src/DeepgramTranscriber/index.ts:38-40 | the transport moves the ready state forward only, and leaves the sent frames and the close code alone |
| Transcription.Endpoint | src/DeepgramTranscriber/index.ts:10-11 | the URL is `wss://`, then the host, then `/v1/listen?`, then the query, each at its own position |
| Transcription.ParseEndpoint | src/DeepgramTranscriber/index.ts:10-11 | every URL it accepts is the endpoint of the host and query it returns, and the host contains no `/` |
| Transcription.EndpointRoundTrip | src/DeepgramTranscriber/index.ts:10-11 | for a host without `/`, the host and query are read back exactly from the endpoint |
| Transcription.EndpointInjective | src/DeepgramBrowserTranscriber/BrowserLive.ts:18-19 | different hosts or different option strings never give the same endpoint |
| Transcription.SendStep | src/DeepgramTranscriber/index.ts:46-52 | when ready, the data is appended to the sent frames and no event is emitted; otherwise nothing is sent and exactly one not-open error is emitted; the ready state is untouched |
| Transcription.FinishStep | src/DeepgramTranscriber/index.ts:58-60 | the socket is asked to close with code 1000 and ends up CLOSING or CLOSED; nothing is sent and no event is emitted |
| Transcription.FinishIdempotent | src/DeepgramTranscriber/index.ts:58-60 | calling `finish()` twice has the same effect as calling it once |
| Transcription.CallbackStep | src/DeepgramTranscriber/index.ts:16-35 | a socket callback only appends its events and leaves the socket alone |
| Transcription.RunAppendOnly | src/DeepgramTranscriber/index.ts:46-60 | over any sequence of steps the ready state never goes back, and the sent frames and the events only grow |
| Transcription.NothingSentOnceClosing | src/DeepgramTranscriber/index.ts:46-51 | from a CLOSING or CLOSED socket nothing is ever sent again; every send becomes exactly one not-open error |
| Transcription.SendAfterFinishDropped | src/DeepgramTranscriber/index.ts:46-60 | after `finish()` no send ever transmits, whatever the transport does; each one only emits the not-open error |
| Transcription.NothingSentBeforeOpen | src/DeepgramTranscriber/index.ts:38-51 | until the transport reports OPEN, sends are dropped and not queued: the sent frames stay as they were |
| Transcription.EverySendAccounted | src/DeepgramTranscriber/index.ts:46-52 | across any run, frames sent plus not-open errors emitted equals the number of sends |
| Deepgram.Decide | src/DeepgramTranscriber/index.ts:29-35 | a frame emits its first alternative's transcript exactly when that text is non-empty and the frame is final; interim and empty results are ignored; a frame with no alternatives throws |
| Deepgram.Emitted | src/DeepgramTranscriber/index.ts:32-34 | a decision adds at most one event, and it adds one exactly when it is `Emit`, carrying that text |
| Deepgram.FirstAlternativeOnly | src/DeepgramTranscriber/index.ts:31 | alternatives after the first never change the outcome |
| Deepgram.DeepgramTranscriber.constructor | src/DeepgramTranscriber/index.ts:8-14 | the socket opens `Endpoint(apiUrl, query)` with subprotocols `["token", credentials]`; it is CONNECTING, nothing is sent, and no event is emitted |
| Deepgram.DeepgramTranscriber.OnOpen | src/DeepgramTranscriber/index.ts:17-19 | exactly one `open` event is appended; nothing else changes |
| Deepgram.DeepgramTranscriber.OnClose | src/DeepgramTranscriber/index.ts:21-23 | exactly one `close` event, carrying the close event's code and reason, is appended; nothing else changes |
| Deepgram.DeepgramTranscriber.OnError | src/DeepgramTranscriber/index.ts:25-27 | exactly one `error` event, carrying the socket's error, is appended; nothing else changes |
| Deepgram.DeepgramTranscriber.OnMessage | src/DeepgramTranscriber/index.ts:29-35 | the events `Decide` calls for are appended: one `transcriptReceived` for a final, non-empty first transcript, none otherwise; it throws exactly when there is no alternative |
| Deepgram.DeepgramTranscriber.GetIsReady | src/DeepgramTranscriber/index.ts:38-40 | ready exactly when the socket's current `readyState` is 1 (OPEN) |
| Deepgram.DeepgramTranscriber.Send | src/DeepgramTranscriber/index.ts:46-52 | the new state is `SendStep` of the old state: transmit when ready, otherwise one error and nothing queued |
| Deepgram.DeepgramTranscriber.Finish | src/DeepgramTranscriber/index.ts:58-60 | the new state is `FinishStep` of the old state (close with code 1000) |
| BrowserLive.AuthHeaders | src/DeepgramBrowserTranscriber/BrowserLive.ts:24-29 | the handshake headers are `Authorization: token <credentials>` and `User-Agent: Subtitler` |
| BrowserLive.BrowserLiveTranscription.constructor | src/DeepgramBrowserTranscriber/BrowserLive.ts:12-32 | the socket opens `Endpoint(apiUrl, query)` with the authorization headers; it is CONNECTING, nothing is sent, and no event is emitted |
| BrowserLive.BrowserLiveTranscription.OnOpen | src/DeepgramBrowserTranscriber/BrowserLive.ts:35-37 | exactly one `open` event is appended; nothing else changes |
| BrowserLive.BrowserLiveTranscription.OnClose | src/DeepgramBrowserTranscriber/BrowserLive.ts:39-41 | exactly one `close` event is appended; nothing else changes |
| BrowserLive.BrowserLiveTranscription.OnError | src/DeepgramBrowserTranscriber/BrowserLive.ts:43-45 | exactly one `error` event is appended; nothing else changes |
| BrowserLive.BrowserLiveTranscription.OnMessage | src/DeepgramBrowserTranscriber/BrowserLive.ts:47-49 | every frame appends exactly one `transcriptReceived` with the raw data, unparsed and unfiltered |
| BrowserLive.BrowserLiveTranscription.GetReadyState | src/DeepgramBrowserTranscriber/BrowserLive.ts:55-57 | the socket's current ready state, unmodified; it is OPEN exactly when the session is ready |
| BrowserLive.BrowserLiveTranscription.Send | src/DeepgramBrowserTranscriber/BrowserLive.ts:63-69 | the new state is `SendStep` of the old state: transmit if and only if OPEN, otherwise the not-open error |
| BrowserLive.BrowserLiveTranscription.Finish | src/DeepgramBrowserTranscriber/BrowserLive.ts:75-77 | the new state is `FinishStep` of the old state (close with code 1000) |
| MediaRecorder.Recorder.constructor | src/App.tsx:73-75 | a new recorder is inactive, has no timeslice and has no listeners |
| MediaRecorder.Recorder.AddDataListener | src/App.tsx:89-93 | one more `dataavailable` listener; none is removed |
| MediaRecorder.Recorder.Start | src/App.tsx:94 | the recorder is recording with the given timeslice |
| MediaRecorder.Recorder.Stop | src/App.tsx:56 | the recorder is inactive; its listeners stay |
| Subtitler.Utf16Length | src/App.tsx:62 | the key's length as JavaScript's `.length` counts it: between the number of characters and twice that, and equal to it when every character is in the Basic Multilingual Plane |
| Subtitler.AstralKeyCountsTwice | src/App.tsx:62 | a key of 39 characters, one of them above U+FFFF, has length 40 and so passes the gate |
| Subtitler.App.constructor | src/App.tsx:21-37 | the initial state is an empty key, not running, an empty subtitle, a timeout of 4 and no pop-out, with no session and no recorder |
| Subtitler.App.HandleApiKeyChange | src/App.tsx:39-41 | the key becomes the input's value; nothing else changes |
| Subtitler.App.HandlePopoutWindowButton | src/App.tsx:47-49 | `isPopOutShown` flips; nothing else changes |
| Subtitler.App.HandleStartStopButton | src/App.tsx:51-66 | `isRunning` flips, and both branches test the value from before the flip, so exactly one runs. If it was running: the session is finished with code 1000, the recorder is stopped and the session is dropped. If it was not: a session to `api.deepgram.com` with subprotocols `["token", key]` is created only when the key's UTF-16 length is exactly 40; with any other length nothing is created. While stopped, no session is held |
| Subtitler.App.SetupDeepgram | src/App.tsx:68-86 | the recorder is created only if there is none yet, otherwise it is reused; a fresh session to the fixed host with the serialized options is opened |
| Subtitler.App.OnSessionOpen | src/App.tsx:88-95 | the session's `open` registers one more `dataavailable` listener and starts the recorder in 1000 ms slices |
| Subtitler.App.DataAvailableListener | src/App.tsx:89-93 | a chunk reaches the current session only if it is non-empty and the session reports ready; then it is sent unchanged, and the session's not-open error is never raised from here |
| Subtitler.App.DeliverChunk | src/App.tsx:88-94 | one recorder chunk runs every `dataavailable` listener registered so far; with `n` listeners and a ready session the chunk is sent `n` times; the ready state, close code and events are unchanged |
| Subtitler.App.OnTranscriptReceived | src/App.tsx:97-100 | `lastSubtitle` becomes exactly the received text; nothing else changes |

## Left out

- Device I/O and timing. `getUserMedia`, the microphone grant and the `await` in `setupDeepgram` are out. The recorder's creation is atomic here, so a stop pressed while the grant is still pending is not modelled. The code's separate `mediaStream` field is folded into "a recorder exists".
- Unhandled `error` events. Node's `EventEmitter` throws on `emit("error", ...)` when no `error` listener is registered, and the component registers none (`App.tsx:88-110`). So in the program, the not-open branch of `send` (`index.ts:50`, `BrowserLive.ts:67`) and every socket `onerror` (`index.ts:25-27`, `BrowserLive.ts:43-45`) throw at the point where the model appends `Error(...)` to the event log. The component itself only calls `send` on a ready session, so its path never reaches the not-open branch.
- Foreign libraries. `QueryString.stringify` and `querystring.stringify` become the input string `query`. `JSON.parse` is out, since inbound frames arrive already parsed, so a frame that is not JSON is not modelled. `EventEmitter` dispatch is out: listeners are methods the environment calls. Construction through `isomorphic-ws` is out.
- Transport behaviour. Transport failure, reconnecting and the order of asynchronous callbacks are not modelled (there is no such logic in the code). Whether the environment calls a callback is not tied to the ready state.
- WebSocket.Socket.Send: requires OPEN, which is stronger than the browser's `send`. The browser throws on CONNECTING and silently discards on CLOSING/CLOSED. Both clients only call it when OPEN.
- Only binary chunks are sent. The `string`, `ArrayBufferView` and `Blob` alternatives of `send` are all modelled as byte sequences.
- MediaRecorder.Recorder.Start: does not model the `InvalidStateError` that `start()` raises on a recorder that is already recording.
- The session's `open` payload (the client itself) is not carried by the `Open` event.
- `console.log` of the endpoint (`BrowserLive.ts:20`) and of progress messages (`App.tsx:78-80`). Logging only.
- `handleTimeoutChange` (`App.tsx:43-45`). It depends on `parseInt`/NaN, and it is never bound to the component, so its `this` is undefined when it is called.
- The commented-out subtitle-expiry timer (`App.tsx:102-108`). It is unfinished and asynchronous.
- `render`, the pop-out window and the styling (`App.tsx:113-217`). UI only.
- The caption relay (sequence numbers, timestamps, HTTP POST). It is not part of these files.
