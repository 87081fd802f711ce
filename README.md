# WebRTC signalling server: the signalling core in Dafny

This project models the bookkeeping of `WebRTCSignalingServer`, a rendezvous
server through which WebRTC peers exchange offers, answers and ICE candidates.
It has two pieces of shared mutable state: the set of connected websocket
clients, and the table of pending offers keyed by a uuid token. Each entry of
the table is an asyncio future that is unresolved, holds an answer, or was
cancelled together with the request waiting for it.
Five kinds of event drive it:

- a websocket connects or its message stream ends;
- a POST `/signal`: an offer mints a token, enters an unresolved entry, pushes
  `{type: 'offer', id, sdp}` to every client and suspends the request; any
  other body gets 400;
- a message on a websocket: an `answer` with an `id` resolves its entry, any
  other JSON object is relayed as its original text to every other client,
  invalid JSON and non-text messages are dropped, and JSON the decoder refuses
  on a limit ends the connection;
- a suspended offer request resumes: with its answer (200 and the answer
  object) or after its timeout (408). Either way the entry is deleted;
- the task of a suspended offer request is cancelled: it stops waiting, its
  future is cancelled unless it already holds an answer, and its entry stays.

Each asynchronous step is one atomic event. Files:

- `json.dfy` (module `Json`): decoded JSON values. A request body or websocket
  text comes paired with what the decoder made of it (`Decoded`). It also holds
  the text of the `AttributeError` that `v.get` raises when `v` is not a dict.
- `signalling.dfy` (module `Signalling`): the state (`clients`, `pending`, and
  `waiting`, the tokens whose request is still suspended); one function per
  event giving the new state, the result and the pushes made (`Sends`);
  delivery accounting for the broadcast loops; one lemma per property of a
  single event.
- `server.dfy` (module `Server`): class `SignalingServer` with the fields
  `clients`, `pending`, `waiting` and `outbox`, and one method per event.
  The broadcast and relay loops append to `outbox` one client at a time. Each
  method is proved to reach the state its `Signalling` function gives, and
  to queue exactly that function's pushes, once per recipient.
- `traces.dfy` (module `Traces`): events, runs of events, and the properties
  that span several events. These cover the invariant over any run, orphaned
  entries (including those of cancelled requests), first-answer-wins and
  cancelled-stays-cancelled, answers that arrive after a cancellation, the
  client count, and the offer/answer and offer/timeout exchanges end to end.

The `waiting` set stands for the suspended `signal_handler` coroutines. It is
needed because an offer without `sdp`, or a cancelled request, can leave an
entry that no request waits for (see below). Only a waiting token can be
completed, time out or be cancelled.

Inputs outside the model's control become parameters or preconditions:

- uuid generation is a fresh token (`token !in pending`);
- a new websocket is a client id not already registered;
- JSON decoding is the `Decoded` value that comes with each input;
- the 30-second clock is the `TimedOut` event, which the environment may fire
  for any waiting token, resolved or not.

## Behaviour of the code worth knowing

- Resolving an answer leaves the entry in the table (line 130). Only the
  suspended request deletes it: when it resumes with the answer (line 92) or
  when its wait times out (line 95).
- An answer for an entry that is resolved but not yet collected, or whose
  future was cancelled, makes `set_result` raise `InvalidStateError`
  (line 130). The handler at line 139 catches only `JSONDecodeError`, so the
  sender's handler ends and line 142 unregisters the sender
  (`AnswerTwiceCloses`, `CancelThenAnswerCloses`).
- An offer's entry is made (line 86) before `sdp` is read (line 88). If `sdp`
  is missing and at least one client is connected, line 88 raises and lines
  100-102 answer 400 `{"error": "'sdp'"}`. The token stays in the table with
  no request waiting for it (`SignalWithoutSdpLeaksToken`, `OrphanStays`). With
  no client connected, `sdp` is never read and the offer waits as usual.
- If the task running a `signal_handler` suspended at line 90 is cancelled (the HTTP
  client goes away, or the server shuts down), `CancelledError` passes both
  `except asyncio.TimeoutError` (line 94) and `except Exception` (line 100).
  `wait_for` (line 90) cancels the future it waits on. Neither `del` runs, so
  the entry stays, cancelled, with no request waiting for it, and any later
  answer for its token ends the answering client's connection (`CancelStep`,
  `CancelledLeavesOrphan`, `CancelThenAnswerCloses`).
- Decoding a text can fail in two ways that the two handlers treat
  differently. Text that is not JSON raises `JSONDecodeError`; JSON nested
  deeper than the recursion limit raises `RecursionError`, and an integer
  literal longer than the integer conversion limit raises `ValueError`. On
  POST, lines 100-102 turn either into 400 with the exception's message. On a
  websocket, line 139 catches only the first: the others end the connection
  and unregister the sender (`DecoderLimitCloses`).
- Any JSON object on a websocket that is not an answer with an `id` is relayed
  as its original text (lines 126, 134-138). That includes answers without an
  `id` and messages without a `type`.
- JSON on a websocket that is not an object makes `data.get` raise (line 126).
  An answer whose `id` is a list or an object makes the table lookup raise
  (line 128, unhashable). Either way the connection ends and the sender is
  unregistered (`MisshapenFramesClose`).
- A successful POST responds with the whole answer object the peer sent
  (line 93).

## Model

| member | source | states |
|---|---|---|
| `Signalling.ConnectStep` | src/webrtc_signalling_server.py:117 | a connecting websocket becomes registered, the registry grows by exactly one, no other client and no table entry changes |
| `Signalling.DisconnectStep` | src/webrtc_signalling_server.py:141-142 | the websocket whose stream ended is unregistered, the registry shrinks by exactly one, nothing else changes |
| `Signalling.SignalStep` | src/webrtc_signalling_server.py:78-102 | POST /signal never changes the registry. It keeps every waiting request's entry present, and pushes only to registered clients. A body that is not an offer changes nothing, sends nothing and gets 400. An offer adds exactly the fresh token, unresolved, and leaves every other entry as it was. The request is suspended exactly when it is an offer and either `sdp` is present or nobody is connected |
| `Signalling.SignalRejectsNonOffer` | src/webrtc_signalling_server.py:82-99 | an object body whose `type` is not 'offer' gets 400 `{"error": "Invalid data type"}` and leaves clients, table and outbox unchanged |
| `Signalling.SignalParksOffer` | src/webrtc_signalling_server.py:84-88 | an offer with `sdp` adds one fresh unresolved token and keeps every other entry. It suspends the request and pushes `{type: 'offer', id: token, sdp}` to every connected client and no one else |
| `Signalling.SignalWithoutSdpLeaksToken` | src/webrtc_signalling_server.py:84-102 | an offer without `sdp` while someone is connected gets 400 `{"error": "'sdp'"}` and sends nothing. Its token stays in the table, unresolved, and the set of waiting requests is unchanged, so from a valid state no request waits for it |
| `Signalling.SignalWithoutSdpOrPeersParks` | src/webrtc_signalling_server.py:84-88 | an offer without `sdp` while nobody is connected is suspended like any offer and sends nothing |
| `Signalling.ReceiveStep` | src/webrtc_signalling_server.py:120-142 | a websocket message never adds or removes a table entry or a waiting request, and never changes an entry whose future holds an answer or was cancelled. It never pushes to the sender or to an unregistered client. It either keeps the registry or unregisters exactly the sender, and a message that pushes anything changes no state |
| `Signalling.AnswerResolves` | src/webrtc_signalling_server.py:126-131 | an answer whose id names an unresolved entry stores the whole answer object in that entry. Nothing is sent, and the registry and every other entry are unchanged |
| `Signalling.AnswerUnknownIgnored` | src/webrtc_signalling_server.py:126-133 | an answer whose (hashable) id names no entry has no effect: no state change and no sends |
| `Signalling.AnswerTwiceCloses` | src/webrtc_signalling_server.py:124-142 | an answer for an entry whose future already holds an answer or was cancelled ends the sender's connection: the sender is unregistered, the table is unchanged, nothing is sent |
| `Signalling.RelayVerbatim` | src/webrtc_signalling_server.py:134-138 | any other JSON object, including answers without `id` and messages without `type`, is pushed as the frame's original text to every registered client except the sender. The state is unchanged |
| `Signalling.IgnoredFrames` | src/webrtc_signalling_server.py:121-140 | invalid JSON and non-text messages change nothing, send nothing, and the connection stays registered |
| `Signalling.MisshapenFramesClose` | src/webrtc_signalling_server.py:125-142 | JSON that is not an object, or an answer whose id is a list or an object, ends the connection and only unregisters the sender |
| `Signalling.DecoderLimitCloses` | src/webrtc_signalling_server.py:78-142 | a text the decoder refuses on a limit gets 400 with the decoder's message on POST, like malformed JSON, but on a websocket it ends the connection and only unregisters the sender, where malformed JSON is ignored |
| `Signalling.AnsweredStep` | src/webrtc_signalling_server.py:89-93 | a resumed request gets 200 with the answer object its entry holds. Its token leaves the table and the waiting set, and every other entry and client is unchanged |
| `Signalling.TimedOutStep` | src/webrtc_signalling_server.py:94-96 | a timed-out request gets 408 `{"error": "Timeout waiting for answer"}`. Its token leaves the table and the waiting set, and every other entry and client is unchanged |
| `Signalling.CancelStep` | src/webrtc_signalling_server.py:89-102 | a cancelled request stops waiting and its entry stays in the table: an unresolved future becomes cancelled, one holding an answer keeps it, and every other entry and the registry stay as they were |
| `Signalling.DeliversToExtend` | src/webrtc_signalling_server.py:87-88 | one more iteration of a broadcast loop, sending to a not-yet-served client, extends "exactly once to each served client" by that client |
| `Signalling.DeliveredOnce` | src/webrtc_signalling_server.py:136-138 | a broadcast performs exactly one send per target: as many sends as targets, each to a target, none to the same client twice |
| `Server.SignalingServer.constructor` | src/webrtc_signalling_server.py:17-18 | a new server has no clients, an empty table and nothing sent |
| `Server.SignalingServer.Connect` | src/webrtc_signalling_server.py:117 | the update of `clients` is the one `ConnectStep` gives, and nothing is sent |
| `Server.SignalingServer.Disconnect` | src/webrtc_signalling_server.py:141-142 | the update of `clients` is the one `DisconnectStep` gives, and nothing is sent |
| `Server.SignalingServer.Signal` | src/webrtc_signalling_server.py:78-102 | the handler, including its broadcast loop over `clients`, reaches the state and result `SignalStep` gives. It appends to the outbox exactly one offer message per recipient `SignalStep` names (none when `sdp` is missing), behind the earlier sends |
| `Server.SignalingServer.Receive` | src/webrtc_signalling_server.py:120-142 | the dispatch, including the relay loop that skips the sender, reaches the state and result `ReceiveStep` gives. It appends to the outbox exactly one copy of the frame's text per recipient `ReceiveStep` names |
| `Server.SignalingServer.Answered` | src/webrtc_signalling_server.py:89-93 | deletes the collected entry and responds as `AnsweredStep` gives |
| `Server.SignalingServer.TimedOut` | src/webrtc_signalling_server.py:94-96 | deletes the expired entry and responds as `TimedOutStep` gives |
| `Server.SignalingServer.Cancel` | src/webrtc_signalling_server.py:89-102 | drops the request from the waiting set and cancels its future unless it holds an answer, reaching the state `CancelStep` gives, with nothing sent |
| `Traces.Apply` | src/webrtc_signalling_server.py:78-142 | every event keeps the invariant that each suspended request has its table entry |
| `Traces.Pushes` | src/webrtc_signalling_server.py:87-138 | no event pushes to a client that is not registered at that moment, and a websocket message is never pushed back to its sender |
| `Traces.RunKeepsValid` | src/webrtc_signalling_server.py:78-142 | across any run of events, every suspended request keeps its table entry |
| `Traces.OrphanStays` | src/webrtc_signalling_server.py:84-102 | an entry no request waits for is never deleted and never waited for again, across any run; if its future holds an answer or was cancelled, it never changes |
| `Traces.CancelledLeavesOrphan` | src/webrtc_signalling_server.py:89-102 | after a cancelled request, its entry stays in the table with nobody waiting for it across every later run, cancelled if it was unresolved and with its answer if it had one |
| `Traces.CancelThenAnswerCloses` | src/webrtc_signalling_server.py:89-142 | after a request is cancelled, an answer for its token from any registered client, after any run of events, ends that client's connection and sends nothing |
| `Traces.SettledEntryIsFinal` | src/webrtc_signalling_server.py:89-130 | no event changes an entry whose future holds an answer or was cancelled, and only its own resumption or timeout removes it (cancellation does not) |
| `Traces.RegistryCount` | src/webrtc_signalling_server.py:117-142 | over connects and disconnects, the number of registered clients is the starting number plus connects minus disconnects |
| `Traces.ConnectThenDisconnect` | src/webrtc_signalling_server.py:117-142 | a connect followed by the matching disconnect restores the state, so the client count returns to its prior value |
| `Traces.OfferAnswerRoundTrip` | src/webrtc_signalling_server.py:84-131 | offer, answer from a peer, then resumption. Every client is offered the `sdp`, the answer is pushed to nobody, and the request gets 200 with the answer object exactly as sent. The state ends as it began. A second answer before resumption ends that peer's connection; after resumption it is ignored |
| `Traces.OfferWithoutPeersTimesOut` | src/webrtc_signalling_server.py:84-96 | an offer with nobody connected is pushed to no one. Its timeout gives 408 `{"error": "Timeout waiting for answer"}` and restores the state |

## Left out

- Routing, CORS setup, per-socket CORS headers and the websocket handshake (src/webrtc_signalling_server.py:21-48, 106-115): configuration and I/O with no bookkeeping in them.
- Start/stop lifecycle, static file serving and the `__main__` loop (src/webrtc_signalling_server.py:50-76, 148-159): process and file I/O.
- src/client.js is not part of this model: browser UI and WebRTC/DOM calls.
- JSON decoding and encoding, uuid generation and logging are library calls. Inputs arrive already decoded, tokens are fresh by precondition, and logging is dropped. The 400 body for an undecodable POST body carries the decoder's message as given with the input.
- Real time and asyncio: the 30-second wait is the `TimedOut` event, task cancellation is the `Cancel` event, and `wait_for`/futures are the `pending` entries plus the `waiting` set. Which circumstances cancel a handler task (client disconnect in some aiohttp releases, server shutdown) is outside the model.
- Interleavings: the model is sequential, each event atomic. So it does not capture `clients` changing while a broadcast loop awaits `send` (which raises in the source), a send to a closed socket failing part-way through a loop, or a resolve racing a timeout beyond "either event may come first". Nor does it capture a cancellation that arrives while the offer loop awaits `send_json` (line 88): `wait_for` has not run yet, so the entry is left unresolved rather than cancelled, with nobody waiting, and a later answer resolves it instead of closing the sender; the `Cancel` event covers only cancellation during the wait at line 90.
- Server.SignalingServer.Signal: the order in which the loop visits `clients` is left open, like Python's set order. Only the multiset of pushes is fixed.
- Server.SignalingServer.Receive: the same holds for the relay loop, so only which clients receive the frame is fixed, not their order.
- Python version: the model assumes the exception classes of Python 3.8 and later, where `CancelledError` is not an `Exception`. On Python 3.7 it is one, so line 100 would catch a cancellation and answer 400 with an empty message; that variant is not modelled.
- Signalling.CancelStep: an entry that already holds an answer when its request is cancelled stays in the table, as asyncio does in 3.7, in 3.8 before the bpo-37658 fix, and from 3.12 on. From that fix (3.9, and its backport to a 3.8 bugfix release) through 3.11, `wait_for` swallows that cancellation and returns the answer, so the request answers 200 and deletes the entry like `AnsweredStep`; that variant is not modelled.
- Which interpreter limits make the decoder refuse a text is not modelled: `OverLimit` inputs come with the input, like malformed ones. The limits are the recursion limit and the integer digit limit; the latter is in 3.11 and later and in the CVE-2020-10735 security releases 3.7.14, 3.8.14, 3.9.14 and 3.10.7.
- Non-text websocket messages are a single `NonText` case. `async for` ends on close messages, which is the `Disconnect` event.
