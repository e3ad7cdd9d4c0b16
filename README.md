# Signalling relay and websocket notifier, modelled in Dafny

This project models two request handlers of the golang-mini-projects
repository and proves what they do.

- **`Signal`** (`signal.dfy`) models the WebRTC signalling relay of
  `webrtc/server/signal.go`:
  - The join handler checks the `roomID` query value and upgrades the
    connection. It adds the caller to the room with role flag false. It then
    forwards every JSON message it reads, tagged with the room and the
    caller's connection, until a read fails, and finally closes the
    connection.
  - The broadcaster takes messages off the channel in order. It looks up the
    room (a missing room gets a log line and nothing else). It then writes
    the payload to every listed participant whose connection is not the
    sender's. A failed write closes that recipient and the walk goes on.
  - The process-wide state is the fields of a `Relay` object: the room map,
    the messages on the channel and the observable effects. The effects are
    writes with their outcome, closes, the room-missing log line and HTTP
    errors. Each handler is a method proved against a specification
    function, and the properties are lemmas about those functions.
- **`Notifier`** (`websocket.dfy`) models `websocketHandler.ServeHTTP` of
  `websocket/main.go`:
  - After the upgrade it reads frames in a loop. A binary frame is refused
    and then still tested as text.
  - A payload that is not "start" (after stripping leading and trailing
    newlines) gets a hint, and the loop reads the next frame.
  - "start" enters an endless stream of "Notification 1" writes, because the
    counter is never incremented. Only a failed write ends the stream.
  - A read error or a write error ends the session. Every way out after the
    upgrade runs the deferred close.

Calls into the outside world are parameters:

- **Reads.** The peer's reads are a finite script, `seq<Read>`. Running past
  its end counts as a read error.
- **Broadcaster writes.** The transport's answers are a function
  `writeOk: nat -> bool`: its value at k is the outcome of the k-th write of
  one broadcast. The channel loop takes `nat -> nat -> bool`, one such
  function per message.
- **Notifier writes.** Any failed write ends the session, so the writes are
  described by `budget`: the number of writes that succeed before the first
  failing one.
- **Upgrades.** The outcome of the websocket upgrade is a boolean.

Two consequences of the code are worth stating:

- **Failed recipients stay listed.** Nothing in `signal.go` removes a
  participant from a room. Later broadcasts therefore still write to a
  connection that was closed after a failed write (`Signal.OfferScenario`).
- **An unknown room** is logged, and the broadcaster goes on with the next
  message (signal.go:53-57). `BroadcastEffects` models this.

## Model

| member | source | states |
|---|---|---|
| Signal.Walk | webrtc/server/signal.go:59-66 | Defines the effects of the walk over a room: each non-sender gets a write, and a failed write is followed by that connection's close. |
| Signal.BroadcastEffects | webrtc/server/signal.go:53-66 | Defines one broadcast: the room-missing log line when the room is absent, otherwise the walk over its participants. |
| Signal.Dispatch | webrtc/server/signal.go:49-67 | Defines the broadcaster's handling of the queued messages in channel order. |
| Signal.HasRoomParam | webrtc/server/signal.go:72-73 | Defines the accepted join request: a roomID whose first value is not empty. |
| Signal.Recipients | webrtc/server/signal.go:59-60 | The connections written to are exactly the listed participants' connections other than the sender's. At most one per listed participant, never the sender's, and every non-sender participant is included. |
| Signal.InsertIntoRoom | webrtc/server/signal.go:88 | Joining puts the participant at the end of the room's list, creating the room if absent. Every other room is unchanged. |
| Signal.Received | webrtc/server/signal.go:90-95 | The messages a session forwards are exactly the reads before the first failed read, in order. A failed read, when there is one, follows them. |
| Signal.WalkWritesEveryRecipient | webrtc/server/signal.go:59-66 | One broadcast makes exactly one write attempt per recipient, in the room's order, with the message's payload. Each attempt has the transport's outcome. A failed write does not stop the walk. |
| Signal.WalkAvoidsSender | webrtc/server/signal.go:60-64 | A broadcast never writes to or closes the sender's connection. Every write carries the message's payload. |
| Signal.WalkClosesAfterFailures | webrtc/server/signal.go:61-64 | A broadcast's effects are its write attempts and nothing else, except that each failed attempt is followed at once by the close of that same connection. |
| Signal.WalkClosesExactlyFailed | webrtc/server/signal.go:61-64 | A connection is closed by a broadcast if and only if some write to it in that broadcast failed. |
| Signal.OnlySenderNoRecipients | webrtc/server/signal.go:59-60 | A room whose every listed connection is the sender's gets no write. |
| Signal.RecipientsCount | webrtc/server/signal.go:59-60 | A connection gets one write attempt per listing of it in the room, and the sender gets none. |
| Signal.RecipientPosition | webrtc/server/signal.go:59-60 | Each participant at position i that is not the sender, the last one included, is the recipient at position \|Recipients(clients[..i])\|. |
| Signal.RecipientsInStoredOrder | webrtc/server/signal.go:59 | Recipients are written in the order the room stores its participants. A non-sender at position i comes before every recipient from any position j > i on, up to the end of the room. |
| Signal.BroadcastQuietExactly | webrtc/server/signal.go:53-60 | A message for a missing room produces only the room-missing log line. A broadcast makes no write if and only if the room is missing or lists only the sender. |
| Signal.DispatchInOrder | webrtc/server/signal.go:49-67 | The broadcaster handles messages one after another in channel order. A missing room does not stop it. |
| Signal.Relay.constructor | webrtc/server/signal.go:12-15 | At start-up there are no rooms, no messages pending on the channel and no effects. |
| Signal.Relay.Broadcast | webrtc/server/signal.go:50-66 | One pass of the broadcaster's body appends exactly the effects of `BroadcastEffects` and leaves the rooms and the channel unchanged. |
| Signal.Relay.RunBroadcaster | webrtc/server/signal.go:47-69 | Draining the channel empties it and appends the effects of every message, in order. The rooms are unchanged. |
| Signal.Relay.JoinRoom | webrtc/server/signal.go:71-102 | For a missing or empty roomID the handler calls `http.Error` with 400 and changes nothing else. For a failed upgrade it calls `http.Error` with 500 and changes nothing else. Otherwise the caller is appended to the room with role flag false, every message read before the first read error is queued in order, tagged with the room and the caller, and the connection is then closed. |
| Signal.JoinTwoPeers | webrtc/server/signal.go:71-102 | Two joins through the join handler: B's session reads nothing and closes, then A's session reads three messages and closes. The room lists B then A, both with role flag false, and A's three messages wait on the channel in read order. |
| Signal.OfferScenario | webrtc/server/signal.go:49-66 | After those joins, draining the channel gives exactly this log. A's offer reaches B only. The second write to B fails and closes B. A's third message is still attempted on B's closed connection and fails and closes it again, because nothing removes B from the room. |
| Notifier.Trim | websocket/main.go:46 | Defines `strings.Trim` with the cutset "\n": leading newlines removed, then trailing ones. |
| Notifier.IsMagic | websocket/main.go:46 | Defines the magic-word test: the trimmed payload equals "start". |
| Notifier.Decimal | websocket/main.go:58 | Defines the `%d` rendering of a natural number. |
| Notifier.Text | websocket/main.go:39-58 | Defines the text each reply writes: the binary refusal, the magic-word hint, or "Notification " followed by the counter. |
| Notifier.ServeSpec | websocket/main.go:18-66 | Defines the whole handler: a failed upgrade ends the session with no write and no close, otherwise `Run` describes the session. |
| Notifier.TrimLeftRemovesLeadingNewlines | websocket/main.go:46 | Trimming removes the whole run of leading newlines and nothing more. |
| Notifier.TrimRightRemovesTrailingNewlines | websocket/main.go:46 | Trimming removes the whole run of trailing newlines and nothing more. |
| Notifier.MagicWordExactly | websocket/main.go:46 | A payload passes the magic-word test if and only if it is "start" with any number of newlines before and after. |
| Notifier.MagicWordExamples | websocket/main.go:46 | "start" and "\n\nstart\n" pass. "start\r\n", " start", "Start" and the empty payload do not. |
| Notifier.FirstNotificationText | websocket/main.go:56-58 | A notification with the counter at 1 is the text "Notification 1". |
| Notifier.Notifications | websocket/main.go:56-64 | A stream of n writes consists of n notifications, each with counter 1. |
| Notifier.Answer | websocket/main.go:38-64 | One frame's handling either ends the session on a failed write, with exactly one write more than the remaining budget, or goes on to the next read having made at least one write from the budget. |
| Notifier.Run | websocket/main.go:31-65 | A session after the upgrade attempts at most one write more than its budget. It ends on a write error if and only if it spends the whole budget. It ends only on a read or write error and always closes the connection. |
| Notifier.Stream | websocket/main.go:56-64 | The notification loop writes Notification(1) until the budget is spent and then once more, that write failing. |
| Notifier.Respond | websocket/main.go:38-64 | One pass of the loop body makes exactly the writes of `Answer` for the frame, and stops exactly when `Answer` says a write failed. |
| Notifier.Advance | websocket/main.go:31-65 | One turn of the read loop: the session is this turn's writes followed, unless one failed, by the session from the next read on, with the budget reduced accordingly. |
| Notifier.Serve | websocket/main.go:18-66 | The handler behaves as `ServeSpec`. A failed upgrade ends the session with no write and no close. Otherwise `Run` describes the session. The connection is closed if and only if the upgrade succeeded. |
| Notifier.BinaryStillTested | websocket/main.go:38-46 | A binary frame gets the refusal and is then handled exactly like a text frame with the same payload, because there is no `continue` after the refusal. |
| Notifier.HintThenNextFrame | websocket/main.go:46-53 | A non-magic text frame gets exactly one hint; if that write succeeds the loop reads the next frame. |
| Notifier.MagicStartsEndlessStream | websocket/main.go:55-64 | After the magic word every write is Notification(1) until one fails, and no later frame is ever read. |
| Notifier.BinaryMagicFrame | websocket/main.go:38-64 | A binary frame carrying the magic word gets the refusal and then the notification stream. |
| Notifier.RunIsCutDemand | websocket/main.go:31-65 | A session is exactly the replies its frames ask for, cut at the first read error or the first failed write. For each frame these are the refusal if binary, then the hint unless magic. The first magic frame starts the stream. |

## Left out

- Concurrency: the broadcaster goroutine, the unbuffered channel and the `sync.RWMutex` are not modelled.
  - A channel send blocks until the broadcaster takes the message. The model instead queues the message, and the broadcaster drains the queue when `RunBroadcaster` is called.
  - Each join session runs to completion as one call. Interleavings of sessions with each other and with the broadcaster are not modelled.
- The model assumes the broadcaster is running. Neither signal.go nor webrtc/main.go calls `StartBroadcaster`: webrtc/main.go:10-14 only calls `AllRooms.Init()` and registers the two routes. If `Init` (not modelled) does not start it either, the unbuffered send at signal.go:100 never completes. A join session would then block after its first message and never reach its deferred close.
- The read locks: `defer Mutex.RUnlock()` sits inside the broadcaster's loop, so read locks pile up and are released only when the goroutine ends. The model holds no locks. Any writer that takes `Mutex` would block forever; none appears in signal.go or webrtc/main.go.
- The roomID query value is a `seq<string>` in which an empty sequence stands for a missing key. This is sound because `URL.Query()` never stores an empty slice; if it did, signal.go:73 would panic on `roomIDs[0]`, which the model does not express.
- RoomMap (its `Init`, `CreateRoom` and `InsertIntoRoom`) is not part of this model. `InsertIntoRoom` is taken to append the participant to the room's list. Room-id generation is left out.
- `CreateRoomRequestHandler` (its CORS header, the new room's id and the JSON encoding of the reply) is left out, together with room creation.
- Websocket library behaviour is not modelled: the upgrade handshake, JSON encoding and decoding of frames, and the origin check, which always accepts. A connection is an identity, `ConnId`.
- Writes to an already closed connection: the write outcomes are free parameters, so the model does not force a write to a closed connection to fail.
- Log lines are left out, except the room-missing one, which is an effect because it is the only observable outcome of that case.
- The HTTP error written by the upgrader itself on a failed upgrade is left out. Only the handlers' own `http.Error` replies are modelled.
- JSON numbers are integers rather than floating-point values. The relay forwards payloads without looking into them.
- Sessions that never end: read scripts are finite, so an endless stream of frames is not modelled.
- Notifier.Run: a stream that never meets a failed write would not end; the model always gives the transport a finite budget, so that case is left out.
- `main` functions, the HTTP server set-up and the other programs of the repository (`jwt`, `system-monitor`, `webrtc/main.go`) are not part of this model.
