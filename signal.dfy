/**
 * The signalling relay of webrtc/server/signal.go, run sequentially.
 *
 * The process-wide room registry (AllRooms.Map), the broadcast channel and
 * everything the relay does to the outside world (writes and closes on
 * websocket connections, HTTP error replies, the "room not found" log line)
 * are the fields of one Relay object. One broadcast step, the broadcaster's
 * drain of the channel and one whole join session are its methods, each
 * proved against a specification function; the properties of the relay are
 * lemmas about those functions.
 */
module Signal {

  /** A JSON value. The relay forwards payloads without looking into them. */
  datatype Json =
    | Null
    | Bool(b: bool)
    | Number(n: int)
    | Str(s: string)
    | Array(items: seq<Json>)
    | Object(fields: map<string, Json>)

  /** What ReadJSON decodes into: map[string]interface{}. */
  type Payload = map<string, Json>

  /** A websocket connection, compared by identity only (the source compares *websocket.Conn pointers). */
  type ConnId = nat

  /** A member of a room: the role flag given at join time and its connection. */
  datatype Participant = Participant(host: bool, conn: ConnId)

  /** broadcastMsg: a payload, the room it was read for and the connection it came from. */
  datatype Message = Message(payload: Payload, roomId: string, client: ConnId)

  /** The outcome of one ReadJSON call on a session's connection. */
  datatype Read = Got(payload: Payload) | ReadFailed

  /** What the relay does outside its own memory, in the order it does it. */
  datatype Effect =
    | Wrote(to: ConnId, payload: Payload, ok: bool)   // one WriteJSON call and whether it succeeded
    | Closed(conn: ConnId)                            // Conn.Close()
    | RoomMissing(roomId: string)                     // the "Room %s not found" log line
    | HttpError(status: int, text: string)            // http.Error on a join request

  const StatusBadRequest := 400
  const StatusInternalServerError := 500

  /** The connections of a room's participants, in the room's order. */
  function Conns(clients: seq<Participant>): (r: seq<ConnId>)
    ensures |r| == |clients|
    ensures forall i :: 0 <= i < |clients| ==> r[i] == clients[i].conn
  {
    seq(|clients|, i requires 0 <= i < |clients| => clients[i].conn)
  }

  /** The connections the broadcaster writes to for a message from `sender`: every participant whose connection is not the sender's. */
  function Recipients(clients: seq<Participant>, sender: ConnId): (r: seq<ConnId>)
    ensures |r| <= |clients|
    ensures sender !in r
    ensures forall c :: c in r ==> c in Conns(clients)
    ensures forall p :: p in clients && p.conn != sender ==> p.conn in r
  {
    if clients == [] then []
    else if clients[0].conn == sender then Recipients(clients[1..], sender)
    else [clients[0].conn] + Recipients(clients[1..], sender)
  }

  /**
   * The effects of the broadcaster's walk over `clients` for `msg`
   * (signal.go:59-66). `writeOk(k)` is the transport's answer to the k-th
   * write of this broadcast, and `k` counts the writes already made.
   */
  function Walk(clients: seq<Participant>, msg: Message, writeOk: nat -> bool, k: nat): seq<Effect>
  {
    if clients == [] then []
    else if clients[0].conn == msg.client then Walk(clients[1..], msg, writeOk, k)
    else
      var c := clients[0].conn;
      (if writeOk(k) then [Wrote(c, msg.payload, true)] else [Wrote(c, msg.payload, false), Closed(c)])
      + Walk(clients[1..], msg, writeOk, k + 1)
  }

  /** The effects of handling one message taken from the broadcast channel (signal.go:50-66). */
  function BroadcastEffects(rooms: map<string, seq<Participant>>, msg: Message, writeOk: nat -> bool): seq<Effect>
  {
    if msg.roomId !in rooms then [RoomMissing(msg.roomId)]
    else Walk(rooms[msg.roomId], msg, writeOk, 0)
  }

  /** The effects of handling `msgs` in channel order; the n-th message uses the write outcomes `writeOk(n)`. */
  function Dispatch(rooms: map<string, seq<Participant>>, msgs: seq<Message>, writeOk: nat -> nat -> bool, n: nat): seq<Effect>
  {
    if msgs == [] then []
    else BroadcastEffects(rooms, msgs[0], writeOk(n)) + Dispatch(rooms, msgs[1..], writeOk, n + 1)
  }

  /** The write attempts among `effects`, in order. */
  function Attempts(effects: seq<Effect>): seq<Effect>
  {
    if effects == [] then []
    else (if effects[0].Wrote? then [effects[0]] else []) + Attempts(effects[1..])
  }

  /**
   * The join request carries a usable roomID: a first value that is not
   * empty (signal.go:72-73). The values of the query key are a sequence, and
   * an empty sequence stands for a missing key; URL.Query() never stores an
   * empty list of values, so the panic an empty list would cause at
   * `roomIDs[0]` cannot arise.
   */
  predicate HasRoomParam(roomIds: seq<string>)
  {
    |roomIds| > 0 && |roomIds[0]| >= 1
  }

  /** The current members of a room; a room not in the map has none (a nil slice in Go). */
  function Members(rooms: map<string, seq<Participant>>, roomId: string): seq<Participant>
  {
    if roomId in rooms then rooms[roomId] else []
  }

  /**
   * RoomMap.InsertIntoRoom, whose source is not part of this model, taken to
   * append the participant to the room's list (Go's append to a missing key
   * starts from an empty list).
   */
  function InsertIntoRoom(rooms: map<string, seq<Participant>>, roomId: string, p: Participant): (r: map<string, seq<Participant>>)
    ensures roomId in r && r[roomId] == Members(rooms, roomId) + [p]
    ensures forall id :: id in rooms ==> id in r
    ensures forall id :: id in r && id != roomId ==> id in rooms && r[id] == rooms[id]
  {
    rooms[roomId := Members(rooms, roomId) + [p]]
  }

  /**
   * The messages a session reads before its first read error: the loop of
   * signal.go:90-95 stops there, and running out of script counts as the
   * peer going away.
   */
  function Received(incoming: seq<Read>): (r: seq<Payload>)
    ensures |r| <= |incoming|
    ensures forall j :: 0 <= j < |r| ==> incoming[j] == Got(r[j])
    ensures |r| < |incoming| ==> incoming[|r|] == ReadFailed
  {
    if incoming == [] || incoming[0].ReadFailed? then []
    else [incoming[0].payload] + Received(incoming[1..])
  }

  // ---------------------------------------------------------------------------
  // Properties of one broadcast step
  // ---------------------------------------------------------------------------

  lemma {:induction false} AttemptsAppend(a: seq<Effect>, b: seq<Effect>)
    ensures Attempts(a + b) == Attempts(a) + Attempts(b)
    decreases |a|
  {
    if a == [] {
      assert a + b == b;
    } else {
      var h := if a[0].Wrote? then [a[0]] else [];
      assert (a + b)[0] == a[0] && (a + b)[1..] == a[1..] + b;
      AttemptsAppend(a[1..], b);
      assert Attempts(a + b) == h + (Attempts(a[1..]) + Attempts(b));
      assert Attempts(a) == h + Attempts(a[1..]);
    }
  }

  /**
   * Every participant other than the sender gets exactly one write attempt,
   * in the order of the room's list, whatever the outcomes of the writes:
   * the j-th write goes to the j-th recipient and succeeds as the transport
   * says. A failed write does not stop the walk.
   */
  lemma {:induction false} WalkWritesEveryRecipient(clients: seq<Participant>, msg: Message, writeOk: nat -> bool, k: nat)
    ensures |Attempts(Walk(clients, msg, writeOk, k))| == |Recipients(clients, msg.client)|
    ensures forall j :: 0 <= j < |Recipients(clients, msg.client)| ==>
              Attempts(Walk(clients, msg, writeOk, k))[j] == Wrote(Recipients(clients, msg.client)[j], msg.payload, writeOk(k + j))
    decreases |clients|
  {
    if clients != [] {
      var rest := clients[1..];
      if clients[0].conn == msg.client {
        WalkWritesEveryRecipient(rest, msg, writeOk, k);
      } else {
        var c := clients[0].conn;
        var head := if writeOk(k) then [Wrote(c, msg.payload, true)] else [Wrote(c, msg.payload, false), Closed(c)];
        WalkWritesEveryRecipient(rest, msg, writeOk, k + 1);
        AttemptsAppend(head, Walk(rest, msg, writeOk, k + 1));
        assert Attempts(head) == [Wrote(c, msg.payload, writeOk(k))] by {
          if !writeOk(k) {
            assert head[1..] == [Closed(c)];
            assert Attempts([Closed(c)]) == [] + Attempts([Closed(c)][1..]);
          }
        }
      }
    }
  }

  /**
   * A broadcast only writes to and closes connections other than the
   * sender's, and every write carries the message's own payload.
   */
  lemma {:induction false} WalkAvoidsSender(clients: seq<Participant>, msg: Message, writeOk: nat -> bool, k: nat)
    ensures forall e :: e in Walk(clients, msg, writeOk, k) ==>
              (e.Wrote? && e.to != msg.client && e.payload == msg.payload) || (e.Closed? && e.conn != msg.client)
    decreases |clients|
  {
    if clients != [] {
      WalkAvoidsSender(clients[1..], msg, writeOk, k + (if clients[0].conn == msg.client then 0 else 1));
    }
  }

  /** Each write attempt followed, when it failed, by the close of its connection. */
  function CloseFailed(attempts: seq<Effect>): seq<Effect>
  {
    if attempts == [] then []
    else
      var a := attempts[0];
      (if a.Wrote? && !a.ok then [a, Closed(a.to)] else [a]) + CloseFailed(attempts[1..])
  }

  /**
   * A walk's effects are its write attempts, each failed one followed right
   * away by the close of the connection it failed on, and nothing else.
   */
  lemma {:induction false} WalkClosesAfterFailures(clients: seq<Participant>, msg: Message, writeOk: nat -> bool, k: nat)
    ensures Walk(clients, msg, writeOk, k) == CloseFailed(Attempts(Walk(clients, msg, writeOk, k)))
    decreases |clients|
  {
    if clients != [] {
      var rest := clients[1..];
      if clients[0].conn == msg.client {
        WalkClosesAfterFailures(rest, msg, writeOk, k);
      } else {
        var c := clients[0].conn;
        var a := Wrote(c, msg.payload, writeOk(k));
        var head := if writeOk(k) then [a] else [a, Closed(c)];
        var tail := Walk(rest, msg, writeOk, k + 1);
        WalkClosesAfterFailures(rest, msg, writeOk, k + 1);
        AttemptsAppend(head, tail);
        assert Attempts(head) == [a] by {
          if !writeOk(k) {
            assert head[1..] == [Closed(c)];
            assert Attempts([Closed(c)]) == [] + Attempts([Closed(c)][1..]);
          }
        }
        assert ([a] + Attempts(tail))[1..] == Attempts(tail);
      }
    }
  }

  /** Some write of the walk whose recipients are `r`, numbered from `k`, went to `c` and failed. */
  predicate FailedFor(r: seq<ConnId>, c: ConnId, writeOk: nat -> bool, k: nat)
  {
    exists j :: 0 <= j < |r| && r[j] == c && !writeOk(k + j)
  }

  lemma FailedForCons(d: ConnId, r: seq<ConnId>, c: ConnId, writeOk: nat -> bool, k: nat)
    ensures FailedFor([d] + r, c, writeOk, k) <==> (d == c && !writeOk(k)) || FailedFor(r, c, writeOk, k + 1)
  {
    var s := [d] + r;
    if FailedFor(s, c, writeOk, k) {
      var j :| 0 <= j < |s| && s[j] == c && !writeOk(k + j);
      if j > 0 {
        assert r[j - 1] == c && !writeOk(k + 1 + (j - 1));
      }
    }
    if FailedFor(r, c, writeOk, k + 1) {
      var j :| 0 <= j < |r| && r[j] == c && !writeOk(k + 1 + j);
      assert s[j + 1] == c && !writeOk(k + (j + 1));
    }
    if d == c && !writeOk(k) {
      assert s[0] == c && !writeOk(k + 0);
    }
  }

  /**
   * The connections a broadcast closes are exactly the recipients whose write
   * failed: a failure closes that recipient and no other connection.
   */
  lemma {:induction false} WalkClosesExactlyFailed(clients: seq<Participant>, msg: Message, writeOk: nat -> bool, k: nat, c: ConnId)
    ensures Closed(c) in Walk(clients, msg, writeOk, k) <==> FailedFor(Recipients(clients, msg.client), c, writeOk, k)
    decreases |clients|
  {
    if clients != [] {
      var rest := clients[1..];
      if clients[0].conn == msg.client {
        assert Recipients(clients, msg.client) == Recipients(rest, msg.client);
        assert Walk(clients, msg, writeOk, k) == Walk(rest, msg, writeOk, k);
        WalkClosesExactlyFailed(rest, msg, writeOk, k, c);
      } else {
        var d := clients[0].conn;
        var head := if writeOk(k) then [Wrote(d, msg.payload, true)] else [Wrote(d, msg.payload, false), Closed(d)];
        var tail := Walk(rest, msg, writeOk, k + 1);
        assert Walk(clients, msg, writeOk, k) == head + tail;
        assert Recipients(clients, msg.client) == [d] + Recipients(rest, msg.client);
        WalkClosesExactlyFailed(rest, msg, writeOk, k + 1, c);
        FailedForCons(d, Recipients(rest, msg.client), c, writeOk, k);
        assert Closed(c) in head + tail <==> Closed(c) in head || Closed(c) in tail;
        assert Closed(c) in head <==> d == c && !writeOk(k);
      }
    }
  }

  /**
   * The number of write attempts a connection gets from one broadcast is the
   * number of times it is listed in the room, and zero for the sender.
   */
  lemma {:induction false} RecipientsCount(clients: seq<Participant>, sender: ConnId, c: ConnId)
    ensures multiset(Recipients(clients, sender))[c] == if c == sender then 0 else multiset(Conns(clients))[c]
    decreases |clients|
  {
    if clients != [] {
      RecipientsCount(clients[1..], sender, c);
      assert Conns(clients) == [clients[0].conn] + Conns(clients[1..]);
    }
  }

  lemma {:induction false} RecipientsAppend(a: seq<Participant>, b: seq<Participant>, sender: ConnId)
    ensures Recipients(a + b, sender) == Recipients(a, sender) + Recipients(b, sender)
    decreases |a|
  {
    if a == [] {
      assert a + b == b;
    } else {
      assert (a + b)[0] == a[0] && (a + b)[1..] == a[1..] + b;
      RecipientsAppend(a[1..], b, sender);
      if a[0].conn != sender {
        assert Recipients(a + b, sender) == [a[0].conn] + (Recipients(a[1..], sender) + Recipients(b, sender));
      }
    }
  }

  /**
   * The walk follows the room's stored order: the participant at position i,
   * when it is not the sender, is the recipient at position
   * |Recipients(clients[..i])|.
   */
  lemma RecipientPosition(clients: seq<Participant>, sender: ConnId, i: nat)
    requires i < |clients| && clients[i].conn != sender
    ensures |Recipients(clients[..i], sender)| < |Recipients(clients, sender)|
    ensures Recipients(clients, sender)[|Recipients(clients[..i], sender)|] == clients[i].conn
  {
    assert clients == clients[..i] + ([clients[i]] + clients[i + 1..]);
    RecipientsAppend([clients[i]], clients[i + 1..], sender);
    assert Recipients([clients[i]], sender) == [clients[i].conn];
    RecipientsAppend(clients[..i], [clients[i]] + clients[i + 1..], sender);
  }

  /** A longer prefix of the room has at least as many recipients. */
  lemma RecipientsPrefixGrows(clients: seq<Participant>, sender: ConnId, m: nat, n: nat)
    requires m <= n <= |clients|
    ensures |Recipients(clients[..m], sender)| <= |Recipients(clients[..n], sender)|
  {
    var a, b := clients[..m], clients[m..n];
    assert clients[..n] == a + b;
    RecipientsAppend(a, b, sender);
  }

  /**
   * Positions among the recipients grow with positions in the room: a
   * participant listed before position j that is not the sender comes
   * before every recipient taken from position j on.
   */
  lemma RecipientsInStoredOrder(clients: seq<Participant>, sender: ConnId, i: nat, j: nat)
    requires i < j <= |clients|
    requires clients[i].conn != sender
    ensures |Recipients(clients[..i], sender)| < |Recipients(clients[..j], sender)| <= |Recipients(clients, sender)|
  {
    var a := clients[..i];
    assert clients[..i + 1] == a + [clients[i]];
    RecipientsAppend(a, [clients[i]], sender);
    assert Recipients([clients[i]], sender) == [clients[i].conn];
    RecipientsPrefixGrows(clients, sender, i + 1, j);
    RecipientsPrefixGrows(clients, sender, j, |clients|);
    assert clients[..|clients|] == clients;
  }

  /** A room where every listed connection is the sender's has no recipients. */
  lemma {:induction false} OnlySenderNoRecipients(clients: seq<Participant>, sender: ConnId)
    requires forall p :: p in clients ==> p.conn == sender
    ensures Recipients(clients, sender) == []
    decreases |clients|
  {
    if clients != [] {
      assert clients[0] in clients;
      forall p | p in clients[1..]
        ensures p.conn == sender
      {
        assert p in clients;
      }
      OnlySenderNoRecipients(clients[1..], sender);
    }
  }

  /**
   * A message whose room is not in the map causes no write and no close,
   * only the log line; one whose room is there writes nothing at all only
   * when the sender is the room's only listed connection.
   */
  lemma BroadcastQuietExactly(rooms: map<string, seq<Participant>>, msg: Message, writeOk: nat -> bool)
    ensures msg.roomId !in rooms ==> BroadcastEffects(rooms, msg, writeOk) == [RoomMissing(msg.roomId)]
    ensures Attempts(BroadcastEffects(rooms, msg, writeOk)) == [] <==>
              msg.roomId !in rooms || forall p :: p in rooms[msg.roomId] ==> p.conn == msg.client
  {
    if msg.roomId !in rooms {
      assert Attempts([RoomMissing(msg.roomId)]) == [] + Attempts([]);
    } else {
      var clients := rooms[msg.roomId];
      WalkWritesEveryRecipient(clients, msg, writeOk, 0);
      if exists p :: p in clients && p.conn != msg.client {
        var p :| p in clients && p.conn != msg.client;
        assert p.conn in Recipients(clients, msg.client);
      } else {
        OnlySenderNoRecipients(clients, msg.client);
      }
    }
  }

  /**
   * Draining the channel handles each message in turn: a message for a
   * missing room is logged and the broadcaster goes on with the next one.
   */
  lemma {:induction false} DispatchInOrder(rooms: map<string, seq<Participant>>, msgs: seq<Message>, writeOk: nat -> nat -> bool, n: nat, m: nat)
    requires m <= |msgs|
    ensures Dispatch(rooms, msgs, writeOk, n) == Dispatch(rooms, msgs[..m], writeOk, n) + Dispatch(rooms, msgs[m..], writeOk, n + m)
    decreases m
  {
    if m > 0 {
      assert msgs[..m][1..] == msgs[1..][..m - 1];
      assert msgs[m..] == msgs[1..][m - 1..];
      DispatchInOrder(rooms, msgs[1..], writeOk, n + 1, m - 1);
    } else {
      assert msgs[..0] == [];
    }
  }

  // ---------------------------------------------------------------------------
  // The relay's state and its handlers
  // ---------------------------------------------------------------------------

  class Relay {
    /** AllRooms.Map: room id to its participants, in joining order. */
    var rooms: map<string, seq<Participant>>
    /** Messages sent on the broadcast channel and not yet taken by the broadcaster. */
    var queue: seq<Message>
    /** Everything the relay has done outside its own memory so far. */
    var effects: seq<Effect>

    /** The package's variables at start-up: an empty room map and an empty channel. */
    constructor ()
      ensures rooms == map[] && queue == [] && effects == []
    {
      rooms := map[];
      queue := [];
      effects := [];
    }

    /**
     * One pass of the broadcaster's loop body (signal.go:50-66) for `msg`:
     * look up the room, write to every participant that is not the sender,
     * close a recipient whose write fails and go on. The room map is only
     * read.
     */
    method Broadcast(msg: Message, writeOk: nat -> bool)
      modifies this`effects
      ensures rooms == old(rooms) && queue == old(queue)
      ensures effects == old(effects) + BroadcastEffects(rooms, msg, writeOk)
    {
      if msg.roomId !in rooms {
        effects := effects + [RoomMissing(msg.roomId)];
        return;
      }
      var clients := rooms[msg.roomId];
      var i, k := 0, 0;
      while i < |clients|
        invariant 0 <= i <= |clients|
        invariant old(effects) + Walk(clients, msg, writeOk, 0) == effects + Walk(clients[i..], msg, writeOk, k)
      {
        assert clients[i..][1..] == clients[i + 1..];
        var client := clients[i];
        if client.conn != msg.client {
          var ok := writeOk(k);
          effects := effects + [Wrote(client.conn, msg.payload, ok)];
          if !ok {
            effects := effects + [Closed(client.conn)];
          }
          k := k + 1;
        }
        i := i + 1;
      }
    }

    /**
     * The broadcaster's `for msg := range broadcast` loop (signal.go:49-67)
     * over the messages queued so far, in channel order; the n-th message
     * taken meets the write outcomes `writeOk(n)`.
     */
    method RunBroadcaster(writeOk: nat -> nat -> bool)
      modifies this`effects, this`queue
      ensures rooms == old(rooms) && queue == []
      ensures effects == old(effects) + Dispatch(rooms, old(queue), writeOk, 0)
    {
      var n := 0;
      while queue != []
        invariant old(effects) + Dispatch(rooms, old(queue), writeOk, 0) == effects + Dispatch(rooms, queue, writeOk, n)
        decreases |queue|
      {
        var msg := queue[0];
        queue := queue[1..];
        Broadcast(msg, writeOk(n));
        n := n + 1;
      }
    }

    /**
     * JoinRoomRequestHandler (signal.go:71-102) for one request whose roomID
     * values are `roomIds`, whose upgrade succeeds when `upgradeOk`, giving
     * connection `ws` whose incoming return `incoming`. A missing or empty roomID
     * is answered 400 before anything else happens; a failed upgrade is
     * answered 500. Otherwise the participant joins with role flag false,
     * every message read before the first read error is queued tagged with
     * `ws` and the requested room, and the deferred close runs. Nothing here
     * takes the participant out of its room.
     */
    method JoinRoom(roomIds: seq<string>, upgradeOk: bool, ws: ConnId, incoming: seq<Read>)
      modifies this`rooms, this`queue, this`effects
      ensures !HasRoomParam(roomIds) ==>
        rooms == old(rooms) && queue == old(queue) &&
        effects == old(effects) + [HttpError(StatusBadRequest, "Missing roomID parameter")]
      ensures HasRoomParam(roomIds) && !upgradeOk ==>
        rooms == old(rooms) && queue == old(queue) &&
        effects == old(effects) + [HttpError(StatusInternalServerError, "Websocket upgrade failed")]
      ensures HasRoomParam(roomIds) && upgradeOk ==>
        rooms == InsertIntoRoom(old(rooms), roomIds[0], Participant(false, ws)) &&
        |queue| == |old(queue)| + |Received(incoming)| &&
        queue[..|old(queue)|] == old(queue) &&
        (forall j :: 0 <= j < |Received(incoming)| ==>
           queue[|old(queue)| + j] == Message(Received(incoming)[j], roomIds[0], ws)) &&
        effects == old(effects) + [Closed(ws)]
    {
      if !HasRoomParam(roomIds) {
        effects := effects + [HttpError(StatusBadRequest, "Missing roomID parameter")];
        return;
      }
      var roomId := roomIds[0];
      if !upgradeOk {
        effects := effects + [HttpError(StatusInternalServerError, "Websocket upgrade failed")];
        return;
      }
      rooms := InsertIntoRoom(rooms, roomId, Participant(false, ws));
      var n := 0;
      while true
        invariant rooms == InsertIntoRoom(old(rooms), roomId, Participant(false, ws)) && effects == old(effects)
        invariant 0 <= n <= |incoming|
        invariant forall j :: 0 <= j < n ==> incoming[j].Got?
        invariant |queue| == |old(queue)| + n && queue[..|old(queue)|] == old(queue)
        invariant forall j :: 0 <= j < n ==> queue[|old(queue)| + j] == Message(incoming[j].payload, roomId, ws)
        decreases |incoming| - n
      {
        if n == |incoming| || incoming[n].ReadFailed? {
          break;
        }
        queue := queue + [Message(incoming[n].payload, roomId, ws)];
        n := n + 1;
      }
      assert n == |Received(incoming)|;
      effects := effects + [Closed(ws)];
    }
  }

  /** A session whose three reads succeed and whose script then ends forwards all three. */
  lemma ReceivedAll(x: Payload, y: Payload, z: Payload)
    ensures Received([Got(x), Got(y), Got(z)]) == [x, y, z]
  {
    var r := [Got(x), Got(y), Got(z)];
    assert r[1..] == [Got(y), Got(z)] && r[1..][1..] == [Got(z)] && r[1..][1..][1..] == [];
  }

  /** Draining three messages is three broadcasts in channel order. */
  lemma DispatchThree(rooms: map<string, seq<Participant>>, m1: Message, m2: Message, m3: Message, writeOk: nat -> nat -> bool)
    ensures Dispatch(rooms, [m1, m2, m3], writeOk, 0) ==
      BroadcastEffects(rooms, m1, writeOk(0)) + BroadcastEffects(rooms, m2, writeOk(1)) + BroadcastEffects(rooms, m3, writeOk(2))
  {
    var q := [m1, m2, m3];
    assert q[1..] == [m2, m3] && q[1..][1..] == [m3] && q[1..][1..][1..] == [];
    var e1, e2, e3 := BroadcastEffects(rooms, m1, writeOk(0)), BroadcastEffects(rooms, m2, writeOk(1)), BroadcastEffects(rooms, m3, writeOk(2));
    assert Dispatch(rooms, [m3], writeOk, 2) == e3 + [];
    assert Dispatch(rooms, [m2, m3], writeOk, 1) == e2 + e3;
    assert Dispatch(rooms, q, writeOk, 0) == e1 + (e2 + e3);
  }

  /** A walk over a peer followed by the sender writes to the peer alone. */
  lemma PeerThenSender(peer: Participant, sender: Participant, msg: Message, writeOk: nat -> bool)
    requires peer.conn != msg.client && sender.conn == msg.client
    ensures Walk([peer, sender], msg, writeOk, 0) ==
      if writeOk(0) then [Wrote(peer.conn, msg.payload, true)]
      else [Wrote(peer.conn, msg.payload, false), Closed(peer.conn)]
  {
    var room := [peer, sender];
    assert room[1..] == [sender] && room[1..][1..] == [];
    assert Walk(room[1..], msg, writeOk, 1) == [];
  }

  /**
   * Two peers join room "r1" through the join handler: B (connection 2),
   * whose session reads nothing and ends, then A (connection 1), whose
   * session reads three messages and ends. Both are listed (B first) and
   * A's messages wait on the channel.
   */
  method JoinTwoPeers(x: Payload, y: Payload, z: Payload) returns (relay: Relay)
    ensures fresh(relay)
    ensures relay.rooms == map["r1" := [Participant(false, 2), Participant(false, 1)]]
    ensures relay.queue == [Message(x, "r1", 1), Message(y, "r1", 1), Message(z, "r1", 1)]
    ensures relay.effects == [Closed(2), Closed(1)]
  {
    relay := new Relay();
    var ids: seq<string> := ["r1"];
    assert ids[0] == "r1" && HasRoomParam(ids);
    var a, b := Participant(false, 1), Participant(false, 2);

    relay.JoinRoom(ids, true, 2, []);
    assert Members(map[], "r1") + [b] == [b];
    assert relay.rooms == map["r1" := [b]];

    assert relay.queue == [];
    var incoming := [Got(x), Got(y), Got(z)];
    ReceivedAll(x, y, z);
    var r := Received(incoming);
    relay.JoinRoom(ids, true, 1, incoming);
    assert Members(map["r1" := [b]], "r1") + [a] == [b, a];
    assert |relay.queue| == 3;
    assert relay.queue[0] == Message(r[0], "r1", 1);
    assert relay.queue[1] == Message(r[1], "r1", 1);
    assert relay.queue[2] == Message(r[2], "r1", 1);
  }

  /**
   * After the joins of JoinTwoPeers, the broadcaster drains the channel:
   * the offer reaches B and not A; the second write to B fails and closes
   * B, yet B stays listed, so A's third message is still attempted on B's
   * closed connection, fails again and closes it again.
   */
  method OfferScenario(offer: Payload, second: Payload, third: Payload) returns (log: seq<Effect>)
    ensures log == [Closed(2), Closed(1),
                    Wrote(2, offer, true), Wrote(2, second, false), Closed(2), Wrote(2, third, false), Closed(2)]
  {
    var relay := JoinTwoPeers(offer, second, third);
    var room := [Participant(false, 2), Participant(false, 1)];
    var m1, m2, m3 := Message(offer, "r1", 1), Message(second, "r1", 1), Message(third, "r1", 1);
    var allOk: nat -> bool := k => true;
    var allFail: nat -> bool := k => false;
    var outcomes: nat -> nat -> bool := n => if n == 0 then allOk else allFail;
    relay.RunBroadcaster(outcomes);
    PeerThenSender(room[0], room[1], m1, allOk);
    PeerThenSender(room[0], room[1], m2, allFail);
    PeerThenSender(room[0], room[1], m3, allFail);
    DispatchThree(map["r1" := room], m1, m2, m3, outcomes);
    assert BroadcastEffects(map["r1" := room], m1, outcomes(0)) == Walk(room, m1, allOk, 0);
    assert BroadcastEffects(map["r1" := room], m2, outcomes(1)) == Walk(room, m2, allFail, 0);
    assert BroadcastEffects(map["r1" := room], m3, outcomes(2)) == Walk(room, m3, allFail, 0);
    log := relay.effects;
  }
}
