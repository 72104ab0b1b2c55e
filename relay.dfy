/** The signaling relay of server.js: room membership and message forwarding
    over socket.io, with socket.io's primitives made explicit as a membership
    map and an outbox of deliveries. */
module Relay {
  import opened Protocol

  type SocketId = string

  /** Room membership of every connected socket.  Room names are whatever
      value a client passed to `join-room`; every socket is also in the room
      named by its own id. */
  type Rooms = map<SocketId, set<JsValue>>

  /** An event as the receiving client's handler sees it: its name and arguments. */
  datatype Event =
    | UserJoined(userId: SocketId, mode: JsValue)
    | JoinedSuccess(roomId: JsValue, yourSocketId: SocketId)
    | Relayed(kind: Signal, payload: JsValue, fromId: SocketId)

  datatype Delivery = Delivery(recipient: SocketId, event: Event)

  function Recipients(ds: seq<Delivery>): set<SocketId>
  {
    set d | d in ds :: d.recipient
  }

  /** `ds` hands `ev` to every socket of `to` exactly once and to nobody else,
      in some order. */
  ghost predicate FanOut(ds: seq<Delivery>, to: set<SocketId>, ev: Event)
  {
    && (forall i :: 0 <= i < |ds| ==> ds[i].event == ev)
    && (forall i, j :: 0 <= i < j < |ds| ==> ds[i].recipient != ds[j].recipient)
    && Recipients(ds) == to
  }

  /** The events that `r` receives from `ds`, in order. */
  function Inbox(ds: seq<Delivery>, r: SocketId): seq<Event>
  {
    if ds == [] then []
    else (if ds[0].recipient == r then [ds[0].event] else []) + Inbox(ds[1..], r)
  }

  /** `io.to(room)`: every connected socket in `room`. */
  function RoomMembers(rooms: Rooms, room: JsValue): set<SocketId>
  {
    set s | s in rooms && room in rooms[s]
  }

  /** `socket.to(room)` from `sender`: the room without the sender. */
  function RoomPeers(rooms: Rooms, room: JsValue, sender: SocketId): (peers: set<SocketId>)
    ensures sender !in peers
    ensures forall s :: s in peers <==> s != sender && s in rooms && room in rooms[s]
  {
    RoomMembers(rooms, room) - {sender}
  }

  /** Who a directed message with this target reaches: nobody for a falsy
      target, otherwise `io.to(target)`.  Routing reads the target only. */
  function SignalRecipients(rooms: Rooms, target: JsValue): (to: set<SocketId>)
    ensures !Truthy(target) ==> to == {}
    ensures forall s :: s in to <==> Truthy(target) && s in rooms && target in rooms[s]
  {
    if Truthy(target) then RoomMembers(rooms, target) else {}
  }

  /** The parameters `(roomId, mode)` that the `join-room` handler binds,
      by position, from the arguments a client emitted. */
  function JoinBinding(args: seq<JsValue>): (bound: (JsValue, JsValue))
    ensures |args| >= 1 ==> bound.0 == args[0]
    ensures |args| >= 2 ==> bound.1 == args[1]
    ensures |args| < 1 ==> bound.0 == Undefined
    ensures |args| < 2 ==> bound.1 == Undefined
  {
    (Arg(args, 0), Arg(args, 1))
  }

  /** Every connected socket is in its own room. */
  ghost predicate OwnRooms(rooms: Rooms)
  {
    forall s :: s in rooms ==> Str(s) in rooms[s]
  }

  /** No socket other than `t` has joined the room named `t`. */
  ghost predicate PrivateId(rooms: Rooms, t: SocketId)
  {
    forall s :: s in rooms && s != t ==> Str(t) !in rooms[s]
  }

  /** One `emit` to a set of sockets: one delivery per recipient. */
  method FanOutDeliveries(to: set<SocketId>, ev: Event) returns (ds: seq<Delivery>)
    ensures FanOut(ds, to, ev)
  {
    ds := [];
    var rest := to;
    while rest != {}
      invariant rest <= to
      invariant Recipients(ds) == to - rest
      invariant forall i :: 0 <= i < |ds| ==> ds[i].event == ev
      invariant forall i, j :: 0 <= i < j < |ds| ==> ds[i].recipient != ds[j].recipient
      decreases rest
    {
      var r :| r in rest;
      var next := ds + [Delivery(r, ev)];
      assert Recipients(next) == Recipients(ds) + {r} by {
        assert forall d :: d in next <==> d in ds || d == Delivery(r, ev);
      }
      assert forall i :: 0 <= i < |ds| ==> ds[i].recipient in Recipients(ds);
      ds := next;
      rest := rest - {r};
    }
  }

  lemma {:induction false} InboxConcat(a: seq<Delivery>, b: seq<Delivery>, r: SocketId)
    ensures Inbox(a + b, r) == Inbox(a, r) + Inbox(b, r)
  {
    if a == [] {
      assert a + b == b;
    } else {
      assert (a + b)[1..] == a[1..] + b;
      InboxConcat(a[1..], b, r);
    }
  }

  /** Peeling the first delivery off a fan-out leaves a fan-out to the rest. */
  lemma FanOutTail(ds: seq<Delivery>, to: set<SocketId>, ev: Event)
    requires FanOut(ds, to, ev) && ds != []
    ensures ds[0].recipient in to && ds[0].event == ev
    ensures FanOut(ds[1..], to - {ds[0].recipient}, ev)
  {
    var h := ds[0].recipient;
    var tail := ds[1..];
    assert ds == [ds[0]] + tail;
    assert forall i :: 0 <= i < |tail| ==> tail[i] == ds[i + 1];
    assert forall d :: d in tail ==> d.recipient != h;
    assert Recipients(ds) == {h} + Recipients(tail);
  }

  /** A fan-out has exactly one delivery per recipient. */
  lemma {:induction false} FanOutLength(ds: seq<Delivery>, to: set<SocketId>, ev: Event)
    requires FanOut(ds, to, ev)
    ensures |ds| == |to|
  {
    if ds == [] {
      assert to == Recipients(ds) == {};
    } else {
      FanOutTail(ds, to, ev);
      FanOutLength(ds[1..], to - {ds[0].recipient}, ev);
    }
  }

  /** A fan-out gives each member of the audience the event once and nobody else anything. */
  lemma {:induction false} FanOutInbox(ds: seq<Delivery>, to: set<SocketId>, ev: Event, r: SocketId)
    requires FanOut(ds, to, ev)
    ensures Inbox(ds, r) == if r in to then [ev] else []
  {
    if ds == [] {
      assert to == Recipients(ds) == {};
    } else {
      FanOutTail(ds, to, ev);
      FanOutInbox(ds[1..], to - {ds[0].recipient}, ev, r);
    }
  }

  /** The deliveries of one `join-room` by `sender`: every other member of the
      room (membership taken after the join) gets `user-joined(sender, mode)`;
      the sender gets only its `joined-success`; sockets outside the room get nothing. */
  lemma JoinRoomInbox(rooms: Rooms, sender: SocketId, roomId: JsValue, mode: JsValue,
                      added: seq<Delivery>, r: SocketId)
    requires FanOut(added, RoomPeers(rooms, roomId, sender), UserJoined(sender, mode))
    ensures Inbox(added + [Delivery(sender, JoinedSuccess(roomId, sender))], r)
         == if r == sender then [JoinedSuccess(roomId, sender)]
            else if r in rooms && roomId in rooms[r] then [UserJoined(sender, mode)]
            else []
  {
    var js := Delivery(sender, JoinedSuccess(roomId, sender));
    InboxConcat(added, [js], r);
    FanOutInbox(added, RoomPeers(rooms, roomId, sender), UserJoined(sender, mode), r);
    assert Inbox([js], r) == (if r == sender then [js.event] else []) + Inbox([], r);
  }

  /** The deliveries of one `offer`, `answer` or `ice-candidate`: the payload and
      kind arrive unchanged, stamped with the sender's id, at each socket in the
      target's room and nowhere else, and nowhere at all for a falsy target. */
  lemma SignalInbox(rooms: Rooms, sender: SocketId, kind: Signal, payload: JsValue,
                    target: JsValue, added: seq<Delivery>, r: SocketId)
    requires FanOut(added, SignalRecipients(rooms, target), Relayed(kind, payload, sender))
    ensures Inbox(added, r)
         == if Truthy(target) && r in rooms && target in rooms[r]
            then [Relayed(kind, payload, sender)] else []
    ensures !Truthy(target) ==> added == []
  {
    FanOutInbox(added, SignalRecipients(rooms, target), Relayed(kind, payload, sender), r);
    FanOutLength(added, SignalRecipients(rooms, target), Relayed(kind, payload, sender));
  }

  /** Targeting a socket id reaches exactly that socket when it is connected,
      and nobody when it is not, provided nobody else joined a room of that name. */
  lemma SignalToSocket(rooms: Rooms, t: SocketId)
    requires OwnRooms(rooms) && PrivateId(rooms, t) && t != ""
    ensures SignalRecipients(rooms, Str(t)) == if t in rooms then {t} else {}
  {
    var to := SignalRecipients(rooms, Str(t));
    if t in rooms {
      assert t in to;
    }
  }

  /** Together: a directed message to a connected, private socket id is one
      delivery, to that socket, carrying the unchanged payload. */
  lemma {:induction false} SignalToSocketIsOneDelivery(rooms: Rooms, sender: SocketId, kind: Signal,
                                    payload: JsValue, t: SocketId, added: seq<Delivery>)
    requires OwnRooms(rooms) && PrivateId(rooms, t) && t != ""
    requires FanOut(added, SignalRecipients(rooms, Str(t)), Relayed(kind, payload, sender))
    ensures added == if t in rooms then [Delivery(t, Relayed(kind, payload, sender))] else []
  {
    SignalToSocket(rooms, t);
    FanOutLength(added, SignalRecipients(rooms, Str(t)), Relayed(kind, payload, sender));
    if t in rooms {
      assert added[0].recipient in Recipients(added);
    }
  }

  /** The socket.io server with the four handlers of server.js. */
  class SignalingServer {
    var rooms: Rooms
    var outbox: seq<Delivery>

    ghost predicate Valid()
      reads this
    {
      OwnRooms(rooms)
    }

    constructor ()
      ensures Valid() && rooms == map[] && outbox == []
    {
      rooms := map[];
      outbox := [];
    }

    /** A new connection: socket.io gives it a fresh id and its own room. */
    method Connect(id: SocketId)
      requires Valid() && id !in rooms
      modifies this
      ensures Valid()
      ensures rooms == old(rooms)[id := {Str(id)}] && outbox == old(outbox)
    {
      rooms := rooms[id := {Str(id)}];
    }

    /** `join-room(roomId, mode)`: join the room, announce the joiner to the
        rest of the room, confirm to the joiner. */
    method JoinRoom(sender: SocketId, roomId: JsValue, mode: JsValue)
      requires Valid() && sender in rooms
      modifies this
      ensures Valid()
      ensures rooms == old(rooms)[sender := old(rooms)[sender] + {roomId}]
      ensures |outbox| > |old(outbox)| && outbox[..|old(outbox)|] == old(outbox)
      ensures FanOut(outbox[|old(outbox)|..|outbox| - 1], RoomPeers(rooms, roomId, sender),
                     UserJoined(sender, mode))
      ensures outbox[|outbox| - 1] == Delivery(sender, JoinedSuccess(roomId, sender))
    {
      rooms := rooms[sender := rooms[sender] + {roomId}];
      var added := FanOutDeliveries(RoomPeers(rooms, roomId, sender), UserJoined(sender, mode));
      var before := outbox;
      outbox := outbox + added + [Delivery(sender, JoinedSuccess(roomId, sender))];
      assert outbox[|before|..|outbox| - 1] == added;
    }

    /** `offer`, `answer` or `ice-candidate` with `(payload, targetSocketId)`:
        forward to the target, stamped with the sender's id, if the target is truthy. */
    method OnSignal(sender: SocketId, kind: Signal, payload: JsValue, target: JsValue)
      requires Valid() && sender in rooms
      modifies this
      ensures Valid() && rooms == old(rooms)
      ensures |outbox| >= |old(outbox)| && outbox[..|old(outbox)|] == old(outbox)
      ensures FanOut(outbox[|old(outbox)|..], SignalRecipients(rooms, target),
                     Relayed(kind, payload, sender))
      ensures !Truthy(target) ==> outbox == old(outbox)
    {
      if Truthy(target) {
        var added := FanOutDeliveries(RoomMembers(rooms, target), Relayed(kind, payload, sender));
        var before := outbox;
        outbox := outbox + added;
        assert outbox[|before|..] == added;
      } else {
        assert outbox[|outbox|..] == [];
      }
    }

    /** `disconnect`: socket.io drops the socket from all its rooms; the handler emits nothing. */
    method Disconnect(id: SocketId)
      requires Valid() && id in rooms
      modifies this
      ensures Valid()
      ensures rooms == old(rooms) - {id} && outbox == old(outbox)
    {
      rooms := rooms - {id};
    }

    /** socket.io's dispatch of a client emit to the handler registered under
        its name, binding the handler's parameters by position. */
    method Receive(sender: SocketId, msg: ClientEmit)
      requires Valid() && sender in rooms
      modifies this
      ensures Valid()
      ensures msg.name == "join-room" ==>
                rooms == old(rooms)[sender := old(rooms)[sender] + {JoinBinding(msg.args).0}]
                && |outbox| > |old(outbox)| && outbox[..|old(outbox)|] == old(outbox)
                && FanOut(outbox[|old(outbox)|..|outbox| - 1], RoomPeers(rooms, JoinBinding(msg.args).0, sender),
                          UserJoined(sender, JoinBinding(msg.args).1))
                && outbox[|outbox| - 1] == Delivery(sender, JoinedSuccess(JoinBinding(msg.args).0, sender))
      ensures forall k :: msg.name == SignalName(k) ==>
                rooms == old(rooms)
                && |outbox| >= |old(outbox)| && outbox[..|old(outbox)|] == old(outbox)
                && FanOut(outbox[|old(outbox)|..], SignalRecipients(rooms, Arg(msg.args, 1)),
                          Relayed(k, Arg(msg.args, 0), sender))
      ensures msg.name != "join-room" && (forall k :: msg.name != SignalName(k)) ==>
                rooms == old(rooms) && outbox == old(outbox)
    {
      if msg.name == "join-room" {
        var (roomId, mode) := JoinBinding(msg.args);
        JoinRoom(sender, roomId, mode);
      } else if msg.name == "offer" {
        assert msg.name == SignalName(Offer);
        OnSignal(sender, Offer, Arg(msg.args, 0), Arg(msg.args, 1));
      } else if msg.name == "answer" {
        assert msg.name == SignalName(Answer);
        OnSignal(sender, Answer, Arg(msg.args, 0), Arg(msg.args, 1));
      } else if msg.name == "ice-candidate" {
        assert msg.name == SignalName(IceCandidate);
        OnSignal(sender, IceCandidate, Arg(msg.args, 0), Arg(msg.args, 1));
      } else {
        assert forall k :: msg.name != SignalName(k);
      }
    }
  }
}
