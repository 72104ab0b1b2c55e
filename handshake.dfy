/** The `join-room` handshake across client and server.  The client emits
    `join-room(roomId, userId, mode)` (script.js:123) while the server's handler
    binds only `(roomId, mode)` (server.js:25), so the value the server passes on
    as the joiner's mode is the client's user id. */
module Handshake {
  import opened Protocol
  import opened Relay
  import Client

  /** What the server announces as the joiner's mode, as written: the client's user id. */
  lemma AnnouncedModeIsUserId(roomId: string, userId: string, mode: string)
    ensures JoinBinding(JoinRoomEmit(roomId, userId, mode).args) == (Str(roomId), Str(userId))
  {
  }

  /** A generated user id is never one of the two role names, so the
      `user-joined` dispatch ignores every announcement, whatever the local
      mode and sharing state. */
  lemma UserIdIsNoRole(digits: string, localMode: string, isSharing: bool)
    ensures !Client.ConnectsToBroadcaster(Str(Client.GenerateUserId(digits)), localMode)
    ensures !Client.AnnouncesViewer(Str(Client.GenerateUserId(digits)), localMode, isSharing)
  {
    var id := Client.GenerateUserId(digits);
    assert id[0] == 'K';
    assert "broadcaster"[0] == 'b' && "viewer"[0] == 'v';
  }

  /** As written: a broadcaster joins a room where a viewer waits.  The viewer
      receives `user-joined` with the broadcaster's user id in the mode slot and
      its dispatch neither opens a link nor does anything else. */
  lemma AsWrittenViewerIgnoresBroadcaster(rooms: Rooms, b: SocketId, v: SocketId,
                                          roomId: string, digits: string, added: seq<Delivery>)
    requires v != b && v in rooms && Str(roomId) in rooms[v]
    requires var (room, mode) := JoinBinding(JoinRoomEmit(roomId, Client.GenerateUserId(digits), "broadcaster").args);
             FanOut(added, RoomPeers(rooms, room, b), UserJoined(b, mode))
    ensures Inbox(added + [Delivery(b, JoinedSuccess(Str(roomId), b))], v)
         == [UserJoined(b, Str(Client.GenerateUserId(digits)))]
    ensures !Client.ConnectsToBroadcaster(Str(Client.GenerateUserId(digits)), "viewer")
  {
    var uid := Client.GenerateUserId(digits);
    AnnouncedModeIsUserId(roomId, uid, "broadcaster");
    JoinRoomInbox(rooms, b, Str(roomId), Str(uid), added, v);
    UserIdIsNoRole(digits, "viewer", false);
  }

  /** The evidently intended binding: the handler takes `(roomId, userId, mode)`
      and announces the mode. */
  function CorrectedJoinBinding(args: seq<JsValue>): (bound: (JsValue, JsValue))
    ensures |args| >= 1 ==> bound.0 == args[0]
    ensures |args| >= 3 ==> bound.1 == args[2]
    ensures |args| < 1 ==> bound.0 == Undefined
    ensures |args| < 3 ==> bound.1 == Undefined
  {
    (Arg(args, 0), Arg(args, 2))
  }

  /** With the corrected binding the server announces exactly the room and the
      mode the client sent. */
  lemma CorrectedAnnouncesMode(roomId: string, userId: string, mode: string)
    ensures CorrectedJoinBinding(JoinRoomEmit(roomId, userId, mode).args) == (Str(roomId), Str(mode))
  {
  }

  /** Corrected: a broadcaster joins a room where a viewer waits.  The viewer
      receives `user-joined(b, 'broadcaster')` and its dispatch opens a link to `b`. */
  lemma CorrectedViewerConnects(rooms: Rooms, b: SocketId, v: SocketId,
                                roomId: string, userId: string, added: seq<Delivery>)
    requires v != b && v in rooms && Str(roomId) in rooms[v]
    requires var (room, mode) := CorrectedJoinBinding(JoinRoomEmit(roomId, userId, "broadcaster").args);
             FanOut(added, RoomPeers(rooms, room, b), UserJoined(b, mode))
    ensures Inbox(added + [Delivery(b, JoinedSuccess(Str(roomId), b))], v)
         == [UserJoined(b, Str("broadcaster"))]
    ensures Client.ConnectsToBroadcaster(Str("broadcaster"), "viewer")
  {
    CorrectedAnnouncesMode(roomId, userId, "broadcaster");
    JoinRoomInbox(rooms, b, Str(roomId), Str("broadcaster"), added, v);
  }

  /** A directed message emitted by a client (`socket.emit(kind, payload, target)`)
      and bound by the server's handler reaches the target socket alone,
      unchanged and stamped with the sender's id. */
  lemma SignalEmitDelivered(rooms: Rooms, sender: SocketId, k: Signal, payload: JsValue,
                            t: SocketId, added: seq<Delivery>)
    requires OwnRooms(rooms) && PrivateId(rooms, t) && t != ""
    requires var args := SignalEmit(k, payload, t).args;
             FanOut(added, SignalRecipients(rooms, Arg(args, 1)), Relayed(k, Arg(args, 0), sender))
    ensures SignalEmit(k, payload, t).name == SignalName(k)
    ensures added == if t in rooms then [Delivery(t, Relayed(k, payload, sender))] else []
  {
    SignalToSocketIsOneDelivery(rooms, sender, k, payload, t, added);
  }
}
