/** Values and messages shared by the signaling server and the browser client. */
module Protocol {

  datatype Option<+T> = None | Some(value: T)

  /** A JavaScript value as it travels through a socket.io event.  Session
      descriptions and ICE candidates are opaque objects (`Obj`); numbers are
      modelled as integers. */
  datatype JsValue =
    | Undefined
    | Null
    | Bool(b: bool)
    | Num(n: int)
    | Str(s: string)
    | Obj(handle: nat)

  /** JavaScript truthiness, as used by `if (x)` and `x || y`. */
  predicate Truthy(v: JsValue): (truthy: bool)
    ensures v == Undefined || v == Null || v == Bool(false) || v == Num(0) || v == Str("") ==> !truthy
    ensures v.Obj? || v == Bool(true) || (v.Str? && v.s != "") || (v.Num? && v.n != 0) ==> truthy
  {
    match v
    case Undefined => false
    case Null => false
    case Bool(b) => b
    case Num(n) => n != 0
    case Str(s) => s != ""
    case Obj(_) => true
  }

  /** The three directed negotiation messages. */
  datatype Signal = Offer | Answer | IceCandidate

  function SignalName(k: Signal): string
  {
    match k
    case Offer => "offer"
    case Answer => "answer"
    case IceCandidate => "ice-candidate"
  }

  /** `socket.emit(name, ...args)` from a client. */
  datatype ClientEmit = ClientEmit(name: string, args: seq<JsValue>)

  /** The positional parameter `i` of a handler: missing arguments are `undefined`. */
  function Arg(args: seq<JsValue>, i: nat): JsValue
  {
    if i < |args| then args[i] else Undefined
  }

  /** `socket.emit(kind, payload, target)` for a directed negotiation message. */
  function SignalEmit(k: Signal, payload: JsValue, target: string): ClientEmit
  {
    ClientEmit(SignalName(k), [payload, Str(target)])
  }

  /** The handler's positional parameters `(payload, target)` recover what
      `SignalEmit` sent. */
  lemma SignalEmitArgs(k: Signal, payload: JsValue, target: string)
    ensures SignalEmit(k, payload, target).name == SignalName(k)
    ensures |SignalEmit(k, payload, target).args| == 2
    ensures Arg(SignalEmit(k, payload, target).args, 0) == payload
    ensures Arg(SignalEmit(k, payload, target).args, 1) == Str(target)
  {
  }

  /** `socket.emit('join-room', roomId, userId, mode)`, as the client writes it. */
  function JoinRoomEmit(roomId: string, userId: string, mode: string): (e: ClientEmit)
    ensures e.name == "join-room" && |e.args| == 3
    ensures Arg(e.args, 0) == Str(roomId) && Arg(e.args, 1) == Str(userId) && Arg(e.args, 2) == Str(mode)
  {
    ClientEmit("join-room", [Str(roomId), Str(userId), Str(mode)])
  }
}
