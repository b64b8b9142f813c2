/**
 * The message shapes every transport of the bridge exchanges: the packet
 * (`RxjsBridgeMessage` plus the optional `property` and `isCheck` fields the
 * hosts read), the host-side signal that tags a packet with its sender's
 * address, and the materialised envelope that carries one stream event.
 */
module Wire {

  datatype Option<+T> = None | Some(value: T)

  /** An application value that travels through the bridge, kept opaque. */
  datatype Value = Str(s: string) | Json(text: string)

  /** A serialised error: its message and the other own properties kept by the serialisation. */
  datatype ErrorRecord = ErrorRecord(message: string, fields: map<string, string>)

  /** The materialised envelope: `{kind: "N", value}`, `{kind: "E", error}` or `{kind: "C"}`. */
  datatype Notification = N(value: Value) | E(error: ErrorRecord) | C
  {
    predicate IsTerminal() { !N? }
  }

  /** What the `data` field of a packet holds. */
  datatype Data =
    | NoData                                                   // the field is absent
    | Args(args: seq<Value>)                                   // the arguments of a method start
    | Operators(count: nat)                                    // a worker property start carries its decorator's operator list
    | Capabilities(properties: seq<string>, methods: seq<string>)  // a handshake reply
    | Envelope(notification: Notification)                     // one stream event

  /**
   * One packet; `methodName` is the wire field `method`. An absent `complete` or `isCheck` is `false`: every reader of
   * these fields only tests their truthiness.
   */
  datatype Packet = Packet(
    id: int,
    methodName: Option<string>,
    property: Option<string>,
    data: Data,
    complete: bool,
    service: string,
    isCheck: bool)

  /** A packet as the socket host sees it, with the remote address of its connection. */
  datatype Signal = Signal(msg: Packet, address: string)

  /** The correlation id reserved for the capability handshake. */
  const HandshakeId: int := -1

  /** The property key JavaScript uses for an optional name: `undefined` becomes "undefined". */
  function Key(name: Option<string>): string
  {
    match name
    case None => "undefined"
    case Some(n) => n
  }

  /** Whether an optional name passes a JavaScript `if (name)` test. */
  predicate Truthy(name: Option<string>)
  {
    name.Some? && name.value != ""
  }

  /** A result packet as both hosts build it: same id, method name and property as the start, one envelope, `complete: false`. */
  function ResultPacket(start: Packet, n: Notification, service: string): Packet
  {
    Packet(start.id, start.methodName, start.property, Envelope(n), false, service, false)
  }
}
