/**
  The wire-level vocabulary of the MiNET transport: bytes, endpoints, the
  decoded message kinds, the reliability envelope and the acknowledgment
  record, and the integer widths of the server's two outbound counters.

  The byte layouts of the packages, of `ConnectedPackage` and of
  `DatagramHeader` are not part of this model. They enter through `Codec`,
  a record of total functions the server is built with, so that every
  property proved about the server holds for every codec.
 */
module Protocol {

  datatype Option<T> = None | Some(value: T)

  newtype byte = x: int | 0 <= x < 0x100

  /** A UDP port as `IPEndPoint.Port` holds it. */
  type Port = p: int | 0 <= p < 0x1_0000

  /** A remote peer: an address and a port. */
  datatype Endpoint = Endpoint(address: seq<byte>, port: Port)

  /** The port the server binds when no endpoint is given. */
  const DefaultPort: Port := 19132

  /** The fixed server id / guid the handshake replies carry. */
  const ServerId: int := 12345

  /** The server name an unconnected pong carries. */
  const ServerName: string := "MCCPP;Demo;MiNET - Another MC server"

  /** The C# cast `(short) p`: the low 16 bits read as a signed number. */
  function ToInt16(p: Port): (r: int)
    ensures -0x8000 <= r < 0x8000
    ensures (r - p) % 0x1_0000 == 0
  {
    if p < 0x8000 then p else p - 0x1_0000
  }

  // ----- 32-bit `int` and 16-bit `char` arithmetic -----

  const Int32Min: int := -0x8000_0000
  const Int32Max: int := 0x7fff_ffff

  predicate IsInt32(x: int) {
    Int32Min <= x <= Int32Max
  }

  /** The 32-bit two's complement value congruent to `x`. */
  function Int32Wrap(x: int): (r: int)
    ensures IsInt32(r)
    ensures (r - x) % 0x1_0000_0000 == 0
    ensures IsInt32(x) ==> r == x
  {
    (x - Int32Min) % 0x1_0000_0000 + Int32Min
  }

  /** `x++` on a C# `int`, which wraps from the maximum to the minimum. */
  function Int32Succ(x: int): (r: int)
    ensures IsInt32(r)
    ensures IsInt32(x) && x < Int32Max ==> r == x + 1
    ensures x == Int32Max ==> r == Int32Min
  {
    Int32Wrap(x + 1)
  }

  predicate IsChar(x: int) {
    0 <= x < 0x1_0000
  }

  /** `x++` on a C# `char`, an unsigned 16-bit number. */
  function CharSucc(x: int): (r: int)
    ensures IsChar(r)
    ensures IsChar(x) && x < 0xffff ==> r == x + 1
    ensures x == 0xffff ==> r == 0
  {
    (x + 1) % 0x1_0000
  }

  // ----- what the header byte of a datagram says -----

  datatype DatagramHeader = DatagramHeader(isAck: bool, isNak: bool, isValid: bool)

  // ----- decoded messages -----

  /**
    One variant per package kind the core looks at, `Unknown` for ids the
    package factory does not know, and `Other` for every registered game
    package whose class is not part of this model.
   */
  datatype Package =
    | UnconnectedPing(pingId: int)
    | UnconnectedPong(serverId: int, pingId: int, serverName: string)
    | OpenConnectionRequest1(mtuSize: int)
    | OpenConnectionReply1(serverGuid: int, mtuSize: int, serverHasSecurity: int)
    | OpenConnectionRequest2(mtuSize: int)
    | OpenConnectionReply2(serverGuid: int, clientUdpPort: int, mtuSize: int, doSecurity: int)
    | ConnectedPing(sendpingtime: int)
    | ConnectedPong(sendpingtime: int, sendpongtime: int)
    | ConnectionRequest(timestamp: int)
    | ConnectionRequestAccepted(clientPort: int, timestamp: int)
    | Unknown(id: byte, raw: seq<byte>)
    | Other(id: byte, body: seq<byte>)

  datatype Reliability = Unreliable | Reliable

  /** The reliability envelope around one outbound message. */
  datatype ConnectedPackage = ConnectedPackage(
    sequenceNumber: int,
    reliability: Reliability,
    reliableMessageNumber: int,
    message: Package)

  /** What `ConnectedPackage.Decode` yields from a data datagram. */
  datatype Inbound = Inbound(sequenceNumber: int, message: Package)

  datatype Ack = Ack(sequenceNumber: int, count: int, onlyOneSequence: int)

  /**
    An outbound datagram, represented by the value its bytes encode: an
    offline package written as it is, a package inside its envelope, or an
    acknowledgment.
   */
  datatype Datagram = Raw(message: Package) | Framed(package: ConnectedPackage) | AckFrame(ack: Ack)

  /** One entry of the send queue or one datagram written to the socket. */
  datatype Item = Item(to: Endpoint, datagram: Datagram)

  // ----- the codec the server is built with -----

  /** The values of the `DefaultMessageIdTypes` members the receive path tests. */
  datatype MessageIds = MessageIds(
    unconnectedPing: byte,
    unconnectedPingOpenConnections: byte,
    openConnectionRequest1: byte,
    openConnectionRequest2: byte,
    userPacketEnum: byte)
  {
    /** The switch's case labels are distinct constants (C# insists on it). */
    predicate Distinct() {
      && unconnectedPing != openConnectionRequest1
      && unconnectedPing != openConnectionRequest2
      && unconnectedPingOpenConnections != openConnectionRequest1
      && unconnectedPingOpenConnections != openConnectionRequest2
      && openConnectionRequest1 != openConnectionRequest2
    }

    predicate IsPingId(id: byte) {
      id == unconnectedPing || id == unconnectedPingOpenConnections
    }
  }

  /**
    `header` is `new DatagramHeader(b)`, `createPackage` is
    `PackageFactory.CreatePackage` and `decodeConnected` is
    `ConnectedPackage.Decode`; `None` stands for a decode that throws.
   */
  datatype Codec = Codec(
    ids: MessageIds,
    header: byte -> DatagramHeader,
    createPackage: (byte, seq<byte>) -> Option<Package>,
    decodeConnected: seq<byte> -> Option<Inbound>)
}
