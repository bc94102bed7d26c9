/**
  `MiNetServer` as a class: the same fields as the C# class, updated in
  place by its methods, each method proved to leave the server in the
  state the function of the same name in module `Transport` gives.

  The socket is not here. A datagram arrives as a call of
  `ReceiveCallback` with its bytes and sender; a write to the socket is an
  append to `wire`; the send timer is a call of `SendTimerElapsed`; the
  clock is the `nowMillis` parameter.
 */
module Network {
  import opened Protocol
  import opened Handshake
  import opened Transport
  import HexFormat

  /** `IPAddress.Any`. */
  const AnyAddress: seq<byte> := [0, 0, 0, 0]

  class MiNetServer {
    const endpoint: Endpoint
    const codec: Codec

    var listening: bool
    var armed: bool
    var players: map<Endpoint, Session>
    var created: nat
    var sendQueue: seq<Item>
    var sequenceNumber: int
    var reliableMessageNumber: int
    var wire: seq<Item>
    var handed: seq<Handoff>

    /** The server's state as a value. */
    function State(): Server
      reads this
    {
      Server(listening, armed, players, created, sendQueue, sequenceNumber,
             reliableMessageNumber, wire, handed)
    }

    ghost predicate Valid()
      reads this
    {
      Inv(State())
    }

    /** `MiNetServer(IPEndPoint endpoint = null)`: any address, port 19132, unless given. */
    constructor (endpoint: Option<Endpoint>, codec: Codec)
      ensures this.endpoint == if endpoint.Some? then endpoint.value else Endpoint(AnyAddress, DefaultPort)
      ensures this.codec == codec
      ensures Valid() && State() == Initial()
    {
      this.endpoint := if endpoint.Some? then endpoint.value else Endpoint(AnyAddress, DefaultPort);
      this.codec := codec;
      listening, armed, players, created := false, false, map[], 0;
      sendQueue, sequenceNumber, reliableMessageNumber := [], 0, 0;
      wire, handed := [], [];
    }

    /** `MiNetServer(int port)`: any address, the given port. */
    constructor WithPort(port: Port, codec: Codec)
      ensures this.endpoint == Endpoint(AnyAddress, port)
      ensures this.codec == codec
      ensures Valid() && State() == Initial()
    {
      this.endpoint := Endpoint(AnyAddress, port);
      this.codec := codec;
      listening, armed, players, created := false, false, map[], 0;
      sendQueue, sequenceNumber, reliableMessageNumber := [], 0, 0;
      wire, handed := [], [];
    }

    /** `setupOk`: whether the level, the socket and its options can all be set up. */
    method StartServer(setupOk: bool) returns (ok: bool)
      requires Valid()
      modifies this
      ensures Valid()
      ensures (ok, State()) == Start(old(State()), setupOk)
    {
      if listening {
        return false;
      }
      players := map[];
      if !setupOk {
        var _ := StopServer();
        return false;
      }
      listening := true;
      armed := true;
      return true;
    }

    method StopServer() returns (ok: bool)
      requires Valid()
      modifies this
      ensures Valid()
      ensures (ok, State()) == Stop(old(State()))
    {
      if !listening {
        armed := false;
        return true;
      }
      listening := false;
      armed := false;
      return true;
    }

    /** One completed receive: the datagram `bytes` from `sender`. */
    method ReceiveCallback(bytes: seq<byte>, sender: Endpoint, nowMillis: int)
      requires Valid()
      modifies this
      ensures Valid()
      ensures State() == Receive(codec, old(State()), bytes, sender, nowMillis)
    {
      if !listening || !armed {
        return;
      }
      // every `return` below after `armed := false` is an exception caught
      // before the receive is re-armed
      if |bytes| == 0 {
        armed := false;
        return;
      }
      var msgId := bytes[0];
      if msgId <= codec.ids.userPacketEnum {
        var message := codec.createPackage(msgId, bytes);
        if message.None? {
          armed := false;
          return;
        }
        match OfflineReply(codec.ids, msgId, message.value, sender)
        case Reply(packet) =>
          SendThroughQueue(Raw(packet), sender);
        case NoReply =>
        case BadCast =>
          armed := false;
      } else {
        var header := codec.header(msgId);
        if !header.isAck && !header.isNak && header.isValid {
          if msgId == 0xa0 {
            armed := false;
            return;
          }
          var package := codec.decodeConnected(bytes);
          if package.None? {
            armed := false;
            return;
          }
          SendAck(sender, package.value.sequenceNumber);
          DoPlayerStuff(package.value.message, sender, nowMillis);
        }
        // an ACK, a NAK or an invalid header is only logged
      }
    }

    method DoPlayerStuff(message: Package, sender: Endpoint, nowMillis: int)
      requires Valid()
      modifies this
      ensures Valid()
      ensures State() == Transport.DoPlayerStuff(old(State()), message, sender, nowMillis)
    {
      match message
      case ConnectedPing(sendpingtime) =>
        SendPackage(sender, PongFor(sendpingtime, nowMillis));
      case ConnectionRequest(timestamp) =>
        SendPackage(sender, AcceptedFor(sender, timestamp));
        ReplacePlayer(sender);
      case _ =>
        if sender in players {
          handed := handed + [Handoff(players[sender], message)];
        }
    }

    /** `_playerEndpoints.Remove(sender)`, then `Add` of a new player for it. */
    method ReplacePlayer(sender: Endpoint)
      modifies this
      ensures State() == ReplaceSession(old(State()), sender)
    {
      players := players - {sender};
      players := players[sender := Session(sender, created)];
      created := created + 1;
      assert players == old(players)[sender := Session(sender, old(created))];
    }

    method SendPackage(to: Endpoint, message: Package, reliability: Reliability := Reliable)
      requires Valid()
      modifies this
      ensures Valid()
      ensures State() == Transport.SendPackage(old(State()), to, message, reliability)
    {
      var package := ConnectedPackage(sequenceNumber, reliability, reliableMessageNumber, message);
      reliableMessageNumber := CharSucc(reliableMessageNumber);
      sequenceNumber := Int32Succ(sequenceNumber);
      SendThroughQueue(Framed(package), to);
    }

    method SendAck(to: Endpoint, sequenceNumber: int)
      requires Valid()
      modifies this
      ensures Valid()
      ensures State() == Transport.SendAck(old(State()), to, sequenceNumber)
    {
      SendDirect(AckFrame(Ack(sequenceNumber, 1, 1)), to);
    }

    /** One tick of the send timer. */
    method SendTimerElapsed()
      requires Valid()
      modifies this
      ensures Valid()
      ensures State() == Tick(old(State()))
    {
      if |sendQueue| == 0 {
        return;
      }
      var item := sendQueue[0];
      sendQueue := sendQueue[1..];
      if !listening {
        // the write through a null socket throws; the entry is gone
        return;
      }
      SendDirect(item.datagram, item.to);
    }

    method SendThroughQueue(data: Datagram, to: Endpoint)
      requires Valid()
      modifies this
      ensures Valid()
      ensures State() == Transport.SendThroughQueue(old(State()), data, to)
    {
      sendQueue := sendQueue + [Item(to, data)];
    }

    method SendDirect(data: Datagram, to: Endpoint)
      requires Valid()
      modifies this
      ensures Valid()
      ensures State() == Transport.SendDirect(old(State()), data, to)
    {
      wire := wire + [Item(to, data)];
      wire := wire + [Item(to, data)];
    }

    static method ByteArrayToString(ba: seq<byte>) returns (hex: string)
      ensures hex == HexFormat.Formatted(ba)
      ensures HexFormat.Parse(hex) == Some(ba)
    {
      hex := "{";
      for i := 0 to |ba|
        invariant hex == "{" + HexFormat.Body(ba[..i])
      {
        assert ba[..i + 1][..i] == ba[..i];
        hex := hex + HexFormat.ByteText(ba[i]);
      }
      assert ba[..|ba|] == ba;
      hex := hex + "}";
      HexFormat.FormattedParses(ba);
    }
  }
}
