/**
  What the transport promises, stated about the functions of module
  `Transport`: the handshake replies, the acknowledgment of data datagrams,
  the datagrams that change nothing, the session directory, the two
  counters, the FIFO pump, and start/stop.
 */
module Properties {
  import opened Protocol
  import opened Handshake
  import opened Transport

  /** The server is listening and a receive is outstanding. */
  predicate Receiving(s: Server) {
    s.listening && s.armed
  }

  /** The datagram's first byte is read as a message id, not a header. */
  predicate IsSystemId(c: Codec, bytes: seq<byte>) {
    |bytes| > 0 && bytes[0] <= c.ids.userPacketEnum
  }

  /** A data datagram as `ReceiveCallback` accepts one, decoded to `p`. */
  predicate IsDataDatagram(c: Codec, bytes: seq<byte>, p: Inbound) {
    && |bytes| > 0
    && bytes[0] > c.ids.userPacketEnum
    && c.header(bytes[0]).isValid && !c.header(bytes[0]).isAck && !c.header(bytes[0]).isNak
    && bytes[0] != 0xa0
    && c.decodeConnected(bytes) == Some(p)
  }

  // ----- the offline handshake -----

  /** Either ping variant queues exactly one pong to the sender and changes nothing else. */
  lemma UnconnectedPingIsAnswered(c: Codec, s: Server, bytes: seq<byte>, sender: Endpoint, now: int, pingId: int)
    requires Receiving(s) && IsSystemId(c, bytes) && c.ids.IsPingId(bytes[0])
    requires c.createPackage(bytes[0], bytes) == Some(UnconnectedPing(pingId))
    ensures Receive(c, s, bytes, sender, now)
         == s.(sendQueue := s.sendQueue + [Item(sender, Raw(UnconnectedPong(ServerId, pingId, ServerName)))])
  {
  }

  /** Reply 1 echoes the client's MTU size, with the server guid and no security. */
  lemma OpenConnectionRequest1IsAnswered(c: Codec, s: Server, bytes: seq<byte>, sender: Endpoint, now: int, mtuSize: int)
    requires Receiving(s) && c.ids.Distinct() && IsSystemId(c, bytes)
    requires bytes[0] == c.ids.openConnectionRequest1
    requires c.createPackage(bytes[0], bytes) == Some(OpenConnectionRequest1(mtuSize))
    ensures Receive(c, s, bytes, sender, now)
         == s.(sendQueue := s.sendQueue + [Item(sender, Raw(OpenConnectionReply1(ServerId, mtuSize, 0)))])
  {
  }

  /** Reply 2 echoes the MTU size and reports the port the datagram came from. */
  lemma OpenConnectionRequest2IsAnswered(c: Codec, s: Server, bytes: seq<byte>, sender: Endpoint, now: int, mtuSize: int)
    requires Receiving(s) && c.ids.Distinct() && IsSystemId(c, bytes)
    requires bytes[0] == c.ids.openConnectionRequest2
    requires c.createPackage(bytes[0], bytes) == Some(OpenConnectionRequest2(mtuSize))
    ensures Receive(c, s, bytes, sender, now)
         == s.(sendQueue := s.sendQueue + [Item(sender, Raw(OpenConnectionReply2(ServerId, ToInt16(sender.port), mtuSize, 0)))])
  {
  }

  /** A system id the switch has no case for changes nothing. */
  lemma OtherSystemIdIsIgnored(c: Codec, s: Server, bytes: seq<byte>, sender: Endpoint, now: int, m: Package)
    requires IsSystemId(c, bytes) && !IsCaseLabel(c.ids, bytes[0])
    requires c.createPackage(bytes[0], bytes) == Some(m)
    ensures Receive(c, s, bytes, sender, now) == s
  {
  }

  // ----- the reliability envelope on the receive side -----

  /**
    A data datagram is acknowledged exactly once, with its own sequence
    number, a count of one and the single-sequence flag, written straight
    to the socket (twice, as `SendDirect` does) before the message it
    carries is dispatched.
   */
  lemma DataDatagramIsAcknowledged(c: Codec, s: Server, bytes: seq<byte>, sender: Endpoint, now: int, p: Inbound)
    requires Receiving(s) && IsDataDatagram(c, bytes, p)
    ensures var t := Receive(c, s, bytes, sender, now);
            var ack := Item(sender, AckFrame(Ack(p.sequenceNumber, 1, 1)));
            && t.wire == s.wire + [ack, ack]
            && t == DoPlayerStuff(s.(wire := s.wire + [ack, ack]), p.message, sender, now)
  {
  }

  /** ACK, NAK and invalid headers send nothing and change nothing. */
  lemma NonDataHeaderChangesNothing(c: Codec, s: Server, bytes: seq<byte>, sender: Endpoint, now: int)
    requires |bytes| > 0 && bytes[0] > c.ids.userPacketEnum
    requires c.header(bytes[0]).isAck || c.header(bytes[0]).isNak || !c.header(bytes[0]).isValid
    ensures Receive(c, s, bytes, sender, now) == s
  {
  }

  /** An ordinary message from an endpoint with no session is acknowledged and then dropped. */
  lemma MessageWithoutSessionIsDropped(c: Codec, s: Server, bytes: seq<byte>, sender: Endpoint, now: int, p: Inbound)
    requires Receiving(s) && IsDataDatagram(c, bytes, p)
    requires !p.message.ConnectedPing? && !p.message.ConnectionRequest?
    requires sender !in s.players
    ensures Receive(c, s, bytes, sender, now) == SendAck(s, sender, p.sequenceNumber)
  {
  }

  /** An ordinary message from an endpoint with a session is handed to that session, and only that. */
  lemma MessageWithSessionIsForwarded(c: Codec, s: Server, bytes: seq<byte>, sender: Endpoint, now: int, p: Inbound)
    requires Receiving(s) && IsDataDatagram(c, bytes, p)
    requires !p.message.ConnectedPing? && !p.message.ConnectionRequest?
    requires sender in s.players
    ensures Receive(c, s, bytes, sender, now)
         == SendAck(s, sender, p.sequenceNumber).(handed := s.handed + [Handoff(s.players[sender], p.message)])
  {
  }

  /**
    A datagram that makes `ReceiveCallback` throw (empty, undecodable, a
    failed cast, the byte 0xa0 in data position) sends nothing, not even an
    acknowledgment, and is
    followed by no further receive: every later datagram is ignored.
   */
  lemma FaultEndsReceiveCycle(c: Codec, s: Server, bytes: seq<byte>, sender: Endpoint, now: int,
                              later: seq<byte>, laterSender: Endpoint)
    requires Receiving(s)
    requires || bytes == []
             || (IsSystemId(c, bytes) && c.createPackage(bytes[0], bytes).None?)
             || (IsSystemId(c, bytes) && c.createPackage(bytes[0], bytes).Some?
                 && OfflineReply(c.ids, bytes[0], c.createPackage(bytes[0], bytes).value, sender).BadCast?)
             || (|bytes| > 0 && bytes[0] > c.ids.userPacketEnum
                 && ClassifyHeader(c.header(bytes[0])) == DataDatagram
                 && (bytes[0] == 0xa0 || c.decodeConnected(bytes).None?))
    ensures var t := Receive(c, s, bytes, sender, now);
            && t == s.(armed := false)
            && Receive(c, t, later, laterSender, now) == t
  {
  }

  // ----- connected dispatch and the session directory -----

  /**
    A connected ping is answered with a pong echoing its time; the
    directory is untouched and no session sees the ping.
   */
  lemma ConnectedPingIsAnswered(c: Codec, s: Server, bytes: seq<byte>, sender: Endpoint, now: int, p: Inbound)
    requires Receiving(s) && IsDataDatagram(c, bytes, p) && p.message.ConnectedPing?
    ensures var t := Receive(c, s, bytes, sender, now);
            && t.sendQueue == s.sendQueue + [Item(sender, Framed(Envelope(s, ConnectedPong(p.message.sendpingtime, now), Reliable)))]
            && t.players == s.players && t.created == s.created && t.handed == s.handed
  {
  }

  /**
    A connection request gets one accepted reply, through `SendPackage`,
    which advances both counters, and leaves exactly one session at the
    sender's endpoint: a new one, unlike every session in the directory
    before. Every other entry is unchanged.
   */
  lemma ConnectionRequestReplacesSession(c: Codec, s: Server, bytes: seq<byte>, sender: Endpoint, now: int, p: Inbound)
    requires Inv(s) && Receiving(s) && IsDataDatagram(c, bytes, p) && p.message.ConnectionRequest?
    ensures var t := Receive(c, s, bytes, sender, now);
            && sender in t.players && t.players[sender] == Session(sender, s.created)
            && (forall ep :: ep in s.players ==> s.players[ep] != t.players[sender])
            && (forall ep :: ep != sender ==> (ep in t.players <==> ep in s.players))
            && (forall ep :: ep != sender && ep in s.players ==> t.players[ep] == s.players[ep])
            && t.players.Keys == s.players.Keys + {sender}
            && t.sendQueue == s.sendQueue + [Item(sender, Framed(Envelope(s, ConnectionRequestAccepted(ToInt16(sender.port), p.message.timestamp), Reliable)))]
            && t.sequenceNumber == Int32Succ(s.sequenceNumber)
            && t.reliableMessageNumber == CharSucc(s.reliableMessageNumber)
            && t.handed == s.handed
  {
    var t := Receive(c, s, bytes, sender, now);
    forall ep | ep in s.players ensures s.players[ep] != t.players[sender] {
      assert s.players[ep].serial < s.created;
    }
  }

  /**
    Open Connection Request 1, then 2, then a connection request, all from
    one endpoint: three replies queued in that order, and one session at
    that endpoint. A second connection request replaces that session: the
    directory keeps its size and the endpoint's session is a new one.
   */
  lemma HandshakeCreatesOneSession(c: Codec, s: Server, sender: Endpoint, now: int,
                                   b1: seq<byte>, mtu1: int, b2: seq<byte>, mtu2: int,
                                   b3: seq<byte>, p3: Inbound, b4: seq<byte>, p4: Inbound)
    requires Inv(s) && Receiving(s) && c.ids.Distinct()
    requires IsSystemId(c, b1) && b1[0] == c.ids.openConnectionRequest1
    requires c.createPackage(b1[0], b1) == Some(OpenConnectionRequest1(mtu1))
    requires IsSystemId(c, b2) && b2[0] == c.ids.openConnectionRequest2
    requires c.createPackage(b2[0], b2) == Some(OpenConnectionRequest2(mtu2))
    requires IsDataDatagram(c, b3, p3) && p3.message.ConnectionRequest?
    requires IsDataDatagram(c, b4, p4) && p4.message.ConnectionRequest?
    ensures var t1 := Receive(c, s, b1, sender, now);
            var t2 := Receive(c, t1, b2, sender, now);
            var t3 := Receive(c, t2, b3, sender, now);
            var t4 := Receive(c, t3, b4, sender, now);
            && t3.players == s.players[sender := Session(sender, s.created)]
            && |t3.sendQueue| == |s.sendQueue| + 3
            && t3.sendQueue[|s.sendQueue|].datagram == Raw(OpenConnectionReply1(ServerId, mtu1, 0))
            && t3.sendQueue[|s.sendQueue| + 1].datagram == Raw(OpenConnectionReply2(ServerId, ToInt16(sender.port), mtu2, 0))
            && t3.sendQueue[|s.sendQueue| + 2].datagram.Framed?
            && t3.sendQueue[|s.sendQueue| + 2].datagram.package.message.ConnectionRequestAccepted?
            && |t4.players| == |t3.players|
            && t4.players[sender] == Session(sender, s.created + 1)
            && t4.players[sender] != t3.players[sender]
  {
    var t1 := Receive(c, s, b1, sender, now);
    OpenConnectionRequest1IsAnswered(c, s, b1, sender, now, mtu1);
    var t2 := Receive(c, t1, b2, sender, now);
    OpenConnectionRequest2IsAnswered(c, t1, b2, sender, now, mtu2);
    var t3 := Receive(c, t2, b3, sender, now);
    ConnectionRequestReplacesSession(c, t2, b3, sender, now, p3);
    var t4 := Receive(c, t3, b4, sender, now);
    ConnectionRequestReplacesSession(c, t3, b4, sender, now, p4);
    assert t4.players.Keys == t3.players.Keys;
  }

  // ----- the outbound counters -----

  /** One message the server sends through `SendPackage`. */
  datatype Outbound = Outbound(to: Endpoint, message: Package, reliability: Reliability)

  /** `SendPackage` called once for each of `msgs`, in order. */
  function SendAll(s: Server, msgs: seq<Outbound>): Server
    decreases |msgs|
  {
    if msgs == [] then s
    else SendAll(SendPackage(s, msgs[0].to, msgs[0].message, msgs[0].reliability), msgs[1..])
  }

  /** The envelope the `i`-th of a run of sends starting at state `s` carries. */
  function StampedAt(s: Server, i: nat, m: Outbound): Item {
    Item(m.to, Framed(ConnectedPackage(Int32Wrap(s.sequenceNumber + i), m.reliability,
                                       (s.reliableMessageNumber + i) % 0x1_0000, m.message)))
  }

  /** Advancing both counters by one shifts every later stamp of a run by one place. */
  lemma StampedAtShift(s: Server, s1: Server, k: nat, m: Outbound)
    requires s1.sequenceNumber == Int32Succ(s.sequenceNumber)
    requires s1.reliableMessageNumber == CharSucc(s.reliableMessageNumber)
    ensures StampedAt(s1, k, m) == StampedAt(s, k + 1, m)
  {
    Int32WrapShift(s.sequenceNumber + 1, k);
    ModShift(s.reliableMessageNumber + 1, k);
  }

  /**
    A run of sends queues each message, in order, at the tail, the `i`-th
    stamped with the starting counters advanced by `i`, each in its own
    width.
   */
  lemma {:induction false} SendAllStamps(s: Server, msgs: seq<Outbound>)
    requires IsInt32(s.sequenceNumber) && IsChar(s.reliableMessageNumber)
    ensures var t := SendAll(s, msgs);
            && |t.sendQueue| == |s.sendQueue| + |msgs|
            && t.sendQueue[..|s.sendQueue|] == s.sendQueue
            && (forall i :: 0 <= i < |msgs| ==> t.sendQueue[|s.sendQueue| + i] == StampedAt(s, i, msgs[i]))
    decreases |msgs|
  {
    if msgs != [] {
      var s1 := SendPackage(s, msgs[0].to, msgs[0].message, msgs[0].reliability);
      SendAllStamps(s1, msgs[1..]);
      var t := SendAll(s1, msgs[1..]);
      assert t.sendQueue[..|s1.sendQueue|] == s1.sendQueue;
      forall i | 0 <= i < |msgs| ensures t.sendQueue[|s.sendQueue| + i] == StampedAt(s, i, msgs[i]) {
        if i == 0 {
          assert t.sendQueue[|s.sendQueue|] == s1.sendQueue[|s.sendQueue|];
        } else {
          assert t.sendQueue[|s1.sendQueue| + (i - 1)] == StampedAt(s1, i - 1, msgs[1..][i - 1]);
          StampedAtShift(s, s1, i - 1, msgs[i]);
        }
      }
      assert t.sendQueue[..|s.sendQueue|] == s1.sendQueue[..|s.sendQueue|];
    }
  }

  /**
    After a run of sends both counters are the starting ones advanced by
    the number of sends, and nothing but the queue and the counters changed.
   */
  lemma {:induction false} SendAllCounters(s: Server, msgs: seq<Outbound>)
    requires IsInt32(s.sequenceNumber) && IsChar(s.reliableMessageNumber)
    ensures var t := SendAll(s, msgs);
            && t.sequenceNumber == Int32Wrap(s.sequenceNumber + |msgs|)
            && t.reliableMessageNumber == (s.reliableMessageNumber + |msgs|) % 0x1_0000
            && t == s.(sendQueue := t.sendQueue, sequenceNumber := t.sequenceNumber,
                       reliableMessageNumber := t.reliableMessageNumber)
    decreases |msgs|
  {
    if msgs != [] {
      var s1 := SendPackage(s, msgs[0].to, msgs[0].message, msgs[0].reliability);
      SendAllCounters(s1, msgs[1..]);
      Int32WrapShift(s.sequenceNumber + 1, |msgs| - 1);
      ModShift(s.reliableMessageNumber + 1, |msgs| - 1);
    }
  }

  lemma Int32WrapShift(x: int, k: int)
    ensures Int32Wrap(Int32Wrap(x) + k) == Int32Wrap(x + k)
  {
    var w := Int32Wrap(x);
    assert (w - x) % 0x1_0000_0000 == 0;
    var q := (w - x) / 0x1_0000_0000;
    assert w + k - Int32Min == (x + k - Int32Min) + q * 0x1_0000_0000;
  }

  lemma ModShift(x: int, k: int)
    ensures (x % 0x1_0000 + k) % 0x1_0000 == (x + k) % 0x1_0000
  {
  }

  /**
    Within 2^32 consecutive sends no two envelopes carry the same sequence
    number, and within 65536 no two carry the same reliable message number
    (by `SendAllStamps`, the `i`-th send of a run carries `StampedAt(s, i, _)`).
   */
  lemma StampsAreDistinct(s: Server, i: nat, j: nat, n: nat, mi: Outbound, mj: Outbound)
    requires i < j < n
    ensures n <= 0x1_0000_0000 ==>
              StampedAt(s, i, mi).datagram.package.sequenceNumber
              != StampedAt(s, j, mj).datagram.package.sequenceNumber
    ensures n <= 0x1_0000 ==>
              StampedAt(s, i, mi).datagram.package.reliableMessageNumber
              != StampedAt(s, j, mj).datagram.package.reliableMessageNumber
  {
    if n <= 0x1_0000_0000 {
      NoRepeatBelowModulus(s.sequenceNumber - Int32Min, i, j, 0x1_0000_0000);
    }
    if n <= 0x1_0000 {
      NoRepeatBelowModulus(s.reliableMessageNumber, i, j, 0x1_0000);
    }
  }

  lemma NoRepeatBelowModulus(x: int, i: nat, j: nat, m: nat)
    requires i < j && j - i < m
    ensures (x + i) % m != (x + j) % m
  {
    var qi, qj := (x + i) / m, (x + j) / m;
    var ri, rj := (x + i) % m, (x + j) % m;
    assert x + i == m * qi + ri;
    assert x + j == m * qj + rj;
    if ri == rj {
      assert j - i == m * (qj - qi);
      MultipleOfModulus(m, qj - qi);
    }
  }

  lemma MultipleOfModulus(m: nat, k: int)
    ensures k >= 1 ==> m * k >= m
    ensures k <= 0 ==> m * k <= 0
  {
    if k >= 1 {
      assert m * k == m + m * (k - 1);
      assert m * (k - 1) >= 0;
    } else {
      assert m * k == -(m * -k);
      assert m * -k >= 0;
    }
  }

  // ----- the send pump -----

  /** `n` ticks of the pump. */
  function Ticks(s: Server, n: nat): Server
    decreases n
  {
    if n == 0 then s else Ticks(Tick(s), n - 1)
  }

  /** Each queued entry as it reaches the socket: written twice. */
  function Written(q: seq<Item>): seq<Item>
    decreases |q|
  {
    if q == [] then [] else [q[0], q[0]] + Written(q[1..])
  }

  lemma {:induction false} WrittenAppend(a: seq<Item>, b: seq<Item>)
    ensures Written(a + b) == Written(a) + Written(b)
    decreases |a|
  {
    if a != [] {
      assert (a + b)[0] == a[0];
      assert (a + b)[1..] == a[1..] + b;
      WrittenAppend(a[1..], b);
    } else {
      assert a + b == b;
    }
  }

  /**
    While the server is listening, `n` ticks write the first `n` queued
    entries in queue order and leave the rest queued in their order.
   */
  lemma {:induction false} TicksDrainInOrder(s: Server, n: nat)
    requires s.listening && n <= |s.sendQueue|
    ensures var t := Ticks(s, n);
            && t.sendQueue == s.sendQueue[n..]
            && t.wire == s.wire + Written(s.sendQueue[..n])
            && t == s.(sendQueue := t.sendQueue, wire := t.wire)
    decreases n
  {
    if n > 0 {
      var s1 := Tick(s);
      TicksDrainInOrder(s1, n - 1);
      assert s1.sendQueue[n - 1..] == s.sendQueue[n..];
      assert s.sendQueue[..n] == [s.sendQueue[0]] + s1.sendQueue[..n - 1];
      WrittenAppend([s.sendQueue[0]], s1.sendQueue[..n - 1]);
    }
  }

  /** `SendThroughQueue` for each of `items`, in order, while the pump is stalled. */
  function EnqueueAll(s: Server, items: seq<Item>): Server
    decreases |items|
  {
    if items == [] then s
    else EnqueueAll(SendThroughQueue(s, items[0].datagram, items[0].to), items[1..])
  }

  lemma {:induction false} EnqueueAllAppends(s: Server, items: seq<Item>)
    ensures EnqueueAll(s, items) == s.(sendQueue := s.sendQueue + items)
    decreases |items|
  {
    if items != [] {
      EnqueueAllAppends(SendThroughQueue(s, items[0].datagram, items[0].to), items[1..]);
      assert s.sendQueue + [items[0]] + items[1..] == s.sendQueue + items;
    }
  }

  /**
    Nothing queued is lost while the server listens: after `N` entries are
    queued behind the existing ones, as many ticks as there are entries
    write all of them, in FIFO order, and leave the queue empty.
   */
  lemma StalledQueueDrainsInOrder(s: Server, items: seq<Item>)
    requires s.listening
    ensures var q := s.sendQueue + items;
            var t := Ticks(EnqueueAll(s, items), |q|);
            && t.sendQueue == []
            && t.wire == s.wire + Written(q)
  {
    var q := s.sendQueue + items;
    EnqueueAllAppends(s, items);
    TicksDrainInOrder(EnqueueAll(s, items), |q|);
    assert q[..|q|] == q;
  }

  /** While the server is stopped, each tick still dequeues, and the entry never reaches the socket. */
  lemma {:induction false} TicksWhileStoppedLoseEntries(s: Server, n: nat)
    requires !s.listening && n <= |s.sendQueue|
    ensures var t := Ticks(s, n);
            t == s.(sendQueue := s.sendQueue[n..])
    decreases n
  {
    if n > 0 {
      TicksWhileStoppedLoseEntries(Tick(s), n - 1);
      assert Tick(s).sendQueue[n - 1..] == s.sendQueue[n..];
    }
  }

  // ----- start and stop -----

  /** Stopping twice succeeds both times and the second stop changes nothing. */
  lemma StopIsIdempotent(s: Server)
    ensures Stop(s).0 && Stop(Stop(s).1).0
    ensures Stop(Stop(s).1).1 == Stop(s).1
  {
  }

  /** Starting a started server fails and changes nothing; after a stop it can be started again. */
  lemma StartAfterStop(s: Server, setupOk: bool)
    requires s.listening
    ensures Start(s, setupOk) == (false, s)
    ensures Start(Stop(s).1, setupOk).0 == setupOk
  {
  }
}
