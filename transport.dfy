/**
  The state of `MiNetServer` as one value and each of its operations as a
  function from the old state to the new one. The class in module `Network`
  keeps the same fields and proves each of its methods against the
  function here of the same name.
 */
module Transport {
  import opened Protocol
  import opened Handshake

  /** A session (a `Player`); `serial` stands for the object's identity. */
  datatype Session = Session(endpoint: Endpoint, serial: nat)

  /** A message handed to a session's `HandlePackage`. */
  datatype Handoff = Handoff(session: Session, message: Package)

  datatype Server = Server(
    listening: bool,                  // `_listener != null`
    armed: bool,                      // a `BeginReceive` is outstanding
    players: map<Endpoint, Session>,  // `_playerEndpoints`
    created: nat,                     // sessions created so far
    sendQueue: seq<Item>,             // `sendQueue`, head first
    sequenceNumber: int,              // `_sequenceNumber`, a C# `int`
    reliableMessageNumber: int,       // `_reliableMessageNumber`, a C# `char`
    wire: seq<Item>,                  // every datagram written to the socket, in order
    handed: seq<Handoff>)             // every message handed to a session, in order

  /** The facts every operation keeps. */
  ghost predicate Inv(s: Server) {
    && (s.armed ==> s.listening)
    && IsInt32(s.sequenceNumber)
    && IsChar(s.reliableMessageNumber)
    && (forall ep :: ep in s.players ==> s.players[ep].endpoint == ep && s.players[ep].serial < s.created)
    && (forall a, b :: a in s.players && b in s.players && a != b ==> s.players[a].serial != s.players[b].serial)
  }

  /** A freshly constructed server: stopped, nothing queued, both counters zero. */
  function Initial(): (s: Server)
    ensures Inv(s) && !s.listening && !s.armed && s.players == map[] && s.created == 0
    ensures s.sendQueue == [] && s.wire == [] && s.handed == []
    ensures s.sequenceNumber == 0 && s.reliableMessageNumber == 0
  {
    Server(false, false, map[], 0, [], 0, 0, [], [])
  }

  // ----- start and stop -----

  /**
    `StartServer`. `setupOk` says whether creating the level, binding the
    socket and setting its options succeed; on failure `StopServer` is
    called and the result is false. The directory is replaced by an empty
    one before any of that, so a failed start empties it too.
   */
  function Start(s: Server, setupOk: bool): (r: (bool, Server))
    ensures s.listening ==> r == (false, s)
    ensures r.0 <==> !s.listening && setupOk
    ensures r.1.listening <==> s.listening || setupOk
    ensures !s.listening ==> r.1.players == map[] && r.1.armed == setupOk
    ensures r.1.sendQueue == s.sendQueue && r.1.wire == s.wire
    ensures r.1.sequenceNumber == s.sequenceNumber && r.1.reliableMessageNumber == s.reliableMessageNumber
    ensures r.1.created == s.created && r.1.handed == s.handed
    ensures Inv(s) ==> Inv(r.1)
  {
    if s.listening then (false, s)
    else
      var s1 := s.(players := map[]);
      if setupOk then (true, s1.(listening := true, armed := true))
      else (false, s1.(armed := false))
  }

  /** `StopServer`: closes the socket, which ends the receive cycle. */
  function Stop(s: Server): (r: (bool, Server))
    ensures r.0 && !r.1.listening && !r.1.armed
    // only the socket goes: directory, queue, counters and logs are kept
    ensures r.1 == s.(listening := false, armed := false)
    ensures !s.listening && !s.armed ==> r.1 == s
    ensures Inv(s) ==> Inv(r.1)
  {
    if !s.listening then (true, s.(armed := false))
    else (true, s.(listening := false, armed := false))
  }

  // ----- sending -----

  /** `SendThroughQueue`: append one entry at the tail of the queue. */
  function SendThroughQueue(s: Server, d: Datagram, to: Endpoint): Server {
    s.(sendQueue := s.sendQueue + [Item(to, d)])
  }

  /** `SendDirect`: `Send` and then `BeginSend` write the same bytes twice. */
  function SendDirect(s: Server, d: Datagram, to: Endpoint): Server {
    s.(wire := s.wire + [Item(to, d), Item(to, d)])
  }

  /** The envelope `SendPackage` builds from the current counters. */
  function Envelope(s: Server, message: Package, reliability: Reliability): ConnectedPackage {
    ConnectedPackage(s.sequenceNumber, reliability, s.reliableMessageNumber, message)
  }

  /**
    `SendPackage`: stamp the message with both counters, advance each by
    one in its own width, and queue the envelope. Both counters belong to
    the server, not to a connection, and advance whatever the reliability.
   */
  function SendPackage(s: Server, to: Endpoint, message: Package, reliability: Reliability): (t: Server)
    ensures t.sendQueue == s.sendQueue + [Item(to, Framed(Envelope(s, message, reliability)))]
    ensures t.sequenceNumber == Int32Succ(s.sequenceNumber)
    ensures t.reliableMessageNumber == CharSucc(s.reliableMessageNumber)
    ensures t == s.(sendQueue := t.sendQueue, sequenceNumber := t.sequenceNumber,
                    reliableMessageNumber := t.reliableMessageNumber)
    ensures Inv(s) ==> Inv(t)
  {
    var s1 := s.(sequenceNumber := Int32Succ(s.sequenceNumber),
                 reliableMessageNumber := CharSucc(s.reliableMessageNumber));
    SendThroughQueue(s1, Framed(Envelope(s, message, reliability)), to)
  }

  /** The acknowledgment `SendAck` builds for one received sequence number. */
  function AckFor(sequenceNumber: int): Ack {
    Ack(sequenceNumber, 1, 1)
  }

  /** `SendAck`: the acknowledgment bypasses the queue. */
  function SendAck(s: Server, to: Endpoint, sequenceNumber: int): (t: Server)
    ensures t.wire == s.wire + [Item(to, AckFrame(AckFor(sequenceNumber))), Item(to, AckFrame(AckFor(sequenceNumber)))]
    ensures t == s.(wire := t.wire)
  {
    SendDirect(s, AckFrame(AckFor(sequenceNumber)), to)
  }

  /**
    `SendTimerElapsed`, one tick of the pump: nothing when the queue is
    empty, otherwise the head is dequeued and written. When the server is
    stopped the write dereferences a null socket and throws after the
    dequeue, so the head is lost.
   */
  function Tick(s: Server): (t: Server)
    ensures s.sendQueue == [] ==> t == s
    ensures s.sendQueue != [] ==> t.sendQueue == s.sendQueue[1..]
    ensures s.sendQueue != [] && s.listening ==>
              t.wire == s.wire + [s.sendQueue[0], s.sendQueue[0]]
    ensures !s.listening ==> t.wire == s.wire
    ensures t == s.(sendQueue := t.sendQueue, wire := t.wire)
    ensures Inv(s) ==> Inv(t)
  {
    if s.sendQueue == [] then s
    else
      var item := s.sendQueue[0];
      var s1 := s.(sendQueue := s.sendQueue[1..]);
      if s.listening then SendDirect(s1, item.datagram, item.to) else s1
  }

  // ----- connected dispatch -----

  /** The pong to a connected ping, stamped with the current time in milliseconds. */
  function PongFor(sendpingtime: int, nowMillis: int): Package {
    ConnectedPong(sendpingtime, nowMillis)
  }

  /** The accepted reply to a connection request from `sender`. */
  function AcceptedFor(sender: Endpoint, timestamp: int): Package {
    ConnectionRequestAccepted(ToInt16(sender.port), timestamp)
  }

  /**
    `_playerEndpoints.Remove(sender)` followed by `Add(sender, new Player(..))`:
    the sender's entry becomes a session unlike every session in the
    directory, and the count of sessions made grows by one.
   */
  function ReplaceSession(s: Server, sender: Endpoint): (t: Server)
    ensures t.players == s.players[sender := Session(sender, s.created)] && t.created == s.created + 1
    ensures t == s.(players := t.players, created := t.created)
    ensures Inv(s) ==> Inv(t)
  {
    s.(players := s.players[sender := Session(sender, s.created)], created := s.created + 1)
  }

  /**
    `DoPlayerStuff`: a connected ping is answered, a connection request is
    answered and replaces the sender's session by a new one, and anything
    else (an unknown package too) goes to the sender's session if there is
    one and is dropped otherwise.
   */
  function DoPlayerStuff(s: Server, m: Package, sender: Endpoint, nowMillis: int): (t: Server)
    ensures t.wire == s.wire && t.listening == s.listening && t.armed == s.armed
    ensures m.ConnectedPing? ==>
              t == SendPackage(s, sender, PongFor(m.sendpingtime, nowMillis), Reliable)
    ensures m.ConnectionRequest? ==>
              t == s.(players := s.players[sender := Session(sender, s.created)],
                      created := s.created + 1,
                      sendQueue := s.sendQueue + [Item(sender, Framed(Envelope(s, AcceptedFor(sender, m.timestamp), Reliable)))],
                      sequenceNumber := Int32Succ(s.sequenceNumber),
                      reliableMessageNumber := CharSucc(s.reliableMessageNumber))
    ensures !m.ConnectedPing? && !m.ConnectionRequest? ==>
              t == s.(handed := s.handed + (if sender in s.players then [Handoff(s.players[sender], m)] else []))
    ensures !m.ConnectionRequest? ==> t.players == s.players && t.created == s.created
    ensures m.ConnectedPing? || m.ConnectionRequest? ==> t.handed == s.handed
    ensures Inv(s) ==> Inv(t)
  {
    match m
    case ConnectedPing(sendpingtime) =>
      SendPackage(s, sender, PongFor(sendpingtime, nowMillis), Reliable)
    case ConnectionRequest(timestamp) =>
      ReplaceSession(SendPackage(s, sender, AcceptedFor(sender, timestamp), Reliable), sender)
    case _ =>
      if sender in s.players then s.(handed := s.handed + [Handoff(s.players[sender], m)])
      else s
  }

  // ----- the receive path -----

  /**
    An exception inside `ReceiveCallback` is caught, but the callback then
    never calls `BeginReceive` again: the datagram is dropped and so is
    the receive cycle.
   */
  function Dropped(s: Server): Server {
    s.(armed := false)
  }

  /** The three kinds of datagram the header check tells apart, and the rest. */
  datatype HeaderKind = DataDatagram | AckDatagram | NakDatagram | InvalidHeader

  /** The branches of the header test, taken in the order `ReceiveCallback` tests them. */
  function ClassifyHeader(h: DatagramHeader): (k: HeaderKind)
    ensures k == DataDatagram <==> h.isValid && !h.isAck && !h.isNak
    ensures k == AckDatagram <==> h.isValid && h.isAck
    ensures k == NakDatagram <==> h.isValid && h.isNak && !h.isAck
    ensures k == InvalidHeader <==> !h.isValid
  {
    if !h.isAck && !h.isNak && h.isValid then DataDatagram
    else if h.isAck && h.isValid then AckDatagram
    else if h.isNak && h.isValid then NakDatagram
    else InvalidHeader
  }

  /**
    `ReceiveCallback` for the datagram `bytes` from `sender`. A system
    message id goes to the offline handshake; any other first byte is read
    as a datagram header. Only a data datagram is acted on: it is decoded,
    acknowledged at once on the socket, and then dispatched.
   */
  function Receive(c: Codec, s: Server, bytes: seq<byte>, sender: Endpoint, nowMillis: int): (t: Server)
    ensures Inv(s) ==> Inv(t)
    ensures t.listening == s.listening && (t.armed ==> s.armed) && t.created >= s.created
    ensures !s.armed ==> t == s
    // at most one reply, queued at the tail, to the sender
    ensures |s.sendQueue| <= |t.sendQueue| <= |s.sendQueue| + 1
    ensures t.sendQueue[..|s.sendQueue|] == s.sendQueue
    ensures |t.sendQueue| > |s.sendQueue| ==> t.sendQueue[|s.sendQueue|].to == sender
    // on the socket: nothing, or one acknowledgment to the sender written twice
    ensures t.wire == s.wire || exists n :: t.wire == s.wire + [Item(sender, AckFrame(AckFor(n))), Item(sender, AckFrame(AckFor(n)))]
    // only the sender's directory entry may change
    ensures forall ep :: ep != sender ==> (ep in t.players <==> ep in s.players)
    ensures forall ep :: ep != sender && ep in s.players ==> t.players[ep] == s.players[ep]
    ensures t.players == s.players || t.players == s.players[sender := Session(sender, s.created)]
  {
    if !s.listening || !s.armed then s
    else if |bytes| == 0 then Dropped(s)
    else
      var msgId := bytes[0];
      if msgId <= c.ids.userPacketEnum then
        match c.createPackage(msgId, bytes)
        case None => Dropped(s)
        case Some(m) => (
          match OfflineReply(c.ids, msgId, m, sender)
          case Reply(reply) => SendThroughQueue(s, Raw(reply), sender)
          case NoReply => s
          case BadCast => Dropped(s))
      else
        match ClassifyHeader(c.header(msgId))
        case DataDatagram =>
          if msgId == 0xa0 then Dropped(s)
          else (
            match c.decodeConnected(bytes)
            case None => Dropped(s)
            case Some(p) => DoPlayerStuff(SendAck(s, sender, p.sequenceNumber), p.message, sender, nowMillis))
        case _ => s
  }
}
