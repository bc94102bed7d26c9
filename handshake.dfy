/**
  The offline handshake of `MiNetServer.ReceiveCallback`: the replies to an
  unconnected ping and to the two open-connection requests. It is
  stateless: a reply is built from the decoded request and the endpoint the
  datagram came from, and nothing else.
 */
module Handshake {
  import opened Protocol

  /**
    The outcome of the offline switch: a reply to queue, no case for this
    id (nothing happens), or a case whose cast of the decoded package fails
    (the C# cast throws).
   */
  datatype Offline = Reply(message: Package) | NoReply | BadCast

  /** The ids the offline switch has a case for. */
  predicate IsCaseLabel(ids: MessageIds, id: byte) {
    ids.IsPingId(id) || id == ids.openConnectionRequest1 || id == ids.openConnectionRequest2
  }

  /** The decoded package is of the type the case for `id` casts it to. */
  predicate CastSucceeds(ids: MessageIds, id: byte, m: Package) {
    || (ids.IsPingId(id) && m.UnconnectedPing?)
    || (id == ids.openConnectionRequest1 && m.OpenConnectionRequest1?)
    || (id == ids.openConnectionRequest2 && m.OpenConnectionRequest2?)
  }

  /**
    `reply` is the handshake's answer to `request` from a peer at `sender`:
    the request's own field echoed, the fixed server id, no security, and
    for the second request the port the datagram was observed to come from.
   */
  predicate Answers(request: Package, reply: Package, sender: Endpoint) {
    match request
    case UnconnectedPing(pingId) =>
      && reply.UnconnectedPong?
      && reply.pingId == pingId && reply.serverId == ServerId && reply.serverName == ServerName
    case OpenConnectionRequest1(mtuSize) =>
      && reply.OpenConnectionReply1?
      && reply.mtuSize == mtuSize && reply.serverGuid == ServerId && reply.serverHasSecurity == 0
    case OpenConnectionRequest2(mtuSize) =>
      && reply.OpenConnectionReply2?
      && reply.mtuSize == mtuSize && reply.serverGuid == ServerId && reply.doSecurity == 0
      && reply.clientUdpPort == ToInt16(sender.port)
    case _ => false
  }

  /** The switch on the message id of a datagram whose id is a system id. */
  function OfflineReply(ids: MessageIds, msgId: byte, m: Package, sender: Endpoint): (o: Offline)
    ensures o.Reply? ==> Answers(m, o.message, sender)
    ensures o.NoReply? <==> !IsCaseLabel(ids, msgId)
    ensures ids.Distinct() ==> (o.Reply? <==> CastSucceeds(ids, msgId, m))
    ensures ids.Distinct() ==> (o.BadCast? <==> IsCaseLabel(ids, msgId) && !CastSucceeds(ids, msgId, m))
  {
    if ids.IsPingId(msgId) then
      if m.UnconnectedPing? then Reply(UnconnectedPong(ServerId, m.pingId, ServerName)) else BadCast
    else if msgId == ids.openConnectionRequest1 then
      if m.OpenConnectionRequest1? then Reply(OpenConnectionReply1(ServerId, m.mtuSize, 0)) else BadCast
    else if msgId == ids.openConnectionRequest2 then
      if m.OpenConnectionRequest2? then
        Reply(OpenConnectionReply2(ServerId, ToInt16(sender.port), m.mtuSize, 0))
      else BadCast
    else
      NoReply
  }

  /** A request is answered by at most one reply: `Answers` is functional. */
  lemma AnswerIsUnique(request: Package, r1: Package, r2: Package, sender: Endpoint)
    requires Answers(request, r1, sender) && Answers(request, r2, sender)
    ensures r1 == r2
  {
  }
}
