# MiNET transport core in Dafny

This project models the transport and dispatch logic of MiNET's
`MiNetServer` as a sequential state machine, and proves what it does.
MiNET is a game server that speaks a RakNet-derived protocol over UDP.

The state is:

- whether the server is listening;
- whether a receive is outstanding;
- the endpoint-to-player directory;
- the FIFO send queue;
- two server-wide outbound counters: the sequence number, a 32-bit `int`, and the reliable message number, a 16-bit `char`.

The operations are start and stop and the classification of a received
datagram. A system message id goes to the offline handshake: unconnected
ping, Open Connection Request 1 and 2. Any other first byte is a datagram
header: data, ACK, NAK or invalid. The other operations are connected
dispatch (`DoPlayerStuff`), the reliability envelope `SendPackage` with its
two counters, the acknowledgment `SendAck`, the send pump (enqueue, and one
dequeue per timer tick), and `ByteArrayToString`.

Files:

- `protocol.dfy` (module `Protocol`): bytes, endpoints, the decoded package kinds, the envelope and the ACK record. It also holds C# `int`/`char`/`short` arithmetic and the `Codec` the server is built with.
- `handshake.dfy` (module `Handshake`): the offline replies.
- `transport.dfy` (module `Transport`): the server state as a value (`Server`) and every operation as a function of the old state.
- `properties.dfy` (module `Properties`): the lemmas about the handshake, the acknowledgment, routing, the counters, the pump and start/stop.
- `server.dfy` (module `Network`): the class `MiNetServer`. Its fields are updated in place, and each method is proved to produce the state that the function of the same name in `Transport` gives.
- `hex.dfy` (module `HexFormat`): the text `ByteArrayToString` produces, and a parser that reads it back.

Modelling choices:

- The package classes, `PackageFactory`, `ConnectedPackage`, `DatagramHeader`, `Ack` and the `DefaultMessageIdTypes` enumeration are not part of this model. The server is given a `Codec` instead. A `Codec` holds the values of the message ids the receive path tests, including `ID_USER_PACKET_ENUM`. It also holds a total function each for the header of a first byte, for `CreatePackage` and for `ConnectedPackage.Decode`; a decode that throws is `None`. Every property holds for every codec.
- Outbound bytes are represented by the value they encode (`Datagram`): an offline package, an envelope or an ACK. Queue entries and socket writes are `(endpoint, datagram)` items. `wire` is the log of every write to the socket.
- A `Player` is a `Session(endpoint, serial)`. The serial stands for the object's identity; `created` counts sessions made so far, and no operation lowers it. So "a new `Player`" is a session whose serial is `created` at that moment, unlike the serial of every session in the directory. `handed` logs every message given to a session's `HandlePackage`. Its boolean result is ignored by the source, so the model ignores it too.
- Exceptions are modelled at the places where receiving throws because of the datagram itself: an empty datagram, a decode that throws, a failed cast in the offline switch, and the byte `0xa0` in data position. The package encoders, `new Player` and `HandlePackage` are taken not to throw (see "## Left out"). The `catch` in `ReceiveCallback` wraps the call that re-arms the receive, so after any of these the server never receives again. The model clears `armed`.

In these places the code does something other than one would expect of a server transport, and the model follows the code:

- An `UnknownPackage` from an endpoint with a session is handed to that session (`MiNetServer.cs:224-228`, then `257-260`). It is not only logged.
- A datagram that throws ends the receive cycle (see above). One would expect the cycle to continue with the next datagram; it does not.
- `_reliableMessageNumber` advances on every `SendPackage`, whatever the reliability.
- Stopping does not clear the directory. Starting does, even when the start fails.
- A pump tick while the server is stopped dequeues the head and then throws. The entry is lost (`TicksWhileStoppedLoseEntries`).
- The ACK does not go through the queue (`SendDirect`). Every direct write sends its bytes twice (`Send`, then `BeginSend`).

## Model

| member | source | states |
|---|---|---|
| `Protocol.ToInt16` | src/MiNET/MiNET.Network/MiNetServer.cs:165 | `(short) port`: a signed 16-bit value congruent to the port mod 65536 |
| `Protocol.Int32Wrap` | src/MiNET/MiNET.Network/MiNetServer.cs:16 | the 32-bit two's-complement value congruent to its argument, the identity on 32-bit values |
| `Protocol.Int32Succ` | src/MiNET/MiNET.Network/MiNetServer.cs:269 | `_sequenceNumber++` on a C# `int`: one more, except that the maximum wraps to the minimum |
| `Protocol.CharSucc` | src/MiNET/MiNET.Network/MiNetServer.cs:268 | `_reliableMessageNumber++` on a `char`: one more, except that 0xffff wraps to 0 |
| `Handshake.OfflineReply` | src/MiNET/MiNET.Network/MiNetServer.cs:122-174 | a reply exactly when the id has a case and the decoded package has that case's type (either ping id gives a pong; request 1 and 2 give reply 1 and 2). When the cast fails the result is a fault; an id with no case gives nothing. Every reply `Answers` its request: the echoed ping id or MTU size, server id 12345, the fixed server name, security 0, and for reply 2 the observed sender port |
| `Handshake.AnswerIsUnique` | src/MiNET/MiNET.Network/MiNetServer.cs:133-168 | the answer to a request is determined by the request and the sender |
| `Transport.Initial` | src/MiNET/MiNET.Network/MiNetServer.cs:16-32 | a new server is stopped with no receive outstanding. Its queue, socket log, directory and handoff log are empty, no session has been made, and both counters are zero |
| `Transport.Start` | src/MiNET/MiNET.Network/MiNetServer.cs:34-76 | false and no change when already listening. Otherwise it succeeds exactly when setup succeeds, the directory becomes empty, and the queue, counters, session count and handoff log are kept |
| `Transport.Stop` | src/MiNET/MiNET.Network/MiNetServer.cs:79-96 | always true; afterwards the server is not listening and no receive is outstanding, and everything else (directory, queue, counters, logs) is kept |
| `Transport.SendPackage` | src/MiNET/MiNET.Network/MiNetServer.cs:263-276 | appends one envelope at the queue's tail, stamped with the current sequence and reliable message numbers. Each counter then advances by one in its own width; nothing else changes |
| `Transport.SendAck` | src/MiNET/MiNET.Network/MiNetServer.cs:278-288 | writes `Ack(sequenceNumber, 1, 1)` to the sender directly on the socket, twice (`SendDirect`, 311-315); nothing else changes |
| `Transport.Tick` | src/MiNET/MiNET.Network/MiNetServer.cs:291-301 | an empty queue is a no-op. Otherwise exactly the head is removed and the rest keep their order. When listening the head is written (twice); when stopped it is lost |
| `Transport.DoPlayerStuff` | src/MiNET/MiNET.Network/MiNetServer.cs:222-261 | a connected ping gets one pong echoing `sendpingtime` via `SendPackage`. A connection request gets one accepted reply via `SendPackage`, so both counters advance, and replaces the sender's entry with a new session. Anything else goes to the sender's session if it has one and changes nothing else. Nothing is written to the socket |
| `Transport.ReplaceSession` | src/MiNET/MiNET.Network/MiNetServer.cs:251-252 | the sender's entry becomes a session whose serial is the session count, unlike every session in the directory; the count grows by one; other entries stay; the invariant is kept |
| `Transport.ClassifyHeader` | src/MiNET/MiNET.Network/MiNetServer.cs:178-207 | data exactly when valid and neither ACK nor NAK; ACK when valid and ACK; NAK when valid, NAK and not ACK; invalid otherwise |
| `Transport.Receive` | src/MiNET/MiNET.Network/MiNetServer.cs:98-220 | keeps the invariant. At most one reply is queued, at the tail, to the sender. The socket gets nothing or one ACK to the sender (written twice). Only the sender's directory entry can change, and only to a new session. The session count never decreases |
| `Properties.UnconnectedPingIsAnswered` | src/MiNET/MiNET.Network/MiNetServer.cs:124-141 | either ping id queues exactly one pong (the same ping id, 12345, the server name) to the sender; nothing else changes |
| `Properties.OpenConnectionRequest1IsAnswered` | src/MiNET/MiNET.Network/MiNetServer.cs:143-157 | queues exactly one Reply 1 (guid 12345, the client's MTU size, security 0); nothing else changes |
| `Properties.OpenConnectionRequest2IsAnswered` | src/MiNET/MiNET.Network/MiNetServer.cs:158-172 | queues exactly one Reply 2 (guid 12345, `(short)` of the observed sender port, the MTU size, security 0); nothing else changes |
| `Properties.OtherSystemIdIsIgnored` | src/MiNET/MiNET.Network/MiNetServer.cs:114-175 | a system id with no case in the switch changes nothing |
| `Properties.DataDatagramIsAcknowledged` | src/MiNET/MiNET.Network/MiNetServer.cs:179-194 | a valid, non-ACK, non-NAK datagram that is not 0xa0 gets one ACK with its sequence number, count 1 and single-sequence 1, on the socket. The ACK is written before the message is dispatched |
| `Properties.NonDataHeaderChangesNothing` | src/MiNET/MiNET.Network/MiNetServer.cs:196-207 | ACK, NAK and invalid-header datagrams leave the whole state unchanged |
| `Properties.MessageWithoutSessionIsDropped` | src/MiNET/MiNET.Network/MiNetServer.cs:257-260 | an ordinary message from an endpoint without a session is acknowledged and nothing else happens |
| `Properties.MessageWithSessionIsForwarded` | src/MiNET/MiNET.Network/MiNetServer.cs:257-260 | an ordinary message (an unknown one too) from an endpoint with a session is acknowledged and handed to that session only |
| `Properties.FaultEndsReceiveCycle` | src/MiNET/MiNET.Network/MiNetServer.cs:98-220 | an empty or undecodable datagram, a failed cast, or 0xa0 in data position sends nothing, and every later datagram is ignored |
| `Properties.ConnectedPingIsAnswered` | src/MiNET/MiNET.Network/MiNetServer.cs:230-241 | one pong echoing `sendpingtime` and stamped with the given time is queued. The directory is untouched and no session sees the ping |
| `Properties.ConnectionRequestReplacesSession` | src/MiNET/MiNET.Network/MiNetServer.cs:243-255 | one accepted reply (sender port, timestamp) is queued. Both counters advance. The sender has exactly one session, unlike every session in the directory before; all other entries are unchanged |
| `Properties.HandshakeCreatesOneSession` | src/MiNET/MiNET.Network/MiNetServer.cs:143-172 | request 1, request 2 and a connection request queue three replies in order and leave one session. A second connection request keeps the directory's size and replaces that session |
| `Properties.SendAllStamps` | src/MiNET/MiNET.Network/MiNetServer.cs:263-276 | n sends queue n envelopes in order; the i-th carries the starting sequence number + i (int32 wrap) and the reliable number + i (mod 65536) |
| `Properties.SendAllCounters` | src/MiNET/MiNET.Network/MiNetServer.cs:268-269 | after n sends the sequence number is the start + n (int32 wrap) and the reliable number the start + n (mod 65536), with nothing else but the queue changed |
| `Properties.StampsAreDistinct` | src/MiNET/MiNET.Network/MiNetServer.cs:268-269 | no sequence number repeats within 2^32 consecutive sends, and no reliable message number repeats within 65536 |
| `Properties.TicksDrainInOrder` | src/MiNET/MiNET.Network/MiNetServer.cs:291-301 | while listening, n ticks write the first n entries in queue order and keep the rest queued in order |
| `Properties.StalledQueueDrainsInOrder` | src/MiNET/MiNET.Network/MiNetServer.cs:303-309 | entries queued while the pump stalls are all written, in FIFO order, by as many ticks as there are entries |
| `Properties.TicksWhileStoppedLoseEntries` | src/MiNET/MiNET.Network/MiNetServer.cs:297-299 | while stopped, each tick removes the head and nothing reaches the socket |
| `Properties.StopIsIdempotent` | src/MiNET/MiNET.Network/MiNetServer.cs:79-96 | stopping twice returns true both times, and the second stop changes nothing |
| `Properties.StartAfterStop` | src/MiNET/MiNET.Network/MiNetServer.cs:34-36 | starting a started server returns false and changes nothing; after a stop, a start succeeds exactly when setup does |
| `HexFormat.FormattedParses` | src/MiNET/MiNET.Network/MiNetServer.cs:324-332 | the text of a byte array parses back to that byte array |
| `HexFormat.FormattedIsInjective` | src/MiNET/MiNET.Network/MiNetServer.cs:324-332 | different byte arrays never print the same |
| `Network.MiNetServer.constructor` | src/MiNET/MiNET.Network/MiNetServer.cs:29-32 | the endpoint is the given one or any address on port 19132; the codec is the one given; the state is `Initial()` |
| `Network.MiNetServer.WithPort` | src/MiNET/MiNET.Network/MiNetServer.cs:25-27 | the endpoint is any address on the given port; the codec is the one given; the state is `Initial()` |
| `Network.MiNetServer.StartServer` | src/MiNET/MiNET.Network/MiNetServer.cs:34-76 | result and new state are those of `Start` |
| `Network.MiNetServer.StopServer` | src/MiNET/MiNET.Network/MiNetServer.cs:79-96 | result and new state are those of `Stop` |
| `Network.MiNetServer.ReceiveCallback` | src/MiNET/MiNET.Network/MiNetServer.cs:98-220 | the new state is that of `Receive` |
| `Network.MiNetServer.DoPlayerStuff` | src/MiNET/MiNET.Network/MiNetServer.cs:222-261 | the new state is that of `Transport.DoPlayerStuff`; `Remove` then `Add` on the directory |
| `Network.MiNetServer.ReplacePlayer` | src/MiNET/MiNET.Network/MiNetServer.cs:251-252 | `Remove` then `Add` in place; the new state is that of `ReplaceSession` |
| `Network.MiNetServer.SendPackage` | src/MiNET/MiNET.Network/MiNetServer.cs:263-276 | the new state is that of `Transport.SendPackage`, the counters post-incremented in place |
| `Network.MiNetServer.SendAck` | src/MiNET/MiNET.Network/MiNetServer.cs:278-288 | the new state is that of `Transport.SendAck` |
| `Network.MiNetServer.SendTimerElapsed` | src/MiNET/MiNET.Network/MiNetServer.cs:291-301 | the new state is that of `Tick` |
| `Network.MiNetServer.SendThroughQueue` | src/MiNET/MiNET.Network/MiNetServer.cs:303-309 | one entry is appended at the queue's tail |
| `Network.MiNetServer.SendDirect` | src/MiNET/MiNET.Network/MiNetServer.cs:311-315 | the same datagram is written to the socket twice |
| `Network.MiNetServer.ByteArrayToString` | src/MiNET/MiNET.Network/MiNetServer.cs:324-332 | the result is `{`, then `0x` with two lower-case hex digits and a comma for each byte, then `}`; the result parses back to the input |

## Left out

- The UDP socket: binding, `BeginReceive`/`EndReceive`, `Send`/`BeginSend` and the `SIO_UDP_CONNRESET` option. A receive is a call with the bytes and the sender. A write is an append to `wire`. Whether setup succeeds is the parameter of `StartServer`.
- The send timer and the lock on the queue. The pump is an explicit sequential tick. A restarted server starts a second timer, which the model does not show.
- The wall clock: the pong time is the `nowMillis` parameter.
- The byte layouts of the packages, of `ConnectedPackage`, of `DatagramHeader` and of `Ack`, and the values of `DefaultMessageIdTypes`. These are not part of this model; they are parameters of the `Codec`.
- Transport.SendPackage: stamps the envelope with the `int` counter as it is. The conversion to the envelope's 24-bit field is in `ConnectedPackage`, which is not part of this model.
- `Level`, `StandardGenerator` and `Player`: a player is a session value, and the messages it is handed are logged. Anything a player itself sends is not modelled.
- Exceptions thrown by collaborators: each package `Encode` (`MiNetServer.cs:139`, `154`, `170`, `247`, `271`), `new Player` (`252`) and `Player.HandlePackage` (`259`) are taken to succeed. In the code a throw at any of them also ends the receive cycle, and a throw from `Encode` in `SendPackage` leaves both counters advanced with nothing queued. The model does not show those outcomes.
- `TraceReceive`, `TraceSend` and the exception logging are diagnostics, and are left out.
- `src/MiNET/MiNET/CommandHandler/BoomCommand.cs` is game-layer command handling (an explosion). It is not part of this model.
