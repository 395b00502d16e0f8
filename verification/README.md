# A verified model of the SeedLink client

This project models a SeedLink 3.x/4.0 client library in Dafny and proves what
its parts promise, from the bytes in the receive buffer up to whole runs with
any number of reconnections and process restarts. Check it with
`dafny verify dfyconfig.toml`.

## What is modelled

* **Bytes to items.** `Connections.Connection` is the receive buffer with its
  moving `start`/`end` indices, growth, in-place compaction and release. Every
  method is specified on `Stream()`: the bytes buffered plus the bytes the
  socket will still deliver. Nothing it promises mentions how the socket cuts
  its reads, so a result stated on `Stream()` is one for every chunking.
  `Protocol` and `Framing` hold the pure stream parser it refines and the wire
  form the parser inverts. The socket is a list of non-empty reads followed by
  what comes after them (`Fate`: end of file, reset, or silence), and takes a
  number of commands (`budget`).
* **Negotiation.** `Commands` holds the planner and the walk that skips rejected
  stations, `Negotiation` what is sent for every reply sequence, `Servers` a
  server that reads the command lines as text, `Subscription` what that server
  ends up holding. `Exchange` says what the send loop and the handshake make of
  the byte stream (`Converse`, `Meet`): what is sent, what is heard, what is left
  and how it ends. The connection's methods are proved to be exactly that.
  `CommandLines` reads the commands back from the bytes, `Replies` the replies
  from the texts a server writes, `Handshakes` what a server learns of the client.
* **Collecting and resuming.** `Collect` is the clock machine of the collect
  loop. `Sessions` is the client as a value: a try at connecting, the retries, a
  pass, and the histories passes add up to. `Clients.Client` is the client
  itself, every method of it proved to be exactly what `Sessions` says.
  `Delivery` is a step machine of server, network and client with one log per
  station; its theorem is about every run. `EndToEnd` proves that every step of
  the client of `Sessions` is a step of that machine, so the theorem is about
  what `collect()` hands out, from a fresh client's first connection on.
  `Outcomes` says, by the bytes offered and the clock, what becomes of every kind
  of message, when the generator ends, when it gives up and what it asks for;
  `Currency` that its clocks and the streams' times are true after any history.
  `Progress` shows that the runs get somewhere.
* **State that outlives a connection.** `Selections` has the stream list, the
  match cache and recovered state, `StateFile` the state-file format, `Restart`
  extends the delivery theorem over any number of saves, lost processes and fresh
  ones. A save is worth something for a stream that holds a number (not -1) with
  which a packet came, or which its log had reached when the process began
  (`Restart.IsResumable`). `Streams` has the selector translation and the request order, `Times` the
  comma time format, `Text` Python's splitting, joining and integer formatting.

The steps of `Delivery`: a server appends to a log, sends the next packet of a
subscribed station, sends other messages or a closing END or ERROR; bytes arrive
in any pieces; the client reads an item, saves its state, loses or gives up the
connection (drops, idle timeouts, failed heartbeats and unreadable data alike),
fails to come back, or reconnects with any server replies the negotiation
accepts. What ties a client to that world is stated in `EndToEnd.CanJoin`: a
connection offers what the server sends on it and nothing else, an item is read
once it has arrived, whoever answers a reconnection speaks the same version, and
requests fit a command line.

Whether a reply past the line limit is taken depends on how its bytes arrive.
Contracts that meet such lines count the ones taken as `luck`;
`Exchange.LuckUnneeded` says that nothing else depends on it.

## Assumptions

* The server keeps its logs, numbers each station's packets in increasing order,
  answers commands as `Servers` says, and starts a station only on an accepted
  DATA, FETCH or TIME. The agent and the credentials hold no CR or LF, and station
  IDs and selectors no white space. The timestamp that 3.x resumption adds to a
  sequence number is sent and read back, but the server model places the stream by
  number alone.
* The delivery theorem is about exact, distinct station IDs with at least one
  stream, no time window and multi-station requests. In 3.x, sequence numbers
  stay below FFFFFF: the resume number is printed without wrapping
  (`ResumeFitsSixDigits`). Streams may start with any number; that what follows
  the number is delivered first needs a number the log had reached.
* libmseed (record length, station and text of a record, start time of a packet),
  the reading of the two HELLO lines, ISO time parsing and glob matching are
  functions given from outside; nothing is assumed of them.
* Clock readings never decrease. The two readings taken after a reconnection
  count as one.

## Where code and documentation disagree

The model follows the code.

* `all_data` is documented as overriding `seqnum`
  (src/seedlink_client/streams.py:31-32, src/seedlink_client/_commands.py:363-364).
  The code lets a known `seqnum` win (src/seedlink_client/_commands.py:200-203),
  and resuming after a reconnection depends on that. `AllDataYields` is the exact
  condition, `AllDataIsOverridden` an input where the documented reading fails.
* An over-long line is refused or accepted depending on how it arrives
  (src/seedlink_client/protocol.py:376-380). `LineLimitIsExact` gives the exact
  boundary, and results that could depend on it are kept apart as `Overlong` and
  `Ambiguous`.
* A state file cannot carry the sequence number -1 or an empty timestamp
  (src/seedlink_client/state.py:46-50, 97): `EntrySurvives` is the exact condition.
* A 3.x STATION line gives the station ID back only when the ID has both a
  network and a station code: `StationNameSurvives`.

## Model

| member | source | states |
|---|---|---|
| `Delivery.ContiguousDelivery` | src/seedlink_client/client.py:398-503 | In every run, over any number of drops, idle timeouts, server errors and reconnections, and whatever number a stream starts with, the packets handed out for it are one contiguous piece of its station's log in log order: nothing skipped, repeated or reordered, although closing discards buffered bytes. If its log had reached that number the piece begins right behind it, and each stream always holds the number of its last packet. |
| `EndToEnd.CollectDelivers` | src/seedlink_client/client.py:413-503 | Any history of `collect()` passes, as `Client.Collect` promises, from any state the world can be in, with server and network moving as they like in between: the packets handed out are the world's, for each stream they are one contiguous piece of its station's log, and the streams the client is left with are the world's. |
| `EndToEnd.FirstCollectDelivers` | src/seedlink_client/client.py:132-503 | From the very start: a fresh client connects, negotiates as `collect()` opens and collects, over any reconnections; all it hands out is the world's, one contiguous piece of each station's log. |
| `EndToEnd.OpeningIsReconnect` | src/seedlink_client/client.py:132-411 | A first connection that is accepted is the world's reconnection, on the replies it heard, and leaves the client where the world is. |
| `EndToEnd.JointStep` | src/seedlink_client/client.py:431-503 | Every pass of the client, every move of server or network and every save is a run of the world, hands out the same packets and leaves the client where the world is. |
| `EndToEnd.TakingIsRead` | src/seedlink_client/client.py:472-503 | A pass that takes an item that has arrived whole is the world's read, whatever the connection will offer behind it. |
| `EndToEnd.ComingBackIsReconnect` | src/seedlink_client/client.py:398-411 | Coming back after any number of failed tries is a run of the world that ends with its reconnection, on the replies the successful try heard. |
| `EndToEnd.LinkBeginsWithData` | src/seedlink_client/client.py:389-396 | When the server's answers are followed by its data, what a connected client goes on to read begins with that data, byte for byte. |
| `EndToEnd.AttemptBeginsWithData` | src/seedlink_client/client.py:132-177 | A connection that offers greeting, handshake answers, negotiation answers and data, each byte of it fixed: the negotiation hears exactly its answers and what is left to read is exactly the data. |
| `Restart.RestartCovers` | src/seedlink_client/_base.py:440-456 | Save while a stream holds a number other than -1 (one that came with a packet, or, before any packet, one its log had reached), lose the process at any later point, load into a fresh client before or after its streams are added with any arguments, go on: the two runs together cover the log from one point on with no gap, and what is repeated is exactly what was handed out after the save. An UNSET entry promises nothing. |
| `Restart.RestartsCover` | src/seedlink_client/_base.py:440-456 | The same over any number of restarts, with any run before each save and any run between it and the loss, also when a process hands out nothing before it saves or dies: what each process hands out is a piece of the log that begins right behind what the one before had handed out when it saved. |
| `Restart.NothingMissing` | src/seedlink_client/_base.py:440-456 | Such pieces miss nothing: every entry from the first on, as far as any process reached, was handed out by one of them. |
| `Restart.OnlyUnsavedRepeats` | src/seedlink_client/_base.py:440-456 | And repeat only what was unsaved: each process hands out again exactly what the one before handed out after its save, in the same order. |
| `Delivery.ActionKeeps` | src/seedlink_client/client.py:431-503 | Every step of server, network and client keeps the invariant that ties each log, the messages under way, the bytes in flight and buffered, and the number its stream holds. |
| `Delivery.HeadOfUnread` | src/seedlink_client/client.py:350-371 | Whatever has arrived so far, a packet read from the buffer is the oldest unread message, whole, and what stays buffered and in flight is exactly the rest. |
| `Delivery.ResumePoint` | src/seedlink_client/_commands.py:371-372 | After any accepted negotiation the server starts a stream that holds a number right behind that number, in any log. |
| `Progress.ResumedPacketComes` | src/seedlink_client/client.py:398-503 | In every reachable state after a drop, a stream that holds a number can be handed the packet right behind it and nothing else: reconnect against a server that refuses nothing, then send, let it arrive in two pieces cut anywhere, and read. |
| `Progress.CanComeBack` | src/seedlink_client/client.py:375-411 | A server that refuses nothing lets every station-by-station negotiation through, in either version and with or without BATCH, and then holds a request for every stream. |
| `Connections.Connection.RecvFrame` | src/seedlink_client/client.py:350-371 | One item is a function of the byte stream alone, with exactly that item consumed; a packet with text that is not ASCII is left unread on the open connection; the buffer is back at default capacity whenever it runs empty; in 4.0 it stays below twice the longest frame, and reading a packet or END copies at most twice the bytes consumed. |
| `Connections.Connection.ReceiveAll` | src/seedlink_client/client.py:472-503 | The packets of one connection and what ends them equal the pure parser's on the whole stream, for any chunking; after a final END the buffer is empty and at default capacity; in 4.0 all bytes copied are at most twice those consumed. |
| `Connections.Connection.RecvFrameV4` | src/seedlink_client/client.py:338-348 | Decoding a frame where it lies in the buffer gives what parsing the stream gives; bounds the bytes copied and the buffer's growth. |
| `Connections.Connection.RecvFrameV3` | src/seedlink_client/client.py:333-336 | The 3.x packet at the head of the stream, or why there is none. |
| `Connections.Connection.ReadMseedPayload` | src/seedlink_client/client.py:321-331 | Peeking at growing prefixes takes exactly the record the detector finds, whatever the chunking. |
| `Connections.Connection.ClassifyNext` | src/seedlink_client/client.py:304-319 | Packet, END or ERROR by the first five bytes, consuming nothing and never waiting for a fourth byte behind a bare END. |
| `Connections.Connection.ReadLine` | src/seedlink_client/client.py:265-280 | Exactly the bytes before the first CRLF of the stream, leaving the queue just after it, however CR and LF arrive; a line is never refused for its length when its CRLF is already buffered, and always when MAX_LINE_LEN bytes without one are. |
| `Connections.Connection.Ensure` | src/seedlink_client/client.py:230-253 | At least n bytes are buffered exactly when the stream holds that many; the stream is unchanged; otherwise the error tells how it ended and only an idle timeout leaves the connection open. |
| `Connections.Connection.FillTo` | src/seedlink_client/client.py:236-253 | Every pass offers the socket room for at least one byte, so a read of zero bytes can only mean that the peer closed. |
| `Connections.Connection.PrepareRoom` | src/seedlink_client/_base.py:316-343 | Growing, compacting and releasing never change the queue; on return what is missing fits behind `end`. |
| `Connections.Connection.ResetRecvBuf` | src/seedlink_client/_base.py:308-314 | An empty buffer of default capacity. |
| `Connections.Connection.EnsureAbortable` | src/seedlink_client/aio.py:242-265 | Abandoning the asyncio fill at any await is invisible: the stream is unchanged and the queue only longer; given enough awaits it succeeds exactly when the bytes exist. |
| `Connections.Connection.ReceivePolled` | src/seedlink_client/aio.py:463-503 | Over any number of polls of any lengths, aborted or not, the packets handed out are those of the byte stream so far, and each poll that lasts a read hands one out while bytes are left: aborted polls are stutter steps. |
| `Connections.Connection.Close` | src/seedlink_client/client.py:179-194 | Disconnected, not streaming, nothing buffered, default capacity. |
| `Connections.Connection.SendCommand` | src/seedlink_client/client.py:282-300 | Sends exactly the command's bytes or nothing, and reads one line exactly when a reply is due: the next of the stream, interpreted as the command asks. |
| `CommandLines.CommandsReadBack` | src/seedlink_client/client.py:283-292 | A server that ends a command at CR, with or without LF behind it, reads from the bytes of any commands exactly their texts, in order. |
| `CommandLines.PlanEndsRight` | src/seedlink_client/_commands.py:38-62 | STATION, SELECT and DATA of 4.0 end in a bare CR, every other command of a negotiation in CRLF. |
| `CommandLines.SendableWhen` | src/seedlink_client/client.py:283-289 | A command goes out exactly when it is ASCII and, line end included, at most 4096 bytes; the two failures are told apart. |
| `CommandLines.ServedByBytes` | src/seedlink_client/client.py:389-396 | Whatever the replies and however a negotiation ends: a server that reads the bytes is served exactly the commands that were sent. |
| `CommandLines.SubscribedByBytes` | src/seedlink_client/_commands.py:337-448 | From the bytes alone, a successful station-by-station negotiation leaves the server streaming what it granted. |
| `Connections.Connection.SendPlan` | src/seedlink_client/client.py:389-396 | Exactly the conversation over the plan: the commands it sends are what the socket was handed, the stream stands behind what it hears, it fails only as the conversation does, and streaming begins exactly when it is welcomed. |
| `Connections.Connection.DoHello` | src/seedlink_client/client.py:132-147 | HELLO is sent, exactly two lines are read, and the version is what they say; it fails only when sending, hearing or reading them does. |
| `Connections.Connection.Handshake` | src/seedlink_client/client.py:167-174 | Exactly the conversation over the handshake plan; BATCH mode is on exactly when the last BATCH was answered OK. |
| `Connections.Connection.Connect` | src/seedlink_client/client.py:149-177 | Exactly the meeting the bytes of the new connection make: what is sent, how it ends, the version and BATCH mode agreed on and the bytes left; a SeedLink error leaves the client disconnected, and the buffer starts at default capacity. |
| `Handshakes.HandshakeUnderstood` | src/seedlink_client/_commands.py:304-335 | A handshake exists exactly when user and password hold no space, and a server that reads its texts knows exactly the client's settings: in 4.0 the version, agent and login, in 3.x EXTREPLY when the server offers CAP and BATCH when wanted. |
| `Handshakes.MeetingIntroduces` | src/seedlink_client/client.py:149-177 | A client that was welcomed has told the server that reads its bytes exactly its settings; it is in BATCH mode exactly when it wanted that of a 3.x server that said OK. |
| `Handshakes.LoginRefusals` | src/seedlink_client/_commands.py:79-83 | Connecting fails with the authentication error exactly when AUTH was the last thing said and its answer was no OK. |
| `Handshakes.RefusalsTold` | src/seedlink_client/_commands.py:72-83 | A refused AUTH, and nothing else, is the authentication error; a refused BATCH is nothing; any other refusal is raised with its own code and message. |
| `Exchange.ConverseIsRun` | src/seedlink_client/client.py:389-396 | A conversation is a run of the walk over the lines it hears and sends what that run sends; it starves exactly where no line can be read. |
| `Exchange.AnswersHeard` | src/seedlink_client/client.py:389-396 | With answers on the stream that make the walk accept and a connection that takes its commands, the conversation succeeds, hears exactly the answers and leaves the data behind them. |
| `Exchange.LuckUnneeded` | src/seedlink_client/protocol.py:376-380 | How the bytes arrive matters to a conversation only where a reply is past the line limit. |
| `Exchange.HandshakeHeard` | src/seedlink_client/client.py:132-177 | A greeting and a handshake accepted line by line make a connection, with the data behind them still to read. |
| `Connections.FindAgrees` | src/seedlink_client/client.py:265-280 | Searching on from one byte before the old end finds the first CRLF of the whole stream, also across compaction. |
| `Protocol.LineLimitIsExact` | src/seedlink_client/protocol.py:363-385 | No fill level makes the scanner refuse a line exactly when its text is at most MAX_LINE_LEN - 2 bytes. |
| `Protocol.LineRoundTrip` | src/seedlink_client/protocol.py:363-385 | A reply text written as a line is read back as itself, leaving what follows. |
| `Replies.VerdictReadBack` | src/seedlink_client/protocol.py:388-412 | Every reply a server can write, with or without its line end, is read as what it says: OK with its extended message, ERROR with its code and its message, on the line or behind it. |
| `Replies.OkIsFirstWord` | src/seedlink_client/protocol.py:388-412 | A line counts as OK if and only if the first word before its first CR is OK. |
| `Protocol.OthersRefused` | src/seedlink_client/protocol.py:346-360 | Bytes that begin no packet, no END and no ERROR are refused as unexpected. |
| `Protocol.LengthDetected` | src/seedlink_client/client.py:321-331 | The first of 64, 128, ... bytes, up to the limit, at which a record shows its length, gives it. |
| `Protocol.HeaderNumberIsAscii` | src/seedlink_client/protocol.py:239-255 | An accepted 3.x sequence number holds no byte that text alone would take for a space. |
| `Protocol.ParseHeaderV4` | src/seedlink_client/protocol.py:258-283 | An accepted header announces a payload of at most 16 MiB and a station ID of at most 21 bytes. |
| `Protocol.HeaderV4RoundTrip` | src/seedlink_client/protocol.py:258-283 | Parsing inverts the little-endian header of every well-formed packet. |
| `Protocol.HeaderV3RoundTrip` | src/seedlink_client/protocol.py:239-255 | Parsing inverts the six-digit hexadecimal 3.x header. |
| `Protocol.PacketRoundTrip` | src/seedlink_client/protocol.py:286-329 | Whatever follows a message, the parser returns exactly that message and leaves exactly what follows, for data and INFO packets of both versions. |
| `Framing.SessionOfMessages` | src/seedlink_client/client.py:350-371 | Messages followed by anything read as those messages, then as whatever follows. |
| `Framing.SessionOfDialup` | src/seedlink_client/client.py:350-371 | Any list of well-formed messages closed by END reads back as those messages, then END, with nothing left over. |
| `Framing.SessionOfTruncated` | src/seedlink_client/client.py:338-371 | Cut at any byte, the stream yields exactly the messages that arrived whole, then the loss of the connection: a partial packet is never data. |
| `Framing.ItemStable` | src/seedlink_client/client.py:350-371 | An item that lies whole in the bytes so far is the next item whatever bytes follow and however the connection ends, with what follows left behind it. |
| `Commands.PlanNegotiation` | src/seedlink_client/_commands.py:401-448 | The planner's loops build the three command shapes its specification describes; the lemmas below say what those mean. |
| `Commands.NegotiationWalk.ShouldSend` | src/seedlink_client/_commands.py:272-277 | SELECT and DATA are skipped exactly while the last station stands rejected; every STATION clears that. |
| `Commands.NegotiationWalk.Record` | src/seedlink_client/_commands.py:279-292 | Only a STATION reply changes the flags: OK or none counts as acceptance, anything else skips what follows. |
| `Commands.NegotiationWalk.Finish` | src/seedlink_client/_commands.py:294-296 | Fails exactly when stations were named and none was accepted. |
| `Commands.WireSelectorIdempotent` | src/seedlink_client/_commands.py:388-399 | Converting a selector to the negotiated syntax twice is converting it once, for every string and either protocol. |
| `Commands.WireSelectorSpeaks` | src/seedlink_client/_commands.py:388-399 | Whichever syntax a selector is configured in, it is requested in that of the version spoken, with location, band, source and subsource code and type suffix kept. |
| `Commands.ThreePartsOnWire` | src/seedlink_client/streams.py:135-168 | A selector of three parts asks a 3.x server for that channel at any location. |
| `Negotiation.MultiStationNegotiation` | src/seedlink_client/_commands.py:433-448 | For all replies, 3.x sends for each stream STATION and, only if that was not rejected, all its SELECTs and its DATA, FETCH or TIME, then END once; it succeeds exactly when some station was accepted. |
| `Replies.MultiStationOnVerdicts` | src/seedlink_client/_commands.py:433-448 | The same on the replies a server writes: a station told ERROR is sent nothing more, and success takes one told OK. |
| `Negotiation.StrictNegotiation` | src/seedlink_client/_commands.py:401-412 | For all replies, 4.0 sends its plan up to and including the first refused command and raises there; it succeeds exactly when every reply is OK. |
| `Replies.StrictOnVerdicts` | src/seedlink_client/_commands.py:401-412 | The same on the replies a server writes: the plan goes out whole if all are OK, else up to the command told ERROR, and that ERROR's code and message are raised. |
| `Negotiation.WalkGoesByStreamId` | src/seedlink_client/_commands.py:257-296 | For every plan and all replies the walk equals one that goes by each command's own `stream_id`: a SELECT or DATA is skipped exactly when the STATION of its stream was rejected, and with stations named every one sent follows the accepted STATION of its own stream. |
| `Servers.InStep` | src/seedlink_client/_commands.py:401-448 | For every configuration, shape, BATCH setting and reply sequence the client reads exactly as many reply lines as the server answers to what it was sent. |
| `Servers.NothingLeftUnread` | src/seedlink_client/client.py:389-396 | When the server's answers are followed by its data on the byte stream, a successful negotiation has heard every answer and not one byte of data. |
| `Subscription.Subscribed` | src/seedlink_client/_commands.py:337-448 | A successful station-by-station negotiation leaves the server streaming exactly the accepted stations in order, each with its accepted wire selectors and configured position; in 4.0 exactly the whole configuration. |
| `Subscription.SubscribedUni` | src/seedlink_client/_commands.py:414-431 | The same for 3.x uni-station mode, which succeeds for every set of SELECT replies. |
| `Subscription.AllGranted` | src/seedlink_client/_commands.py:433-448 | Without refusals, or in BATCH mode, the server holds exactly the configuration. |
| `Subscription.RequestReadBack` | src/seedlink_client/_commands.py:187-240 | Each DATA, FETCH or TIME line, read as text by the server, asks for exactly the configured resume point or window. |
| `Subscription.ResumeNamesTime` | src/seedlink_client/_commands.py:374-386 | A 3.x stream with a number and a readable timestamp asks for the packet behind the number and names that time, to the second. |
| `Subscription.AllDataYields` | src/seedlink_client/_commands.py:200-203 | A 4.0 request is for the earliest data if and only if a window is set, or `all_data` is and there is no number to resume from. |
| `Subscription.AllDataIsOverridden` | src/seedlink_client/_commands.py:363-372 | A stream with all data and number 41 asks for number 42 on: the documented precedence fails. |
| `Subscription.StationNameSurvives` | src/seedlink_client/_commands.py:152-170 | The swapped 3.x STATION line gives the station ID back if and only if the ID has a network and a station code. |
| `Subscription.WireSelectorIsWord` | src/seedlink_client/_commands.py:388-399 | A selector free of white space still is one word after conversion. |
| `Subscription.ResumeFitsSixDigits` | src/seedlink_client/_commands.py:214-223 | The 3.x resume number has at most six hexadecimal digits if and only if the last number was below FFFFFF. |
| `Subscription.ResumeIsUpperCase` | src/seedlink_client/_commands.py:221-226 | It is printed in upper-case hexadecimal. |
| `Clients.Client.MakePlan` | src/seedlink_client/client.py:382-388 | Planning from `negotiate()` never fails: the exactly-one-stream error is unreachable. |
| `Clients.Client.Connect` | src/seedlink_client/client.py:132-177 | Connecting makes the client that met the server, or was turned away and is disconnected: its connection, the bytes left to read and the bytes sent; streams and clocks stay. |
| `Clients.Client.Negotiate` | src/seedlink_client/client.py:375-396 | Streams are made ready and exactly the negotiation over their plan takes place: bytes sent, how it ends and the connection it leaves, also when it is refused or not answered with OK; streaming begins exactly when it is welcomed. |
| `Clients.Client.Retry` | src/seedlink_client/client.py:400-404 | One try at being back is exactly connecting and then negotiating, on the bytes the new connection offers: how it ends, the connection, the streams and the bytes sent. |
| `Clients.Client.ReconnectAfterDelay` | src/seedlink_client/client.py:398-411 | The retries: it is back exactly when a try succeeds, with that try's connection and streams, gives up exactly on rejected credentials or a command that is not ASCII, and waits on only when every try has failed, disconnected; what it sends is what those tries send, in order. |
| `Clients.Client.OpenPass` | src/seedlink_client/client.py:446-503 | One pass on an open connection: it polls or reads by what is buffered and readable, reads the next item of the byte stream, and leaves the whole client as the pass of `Sessions` does: connection, clocks, streams, and the bytes sent, which are INFO ID exactly when a heartbeat is due and the connection takes it, else none. |
| `Clients.Client.Collect` | src/seedlink_client/client.py:413-503 | The loop is a history from the negotiated connection on, over all the moments it is given unless its last pass ends the generator or reconnecting fails; it hands out exactly what that history gives: successive items of each connection's byte stream. However it ends, the client is left where the history leads: connection, clocks, stream numbers and every byte sent. |
| `Outcomes.EndsExactly` | src/seedlink_client/client.py:431-503 | A history ends the generator exactly with a pass that read END or bytes that cannot be decoded, and without `reconnect` also with one that found no connection, an idle one, a failed read, an ERROR line or a JSON error; it goes on over every other pass, reconnections included. |
| `Outcomes.CollectEnds` | src/seedlink_client/client.py:431-503 | `collect()` reports its end exactly when its last pass met such a thing. With `reconnect` and retries that come to something it lasts over all the moments it is given, or until it reads END or what it cannot decode. |
| `Outcomes.InfoIsConsumed` | src/seedlink_client/_base.py:276-282 | The bytes of any INFO reply (3.x INFO, XML, JSON of the INFO kind) are taken off the connection and change nothing else: nothing is handed out, streams and idle clock stay. |
| `Outcomes.DataIsYielded` | src/seedlink_client/client.py:497-503 | The bytes of any other packet but a JSON error are handed out as exactly the packet they are, restart the idle clock and move the matching streams. |
| `Outcomes.JsonErrorCloses` | src/seedlink_client/client.py:489-495 | The bytes of a JSON error close the connection and hand out nothing. |
| `Outcomes.ErrorLineCloses` | src/seedlink_client/client.py:483-488 | So do the bytes of an ERROR line. |
| `Outcomes.EndFinishes` | src/seedlink_client/client.py:480-482 | The bytes END end the streaming on an open connection. |
| `Outcomes.BarredForLogin` | src/seedlink_client/client.py:398-411 | A try stops the retries for a login exactly when AUTH was the last thing the handshake said and its answer was no OK. |
| `Outcomes.BarredForText` | src/seedlink_client/client.py:398-411 | Once connected, a negotiation stops the retries exactly when it comes to a command that is not ASCII, and then it plans one; every other failure is tried again. |
| `Outcomes.WindowIsRequested` | src/seedlink_client/_commands.py:405-440 | With a start time set, whatever numbers the streams hold, a welcomed negotiation leaves no station streaming anything but exactly that window. |
| `Outcomes.AllStationsRequested` | src/seedlink_client/_commands.py:414-431 | A client set up for all stations names none: the server streams its implicit station with the selectors it accepted, from the configured position. |
| `Sessions.OpenedIsTry` | src/seedlink_client/client.py:375-431 | Connecting and then letting `collect()` negotiate opens the connection a try at reconnecting opens, with the same streams and bytes sent, or fails the same way. |
| `Sessions.OneStream` | src/seedlink_client/client.py:431-503 | As long as the client does not reconnect, what it hands out is the data among the first packets of the one byte stream it reads, in order. |
| `Sessions.NumbersAreCurrent` | src/seedlink_client/_base.py:267-274 | After any history, over any reconnections, each stream holds the number of the last matching packet handed out, else the one it began with. |
| `Sessions.ComeBackKeepsNumbers` | src/seedlink_client/client.py:398-411 | However many tries at reconnecting it takes, every stream keeps its ID and its number. |
| `Collect.NoReadAfterExpiry` | src/seedlink_client/client.py:439-453 | In every run no item is read in a pass that begins more than the idle timeout after the last data or reconnection, however much INFO traffic there was. |
| `Collect.HeartbeatsSpaced` | src/seedlink_client/client.py:433-470 | In every run any two heartbeats are at least `keepalive` apart, also across reconnections, and the first comes no sooner after the start. |
| `Currency.IdleIsClosed` | src/seedlink_client/client.py:446-453 | A connection idle for longer than the timeout is closed whatever it offers; nothing is read, sent or handed out. |
| `Currency.HeartbeatWhenDue` | src/seedlink_client/client.py:455-470 | With nothing to read, INFO ID is sent when it is due and never else, and the next one is due a keepalive interval later. |
| `Currency.IdleClockIsTrue` | src/seedlink_client/client.py:439-499 | After any history the idle clock stands at the last data or connection. |
| `Currency.KeepaliveIsTrue` | src/seedlink_client/client.py:433-470 | After any history the next heartbeat is due exactly a keepalive interval after the last one, or the last connection. |
| `Currency.StampsAreCurrent` | src/seedlink_client/streams.py:70-84 | After any history, over any reconnections, the time a stream would save is the start of the last packet handed out for it, when that can be read, and its own while there was none. |
| `Currency.StampIsUsed` | src/seedlink_client/_commands.py:374-386 | That time is what saving writes and what 3.x resumption by number sends. |
| `Selections.Selection.StreamsMatching` | src/seedlink_client/_base.py:243-253 | Cached or not, the answer is a fresh filter of the current streams. |
| `Selections.Selection.UpdateStreamState` | src/seedlink_client/_base.py:267-274 | Exactly the matching streams move to the packet's number; a packet without a number moves none. |
| `Selections.Selection.AddStreams` | src/seedlink_client/_base.py:365-433 | Streams are appended with recovered state applied, or the call is refused and changes nothing; the cache stays coherent. |
| `Selections.Selection.SetAllStations` | src/seedlink_client/_base.py:393-413 | One `*` stream in uni-station mode, or refused without effect. |
| `Selections.Selection.EnsureDefaultStream` | src/seedlink_client/_base.py:357-363 | A default `*` stream, with recovered state, exactly when there is none. |
| `Selections.Selection.RecoverState` | src/seedlink_client/_base.py:444-456 | Loaded entries are merged over earlier ones and laid over the streams by exact ID. |
| `Selections.Selection.SaveState` | src/seedlink_client/_base.py:440-442 | Writes every stream's number and resolved timestamp. |
| `Selections.RecoverCommutes` | src/seedlink_client/_base.py:347-456 | However loads and setup calls interleave, each stream ends with the latest entry loaded for its ID, else its own arguments. |
| `Selections.RecoveredFields` | src/seedlink_client/_base.py:347-355 | Field by field: a stream whose ID was loaded has the number and the timestamp of the last entry loaded for it, any other its own; the rest is as set up. |
| `Selections.ModesHold` | src/seedlink_client/_base.py:365-413 | Whatever is called in whatever order, all-stations mode is one `*` stream in uni-station mode, and outside multi-station mode there is at most one stream. |
| `Selections.SetUpAsGiven` | src/seedlink_client/_base.py:357-433 | With nothing loaded, streams come in the order and with the arguments given, all stations are one `*` stream with the arguments given, and nothing selected is every station from the next packet on. |
| `Selections.Stream.MatchesId` | src/seedlink_client/streams.py:60-68 | The pattern cached on the stream never changes the verdict. |
| `Selections.Stream.ResolveTimestamp` | src/seedlink_client/streams.py:70-84 | The pending packet's start time is taken once; an unreadable one leaves the stored timestamp. |
| `StateFile.StateRoundTrip` | src/seedlink_client/state.py:43-102 | Loading a saved file gives exactly the last entry of each station ID, for unbounded numbers, UNSET and duplicates. |
| `StateFile.EntrySurvives` | src/seedlink_client/state.py:46-97 | An entry comes back unchanged if and only if its number is not -1 and its timestamp is not empty. |
| `StateFile.OldFileRead` | src/seedlink_client/state.py:75-102 | A file of the older format, without a header, gives the last entry of each station, `XX UNI` as `*`. |
| `StateFile.LinesSkipped` | src/seedlink_client/state.py:79-101 | Blank lines, comments and lines that lack a field or a number are skipped. |
| `StateFile.SaveState` | src/seedlink_client/state.py:43-51 | The writing loop produces the file the round trip is about. |
| `StateFile.LoadState` | src/seedlink_client/state.py:75-102 | The reading loop, for both formats and with its skips, computes the map the round trip is about. |
| `Streams.V3ThereAndBack` | src/seedlink_client/streams.py:99-168 | 3.x to 4.0 to 3.x gives the canonical 3.x selector, type suffix intact. |
| `Streams.V4ThereAndBack` | src/seedlink_client/streams.py:99-168 | 4.0 to 3.x to 4.0 is the identity on four-part selectors over alphanumerics, `?` and `*` with a location of at most two characters. |
| `Streams.V4TextStays` | src/seedlink_client/streams.py:99-132 | A converted 4.0 selector is never converted again. |
| `Streams.V3TextStays` | src/seedlink_client/streams.py:135-168 | A converted 3.x selector is never converted again. |
| `Streams.SortStreamsCorrect` | src/seedlink_client/streams.py:218-234 | The request order is a sorted, stable permutation: exact IDs, then `?`, then `*`. |
| `Streams.RequestOrder` | src/seedlink_client/streams.py:218-234 | Nothing comes behind a `*` pattern but another, nothing behind a `?` pattern but another or a `*` pattern, and IDs of a kind are in order. |
| `Streams.TextOrder` | src/seedlink_client/streams.py:218-234 | That order is the alphabetical one: the first characters that differ decide, and a text comes before its continuations. |
| `Times.CommaRoundTrip` | src/seedlink_client/time_utils.py:30-95 | Printing a time for 3.x and reading it back loses exactly the fraction of the second. |
| `Times.IsoRoundTrip` | src/seedlink_client/time_utils.py:74-84 | Every field of a time printed for 4.0 reads back, the fraction included. |
| `Times.CommaFields` | src/seedlink_client/time_utils.py:47-54 | A comma text of any number of fields is the time they give, missing ones the first of their kind, and is refused exactly when there is no such date or hour. |

## Left out

- Sockets, TLS, DNS, `select`, thread and task scheduling, sleeping and logging: the network is a list of reads and a clock value per pass.
- src/seedlink_client/mseed.py: record-length detection, station and start time are given functions.
- src/seedlink_client/cli.py and the interactive shell.
- XML and JSON decoding, and the message of a JSON error packet; only that such a packet closes the connection is kept.
- `info()` and `info_dict()`: a loop over `RecvFrame` that adds no property beyond it.
- `ping()`, `bye()` and `reconnect()`, and calling `collect()` again after END: a run ends there.
- Leaving the generator early, which closes the connection.
- `from_server_string`, `parse_hello`, `select_protocol`, `parse_streamlist` and the USERAGENT text: easy members; the reading of HELLO is a given function.
- ISO time parsing and the printing of years below 1000.
- Glob patterns: a given predicate; that the cached regular expression is compiled from the current pattern is kept.
- Non-ASCII letters and digits: `str.isalnum` and `int` are modelled on ASCII, and Python's limit of 4300 digits per integer is not.
- The temporary file, permissions and rename of `save_state`: saving is one atomic step.
- Contiguous delivery for wildcard streams: one number is shared by all stations a pattern matches (src/seedlink_client/_base.py:270-271), so it does not hold.
- Changing protocol version between the connections of one run.
- The bound on copied bytes for 3.x packets and for lines.
- A claim that `reconnect=False` always raises: a failed heartbeat ends the generator quietly (src/seedlink_client/client.py:442-444, 466-470).
- Connections.Connection.RecvFrame: an ERROR line longer than the line limit is taken or refused depending on how it arrives, so the result is one of those two there.
- Clients.Client.Collect: after a retry that came to a command that is not ASCII, or a negotiation whose reply never came whole, the contract does not say whether that connection is still open; it does say that it does not stream.
- Clients.Client.ReconnectAfterDelay: the retry loop may run forever; it is modelled over the finitely many tries the network grants.
- Delivery.ContiguousDelivery: needs `start_time` unset, because a window overrides resumption on every negotiation (src/seedlink_client/_commands.py:407-410, 439-440).
