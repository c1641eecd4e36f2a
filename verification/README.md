# acpp-network: a verified model of its byte-stream stack

acpp-network moves bytes between an application and a socket through a stack of layers: `stream`
on top, optionally `ssl::stream`, and `socket_stream` at the bottom, over one non-blocking socket and
one event loop per platform. This project models that stack from the bottom up and proves what it
is for: bytes written on one side come out on the other, once, in order, and without stalling; or,
where that is not so, exactly when it is.

`dafny verify dfyconfig.toml` checks everything. The files, bottom up:

| file | part of the library |
|---|---|
| `AsyncSocket.dfy` | the write side of `async_socket_base` on Windows, Linux and macOS |
| `PendingQueue.dfy`, `SocketStream.dfy` | `socket_stream`'s queue of bytes the socket did not take, and the socket's event handler |
| `EdgeRead.dfy` | the edge-triggered read loop of macOS |
| `ExecQueue.dfy` | `io_context::exec` |
| `BufferedWriter.dfy` | `buffered_writer` |
| `TlsRecord.dfy`, `TlsEngine.dfy` | the record layer, and the TLS session with its BIO pair, as contracts |
| `TlsSession.dfy`, `TlsSteps.dfy`, `TlsStream.dfy` | `ssl::stream`: its up-call protocol, its invariant, its methods |
| `TlsRuns.dfy` | what every event does to a TLS stream, and what holds at every moment of every run |
| `SecureDelivery.dfy` | delivery from application to application |
| `SecureClosure.dfy` | orderly closure of two connected streams |
| `SecureExchange.dfy` | request and response between two applications |
| `Layers.dfy` | how layers find each other (`chain_type`, `get_prev`) |
| `Descriptors.dfy` | ownership of file descriptors by `sync::socket_base` |
| `Bytes.dfy` | byte strings |

## How the model is built

Objects whose methods change their fields are classes, and their methods keep the source's branches
and loops. Each such method is proved against an invariant or a function of the old state; the
lemmas say what the invariant and the functions mean.

The TLS library, the kernel and the network are foreign code. They appear as operations whose
contracts leave open everything the real ones leave open: how much of a buffer `send` takes, what a
handshake emits, how much input is left in the BIO, when data arrives. Their bodies only witness that
the contracts can be met; no caller sees them. Protection of records is any pair of functions that
undo each other (`TlsRecord.Lawful`).

The layer above `ssl::stream` may call `write` and `disconnect` from inside any up-call. Its behaviour
is a `script`, the list of calls it makes in each of its next up-calls; every statement is for all
scripts. The layer below does not call back from `write`, as `socket_stream` does not.

A TLS stream's invariant (`TlsSteps.Inv`) is stated on a `Snapshot`: status, session, output handed down,
and a `Log` of history that exists for the proofs only.

## What turned out not to hold, and when it does

- `ssl::stream::write` reports the whole length in every case. The peer gets the buffer exactly when
  the session may seal records and the buffer's records fit the empty output BIO; otherwise it gets
  no byte of it. With the 5120-byte BIO and 17 bytes of expansion the limit is 5098 bytes
  (`SentWholeIffFits`, `LargestSend`).
- A record that does not fit stays torn, and `write` does not try again. What the next `write` does
  is then for OpenSSL to say, as `SSL_MODE_ACCEPT_MOVING_WRITE_BUFFER` is not set: it compares the
  address and length of the new buffer with those of the old one. Either it refuses, perhaps with a
  fatal error, after which nothing is received either; or it takes the new buffer for the old one, and
  the peer reads the old text in place of the new buffer's first bytes. Those bytes themselves are
  never sealed (`TlsStream.TlsStream.Write`, `ResealedMeaning`, `SecondWriteSendsFirst`).
- What arrives is handed up in full as long as the layer above neither disconnects nor writes what
  does not fit (`TlsSteps.Tame`, `TlsRuns.TameRun`). After its own disconnect, input may be thrown
  away; after a write that does not fit, a second one may break the session.
- `socket_stream::write` keeps the whole buffer when the socket took a part of it, and looks at the
  pending data only afterwards. It is first in, first out exactly when the socket takes nothing, or
  takes all with nothing pending (`WriteAlwaysAppendsIff`); over whole runs, of bytes that can be told
  apart, exactly when every write is answered so (`FifoIffOrderly`). The Windows socket always answers so for
  buffers of at most 10240 bytes, which TLS output respects; the sockets of Linux and macOS need
  not (`SingleOperationAppendsIff`, `KernelBufferAppendsIff`, `CutShortRepeats`, `SocketStream.Overtake`).
- `do_connect` writes its input to the BIO once. Nothing is lost exactly when the chunk fits the
  BIO; the 4096-byte reads of Linux and macOS always do, the 10240-byte reads of Windows need not
  (`TlsSteps.ConnectFed`).
- The feed loop of `on_received` counts with a signed number. If the session has ended and the BIO is
  full, `BIO_write` answers -1, the count runs down, and the loop ends because a negative count is
  large when compared with an unsigned length (`TlsStream.TlsStream.PumpOnce`).
- The side that did not close first is told nothing more once its peer has closed, not even of the
  disconnection (`TlsRuns.PeerCloseIsFinal`); the side that did is told when the peer's answer is
  there (`SecureClosure.CloseRoundTrip`).
- A stream closed in good order is connected again, and says so, by any further input
  (`TlsRuns.InputReopens`).
- If `WSASend` fails at once, its exception leaves the operation marked as in use with no completion to
  come. Nothing is sent any more, although every later write reports success
  (`SocketStream.SocketStream.WritesAfterFailure`).
- Data kept back before a POSIX socket is connected has an event coming after the first writability
  event, which is taken for the connection, exactly if the connection succeeded and `on_connected`
  writes more than the kernel has room for; else it stalls (`SocketStream.SocketStream.HandleWritable`,
  `StallBeforeConnecting`).
- `add_to_buffer` throws exactly when `reserve` allocates more than it was asked for.
- On Linux the eventfd is never read and every `exec` adds a growing number to it: the call after the
  6074000999th throws, although its task is queued and will run (`ExecQueue.TriggerOverflows`).

## Model

| member | source | states |
|---|---|---|
| `TlsRecord.DecodeSplit` | `include/acpp-network/ssl/ssl.inl:304-329` | Decoding a byte stream can stop after any byte and resume with what is left: where input is cut cannot be told from the text, the closure or the record numbers. |
| `TlsRecord.PiecesText` | `include/acpp-network/ssl/ssl.inl:304-329` | The texts of the records of a stream, taken one by one, are together its text. |
| `TlsRecord.PiecesSplit` | `include/acpp-network/ssl/ssl.inl:304-329` | Where input is cut cannot be told from the texts of the single records either. |
| `TlsRecord.DecodeEncode` | `include/acpp-network/ssl/ssl.inl:356-382` | A reader of sealed records understands what their writer meant, up to and including the first closure. |
| `TlsRecord.PiecesEncode` | `include/acpp-network/ssl/ssl.inl:356-382` | A reader of sealed records gets each of their texts by itself, up to the first closure. |
| `TlsRecord.RecordShape` | `include/acpp-network/ssl/ssl.inl:359-364` | A record at the head of any bytes is recognised whole, with its content, and the rest is untouched (sections 5.1 and 5.2 of RFC 8446). |
| `TlsRecord.TornRecord` | `include/acpp-network/ssl/ssl.inl:365-367` | No proper prefix of a record yields a byte of text. |
| `TlsRecord.FragmentsMeaning` | `include/acpp-network/ssl/ssl.inl:357-364` | The pieces a buffer is sealed in mean the buffer. |
| `TlsEngine.SslRead` | `include/acpp-network/ssl/ssl.inl:316-323` | Contract of the foreign read: one record's text, or the whole input taken in, or the end of the session, with an alert only after a fatal error. |
| `TlsEngine.SslWrite` | `include/acpp-network/ssl/ssl.inl:359-367` | Contract of the foreign write: a record sealed whole, or torn at the end of the BIO; with a record torn, refused, broken, or the torn record continued and the bytes it stands for counted as written. |
| `TlsEngine.SslHandshake` | `include/acpp-network/ssl/ssl.inl:152-190` | Contract of the foreign handshake: done, failed, or all input taken in and more wanted. |
| `TlsEngine.SslShutdown` | `include/acpp-network/ssl/ssl.inl:231-258` | Contract of the foreign shutdown: close_notify queued by the first call; a later call takes in what is no complete record, finishes on the peer's close_notify, fails on a fatal error, and may throw application data away or fail on it (section 6.1 of RFC 8446). |
| `TlsEngine.ScanDecode` | `include/acpp-network/ssl/ssl.inl:316-319` | Reading one record at a time agrees with decoding the whole stream at once. |
| `TlsEngine.LinkedFeed` | `include/acpp-network/ssl/ssl.inl:312-313` | Bytes entering the BIO extend what text handed out plus input held amounts to; after the end they change nothing. |
| `TlsEngine.LinkedRead` | `include/acpp-network/ssl/ssl.inl:316-319` | Reading moves text from what is held to what is handed out and loses none. |
| `TlsEngine.PiecesRead` | `include/acpp-network/ssl/ssl.inl:316-319` | One read takes exactly one record with a text, and leaves the rest as they were. |
| `TlsSession.OrderlyAlternates` | `include/acpp-network/ssl/ssl.inl:197-205` | In every up-call history the automaton accepts, connected and disconnected alternate starting with connected, and data lies between a connected and the next disconnected. |
| `TlsSession.HandedText` | `include/acpp-network/ssl/ssl.inl:316-319` | The data up-calls, taken one by one, are together the data handed up. |
| `TlsSession.OnlyReceived` | `include/acpp-network/ssl/ssl.inl:316-319` | While a session lasts, the up-calls are data up-calls only. |
| `TlsSession.ScriptSplit` | `include/acpp-network/ssl/ssl.inl:316-319` | What a layer above has written after m + n up-calls is what it wrote in m and then, from where its script was left, in n. |
| `TlsSession.SendFitting` | `include/acpp-network/ssl/ssl.inl:356-382` | If each record fits the empty BIO, the seal-and-drain loop puts out exactly the records of the buffer's fragments. |
| `TlsSession.FragmentsAllMeaning` | `include/acpp-network/ssl/ssl.inl:357-382` | The records of several buffers mean their concatenation. |
| `TlsSession.SendOversized` | `include/acpp-network/ssl/ssl.inl:359-382` | Otherwise it puts out one BIO-full of a torn record, from which the peer reads nothing, and the session is left with the rest. |
| `TlsSession.SentWholeIffFits` | `include/acpp-network/ssl/ssl.inl:351-389` | Whatever the state of the session, unless its last record is torn, the peer reads the buffer if and only if records may be sealed and the buffer's records fit the empty BIO, and otherwise reads nothing of it. |
| `TlsSession.SecondWriteSendsFirst` | `src/ssl/ssl.cpp:248-248` | Of two buffers of the same length that do not fit, written from the same place, the second write can be taken whole, and what the peer then reads is the first buffer. |
| `TlsSession.ResealedMeaning` | `include/acpp-network/ssl/ssl.inl:358-367` | With a record torn, the peer reads of the next buffer either nothing, or the torn record's text in place of its first bytes, with or without the rest of the buffer behind it. |
| `TlsSession.LargestSend` | `include/acpp-network/ssl/ssl.inl:74-74` | With the sizes of the context constructor the limit is 5098 bytes. |
| `TlsSteps.DrainEnds` | `include/acpp-network/ssl/ssl.inl:325-328` | When a drain loop stops the BIO is empty, everything emitted has been handed down in order, and nothing else of the stream has changed. |
| `TlsSteps.SealKeeps` | `include/acpp-network/ssl/ssl.inl:359-364` | One SSL_write, whole or torn, on a session with or without a torn record, keeps the whole invariant. |
| `TlsSteps.RetryEmits` | `include/acpp-network/ssl/ssl.inl:359-367` | Whichever way a write with a record torn is answered, what was emitted remains whole records followed by at most the part of one. |
| `TlsSteps.RetrySent` | `include/acpp-network/ssl/ssl.inl:358-382` | Once the torn record is out, the loop seals exactly the fragments of what is left of the buffer. |
| `TlsSteps.DataKeeps` | `include/acpp-network/ssl/ssl.inl:316-319` | Handing one record's text up keeps the invariant and leaves strictly less input. |
| `TlsSteps.ReadEnds` | `include/acpp-network/ssl/ssl.inl:316-323` | When a read loop stops the input BIO is drained or the session has ended, and the invariant holds. |
| `TlsSteps.HandshakeKeeps` | `include/acpp-network/ssl/ssl.inl:152-190` | Each result of the handshake leads to the status the code sets, and what is left in the BIO becomes the first record data. |
| `TlsSteps.ConnectFed` | `include/acpp-network/ssl/ssl.inl:145-151` | Handshake input is lost exactly in so far as a chunk exceeds the BIO; what the session took and the unread end, where record data starts, make up the rest of it. A handshake refused leads to closed, one unfinished or broken leaves the stream connecting. |
| `TlsSteps.ShutdownKeeps` | `include/acpp-network/ssl/ssl.inl:231-258` | Each result of SSL_shutdown keeps the invariant with the status the code sets, and leaves a working session marked as closed on this side. |
| `TlsSteps.ShutdownSays` | `include/acpp-network/ssl/ssl.inl:231-258` | The first SSL_shutdown that fits seals close_notify and answers 1 exactly if the peer's was received; a later one answers 1 once it is. |
| `TlsSteps.PumpAdvances` | `include/acpp-network/ssl/ssl.inl:311-329` | A round of the feed loop keeps its invariant: while the session reads, count and input agree and the BIO is empty at the head; and some measure falls. |
| `TlsSteps.PumpEnds` | `include/acpp-network/ssl/ssl.inl:311-311` | When the loop stops every byte of the buffer is accounted for, even if the session ended in the middle. |
| `TlsSteps.PeerCloses` | `include/acpp-network/ssl/ssl.inl:331-336` | Answering the peer's close_notify leads from connected to peer_closing and keeps the invariant. |
| `TlsStream.TlsStream.constructor` | `include/acpp-network/ssl/ssl.inl:45-80` | A new stream is closed, idle and has no history. |
| `TlsStream.TlsStream.DrainOutput` | `include/acpp-network/ssl/ssl.inl:325-328` | The drain loop empties the output BIO into the layer below and keeps the invariant. |
| `TlsStream.TlsStream.Write` | `include/acpp-network/ssl/ssl.inl:351-389` | Connected, the session and the output become what `SendAll` says. With a record torn, they become what the library's answer to the first SSL_write, `first`, settles (`Resumed`), and the sealed records grow as `Resealed` says. All output has been handed down, and the output BIO is empty; not connected, nothing happens; no up-call is made, and the full length is reported in every case. |
| `TlsStream.TlsStream.RunScript` | `include/acpp-network/ssl/ssl.inl:200-204` | In one up-call the layer above has its next list of calls carried out, whatever they are. If what it writes fits and can be sealed, exactly the fragments of the buffers written before any disconnect are, in order, and with the disconnect close_notify; with no list, or on a session that seals nothing any more, nothing is. Its calls leave what the session has not read as it was, or have it handed up. |
| `TlsSteps.UpsSplit` | `include/acpp-network/ssl/ssl.inl:316-319` | What so many up-calls seal adds up over them, as long as the layer above has not disconnected, and is no more from then on. |
| `TlsSteps.TameSeals` | `include/acpp-network/ssl/ssl.inl:316-319` | Under a layer above that never disconnects and writes only what fits, it is the records of all it wrote in them. |
| `TlsStream.TlsStream.DeliverReads` | `include/acpp-network/ssl/ssl.inl:203-205` | The read loop hands up everything readable, each record in an up-call of its own, whatever the layer above does in its up-calls, and leaves no readable input; it seals what the layer above writes in them, and close_notify if it disconnects, and nothing else (`Obeyed`), so nothing under a layer above that does nothing; a tame layer above leaves the status as it is. |
| `TlsSteps.ObeyedTransitive` | `include/acpp-network/ssl/ssl.inl:311-329` | Two stretches of reading and up-calls, one after the other, have sealed what the layer above had sealed in all their up-calls together, in order. |
| `TlsSteps.ConservesAll` | `include/acpp-network/ssl/ssl.inl:316-319` | Whatever was still to be read when reading began has been handed up when the session is left with nothing to read, record by record, also while this side waits for the peer's close_notify. |
| `TlsStream.TlsStream.Disconnect` | `include/acpp-network/ssl/ssl.inl:277-288` | Only a connected stream reacts, and without an exception: it leaves connected, seals close_notify if that fits and nothing else, hands down all output, and is closed at once exactly if the peer's close_notify was already there. |
| `TlsStream.TlsStream.DoShutdown` | `include/acpp-network/ssl/ssl.inl:219-275` | It throws exactly in a status other than closing; otherwise it keeps the invariant and ends closing, or closed with the layer above told, with all output emitted before handed down; the first call seals close_notify and nothing else; a later one seals nothing, changes nothing but the input held while no record is complete, closes exactly on the peer's close_notify, and hands up all that SSL_shutdown has left to read. |
| `TlsSteps.ShutConcludes` | `include/acpp-network/ssl/ssl.inl:231-270` | Each result of SSL_shutdown, with the loops and up-calls after it, gives the status, the up-call and the records that `ShutSays` states. |
| `TlsStream.TlsStream.DoConnect` | `include/acpp-network/ssl/ssl.inl:143-206` | It throws exactly in connected, peer_closing or closing; otherwise it makes one handshake attempt, stays connecting while that is unfinished, is closed if it was refused, enters connected once if it is done, and is idle again with its history grown by the input. What was emitted before the read loop, an alert included, has been handed down; after the tickets exactly what the layer above writes in its up-calls, if that fits, is sealed (`Greeted`). |
| `TlsStream.TlsStream.OnConnected` | `include/acpp-network/ssl/ssl.inl:134-141` | A client makes a handshake attempt, and throws exactly if it is already past the handshake; a server does nothing. |
| `TlsStream.TlsStream.OnDisconnected` | `include/acpp-network/ssl/ssl.inl:211-216` | Nothing changes. |
| `TlsStream.TlsStream.OnReceived` | `include/acpp-network/ssl/ssl.inl:290-349` | In every status it never throws, keeps the invariant, and records the input. While connected it leaves the output BIO empty, does not stay connected after the peer's close_notify, and seals, text or not, exactly what the layer above writes in the up-calls made, and close_notify if it disconnects there, if what it writes fits and can be sealed or it has nothing to say; and else the answer to the peer's close_notify (`Replied`). Without text it seals nothing but that answer, for any layer above. While closing it does what `ShutSays` states; in peer_closing it touches nothing; and with a tame layer above it throws no input away, and a connection stays connected or is closed by the peer. |
| `TlsStream.TlsStream.PumpInput` | `include/acpp-network/ssl/ssl.inl:304-347` | The connected branch terminates for every buffer length and application behaviour, with all input accounted for and all output handed down; what is sealed is what `Replied` and `Answered` state; with a tame layer above it ends connected or peer_closing, in which case a working session has answered close_notify. |
| `TlsSteps.RepliedTwice` | `include/acpp-network/ssl/ssl.inl:304-347` | Over two chunks of input the replies of the layer above add up, in order. |
| `TlsStream.TlsStream.AnswerClose` | `include/acpp-network/ssl/ssl.inl:331-341` | Exactly if the peer closed and this side did not, the stream becomes peer_closing with close_notify as its last record, handed down. |
| `TlsRuns.ReceivedIsDecoded` | `include/acpp-network/ssl/ssl.inl:290-349` | For every fragmentation, the data up-calls are the texts of the records of all input since the handshake, one up-call for each record that has one, unless input came after this side's own disconnect or a write broke the session. |
| `TlsRuns.ReceivedWhileConnected` | `include/acpp-network/ssl/ssl.inl:304-329` | So it is at every moment of a connection the peer has not closed. |
| `TlsRuns.PeerUnderstands` | `include/acpp-network/ssl/ssl.inl:290-389` | A peer given all of a stream's sealed records has handed up exactly what they mean, one by one. |
| `TlsRuns.Handle` | `include/acpp-network/ssl/ssl.inl:134-389` | What each event does to a stream at rest: input enters the history and does what its status asks for, a handshake attempt (`Tried`, `Greeted`), reading with the application's replies and the peer's close_notify answered (`Replied`, `Answered`), a shutdown, or nothing; a lower connection makes a handshake attempt; a write puts out what `SendAll` or `Resealed` says; a disconnect seals close_notify; it throws exactly when a client is told of a lower connection while in session, and then changes nothing. |
| `TlsRuns.NothingTakenBack` | `include/acpp-network/ssl/ssl.inl:290-349` | Between any two moments of any run up-calls, output and sealed records only grow, and peer_closing is never left. |
| `TlsRuns.OrderlyOnRun` | `include/acpp-network/ssl/ssl.inl:143-206` | At every moment of every run the up-calls are an orderly session, with one connected up-call per entry into connected. |
| `TlsRuns.LostIffTooLong` | `include/acpp-network/ssl/ssl.inl:145-151` | At every moment of every run no handshake input has been truncated if and only if every chunk of the handshake fits the BIO. |
| `TlsRuns.NothingLost` | `include/acpp-network/ssl/ssl.inl:145-151` | So on every run whose chunks fit the BIO none is. |
| `TlsRuns.PeerCloseIsFinal` | `include/acpp-network/ssl/ssl.inl:290-349` | From peer_closing on no event of any run changes the session, hands anything up or down, or tells of a disconnection. |
| `TlsRuns.InputReopens` | `include/acpp-network/ssl/ssl.inl:292-295` | Input to a stream closed in good order makes it connected once more. |
| `TlsRuns.NeverThrows` | `include/acpp-network/ssl/ssl.inl:168-171` | On every run whose layer below reports its connection once and before any input, no event finds an invalid state. |
| `TlsRuns.ArrivedOnRun` | `include/acpp-network/ssl/ssl.inl:290-329` | On every run, with chunks of any length, the input that counts at a moment after the handshake is the unread end of what the BIO took of the chunk that ended it, and then all chunks since, in order. |
| `TlsRuns.ReceivedOnRun` | `include/acpp-network/ssl/ssl.inl:290-349` | At every such moment the layer above has been handed exactly what that input means, record by record, if nothing came in between. |
| `TlsRuns.InputAccounted` | `include/acpp-network/ssl/ssl.inl:145-190` | On every run whose handshake chunks fit the BIO, as long as the handshake has not failed, what the session took during the handshake and what has counted as record data since are together all input of the run, in order. |
| `TlsRuns.TameRun` | `include/acpp-network/ssl/ssl.inl:290-349` | Nothing comes in between, and the stream is never closing, on a run on which nobody disconnects or writes what does not fit, neither in nor outside up-calls. |
| `TlsRuns.Run` | `include/acpp-network/ssl/ssl.inl:134-389` | Every sequence of events is such a run up to the first exception, and there is none if the events are well ordered. |
| `TlsRuns.SocketIsWellOrdered` | `src/linux/socket_base.cpp:509-577` | Whatever a Linux socket announces is well ordered, in chunks that fit the BIO. |
| `TlsRuns.SocketInput` | `src/linux/socket_base.cpp:563-569` | The bytes a socket announces are the bytes of the input they make. |
| `TlsRuns.InterleavedOrdered` | `src/linux/socket_base.cpp:509-577` | Calls of the application in between leave a run well ordered. |
| `TlsRuns.RunOverSocket` | `include/acpp-network/ssl/ssl.inl:148-171` | A stream over a Linux socket, with the application's calls anywhere in between, completes every run without an exception and without losing handshake input, and unless the handshake fails its session has been given exactly the bytes the socket announced. |
| `SecureDelivery.Send` | `include/acpp-network/ssl/ssl.inl:351-389` | Any list of messages that fit is put out as exactly the records of their fragments, which mean their concatenation. |
| `SecureDelivery.Receive` | `include/acpp-network/ssl/ssl.inl:290-349` | Any list of chunks, each an event, extends the arrived input by their concatenation; with a tame layer above none of it is thrown away, and what is sealed over all of them is what `Replied` states. |
| `SecureDelivery.EveryCut` | `include/acpp-network/ssl/ssl.inl:290-292` | Every division of a byte string into chunks is one of those the round trip ranges over. |
| `SecureDelivery.RoundTrip` | `include/acpp-network/ssl/ssl.inl:290-389` | Messages that fit, written on one side and delivered in any pieces to a connected peer whose application neither disconnects nor writes what does not fit, are handed up there exactly, in one up-call for each record sealed and not for each piece, and the two are ready for the next round; for any application they are as long as no input was thrown away and no write broke the session. |
| `SecureDelivery.Push` | `src/windows/socket_base.cpp:387-394` | Buffers of at most the operation's size, with any completions in between, keep the Windows socket stream faithful. |
| `SecureDelivery.Complete` | `src/windows/socket_base.cpp:747-755` | Nothing stalls: completions alone bring the stream to rest with every byte written on the wire, in order. |
| `SecureDelivery.DeliverOverWindows` | `include/acpp-network/stream.h:296-364` | The same from application to application: TLS output through a single overlapped operation, and any reads on the other side. |
| `SecureClosure.InStep` | `include/acpp-network/ssl/ssl.inl:304-329` | A reader that has been given all a writer has written holds no unread text, and expects the writer's next record. |
| `SecureClosure.CloseIsSeen` | `include/acpp-network/ssl/ssl.inl:331-332` | Input that ends in close_notify has set the received flag of a session at rest. |
| `SecureClosure.CloseRecord` | `include/acpp-network/ssl/ssl.inl:231-258` | A close_notify cut off anywhere is no record yet; whole, it ends the input. |
| `SecureClosure.PeerAnswers` | `include/acpp-network/ssl/ssl.inl:331-341` | Given the close_notify in any pieces and nothing else, the other side is in peer_closing with its own sealed as the only new record, and its application has been told nothing. |
| `SecureClosure.Finish` | `include/acpp-network/ssl/ssl.inl:296-299` | The answer coming back in any pieces closes the first side with the last of them, and its application is told. |
| `SecureClosure.CloseRoundTrip` | `include/acpp-network/ssl/ssl.inl:219-349` | Two connected streams that have read all of each other's output: one disconnects, the other answers, and the first is closed and its application told, however both closures are cut on the way. |
| `SecureExchange.AskedOnce` | `include/acpp-network/ssl/ssl.inl:316-319` | However a message was cut on its way, the application is called once for each of its records. |
| `SecureExchange.Responds` | `include/acpp-network/ssl/ssl.inl:304-347` | What the application then writes is sealed and handed down exactly, in order, and means the concatenation of its buffers. |
| `SecureExchange.Exchange` | `include/acpp-network/ssl/ssl.inl:290-389` | Request and response: whatever one of two connected streams in step sends, in any pieces, the other side's application is handed exactly that, and is called once for each record; what it writes from inside those up-calls is handed to the first application exactly and in order, however it is cut on the way back; and both can go on. |
| `PendingQueue.FlushKeepsLine` | `include/acpp-network/stream.h:296-305` | `on_sent` loses, repeats and reorders nothing, for every prefix the socket takes. |
| `PendingQueue.WriteAppendsIff` | `include/acpp-network/stream.h:356-364` | A write appends its buffer to the line if and only if the socket took nothing, or all of it and buffer and pending data commute. |
| `PendingQueue.WriteAlwaysAppendsIff` | `include/acpp-network/stream.h:356-364` | For all contents of given lengths this is so if and only if nothing was taken, or all of it with nothing pending. |
| `PendingQueue.CutShortRepeats` | `include/acpp-network/stream.h:358-362` | A two-byte write of which one byte was taken puts that byte in line twice. |
| `PendingQueue.TakenWholeOvertakes` | `include/acpp-network/stream.h:358-362` | A write taken whole overtakes pending data. |
| `PendingQueue.SingleOperationAppendsIff` | `src/windows/socket_base.cpp:335-394` | With one operation busy whenever data is pending, a write keeps the order if and only if the operation is busy or the buffer fits it. |
| `PendingQueue.KernelBufferAppendsIff` | `src/linux/socket_base.cpp:466-501` | With a kernel buffer, if and only if there is no room, nothing to write, or room for all and nothing pending. |
| `PendingQueue.LineLength` | `include/acpp-network/stream.h:296-305` | Over every run the bytes sent and pending exceed the bytes written by exactly the counts of the writes cut short. |
| `PendingQueue.OrderlyIsFifo` | `include/acpp-network/stream.h:356-364` | A run without harmful answers is first in, first out. |
| `PendingQueue.RunKeepsOrder` | `include/acpp-network/stream.h:296-364` | What is in line keeps its order for the rest of any run. |
| `PendingQueue.OvertakingIsNotFifo` | `include/acpp-network/stream.h:356-364` | A write that overtakes pending data breaks the order for the rest of any run of bytes that can be told apart. |
| `PendingQueue.FifoIffOrderly` | `include/acpp-network/stream.h:296-364` | Over every such run the line is first in, first out if and only if no answer was harmful. |
| `PendingQueue.RecordedFacts` | `include/acpp-network/stream.h:296-364` | A history of writes and flushes from the empty queue determines what is sent and kept back; the line is what was written and repeated besides, in order exactly if no answer was harmful. |
| `PendingQueue.CutShortIsNotFifo` | `include/acpp-network/stream.h:359-361` | One write cut short after at least a byte breaks the order for the rest of any run. |
| `AsyncSocket.AsyncSocket.SoWriteInternal` | `src/linux/socket_base.cpp:481-501` | One `send`: a prefix is taken; or nothing, with readiness armed if the kernel buffer is full, and with readiness and `writeEnabled` left alone if the send failed. |
| `AsyncSocket.AsyncSocket.SoWrite` | `src/linux/socket_base.cpp:466-479` | The loop ends with the longest prefix that fits the kernel buffer on the wire, however the kernel splits it; a short result without error leaves readiness armed. |
| `AsyncSocket.SendOnBoth` | `src/macos/socket_base.cpp:206-220` | The 20 KiB and 4 KiB chunk sizes give the same result and the same wire. |
| `AsyncSocket.AsyncSocket.InternalWrite` | `src/windows/socket_base.cpp:335-366` | The operation is in use and holds the first 10240 bytes at most; it is under way unless the send failed at once and threw. |
| `AsyncSocket.AsyncSocket.OverlappedWrite` | `src/windows/socket_base.cpp:387-394` | While an operation is in use nothing is taken and its buffer is left alone; else it takes the first 10240 bytes at most, which are then under way. |
| `AsyncSocket.AsyncSocket.Write` | `src/linux/socket_base.cpp:461-464` | On every platform the answer is the number of bytes taken, taken bytes are appended in order, and a short answer without error means an event is due. |
| `AsyncSocket.AsyncSocket.TakeWakeup` | `src/linux/socket_base.cpp:509-515` | The event before `on_sent` clears the wakeup and, for a completion, puts the operation's bytes on the wire. |
| `AsyncSocket.AsyncSocket.RoomFreed` | `src/linux/socket_base.cpp:481-491` | The kernel's buffer drains at any time, without an event. |
| `SocketStream.SocketStream.Write` | `include/acpp-network/stream.h:355-364` | The new line is the one `Apply` gives for the socket's answer; order is kept for buffers that fit the Windows operation; no write makes the stream stall; an exception of the socket leaves the line as it was. |
| `SocketStream.SocketStream.WritesAfterFailure` | `src/windows/socket_base.cpp:357-394` | After a send that failed at once, writes are kept and nothing is sent any more. |
| `SocketStream.SocketStream.OnSent` | `include/acpp-network/stream.h:296-305` | The line is unchanged, and what stays pending has an event due; exactly what fits the kernel's room, or the Windows operation, has left the queue, and the latter is what is under way. |
| `SocketStream.SocketStream.WriteCompleted` | `src/windows/socket_base.cpp:747-755` | A completion starts the next operation or leaves nothing pending, unless the next send fails at once. |
| `SocketStream.SocketStream.HandleWritable` | `src/linux/socket_base.cpp:509-543` | Writability connects once, then flushes as much as there is room for; readiness disarmed before the callback is armed again exactly if data stays pending; after the first event it is armed, and data kept back before it does not stall, if and only if the connection succeeded and the callback writes more than there is room for. |
| `SocketStream.SocketStream.HandleReadable` | `src/linux/socket_base.cpp:563-576` | All data of one receive, at most 4096 bytes, is handed up in one call, and the end of the stream is told; writes from the callback are put to the socket one after another and do not stall. |
| `SocketStream.SocketStream.HandleEvent` | `src/linux/socket_base.cpp:508-578` | Over every event connected is announced at most once and before data, and no writer stalls; on a connected socket writability flushes as much as there is room for, ahead of what the callback for the input writes; all data and the end of the stream are handed up. |
| `SocketStream.SocketStream.FlushPending` | `src/linux/socket_base.cpp:537-541` | Pending data is flushed within as many writability events as it has bytes, each of them due when the last is over. |
| `SocketStream.AllArrives` | `src/linux/socket_base.cpp:563-569` | Over every run what the application is told holds exactly the data the kernel reported, in order, and the end of the stream as often as it was reported. |
| `SocketStream.Run` | `src/linux/socket_base.cpp:508-578` | Over every run of a socket without errors, dialled or accepted, with room falling free at any time, in every reachable state pending data implies armed write readiness; the application is told exactly of what happened, and handed all data the kernel reported; and what is sent and kept back is what the queue makes of everything written, in order exactly if no answer was harmful. |
| `SocketStream.Overtake` | `include/acpp-network/stream.h:356-364` | On such a run a second write can overtake the first. |
| `SocketStream.StallBeforeConnecting` | `src/linux/socket_base.cpp:517-530` | A byte written before the connection stalls although `on_connected` writes another. |
| `EdgeRead.Reader.HandleRead` | `src/macos/socket_base.cpp:433-466` | With data arriving between any two calls, the drain ends with unread input awaited by an event. |
| `EdgeRead.Reader.AskReadEvent` | `src/macos/socket_base.cpp:151-160` | Registering again makes unread input awaited. |
| `EdgeRead.Reader.WaitForInput` | `src/macos/socket_base.cpp:402-518` | When the network is done and no event is active, every byte has been delivered in order, and the end of the stream reported. |
| `EdgeRead.Reader.Serve` | `src/macos/socket_base.cpp:467-486` | So it is for a socket that is registered only after input has arrived. |
| `ExecQueue.StepKeepsInv` | `src/macos/socket_base.cpp:386-394` | Every step of every thread keeps: executed, batch and pending make up the pushes, and pending tasks will be noticed. |
| `ExecQueue.PushedIsAsked` | `src/macos/socket_base.cpp:386-394` | In every interleaving the tasks that count as pushed are exactly those given to `exec`, in the order of the mutex. |
| `ExecQueue.ExecQueues` | `src/linux/socket_base.cpp:381-387` | At any moment a thread that is not inside `exec` can call it, whatever the loop is doing: the task is then at the end of the queue and the wakeup signalled. |
| `ExecQueue.ExecFromTaskQueues` | `src/macos/socket_base.cpp:386-394` | So can a task that is running: the mutex is not held then. |
| `ExecQueue.RunsInOrderAtMostOnce` | `src/macos/socket_base.cpp:497-506` | In every interleaving tasks run in the order in which they were given to `exec`, and at most once. |
| `ExecQueue.SleepingMeansDone` | `src/macos/socket_base.cpp:404-411` | A loop asleep with no producer between push and trigger has run every task given to `exec`. |
| `ExecQueue.EveryTaskRuns` | `src/macos/socket_base.cpp:497-506` | Once pushing stops, every schedule is bounded, and one that cannot go on has run every task. |
| `ExecQueue.OnePassRunsAll` | `src/linux/socket_base.cpp:428-439` | In every interleaving a whole pass of the loop runs all that had been pushed when it began, on either system. |
| `ExecQueue.OnePassCanRunAll` | `src/linux/socket_base.cpp:428-439` | From a signalled wait such a pass is always possible. |
| `ExecQueue.EveryTaskRunsInTime` | `src/linux/socket_base.cpp:381-439` | Once pushing stops, every task has run after a bounded number of steps of all threads, in every schedule and whether or not the wakeup is ever cleared; until then some thread can step. |
| `ExecQueue.StaysSignalled` | `src/linux/socket_base.cpp:339-347` | The Linux wakeup is never cleared. |
| `ExecQueue.TriggerOverflows` | `src/linux/socket_base.cpp:339-347` | The counter overflows exactly at the call after the 6074000999th. |
| `BufferedWriter.BufferedWriter.AddToBuffer` | `src/detail/common.h:49-61` | As much is kept as fits; it throws exactly when the capacity is not the requested one. |
| `BufferedWriter.BufferedWriter.Write` | `src/detail/common.h:29-47` | The reported prefix goes to the end of the queue, writer and buffer together; less than all only if the buffer is full. |
| `BufferedWriter.BufferedWriter.WriteBuffered` | `src/detail/common.h:63-75` | It moves a prefix of the buffer to the writer and never throws. |
| `BufferedWriter.BufferedWriter.Pump` | `src/detail/common.h:29-75` | Alternating both delivers a whole message in order in at most one round per byte. |
| `Layers.ChainAddresses` | `include/acpp-network/stream.h:16-26` | In a stack of any depth the entry of `chain_type` at a layer's index is that layer. |
| `Layers.GetPrevIsAbove` | `include/acpp-network/stream.h:30-39` | `get_prev` is the layer directly above, under its true type, and null for the top. |
| `Layers.VisitsUpwards` | `include/acpp-network/stream.h:205-210` | Forwarded data visits each layer once, in ascending order, up to the first that does not forward. |
| `Layers.ReachesTheTop` | `include/acpp-network/stream.h:205-210` | Data received at the bottom of any stack with a stream on top visits every layer, the TLS layers too, and the top. |
| `Descriptors.SocketBase.MoveFrom` | `src/linux/socket_base.cpp:66-69` | A move takes the descriptor and leaves none. |
| `Descriptors.SocketBase.Assign` | `src/linux/socket_base.cpp:76-83` | Move assignment closes the old descriptor once and keeps ownership sole; self-assignment changes nothing. |
| `Descriptors.SocketBase.Close` | `src/linux/socket_base.cpp:85-90` | The descriptor is closed if there is one, and forgotten. |
| `Descriptors.SocketBase.CreateImpl` | `src/linux/socket_base.cpp:92-96` | A descriptor is closed first if there is one, then one new one asked for and owned alone, even if the kernel reuses the number. |
| `Descriptors.Run` | `src/linux/socket_base.cpp:59-96` | Over every sequence of operations on any number of sockets, each makes the system calls and moves the descriptors it should, each open descriptor has exactly one owner, and close is called on open descriptors only. |

## Left out

- The TLS library itself and its cryptography, certificates and server names: contracts only.
- Handshake flights larger than the BIO, renegotiation and key updates: the contract of the handshake says that its output fits.
- `SslWrite`: addresses of buffers are not modelled; whether a write with a record torn counts as a repetition of the earlier one is left open, so everything is proved of both answers.
- `SslShutdown`: a close_notify that does not fit the empty output BIO, which is larger than any close_notify, stays torn.
- `DoShutdown`: text that comes while this side waits for the peer's close_notify may be thrown away by `SSL_shutdown`, or make it fail; what is left to read after the call is handed up.
- What is sealed over a whole up-call in which the layer above writes what does not fit, or when a record is torn: each single `write` is stated, and what it adds is for the library to say.
- A stack with `ssl::stream` on top, where the layer above is null.
- The system calls: steps with stated contracts. Errors of `recv` and `accept`, completions of fewer bytes than were sent, and throwing `kevent` calls do not occur.
- Writes to a POSIX socket before it is connected, beyond the statement that they may stall; listening sockets and `accept` on the asynchronous side; reads on Linux and Windows, which are one call per event.
- Other events of the loop, timers, `stop`, and several events fetched in one call.
- The mutex of `exec` as such: the sections under it are single steps. Windows' `exec`, which posts to the completion port, is the kernel's queue.
- `SoWriteInternal`: which error was met, and the `on_error` callback.
- Addresses, name resolution, the synchronous send and receive calls, logging and error texts.
- Lifetime and aliasing of callbacks and layers; descriptors given to `socket_base(int)` by a user who keeps a copy; the Windows `operator=`, which closes a socket handle as a file.
