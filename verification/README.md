# Messi: server, clients and wire format

Messi connects servers and clients by typed messages over a reliable byte stream. This
project models the C templates from which its servers and clients are generated, for one
fixed protocol, and proves what they promise: that messages arrive in order, that no byte
is lost in the output queues, that the slot lists stay intact while clients come and go,
that descriptors do not leak, and that the keep-alive timers of the two sides fit together.

The modules, from the bottom up:

- `Header`, `Framing`, `Messages`: the four-byte header, and a pure parser of streams of
  frames with its round trips.
- `Kernel`: descriptors, epoll registrations and byte streams. Every system call may
  return anything its contract allows.
- `Input`, `Output`, `Clients`, `Slots`: the parts of a client slot in memory, namely the
  reassembly machine over a slice of a shared buffer, the chain of heap items with its
  partially written head, and the three intrusive lists.
- `ServerState`: the server as a plain value. Each step is a function, and a lemma says
  that it keeps the invariant `State.Inv`.
- `Server`: the server in memory. Each method changes objects, lists and arrays in place
  and is proved against the steps of `ServerState`. `ServerRun` is any run of it.
- `ClientMachine`: the life of a client as an abstract machine. `LinuxClient` and
  `AsyncClient` are the two clients in memory; both carry the list of steps they took and
  prove that it is a run of the machine. `ClientRun` and `AsyncRun` are any runs of them.
- `Timing`: a client and a server with their timers and the messages between them, over
  real time.
- `Guarantees`: what the invariants mean to a user, including from end to end.

How to read the server's contracts: `server.s` is the value in `ServerState` that the
memory holds (`Valid` ties the two together). `Wrote(s, t, i, f)` says that frame f was
given to client_write for slot i, `Evolved` that frames were written and clients lost,
`Served` that bytes were read from one client and the application reacted, `Attended` what
an event on a socket has to do, `Lost(s, i)` that client i was moved to the pending list, and
`Cleared` that pending clients were destroyed. For every connection ever made, the invariant
keeps what the kernel has sent and received on it, the frames written to it, those that have
come completely, those that handle_message has taken, and those given to the application.
The last two grow only where handle_message takes a frame and where the message handler is
called. For the clients, `Heard` says what reading has to do, `Kept` what an expired
keep-alive timer leads to, and `Attempted` what an expired reconnect timer leads to.

Flags of the model kernel state what holds of it for a while: `calm` (reads and writes do
not fail hard), `steady` (registering and arming timers succeeds) and `obliging` (no other
system call fails). They may be false unless a contract mentions them. It also keeps a list
of the calls that have succeeded, such as starting a timer, and counts the writes that were
cut short. What the application's protocol can decode is a function given to each object.

What is assumed of the environment: buffers hold at least a header and there is at least
one slot; encoded payloads are below 2^24 bytes; memory allocation succeeds; epoll DEL
succeeds, and MOD on a registered descriptor; new descriptors are unused; other parts of
the process close only descriptors of their own; a read has to wait only when nothing is
left to be read; the application names only clients that it has been told are connected, and its
on_client_disconnected callback causes no other client to be disconnected; a Linux client
sends only while connected or not yet reported as disconnected, and is started and stopped
outside its callbacks.

Where code and documentation differ, the model follows the code, and the exact condition
under which the promise is kept is proved:

- README.rst:113-115 promises in-order delivery without qualification. The clients keep the
  bytes of an unfinished frame when they reconnect, so a client gets what the server writes
  on the new connection, whatever that is, exactly when there were none
  (`Framing.CarriedOverIffEmpty`).
- If what was left is the header of a frame too large for the buffer, the next read would
  not stay in the buffer. It stays in it exactly when no such frame has started on the
  connection or the one before (`Guarantees.NextReadFits`, `ClientRun.Reconnect`).
- messi/c_source/templates/linux/client.h:113-117 lets a client be asked to process an event
  on any descriptor. When registering or arming the keep-alive timer fails, the Linux client keeps the number of the
  closed timer. An event on that number, whoever has it now (the client's own reconnect
  timer, another part of the process, or nobody), makes a disconnection callback without a
  connection, also in a client that has no timer running. This happens exactly then
  (`LinuxClient.Process`, with `Stale`); from then on until the next start, and only then,
  the callbacks are out of turn (`Guarantees.LinuxCallbacks`). Such a misreport closes what
  has the number, and loses the running reconnect timer exactly if that is not it; so does
  `LinuxClient.Stop` close what has the number, exactly when one is left. In no other case
  does the client close a descriptor that is not its own. `LinuxClient.StaleNumberTaken`
  and `ClientMachine.FirstMisreport` give the inputs.
- When the reconnect timer cannot be started, the Linux client keeps it, and waits for a timer
  that does not run (`LinuxClient.StartReconnectTimer`; messi/c_source/templates/linux/client.c,
  start_reconnect_timer).
- When a write fails while the server drains a queue, the items of the whole chain are
  freed, also those that had been freed after they were written
  (`Server.ProcessClientSocketOut`), and the queue keeps pointing to the freed rest. A frame
  written to the client before its disconnection is announced is put on that chain, and its
  item is never freed (`Server.ClientWrite`). Over any run, every item is freed once or still
  queued exactly as long as neither has happened (`Guarantees.ItemsReleased`).

## Model

| member | source | states |
|---|---|---|
| Header.GetSizeOfSizeBytes | lib/include/messi.h:62-75 | Reading back a stored payload size gives it modulo 2^24, so it survives exactly when it is below 2^24. |
| Header.SizeBytesOfGetSize | lib/include/messi.h:62-75 | Storing a size that was read gives back the same three bytes. |
| Header.SetSize | lib/include/messi.h:62-68 | Writes the three size bytes in place and leaves the type and everything behind the header alone. |
| Framing.OnTheWire | README.rst:193-212 | The bytes of a frame: the type, the payload size in three bytes with the most significant first, and the payload; a ping is 3 0 0 0 and a pong 4 0 0 0. |
| Framing.ParseAppend | README.rst:185-212 | Parsing can stop anywhere and resume on the unparsed rest, so the frames do not depend on how the stream is cut into reads. |
| Framing.ParseOfEncodeAll | README.rst:185-212 | Round trip of any list of frames: all frames up to the first that does not fit the receiver's buffer come back, and if none is too large nothing is left over. |
| Framing.FrameSurvivesIffBelowLimit | lib/include/messi.h:62-75 | A frame comes back as sent from a large enough buffer exactly when its payload is below 2^24 bytes. |
| Framing.DeliveredArePrefix | README.rst:113-115 | Whatever part of a stream of frames has arrived, the frames dispatched are a prefix of those sent. |
| Framing.CarriedOverIffEmpty | messi/c_source/templates/linux/client.c:222-225 | A client that starts on a new connection with bytes of an old one in its buffer gets the frames that the server writes, for every list of user messages and pongs, exactly when there are no such bytes. |
| Input.Input.Advance | messi/c_source/templates/linux/server.c:502-526 | After n more bytes the machine asks for exactly what is missing of the frame, has the whole frame, or has the header of one that does not fit, in agreement with the pure parser. |
| Input.Input.Receive | messi/c_source/templates/linux/server.c:485-513 | One read goes into the slice behind the unfinished frame, never past the slice, and is accounted for as in Advance. |
| Output.OutputQueue.Append | messi/c_source/templates/linux/server.c:295-321 | A new item with its own copy of the bytes is put at the end of the chain; the queued bytes grow by exactly these. The item is on the books as live, or as leaked if the chain had been freed. |
| Output.OutputQueue.Drain | messi/c_source/templates/linux/server.c:440-467 | The bytes written and the bytes left in the items are the queue as it was; exactly the items written completely are freed, in order; the drain stops only when the queue is empty, a write has to wait, or a write fails. |
| Output.OutputQueue.Free | messi/c_source/templates/linux/server.c:210-223 | Every item in the chain is freed, those that had been freed once more; the queue is empty and no item is live. |
| Output.FreedOnceIff | messi/c_source/templates/linux/server.c:449-469 | From the books of a queue: every item ever allocated is live or freed, and once, exactly if none was freed again or leaked; one was freed twice exactly if one was freed again. |
| Slots.ClientLists.constructor | messi/c_source/templates/linux/server.c:642-656 | All slots are on the free list, in pool order. |
| Slots.RemoveFromList | messi/c_source/templates/linux/server.c:63-75 | Unlinks a client from a list: the pointers are those of the list without it. |
| Slots.Lists.MovedOk | messi/c_source/templates/linux/server.c:99-109 | Moving a client from the connected to the pending list keeps every slot on exactly one list, all lists nil-terminated, and the back links right. |
| Slots.Lists.FreedPendingOk | messi/c_source/templates/linux/server.c:88-97 | The same for freeing the first pending client, whose list has no back links. |
| Slots.ClientLists.AllocClient | messi/c_source/templates/linux/server.c:40-61 | Takes the first free slot, if any, to the front of the connected list. |
| Slots.ClientLists.MoveToPendingDisconnect | messi/c_source/templates/linux/server.c:99-109 | Moves a connected client, wherever it is on its list, to the front of the pending list. |
| Slots.ClientLists.ListsInMemory | messi/c_source/templates/linux/server.c:40-109 | Following the pointers from the three heads visits every slot exactly once altogether and ends; each connected client but the first has its predecessor as back link. |
| ServerState.LostInv | messi/c_source/templates/linux/server.c:225-237 | Losing a client keeps the whole invariant: lists, descriptors, epoll interest, byte logs, reassembly state, callback traces. |
| ServerState.JoinedInv | messi/c_source/templates/linux/server.c:239-293 | So does accepting one; a fresh connection is in order from the start. |
| ServerState.BouncedInv | messi/c_source/templates/linux/server.c:272-289 | So does freeing the slot of a client whose set-up failed. |
| ServerState.DestroyedInv | messi/c_source/templates/linux/server.c:193-208 | So does destroying the first pending client. |
| ServerState.ReceivedInv | messi/c_source/templates/linux/server.c:485-526 | So does reading: the frames that have come completely stay those that the pure parser finds in all bytes received. |
| Server.Server.constructor | messi/c_source/templates/linux/server.c:592-669 | The slots share one buffer, cut into slices of client_input_size bytes; all slots are free. |
| Server.Server.SlicesApart | messi/c_source/templates/linux/server.c:646-654 | The slices of two clients do not overlap. |
| Server.Server.Start | messi/c_source/templates/linux/server.c:671-743 | Either the listener was set up by the four calls it needs, is open and registered, and nothing else is different, or nothing has changed. |
| Server.Server.ClientPendingDisconnect | messi/c_source/templates/linux/server.c:225-237 | A connected client becomes pending, its socket is closed and its queue dropped; a pending client is left alone. |
| Server.Server.ClientWrite | messi/c_source/templates/linux/server.c:323-355 | The frame is added to what was written to the client, in order; it is sent, queued, or the client is lost, and no other connection is touched. If nothing was queued it is queued only if a write had to wait, and it is lost only if one failed. No item is freed again, and one is leaked exactly when it is put on the chain of a client that was lost. |
| Server.Server.ProcessClientSocketOut | messi/c_source/templates/linux/server.c:440-474 | As much of the queue is written as the socket takes; the new state and the items freed are stated in full, also after a failed write: then exactly those that the drain had written completely are freed again. |
| Server.Server.ProcessClientSocketIn | messi/c_source/templates/linux/server.c:476-528 | All that has arrived is read, unless the client is lost, and every complete frame from a client that stays connected has been dealt with by handle_message. The client's timer is started once more for each ping taken. As long as no system call fails, the client is lost only for a frame that is too large or not acceptable, or because the application disconnects it. |
| Server.Server.HandleMessage | messi/c_source/templates/linux/server.c:397-438 | A user message is taken exactly if it can be decoded, and then given to the application, with its sender as the current client; a ping is taken unless its timer cannot be started, which is started again and followed by one pong; anything else is rejected. What is taken is added to the frames handled, and nothing else is changed when a frame is rejected. |
| Server.Server.OnMessage | messi/c_source/templates/linux/server.c:382-391 | The message is added to those given to the application for the connection of the current client, and the application reacts. |
| Server.Server.Send | messi/c_source/templates/linux/server.c:789-802 | The encoded message is given to client_write, or nothing happens if it cannot be encoded. |
| Server.Server.Reply | messi/c_source/templates/linux/server.c:804-809 | The same for the client whose message is being handled, if any. |
| Server.Server.Broadcast | messi/c_source/templates/linux/server.c:811-832 | The frame is given to client_write for exactly the clients that were connected at entry, once each and in list order, although a failing write unlinks the client at hand. |
| Server.Server.Disconnect | messi/c_source/templates/linux/server.c:834-848 | The named client, or the current one, is lost if it is connected; nothing else changes. |
| Server.Server.ProcessListener | messi/c_source/templates/linux/server.c:239-293 | Either one new client is connected and announced, with its socket prepared and its timer started, or no client was added and nothing is left open; the former if a slot is free and no system call fails. |
| Server.Server.DestroyPendingDisconnectClients | messi/c_source/templates/linux/server.c:193-208 | Nobody is left pending, and whoever was is announced as disconnected once and its slot freed. |
| Server.Server.Process | messi/c_source/templates/linux/server.c:764-787 | An event loses the client whose timer it is for, brings a client from the listener, or serves the client whose socket it is for: with room, what was queued at entry is sent or a write has to wait; with something to read, all of it is read as in ProcessClientSocketIn; with neither, nothing happens. Then the pending clients are destroyed. The listener of a started server stays open and registered. |
| ServerRun.Run | messi/c_source/templates/linux/server.c:764-848 | In every run of events and calls, each takes a step from one state to the next, the invariant holds throughout, and after every event nobody is pending. Callback traces, and what is written, sent, received, handled and delivered per connection, only grow; a client that stays connected keeps its socket, and its unfinished frame while no event is for that socket. A started server keeps its listener, open and registered. |
| Guarantees.DescriptorsInUse | messi/c_source/templates/linux/server.c:126-293 | Between calls the open descriptors and the epoll set are exactly the listener of a server that was started, both descriptors of each connected client and the timer of each pending one; each has one use, and none was closed twice. |
| Guarantees.OpenDescriptors | messi/c_source/templates/linux/server.c:126-293 | The same of the kernel and the server in memory; once started, listener_fd is open as the listener and registered. |
| Guarantees.BytesConserved | messi/c_source/templates/linux/server.c:295-355 | For a connected client, the bytes the socket took followed by those of the queued items are the frames given to client_write since it was accepted; EPOLLOUT is asked for exactly while the queue is not empty. |
| Guarantees.AllDealtWith | messi/c_source/templates/linux/server.c:357-420 | In every state between calls and for every connection there ever was: the frames that have come completely were taken in order, but for a last one that was rejected, and without exception for a connected client; only acceptable ones were taken; each ping was answered by exactly one pong, and no other pongs were written; and the application was given exactly the user messages, in order. |
| Guarantees.Reassembled | messi/c_source/templates/linux/server.c:476-528 | For a connected client, the frames handled are those a pure parser finds in all bytes received, and its slice holds the unparsed rest with room for the read that completes it. |
| Guarantees.ItemsReleased | messi/c_source/templates/linux/server.c:210-474 | In every state between calls, the items of a slot that are not freed are those queued while it is connected, and none otherwise; every item ever allocated for it is one of these or was freed once, exactly if no drain failed after writing an item and nothing was put on a chain that had been freed. |
| Guarantees.BroadcastReaches | messi/c_source/templates/linux/server.c:811-832 | After a broadcast each client that was connected is pending or has the frame behind everything written to it before; a pending one got nothing. |
| Guarantees.CallbacksOfProcess | messi/c_source/templates/linux/server.c:764-787 | What one call of process does to a slot's callbacks, case by case; the trace of every slot alternates, and a slot whose set-up failed is not announced. |
| Guarantees.OthersUntouched | messi/c_source/templates/linux/server.c:486-499 | One event on another descriptor changes neither a client's unfinished frame nor what was handled or received for it. |
| Guarantees.ProcessHistory | messi/c_source/templates/linux/server.c:764-787 | One event only adds to what was written to, handled from and received on each connection and to each slot's callbacks; a client connected after it is new, or was connected before by the same socket and, unless the event was for that socket, has the same unfinished frame, handled frames and received bytes. |
| Guarantees.ConnectedFacts | messi/c_source/templates/linux/server.c:313-355 | In every state between calls, for a connected client: bytes sent and queued are the frames written to it, writability is asked for exactly while something is queued, and the frames handled are those in the bytes received. |
| Guarantees.ToClientInOrder | README.rst:113-115 | In all states of server and client, the client has handled a prefix of the frames that the server was given for the connection, and its application was given a prefix of the messages among them that it can decode, if it was made with an empty reassembly buffer. |
| Guarantees.ToServerInOrder | messi/c_source/templates/linux/client.c:471-498 | The server has handled a prefix of the user messages and pings that the client attempted to write on the connection, and its application was given a prefix of the user messages. |
| Guarantees.ArrivedAreHandled | README.rst:105-115 | Once the bytes of the first n frames have arrived, these have been handled and the messages among them given to the application, provided each fits the client's buffer. |
| Guarantees.AllDelivered | README.rst:105-115 | When nothing is queued and all that was sent has arrived, the client has handled every frame and given every message to its application that can be decoded, provided each frame fits its buffer. |
| Guarantees.LinuxInOrder | README.rst:113-115 | Both directions between the server and the Linux client in memory, up to the applications. |
| Guarantees.AsyncInOrder | README.rst:113-115 | Both directions between the server and the async client in memory, up to the applications. |
| ClientMachine.TraceIsExpected | messi/c_source/templates/linux/client.c:454-469 | The callbacks are one per connection made and one per connection given up, with the first reason raised on it, exactly as long as there was no misreport. |
| ClientMachine.CallbacksAlternate | messi/c_source/templates/async/client.c:39-60 | The callbacks since start are a prefix of on_connected and on_disconnected in turn, exactly as long as there was no misreport. |
| LinuxClient.LinuxClient.PendingDisconnect | messi/c_source/templates/linux/client.c:62-73 | The first call closes the socket and records the reason; later calls do nothing. |
| LinuxClient.LinuxClient.Send | messi/c_source/templates/linux/client.c:471-498 | The frame is written completely, or the connection is given up: exactly if the message cannot be encoded or the write was cut short, and with the reason that applies. What was attempted grows by the frame. |
| LinuxClient.LinuxClient.HandleMessage | messi/c_source/templates/linux/client.c:75-128 | The frame is added to those handled; a user message is given to the application exactly if it can be decoded, and otherwise the connection is given up; a pong is noted; anything else is ignored. |
| LinuxClient.LinuxClient.ProcessSocket | messi/c_source/templates/linux/client.c:181-227 | All that has arrived is read and dealt with, unless the connection is given up. A pong was received exactly if one is among the frames handled; the connection is given up exactly for a header too large, a message that cannot be decoded or encoded, a failed read or a write cut short, each with its reason. |
| LinuxClient.LinuxClient.ProcessKeepAliveTimer | messi/c_source/templates/linux/client.c:229-267 | The outcome is told by which calls succeed, whether a pong was received and whether the write was cut short: without a failure, a client with a pong restarts the timer, sends a ping and stays connected, and one without gives up for a keep-alive timeout; each failure gives up for a general error. With a stale timer number, whoever has it, every path ends up about to report a disconnection. |
| LinuxClient.LinuxClient.OpenConnection | messi/c_source/templates/linux/client.c:269-341 | On failure nothing is left open or registered; what number is left in keep_alive_timer_fd is told by how far the attempt came, and it is one of a closed timer exactly when registering or arming the timer failed, or an older one had not been overwritten yet. |
| LinuxClient.LinuxClient.ConnectToServer | messi/c_source/templates/linux/client.c:269-341 | Connected with the calls it takes, with a fresh pong and announced, or back to waiting with nothing open. |
| LinuxClient.LinuxClient.Start | messi/c_source/templates/linux/client.c:437-442 | From rest: connected and announced, which it is if no system call fails; or waiting for a new reconnect timer, or stuck without one. |
| LinuxClient.LinuxClient.Stop | messi/c_source/templates/linux/client.c:444-452 | From any state to rest, with everything closed but the reconnect timers it has lost; a number that is not the client's is closed exactly when that of a closed timer was left, and then another part of the process loses the descriptor that has it. |
| LinuxClient.LinuxClient.Process | messi/c_source/templates/linux/client.c:454-469 | For an event on any descriptor: what it has to come to for the socket, the keep-alive timer, the reconnect timer or none of them, as in ProcessSocket, ProcessKeepAliveTimer and Start; then a lost connection is reported with its reason and the reconnect timer started. A misreport is made exactly when the event is on the number of a closed timer that was left, whoever has it now; exactly then can another's descriptor be closed or the reconnect timer be lost. |
| LinuxClient.StaleNumberTaken | messi/c_source/templates/linux/client.c:328-332 | From every state between two attempts to connect, a failing attempt can leave a number that another part of the process or the reconnect timer then gets. |
| ClientRun.Run | messi/c_source/templates/linux/client.c:437-498 | In every run, whatever other parts of the process open and close, the client is in one of its states with the descriptors of that state open, its steps are steps of the machine, and as long as timers can be registered and armed there is no stale number, misreport, lost timer or close of a number that is not the client's. |
| ClientRun.Reconnect | messi/c_source/templates/linux/client.c:343-351 | A client that reconnects may read from the new connection exactly unless the last one left the header of a frame too large in its buffer. |
| Guarantees.ClientStates | messi/c_source/templates/linux/client.c:429-469 | The four states told apart by the fields, with the descriptors of each; the fields name exactly what the client has open when it has lost no timer and no stale number was left that its reconnect timer has not got; events on lost timers are ignored. |
| Guarantees.LinuxCallbacks | messi/c_source/templates/linux/client.c:454-469 | The Linux client's callbacks are in turn, and those expected with the first reason raised, exactly as long as there was no misreport. |
| Guarantees.NextReadFits | messi/c_source/templates/linux/client.c:191-217 | The next read of a connected Linux client stays in its buffer exactly when no frame too large has started in the bytes carried over and received. |
| Guarantees.AsyncNextReadFits | messi/c_source/templates/async/client.c:177-202 | The same of the async client. |
| AsyncClient.AsyncClient.DisconnectAndStartReconnectTimer | messi/c_source/templates/async/client.c:47-60 | Every reason raised while connected or unreported is a step, only the first one changes the state, and exactly one deferred call is made for it. |
| AsyncClient.AsyncClient.OnDisconnected | messi/c_source/templates/async/client.c:39-45 | The deferred call reports the recorded reason and starts the reconnect timer; what the application sends in the callback is not written and raises nothing new. |
| AsyncClient.AsyncClient.OnKeepAliveTimeout | messi/c_source/templates/async/client.c:122-136 | With a pong received the timer is started again, a ping is written and the next pong is awaited; otherwise the connection is given up. |
| AsyncClient.AsyncClient.Send | messi/c_source/templates/async/client.c:321-344 | While connected, the frame is written behind all frames before it, or the connection is given up because the message cannot be encoded. |
| AsyncClient.AsyncClient.OnStcpConnected | messi/c_source/templates/async/client.c:138-153 | A connection is announced with a fresh pong; a failed attempt starts the reconnect timer. |
| AsyncClient.AsyncClient.HandleMessage | messi/c_source/templates/async/client.c:62-120 | The frame is added to those handled; a user message is given to the application exactly if it can be decoded, and otherwise the connection is given up; a pong is noted; anything else is ignored. |
| AsyncClient.AsyncClient.OnStcpInput | messi/c_source/templates/async/client.c:166-212 | All that has arrived is read and dealt with, unless the connection is given up. A pong was received exactly if one is among the frames handled; the connection is given up exactly for a header too large, or a message that cannot be decoded or encoded, each with its reason. |
| AsyncClient.AsyncClient.Stop | messi/c_source/templates/async/client.c:314-319 | Everything is stopped, except that a deferred call is still due exactly if a disconnection was unreported. |
| AsyncRun.Run | messi/c_source/templates/async/client.c:39-319 | In every run from start to stop at most one call is deferred, exactly while a disconnection is unreported, and the steps are steps of the machine; after stop no timer runs and the stream is closed. |
| Guarantees.AsyncCallbacks | messi/c_source/templates/async/client.c:39-60 | The async client's callbacks are those of the machine, in turn and with the first reason raised. |
| Timing.NoFalseAlarmsIff | messi/c_source/templates/linux/client.c:229-267 | In no run of a client with a period of two seconds and a server with a window of three does either side find the other silent, exactly when ping and pong delays add up to less than two seconds, and the ping delay and the client's lateness in arming to less than one. |
| Timing.DetectionBound | messi/c_source/templates/linux/client.c:244-263 | In every run, whatever is lost and whatever has become of the other side: the client gives up between two and four seconds after its last pong or connecting, the server three seconds after the last ping or accepting (server.c:139-147, 543-547). |

## Left out

- Output.OutputQueue.Append: that later writes to the encode buffer do not change a queued item is part of the model, where its bytes are an immutable value; and a chain that was freed is read as it was left.
- ServerState.DrainFailed: does not say anything useful of the queue of a client that was lost while it was drained, because the code leaves it dangling until client_init resets it (messi/c_source/templates/linux/server.c:463-469).
- Server.Server.DestroyPendingDisconnectClients: does not cover an on_client_disconnected callback that causes another client to be disconnected, by its own doing or because a write in it fails; the pending list has no back links for that (messi/c_source/templates/linux/server.c:106-108).
- LinuxClient.LinuxClient.Send: requires that the client is connected or not yet reported as disconnected; the code can be called in other states, where it makes a later process call report a connection that was not there.
- LinuxClient.LinuxClient.ProcessSocket: requires that the next read stays in the buffer; `Guarantees.NextReadFits` says exactly when it does.
- LinuxClient.LinuxClient.Process: the same.
- AsyncClient.AsyncClient.OnStcpInput: requires that the next read stays in the buffer; `Guarantees.AsyncNextReadFits` says exactly when it does.
- ClientRun.Run: leaves out events that Process cannot go on with, and calls of send and start in other states than those named above.
- AsyncRun.Run: leaves out input that OnStcpInput cannot go on with, and ends at stop; a call that is still deferred then is not followed further.
- Descriptors of other parts of the process, for the server and the async client: only the Linux client's kernel has them.
- NAME_server_stop, and starting a server again after it: runs of the server end before.
- Failing memory allocation, and a failing allocation of the message object in a client's input workspace: the code drops bytes or the frame silently.
- Guarantees.ToServerInOrder: says nothing of messages sent while the connection was already given up; those are not attempted on any connection.
- async_stcp_client_* and async_timer_*: the event loop's library is not part of this model. A stream takes what is written to it whole, hands over what has arrived, and is silent once disconnected; a stopped timer does not expire.
- AsyncClient.AsyncClient.Start: once only; a second start after stop is not modelled, because stop leaves is_connected as it was.
- The async server template, the Python client and server, and the generator.
- Protobuf encoding and decoding and the workspaces: a message either fails to encode or gives a payload, and whether a payload can be decoded is a function given to each object.
- Addresses, URIs and the arguments of bind, listen, connect and socket options: only whether the calls are made and succeed, in what order, and which descriptors are open. Parsing the address is part of bind.
- Timing: the descriptors and bytes of the two sides are not part of the timed composition; it knows only timers, pings and pongs.
- Shifts and bit operations of the header are written as division, remainder and addition.
