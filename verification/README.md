# RDMA communication core: a Dafny model and its proofs

The library drives RDMA hardware through verbs and through a TCP side channel. Most of its
code is a wrapper, but its protocols are right only for whole-run reasons. This project models
them as they are coded and proves what they rely on:

- **Connection setup** (`TcpStreams.dfy`, `ConnectionSetup.dfy`, `BarrierTheorems.dfy`,
  `EndPoints.dfy`): two end points exchange frames over byte streams that arrive in any pieces,
  and move their queue pairs through RESET, INIT, RTR and RTS, again after each reset.
- **The default session protocol** (`SessionProtocol.dfy`, `SessionInvariant.dfy`,
  `SessionSafety.dfy`, `SessionTheorems.dfy`, `SessionRecord.dfy`, `SessionGreeting.dfy`, `SessionTexts.dfy`,
  `SessionWitness.dfy`, `SessionQueueBounds.dfy`, `RDMASession.dfy`): two
  peers greet each other, exchange descriptors through one shared send buffer, and then run a
  WRITE/READ loop beside a SEND ping-pong. Posting, fetching, delivering, completing and handling
  are separate steps, interleaved in any order.
- **The mesh service** (`Buffers.dfy`, `MeshService.dfy`, `MeshInvariant.dfy`,
  `MeshTheorems.dfy`, `MeshSharedQueue.dfy`, `MeshBatch.dfy`, `MeshTower.dfy`): a window of WRITEs allocated from a
  ring of blocks, and a server whose channels share one completion queue.
- **Supporting cores**: the benchmark's lockstep rounds (`LatBwBenchmark.dfy`,
  `LatBwTheorems.dfy`), its drain loops (`DrainLoop.dfy`), the completion-queue registry and thread
  grouping (`CqRegistry.dfy`), and the drift-correcting tick loop (`TimeEvents.dfy`).
- `Arithmetic.dfy`, `ByteLayout.dfy`, `Projection.dfy` and `Wrappers.dfy` hold quotients and remainders, bytes
  and packed layouts, projections of queues, and the result type in which a failed `CHECK` is an outcome.

Each two-party protocol is a state machine: `Enabled` and `Apply` say which steps are possible and
what they do, `Runs` and `Outcome` extend that to any sequence of steps, and theorems speak of every
state some run reaches. Where the source changes an object step by step there is also a class whose
methods do the same, proved equal to the transition functions of the machine
(`RDMASession.RDMAChannel`, `MeshTower.TowerChannel`, `EndPoints.RDMAAdapter`,
`EndPoints.RDMAEndPoint`, `Buffers.RDMABuffer`, `TcpStreams.TCPConnector`,
`DrainLoop.BenchmarkClient`, `TimeEvents.TimeEvent`, `CqRegistry.RDMADevice`).

## Assumptions about the environment

- The reliable connected service of section 9.7 of the InfiniBand Architecture Specification Volume 1:
  requests of one queue pair execute at the peer and complete in post order; the source of a request may
  be fetched at any time between its post and its execution, more than once; a READ sees the WRITEs before
  it on the same queue pair; a request that consumes a receive waits at the head of its queue until one is
  posted (`rnr_retry = 7`).
- Queue-pair states follow section 10.3.1 of the same volume. Of these only RESET, INIT, RTR and RTS occur, the ones
  the library drives a queue pair through; "any state" of a queue pair means any of these four.
- Verbs calls succeed, except that a move of a queue pair that the state machine does not allow is refused and
  changes nothing. A handler is atomic; what the adapter does is in steps of its own.
- Only for `SessionQueueBounds` and the benchmark: a request's own completion (of a SEND, a WRITE or a READ) is
  enqueued at the moment the peer executes it.
- A TCP stream delivers the bytes sent, in order, in pieces of any size.

## What the code does that its comments or checks do not say

- The constructor of `RDMABuffer` says that it clears all the memory; it clears the first block
  (`src/rdma_buffer.cc:164`, `Buffers.RDMABuffer.constructor`). `Buffers.AllClearIff` says when that is enough.
- `CHECK(params.link_layer = self_.link_layer)` assigns (`src/rdma_adapter.cc:379`): it passes exactly if this
  side reports a link layer, whatever the peer's is. Only an Ethernet adapter compares the two, later
  (`ConnectionSetup.ConnectIff`, `ConnectionSetup.MutualIff`).
- `connecting()` ignores the results of its three moves and always returns true. Called without a reset in
  between it ends in RTS and notes the new peer, but the queue pair stays programmed with the old one
  (`ConnectionSetup.ConnectIff`, `ConnectionSetup.ProgrammedIff`, `ConnectionSetup.ConnectTwice`).
- The barrier at the end of `connecting()` does not mean that both queue pairs are in RTS: the other side may
  have returned first and have begun its next reset. `BarrierTheorems.Barrier` gives the exact condition,
  `BarrierTheorems.ResetOvertakes` a run in which it happens.
- The check that a private completion queue is new releases the lock before the queue is created: whatever
  channel uses a private channel's key can slip in between and share its queue (`CqRegistry.CheckCanMiss`). That
  can happen, and the check can fail, exactly if a private key is used twice (`CqRegistry.SharingIff`,
  `CqRegistry.PrivateCheckIff`).
- The greeting may arrive as something else, for two reasons: nothing waits until it has been fetched before the
  handler of the peer's greeting refills `send_buffer`, and nothing keeps REQUEST_EXCHANGE_KEY from landing on it
  before it is handled. `SessionGreeting.GreetingArrives` says exactly when it is there to be read,
  `SessionWitness.GreetingLost` and `SessionWitness.GreetingCovered` give a run for either reason. The texts sent after
  the key exchange always arrive (`SessionTexts.TextArrives`).
- The mesh server grants the client the very buffer it answers from, so the WRITEs overwrite the descriptor it has
  put there; `MeshTheorems.DescriptorSafe` says that they come too late to matter.
- With assertions compiled out, a timeout or interval shorter than a tick is accepted and never fires
  (`TimeEvents.TimeEvent.Set`, `TimeEvents.NeverDue`).
- RESPONSE_EXCHANGE_KEY has the length of a text but sends the descriptor again, because `send_buffer` is not
  refilled for it (`src/rdma_session.cc:313`), unless it is fetched only after the next message has been answered.
  The key exchange depends on it.

## Model

| member | source | states |
|---|---|---|
| `ByteLayout.DecodeEncodeDescriptor` | include/rdma_adapter.h:38-44 | A representable descriptor read back from a buffer that begins with its packed bytes is the same, whatever follows them and whatever the unset `fd_` field holds |
| `ByteLayout.DecodeEncodeLE` | include/rdma_adapter.h:38-44 | A little-endian field of k bytes gives back every number that fits it |
| `ByteLayout.DescriptorLayout` | include/rdma_adapter.h:38-44 | The packed descriptor is 24 bytes: the address in 0 to 7, the length in 8 to 15, the rkey in 16 to 19, each with its lowest byte first |
| `ByteLayout.PaddedBytes` | src/rdma_buffer.cc:207-227 | A filled buffer begins with the text and is zero from its end on |
| `Buffers.EachByteOnce` | src/rdma_buffer.cc:117-170 | The sub-buffers cut the memory into pieces: every byte lies in exactly one, the one its position names |
| `Buffers.RDMABuffer.constructor` | src/rdma_buffer.cc:117-170 | The blocks tile the memory, the ring is unused, the first block is zero and the rest of the memory is as it was allocated |
| `Buffers.AllClearIff` | src/rdma_buffer.cc:160-166 | All of the memory is zero then exactly if every byte past the first block had been zero |
| `Buffers.RDMABuffer.Clear` | src/rdma_buffer.cc:220-227 | All bytes of the buffer are zero |
| `Buffers.RDMABuffer.FillIn` | src/rdma_buffer.cc:207-219 | Fails exactly if the text is longer than the buffer; otherwise the buffer begins with the text and every byte behind it is zero |
| `Buffers.RDMABuffer.Next` | include/rdma_buffer.h:116-122 | Hands out the block its counter names, modulo the number of blocks, and marks it |
| `Buffers.RDMABuffer.Last` | include/rdma_buffer.h:123-129 | Takes back the block its counter names and unmarks it |
| `Buffers.AdvanceWindow` | include/rdma_buffer.h:116-122 | The check that `next()` has commented out holds exactly if the window is not a whole turn, and the window is kept then |
| `Buffers.RetireWindow` | include/rdma_buffer.h:123-129 | The check that `last()` has commented out holds exactly if something is outstanding, and the window is kept then |
| `Buffers.RetireAdvance` | include/rdma_buffer.h:116-129 | On a full ring `last()` followed by `next()` returns the same block twice |
| `Buffers.OneTurn` | include/rdma_buffer.h:116-129 | Within one turn of the ring no block is handed out twice |
| `SessionSafety.MessageHandled` | src/rdma_session.cc:265-365 | With the invariant, the receive handler fails a check exactly if a text does not fit, and keeps the invariant otherwise |
| `SessionSafety.CompletionHandled` | src/rdma_session.cc:258-438 | The same for every kind of completion; no lookup of the peer's descriptor fails |
| `SessionSafety.DeliverIff` | src/rdma_adapter.cc:402-497 | What breaks a connection: a message longer than its receive, or a WRITE or READ whose address, rkey or length is not within the sink granted |
| `SessionSafety.DeliverKeeps` | src/rdma_adapter.cc:402-497 | Executing the head of a send queue never breaks the connection (no access outside the granted sink, no message longer than its receive) and keeps the invariant |
| `SessionSafety.StepKeeps` | src/rdma_session.cc:203-438 | Every step of handlers and adapters keeps the invariant |
| `SessionSafety.RunKeeps` | src/rdma_session.cc:58-121 | So does every run, from any state with the invariant |
| `SessionSafety.NoRunFails` | src/rdma_session.cc:58-121 | No run from freshly registered buffers meets a failed check as long as the texts fit their buffers |
| `SessionTheorems.SinksFixed` | src/rdma_session.cc:226-234 | No run changes where a peer's sink is |
| `SessionTheorems.KeyExchanged` | src/rdma_session.cc:289-351 | Whenever REQUEST_EXCHANGE_KEY is handled, `recv_buffer` decodes to the sink the other peer allocated, even after RESPONSE has landed on it and whenever the sources were fetched; nothing was inserted before |
| `SessionTheorems.ReadBack` | src/rdma_session.cc:366-415 | Every READ completion finds in `read_buffer` the text of the last WRITE posted; every WRITE completion finds it in the peer's sink |
| `SessionRecord.TextReadBack` | src/rdma_session.cc:289-415 | That text is the 24 characters "[RDMA write/read test]: " and then what this side's latest handler of REQUEST or of a READ completion formatted, told from the steps of the run; at a READ completion `read_buffer` is all of the sink |
| `SessionRecord.PendingLengths` | src/rdma_session.cc:254-361 | The k-th message has the greeting's length, then 24, then that of the text formatted when the message before was answered |
| `SessionRecord.OneNotice` | src/rdma_session.cc:315-322 | From REQUEST on exactly one WRITE_WITH_IMM has been posted: pending, arrived or handled; before there is none |
| `SessionRecord.BuffersClear` | src/rdma_session.cc:242-244 | `recv_buffer` is zero beyond the longest message that has landed; `read_buffer` is zero while a READ is on its way |
| `SessionTheorems.SinkNamed` | src/rdma_session.cc:315-411 | Every pending WRITE or READ names the sink the other peer allocated and stays within it; a READ asks for all of it |
| `SessionTheorems.BarrierHeld` | src/rdma_session.cc:242-255 | No peer runs before the other has posted its two receives |
| `SessionTheorems.OneLoop` | src/rdma_session.cc:315-322 | Exactly one WRITE or READ is pending once REQUEST has been handled, none before; the descriptor is known at every one-sided completion |
| `SessionTheorems.PhaseOrder` | src/rdma_session.cc:289-363 | Each peer's tags are SYNC, REQUEST, RESPONSE, then UNSET for ever; they are handled in the order sent, REQUEST once |
| `SessionTheorems.TokenConservation` | src/rdma_session.cc:252-365 | Two SENDs circulate once both run; each peer has sent one more than it handled; what is in flight is exactly what the other has not handled |
| `SessionTheorems.ReceiveBound` | src/rdma_session.cc:242-244 | Posted receives and unhandled arrivals are two; at most three requests that need a receive head for a peer, so at most one waits for one |
| `SessionTheorems.DeadlockFree` | src/rdma_session.cc:58-121 | When the adapters have nothing to do, a handler can run |
| `SessionTheorems.AdaptersCalmDown` | src/rdma_session.cc:58-121 | Adapters alone get done only finitely many things between two handlers |
| `SessionTheorems.ChecksHold` | src/rdma_session.cc:265-415 | In every reached state a handler fails exactly if a text it formats is too long: more than 2560 bytes for an answer, more than 9976 for the write loop |
| `SessionQueueBounds.PromptStepKeeps` | src/rdma_session.cc:58-121 | With completions enqueued at delivery no step fails, and the general invariant is kept together with the sharper bounds |
| `SessionQueueBounds.PromptAll` | src/rdma_session.cc:58-121 | Runs with completions enqueued at delivery leave nothing out: in every state they reach, every step the protocol allows can be taken |
| `SessionQueueBounds.QueueBounds` | src/rdma_session.cc:265-415 | At most three send-queue requests and five completions of a channel are unpolled |
| `SessionQueueBounds.SharedQueueFits` | include/rdma_adapter.h:54-72 | A shared completion queue of size c never overflows with up to c/5 channels |
| `SessionGreeting.GreetingCarries` | src/rdma_session.cc:250-255 | In every reached state, what has been fetched for a pending greeting is the greeting if the last fetch came before this side handled its first message, and its descriptor's first bytes otherwise; never later than one message |
| `SessionGreeting.GreetingArrives` | src/rdma_session.cc:324-351 | When a greeting is handled, `recv_buffer` begins with it exactly if its last fetch came before its sender handled a message and REQUEST has not landed on it, or the bytes sent or landed instead are the same |
| `SessionTexts.TextArrives` | src/rdma_session.cc:354-363 | If a side formats one text for all its messages, as a channel does, `recv_buffer` begins with it whenever the other side handles an UNSET, whenever it was fetched and whatever has landed since |
| `SessionWitness.GreetingLost` | src/rdma_session.cc:324-351 | From every start there is a run in which the greeting is fetched after the refill and arrives as the first bytes of the sender's descriptor |
| `SessionWitness.GreetingCovered` | src/rdma_session.cc:324-351 | And one in which it is fetched in time, but the descriptor has landed on it before it is handled |
| `RDMASession.RequestAnswered` | src/rdma_session.cc:289-323 | REQUEST is answered with a message of the text's length from an unchanged `send_buffer` and a WRITE with notice to the descriptor read; the first descriptor inserted is kept |
| `RDMASession.RDMAChannel.constructor` | src/rdma_session.cc:211-234 | Two buffers of 2560 and three of 10000 bytes are registered and the channel is in an initial state of the protocol, its descriptor that of the sink |
| `RDMASession.RDMAChannel.SendRemote` | src/rdma_adapter.cc:402-418 | Refuses exactly what exceeds the buffer; otherwise one more SEND is pending |
| `RDMASession.RDMAChannel.RecvRemote` | src/rdma_adapter.cc:420-436 | One more receive is posted |
| `RDMASession.RDMAChannel.WriteRemote` | src/rdma_adapter.cc:460-497 | Refuses exactly what exceeds either buffer; otherwise one more WRITE is pending |
| `RDMASession.RDMAChannel.ReadRemote` | src/rdma_adapter.cc:439-457 | Refuses exactly what exceeds either buffer; otherwise one more READ is pending |
| `RDMASession.RDMAChannel.EstablishedBeforeSync` | src/rdma_session.cc:242-244 | Clears `recv_buffer` and posts two receives, the protocol's first step |
| `RDMASession.RDMAChannel.EstablishedAfterSync` | src/rdma_session.cc:250-255 | Fills in the greeting and sends it, the protocol's second step |
| `RDMASession.RDMAChannel.ProcessRequest` | src/rdma_session.cc:289-323 | The in-place handler does what the protocol's transition says, failures included |
| `RDMASession.RDMAChannel.ProcessSync` | src/rdma_session.cc:324-353 | Likewise for TEST_FOR_SYNC_DATA |
| `RDMASession.RDMAChannel.ProcessOther` | src/rdma_session.cc:354-363 | Likewise for every other tag |
| `RDMASession.RDMAChannel.ProcessWriteDone` | src/rdma_session.cc:366-389 | Likewise for a WRITE completion |
| `RDMASession.RDMAChannel.ProcessReadDone` | src/rdma_session.cc:390-415 | Likewise for a READ completion |
| `RDMASession.RDMAChannel.ProcessOne` | src/rdma_session.cc:82-116 | The switch runs the handler of the oldest completion |
| `RDMASession.RDMAChannel.ProcessBatch` | src/rdma_session.cc:67-117 | A polled batch has the effect of its completions handled one by one, up to the first failure |
| `MeshInvariant.PostKeepsFifo` | example/mesh_comm_service.cc:322-329 | A post with room in the window gets a free block, and blocks in use stay in ring order |
| `MeshInvariant.CompletedBlock` | example/mesh_comm_service.cc:296-304 | `last()` takes back the block of the very request that completed |
| `MeshInvariant.MessageBlock` | example/mesh_comm_service.cc:305-316 | A message is in the block that `last()` takes back and that `next()` then names |
| `MeshInvariant.ClientCopies` | example/mesh_comm_service.cc:305-330 | The descriptor is copied from the block RESPONSE was received into, and NUM_BLOCK - 1 WRITEs to it are posted |
| `MeshInvariant.ServerReposts` | example/mesh_comm_service.cc:142-170 | The server posts again the block it has just read, after answering with its descriptor |
| `MeshTheorems.StepKeeps` | example/mesh_comm_service.cc:277-360 | Every step of both towers' handlers and adapters keeps the invariant, with the two commented-out checks in force |
| `MeshTheorems.BeginInv` | example/mesh_comm_service.cc:252-273 | Posting all receives and the REQUEST on fresh rings passes every check and establishes the invariant |
| `MeshTheorems.NoRunFails` | example/mesh_comm_service.cc:277-360 | No run meets a failed check (the two commented-out ones included), an UNIMPLEMENTED branch or a WRITE without a grant |
| `MeshTheorems.HandlerChecks` | example/mesh_comm_service.cc:122-183 | In any state a handler goes through only with the message it expects, with the flag its `last()` checks, and a WRITE only with a descriptor of at least a block |
| `MeshTheorems.GrantChecked` | example/mesh_comm_service.cc:322-329 | A WRITE needs the very descriptor granted; it destroys what the first block of that memory held and nothing else |
| `MeshTheorems.ClientWindow` | example/mesh_comm_service.cc:296-350 | Requests in flight are next_active - last_active and the channel's counter, never more than the send queue; no two use one block |
| `MeshTheorems.FullPipe` | example/mesh_comm_service.cc:322-349 | Before RESPONSE only the REQUEST is in flight, then always NUM_BLOCK - 1 WRITEs and at most the REQUEST; every pending WRITE is to the server's buffer; the receive counters are n, and n - 1 for the client once RESPONSE is in |
| `MeshTheorems.RoomIff` | example/mesh_comm_service.cc:322-329 | In every run one more post passes the check that `next()` has commented out exactly if fewer requests are in flight than there are blocks |
| `MeshTheorems.WindowFills` | example/mesh_comm_service.cc:322-329 | NUM_BLOCK - 1 is as many as fit: from every start a run leads to NUM_BLOCK requests in flight, where one more post would take a block in use |
| `MeshTheorems.DescriptorSafe` | example/mesh_comm_service.cc:149-160 | What the server still has to send carries its descriptor, although the WRITEs land on the same memory: when one is next to execute, the answer has been sent and copied |
| `MeshTheorems.RingsFollowMessages` | example/mesh_comm_service.cc:252-260 | The k-th message lands in block (k - 1) mod n, and its handler's `last()`/`next()` pair returns that block |
| `MeshTheorems.NeverStalled` | example/mesh_comm_service.cc:252-260 | No message ever waits for a receive: the head of either send queue can always execute |
| `MeshSharedQueue.Routing` | example/mesh_comm_service.cc:122-183 | A step of the tower is a step of the channel it belongs to, seen by that channel alone |
| `MeshSharedQueue.TowerRunKeeps` | example/mesh_comm_service.cc:114-185 | What holds of a channel alone holds of every channel of the tower, in every run |
| `MeshSharedQueue.OpenIff` | example/mesh_comm_service.cc:70 | A thread over registered channels starts exactly if there are at most 64 of them, and then with every channel in its start state |
| `MeshSharedQueue.TowerSafe` | example/mesh_comm_service.cc:114-185 | No run of any number of channels on one queue fails; each channel's ring and counters equal its own outstanding requests |
| `MeshSharedQueue.SharedQueueFits` | example/mesh_comm_service.cc:48-61 | A completion queue of (max_recv_wr + max_send_wr) * channels entries never overflows |
| `MeshBatch.RouteHead` | example/mesh_comm_service.cc:122-183 | Handling the first entry of a batch and then routing the rest is routing the batch, failures included |
| `MeshBatch.PollValue` | example/mesh_comm_service.cc:122-183 | A poll runs the handler of the oldest entry on the channel that entry names, whatever else is queued, and changes nothing else |
| `MeshBatch.BatchSafe` | example/mesh_comm_service.cc:114-185 | Any number of entries polled at once is handled without a failed check and leaves the tower as polling them one at a time does |
| `MeshBatch.BatchesSafe` | example/mesh_comm_service.cc:114-185 | So in every run of the tower, for whatever batch its loop takes next |
| `MeshTower.TowerChannel.constructor` | example/mesh_comm_service.cc:235-250 | A channel with two registered buffers of 16384-byte blocks is in the start state of the model, and its descriptor has the address, the length and the rkey of the memory granted |
| `MeshTower.TowerChannel.PostAllReceives` | example/mesh_comm_service.cc:252-260 | The loop posts every block's receive, as the model says |
| `MeshTower.TowerChannel.WriteBurst` | example/mesh_comm_service.cc:322-329 | The loop posts its WRITEs as the model says wherever the model's checks hold |
| `MeshTower.TowerChannel.ClientEvent` | example/mesh_comm_service.cc:296-357 | The client's switch does what the model says wherever its checks hold |
| `MeshTower.TowerChannel.ServerEvent` | example/mesh_comm_service.cc:133-182 | Likewise for the server's |
| `MeshTower.ProcessEntry` | example/mesh_comm_service.cc:122-183 | An entry changes the channel it names and no other |
| `MeshTower.ProcessBatch` | example/mesh_comm_service.cc:114-185 | After a polled batch every channel is as if it had handled its own entries alone, in order, wherever the model's checks hold |
| `MeshTower.ServePolled` | example/mesh_comm_service.cc:114-185 | They do hold for a batch polled from the shared queue of a tower with the invariant: no check fails, and the channels are as after polling the entries one at a time |
| `TcpStreams.Framed` | src/tcp_connector.cc:43-65 | For any fragmentation, frames of matching sizes collected from the stream are the frames sent, and nothing of a later frame has been taken |
| `TcpStreams.KthFrame` | src/tcp_connector.cc:43-65 | The bytes where one side's k-th frame ends up are the other side's k-th frame |
| `TcpStreams.TCPConnector.Recv` | src/tcp_connector.cc:99-102 | One `recv` lands what has arrived, at most the room left, in place, and leaves every other byte alone |
| `TcpStreams.TCPConnector.RecvDataForce` | src/tcp_connector.cc:89-114 | Observed for finitely many `recv` calls: the loop has been left exactly if they brought the requested bytes, which are then in place; it never takes a byte more or writes beyond |
| `TcpStreams.TCPConnector.SockSyncData` | src/tcp_connector.cc:43-55 | The k-th call yields the peer's k-th frame and returns 0 whatever the pieces |
| `ConnectionSetup.DecodeEncodeInfo` | include/rdma_adapter.h:74-82 | Adapter information survives its 155-byte packed layout |
| `ConnectionSetup.InfoLayout` | include/rdma_adapter.h:74-82 | Where each of its fields is: GID 0 to 15, queue pair 16 to 19, LID 20 and 21, link layer 22, MTU 23 to 26, name from 27 |
| `ConnectionSetup.WhereMovesEnd` | src/rdma_adapter.cc:241-358 | For each of the four moves, from which states it goes through and what it then changes; otherwise nothing changes |
| `ConnectionSetup.LinkLayers` | src/rdma_adapter.cc:193-336 | By the numbers of verbs: link layer 1 takes every named peer, link layer 2 exactly the named peers of link layer 2 if the GID index is not negative, link layer 0 none |
| `ConnectionSetup.ConnectIff` | src/rdma_adapter.cc:193-232 | `connecting` succeeds exactly if the checks as coded pass, from each of the four states the library uses; it ends in RTS with the new remote, and programs it only from RESET or INIT |
| `ConnectionSetup.ProgrammedIff` | src/rdma_adapter.cc:286-336 | The queue pair talks to the noted remote exactly if it came from RESET or INIT or was programmed with that peer before |
| `ConnectionSetup.ConnectTwice` | src/rdma_adapter.cc:193-232 | A second connect without a reset notes the second peer and keeps talking to the first |
| `ConnectionSetup.MutualIff` | src/rdma_adapter.cc:375-380 | Two adapters take each other exactly if both report a link layer, agree on Ethernet, and have a GID index if it is |
| `BarrierTheorems.GotIsSent` | src/rdma_endpoint.cc:46-65 | Every frame an end point has completed is the other side's frame of the same call |
| `BarrierTheorems.InfoReceived` | src/rdma_endpoint.cc:53-58 | The information handed to `connecting` is the other adapter's |
| `BarrierTheorems.StepKeeps` | src/rdma_endpoint.cc:46-75 | Every step keeps the invariant and makes only legal moves; a step fails exactly if the other adapter is not accepted |
| `BarrierTheorems.MovesLegal` | src/rdma_endpoint.cc:46-75 | On every run of one connect and any number of resets, every move of a queue pair is one that verbs accepts |
| `BarrierTheorems.NoRunFails` | src/rdma_endpoint.cc:46-75 | Between adapters that accept each other no run of one connect and any number of resets fails |
| `BarrierTheorems.Barrier` | src/rdma_endpoint.cc:46-75 | When `connecting` returns, this queue pair is in RTS and programmed with the other side, and each side's remote is the other's self; the other is in RTS if and only if it has not begun its next reset, and then in RESET |
| `BarrierTheorems.ResetOvertakes` | src/rdma_endpoint.cc:67-75 | For any two adapters that accept each other there is a run that returns on one side with the other already in RESET |
| `BarrierTheorems.Progress` | src/rdma_endpoint.cc:46-65 | A side that is not ahead in resets and has not returned never waits for ever |
| `BarrierTheorems.ConnectIsFinite` | src/rdma_endpoint.cc:46-65 | Between resets a run is no longer than the bytes, calls and moves that remain |
| `EndPoints.RDMAAdapter.Loading` | src/rdma_adapter.cc:25-59 | The first call creates the queue pair in RESET, every further call changes nothing; the information is always this device's |
| `EndPoints.RDMAAdapter.Modify` | src/rdma_adapter.cc:241-358 | A legal move changes the state, RTR programs the noted peer, RESET forgets it; a refused move changes nothing |
| `EndPoints.RDMAAdapter.Connecting` | src/rdma_adapter.cc:193-232 | Succeeds exactly if the peer is accepted, whatever the state of the queue pair, going on after refused moves; the result is the value-level connect's |
| `EndPoints.RDMAAdapter.ResetHca` | src/rdma_adapter.cc:234-260 | The queue pair is in RESET and no longer programmed, everything else as it was |
| `EndPoints.RDMAEndPoint.constructor` | src/rdma_endpoint.cc:13-33 | The connection has been tried with one barrier byte |
| `EndPoints.RDMAEndPoint.SyncWithPeer` | src/rdma_endpoint.cc:35-44 | Succeeds and uses up one frame of each stream |
| `EndPoints.RDMAEndPoint.Connecting` | src/rdma_endpoint.cc:46-65 | However the stream is cut, passes the barrier exactly if the very information the peer sent is accepted, whatever the state of the queue pair before |
| `EndPoints.RDMAEndPoint.Reset` | src/rdma_endpoint.cc:67-75 | From any state of the queue pair ends in RTS, programmed with the new peer, exactly if the peer is accepted |
| `LatBwTheorems.SizesFit` | example/lat_bw_benchmark.cc:355-359 | The doubling loop makes 24 rounds, and exactly those sizes fit a block |
| `LatBwTheorems.MessagesFit` | example/lat_bw_benchmark.cc:101-166 | Every message of either side fits the receive of the same number |
| `LatBwTheorems.AnswersFit` | example/lat_bw_benchmark.cc:449-489 | The first answer has 64 bytes, room for the descriptor, every other none; a pending one finds its receive posted and fits it |
| `LatBwTheorems.ClientSends` | example/lat_bw_benchmark.cc:59-166 | What the client has pending at each place: a request of 2 bytes, a raw message of the round's size, or BYEBYE |
| `LatBwTheorems.ClientWaits` | example/lat_bw_benchmark.cc:69-94 | While a message of the client is pending it has handled all that reached it |
| `LatBwTheorems.AckComes` | example/lat_bw_benchmark.cc:488-499 | The completion the server polls after its answer is that SEND's own, before any raw message |
| `LatBwTheorems.ClientChecks` | example/lat_bw_benchmark.cc:59-166 | In any state the client's action fails exactly on a wrong opcode, a second completion of a kind, a wrong answer, or a message over 8 MB |
| `LatBwTheorems.ServerChecks` | example/lat_bw_benchmark.cc:428-562 | Likewise the server's, which looks at the message in the exchange, at the end and at raw messages |
| `LatBwTheorems.StepKeeps` | example/lat_bw_benchmark.cc:428-562 | Every action of either program and every delivery keeps the alignment |
| `LatBwTheorems.NoRunFails` | example/lat_bw_benchmark.cc:59-166 | In every run every opcode and immediate check passes |
| `LatBwTheorems.Lockstep` | example/lat_bw_benchmark.cc:468-517 | While the client sends a round's raw messages the server is in that round or waits for the next request |
| `LatBwTheorems.RawFindsReceive` | example/lat_bw_benchmark.cc:483-487 | A raw message always finds one of the 1000 posted receives, a whole block |
| `LatBwTheorems.QueuesFit` | example/lat_bw_benchmark.cc:563-575 | Outstanding receives, SENDs and completions stay within the configured queues |
| `LatBwTheorems.RingsReturn` | example/lat_bw_benchmark.cc:141-155 | Both rings stay within one turn and their counters are equal at each round's end |
| `LatBwTheorems.QuietClient` | example/lat_bw_benchmark.cc:353-384 | Nothing is left over when the one-sided tests begin |
| `LatBwTheorems.Progress` | example/lat_bw_benchmark.cc:343-384 | Until both have ended some step is possible |
| `LatBwTheorems.EveryRunEnds` | example/lat_bw_benchmark.cc:531-562 | Every interleaving takes the same number of steps, and both have ended exactly after that many |
| `DrainLoop.BenchmarkClient.constructor` | example/lat_bw_benchmark.cc:41-58 | A fresh ring of 1000 blocks with nothing outstanding |
| `DrainLoop.BenchmarkClient.Post` | example/lat_bw_benchmark.cc:213-216 | A request gets a block that no outstanding request uses |
| `DrainLoop.BenchmarkClient.PollSome` | example/lat_bw_benchmark.cc:223-226 | With something outstanding the poll loop ends, with at least one completion and at most the batch size |
| `DrainLoop.BenchmarkClient.OneByOne` | example/lat_bw_benchmark.cc:168-202 | 1000 requests one at a time leave nothing outstanding and the ring one turn on |
| `DrainLoop.BenchmarkClient.WriteBandwidth` | example/lat_bw_benchmark.cc:204-248 | For any batches the bounded loop counts exactly 1000 completions, never polls with none outstanding, and stays within max_send_wr; full batches take 8 polls |
| `CqRegistry.RDMADevice.CreateCompletionQueue` | src/rdma_device.cc:295-331 | Returns the key's queue, creating it if there is none, and changes nothing else |
| `CqRegistry.StepKeeps` | src/rdma_device.cc:267-331 | Every locked action keeps handles unique and every finished thread on its key's queue |
| `CqRegistry.SameQueueIff` | src/rdma_session.cc:440-462 | Under any interleaving two channels have one queue exactly if they use one key |
| `CqRegistry.DistinctNeverFails` | src/rdma_adapter.cc:101-135 | With private keys of their own no interleaving fails the check |
| `CqRegistry.PrivateCheckIff` | src/rdma_adapter.cc:120-131 | Some interleaving fails the check exactly if a private key is used twice |
| `CqRegistry.CheckCanMiss` | src/rdma_adapter.cc:120-131 | For any private channel and any other that uses its key, the interleaving in which the two share a queue |
| `CqRegistry.SharingIff` | src/rdma_adapter.cc:101-135 | Some interleaving makes a private channel share its queue exactly if a private key is used twice |
| `CqRegistry.Running` | src/rdma_session.cc:129-156 | One thread per queue in use, with exactly its channels, in their order |
| `CqRegistry.ThreadsFollowKeys` | src/rdma_session.cc:129-156 | After any interleaved connect each channel is in one thread, two share it exactly if they share a key, and a private channel is alone |
| `TimeEvents.TimeEvent.Set` | include/util/time_event.h:185-215 | With assertions, accepts exactly durations of at least a tick; the event gets the next id of the counter all instances share, and ids stay distinct |
| `TimeEvents.NeverDue` | include/util/time_event.h:154-155 | An event with a period of 0, as a short duration gives without assertions, is never called and never removed |
| `TimeEvents.TimeEvent.Pass` | include/util/time_event.h:149-169 | The erase-while-iterating pass visits every event once, in order, and calls exactly those due and not cancelled |
| `TimeEvents.TimeEvent.Tick` | include/util/time_event.h:146-174 | One turn of the loop: when its pass begins, what it leaves of the events, and the drift it computes |
| `TimeEvents.TimeEvent.Loop` | include/util/time_event.h:141-175 | Pass k begins at start + (k + 1) ticks plus its lateness; events and calls are those of the passes in turn |
| `TimeEvents.RoundsSnoc` | include/util/time_event.h:146-174 | The loop's effect is that of its passes in order |
| `TimeEvents.NeverEarly` | include/util/time_event.h:141-175 | No pass begins before its tick; it is later than its own wait overshoots exactly if the turn before used up more than a tick |
| `TimeEvents.OnTime` | include/util/time_event.h:170-173 | If waits overshoot by at most e and work fits the rest of a tick, no pass is later than e |
| `TimeEvents.CatchesUp` | include/util/time_event.h:170-173 | After an overload of any length lateness shrinks by at least the spare time of every tick |
| `TimeEvents.CallsInOrder` | include/util/time_event.h:149-169 | A pass calls what is due in the order of the ids |
| `TimeEvents.Present` | include/util/time_event.h:185-215 | Since no id is used twice, looking an event up by its id finds it exactly if it is there |
| `TimeEvents.PassFinds` | include/util/time_event.h:149-169 | What a pass does to an event depends on that event alone |
| `TimeEvents.IntervalFires` | include/util/time_event.h:201-215 | An uncancelled interval of period t has been called floor(n / t) times after n passes |
| `TimeEvents.TimeoutFires` | include/util/time_event.h:185-199 | An uncancelled timeout is called exactly once, at its tick, and is gone then |
| `TimeEvents.CancelledNeverFires` | include/util/time_event.h:190-195 | A cancelled event is never called and is removed when due |
| `TimeEvents.CancelStops` | include/util/time_event.h:201-215 | An interval that is cancelled after some passes has been called once per full period of those passes and never again |

## Left out

- TimeEvents.TimeEvent.Tick: events are added between passes and cancelled before a pass, not by a function the pass itself calls; `m_events` is not locked in the source and concurrent insertion is not modelled.
- MeshTower.TowerChannel.ClientEvent: with a commented-out check failing the source goes on; what happens then is not stated, since no run gets there (`MeshTheorems.NoRunFails`).
- CqRegistry.RDMADevice.CreateCompletionQueue: one device; `get_device` and `register_adapter` are not modelled.
- SessionTexts.TextArrives: RESPONSE_EXCHANGE_KEY is not covered: it carries the descriptor or the text, depending on when it is fetched. Nor is a side whose texts differ from message to message, which no channel's do.
- The client tower's check that it has exactly one channel: the client is modelled over one.
- TimeEvents.NeverDue: the wrap-around of the 64-bit tick counter of an event is not modelled.
- LatBwTheorems.QuietClient: the one-sided tests between the rounds and BYEBYE are one step of the two-party machine; `DrainLoop` models them on the client, where the server takes no part. `write_bw_test_fake`, the same loop on one block, is not modelled.
- Several channels in one polling thread of the default session: for safety a thread's other channels only delay a channel's handlers, which any interleaving covers. They can delay them for ever: the thread passes the barrier of its channels one after the other (`src/rdma_session.cc:248`), so with two channels that the two sides hold in different orders each thread may wait for the other there, and `SessionTheorems.DeadlockFree`, which speaks of two running peers, never applies.
- ConnectionSetup.FrameSize: the frames of a connection are those of its end points. The services pass one-byte barriers of their own over the same connection (`src/rdma_session.cc:248`, `example/mesh_comm_service.cc:109`), which would shift the parity of the frames of a later reset; runs with both are not modelled.
- Bytes in the mesh service and in the benchmark: a block holds a descriptor or not; the byte layout is the one of the session protocol.
- Socket errors: a short `send` and a failing `recv` are fatal in the source and do not happen here; `recv_data`, which nothing calls, is not modelled.
- Configuration checks before any queue pair exists (a shared queue without a key, an adapter name that is too long) and the choice of MTU.
- Sockets, QoS options, argument parsing, IP discovery, logging, timing figures, device opening, port and GID queries: input, output and foreign hardware.
- Event channels, memory ordering and real threads.
- `release` and `reset` of `RDMABuffer`, deregistration (it does not reach the sub-blocks), and the channel destructor, which erases from a map while iterating over it.
- Buffer lookup by name: the map of a channel's own buffers is modelled as fields, the map of peer descriptors as one optional entry, the only key in use.
- The value of the `fd_` field of a descriptor, which is not set in the default session.
- Signed overflow of the ring counters: fewer than 2^31 calls of `next` and of `last` are assumed.
- Unit conversion and truncation in `TimeEvent`: durations are whole nanoseconds.
