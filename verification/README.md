# Wirestead verification

Dafny models of the parts of Wirestead where a hard property lives, with proofs
about every run, every stream or every interleaving.

- **Send ledger** (`SendAccounting`, `SendHistory`, `SendFates`, `SendPublished`,
  `SendSettling`, `SendLedger`). The ring-plus-sparse-map ledger is a class that refines
  a plain log of requests; every published field is a tally over that log.
- **Server session** (`Queues`, `SessionModel`, `SessionBytes`, `SessionOrder`,
  `SessionFates`, `SessionSettling`, `SessionEnds`, `Session`). Callers and the strand
  interleave at every mutex section, callback and socket call. Byte exactness, no
  stranding, order, fates, completions, losses and endings are proved of all runs; the
  session object, with the real ledger inside, runs exactly as the model does.
- **Reconnecting client** (`ClientModel`, `ClientPinning`, `ClientSockets`,
  `ClientOvertaken`, `ClientBytes`, `ClientOrder`, `ClientSettling`, `ClientFlow`,
  `ClientReconnect`, `Client`). Runs, connections, stale handlers and a handoff fenced
  only by the ledger: pinning, order, completions, losses, exact counters, no stranding,
  and that a client is never forgotten.
- **Framers** (`Octets`, `LengthPrefix`, `LineFraming`, `LineRoots`,
  `LineResync`, `PacketFraming`). Each incremental parser against a whole-stream rule, under
  every cutting.
- **Bounded receive** (`BoundedReceive`, `ReceiveBudget`). Transactional decoding
  on a copy under byte charges, and the lock-free budget at the grain of its atomic
  operations.
- **Callback gate and server aggregate** (`CallbackGate`, `ServerAggregate`).

`Options` and `Stepwise` are shared: an option type, and the step from single steps to
whole runs.

Concurrency is interleaving. A section under a mutex is one step, or several where
steps that take no mutex could come in between; each single atomic operation is one;
and a strand runs its posted handlers in order, cut where another thread can interfere. Threads,
user callbacks, socket completions and timers choose freely which step comes next.
Running out of memory is part of that choice where the source recovers from it: in
an admission, in starting a write, in creating a charge or a scope.

Where the code falls short of what it promises, the code is modelled as it is, with a
run that shows it, and the exact condition is proved unless said otherwise:

- A session with backpressure threshold 0 strands accepted data
  (`SessionBytes.FullCounterStrands`). With a positive one, a session at rest is
  empty iff no admission of it ever threw between its reservation and its post,
  because nothing gives the reserved bytes back (`SessionBytes.NothingIsStranded`).
  A session always drains as long as failed try-writes have left less than `high` and
  at most `low` bytes (`SessionBytes.RestIsDrained`). Every other leak that can occur has
  a run that comes to rest with backpressure on for good (`SessionBytes.LeakDecides`),
  and with an accepted write stranded if the leak leaves room for one
  (`SessionBytes.FullCounterStrands`).
- A connect attempt that times out while its success is already queued comes up late.
  If the retry's attempt then fails, the connection is given up without discarding
  its queues: they stay on the current connection_seq_ iff that never happens while they
  hold something (`ClientPinning.QueuesArePinned`, `ClientOvertaken.Overtaken`). If it
  succeeds, it replaces the socket and connection_seq_ does not move: what is handed to
  I/O goes out under the number it was admitted under on every run
  (`ClientPinning.ConnectionPinning`), but live requests stay with the socket they were
  admitted on iff no connect succeeds while another is up with live requests
  (`ClientSockets.SocketsArePinned`, `ClientOvertaken.Replaced`).
- A client strands nothing (`ClientFlow.NothingIsStranded`), unless a connection is given
  up as above, a write of the connection that is up completes as aborted (its handler
  clears writing_ and starts no other write: `ClientOvertaken.AbortedWriteStrands`), or
  throwing try-writes left as much in the queue counter as strands a session. This
  condition is sufficient; not every such run strands something.
- A client that failed, stopped from a callback and started again before the stop's
  cleanup ran, runs that cleanup in the new run; cleanup_started_ then suppresses the next
  stop's (`ClientOvertaken.LateCleanupDefeatsStop`). cleanup_started_ means a stop
  throughout a run iff that never happens (`ClientReconnect.CleanupsAreTimely`), and then
  stops are carried out (`ClientReconnect.StopIsCarriedOut`).
- A line framer equals whole-stream splitting on all streams iff its delimiter is
  one byte (`LineFraming.ExactForEveryStream`). The comment at
  wirestead/framer/line_framer.cc:103-108 says that a missed delimiter never
  misdelivers data; that holds iff the delimiter has no border, or is longer than any
  chunk it is searched in, or only empty lines are delivered and its borders come in
  complementary pairs (`LineResync.NeverMisdelivers`).
- An empty request behind a short write counts as written
  (`SendFates.BatchSplitsAtPrefix` has the exact rule).
- A lease released on a thread other than the one that took it leaves a stale entry
  in the gate's thread list; the list is exact throughout a run iff that never
  happens (`CallbackGate.ThreadsAreInside`, `CallbackGate.MovedLeaseLeavesItsThread`).

## Model

| member | source | states |
|---|---|---|
| `SendLedger.Replay` | wirestead/diagnostics/send_accounting.hpp:84-356 | every sequence of operations: ring and sparse map stand for the reference log; the totals are its tally, field by field, and conserve; the ring is a power of two within max(16, 4 x peak live requests) |
| `SendHistory.ConservationLaw` | wirestead/diagnostics/send_accounting.hpp:306-356 | for every log, epoch and group: accepted = written + outstanding + all losses, in requests and bytes; written <= confirmed <= written + aborted by loss |
| `SendFates.ReachableConservation` | wirestead/diagnostics/send_accounting.hpp:84-102 | the same law in every reachable state, for the totals and every group |
| `SendFates.FatesAreFinal` | wirestead/diagnostics/send_accounting.hpp:69-71 | over every run an ended request keeps its fate, bytes and epoch, and one handed to I/O is never later discarded before the write |
| `SendFates.BatchSplitsAtPrefix` | wirestead/diagnostics/send_accounting.hpp:149-159 | in a live batch item i is written iff it is empty or ends within the confirmed prefix; otherwise it is aborted by connection loss |
| `SendFates.EmptyRequestIsAlwaysWritten` | wirestead/diagnostics/send_accounting.hpp:306-321 | the empty-item case is real: an empty request behind a short write counts as written |
| `SendFates.StaleRequestsStaySilent` | wirestead/diagnostics/send_accounting.hpp:224-230 | after a reset every counter stays zero whatever happens to older requests, until one is admitted |
| `SendFates.StaleOpIsInvisible` | wirestead/diagnostics/send_accounting.hpp:333-338 | settling a request of an earlier epoch changes no counter, of the totals or of any group |
| `SendPublished.FieldsCount` | wirestead/diagnostics/send_accounting.hpp:306-356 | every field of a snapshot, for every log, epoch and group, as a count of the log: a request cut off before the handoff is under discarded_before_write of its cause and nowhere else, one cut off after it, or confirmed in part, under aborted_during_write |
| `SendPublished.EndPublishes` | wirestead/diagnostics/send_accounting.hpp:201-212 | exactly the two fields of the cause grow: discarded_before_write by all waiting requests of the epoch, aborted_during_write by all active ones |
| `SendPublished.DiscardPublishes` | wirestead/diagnostics/send_accounting.hpp:161-167 | exactly the field that the request's handoff decides grows, by that request; nothing for a retired one |
| `SendPublished.DiscardWaitingPublishes` | wirestead/diagnostics/send_accounting.hpp:177-197 | discarded_before_write of the cause grows by the contributor's waiting requests, and no other field |
| `SendPublished.CompletePublishes` | wirestead/diagnostics/send_accounting.hpp:149-159 | written grows by the live items within the confirmed prefix, connection_loss.aborted_during_write by the others, confirmed bytes by the prefix's part in them; retired items only consume the prefix |
| `SendLedger.MaskWraps` | wirestead/diagnostics/send_accounting.hpp:241-242 | for a power of two the bit mask is the remainder, and equals one conditional subtraction inside the ring |
| `SendLedger.Ledger.Admit` | wirestead/diagnostics/send_accounting.hpp:84-102 | a new id one above the last, a waiting record, and both counters |
| `SendLedger.Ledger.Begin` | wirestead/diagnostics/send_accounting.hpp:299-304 | a live request becomes active; a retired one is refused |
| `SendLedger.Ledger.BeginBatch` | wirestead/diagnostics/send_accounting.hpp:129-140 | all of the batch, or none of it if any request has ended |
| `SendLedger.Ledger.Complete` | wirestead/diagnostics/send_accounting.hpp:306-321 | one request settles as written or aborted by its confirmed bytes |
| `SendLedger.Ledger.CompleteBatch` | wirestead/diagnostics/send_accounting.hpp:149-159 | the confirmed prefix is consumed in wire order, also by retired ids; written, aborted and confirmed totals grow by exactly what lies in and out of it |
| `SendLedger.Ledger.Discard` | wirestead/diagnostics/send_accounting.hpp:161-167 | a live request ends under the cause: exactly the published field that its handoff decides grows, by that request |
| `SendLedger.Ledger.DiscardWaiting` | wirestead/diagnostics/send_accounting.hpp:175-197 | exactly the group's waiting requests end, all published as discarded before the write; active and foreign ones are untouched |
| `SendLedger.Ledger.End` | wirestead/diagnostics/send_accounting.hpp:199-212 | every live request ends, waiting ones published as discarded before the write and active ones as aborted during it, and the ring restarts behind the last id |
| `SendLedger.Ledger.Rollback` | wirestead/diagnostics/send_accounting.hpp:323-332 | the request disappears from accepted and outstanding |
| `SendLedger.Ledger.Reset` | wirestead/diagnostics/send_accounting.hpp:224-230 | a new epoch with zero totals; live requests stay |
| `SendLedger.Ledger.MakeRoom` | wirestead/diagnostics/send_accounting.hpp:244-269 | promotion or growth leaves the represented map unchanged and keeps the capacity bound |
| `SendLedger.Ledger.Promote` | wirestead/diagnostics/send_accounting.hpp:250-262 | live ring entries move to the sparse map and the represented map does not change |
| `SendLedger.Ledger.Grow` | wirestead/diagnostics/send_accounting.hpp:265-268 | the ring doubles and keeps every entry |
| `SendLedger.Ledger.Compact` | wirestead/diagnostics/send_accounting.hpp:291-297 | retired heads are dropped; the head is live or the ring is empty |
| `SendLedger.Ledger.Find` | wirestead/diagnostics/send_accounting.hpp:271-279 | an entry is found iff its request is live, and it is that request's entry |
| `SendLedger.Ledger.Contains` | wirestead/diagnostics/send_accounting.hpp:169-173 | true iff the request is live |
| `SendLedger.Ledger.SnapshotAll` | wirestead/diagnostics/send_accounting.hpp:214-217 | the totals are the tally of the current epoch |
| `SendLedger.Ledger.SnapshotOf` | wirestead/diagnostics/send_accounting.hpp:219-222 | a group's totals are its tally of the current epoch, and zero before it joins it |
| `SendAccounting.AccumulateConserves` | wirestead/diagnostics/send_accounting.hpp:31-50 | contributors that each obey the law obey it together |
| `Queues.TakeGatherBatch` | wirestead/transport/base/bp_utils.hpp:219-236 | the front of the queue moves to the batch, in order, with its byte total: at most 16 buffers, below the byte cap but for the last, and short only where a cap stops it (no other batch is such) |
| `Queues.ReturnGatherBatch` | wirestead/transport/base/bp_utils.hpp:240-246 | a refused batch goes back in front, in order |
| `Queues.TakeThenReturn` | wirestead/transport/base/bp_utils.hpp:219-246 | taking a batch and returning it restores the queue |
| `Queues.DecideEnqueue` | wirestead/transport/base/bp_state_machine.hpp:65-74 | rejected iff queue, pending and added bytes exceed the limit, and otherwise pending iff backpressure is active |
| `SessionBytes.BytesStayExact` | wirestead/transport/base/bp_utils.hpp:41-141 | every run and interleaving, throwing admissions included: queue + pending + inflight <= limit; until closing each counter is exactly the bytes it stands for plus the bytes failed admissions left in it |
| `SessionBytes.ReservedWritesAreNeverRejected` | wirestead/transport/base/bp_state_machine.hpp:65-74 | a reserved write is never rejected when it is routed |
| `SessionBytes.RestIsDrained` | wirestead/transport/tcp_server/tcp_server_session.cc:509-567 | a run at rest has nothing queued, backpressure off and counters equal to the leak, whenever what failed try-writes left is below high and at most low (or high is above the limit) |
| `SessionBytes.NothingIsStranded` | wirestead/transport/tcp_server/tcp_server_session.cc:509-567 | every session at rest is empty iff no admission of it ever threw, for all runs, iff the threshold is at least 1 |
| `SessionBytes.LeakDecides` | wirestead/transport/tcp_server/tcp_server_session.cc:133-155 | for every threshold and leak: all runs that come to rest with that leak are drained iff it is below high and at most low (or high is above the limit), or it is more than the threshold, which no run leaks |
| `SessionBytes.LeakIsBounded` | wirestead/transport/base/bp_utils.hpp:41-141 | on every run what failed try-writes left, and what one being admitted may leave, is at most the threshold |
| `SessionBytes.FailuresStrand` | wirestead/transport/tcp_server/tcp_server_session.cc:133-155 | when admissions may throw, every run at rest is drained iff the threshold exceeds the maximum limit, so that backpressure never turns on; at all other thresholds a run at rest has an accepted write in pending_ |
| `SessionBytes.FullCounterStrands` | wirestead/transport/tcp_server/tcp_server_session.cc:46-49 | for every unbearable leak a run with exactly that leak at rest and not drained, with a stranded write if the limit leaves a byte; without any failed admission for leak 0 (threshold 0) |
| `SessionBytes.ClosingIsForever` | wirestead/transport/tcp_server/tcp_server_session.cc:429-434 | closing is never undone |
| `SessionOrder.WireFollowsAcceptance` | wirestead/transport/tcp_server/tcp_server_session.cc:644-679 | each kind of write reaches the wire in acceptance order without gaps, and until closing the rest is exactly the backlog in that order |
| `SessionFates.SessionFatesAreFinal` | wirestead/transport/tcp_server/tcp_server_session.cc:459-473 | over every run and continuation a settled request keeps its fate and an ended wait its cause |
| `SessionFates.LedgerMatchesSession` | wirestead/transport/tcp_server/tcp_server_session.cc:509-578 | accepted writes and requests not rolled back match one to one; live requests are exactly the items between admission and completion, active ones exactly the batch; a closing session has none and has ended its waits |
| `SessionFates.DiscardedWasNeverHandedOver` | wirestead/transport/tcp_server/tcp_server_session.cc:509-517 | discarded before write means the payload was never in a batch given to async_write |
| `SessionFates.SessionStatsConserve` | wirestead/transport/tcp_server/tcp_server_session.cc:443-449 | a session's published counters conserve in every reachable state |
| `SessionSettling.CompletionsAreFinal` | wirestead/transport/tcp_server/tcp_server_session.cc:525-548 | whenever a write's handler runs on an open session, each item of its batch has for good its part of the first min(n, size) bytes, and is written iff it is empty or ends within them |
| `SessionSettling.WrittenIsWhatCompleted` | wirestead/transport/tcp_server/tcp_server_session.cc:525-548 | on every run and for every epoch the published written requests and confirmed bytes are exactly what the completions confirmed |
| `SessionSettling.CompletionConfirms` | wirestead/transport/tcp_server/tcp_server_session.cc:530-535 | a completed batch of the epoch adds exactly min(n, size of the write) confirmed bytes |
| `SessionSettling.LossesAreCharged` | wirestead/transport/tcp_server/tcp_server_session.cc:429-473 | discarded_before_write counts exactly the lost requests whose payload was never given to the socket, aborted_during_write those whose payload was (and short writes); all under the cause that closed the session, none under another |
| `SessionSettling.WaitsEndWithTheirCause` | wirestead/transport/tcp_server/tcp_server_session.cc:421-440 | waiting senders are told of a cancellation by a stop or cancel, and that the session is not ready by a loss or asynchronous stop, whichever is first |
| `SessionEnds.WritesAreJudged` | wirestead/transport/tcp_server/tcp_server_session.cc:113-181 | what is accepted and with what reason anything else is refused; an accepted write has exactly its bytes reserved, a refused one changes nothing |
| `SessionEnds.EndsClose` | wirestead/transport/tcp_server/tcp_server_session.cc:429-473 | in every reachable state a stop closes at once and a loss with the next strand step |
| `SessionEnds.FailedWritesClose` | wirestead/transport/tcp_server/tcp_server_session.cc:536-567 | a completed write closes the session iff it failed or was short; a write that cannot be started does |
| `SessionEnds.EndedSessionsAreEmpty` | wirestead/transport/tcp_server/tcp_server_session.cc:569-619 | a session stopped asynchronously or lost comes to rest cleaned up, with empty queues, counters at zero but for the leak, and no request outstanding |
| `Session.Replay` | wirestead/transport/tcp_server/tcp_server_session.cc:78-679 | every run of the session object, ring ledger inside, is the model's run: counters within the limit and exact, nothing stranded under a bearable leak, each kind of write in order, fates settled, completed writes settled and published along their prefixes, losses and waits charged to their causes, published totals the tally and conserving, all on its own fields |
| `Session.TcpServerSession.Post` | wirestead/transport/tcp_server/tcp_server_session.cc:211-224 | ledger entry and posted handler of an accepted write |
| `Session.TcpServerSession.AbandonAdmission` | wirestead/transport/tcp_server/tcp_server_session.cc:139-155 | an admission that throws rolls its ledger entry back and keeps its reservation |
| `Session.TcpServerSession.Terminate` | wirestead/transport/tcp_server/tcp_server_session.cc:429-434 | the terminal section of stop and loss: ledger ended, closing, wait cause set once |
| `Session.TcpServerSession.AsyncStop` | wirestead/transport/tcp_server/tcp_server_session.cc:459-473 | the terminal section and one posted cleanup |
| `Session.TcpServerSession.ResetStats` | wirestead/transport/tcp_server/tcp_server_session.cc:451-455 | a new ledger epoch, nothing else |
| `Session.TcpServerSession.RunHandler` | wirestead/transport/tcp_server/tcp_server_session.cc:213-221 | the strand runs the next posted handler, releasing the reservation of one that finds the session closed |
| `Session.TcpServerSession.CompleteWrite` | wirestead/transport/tcp_server/tcp_server_session.cc:525-548 | completion settles the batch by its prefix, and written and confirmed totals grow by exactly what min(n, size) bytes cover; a failure ends the session in the same section |
| `Session.TcpServerSession.FlushPending` | wirestead/transport/tcp_server/tcp_server_session.cc:667-674 | pending moves behind tx in order, with its bytes |
| `Session.TcpServerSession.BeginWrite` | wirestead/transport/tcp_server/tcp_server_session.cc:509-520 | one gathered batch at a time, as long as the caps allow, begun in the ledger under the admission mutex |
| `Session.TcpServerSession.Initiate` | wirestead/transport/tcp_server/tcp_server_session.cc:521-566 | a throwing initiation ends the session as a connection loss |
| `Session.TcpServerSession.DoClose` | wirestead/transport/tcp_server/tcp_server_session.cc:569-578 | cleanup once; the ledger ends and the wait gets its cause |
| `ClientPinning.ConnectionPinning` | wirestead/transport/tcp_client/tcp_client.cc:304-310 | every run of connects, late connects, losses, timeouts, stops and restarts: whatever was handed to I/O went out under the connection_seq_ that admitted it; live requests are on the current connection_seq_, up and not stopping |
| `ClientPinning.QueuesArePinned` | wirestead/transport/tcp_client/tcp_client.cc:1217-1218 | every item in tx, pending or the active batch is on the current connection_seq_ throughout a run (a loss being handled aside) iff no connect attempt of it fails while another attempt's connection holds something |
| `ClientPinning.QueuesBelongToConnection` | wirestead/transport/tcp_client/tcp_client.cc:1525-1545 | between handlers of such a run every item in tx, pending or the active batch was admitted on the current connection_seq_ |
| `ClientPinning.LiveQueuesBelongToConnection` | wirestead/transport/tcp_client/tcp_client.cc:1355-1363 | on every run what is queued and can still be handed over was admitted on the current connection_seq_ |
| `ClientSockets.SocketsArePinned` | wirestead/transport/tcp_client/tcp_client.cc:1189-1200 | every live request was admitted on the socket that is up, in every state of a run, iff no connect of it succeeds while another is up with live requests |
| `ClientSockets.HandoffsKeepTheirSocket` | wirestead/transport/tcp_client/tcp_client.cc:1355-1367 | on such a run everything handed to I/O went to the very socket it was admitted on |
| `ClientOvertaken.Replaced` | wirestead/transport/tcp_client/tcp_client.cc:1189-1200 | a run in which a second connect succeeds over a late one and a write is handed to a socket it was not admitted on, under one connection_seq_ |
| `ClientOvertaken.Overtaken` | wirestead/transport/tcp_client/tcp_client.cc:1076-1106 | a run in which a late connect is overtaken by a failing retry and a write stays queued under an old connection number |
| `ClientOvertaken.AbortedWriteStrands` | wirestead/transport/tcp_client/tcp_client.cc:1395-1402 | a run in which a write completes as aborted on a connection that stays up, and the accepted write behind it stays in tx_ with nothing due |
| `ClientPinning.ClientFatesAreFinal` | wirestead/transport/tcp_client/tcp_client.cc:1370-1440 | no later completion, loss or stop revises a settled request |
| `ClientOrder.ClientWireFollowsAcceptance` | wirestead/transport/tcp_client/tcp_client.cc:1595-1634 | under each connection_seq_ each kind of write reaches the wire in acceptance order without gaps; unless stopping, the rest of the current one is exactly the taken batch, tx, pending, the write being routed and the posted ones, in that order |
| `ClientBytes.ClientStaysWithinLimit` | wirestead/transport/tcp_client/tcp_client.cc:553-640 | on every run, restarts included: queue + pending + inflight <= limit, the in-flight and pending counters exact, and no accepted write rejected when it is routed |
| `ClientSettling.ClientCompletionsAreFinal` | wirestead/transport/tcp_client/tcp_client.cc:1370-1392 | whenever a write completes, on whichever connection, each item still live has for good its part of the confirmed prefix, and is written iff it is empty or ends within it |
| `ClientSettling.ClientWrittenIsWhatCompleted` | wirestead/transport/tcp_client/tcp_client.cc:1370-1392 | on every run and for every epoch the published written requests and confirmed bytes are exactly what completions confirmed of live requests |
| `ClientSettling.ClientLossesAreCharged` | wirestead/transport/tcp_client/tcp_client.cc:303-310 | each request cut off is charged for good to the stop or loss that did it; the published loss fields are exactly that, split by what the socket was given |
| `ClientFlow.NothingIsStranded` | wirestead/transport/tcp_client/tcp_client.cc:1332-1440 | on every calm run the queue counter is exact while a connection is up, and a client at rest with a bearable leak has nothing queued or in flight and backpressure off |
| `ClientReconnect.NeverForgotten` | wirestead/transport/tcp_client/tcp_client.cc:1217-1290 | unless a connect or retry wait of its run is cancelled, a started client that is not stopping and has reported no terminal state is, between handlers, connected, connecting or waiting to retry |
| `ClientReconnect.LossesAreDealtWith` | wirestead/transport/tcp_client/tcp_client.cc:1453-1545 | a closed or idle connection is taken down under the next number with its requests ended and its queues discarded; then the client retries, or closes if the idle timeout says so |
| `ClientReconnect.CleanupsAreTimely` | wirestead/transport/tcp_client/tcp_client.cc:1692-1693 | throughout a run cleanup_started_ is set only while stopping iff no cleanup of an earlier stop begins in a run that was started since |
| `ClientReconnect.StopIsCarriedOut` | wirestead/transport/tcp_client/tcp_client.cc:447-471 | on such a run a stopped client, once nothing is posted, has been cleaned up: no connection up and no request outstanding |
| `ClientOvertaken.LateCleanupDefeatsStop` | wirestead/transport/tcp_client/tcp_client.cc:1692-1693 | a run that stops and restarts a failed client before the cleanup ran, after which the next stop leaves it connected for good |
| `ClientReconnect.ClientWritesAreJudged` | wirestead/transport/tcp_client/tcp_client.cc:240-250 | what exactly a client takes, for the connection the caller expects; an accepted write has exactly its bytes reserved, a refused one changes nothing |
| `Client.Replay` | wirestead/transport/tcp_client/tcp_client.cc:387-1840 | every run of the client object, ring ledger inside, is the model's run: handoffs and live requests pinned by connection_seq_, handoffs to their socket unless one was replaced, all queues unless overtaken; each kind of write in order; counters within the limit; completions settled along their prefixes and losses charged to their causes; nothing stranded on calm runs; not forgotten unless cancelled; stops carried out unless a cleanup came late; published totals the tally and conserving, all on its own fields |
| `Client.TcpClient.MarkDisconnected` | wirestead/transport/tcp_client/tcp_client.cc:303-310 | once per connection: ledger ended, connection number advanced |
| `Client.TcpClient.Stop` | wirestead/transport/tcp_client/tcp_client.cc:447-471 | the first stop ends the ledger and posts (or, unstarted, runs) the cleanup |
| `Client.TcpClient.Start` | wirestead/transport/tcp_client/tcp_client.cc:387-445 | a new run with fresh counters; refused while connecting or connected |
| `Client.TcpClient.DoWrite` | wirestead/transport/tcp_client/tcp_client.cc:1332-1356 | takes a batch, as long as the caps allow, only when connected and not stopping |
| `Client.TcpClient.BeginWrite` | wirestead/transport/tcp_client/tcp_client.cc:1357-1367 | the ledger alone fences the handoff; a refused batch returns to tx |
| `Client.TcpClient.OnWrite` | wirestead/transport/tcp_client/tcp_client.cc:1370-1429 | a stale completion only settles its own requests; a failed one ends the connection |
| `Client.TcpClient.ScheduleRetry` | wirestead/transport/tcp_client/tcp_client.cc:1217-1290 | marks the loss, then retries or fails by the policy |
| `Client.TcpClient.FinishCleanup` | wirestead/transport/tcp_client/tcp_client.cc:1692-1740 | stop's cleanup ends in Closed with backpressure off |
| `LengthPrefix.RoundTrip` | wirestead/framer/length_prefix_framer.cc:41-100 | any payloads that fit, encoded and pushed in any pieces, come out as exactly that list with an empty buffer; 1, 2 or 4 bytes, both orders, both conventions |
| `LengthPrefix.AnyCutting` | wirestead/framer/length_prefix_framer.cc:53-100 | a stream without corrupt headers yields the same messages and remainder under every cutting |
| `LengthPrefix.BufferIsBounded` | wirestead/framer/length_prefix_framer.cc:76-88 | on any input the buffer at rest is shorter than one header and one payload |
| `LengthPrefix.Framer.ReadLength` | wirestead/framer/length_prefix_framer.cc:41-51 | the length field in either byte order, if it is complete |
| `LengthPrefix.Framer.PushBytes` | wirestead/framer/length_prefix_framer.cc:53-100 | delivers the whole frames of buffer and data, keeps the rest, drops everything on a corrupt header, and does not reallocate when the data fits |
| `LineFraming.FramesWholeStream` | wirestead/framer/line_framer.cc:65-241 | every cutting delivers exactly the lines of content at most max_length, for every stream with a one-byte delimiter and with any delimiter when every line fits; the state holds exactly the unfinished line |
| `LineFraming.ExactForEveryStream` | wirestead/framer/line_framer.cc:102-116 | equality for every stream and cutting holds iff the delimiter is one byte |
| `LineFraming.SplitDelimiterLosesALine` | wirestead/framer/line_framer.cc:102-116 | with any longer delimiter a concrete cutting loses a line |
| `LineFraming.BufferIsBounded` | wirestead/framer/line_framer.cc:47-54 | on any input at most max_length + |delimiter| - 1 bytes are held |
| `LineResync.NeverMisdelivers` | wirestead/framer/line_framer.cc:102-116 | nothing but the stream's own lines is delivered, in order, on every stream and cutting, iff the delimiter has no border, or is longer than any scanned chunk, or max_length is 0 and what is left beside each border is a border |
| `LineResync.OnlyLinesAreDelivered` | wirestead/framer/line_framer.cc:102-116 | with such a delimiter the delivered messages are the kept lines with some left out |
| `LineResync.EmptyLinesOnly` | wirestead/framer/line_framer.cc:102-116 | with max_length 0 and such borders no empty line is delivered too many, on every stream and cutting |
| `LineResync.BorderMisdelivers` | wirestead/framer/line_framer.cc:102-116 | with a border a concrete cutting delivers a message that is no line |
| `LineResync.EmptyLineTooMany` | wirestead/framer/line_framer.cc:102-116 | with max_length 0 and another border a concrete cutting delivers an empty line too many |
| `LineFraming.Framer.SkipUntilDelimiter` | wirestead/framer/line_framer.cc:83-97 | where the data resumes behind the first delimiter, if there is one |
| `LineFraming.Framer.ScanAndProcess` | wirestead/framer/line_framer.cc:172-241 | the lines found from the cursor on, and how much is done with |
| `LineFraming.Framer.PushBytesInternal` | wirestead/framer/line_framer.cc:99-170 | one chunk: resynchronise, then the zero-copy or the buffered path; no reallocation when it fits |
| `LineFraming.Framer.PushBytes` | wirestead/framer/line_framer.cc:65-81 | the chunks in turn; no reallocation when the data fits |
| `PacketFraming.FramesWholeStream` | wirestead/framer/packet_framer.cc:56-252 | every cutting delivers exactly the first-start/first-end packets for streams whose packets and open packet fit max_length (every stream without an end pattern), and holds exactly what still matters of the rest |
| `PacketFraming.OnePush` | wirestead/framer/packet_framer.cc:59-143 | one push into an empty framer delivers exactly the packets that fit, on every input |
| `PacketFraming.BufferIsBounded` | wirestead/framer/packet_framer.cc:118-142 | on any input an open packet is within max_length and anything else shorter than the start pattern |
| `PacketFraming.Framer.FastPath` | wirestead/framer/packet_framer.cc:60-116 | the zero-copy loop |
| `PacketFraming.Framer.Run` | wirestead/framer/packet_framer.cc:147-251 | the Sync/Collect loop ends, by buffer length and state, and its should-not-happen branch is unreachable |
| `PacketFraming.Framer.Offset` | wirestead/framer/packet_framer.cc:193-215 | the resume position lies behind the start pattern and inside the buffer |
| `PacketFraming.Framer.PushBytes` | wirestead/framer/packet_framer.cc:56-252 | the whole push; no reallocation when the data fits |
| `BoundedReceive.PrepareReceive` | wirestead/wrapper/bounded_receive.hpp:226-274 | on overflow the framer is unchanged and nothing more is charged (a first charge for its buffer aside); on success framer and messages are those of pushing the input in the named pieces, capacity <= charge and frame limit, and beside the buffer's charge exactly every payload byte and one record per message is held; a byte overflow comes with a refused reservation, a frame overflow with a filled buffer |
| `BoundedReceive.ReceiveEach` | wirestead/wrapper/udp/udp.cc:585-615 | one outcome per input; what is delivered is the messages of the taken inputs' outcomes and the whole-stream meaning of those inputs alone, so a rejected input leaves no trace; each byte overflow has a refused reservation of its own, each frame overflow a filled buffer; what is held afterwards is exactly the payloads and records of what was taken |
| `BoundedReceive.AnyCuttingMeans` | wirestead/wrapper/bounded_receive.hpp:246-269 | each built-in framer delivers the meaning of the stream however it is cut |
| `BoundedReceive.Stage` | wirestead/wrapper/bounded_receive.hpp:246-269 | the chunk loop ends; the copy's state and messages are those of the pieces; charges cover the copy's capacity |
| `BoundedReceive.MakeRoom` | wirestead/wrapper/bounded_receive.hpp:251-266 | room within the limit under a charge; a growing buffer doubles, reaches the limit or is exact |
| `BoundedReceive.RetainAll` | wirestead/wrapper/bounded_receive.hpp:71-78 | every message under a charge of its size and a record |
| `BoundedReceive.Handle.Clone` | wirestead/wrapper/bounded_receive.hpp:150-157 | the same state in a buffer without headroom |
| `BoundedReceive.Handle.ReserveExact` | wirestead/wrapper/bounded_receive.hpp:158-166 | a larger capacity with the same contents |
| `BoundedReceive.Handle.Commit` | wirestead/wrapper/bounded_receive.hpp:167-180 | the two framers exchange their whole state |
| `ReceiveBudget.BudgetIsExact` | wirestead/wrapper/receive_budget.hpp:57-160 | at every atomic step of every run: scopes together <= budget <= max_bytes, sessions <= max_sessions; with nothing midway budget, scopes together and each scope equal the live charges |
| `ReceiveBudget.NothingWraps` | wirestead/wrapper/receive_budget.hpp:57-97 | no addition or subtraction a thread is about to apply can wrap |
| `ReceiveBudget.ClosedScopesAreEmpty` | wirestead/wrapper/receive_budget.hpp:79-79 | a scope that is gone counts nothing |
| `ReceiveBudget.MergeFits` | wirestead/wrapper/receive_budget.hpp:116-120 | a merged charge does not wrap |
| `ReceiveBudget.WhatFitsIsGranted` | wirestead/wrapper/receive_budget.hpp:57-66 | from every reachable state an undisturbed reservation leaves one live charge of exactly its bytes on budget and scope iff they fit under max_bytes; otherwise nothing changes |
| `ReceiveBudget.WhatIsReleasedComesBack` | wirestead/wrapper/receive_budget.hpp:94-125 | a destroyed charge gives back all its bytes, a shrunk one the difference, to budget and scope |
| `ReceiveBudget.SessionsAreAdmitted` | wirestead/wrapper/receive_budget.hpp:143-158 | an undisturbed open_scope adds one empty scope iff sessions are below max_sessions |
| `ReceiveBudget.ClosingFreesASession` | wirestead/wrapper/receive_budget.hpp:79-79 | a destroyed scope was empty and frees exactly its session |
| `ReceiveBudget.MergingMovesBytes` | wirestead/wrapper/receive_budget.hpp:116-120 | a merge moves the other charge's bytes over and changes nothing else |
| `ReceiveBudget.RoundsAreExact` | wirestead/wrapper/receive_budget.hpp:57-66 | a compare-exchange succeeds, by exactly its amount, only on the current value, and one that fails has read it |
| `ReceiveBudget.RefusalsHaveCauses` | wirestead/wrapper/receive_budget.hpp:57-66 | under any interference whoever is refused had a moment in the run when the bytes did not fit or all sessions were taken |
| `CallbackGate.RunningCountsLeases` | wirestead/wrapper/callback_guard.hpp:139-167 | the running count equals the outstanding leases in every reachable state |
| `CallbackGate.Replay` | wirestead/wrapper/callback_guard.hpp:139-204 | every run of the gate object is the model's run, its count the outstanding leases; it reports idle iff no lease is held, and a thread active iff it is inside a callback when every release is by the thread that took the lease |
| `CallbackGate.ShutdownIsComplete` | wirestead/wrapper/callback_guard.hpp:169-204 | after close and a later idle observation no lease of that run or an earlier one is held in any later state, and none was admitted after the close |
| `CallbackGate.AdmissionIsExact` | wirestead/wrapper/callback_guard.hpp:160-187 | after every run a callback is admitted, counted and held iff it belongs to the run opened last and the gate was not closed since; otherwise nothing happens |
| `CallbackGate.ThreadsAreInside` | wirestead/wrapper/callback_guard.hpp:139-194 | the thread list counts each thread as often as it is inside a callback, in every state of a run, iff every release of a held lease is by the thread that took it |
| `CallbackGate.ActiveIsExact` | wirestead/wrapper/callback_guard.hpp:189-194 | on such a run a thread is listed iff it is inside a callback |
| `CallbackGate.MovedLeaseLeavesItsThread` | wirestead/wrapper/callback_guard.hpp:141-152 | a lease released on another thread leaves its entry behind |
| `CallbackGate.CallbackGate.Leave` | wirestead/wrapper/callback_guard.hpp:141-152 | one callback fewer and the first entry of the thread gone |
| `ServerAggregate.StatsAreExact` | wirestead/transport/tcp_server/tcp_server.cc:759-793 | in every reachable state stats() is the sum over all sessions ever accepted of what they admitted since the last reset or restart, and conserves |
| `ServerAggregate.WalksAreExact` | wirestead/transport/tcp_server/tcp_server.cc:759-793 | stats() may see each session at a different moment: its report is exact for the sessions as seen, and conserves |
| `ServerAggregate.AnyCutIsReachable` | wirestead/transport/tcp_server/tcp_server.cc:763-767 | sessions seen at different moments are together the sessions of one reachable state |
| `ServerAggregate.AbsorbedIsFinal` | wirestead/transport/tcp_server/tcp_server.cc:469-491 | an absorbed session stays absorbed, has nothing outstanding and its ledger never changes again |
| `ServerAggregate.StopIsCarriedOut` | wirestead/transport/tcp_server/tcp_server.cc:535-571 | from every reachable state with ended sessions a stop and its cleanup absorb every session, leave the server down and stats() the sum over all of them |
| `ServerAggregate.SessionsComeAndGo` | wirestead/transport/tcp_server/tcp_server.cc:466-505 | an accepted connection is a live session; an ended one leaves its map with its totals kept |
| `ServerAggregate.Replay` | wirestead/transport/tcp_server/tcp_server.cc:640-805 | every run of the server object is the model's run, and what its stats() returns is the sum over all sessions it ever had |
| `ServerAggregate.TcpServer.OnClose` | wirestead/transport/tcp_server/tcp_server.cc:469-483 | the disconnect transfer: absorbed and erased in one section, once, also just after stop |
| `ServerAggregate.TcpServer.PerformCleanup` | wirestead/transport/tcp_server/tcp_server.cc:540-545 | all live sessions become retiring ones |
| `ServerAggregate.TcpServer.OnRetired` | wirestead/transport/tcp_server/tcp_server.cc:556-567 | a stopped session is absorbed and erased, once |
| `ServerAggregate.TcpServer.Restart` | wirestead/transport/tcp_server/tcp_server.cc:647-668 | a new run starts from zero totals, with every earlier session forgotten |
| `ServerAggregate.TcpServer.Stats` | wirestead/transport/tcp_server/tcp_server.cc:759-793 | retained totals and both maps, walked in any order, give the model's report |
| `ServerAggregate.TcpServer.ResetStats` | wirestead/transport/tcp_server/tcp_server.cc:795-805 | the retained totals and every session in either map start over |

## Left out

- Sockets, TLS, resolver, timers and acceptors: they appear only as events (a write completes with a count and an outcome, a timer fires, a connect succeeds or fails).
- Serial, UDP and UDS transports, wrappers, builders, configuration, logging and the memory pool: the write paths would repeat the client's, the rest is range checks and plumbing.
- Integer width: counters, ids, generations and capacities are unbounded, except in `ReceiveBudget`, where size_t wrap-around is written out and proved not to happen. The saturation in max_partial_length and the overflow throw in append_bytes need more than 2^64 bytes.
- Legacy RuntimeStats counters (sent, dropped, peaks): separate from the ledger. In `ReceiveBudget` the peaks and overflow counters, which no decision reads, are left out too.
- Allocation failures inside strand handlers (growing tx or pending) and in pooled buffers: not events; an admission whose pooled attempt fails and falls back is a failed admission followed by another one.
- Order of checks: a session write checks liveness before size; try_write_copy looks at the size first, so a write that fails both ways can carry the other reason. The client model has acceptance but not which reason a refusal carries, and no wait objects of blocked senders.
- ClientFlow.NothingIsStranded: one way. `ClientOvertaken.Overtaken` and `ClientOvertaken.AbortedWriteStrands` are runs in which either exception leaves data behind; not every run with such an event does, and which ones do is not stated.
- Client.TcpClient.Start: the caller's half of start() is one step, taken between strand handlers or from the last callback of one. A client that owns its context joins the context's thread first (wirestead/transport/tcp_client/tcp_client.cc:405-407); on a foreign context a start that overlaps a handler is a data race on pending_.
- Framer callbacks that call reset() from inside push_bytes: callbacks do not reset the framer here.
- LengthPrefix.AnyCutting: a stream with a corrupt header is outside, because the framer then drops whatever the same push brought with it.
- PacketFraming.FramesWholeStream: a packet longer than max_length that is cut makes the framer resynchronise inside it; such streams are covered only by `PacketFraming.OnePush` and `PacketFraming.BufferIsBounded`.
- BoundedReceive.PrepareReceive: a null or custom framer, which is only handed the input at delivery, is not modelled; a refused reservation is nondeterministic, since other sessions draw on the budget.
- ReceiveBudget.BudgetIsExact: a charge's own size is lowered in the first step of shrink or destruction; only its owner reads it in between.
- ServerAggregate.TcpServer.ResetStats: one step although it visits the sessions in turn, which commutes with the steps of the others. Legacy counters are not part of the server's report here.
- CallbackGate.ShutdownIsComplete: waiting is observing a running count of zero; the condition variable is not modelled.
