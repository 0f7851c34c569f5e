# Verified model of the Charm++ runtime core

This project models the protocols at the heart of the Charm++ runtime and proves what they
promise, for every run or every input.  It is written for Dafny 4.11; `dfyconfig.toml` lists the
files.

What is modelled, and the files that do it:

- **Causal message logging.**  `Tickets`, `TicketTable` (the ticket tables as mutable objects),
  `TicketRuns` (runs of one processor's filter), `Determinants`, `MlogPe` (a processor's determinant
  buffers as an object), `MlogSystem` (processors, FIFO channels, phases, a failure), `MlogWatermark`
  (what the others always keep), `Restart` and `MlogRecovery` (what a restarted object gets back),
  `MlogAcks` and `MlogHistory` (acknowledgements, executions and dependencies over runs).
- **Location management for migratable array elements.**  `Location` (the effect of each entry
  point), `LocationMgr` (the same on mutable tables), `LocationConserve`, `LocationSane`,
  `LocationServe` (what every entry point keeps), `LocationPaths` (what entry points on different
  processors do together), `LocationSystem` and `LocationRuns` (all processors, with mail delivered
  in any order), `LocationShadow` (messages held beside records, and which runs strand them),
  `LocationBeliefs` (what processors believe of locations), `LocationChase` (which messages catch up
  with an element that has moved).
- **Broadcast to migrating elements.**  `Broadcast`, `Broadcaster`, `SpanningTree`.
- **Record and replay.**  `Replay`, `MessageReplay`.
- **The QuickThreads `stp` scheduler.**  `Stp`, and `StpQueue` for the circular list.
- **Allocators and index structures.**  `Futures`, `FutureWaits` (the threads that wait),
  `ObjQueue`, `ObjQueueFull` (a run that fills the token pool), `ObjectMsgQ`, `ElementTable`.
- **Arithmetic.**  `Bits`, `Compressor`, `BlockMap`, `PropMap`; `Arith`, `Seqs` and `Options` hold
  small shared facts.

Each protocol appears in up to three forms: functions on values that say what an operation does,
classes that do it with mutable fields, arrays and links and are proved to have that effect, and
lemmas that carry an invariant through every run of the whole system.

Where the code does not meet an expected property, the exact condition is proved:

- Looking up a ticket for an SN below the first one its sender's row was opened with trips an
  assertion (`Tickets.FilterAborts`, reached by `TicketRuns.LaterFirstFails`; for a whole scheduler
  `TicketRuns.DrainsIff`); during a restart this happens for some orders of the survivors' replies
  and exactly those (`Restart.RestoreAbortsWhen`, `Restart.ReplyOrderMatters`).
- Messages held beside a record for another array's element are stranded when the record leaves
  (`LocationShadow.StrandedRun`).  They wait correctly in a run if and only if that never happens
  (`LocationShadow.WaitIffCareful`), and then nothing sent is left over at rest
  (`LocationShadow.AtRest`).
- Location updates carry no age.  With nothing else going on, a message reaches an element that has
  moved if and only if the chain of beliefs leads there (`LocationChase.CaughtUpIff`), and a run can
  end in a circle of beliefs (`LocationChase.ChaseRun`); an element that was never moved is always
  found (`LocationBeliefs.FoundIfUnmoved`).
- An arriving element catches up correctly if and only if it has missed no more broadcasts than are
  retained (`Broadcast.CatchUpIff`, and over runs `Broadcast.RunGoodIff`); cleaning can make that
  false (`Broadcast.TwoCleanings`).
- A tree broadcast reaches everyone if and only if it starts on PE 0
  (`SpanningTree.ReachesAllIffRootZero`).
- The bit count of a bound is computed without overflow, and its loop ends, if and only if the bound
  is at most 2^30 (`Compressor.BitCountFitsIff`, `Compressor.BitCountEndsIff`).
- A thread that waited for a future gets that future's value if and only if the handle was not
  created again before it resumed (`FutureWaits.WaitReturnsOwnIff`); otherwise it can be stuck
  (`FutureWaits.LateThreadIsStuck`).
- Releasing a future keeps a proper free list if and only if the handle was live
  (`Futures.ReleaseIff`).
- The token handler drains a token it has already given back to the allocator if and only if the
  token held a message and the pool was full (`ObjQueue.DrainsFreedIff`), which happens
  (`ObjQueueFull.FreedTokenIsDrained`).
- Inserting an element keeps the table consistent if and only if its ID was absent
  (`ElementTable.PutIff`).

## Model

| member | source | states |
|---|---|---|
| Tickets.FilterAborts | src/ck-core/ckcausalmlog.C:1110-1163 | the filter trips the ticket table's assertion exactly when the object is not restarting and the SN is below the first SN its sender's row was opened with |
| TicketRuns.LaterFirstFails | src/ck-core/ckcausalmlog.C:1110-1163 | a run in which it does: of two messages of one sender the later arrives first, and the earlier one fails |
| Tickets.FilterKeeps | src/ck-core/ckcausalmlog.C:1110-1163 | filtering any message keeps the tickets exactly 1..tCount with one (sender, SN) pair each, never changes a ticket, and gives a pair without one the next number |
| Tickets.IssueKeeps | src/ck-core/ckcausalmlog.C:3840-3878 | giving a pair without a ticket the next number keeps the tickets exactly 1..tCount, one pair each, and every earlier ticket |
| Tickets.FinishKeeps | src/ck-core/ckcausalmlog.C:1302-1316 | counting a message as processed keeps the table consistent |
| Tickets.RecordTicket | src/ck-core/ckcausalmlog.C:3840-3878 | recording a ticket changes the lookup of that pair and of no other |
| Tickets.VerifyIff | src/ck-core/ckcausalmlog.C:3819-3835 | recording a determinant fails exactly below the sender's row or for a pair with another ticket; otherwise the pair has the ticket and every other pair what it had |
| Tickets.NextTicketIff | src/ck-core/ckcausalmlog.C:3840-3878 | asking for a ticket fails exactly below the sender's row or for a ticket beyond the count; otherwise a pair keeps its ticket or gets the next number |
| TicketTable.SnToTicket.constructor | src/ck-core/ckcausalmlog.h:97-112 | a new row stands for the empty map |
| TicketTable.SnToTicket.Put | src/ck-core/ckcausalmlog.h:125-143 | the offset vector, grown to twice the index when too short, refines a map update; the first SN fixes the row's start |
| TicketTable.SnToTicket.Get | src/ck-core/ckcausalmlog.h:145-154 | lookup agrees with the map, and fails exactly for an SN below the start |
| TicketTable.ChareMlogData.constructor | src/ck-core/ckcausalmlog.h:224-225 | a new object has no tickets |
| TicketTable.ChareMlogData.GetTicket | src/ck-core/ckcausalmlog.C:3806-3814 | the hash table of rows refines the abstract lookup, failure included |
| TicketTable.ChareMlogData.PutOld | src/ck-core/ckcausalmlog.C:3819-3835 | writing into a sender's row refines recording the ticket and leaves every other row alone |
| TicketTable.ChareMlogData.PutNew | src/ck-core/ckcausalmlog.C:3819-3835 | a sender without a row gets one of its own, not shared with any other sender |
| TicketTable.ChareMlogData.PutTicket | src/ck-core/ckcausalmlog.C:3819-3835 | either way the abstract table gains exactly this ticket |
| TicketTable.ChareMlogData.VerifyTicket | src/ck-core/ckcausalmlog.C:3819-3835 | records an unknown ticket, accepts an equal one, fails on a different one |
| TicketTable.ChareMlogData.IssueTicket | src/ck-core/ckcausalmlog.C:3787-3801 | a new ticket is one more than the count and is recorded for the pair |
| TicketTable.ChareMlogData.NextTicketNumber | src/ck-core/ckcausalmlog.C:3840-3878 | no ticket while restarting; otherwise the pair's old ticket or the next new one, failing exactly where the abstract step does |
| TicketTable.ChareMlogData.FilterMessage | src/ck-core/ckcausalmlog.C:1110-1163 | the concrete filter has the abstract filter's ticket, verdict and table |
| TicketTable.ChareMlogData.PostProcess | src/ck-core/ckcausalmlog.C:1302-1316 | advances the processed count by one and nothing else |
| TicketTable.ChareMlogData.InitializeRestart | src/ck-core/ckcausalmlog.C:2351-2355 | the restart flag is set, the reply count and collected tickets are empty, and tickets, counts and table are as before |
| TicketTable.ChareMlogData.ProcessReceivedDet | src/ck-core/ckcausalmlog.C:2859-2871 | records a list of returned determinants in order, failing exactly where the abstract fold does |
| TicketTable.ChareMlogData.ProcessReceivedTN | src/ck-core/ckcausalmlog.C:2876-2961 | collects ticket lists; the last reply ends the restart at the largest ticket returned, or at the old count if none was |
| TicketTable.MaxVec | src/ck-core/ckcausalmlog.C:2964-2971 | the loop finds the largest ticket of the list, or 0 |
| TicketRuns.RunKeeps | src/ck-core/ckcausalmlog.C:1181-1316 | every run of arrivals (any order, any number of copies) and processing keeps the whole invariant |
| TicketRuns.ExecutesTicketsInOrder | src/ck-core/ckcausalmlog.C:1250-1316 | in every run an object executes the tickets after its starting point one by one, once each, in order; no two pairs share a ticket; a parked message is always early |
| TicketRuns.TicketIsForever | src/ck-core/ckcausalmlog.C:3840-3878 | a pair keeps its ticket in every later state of every run |
| TicketRuns.NoArrivalLost | src/ck-core/ckcausalmlog.C:1250-1297 | each arrival is, counted with multiplicity, in exactly one of scheduler, parked, delayed, executed, dropped; dropped ones repeat an executed ticket |
| TicketRuns.RestartingWaits | src/ck-core/ckcausalmlog.C:1126-1127 | in every run an object that waits for replies executes nothing, tickets nothing and does not change; every message for it is in the scheduler or held back |
| TicketRuns.IdleMeansMissing | src/ck-core/ckcausalmlog.C:1250-1297 | when the scheduler is idle no arrived message holds the next ticket: parked messages were released in time |
| TicketRuns.Drain | src/ck-core/ckcausalmlog.C:1181-1316 | processing until idle terminates although executing a message refills the scheduler |
| TicketRuns.DrainKeeps | src/ck-core/ckcausalmlog.C:1181-1316 | draining keeps the run invariant |
| TicketRuns.DrainsIff | src/ck-core/ckcausalmlog.C:1181-1316 | processing until idle succeeds if and only if the messages waiting are in order: none has an SN below its sender's row, nor below that of the waiting message that opens it |
| TicketRuns.CatchesUp | src/ck-core/ckcausalmlog.C:1181-1316 | once every message with a restored ticket has arrived again, draining leaves no ticket unexecuted, and gets there if and only if the messages waiting are in order |
| Determinants.StoreAllAt | src/ck-core/ckcausalmlog.C:1051-1078 | storing a list appends to each receiver's vector exactly its part of the list, in order |
| Determinants.AckLeaves | src/ck-core/ckcausalmlog.C:1006-1028 | an acknowledgement of this phase leaves exactly the log from its index on to be sent again, and no store when that is empty; one of another phase changes nothing; one beyond the log fails |
| MlogPe.MlogPe.constructor | src/ck-core/ckcausalmlog.C:591-621 | an empty buffer with an empty window |
| MlogPe.MlogPe.AddBufferedDeterminant | src/ck-core/ckcausalmlog.C:591-621 | appending, with the buffer doubled when full, refines log + [determinant] and widens the window by one |
| MlogPe.MlogPe.SendMsg | src/ck-core/ckcausalmlog.C:888-911 | a remote send puts the whole un-acknowledged window on the channel ahead of the message, which carries the log length |
| MlogPe.MlogPe.RemoveDeterminants | src/ck-core/ckcausalmlog.C:1006-1028 | an acknowledgement of this phase makes the window what lies beyond its index, an older one does nothing, one beyond the log fails |
| MlogPe.MlogPe.StoreDeterminants | src/ck-core/ckcausalmlog.C:1033-1091 | files every determinant under its receiver and acknowledges with the sender's index and phase |
| MlogPe.MlogPe.PlaceMessage | src/ck-core/ckcausalmlog.C:1250-1297 | parks, delays or drops a message; executing one first returns all parked messages to the scheduler in order |
| MlogPe.MlogPe.PreProcess | src/ck-core/ckcausalmlog.C:1181-1297 | tickets the message, logs a determinant exactly for a new ticket, and places the message |
| MlogPe.MlogPe.GarbageCollect | src/ck-core/ckcausalmlog.C:3571-3594 | a new phase starts with an empty log and nothing kept for others |
| MlogWatermark.SendMarks | src/ck-core/ckcausalmlog.C:888-911 | a send keeps the prefix property: everything the message depends on is stored elsewhere or ahead of it on the channel |
| MlogWatermark.OwnStoreMarks | src/ck-core/ckcausalmlog.C:1033-1091 | a store extends the stored prefix and leaves no gap |
| MlogWatermark.AckMarks | src/ck-core/ckcausalmlog.C:1006-1028 | an acknowledgement, even a late one, never claims more than is stored |
| MlogWatermark.AckNeverAborts | src/ck-core/ckcausalmlog.C:1006-1028 | an acknowledgement under way never trips the handler's assertion |
| MlogWatermark.CollectMarks | src/ck-core/ckcausalmlog.C:3571-3594 | garbage collection starts the next phase in a correct state |
| MlogWatermark.FailMarks | src/ck-core/ckcausalmlog.C:2351-2355 | a failure leaves the failed processor's stored prefix intact on the survivors |
| MlogWatermark.StepKeeps | src/ck-core/ckcausalmlog.C:591-1091 | every step of the distributed system keeps the invariant |
| MlogSystem.SelectIs | src/ck-core/ckcausalmlog.C:2570-2591 | a survivor returns of its determinants for an object exactly those past the checkpoint, in order |
| MlogSystem.FailLoses | src/ck-core/ckcausalmlog.C:2351-2355 | a failure loses what the processor kept for others and nothing others keep; its channels end with its requests |
| MlogAcks.WindowIsUnacked | src/ck-core/ckcausalmlog.C:591-1028 | in every run a processor's window is its log from the last acknowledgement of the phase on |
| MlogAcks.SendCarries | src/ck-core/ckcausalmlog.C:888-911 | in every run a remote send carries exactly the determinants since the last acknowledgement, and no store if there are none |
| MlogAcks.EachStoreAcked | src/ck-core/ckcausalmlog.C:1033-1091 | in every run the acknowledgements handled and under way are, in order and once each, those of the stores filed |
| MlogHistory.ExecutesInTurn | src/ck-core/ckcausalmlog.C:1181-1316 | in every run, through phases and failures, an object executes the messages with tickets 1, 2, 3, ... in that order and counts them |
| MlogHistory.DependedIsStored | src/ck-core/ckcausalmlog.C:888-1091 | once a message has been delivered, every determinant its sender had logged when sending it is kept elsewhere for the rest of the phase, also after the sender has failed |
| Restart.RepliesAsOne | src/ck-core/ckcausalmlog.C:2714-2783 | handling the replies one by one is recording all their determinants in that order; before the last reply the object is restarting, with the last it resumes |
| Restart.HeldBackUntilLast | src/ck-core/ckcausalmlog.C:2351-2355 | between the start of a restart and its last reply every message gets no ticket and is held back without a trace; after the last reply none is held back |
| Restart.RestoredTable | src/ck-core/ckcausalmlog.C:2859-2871 | the restored table holds the checkpoint's tickets and the returned ones, nothing else |
| Restart.RestoredConsistent | src/ck-core/ckcausalmlog.C:2876-2971 | from a prefix of the log the object resumes with tickets contiguous from the checkpoint to the largest returned, so no hole is left and the next ticket is beyond all of them |
| Restart.RestoreAbortsWhen | src/ck-core/ckcausalmlog.C:2859-2871 | recording fails if and only if a determinant comes after one of the same sender with a larger SN that opened the sender's row |
| Restart.ReplyOrderMatters | src/ck-core/ckcausalmlog.C:2714-2783 | two correct determinants for which one order of replies trips the assertion and the other does not |
| MlogRecovery.RunGood | src/ck-core/ckcausalmlog.C:591-1316 | every run of receives, sends, deliveries, phases and a failure keeps the system invariant |
| MlogRecovery.StoredIsPrefix | src/ck-core/ckcausalmlog.C:888-1091 | in every run the determinants of a processor kept elsewhere are exactly a prefix of its log, covering everything it no longer resends and everything any delivered message depends on; an undelivered message is covered or behind a covering store on its channel |
| MlogRecovery.StepBounded | src/ck-core/ckcausalmlog.C:591-1091 | every step keeps each store from a processor and each acknowledgement to it within that processor's log and phase |
| MlogRecovery.HandlersNeverAbort | src/ck-core/ckcausalmlog.C:1006-1091 | in every run, whether or not a processor has failed, no packet handler trips its assertion |
| MlogRecovery.RepliesHoldPrefix | src/ck-core/ckcausalmlog.C:2552-2591 | the survivors' replies together hold exactly the object's part of the stored prefix |
| MlogRecovery.RecoveryRestores | src/ck-core/ckcausalmlog.C:2552-2971 | after a failure in any run and any order of replies: the restart fails exactly when a sender's determinants arrive misordered, and otherwise every surviving determinant's message has its old ticket, contiguous from the checkpoint |
| MlogRecovery.ReplayFollowsKept | src/ck-core/ckcausalmlog.C:1250-1316 | a restored object that sees its messages again, in any order and number, first executes those whose determinants were kept, in the order of the log |
| MlogRecovery.ReplayRepeatsOrder | src/ck-core/ckcausalmlog.C:1250-1316 | of two runs of an object, one before the failure and one after its restart, both execute the same messages in the same order, as far as determinants were kept |
| LocationConserve.UnknownBalanced | src/ck-core/cklocation.C:2743-2789 | a message for an unknown ID ends in exactly one place: forwarded, one buffer slot, or requeued |
| LocationConserve.DeliverBalanced | src/ck-core/cklocation.C:2592-2675 | delivering forwards, queues, holds back or executes the message exactly once |
| LocationConserve.SendBalanced | src/ck-core/cklocation.C:2678-2741 | so does sending by index |
| LocationConserve.InformIdBalanced | src/ck-core/cklocation.C:2511-2514 | learning a location moves buffered messages to the network, losing and copying none |
| LocationConserve.InformIdxBalanced | src/ck-core/cklocation.C:2465-2509 | so does learning an index's ID and location |
| LocationConserve.CreateBalanced | src/ck-core/cklocation.C:2280-2293 | a new record adds one element and loses no message |
| LocationConserve.AddElementBalanced | src/ck-core/cklocation.C:2340-2366 | creation adds the element exactly if it had no record here |
| LocationConserve.EmigrateBalanced | src/ck-core/cklocation.C:3034-3138 | emigration moves the element from the records into one packet |
| LocationConserve.PacketBalanced | src/ck-core/cklocation.C:2406-2514 | handling any packet accounts for the message or element inside |
| LocationSystem.StepCounts | src/ck-core/cklocation.C:2280-3224 | over all processors and the network, a step changes the count of any message or element by exactly what came in from outside |
| LocationSane.DeliverSane | src/ck-core/cklocation.C:2592-2675 | delivery keeps the tables in agreement: IDs belong to their indices, homes are right, and nothing waits for what is known |
| LocationSane.SendSane | src/ck-core/cklocation.C:2678-2741 | so does sending by index |
| LocationSane.InformIdxSane | src/ck-core/cklocation.C:2465-2509 | after an update no message and no request waits for that index or ID |
| LocationSane.EmigrateSane | src/ck-core/cklocation.C:3034-3138 | emigration keeps the tables in agreement and tells the home |
| LocationSane.PacketSane | src/ck-core/cklocation.C:2406-2514 | handling any correct packet keeps the tables sane and sends only correct packets |
| LocationSane.NewIdFresh | src/ck-core/cklocation.C:2329-2337 | while the 24-bit counter lasts, the ID of a new index is new, and its upper bits name the creator |
| LocationSane.AddNewSane | src/ck-core/cklocation.C:2340-2366 | creating a new index keeps every table sane under the extended naming |
| LocationSane.AddBoundSane | src/ck-core/cklocation.C:2340-2366 | so does adding an element of another array bound to the same index |
| LocationServe.SendServes | src/ck-core/cklocation.C:2699-2705 | whoever starts to hold messages for an index has asked its home |
| LocationServe.UnknownServes | src/ck-core/cklocation.C:2751-2762 | whoever starts to hold messages for a location has asked for it |
| LocationServe.InformIdxServes | src/ck-core/cklocation.C:2480-2495 | an update answers every recorded request for the index |
| LocationServe.PacketSettles | src/ck-core/cklocation.C:2406-2463 | a request is answered or recorded; an update ends all waiting for what it brings |
| LocationServe.AddElementServes | src/ck-core/cklocation.C:2340-2366 | a new element's home knows it or is told |
| LocationRuns.StepGood | src/ck-core/cklocation.C:2280-3224 | every event keeps residence, conservation, sanity and service together |
| LocationRuns.RunGood | src/ck-core/cklocation.C:2280-3224 | hence every state of every run has them |
| LocationRuns.SingleResidence | src/ck-core/cklocation.C:3034-3224 | in every run, with migrations bounced while managers are missing, each element is in exactly one processor's records or exactly one migrating packet, never both, never neither |
| LocationRuns.MessageInOnePlace | src/ck-core/cklocation.C:2592-2789 | in every run each message sent is in exactly one packet, buffer slot or execution, and nothing else appears |
| LocationRuns.ExecutedOnce | src/ck-core/cklocation.C:2592-2675 | no message is executed twice, and only sent ones are |
| LocationRuns.RunsWhereItLives | src/ck-core/cklocation.C:2592-2675 | a message is executed only on a processor whose record is for its index and has the addressed array's element |
| LocationRuns.WaitersServed | src/ck-core/cklocation.C:2406-2514 | in every run, messages held for an index have a request under way, recorded at home, or answered; messages held for a location have a request or an answer under way |
| LocationRuns.NoneWaitForKnown | src/ck-core/cklocation.C:2465-2514 | when no mail is under way no message waits for a location, and none waits by index or ID for an index that exists |
| LocationShadow.DeliverShadow | src/ck-core/cklocation.C:2640-2660 | delivery keeps messages held beside a record waiting correctly: the record is there and its element is not |
| LocationShadow.SendShadow | src/ck-core/cklocation.C:2678-2741 | so does sending by index |
| LocationShadow.AddElementShadow | src/ck-core/cklocation.C:2340-2366 | so does creation, which releases what waited for the element |
| LocationShadow.PacketShadow | src/ck-core/cklocation.C:2406-2514 | so does handling any packet, an arriving record included |
| LocationShadow.EmigrateShadowIff | src/ck-core/cklocation.C:3034-3138 | emigration does if and only if no message is held beside the record that leaves |
| LocationShadow.RunTrue | src/ck-core/cklocation.C:2340-3224 | in every run, records and migrating packets list exactly the elements created for their index, and only messages for created elements have been executed |
| LocationShadow.StepShadowIff | src/ck-core/cklocation.C:2280-3224 | one step keeps everything held beside records waiting correctly if and only if it takes no record away from messages held beside it |
| LocationShadow.WaitIffCareful | src/ck-core/cklocation.C:2280-3224 | hence every state of a run up to any point has messages held beside records waiting correctly if and only if no event before took a record away from such messages |
| LocationShadow.AtRest | src/ck-core/cklocation.C:2280-3224 | when no mail is under way after a run without such an event, a message sent has been executed if and only if its element was created |
| LocationShadow.StrandedRun | src/ck-core/cklocation.C:3034-3138 | a run that strands a message: its record leaves, its element is created at the new place, all is at rest, and the message is still held where there is no record |
| LocationPaths.UpdateSends | src/ck-core/cklocation.C:2465-2509 | an update sends held messages to the location it brings, answers those who asked with exactly what it brings, and sends nothing else |
| LocationPaths.MoveThenMessage | src/ck-core/cklocation.C:2592-3224 | across three processors: a record that moves arrives as it left and changes no other; a message sent where it was is passed on, runs there once, and its sender, like the home, learns the new location |
| LocationPaths.ThroughHome | src/ck-core/cklocation.C:2743-2789 | a small message for an unknown place leaves in one mail for the home, which is then believed to have the element; the home executes it, holds it beside the record, passes it on, or holds it by ID |
| LocationPaths.BigThroughHome | src/ck-core/cklocation.C:2751-2762 | a big one waits and the home is asked once; the home answers where it believes the element to be, and the message leaves for there |
| LocationPaths.UnheardWaits | src/ck-core/cklocation.C:2699-2705 | a message for an index without an ID waits in order, and only the first asks the home |
| LocationPaths.RequestAnswered | src/ck-core/cklocation.C:2406-2435 | a request by index is answered in one mail with the known location, else the home, if and only if the ID is known; otherwise it is noted in order |
| LocationPaths.IdRequestAnswered | src/ck-core/cklocation.C:2437-2451 | a request by ID is answered in one mail with the known location, else the home |
| LocationPaths.UpdateReleases | src/ck-core/cklocation.C:2453-2509 | an update sends every message held for the ID or the index to the place it brings, and none stays held |
| LocationPaths.ToldThenAsked | src/ck-core/cklocation.C:2406-2514 | a home told of a location answers later requests with exactly that, and the asker's held messages leave for there |
| LocationPaths.CreationTellsHome | src/ck-core/cklocation.C:2249-2293 | creating an index away from home tells the home exactly the creator as the place; the home then knows it, sends what it held there and passes messages on to there |
| LocationPaths.AddedOnce | src/ck-core/cklocation.C:2340-2366 | insertion fails exactly for a second element of one array at an index |
| LocationPaths.ExecutedHere | src/ck-core/cklocation.C:2592-2675 | where the element is, a queued message goes back unchanged and a delivered one is executed once; a sender elsewhere is told after more than one hop and only then |
| LocationPaths.ArrivesOnceRegistered | src/ck-core/cklocation.C:3153-3224 | a migrating record comes back unchanged until enough managers are registered and is then installed as it left; with too many the program stops |
| LocationBeliefs.NoPlaceInvented | src/ck-core/cklocation.C:2249-2514 | in every run, what a processor believes of an element and what any mail tells is a place where it has been or was sent, or, with a compressor and not at the home itself, its home |
| LocationBeliefs.HomeIsRight | src/ck-core/cklocation.C:2249-2514 | in every run, at rest, the home of an element that was never moved knows where it is, and others believe that or, with a compressor, the home |
| LocationBeliefs.FoundIfUnmoved | src/ck-core/cklocation.C:2592-2789 | in every run, at rest, a message sent from anywhere to such an element leaves for it at once, by way of the home, or after one answer of the home, and is executed there |
| LocationChase.FollowsBeliefs | src/ck-core/cklocation.C:2592-2675 | until beliefs lead to the element a message is passed from belief to belief and nothing else happens |
| LocationChase.CaughtUpIff | src/ck-core/cklocation.C:2592-2675 | a message is executed at its n-th further delivery if and only if n beliefs, and no fewer, lead to the element |
| LocationChase.ChaseRun | src/ck-core/cklocation.C:2825-2838 | a run in which a late update closes a circle of beliefs: everything is at rest, the element exists, and a message is passed on for ever |
| LocationMgr.LocMgr.constructor | src/ck-core/cklocation.h:295-297 | empty tables |
| LocationMgr.LocMgr.LookupIdOf | src/ck-core/cklocation.h:327-345 | lookup by compressor or table |
| LocationMgr.LocMgr.PutId | src/ck-core/cklocation.h:322-325 | inserting an ID changes the table only without a compressor |
| LocationMgr.LocMgr.DeliverUnknownMsg | src/ck-core/cklocation.C:2743-2789 | the mutable tables and the outgoing mail end as the abstract effect says, on every branch |
| LocationMgr.LocMgr.Deliver | src/ck-core/cklocation.C:2592-2675 | likewise for delivery |
| LocationMgr.LocMgr.Send | src/ck-core/cklocation.C:2678-2741 | likewise for sending by index |
| LocationMgr.LocMgr.Release | src/ck-core/cklocation.C:2305-2320 | the flush loop sends every held message on and changes no table: nothing is buffered again |
| LocationMgr.LocMgr.DeliverAnyBufferedMsgs | src/ck-core/cklocation.C:2297-2327 | the entry is swapped out, flushed and erased, and the assertion that it stayed empty holds |
| LocationMgr.LocMgr.InformById | src/ck-core/cklocation.C:2511-2514 | refines learning a location |
| LocationMgr.LocMgr.ReplyAll | src/ck-core/cklocation.C:2482-2490 | the reply loop answers every waiting processor but this one, in order |
| LocationMgr.LocMgr.Inform | src/ck-core/cklocation.C:2465-2509 | refines learning an index's ID and location |
| LocationMgr.LocMgr.RequestLocationOfIdx | src/ck-core/cklocation.C:2406-2435 | answers, or records the request; ignores its own |
| LocationMgr.LocMgr.RequestLocationOfId | src/ck-core/cklocation.C:2437-2451 | answers with the last known location or the home |
| LocationMgr.LocMgr.UpdateLocation | src/ck-core/cklocation.C:2453-2457 | informs and flushes what waited for the location |
| LocationMgr.LocMgr.UpdateLocationOfId | src/ck-core/cklocation.C:2459-2463 | likewise by ID |
| LocationMgr.LocMgr.GetNewObjectId | src/ck-core/cklocation.C:2329-2337 | refines the choice of an ID |
| LocationMgr.LocMgr.InformHome | src/ck-core/cklocation.C:2249-2262 | tells the home unless it is here or there |
| LocationMgr.LocMgr.CreateRecord | src/ck-core/cklocation.C:2280-2293 | refines creating a record |
| LocationMgr.LocMgr.Insert | src/ck-core/cklocation.C:2340-2366 | refines addElement, with a second insertion reported |
| LocationMgr.LocMgr.EmigrateTo | src/ck-core/cklocation.C:3034-3138 | refines emigration; does nothing when already there |
| LocationMgr.LocMgr.ImmigrateHere | src/ck-core/cklocation.C:3153-3224 | refines immigration: fails, bounces or installs by the manager counts |
| Broadcast.CatchUpExact | src/ck-core/ckarray.C:1353-1380 | rotating and re-enqueuing dispatches exactly the newest missed broadcasts, oldest first, and restores the queue |
| Broadcast.CatchUpIff | src/ck-core/ckarray.C:1353-1380 | an element gets exactly what it missed if and only if the missed number is within the retained history |
| Broadcast.CleanKeeps | src/ck-core/ckarray.C:1383-1393 | cleaning keeps the newest broadcasts in order, exactly those since the last cleaning |
| Broadcast.TwoCleanings | src/ck-core/ckarray.C:1383-1393 | two cleanings with nothing in between leave an element that is behind unable to catch up |
| Broadcast.StepGoodIff | src/ck-core/ckarray.C:1309-1393 | a step keeps histories and elements correct if and only if it is not the arrival of an element behind the retained history |
| Broadcast.RunGoodIff | src/ck-core/ckarray.C:1309-1393 | hence a run is correct all along if and only if no element ever arrived behind the retained history |
| Broadcast.BroadcastsReachElements | src/ck-core/ckarray.C:1529-1567 | in every run without a late arrival each element has been dispatched the broadcasts from its stamp to its counter once each in order; a resident one has all its processor received |
| Broadcast.RetainedSinceCleaning | src/ck-core/ckarray.C:1383-1393 | in every such run the retained history reaches back to the last cleaning |
| Broadcast.NewcomerHears | src/ck-core/ckarray.C:100 | in every such run an element hears exactly the broadcasts that the processor stamping it had not received by then |
| Broadcaster.ArrayElement.constructor | src/ck-core/ckarray.C:100 | an element starts with the stamp |
| Broadcaster.ArrayBroadcaster.constructor | src/ck-core/ckarray.C:1282-1286 | no broadcasts yet |
| Broadcaster.ArrayBroadcaster.Enqueue | src/ck-core/ckarray.C:1309-1319 | refines receiving a broadcast |
| Broadcaster.ArrayBroadcaster.DeliverTo | src/ck-core/ckarray.C:1322-1350 | refines delivering to one element, skipping one that has it |
| Broadcaster.ArrayBroadcaster.BringUpToDate | src/ck-core/ckarray.C:1353-1380 | the two queue loops refine catching up, for every queue and counter |
| Broadcaster.ArrayBroadcaster.SpringCleaning | src/ck-core/ckarray.C:1383-1393 | the deletion loop refines cleaning |
| Broadcaster.ArrayBroadcaster.Receive | src/ck-core/ckarray.C:1529-1567 | every local element is offered the broadcast |
| SpanningTree.ComputeChildren | src/ck-core/ckarray.C:870-896 | the level loop always ends with first child 8*pe+1, for every pe and machine size |
| SpanningTree.ChildrenPartition | src/ck-core/ckarray.C:890-896 | the children lists partition the PEs other than 0 |
| SpanningTree.Below | src/ck-core/ckarray.C:870-896 | those below a PE are itself and, once each, those below one of its children |
| SpanningTree.BroadcastReaches | src/ck-core/ckarray.C:1447-1490 | in any order of deliveries a broadcast ends after at most n of them, delivers to no PE twice, and reaches exactly the PEs below its root |
| SpanningTree.ReachesAllIffRootZero | src/ck-core/ckarray.C:1447-1466 | it reaches every PE if and only if it starts on PE 0 |
| Replay.FlushFrees | src/ck-core/ck.C:2775-2810 | a flush puts the entry wanted next, if it was set aside, at the front of the scheduler, and does nothing otherwise |
| Replay.PickWanted | src/ck-core/ck.C:2825-2856 | letting the wanted item through advances the log by one and releases the next if it was set aside |
| Replay.PickOther | src/ck-core/ck.C:2825-2871 | any other item leaves the log position alone and leaves the scheduler |
| Replay.PickUnrecorded | src/ck-core/ck.C:2831 | an unrecorded message is let through at once, and nothing else changes |
| Replay.PickRecorded | src/ck-core/ck.C:2825-2871 | a recorded item is let through if and only if it is the entry wanted; otherwise it joins the items of its kind set aside |
| Replay.ReplayFollowsLog | src/ck-core/ck.C:2825-2871 | in every run what is let through is a prefix of the log, no arrival is lost, and the item wanted is never set aside |
| Replay.PickProgress | src/ck-core/ck.C:2825-2871 | every pick, whatever the scheduler's order, decreases log remaining plus scheduler length |
| Replay.ReplayCompletes | src/ck-core/ck.C:2825-2871 | when the scheduler is empty and everything logged has arrived, the whole log has been replayed |
| Replay.UnrecordedPass | src/ck-core/ck.C:2825-2856 | in every run an unrecorded message is never set aside, and with the scheduler empty each has been let through as often as it arrived |
| MessageReplay.CkMessageReplay.constructor | src/ck-core/ck.C:2813-2821 | starts wanting the first entry |
| MessageReplay.CkMessageReplay.GetNext | src/ck-core/ck.C:2695-2718 | the fields spell out the next entry, or the end marker |
| MessageReplay.CkMessageReplay.IsNextEnv | src/ck-core/ck.C:2720-2763 | the field comparisons decide whether a message is the entry wanted |
| MessageReplay.CkMessageReplay.IsNextToken | src/ck-core/ck.C:2764-2767 | likewise for a token |
| MessageReplay.CkMessageReplay.FlushMessages | src/ck-core/ck.C:2776-2791 | the rotating search takes out the wanted message if it is there and otherwise restores the queue |
| MessageReplay.CkMessageReplay.FlushTokens | src/ck-core/ck.C:2792-2809 | likewise for tokens |
| MessageReplay.CkMessageReplay.FlushDelayed | src/ck-core/ck.C:2775-2810 | refines flushing |
| MessageReplay.CkMessageReplay.ProcessMessage | src/ck-core/ck.C:2825-2856 | refines processing a message |
| MessageReplay.CkMessageReplay.ProcessToken | src/ck-core/ck.C:2858-2871 | refines processing a token |
| Stp.SomeoneWaits | src/QuickThreads/stp.c:161-190 | while a user thread runs the main thread is queued, so a switch always finds a thread |
| Stp.ReturnsWhenAllFinished | src/QuickThreads/stp.c:115-123 | the main loop ends exactly when every thread has finished |
| Stp.StepGood | src/QuickThreads/stp.c:115-198 | every create, loop turn, yield and abort keeps each live thread in the processor or the queue exactly once |
| Stp.SchedulerSound | src/QuickThreads/stp.c:115-198 | all of this in every run |
| Stp.RunsInTurn | src/QuickThreads/stp.c:161-198 | a thread with k others before it runs at exactly the (k+1)-st switch, whatever threads do meanwhile |
| StpQueue.Queue.constructor | src/QuickThreads/stp.c:63-66 | the head linked to itself is the empty queue |
| StpQueue.Queue.Get | src/QuickThreads/stp.c:70-83 | unlinking refines taking the first; null exactly when empty |
| StpQueue.Queue.Put | src/QuickThreads/stp.c:87-92 | linking refines appending |
| StpQueue.Scheduler.constructor | src/QuickThreads/stp.c:108-111 | only the main thread |
| StpQueue.Scheduler.CreateThread | src/QuickThreads/stp.c:136-147 | a new thread is queued last |
| StpQueue.Scheduler.YieldThread | src/QuickThreads/stp.c:182-198 | never meets an empty queue; the thread goes behind the others |
| StpQueue.Scheduler.AbortThread | src/QuickThreads/stp.c:161-178 | never meets an empty queue; the thread is gone |
| StpQueue.Scheduler.LoopTurn | src/QuickThreads/stp.c:115-132 | runs the next thread with main behind the others, or ends |
| Compressor.SmearRoundsUp | src/ck-core/ckarrayindex.h:440-446 | the five shift-or steps set every bit below the highest |
| Compressor.BitCount | src/ck-core/ckarrayindex.h:436-455 | the result is the least number of bits for the indices below the bound; there is none exactly where the loop never ends |
| Compressor.BitCountFitsIff | src/ck-core/ckarrayindex.h:436-455 | the rounded-up bound fits a 32-bit int if and only if the bound is at most 2^30 |
| Compressor.BitCountEndsIff | src/ck-core/ckarrayindex.h:436-455 | the counting loop on 32-bit signed integers ends if and only if the bound is at most 2^30 |
| Compressor.Make | src/ck-core/ckarrayindex.h:364-384 | bits per dimension as needed; refused exactly without dimensions or above 48 bits |
| Compressor.Compress | src/ck-core/ckarrayindex.h:387-401 | shifting and or-ing is positional packing; an assertion fails exactly when a coordinate does not fit |
| Compressor.Decompress | src/ck-core/ckarrayindex.h:403-409 | masking and shifting is positional unpacking |
| Compressor.RoundTrip | src/ck-core/ckarrayindex.h:387-409 | unpacking undoes packing, for any number of dimensions |
| Compressor.PackBound | src/ck-core/ckarrayindex.h:381-401 | the ID is below 2 to the sum of the bits |
| Compressor.CompressorSound | src/ck-core/cklocation.h:306-312 | for every in-bounds index the ID is below 2^48, determines the index, and differs from every other index's: home by ID is home by index |
| BlockMap.FlattenInjective | src/ck-core/cklocation.C:441-466 | flattening is in range and injective |
| BlockMap.FlattenSurjective | src/ck-core/cklocation.C:441-466 | flattening is onto the positions below the product of the dimensions |
| BlockMap.NonEmpty | src/ck-core/cklocation.C:494-501 | no division by zero: the second set is reached only if its blocks are not empty |
| BlockMap.PeOfExact | src/ck-core/cklocation.C:494-501 | PE k gets exactly the positions of block k |
| BlockMap.PeOfMonotone | src/ck-core/cklocation.C:494-501 | monotone and in range |
| BlockMap.NodeSplitExact | src/ck-core/cklocation.C:474-486 | the node part computes the node's block and the offset in it |
| BlockMap.NodePeOfExact | src/ck-core/cklocation.C:474-493 | PE j of a node gets exactly the j-th sub-block of the node's block |
| BlockMap.NodePeOfMonotone | src/ck-core/cklocation.C:474-493 | the node variant is monotone and in range |
| BlockMap.RoundRobin | src/ck-core/cklocation.C:494-501 | positions beyond the initial elements take the PEs in turn |
| BlockMap.NodeRoundRobin | src/ck-core/cklocation.C:487-489 | so do they in the node variant |
| BlockMap.Balanced | src/ck-core/cklocation.C:378-386 | any two PEs get counts differing by at most one, by PE and by node |
| PropMap.LeftoverRange | src/ck-core/cklocation.C:1222-1225 | the leftover is at least 0 and less than the number of PEs |
| PropMap.FirstHaveRemainder | src/ck-core/cklocation.C:1226-1236 | only PEs with a positive remainder get an extra element |
| PropMap.Shares | src/ck-core/cklocation.C:1208-1238 | shares add up to n, each is the floor or the ceiling of the exact quota, and the extra elements go to the largest remainders |
| PropMap.FillExact | src/ck-core/cklocation.C:1239-1245 | the filled map is nondecreasing with exactly the shares as counts |
| PropMap.WriteCopies | src/ck-core/cklocation.C:1242-1243 | the inner loop writes the PE to exactly its stretch of the map |
| PropMap.Distrib | src/ck-core/cklocation.C:1207-1245 | the array written by the nested loops is that map |
| Futures.CreateFresh | src/ck-core/ckfutures.C:131-152 | a new handle was not live, its future is blank, and every other cell is unchanged, reallocation included |
| Futures.ReleaseIff | src/ck-core/ckfutures.C:164-170 | the free list stays acyclic if and only if the released handle was live |
| Futures.NextGood | src/ck-core/ckfutures.C:117-241 | every operation keeps list, liveness and history in agreement |
| Futures.FuturesSound | src/ck-core/ckfutures.C:181-241 | in every run a handle is ready exactly if a value was set since its last creation and then holds the last one, released or not; its waiters are those since creation; a new handle is not in use |
| FutureWaits.NextGood | src/ck-core/ckfutures.C:181-241 | every operation keeps each waiting thread accounted for: awakened by a value for its future, or among the waiters, or its handle was created again |
| FutureWaits.OwnIff | src/ck-core/ckfutures.C:181-241 | what a handle holds was set for the future it stood for at an earlier moment if and only if it was not created since |
| FutureWaits.WaitReturnsOwnIff | src/ck-core/ckfutures.C:181-202 | in every run a thread that resumes reads a value set for the future it waited for if and only if the handle was not created in between; finding none it suspends again |
| FutureWaits.NotForgotten | src/ck-core/ckfutures.C:181-241 | in every run a waiting thread whose handle was not created again is awakened or among the waiters the next value awakens |
| FutureWaits.LateThreadIsStuck | src/ck-core/ckfutures.C:181-202 | a run in which a thread resumes after its handle was released and created again, and suspends with nobody to awaken it |
| Futures.FutureState.constructor | src/ck-core/ckfutures.C:243-252 | ten linked free cells |
| Futures.FutureState.AddedFutures | src/ck-core/ckfutures.C:117-127 | the loop links the new cells ahead of the old list |
| Futures.FutureState.Grow | src/ck-core/ckfutures.C:136-143 | doubling keeps the old cells |
| Futures.FutureState.CreateFuture | src/ck-core/ckfutures.C:131-152 | refines creating |
| Futures.FutureState.ReleaseFuture | src/ck-core/ckfutures.C:164-170 | refines releasing; the free list stays proper if and only if the handle was not in it |
| Futures.FutureState.SetFuture | src/ck-core/ckfutures.C:228-241 | sets the value and wakes exactly the waiters |
| Futures.FutureState.WaitFuture | src/ck-core/ckfutures.C:181-202 | returns the value if ready, else joins the waiters |
| Futures.FutureState.ResumeWait | src/ck-core/ckfutures.C:189-202 | a resumed thread reads the cell of the array there is now: the value if ready, else it suspends without joining the waiters |
| ObjQueue.DrainAll | src/ck-core/ckobjQ.C:62-98 | draining full tokens releases their messages in order and returns no token |
| ObjQueue.TokenMeansAlive | src/ck-core/ckobjQ.C:185-201 | a token that still holds a message belongs to an object that is alive |
| ObjQueue.StepGood | src/ck-core/ckobjQ.C:48-201 | every enqueue, token, creation and deletion keeps the invariant |
| ObjQueue.TokensSound | src/ck-core/ckobjQ.C:48-201 | in every run a scheduled token holds a message exactly while in its object's queue; messages are released once in FIFO order; each token is in the scheduler, the pool or freed exactly once |
| ObjQueue.DrainsFreedIff | src/ck-core/ckobjQ.C:190-199 | the handler drains a token already given back to the allocator if and only if it held a message and the pool was full |
| ObjQueueFull.FreedTokenIsDrained | src/ck-core/ckobjQ.C:185-201 | a run that reaches such a token: 33 of them, more than the pool holds, taken while the last still has its message |
| ObjectMsgQ.TokenPool.constructor | src/util/cklists.h:539-543 | a full pool |
| ObjectMsgQ.TokenPool.Get | src/util/cklists.h:544-548 | the last token, or a new one |
| ObjectMsgQ.TokenPool.Put | src/util/cklists.h:549-556 | kept unless the pool is full |
| ObjectMsgQ.CkObjectMsgQ.constructor | src/ck-core/ckobjQ.C:31-38 | an empty queue |
| ObjectMsgQ.CkObjectMsgQ.Process | src/ck-core/ckobjQ.C:62-98 | empties the queue, releasing every message in order and returning message-less tokens |
| ObjectMsgQ.CkObjectMsgQ.TakeMessage | src/ck-core/ckobjQ.C:76-91 | one token gives up its message, or goes back to the pool if it has none |
| ObjectMsgQ.DrainIsProcess | src/ck-core/ckobjQ.C:62-98 | the drain loop on real tokens and the drain of the abstract system release the same messages and return the same tokens |
| ObjectMsgQ.CkObjectMsgQ.Enqueue | src/ck-core/ckobjQ.C:137-157 | one token, filled, at the end of the queue |
| ObjectMsgQ.HandleToken | src/ck-core/ckobjQ.C:185-201 | returns the token, and touches the object's queue only if the token held a message |
| ElementTable.PutIff | src/ck-core/ckarray.h:594-598 | insertion keeps map and vector inverse if and only if the ID was absent, and then adds exactly that entry |
| ElementTable.EraseIsRemoval | src/ck-core/ckarray.h:599-632 | swap-remove removes exactly that entry and keeps the two inverse |
| ElementTable.LookupAgrees | src/ck-core/ckarray.h:590-632 | after any history lookup agrees with a plain map |
| ElementTable.LocalElements.constructor | src/ck-core/ckarray.h:590-593 | an empty table |
| ElementTable.LocalElements.Get | src/ck-core/ckarray.h:590-593 | lookup in the abstract map |
| ElementTable.LocalElements.PutElt | src/ck-core/ckarray.h:594-598 | refines insertion |
| ElementTable.LocalElements.EraseElt | src/ck-core/ckarray.h:599-615 | refines removal |

## Left out

Causal logging:

- One checkpoint phase at a time: garbage collection is one synchronised step, taken when only
  acknowledgements are under way and every ticket is processed; objects do not move within a phase.
- The step from one determinant to the next in the store handler (src/ck-core/ckcausalmlog.C:1077)
  is modelled as its evident intent; the expression as written does not reliably advance.
- Channels are FIFO across a restart, since survivors do not use the failed processor's incarnation;
  any tail of what it had sent may be lost.
- 32-bit wrap-around of sequence and ticket numbers; team-based logging; parallel recovery; the code
  that verifies holes; `_delayedRemoteMessageQueue`, whose drain calls are commented out.
- Executing a message and its post-processing are one step; what the message sends is a later step.
- MlogRecovery.HandlersNeverAbort: is about packets; a message whose SN is below its sender's row
  trips the filter instead, exactly when FilterAborts says, and is not a step of the system.

Location manager:

- LocationChase.CaughtUpIff: is about a message passed on while nothing else happens; while elements
  keep moving and updates arrive in between, only safety is claimed.
- Element deletion, demand creation, `CK_MSG_KEEP` copies, restart paths and fault evacuation.
- Array managers register in the same order everywhere and are counted; the entry that looking up an
  unregistered manager inserts into the table of managers is not modelled.
- Creator counters stay below 2^24; an index is created once, or again only where it lives.
- A migrating element that arrives where more managers are registered than where it left aborts the
  program; such a delivery is not a step of the model.
- The array map is any function from indices to processors, and the compressor any injective packing;
  `CompressorSound` is what makes the fixed compressor one.

Others:

- Broadcast.BroadcastsReachElements: for runs without an arrival behind the retained history;
  RunGoodIff says that exactly these runs are correct all along.
- Broadcast: arrays with stable locations, elements that leave while catching up, and the delivery
  of the broadcast through the scheduler.  The serializer's order and FIFO channels are assumed.
- Replay: parsing the log file, the checksums, which only print, and passing node-level messages on
  to the next rank.
- Stp: stacks and context switches; a switch is one step.
- Compressor.Make: bounds from 1 to 2^30; beyond, the bit count it calls never returns, as
  BitCountEndsIff shows.
- Compressor: indices are natural numbers; a negative coordinate, which fails the source's
  assertion, is outside the model.
- BlockMap: the three-dimensional bin size and the Hilbert map.
- PropMap: floating-point rounding; quotas are exact fractions, and the library sort is any sort by
  descending remainder.
- PropMap.Shares: the speeds must not all be zero, where the source would divide by zero and convert
  the result to an integer, which C++ leaves undefined.
- PropMap.Distrib: likewise.
- Futures: null values, which abort; which of several awakened threads runs first is left open.
- ObjQueue.TokensSound: a token given back to the allocator is taken to keep its contents until it is
  drained; DrainsFreedIff says exactly when that is relied on.
- ObjQueue: priorities, which only choose which token the scheduler takes next.
- BlockMap.Balanced: the floor is taken exactly, not through a double.
- Files, processes, the network, tracing, statistics, load balancing and serialization.
