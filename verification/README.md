# Verified models of the X server fork's hard parts

Dafny models of the four groups of code in this X server whose correctness is hard to see by
reading: the deferred GPU-copy protocol between the X server and the renderer thread; the selection,
INCR and XDND bridge; output ownership, input leases, the window catalogue and the resource channel;
and four places where a fast or fragmented form stands for a simple one.

Each module models one of them and proves what it is for. The pattern is the same throughout: a
state as a value, one function for each thing that can happen, an invariant, and theorems over every
run. What the kernel, the GPU, X clients and the host answer is an input, so the theorems hold for
every answer. Where the source works by changing variables, a class or a method with the source's
loops does too, and its contract says that it is the step the theorems are about.

| file | subject |
|---|---|
| GpuCopyRing.dfy | the shared ring: publication, slots, serials, completion |
| GpuCopyAccess.dfy | pending counters, references, storage and the lock around CPU access |
| IncrTransfer.dfy | incremental transfers (section 2.7.2 of the ICCCM), outgoing and incoming |
| TransferTable.dfy | transfer slots, deferred work and descriptors |
| DragNegotiation.dfy | the source side of XDND version 5 |
| WindowOutputs.dfy | key and button leases, size ownership, dependent outputs |
| DirectInput.dfy | touch slots and tablet tools |
| WindowCatalogue.dfy | window records and what the host believes |
| ResourceChannel.dfy | descriptors handed to clients |
| CommandQueue.dfy | the nonblocking writer refines a stream |
| ConnectionReceiver.dfy | the fragmented receiver refines whole-message decoding |
| DmaSplitCopy.dfy | the split copy refines a plain rectangle copy |
| InspectionWalk.dfy | the pointer walk refines recursive preorder |

Modules are independent of each other. `dafny verify dfyconfig.toml` checks all of them.

## What does not hold

Some expected properties are false of the code as it stands. Each is kept as it is. For each there is
a run from the initial state that shows it, and the exact condition under which it holds.

| property | fails for | holds exactly when |
|---|---|---|
| a CPU access that conflicts with a copy in flight takes the shared lock | `GpuCopyAccess.RootAsSourceIsMissed`, `GpuCopyAccess.FormerRootIsMissed` | the access is in neither of the two families (`GpuCopyAccess.ConflictTakesLockUnlessMissed`) |
| a copy reported done was performed | `GpuCopyRing.EarlyReportIsReached` | the 64-bit counts compare as the true ones do (`GpuCopyRing.ReportedDoneExactly`) |
| every descriptor is closed once or held | `TransferTable.SecondAnswerRun`, `TransferTable.SecondAnnouncementRun` | no reply or announcement reaches a slot that holds one (`TransferTable.LosesExactly`) |
| deferred work acts only on its own transfer | `TransferTable.WrappedTicketActs` | no positive multiple of 2^32 allocations lies between the two (`TransferTable.StaleWorkActsExactly`) |
| a live transfer is queued exactly while one piece of work carries its ticket | `TransferTable.WrappedTicketSpoils` | no wrapped ticket spoils a queued transfer (`TransferTable.QueuedMeansOneItem`) |
| the empty chunk that ends a transfer comes after the whole file | `IncrTransfer.CutOffRun` | no failure writes it before everything was read and taken (`IncrTransfer.FailureLooksComplete`) |
| nothing is sent in a drag session after its drop | `DragNegotiation.SecondDropRepeats` | the host's commands after a drop do not make the bridge speak (`DragNegotiation.DisorderExactly`) |
| an output that dies holds nothing | `WindowOutputs.DeadDependentKeepsItsLease` | it dies other than by the release of its parent (`WindowOutputs.DeadDependentsExactly`) |
| stylus devices see a legal history | `DirectInput.RemovalUnderThePenBreaks` | no step reaches a tool that was held when its device was removed (`DirectInput.EveryRunIsLegal`) |

## Model

| member | source | states |
|---|---|---|
| GpuCopyRing.RingSafety | lorie/src/main/cpp/lorie/InitOutput.c:881-929 | in every interleaving of producer and consumer steps from start, index wrap included: at most eight entries, the wrapped difference is the backlog, every published unread entry is whole in its slot, and the GPU performs a prefix of the published copies, each once and as published |
| GpuCopyRing.RunKeepsInv | lorie/src/main/cpp/lorie/renderer.cpp:155-193 | the inductive invariant behind it holds along every run |
| GpuCopyRing.DoneMeansPerformed | lorie/src/main/cpp/lorie/InitOutput.c:935-937 | while the 64-bit serial has not wrapped, a copy is reported done exactly when it was acknowledged; then it and all earlier copies were performed; the head is never reported done |
| GpuCopyRing.RestingAcknowledgesAll | lorie/src/main/cpp/lorie/renderer.cpp:210-220 | between passes exactly the performed copies are reported done, even after a pass that ended on a failed or waiting entry |
| GpuCopyRing.CompletionIsMonotone | lorie/src/main/cpp/lorie/renderer.cpp:210-220 | completedSerial never decreases, and a copy once done stays done |
| GpuCopyRing.ReportedDoneExactly | lorie/src/main/cpp/lorie/InitOutput.c:935-937 | without that bound: in every reachable state copy i is reported done if and only if the low 64 bits of the number of acknowledged copies are at least those of i + 1 |
| GpuCopyRing.SerialWrapReportsEarly | lorie/src/main/cpp/lorie/InitOutput.c:917-917 | so the copy numbered 2^64, whose serial is zero, is reported done before it is performed |
| GpuCopyRing.EarlyReportIsReached | lorie/src/main/cpp/lorie/InitOutput.c:917-917 | a run from the start gets there: 2^64 - 1 copies scheduled, performed and acknowledged in turn, then one more, reported done unseen |
| GpuCopyRing.FailureStopsSubmission | lorie/src/main/cpp/lorie/renderer.cpp:183-188 | after a failed submission nothing is submitted or advanced until the connection is replaced |
| GpuCopyRing.SlotOfWrapped | lorie/src/main/cpp/lorie/lorie.h:239-244 | slot choice survives the 32-bit wrap because eight divides 2^32 |
| GpuCopyRing.OccupancyFromWrapped | lorie/src/main/cpp/lorie/InitOutput.c:881-887 | the wrapped subtraction of the indices is the true occupancy |
| GpuCopyRing.EntryRoundTrip | lorie/src/main/cpp/lorie/lorie.h:211-223 | an entry read back word by word is the entry written |
| GpuCopyRing.TryScheduleGpuCopy | lorie/src/main/cpp/lorie/InitOutput.c:875-929 | the producer's call is a run of the machine: it publishes exactly the request with the next serial if and only if the rectangle count is 1 to 16 and a slot is free, and otherwise changes nothing |
| GpuCopyRing.ApplyPendingGpuCopiesLocked | lorie/src/main/cpp/lorie/renderer.cpp:155-193 | one drain is a run of the machine that performs the backlog up to the first copy that cannot be performed and leaves that one at the head |
| GpuCopyRing.ApplyPendingGpuCopies | lorie/src/main/cpp/lorie/renderer.cpp:210-220 | one pass acknowledges exactly what has been performed |
| GpuCopyAccess.CountersAreExact | lorie/src/main/cpp/lorie/InitOutput.c:889-914 | over every run each buffer's pending counter is its number of uses in flight, its references are those plus its pixmap's own, and rootGpuCopyPending is the number of copies to the screen in flight |
| GpuCopyAccess.InFlightStorageStays | lorie/src/main/cpp/lorie/buffer.c:246-250 | from scheduling to acknowledgement, over any run, a copy's source and redirected destination are neither freed nor moved to other storage |
| GpuCopyAccess.ConflictTakesLockUnlessMissed | lorie/src/main/cpp/lorie/InitOutput.c:1052-1059 | a CPU access that conflicts with a copy in flight takes no lock if and only if it is in one of two families: an auxiliary write to the screen pixmap while it is only a source in flight, or an access to a former screen pixmap with copies to it in flight |
| GpuCopyAccess.RootAsSourceIsMissed | lorie/src/main/cpp/lorie/InitOutput.c:1054-1055 | a reachable state of the first family |
| GpuCopyAccess.FormerRootIsMissed | lorie/src/main/cpp/lorie/InitOutput.c:560-583 | a reachable state of the second family |
| GpuCopyAccess.ResizeStrandsRootCopies | lorie/src/main/cpp/lorie/InitOutput.c:560-583 | every resize with a copy to the screen in flight leads there, for every kind of access |
| GpuCopyAccess.NoAccessNoLock | lorie/src/main/cpp/lorie/InitOutput.c:1061-1094 | after any run with no access open the shared lock is not held |
| GpuCopyAccess.FinishGivesBackWhatPrepareTook | lorie/src/main/cpp/lorie/InitOutput.c:1083-1094 | whatever happens between Prepare and Finish, Finish releases exactly what Prepare took, and a failing Prepare leaves everything as it was |
| GpuCopyAccess.RunKeepsInv | lorie/src/main/cpp/lorie/InitOutput.c:939-952 | the invariant of counters, owners, copies and lock depth holds along every run |
| GpuCopyAccess.GpuCopyServer.TryScheduleGpuCopy | lorie/src/main/cpp/lorie/InitOutput.c:821-933 | is the Schedule step, and returns the serial and the destination buffer (none for the screen) |
| GpuCopyAccess.GpuCopyServer.PublishCopy | lorie/src/main/cpp/lorie/InitOutput.c:889-917 | takes the reference and the pending count of the source and of a redirected destination, or counts the screen |
| GpuCopyAccess.GpuCopyServer.EnsureGpuSampleable | lorie/src/main/cpp/lorie/InitOutput.c:125-142 | converts only regular buffers, and answers with the buffer only if it has the wanted kind |
| GpuCopyAccess.GpuCopyServer.GpuCopyAck | lorie/src/main/cpp/lorie/InitOutput.c:939-952 | is the Ack step: gives back what the schedule took |
| GpuCopyAccess.GpuCopyServer.PrepareAccess | lorie/src/main/cpp/lorie/InitOutput.c:1061-1081 | is the Prepare step; succeeds exactly when the access is open afterwards |
| GpuCopyAccess.GpuCopyServer.FinishAccess | lorie/src/main/cpp/lorie/InitOutput.c:1083-1094 | is the Finish step |
| IncrTransfer.OutgoingDelivers | lorie/src/main/cpp/lorie/data_exchange.c:265-281 | for every file above the chunk size, every requestor that reads and deletes, and every failure: chunks fit, what was read is a prefix of the file, only the last chunk read can be empty, then the slot is free and nothing more comes, and without a failure it was exactly the file |
| IncrTransfer.OutgoingDeliversFile | lorie/src/main/cpp/lorie/data_exchange.c:671-694 | the same with the bridge's chunk of 65536 bytes |
| IncrTransfer.OutgoingCompletes | lorie/src/main/cpp/lorie/data_exchange.c:265-281 | a requestor that keeps taking gets exactly the file cut into chunks, then the one empty chunk, and the slot is free |
| IncrTransfer.ChunkedMeaning | lorie/src/main/cpp/lorie/data_exchange.c:265-281 | the reference: the pieces concatenate to the file, none is longer than a chunk, only the last is empty |
| IncrTransfer.FailureLooksComplete | lorie/src/main/cpp/lorie/data_exchange.c:137-149 | a failure ends with the same empty chunk; what the requestor then has is the whole file if and only if everything had been read and taken |
| IncrTransfer.CutOffRun | lorie/src/main/cpp/lorie/data_exchange.c:137-149 | the run that shows it: one chunk is taken, the transfer expires, and the requestor has read that chunk and an end |
| IncrTransfer.SmallFileIsWhole | lorie/src/main/cpp/lorie/data_exchange.c:687-693 | a file of at most one chunk is written whole and the slot is free at once |
| IncrTransfer.IncomingStaysBounded | lorie/src/main/cpp/lorie/data_exchange.c:252-262 | whatever the selection owner does, the accumulated size stays within 128 MiB, so the space left never underflows, and the host hears exactly once, when the slot is freed |
| IncrTransfer.IncomingIsWhatWasSent | lorie/src/main/cpp/lorie/data_exchange.c:226-263 | against an owner that waits for each deletion, a completed file is exactly its chunks concatenated, up to the empty one |
| IncrTransfer.RefusedOnlyWhenTooLong | lorie/src/main/cpp/lorie/data_exchange.c:252-252 | while calls succeed, a chunk is refused if and only if it takes the total past the limit |
| IncrTransfer.IncomingCompletes | lorie/src/main/cpp/lorie/data_exchange.c:226-263 | every sequence of chunks within the limit arrives whole |
| IncrTransfer.SentAndReceived | lorie/src/main/cpp/lorie/data_exchange.c:226-281 | what the outgoing side sends, the incoming side turns into the same file |
| IncrTransfer.OutgoingTransfer.constructor | lorie/src/main/cpp/lorie/data_exchange.c:671-694 | is the reply step: announce, or send at once |
| IncrTransfer.OutgoingTransfer.WriteChunk | lorie/src/main/cpp/lorie/data_exchange.c:265-281 | is the SendChunk step on the slot's fields |
| IncrTransfer.OutgoingTransfer.PropertyWork | lorie/src/main/cpp/lorie/data_exchange.c:285-294 | is the deferred step of an outgoing slot |
| IncrTransfer.OutgoingTransfer.Expired | lorie/src/main/cpp/lorie/data_exchange.c:137-157 | is the failure step |
| IncrTransfer.IncomingTransfer.ReadProperty | lorie/src/main/cpp/lorie/data_exchange.c:226-263 | is the Receive step on the slot's fields |
| IncrTransfer.IncomingTransfer.PropertyWork | lorie/src/main/cpp/lorie/data_exchange.c:285-294 | is the deferred step of an incoming slot |
| DragNegotiation.EveryRunIsLegal | lorie/src/main/cpp/lorie/data_exchange.c:513-581 | over every run of drag commands and client messages: a drop goes only to the window entered and not left, through the proxy chosen at entry, with no position unanswered and the latest answer accepting; and a status stands between two positions to one target |
| DragNegotiation.OrderlyRunIsStrict | lorie/src/main/cpp/lorie/data_exchange.c:696-727 | if after each drop the host enters, finishes or cancels before it moves, leaves or drops again, the conversation is strictly legal: nothing is sent in a session after its drop |
| DragNegotiation.OneDropASession | lorie/src/main/cpp/lorie/data_exchange.c:559-581 | in a strictly legal conversation an enter stands between any two drops |
| DragNegotiation.DisorderExactly | lorie/src/main/cpp/lorie/data_exchange.c:708-716 | the first disorderly command breaks the strict protocol if and only if it makes the bridge speak: a move over an output, a leave, or a drop that is neither held back by pending data nor a question about a point outside every output |
| DragNegotiation.DropsExactly | lorie/src/main/cpp/lorie/data_exchange.c:559-581 | a step sends an XdndDrop if and only if it is a drop command with the bridge enabled, a target, an accepting answer and no position unanswered; or the accepting answer, or the end of the drag data, that a pending drop waited for |
| DragNegotiation.DropsAreCommanded | lorie/src/main/cpp/lorie/data_exchange.c:714-716 | over every run drops never outnumber the host's drop commands |
| DragNegotiation.PositionsAreSeparated | lorie/src/main/cpp/lorie/data_exchange.c:513-542 | in a legal conversation two positions of one session have a status between them |
| DragNegotiation.RenegotiationIsBounded | lorie/src/main/cpp/lorie/data_exchange.c:559-581 | after any run and a drag entering, until another enters: the positions in the log that come from the drop path number at most the drag-data transfers completed since |
| DragNegotiation.RenegotiationBringsUpToDate | lorie/src/main/cpp/lorie/data_exchange.c:559-574 | a position from the drop path leaves the latest position as recent as the latest data |
| DragNegotiation.RenegotiationIsSpent | lorie/src/main/cpp/lorie/data_exchange.c:559-574 | from then on no answer, queued move, pending data or further drop command makes the drop path ask again, until new drag data completes or another drag enters |
| DragNegotiation.AnswerEndsTheDrag | lorie/src/main/cpp/lorie/data_exchange.c:559-574 | with no data pending and no queued move, the answer to such a position ends the drag in a drop or a leave |
| DragNegotiation.SecondDropRepeats | lorie/src/main/cpp/lorie/data_exchange.c:714-716 | the run that shows a drop command is not idempotent: enter, move, an accepting answer and two drop commands send two XdndDrops in one session |
| DragNegotiation.RunKeepsInv | lorie/src/main/cpp/lorie/data_exchange.c:438-456 | the bridge's variables are what the monitor observes, along every run |
| DragNegotiation.DragBridge.MoveTo | lorie/src/main/cpp/lorie/data_exchange.c:513-542 | is the MoveDrag step |
| DragNegotiation.DragBridge.DropNow | lorie/src/main/cpp/lorie/data_exchange.c:559-574 | is the DropDrag step |
| DragNegotiation.DragBridge.Reject | lorie/src/main/cpp/lorie/data_exchange.c:552-557 | is the RejectDrag step |
| DragNegotiation.DragBridge.Finished | lorie/src/main/cpp/lorie/data_exchange.c:576-581 | is the step of a finished transfer |
| DragNegotiation.DragBridge.StatusMessage | lorie/src/main/cpp/lorie/data_exchange.c:438-449 | is the step of an XdndStatus |
| DragNegotiation.DragBridge.FinishedMessage | lorie/src/main/cpp/lorie/data_exchange.c:450-455 | is the step of an XdndFinished |
| DragNegotiation.DragBridge.EnterCommand | lorie/src/main/cpp/lorie/data_exchange.c:696-707 | is the step of the host's enter |
| DragNegotiation.DragBridge.LeaveCommand | lorie/src/main/cpp/lorie/data_exchange.c:709-713 | is the step of the host's leave |
| DragNegotiation.DragBridge.MoveOrDropCommand | lorie/src/main/cpp/lorie/data_exchange.c:708-716 | is the step of the host's move or drop |
| DragNegotiation.DragBridge.FinishCommand | lorie/src/main/cpp/lorie/data_exchange.c:717-727 | is the step of the host's finish or cancel |
| DragNegotiation.DragBridge.DataReset | lorie/src/main/cpp/lorie/data_exchange.c:734-743 | is the reset step |
| TransferTable.QueuedMeansOneItem | lorie/src/main/cpp/lorie/data_exchange.c:283-314 | a run keeps every live transfer marked queued exactly while one piece of deferred work carries its ticket, at every step, if and only if no step spoils one: no work acts on a later, queued occupant of its slot that lives on |
| TransferTable.PromptIsHonest | lorie/src/main/cpp/lorie/data_exchange.c:159-168 | no step does while each piece of work runs within 2^32 allocations of the allocation of the transfer it was queued for |
| TransferTable.NoneLiveWhileDisabled | lorie/src/main/cpp/lorie/data_exchange.c:734-743 | in every run no transfer is live while the bridge is disabled |
| TransferTable.WorkActsOnItsOwner | lorie/src/main/cpp/lorie/data_exchange.c:285-294 | while fewer than 2^32 allocations have been made since its transfer's own, work acts exactly on that transfer, if it is still live |
| TransferTable.StaleWorkActsExactly | lorie/src/main/cpp/lorie/data_exchange.c:285-294 | in every reachable table work acts on a live occupant other than its own if and only if their allocation numbers differ by a positive multiple of 2^32 |
| TransferTable.StaleWorkIsInert | lorie/src/main/cpp/lorie/data_exchange.c:285-294 | within the same span, stale work leaves everything but the queue unchanged, whoever has the slot now |
| TransferTable.WrappedTicketActs | lorie/src/main/cpp/lorie/data_exchange.c:159-168 | a run from the start: a transfer lives while 2^32 - 1 others come and go, is queued, and expires; its work then acts on the next occupant of the slot, although only one allocation was made while it waited |
| TransferTable.WrappedTicketSpoils | lorie/src/main/cpp/lorie/data_exchange.c:285-314 | the run goes on until two pieces of work carry one live ticket: the occupant was queued, lost its mark to the wrapped ticket, and was queued again |
| TransferTable.DescriptorsAreAccounted | lorie/src/main/cpp/lorie/data_exchange.c:128-135 | over every run, wrapped tickets included, each descriptor is closed once, held by exactly one live slot, or lost, and never two of these |
| TransferTable.LosesExactly | lorie/src/main/cpp/lorie/data_exchange.c:671-680 | a step drops an open descriptor if and only if it is a usable reply, or an INCR announcement, for a slot that already holds one |
| TransferTable.AnsweredOnceNothingIsLost | lorie/src/main/cpp/lorie/data_exchange.c:651-732 | if each request serial and each requestor window is answered at most once, every descriptor is closed exactly once or held by exactly one live slot |
| TransferTable.SecondAnswerRun | lorie/src/main/cpp/lorie/data_exchange.c:677-677 | the run that shows it: one request whose serial is answered twice with a large file loses the first descriptor |
| TransferTable.SecondAnnouncementRun | lorie/src/main/cpp/lorie/data_exchange.c:233-239 | the other: one request whose owner announces an incremental transfer twice loses the first file |
| TransferTable.SecondAnnouncementLoses | lorie/src/main/cpp/lorie/data_exchange.c:233-239 | a second announcement loses the descriptor held even when making the new file fails |
| TransferTable.RunKeepsInv | lorie/src/main/cpp/lorie/data_exchange.c:128-168 | descriptors, the age of queued work and the disabled state are accounted along every run |
| TransferTable.Transfers.Search | lorie/src/main/cpp/lorie/data_exchange.c:159-168 | the scan finds the first matching slot |
| TransferTable.Transfers.ReleaseSlot | lorie/src/main/cpp/lorie/data_exchange.c:128-135 | is the Release step |
| TransferTable.Transfers.ReleaseEvery | lorie/src/main/cpp/lorie/data_exchange.c:322-322 | releases every live slot, or those of one channel |
| TransferTable.Transfers.OpenTransfer | lorie/src/main/cpp/lorie/data_exchange.c:159-168 | is the Request step: first free slot, next ticket, next request serial for an outgoing one |
| TransferTable.Transfers.OnPropertyChanged | lorie/src/main/cpp/lorie/data_exchange.c:296-314 | is the PropertyChanged step: the first matching slot only, queued at most once |
| TransferTable.Transfers.ServeSlot | lorie/src/main/cpp/lorie/data_exchange.c:226-281 | is what receive or sendChunk do to a slot and its descriptor, for each outcome |
| TransferTable.Transfers.PropertyWork | lorie/src/main/cpp/lorie/data_exchange.c:285-294 | is the DoWork step |
| TransferTable.Transfers.OnSelectionNotify | lorie/src/main/cpp/lorie/data_exchange.c:410-421 | is the Notified step |
| TransferTable.Transfers.OnReply | lorie/src/main/cpp/lorie/data_exchange.c:671-695 | is the HostReply step: the descriptor goes to the slot or is closed |
| TransferTable.Transfers.DataReset | lorie/src/main/cpp/lorie/data_exchange.c:734-743 | is the Reset step |
| WindowOutputs.SignalsAlternate | lorie/src/main/cpp/lorie/window_outputs.c:61-110 | over every run the press and release signals of each key and button strictly alternate, and it is down exactly while some listed output holds it |
| WindowOutputs.ResetReleasesEverything | lorie/src/main/cpp/lorie/window_outputs.c:190-201 | after a reset nothing is listed and nothing is down |
| WindowOutputs.ReleaseInputFrees | lorie/src/main/cpp/lorie/window_outputs.c:81-88 | releaseInput leaves the output holding nothing, changes nothing else about it, and keeps the device in step |
| WindowOutputs.OwnershipHolds | lorie/src/main/cpp/lorie/window_outputs.c:154-169 | over every run: ids nonzero and unique; at most one size owner a window, and a live one whenever a live, unborrowed, resized view exists; a live dependent has a live unborrowed parent on the same window and shares it with no other |
| WindowOutputs.RunKeepsShape | lorie/src/main/cpp/lorie/window_outputs.c:232-283 | the same as an invariant of every command |
| WindowOutputs.DestroyFromOuts | lorie/src/main/cpp/lorie/window_outputs.c:133-145 | destroying a window kills exactly its views, with their leases released, and leaves the others alone |
| WindowOutputs.DeadDependentsExactly | lorie/src/main/cpp/lorie/window_outputs.c:154-169 | in every reachable state a step leaves an output newly dead and holding x if and only if it is an unbind, or a bind of a listed id, of an output with a live dependent that holds x |
| WindowOutputs.DeadDependentKeepsItsLease | lorie/src/main/cpp/lorie/window_outputs.c:157-157 | a run from the start: a view, a dependent that presses a key, the view unbound; the dependent is dead and the key stays down |
| WindowOutputs.Outputs.OutputInput | lorie/src/main/cpp/lorie/window_outputs.c:61-79 | is the Toggle step on one key or button |
| WindowOutputs.Outputs.ReleaseAllInput | lorie/src/main/cpp/lorie/window_outputs.c:81-88 | is the release of keys 8 to 255 and buttons 1 to 7 |
| WindowOutputs.Outputs.ReleaseSelection | lorie/src/main/cpp/lorie/window_outputs.c:154-169 | is the Detached step: children die, input is released, the size passes on |
| WindowOutputs.Outputs.UnbindCommand | lorie/src/main/cpp/lorie/window_outputs.c:236-239 | is the Unbind step |
| WindowOutputs.Outputs.BindCommand | lorie/src/main/cpp/lorie/window_outputs.c:240-261 | is the Bind step |
| WindowOutputs.Outputs.Command | lorie/src/main/cpp/lorie/window_outputs.c:262-336 | is the step of resize, input and blur |
| WindowOutputs.Outputs.ResizeView | lorie/src/main/cpp/lorie/window_outputs.c:271-283 | the latest resize owns the window's size |
| WindowOutputs.Outputs.WindowDestroyed | lorie/src/main/cpp/lorie/window_outputs.c:133-145 | is the Destroyed step |
| WindowOutputs.Outputs.ResetOutputs | lorie/src/main/cpp/lorie/window_outputs.c:190-201 | is the Reset step |
| DirectInput.EveryRunIsLegal | lorie/src/main/cpp/lorie/direct_input.c:26-104 | over every run touches begin, update and end in turn; and the stylus devices see a legal history -- at most one tool near, buttons alternating while it is and all up when it leaves -- if and only if no step reaches a tool whose device was removed while it was held and is there again |
| DirectInput.EveryTouchTraceIsInTurn | lorie/src/main/cpp/lorie/direct_input.c:52-77 | so in every run each slot's trace is Begin Update* End repeated, whatever becomes of the stylus |
| DirectInput.StylusExact | lorie/src/main/cpp/lorie/direct_input.c:78-104 | from a legal history a step keeps it legal if and only if it is not one of those |
| DirectInput.CarefulRunIsLegal | lorie/src/main/cpp/lorie/InitInput.c:262-272 | the stylus history is legal in every run in which the devices are removed only while no tool is held |
| DirectInput.RemovalUnderThePenBreaks | lorie/src/main/cpp/lorie/InitInput.c:262-272 | a run from the start: the pen comes near, the devices are removed, the pen moves on; the new device gets motion without proximity |
| DirectInput.LegalSlotTrace | lorie/src/main/cpp/lorie/direct_input.c:52-77 | in a legal history each slot's trace is a repetition of Begin Update* End, the last perhaps open |
| DirectInput.SlotsAreDistinct | lorie/src/main/cpp/lorie/direct_input.c:52-77 | occupied slots are distinct (output, contact) pairs and are exactly the touches that are down; one of pen and eraser is away |
| DirectInput.ReleaseLeavesNothing | lorie/src/main/cpp/lorie/direct_input.c:44-50 | releasing an output leaves it no contact and no tool, in every reachable state |
| DirectInput.RemapMeaning | lorie/src/main/cpp/lorie/direct_input.c:99-103 | tip is X button 1, first barrel 3, second barrel 2, and nothing else |
| DirectInput.Devices.OnTouch | lorie/src/main/cpp/lorie/direct_input.c:52-77 | is the touch step |
| DirectInput.Devices.OnTablet | lorie/src/main/cpp/lorie/direct_input.c:78-104 | is the tablet step, devices made on the way included |
| DirectInput.Devices.SetStylusEnabled | lorie/src/main/cpp/lorie/InitInput.c:243-273 | is the step that makes or removes the stylus devices |
| DirectInput.Devices.TabletRelease | lorie/src/main/cpp/lorie/direct_input.c:33-42 | is the step that lifts the buttons and leaves proximity |
| DirectInput.Devices.ReleaseOutput | lorie/src/main/cpp/lorie/direct_input.c:44-50 | is the release step |
| WindowCatalogue.EveryRefreshIsExact | lorie/src/main/cpp/lorie/window_model.c:313-342 | for every history of the X tree, clients and connection, at the end of each refresh that runs, replaying what was sent since Observe gives exactly the application windows that are mapped or were known, each with its current state |
| WindowCatalogue.RefreshIsExact | lorie/src/main/cpp/lorie/window_model.c:313-342 | the same from any state of the invariant, with the records live, distinct and up to date |
| WindowCatalogue.ReusedXidIsTheNewWindow | lorie/src/main/cpp/lorie/window_model.c:316-328 | an XID destroyed and reused between refreshes is the new window to the host, or nothing |
| WindowCatalogue.WalkVisitsAll | lorie/src/main/cpp/lorie/window_model.c:306-311 | the last-child-first walk meets every window as often as the tree has it |
| WindowCatalogue.RunKeepsInv | lorie/src/main/cpp/lorie/window_model.c:683-694 | records, host and hooks stay in step along every run |
| WindowCatalogue.WindowModel.Publish | lorie/src/main/cpp/lorie/window_model.c:220-304 | is the PublishWindow step |
| WindowCatalogue.WindowModel.WalkChildren | lorie/src/main/cpp/lorie/window_model.c:306-311 | publishes in the order of the walk |
| WindowCatalogue.WindowModel.PurgeDestroyed | lorie/src/main/cpp/lorie/window_model.c:318-328 | is the Purge step |
| WindowCatalogue.WindowModel.SweepUnseen | lorie/src/main/cpp/lorie/window_model.c:331-339 | is the Sweep step |
| WindowCatalogue.WindowModel.RefreshNow | lorie/src/main/cpp/lorie/window_model.c:313-342 | is the refresh step |
| WindowCatalogue.WindowModel.Restart | lorie/src/main/cpp/lorie/window_model.c:344-351 | is the Observe or Reset step |
| WindowCatalogue.WindowModel.OnDestroy | lorie/src/main/cpp/lorie/window_model.c:683-694 | is the Destroy step: every record of that name is marked |
| CommandQueue.QueueRefinesStream | lorie/src/main/cpp/lorie/command_queue.h:12-88 | after any sequence of appends, flushes and clears what reached the socket is a prefix of the accepted messages, each followed at once by its marker; counters match the queue and stay within bounds; each duplicated descriptor is closed once or held once |
| CommandQueue.RejectedAppend | lorie/src/main/cpp/lorie/command_queue.h:35-40 | a rejected append leaves queue, counters and stream alone and closes the descriptor it may have duplicated |
| CommandQueue.AcceptedAppend | lorie/src/main/cpp/lorie/command_queue.h:41-48 | an accepted one extends the stream by exactly the message and its marker |
| CommandQueue.FlushKeepsInv | lorie/src/main/cpp/lorie/command_queue.h:51-88 | whatever the socket does, a flush only moves items from the queue to the socket, in order, and reports drained exactly when the queue is empty |
| CommandQueue.FlushDrains | lorie/src/main/cpp/lorie/command_queue.h:51-88 | a socket that keeps taking data, however little at a time, gets the whole accepted stream |
| CommandQueue.ClearKeepsInv | lorie/src/main/cpp/lorie/command_queue.h:25-34 | after a clear every descriptor ever duplicated has been closed exactly once |
| CommandQueue.LorieCommandQueue.Append | lorie/src/main/cpp/lorie/command_queue.h:35-49 | is the append step |
| CommandQueue.LorieCommandQueue.ClearQueue | lorie/src/main/cpp/lorie/command_queue.h:25-34 | is the clear step |
| CommandQueue.LorieCommandQueue.FlushQueue | lorie/src/main/cpp/lorie/command_queue.h:51-88 | is the flush step for every script of system-call results |
| ConnectionReceiver.CutsDoNotMatter | lorie/src/main/cpp/lorie/session.cpp:157-247 | however recv cuts the stream, the callbacks are those of decoding what was consumed as whole messages; the receiver gives up only on a message that decoding refuses, or when the socket is lost |
| ConnectionReceiver.SameBytesSameReceiver | lorie/src/main/cpp/lorie/session.cpp:157-247 | two ways of cutting the same bytes leave receivers with the same callbacks and the same unfinished message |
| ConnectionReceiver.OnePayloadAtATime | lorie/src/main/cpp/lorie/session.cpp:82-155 | at every moment at most one payload is awaited, the header buffer is empty while one is, less than the whole is in hand, and a cursor fits its buffer |
| ConnectionReceiver.ServerMessagesRoundTrip | lorie/src/main/cpp/lorie/cmdentrypoint.cpp:408-462 | any sequence of well-built messages decodes to exactly its callbacks with nothing left over |
| ConnectionReceiver.ServerStreamArrives | lorie/src/main/cpp/lorie/cmdentrypoint.cpp:408-462 | fed any part of such a stream in any pieces the receiver stays connected; fed all of it, it has made exactly those callbacks and is idle |
| ConnectionReceiver.ServerBuildsWell | lorie/src/main/cpp/lorie/cmdentrypoint.cpp:408-462 | what the senders write over a layout that carries it is well built: for every icon, X cursor, number of input rectangles and data type, the header is accepted and the payload has the size it announces |
| ConnectionReceiver.WireCarries | lorie/src/main/cpp/lorie/lorie.h:94-180 | there are such layouts: a tag, 32-bit fields, a type and a body, and structures that begin with their count, carry every send whose numbers fit 32 bits |
| ConnectionReceiver.EverySendArrives | lorie/src/main/cpp/lorie/cmdentrypoint.cpp:408-462 | so whatever the server sends over such a layout, in whatever pieces, arrives as exactly its callbacks |
| ConnectionReceiver.DecodeExtends | lorie/src/main/cpp/lorie/session.cpp:157-247 | what is left of one part decodes with the next part as the whole does |
| ConnectionReceiver.Connection.ReceiveWindow | lorie/src/main/cpp/lorie/session.cpp:82-111 | is the payload step of a window |
| ConnectionReceiver.Connection.ReceiveCursor | lorie/src/main/cpp/lorie/session.cpp:113-128 | is the payload step of a cursor |
| ConnectionReceiver.Connection.ReceiveShell | lorie/src/main/cpp/lorie/session.cpp:130-143 | is the payload step of a shell surface |
| ConnectionReceiver.Connection.ReceiveFamily | lorie/src/main/cpp/lorie/session.cpp:145-155 | is the payload step of family geometry |
| ConnectionReceiver.Connection.ReceiveDescriptor | lorie/src/main/cpp/lorie/session.cpp:191-224 | is the step of an event that brings a descriptor |
| ConnectionReceiver.Connection.StartCursor | lorie/src/main/cpp/lorie/session.cpp:179-190 | is the step of a cursor header, the growth of its buffer included |
| ConnectionReceiver.Connection.Dispatch | lorie/src/main/cpp/lorie/session.cpp:173-247 | is the step of a completed header |
| ConnectionReceiver.Connection.Receive | lorie/src/main/cpp/lorie/session.cpp:157-172 | is one input-ready step |
| ConnectionReceiver.Connection.Disconnect | lorie/src/main/cpp/lorie/session.cpp:43-63 | clears every pending part and reports once |
| DmaSplitCopy.ImportIsBest | lorie/src/main/cpp/lorie/dma_copy.c:265-324 | for every layout and every driver answer the import covers the whole image, or splits it at a row count that is positive, below the height, fits the file with the driver's overhead and is maximal, or is refused |
| DmaSplitCopy.SplitIsBest | lorie/src/main/cpp/lorie/dma_copy.c:307-324 | the split of the two sizes is the best there is |
| DmaSplitCopy.RowCountIsBest | lorie/src/main/cpp/lorie/dma_copy.c:310-315 | the computed row count is the largest whose extent fits the room |
| DmaSplitCopy.ExtentFits | lorie/src/main/cpp/lorie/dma_copy.c:271-273 | the extent computed in 64 bits is the true one, with no wrap-around |
| DmaSplitCopy.DmaCopySource.CopyRect | lorie/src/main/cpp/lorie/dma_copy.c:434-474 | for every in-bounds rectangle exactly the pixels of a plain rectangle copy change, reads stay inside the imported and tail buffers, and the tail is staged exactly when it is read |
| DmaSplitCopy.DmaCopySource.FromFile | lorie/src/main/cpp/lorie/dma_copy.c:265-324 | a source exists exactly when the import is not refused; the imported and staged byte sizes are four times the pixel extents that the copies read, and the image lies in the file |
| DmaSplitCopy.TexelBytes | lorie/src/main/cpp/lorie/dma_copy.c:422-432 | a texel of an aligned image is the four bytes at offset + y * stride + 4 * x, inside the file |
| DmaSplitCopy.DmaCopySource.RecordCopy | lorie/src/main/cpp/lorie/dma_copy.c:422-432 | each recorded part copies exactly its rows |
| DmaSplitCopy.DmaCopySource.constructor | lorie/src/main/cpp/lorie/dma_copy.c:290-295 | a source of this layout, with room for exactly the rows that are not imported |
| DmaSplitCopy.CopyBufferToImage | lorie/src/main/cpp/lorie/dma_copy.c:424-431 | the copy command: the rectangle gets the buffer's rows, everything else is unchanged |
| InspectionWalk.InspectFamily | lorie/src/main/cpp/lorie/window_inspection_walk.h:14-35 | on every well-formed window tree the pointer walk emits the owner and then the recursive preorder of the other members, whole when not truncated and as a prefix when truncated, never past the limit or 8192 nodes |
| InspectionWalk.Scan | lorie/src/main/cpp/lorie/window_inspection_walk.h:20-33 | the scan loop considers exactly the nodes of the preorder, in order |
| InspectionWalk.Climb | lorie/src/main/cpp/lorie/window_inspection_walk.h:30-32 | going up and across the pointers arrives at the next node of the preorder, or at the end |
| InspectionWalk.Next | lorie/src/main/cpp/lorie/window_inspection_walk.h:29-32 | one move of the pointer is one place in the preorder |
| InspectionWalk.InspectMember | lorie/src/main/cpp/lorie/window_inspection_walk.h:6-11 | the bounded climb finds exactly whether the window or an ancestor below the root is a member |
| InspectionWalk.InheritsMeaning | lorie/src/main/cpp/lorie/window_inspection_walk.h:6-11 | what that means on the parent links |
| InspectionWalk.StopMeaning | lorie/src/main/cpp/lorie/window_inspection_walk.h:22-33 | what is known when the scan stops: complete, at the limit, or at the scan bound |
| ResourceChannel.DescriptorsAreAccounted | lorie/src/main/cpp/lorie/resource_channel.c:30-53 | over every run each descriptor the kernel installed is closed exactly once, handed over exactly once, or held |
| ResourceChannel.RightsOnlyBetweenReplyAndPickUp | lorie/src/main/cpp/lorie/resource_channel.c:71-86 | rights are held exactly between a successful reply and its pick-up |
| ResourceChannel.HandedToTheCallerWhoAsked | lorie/src/main/cpp/lorie/resource_channel.c:98-110 | a call that succeeds gets both descriptors of the reply to its own id and flags; one that fails gets none |
| ResourceChannel.OnlyCallsHandOver | lorie/src/main/cpp/lorie/resource_channel.c:57-95 | nothing but a call hands a descriptor over |
| ResourceChannel.FailuresClose | lorie/src/main/cpp/lorie/resource_channel.c:57-86 | a timeout or a failed or malformed packet closes the channel, and a packet keeps it open if and only if it is well formed |
| ResourceChannel.ClosedForGood | lorie/src/main/cpp/lorie/resource_channel.c:98-123 | on a closed channel no later packet satisfies a request, over any run |
| ResourceChannel.OrphanTimerIsHarmless | lorie/src/main/cpp/lorie/resource_channel.c:118-121 | a request whose callback cannot be registered leaves its timer armed; its expiry hands out nothing |
| ResourceChannel.ReceiveKeeps | lorie/src/main/cpp/lorie/resource_channel.c:30-53 | every descriptor of a packet is kept, at most two, or closed; a malformed packet keeps none |
| ResourceChannel.ResourceClient.ReceivePacket | lorie/src/main/cpp/lorie/resource_channel.c:30-53 | is the Receive function, by loops over messages and descriptors |
| ResourceChannel.ResourceClient.Done | lorie/src/main/cpp/lorie/resource_channel.c:57-66 | is the Finish step |
| ResourceChannel.ResourceClient.OnProgress | lorie/src/main/cpp/lorie/resource_channel.c:71-86 | is the Progress step |
| ResourceChannel.ResourceClient.Shm | lorie/src/main/cpp/lorie/resource_channel.c:98-123 | is the Call step and its result |
| ResourceChannel.ResourceClient.OnExpired | lorie/src/main/cpp/lorie/resource_channel.c:67-70 | is the Expire step |
| ResourceChannel.ResourceClient.OnClientGone | lorie/src/main/cpp/lorie/resource_channel.c:87-95 | is the ClientGone step |

## Left out

- Vulkan, AHardwareBuffer, mmap, ioctl and socket calls are results the environment chooses; what the GPU draws is not modelled.
- X server internals (windows, EXA, XKB, RandR, Composite, Damage, Present) are environment steps: a pixmap Present holds is not destroyed, EXA folds nested accesses to one pixmap, a window vanishes only through the destroy hook, each scheduled copy is acknowledged once.
- The ring's producer and consumer are steps of one state value rather than objects in shared memory, since a run is any interleaving of single loads and stores; their calls are methods over that machine.
- Liveness of the ring: a copy may wait for a buffer that is never registered again. The renderer's added, live and removed buffer lists are behind the answer to a buffer lookup.
- An acknowledgement given because the renderer stalled ends a copy's time in flight although the GPU may still perform it; what is proved is about copies in flight.
- That a pending drop is always resolved is not claimed: a reply for a vanished requestor, or a header that cannot be written, releases a transfer without finishing the selection.
- Drag messages are logged when they are handed over; a message to a window that has gone is not delivered. Hit testing, XdndAware and proxy lookup are inputs.
- The export half of the bridge (drags from X to the host), offers, target lists and the TARGETS and TIMESTAMP conversions: straight-line code.
- Client property changes made from inside a handler's own property calls are separate events: the code ignores or defers all of them.
- Output dirty flags, viewports, published frames, cursor and text injection through the keyboard map.
- Axis values of touch and tablet events.
- Window records are assumed to be allocated; the three serials of a record are one state number, and fields only the hooks report are one value.
- The buffer event of a connection, whose handle the graphics library receives with a protocol of its own; field offsets inside headers and payloads are parameters of the receiver.
- ConnectionReceiver.Connection.Dispatch: a blocking receive that brings anything but one byte with one descriptor, and a mapping that fails, are losses of the connection; the blocking itself and the descriptors' lifetimes are not modelled.
- Admission of new connections to the resource channel, and the table of clients: records share nothing.
- Small one-function helpers (placement axes, roles, cursor pixel conversion, fullscreen and maximized requests, XSETTINGS bytes) and key symbol injection would only add easy members.
