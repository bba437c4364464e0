# Scufris, modelled and proved

Scufris is a desktop assistant: one long-running service owns one agent, a
durable conversation, an inbox of scheduled briefings, and the surfaces that
show both. Beside it live a journal editor and the tool that prepares a
briefing. This project models the parts of that system that have to survive
crashes, failed writes and interleaving, and proves what they promise.

Every write of a snapshot is one atomic step that lands or does nothing, and
every send succeeds or fails; both outcomes are arguments of the step, so each
theorem holds for all of them. A class with fields stands for an object the
source changes in place, and each of its methods is proved to leave exactly what
a function of the old state says. The theorems are about those functions, over
single steps and over whole runs.

| files | what they are about |
|---|---|
| `BriefingRows`, `BriefingInbox` | a briefing row, and the inbox as values: merge, eviction, every operation, load and open |
| `BriefingStore` | the inbox as the object it is, with clone, persist and roll back |
| `BriefingInboxLaws`, `BriefingUpsertLaws`, `BriefingReopenLaws`, `BriefingFollows` | the inbox invariant, monotone and idempotent merge, retention, crash equivalence |
| `BriefingEffects`, `BriefingDismissals` | what each inbox operation does row by row and answers, what a legacy file gives up, how long a dismissal lasts |
| `ConversationRing`, `ConversationHistory`, `ConversationLaws` | the bounded replay: sequences, deliveries, pages, reload |
| `ConversationRuns`, `ConversationOpening` | what a restart finds of the replay, and what opening makes of any stored list |
| `DeliveryProtocol`, `DeliveryService` | durable proactive delivery as a state machine, and the service object that performs it |
| `DeliverySlot`, `DeliveryStores`, `DeliveryCarries`, `DeliveryAnswers`, `DeliveryRuns` | one model slot, sound files, write-ahead answers, exactly once and no loss over runs |
| `DeliveryRecords`, `DeliveryChanges` | what each step adds to the conversation and that a restart finds it, and the state machine read field by field |
| `DeliveryOutcomes` | what stopping, recovering, dispatching and answering achieve when their writes land, and how long an owner's turn stays open |
| `DeliveryHeld`, `DeliveryCircuit`, `DeliveryOrphans` | the reserved event, the bound on proactive turns, and the one way round it |
| `Replica`, `ReplicaRuns` | the desktop's conversation, bounded outboxes, and the refinement between the two programs |
| `Lease`, `LeaseChanges`, `LeaseService` | the generation-fenced handoff of the agent to a terminal, and what each part of it depends on |
| `DenText`, `DenLines`, `DenSections`, `DenEdits`, `DenTasks`, `DenRows`, `DenSingles`, `DenGrammar`, `DenEditor`, `DenSearch` | the journal editor: text, line classes and their shapes, sections, and each writer against the reader |
| `BriefingPublish`, `Attachments` | three-write publication, and the attachment store's accounting and crash order |
| `Prelude` | options, sequences, and the order of strings |

## What the proofs found

- The bound on proactive turns fails without any failed write when a stored
  report says that the reserved row was delivered before its turn has started.
  Such a report is the only step that takes the reserved event off the queue and
  leaves it active (`DeliveryHeld.OrphanedIff`); without one the bound holds
  (`DeliveryCircuit.TurnsAreBounded`), and with them a service that starts with
  empty files starts any number of turns of one run in one sequence
  (`DeliveryOrphans.OrphansAreUnbounded`).
- The same report makes the service record an answer it announces to nobody
  (`ReplicaRuns.SilenceWithoutFailures`). An answer is announced exactly when its
  acknowledgement is stored and its event is still queued, and its silence goes
  unnoticed only if the ring is full of nothing but that answer
  (`ReplicaRuns.AnnouncedIff`).
- The second half of a child's exit report does not look at the lease. An idle
  terminal stays shown as idle through every exit half still to come if and only
  if no child is between the halves of its report, which can be read off at the
  grant (`Lease.TerminalShownIff`, `Lease.SettledForTheLease`). Otherwise it is
  shown as starting, or as failed, and then nothing it reports is taken note of
  (`Lease.LateReportHides`, `Lease.FailedIsDeaf`).
- A lease that comes and goes between the halves of an exit report lets a new
  child start beside the one that is still being reaped (`Lease.OverlapIff`,
  `Lease.ChildrenOverlap`).
- The journal's writer matches a checkbox on the terminated line and the reader
  on the bare one. A box followed by a single blank on a line that ends with a
  carriage return counts for the writer only, which shifts every later task
  number and makes a tick that changes nothing
  (`DenTasks.NumbersAgreeIff`, `DenTasks.HollowTickIsLost`, `DenTasks.HollowDay`).
- In a text that mixes lone carriage returns with line feeds, writing over rows
  can bring a line ended by CR before an empty line ended by LF, which is then
  swallowed; exactly then the section's lines are not the replaced ones
  (`DenRows.SetRowsReplaces`, `DenRows.BlankSwallowed`). No row, task, weight or
  split is ever read differently for it.

## Model

| member | source | states |
|---|---|---|
| BriefingRows.SortRowsSorts | host/service/src/briefings.rs:255-257 | sorting rows with distinct identifiers by `(since, id)` leaves them strictly ordered and distinct |
| BriefingRows.SortRowsStable | host/service/src/briefings.rs:255-257 | rows already in order stay exactly where they are |
| BriefingInboxLaws.MergedSound | host/service/src/briefings.rs:191-257 | merging a validated report keeps the snapshot sound: ordered distinct rows, one queued wake per undelivered row, dismissals only of finished rows, every reserved or stopped row with its wake; at most one row more |
| BriefingInboxLaws.MergedLookup | host/service/src/briefings.rs:191-231 | a merge changes no row but the reported one, which becomes the merge of both |
| BriefingInboxLaws.DropSound | host/service/src/briefings.rs:258-277 | taking one row out with its wake and its dismissal keeps the snapshot sound |
| BriefingInboxLaws.UpsertSound | host/service/src/briefings.rs:173-299 | the snapshot an accepted report wants to store is sound and within 64 rows |
| BriefingInboxLaws.ReassignSound | host/service/src/briefings.rs:337-356 | reserving a queued event's row, or handing it back, keeps the snapshot sound |
| BriefingInboxLaws.AckedSound | host/service/src/briefings.rs:446-467 | acknowledging a queued event delivers its row, removes its wake, and keeps the snapshot sound |
| BriefingInboxLaws.RecoveredSound | host/service/src/briefings.rs:304-335 | closing every answered event keeps the snapshot sound and moves delivery states only |
| BriefingUpsertLaws.MergeIsJoin | host/service/src/briefings.rs:191-231 | a report that does not contradict a finished collection takes its collection over, with each count the larger of the two: the clamps never bite; any other report moves delivery only |
| BriefingUpsertLaws.MergeAdvances | host/service/src/briefings.rs:191-231 | a merge lowers none of failed, completed and total, never changes a terminal collection, never undoes Delivered, and keeps date, profile and since |
| BriefingUpsertLaws.UpsertMonotone | host/service/src/briefings.rs:173-299 | after a report every retained row has only advanced, and every row but the reported one is unchanged |
| BriefingUpsertLaws.UpsertEvictsOne | host/service/src/briefings.rs:258-277 | one report costs at most one row, the first in order of all that may yield; it is neither pending nor in progress nor undismissed delivered attention, and every other row and wake stays |
| BriefingUpsertLaws.UpsertFullIff | host/service/src/briefings.rs:258-277 | a report is refused as full exactly when the inbox holds 64 rows, the run is new, and no row, nor the report itself, may yield: stopped, delivered and collected in full, or over and dismissed |
| BriefingUpsertLaws.UpsertIdempotent | host/service/src/briefings.rs:278-287 | storing the same report a second time plans the snapshot that is already there, so it writes nothing |
| BriefingReopenLaws.SoundReloads | host/service/src/briefings.rs:491-585 | every sound snapshot passes all the checks of `load` and reloads to itself with reserved and stopped rows pending again |
| BriefingReopenLaws.OpenedSound | host/service/src/briefings.rs:77-109 | any file at all, legacy and over-long ones included, opens into a sound inbox with nothing reserved or stopped, and opening again changes nothing |
| BriefingReopenLaws.PerformWrites | host/service/src/briefings.rs:592-632 | an operation either leaves memory and file alone or leaves both holding one sound snapshot |
| BriefingReopenLaws.PerformKeeps | host/service/src/briefings.rs:173-489 | after each operation, whether its write landed or not, reopening the file gives what reopening memory gives |
| BriefingReopenLaws.OpenKeeps | host/service/src/briefings.rs:77-109 | opening starts a store in that state, with the compacted and reset snapshot in memory |
| BriefingReopenLaws.CrashEquivalence | host/service/src/briefings.rs:77-632 | over any sequence of operations with any write failures, a crash and reopen yields memory's rows and queue with reserved and stopped rows pending |
| BriefingEffects.UpsertSays | host/service/src/briefings.rs:173-299 | a report is malformed exactly if another run is queued under its event, full exactly as above, not stored exactly if its write fails and would change something, else inserted, updated or known already; and it is stored whole or not at all |
| BriefingEffects.UpsertQueues | host/service/src/briefings.rs:208-257 | the queue after a stored report is the old wakes in order with the report's own, if its run had none, last, without those of delivered runs and of the run pushed out |
| BriefingEffects.ReassignMoves | host/service/src/briefings.rs:337-356 | exactly the queued event's row changes hands, in memory and in the file; an event that is not queued is no error |
| BriefingEffects.AcknowledgeCloses | host/service/src/briefings.rs:446-467 | exactly the event's wake leaves the queue and exactly its row is delivered, in memory and in the file, or nothing changes |
| BriefingEffects.RecoverCloses | host/service/src/briefings.rs:304-335 | exactly the answered wakes leave the queue, the others keep their order, exactly the answered runs are delivered, and the answer counts them |
| BriefingEffects.StopFails | host/service/src/briefings.rs:368-402 | exactly the queued rows that are pending or in progress are stopped, and the answer counts them |
| BriefingEffects.ResumeOffers | host/service/src/briefings.rs:404-424 | exactly the reserved and stopped rows are pending again, and the answer counts them |
| BriefingEffects.CompactGives | host/service/src/briefings.rs:562-584 | a legacy snapshot over the bound keeps exactly 64 rows in order: the oldest of those that give way go first, other rows only when none of these is left, wakes and dismissals with their rows |
| BriefingEffects.OpenedRows | host/service/src/briefings.rs:77-109 | an accepted file opens with those rows, none of them held |
| BriefingEffects.OpenWrites | host/service/src/briefings.rs:87-107 | opening writes the file back exactly if it was over the bound or held a reserved or stopped row, and the write lands |
| BriefingDismissals.DismissMarksOne | host/service/src/briefings.rs:473-489 | a landed first dismissal of a run that is over adds exactly that run to the dismissed ones, in memory and in the file, and touches no row and no wake; any other changes nothing; and which of the five answers it gets |
| BriefingDismissals.DismissalsKept | host/service/src/briefings.rs:173-489 | only that dismissal adds one, and only a report that pushes the dismissed row out loses one |
| BriefingDismissals.DismissalLasts | host/service/src/briefings.rs:77-489 | over any operations and write failures a dismissal lasts as long as its row, through a restart too |
| BriefingDismissals.DismissedByOwner | host/service/src/briefings.rs:473-489 | over any operations nothing is dismissed that was not dismissed by a write that landed |
| BriefingStores.BriefingStore.constructor | host/service/src/briefings.rs:77-109 | opening loads, compacts, resets held rows and writes back a change if it can |
| BriefingStores.BriefingStore.CanLoad | host/service/src/briefings.rs:491-585 | the loops of `load` accept a snapshot exactly when it is within bounds, its counts ordered, its rows and wakes unique, every wake undelivered and every dismissal dismissible |
| BriefingStores.BriefingStore.Load | host/service/src/briefings.rs:491-585 | an accepted snapshot is sorted and gives up rows one at a time until the bound holds |
| BriefingStores.BriefingStore.MergeIn | host/service/src/briefings.rs:191-257 | rows and queue in place become the merged snapshot |
| BriefingStores.BriefingStore.MakeRoom | host/service/src/briefings.rs:258-277 | the eviction loop fits exactly when eviction is possible and leaves the evicted snapshot |
| BriefingStores.BriefingStore.Upsert | host/service/src/briefings.rs:173-299 | memory, file and outcome of one report, including roll back on malformed, full and failed write |
| BriefingStores.BriefingStore.MarkDelivered | host/service/src/briefings.rs:304-335 | delivering queued runs one by one is delivering all of them |
| BriefingStores.BriefingStore.RecoverDelivered | host/service/src/briefings.rs:304-335 | memory, file and count of closing every event the replay already answered |
| BriefingStores.BriefingStore.Reassign | host/service/src/briefings.rs:337-356 | memory, file and outcome of reserving one event's row |
| BriefingStores.BriefingStore.QueuedDeliveryFailed | host/service/src/briefings.rs:368-402 | memory, file and count of stopping every queued row |
| BriefingStores.BriefingStore.ResumeStopped | host/service/src/briefings.rs:404-424 | memory, file and count of returning held rows to pending |
| BriefingStores.BriefingStore.Acknowledge | host/service/src/briefings.rs:446-467 | memory, file and outcome of acknowledging one event |
| BriefingStores.BriefingStore.Dismiss | host/service/src/briefings.rs:473-489 | memory, file and outcome of one dismissal, which `BriefingDismissals.DismissMarksOne` spells out |
| BriefingFollows.UpsertFollows | host/service/src/briefings.rs:173-299 | a report queues no wake but its own and only for a run and event not yet queued, reserves nothing, and leaves each retained run delivered or queued if it was |
| BriefingFollows.RecoveredFollows | host/service/src/briefings.rs:304-335 | recovery leaves no queued event that the replay answered and forgets no run |
| ConversationLaws.PushContiguous | host/service/src/conversation.rs:168-183 | a push keeps sequences consecutive and below the 64-bit maximum, drops at most the oldest entry, and ends with the new message |
| ConversationLaws.PushDeliveries | host/service/src/conversation.rs:138-183 | delivery identifiers stay unique; a push adds at most its own and forgets at most the oldest entry's |
| ConversationRuns.PushNumbers | host/service/src/conversation.rs:168-183 | a new entry has the ring's next sequence and leaves the others' numbers alone; only at the 64-bit maximum are all numbered again |
| ConversationLaws.ReloadsItself | host/service/src/conversation.rs:283-345 | a snapshot the service wrote reloads to the same entries and the same next sequence |
| ConversationLaws.RecordKeeps | host/service/src/conversation.rs:127-130 | an ordinary message, stored or not, leaves every delivery in memory also on disk |
| ConversationLaws.RecordDeliveryKeeps | host/service/src/conversation.rs:138-155 | an inserted delivery is on disk with its message, and a duplicate is on disk already |
| ConversationLaws.ReopenKeeps | host/service/src/conversation.rs:50-79 | a restart recovers every delivery memory had |
| ConversationLaws.PagingComplete | host/service/src/conversation.rs:103-119 | at most four pages, each from the last sequence of the one before, tell sequence, role, surface and words of exactly the entries with a later sequence, each once and in order |
| ConversationLaws.PageIsBounded | host/service/src/conversation.rs:103-119 | a page holds at most 64 entries, is full if more follow, and says so exactly if they do |
| ConversationLaws.CatchUpIsTail | host/service/src/service.rs:451-464 | a joining agent is told sequence, role, surface and words of exactly the newest min(64, n) entries |
| ConversationRuns.RecordStores | host/service/src/conversation.rs:127-130 | a message is the newest entry at once, after the newest 199 lines there were, and if its write lands a restart finds exactly the ring in memory |
| ConversationRuns.DeliveryStores | host/service/src/conversation.rs:138-155 | a first answer whose write lands is the newest entry under its identifier and a restart finds it; any other changes nothing |
| ConversationRuns.TakeSpends | host/service/src/conversation.rs:195-207 | a name spends the first offer by it and nothing else, only if it is open and so only once, and if the write lands a restart finds it spent |
| ConversationRuns.TakeOfNothing | host/service/src/conversation.rs:195-207 | a name no offer has spends none |
| ConversationRuns.RestartFindsLastWrite | host/service/src/conversation.rs:50-207 | over any messages, answers and offers with any write failures, a restart finds the ring exactly as the last write that landed left it |
| ConversationOpening.CollapsedIff | host/service/src/conversation.rs:321-344 | a stored list is rejected exactly if one sequence names two entries; otherwise its entries are read each once, in the order of their first appearance |
| ConversationOpening.OpensAsRead | host/service/src/conversation.rs:50-79 | any stored list opens into the newest 200 of these with the next sequence one beyond the greatest, numbered again from one only at the 64-bit maximum, or into nothing if rejected; the file is rewritten exactly if something was dropped and the write lands |
| ConversationHistories.ConversationHistory.constructor | host/service/src/conversation.rs:50-79 | entries, next sequence and file after opening any stored list, rejected or normalized ones included |
| ConversationHistories.ConversationHistory.ReadSnapshot | host/service/src/conversation.rs:283-345 | the indexed loop collapses identical repeats, rejects one sequence naming two entries, keeps the newest 200, and says whether it changed anything |
| ConversationHistories.ConversationHistory.PushBack | host/service/src/conversation.rs:168-183 | the ring after one push, resequenced at the 64-bit maximum |
| ConversationHistories.ConversationHistory.Record | host/service/src/conversation.rs:127-130 | memory keeps the message and the file follows only if the write lands, which `ConversationRuns.RecordStores` spells out |
| ConversationHistories.ConversationHistory.RecordDelivery | host/service/src/conversation.rs:138-155 | ring, file and outcome of one answer, rolled back on a failed write |
| ConversationHistories.ConversationHistory.TakeOffer | host/service/src/conversation.rs:195-207 | the first offer of that name is spent in memory whatever the write does, and only if it was open |
| ConversationHistories.ConversationHistory.EntriesAfter | host/service/src/conversation.rs:103-119 | the loop returns the first 64 later entries and whether more follow |
| DeliverySlot.StepSane | host/service/src/service.rs:312-336 | every step keeps: open circuit, no reserved event; closed circuit, a row in progress is the active event's; a reserved slot leaves no surface waiting |
| DeliverySlot.DispatchSane | host/service/src/service.rs:494-613 | dispatch keeps it on every path: nothing queued, breaker, failed reservation, failed send, failed retry |
| DeliverySlot.AnswerSane | host/service/src/service.rs:1300-1437 | an answer keeps it on every path |
| DeliverySlot.SettleSane | host/service/src/service.rs:733-831 | a settlement keeps it on every path |
| DeliverySlot.OwnerTurnSane | host/service/src/service.rs:355-402 | an owner turn, with or without resetting the circuit, keeps it |
| DeliverySlot.BootSane | host/service/src/service.rs:623-675 | a start from any two files has a free slot and nothing reserved |
| DeliveryHeld.OrphanedIff | host/service/src/service.rs:2009-2027 | while the active event is queued with its row in progress, a step takes it off the queue and leaves it active if and only if it is a stored report that its run was delivered, under no other run's event; every other step that leaves it active leaves its row in progress |
| DeliveryHeld.UpsertHolds | host/service/src/briefings.rs:173-299 | a reserved row is never pushed out by a report, and only its own delivered report moves it on |
| DeliveryStores.StepFiles | host/service/src/service.rs:494-831 | every step leaves an inbox file and a replay file that a restart accepts and reproduces |
| DeliveryCarries.StepCarries | host/service/src/service.rs:494-2081 | a step queues at most the wake ingress brought, forgets only stopped or delivered rows, and leaves each retained run delivered or queued if it was |
| DeliveryAnswers.StepTruth | host/service/src/service.rs:1309-1436 | a row becomes delivered only if its answer is in the replay file, or a wake-free legacy report says so; an answer is announced only for the active event with both files written and its wake gone |
| DeliveryRuns.DeliveredOnceAndNeverLost | host/service/src/service.rs:2009-2081 | over whole runs: unique deliveries, memory's deliveries on disk, an answer the ring still holds announced once and off the queue, and every acknowledged run delivered, queued, or let go only after it had stopped or ended |
| DeliveryRuns.OneModelSlot | host/service/src/service.rs:494-613 | over whole runs: the slot invariant in terms of rows, wakes and the open turn |
| DeliveryRuns.SaidOnceKept | host/service/src/service.rs:1380-1416 | no step announces an event again or queues it again while its answer is in the ring |
| DeliveryRuns.PromiseMade | host/service/src/service.rs:2009-2081 | an ingress acknowledged with its wake leaves the run delivered or queued, or already ended |
| DeliveryRecords.StepRecords | host/service/src/service.rs:393-402 | each step makes exactly one change of the conversation or none: an owner's words as the owner's under the surface they came from, an answer as the agent's under the surface that hears it, a delivery, an offer taken |
| DeliveryRecords.RestartFindsLastWritten | host/service/src/service.rs:623-675 | over whole runs with any failures, whenever the process dies the next one finds the ring as the last write that landed left it, the words of an answer it died on included |
| DeliveryChanges.StepAgrees | host/service/src/service.rs:312-2081 | the handlers are, field by field: the slot is given only to the wake in line and freed by exactly an acknowledged or orphaned answer, a settlement, a lost agent and a start; what opens and closes the circuit, what the service shows, whether agent and owner's turn are there, which inbox operations a step performs, and what the surfaces are told |
| DeliveryChanges.AckedIff | host/service/src/service.rs:2009-2081 | a report is acknowledged exactly if it is stored or known already and, while the circuit is open, no queued row is left that is not stopped in the file too |
| DeliveryChanges.KnownWords | host/service/src/service.rs:1309-1361 | the replay knows the words of exactly the events it has, and an answer just recorded by its own unless it was there |
| DeliveryCircuit.TurnsAreBounded | host/service/src/service.rs:503-556 | within one sequence of any run the turns started, counted by the run each was dispatched for, are at most the distinct runs, two repeats and the turns orphaned before they started, and at most three of a run besides its orphaned ones; if no step orphans the active event before its turn has started, the count stays within two of the distinct runs and no (date, profile) starts more than three turns; a sequence ends at a dispatch that may run and finds nothing pending, an owner's turn that leaves the circuit closed, and a start |
| DeliveryCircuit.StepTallied | host/service/src/service.rs:1275-1281 | each step keeps that account exact, with the active event held for the run it was dispatched for until a report orphans it |
| DeliveryCircuit.StepCounts | host/service/src/service.rs:503-508 | the count is zero and no run remembered after exactly the steps that end a sequence; a turn's first sign of life adds one and its run; every other step leaves both alone |
| DeliveryCircuit.BreakerIff | host/service/src/service.rs:503-556 | a dispatch whose writes and send succeed opens the circuit if and only if it may run, three turns were started since the last end of a sequence, and the run next in line is one the breaker knows of, which is one that started a turn if none was orphaned |
| DeliveryCircuit.BreakerWaits | host/service/src/service.rs:503-556 | over whole runs such a dispatch opens the circuit only after three turns since the last end of a sequence, and if no turn was orphaned before it started only before a run that started one of them |
| DeliveryCircuit.ReservedExactly | host/service/src/service.rs:557-590 | in every state of every run, unless a report has orphaned the active event, a row is in progress if and only if it is the active event's |
| DeliveryOrphans.OrphanRound | host/service/src/service.rs:2018-2027 | a report, its dispatch, a legacy delivered report, a start and a settlement add one turn of that run and none the breaker knows of, and leave the service at rest |
| DeliveryOrphans.OrphansKeepStarting | host/service/src/service.rs:2018-2027 | from any state at rest, however many generations of one run are reported so, each starts its turn in the same sequence |
| DeliveryOrphans.StartsResting | host/service/src/service.rs:623-675 | a service that starts with empty files is at rest once its agent has joined and is idle |
| DeliveryOrphans.OrphansAreUnbounded | host/service/src/service.rs:503-556 | for every n there is a run from empty files that starts n turns of one (date, profile) in one sequence with the circuit closed |
| DeliveryOutcomes.StopStopsAll | host/service/src/briefings.rs:368-402 | a stored stop leaves every queued row failed, so that nothing can be dispatched |
| DeliveryOutcomes.IngressWhileStopped | host/service/src/service.rs:2041-2065 | a report acknowledged while the circuit is open is stopped with the rest |
| DeliveryOutcomes.OwnerTurnRecovers | host/service/src/service.rs:355-402 | an owner's turn that stores its reset closes the circuit, clears the counters, makes every queued wake dispatchable and mends the lifecycle only if proactive work had failed it |
| DeliveryOutcomes.DispatchReserves | host/service/src/service.rs:494-613 | a successful dispatch gives the slot to the oldest queued wake whose row is pending, in memory and on disk, and touches nothing else |
| DeliveryOutcomes.DispatchStops | host/service/src/service.rs:516-556 | at the bound a repeated logical run opens the circuit and leaves nothing to dispatch |
| DeliveryOutcomes.AnswerDelivers | host/service/src/service.rs:1300-1437 | an answer whose writes land ends as a delivered row without its wake in both files, a free slot, and one announcement of the first words recorded |
| DeliveryOutcomes.LostTurnIsOffered | host/service/src/service.rs:312-336 | a turn lost with its agent, or settled unanswered, is queued and pending again |
| DeliveryOutcomes.AnsweredWhereAsked | host/service/src/service.rs:1438-1552 | over any run an owner's turn stays open until it is answered, given up, replaced or forgotten, and the answer that names it then is recorded once, for the surface that asked if it is still there, and closes it |
| DeliveryOutcomes.EndsIff | host/service/src/service.rs:1438-1552 | a step leaves the open turn and its surface alone unless it is an answer that names it, an unnamed answer while no event is reserved, an abort, a closed turn, a later owner turn or a crash; and each of those ends it or opens another |
| DeliveryService.Inner.constructor | host/service/src/service.rs:623-675 | the state a start from two files has |
| DeliveryService.Inner.Broadcast | host/service/src/service.rs:245-271 | every surface with room gets the message and every full one is dropped |
| DeliveryService.Inner.RegisterSurface | host/service/src/service.rs:833-904 | a registration queues the whole ring and four more messages to an empty outbox |
| DeliveryService.Inner.ControlBriefing | host/service/src/service.rs:2009-2081 | the state after one ingress and whether it was acknowledged |
| DeliveryService.Inner.DispatchBriefingNow | host/service/src/service.rs:494-613 | the state after one dispatch, for every outcome of its writes and its send |
| DeliveryService.Inner.ProactiveStarted | host/service/src/service.rs:1251-1290 | the counters after a start marker, stale and repeated ones included |
| DeliveryService.Inner.ProactiveResponse | host/service/src/service.rs:1300-1437 | record, acknowledge, announce: state and outboxes for every failing prefix |
| DeliveryService.Inner.ProactiveSettled | host/service/src/service.rs:733-831 | state and outboxes after a settlement |
| DeliveryService.Inner.OwnerTurn | host/service/src/service.rs:355-402 | state and outboxes after an owner turn |
| DeliveryService.Inner.SurfaceMessage | host/service/src/service.rs:936-1014 | a surface's words are refused exactly when a briefing holds the slot or the agent cannot take them |
| DeliveryService.Inner.Response | host/service/src/service.rs:1438-1552 | which turn an ordinary answer closes and where it is recorded |
| Replica.RegisteredShows | host/service/src/service.rs:867-902 | the ring and four more messages fit one outbox, so a new surface will show exactly the ring |
| Replica.PushIsSaid | surfaces/desktop/src/conversation.rs:118-128 | the desktop drops its oldest line exactly when the ring drops its oldest entry |
| Replica.ReadingChangesNothing | surfaces/desktop/src/conversation.rs:118-211 | reading one queued message does not change what the surface will show |
| Replica.BroadcastAllShows | host/service/src/service.rs:245-271 | broadcasting changes moves every surface that is kept to the changed lines |
| Replica.KeptIff | host/service/src/service.rs:245-271 | a surface is dropped exactly if its outbox cannot take all that is sent; what is kept has it queued in order |
| Replica.Conversation.Said | surfaces/desktop/src/conversation.rs:118-128 | a line goes on the end of at most 200 and the first answer ends thinking |
| Replica.Conversation.OfferTaken | surfaces/desktop/src/conversation.rs:181-196 | the first offer of that name is marked, and the result says whether it was open |
| Replica.Conversation.Restart | surfaces/desktop/src/conversation.rs:205-211 | every line is forgotten |
| Replica.Conversation.ReadAll | surfaces/desktop/src/conversation.rs:118-211 | reading a queue message by message is folding it into the lines |
| ReplicaRuns.AnnouncedIff | host/service/src/service.rs:1362-1431 | a newly recorded answer is announced exactly when its acknowledgement is stored and its event is still queued; otherwise the surfaces differ from the ring unless it is full and holds nothing but that answer |
| ReplicaRuns.UncaughtIsRepeated | host/service/src/service.rs:1380-1416 | an event that is still queued although its answer is in the ring, as after a start that could not store its recovery, is announced again without a change of the ring |
| ReplicaRuns.SilenceWithoutFailures | host/service/src/service.rs:1417-1431 | with every write landing, a legacy report makes the service record an answer it tells nobody |
| ReplicaRuns.StepAccounts | host/service/src/service.rs:293-300 | where no answer is silent, the frames of a step are exactly the change of its ring |
| ReplicaRuns.ReplicasAgree | surfaces/desktop/src/conversation.rs:198-211 | over whole runs of service and surfaces in which no answer is silent and every start stores what it recovers, each surface's lines and unread queue add up to the ring, taken marks included |
| Lease.StepSafe | host/service/src/service.rs:1734-1849 | every atomic piece of acquire, release, heartbeat, hello, child start and child exit keeps the fence |
| Lease.LeaseFences | host/service/src/service.rs:1072-1116 | over every interleaving: a lease held at g leaves no recorded child and no agent but one admitted under g; without a lease the agent names none; of all children alive at most one, the newest, has not reported its exit |
| Lease.OverlapIff | host/service/src/service.rs:2144-2182 | only a start that records a child adds to the children alive, and it finds alive exactly those being reaped |
| Lease.ChildrenOverlap | host/service/src/service.rs:2278-2291 | a lease granted and released between the halves of an exit report leads to two children alive |
| Lease.GrantsIncrease | host/service/src/service.rs:1794-1808 | every generation a run grants is greater than all granted before |
| Lease.PastNeverAdmitted | host/service/src/service.rs:1072-1116 | once a lease has ended, no later state admits a hello that names it |
| Lease.ExitTakesItsOwn | host/service/src/service.rs:2278-2286 | an exit report takes the recorded child only if it names it |
| Lease.StaleExitIsIgnored | host/service/src/service.rs:2278-2286 | over any run, the report of a child that was replaced changes nothing |
| Lease.TerminalShownIff | host/service/src/service.rs:2292-2313 | an idle terminal under its lease stays shown as idle through every exit half still to come if and only if no child is between the halves of its report |
| Lease.SettledForTheLease | host/service/src/service.rs:2278-2291 | if no child was between the halves of its report at the grant, none is for as long as that lease lasts |
| Lease.ShownOverRuns | host/service/src/service.rs:1794-1837 | both over whole runs: from any grant on, and in every state |
| Lease.LateReportHides | host/service/src/service.rs:2292-2313 | one late report shows the terminal as starting, or as failed once failures reach their bound |
| Lease.FailedIsDeaf | host/service/src/service.rs:1226-1240 | once shown as failed, no activity a terminal reports changes anything |
| LeaseChanges.LeaseEndsIff | host/service/src/service.rs:1901-2002 | a held lease changes in a step if and only if that step is a release by its own connection, a missed heartbeat of its own generation, or a shutdown; it is then gone with its agent and a child is to be started; a heartbeat that is not missed changes nothing at all |
| LeaseChanges.HeldUntilEnded | host/service/src/service.rs:1901-2002 | over every run a lease is still held as it was granted if and only if no such step is in it |
| LeaseChanges.DeadHolderIsFound | host/service/src/service.rs:1939-1970 | in every state of every run a held lease can be ended by a missed heartbeat at once, or as soon as its child is down |
| LeaseChanges.LeaseBeginsIff | host/service/src/service.rs:1734-1837 | a free lease is granted in exactly the acquires of an agent that is neither answering nor given up and those that waited for its turn, to their connection under the next generation, with nobody recorded or connected |
| LeaseChanges.AcquireAnswers | host/service/src/service.rs:1734-1837 | a connection is told it holds or was granted a generation exactly if it does or was |
| LeaseChanges.AgentChangesIff | host/service/src/service.rs:1072-1148 | exactly which steps connect an agent, under which lease, and which take it away; it is never replaced while it is there |
| LeaseChanges.ChildChangesIff | host/service/src/service.rs:2144-2286 | exactly which steps record a child, under which generation, and which take it from the record |
| LeaseChanges.GivesUpIff | host/service/src/service.rs:2292-2313 | the service gives up on its child exactly if it could not start one or this is the third failed exit in a row; after any other reported exit it starts one again |
| LeaseChanges.StartsOwed | host/service/src/service.rs:2002-2192 | a start is owed after exactly a lease that ended and an exit that was not the last, and each start pays one |
| LeaseChanges.ExitsReported | host/service/src/service.rs:2278-2313 | each started child reports its exit once, in two halves exactly if it was the newest |
| LeaseChanges.ThreadsKept | host/service/src/service.rs:1779-1950 | exactly which acquires wait for the open turn, and which generations are watched, from when to when |
| LeaseChanges.LifecycleShown | host/service/src/service.rs:1226-2313 | what the service shows of its agent after every step |
| LeaseService.Inner.LeaseAcquire | host/service/src/service.rs:1734-1790 | state and answer up to the reply, or up to where the lock is released to wait |
| LeaseService.Inner.LeaseAcquireAgain | host/service/src/service.rs:1779-1837 | state and answer once the lock is held again |
| LeaseService.Inner.SweepLease | host/service/src/service.rs:1952-1970 | one heartbeat check, and whether there is anything left to watch; `LeaseChanges.LeaseEndsIff` says what it ends |
| LeaseService.Inner.EndLease | host/service/src/service.rs:1972-2002 | the lease ends with its agent, and a child is to be started unless stopping |
| LeaseService.Inner.AdmitAgent | host/service/src/service.rs:1072-1148 | a hello is admitted exactly when no agent is connected and it names the live generation, or none while none is held |
| LeaseService.Inner.StartAgent | host/service/src/service.rs:2144-2192 | a child is recorded under a new generation unless stopping, recorded or leased |
| LeaseService.Inner.AgentEnded | host/service/src/service.rs:2278-2291 | the first half of an exit report |
| LeaseService.Inner.AgentReaped | host/service/src/service.rs:2292-2313 | the second half: failures counted, then a restart or a stop |
| DenText.JoinSplit | tools/den/den.py:484-507 | joining the lines of a text gives the text |
| DenText.SplitJoin | tools/den/den.py:484-507 | splitting what was joined gives the lines back, when no line runs into the next |
| DenLines.WriterSees | tools/den/den.py:528-530 | the writer's match on a terminated line is the reader's on the bare one, except that a hollow line matches for the writer only |
| DenLines.FlipFlips | tools/den/den.py:533-534 | flipping a matched line turns its tick over and keeps its words |
| DenLines.FlipEnd | tools/den/den.py:533-534 | flipping the terminated line is flipping its body |
| DenGrammar.HeaderIff | tools/den/den.py:84-84 | a header is three marks, a gap and words, with any blanks around, and its name is the words in lower case |
| DenGrammar.TitleIff | tools/den/den.py:83-83 | a title is one mark, a blank and at least one character more, not indented |
| DenGrammar.CheckIff | tools/den/den.py:86-86 | a checkbox is a dash, a gap, a box with a mark and a blank before more words, and is done unless the mark is a blank |
| DenGrammar.CellsIff | tools/den/den.py:289-300 | a row is as many comma-free cells as the table has columns, between commas, and not the table's header |
| DenGrammar.NamedIff | tools/den/den.py:682-704 | a row is of the thing its first cell names, in either case |
| DenGrammar.WeightIff | tools/den/den.py:365-375 | a weight is read exactly from a section whose only line that is not blank is a decimal number and `kg` |
| DenGrammar.SplitIs | tools/den/den.py:348-362 | a split is read from the first line that is neither blank, nor the table's header, nor a row |
| DenGrammar.TitleIs | tools/den/den.py:416-419 | a day's title is that of its first title line |
| DenSections.RegionIsSection | tools/den/den.py:264-278 | the index region the writer edits is exactly the list of lines the reader collects |
| DenSections.ReplaceRegion | tools/den/den.py:471-481 | rewriting a region rewrites that section and no other |
| DenEdits.JoinKeeps | tools/den/den.py:484-507 | joining lines and splitting them again gives them back, except that an empty line ended by LF is swallowed by a CR before it |
| DenEdits.RegionReads | tools/den/den.py:471-481 | once one region's lines are written over, that section holds the written lines but for swallowed empty ones, and every other section and the title read as written |
| DenEdits.HeaderReads | tools/den/den.py:500-501 | the header a missing section is written with is the header that is read |
| DenEdits.EnsuredKeeps | tools/den/den.py:484-507 | putting a missing section back adds an empty one and leaves every other section, and the title, as read before |
| DenGrammar.EnsuredPlaces | tools/den/den.py:484-507 | a missing section is put back before the first later section of the day that is there, or last, with its header and, for a table, the table's; every other line keeps its place and terminator, but an unterminated one before it is terminated |
| DenTasks.AddTaskAppends | tools/den/den.py:537-540 | for every text: after adding, the entry reads as before with one unticked task more, last; refused exactly when the words are empty, more than a line, or a heading |
| DenTasks.OneLineIff | tools/den/den.py:983-998 | words are refused exactly if they are blank, more than one line, or a heading of the first, third or fourth level |
| DenTasks.AppendReads | tools/den/den.py:510-525 | the new line stands right after the last line of the section that is not blank; every other section and the title are as before |
| DenTasks.ToggleTurnsOne | tools/den/den.py:543-552 | ticking turns exactly the reader's i-th task over, everything else reads as before, and it is refused exactly when there is no such task |
| DenTasks.RemoveTakesOne | tools/den/den.py:555-561 | removing takes exactly the reader's i-th task, everything else reads as before |
| DenTasks.CountsAgreeIff | tools/den/den.py:528-530 | writer and reader count as many boxes exactly when no line is hollow |
| DenTasks.NumbersAgreeIff | tools/den/den.py:543-552 | the writer accepts exactly the reader's task numbers if and only if no task line is hollow |
| DenTasks.HollowTickIsLost | tools/den/den.py:543-552 | a tick that lands on a hollow line is written and changes nothing that is read |
| DenTasks.HollowDay | tools/den/den.py:543-552 | a two-line entry with no task to read and a first task to tick |
| DenRows.ReplacedMeans | tools/den/den.py:682-704 | the table's rows are the rows before the first occurrence, then the new ones, whatever they name, then the other remaining rows; every line that is no row is still there in order |
| DenRows.SetRowsReplaces | tools/den/den.py:682-704 | for every text and any new rows of the table, a rename included: the table reads as replaced, every other section as before, and the title too unless a replaced row was read as the title; the section's lines are exactly the replaced ones if and only if no CR comes to stand before an empty line ended by LF; refused exactly when no row has that name |
| DenRows.NothingSwallowed | tools/den/den.py:700-704 | in a text without a lone CR, or without empty lines ended by LF alone, nothing is swallowed |
| DenRows.BlankSwallowed | tools/den/den.py:700-704 | removing the only row between a header ended by CR and an empty line ended by LF swallows that line |
| DenSingles.SetWeightReads | tools/den/den.py:615-630 | a normalised weight is read back, whether the section was missing, empty or over-filled, and no other section changes |
| DenSingles.SetSplitReads | tools/den/den.py:633-649 | a normalised split is read back, the rows under it are unchanged, and no other section changes |
| DenEditor.ReadSections | tools/den/den.py:264-278 | the one-pass loop files every line where the recursive reading does |
| DenEditor.FindRegion | tools/den/den.py:463-481 | the two scans find the region of a section |
| DenEditor.EnsureSection | tools/den/den.py:484-507 | the search for a later header and the insertion by index come to the section put back |
| DenEditor.Append | tools/den/den.py:510-525 | the value goes after the last filled line, which is terminated first |
| DenEditor.EditBox | tools/den/den.py:543-561 | the line a task number names is flipped, or removed |
| DenEditor.DeleteRows | tools/den/den.py:700-702 | deleting from the back removes exactly the found rows |
| DenEditor.InsertRows | tools/den/den.py:703-704 | inserting one row after another puts the whole block in place |
| DenEditor.SetRowsInPlace | tools/den/den.py:682-704 | reversed deletion and insertion by index come to the replaced region |
| DenEditor.SetWeightInPlace | tools/den/den.py:615-630 | the first filled line is written over and the others deleted from the back |
| DenEditor.SetSplitInPlace | tools/den/den.py:633-649 | the first line that is no part of the table is written over, or the name put first |
| DenSearch.Within | tools/den/den.py:1561-1568 | the greedy scan is true exactly when the letters are a subsequence |
| DenSearch.Query | tools/den/den.py:1534-1545 | exactly the matching identifiers, prefix matches first, each group by name; refused exactly when the words are blank |
| DenSearch.OfferedIsUnique | tools/den/den.py:1534-1545 | there is only one such list |
| BriefingPublish.Directory.PublishOwned | tools/briefing/briefing.py:1796-1868 | files and reply of one call, dying after any number of its writes; `BriefingPublish.WritesInOrder` spells them out |
| BriefingPublish.RefusedIff | tools/briefing/briefing.py:1807-1826 | a call is refused exactly if its stripped words are empty or too long or a prepared directory has lost its prose, and then changes nothing |
| BriefingPublish.WritesInOrder | tools/briefing/briefing.py:1807-1849 | any other call writes what is missing, prose before manifest before page, and completes exactly if every write it needs lands; a directory without prose gets the caller's words, stripped and ended by one newline |
| BriefingPublish.OutcomeIff | tools/briefing/briefing.py:1850-1868 | which of the four outcomes a completed call answers, in terms of the directory it found: no prose, other prose, the same prose with something missing, or the same and nothing missing |
| BriefingPublish.FirstWordsWin | tools/briefing/briefing.py:1796-1868 | over any calls and crashes from a directory without prose, the generation's words are those of the first accepted call that made a write, that call alone can answer that it published them, and every completed call returns them |
| BriefingPublish.NobodyWrote | tools/briefing/briefing.py:1796-1868 | if there is no such call there is no prose and no call completed |
| BriefingPublish.ProseIsFixed | tools/briefing/briefing.py:1796-1868 | over any calls, words and crashes, the first prose written never changes and every completed call returns it |
| BriefingPublish.PublishConverges | tools/briefing/briefing.py:1796-1868 | a call that completes leaves delivery prepared and the page rendered, and after it every accepted call writes nothing |
| Attachments.EveryCrashPointIsPaired | host/service/src/attachment.rs:152-180 | wherever a run of stores, touches and discards is cut off, every record has its object at full size |
| Attachments.DiscardOrderMatters | host/service/src/attachment.rs:271-279 | metadata first keeps the pairing and object first breaks it |
| Attachments.ReopenKeepsTrusted | host/service/src/attachment.rs:236-378 | whatever the directories hold, a start leaves exactly the trusted unexpired records, each with its object and no other object, and indexes all of them while they fit both quotas |
| Attachments.StoredSurvives | host/service/src/attachment.rs:152-378 | for every run of operations that discards only what has expired, every cut of their writes and every later start: each record written before the cut and unexpired at the start is still there as last written, with its full object, and is indexed while they all fit |
| Attachments.OneMoreOp | host/service/src/attachment.rs:152-180 | the store's own writes are such a run: every method appends its operation to it |
| Attachments.AttachmentStore.Open | host/service/src/attachment.rs:317-378 | the index and directories after a start on directories that hold anything |
| Attachments.AttachmentStore.Expire | host/service/src/attachment.rs:286-308 | exactly the expired records and their files go, and the byte count stays the sum of sizes |
| Attachments.AttachmentStore.PutReader | host/service/src/attachment.rs:129-185 | a quota refusal is one that dropping every expired record would not avoid; otherwise exactly the new record and its object are added, or nothing |
| Attachments.ClearedIff | host/service/src/attachment.rs:147-162 | an index below both quotas is not touched; a full one loses exactly the records older than a day, or than thirty days if referenced, with their files |
| Attachments.AttachmentStore.Resolve | host/service/src/attachment.rs:187-213 | an unknown name is refused before anything is written; otherwise exactly the named records are marked, in order, until the writes that still land are used up, and no other file is touched |
| Attachments.LoadIndex | host/service/src/attachment.rs:317-378 | the loop's index, leftovers, rejected files and byte count |

## Left out

- `persist` is one step that lands or does nothing; an error reported after the rename, file modes, `fsync` and JSON are not modelled.
- Sockets, threads, the HTTP routes, process spawning, logging and the texts shown to a person are not modelled; each critical section of the service lock is one step.
- Backoff, heartbeat deadlines and retention are outcomes or plain numbers: a dispatch may happen whenever its guards allow it.
- The service's `Inner` is two classes here, one for delivery and one for the lease; a lease grant or end appears to delivery as the agent leaving, a closed turn and a lifecycle change.
- The state, jobs, briefings and ready messages to surfaces are one kind of notice without content, sent at any time; their place between other messages of the same step is not kept.
- Text, row and wake validation is assumed of a report except for its counts; summaries and wakes are opaque values, and the duplicate check on a snapshot's dismissal list is not modelled because the list is a set.
- Receipts of a message are flattened to their offers; widgets, attachments and details of messages are not modelled.
- Session lineage, job rows, `control_wake` and surface generations are not modelled.
- Replay theorems over runs start from a snapshot the service wrote, or none; what opening makes of any other list is `ConversationOpening.OpensAsRead`, and the runs after it are not covered.
- DeliveryService.Inner.ProactiveSettled: requires the inbox invariant that every step is proved to keep.
- Journal texts have LF, CR and CRLF as their only separators; whitespace and letter case are ASCII.
- DenTasks.AddTaskAppends: requires at most one header of the edited section, as do the other journal theorems, because the reader joins repeated sections and the writer edits the first.
- DenSingles.SetWeightReads: the title is kept when no line of the section is a title, because a title written inside the section is overwritten like any other line; the weight is compared as written, not as a float.
- DenRows.SetRowsReplaces: the new rows are rows of the table and no headings, which is what `normalize_food` and `normalize_lift` ensure.
- Habits, notes, foods as numbers, `add_row`, `edit_row`, `remove_row`, the backlog and locking of entries are left out; habits go through the same boxes as tasks, and row indices skip lines that parsing does not.
- Python's sort is modelled by an insertion, and the food database by its identifiers.
- BriefingPublish.PublishConverges: the run's rendering is an arbitrary function of prose and manifest; collection, a competing newer generation and undecodable prose are left out.
- The attachment index is a list without repeats instead of a hash map; a metadata file that does not parse is one whose record has another name, since both are dropped; deletions of files are assumed to succeed, and reading objects back is left out.
- Attachments.StoredSurvives: requires that no discard read a clock ahead of the one at the later start.
