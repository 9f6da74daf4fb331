# Verification of ctxmux's ownership and delivery logic

ctxmuxd owns durable terminal processes ("Runs").  Its hard logic is ownership
accounting and lossless delivery under concurrency.  This project models those parts as
state machines, one step for each lock section or atomic operation, and proves what every
run of each machine keeps.

`dafny verify dfyconfig.toml` checks the whole project.

How the files are organised:

- `RegistryModel`, `RegistryBudgets`, `CandidateSelection`, `ControlBudget`, `RegistryRuns`,
  `RunRegistry`, `StopAnswers`, `StopHandoff`: the Run Registry, its publication protocol,
  exact replacement, recoverable Stops, what their callers are told, and their handoff;
  `RegistryKeys`, `RegistryPins`: what a key leads to and who keeps a Run, run by run.
- `CleanupOwnership`: started but unpublished Runs.  `Paging`: listing the fleet.
- `JournalModel`, `JournalRuns`, `Journal`, `JournalReading`, `ByteBudgets`: the live event
  journal against an unbounded log.
- `EventInbox`, `EventRetention`: the client's bounded inbox, and what it must keep.
  `CommandLedger`, `CommandRuns`, `LedgerCalls`: the client's command ledger, the daemon's id
  check, and each call of the ledger.
- `AttachmentLoop`, `AttachmentDelivery`, `Replay`, `TerminalSeed`: the daemon's attachment
  loop, what its client must be sent, replay and terminal seed with the client's side of each.
- `Diagnostics`, `DiagnosticDelivery`, `SnapshotStats`, `StatsAccounting`, `OwnerWakeup`: the
  diagnostic sink and what it must write, the statistics seqlock and what its cells hold, and
  the deferred-owner wakeup.
- `Wrappers`, `MapSums`, `Runs`: option and result types, sums over maps, and induction
  over runs.

Each component has a specification on values (state, steps, lock sections as functions),
the lemmas about it, and the source's own loops and updates as methods proved equal to
those functions.  The laws over runs come from two sides: what may happen (nothing shown
twice, no budget exceeded, nothing lost silently) and what must (every live output written,
every published key found, the oldest Runs chosen, whatever fits kept, every record written).

Where the code does less than one might expect, the project says exactly when:

- A mutex of a Run that is locked without an owner guard can strand the reactor
  (`OwnerWakeup.PlainHolderStrands`); `crates/ctxmux-daemon/src/lib.rs:5526` locks the
  persistence mutex that way.  `OwnerWakeup.NoLostWakeupIff` says for every run exactly when
  a wakeup is lost; through guards alone none is.
- The client's ids on the wire skip one exactly when a daemon answers a command before it
  was sent and the issuer then cancels it (`CommandRuns.WireIsContiguousIff`,
  `EarlyAnswerSkipsId`).
- Two retries of one Stop key may be told different things: a flight that stops waiting
  before the Run's terminal state is visible reports an accepted Stop as unknown, a later one
  as accepted (`StopAnswers.RetriesAgreeIff`, `RetriesDiffer`;
  `StopHandoffs.HandoffKeepsRetriesIff` across a handoff).
- A handoff charges each settled Stop again, with its whole diagnostic; a snapshot restores
  exactly when that sum fits the successor's control budget, which a long diagnostic can
  exceed (`StopHandoffs.HandoffRestoresIff`, `LongDiagnosticOverflows`).
- `finish_detach` may follow `terminate`; the end then reads as detached, with nothing
  pending either way (`CommandRuns.EndSettlesEverything`).

What the environment supplies is a parameter: fresh Run ids and keys (guaranteed by the
creation stripe), Run pins and terminal ordinals, whether an allocation or a descriptor
detach succeeds, which owners are proven reaped, page contents of the output stores, what
the file takes of a write.  A publication charges at most the bytes it reserved.  Policies
are the validated ones of `crates/ctxmux-daemon/src/resources.rs:218-245`.

## Model

| member | source | states |
|---|---|---|
| `RegistryRuns.PromisesAreCovered` | crates/ctxmux-daemon/src/creation.rs:1637-1769 | in every reachable Registry, retained records plus candidate-less promises stay within the record limit, retained bytes plus every reservation's excess over its own candidates stay within the metadata limit, and live permits are counted exactly and bounded: no ticket spends another's release |
| `RegistryRuns.RunKeeps` | crates/ctxmux-daemon/src/creation.rs:1514-1551 | every run of reservations, aborts, publications, drops, losses, removals, Stops and pins keeps exact indexes, the record, metadata and control budgets, permits and Stop ownership |
| `RegistryRuns.ControlBytesAreOwned` | crates/ctxmux-daemon/src/creation.rs:2428-2437 | in every reachable Registry the control bytes in use are exactly those of the Stop records, of entries about to be dropped and of the Input side, and never exceed the budget |
| `RegistryRuns.StepKeeps` | crates/ctxmux-daemon/src/creation.rs:2150-2345 | one step of any owner keeps the whole invariant |
| `RegistryRuns.CandidatesDisjoint` | crates/ctxmux-daemon/src/creation.rs:2197-2240 | candidate lists of two outstanding tickets are duplicate-free and disjoint |
| `StopAnswers.SettleFindsRecord` | crates/ctxmux-daemon/src/creation.rs:2468-2503 | a Stop settlement always finds its own unsettled record, key and index entry on a retained Run, so none of its expects can fire |
| `StopAnswers.RetriesAgreeIff` | crates/ctxmux-daemon/src/creation.rs:1423-1450 | in every run two flights of one settled operation answer alike exactly when the result is not an accepted one or the Run's terminal state was visible at both or at neither; once visible all later ones report the settled result; and answers differ only by an accepted Stop first being reported unknown |
| `StopAnswers.RetriesDiffer` | crates/ctxmux-daemon/src/creation.rs:1423-1450 | a concrete run in which one retry of a key is told unknown and the next accepted |
| `StopAnswers.CellStays` | crates/ctxmux-daemon/src/creation.rs:1309-1348 | a result cell keeps its key, and its result once settled, in every later state |
| `StopAnswers.RetryFindsOwnCell` | crates/ctxmux-daemon/src/creation.rs:2371-2405 | every bound key leads to the cell of that key on the Run it is bound to |
| `StopAnswers.NotAppliedForgets` | crates/ctxmux-daemon/src/creation.rs:2481-2503 | a not-applied settlement removes record and index entry, still answers its waiters, and leaves the key with no other record |
| `StopAnswers.NotAppliedRefunds` | crates/ctxmux-daemon/src/creation.rs:2481-2503 | the budget gets back exactly the bytes the Stop was admitted with |
| `StopAnswers.NotAppliedFreesKey` | crates/ctxmux-daemon/src/creation.rs:2418-2437 | the same key may be bound to the same Run again at once |
| `StopAnswers.RefusalUndoesBegin` | crates/ctxmux-daemon/src/creation.rs:2418-2503 | binding a Stop and settling it as not applied restores the Registry and the control budget exactly |
| `RegistryRuns.FencingSparesStops` | crates/ctxmux-daemon/src/creation.rs:1693-1707 | fencing chosen candidates, or releasing them, never touches a Run with a Stop in flight |
| `RegistryModel.RestoreUndoesReserve` | crates/ctxmux-daemon/src/creation.rs:3012-3025 | dropping a reservation restores the state before it, apart from the ticket number and the live count |
| `RegistryModel.PublishIndexes` | crates/ctxmux-daemon/src/creation.rs:2256-2311 | replacing the candidates by the new Run keeps both indexes inverse and every residency exact |
| `RegistryModel.PublishFresh` | crates/ctxmux-daemon/src/creation.rs:3047-3075 | after a publication the ids and keys of all other reservations are still nobody's |
| `RegistryModel.RemoveIndexes` | crates/ctxmux-daemon/src/creation.rs:2917-2934 | removing entries takes exactly their index entries and leaves every fence exact |
| `RegistryModel.ReserveIndexes` | crates/ctxmux-daemon/src/creation.rs:2203-2221 | fencing the candidates keeps residency Collecting(t) equivalent to membership in ticket t's list |
| `RegistryBudgets.PublishBudgets` | crates/ctxmux-daemon/src/creation.rs:3047-3075 | a publication that charges at most its promise keeps both budgets |
| `RegistryBudgets.ReserveBudgets` | crates/ctxmux-daemon/src/creation.rs:2197-2221 | an affordable reservation keeps both budgets and at most one multiple replacement |
| `RegistryBudgets.RestoreBudgets` | crates/ctxmux-daemon/src/creation.rs:3012-3025 | giving a reservation back keeps both budgets |
| `RegistryBudgets.RemoveBudgets` | crates/ctxmux-daemon/src/creation.rs:2917-2934 | the saturating subtraction of a removal never saturates and keeps the total the sum of charges |
| `RegistryBudgets.PublishKeepsCharges` | crates/ctxmux-daemon/src/creation.rs:1748-1769 | no other ticket's candidate is touched by a publication |
| `CandidateSelections.SelectPublicationCandidates` | crates/ctxmux-daemon/src/creation.rs:1637-1746 | the result is the one any full scan would give; along the chosen Runs the terminal ordinals never fall, equal ones go by id, and no older Run that may go is passed over; the number of entries walked is zero exactly on the fast path |
| `CandidateSelections.ChoosePrefix` | crates/ctxmux-daemon/src/creation.rs:1709-1746 | the scan takes the shortest sufficient prefix; a capacity error exactly when all eligible Runs together do not suffice; a conflict exactly when a second multiple replacement would be needed |
| `CandidateSelections.CollectEligible` | crates/ctxmux-daemon/src/creation.rs:1693-1707 | exactly the eligible Runs, their ordinals never falling and equal ones by id, after walking every entry |
| `CandidateSelections.OrderUnique` | crates/ctxmux-daemon/src/creation.rs:1612-1617 | the collection order is unique |
| `CandidateSelections.SelectionUnique` | crates/ctxmux-daemon/src/creation.rs:1709-1746 | state and order determine the result |
| `CandidateSelections.MeetsGrows` | crates/ctxmux-daemon/src/creation.rs:1709-1720 | more candidates never suffice less |
| `CandidateSelections.FastPathIsFullScan` | crates/ctxmux-daemon/src/creation.rs:1664-1688 | with no pressure the full scan would choose nothing, on every state and order |
| `CandidateSelections.ChoiceAffords` | crates/ctxmux-daemon/src/creation.rs:1709-1746 | a chosen set is unpinned, retained, distinct and pays for both budgets |
| `CandidateSelections.ChosenAreOldest` | crates/ctxmux-daemon/src/creation.rs:1612-1617 | no chosen Run is younger than a Run that may go and was not chosen; of equal ordinals the smaller id goes first |
| `CandidateSelections.ChosenAreFewest` | crates/ctxmux-daemon/src/creation.rs:1709-1746 | the chosen Runs make room in records and bytes, and one fewer would not |
| `CandidateSelections.CapacityIff` | crates/ctxmux-daemon/src/creation.rs:1716-1727 | a capacity refusal means that no distinct Runs that may go would make room, however chosen; a choice or a conflict that some would |
| `CandidateSelections.ConflictMeansSeveral` | crates/ctxmux-daemon/src/creation.rs:1728-1741 | a conflict means that some reservation already replaces several Runs and that neither no Run nor the oldest alone would make room |
| `CandidateSelections.SaturationIsExact` | crates/ctxmux-daemon/src/creation.rs:1652-1662 | under any validated policy the 64-bit saturating sums give the same verdict as unbounded arithmetic, on every state within its budgets and for every request |
| `CandidateSelections.OrderWithinLimit` | crates/ctxmux-daemon/src/resources.rs:218-245 | no choice of eligible Runs holds more than the metadata limit, which validation keeps below 2^63 |
| `RunRegistries.ReservePublication` | crates/ctxmux-daemon/src/creation.rs:2150-2253 | reserve under one lock: refusal leaves the state alone, capacity errors exactly at the live limit or without a sufficient replacement, success fences the choice |
| `RunRegistries.FenceCandidates` | crates/ctxmux-daemon/src/creation.rs:2197-2240 | fencing loop, and its undoing when descriptors cannot be detached |
| `RunRegistries.ConsumeReservation` | crates/ctxmux-daemon/src/creation.rs:3047-3075 | the ticket's candidates leave one by one and the new Run and key enter: the same state as the one-step model |
| `RunRegistries.RemoveRegistryEntry` | crates/ctxmux-daemon/src/creation.rs:2917-2934 | removing by the entry's own keys equals removing every index entry that names the Run |
| `RunRegistries.RestoreReservation` | crates/ctxmux-daemon/src/creation.rs:3012-3025 | the release loop restores exactly the listed candidates |
| `RunRegistries.ValidateRemovable` | crates/ctxmux-daemon/src/creation.rs:2877-2912 | removable exactly if eligible for collection and not running; absent and running Runs get their own errors |
| `RunRegistries.RemoveMemory` | crates/ctxmux-daemon/src/creation.rs:2583-2590 | removal of an eligible Run, and of nothing else |
| `RunRegistries.BeginPersistentRemoval` | crates/ctxmux-daemon/src/creation.rs:2599-2655 | the fence names the row's exact key and is taken only from an eligible Run |
| `RunRegistries.RemoveFenced` | crates/ctxmux-daemon/src/creation.rs:2984-2995 | a committed removal fence removes exactly its Run |
| `RunRegistries.ReleaseFenced` | crates/ctxmux-daemon/src/creation.rs:2998-3010 | a dropped removal fence restores exactly its Run |
| `RunRegistries.BeginRecoverableStop` | crates/ctxmux-daemon/src/creation.rs:2355-2466 | first admission binds key and Run and funds the receipt; a retry gets the bound cell; any other key or Run conflicts; backpressure exactly if the budget cannot fund it; refusals change nothing |
| `RunRegistries.SettleRecoverableStop` | crates/ctxmux-daemon/src/creation.rs:2468-2503 | settlement answers its own cell and forgets the operation, with its funding, exactly if it was not applied |
| `RunRegistries.RunRegistry.Reserve` | crates/ctxmux-daemon/src/creation.rs:2150-2253 | the Registry object's reserve is one step of the run machine |
| `RunRegistries.RunRegistry.PublishCreation` | crates/ctxmux-daemon/src/creation.rs:2256-2311 | so is its publication |
| `RunRegistries.RunRegistry.DropReservation` | crates/ctxmux-daemon/src/creation.rs:2860-2868 | so is the drop of a reservation |
| `RunRegistries.RunRegistry.CommitPersistentRemoval` | crates/ctxmux-daemon/src/creation.rs:2984-2995 | so is the commit of a removal |
| `RunRegistries.RunRegistry.SettleStop` | crates/ctxmux-daemon/src/creation.rs:2468-2503 | so is the settlement of a Stop |
| `RunRegistries.RunRegistry.BeginStop` | crates/ctxmux-daemon/src/creation.rs:2355-2466 | admission is a begin or a retry step, or changes nothing, and hands out the key's own cell |
| `RunRegistries.RunRegistry.Remove` | crates/ctxmux-daemon/src/creation.rs:2583-2592 | removal is a step exactly for an eligible Run that is not running, and changes nothing otherwise |
| `RunRegistries.RunRegistry.BeginRemoval` | crates/ctxmux-daemon/src/creation.rs:2600-2655 | a removal fence is a step, and names the Run's own key |
| `RunRegistries.RunRegistry.CancelPersistentRemoval` | crates/ctxmux-daemon/src/creation.rs:2998-3010 | the drop of a removal fence is a step |
| `RunRegistries.RunRegistry.IntoUnresolved` | crates/ctxmux-daemon/src/creation.rs:2849-2857 | a reservation whose owner is lost stays counted |
| `RunRegistries.RunRegistry.ReleasePermit` | crates/ctxmux-daemon/src/creation.rs:1812-1818 | a live permit gives back exactly one slot |
| `RunRegistries.RunRegistry.DropRemoved` | crates/ctxmux-daemon/src/creation.rs:2984-2995 | removed entries give back their receipts after the lock |
| `RunRegistries.RunRegistry.ShareInputs` | crates/ctxmux-daemon/src/resources.rs:389-411 | the Input side takes or gives back bytes of the shared budget, refused only if they do not fit |
| `RunRegistries.RunRegistry.Pin` | crates/ctxmux-daemon/src/creation.rs:2556-2573 | a retained Run is pinned, an unknown one is none, one being replaced or removed is refused |
| `RegistryKeys.PublishedIsFound` | crates/ctxmux-daemon/src/creation.rs:3047-3075 | a publication inserts the new Run as it was reserved and its creation key, takes its candidates with their keys, and leaves every other Run and key as they were |
| `RegistryKeys.PublishedKeyLeads` | crates/ctxmux-daemon/src/creation.rs:2256-2311 | in every run a keyed publication makes its key lead to the new Run at once, until that Run is removed or collected |
| `RegistryKeys.KeyKeepsLeading` | crates/ctxmux-daemon/src/creation.rs:2917-2934 | in every run a creation key keeps leading to its Run until that very Run is removed or collected |
| `RegistryKeys.ReservationStays` | crates/ctxmux-daemon/src/creation.rs:2203-2221 | in every run a ticket lists the Run, key, bytes and candidates it was asked for until it is published or dropped |
| `RegistryKeys.StopKeyKeepsLeading` | crates/ctxmux-daemon/src/creation.rs:2371-2466 | in every run a Stop key keeps leading to the Run and cell it was bound to until the Run leaves or the Stop turns out not applied |
| `RegistryKeys.SettledResultStays` | crates/ctxmux-daemon/src/creation.rs:2468-2503 | in every run the cell of a settlement holds the result given to it, from then on, and no other cell changes |
| `RegistryPins.PinsAreCounted` | crates/ctxmux-daemon/src/creation.rs:2556-2573 | in every run the clones of a Run that are out are those taken and not given back |
| `RegistryPins.HeldRunStays` | crates/ctxmux-daemon/src/creation.rs:1693-1707 | in every run a retained Run with a clone out is not collected, fenced or removed before the last clone is given back |
| `RegistryPins.UnresolvedStays` | crates/ctxmux-daemon/src/creation.rs:2849-2857 | in every run a reservation whose owner was lost keeps its promise counted for ever |
| `RegistryPins.ReservedMayPublish` | crates/ctxmux-daemon/src/creation.rs:2256-2311 | a fresh ticket may be published at any charge within its promise, or dropped |
| `RegistryPins.ControlMoves` | crates/ctxmux-daemon/src/resources.rs:389-411 | in every run the Input side holds what it last asked for, beside it the bytes in use change only by receipts, and visible ends only grow by their own step |
| `RegistryPins.LiveMoves` | crates/ctxmux-daemon/src/creation.rs:1812-1818 | in every run a live slot is taken by a reservation and given back by its own permit, whatever becomes of the ticket |
| `StopAnswers.RemovalRefunds` | crates/ctxmux-daemon/src/creation.rs:2917-2934 | removing a Run unbinds its Stop key at once and gives back exactly its receipt when the entry is dropped |
| `StopHandoffs.HandoffKeepsResults` | crates/ctxmux-daemon/src/creation.rs:2509-2553 | in the successor every key leads to the same settled result on the same Run, and every unbound key to none |
| `StopHandoffs.HandoffKeepsRetriesIff` | crates/ctxmux-daemon/src/creation.rs:1423-1450 | a retry is told the same before and after the handoff exactly when its result is not an accepted one or its Run's terminal state is visible in both daemons or in neither |
| `StopHandoffs.HandoffCost` | crates/ctxmux-daemon/src/creation.rs:1389-1404 | a snapshot costs the successor exactly what its records hold now plus a top-up for every diagnostic longer than the room funded for it |
| `StopHandoffs.HandoffRestoresIff` | crates/ctxmux-daemon/src/creation.rs:1930-1994 | a snapshot restores exactly when the successor's free control bytes cover that sum |
| `StopHandoffs.OrdinaryHandoffRestores` | crates/ctxmux-daemon/src/handoff.rs:326-346 | under the same policy, with no more Input bytes and no overlong diagnostic, every snapshot restores |
| `StopHandoffs.LongDiagnosticOverflows` | crates/ctxmux-daemon/src/creation.rs:1389-1397 | a concrete run whose snapshot no successor of the same policy can fund |
| `StopHandoffs.RestoredKeeps` | crates/ctxmux-daemon/src/creation.rs:1930-1994 | a restored Registry satisfies the run machine's whole invariant, so every later step keeps it |
| `StopHandoffs.HandoffStopOperations` | crates/ctxmux-daemon/src/creation.rs:2509-2553 | the snapshot succeeds exactly when every Stop is retained, settled and not not-applied, and lists each once in id order |
| `StopHandoffs.SnapshotIff` | crates/ctxmux-daemon/src/creation.rs:2509-2553 | in every reachable state a snapshot is refused exactly if a Stop is in flight or a Run with one is being collected or removed: the not-applied branch cannot fire |
| `StopHandoffs.RestoreHandoffStopOperations` | crates/ctxmux-daemon/src/creation.rs:1930-1994 | restoring succeeds exactly for distinct ids and valid distinct keys of retained Runs without a Stop whose recomputed charges fit the control budget together |
| `CleanupOwnership.RunKeeps` | crates/ctxmux-daemon/src/creation.rs:286-443 | in every run the owned count equals live reservations plus handed-over owners plus tmux entries and stays within the slots; armed publications hold their own slot; fences are exact |
| `CleanupOwnership.FenceOpensIff` | crates/ctxmux-daemon/src/creation.rs:365-391 | a key may be used again exactly when every native owner ever handed over under it is proven reaped |
| `CleanupOwnership.EndsOnce` | crates/ctxmux-daemon/src/creation.rs:670-748 | a pending publication ends exactly once, by the step of that name, as published, cleaned or transferred; its slot is still there exactly if it was published |
| `CleanupOwnership.TransferredStaysFenced` | crates/ctxmux-daemon/src/creation.rs:365-391 | in every run a publication armed on a token and transferred later keeps the key that token was taken for fenced until its own Run is proven reaped |
| `CleanupOwnership.SlotKeepsKey` | crates/ctxmux-daemon/src/creation.rs:395-443 | in every run a reservation keeps the key it was taken for until its slot goes back |
| `CleanupOwnership.ArmedStays` | crates/ctxmux-daemon/src/creation.rs:670-748 | in every run an armed publication keeps its request, Run and key until it ends |
| `CleanupOwnership.WasArmed` | crates/ctxmux-daemon/src/creation.rs:670-700 | in every run whatever is pending was armed earlier, with the request, Run and token it has |
| `CleanupOwnership.TmuxEntriesAre` | crates/ctxmux-daemon/src/creation.rs:522-541 | a tmux entry comes only by a transfer and goes only when the native side is done with it |
| `CleanupOwnership.PruneReaped` | crates/ctxmux-daemon/src/creation.rs:522-541 | pruning removes exactly the proven owners and empty fences and gives back exactly their slots |
| `CleanupOwnership.PruneKeepsFences` | crates/ctxmux-daemon/src/creation.rs:522-541 | pruning opens no fence with an unproven owner and keeps no empty one |
| `CleanupOwnership.ResolveFence` | crates/ctxmux-daemon/src/creation.rs:365-391 | refusal exactly behind a fence, with a conflict exactly for another request |
| `CleanupOwnership.Reserve` | crates/ctxmux-daemon/src/creation.rs:395-443 | a slot is granted exactly if one is free after pruning |
| `CleanupOwnership.Transfer` | crates/ctxmux-daemon/src/creation.rs:558-592 | the fence keeps its first request and gains this owner last, the slot passes to it, no other key changes, and no pruning opens the key before this Run is reaped |
| `Paging.ListSummariesAfter` | crates/ctxmux-daemon/src/creation.rs:2681-2710 | one page is the first rows past the cursor with an exact has-more, although only a partial selection is sorted |
| `Paging.PageIsPrefix` | crates/ctxmux-daemon/src/creation.rs:2681-2710 | a page equals filter, sort and take(limit), and has-more says exactly whether the sorted list is longer |
| `Paging.NearestFirst` | crates/ctxmux-daemon/src/creation.rs:2694-2702 | the truncated selection holds the smallest limit + 1 ids |
| `Paging.ListPage` | crates/ctxmux-daemon/src/lib.rs:3512-3517 | the next cursor is the last row, present exactly if something is left |
| `Paging.ListAll` | crates/ctxmux-client/src/lib.rs:686-697 | a walk over an arbitrarily changing fleet lists ids strictly ascending, each seen by some request, and every Run present throughout; each unfinished page advances |
| `Paging.ListPersistent` | crates/ctxmux-client/src/lib.rs:665-697 | a Run that existed throughout is listed exactly once |
| `Paging.ListUnchanging` | crates/ctxmux-client/src/lib.rs:686-697 | on an unchanging fleet the walk ends with the whole sorted fleet |
| `JournalRuns.ReceiversFollowTheLog` | crates/ctxmux-daemon/src/live_event_journal.rs:83-275 | in every run each receiver was told the log itself: deliveries are the events at their own ascending positions, delivered plus skipped is the distance moved, and every position passed was delivered or retired under pressure |
| `JournalRuns.LagsOnlyUnderPressure` | crates/ctxmux-daemon/src/live_event_journal.rs:116-150 | in every run a receiver lags only if some preparation retired, under pressure, the very event it would have read next |
| `JournalRuns.RunsDrain` | crates/ctxmux-daemon/src/live_event_journal.rs:174-179 | in every run a receiver that outlives the sender gets at most one lag, then every retained event in order, then the end |
| `JournalRuns.RunKeeps` | crates/ctxmux-daemon/src/live_event_journal.rs:83-275 | every interleaving of subscriptions, preparations, sends, reads and drops keeps every receiver's history sound |
| `JournalModel.HistoryAccounts` | crates/ctxmux-daemon/src/live_event_journal.rs:217-242 | delivered plus skipped equals position minus subscription position |
| `JournalModel.HistoryInOrder` | crates/ctxmux-daemon/src/live_event_journal.rs:217-242 | every delivery is the log's event at its own position, strictly ascending: no duplicates, no reordering |
| `JournalModel.HistoryComplete` | crates/ctxmux-daemon/src/live_event_journal.rs:116-150 | every position passed was delivered or retired under pressure |
| `JournalModel.OthersCannotCauseLag` | crates/ctxmux-daemon/src/live_event_journal.rs:203-215 | reading or leaving never makes another receiver lag |
| `JournalModel.DrainsBeforeClosed` | crates/ctxmux-daemon/src/live_event_journal.rs:174-179 | after the sender is gone a receiver drains everything from its position in order, then sees the end |
| `JournalModel.WantedIsEarliest` | crates/ctxmux-daemon/src/live_event_journal.rs:203-215 | reclamation stops at the earliest live cursor |
| `Journals.Retire` | crates/ctxmux-daemon/src/live_event_journal.rs:182-201 | retirement takes the oldest event, keeps every permit accounted, and is allowed only under pressure or past every reader |
| `Journals.Reclaim` | crates/ctxmux-daemon/src/live_event_journal.rs:203-215 | reclamation moves the base to the earliest live cursor and refunds exactly what it frees |
| `Journals.EventAccepted` | crates/ctxmux-daemon/src/live_event_journal.rs:152-171 | appending to the inline slot or the deque keeps contents and funding exact |
| `Journals.LostOutputMeans` | crates/ctxmux-daemon/src/live_event_journal.rs:116-150 | the retired-output flag is raised exactly if a retired event carried output |
| `Journals.Journal.Subscribe` | crates/ctxmux-daemon/src/live_event_journal.rs:83-107 | a subscription starts at the end of the log with its slot funded, or changes nothing |
| `Journals.Journal.Prepare` | crates/ctxmux-daemon/src/live_event_journal.rs:116-150 | afterwards the slot that send asserts is there, whatever subscribes, reads and leaves in between; retirement only under pressure |
| `Journals.Journal.Send` | crates/ctxmux-daemon/src/live_event_journal.rs:152-171 | the slot assertion never fires and the event is the log's next |
| `Journals.Journal.TryRecv` | crates/ctxmux-daemon/src/live_event_journal.rs:217-242 | each outcome is the model's, recorded in the receiver's history |
| `Journals.Journal.DropReceiver` | crates/ctxmux-daemon/src/live_event_journal.rs:262-275 | leaving releases exactly the backlog nobody else wants, and the reader table with the last one |
| `Journals.Journal.Grow` | crates/ctxmux-daemon/src/live_event_journal.rs:277-325 | growth is funded for the real capacity difference or does not happen |
| `Journals.Journal.Close` | crates/ctxmux-daemon/src/live_event_journal.rs:174-179 | every receiver present then drains what is retained from its position on in order, and only then sees the end |
| `Journals.ReadBacklogOwnsNothing` | crates/ctxmux-daemon/src/live_event_journal.rs:182-215 | once all was read the journal retains no event and no deque, and only the reader table and others' permits use the budget |
| `JournalReading.LogIsWhatWasSent` | crates/ctxmux-daemon/src/live_event_journal.rs:152-171 | in every run the log is what was sent, all of it and in order |
| `JournalReading.SubscribedAtEnd` | crates/ctxmux-daemon/src/live_event_journal.rs:83-107 | in every run a new receiver starts at the present end of the log and nobody else moves |
| `JournalReading.ReadGivesNext` | crates/ctxmux-daemon/src/live_event_journal.rs:217-242 | in every run a read gives the event at the receiver's own position if it is retained, a lag to the oldest retained event exactly if it was retired, else empty or closed; nobody else moves |
| `JournalReading.ReadBacklogIsFreed` | crates/ctxmux-daemon/src/live_event_journal.rs:203-275 | in every run a delivery or a departure frees at once all that every remaining receiver has read, and nothing that one still wants |
| `JournalReading.PreparedIs` | crates/ctxmux-daemon/src/live_event_journal.rs:116-150 | in every run a preparation counts as lost exactly the wanted events up to its new base |
| `ByteBudgets.ByteBudget.Reserve` | crates/ctxmux-daemon/src/resources.rs:389-402 | a reservation succeeds exactly if it fits, and a refusal changes nothing |
| `ByteBudgets.ByteBudget.Release` | crates/ctxmux-daemon/src/resources.rs:404-411 | a dropped permit gives back its bytes |
| `EventInboxes.RunLosesNothingSilently` | crates/ctxmux-client/src/attachment.rs:754-982 | in every run of pushes, polls and closes each accepted event has its place in the consumer's stream, later events no earlier place, and what stands there is the event or may stand for it, unless the view ended there |
| `EventInboxes.RunExplains` | crates/ctxmux-client/src/attachment.rs:706-982 | in every run the delivered and pending events explain everything accepted, and both byte counters equal the sums and stay within their windows |
| `EventInboxes.IdleIsComplete` | crates/ctxmux-client/src/attachment.rs:946-982 | in every run, when a poll finds nothing, what the consumer holds explains everything accepted |
| `EventInboxes.PushKeeps` | crates/ctxmux-client/src/attachment.rs:789-893 | whatever push does with an accepted event, the stream still explains everything pushed |
| `EventInboxes.NothingSilentlyLost` | crates/ctxmux-client/src/attachment.rs:789-893 | each pushed event is shown, or covered by a gap that reaches at least its end with the causes, or replaced by a strictly newer snapshot of the same command, or the view ends there |
| `EventInboxes.OrderKept` | crates/ctxmux-client/src/attachment.rs:789-982 | nothing overtakes |
| `EventInboxes.SharedPlaces` | crates/ctxmux-client/src/attachment.rs:754-893 | only gaps, snapshot chains and the final loss coalesce events |
| `EventInboxes.LossEndsView` | crates/ctxmux-client/src/attachment.rs:696-704 | in every run, after a loss: what is queued, one discontinuity last, the error once, and the end for ever |
| `EventInboxes.EventInbox.Push` | crates/ctxmux-client/src/attachment.rs:789-893 | push accepts exactly outside closed and ended stages, is one step of the run machine, and accounts for every accepted event by the one verdict its state calls for |
| `EventInboxes.EventInbox.Next` | crates/ctxmux-client/src/attachment.rs:946-982 | next hands out the pending stream in order, never underflowing a counter |
| `EventInboxes.EventInbox.Close` | crates/ctxmux-client/src/attachment.rs:935-944 | the consumer still gets everything pending in order, then the first error once, then the end for ever |
| `EventInboxes.ClosedReads` | crates/ctxmux-client/src/attachment.rs:946-982 | what any number of polls of a closed view return |
| `EventInboxes.ReserveSlots` | crates/ctxmux-client/src/attachment.rs:706-752 | backing grows exactly when the doubled or needed size fits the envelope window |
| `EventInboxes.SlotsFit` | crates/ctxmux-client/src/attachment.rs:706-752 | the quotient bound is exact: so many slots fit exactly if their bytes do |
| `EventInboxes.ReplaceInputProgress` | crates/ctxmux-client/src/attachment.rs:754-787 | exactly an advancing snapshot overwrites its adjacent predecessor, and neither byte counter changes |
| `EventInboxes.RetainQueued` | crates/ctxmux-client/src/attachment.rs:896-903 | a pending gap always has its slot before the event that follows it, and the consumer's stream grows by exactly that event |
| `EventInboxes.OrdinaryKeeps` | crates/ctxmux-client/src/attachment.rs:862-893 | kept if it fits, output otherwise becomes gap, anything else ends the view, and each way the stream explains it |
| `EventInboxes.TerminalKeeps` | crates/ctxmux-client/src/attachment.rs:905-928 | the terminal event is kept in the queue or beside it, or the view ends, within both windows |
| `EventInboxes.NoteGap` | crates/ctxmux-client/src/attachment.rs:827-860 | gaps widen to the larger head and the union of causes |
| `EventRetention.AcceptedIff` | crates/ctxmux-client/src/attachment.rs:789-824 | in every run an event is accepted exactly if the transport has not closed an intact view, no terminal event was accepted before, and after a discontinuity only a terminal one |
| `EventRetention.OrdinaryIsKeptIff` | crates/ctxmux-client/src/attachment.rs:862-893 | in every run an accepted event in an intact view is kept exactly if its bytes, its slot and its spare capacity fit the windows; an output that does not becomes gap by client pressure, anything else ends the view |
| `EventRetention.SupersedingReplaces` | crates/ctxmux-client/src/attachment.rs:754-787 | in every run a snapshot that only confirms more input replaces its predecessor at the same place |
| `EventRetention.GapIsKept` | crates/ctxmux-client/src/attachment.rs:827-860 | in every run a gap from the daemon joins the pending gap |
| `EventRetention.TerminalIsKeptIff` | crates/ctxmux-client/src/attachment.rs:905-928 | in every run the terminal event is kept exactly if its text fits beside what the view retains, slot or no slot; otherwise the view ends |
| `EventRetention.TerminalIsQueuedIff` | crates/ctxmux-client/src/attachment.rs:905-928 | in every run it takes a queue slot exactly if no gap is pending and one more slot fits |
| `EventRetention.BackingDoubles` | crates/ctxmux-client/src/attachment.rs:706-752 | in every run the backing grows only for an event without a free slot, and then at least doubles unless one slot more would leave the envelope |
| `EventRetention.NothingAfterLoss` | crates/ctxmux-client/src/attachment.rs:789-824 | in every run nothing accepted after the loss of the view changes what is shown |
| `EventRetention.PollTakesFirst` | crates/ctxmux-client/src/attachment.rs:946-982 | in every run a poll hands out the first pending event and leaves the others; with none it gives the error once, then the end or nothing yet |
| `CommandLedgers.Ledger.RegisterCommand` | crates/ctxmux-client/src/attachment.rs:431-487 | admission respects fence, view and the 64 / 32 / 1 MiB windows in that order, and counters equal the sums over pending commands |
| `CommandLedgers.Ledger.ResolveCommand` | crates/ctxmux-client/src/attachment.rs:489-530 | only a valid outcome of a pending command settles it; an error leaves the ledger alone |
| `CommandLedgers.Ledger.CancelUnsent` | crates/ctxmux-client/src/attachment.rs:532-546 | cancelling gives back capacity and id, at the largest id the fence |
| `CommandLedgers.Ledger.FinishDetach` | crates/ctxmux-client/src/attachment.rs:588-606 | acknowledged exactly when requested and nothing is pending |
| `CommandLedgers.Ledger.Terminate` | crates/ctxmux-client/src/attachment.rs:608-632 | everything pending becomes unknown, once |
| `CommandLedgers.ReleaseKeepsLedger` | crates/ctxmux-client/src/attachment.rs:634-639 | no counter ever falls below zero |
| `LedgerCalls.WindowsHold` | crates/ctxmux-client/src/attachment.rs:431-487 | in every run the counters are the number of pending inputs and their bytes, within 64 commands, 32 inputs and 1 MiB |
| `LedgerCalls.RegisteredIff` | crates/ctxmux-client/src/attachment.rs:431-487 | in every run a command is registered exactly if the attachment is open and intact and each window has room; a refusal changes nothing |
| `LedgerCalls.RefusedFor` | crates/ctxmux-client/src/attachment.rs:431-465 | which refusal is given: closed, fenced, the view lost, then the windows, in that order |
| `LedgerCalls.SettledIff` | crates/ctxmux-client/src/attachment.rs:489-530 | in every run a result settles a command exactly if it names a pending one and its receipt or failure is one that command can have; no other command is touched |
| `LedgerCalls.CancelUndoesRegister` | crates/ctxmux-client/src/attachment.rs:532-546 | a command registered and cancelled unsent leaves the ledger as it was, at the largest id too |
| `LedgerCalls.EndsAre` | crates/ctxmux-client/src/attachment.rs:588-632 | in every run a detach fences, is acknowledged exactly once nothing is pending, and the end tells every pending channel that its outcome is unknown, once |
| `CommandRuns.WireIsContiguousIff` | crates/ctxmux-client/src/attachment.rs:260-307 | in every run the ids on the wire are 1, 2, 3, ... exactly if no id below the last was passed over, cancellation and exhaustion included |
| `CommandRuns.ConformingWire` | crates/ctxmux-client/src/attachment.rs:431-546 | with a daemon that answers only what it received, the wire carries exactly 1, 2, 3, ... and the daemon accepts all of them |
| `CommandRuns.CancelRestoresIff` | crates/ctxmux-client/src/attachment.rs:532-546 | cancelling restores the id exactly if the command was not answered before it was sent |
| `CommandRuns.EarlyAnswerSkipsId` | crates/ctxmux-client/src/attachment.rs:489-546 | a concrete run with an early answer whose first id on the wire is 2 |
| `CommandRuns.DaemonAcceptsIff` | crates/ctxmux-daemon/src/attachment.rs:935-948 | in any run the daemon accepts every id unless the very first was passed over |
| `CommandRuns.AcceptsAllIff` | crates/ctxmux-daemon/src/attachment.rs:935-948 | the daemon accepts exactly the strictly rising sequences that start at 1 |
| `CommandRuns.ObserveCommandId` | crates/ctxmux-daemon/src/attachment.rs:935-948 | checking ids one by one accepts exactly the sequences the daemon accepts as a whole: the first id 1, then strictly rising; a refusal forgets nothing |
| `CommandRuns.EndSettlesEverything` | crates/ctxmux-client/src/attachment.rs:489-632 | after the end each registered command is answered, cancelled or unknown exactly once, and no other ever |
| `CommandRuns.DetachIsClean` | crates/ctxmux-client/src/attachment.rs:588-606 | a detach acknowledged while open leaves nothing pending and nothing unknown |
| `CommandRuns.SettledInvariant` | crates/ctxmux-client/src/attachment.rs:260-307 | at any time each registered command is pending or settled, once |
| `AttachmentLoops.TerminalComesLast` | crates/ctxmux-daemon/src/attachment.rs:198-335 | the terminal event is the last frame, after exactly one result for every command frame: its own outcome exactly if it entered the daemon |
| `AttachmentLoops.BarrierIsRedundant` | crates/ctxmux-daemon/src/attachment.rs:205-234 | pending stops is exact, and two empty queues imply it is zero and nothing is held |
| `AttachmentLoops.DrainDelivers` | crates/ctxmux-daemon/src/attachment.rs:215-234 | a held terminal event is never stranded: finishing what is outstanding, in any order, writes it within the measure, and some such step is always enabled |
| `AttachmentLoops.NothingShownTwice` | crates/ctxmux-daemon/src/attachment.rs:255-332 | outputs strictly advance past every output and gap before them; service and geometry revisions strictly rise, through any lags and recoveries |
| `AttachmentLoops.RunKeeps` | crates/ctxmux-daemon/src/attachment.rs:198-335 | admissions enter in frame order, results and refusals partition the frames, refused commands never enter |
| `AttachmentLoops.CancelUnadmitted` | crates/ctxmux-daemon/src/attachment.rs:723-746 | the cancel loop refuses each unadmitted command once, oldest first, with the barrier kept |
| `AttachmentLoops.CancelKeeps` | crates/ctxmux-daemon/src/attachment.rs:723-746 | cancelling the queue leaves every command answered once and the barrier exact |
| `AttachmentLoops.CompleteResult` | crates/ctxmux-daemon/src/attachment.rs:215-234 | a finished command is reported and may release the held event |
| `AttachmentLoops.HandleFrame` | crates/ctxmux-daemon/src/attachment.rs:751-895 | each command frame is queued, refused with the disposition that is true of it, or ends the view |
| `AttachmentLoops.RecoverLaggedDelivery` | crates/ctxmux-daemon/src/attachment.rs:416-493 | a lag becomes a discontinuity or a gap with its causes, then the service and terminal state that were missed |
| `AttachmentLoops.RecoveryCovers` | crates/ctxmux-daemon/src/attachment.rs:416-493 | after a lag everything skipped is behind a discontinuity or a gap that reaches it and names every cause, and no missed service revision stays hidden |
| `AttachmentLoops.LagCausesExact` | crates/ctxmux-daemon/src/lib.rs:4008-4016 | a gap names the lag, a geometry lag exactly if a resize was missed, and each shared cause exactly if it was recorded since |
| `AttachmentLoops.HandleEnvelope` | crates/ctxmux-daemon/src/attachment.rs:255-332 | delivery, recovery, close and hold exactly as the branches say |
| `AttachmentLoops.AttachmentLoop.Iterate` | crates/ctxmux-daemon/src/attachment.rs:198-335 | one iteration is one step of the machine |
| `AttachmentDelivery.LiveIsWritten` | crates/ctxmux-daemon/src/attachment.rs:300-332 | in every run a live output, resize or service event received without lag is written exactly if the client was not shown as much; the terminal event once nothing is outstanding; any other event always |
| `AttachmentDelivery.ReceivedIsShown` | crates/ctxmux-daemon/src/attachment.rs:255-332 | in every run, lags included, each output received is covered by an output or a gap on the wire from then on, each revision by one at least as new, unless the view closed, ended or is about to |
| `AttachmentDelivery.LostObservationIsTold` | crates/ctxmux-daemon/src/attachment.rs:416-493 | in every run a lost observation is announced first; it closes a running Run's view with no admission left and ends any other with its terminal state |
| `AttachmentDelivery.LostOutputIsGap` | crates/ctxmux-daemon/src/attachment.rs:416-493 | in every run output or geometry lost to a lag is behind a gap with the exact head and exactly the causes there were, written first |
| `AttachmentDelivery.MarkedIffLost` | crates/ctxmux-daemon/src/attachment.rs:416-493 | in every run a gap or a discontinuity is written by exactly those receptions after a lag that lost something the client was not shown |
| `AttachmentDelivery.LagCatchesUp` | crates/ctxmux-daemon/src/attachment.rs:416-493 | in every run what is shown after a lag reaches all that was retained and the newest service state; a missed end ends the view; otherwise the event itself is delivered |
| `AttachmentDelivery.CommandIsTaken` | crates/ctxmux-daemon/src/attachment.rs:751-895 | in every run a command frame with a rising id joins the queue of an open view or is answered at once with the disposition that is true of it; any other ends the attachment |
| `AttachmentDelivery.EveryCommandIsSeen` | crates/ctxmux-daemon/src/attachment.rs:751-895 | in every run that has not ended the commands seen are exactly the command frames received, in order |
| `AttachmentDelivery.OutcomeIsReported` | crates/ctxmux-daemon/src/attachment.rs:215-234 | in every run a finished command's own outcome is the next frame, and a held terminal event follows exactly if nothing is outstanding |
| `AttachmentDelivery.CancelAnswersInOrder` | crates/ctxmux-daemon/src/attachment.rs:723-746 | closing a view answers every unadmitted command, oldest first, and touches nothing else |
| `Replays.ReplayComposes` | crates/ctxmux-daemon/src/attachment.rs:87-175 | for any floors, page boundaries and evictions the client ends with exactly the log from the later of the requested byte and the final floor to the head, reading every frame and needing no more, or fails exactly when the daemon reported a failure |
| `Replays.PagesCompose` | crates/ctxmux-daemon/src/attachment.rs:126-165 | the same from any point of the paging loop |
| `Replays.PagingEnds` | crates/ctxmux-daemon/src/attachment.rs:126-165 | every page advances, so at most as many are asked for as bytes were missing |
| `Replays.SuccessTiles` | crates/ctxmux-client/src/lib.rs:1602-1677 | against any peer a success tiles exactly the stretch from the later of request and final floor to the head |
| `Replays.ReadsAtMost` | crates/ctxmux-client/src/lib.rs:1627-1676 | against any peer no more frames are read than bytes are missing |
| `Replays.ReceptionIs` | crates/ctxmux-client/src/lib.rs:1602-1677 | against any peer a success has taken a beginning of the frames; its chunks are the outputs since the last window notice, its floor is that notice's, and it is truncated exactly if the header said so or a notice was taken |
| `Replays.StreamReplay` | crates/ctxmux-daemon/src/attachment.rs:126-165 | the paging loop writes the model's frames |
| `Replays.ReceiveReplay` | crates/ctxmux-client/src/lib.rs:1602-1677 | the receiving loop computes the model's reception |
| `TerminalSeeds.SeedArrives` | crates/ctxmux-daemon/src/attachment.rs:110-121 | the restore stream arrives byte for byte, nothing left over, in frames that all fit the protocol |
| `TerminalSeeds.SeedRoundTrip` | crates/ctxmux-client/src/lib.rs:1559-1594 | cutting and rebuilding is the identity from any point |
| `TerminalSeeds.RebuildIs` | crates/ctxmux-client/src/lib.rs:1559-1594 | against any peer a success has read pieces without hole or overlap, joined them in order to exactly the announced length, and taken no frame more |
| `TerminalSeeds.ChunkFits` | crates/ctxmux-daemon/src/attachment.rs:495-511 | a piece sized at the widest offset fits its frame at every offset up to it |
| `TerminalSeeds.LongerDoesNotFit` | crates/ctxmux-daemon/src/attachment.rs:495-511 | one byte more no longer fits at the widest offset |
| `TerminalSeeds.ChunkBytesIsLargest` | crates/ctxmux-daemon/src/attachment.rs:495-511 | the size is the largest that fits, and TooLarge exactly when not even one byte does |
| `TerminalSeeds.PiecesExist` | crates/ctxmux-daemon/src/attachment.rs:495-511 | the daemon's own envelope always leaves room |
| `TerminalSeeds.SendSeed` | crates/ctxmux-daemon/src/attachment.rs:110-121 | the sending loop cuts at the computed size with running offsets |
| `TerminalSeeds.ReceiveSeed` | crates/ctxmux-client/src/lib.rs:1565-1592 | the receiving loop appends exactly the pieces at the expected offset |
| `Diagnostics.QuietBooks` | crates/ctxmux-daemon/src/diagnostics.rs:262-334 | with nothing in flight every formatted record settled once, every byte was written or counted discarded, every sent record was handled in order |
| `Diagnostics.SinkInChannelOrder` | crates/ctxmux-daemon/src/diagnostics.rs:477-560 | the sink is notices and records in channel order with at most one cut piece, which is last |
| `Diagnostics.RunConserves` | crates/ctxmux-daemon/src/diagnostics.rs:97-220 | funding, population, record, admission and byte equations hold at every step of every run |
| `Diagnostics.StepConserves` | crates/ctxmux-daemon/src/diagnostics.rs:97-220 | one step of a producer or the writer keeps all five equations |
| `Diagnostics.QueueIsBounded` | crates/ctxmux-daemon/src/diagnostics.rs:227-229 | envelopes and bytes of all waiting records fit the queue budget, so the unbounded channel has a bounded population |
| `Diagnostics.CounterShows` | crates/ctxmux-daemon/src/diagnostics.rs:60-76 | a 64-bit counter is exact until its flag is raised, which is exactly when the true sum no longer fits |
| `Diagnostics.AddSaturating` | crates/ctxmux-daemon/src/diagnostics.rs:66-76 | whatever total the counter showed before, it shows that much more after; value and flag never fall back |
| `Diagnostics.ReserveRecord` | crates/ctxmux-daemon/src/diagnostics.rs:97-108 | granted exactly if the worst case fits beside all that is funded; then it is one step of the machine, and all books, orders and covers are kept |
| `Diagnostics.RetainActual` | crates/ctxmux-daemon/src/diagnostics.rs:163-183 | the reservation shrinks to the real buffer or grows if that fits, else the record is dropped and counted |
| `Diagnostics.WriteAll` | crates/ctxmux-daemon/src/diagnostics.rs:447-471 | what reached the sink is a prefix of the record, counted exactly, whole exactly if reported written |
| `Diagnostics.DrainAll` | crates/ctxmux-daemon/src/diagnostics.rs:547-556 | the final drain counts and refunds every waiting record |
| `Diagnostics.SinkStep` | crates/ctxmux-daemon/src/diagnostics.rs:447-560 | each writer step keeps the sink rendered from the handled records |
| `DiagnosticDelivery.HealthyWritesEverything` | crates/ctxmux-daemon/src/diagnostics.rs:477-560 | in every run without shutdown and failed write no record is skipped or cut: all taken from the channel is written whole in the order it was sent, but for the one in hand |
| `DiagnosticDelivery.RecordInHand` | crates/ctxmux-daemon/src/diagnostics.rs:487-524 | in every run a record in hand is discarded and counted after a shutdown request, and otherwise written, behind a notice exactly if the losses differ from those last reported |
| `DiagnosticDelivery.PieceFinished` | crates/ctxmux-daemon/src/diagnostics.rs:505-545 | in every run a finished notice is what was last reported and is followed by its record; a finished record is whole, counted and refunded |
| `DiagnosticDelivery.WriteFails` | crates/ctxmux-daemon/src/diagnostics.rs:505-545 | in every run a failed write retires the sink for good; the record counts as partly written exactly if a byte of its own reached the sink |
| `DiagnosticDelivery.ShutdownDrains` | crates/ctxmux-daemon/src/diagnostics.rs:477-560 | in every run a shutdown owes one stop message; the writer that takes it, or whose sink failed, discards what is left in order and closes the channel once it is empty |
| `DiagnosticDelivery.FormattingAppends` | crates/ctxmux-daemon/src/diagnostics.rs:363-376 | in every run formatting appends exactly up to the record limit, and past it the record is given up and counted |
| `DiagnosticDelivery.RetainedIfFunded` | crates/ctxmux-daemon/src/diagnostics.rs:163-180 | in every run an encoded record keeps the funding of its buffer whenever that fits, and is dropped and counted only otherwise |
| `DiagnosticDelivery.SentIfOpen` | crates/ctxmux-daemon/src/diagnostics.rs:262-325 | in every run a counted record enters an open channel as it was encoded, behind all that is there; only a closed one gives it back |
| `DiagnosticDelivery.RecordsCarryTheirText` | crates/ctxmux-daemon/src/diagnostics.rs:262-325 | in every run each record sent carries exactly what its producer formatted, and no producer sends two |
| `DiagnosticDelivery.OnlyUnfundedAreDropped` | crates/ctxmux-daemon/src/diagnostics.rs:262-334 | in every run without shutdown and failed write the encoded drops are exactly the records whose buffers could not be funded |
| `DiagnosticDelivery.QuietHasWrittenAll` | crates/ctxmux-daemon/src/diagnostics.rs:262-334 | once a healthy sink is quiet everything formatted and fundable has been written whole, in order |
| `DiagnosticDelivery.CountersMove` | crates/ctxmux-daemon/src/diagnostics.rs:60-76 | in every run each counter rises with its own steps, by what they did, and with no others |
| `SnapshotStats.SnapshotIsCoherent` | crates/ctxmux-daemon/src/qualification_stats.rs:336-360 | a returned snapshot equals the memory at one instant of the call with no write section open; no gauge exceeds its high-water mark and the evaluation maximum not the total |
| `SnapshotStats.AcceptedHasWitness` | crates/ctxmux-daemon/src/qualification_stats.rs:336-360 | an accepted attempt has that instant |
| `SnapshotStats.RunInvariant` | crates/ctxmux-daemon/src/qualification_stats.rs:183-230 | what open write sections owe, over every run |
| `SnapshotStats.PanicBlocksSnapshots` | crates/ctxmux-daemon/src/qualification_stats.rs:376-385 | a writer that panics inside its section blocks every later acceptance for ever |
| `SnapshotStats.StepKeepsConsistent` | crates/ctxmux-daemon/src/qualification_stats.rs:183-230 | each atomic step keeps what open sections owe |
| `SnapshotStats.StepKeepsReader` | crates/ctxmux-daemon/src/qualification_stats.rs:336-360 | each step keeps what the reader has already checked |
| `SnapshotStats.SoleReaderReturns` | crates/ctxmux-daemon/src/qualification_stats.rs:336-360 | with no section open and nobody interfering, an attempt returns exactly the cells after a fixed number of reads |
| `StatsAccounting.QuietCellsAreSums` | crates/ctxmux-daemon/src/qualification_stats.rs:196-262 | in every run without a panic, with no section open, an adjusted gauge is its ups less its downs and a counter the sum of what the calls added |
| `StatsAccounting.QuietGaugeWasSet` | crates/ctxmux-daemon/src/qualification_stats.rs:176-195 | in every run, with no section open, a gauge that is only set holds a value some call set it to |
| `StatsAccounting.HighWaterCoversHistory` | crates/ctxmux-daemon/src/qualification_stats.rs:176-215 | in every run, with no section open, the high-water mark is no less than any value the gauge ever held, even inside an update |
| `StatsAccounting.HighWaterWasHeld` | crates/ctxmux-daemon/src/qualification_stats.rs:176-215 | in every run a high-water mark is a value its gauge really held |
| `StatsAccounting.MaximumCoversSelections` | crates/ctxmux-daemon/src/qualification_stats.rs:220-231 | in every run, with no section open, the evaluation maximum is no less than any selection's |
| `OwnerWakeup.NoLostWakeupIff` | crates/ctxmux-daemon/src/native_output.rs:60-143 | over every run, with holders without an owner guard as well: a deferral is covered by a pending or certain wake throughout exactly if no second try ever fails on a plainly held mutex with no guard in flight and no wake pending |
| `OwnerWakeup.NoLostWakeup` | crates/ctxmux-daemon/src/native_output.rs:85-113 | through owner guards alone, while deferred, a wake is pending or the flag is set and some guard will swap it and wake |
| `OwnerWakeup.QuiescenceDeliversWake` | crates/ctxmux-daemon/src/native_output.rs:60-72 | unless a step stranded it, once every guard has finished its drop a deferred reactor has its wake |
| `OwnerWakeup.DeferralCoveredIff` | crates/ctxmux-daemon/src/native_output.rs:92-113 | exactly when one failed second try is covered |
| `OwnerWakeup.PlainHolderStrands` | crates/ctxmux-daemon/src/lib.rs:5526 | a concrete run in which a holder without an owner guard strands the reactor |
| `OwnerWakeup.StepKeepsInv` | crates/ctxmux-daemon/src/native_output.rs:60-113 | each atomic step but the stranding one keeps the promise of a wake, whoever holds the mutexes |
| `OwnerWakeup.MutualExclusion` | crates/ctxmux-daemon/src/native_output.rs:60-113 | in every run a mutex has one holder, a guard or an owner without one |
| `OwnerWakeup.TriesAre` | crates/ctxmux-daemon/src/native_output.rs:92-113 | in every run a try takes a mutex exactly if it is free, the flag is published between the two tries, and only a second failure defers |
| `OwnerWakeup.WakesAreOwed` | crates/ctxmux-daemon/src/native_output.rs:60-72 | in every run no flag is answered twice: wakes given and under way are at most the flags published |

## Left out

- JSON, sockets, channels and `select!`: frames are datatypes, channels sequences, and any ready branch may run.
- SQLite persistence, `OutputLog`, `native_control` and the PTY reactor: only their contracts appear, as parameters.
- Publishing without a reservation, test helpers, and recovered Registries already above their limits: they bypass admission.
- Deadlines, panic hooks, thread spawning and allocator over-allocation: growth is exact and may fail.
- Tokens of the creation stripes and the request comparison in `resolve_creation_info` and `observe_creation`: only easy members.
- The validation of a terminal checkpoint's fence and geometry tail before the seed transfer: one-branch checks.
- `persistent_candidates`: its lookups are covered by the index invariant; that a candidate has a key holds because only keyed Runs are published in persistent mode.
- `Run::release_closed_resources`: appears as permits that may be released at any time.
- The counters that settle one diagnostic record move in one step, and the losses a notice reports are read in one step; the released reservation is a step of its own.
- The JSON size of replay output frames.
- The gap that a finished Run's attachment may get before its terminal event (`finish_terminal_snapshot`): only easy members.
- The unbounded wait inside a Stop flight, and its grace period: an answer may come at any moment after settlement.
- `GaugeGuard`, the snapshot frame writer and the inherited sink descriptor of the statistics module.
- StopAnswers.RetriesAgreeIff: cells are compared by identity, as the shared `Arc` is, and Run ids are never used twice.
- StopHandoffs.OrdinaryHandoffRestores: the sizes of the Stop owners are those of one build; a successor built differently has another policy value.
- Paging.ListAll: RunIds are unbounded numbers, so it shows that every page advances rather than a bound of 2^128 pages.
- EventInboxes.EventInbox.Next: one consumer at a time, as the source demands; waiting is a returned value.
- Journals.Journal.Send: called after `Prepare` by the one sender; other receivers act in between.
- The update in place of lock-protected state is modelled as replacing one state value, as each lock section does; aliasing of the Runs themselves is their pins.
