# fleetd: the dispatch fence and session ownership, modelled and proved

fleetd hands messages to agents and promises that a delivery is provably
unstarted and safe to retry, known, or parked for a person and never repeated
on its own. No single function establishes that. It follows from four coupled
tables (deliveries, invocations, session bindings, session turns) and from the
transactions that change them, which workers, the reaper, operators and
replacement owners interleave in any order and with any clock reading.

This project models those tables and transactions, proves what every
transaction keeps, and proves the promise over every finite run. Around that
core it models the managed turn controller, the evidence fold and its hash
chain, evidence paging, the invocation-scoped message grant, the seat
supervisor, and the TypeScript client's stream and conversation lane.

`dafny verify dfyconfig.toml` checks everything.

## How it is built

- `Tables`, `Kernel`, `SessionTurns`, `Invocations`, `SessionBindings` and
  `Settlements` define the rows and each transaction as a function from tables
  to new tables or an error. An error means rollback.
- `Store` is the object that callers use: one mutable database field, one method
  per public call, each writing statement by statement and proved equal to the
  transaction function. Every method keeps the joint invariant `Recovery.Inv`.
- `Protocol` makes every call an action of one transition system; `Runs` is the
  set of its finite executions from the empty store.
- `DeliveryInvariant`, `SessionInvariant`, `Recovery`, `Leasing` and
  `ProtocolInvariant` prove the joint invariant; `Evolution` proves what no
  transaction ever takes back.
- `Runs`, `Verdicts`, `Ownership`, `Totality`, `Replay` and `Witness` hold the
  results about whole runs.
- `DeliveryAnswers`, `SessionAnswers`, `RecoveryAnswers` and `TurnAnswers` say of
  every call, from the rows before it and without naming its guards, exactly when it
  succeeds, how it is refused otherwise, and everything it writes. The invariant is
  what makes these conditions short: most guards of a transaction cannot fire.
- `Controller`, `Json`, `Evidence`, `EventFold`, `Paging`, `MessageGrant`,
  `Supervisor`, `StreamAcceptance`, `ChannelStream` and `ConversationLane` are
  the components around the core.

## Modelling decisions

- Identifiers, tokens, digests of configurations and session references are
  compared only for equality, so they are natural numbers. Fresh UUIDs come from
  a counter. A message is addressed by its durable sequence, which is in
  one-to-one correspondence with its public UUID.
- Text is the sequence of its UTF-8 code units; blankness looks at ASCII white
  space.
- Every call takes its clock reading as an argument; a controller turn and a
  supervisor pass take a separate reading for each place that reads the clock. No
  theorem assumes that readings rise, except where a statement says "later".
- Agents, channels, memberships and plugin generations belong to other parts of
  fleetd; the `Environment` action replaces them arbitrarily at any time. The
  list of inboxes a reaper pass works on is read before its transaction, so it
  is an arbitrary argument.
- A settlement that moves no row is answered from a read after the rollback;
  since that read changes nothing it is part of the same step here.
- In the controller, harness notifications, timers, interruptions and the calls
  of other parties between its transactions are one arbitrary argument, so its
  contract speaks about all of them.
- SHA-256 is an arbitrary function that prints 64 digits. Collision freedom is
  not assumed: the chain theorem says that different histories with one chain
  digest exhibit a collision.

## What turned out to be false, and exactly when it holds

- Recovery is not total. Retiring a session that is uncertain for a still armed
  attempt makes every later recovery of that inbox conflict once the lease has
  expired (`Witness.RecoveryCanConflict` reaches such a store).
  `Recovery.RecoveryExactly` states exactly when recovery succeeds,
  `Totality.OnlyEarlyRetirementStrands` that nothing else causes the failure, and
  `Totality.RecoveryTotalInRuns` totality for all other runs.
- "Grants are revoked before settlement" holds for completions. A turn that armed,
  activated its grants and started is settled free of grants exactly when it has no
  grants or its evidence drains to a terminal, at once or after the host cancelled
  it; every other turn is settled free of grants always. That condition,
  `Controller.DrainsToTerminal`, is computed from what the harness sends, and
  `Controller.Ran` (the contract of `Controller.ManagedHarnessController.Run`)
  states both directions. `Witness.ParksUnderGrants` gives a reachable store, a turn
  with one grant and a harness that fails at once: every run of it parks while the
  grant is active.
- Repeating a session arm is refused, although arming by itself is repeatable
  (`Replay.ArmSessionRefusesRepeat`).
- An operator cannot resolve a block whose session was retired by hand;
  `Totality.ResolutionExactly` is the exact condition, and
  `Witness.ResolutionCanConflict` reaches a store that refuses both decisions on its
  one open block.
- A backend dropped as unhealthy normally waits out its back-off, but the clock is
  read again when it is considered for a start: a slow pass may restart it within the
  same pass. `Supervisor.NextBackends` says exactly when.

## Model

| member | source | states |
|---|---|---|
| `Ordering.SortRows` | crates/execution/src/invocation.rs:385-404 | The executable row order equals the one listing of the selected rows by `(reserved_at_ms, id)` |
| `Ordering.ListingUnique` | crates/execution/src/invocation.rs:397-397 | The order decides the listing: two listings of one row set are equal |
| `DeliveryInvariant.WhileHeld` | crates/execution/src/invocation.rs:228-268 | While a lease is held, every other attempt of the delivery is over, none of them known, and every old block of it was requeued |
| `DeliveryInvariant.InsertMessageKeeps` | crates/kernel/src/store/message.rs:325-440 | A new message adds its own delivery rows, leaves all others alone, and keeps the delivery invariant |
| `DeliveryInvariant.LeaseKeeps` | crates/kernel/src/delivery.rs:666-710 | Leasing rows that no open attempt holds, under an unused token, keeps the delivery invariant |
| `DeliveryInvariant.ReserveRowKeeps` | crates/execution/src/invocation.rs:331-377 | Inserting the attempt of a freshly leased row meets the table's unique keys and keeps the invariant |
| `DeliveryInvariant.AcknowledgeKeeps` | crates/kernel/src/delivery.rs:834-862 | Acknowledging a lease together with ending its attempt as known keeps the invariant |
| `DeliveryInvariant.ReleaseKeeps` | crates/execution/src/settlement.rs:121-161 | Releasing a lease is sound because the retry guard excludes an armed attempt |
| `DeliveryInvariant.ParkKeeps` | crates/kernel/src/delivery.rs:906-1008 | Parking never violates the block table's unique key, leaves one unresolved block under the lease, and keeps the invariant |
| `DeliveryInvariant.ResolveKeeps` | crates/kernel/src/delivery.rs:222-263 | An operator decision keeps the invariant: a block is open exactly while its delivery is parked, and abandoning is final |
| `SessionInvariant.AcquireKeeps` | crates/execution/src/session_binding.rs:52-88 | Adoption, rotation and creation keep the session invariant: lanes stay contiguous, superseded generations retired |
| `SessionInvariant.ActivateKeeps` | crates/execution/src/session_binding.rs:866-923 | Binding an armed attempt keeps binding and turn in agreement about state, generation and epoch |
| `SessionInvariant.MarkUncertainKeeps` | crates/execution/src/session_binding.rs:988-1027 | Marking a turn uncertain keeps them in agreement, for the same reason |
| `SessionInvariant.RetireKeeps` | crates/execution/src/session_binding.rs:294-344 | Retiring any generation without an active turn keeps the session invariant |
| `SessionInvariant.RetireForBlockKeeps` | crates/execution/src/session_binding.rs:358-452 | The retirement that an operator's decision causes keeps the session invariant |
| `Recovery.ParkExactly` | crates/execution/src/invocation.rs:509-570 | Parking an expired armed attempt succeeds exactly when its session is not retired, and writes delivery, evidence, verdict and session mark together |
| `Recovery.RecoveryExactly` | crates/execution/src/invocation.rs:379-410 | Recovery succeeds exactly when no expired armed attempt of the inbox is stranded; it keeps the invariant, ends exactly the expired attempts, armed ones as unknown and reserved ones as not started, and counts them |
| `Recovery.NothingExpiredRemains` | crates/execution/src/invocation.rs:379-410 | After recovery at `now` the agent has no open attempt whose lease expired by `now` |
| `Recovery.RecoveryIdempotent` | crates/execution/src/invocation.rs:379-410 | A second recovery at the same `now` changes nothing and reports zero |
| `Leasing.OldestIsPrefix` | crates/kernel/src/delivery.rs:685-702 | The leased rows are eligible, as many as the limit allows, and downward closed in message order |
| `Leasing.LeasedExactly` | crates/kernel/src/delivery.rs:666-710 | The fresh token ends up on exactly the oldest eligible rows, each with its attempt number raised by one; other rows are untouched |
| `Leasing.ClaimTakesOldest` | crates/kernel/src/delivery.rs:685-702 | No row is leased while an older eligible one is not |
| `Leasing.RecoverThenLeaseKeeps` | crates/execution/src/settlement.rs:42-75 | Because recovery and leasing share one transaction and one clock reading, no leased row still has an open attempt, and the invariant holds |
| `Leasing.ReserveKeeps` | crates/execution/src/invocation.rs:68-126 | A reservation succeeds exactly when its claim does (its unique keys never fire) and keeps the invariant |
| `Leasing.ReservationFencesLease` | crates/execution/src/invocation.rs:97-125 | Every row leased by a reservation has exactly one open attempt under the token: new, reserved, with the row's attempt number, the lease's expiry and a fence of its own |
| `ProtocolInvariant.CompletionCases` | crates/execution/src/invocation.rs:270-329 | A successful completion either repeats the kind and payload that are stored and writes nothing, or publishes, acknowledges and ends the attempt now |
| `ProtocolInvariant.CompletedAnswers` | crates/execution/src/invocation.rs:740-755 | The published result goes to the input's sender, on its channel, with its correlation and with the input as causation |
| `ProtocolInvariant.CompleteKeeps` | crates/execution/src/invocation.rs:270-329 | A completion outside a session keeps the joint invariant |
| `ProtocolInvariant.AcknowledgeDeliveryKeeps` | crates/execution/src/settlement.rs:85-110 | Acknowledging a delivery and its attempt keeps the joint invariant |
| `ProtocolInvariant.RetryDeliveryKeeps` | crates/execution/src/settlement.rs:121-161 | Retrying keeps the joint invariant |
| `ProtocolInvariant.BlockDeliveryKeeps` | crates/execution/src/settlement.rs:173-216 | Blocking keeps the joint invariant, also when the session was already marked uncertain |
| `ProtocolInvariant.ResolveDeliveryBlockKeeps` | crates/execution/src/settlement.rs:230-247 | Delivery decision and session retirement together keep the joint invariant |
| `ProtocolInvariant.ArmSessionKeeps` | crates/execution/src/session_binding.rs:156-191 | Fence, turn, binding and observation row together keep the joint invariant |
| `ProtocolInvariant.CompleteSessionCases` | crates/execution/src/session_binding.rs:201-234 | A completion through a session either repeats and writes nothing, or settles the turn of the completion it committed |
| `ProtocolInvariant.CompleteSessionKeeps` | crates/execution/src/session_binding.rs:201-234 | Result, acknowledgement, verdict, turn and binding together keep the joint invariant |
| `ProtocolInvariant.AttemptKeeps` | crates/execution/src/session_binding.rs:508-607 | Every one of the seventeen kinds of call keeps the joint invariant |
| `Evolution.StepEvolves` | crates/execution/src/settlement.rs:85-247 | No step takes back a verdict, a fence, evidence, a message, a settled delivery, an epoch, a retirement or a turn; arming, completing, resolving and retiring are confined to the rows the call names |
| `Evolution.StepsKeep` | crates/execution/src/controller.rs:510-527 | Any number of calls by other parties keeps the invariant and takes nothing back |
| `Runs.Reachable` | crates/execution/src/session_binding.rs:866-1053 | The joint invariant holds before and after every call of every run |
| `Runs.OpenAttemptsHoldLeases` | crates/execution/src/invocation.rs:600-637 | In every run an open attempt holds its delivery's lease with the same token and expiry, and is the delivery's only open attempt |
| `Runs.BindingsAgreeWithTurns` | crates/execution/src/session_binding.rs:508-607 | In every run a binding is active or uncertain exactly when it names an attempt whose turn agrees in state, generation and epoch, armed or, if uncertain, possibly ended unknown |
| `Runs.DispatchOpens` | crates/execution/src/invocation.rs:228-268 | A fence commits only for an open attempt that holds its delivery's live lease, and is on record afterwards |
| `Runs.EarlierWasRequeued` | crates/execution/src/invocation.rs:509-570 | While an attempt is open, every other armed attempt of the delivery ended with a block that an operator requeued |
| `Runs.ResolutionIsOperators` | crates/kernel/src/delivery.rs:222-263 | A block becomes resolved only by an operator's call naming it, with the decision that call carries |
| `Runs.AtMostOnceDispatch` | crates/execution/src/invocation.rs:228-268 | In every run, two attempts of one delivery that both passed the fence are separated by an operator's requeue of a block under the earlier one's lease |
| `Verdicts.CompletionPublishesOrRepeats` | crates/execution/src/session_binding.rs:201-234 | A successful completion appends exactly one message, the answer with the given kind and payload, and acknowledges exactly its input, or it found that kind and payload stored and writes nothing |
| `Verdicts.PublicationIsCompletion` | crates/execution/src/invocation.rs:270-329 | A result appears only through a completion of its own attempt |
| `Verdicts.ExactlyOnceResult` | crates/execution/src/invocation.rs:801-830 | In every run, requeues included, a delivery gets its result from one attempt in one call |
| `Verdicts.OneKnownOutcome` | crates/execution/src/invocation.rs:600-637 | At most one attempt of a delivery ended with a known outcome |
| `Verdicts.VerdictIsSound` | crates/execution/src/invocation.rs:478-637 | An armed attempt never ends as not started; an unknown end has a block under its lease; a known end has an acknowledged delivery |
| `Verdicts.NotStartedNeverDispatched` | crates/execution/src/invocation.rs:478-507 | An attempt that ended as not started was dispatched at no call of the run, earlier or later |
| `Verdicts.ParkedUntilResolved` | crates/execution/src/settlement.rs:163-247 | A parked delivery moves only by an operator's decision on its open block, to pending or dead as decided |
| `Verdicts.ReleasedBetween` | crates/execution/src/settlement.rs:163-247 | If a parked delivery is no longer parked later in a run, an operator released it in between |
| `Verdicts.RetryWaits` | crates/kernel/src/delivery.rs:869-898 | A retried delivery keeps the reported error and becomes claimable exactly when its delay has passed |
| `Verdicts.ResolutionWaits` | crates/kernel/src/delivery.rs:582-634 | A requeued delivery becomes claimable exactly when its delay has passed, an abandoned one never |
| `Verdicts.BlockRecordsAttempt` | crates/kernel/src/delivery.rs:428-460 | A block records the delivery's attempt, lease and reason, and the delivery is claimable at no later time |
| `Verdicts.PostDelivers` | crates/kernel/src/store/message.rs:387-434 | A message is delivered to exactly the inbox members it is for, and is claimable at once |
| `Ownership.StaleIsInert` | crates/execution/src/session_binding.rs:1029-1053 | A call under a superseded or retired handle changes no row and succeeds only as a repeat of a recorded completion or retirement |
| `Ownership.StaleForever` | crates/execution/src/session_binding.rs:1333-1390 | Once stale, a handle stays inert for the rest of the run |
| `Ownership.AcquisitionOwns` | crates/execution/src/session_binding.rs:647-702 | A successful acquisition returns the lane's live handle, owned by the caller under the requested configuration, and tells whether to create a session or which one to resume |
| `Ownership.OthersAreStale` | crates/execution/src/session_binding.rs:780-864 | Beside the live handle, every handle ever issued for the lane is stale |
| `Ownership.ReplacedOwnerIsFenced` | crates/execution/src/session_binding.rs:647-702 | After an acquisition, no other handle of the lane ever changes a row again |
| `Ownership.LaneIsContiguous` | crates/execution/src/session_binding.rs:609-645 | Below any generation of a lane lie all smaller ones down to 1, retired, on the same lane |
| `Ownership.LaneHasOneCurrentRow` | crates/execution/src/session_binding.rs:1109-1141 | One binding id per lane and at most one generation that is not retired |
| `Ownership.OwnershipRises` | crates/execution/src/session_binding.rs:780-864 | Over any stretch of a run the head's (generation, epoch) rises lexicographically, strictly when the owner changed |
| `Ownership.TurnsComeFromArming` | crates/execution/src/session_binding.rs:866-923 | A turn is bound only by a session arm, to the handle presented, on a ready or already active row |
| `Ownership.UncertainNamesTurn` | crates/execution/src/session_binding.rs:988-1027 | An uncertain generation names the turn that made it so |
| `Ownership.UncertainNeverArmsAgain` | crates/execution/src/session_binding.rs:1055-1069 | A generation that was ever uncertain accepts no further arm and gains no further turn |
| `Ownership.SessionArmIsNotRepeatable` | crates/execution/src/operations.rs:695-740 | In a run, a session arm of one attempt succeeds at most once |
| `Totality.OnlyEarlyRetirementStrands` | crates/execution/src/session_binding.rs:308-340 | Only retiring a session that is uncertain for a still armed attempt strands that attempt |
| `Totality.EarlyRetirementStrands` | crates/execution/src/session_binding.rs:308-340 | Such a retirement always strands it |
| `Totality.ReaperIsTotal` | crates/execution/src/invocation.rs:419-451 | Without stranded attempts the reaper succeeds, ends exactly the expired attempts of its inboxes, and reports their number |
| `Totality.RecoveryTotalInRuns` | crates/execution/src/invocation.rs:419-451 | In a run without early retirement the reaper never conflicts, leaves nothing expired, counts exactly, and repeated reports zero |
| `Totality.StrandedBlocksRecovery` | crates/execution/src/session_binding.rs:587-591 | A stranded attempt fails every recovery and every claim of its inbox from its expiry on |
| `Totality.ClaimExactly` | crates/execution/src/settlement.rs:42-75 | A claim succeeds exactly for valid bounds, a known agent and no stranded expired attempt |
| `Totality.ResolutionExactly` | crates/execution/src/session_binding.rs:358-452 | An open block can be resolved exactly when its session was not retired by something other than this decision |
| `Witness.RecoveryCanConflict` | crates/execution/src/session_binding.rs:587-591 | A concrete run of eight calls after which recovery of the inbox conflicts |
| `Witness.ResolutionCanConflict` | crates/execution/src/session_binding.rs:358-452 | A concrete run after which requeue and abandon of the one open block both conflict, at every time |
| `Witness.ParksUnderGrants` | crates/execution/src/controller.rs:255-272 | In a concrete reachable store a turn with one grant and a failing harness always ends parked while the grant is active |
| `Replay.RepeatWritesNothing` | crates/execution/src/settlement.rs:77-172 | Repeating at once, with the same clock reading, a keyed message, an arm, a settlement, a completion, a resolution, an acquisition or another ownership call that succeeded succeeds again with the same tables |
| `Replay.AcquireRepeats` | crates/execution/src/session_binding.rs:47-88 | The owner that acquired a lane acquires it again: same handle, same mode, nothing written |
| `Replay.BlockRepeats` | crates/execution/src/settlement.rs:200-210 | Repeating a block, at any later time, returns the original record |
| `Replay.CompleteSessionRepeats` | crates/execution/src/session_binding.rs:925-947 | Repeating a session completion, at any time, finds the stored result and turn |
| `Replay.ResolveRepeats` | crates/kernel/src/delivery.rs:559-580 | Repeating an operator decision, at any time, writes nothing |
| `Replay.ArmSessionRefusesRepeat` | crates/execution/src/operations.rs:735-737 | Repeating a session arm is refused |
| `DeliveryAnswers.AcknowledgeExactly` | crates/execution/src/settlement.rs:85-110 | A live lease is acknowledged exactly when its attempt does not run on a session, ending it as known; without one exactly the repeat of the last settlement succeeds; every other case has its error |
| `DeliveryAnswers.RetryExactly` | crates/execution/src/settlement.rs:121-161 | A retry is accepted exactly when no attempt under the lease is armed and the lease is live or was settled by this very retry; a reserved attempt then ends as not started, and the row waits for its delay |
| `DeliveryAnswers.BlockExactly` | crates/execution/src/settlement.rs:173-216 | A live lease is blocked exactly when no active turn runs under it, with one new record; without one exactly the reason on record is recognised |
| `DeliveryAnswers.PostExactly` | crates/kernel/src/store/message.rs:274-440 | A free key is appended exactly when its channel takes the message, with exactly its deliveries; a taken key is recognised exactly when its holder says the same in every field, otherwise it is a conflict |
| `DeliveryAnswers.ArmExactly` | crates/execution/src/invocation.rs:228-268 | The fence commits exactly for the holder of token and fence of an attempt that is not over and whose lease lasts, and writes one column |
| `DeliveryAnswers.CompleteExactly` | crates/execution/src/invocation.rs:270-329 | A completed attempt recognises exactly the kind and payload it stored and refuses any other with a conflict; an armed one publishes exactly when its lease is live, its result key free and its channel takes the answer; all rows written |
| `DeliveryAnswers.CompleteNeeds` | crates/execution/src/invocation.rs:270-329 | Success needs a kind, the right token and fence, and a session that does not hold the attempt |
| `DeliveryAnswers.ResolveExactly` | crates/execution/src/settlement.rs:230-247 | A decision is taken exactly when the block is open, or the same decision was taken, and the session was not retired by hand; all rows written |
| `DeliveryAnswers.ClaimableExactly` | crates/kernel/src/delivery.rs:666-710 | The rows a claim may lease are exactly the due ones of the inbox: pending, or under an expired lease |
| `RecoveryAnswers.RecoverExactly` | crates/execution/src/invocation.rs:379-410 | Recovery succeeds exactly when no overdue armed attempt has a retired session; it parks every overdue armed attempt with one record, ends every overdue reservation as not started, changes no other row, and counts both |
| `RecoveryAnswers.ClaimLeases` | crates/execution/src/settlement.rs:42-75 | A claim succeeds exactly within bounds, for a known agent, with nothing stuck; it recovers and then leases the oldest due rows, as many as the limit allows, each as its next attempt |
| `RecoveryAnswers.ClaimAndReserve` | crates/execution/src/invocation.rs:68-126 | The success conditions of the two public claims |
| `SessionAnswers.AcquireExactly` | crates/execution/src/session_binding.rs:609-702 | Another owner adopts a ready session of its configuration under the next epoch and resumes it, and replaces one that is opening or of another configuration by the next generation; the same owner gets what it has; active and uncertain sessions conflict; an empty or retired lane gets its next generation |
| `SessionAnswers.LaneSituations` | crates/execution/src/session_binding.rs:1109-1141 | Every lane has no row, only retired rows, or exactly one row in use |
| `SessionAnswers.OpenedExactly` | crates/execution/src/session_binding.rs:97-145 | The native reference is stored by the exact owner of an opening session, and recognised when it is the stored one |
| `SessionAnswers.ArmSessionExactly` | crates/execution/src/session_binding.rs:156-191 | A session arms an attempt exactly for its owner, its reference, a live plugin generation, an attempt that may pass the fence and a session that is ready; all rows written |
| `SessionAnswers.CompleteSessionExactly` | crates/execution/src/session_binding.rs:201-234 | An active turn under the handle is completed exactly when the attempt is completable; a settled one recognises exactly its result and persistence; an uncertain one is never completed; all rows written |
| `SessionAnswers.MarkExactly` | crates/execution/src/session_binding.rs:243-285 | Exactly the owner marks an active turn, once, and the same mark is recognised until the session is retired |
| `SessionAnswers.RetireExactly` | crates/execution/src/session_binding.rs:294-344 | Exactly the owner retires a session without an active turn, once, for one reason |
| `Stores.Store.ParkExpired` | crates/execution/src/invocation.rs:509-570 | The statement sequence of parking equals its transaction function |
| `Stores.Store.Recover` | crates/execution/src/invocation.rs:379-410 | The recovery loop over rows in reservation order equals its transaction function, count included |
| `Stores.Store.RecoverAll` | crates/execution/src/invocation.rs:419-451 | The reaper's loop is one transaction: all inboxes or none |
| `Stores.Store.Lease` | crates/kernel/src/delivery.rs:666-710 | The leasing update equals its specification |
| `Stores.Store.ClaimDeliveries` | crates/execution/src/settlement.rs:42-75 | Claiming commits its transaction or leaves the tables alone, and keeps the invariant |
| `Stores.Store.ReserveInvocations` | crates/execution/src/invocation.rs:68-126 | Reserving commits its transaction, one attempt per leased row in message order, or leaves the tables alone |
| `Stores.Store.ArmInvocation` | crates/execution/src/invocation.rs:137-161 | Arming commits its transaction and keeps the invariant |
| `Stores.Store.CompleteInvocation` | crates/execution/src/invocation.rs:163-185 | Completion commits its transaction or rolls back after any failed statement |
| `Stores.Store.PostMessage` | crates/kernel/src/store/message.rs:274-319 | Appending commits, recognises a repeat of its key, or leaves the tables alone |
| `Stores.Store.AcknowledgeDelivery` | crates/execution/src/settlement.rs:85-110 | Acknowledging commits delivery and attempt together or rolls back |
| `Stores.Store.RetryDelivery` | crates/execution/src/settlement.rs:121-161 | Retrying commits delivery and attempt together or rolls back |
| `Stores.Store.BlockDelivery` | crates/execution/src/settlement.rs:173-216 | Blocking commits delivery, evidence and attempt together, returns the record, or rolls back |
| `Stores.Store.ResolveDeliveryBlock` | crates/execution/src/settlement.rs:230-247 | The operator decision commits with the session retirement or not at all |
| `Stores.Store.AcquireSessionBinding` | crates/execution/src/session_binding.rs:52-88 | Acquisition commits creation, adoption or rotation, or rolls back |
| `Stores.Store.RecordSessionOpened` | crates/execution/src/session_binding.rs:97-145 | Recording the native reference commits under the exact owner |
| `Stores.Store.ArmSessionInvocation` | crates/execution/src/session_binding.rs:156-191 | Fence, turn and observation row commit together or not at all |
| `Stores.Store.CompleteSessionInvocation` | crates/execution/src/session_binding.rs:201-234 | Result, acknowledgement, verdict and turn commit together or not at all |
| `Stores.Store.MarkSessionUncertain` | crates/execution/src/session_binding.rs:243-285 | The uncertainty mark commits under the exact owner |
| `Stores.Store.RetireSessionBinding` | crates/execution/src/session_binding.rs:294-344 | Retirement commits under the exact owner |
| `Stores.Store.Perform` | crates/execution/src/settlement.rs:42-247 | Every public call of the object is one step of the transition system |
| `Controller.BoundedReason` | crates/execution/src/controller.rs:928-939 | The result is the longest prefix of at most 4096 bytes that ends between characters |
| `Controller.BoundedIsUnique` | crates/execution/src/controller.rs:928-939 | No other text meets that description |
| `Controller.ManagedHarnessController.Drain` | crates/execution/src/controller.rs:806-890 | Result and row are those that the notifications determine from the row before: terminal, failure or still running, for every notification sequence |
| `Controller.DrainedTerminal` | crates/execution/src/controller.rs:806-890 | The terminal that ends a drain is the one on the observation row it leaves |
| `Controller.ManagedHarnessController.RevokeGrants` | crates/execution/src/controller.rs:649-653 | Exactly the first `count` grants are revoked |
| `Controller.ManagedHarnessController.Block` | crates/execution/src/controller.rs:503-531 | Tables and outcome are those of the two parking transactions, each at its own clock reading and with others acting before it; a reported block means that attempt, turn and record agree on one bounded reason |
| `Controller.ManagedHarnessController.AwaitTerminal` | crates/execution/src/controller.rs:286-357 | The turn goes on to settlement exactly when its evidence drains to a terminal, which is then on record; otherwise it is parked for the reason of the failed drain while the grants are still active |
| `Controller.ManagedHarnessController.CancelAndDrain` | crates/execution/src/controller.rs:359-411 | The same after a host stop, with the stop carried along: a terminal needs a cancellation that went through and a second drain that ends in one |
| `Controller.ManagedHarnessController.SettleTerminal` | crates/execution/src/controller.rs:413-480 | Exactly a quiescent terminal whose outcome is not unknown is completed, any other is parked; a completed turn has published its own result kind and payload; tables and outcome are those of that transaction at its own clock reading |
| `Controller.ManagedHarnessController.Run` | crates/execution/src/controller.rs:192-284 | For every harness, every interference and every clock: a known outcome means that the published result has the turn's kind and payload; a started turn whose evidence ends in a terminal is completed only if that is quiescent and not unknown, and parked only if it is not; reasons are bounded, tables and outcome end as the feeds determine, a started turn is settled free of grants exactly when it has none or drains to a terminal, and no grant stays active |
| `Controller.EndIsPlanned` | crates/execution/src/controller.rs:192-284 | An armed turn ends with the tables and the outcome of its plan (settle this terminal, or park for this reason), a failed settlement included, and a reported reason is the bounded form of the planned one |
| `TurnAnswers.TurnArmsExactly` | crates/execution/src/controller.rs:192-284 | A turn arms exactly when session, reference, token, fence, lease and plugin generation are its own in the tables it finds |
| `TurnAnswers.TurnCompletesExactly` | crates/execution/src/controller.rs:443-480 | A safe terminal is completed exactly when the tables let the turn publish its own kind and payload, and then that is what is written |
| `TurnAnswers.TurnParksExactly` | crates/execution/src/controller.rs:503-531 | A turn is parked exactly when its mark and then its block go through in the tables each finds |
| `TurnAnswers.DrainsExactly` | crates/execution/src/controller.rs:806-890 | Evidence drains to a terminal exactly when every notification before it is recorded and the row records it; it is still running exactly when all are recorded and the harness did not fail |
| `Controller.CompletionIsKnown` | crates/execution/src/controller.rs:446-462 | A successful completion leaves the attempt known with the turn's own result, its input acknowledged, the turn quiescent and, if it was made now, the session ready |
| `Controller.BlockMeansUnknown` | crates/execution/src/controller.rs:510-527 | A block record under an armed attempt's lease means the attempt ended unknown and the session is uncertain for it or retired since |
| `Json.SerializedIsPrintable` | crates/execution/src/operations.rs:447-447 | Serialised evidence contains no control character, in particular no NUL (section 7 of RFC 8259) |
| `EvidenceChain.EventInputInjective` | crates/execution/src/operations.rs:1172-1180 | The hashed encoding of an event determines the event |
| `EvidenceChain.ChainInputInjective` | crates/execution/src/operations.rs:1182-1188 | The hashed encoding of a link determines both digests, and genesis is never a digest |
| `EvidenceChain.ChainDeterminesHistory` | crates/execution/src/operations.rs:1172-1188 | Equal chain digests mean equal histories of whatever lengths, unless folding them exhibits a hash collision |
| `EventFold.Observation.RecordEvent` | crates/execution/src/operations.rs:431-514 | Exactly the next valid event of a live row is accepted and folded; an exact repeat of the last one succeeds and, like gaps, conflicts and post-terminal offers, changes nothing |
| `EventFold.Observation.RecordTerminal` | crates/execution/src/operations.rs:523-597 | A terminal is accepted exactly once at the last event, or as an exact repeat |
| `EventFold.Observation.RecordAll` | crates/execution/src/operations.rs:431-597 | After any mix of offers the history has grown by exactly the events that were next when offered, and the row is the one they lead to and describes that history |
| `EventFold.FoldingDescribes` | crates/execution/src/operations.rs:634-693 | Folding one more event into a row that describes a history gives a row that describes the longer history, column by column |
| `EventFold.TerminalRowIsFrozen` | crates/execution/src/operations.rs:470-478 | A terminal row takes nothing from any sequence of offers and never changes |
| `EventFold.HistoryDeterminesRow` | crates/execution/src/operations.rs:634-693 | A history has one row, apart from the terminal summary |
| `EventFold.TallyIsTotal` | crates/execution/src/operations.rs:1203-1217 | The nine class counters add up to the number of events |
| `EventFold.IncrementsOne` | crates/execution/src/operations.rs:1203-1217 | An event advances exactly the counter of its class |
| `EventFold.RowDescribesHistory` | crates/execution/src/operations.rs:634-693 | Count, last sequence and counter total are all n; bytes and chain are those of the history |
| `EventFold.ChainIdentifiesRow` | crates/execution/src/operations.rs:496-511 | Two rows with one chain digest agree in every event column, unless they exhibit a hash collision |
| `Paging.ReadPage` | crates/execution/src/operations.rs:60-69 | A page is refused only for a negative cursor; otherwise it holds the first rows in order that pass the filters beyond the cursor, never more than the clamped limit and fewer only when no further row does |
| `Paging.CursorSplits` | crates/execution/src/operations.rs:98-126 | The cursor of a page's last row leaves exactly the rows not yet read |
| `Paging.ReadAll` | crates/execution/src/operations.rs:339-349 | Following the cursor terminates and reads every matching row exactly once, in order |
| `Paging.ListingIsUnique` | crates/execution/src/operations.rs:610-620 | Every page size reads the same sequence |
| `MessageGrant.MessageBroker.Activate` | crates/execution/src/message_grant.rs:70-95 | One grant at a time, only under a live lease; it fixes invocation, sender, channel, causation and expiry, with a fresh budget and the input's correlation, or the input itself where it has none |
| `MessageGrant.MessageBroker.Deactivate` | crates/execution/src/message_grant.rs:97-107 | Only the exact invocation is revoked |
| `MessageGrant.MessageBroker.Publish` | crates/execution/src/message_grant.rs:151-211 | Succeeds exactly when a grant is active and permits the operation (valid input, live lease, a peer, budget left or operation known) and the store takes the message; a message is created exactly for an unspent operation; the counter is the number of messages created, never above eight, all under the armed identity; failures change nothing |
| `MessageGrant.MessageBroker.Others` | crates/execution/src/message_grant.rs:47-52 | Nothing other parties do to the store disturbs that account |
| `MessageGrant.AppendUnderGrant` | crates/execution/src/message_grant.rs:176-197 | A created message carries the caller's recipient, kind and payload under the armed identity; a known operation creates nothing, which is why it may bypass the budget check |
| `MessageGrant.KeysDiffer` | crates/execution/src/message_grant.rs:171-176 | Operations of an invocation share a key exactly when they share a digest |
| `MessageGrant.OperationsAreSeparate` | crates/execution/src/message_grant.rs:171-197 | Publishing one operation does not spend another that the digest tells apart |
| `MessageGrant.UnspentIsCreated` | crates/execution/src/message_grant.rs:176-197 | A well-formed message of an unspent operation that the channel takes is created |
| `Supervisor.SeatConfigurations.Configure` | crates/execution/src/seat_configuration.rs:63-113 | An exact repeat leaves the revision alone; any change raises it by one |
| `Supervisor.SeatConfigurations.Restart` | crates/execution/src/seat_configuration.rs:122-162 | Only a running seat restarts, by a higher revision |
| `Supervisor.Reconciler.DropUnhealthy` | src/cli/worker_supervisor.rs:221-245 | Exactly the desired unhealthy backends are dropped, exactly the seats that used them are stopped, and each restart is deferred from the time it was dropped |
| `Supervisor.Reconciler.StartMissing` | src/cli/worker_supervisor.rs:247-279 | Exactly the missing desired backends whose back-off is over are tried; those that start are added and lose their deferral, the others are deferred from the time they failed |
| `Supervisor.Reconciler.ReconcileBackends` | src/cli/worker_supervisor.rs:221-279 | Among the desired backends exactly the healthy ones and the startable ones that are due when considered are up afterwards; exactly the seats of dropped backends are gone; with nothing to do it has no effect |
| `Supervisor.Reconciler.ReconcileSeats` | src/cli/worker_supervisor.rs:282-379 | The running seats become exactly the desired ones, at their stored revision and request; it fails exactly when a seat that has to be started has a malformed profile |
| `Supervisor.Reconciler.StopUnused` | src/cli/worker_supervisor.rs:402-418 | Exactly the undesired backends are stopped, and their deferrals forgotten |
| `Supervisor.Reconciler.Reconcile` | src/cli/worker_supervisor.rs:178-208 | A pass succeeds exactly when no seat it has to start is malformed; then seats and backends equal the pure desired state and every seat's backend is up; a pass over a reconciled healthy world has no effect |
| `Supervisor.Supervise` | src/cli/worker_supervisor.rs:150-166 | Under any mix of configuration changes and passes, a seat's revision tells which request it runs, so each pass ends with exactly what is stored; the supervisor gives up only in a pass that leaves out a seat it should start and cannot |
| `StreamAcceptance.Acceptance.Accept` | clients/typescript/src/channel-stream-core.ts:214-227 | Accepted sequences strictly rise, the cursor is the last one, and the maps cover exactly the last 4096 accepted messages |
| `StreamAcceptance.MapsAreInverse` | clients/typescript/src/channel-stream-core.ts:20-32 | The two identity maps are mutual inverses |
| `StreamAcceptance.Acceptance.ClassifyExactly` | clients/typescript/src/channel-stream-core.ts:197-212 | A message conflicts exactly with a retained one that shares its sequence or identity but not both; of the others exactly those above the cursor are new |
| `ChannelStreams.MessageAcceptanceQueue.Offer` | clients/typescript/src/channel-stream-core.ts:76-82 | Pending messages stay within the bound, and a queue that holds messages has a consumer at work |
| `ChannelStreams.MessageAcceptanceQueue.Pump` | clients/typescript/src/channel-stream-core.ts:93-128 | Leading duplicates are dropped; the first message that is none goes to the consumer if it is new and ends the queue if it conflicts, against any server; what is held continues a faithful server's log without a gap |
| `ChannelStreams.MessageAcceptanceQueue.Resolve` | clients/typescript/src/channel-stream-core.ts:110-122 | Only a resolved consumer moves the cursor, to exactly the message in flight |
| `ChannelStreams.IdleAcceptedAll` | clients/typescript/src/channel-stream-core.ts:93-128 | A queue that holds nothing and lost nothing has accepted every message a faithful server sent |
| `ChannelStreams.ChannelStream.Handle` | clients/typescript/src/browser-channel-stream.ts:496-652 | Every callback of either dialect keeps the attempt's invariant; past the handshake a frame with a message is taken in (queued, given to the consumer if new, or the transport given up without room), exactly a consumer's resolution accepts exactly the message in flight, and each failure is the one the callback calls for |
| `ChannelStreams.ChannelStream.Receive` | clients/typescript/src/native-channel-stream.ts:449-498 | What each frame does to a live attempt: before the handshake only the linked ready frame is in order, after it every frame that carries a message is taken in, any other fails the stream |
| `ChannelStreams.ChannelStream.OnClose` | clients/typescript/src/native-channel-stream.ts:512-528 | A close ends the attempt, which is settled exactly when the consumer is not at work; the stream fails with a rejected upgrade exactly for code 1008 on an opened native stream that had not failed yet; a stopped stream drops what it holds |
| `ChannelStreams.ChannelStream.Connect` | clients/typescript/src/browser-channel-stream.ts:176-230 | Each attempt starts live, with an empty queue, at the cursor's position in the log |
| `ChannelStreams.ChannelStream.Attempt` | clients/typescript/src/browser-channel-stream.ts:176-275 | How one attempt ends: a refused grant and a socket that cannot be created fail the stream, a retryable one asks for another attempt, otherwise its own error, a stop, or neither decides |
| `ChannelStreams.Run` | clients/typescript/src/browser-channel-stream.ts:159-275 | At most one attempt more than there are delays; accepted sequences rise against any server; against a faithful one they are a gap-free stretch of its log, a live attempt has been sent one message per next frame from the cursor it started at, and if its consumer is idle it has accepted them all; the ending names its cause |
| `ConversationLane.Lane.AcceptMessage` | clients/typescript/src/conversation-session.ts:387-419 | A message is refused exactly if it is of another channel or shares a sequence or identity with another listed one; the list is strictly sorted, agrees with both maps and holds the admitted messages with the largest sequences, each listed before or this one; the cursor never falls and never moves on a send reply |
| `ConversationLane.Lane.Evict` | clients/typescript/src/conversation-session.ts:421-429 | Eviction drops the smallest sequences until the bound holds and nothing else |

## Left out

- SQL text, row decoding, connection handling and the files SQLite keeps: tables are maps, a transaction is one step.
- Timestamps that nothing reads back (created, updated, opened, resolved, heartbeat) are not stored.
- The kernel's own block resolution entry point, which does not retire sessions; the execution layer's is modelled.
- Listing and reading calls, delivery records, traces, seat state, generation health, census and attention aggregation: reads or small case splits.
- Registering, heartbeating and stopping plugin generations: the environment changes generations arbitrarily.
- `terminal_payload`, `capture_final_assistant_json`, `select_final_assistant_message` and permission decisions: the result payload and each permission outcome are arguments of the turn.
- Trajectory egress: lossy by design and without effect on durable state.
- HTTP, credentials, configuration files, process launch, sandboxing, user interfaces, tools: input and output around the modelled logic.
- MessageGrant.MessageBroker.Publish: does not check the length of a recipient identifier, because identifiers are numbers here.
- EventFold.Observation.RecordEvent: does not model SQLite's conversion of an integer sum beyond 64 bits, because counters are unbounded here.
- ChannelStreams.Run: does not model statuses reported to observers or real delays, because neither takes part in acceptance.
- ConversationLane.Lane.AcceptMessage: does not model lane selection or publication to listeners, because neither changes a lane.
- Supervisor.Reconciler.Reconcile: takes the results of starting and health checks, and the clock readings around them, as inputs; configuration changes take effect between passes, because a pass reads the table once.
