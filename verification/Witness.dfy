/**
 Concrete runs in which a promise fails. In all of them a turn is armed and its
 session marked uncertain. Retired by its owner before the delivery was parked,
 the session strands the attempt, and recovery of the inbox conflicts from the
 lease's expiry on; retired after the delivery was parked, it leaves a block that
 no operator can resolve. And a turn whose drain fails is parked under its grants.
 */
module Witness {
  import opened Wrappers
  import opened Tables
  import opened Protocol
  import opened Ordering
  import opened DeliveryInvariant
  import opened Recovery
  import opened Evolution
  import opened Runs
  import I = Invocations
  import K = Kernel
  import B = SessionBindings
  import L = Leasing
  import T = Totality
  import D = Settlements
  import P = ProtocolInvariant
  import E = EventFold
  import C = EvidenceChain
  import Ct = Controller

  const WORKER: Id := 0
  const SENDER: Id := 1
  const ROOM: Id := 7
  const INPUT := DeliveryKey(1, WORKER)
  const HANDLE := Handle(0, 1, 1)
  const CONFIG := Configuration(0, 0, 0, [])
  const CLAIM := I.ClaimInput(1, 10, None)

  /** The store once a message is waiting and a session is ready. */
  const KNOWN: Tables := EMPTY.(
    agents := {WORKER, SENDER},
    channels := map[ROOM := Channel(false, map[WORKER := Inbox, SENDER := StreamOnly])],
    generations := map[9 := PluginGeneration(WORKER, true)])

  const TASK := Message(ROOM, SENDER, None, Some(WORKER), "task", "{}", None, None)

  const LANE := Lane(WORKER, 5, 6)

  const POSTED: Tables := KNOWN.(
    messages := map[1 := TASK], deliveries := map[INPUT := Delivery(Pending, 0, 0, None, None)], nextSeq := 2)

  const NEWBORN := Binding(LANE, 1, 3, CONFIG, None, Opening, None, None, None, None)

  const OPENING: Tables := POSTED.(nextId := 1, bindings := POSTED.bindings[BindingKey(0, 1) := NEWBORN])

  const IDLE := NEWBORN.(state := Ready, sessionRef := Some(77))

  const PREPARED: Tables := OPENING.(bindings := OPENING.bindings[BindingKey(0, 1) := IDLE])

  lemma MessagePosts()
    ensures Attempt(KNOWN, Post(TASK, 0)) == Ok(POSTED)
  {
    assert !Blank("task") by {
      assert "task"[0] == 't';
    }
    assert K.Recipients(KNOWN.channels[ROOM], TASK) == {WORKER};
    assert K.Snapshot(1, {WORKER}, 0) == map[INPUT := Delivery(Pending, 0, 0, None, None)];
    assert KNOWN.messages[1 := TASK] == POSTED.messages;
    assert KNOWN.deliveries + K.Snapshot(1, {WORKER}, 0) == POSTED.deliveries;
  }

  lemma LaneOpens()
    ensures Attempt(POSTED, Acquire(B.AcquireInput(LANE, 3, CONFIG))) == Ok(OPENING)
  {
    assert B.CurrentRows(POSTED, LANE) == {} && B.LaneRows(POSTED, LANE) == {};
    assert B.CurrentRows(POSTED.(nextId := 1), LANE) == {};
  }

  lemma SessionOpens()
    ensures Attempt(OPENING, Opened(WORKER, HANDLE, 77)) == Ok(PREPARED)
  {
    assert HANDLE.Key() == BindingKey(0, 1);
  }

  // ---- reservation of the one waiting message -----------------------------------------------------------

  const LEASED: Tables := PREPARED.(nextId := 2, deliveries := map[INPUT := Delivery(Leased(1, 10), 1, 0, None, None)])

  const ATTEMPT := Invocation(INPUT, 1, 1, 10, 3, Reserved, 0)

  const RESERVED: Tables := LEASED.(nextId := 4, invocations := LEASED.invocations[2 := ATTEMPT])

  lemma OldestOfOne()
    ensures K.Oldest({INPUT}, 1) == {INPUT}
  {
    L.OldestIsPrefix({INPUT}, 1);
    var oldest := K.Oldest({INPUT}, 1);
    assert |oldest| == 1;
    var x :| x in oldest;
    assert x == INPUT;
    assert oldest == {INPUT};
  }

  lemma LeasesOne()
    ensures K.LeaseClaimable(PREPARED.(nextId := 2), WORKER, 1, 10, 0, 1, None) == LEASED
  {
    var issued := PREPARED.(nextId := 2);
    assert K.ClaimableKeys(issued, WORKER, 0, None) == {INPUT};
    OldestOfOne();
    assert K.LeaseRows(issued, {INPUT}, 1, 10).deliveries == LEASED.deliveries;
  }

  lemma Leases()
    ensures I.RecoverThenLease(PREPARED, WORKER, CLAIM, 0) == Ok(LEASED)
  {
    NothingToRecover(PREPARED.(nextId := 2), WORKER, 0);
    LeasesOne();
  }

  lemma Reserves()
    ensures I.ReserveLeased(Ok(LEASED), WORKER, 1, 10, 0) == Ok(RESERVED)
  {
    assert K.LeasedSeqs(LEASED, WORKER, 1) == {1};
    var rows := Ascending({1});
    ListedAreRows(rows, {1}, Unkeyed({1}));
    assert |rows| == 1 && rows[0] in rows;
    assert rows == [1];
    assert DeliveryKey(1, WORKER) == INPUT;
    assert I.ReserveRow(LEASED, INPUT, 1, 10, 0) == Ok(RESERVED);
    assert [1][1..] == [];
    assert I.ReserveRows(RESERVED, WORKER, [], 1, 10, 0) == Ok(RESERVED);
    assert I.ReserveRows(LEASED, WORKER, [1], 1, 10, 0) == Ok(RESERVED);
  }

  lemma ReservesWaiting()
    ensures Attempt(PREPARED, Reserve(WORKER, CLAIM, 0)) == Ok(RESERVED)
  {
    Leases();
    Reserves();
  }

  // ---- arming, uncertainty and early retirement -------------------------------------------------------------

  const BUSY := IDLE.(state := Active, active := Some(2))

  function Doubtful(reason: Text): Binding {
    BUSY.(state := Uncertain, uncertainReason := Some(reason))
  }

  const FENCED: Tables := RESERVED.(invocations := RESERVED.invocations[2 := ATTEMPT.(state := Armed(1))])

  const ARMED: Tables := FENCED.(
    turns := FENCED.turns[2 := Turn(BindingKey(0, 1), 1, TurnActive)],
    bindings := FENCED.bindings[BindingKey(0, 1) := BUSY], observed := FENCED.observed + {2})

  function Marked(reason: Text): Tables {
    ARMED.(turns := ARMED.turns[2 := Turn(BindingKey(0, 1), 1, TurnUncertain(reason))],
           bindings := ARMED.bindings[BindingKey(0, 1) := Doubtful(reason)])
  }

  const MARKED: Tables := Marked("lost")

  const STRANDED: Tables := MARKED.(bindings := MARKED.bindings[BindingKey(0, 1) := B.RetireRow(Doubtful("lost"), "gone")])

  lemma Fences()
    ensures I.ArmInvocation(RESERVED, WORKER, 2, I.ArmInput(1, 3), 1) == Ok(FENCED)
  {
  }

  lemma Binds()
    ensures B.ActivateTurn(FENCED, WORKER, 2, HANDLE) == Ok(ARMED.(observed := FENCED.observed))
  {
    assert HANDLE.Key() == BindingKey(0, 1);
  }

  lemma ArmsRows()
    ensures B.ArmSessionInvocation(RESERVED, WORKER, 2, HANDLE, 77, 9, I.ArmInput(1, 3), 1) == Ok(ARMED)
  {
    assert HANDLE.Key() == BindingKey(0, 1);
    Fences();
    Binds();
  }

  lemma Arms()
    ensures Attempt(RESERVED, ArmSession(WORKER, 2, HANDLE, 77, 9, I.ArmInput(1, 3), 1)) == Ok(ARMED)
  {
    ArmsRows();
  }

  lemma MarksFor(reason: Text)
    requires Bounded(reason, B.MAX_REASON_BYTES)
    ensures B.MarkSessionUncertain(ARMED, WORKER, 2, HANDLE, reason) == Ok(Marked(reason))
  {
    assert HANDLE.Key() == BindingKey(0, 1);
  }

  lemma ShortTexts()
    ensures Bounded("lost", B.MAX_REASON_BYTES) && Bounded("gone", B.MAX_REASON_BYTES)
  {
    assert "lost"[0] == 'l' && "gone"[0] == 'g';
  }

  lemma Marks()
    ensures Attempt(ARMED, MarkUncertain(WORKER, 2, HANDLE, "lost")) == Ok(MARKED)
  {
    ShortTexts();
    MarksFor("lost");
  }

  /** An uncertain session may be retired, whatever became of its attempt. */
  lemma RetiresRow(t: Tables, b: Binding)
    requires BindingKey(0, 1) in t.bindings && t.bindings[BindingKey(0, 1)] == b
    requires b.lane == LANE && b.epoch == 1 && b.state.Uncertain?
    ensures B.RetireSessionBinding(t, WORKER, HANDLE, "gone")
            == Ok(t.(bindings := t.bindings[BindingKey(0, 1) := B.RetireRow(b, "gone")]))
  {
    assert HANDLE.Key() == BindingKey(0, 1);
    ShortTexts();
  }

  lemma Retires()
    ensures Attempt(MARKED, Retire(WORKER, HANDLE, "gone")) == Ok(STRANDED)
  {
    RetiresRow(MARKED, Doubtful("lost"));
  }

  // ---- parking, then retirement -----------------------------------------------------------------------------

  function Parked(reason: Text, now: Time): Tables {
    var t := Marked(reason);
    t.(deliveries := t.deliveries[INPUT := t.deliveries[INPUT].(
                       state := DeliveryState.Blocked, lastError := Some(reason), lastSettled := Some((1, SettledBlocked)))],
       blocks := t.blocks[1 := Block.Block(INPUT, 1, 1, reason, None)], nextBlock := 2,
       invocations := t.invocations[2 := I.End(t.invocations[2], now, OutcomeUnknown, BlockedBy)])
  }

  /** The attempt fencing the lease is the one that blocking ends. */
  lemma EndsAttempt(t: Tables, reason: Text, now: Time)
    requires t.invocations == Marked(reason).invocations
    ensures I.EndAttempts(t, INPUT, 1, OutcomeUnknown, BlockedBy, now)
            == t.(invocations := t.invocations[2 := I.End(t.invocations[2], now, OutcomeUnknown, BlockedBy)])
  {
    var u := I.EndAttempts(t, INPUT, 1, OutcomeUnknown, BlockedBy, now);
    var v := t.(invocations := t.invocations[2 := I.End(t.invocations[2], now, OutcomeUnknown, BlockedBy)]);
    assert u.invocations == v.invocations;
  }

  lemma Parks(reason: Text, now: Time)
    requires Bounded(reason, K.MAX_ERROR_LENGTH) && now < 10
    ensures D.BlockDelivery(Marked(reason), INPUT, D.BlockInput(1, reason), now) == Ok((Parked(reason, now), 1, true))
  {
    var t := Marked(reason);
    var parked := K.Park(t, INPUT, 1, reason);
    assert K.BlocksUnder(parked, INPUT, 1) == {};
    var evidenced := K.RecordBlock(parked, INPUT, 1, 1, reason).value;
    EndsAttempt(evidenced, reason, now);
  }

  const PARKED: Tables := Parked("lost", 2)

  const CLOSED: Tables := PARKED.(bindings := PARKED.bindings[BindingKey(0, 1) := B.RetireRow(Doubtful("lost"), "gone")])

  lemma Blocks()
    ensures Attempt(MARKED, Action.Block(INPUT, D.BlockInput(1, "lost"), 2)) == Ok(PARKED)
  {
    ShortTexts();
    Parks("lost", 2);
  }

  lemma Closes()
    ensures Attempt(PARKED, Retire(WORKER, HANDLE, "gone")) == Ok(CLOSED)
  {
    RetiresRow(PARKED, Doubtful("lost"));
  }

  // ---- the run -------------------------------------------------------------------------------------------

  ghost predicate Reaches(t: Tables) {
    exists calls: seq<Action> :: Steps(EMPTY, calls) == t
  }

  lemma {:induction false} StepsAppend(t: Tables, calls: seq<Action>, a: Action)
    ensures Steps(t, calls + [a]) == Step(Steps(t, calls), a)
    decreases |calls|
  {
    FirstOfSteps(t, calls + [a]);
    if calls == [] {
      assert ([] + [a])[1..] == [];
      NoSteps(t);
      NoSteps(Step(t, a));
    } else {
      FirstOfSteps(t, calls);
      assert (calls + [a])[1..] == calls[1..] + [a];
      StepsAppend(Step(t, calls[0]), calls[1..], a);
    }
  }

  lemma ReachesNext(t: Tables, a: Action, u: Tables)
    requires Reaches(t) && Attempt(t, a) == Ok(u)
    ensures Reaches(u)
  {
    var calls: seq<Action> :| Steps(EMPTY, calls) == t;
    StepsAppend(EMPTY, calls, a);
  }

  lemma ReachesReserved()
    ensures Reaches(RESERVED)
  {
    NoSteps(EMPTY);
    ReachesNext(EMPTY, Environment(KNOWN.agents, KNOWN.channels, KNOWN.generations), KNOWN);
    MessagePosts();
    ReachesNext(KNOWN, Post(TASK, 0), POSTED);
    LaneOpens();
    ReachesNext(POSTED, Acquire(B.AcquireInput(LANE, 3, CONFIG)), OPENING);
    SessionOpens();
    ReachesNext(OPENING, Opened(WORKER, HANDLE, 77), PREPARED);
    ReservesWaiting();
    ReachesNext(PREPARED, Reserve(WORKER, CLAIM, 0), RESERVED);
  }

  lemma ReachesStranded()
    ensures Reaches(STRANDED)
  {
    ReachesReserved();
    Arms();
    ReachesNext(RESERVED, ArmSession(WORKER, 2, HANDLE, 77, 9, I.ArmInput(1, 3), 1), ARMED);
    Marks();
    ReachesNext(ARMED, MarkUncertain(WORKER, 2, HANDLE, "lost"), MARKED);
    Retires();
    ReachesNext(MARKED, Retire(WORKER, HANDLE, "gone"), STRANDED);
  }

  lemma ReachedInv(t: Tables)
    requires Reaches(t)
    ensures Inv(t)
  {
    var calls: seq<Action> :| Steps(EMPTY, calls) == t;
    P.EmptyStore();
    StepsKeep(EMPTY, calls);
  }

  /** Recovery is not total over all runs: this reachable store refuses it from the lease's expiry on. */
  lemma RecoveryCanConflict()
    ensures Reaches(STRANDED) && I.Recover(STRANDED, WORKER, 10).Err?
  {
    ReachesStranded();
    ReachedInv(STRANDED);
    T.StrandedFails(STRANDED, 2, 10);
  }

  // ---- a block that cannot be resolved ------------------------------------------------------------------------

  lemma ReachesClosed()
    ensures Reaches(CLOSED)
  {
    ReachesReserved();
    Arms();
    ReachesNext(RESERVED, ArmSession(WORKER, 2, HANDLE, 77, 9, I.ArmInput(1, 3), 1), ARMED);
    Marks();
    ReachesNext(ARMED, MarkUncertain(WORKER, 2, HANDLE, "lost"), MARKED);
    Blocks();
    ReachesNext(MARKED, Action.Block(INPUT, D.BlockInput(1, "lost"), 2), PARKED);
    Closes();
    ReachesNext(PARKED, Retire(WORKER, HANDLE, "gone"), CLOSED);
  }

  lemma RetiredByHand(how: Resolution)
    ensures 1 in CLOSED.blocks && T.RetiredElsewhere(CLOSED, 1, how, 2)
  {
    assert 2 in B.BlockedTurns(CLOSED, 1);
    assert |B.OperatorReason(1, how)| > |"gone"|;
  }

  /** Not every open block can be resolved: this reachable store refuses both decisions on its one open block. */
  lemma ResolutionCanConflict(how: Resolution, now: Time)
    requires 0 <= now <= I64_MAX
    ensures Reaches(CLOSED) && 1 in CLOSED.blocks && CLOSED.blocks[1].resolved.None?
    ensures D.ResolveDeliveryBlock(CLOSED, 1, K.ResolveInput(how, None, 0), now).Err?
  {
    ReachesClosed();
    ReachedInv(CLOSED);
    RetiredByHand(how);
    T.ResolutionExactly(CLOSED, 1, K.ResolveInput(how, None, 0), now);
  }

  // ---- a turn parked under its grants ---------------------------------------------------------------------------

  const TURN := Ct.ManagedTurn(WORKER, 2, ATTEMPT, SENDER, 9, HANDLE, 77, false, 1, "result", "{}")

  /** The grant activates, the turn starts, and then the harness fails. */
  const FAILING := Ct.World(true, [true], true, Ct.Feed([], true), Ct.WallDeadline, true, Ct.Feed([], false), "lost",
                            (n: nat) => n + 1, [])

  lemma FailingTurnIsValid()
    ensures Ct.ValidTurn(TURN) && Ct.AllActivated(TURN, FAILING) && Ct.CallsAt(FAILING, 0) == []
  {
    assert !Blank("result") by {
      assert "result"[0] == 'r';
    }
  }

  lemma FailingTurnArms()
    ensures Ct.ArmedFrom(RESERVED, TURN, FAILING) == Ok(ARMED) && Ct.Starts(RESERVED, TURN, FAILING)
  {
    FailingTurnIsValid();
    NoSteps(RESERVED);
    ArmsRows();
  }

  const LOST := "turn evidence failed: " + "lost"

  lemma LostIsShort()
    ensures Bounded(LOST, B.MAX_REASON_BYTES) && Ct.BoundedText(LOST) == LOST
  {
    assert LOST[0] == 't';
    Ct.BoundedIsUnique(LOST, LOST, Ct.BoundedText(LOST));
  }

  lemma FailingTurnParks(sha: C.Codes -> Text)
    ensures Ct.PlanOf(sha, TURN, FAILING) == Ct.ParkFor(LOST)
    ensures Ct.Carried(ARMED, TURN, Ct.ParkFor(LOST), FAILING) == (Parked(LOST, 3), Ct.Outcome.Blocked(1, LOST))
  {
    LostIsShort();
    MarksFor(LOST);
    Parks(LOST, 3);
    NoSteps(ARMED);
    NoSteps(Marked(LOST));
  }

  /** Grants are not always revoked before settlement: every run of this turn in this world parks under its grant. */
  lemma ParksUnderGrants(sha: C.Codes -> Text, u: Tables, outcome: Ct.Outcome, row: Option<E.Row>, settledUnder: set<nat>)
    requires Ct.Ran(sha, RESERVED, TURN, FAILING, u, outcome, row, settledUnder)
    ensures Reaches(RESERVED) && outcome == Ct.Outcome.Blocked(1, LOST) && settledUnder != {}
  {
    ReachesReserved();
    FailingTurnArms();
    FailingTurnParks(sha);
    Ct.EndIsPlanned(sha, ARMED, TURN, FAILING, u, outcome);
  }
}
