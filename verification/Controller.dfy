/**
 The managed turn: arm, activate grants, dispatch, drain, settle. Other parties
 may call the store between any two of the controller's own transactions; the
 harness may send anything, fail at any point, or never finish.
 */
module Controller {
  import opened Wrappers
  import opened Tables
  import opened Protocol
  import opened DeliveryInvariant
  import opened SessionInvariant
  import opened Recovery
  import opened Evolution
  import I = Invocations
  import K = Kernel
  import B = SessionBindings
  import D = Settlements
  import P = ProtocolInvariant
  import SA = SessionAnswers
  import St = Stores
  import E = EventFold
  import C = EvidenceChain

  // ---- bounded reasons --------------------------------------------------------------------

  const LIMIT := 4_096

  /** Position `end` does not split a character: it is an end or not a continuation byte. */
  predicate CharBoundary(t: Text, end: nat) {
    end == 0 || end == |t| || (end < |t| && !(0x80 <= t[end] as int < 0xC0))
  }

  /** The longest prefix of at most `LIMIT` bytes that ends between characters. */
  ghost predicate IsBounded(t: Text, r: Text) {
    && r <= t && |r| <= LIMIT && CharBoundary(t, |r|)
    && forall n | |r| < n <= LIMIT && n <= |t| :: !CharBoundary(t, n)
  }

  method BoundedReason(reason: Text) returns (r: Text)
    ensures IsBounded(reason, r) && r == BoundedText(reason)
  {
    if |reason| <= LIMIT {
      return reason;
    }
    var end := LIMIT;
    while !CharBoundary(reason, end)
      invariant 0 <= end <= LIMIT
      invariant forall n | end < n <= LIMIT :: !CharBoundary(reason, n)
      decreases end
    {
      end := end - 1;
    }
    r := reason[..end];
    BoundedIsUnique(reason, r, BoundedText(reason));
  }

  /** The bounded form of a reason is unique. */
  lemma BoundedIsUnique(t: Text, r: Text, s: Text)
    requires IsBounded(t, r) && IsBounded(t, s)
    ensures r == s
  {
    assert |r| == |s|;
  }

  lemma {:induction false} BoundedExists(t: Text, end: nat)
    requires end <= LIMIT && end <= |t|
    requires forall n | end < n <= LIMIT && n <= |t| :: !CharBoundary(t, n)
    ensures exists r :: IsBounded(t, r)
    decreases end
  {
    if CharBoundary(t, end) {
      assert IsBounded(t, t[..end]);
    } else {
      BoundedExists(t, end - 1);
    }
  }

  /** The bounded form of a reason. */
  ghost function BoundedText(t: Text): (r: Text)
    ensures IsBounded(t, r)
  {
    BoundedExists(t, if |t| <= LIMIT then |t| else LIMIT);
    var r :| IsBounded(t, r);
    r
  }

  // ---- the turn and the world around it ---------------------------------------------------------

  datatype ManagedTurn = ManagedTurn(
    agent: Id, attempt: Id, invocation: Invocation, sender: Id, generation: Id, handle: Handle, sessionRef: Id,
    promptEmpty: bool, grants: nat, resultKind: Text, payload: Text)

  datatype HostStop = WallDeadline | WorkerShutdown | NewerMessage(message: nat)

  predicate IsInterruption(stop: HostStop) {
    !stop.WallDeadline?
  }

  function CancelReason(stop: HostStop): Text {
    match stop
    case WallDeadline => "wall_deadline"
    case WorkerShutdown => "worker_shutdown"
    case NewerMessage(_) => "newer_message"
  }

  function UnsafeReason(summary: E.TerminalSummary): Text {
    "terminal outcome is not safely settleable: certainty="
    + (match summary.certainty
       case NotStarted => "NotStarted"
       case OutcomeKnown => "OutcomeKnown"
       case OutcomeUnknown => "OutcomeUnknown")
    + ", quiescent=" + (if summary.quiescent then "true" else "false")
  }

  /** What the harness sends; `alive` says whether the plugin generation is still active then. */
  datatype Notification =
    | TurnEvent(event: E.Offer, alive: bool)
    | PermissionRequested(event: E.Offer, alive: bool, resolved: bool)
    | Transcript
    | TurnTerminal(terminal: E.Offer)

  /** A finite stretch of notifications, after which the harness failed or is still running. */
  datatype Feed = Feed(items: seq<Notification>, failed: bool)

  predicate WellTyped(n: Notification) {
    match n
    case TurnEvent(o, _) => o.Event? && o.at <= I64_MAX
    case PermissionRequested(o, _, _) => o.Event? && o.at <= I64_MAX
    case Transcript => true
    case TurnTerminal(o) => o.Terminal?
  }

  predicate WellTypedFeed(f: Feed) {
    forall i | 0 <= i < |f.items| :: WellTyped(f.items[i])
  }

  /** Everything outside the controller during one turn; each of its transactions reads the clock anew. */
  datatype World = World(
    described: bool, activated: seq<bool>, started: bool, first: Feed, stop: HostStop, cancelled: bool, second: Feed,
    failure: Text, clock: nat -> Time, others: seq<seq<Action>>)

  datatype Outcome =
    | Completed(created: bool)
    | Interrupted(stop: HostStop, created: bool)
    | Blocked(record: nat, reason: Text)
    | Failed(error: FleetError)
    | Rejected

  datatype DrainResult = DrainTerminal(summary: E.TerminalSummary) | DrainFailed | StillRunning

  datatype TerminalDrain =
    | Evidence(summary: E.TerminalSummary, stop: Option<HostStop>)
    | Parked(outcome: Outcome)

  predicate ValidTurn(turn: ManagedTurn) {
    turn.invocation.state.Reserved? && turn.agent != turn.sender && !Blank(turn.resultKind) && !turn.promptEmpty
  }

  // ---- what a turn does, as a function of the world --------------------------------------------------

  /** The calls other parties make before the controller's `n`-th transaction. */
  function CallsAt(world: World, n: nat): seq<Action> {
    if n < |world.others| then world.others[n] else []
  }

  predicate AllActivated(turn: ManagedTurn, world: World) {
    turn.grants <= |world.activated| && forall g | 0 <= g < turn.grants :: world.activated[g]
  }

  /** What one notification does: the row it leaves, and whether it ends the drain. */
  function Notified(sha: C.Codes -> Text, r: E.Row, n: Notification): (E.Row, Option<DrainResult>) {
    match n
    case TurnEvent(event, alive) =>
      (E.RowAfter(sha, r, alive, event), if E.Offered(sha, r, alive, event).Ok? then None else Some(DrainFailed))
    case PermissionRequested(event, alive, resolved) =>
      (E.RowAfter(sha, r, alive, event),
       if E.Offered(sha, r, alive, event).Ok? && resolved then None else Some(DrainFailed))
    case Transcript => (r, Some(DrainFailed))
    case TurnTerminal(terminal) =>
      (E.RowAfter(sha, r, true, terminal),
       Some(if terminal.Terminal? && E.Offered(sha, r, true, terminal).Ok? then DrainTerminal(terminal.summary)
            else DrainFailed))
  }

  /** How draining a feed ends. */
  function DrainOf(sha: C.Codes -> Text, r: E.Row, feed: Feed): DrainResult
    decreases |feed.items|
  {
    if feed.items == [] then (if feed.failed then DrainFailed else StillRunning)
    else
      var (next, ended) := Notified(sha, r, feed.items[0]);
      if ended.Some? then ended.value else DrainOf(sha, next, feed.(items := feed.items[1..]))
  }

  /** The row that draining a feed leaves. */
  function DrainedRow(sha: C.Codes -> Text, r: E.Row, feed: Feed): E.Row
    decreases |feed.items|
  {
    if feed.items == [] then r
    else
      var (next, ended) := Notified(sha, r, feed.items[0]);
      if ended.Some? then next else DrainedRow(sha, next, feed.(items := feed.items[1..]))
  }

  /** The evidence of a turn ends in a terminal, at once or after the host stopped the turn. */
  predicate DrainsToTerminal(sha: C.Codes -> Text, r: E.Row, world: World) {
    || DrainOf(sha, r, world.first).DrainTerminal?
    || (&& DrainOf(sha, r, world.first).StillRunning? && world.cancelled
        && DrainOf(sha, DrainedRow(sha, r, world.first), world.second).DrainTerminal?)
  }

  /** The terminal of such a turn. */
  function TerminalOf(sha: C.Codes -> Text, r: E.Row, world: World): E.TerminalSummary
    requires DrainsToTerminal(sha, r, world)
  {
    var first := DrainOf(sha, r, world.first);
    if first.DrainTerminal? then first.summary
    else DrainOf(sha, DrainedRow(sha, r, world.first), world.second).summary
  }

  /** The host stopped the turn before its terminal arrived. */
  predicate StoppedBefore(sha: C.Codes -> Text, r: E.Row, world: World) {
    DrainOf(sha, r, world.first).StillRunning?
  }

  /** Why a turn without a terminal is parked. */
  function DrainReason(sha: C.Codes -> Text, r: E.Row, world: World): Text {
    if !StoppedBefore(sha, r, world) then "turn evidence failed: " + world.failure
    else if !world.cancelled then "host " + CancelReason(world.stop) + " cancellation failed: " + world.failure
    else if DrainOf(sha, DrainedRow(sha, r, world.first), world.second).StillRunning? then "cancel drain deadline exceeded"
    else "cancel drain failed: " + world.failure
  }

  /** The two transactions of parking, with the calls of other parties before each. */
  ghost function Parking(t: Tables, turn: ManagedTurn, reason: Text, world: World, n: nat): (Tables, Outcome) {
    var seen := Steps(t, CallsAt(world, n));
    var marked := B.MarkSessionUncertain(seen, turn.agent, turn.attempt, turn.handle, reason);
    if marked.Err? then (seen, Failed(marked.error)) else ParkingMarked(marked.value, turn, reason, world, n + 1)
  }

  ghost function ParkingMarked(t: Tables, turn: ManagedTurn, reason: Text, world: World, n: nat): (Tables, Outcome) {
    var seen := Steps(t, CallsAt(world, n));
    ParkedOr(D.BlockDelivery(seen, turn.invocation.key, D.BlockInput(turn.invocation.token, reason), world.clock(n)), seen,
             reason)
  }

  function ParkedOr(parked: Result<(Tables, nat, bool)>, seen: Tables, reason: Text): (Tables, Outcome) {
    if parked.Err? then (seen, Failed(parked.error)) else (parked.value.0, Outcome.Blocked(parked.value.1, reason))
  }

  function Completion(turn: ManagedTurn): I.CompleteInput {
    I.CompleteInput(turn.invocation.token, turn.invocation.fence, turn.resultKind, turn.payload)
  }

  predicate Settleable(summary: E.TerminalSummary) {
    summary.quiescent && !summary.certainty.OutcomeUnknown?
  }

  /**
   A quiescent terminal whose outcome is not unknown is completed, never parked; any
   other is parked, never completed; a turn the host stopped short of its deadline is
   reported as interrupted.
   */
  predicate SettledSafely(summary: E.TerminalSummary, stop: Option<HostStop>, outcome: Outcome) {
    && (if summary.quiescent && (summary.certainty.OutcomeKnown? || summary.certainty.NotStarted?)
        then outcome.Completed? || outcome.Interrupted? || outcome.Failed?
        else outcome.Blocked? || outcome.Failed?)
    && (outcome.Completed? ==> stop.None? || stop == Some(WallDeadline))
    && (outcome.Interrupted? ==> stop == Some(outcome.stop) && outcome.stop != WallDeadline)
  }

  /** The transaction of completing, with the calls of other parties before it. */
  ghost function Publishing(t: Tables, turn: ManagedTurn, p: Persistence, stop: Option<HostStop>, world: World)
    : (Tables, Outcome)
  {
    var seen := Steps(t, CallsAt(world, 3));
    CompletedOr(B.CompleteSessionInvocation(seen, turn.agent, turn.attempt, turn.handle, p, Completion(turn), world.clock(3)),
                seen, stop)
  }

  function CompletedOr(completed: Result<(Tables, bool)>, seen: Tables, stop: Option<HostStop>): (Tables, Outcome) {
    if completed.Err? then (seen, Failed(completed.error))
    else (completed.value.0,
          if stop.Some? && IsInterruption(stop.value) then Interrupted(stop.value, completed.value.1)
          else Outcome.Completed(completed.value.1))
  }

  /** Settling a terminal: completion when it is safe, parking otherwise. */
  ghost function Settling(t: Tables, turn: ManagedTurn, summary: E.TerminalSummary, stop: Option<HostStop>, world: World)
    : (Tables, Outcome)
  {
    if Settleable(summary) then Publishing(t, turn, summary.persistence, stop, world)
    else Parking(t, turn, BoundedText(UnsafeReason(summary)), world, 3)
  }

  /** The transaction of arming, on the tables that other parties left. */
  ghost function ArmedFrom(t: Tables, turn: ManagedTurn, world: World): Result<Tables> {
    B.ArmSessionInvocation(Steps(t, CallsAt(world, 0)), turn.agent, turn.attempt, turn.handle, turn.sessionRef,
                           turn.generation, I.ArmInput(turn.invocation.token, turn.invocation.fence), world.clock(0))
  }

  /** The turn arms, activates all its grants, and the harness starts it. */
  ghost predicate Starts(t: Tables, turn: ManagedTurn, world: World) {
    && ValidTurn(turn) && world.described && ArmedFrom(t, turn, world).Ok?
    && AllActivated(turn, world) && world.started
  }

  /** How an armed turn goes on: a terminal to settle, or a reason to park it, at its next transaction. */
  datatype Plan = SettleWith(summary: E.TerminalSummary, stop: Option<HostStop>) | ParkFor(reason: Text)

  function PlanOf(sha: C.Codes -> Text, turn: ManagedTurn, world: World): Plan {
    if !AllActivated(turn, world) then ParkFor("invocation grant activation failed: " + world.failure)
    else if !world.started then ParkFor("turn start failed: " + world.failure)
    else AwaitPlan(sha, E.FRESH_ROW, world)
  }

  function AwaitPlan(sha: C.Codes -> Text, r: E.Row, world: World): Plan {
    if DrainsToTerminal(sha, r, world)
    then SettleWith(TerminalOf(sha, r, world), if StoppedBefore(sha, r, world) then Some(world.stop) else None)
    else ParkFor(DrainReason(sha, r, world))
  }

  /** What an armed turn ends with. */
  ghost function Carried(t: Tables, turn: ManagedTurn, plan: Plan, world: World): (Tables, Outcome) {
    if plan.SettleWith? then Settling(t, turn, plan.summary, plan.stop, world)
    else Parking(t, turn, BoundedText(plan.reason), world, 1)
  }

  /** Why a turn that does not complete is parked. */
  function RawReason(plan: Plan): Text {
    if plan.SettleWith? then UnsafeReason(plan.summary) else plan.reason
  }

  // ---- durable facts behind each outcome -----------------------------------------------------------

  /** The attempt of the turn is on record as armed, bound to the turn's handle. */
  ghost predicate Dispatched(t: Tables, turn: ManagedTurn) {
    && EverArmed(t, turn.attempt)
    && t.invocations[turn.attempt].key == turn.invocation.key && t.invocations[turn.attempt].token == turn.invocation.token
    && turn.attempt in t.turns && t.turns[turn.attempt].binding == turn.handle.Key()
  }

  /** Known: the turn's own result is published, its input acknowledged, its session turn quiescent. */
  ghost predicate EndedKnown(t: Tables, turn: ManagedTurn, persistence: Persistence) {
    && HasResult(t, turn.attempt) && t.invocations[turn.attempt].Ended(OutcomeKnown)
    && P.ResultSays(t, turn.attempt, turn.resultKind, turn.payload)
    && turn.invocation.key in t.deliveries && t.deliveries[turn.invocation.key].state.Acknowledged?
    && turn.attempt in t.turns && t.turns[turn.attempt].state == TurnQuiescent(persistence)
  }

  /** The session that carried the turn is ready for the next one. */
  predicate Freed(t: Tables, turn: ManagedTurn) {
    && turn.handle.Key() in t.bindings
    && var b := t.bindings[turn.handle.Key()];
       b.state.Ready? && b.active.None? && b.lastQuiescent == Some(turn.attempt) && b.epoch == turn.handle.epoch
  }

  /** Unknown: attempt, turn and block record agree on one bounded reason. */
  ghost predicate EndedUnknown(t: Tables, turn: ManagedTurn, record: nat, reason: Text) {
    && turn.attempt in t.invocations && t.invocations[turn.attempt].Ended(OutcomeUnknown)
    && turn.attempt in t.turns && t.turns[turn.attempt].state == TurnUncertain(reason)
    && DeliveryInvariant.Evidence(t, record, turn.invocation.key, turn.invocation.token)
    && t.blocks[record].reason == reason
    && turn.invocation.key in t.deliveries
    && (t.blocks[record].resolved.None? ==> t.deliveries[turn.invocation.key].state.Blocked?)
    && turn.handle.Key() in t.bindings
    && var b := t.bindings[turn.handle.Key()];
       b.state.Retired? || (b.state.Uncertain? && b.active == Some(turn.attempt) && b.uncertainReason == Some(reason))
  }

  lemma DispatchedStays(t: Tables, u: Tables, scope: Scope, turn: ManagedTurn)
    requires Evolves(t, u, scope) && Dispatched(t, turn)
    ensures Dispatched(u, turn)
    ensures !t.turns[turn.attempt].state.TurnActive? ==> u.turns[turn.attempt] == t.turns[turn.attempt]
  {
    assert AttemptKept(t, u, turn.attempt, scope);
  }

  /** What other parties do meanwhile leaves the turn dispatched, and a settled turn as it was. */
  lemma DispatchedLater(t: Tables, u: Tables, turn: ManagedTurn)
    requires Later(t, u) && Dispatched(t, turn)
    ensures Dispatched(u, turn)
    ensures !t.turns[turn.attempt].state.TurnActive? ==> u.turns[turn.attempt] == t.turns[turn.attempt]
  {
    var scope :| Evolves(t, u, scope);
    DispatchedStays(t, u, scope, turn);
  }

  lemma ArmedIsDispatched(t: Tables, turn: ManagedTurn, now: Time)
    requires var inv := turn.invocation;
             B.ArmSessionInvocation(t, turn.agent, turn.attempt, turn.handle, turn.sessionRef, turn.generation,
                                    I.ArmInput(inv.token, inv.fence), now).Ok?
    requires turn.attempt in t.invocations ==> t.invocations[turn.attempt].key == turn.invocation.key
    ensures Dispatched(B.ArmSessionInvocation(t, turn.agent, turn.attempt, turn.handle, turn.sessionRef, turn.generation,
                                              I.ArmInput(turn.invocation.token, turn.invocation.fence), now).value, turn)
  {
  }

  lemma CompletionIsKnown(t: Tables, turn: ManagedTurn, p: Persistence, now: Time)
    requires Inv(t) && Dispatched(t, turn)
    requires B.CompleteSessionInvocation(t, turn.agent, turn.attempt, turn.handle, p, Completion(turn), now).Ok?
    ensures var r := B.CompleteSessionInvocation(t, turn.agent, turn.attempt, turn.handle, p, Completion(turn), now).value;
            EndedKnown(r.0, turn, p) && (r.1 ==> Freed(r.0, turn))
  {
    var input := Completion(turn);
    SA.CompleteSessionExactly(t, turn.agent, turn.attempt, turn.handle, p, input, now);
    assert TurnRow(t, turn.attempt);
    var r := B.CompleteSessionInvocation(t, turn.agent, turn.attempt, turn.handle, p, input, now).value;
    if t.turns[turn.attempt].state.TurnActive? {
      CommitIsKnown(t, r.0, turn, p, now);
    } else {
      assert AttemptRow(t, turn.attempt);
    }
  }

  lemma CommitIsKnown(t: Tables, u: Tables, turn: ManagedTurn, p: Persistence, now: Time)
    requires turn.attempt in t.turns && turn.attempt in t.invocations
    requires SA.CompletedOn(t, u, turn.attempt, turn.handle, p, Completion(turn), now)
    requires t.invocations[turn.attempt].key == turn.invocation.key && t.invocations[turn.attempt].state.Armed?
    requires turn.handle.Key() in t.bindings && t.bindings[turn.handle.Key()].epoch == turn.handle.epoch
    ensures EndedKnown(u, turn, p) && Freed(u, turn)
  {
  }

  lemma MarkIsUncertain(t: Tables, turn: ManagedTurn, reason: Text)
    requires Inv(t) && B.MarkSessionUncertain(t, turn.agent, turn.attempt, turn.handle, reason).Ok?
    ensures var u := B.MarkSessionUncertain(t, turn.agent, turn.attempt, turn.handle, reason).value;
            turn.attempt in u.turns && u.turns[turn.attempt].state == TurnUncertain(reason)
  {
    assert BindingRow(t, turn.handle.Key());
  }

  /** A block record under the lease of an armed attempt means that the attempt ended unknown. */
  lemma BlockMeansUnknown(t: Tables, turn: ManagedTurn, record: nat, reason: Text)
    requires Inv(t) && Dispatched(t, turn) && t.turns[turn.attempt].state == TurnUncertain(reason)
    requires DeliveryInvariant.Evidence(t, record, turn.invocation.key, turn.invocation.token)
    requires t.blocks[record].reason == reason
    ensures EndedUnknown(t, turn, record, reason)
  {
    assert AttemptRow(t, turn.attempt) && BlockRow(t, record);
    assert TurnRow(t, turn.attempt) && BindingRow(t, turn.handle.Key());
  }

  lemma BlockIsRecorded(t: Tables, k: DeliveryKey, token: Id, reason: Text, now: Time)
    requires D.BlockDelivery(t, k, D.BlockInput(token, reason), now).Ok?
    ensures var (u, record, created) := D.BlockDelivery(t, k, D.BlockInput(token, reason), now).value;
            DeliveryInvariant.Evidence(u, record, k, token) && u.blocks[record].reason == reason
  {
  }

  // ---- the controller -------------------------------------------------------------------------------

  class ManagedHarnessController {
    const store: St.Store
    /** The observation row of the turn. */
    const evidence: E.Observation
    /** The grants activated and not yet revoked. */
    var granted: set<nat>
    /** The grants still active when the turn was completed or parked. */
    ghost var settledUnder: set<nat>

    constructor (store: St.Store, evidence: E.Observation)
      ensures this.store == store && this.evidence == evidence && granted == {}
    {
      this.store, this.evidence, granted := store, evidence, {};
    }

    ghost predicate Ready()
      reads this, store, evidence
    {
      store.Valid() && evidence.Valid()
    }

    /** Other parties act on the store. */
    method Others(world: World, n: nat)
      requires store.Valid()
      modifies store
      ensures store.Valid() && store.db == Steps(old(store.db), CallsAt(world, n))
      ensures Later(old(store.db), store.db)
    {
      StepsKeep(store.db, CallsAt(world, n));
      store.PerformAll(CallsAt(world, n));
    }

    /** Marks the session uncertain, then parks the delivery: two transactions. */
    method Block(turn: ManagedTurn, reason: Text, world: World, n: nat) returns (outcome: Outcome)
      requires Ready() && Dispatched(store.db, turn)
      modifies store, this`settledUnder
      ensures Ready() && settledUnder == granted && Dispatched(store.db, turn)
      ensures (store.db, outcome) == Parking(old(store.db), turn, BoundedText(reason), world, n)
      ensures outcome.Blocked? ==>
                IsBounded(reason, outcome.reason) && EndedUnknown(store.db, turn, outcome.record, outcome.reason)
    {
      settledUnder := granted;
      var bounded := BoundedReason(reason);
      ghost var before := store.db;
      Others(world, n);
      DispatchedLater(before, store.db, turn);
      ghost var t := store.db;
      var error := store.MarkSessionUncertain(turn.agent, turn.attempt, turn.handle, bounded);
      if error.Some? {
        return Failed(error.value);
      }
      MarkIsUncertain(t, turn, bounded);
      MarkSessionEvolves(t, turn.agent, turn.attempt, turn.handle, bounded);
      DispatchedStays(t, store.db, NOTHING, turn);
      outcome := Park(turn, bounded, world, n + 1);
    }

    method Park(turn: ManagedTurn, reason: Text, world: World, n: nat) returns (outcome: Outcome)
      requires Ready() && Dispatched(store.db, turn) && store.db.turns[turn.attempt].state == TurnUncertain(reason)
      modifies store
      ensures Ready() && Dispatched(store.db, turn)
      ensures (store.db, outcome) == ParkingMarked(old(store.db), turn, reason, world, n)
      ensures outcome.Blocked? ==> outcome.reason == reason && EndedUnknown(store.db, turn, outcome.record, reason)
    {
      ghost var t := store.db;
      Others(world, n);
      DispatchedLater(t, store.db, turn);
      ghost var u := store.db;
      var error, record, created :=
        store.BlockDelivery(turn.invocation.key, D.BlockInput(turn.invocation.token, reason), world.clock(n));
      if error.Some? {
        return Failed(error.value);
      }
      ParkedIsUnknown(u, store.db, turn, record, reason, world.clock(n));
      return Outcome.Blocked(record, reason);
    }

    /** Records one notification; a result ends the drain. */
    method Notify(n: Notification) returns (r: Option<DrainResult>)
      requires evidence.Valid() && evidence.row.Some? && WellTyped(n)
      modifies evidence
      ensures evidence.Valid() && evidence.row.Some?
      ensures (evidence.row.value, r) == Notified(evidence.sha, old(evidence.row).value, n)
    {
      match n {
        case TurnEvent(event, alive) =>
          var error := Observe(event, alive);
          return if error.Some? then Some(DrainFailed) else None;
        case PermissionRequested(event, alive, resolved) =>
          var error := Observe(event, alive);
          return if error.Some? || !resolved then Some(DrainFailed) else None;
        case Transcript =>
          return Some(DrainFailed);
        case TurnTerminal(terminal) =>
          var error := evidence.RecordTerminal(terminal);
          return Some(if error.Some? then DrainFailed else DrainTerminal(terminal.summary));
      }
    }

    method Observe(event: E.Offer, alive: bool) returns (error: Option<FleetError>)
      requires evidence.Valid() && evidence.row.Some? && event.Event? && event.at <= I64_MAX
      modifies evidence
      ensures evidence.Valid()
      ensures E.Reports(E.Offered(evidence.sha, old(evidence.row).value, alive, event), error, old(evidence.row).value,
                        evidence.row)
    {
      evidence.active := alive;
      error := evidence.RecordEvent(event);
    }

    /** Feeds notifications to the observation row until a terminal, a failure, or the end of the feed. */
    method Drain(feed: Feed) returns (r: DrainResult)
      requires evidence.Valid() && evidence.row.Some? && WellTypedFeed(feed)
      modifies evidence
      ensures evidence.Valid() && evidence.row.Some?
      ensures r == DrainOf(evidence.sha, old(evidence.row).value, feed)
      ensures evidence.row.value == DrainedRow(evidence.sha, old(evidence.row).value, feed)
    {
      ghost var first := evidence.row.value;
      assert feed.items[0..] == feed.items;
      for i := 0 to |feed.items|
        invariant evidence.Valid() && evidence.row.Some?
        invariant DrainOf(evidence.sha, evidence.row.value, feed.(items := feed.items[i..]))
                  == DrainOf(evidence.sha, first, feed)
        invariant DrainedRow(evidence.sha, evidence.row.value, feed.(items := feed.items[i..]))
                  == DrainedRow(evidence.sha, first, feed)
      {
        assert feed.items[i..][0] == feed.items[i] && feed.items[i..][1..] == feed.items[i + 1..];
        var ended := Notify(feed.items[i]);
        if ended.Some? {
          return ended.value;
        }
      }
      return if feed.failed then DrainFailed else StillRunning;
    }

    method ActivateGrants(turn: ManagedTurn, world: World) returns (activated: nat)
      requires granted == {}
      modifies this`granted
      ensures activated <= turn.grants && (activated == turn.grants <==> AllActivated(turn, world))
      ensures forall g: nat :: g in granted <==> g < activated
    {
      activated := 0;
      while activated < turn.grants
        invariant activated <= turn.grants && activated <= |world.activated|
        invariant forall g | 0 <= g < activated :: world.activated[g]
        invariant forall g: nat :: g in granted <==> g < activated
      {
        if activated >= |world.activated| || !world.activated[activated] {
          return;
        }
        granted := granted + {activated};
        activated := activated + 1;
      }
    }

    /** Revokes the first `count` grants, last activated first. */
    method RevokeGrants(count: nat)
      modifies this`granted
      ensures forall g: nat :: g in granted <==> g in old(granted) && g >= count
    {
      var g := count;
      while g > 0
        invariant g <= count && forall h: nat :: h in granted <==> h in old(granted) && !(g <= h < count)
      {
        g := g - 1;
        granted := granted - {g};
      }
    }

    /** Waits for the terminal of a started turn; without one the turn is parked here, grants still active. */
    method AwaitTerminal(turn: ManagedTurn, world: World) returns (d: TerminalDrain)
      requires Ready() && Dispatched(store.db, turn) && evidence.row.Some?
      requires WellTypedFeed(world.first) && WellTypedFeed(world.second)
      modifies store, evidence, this`settledUnder
      ensures Ready() && evidence.row.Some? && Dispatched(store.db, turn)
      ensures Awaited(AwaitPlan(evidence.sha, old(evidence.row).value, world), old(store.db), turn, world, d, store.db)
      ensures d.Evidence? ==> evidence.row.value.terminal == Some(d.summary) && settledUnder == old(settledUnder)
      ensures d.Parked? ==>
                && settledUnder == granted && OutcomeAgrees(store.db, turn, world, d.outcome, evidence.row)
                && (d.outcome.Blocked? ==> IsBounded(AwaitPlan(evidence.sha, old(evidence.row).value, world).reason, d.outcome.reason))
    {
      DrainedTerminal(evidence.sha, evidence.row.value, world.first);
      ghost var r := evidence.row.value;
      var first := Drain(world.first);
      match first {
        case DrainTerminal(summary) =>
          return Evidence(summary, None);
        case DrainFailed =>
          var outcome := Block(turn, "turn evidence failed: " + world.failure, world, 1);
          return Parked(outcome);
        case StillRunning =>
          d := CancelAndDrain(turn, world, r);
      }
    }

    method CancelAndDrain(turn: ManagedTurn, world: World, ghost r: E.Row) returns (d: TerminalDrain)
      requires Ready() && Dispatched(store.db, turn) && evidence.row.Some? && WellTypedFeed(world.second)
      requires DrainOf(evidence.sha, r, world.first).StillRunning?
      requires evidence.row.value == DrainedRow(evidence.sha, r, world.first)
      modifies store, evidence, this`settledUnder
      ensures Ready() && evidence.row.Some? && Dispatched(store.db, turn)
      ensures Awaited(AwaitPlan(evidence.sha, r, world), old(store.db), turn, world, d, store.db)
      ensures d.Evidence? ==> evidence.row.value.terminal == Some(d.summary) && settledUnder == old(settledUnder)
      ensures d.Parked? ==>
                && settledUnder == granted && OutcomeAgrees(store.db, turn, world, d.outcome, evidence.row)
                && (d.outcome.Blocked? ==> IsBounded(AwaitPlan(evidence.sha, r, world).reason, d.outcome.reason))
    {
      var reason := "host " + CancelReason(world.stop) + " cancellation failed: " + world.failure;
      if world.cancelled {
        DrainedTerminal(evidence.sha, evidence.row.value, world.second);
        var second := Drain(world.second);
        if second.DrainTerminal? {
          return Evidence(second.summary, Some(world.stop));
        }
        reason := if second.StillRunning? then "cancel drain deadline exceeded" else "cancel drain failed: " + world.failure;
      }
      var outcome := Block(turn, reason, world, 1);
      return Parked(outcome);
    }

    /** Completes a quiescent, known terminal; anything else is parked. */
    method SettleTerminal(turn: ManagedTurn, summary: E.TerminalSummary, stop: Option<HostStop>, world: World)
      returns (outcome: Outcome)
      requires Ready() && Dispatched(store.db, turn)
      modifies store, this`settledUnder
      ensures Ready() && settledUnder == granted && Dispatched(store.db, turn)
      ensures (store.db, outcome) == Settling(old(store.db), turn, summary, stop, world)
      ensures SettledSafely(summary, stop, outcome)
      ensures outcome.Completed? || outcome.Interrupted? ==>
                EndedKnown(store.db, turn, summary.persistence) && (outcome.created ==> Freed(store.db, turn))
      ensures outcome.Blocked? ==>
                && IsBounded(UnsafeReason(summary), outcome.reason)
                && EndedUnknown(store.db, turn, outcome.record, outcome.reason)
    {
      SettlingIsSafe(store.db, turn, summary, stop, world);
      if !Settleable(summary) {
        outcome := Block(turn, UnsafeReason(summary), world, 3);
      } else {
        outcome := Complete(turn, summary.persistence, stop, world);
      }
    }

    /** Publishes the turn's result and frees its session: one transaction. */
    method Complete(turn: ManagedTurn, p: Persistence, stop: Option<HostStop>, world: World) returns (outcome: Outcome)
      requires Ready() && Dispatched(store.db, turn)
      modifies store, this`settledUnder
      ensures Ready() && settledUnder == granted && Dispatched(store.db, turn)
      ensures (store.db, outcome) == Publishing(old(store.db), turn, p, stop, world)
      ensures outcome.Completed? || outcome.Interrupted? ==>
                EndedKnown(store.db, turn, p) && (outcome.created ==> Freed(store.db, turn))
    {
      settledUnder := granted;
      ghost var before := store.db;
      Others(world, 3);
      DispatchedLater(before, store.db, turn);
      ghost var t := store.db;
      var error, created :=
        store.CompleteSessionInvocation(turn.agent, turn.attempt, turn.handle, p, Completion(turn),
                                        world.clock(3));
      if error.Some? {
        return Failed(error.value);
      }
      CompletionIsKnown(t, turn, p, world.clock(3));
      CompletionStays(t, turn, p, world.clock(3));
      if stop.Some? && IsInterruption(stop.value) {
        return Interrupted(stop.value, created.value);
      }
      return Outcome.Completed(created.value);
    }

    /** Commits the dispatch fence of the turn and inserts its observation row. */
    method ArmTurn(turn: ManagedTurn, world: World) returns (error: Option<FleetError>)
      requires Ready() && evidence.row.None?
      requires turn.attempt in store.db.invocations && store.db.invocations[turn.attempt].key == turn.invocation.key
      modifies store, evidence
      ensures Ready()
      ensures if ArmedFrom(old(store.db), turn, world).Ok?
              then && error.None? && store.db == ArmedFrom(old(store.db), turn, world).value && Dispatched(store.db, turn)
                   && evidence.row == Some(E.FRESH_ROW)
              else && error == Some(ArmedFrom(old(store.db), turn, world).error)
                   && store.db == Steps(old(store.db), CallsAt(world, 0)) && evidence.row.None?
    {
      ghost var t := store.db;
      Others(world, 0);
      KeyStays(t, store.db, turn.attempt);
      ghost var u := store.db;
      var inv := turn.invocation;
      error := store.ArmSessionInvocation(turn.agent, turn.attempt, turn.handle, turn.sessionRef, turn.generation,
                                          I.ArmInput(inv.token, inv.fence), world.clock(0));
      if error.None? {
        ArmedIsDispatched(u, turn, world.clock(0));
        evidence.Begin();
      }
    }

    /**
     Runs one reserved turn to its durable settlement. A known outcome is reported
     only after quiescent, certain evidence was recorded and every grant revoked; a
     blocked one only when attempt, turn and block record agree; no grant is left
     active, whatever happened.
     */
    method Run(turn: ManagedTurn, world: World) returns (outcome: Outcome)
      requires Ready() && granted == {} && evidence.row.None?
      requires WellTypedFeed(world.first) && WellTypedFeed(world.second)
      requires turn.attempt in store.db.invocations && store.db.invocations[turn.attempt].key == turn.invocation.key
      modifies this, store, evidence
      ensures Ready() && granted == {}
      ensures Ran(evidence.sha, old(store.db), turn, world, store.db, outcome, evidence.row, settledUnder)
    {
      settledUnder := {};
      ghost var t := store.db;
      if !ValidTurn(turn) || !world.described {
        return Rejected;
      }
      var error := ArmTurn(turn, world);
      if error.Some? {
        RanUnarmed(evidence.sha, t, turn, world, evidence.row);
        return Failed(error.value);
      }
      outcome := RunArmed(turn, world);
      RanArmed(evidence.sha, t, turn, world, store.db, outcome, evidence.row, settledUnder);
    }

    /** The armed part of a turn. */
    method RunArmed(turn: ManagedTurn, world: World) returns (outcome: Outcome)
      requires Ready() && granted == {} && evidence.row == Some(E.FRESH_ROW) && Dispatched(store.db, turn)
      requires WellTypedFeed(world.first) && WellTypedFeed(world.second)
      modifies this, store, evidence
      ensures Ready() && granted == {} && Dispatched(store.db, turn)
      ensures EndsAsPlanned(evidence.sha, old(store.db), turn, world, store.db, outcome)
      ensures OutcomeAgrees(store.db, turn, world, outcome, evidence.row)
      ensures !outcome.Rejected? && (outcome.Completed? || outcome.Interrupted? ==> settledUnder == {})
      ensures forall g: nat :: g in settledUnder <==>
                && AllActivated(turn, world) && world.started && !DrainsToTerminal(evidence.sha, E.FRESH_ROW, world)
                && g < turn.grants
    {
      ghost var t := store.db;
      var activated := ActivateGrants(turn, world);
      if activated < turn.grants || !world.started {
        RevokeGrants(activated);
        var reason := if activated < turn.grants then "invocation grant activation failed: " + world.failure
                      else "turn start failed: " + world.failure;
        outcome := Block(turn, reason, world, 1);
        ParkedAsPlanned(evidence.sha, t, turn, world, reason, store.db, outcome);
      } else {
        outcome := RunStarted(turn, world);
      }
    }

    /** The started part of a turn, all grants active. */
    method RunStarted(turn: ManagedTurn, world: World) returns (outcome: Outcome)
      requires Ready() && evidence.row == Some(E.FRESH_ROW) && Dispatched(store.db, turn)
      requires WellTypedFeed(world.first) && WellTypedFeed(world.second)
      requires AllActivated(turn, world) && world.started && forall g: nat :: g in granted <==> g < turn.grants
      modifies this, store, evidence
      ensures Ready() && granted == {} && Dispatched(store.db, turn)
      ensures EndsAsPlanned(evidence.sha, old(store.db), turn, world, store.db, outcome)
      ensures OutcomeAgrees(store.db, turn, world, outcome, evidence.row)
      ensures !outcome.Rejected? && (outcome.Completed? || outcome.Interrupted? ==> settledUnder == {})
      ensures if DrainsToTerminal(evidence.sha, E.FRESH_ROW, world) then settledUnder == {} else settledUnder == old(granted)
    {
      ghost var t := store.db;
      var d := AwaitTerminal(turn, world);
      RevokeGrants(turn.grants);
      if d.Parked? {
        outcome := d.outcome;
        ParkedAsPlanned(evidence.sha, t, turn, world, DrainReason(evidence.sha, E.FRESH_ROW, world), store.db, outcome);
      } else {
        outcome := SettleDrained(turn, d.summary, d.stop, world);
      }
    }

    /** The last part of a turn whose evidence ended in a terminal, all grants revoked. */
    method SettleDrained(turn: ManagedTurn, summary: E.TerminalSummary, stop: Option<HostStop>, world: World)
      returns (outcome: Outcome)
      requires Ready() && granted == {} && Dispatched(store.db, turn)
      requires PlanOf(evidence.sha, turn, world) == SettleWith(summary, stop)
      requires evidence.row.Some? && evidence.row.value.terminal == Some(summary)
      modifies store, this`settledUnder
      ensures Ready() && settledUnder == {} && Dispatched(store.db, turn)
      ensures EndsAsPlanned(evidence.sha, old(store.db), turn, world, store.db, outcome)
      ensures OutcomeAgrees(store.db, turn, world, outcome, evidence.row) && !outcome.Rejected?
    {
      ghost var t := store.db;
      outcome := SettleTerminal(turn, summary, stop, world);
      SettledAsPlanned(evidence.sha, t, turn, world, store.db, outcome);
    }
  }

  lemma ParkedAsPlanned(sha: C.Codes -> Text, t: Tables, turn: ManagedTurn, world: World, reason: Text, u: Tables,
                        outcome: Outcome)
    requires PlanOf(sha, turn, world) == ParkFor(reason)
    requires (u, outcome) == Parking(t, turn, BoundedText(reason), world, 1)
    requires outcome.Blocked? ==> IsBounded(reason, outcome.reason)
    ensures EndsAsPlanned(sha, t, turn, world, u, outcome) && !outcome.Rejected? && !outcome.Completed? && !outcome.Interrupted?
  {
  }

  lemma SettledAsPlanned(sha: C.Codes -> Text, t: Tables, turn: ManagedTurn, world: World, u: Tables, outcome: Outcome)
    requires var plan := PlanOf(sha, turn, world);
             && plan.SettleWith? && (u, outcome) == Settling(t, turn, plan.summary, plan.stop, world)
             && (outcome.Blocked? ==> IsBounded(UnsafeReason(plan.summary), outcome.reason))
    ensures EndsAsPlanned(sha, t, turn, world, u, outcome) && !outcome.Rejected?
  {
  }

  /**
   What a call of `Run` did. A turn that is invalid or whose harness cannot be
   described changes nothing; one that cannot be armed reports the refusal and
   leaves the tables to the other parties; one that was armed stays on record as
   dispatched and ends as planned, which also says what a failed settlement leaves.
   A turn that armed, activated its grants and started is settled free of grants
   exactly when it has none or its evidence ends in a terminal; any other turn is
   settled free of grants always.
   */
  ghost predicate Ran(sha: C.Codes -> Text, t: Tables, turn: ManagedTurn, world: World, u: Tables, outcome: Outcome,
                      row: Option<E.Row>, settledUnder: set<nat>)
  {
    && (!outcome.Rejected? <==>
          && world.described && turn.invocation.state == Reserved && turn.agent != turn.sender
          && !Blank(turn.resultKind) && !turn.promptEmpty)
    && (outcome.Rejected? ==> u == t)
    && (!outcome.Rejected? && ArmedFrom(t, turn, world).Err? ==>
          outcome == Failed(ArmedFrom(t, turn, world).error) && u == Steps(t, CallsAt(world, 0)))
    && (!outcome.Rejected? && ArmedFrom(t, turn, world).Ok? ==>
          && EndsAsPlanned(sha, ArmedFrom(t, turn, world).value, turn, world, u, outcome)
          && Dispatched(u, turn))
    && OutcomeAgrees(u, turn, world, outcome, row)
    && (Starts(t, turn, world) && DrainsToTerminal(sha, E.FRESH_ROW, world) ==>
          SettledSafely(TerminalOf(sha, E.FRESH_ROW, world),
                        if StoppedBefore(sha, E.FRESH_ROW, world) then Some(world.stop) else None, outcome))
    && (outcome.Completed? || outcome.Interrupted? ==> settledUnder == {})
    && (Starts(t, turn, world) ==>
          (settledUnder == {} <==> turn.grants == 0 || DrainsToTerminal(sha, E.FRESH_ROW, world)))
    && (!Starts(t, turn, world) ==> settledUnder == {})
  }

  /** Whatever settling a terminal comes to, it is safe. */
  lemma SettlingIsSafe(t: Tables, turn: ManagedTurn, summary: E.TerminalSummary, stop: Option<HostStop>, world: World)
    ensures SettledSafely(summary, stop, Settling(t, turn, summary, stop, world).1)
  {
    if Settleable(summary) {
      assert Settling(t, turn, summary, stop, world) == Publishing(t, turn, summary.persistence, stop, world);
    } else {
      ParkingParks(t, turn, BoundedText(UnsafeReason(summary)), world, 3);
    }
  }

  lemma ParkingParks(t: Tables, turn: ManagedTurn, reason: Text, world: World, n: nat)
    ensures var outcome := Parking(t, turn, reason, world, n).1; outcome.Blocked? || outcome.Failed?
  {
  }

  lemma PlannedIsSafe(sha: C.Codes -> Text, t: Tables, turn: ManagedTurn, world: World, u: Tables, outcome: Outcome)
    requires EndsAsPlanned(sha, t, turn, world, u, outcome)
    requires AllActivated(turn, world) && world.started && DrainsToTerminal(sha, E.FRESH_ROW, world)
    ensures SettledSafely(TerminalOf(sha, E.FRESH_ROW, world),
                          if StoppedBefore(sha, E.FRESH_ROW, world) then Some(world.stop) else None, outcome)
  {
    EndIsPlanned(sha, t, turn, world, u, outcome);
    SettlingIsSafe(t, turn, TerminalOf(sha, E.FRESH_ROW, world),
                   if StoppedBefore(sha, E.FRESH_ROW, world) then Some(world.stop) else None, world);
  }

  lemma RanUnarmed(sha: C.Codes -> Text, t: Tables, turn: ManagedTurn, world: World, row: Option<E.Row>)
    requires ValidTurn(turn) && world.described && ArmedFrom(t, turn, world).Err?
    ensures Ran(sha, t, turn, world, Steps(t, CallsAt(world, 0)), Failed(ArmedFrom(t, turn, world).error), row, {})
  {
  }

  lemma RanArmed(sha: C.Codes -> Text, t: Tables, turn: ManagedTurn, world: World, u: Tables, outcome: Outcome,
                 row: Option<E.Row>, settledUnder: set<nat>)
    requires ValidTurn(turn) && world.described && ArmedFrom(t, turn, world).Ok?
    requires EndsAsPlanned(sha, ArmedFrom(t, turn, world).value, turn, world, u, outcome)
    requires Dispatched(u, turn) && OutcomeAgrees(u, turn, world, outcome, row)
    requires !outcome.Rejected? && (outcome.Completed? || outcome.Interrupted? ==> settledUnder == {})
    requires forall g: nat :: g in settledUnder <==>
               AllActivated(turn, world) && world.started && !DrainsToTerminal(sha, E.FRESH_ROW, world) && g < turn.grants
    ensures Ran(sha, t, turn, world, u, outcome, row, settledUnder)
  {
    if Starts(t, turn, world) && DrainsToTerminal(sha, E.FRESH_ROW, world) {
      PlannedIsSafe(sha, ArmedFrom(t, turn, world).value, turn, world, u, outcome);
    }
    assert turn.grants > 0 && 0 !in settledUnder ==>
        !(AllActivated(turn, world) && world.started && !DrainsToTerminal(sha, E.FRESH_ROW, world));
  }

  /** Awaiting a turn gives the terminal it plans to settle, tables untouched; else the turn is parked. */
  ghost predicate Awaited(plan: Plan, t: Tables, turn: ManagedTurn, world: World, d: TerminalDrain, u: Tables) {
    if plan.SettleWith? then d == Evidence(plan.summary, plan.stop) && u == t
    else d.Parked? && (u, d.outcome) == Parking(t, turn, BoundedText(plan.reason), world, 1)
  }

  ghost predicate IsEnd(sha: C.Codes -> Text, t: Tables, turn: ManagedTurn, world: World, plan: Plan,
                        end: (Tables, Outcome))
  {
    plan == PlanOf(sha, turn, world) && end == Carried(t, turn, plan, world)
  }

  /** The turn armed at `t` ended as its plan says, parked only for the plan's bounded reason. */
  ghost predicate EndsAsPlanned(sha: C.Codes -> Text, t: Tables, turn: ManagedTurn, world: World, u: Tables,
                                outcome: Outcome)
  {
    forall plan, end {:trigger IsEnd(sha, t, turn, world, plan, end)} | IsEnd(sha, t, turn, world, plan, end) ::
      end == (u, outcome) && (outcome.Blocked? ==> IsBounded(RawReason(plan), outcome.reason))
  }

  /** Spelled out. */
  lemma EndIsPlanned(sha: C.Codes -> Text, t: Tables, turn: ManagedTurn, world: World, u: Tables, outcome: Outcome)
    requires EndsAsPlanned(sha, t, turn, world, u, outcome)
    ensures (u, outcome) == Carried(t, turn, PlanOf(sha, turn, world), world)
    ensures outcome.Blocked? ==> IsBounded(RawReason(PlanOf(sha, turn, world)), outcome.reason)
  {
    var plan := PlanOf(sha, turn, world);
    assert IsEnd(sha, t, turn, world, plan, Carried(t, turn, plan, world));
  }

  /** The report of an armed turn agrees with the tables and with the evidence on record. */
  ghost predicate OutcomeAgrees(t: Tables, turn: ManagedTurn, world: World, outcome: Outcome, row: Option<E.Row>) {
    && (outcome.Completed? || outcome.Interrupted? ==>
          && row.Some? && row.value.terminal.Some?
          && var summary := row.value.terminal.value;
             && summary.quiescent && summary.certainty != OutcomeUnknown
             && EndedKnown(t, turn, summary.persistence) && (outcome.created ==> Freed(t, turn)))
    && (outcome.Interrupted? ==> outcome.stop == world.stop && outcome.stop != WallDeadline)
    && (outcome.Blocked? ==> EndedUnknown(t, turn, outcome.record, outcome.reason))
  }

  /** The terminal that ends a drain is on the row it leaves. */
  lemma {:induction false} DrainedTerminal(sha: C.Codes -> Text, r: E.Row, feed: Feed)
    ensures DrainOf(sha, r, feed).DrainTerminal? ==> DrainedRow(sha, r, feed).terminal == Some(DrainOf(sha, r, feed).summary)
    decreases |feed.items|
  {
    if feed.items != [] {
      DrainedTerminal(sha, Notified(sha, r, feed.items[0]).0, feed.(items := feed.items[1..]));
    }
  }

  lemma CompletionStays(t: Tables, turn: ManagedTurn, p: Persistence, now: Time)
    requires Inv(t) && Dispatched(t, turn)
    requires B.CompleteSessionInvocation(t, turn.agent, turn.attempt, turn.handle, p, Completion(turn), now).Ok?
    ensures Dispatched(B.CompleteSessionInvocation(t, turn.agent, turn.attempt, turn.handle, p, Completion(turn), now).value.0,
                       turn)
  {
    CompleteSessionEvolves(t, turn.agent, turn.attempt, turn.handle, p, Completion(turn), now);
    DispatchedStays(t, B.CompleteSessionInvocation(t, turn.agent, turn.attempt, turn.handle, p, Completion(turn), now).value.0,
                    Completing(turn.attempt), turn);
  }

  lemma KeyStays(t: Tables, u: Tables, i: Id)
    requires Later(t, u) && i in t.invocations
    ensures i in u.invocations && u.invocations[i].key == t.invocations[i].key
  {
    var scope :| Evolves(t, u, scope);
    assert AttemptKept(t, u, i, scope);
  }

  lemma ParkedIsUnknown(t: Tables, u: Tables, turn: ManagedTurn, record: nat, reason: Text, now: Time)
    requires Inv(t) && Dispatched(t, turn) && t.turns[turn.attempt].state == TurnUncertain(reason)
    requires D.BlockDelivery(t, turn.invocation.key, D.BlockInput(turn.invocation.token, reason), now).Ok?
    requires var r := D.BlockDelivery(t, turn.invocation.key, D.BlockInput(turn.invocation.token, reason), now).value;
             u == r.0 && record == r.1
    ensures EndedUnknown(u, turn, record, reason)
  {
    var input := D.BlockInput(turn.invocation.token, reason);
    P.BlockDeliveryKeeps(t, turn.invocation.key, input, now);
    InvUnused(t);
    BlockEvolves(t, turn.invocation.key, input, now);
    DispatchedStays(t, u, NOTHING, turn);
    assert AttemptKept(t, u, turn.attempt, NOTHING);
    BlockIsRecorded(t, turn.invocation.key, turn.invocation.token, reason, now);
    BlockMeansUnknown(u, turn, record, reason);
  }
}
