/**
 Managed invocations: reservation, the write-ahead dispatch fence, completion
 with replay, and recovery of expired attempts.
 */
module Invocations {
  import opened Wrappers
  import opened Tables
  import opened Ordering
  import K = Kernel
  import S = SessionTurns

  // ---- recovery ------------------------------------------------------------------

  /** An attempt of this agent whose own lease and whose delivery lease expired. */
  predicate ExpiredAttempt(t: Tables, i: Id, agent: Id, now: Time) {
    && i in t.invocations
    && t.invocations[i].key.agent == agent
    && !t.invocations[i].state.Terminal?
    && t.invocations[i].expiry <= now
    && K.HoldsExpired(t, t.invocations[i].key, t.invocations[i].token, now)
  }

  function ExpiredReservations(t: Tables, agent: Id, now: Time): set<Id> {
    set i <- t.invocations.Keys | ExpiredAttempt(t, i, agent, now) && t.invocations[i].state.Reserved?
  }

  function ExpiredArmed(t: Tables, agent: Id, now: Time): set<Id> {
    set i <- t.invocations.Keys | ExpiredAttempt(t, i, agent, now) && t.invocations[i].state.Armed?
  }

  function End(inv: Invocation, now: Time, certainty: Certainty, reason: TerminalReason): Invocation {
    inv.(state := Terminal(if inv.state.Armed? then Some(inv.state.armedAt) else None, now, certainty, reason))
  }

  function TerminalizeExpiredReservations(t: Tables, agent: Id, now: Time): Tables {
    t.(invocations := map i <- t.invocations ::
         if i in ExpiredReservations(t, agent, now)
         then End(t.invocations[i], now, NotStarted, ReservationExpired)
         else t.invocations[i])
  }

  function ExpiryReason(i: Id): Text {
    "invocation " + Decimal(i) + " lease expired after dispatch was armed"
  }

  /** Parks one expired armed attempt: delivery, evidence, attempt and session. */
  function ParkExpired(t: Tables, i: Id, now: Time): Result<Tables> {
    if i !in t.invocations then Err(NotFound) else
    var inv := t.invocations[i];
    var reason := ExpiryReason(i);
    :- Need(K.HoldsExpired(t, inv.key, inv.token, now), Conflict);
    var parked := K.Park(t, inv.key, inv.token, reason);
    EndParked(K.RecordBlock(parked, inv.key, t.deliveries[inv.key].attempt, inv.token, reason), i, inv, reason, now)
  }

  function EndParked(evidence: Result<Tables>, i: Id, inv: Invocation, reason: Text, now: Time): Result<Tables> {
    var evidenced :- evidence;
    :- Need(inv.state.Armed?, Conflict);
    var ended := evidenced.(invocations := evidenced.invocations[i := End(inv, now, OutcomeUnknown, LeaseExpiredAfterArm)]);
    S.MarkExpiredTurnUncertain(ended, i, reason)
  }

  function ParkAll(t: Tables, ids: seq<Id>, now: Time): Result<Tables>
    decreases |ids|
  {
    if ids == [] then Ok(t)
    else
      var parked :- ParkExpired(t, ids[0], now);
      ParkAll(parked, ids[1..], now)
  }

  function ReservationOrder(t: Tables): map<Id, int> {
    map i <- t.invocations :: t.invocations[i].reservedAt
  }

  /** The expired armed attempts in `ORDER BY reserved_at_ms, id`. */
  ghost function ArmedToPark(t: Tables, agent: Id, now: Time): seq<Id> {
    SortedBy(ExpiredArmed(t, agent, now), ReservationOrder(t))
  }

  /** Recovers one agent and reports how many attempts were settled. */
  ghost function Recover(t: Tables, agent: Id, now: Time): Result<(Tables, nat)> {
    var unstarted := TerminalizeExpiredReservations(t, agent, now);
    var ids := ArmedToPark(unstarted, agent, now);
    var parked :- ParkAll(unstarted, ids, now);
    Ok((parked, |ExpiredReservations(t, agent, now)| + |ids|))
  }

  /**
   The reaper's transaction. The agent list is read before the transaction
   begins, so it is an arbitrary input here.
   */
  ghost function RecoverAll(t: Tables, agents: seq<Id>, now: Time): Result<(Tables, nat)>
    decreases |agents|, 0
  {
    if agents == [] then Ok((t, 0)) else RecoverRest(Recover(t, agents[0], now), agents[1..], now)
  }

  ghost function RecoverRest(first: Result<(Tables, nat)>, agents: seq<Id>, now: Time): Result<(Tables, nat)>
    decreases |agents|, 1
  {
    var done :- first;
    var rest :- RecoverAll(done.0, agents, now);
    Ok((rest.0, done.1 + rest.1))
  }

  // ---- reservation -----------------------------------------------------------------

  /** Inserts the reserved attempt of one freshly leased delivery. */
  function ReserveRow(t: Tables, k: DeliveryKey, token: Id, expiry: Time, now: Time): Result<Tables>
    requires k in t.deliveries
  {
    var attempt := t.deliveries[k].attempt;
    :- Need(forall i | i in t.invocations :: t.invocations[i].key != k || t.invocations[i].attempt != attempt,
            FleetError.Persistence);
    Ok(t.(invocations := t.invocations[t.nextId := Invocation(k, attempt, token, expiry, t.nextId + 1, Reserved, now)],
          nextId := t.nextId + 2))
  }

  function ReserveRows(t: Tables, agent: Id, messages: seq<nat>, token: Id, expiry: Time, now: Time): Result<Tables>
    requires forall m | m in messages :: DeliveryKey(m, agent) in t.deliveries
    decreases |messages|
  {
    if messages == [] then Ok(t)
    else
      var reserved :- ReserveRow(t, DeliveryKey(messages[0], agent), token, expiry, now);
      ReserveRows(reserved, agent, messages[1..], token, expiry, now)
  }

  lemma LeasedRowsExist(t: Tables, agent: Id, token: Id)
    ensures forall m | m in Ascending(K.LeasedSeqs(t, agent, token)) :: DeliveryKey(m, agent) in t.deliveries
  {
    var rows := Ascending(K.LeasedSeqs(t, agent, token));
    forall m | m in rows
      ensures DeliveryKey(m, agent) in t.deliveries
    {
      assert Listed(rows, m);
      var k :| k in t.deliveries && k.agent == agent && k.message == m;
      assert k == DeliveryKey(m, agent);
    }
  }

  datatype ClaimInput = ClaimInput(limit: nat, duration: nat, kinds: Option<set<Text>>)

  /** Recovers, then leases: one transaction, one clock reading, one fresh token. */
  ghost function RecoverThenLease(t: Tables, agent: Id, input: ClaimInput, now: Time): Result<Tables> {
    if !K.ValidClaim(input.limit, input.duration) then Err(Invalid) else
    :- Need(agent in t.agents, NotFound);
    :- Need(now + input.duration <= I64_MAX, Invalid);
    LeaseRecovered(Recover(t.(nextId := t.nextId + 1), agent, now), agent, t.nextId, input, now)
  }

  ghost function LeaseRecovered(recovery: Result<(Tables, nat)>, agent: Id, token: Id, input: ClaimInput, now: Time)
    : Result<Tables>
  {
    var recovered :- recovery;
    Ok(K.LeaseClaimable(recovered.0, agent, token, now + input.duration, now, input.limit, input.kinds))
  }

  ghost function ReserveInvocations(t: Tables, agent: Id, input: ClaimInput, now: Time): Result<Tables> {
    if input.kinds == Some({}) then Err(Invalid) else
    ReserveLeased(RecoverThenLease(t, agent, input, now), agent, t.nextId, now + input.duration, now)
  }

  ghost function ReserveLeased(lease: Result<Tables>, agent: Id, token: Id, expiry: Time, now: Time): Result<Tables> {
    var leased :- lease;
    LeasedRowsExist(leased, agent, token);
    ReserveRows(leased, agent, Ascending(K.LeasedSeqs(leased, agent, token)), token, expiry, now)
  }

  // ---- the dispatch fence ------------------------------------------------------------

  datatype ArmInput = ArmInput(token: Id, fence: Id)

  predicate LiveLease(t: Tables, inv: Invocation, token: Id, now: Time) {
    inv.expiry > now && K.HoldsLive(t, inv.key, token, now)
  }

  predicate KnownTo(t: Tables, agent: Id, i: Id) {
    && i in t.invocations
    && t.invocations[i].key.agent == agent
    && t.invocations[i].key in t.deliveries
    && t.invocations[i].key.message in t.messages
  }

  /** Commits the write-ahead dispatch fence; repeating it is harmless. */
  function ArmInvocation(t: Tables, agent: Id, i: Id, input: ArmInput, now: Time): Result<Tables> {
    if !KnownTo(t, agent, i) then Err(NotFound) else
    var inv := t.invocations[i];
    :- Need(inv.token == input.token && inv.fence == input.fence, LeaseConflict);
    :- Need(LiveLease(t, inv, input.token, now), LeaseConflict);
    :- Need(!inv.state.Terminal?, Conflict);
    if inv.state.Armed? then Ok(t)
    else Ok(t.(invocations := t.invocations[i := inv.(state := Armed(now))]))
  }

  // ---- completion --------------------------------------------------------------------

  datatype CompleteInput = CompleteInput(token: Id, fence: Id, kind: Text, payload: Text)

  /** The result is fixed by the input message apart from its kind and payload. */
  function ResultMessage(t: Tables, i: Id, input: CompleteInput): Message
    requires i in t.invocations && t.invocations[i].key.message in t.messages
  {
    var key := t.invocations[i].key;
    var source := t.messages[key.message];
    Message(source.channel, key.agent, Some(ResultKey(i)), Some(source.sender), input.kind, input.payload,
            source.correlation, Some(key.message))
  }

  /** Completes an armed attempt, or recognises an exact repeat. */
  function CompleteInvocation(t: Tables, agent: Id, i: Id, input: CompleteInput, now: Time, throughSession: bool)
    : Result<(Tables, bool)>
  {
    if Blank(input.kind) then Err(Invalid) else
    :- Need(throughSession || !S.ActiveOnSession(t, i), Conflict);
    :- Need(KnownTo(t, agent, i), NotFound);
    var inv := t.invocations[i];
    :- Need(inv.token == input.token && inv.fence == input.fence, LeaseConflict);
    var expected := ResultMessage(t, i, input);
    if inv.state.Terminal? then
      :- Need(inv.HasResult(), Conflict);
      :- Need(inv.state.reason.result in t.messages, NotFound);
      :- Need(K.SameContent(t.messages[inv.state.reason.result], expected), Conflict);
      Ok((t, false))
    else
      :- Need(inv.state.Armed?, Conflict);
      :- Need(LiveLease(t, inv, input.token, now), LeaseConflict);
      :- Need(K.KeyHolders(t, agent, ResultKey(i)) == {}, Conflict);
      PublishResult(t, i, expected, now)
  }

  /** Publishes the result, acknowledges the input and ends the attempt. */
  function PublishResult(t: Tables, i: Id, result: Message, now: Time): Result<(Tables, bool)>
    requires i in t.invocations
  {
    var inv := t.invocations[i];
    var published :- K.InsertMessage(t, result, now);
    :- Need(K.HoldsLive(published, inv.key, inv.token, now), LeaseConflict);
    var acknowledged := K.Acknowledge(published, inv.key, inv.token);
    Ok((acknowledged.(invocations := t.invocations[i := End(inv, now, OutcomeKnown, Completed(t.nextSeq))]), true))
  }

  // ---- settlement of the attempt fencing a delivery -----------------------------------

  /** A retry is refused while the dispatch fence may have released an effect. */
  predicate RetryIsSafe(t: Tables, k: DeliveryKey, token: Id) {
    forall i | i in t.invocations && S.OpenUnder(t.invocations[i], k, token) :: !t.invocations[i].state.Armed?
  }

  function EndAttempts(t: Tables, k: DeliveryKey, token: Id, certainty: Certainty, reason: TerminalReason, now: Time)
    : Tables
  {
    t.(invocations := map i <- t.invocations ::
         if S.OpenUnder(t.invocations[i], k, token) then End(t.invocations[i], now, certainty, reason)
         else t.invocations[i])
  }

  function Terminalize(t: Tables, k: DeliveryKey, token: Id, certainty: Certainty, reason: TerminalReason, now: Time)
    : Result<Tables>
  {
    if !S.BoundTurnAllowsSettlement(t, k, token, certainty.OutcomeUnknown? && reason.BlockedBy?) then Err(Conflict) else
    Ok(EndAttempts(t, k, token, certainty, reason, now))
  }
}
