/**
 What no transaction ever takes back: verdicts, dispatch fences, block evidence,
 messages, settled deliveries, owner epochs, retirements and bound turns. Arming
 and resolving are confined to the one row the transaction names.
 */
module Evolution {
  import opened Wrappers
  import opened Tables
  import opened Protocol
  import opened DeliveryInvariant
  import opened SessionInvariant
  import opened Recovery
  import opened Ordering
  import I = Invocations
  import K = Kernel
  import S = SessionTurns
  import B = SessionBindings
  import D = Settlements
  import P = ProtocolInvariant

  // ---- how one row may change ------------------------------------------------------------

  predicate AttemptMay(a: Invocation, b: Invocation) {
    && b == a.(state := b.state)
    && (a.state.Terminal? ==> b == a)
    && (a.state.Armed? ==> b == a || (b.state.Terminal? && b.state.armed == Some(a.state.armedAt)))
  }

  predicate DeliveryMay(a: Delivery, b: Delivery) {
    && a.attempt <= b.attempt
    && (a.state.Acknowledged? || a.state.Dead? ==> b.state == a.state && b.attempt == a.attempt)
  }

  predicate BlockMay(a: Block, b: Block) {
    b == a.(resolved := b.resolved) && (a.resolved.Some? ==> b == a)
  }

  predicate BindingMay(a: Binding, b: Binding) {
    && b.lane == a.lane && b.config == a.config
    && a.epoch <= b.epoch
    && (a.epoch == b.epoch ==> b.owner == a.owner)
    && (a.sessionRef.Some? ==> b.sessionRef == a.sessionRef)
    && (a.state.Retired? ==> b == a)
    && (a.state.Uncertain? ==> b.state.Uncertain? || b.state.Retired?)
  }

  predicate TurnMay(a: Turn, b: Turn) {
    b == a.(state := b.state) && (!a.state.TurnActive? ==> b == a)
  }

  // ---- how the store may change --------------------------------------------------------------

  predicate EverArmed(t: Tables, i: Id) {
    i in t.invocations && t.invocations[i].EverArmed()
  }

  predicate HasResult(t: Tables, i: Id) {
    i in t.invocations && t.invocations[i].HasResult()
  }

  predicate IsRetired(t: Tables, k: BindingKey) {
    k in t.bindings && t.bindings[k].state.Retired?
  }

  predicate WasResolved(t: Tables, b: nat) {
    b in t.blocks && t.blocks[b].resolved.Some?
  }

  /** The rows a transaction may arm, complete, resolve or retire. */
  datatype Scope = Scope(arms: set<Id>, completes: set<Id>, resolves: set<nat>, retires: set<BindingKey>) {
    ghost predicate Within(wider: Scope) {
      && arms <= wider.arms && completes <= wider.completes
      && resolves <= wider.resolves && retires <= wider.retires
    }
  }

  const NOTHING: Scope := Scope({}, {}, {}, {})

  function Arming(i: Id): Scope {
    NOTHING.(arms := {i})
  }

  function Completing(i: Id): Scope {
    NOTHING.(completes := {i})
  }

  function Retiring(keys: set<BindingKey>): Scope {
    NOTHING.(retires := keys)
  }

  /** An attempt and its turn: passing the fence, being bound and getting a result are confined. */
  predicate AttemptKept(t: Tables, u: Tables, i: Id, scope: Scope) {
    && (i in t.invocations ==> i in u.invocations && AttemptMay(t.invocations[i], u.invocations[i]))
    && (EverArmed(u, i) ==> EverArmed(t, i) || i in scope.arms)
    && (i in t.turns ==> i in u.turns && TurnMay(t.turns[i], u.turns[i]))
    && (i in u.turns ==> i in t.turns || i in scope.arms)
    && (i in t.observed ==> i in u.observed)
    && (HasResult(u, i) ==> HasResult(t, i) || i in scope.completes)
  }

  predicate DeliveryKept(t: Tables, u: Tables, k: DeliveryKey) {
    k in t.deliveries ==> k in u.deliveries && DeliveryMay(t.deliveries[k], u.deliveries[k])
  }

  predicate MessageKept(t: Tables, u: Tables, m: nat) {
    m in t.messages ==> m in u.messages && u.messages[m] == t.messages[m]
  }

  predicate BlockKept(t: Tables, u: Tables, b: nat, scope: Scope) {
    && (b in t.blocks ==> b in u.blocks && BlockMay(t.blocks[b], u.blocks[b]))
    && (WasResolved(u, b) ==> WasResolved(t, b) || b in scope.resolves)
  }

  predicate BindingKept(t: Tables, u: Tables, k: BindingKey, scope: Scope) {
    && (k in t.bindings ==> k in u.bindings && BindingMay(t.bindings[k], u.bindings[k]))
    && (IsRetired(u, k) ==> IsRetired(t, k) || k in scope.retires)
  }

  ghost predicate Evolves(t: Tables, u: Tables, scope: Scope) {
    && (forall i {:trigger AttemptKept(t, u, i, scope)} :: AttemptKept(t, u, i, scope))
    && (forall k {:trigger DeliveryKept(t, u, k)} :: DeliveryKept(t, u, k))
    && (forall m {:trigger MessageKept(t, u, m)} :: MessageKept(t, u, m))
    && (forall b {:trigger BlockKept(t, u, b, scope)} :: BlockKept(t, u, b, scope))
    && (forall k {:trigger BindingKept(t, u, k, scope)} :: BindingKept(t, u, k, scope))
    && t.nextId <= u.nextId && t.nextSeq <= u.nextSeq && t.nextBlock <= u.nextBlock
  }

  lemma EvolvesTransitive(t: Tables, u: Tables, v: Tables, scope: Scope, more: Scope)
    requires Evolves(t, u, scope) && Evolves(u, v, more) && more.Within(scope)
    ensures Evolves(t, v, scope)
  {
    forall i
      ensures AttemptKept(t, v, i, scope)
    {
      assert AttemptKept(t, u, i, scope) && AttemptKept(u, v, i, more);
    }
    forall k
      ensures DeliveryKept(t, v, k)
    {
      assert DeliveryKept(t, u, k) && DeliveryKept(u, v, k);
    }
    forall m
      ensures MessageKept(t, v, m)
    {
      assert MessageKept(t, u, m) && MessageKept(u, v, m);
    }
    forall b
      ensures BlockKept(t, v, b, scope)
    {
      assert BlockKept(t, u, b, scope) && BlockKept(u, v, b, more);
    }
    forall k
      ensures BindingKept(t, v, k, scope)
    {
      assert BindingKept(t, u, k, scope) && BindingKept(u, v, k, more);
    }
  }

  lemma EvolvesWiden(t: Tables, u: Tables, scope: Scope, wider: Scope)
    requires Evolves(t, u, scope) && scope.Within(wider)
    ensures Evolves(t, u, wider)
  {
    forall i
      ensures AttemptKept(t, u, i, wider)
    {
      assert AttemptKept(t, u, i, scope);
    }
    forall b
      ensures BlockKept(t, u, b, wider)
    {
      assert BlockKept(t, u, b, scope);
    }
    forall k
      ensures BindingKept(t, u, k, wider)
    {
      assert BindingKept(t, u, k, scope);
    }
  }

  /** What one action may touch in these ways. */
  function ScopeOf(t: Tables, a: Action): Scope {
    match a
    case Arm(_, i, _, _) => Arming(i)
    case ArmSession(_, i, _, _, _, _, _) => Arming(i)
    case Complete(_, i, _, _) => Completing(i)
    case CompleteSession(_, i, _, _, _, _) => Completing(i)
    case Resolve(b, _, _) => Scope({}, {}, {b}, t.bindings.Keys)
    case Acquire(_) => Retiring(t.bindings.Keys)
    case Retire(_, h, _) => Retiring({h.Key()})
    case _ => NOTHING
  }

  // ---- unused numbers -------------------------------------------------------------------------

  /** The next message, block and id are not in use. */
  ghost predicate Unused(t: Tables) {
    && (forall i | i in t.invocations :: i < t.nextId)
    && (forall b | b in t.blocks :: b < t.nextBlock)
    && (forall m | m in t.messages :: m < t.nextSeq)
    && (forall k | k in t.deliveries :: k.message < t.nextSeq)
    && (forall k | k in t.bindings :: k.id < t.nextId)
  }

  lemma InvUnused(t: Tables)
    requires Inv(t)
    ensures Unused(t)
  {
    forall i | i in t.invocations
      ensures i < t.nextId
    {
      assert AttemptRow(t, i);
    }
    forall b | b in t.blocks
      ensures b < t.nextBlock
    {
      assert BlockRow(t, b);
    }
    forall k | k in t.deliveries
      ensures k.message < t.nextSeq
    {
      assert DeliveryRow(t, k);
    }
    forall k | k in t.bindings
      ensures k.id < t.nextId
    {
      assert BindingRow(t, k);
    }
  }

  // ---- recovery, leasing and reservation ----------------------------------------------------------

  lemma ReservationsEvolve(t: Tables, agent: Id, now: Time)
    ensures Evolves(t, I.TerminalizeExpiredReservations(t, agent, now), NOTHING)
  {
  }

  lemma MarkEvolves(t: Tables, i: Id, reason: Text)
    requires S.MarkExpiredTurnUncertain(t, i, reason).Ok?
    ensures Evolves(t, S.MarkExpiredTurnUncertain(t, i, reason).value, NOTHING)
    ensures Unused(t) ==> Unused(S.MarkExpiredTurnUncertain(t, i, reason).value)
  {
  }

  lemma EndedEvolves(t: Tables, u: Tables, i: Id, k: DeliveryKey)
    requires Unused(t)
    requires i in t.invocations && i in u.invocations && AttemptMay(t.invocations[i], u.invocations[i])
    requires t.invocations[i].state.Armed? && !u.invocations[i].HasResult()
    requires k in t.deliveries && k in u.deliveries && DeliveryMay(t.deliveries[k], u.deliveries[k])
    requires t.nextBlock in u.blocks && u.blocks[t.nextBlock].resolved.None?
    requires u == t.(invocations := t.invocations[i := u.invocations[i]],
                     deliveries := t.deliveries[k := u.deliveries[k]],
                     blocks := t.blocks[t.nextBlock := u.blocks[t.nextBlock]], nextBlock := t.nextBlock + 1)
    ensures Evolves(t, u, NOTHING) && Unused(u)
  {
  }

  lemma ParkEvolves(t: Tables, i: Id, now: Time)
    requires Unused(t) && I.ParkExpired(t, i, now).Ok?
    ensures Evolves(t, I.ParkExpired(t, i, now).value, NOTHING) && Unused(I.ParkExpired(t, i, now).value)
  {
    var inv := t.invocations[i];
    var reason := I.ExpiryReason(i);
    var evidenced := K.RecordBlock(K.Park(t, inv.key, inv.token, reason), inv.key, t.deliveries[inv.key].attempt,
                                   inv.token, reason).value;
    var ended := evidenced.(invocations := evidenced.invocations[i := I.End(inv, now, OutcomeUnknown, LeaseExpiredAfterArm)]);
    EndedEvolves(t, ended, i, inv.key);
    MarkEvolves(ended, i, reason);
    EvolvesTransitive(t, ended, I.ParkExpired(t, i, now).value, NOTHING, NOTHING);
  }

  lemma {:induction false} ParkAllEvolves(t: Tables, ids: seq<Id>, now: Time)
    requires Unused(t) && I.ParkAll(t, ids, now).Ok?
    ensures Evolves(t, I.ParkAll(t, ids, now).value, NOTHING) && Unused(I.ParkAll(t, ids, now).value)
    decreases |ids|
  {
    if ids != [] {
      var parked := I.ParkExpired(t, ids[0], now).value;
      ParkEvolves(t, ids[0], now);
      ParkAllEvolves(parked, ids[1..], now);
      EvolvesTransitive(t, parked, I.ParkAll(parked, ids[1..], now).value, NOTHING, NOTHING);
    }
  }

  lemma RecoverEvolves(t: Tables, agent: Id, now: Time)
    requires Unused(t) && I.Recover(t, agent, now).Ok?
    ensures Evolves(t, I.Recover(t, agent, now).value.0, NOTHING) && Unused(I.Recover(t, agent, now).value.0)
  {
    var mid := I.TerminalizeExpiredReservations(t, agent, now);
    var ids := I.ArmedToPark(mid, agent, now);
    ReservationsEvolve(t, agent, now);
    assert Unused(mid);
    ParkAllEvolves(mid, ids, now);
    EvolvesTransitive(t, mid, I.ParkAll(mid, ids, now).value, NOTHING, NOTHING);
  }

  lemma {:induction false} ReapEvolves(t: Tables, agents: seq<Id>, now: Time)
    requires Unused(t) && I.RecoverAll(t, agents, now).Ok?
    ensures Evolves(t, I.RecoverAll(t, agents, now).value.0, NOTHING) && Unused(I.RecoverAll(t, agents, now).value.0)
    decreases |agents|
  {
    if agents != [] {
      var first := I.Recover(t, agents[0], now).value.0;
      RecoverEvolves(t, agents[0], now);
      ReapEvolves(first, agents[1..], now);
      EvolvesTransitive(t, first, I.RecoverAll(first, agents[1..], now).value.0, NOTHING, NOTHING);
    }
  }

  lemma LeaseEvolves(t: Tables, agent: Id, token: Id, expiry: Time, now: Time, limit: nat, kinds: Option<set<Text>>)
    ensures Evolves(t, K.LeaseClaimable(t, agent, token, expiry, now, limit, kinds), NOTHING)
    ensures Unused(t) ==> Unused(K.LeaseClaimable(t, agent, token, expiry, now, limit, kinds))
  {
    var keys := K.Oldest(K.ClaimableKeys(t, agent, now, kinds), limit);
    LeaseRowsEvolve(t, keys, token, expiry);
  }

  lemma LeaseRowsEvolve(t: Tables, keys: set<DeliveryKey>, token: Id, expiry: Time)
    requires forall k | k in keys && k in t.deliveries ::
               !t.deliveries[k].state.Acknowledged? && !t.deliveries[k].state.Dead?
    ensures Evolves(t, K.LeaseRows(t, keys, token, expiry), NOTHING)
    ensures Unused(t) ==> Unused(K.LeaseRows(t, keys, token, expiry))
  {
  }

  lemma LeaseRecoveredEvolves(t: Tables, recovery: Result<(Tables, nat)>, agent: Id, token: Id, input: I.ClaimInput,
                              now: Time)
    requires I.LeaseRecovered(recovery, agent, token, input, now).Ok?
    requires Evolves(t, recovery.value.0, NOTHING) && Unused(recovery.value.0)
    ensures Evolves(t, I.LeaseRecovered(recovery, agent, token, input, now).value, NOTHING)
    ensures Unused(I.LeaseRecovered(recovery, agent, token, input, now).value)
  {
    var u := recovery.value.0;
    LeaseEvolves(u, agent, token, now + input.duration, now, input.limit, input.kinds);
    EvolvesTransitive(t, u, I.LeaseRecovered(recovery, agent, token, input, now).value, NOTHING, NOTHING);
  }

  lemma IssueEvolves(t: Tables)
    ensures Evolves(t, t.(nextId := t.nextId + 1), NOTHING)
    ensures Unused(t) ==> Unused(t.(nextId := t.nextId + 1))
  {
  }

  lemma ClaimEvolves(t: Tables, agent: Id, input: I.ClaimInput, now: Time)
    requires Unused(t) && I.RecoverThenLease(t, agent, input, now).Ok?
    ensures Evolves(t, I.RecoverThenLease(t, agent, input, now).value, NOTHING)
    ensures Unused(I.RecoverThenLease(t, agent, input, now).value)
  {
    var issued := t.(nextId := t.nextId + 1);
    IssueEvolves(t);
    RecoverEvolves(issued, agent, now);
    EvolvesTransitive(t, issued, I.Recover(issued, agent, now).value.0, NOTHING, NOTHING);
    LeaseRecoveredEvolves(t, I.Recover(issued, agent, now), agent, t.nextId, input, now);
  }

  lemma ReserveRowEvolves(t: Tables, k: DeliveryKey, token: Id, expiry: Time, now: Time)
    requires Unused(t) && k in t.deliveries && I.ReserveRow(t, k, token, expiry, now).Ok?
    ensures Evolves(t, I.ReserveRow(t, k, token, expiry, now).value, NOTHING)
    ensures Unused(I.ReserveRow(t, k, token, expiry, now).value)
  {
  }

  lemma {:induction false} ReserveRowsEvolve(t: Tables, agent: Id, messages: seq<nat>, token: Id, expiry: Time, now: Time)
    requires Unused(t)
    requires forall m | m in messages :: DeliveryKey(m, agent) in t.deliveries
    requires I.ReserveRows(t, agent, messages, token, expiry, now).Ok?
    ensures Evolves(t, I.ReserveRows(t, agent, messages, token, expiry, now).value, NOTHING)
    decreases |messages|
  {
    if messages != [] {
      var reserved := I.ReserveRow(t, DeliveryKey(messages[0], agent), token, expiry, now).value;
      ReserveRowEvolves(t, DeliveryKey(messages[0], agent), token, expiry, now);
      ReserveRowsEvolve(reserved, agent, messages[1..], token, expiry, now);
      EvolvesTransitive(t, reserved, I.ReserveRows(reserved, agent, messages[1..], token, expiry, now).value, NOTHING, NOTHING);
    }
  }

  lemma ReserveLeasedEvolves(t: Tables, lease: Result<Tables>, agent: Id, token: Id, expiry: Time, now: Time)
    requires I.ReserveLeased(lease, agent, token, expiry, now).Ok?
    requires Evolves(t, lease.value, NOTHING) && Unused(lease.value)
    ensures Evolves(t, I.ReserveLeased(lease, agent, token, expiry, now).value, NOTHING)
  {
    I.LeasedRowsExist(lease.value, agent, token);
    ReserveRowsEvolve(lease.value, agent, Ascending(K.LeasedSeqs(lease.value, agent, token)), token, expiry, now);
    EvolvesTransitive(t, lease.value, I.ReserveLeased(lease, agent, token, expiry, now).value, NOTHING, NOTHING);
  }

  lemma ReserveEvolves(t: Tables, agent: Id, input: I.ClaimInput, now: Time)
    requires Unused(t) && I.ReserveInvocations(t, agent, input, now).Ok?
    ensures Evolves(t, I.ReserveInvocations(t, agent, input, now).value, NOTHING)
  {
    ClaimEvolves(t, agent, input, now);
    ReserveLeasedEvolves(t, I.RecoverThenLease(t, agent, input, now), agent, t.nextId, now + input.duration, now);
  }

  // ---- messages, completion and settlement ----------------------------------------------------------

  lemma InsertEvolves(t: Tables, m: Message, now: Time)
    requires Unused(t) && K.InsertMessage(t, m, now).Ok?
    ensures Evolves(t, K.InsertMessage(t, m, now).value, NOTHING)
  {
  }

  lemma PostEvolves(t: Tables, m: Message, now: Time)
    requires Unused(t) && Posted(t, m, now).Ok?
    ensures Evolves(t, Posted(t, m, now).value, NOTHING)
  {
    if K.InsertMessage(t, m, now).Ok? {
      InsertEvolves(t, m, now);
    }
  }

  lemma ArmEvolves(t: Tables, agent: Id, i: Id, arm: I.ArmInput, now: Time)
    requires I.ArmInvocation(t, agent, i, arm, now).Ok?
    ensures Evolves(t, I.ArmInvocation(t, agent, i, arm, now).value, Arming(i))
  {
  }

  lemma CompletedEvolves(t: Tables, u: Tables, i: Id, m: Message, now: Time)
    requires Unused(t) && P.CompletedNow(t, u, i, m, now)
    ensures Evolves(t, u, Completing(i))
  {
    var published := K.InsertMessage(t, m, now).value;
    InsertEvolves(t, m, now);
    assert DeliveryKept(t, published, t.invocations[i].key);
    CompletedRowsEvolve(published, u, i, t.invocations[i].key);
    EvolvesWiden(t, published, NOTHING, Completing(i));
    EvolvesTransitive(t, published, u, Completing(i), Completing(i));
  }

  lemma CompletedRowsEvolve(t: Tables, u: Tables, i: Id, k: DeliveryKey)
    requires i in t.invocations && i in u.invocations && AttemptMay(t.invocations[i], u.invocations[i])
    requires t.invocations[i].state.Armed?
    requires k in t.deliveries && k in u.deliveries && DeliveryMay(t.deliveries[k], u.deliveries[k])
    requires u == t.(invocations := t.invocations[i := u.invocations[i]],
                     deliveries := t.deliveries[k := u.deliveries[k]])
    ensures Evolves(t, u, Completing(i))
  {
  }

  lemma CompleteEvolves(t: Tables, agent: Id, i: Id, input: I.CompleteInput, now: Time, throughSession: bool)
    requires Inv(t) && I.CompleteInvocation(t, agent, i, input, now, throughSession).Ok?
    ensures Evolves(t, I.CompleteInvocation(t, agent, i, input, now, throughSession).value.0, Completing(i))
  {
    InvUnused(t);
    P.CompletionCases(t, agent, i, input, now, throughSession);
    var (u, created) := I.CompleteInvocation(t, agent, i, input, now, throughSession).value;
    if created {
      CompletedEvolves(t, u, i, I.ResultMessage(t, i, input), now);
    }
  }

  /** One lease was settled, whichever way. */
  lemma SettledEvolves(t: Tables, mid: Tables, k: DeliveryKey, token: Id, certainty: Certainty, reason: TerminalReason,
                       now: Time)
    requires K.Holds(t, k, token) && !reason.Completed?
    requires mid == t.(deliveries := mid.deliveries, blocks := mid.blocks, nextBlock := mid.nextBlock)
    requires forall l :: DeliveryKept(t, mid, l)
    requires forall b :: BlockKept(t, mid, b, NOTHING)
    requires t.nextBlock <= mid.nextBlock
    ensures Evolves(t, I.EndAttempts(mid, k, token, certainty, reason, now), NOTHING)
  {
    var u := I.EndAttempts(mid, k, token, certainty, reason, now);
    forall l
      ensures DeliveryKept(t, u, l)
    {
      assert DeliveryKept(t, mid, l);
    }
    forall b
      ensures BlockKept(t, u, b, NOTHING)
    {
      assert BlockKept(t, mid, b, NOTHING);
    }
  }

  lemma AcknowledgeEvolves(t: Tables, k: DeliveryKey, token: Id, now: Time)
    requires D.AcknowledgeDelivery(t, k, token, now).Ok?
    ensures Evolves(t, D.AcknowledgeDelivery(t, k, token, now).value, NOTHING)
  {
    if K.HoldsLive(t, k, token, now) {
      SettledEvolves(t, K.Acknowledge(t, k, token), k, token, OutcomeKnown, AcknowledgedBy, now);
    }
  }

  lemma RetryEvolves(t: Tables, k: DeliveryKey, input: D.RetryInput, now: Time)
    requires D.RetryDelivery(t, k, input, now).Ok?
    ensures Evolves(t, D.RetryDelivery(t, k, input, now).value, NOTHING)
  {
    if K.HoldsLive(t, k, input.token, now) {
      SettledEvolves(t, K.Release(t, k, input.token, now + input.retryAfter, input.error), k, input.token,
                     NotStarted, RetriedBy, now);
    }
  }

  lemma BlockEvolves(t: Tables, k: DeliveryKey, input: D.BlockInput, now: Time)
    requires Unused(t) && D.BlockDelivery(t, k, input, now).Ok?
    ensures Evolves(t, D.BlockDelivery(t, k, input, now).value.0, NOTHING)
  {
    if K.HoldsLive(t, k, input.token, now) {
      var mid := K.RecordBlock(K.Park(t, k, input.token, input.reason), k, t.deliveries[k].attempt, input.token,
                               input.reason).value;
      SettledEvolves(t, mid, k, input.token, OutcomeUnknown, BlockedBy, now);
    }
  }

  lemma RetireRowEvolves(t: Tables, k: BindingKey, reason: Text)
    requires k in t.bindings && !t.bindings[k].state.Retired?
    ensures Evolves(t, t.(bindings := t.bindings[k := B.RetireRow(t.bindings[k], reason)]), Retiring({k}))
  {
  }

  lemma RetireForBlockEvolves(t: Tables, b: nat, how: Resolution)
    requires B.RetireForBlock(t, b, how).Ok?
    ensures Evolves(t, B.RetireForBlock(t, b, how).value, Retiring(t.bindings.Keys))
  {
    var bound := B.BlockedTurns(t, b);
    if bound != {} {
      var k := t.turns[Least(bound)].binding;
      if !t.bindings[k].state.Retired? {
        RetireRowEvolves(t, k, B.OperatorReason(b, how));
        EvolvesWiden(t, B.RetireForBlock(t, b, how).value, Retiring({k}), Retiring(t.bindings.Keys));
      }
    }
  }

  lemma ResolveRowEvolves(t: Tables, b: nat, input: K.ResolveInput, now: Time)
    requires K.ResolveBlock(t, b, input, now).Ok?
    ensures Evolves(t, K.ResolveBlock(t, b, input, now).value, Scope({}, {}, {b}, t.bindings.Keys))
  {
    var u := K.ResolveBlock(t, b, input, now).value;
    if t.blocks[b].resolved.None? {
      ResolvedRowsEvolve(t, u, b, t.blocks[b].key);
    }
  }

  lemma ResolvedRowsEvolve(t: Tables, u: Tables, b: nat, k: DeliveryKey)
    requires b in t.blocks && b in u.blocks && BlockMay(t.blocks[b], u.blocks[b])
    requires k in t.deliveries && k in u.deliveries && DeliveryMay(t.deliveries[k], u.deliveries[k])
    requires u == t.(deliveries := t.deliveries[k := u.deliveries[k]], blocks := t.blocks[b := u.blocks[b]])
    ensures Evolves(t, u, Scope({}, {}, {b}, t.bindings.Keys))
  {
  }

  lemma ResolveEvolves(t: Tables, b: nat, input: K.ResolveInput, now: Time)
    requires D.ResolveDeliveryBlock(t, b, input, now).Ok?
    ensures Evolves(t, D.ResolveDeliveryBlock(t, b, input, now).value, Scope({}, {}, {b}, t.bindings.Keys))
  {
    ResolveRowEvolves(t, b, input, now);
    ResolveRowBindings(t, b, input, now);
    RetireResolvedEvolves(t, K.ResolveBlock(t, b, input, now), b, input.how);
  }

  lemma ResolveRowBindings(t: Tables, b: nat, input: K.ResolveInput, now: Time)
    requires K.ResolveBlock(t, b, input, now).Ok?
    ensures K.ResolveBlock(t, b, input, now).value.bindings == t.bindings
  {
  }

  lemma RetireResolvedEvolves(t: Tables, resolution: Result<Tables>, b: nat, how: Resolution)
    requires D.RetireResolved(resolution, b, how).Ok? && resolution.value.bindings == t.bindings
    requires Evolves(t, resolution.value, Scope({}, {}, {b}, t.bindings.Keys))
    ensures Evolves(t, D.RetireResolved(resolution, b, how).value, Scope({}, {}, {b}, t.bindings.Keys))
  {
    RetireForBlockEvolves(resolution.value, b, how);
    EvolvesTransitive(t, resolution.value, D.RetireResolved(resolution, b, how).value,
                      Scope({}, {}, {b}, t.bindings.Keys), Retiring(t.bindings.Keys));
  }

  // ---- sessions -----------------------------------------------------------------------------------------

  lemma InsertBindingEvolves(t: Tables, k: BindingKey, input: B.AcquireInput)
    requires B.InsertBinding(t, k, input).Ok?
    ensures Evolves(t, B.InsertBinding(t, k, input).value.0, NOTHING)
  {
  }

  lemma RotateEvolves(t: Tables, k: BindingKey, input: B.AcquireInput, reason: Text)
    requires k in t.bindings && B.Rotate(t, k, input, reason).Ok?
    ensures Evolves(t, B.Rotate(t, k, input, reason).value.0, Retiring(t.bindings.Keys))
  {
    var retired := t.(bindings := t.bindings[k := B.RetireRow(t.bindings[k], reason)]);
    RetireRowEvolves(t, k, reason);
    InsertBindingEvolves(retired, BindingKey(k.id, k.generation + 1), input);
    EvolvesWiden(t, retired, Retiring({k}), Retiring(t.bindings.Keys));
    EvolvesTransitive(t, retired, B.Rotate(t, k, input, reason).value.0, Retiring(t.bindings.Keys), NOTHING);
  }

  lemma AcquireExistingEvolves(t: Tables, k: BindingKey, input: B.AcquireInput)
    requires k in t.bindings && B.AcquireExisting(t, k, input).Ok?
    ensures Evolves(t, B.AcquireExisting(t, k, input).value.0, Retiring(t.bindings.Keys))
  {
    var b := t.bindings[k];
    if b.owner != input.owner {
      if b.state.Opening? {
        RotateEvolves(t, k, input, "opening_superseded_by_new_owner");
      } else if b.config != input.config {
        RotateEvolves(t, k, input, "incompatible_profile_rotation");
      }
    }
  }

  lemma AcquireFreshEvolves(t: Tables, input: B.AcquireInput)
    requires B.InsertAfterLatestRetired(t, input).Ok?
    ensures Evolves(t, B.InsertAfterLatestRetired(t, input).value.0, Retiring(t.bindings.Keys))
  {
    var rows := B.LaneRows(t, input.lane);
    if rows == {} {
      var issued := t.(nextId := t.nextId + 1);
      IssueEvolves(t);
      InsertBindingEvolves(issued, BindingKey(t.nextId, 1), input);
      EvolvesTransitive(t, issued, B.InsertAfterLatestRetired(t, input).value.0, NOTHING, NOTHING);
    } else {
      InsertBindingEvolves(t, BindingKey(B.Latest(rows).id, B.Latest(rows).generation + 1), input);
    }
    EvolvesWiden(t, B.InsertAfterLatestRetired(t, input).value.0, NOTHING, Retiring(t.bindings.Keys));
  }

  lemma AcquireEvolves(t: Tables, input: B.AcquireInput)
    requires B.AcquireSessionBinding(t, input).Ok?
    ensures Evolves(t, B.AcquireSessionBinding(t, input).value.0, Retiring(t.bindings.Keys))
  {
    var current := B.CurrentRows(t, input.lane);
    if current == {} {
      AcquireFreshEvolves(t, input);
    } else {
      AcquireExistingEvolves(t, B.Latest(current), input);
    }
  }

  lemma OpenedEvolves(t: Tables, agent: Id, h: Handle, sessionRef: Id)
    requires Inv(t) && B.RecordSessionOpened(t, agent, h, sessionRef).Ok?
    ensures Evolves(t, B.RecordSessionOpened(t, agent, h, sessionRef).value, NOTHING)
  {
    assert BindingRow(t, h.Key());
  }

  lemma BindEvolves(t: Tables, agent: Id, i: Id, h: Handle)
    requires B.ActivateTurn(t, agent, i, h).Ok?
    ensures Evolves(t, B.ActivateTurn(t, agent, i, h).value, Arming(i))
  {
  }

  lemma ArmSessionEvolves(t: Tables, agent: Id, i: Id, h: Handle, sessionRef: Id, generation: Id, arm: I.ArmInput, now: Time)
    requires B.ArmSessionInvocation(t, agent, i, h, sessionRef, generation, arm, now).Ok?
    ensures Evolves(t, B.ArmSessionInvocation(t, agent, i, h, sessionRef, generation, arm, now).value, Arming(i))
  {
    var armed := I.ArmInvocation(t, agent, i, arm, now).value;
    var bound := B.ActivateTurn(armed, agent, i, h).value;
    ArmEvolves(t, agent, i, arm, now);
    BindEvolves(armed, agent, i, h);
    EvolvesTransitive(t, armed, bound, Arming(i), Arming(i));
    EvolvesTransitive(t, bound, B.BeginObservation(bound, agent, i, generation).value, Arming(i), Arming(i));
  }

  /** One binding and the turn it carries move together. */
  lemma BoundTurnEvolves(t: Tables, u: Tables, k: BindingKey, i: Id)
    requires k in t.bindings && k in u.bindings && BindingMay(t.bindings[k], u.bindings[k])
    requires !u.bindings[k].state.Retired?
    requires i in t.turns && i in u.turns && TurnMay(t.turns[i], u.turns[i])
    requires u == t.(turns := t.turns[i := u.turns[i]], bindings := t.bindings[k := u.bindings[k]])
    ensures Evolves(t, u, NOTHING)
  {
  }

  lemma SettleTurnEvolves(t: Tables, agent: Id, i: Id, h: Handle, p: Persistence)
    requires B.SettleQuiescentTurn(t, agent, i, h, p).Ok?
    ensures Evolves(t, B.SettleQuiescentTurn(t, agent, i, h, p).value, NOTHING)
  {
    if t.turns[i].state.TurnActive? {
      BoundTurnEvolves(t, B.SettleQuiescentTurn(t, agent, i, h, p).value, h.Key(), i);
    }
  }

  lemma CompleteSessionEvolves(t: Tables, agent: Id, i: Id, h: Handle, p: Persistence, input: I.CompleteInput, now: Time)
    requires Inv(t) && B.CompleteSessionInvocation(t, agent, i, h, p, input, now).Ok?
    ensures Evolves(t, B.CompleteSessionInvocation(t, agent, i, h, p, input, now).value.0, Completing(i))
  {
    var u := I.CompleteInvocation(t, agent, i, input, now, true).value.0;
    CompleteEvolves(t, agent, i, input, now, true);
    SettleTurnEvolves(u, agent, i, h, p);
    EvolvesTransitive(t, u, B.SettleQuiescentTurn(u, agent, i, h, p).value, Completing(i), NOTHING);
  }

  lemma MarkSessionEvolves(t: Tables, agent: Id, i: Id, h: Handle, reason: Text)
    requires B.MarkSessionUncertain(t, agent, i, h, reason).Ok?
    ensures Evolves(t, B.MarkSessionUncertain(t, agent, i, h, reason).value, NOTHING)
  {
    if !t.bindings[h.Key()].state.Uncertain? {
      BoundTurnEvolves(t, B.MarkSessionUncertain(t, agent, i, h, reason).value, h.Key(), i);
    }
  }

  lemma RetireEvolves(t: Tables, agent: Id, h: Handle, reason: Text)
    requires B.RetireSessionBinding(t, agent, h, reason).Ok?
    ensures Evolves(t, B.RetireSessionBinding(t, agent, h, reason).value, Retiring({h.Key()}))
  {
    if !t.bindings[h.Key()].state.Retired? {
      RetireRowEvolves(t, h.Key(), reason);
    }
  }

  lemma EnvironmentEvolves(t: Tables, agents: set<Id>, channels: map<Id, Channel>, generations: map<Id, PluginGeneration>)
    ensures Evolves(t, t.(agents := agents, channels := channels, generations := generations), NOTHING)
  {
  }

  // ---- every transaction -----------------------------------------------------------------------------------

  lemma AttemptEvolves(t: Tables, a: Action)
    requires Inv(t) && Attempt(t, a).Ok?
    ensures Evolves(t, Attempt(t, a).value, ScopeOf(t, a))
  {
    InvUnused(t);
    match a
    case Environment(agents, channels, generations) => EnvironmentEvolves(t, agents, channels, generations);
    case Post(m, now) => PostEvolves(t, m, now);
    case Claim(agent, claim, now) => ClaimEvolves(t, agent, claim.(kinds := None), now);
    case Reserve(agent, claim, now) => ReserveEvolves(t, agent, claim, now);
    case Arm(agent, i, arm, now) => ArmEvolves(t, agent, i, arm, now);
    case Complete(agent, i, completion, now) => CompleteEvolves(t, agent, i, completion, now, false);
    case Acknowledge(k, token, now) => AcknowledgeEvolves(t, k, token, now);
    case Retry(k, retry, now) => RetryEvolves(t, k, retry, now);
    case Block(k, block, now) => BlockEvolves(t, k, block, now);
    case Resolve(b, decision, now) => ResolveEvolves(t, b, decision, now);
    case Reap(inboxes, now) => ReapEvolves(t, inboxes, now);
    case Acquire(input) => AcquireEvolves(t, input);
    case Opened(agent, h, sessionRef) => OpenedEvolves(t, agent, h, sessionRef);
    case ArmSession(agent, i, h, sessionRef, generation, arm, now) =>
      ArmSessionEvolves(t, agent, i, h, sessionRef, generation, arm, now);
    case CompleteSession(agent, i, h, p, completion, now) => CompleteSessionEvolves(t, agent, i, h, p, completion, now);
    case MarkUncertain(agent, i, h, reason) => MarkSessionEvolves(t, agent, i, h, reason);
    case Retire(agent, h, reason) => RetireEvolves(t, agent, h, reason);
  }

  lemma StepEvolves(t: Tables, a: Action)
    requires Inv(t)
    ensures Evolves(t, Step(t, a), ScopeOf(t, a))
  {
    if Attempt(t, a).Ok? {
      AttemptEvolves(t, a);
    }
  }

  // ---- any number of transactions ------------------------------------------------------------------------------

  function Join(a: Scope, b: Scope): Scope {
    Scope(a.arms + b.arms, a.completes + b.completes, a.resolves + b.resolves, a.retires + b.retires)
  }

  lemma EvolvesReflexive(t: Tables)
    ensures Evolves(t, t, NOTHING)
  {
  }

  lemma JoinEvolves(t: Tables, u: Tables, v: Tables, a: Scope, b: Scope)
    requires Evolves(t, u, a) && Evolves(u, v, b)
    ensures Evolves(t, v, Join(a, b))
  {
    EvolvesWiden(t, u, a, Join(a, b));
    EvolvesTransitive(t, u, v, Join(a, b), b);
  }

  /** Some number of transactions lead from one state to the other; nothing was taken back. */
  ghost predicate Later(t: Tables, u: Tables) {
    exists scope :: Evolves(t, u, scope)
  }

  /** Whatever other parties do meanwhile keeps the invariant and takes nothing back. */
  lemma {:induction false} StepsKeep(t: Tables, calls: seq<Action>)
    requires Inv(t)
    ensures Inv(Steps(t, calls)) && Later(t, Steps(t, calls))
    decreases |calls|
  {
    if calls == [] {
      NoSteps(t);
      EvolvesReflexive(t);
    } else {
      FirstOfSteps(t, calls);
      FirstStep(t, calls[0]);
      StepsKeep(Step(t, calls[0]), calls[1..]);
      LaterJoins(t, Step(t, calls[0]), ScopeOf(t, calls[0]), Steps(t, calls));
    }
  }

  lemma LaterJoins(t: Tables, u: Tables, scope: Scope, v: Tables)
    requires Evolves(t, u, scope) && Later(u, v)
    ensures Later(t, v)
  {
    var more :| Evolves(u, v, more);
    JoinEvolves(t, u, v, scope, more);
  }

  lemma FirstStep(t: Tables, a: Action)
    requires Inv(t)
    ensures Inv(Step(t, a)) && Evolves(t, Step(t, a), ScopeOf(t, a))
  {
    P.StepKeeps(t, a);
    StepEvolves(t, a);
  }
}
