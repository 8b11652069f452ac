/**
 When recovery can fail. It fails exactly on an expired armed attempt whose
 session was retired under it, and only retiring a session that is uncertain for
 a still armed attempt creates one; without that step recovery is total,
 complete, exactly counted and idempotent.
 */
module Totality {
  import opened Wrappers
  import opened Tables
  import opened Protocol
  import opened Ordering
  import opened DeliveryInvariant
  import opened SessionInvariant
  import opened Recovery
  import opened Evolution
  import opened Runs
  import I = Invocations
  import K = Kernel
  import B = SessionBindings
  import D = Settlements
  import L = Leasing
  import O = Ownership
  import P = ProtocolInvariant

  // ---- the step that strands an attempt ------------------------------------------------------------

  /** Attempt `i` is still armed, but its session is already retired. */
  predicate OpenStranded(t: Tables, i: Id) {
    i in t.invocations && t.invocations[i].state.Armed? && Stranded(t, i)
  }

  /** Retiring, under handle `h`, a session that is uncertain for the still armed attempt `i`. */
  predicate RetiresEarly(t: Tables, h: Handle, i: Id) {
    && h.Key() in t.bindings
    && t.bindings[h.Key()].state.Uncertain? && t.bindings[h.Key()].active == Some(i)
    && i in t.invocations && t.invocations[i].state.Armed?
  }

  predicate EarlyRetirement(e: Event, i: Id) {
    e.ok && e.call.Retire? && RetiresEarly(e.before, e.call.handle, i)
  }

  lemma AcquireRetiresIdle(t: Tables, input: B.AcquireInput, k: BindingKey)
    requires B.AcquireSessionBinding(t, input).Ok? && k in t.bindings
    requires IsRetired(B.AcquireSessionBinding(t, input).value.0, k) && !IsRetired(t, k)
    ensures t.bindings[k].state.Opening? || t.bindings[k].state.Ready?
  {
    var current := B.CurrentRows(t, input.lane);
    if current == {} {
      FreshRetiresNothing(t, input, k);
    } else {
      ExistingRetiresIdle(t, B.Latest(current), input, k);
    }
  }

  lemma FreshRetiresNothing(t: Tables, input: B.AcquireInput, k: BindingKey)
    requires B.InsertAfterLatestRetired(t, input).Ok? && k in t.bindings
    ensures IsRetired(B.InsertAfterLatestRetired(t, input).value.0, k) ==> IsRetired(t, k)
  {
    var rows := B.LaneRows(t, input.lane);
    if rows == {} {
      InsertRetiresNothing(t.(nextId := t.nextId + 1), BindingKey(t.nextId, 1), input, k);
    } else {
      InsertRetiresNothing(t, BindingKey(B.Latest(rows).id, B.Latest(rows).generation + 1), input, k);
    }
  }

  lemma InsertRetiresNothing(t: Tables, l: BindingKey, input: B.AcquireInput, k: BindingKey)
    requires B.InsertBinding(t, l, input).Ok? && k in t.bindings
    ensures k in B.InsertBinding(t, l, input).value.0.bindings
    ensures B.InsertBinding(t, l, input).value.0.bindings[k] == t.bindings[k]
  {
  }

  lemma ExistingRetiresIdle(t: Tables, l: BindingKey, input: B.AcquireInput, k: BindingKey)
    requires l in t.bindings && B.AcquireExisting(t, l, input).Ok? && k in t.bindings && !IsRetired(t, k)
    requires IsRetired(B.AcquireExisting(t, l, input).value.0, k)
    ensures t.bindings[k].state.Opening? || t.bindings[k].state.Ready?
  {
    var b := t.bindings[l];
    if b.owner != input.owner && (b.state.Opening? || b.config != input.config) {
      var reason := if b.state.Opening? then "opening_superseded_by_new_owner" else "incompatible_profile_rotation";
      RotateRetiresIdle(t, l, input, reason, k);
    }
  }

  lemma RotateRetiresIdle(t: Tables, l: BindingKey, input: B.AcquireInput, reason: Text, k: BindingKey)
    requires l in t.bindings && B.Rotate(t, l, input, reason).Ok? && k in t.bindings && !IsRetired(t, k)
    requires IsRetired(B.Rotate(t, l, input, reason).value.0, k)
    ensures t.bindings[k].state.Opening? || t.bindings[k].state.Ready?
  {
    var retired := t.(bindings := t.bindings[l := B.RetireRow(t.bindings[l], reason)]);
    InsertRetiresNothing(retired, BindingKey(l.id, l.generation + 1), input, k);
  }

  /** An operator's decision retires only a session whose attempt already ended. */
  lemma ResolveRetiresEnded(t: Tables, b: nat, input: K.ResolveInput, now: Time, k: BindingKey)
    requires D.ResolveDeliveryBlock(t, b, input, now).Ok? && k in t.bindings
    requires IsRetired(D.ResolveDeliveryBlock(t, b, input, now).value, k) && !IsRetired(t, k)
    ensures t.bindings[k].active.Some?
    ensures t.bindings[k].active.value in t.invocations && t.invocations[t.bindings[k].active.value].state.Terminal?
  {
    var u := K.ResolveBlock(t, b, input, now).value;
    ResolveRowFrame(t, b, input, now);
    BlockRetiresEnded(u, b, input.how, k);
  }

  lemma ResolveRowFrame(t: Tables, b: nat, input: K.ResolveInput, now: Time)
    requires K.ResolveBlock(t, b, input, now).Ok?
    ensures var u := K.ResolveBlock(t, b, input, now).value; u == t.(deliveries := u.deliveries, blocks := u.blocks)
  {
  }

  lemma BlockRetiresEnded(t: Tables, b: nat, how: Resolution, k: BindingKey)
    requires B.RetireForBlock(t, b, how).Ok? && k in t.bindings
    requires IsRetired(B.RetireForBlock(t, b, how).value, k) && !IsRetired(t, k)
    ensures t.bindings[k].active.Some?
    ensures t.bindings[k].active.value in t.invocations && t.invocations[t.bindings[k].active.value].state.Terminal?
  {
  }

  /** The turn of an armed attempt that is not stranded fixes its binding's state. */
  lemma ArmedTurnHolds(t: Tables, i: Id)
    requires Inv(t) && i in t.turns && i in t.invocations && t.invocations[i].state.Armed? && !Stranded(t, i)
    ensures t.turns[i].binding in t.bindings && t.bindings[t.turns[i].binding].active == Some(i)
    ensures t.bindings[t.turns[i].binding].state.Active? || t.bindings[t.turns[i].binding].state.Uncertain?
  {
    assert TurnRow(t, i);
  }

  /** Where a stranded attempt came from, one transaction back. */
  lemma StrandedBefore(t: Tables, u: Tables, scope: Scope, i: Id)
    requires Inv(t) && Evolves(t, u, scope) && OpenStranded(u, i) && i in t.turns
    ensures i in t.invocations && t.invocations[i].state.Armed? && u.turns[i].binding == t.turns[i].binding
    ensures !Stranded(t, i) ==> t.turns[i].binding in scope.retires
  {
    assert AttemptKept(t, u, i, scope) && TurnRow(t, i);
    assert BindingKept(t, u, t.turns[i].binding, scope);
  }

  lemma RetireWhileUncertain(t: Tables, agent: Id, h: Handle, reason: Text)
    requires B.RetireSessionBinding(t, agent, h, reason).Ok?
    ensures h.Key() in t.bindings && !t.bindings[h.Key()].state.Active?
  {
  }

  /** A new turn is never stranded. */
  lemma NewTurnNotStranded(run: seq<Event>, n: nat, i: Id)
    requires Run(run) && n < |run| && i in run[n].after.turns && i !in run[n].before.turns
    ensures !Stranded(run[n].after, i)
  {
    O.TurnsComeFromArming(run, n, i);
    LinkedBefore(run, n);
    Reachable(run, n);
    var a := run[n].call;
    O.ArmNeedsOpenRow(run[n].before, a.agent, a.attempt, a.handle, a.sessionRef, a.generation, a.arm, a.now);
    assert TurnRow(run[n].after, i);
  }

  /** Only an early retirement strands an attempt. */
  lemma OnlyEarlyRetirementStrands(run: seq<Event>, n: nat, i: Id)
    requires Run(run) && n < |run| && !OpenStranded(run[n].before, i) && OpenStranded(run[n].after, i)
    ensures EarlyRetirement(run[n], i)
  {
    var t, u, a := run[n].before, run[n].after, run[n].call;
    Reachable(run, n);
    Evolved(run, n);
    LinkedBefore(run, n);
    if i !in t.turns {
      NewTurnNotStranded(run, n, i);
    } else {
      StrandedBefore(t, u, ScopeOf(t, a), i);
      ArmedTurnHolds(t, i);
      StrandingCall(run[n], t.turns[i].binding, i);
    }
  }

  lemma StrandingCall(e: Event, k: BindingKey, i: Id)
    requires Executed(e) && k in e.before.bindings && k in ScopeOf(e.before, e.call).retires
    requires IsRetired(e.after, k) && !IsRetired(e.before, k)
    requires i in e.before.invocations && e.before.invocations[i].state.Armed? && e.before.bindings[k].active == Some(i)
    requires e.before.bindings[k].state.Active? || e.before.bindings[k].state.Uncertain?
    ensures EarlyRetirement(e, i)
  {
    var t, a := e.before, e.call;
    if a.Acquire? {
      AcquireRetiresIdle(t, a.acquire, k);
    } else if a.Resolve? {
      ResolveRetiresEnded(t, a.blockId, a.decision, a.now, k);
    } else {
      RetireWhileUncertain(t, a.agent, a.handle, a.reason);
    }
  }

  // ---- runs without early retirement ------------------------------------------------------------------

  ghost predicate NoneStrandedIn(t: Tables) {
    forall i :: !OpenStranded(t, i)
  }

  ghost predicate NeverRetiresEarly(run: seq<Event>, n: nat)
    requires n < |run|
  {
    forall m, i | 0 <= m <= n :: !EarlyRetirement(run[m], i)
  }

  lemma {:induction false} NothingStranded(run: seq<Event>, n: nat)
    requires Run(run) && n < |run| && NeverRetiresEarly(run, n)
    ensures NoneStrandedIn(run[n].after)
  {
    LinkedBefore(run, n);
    if n > 0 {
      NothingStranded(run, n - 1);
    }
    forall i
      ensures !OpenStranded(run[n].after, i)
    {
      if OpenStranded(run[n].after, i) {
        OnlyEarlyRetirementStrands(run, n, i);
      }
    }
  }

  /** Without retirements, nothing becomes stranded. */
  lemma StaysUnstranded(t: Tables, u: Tables)
    requires Inv(t) && NoneStrandedIn(t) && Evolves(t, u, NOTHING)
    ensures NoneStrandedIn(u)
  {
    forall i
      ensures !OpenStranded(u, i)
    {
      assert !OpenStranded(t, i) && AttemptKept(t, u, i, NOTHING);
      if OpenStranded(u, i) {
        StrandedBefore(t, u, NOTHING, i);
      }
    }
  }

  // ---- the reaper ---------------------------------------------------------------------------------------

  /** The open attempts of these inboxes whose lease is expired at `now`. */
  ghost function Expired(t: Tables, agents: seq<Id>, now: Time): set<Id> {
    set i | i in t.invocations && t.invocations[i].key.agent in agents
            && I.ExpiredAttempt(t, i, t.invocations[i].key.agent, now)
  }

  /** Recovering one inbox removes exactly its own expired attempts. */
  lemma RecoverRemoves(t: Tables, u: Tables, agents: seq<Id>, now: Time)
    requires agents != [] && Inv(t) && Inv(u) && Recovered(t, u, agents[0], now)
    ensures Expired(u, agents[1..], now) == Expired(t, agents, now) - Expired(t, [agents[0]], now)
    ensures Expired(t, [agents[0]], now) == set i | i in t.invocations && I.ExpiredAttempt(t, i, agents[0], now)
    ensures Expired(t, [agents[0]], now) <= Expired(t, agents, now)
  {
    assert agents == [agents[0]] + agents[1..];
    forall i | i in t.invocations
      ensures i in Expired(u, agents[1..], now) <==> i in Expired(t, agents, now) && i !in Expired(t, [agents[0]], now)
    {
      ExpiredTogether(t, i, t.invocations[i].key.agent, now);
      ExpiredTogether(u, i, t.invocations[i].key.agent, now);
    }
  }

  lemma RecoverOne(t: Tables, agent: Id, now: Time)
    requires Inv(t) && NoneStrandedIn(t)
    ensures I.Recover(t, agent, now).Ok?
    ensures var (u, n) := I.Recover(t, agent, now).value;
            && Inv(u) && NoneStrandedIn(u) && Recovered(t, u, agent, now)
            && n == |set i | i in t.invocations && I.ExpiredAttempt(t, i, agent, now)|
  {
    RecoveryExactly(t, agent, now);
    assert forall i :: StrandedExpired(t, i, agent, now) ==> OpenStranded(t, i);
    InvUnused(t);
    RecoverEvolves(t, agent, now);
    StaysUnstranded(t, I.Recover(t, agent, now).value.0);
  }

  /** The reaper never conflicts, settles every expired attempt of its inboxes, and counts them. */
  lemma {:induction false} ReaperIsTotal(t: Tables, agents: seq<Id>, now: Time)
    requires Inv(t) && NoneStrandedIn(t)
    ensures I.RecoverAll(t, agents, now).Ok?
    ensures var (u, n) := I.RecoverAll(t, agents, now).value;
            Inv(u) && NoneStrandedIn(u) && Expired(u, agents, now) == {} && n == |Expired(t, agents, now)|
    ensures var u := I.RecoverAll(t, agents, now).value.0;
            && u.invocations.Keys == t.invocations.Keys
            && (forall i | i in t.invocations && i !in Expired(t, agents, now) :: u.invocations[i] == t.invocations[i])
            && (forall i | i in Expired(t, agents, now) ::
                  u.invocations[i].Ended(if t.invocations[i].state.Armed? then OutcomeUnknown else NotStarted))
    decreases |agents|
  {
    if agents != [] {
      RecoverOne(t, agents[0], now);
      var (u, n) := I.Recover(t, agents[0], now).value;
      ReaperIsTotal(u, agents[1..], now);
      RecoverRemoves(t, u, agents, now);
      var v := I.RecoverAll(u, agents[1..], now).value.0;
      ReapComposes(t, u, v, agents, now);
    }
  }

  lemma ReapComposes(t: Tables, u: Tables, v: Tables, agents: seq<Id>, now: Time)
    requires agents != [] && Inv(t) && Inv(u) && Inv(v) && Recovered(t, u, agents[0], now)
    requires u.invocations.Keys == v.invocations.Keys
    requires Expired(v, agents[1..], now) == {}
    requires Expired(u, agents[1..], now) == Expired(t, agents, now) - Expired(t, [agents[0]], now)
    requires forall i | i in u.invocations && i !in Expired(u, agents[1..], now) :: v.invocations[i] == u.invocations[i]
    requires forall i | i in Expired(u, agents[1..], now) ::
               v.invocations[i].Ended(if u.invocations[i].state.Armed? then OutcomeUnknown else NotStarted)
    ensures Expired(v, agents, now) == {}
    ensures forall i | i in t.invocations && i !in Expired(t, agents, now) :: v.invocations[i] == t.invocations[i]
    ensures forall i | i in Expired(t, agents, now) ::
              v.invocations[i].Ended(if t.invocations[i].state.Armed? then OutcomeUnknown else NotStarted)
  {
    assert agents == [agents[0]] + agents[1..];
    forall i | i in t.invocations
      ensures i !in Expired(v, agents, now)
      ensures i !in Expired(t, agents, now) ==> v.invocations[i] == t.invocations[i]
      ensures i in Expired(t, agents, now) ==>
                v.invocations[i].Ended(if t.invocations[i].state.Armed? then OutcomeUnknown else NotStarted)
    {
      assert i in Expired(t, [agents[0]], now) <==> I.ExpiredAttempt(t, i, agents[0], now);
      ExpiredTogether(v, i, v.invocations[i].key.agent, now);
      ExpiredTogether(t, i, t.invocations[i].key.agent, now);
    }
  }

  /** Reaping twice at one clock reading changes nothing and reports nothing. */
  lemma {:induction false} ReaperIsIdempotent(t: Tables, agents: seq<Id>, now: Time)
    requires Inv(t) && Expired(t, agents, now) == {}
    ensures I.RecoverAll(t, agents, now) == Ok((t, 0))
    decreases |agents|
  {
    if agents != [] {
      forall i | i in t.invocations && t.invocations[i].key.agent == agents[0] && !t.invocations[i].state.Terminal?
        ensures t.invocations[i].expiry > now
      {
        assert i !in Expired(t, agents, now);
        ExpiredTogether(t, i, agents[0], now);
      }
      NothingToRecover(t, agents[0], now);
      assert forall i | i in Expired(t, agents[1..], now) :: i in Expired(t, agents, now);
      ReaperIsIdempotent(t, agents[1..], now);
    }
  }

  /**
   In a run that never retires a session early, the reaper called next with any
   inbox list and clock succeeds, leaves those inboxes nothing expired, reports
   exactly what it settled, and reports nothing when repeated.
   */
  lemma RecoveryTotalInRuns(run: seq<Event>, n: nat, agents: seq<Id>, now: Time)
    requires Run(run) && n < |run| && NeverRetiresEarly(run, n)
    ensures I.RecoverAll(run[n].after, agents, now).Ok?
    ensures var (u, count) := I.RecoverAll(run[n].after, agents, now).value;
            && Expired(u, agents, now) == {} && count == |Expired(run[n].after, agents, now)|
            && I.RecoverAll(u, agents, now) == Ok((u, 0))
  {
    Reachable(run, n);
    NothingStranded(run, n);
    ReaperIsTotal(run[n].after, agents, now);
    ReaperIsIdempotent(I.RecoverAll(run[n].after, agents, now).value.0, agents, now);
  }

  // ---- what an early retirement does ----------------------------------------------------------------------

  /** An early retirement strands its attempt at once. */
  lemma EarlyRetirementStrands(e: Event, i: Id)
    requires Executed(e) && Inv(e.before) && EarlyRetirement(e, i)
    ensures OpenStranded(e.after, i)
  {
    assert BindingRow(e.before, e.call.handle.Key());
  }

  /** A stranded attempt fails every recovery of its inbox from its expiry on, and so every claim. */
  lemma StrandedBlocksRecovery(t: Tables, i: Id, now: Time, input: I.ClaimInput)
    requires Inv(t) && OpenStranded(t, i) && t.invocations[i].expiry <= now
    ensures I.Recover(t, t.invocations[i].key.agent, now).Err?
    ensures I.RecoverThenLease(t, t.invocations[i].key.agent, input, now).Err?
  {
    var agent := t.invocations[i].key.agent;
    ExpiredTogether(t, i, agent, now);
    RecoveryExactly(t, agent, now);
    assert StrandedExpired(t, i, agent, now);
    var issued := t.(nextId := t.nextId + 1);
    L.IssueKeeps(t);
    assert OpenStranded(issued, i);
    StrandedFails(issued, i, now);
  }

  lemma StrandedFails(t: Tables, i: Id, now: Time)
    requires Inv(t) && OpenStranded(t, i) && t.invocations[i].expiry <= now
    ensures I.Recover(t, t.invocations[i].key.agent, now).Err?
  {
    ExpiredTogether(t, i, t.invocations[i].key.agent, now);
    RecoveryExactly(t, t.invocations[i].key.agent, now);
    assert StrandedExpired(t, i, t.invocations[i].key.agent, now);
  }

  /** A claim fails for one reason beyond its own inputs: a stranded attempt expired in the inbox. */
  lemma ClaimExactly(t: Tables, agent: Id, input: I.ClaimInput, now: Time)
    requires Inv(t)
    ensures I.RecoverThenLease(t, agent, input, now).Ok? <==>
              && K.ValidClaim(input.limit, input.duration) && agent in t.agents && now + input.duration <= I64_MAX
              && forall i :: !StrandedExpired(t, i, agent, now)
  {
    var issued := t.(nextId := t.nextId + 1);
    L.IssueKeeps(t);
    RecoveryExactly(issued, agent, now);
    assert forall i :: StrandedExpired(issued, i, agent, now) <==> StrandedExpired(t, i, agent, now);
  }

  // ---- what an operator can resolve ---------------------------------------------------------------------------

  /** A bound attempt named by a block ended unknown, and its session is uncertain for it unless retired since. */
  lemma BlockedTurnIsUncertain(t: Tables, b: nat, i: Id)
    requires Inv(t) && b in t.blocks && i in B.BlockedTurns(t, b)
    ensures t.invocations[i].Ended(OutcomeUnknown) && t.turns[i].state.TurnUncertain?
    ensures !IsRetired(t, t.turns[i].binding) ==>
              t.bindings[t.turns[i].binding].state.Uncertain? && t.bindings[t.turns[i].binding].active == Some(i)
  {
    assert BlockRow(t, b) && AttemptRow(t, i) && TurnRow(t, i);
    assert Evidence(t, b, t.invocations[i].key, t.invocations[i].token);
  }

  lemma OneBlockedTurn(t: Tables, b: nat, i: Id, j: Id)
    requires Inv(t) && b in t.blocks && i in B.BlockedTurns(t, b) && j in B.BlockedTurns(t, b)
    ensures i == j
  {
    assert AttemptPair(t, i, j);
  }

  /** The session of the blocked attempt was retired by something other than this decision. */
  predicate RetiredElsewhere(t: Tables, b: nat, how: Resolution, i: Id)
    requires b in t.blocks
  {
    && i in B.BlockedTurns(t, b)
    && t.bindings[t.turns[i].binding].state.Retired?
    && t.bindings[t.turns[i].binding].retiredReason != Some(B.OperatorReason(b, how))
  }

  lemma RetireForBlockExactly(t: Tables, b: nat, how: Resolution)
    requires Inv(t) && b in t.blocks
    ensures B.RetireForBlock(t, b, how).Ok? <==> forall i :: !RetiredElsewhere(t, b, how, i)
  {
    var bound := B.BlockedTurns(t, b);
    if bound != {} {
      var i := Least(bound);
      BlockedTurnIsUncertain(t, b, i);
      assert RetiredElsewhere(t, b, how, i) || !RetiredElsewhere(t, b, how, i);
      forall j | j in bound
        ensures j == i
      {
        OneBlockedTurn(t, b, i, j);
      }
    }
  }

  /** An open block can be resolved, either way, exactly when its session was not retired by hand. */
  lemma ResolutionExactly(t: Tables, b: nat, input: K.ResolveInput, now: Time)
    requires Inv(t) && b in t.blocks && t.blocks[b].resolved.None?
    requires K.ValidResolution(b, input) && (input.how.Requeue? ==> now + input.retryAfter <= I64_MAX)
    ensures D.ResolveDeliveryBlock(t, b, input, now).Ok? <==> forall i :: !RetiredElsewhere(t, b, input.how, i)
  {
    assert BlockRow(t, b);
    var u := K.ResolveBlock(t, b, input, now).value;
    ResolveRowFrame(t, b, input, now);
    P.ResolveRowKeeps(t, b, input, now);
    RetireForBlockExactly(u, b, input.how);
    assert B.BlockedTurns(u, b) == B.BlockedTurns(t, b);
    assert forall i :: RetiredElsewhere(u, b, input.how, i) <==> RetiredElsewhere(t, b, input.how, i);
  }
}
