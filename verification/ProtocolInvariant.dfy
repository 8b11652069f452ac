/** Every transaction keeps the joint invariant of the four coupled tables. */
module ProtocolInvariant {
  import opened Wrappers
  import opened Tables
  import opened Protocol
  import opened DeliveryInvariant
  import opened SessionInvariant
  import opened Recovery
  import opened Leasing
  import I = Invocations
  import K = Kernel
  import S = SessionTurns
  import B = SessionBindings
  import D = Settlements

  lemma EmptyStore()
    ensures Inv(EMPTY)
  {
  }

  // ---- environment and messages ---------------------------------------------------------

  lemma EnvironmentKeeps(t: Tables, agents: set<Id>, channels: map<Id, Channel>, generations: map<Id, PluginGeneration>)
    requires Inv(t)
    ensures Inv(t.(agents := agents, channels := channels, generations := generations))
  {
    var u := t.(agents := agents, channels := channels, generations := generations);
    DeliveryPart(t, u);
    QuietKeeps(t, u);
  }

  /** A new sequence is above every stored one. */
  lemma NewSequence(t: Tables)
    requires DeliveryInv(t)
    ensures t.nextSeq !in t.messages
  {
    if t.nextSeq in t.messages {
      assert false;
    }
  }

  lemma InsertKeepsAll(t: Tables, m: Message, now: Time)
    requires Inv(t) && K.InsertMessage(t, m, now).Ok?
    ensures Inv(K.InsertMessage(t, m, now).value)
  {
    NewSequence(t);
    InsertMessageKeeps(t, m, now);
    QuietKeeps(t, K.InsertMessage(t, m, now).value);
  }

  lemma PostKeeps(t: Tables, m: Message, now: Time)
    requires Inv(t) && Posted(t, m, now).Ok?
    ensures Inv(Posted(t, m, now).value)
  {
    if K.InsertMessage(t, m, now).Ok? {
      InsertKeepsAll(t, m, now);
    }
  }

  // ---- the dispatch fence ------------------------------------------------------------------

  lemma ArmKeeps(t: Tables, agent: Id, i: Id, arm: I.ArmInput, now: Time)
    requires Inv(t) && I.ArmInvocation(t, agent, i, arm, now).Ok?
    ensures Inv(I.ArmInvocation(t, agent, i, arm, now).value)
    ensures I.ArmInvocation(t, agent, i, arm, now).value.invocations[i].state.Armed?
  {
    var u := I.ArmInvocation(t, agent, i, arm, now).value;
    if t.invocations[i].state.Reserved? {
      ReservationsMove(t, u);
      assert i in t.turns ==> TurnRow(t, i);
      forall j | j in t.invocations
        ensures QuietMove(t, u, j)
      {
      }
      QuietKeeps(t, u);
    }
  }

  /** A committed completion: the result, the acknowledgement and the verdict. */
  ghost predicate CompletedNow(t: Tables, u: Tables, i: Id, m: Message, now: Time) {
    && i in t.invocations && t.invocations[i].key in t.deliveries
    && t.invocations[i].key.message in t.messages
    && K.InsertMessage(t, m, now).Ok?
    && t.invocations[i].state.Armed?
    && K.Holds(t, t.invocations[i].key, t.invocations[i].token)
    && u == K.Acknowledge(K.InsertMessage(t, m, now).value, t.invocations[i].key, t.invocations[i].token)
              .(invocations := t.invocations[i := I.End(t.invocations[i], now, OutcomeKnown, Completed(t.nextSeq))])
  }

  lemma CompletedDeliveries(t: Tables, u: Tables, i: Id, m: Message, now: Time)
    requires DeliveryInv(t) && CompletedNow(t, u, i, m, now)
    ensures DeliveryInv(u)
  {
    var inv := t.invocations[i];
    var published := K.InsertMessage(t, m, now).value;
    InsertMessageKeeps(t, m, now);
    AcknowledgeKeeps(published, inv.key, inv.token, Completed(t.nextSeq), now);
    DistinctKeeps(published, K.Acknowledge(published, inv.key, inv.token));
    EndAttemptsIsSingle(K.Acknowledge(published, inv.key, inv.token), i, OutcomeKnown, Completed(t.nextSeq), now);
  }

  /** The stored result of a completed attempt says this. */
  predicate ResultSays(t: Tables, i: Id, kind: Text, payload: Text) {
    && i in t.invocations && t.invocations[i].HasResult() && t.invocations[i].state.reason.result in t.messages
    && var m := t.messages[t.invocations[i].state.reason.result]; m.kind == kind && m.payload == payload
  }

  /** A successful completion either repeats the stored kind and payload and writes nothing, or commits now. */
  lemma CompletionCases(t: Tables, agent: Id, i: Id, input: I.CompleteInput, now: Time, throughSession: bool)
    requires DeliveryInv(t) && I.CompleteInvocation(t, agent, i, input, now, throughSession).Ok?
    ensures i in t.invocations && t.invocations[i].key.message in t.messages && t.invocations[i].key.agent == agent
    ensures var (u, created) := I.CompleteInvocation(t, agent, i, input, now, throughSession).value;
            if created then CompletedNow(t, u, i, I.ResultMessage(t, i, input), now)
            else u == t && ResultSays(t, i, input.kind, input.payload)
  {
    var r := I.CompleteInvocation(t, agent, i, input, now, throughSession).value;
    if r.1 {
      InsertMessageKeeps(t, I.ResultMessage(t, i, input), now);
    }
  }

  /** The inserted result answers the input of its attempt. */
  lemma CompletedAnswers(t: Tables, u: Tables, i: Id, input: I.CompleteInput, now: Time)
    requires DeliveryInv(t) && i in t.invocations && t.invocations[i].key.message in t.messages
    requires CompletedNow(t, u, i, I.ResultMessage(t, i, input), now)
    ensures i in u.invocations && Answers(u, i, t.nextSeq)
    ensures forall m | m in t.messages :: m in u.messages && u.messages[m] == t.messages[m]
    ensures AttemptMoved(t, u, i)
  {
    NewSequence(t);
  }

  lemma CompleteKeeps(t: Tables, agent: Id, i: Id, input: I.CompleteInput, now: Time)
    requires Inv(t) && I.CompleteInvocation(t, agent, i, input, now, false).Ok?
    ensures Inv(I.CompleteInvocation(t, agent, i, input, now, false).value.0)
  {
    CompletionCases(t, agent, i, input, now, false);
    var (u, created) := I.CompleteInvocation(t, agent, i, input, now, false).value;
    if created {
      CompletedDeliveries(t, u, i, I.ResultMessage(t, i, input), now);
      CompletedAnswers(t, u, i, input, now);
      assert i in t.turns ==> TurnRow(t, i);
      forall j | j in t.invocations
        ensures QuietMove(t, u, j)
      {
      }
      QuietKeeps(t, u);
    }
  }

  // ---- settlement ----------------------------------------------------------------------------

  /** Ending the attempts a settlement may end does not disturb any session. */
  lemma TerminalizeSessions(t: Tables, mid: Tables, k: DeliveryKey, token: Id, certainty: Certainty,
                            reason: TerminalReason, now: Time)
    requires SessionInv(t) && !reason.Completed?
    requires mid.invocations == t.invocations && mid.turns == t.turns && mid.bindings == t.bindings
    requires mid.messages == t.messages && mid.observed == t.observed && mid.nextId == t.nextId
    requires I.Terminalize(mid, k, token, certainty, reason, now).Ok?
    ensures SessionInv(I.Terminalize(mid, k, token, certainty, reason, now).value)
  {
    var u := I.Terminalize(mid, k, token, certainty, reason, now).value;
    forall i | i in t.invocations
      ensures QuietMove(t, u, i)
    {
      assert i in t.turns ==> TurnRow(t, i);
    }
    QuietKeeps(t, u);
  }

  lemma AcknowledgeDeliveryKeeps(t: Tables, k: DeliveryKey, token: Id, now: Time)
    requires Inv(t) && D.AcknowledgeDelivery(t, k, token, now).Ok?
    ensures Inv(D.AcknowledgeDelivery(t, k, token, now).value)
  {
    if K.HoldsLive(t, k, token, now) {
      AcknowledgeKeeps(t, k, token, AcknowledgedBy, now);
      TerminalizeSessions(t, K.Acknowledge(t, k, token), k, token, OutcomeKnown, AcknowledgedBy, now);
    }
  }

  lemma RetryDeliveryKeeps(t: Tables, k: DeliveryKey, input: D.RetryInput, now: Time)
    requires Inv(t) && D.RetryDelivery(t, k, input, now).Ok?
    ensures Inv(D.RetryDelivery(t, k, input, now).value)
  {
    if K.HoldsLive(t, k, input.token, now) {
      ReleaseKeeps(t, k, input.token, now + input.retryAfter, input.error, now);
      TerminalizeSessions(t, K.Release(t, k, input.token, now + input.retryAfter, input.error), k, input.token,
                          NotStarted, RetriedBy, now);
    }
  }

  lemma BlockDeliveryKeeps(t: Tables, k: DeliveryKey, input: D.BlockInput, now: Time)
    requires Inv(t) && D.BlockDelivery(t, k, input, now).Ok?
    ensures Inv(D.BlockDelivery(t, k, input, now).value.0)
  {
    if K.HoldsLive(t, k, input.token, now) {
      var attempt := t.deliveries[k].attempt;
      ParkKeeps(t, k, input.token, attempt, input.reason, BlockedBy, now);
      var mid := K.RecordBlock(K.Park(t, k, input.token, input.reason), k, attempt, input.token, input.reason).value;
      TerminalizeSessions(t, mid, k, input.token, OutcomeUnknown, BlockedBy, now);
    }
  }

  lemma RetireForBlockFrame(t: Tables, blockId: nat, how: Resolution)
    requires B.RetireForBlock(t, blockId, how).Ok?
    ensures var u := B.RetireForBlock(t, blockId, how).value; u == t.(bindings := u.bindings)
  {
  }

  lemma ResolvedBlockKeeps(t: Tables, blockId: nat, how: Resolution)
    requires Inv(t) && B.RetireForBlock(t, blockId, how).Ok?
    ensures Inv(B.RetireForBlock(t, blockId, how).value)
  {
    RetireForBlockFrame(t, blockId, how);
    RetireForBlockKeeps(t, blockId, how);
    DeliveryPart(t, B.RetireForBlock(t, blockId, how).value);
  }

  lemma ResolveRowKeeps(t: Tables, blockId: nat, input: K.ResolveInput, now: Time)
    requires Inv(t) && K.ResolveBlock(t, blockId, input, now).Ok?
    ensures Inv(K.ResolveBlock(t, blockId, input, now).value)
  {
    ResolveKeeps(t, blockId, input, now);
    QuietKeeps(t, K.ResolveBlock(t, blockId, input, now).value);
  }

  lemma ResolveDeliveryBlockKeeps(t: Tables, blockId: nat, input: K.ResolveInput, now: Time)
    requires Inv(t) && D.ResolveDeliveryBlock(t, blockId, input, now).Ok?
    ensures Inv(D.ResolveDeliveryBlock(t, blockId, input, now).value)
  {
    ResolveRowKeeps(t, blockId, input, now);
    ResolvedBlockKeeps(K.ResolveBlock(t, blockId, input, now).value, blockId, input.how);
  }

  // ---- recovery and leasing --------------------------------------------------------------------

  lemma {:induction false} ReapKeeps(t: Tables, agents: seq<Id>, now: Time)
    requires Inv(t) && I.RecoverAll(t, agents, now).Ok?
    ensures Inv(I.RecoverAll(t, agents, now).value.0)
    decreases |agents|
  {
    if agents != [] {
      RecoveryExactly(t, agents[0], now);
      ReapKeeps(I.Recover(t, agents[0], now).value.0, agents[1..], now);
    }
  }

  lemma ClaimKeeps(t: Tables, agent: Id, input: I.ClaimInput, now: Time)
    requires Inv(t) && D.ClaimDeliveries(t, agent, input, now).Ok?
    ensures Inv(D.ClaimDeliveries(t, agent, input, now).value)
  {
    RecoverThenLeaseKeeps(t, agent, input.(kinds := None), now);
  }

  // ---- sessions ------------------------------------------------------------------------------------

  /** Only binding rows changed, and at most a binding id was issued. */
  ghost predicate BindingsOnly(t: Tables, u: Tables) {
    u == t.(bindings := u.bindings, nextId := u.nextId) && t.nextId <= u.nextId
  }

  lemma InsertFrame(t: Tables, k: BindingKey, input: B.AcquireInput)
    requires B.InsertBinding(t, k, input).Ok?
    ensures BindingsOnly(t, B.InsertBinding(t, k, input).value.0)
  {
  }

  lemma RotateFrame(t: Tables, k: BindingKey, input: B.AcquireInput, reason: Text)
    requires k in t.bindings && B.Rotate(t, k, input, reason).Ok?
    ensures BindingsOnly(t, B.Rotate(t, k, input, reason).value.0)
  {
    InsertFrame(t.(bindings := t.bindings[k := B.RetireRow(t.bindings[k], reason)]),
                BindingKey(k.id, k.generation + 1), input);
  }

  lemma AcquireExistingFrame(t: Tables, k: BindingKey, input: B.AcquireInput)
    requires k in t.bindings && B.AcquireExisting(t, k, input).Ok?
    ensures BindingsOnly(t, B.AcquireExisting(t, k, input).value.0)
  {
    var b := t.bindings[k];
    if b.owner != input.owner && b.state.Opening? {
      RotateFrame(t, k, input, "opening_superseded_by_new_owner");
    } else if b.owner != input.owner && b.config != input.config {
      RotateFrame(t, k, input, "incompatible_profile_rotation");
    }
  }

  lemma AcquireFreshFrame(t: Tables, input: B.AcquireInput)
    requires B.InsertAfterLatestRetired(t, input).Ok?
    ensures BindingsOnly(t, B.InsertAfterLatestRetired(t, input).value.0)
  {
    var rows := B.LaneRows(t, input.lane);
    if rows == {} {
      InsertFrame(t.(nextId := t.nextId + 1), BindingKey(t.nextId, 1), input);
    } else {
      InsertFrame(t, BindingKey(B.Latest(rows).id, B.Latest(rows).generation + 1), input);
    }
  }

  lemma AcquireFrame(t: Tables, input: B.AcquireInput)
    requires B.AcquireSessionBinding(t, input).Ok?
    ensures BindingsOnly(t, B.AcquireSessionBinding(t, input).value.0)
  {
    var current := B.CurrentRows(t, input.lane);
    if current == {} {
      AcquireFreshFrame(t, input);
    } else {
      AcquireExistingFrame(t, B.Latest(current), input);
    }
  }

  lemma AcquireSessionKeeps(t: Tables, input: B.AcquireInput)
    requires Inv(t) && B.AcquireSessionBinding(t, input).Ok?
    ensures Inv(B.AcquireSessionBinding(t, input).value.0)
  {
    AcquireFrame(t, input);
    AcquireKeeps(t, input);
    DeliveryPart(t, B.AcquireSessionBinding(t, input).value.0);
  }

  lemma OpenedKeepsAll(t: Tables, agent: Id, h: Handle, sessionRef: Id)
    requires Inv(t) && B.RecordSessionOpened(t, agent, h, sessionRef).Ok?
    ensures Inv(B.RecordSessionOpened(t, agent, h, sessionRef).value)
  {
    OpenedKeeps(t, agent, h, sessionRef);
    DeliveryPart(t, B.RecordSessionOpened(t, agent, h, sessionRef).value);
  }

  lemma ObserveKeeps(t: Tables, agent: Id, i: Id, generation: Id)
    requires Inv(t) && i in t.turns && B.BeginObservation(t, agent, i, generation).Ok?
    ensures Inv(B.BeginObservation(t, agent, i, generation).value)
  {
    var u := B.BeginObservation(t, agent, i, generation).value;
    DeliveryPart(t, u);
    forall k | k in u.bindings
      ensures BindingRow(u, k)
    {
      assert BindingRow(t, k);
    }
    forall j | j in u.turns
      ensures TurnRow(u, j)
    {
      assert TurnRow(t, j);
    }
    forall k, l | k in u.bindings && l in u.bindings
      ensures LanePair(u, k, l)
    {
      assert LanePair(t, k, l);
    }
    forall j | j in u.invocations
      ensures ResultRow(u, j)
    {
      assert ResultRow(t, j);
    }
  }

  lemma BindKeeps(t: Tables, agent: Id, i: Id, h: Handle)
    requires Inv(t) && B.ActivateTurn(t, agent, i, h).Ok?
    requires i in t.invocations && t.invocations[i].state.Armed? && t.invocations[i].key.agent == agent
    ensures Inv(B.ActivateTurn(t, agent, i, h).value)
    ensures i in B.ActivateTurn(t, agent, i, h).value.turns
  {
    ActivateKeeps(t, agent, i, h);
    DeliveryPart(t, B.ActivateTurn(t, agent, i, h).value);
  }

  lemma ArmSessionKeeps(t: Tables, agent: Id, i: Id, h: Handle, sessionRef: Id, generation: Id, arm: I.ArmInput, now: Time)
    requires Inv(t) && B.ArmSessionInvocation(t, agent, i, h, sessionRef, generation, arm, now).Ok?
    ensures Inv(B.ArmSessionInvocation(t, agent, i, h, sessionRef, generation, arm, now).value)
  {
    var armed := I.ArmInvocation(t, agent, i, arm, now).value;
    ArmKeeps(t, agent, i, arm, now);
    BindKeeps(armed, agent, i, h);
    ObserveKeeps(B.ActivateTurn(armed, agent, i, h).value, agent, i, generation);
  }

  /** The turn that a completion settles: the binding returns to ready. */
  lemma SettleTurnKeeps(t: Tables, u: Tables, agent: Id, i: Id, h: Handle, p: Persistence)
    requires SessionInv(t) && B.ValidateBoundTurn(t, agent, i, h, true).Pass?
    requires AttemptMoved(t, u, i) && u.turns == t.turns && u.bindings == t.bindings && u.observed == t.observed
    requires u.nextId == t.nextId
    requires i in t.invocations && t.invocations[i].state.Armed? && u.invocations[i].HasResult()
    requires u.invocations[i].EverArmed()
    requires B.SettleQuiescentTurn(u, agent, i, h, p).Ok?
    ensures SessionInv(B.SettleQuiescentTurn(u, agent, i, h, p).value)
  {
    var v := B.SettleQuiescentTurn(u, agent, i, h, p).value;
    assert TurnRow(t, i);
    assert BindingRow(t, h.Key());
    SettledRows(t, u, v, i, h.Key());
    BoundMoveKeeps(t, v, h.Key(), i);
  }

  lemma SettledRows(t: Tables, u: Tables, v: Tables, i: Id, k: BindingKey)
    requires k in t.bindings && BindingRow(t, k) && i in t.turns && TurnRow(t, i)
    requires t.turns[i].binding == k && t.turns[i].state.TurnActive?
    requires u.bindings == t.bindings && u.turns == t.turns && u.nextId == t.nextId
    requires u.invocations.Keys == t.invocations.Keys && u.invocations[i].key == t.invocations[i].key
    requires u.invocations[i].HasResult() && u.invocations[i].EverArmed()
    requires k in v.bindings && i in v.turns
    requires v == u.(turns := u.turns[i := v.turns[i]], bindings := u.bindings[k := v.bindings[k]])
    requires v.turns[i] == t.turns[i].(state := v.turns[i].state) && v.turns[i].state.TurnQuiescent?
    requires v.bindings[k] == t.bindings[k].(state := Ready, active := None, lastQuiescent := Some(i))
    ensures BindingRow(v, k) && TurnRow(v, i)
  {
  }

  /** A completion through its session: a repeat writes nothing, a commit settles the turn too. */
  lemma CompleteSessionCases(t: Tables, agent: Id, i: Id, h: Handle, p: Persistence, input: I.CompleteInput, now: Time)
    requires Inv(t) && B.CompleteSessionInvocation(t, agent, i, h, p, input, now).Ok?
    ensures B.ValidateBoundTurn(t, agent, i, h, true).Pass?
    ensures I.CompleteInvocation(t, agent, i, input, now, true).Ok?
    ensures var (u, created) := I.CompleteInvocation(t, agent, i, input, now, true).value;
            var (v, made) := B.CompleteSessionInvocation(t, agent, i, h, p, input, now).value;
            && made == created
            && (if created then Ok(v) == B.SettleQuiescentTurn(u, agent, i, h, p) else v == t)
  {
    CompletionCases(t, agent, i, input, now, true);
    assert TurnRow(t, i);
  }

  lemma CompleteSessionKeeps(t: Tables, agent: Id, i: Id, h: Handle, p: Persistence, input: I.CompleteInput, now: Time)
    requires Inv(t) && B.CompleteSessionInvocation(t, agent, i, h, p, input, now).Ok?
    ensures Inv(B.CompleteSessionInvocation(t, agent, i, h, p, input, now).value.0)
  {
    CompleteSessionCases(t, agent, i, h, p, input, now);
    CompletionCases(t, agent, i, input, now, true);
    var (u, created) := I.CompleteInvocation(t, agent, i, input, now, true).value;
    if created {
      CompletedDeliveries(t, u, i, I.ResultMessage(t, i, input), now);
      CompletedAnswers(t, u, i, input, now);
      SettleTurnKeeps(t, u, agent, i, h, p);
      DeliveryPart(u, B.SettleQuiescentTurn(u, agent, i, h, p).value);
    }
  }

  lemma MarkSessionKeeps(t: Tables, agent: Id, i: Id, h: Handle, reason: Text)
    requires Inv(t) && B.MarkSessionUncertain(t, agent, i, h, reason).Ok?
    ensures Inv(B.MarkSessionUncertain(t, agent, i, h, reason).value)
  {
    if !t.bindings[h.Key()].state.Uncertain? {
      MarkUncertainKeeps(t, agent, i, h, reason);
      DeliveryPart(t, B.MarkSessionUncertain(t, agent, i, h, reason).value);
    }
  }

  lemma RetireSessionKeeps(t: Tables, agent: Id, h: Handle, reason: Text)
    requires Inv(t) && B.RetireSessionBinding(t, agent, h, reason).Ok?
    ensures Inv(B.RetireSessionBinding(t, agent, h, reason).value)
  {
    if !t.bindings[h.Key()].state.Retired? {
      RetireKeeps(t, h.Key(), reason);
      DeliveryPart(t, B.RetireSessionBinding(t, agent, h, reason).value);
    }
  }

  // ---- every transaction ------------------------------------------------------------------------------

  lemma AttemptKeeps(t: Tables, a: Action)
    requires Inv(t) && Attempt(t, a).Ok?
    ensures Inv(Attempt(t, a).value)
  {
    match a
    case Environment(agents, channels, generations) => EnvironmentKeeps(t, agents, channels, generations);
    case Post(m, now) => PostKeeps(t, m, now);
    case Claim(agent, claim, now) => ClaimKeeps(t, agent, claim, now);
    case Reserve(agent, claim, now) => ReserveKeeps(t, agent, claim, now);
    case Arm(agent, i, arm, now) => ArmKeeps(t, agent, i, arm, now);
    case Complete(agent, i, completion, now) => CompleteKeeps(t, agent, i, completion, now);
    case Acknowledge(k, token, now) => AcknowledgeDeliveryKeeps(t, k, token, now);
    case Retry(k, retry, now) => RetryDeliveryKeeps(t, k, retry, now);
    case Block(k, block, now) => BlockDeliveryKeeps(t, k, block, now);
    case Resolve(b, decision, now) => ResolveDeliveryBlockKeeps(t, b, decision, now);
    case Reap(inboxes, now) => ReapKeeps(t, inboxes, now);
    case Acquire(input) => AcquireSessionKeeps(t, input);
    case Opened(agent, h, sessionRef) => OpenedKeepsAll(t, agent, h, sessionRef);
    case ArmSession(agent, i, h, sessionRef, generation, arm, now) =>
      ArmSessionKeeps(t, agent, i, h, sessionRef, generation, arm, now);
    case CompleteSession(agent, i, h, p, completion, now) => CompleteSessionKeeps(t, agent, i, h, p, completion, now);
    case MarkUncertain(agent, i, h, reason) => MarkSessionKeeps(t, agent, i, h, reason);
    case Retire(agent, h, reason) => RetireSessionKeeps(t, agent, h, reason);
  }

  lemma StepKeeps(t: Tables, a: Action)
    requires Inv(t)
    ensures Inv(Step(t, a))
  {
    if Attempt(t, a).Ok? {
      AttemptKeeps(t, a);
    }
  }
}
