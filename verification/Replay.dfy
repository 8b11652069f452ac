/**
 Exact repeats. After a lost response a caller repeats its call: every keyed
 message, arm, settlement, completion, resolution and ownership call then succeeds
 again and writes nothing. The one exception is a session arm, whose repeat is
 refused.
 */
module Replay {
  import opened Wrappers
  import opened Tables
  import opened Protocol
  import opened Ordering
  import opened DeliveryInvariant
  import opened SessionInvariant
  import opened Recovery
  import opened Evolution
  import I = Invocations
  import K = Kernel
  import S = SessionTurns
  import B = SessionBindings
  import D = Settlements
  import O = Ownership
  import P = ProtocolInvariant

  // ---- deliveries ------------------------------------------------------------------------------

  lemma AcknowledgeRepeats(t: Tables, k: DeliveryKey, token: Id, now: Time, later: Time)
    requires now <= later && D.AcknowledgeDelivery(t, k, token, now).Ok?
    ensures var u := D.AcknowledgeDelivery(t, k, token, now).value; D.AcknowledgeDelivery(u, k, token, later) == Ok(u)
  {
  }

  lemma RetryRepeats(t: Tables, k: DeliveryKey, input: D.RetryInput, now: Time, later: Time)
    requires now <= later && later + input.retryAfter <= I64_MAX && D.RetryDelivery(t, k, input, now).Ok?
    ensures var u := D.RetryDelivery(t, k, input, now).value; D.RetryDelivery(u, k, input, later) == Ok(u)
  {
    if K.HoldsLive(t, k, input.token, now) {
      EndedIsSafe(K.Release(t, k, input.token, now + input.retryAfter, input.error), k, input.token, now);
    }
  }

  /** Once the attempt under a lease ended, a retry of that lease is safe. */
  lemma EndedIsSafe(t: Tables, k: DeliveryKey, token: Id, now: Time)
    ensures I.RetryIsSafe(I.EndAttempts(t, k, token, NotStarted, RetriedBy, now), k, token)
  {
  }

  /** The second call finds the record of the first. */
  lemma BlockRepeats(t: Tables, k: DeliveryKey, input: D.BlockInput, now: Time, later: Time)
    requires Inv(t) && now <= later && D.BlockDelivery(t, k, input, now).Ok?
    ensures var (u, record, created) := D.BlockDelivery(t, k, input, now).value;
            D.BlockDelivery(u, k, input, later) == Ok((u, record, false))
  {
    var (u, record, created) := D.BlockDelivery(t, k, input, now).value;
    P.BlockDeliveryKeeps(t, k, input, now);
    assert Evidence(u, record, k, input.token) && u.blocks[record].reason == input.reason;
    OneBlockUnder(u, record, k, input.token);
    assert !K.HoldsLive(u, k, input.token, later) by {
      assert BlockRow(u, record);
    }
  }

  lemma OneBlockUnder(t: Tables, b: nat, k: DeliveryKey, token: Id)
    requires Inv(t) && Evidence(t, b, k, token)
    ensures K.BlocksUnder(t, k, token) == {b} && Least({b}) == b
  {
    forall c | c in K.BlocksUnder(t, k, token)
      ensures c == b
    {
      assert BlockPair(t, b, c);
    }
  }

  lemma ResolveRepeats(t: Tables, b: nat, input: K.ResolveInput, now: Time, later: Time)
    requires Inv(t) && D.ResolveDeliveryBlock(t, b, input, now).Ok?
    ensures var u := D.ResolveDeliveryBlock(t, b, input, now).value; D.ResolveDeliveryBlock(u, b, input, later) == Ok(u)
  {
    var mid := K.ResolveBlock(t, b, input, now).value;
    var u := B.RetireForBlock(mid, b, input.how).value;
    P.RetireForBlockFrame(mid, b, input.how);
    ResolvedRowRepeats(t, b, input, now, u, later);
    RetireRepeats(mid, b, input.how);
  }

  lemma ResolvedRowRepeats(t: Tables, b: nat, input: K.ResolveInput, now: Time, u: Tables, later: Time)
    requires K.ResolveBlock(t, b, input, now).Ok?
    requires u.blocks == K.ResolveBlock(t, b, input, now).value.blocks
    requires u.deliveries == K.ResolveBlock(t, b, input, now).value.deliveries
    ensures K.ResolveBlock(u, b, input, later) == Ok(u)
  {
    var mid := K.ResolveBlock(t, b, input, now).value;
    ResolvedStays(t, b, input, now);
    assert u.blocks[b] == mid.blocks[b];
  }

  /** A decision that went through is on record, with its block's delivery. */
  lemma ResolvedStays(t: Tables, b: nat, input: K.ResolveInput, now: Time)
    requires K.ResolveBlock(t, b, input, now).Ok?
    ensures K.ValidResolution(b, input)
    ensures var mid := K.ResolveBlock(t, b, input, now).value;
            && b in mid.blocks && mid.blocks[b].key in mid.deliveries
            && mid.blocks[b].resolved == Some(Resolved(input.how, input.note, input.retryAfter))
  {
  }

  lemma RetireRepeats(t: Tables, b: nat, how: Resolution)
    requires B.RetireForBlock(t, b, how).Ok?
    ensures B.RetireForBlock(B.RetireForBlock(t, b, how).value, b, how) == Ok(B.RetireForBlock(t, b, how).value)
  {
    var u := B.RetireForBlock(t, b, how).value;
    assert B.BlockedTurns(u, b) == B.BlockedTurns(t, b);
  }

  // ---- messages and attempts ------------------------------------------------------------------------

  lemma PostRepeats(t: Tables, m: Message, now: Time, later: Time)
    requires m.key.Some? && K.AppendMessage(t, m, now).Ok?
    ensures var u := K.AppendMessage(t, m, now).value.0; K.AppendMessage(u, m, later) == Ok((u, false))
  {
    var (u, created) := K.AppendMessage(t, m, now).value;
    if created {
      assert t.nextSeq in K.KeyHolders(u, m.sender, m.key.value);
      assert K.SameContent(u.messages[t.nextSeq], m);
    }
  }

  lemma ArmRepeats(t: Tables, agent: Id, i: Id, arm: I.ArmInput, now: Time)
    requires I.ArmInvocation(t, agent, i, arm, now).Ok?
    ensures var u := I.ArmInvocation(t, agent, i, arm, now).value; I.ArmInvocation(u, agent, i, arm, now) == Ok(u)
  {
  }

  /** A committed completion is recognised, whether or not it goes through the session again. */
  lemma CommittedCompletionRepeats(t: Tables, u: Tables, agent: Id, i: Id, input: I.CompleteInput, now: Time, later: Time,
                                   throughSession: bool)
    requires Inv(t) && i in t.invocations && t.invocations[i].key.message in t.messages && t.invocations[i].key.agent == agent
    requires t.invocations[i].token == input.token && t.invocations[i].fence == input.fence && !Blank(input.kind)
    requires P.CompletedNow(t, u, i, I.ResultMessage(t, i, input), now)
    requires throughSession || !S.ActiveOnSession(t, i)
    ensures I.CompleteInvocation(u, agent, i, input, later, throughSession) == Ok((u, false))
  {
    P.NewSequence(t);
    P.CompletedAnswers(t, u, i, input, now);
    InsertMessageKeeps(t, I.ResultMessage(t, i, input), now);
    assert u.messages[t.nextSeq] == I.ResultMessage(t, i, input);
    assert I.ResultMessage(u, i, input) == I.ResultMessage(t, i, input);
  }

  lemma CompleteRepeats(t: Tables, agent: Id, i: Id, input: I.CompleteInput, now: Time, later: Time)
    requires Inv(t) && I.CompleteInvocation(t, agent, i, input, now, false).Ok?
    ensures var u := I.CompleteInvocation(t, agent, i, input, now, false).value.0;
            I.CompleteInvocation(u, agent, i, input, later, false) == Ok((u, false))
  {
    P.CompletionCases(t, agent, i, input, now, false);
    var (u, created) := I.CompleteInvocation(t, agent, i, input, now, false).value;
    if created {
      CommittedCompletionRepeats(t, u, agent, i, input, now, later, false);
    }
  }

  /** Freeing the session does not disturb what a repeated completion reads. */
  lemma CompletionReads(u: Tables, v: Tables, agent: Id, i: Id, input: I.CompleteInput, now: Time)
    requires v == u.(turns := v.turns, bindings := v.bindings)
    requires I.CompleteInvocation(u, agent, i, input, now, true) == Ok((u, false))
    ensures I.CompleteInvocation(v, agent, i, input, now, true) == Ok((v, false))
  {
  }

  lemma CompleteSessionRepeats(t: Tables, agent: Id, i: Id, h: Handle, p: Persistence, input: I.CompleteInput, now: Time,
                               later: Time)
    requires Inv(t) && B.CompleteSessionInvocation(t, agent, i, h, p, input, now).Ok?
    ensures var v := B.CompleteSessionInvocation(t, agent, i, h, p, input, now).value.0;
            B.CompleteSessionInvocation(v, agent, i, h, p, input, later) == Ok((v, false))
  {
    P.CompleteSessionCases(t, agent, i, h, p, input, now);
    P.CompletionCases(t, agent, i, input, now, true);
    var (u, created) := I.CompleteInvocation(t, agent, i, input, now, true).value;
    var v := B.CompleteSessionInvocation(t, agent, i, h, p, input, now).value.0;
    assert TurnRow(t, i);
    if created {
      CommittedCompletionRepeats(t, u, agent, i, input, now, later, true);
    }
    CompletionReads(u, v, agent, i, input, later);
    SettledTurnRepeats(u, v, agent, i, h, p);
  }

  lemma SettledTurnRepeats(u: Tables, v: Tables, agent: Id, i: Id, h: Handle, p: Persistence)
    requires B.SettleQuiescentTurn(u, agent, i, h, p) == Ok(v)
    ensures B.SettleQuiescentTurn(v, agent, i, h, p) == Ok(v)
    ensures i in u.turns && u.turns[i].binding == h.Key() && u.turns[i].epoch == h.epoch ==>
              B.ValidateBoundTurn(v, agent, i, h, true).Pass?
  {
  }

  // ---- sessions ---------------------------------------------------------------------------------------

  /** The live row of a lane is the one an acquisition finds. */
  lemma OwnedRowIsCurrent(t: Tables, lane: Lane, g: Handle, owner: Id)
    requires Inv(t) && O.Owns(t, lane, g, owner)
    ensures B.CurrentRows(t, lane) == {g.Key()}
  {
    forall k | k in B.CurrentRows(t, lane)
      ensures k == g.Key()
    {
      O.LaneHasOneCurrentRow(t, k, g.Key());
    }
  }

  /** As long as the row is as an acquisition described it, its owner acquires the same handle and mode again. */
  lemma AcquireFinds(t: Tables, input: B.AcquireInput, a: B.Acquisition)
    requires Inv(t) && input.lane.agent in t.agents
    requires O.Owns(t, input.lane, a.handle, input.owner) && O.Describes(t, input, a)
    ensures B.AcquireSessionBinding(t, input) == Ok((t, a))
  {
    OwnedRowIsCurrent(t, input.lane, a.handle, input.owner);
    assert B.Latest({a.handle.Key()}) == a.handle.Key();
  }

  /** The owner that acquired a lane acquires it again: same handle, same mode, nothing written. */
  lemma AcquireRepeats(t: Tables, input: B.AcquireInput)
    requires Inv(t) && B.AcquireSessionBinding(t, input).Ok?
    ensures var r := B.AcquireSessionBinding(t, input).value; B.AcquireSessionBinding(r.0, input) == Ok(r)
  {
    var r := B.AcquireSessionBinding(t, input).value;
    P.AcquireSessionKeeps(t, input);
    O.AcquisitionOwns(t, input);
    P.AcquireFrame(t, input);
    AcquireFinds(r.0, input, r.1);
  }

  lemma OpenedRepeats(t: Tables, agent: Id, h: Handle, sessionRef: Id)
    requires B.RecordSessionOpened(t, agent, h, sessionRef).Ok?
    ensures var u := B.RecordSessionOpened(t, agent, h, sessionRef).value;
            B.RecordSessionOpened(u, agent, h, sessionRef) == Ok(u)
  {
  }

  lemma MarkRepeats(t: Tables, agent: Id, i: Id, h: Handle, reason: Text)
    requires B.MarkSessionUncertain(t, agent, i, h, reason).Ok?
    ensures var u := B.MarkSessionUncertain(t, agent, i, h, reason).value;
            B.MarkSessionUncertain(u, agent, i, h, reason) == Ok(u)
  {
  }

  lemma RetireSessionRepeats(t: Tables, agent: Id, h: Handle, reason: Text)
    requires B.RetireSessionBinding(t, agent, h, reason).Ok?
    ensures var u := B.RetireSessionBinding(t, agent, h, reason).value;
            B.RetireSessionBinding(u, agent, h, reason) == Ok(u)
  {
  }

  /** A session arm is not repeatable: the observation row it inserted refuses the second call. */
  lemma ArmSessionRefusesRepeat(t: Tables, agent: Id, i: Id, h: Handle, sessionRef: Id, generation: Id, arm: I.ArmInput,
                                now: Time, later: Time)
    requires B.ArmSessionInvocation(t, agent, i, h, sessionRef, generation, arm, now).Ok?
    ensures var u := B.ArmSessionInvocation(t, agent, i, h, sessionRef, generation, arm, now).value;
            B.ArmSessionInvocation(u, agent, i, h, sessionRef, generation, arm, later).Err?
  {
    var u := B.ArmSessionInvocation(t, agent, i, h, sessionRef, generation, arm, now).value;
    O.ArmSessionObserves(t, agent, i, h, sessionRef, generation, arm, now);
    if B.ArmSessionInvocation(u, agent, i, h, sessionRef, generation, arm, later).Ok? {
      O.ArmSessionObserves(u, agent, i, h, sessionRef, generation, arm, later);
    }
  }

  // ---- every repeatable call -----------------------------------------------------------------------------

  /** Calls whose exact repeat the store promises to recognise. */
  predicate Repeatable(a: Action) {
    || (a.Post? && a.message.key.Some?)
    || a.Arm? || a.Complete? || a.Acknowledge? || a.Retry? || a.Block? || a.Resolve?
    || a.Acquire? || a.Opened? || a.CompleteSession? || a.MarkUncertain? || a.Retire?
  }

  /** Repeating a call that succeeded succeeds again and writes nothing. */
  lemma RepeatWritesNothing(t: Tables, a: Action)
    requires Inv(t) && Repeatable(a) && Attempt(t, a).Ok?
    ensures Attempt(Attempt(t, a).value, a) == Attempt(t, a)
  {
    match a
    case Post(m, now) => PostRepeats(t, m, now, now);
    case Arm(agent, i, arm, now) => ArmRepeats(t, agent, i, arm, now);
    case Complete(agent, i, completion, now) => CompleteRepeats(t, agent, i, completion, now, now);
    case Acknowledge(k, token, now) => AcknowledgeRepeats(t, k, token, now, now);
    case Retry(k, retry, now) => RetryRepeats(t, k, retry, now, now);
    case Block(k, block, now) => BlockRepeats(t, k, block, now, now);
    case Resolve(b, decision, now) => ResolveRepeats(t, b, decision, now, now);
    case Acquire(acquire) => AcquireRepeats(t, acquire);
    case Opened(agent, h, sessionRef) => OpenedRepeats(t, agent, h, sessionRef);
    case CompleteSession(agent, i, h, p, completion, now) =>
      CompleteSessionRepeats(t, agent, i, h, p, completion, now, now);
    case MarkUncertain(agent, i, h, reason) => MarkRepeats(t, agent, i, h, reason);
    case Retire(agent, h, reason) => RetireSessionRepeats(t, agent, h, reason);
    case _ =>
  }
}
