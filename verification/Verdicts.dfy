/**
 Certainty verdicts over whole runs: results are published exactly once per
 delivery, "not started" is never said of a dispatched attempt, "unknown" always
 leaves evidence, and only an operator releases a parked delivery.
 */
module Verdicts {
  import opened Wrappers
  import opened Tables
  import opened Protocol
  import opened DeliveryInvariant
  import opened SessionInvariant
  import opened Recovery
  import opened Evolution
  import opened Runs
  import I = Invocations
  import K = Kernel
  import B = SessionBindings
  import D = Settlements
  import P = ProtocolInvariant

  // ---- exactly one result ---------------------------------------------------------------------

  /** The call asks to complete attempt `i`. */
  predicate AsksToComplete(a: Action, i: Id) {
    (a.Complete? || a.CompleteSession?) && a.attempt == i
  }

  /** The call gave attempt `i` its result. */
  predicate Publishes(e: Event, i: Id) {
    !HasResult(e.before, i) && HasResult(e.after, i)
  }

  /** The result was appended, the input acknowledged, and no other message or delivery row touched. */
  ghost predicate PublishedOnce(t: Tables, u: Tables, i: Id) {
    && i in t.invocations && i in u.invocations && t.invocations[i].key in t.deliveries
    && t.nextSeq !in t.messages && t.nextSeq in u.messages
    && u.messages == t.messages[t.nextSeq := u.messages[t.nextSeq]]
    && Answers(u, i, t.nextSeq)
    && u.invocations[i].Ended(OutcomeKnown) && u.invocations[i].state.reason == Completed(t.nextSeq)
    && K.Holds(t, t.invocations[i].key, t.invocations[i].token)
    && t.invocations[i].key in u.deliveries && u.deliveries[t.invocations[i].key].state.Acknowledged?
    && (forall k | k in t.deliveries && k != t.invocations[i].key :: k in u.deliveries && u.deliveries[k] == t.deliveries[k])
    && (forall k | k in u.deliveries && k !in t.deliveries :: k.message == t.nextSeq)
  }

  /** The message carries what the harness produced. */
  predicate Says(m: Message, input: I.CompleteInput) {
    m.kind == input.kind && m.payload == input.payload
  }

  lemma CommitPublishes(t: Tables, u: Tables, i: Id, input: I.CompleteInput, now: Time)
    requires Inv(t) && i in t.invocations && t.invocations[i].key.message in t.messages
    requires P.CompletedNow(t, u, i, I.ResultMessage(t, i, input), now)
    ensures PublishedOnce(t, u, i) && Says(u.messages[t.nextSeq], input)
  {
    P.NewSequence(t);
    P.CompletedAnswers(t, u, i, input, now);
    InsertMessageKeeps(t, I.ResultMessage(t, i, input), now);
    CommitTouches(t, K.InsertMessage(t, I.ResultMessage(t, i, input), now).value, u, i);
  }

  lemma CommitTouches(t: Tables, published: Tables, u: Tables, i: Id)
    requires t.nextSeq !in t.messages && t.nextSeq in u.messages
    requires i in t.invocations && i in u.invocations && t.invocations[i].key in t.deliveries
    requires K.Holds(t, t.invocations[i].key, t.invocations[i].token) && Answers(u, i, t.nextSeq)
    requires u.messages == t.messages[t.nextSeq := u.messages[t.nextSeq]]
    requires forall k | k in t.deliveries :: k in published.deliveries && published.deliveries[k] == t.deliveries[k]
    requires forall k | k in published.deliveries && k !in t.deliveries :: k.message == t.nextSeq
    requires u.deliveries == K.Acknowledge(published, t.invocations[i].key, t.invocations[i].token).deliveries
    requires u.invocations[i].Ended(OutcomeKnown) && u.invocations[i].state.reason == Completed(t.nextSeq)
    ensures PublishedOnce(t, u, i)
  {
  }

  lemma SettlingKeepsPublication(t: Tables, u: Tables, agent: Id, i: Id, h: Handle, p: Persistence)
    requires PublishedOnce(t, u, i) && B.SettleQuiescentTurn(u, agent, i, h, p).Ok?
    ensures PublishedOnce(t, B.SettleQuiescentTurn(u, agent, i, h, p).value, i)
    ensures B.SettleQuiescentTurn(u, agent, i, h, p).value.messages == u.messages
  {
  }

  /** A completion either publishes its one result or, as an exact repeat, writes nothing at all. */
  lemma CompletionPublishesOrRepeats(e: Event, i: Id)
    requires Executed(e) && Inv(e.before) && AsksToComplete(e.call, i) && e.ok
    ensures if HasResult(e.before, i)
            then e.after == e.before && P.ResultSays(e.before, i, e.call.completion.kind, e.call.completion.payload)
            else PublishedOnce(e.before, e.after, i) && Says(e.after.messages[e.before.nextSeq], e.call.completion)
  {
    var t := e.before;
    if e.call.Complete? {
      CompletePublishes(t, e.call.agent, i, e.call.completion, e.call.now);
    } else {
      CompleteSessionPublishes(t, e.call.agent, i, e.call.handle, e.call.persistence, e.call.completion, e.call.now);
    }
  }

  lemma CompletePublishes(t: Tables, agent: Id, i: Id, input: I.CompleteInput, now: Time)
    requires Inv(t) && I.CompleteInvocation(t, agent, i, input, now, false).Ok?
    ensures var u := I.CompleteInvocation(t, agent, i, input, now, false).value.0;
            if HasResult(t, i) then u == t && P.ResultSays(t, i, input.kind, input.payload) else PublishedOnce(t, u, i) && Says(u.messages[t.nextSeq], input)
  {
    P.CompletionCases(t, agent, i, input, now, false);
    var (u, created) := I.CompleteInvocation(t, agent, i, input, now, false).value;
    if created {
      CommitPublishes(t, u, i, input, now);
    }
  }

  lemma CompleteSessionPublishes(t: Tables, agent: Id, i: Id, h: Handle, p: Persistence, input: I.CompleteInput, now: Time)
    requires Inv(t) && B.CompleteSessionInvocation(t, agent, i, h, p, input, now).Ok?
    ensures var u := B.CompleteSessionInvocation(t, agent, i, h, p, input, now).value.0;
            if HasResult(t, i) then u == t && P.ResultSays(t, i, input.kind, input.payload) else PublishedOnce(t, u, i) && Says(u.messages[t.nextSeq], input)
  {
    P.CompleteSessionCases(t, agent, i, h, p, input, now);
    P.CompletionCases(t, agent, i, input, now, true);
    var (u, created) := I.CompleteInvocation(t, agent, i, input, now, true).value;
    if created {
      CommitPublishes(t, u, i, input, now);
      SettlingKeepsPublication(t, u, agent, i, h, p);
    }
  }

  /** Results appear only through a completion of their own attempt. */
  lemma PublicationIsCompletion(run: seq<Event>, n: nat, i: Id)
    requires Run(run) && n < |run| && Publishes(run[n], i)
    ensures AsksToComplete(run[n].call, i) && run[n].ok && PublishedOnce(run[n].before, run[n].after, i)
  {
    Evolved(run, n);
    LinkedBefore(run, n);
    Reachable(run, n);
    assert AttemptKept(run[n].before, run[n].after, i, ScopeOf(run[n].before, run[n].call));
    CompletionPublishesOrRepeats(run[n], i);
  }

  /** In one state, at most one attempt of a delivery ended with a known outcome. */
  lemma OneKnownOutcome(t: Tables, i: Id, j: Id)
    requires Inv(t) && i in t.invocations && j in t.invocations && t.invocations[i].key == t.invocations[j].key
    requires t.invocations[i].Ended(OutcomeKnown) && t.invocations[j].Ended(OutcomeKnown)
    ensures i == j
  {
    assert AttemptRow(t, i) && AttemptRow(t, j) && AttemptPair(t, i, j);
  }

  /** A result, once published, stays the attempt's result. */
  lemma ResultForever(run: seq<Event>, p: nat, q: nat, i: Id)
    requires Run(run) && p < q < |run| && HasResult(run[p].after, i)
    ensures HasResult(run[q].before, i) && run[q].before.invocations[i] == run[p].after.invocations[i]
  {
    Persists(run, p, q);
    assert AttemptKept(run[p].after, run[q].before, i, ScopeBetween(run, p, q));
  }

  lemma ResultSurvivesCall(run: seq<Event>, q: nat, i: Id)
    requires Run(run) && q < |run| && HasResult(run[q].before, i)
    ensures HasResult(run[q].after, i) && run[q].after.invocations[i] == run[q].before.invocations[i]
  {
    Evolved(run, q);
    assert AttemptKept(run[q].before, run[q].after, i, ScopeOf(run[q].before, run[q].call));
  }

  /** Over a whole run, requeues included, a delivery gets one result: one attempt, one call. */
  lemma ExactlyOnceResult(run: seq<Event>, p: nat, q: nat, i: Id, j: Id)
    requires Run(run) && p <= q < |run| && Publishes(run[p], i) && Publishes(run[q], j)
    requires run[p].after.invocations[i].key == run[q].after.invocations[j].key
    ensures p == q && i == j
  {
    Reachable(run, q);
    if p < q {
      ResultForever(run, p, q, i);
      ResultSurvivesCall(run, q, i);
    }
    KnownResult(run[q].after, i);
    KnownResult(run[q].after, j);
    OneKnownOutcome(run[q].after, i, j);
  }

  lemma KnownResult(t: Tables, i: Id)
    requires Inv(t) && HasResult(t, i)
    ensures t.invocations[i].Ended(OutcomeKnown)
  {
    assert AttemptRow(t, i);
  }

  // ---- verdicts ---------------------------------------------------------------------------------

  /** How an attempt may have ended, by whether it ever passed the fence. */
  lemma VerdictIsSound(run: seq<Event>, n: nat, i: Id)
    requires Run(run) && n < |run| && i in run[n].after.invocations && run[n].after.invocations[i].state.Terminal?
    ensures EverArmed(run[n].after, i) ==> !run[n].after.invocations[i].Ended(NotStarted)
    ensures run[n].after.invocations[i].Ended(OutcomeUnknown) ==>
              exists b :: BlockOf(run[n].after, b, run[n].after.invocations[i])
    ensures run[n].after.invocations[i].Ended(OutcomeKnown) ==>
              && run[n].after.invocations[i].key in run[n].after.deliveries
              && run[n].after.deliveries[run[n].after.invocations[i].key].state.Acknowledged?
  {
    Reachable(run, n);
    assert AttemptRow(run[n].after, i);
    if run[n].after.invocations[i].Ended(OutcomeUnknown) {
      var inv := run[n].after.invocations[i];
      var b :| Evidence(run[n].after, b, inv.key, inv.token);
      assert BlockOf(run[n].after, b, inv);
    }
  }

  /** An attempt found to be "not started" was not dispatched at any call of the run, before or after. */
  lemma NotStartedNeverDispatched(run: seq<Event>, n: nat, m: nat, i: Id)
    requires Run(run) && n < |run| && m < |run|
    requires i in run[n].after.invocations && run[n].after.invocations[i].Ended(NotStarted)
    ensures !Dispatches(run[m], i)
  {
    if m <= n {
      NotStartedNotArmed(run, n, i);
      if Dispatches(run[m], i) {
        DispatchIsOnRecord(run, m, n, i);
      }
    } else if Dispatches(run[m], i) {
      OpenUntilDispatch(run, n, m, i);
    }
  }

  lemma NotStartedNotArmed(run: seq<Event>, n: nat, i: Id)
    requires Run(run) && n < |run| && i in run[n].after.invocations && run[n].after.invocations[i].Ended(NotStarted)
    ensures !EverArmed(run[n].after, i)
  {
    Reachable(run, n);
    assert AttemptRow(run[n].after, i);
  }

  lemma DispatchIsOnRecord(run: seq<Event>, m: nat, n: nat, i: Id)
    requires Run(run) && m <= n < |run| && Dispatches(run[m], i)
    ensures EverArmed(run[n].after, i)
  {
    LinkedBefore(run, m);
    DispatchOpens(run[m], i);
    EverArmedAfter(run, m, n, i);
  }

  lemma OpenUntilDispatch(run: seq<Event>, n: nat, m: nat, i: Id)
    requires Run(run) && n < m < |run| && Dispatches(run[m], i) && i in run[n].after.invocations
    ensures !run[n].after.invocations[i].state.Terminal?
  {
    LinkedBefore(run, m);
    DispatchOpens(run[m], i);
    Persists(run, n, m);
    assert AttemptKept(run[n].after, run[m].before, i, ScopeBetween(run, n, m));
  }

  lemma EverArmedAfter(run: seq<Event>, m: nat, n: nat, i: Id)
    requires Run(run) && m <= n < |run| && EverArmed(run[m].after, i)
    ensures EverArmed(run[n].after, i)
  {
    if m < n {
      Persists(run, m, n);
      assert AttemptKept(run[m].after, run[n].before, i, ScopeBetween(run, m, n));
      Evolved(run, n);
      assert AttemptKept(run[n].before, run[n].after, i, ScopeOf(run[n].before, run[n].call));
    }
  }

  // ---- leaving the parked state --------------------------------------------------------------------

  predicate IsParked(t: Tables, k: DeliveryKey) {
    k in t.deliveries && t.deliveries[k].state.Blocked?
  }

  /** The call resolved the open block of delivery `k`. */
  predicate Releases(e: Event, k: DeliveryKey) {
    && e.ok && e.call.Resolve?
    && e.call.blockId in e.before.blocks && e.before.blocks[e.call.blockId].key == k
    && e.before.blocks[e.call.blockId].resolved.None?
  }

  /** A parked delivery moves only by an operator's decision on its open block, and as decided. */
  lemma ParkedUntilResolved(run: seq<Event>, n: nat, k: DeliveryKey)
    requires Run(run) && n < |run| && IsParked(run[n].before, k)
    ensures k in run[n].after.deliveries
    ensures !IsParked(run[n].after, k) ==> Releases(run[n], k)
    ensures Releases(run[n], k) ==>
              run[n].after.deliveries[k].state == if run[n].call.decision.how.Requeue? then Pending else Dead
  {
    Evolved(run, n);
    Reachable(run, n);
    LinkedBefore(run, n);
    assert DeliveryKept(run[n].before, run[n].after, k);
    if !IsParked(run[n].after, k) {
      var b := OpenBlock(run[n].before, k);
      assert BlockKept(run[n].before, run[n].after, b, ScopeOf(run[n].before, run[n].call));
      assert BlockRow(run[n].after, b);
      ResolutionIsOperators(run, n, b);
    }
    if Releases(run[n], k) {
      ReleasedRow(run[n].before, run[n].call.blockId, run[n].call.decision, run[n].call.now);
    }
  }

  ghost function OpenBlock(t: Tables, k: DeliveryKey): (b: nat)
    requires Inv(t) && IsParked(t, k)
    ensures Unresolved(t, b, k)
  {
    assert DeliveryRow(t, k);
    var b :| Unresolved(t, b, k);
    b
  }

  lemma ReleasedRow(t: Tables, b: nat, input: K.ResolveInput, now: Time)
    requires D.ResolveDeliveryBlock(t, b, input, now).Ok?
    requires b in t.blocks && t.blocks[b].resolved.None?
    ensures var u := D.ResolveDeliveryBlock(t, b, input, now).value;
            t.blocks[b].key in u.deliveries
            && u.deliveries[t.blocks[b].key].state == if input.how.Requeue? then Pending else Dead
  {
    P.RetireForBlockFrame(K.ResolveBlock(t, b, input, now).value, b, input.how);
  }

  /** Over a stretch of a run: if a parked delivery is no longer parked, an operator released it in between. */
  lemma {:induction false} ReleasedBetween(run: seq<Event>, p: nat, q: nat, k: DeliveryKey)
    requires Run(run) && p < q < |run| && IsParked(run[p].after, k) && !IsParked(run[q].before, k)
    ensures exists n :: p < n < q && Releases(run[n], k)
  {
    PreviousAfter(run, q);
    if IsParked(run[q - 1].before, k) {
      ParkedUntilResolved(run, q - 1, k);
    } else {
      ReleasedBetween(run, p, q - 1, k);
    }
  }

  // ---- redelivery -----------------------------------------------------------------------------------------

  /** A released delivery is not claimable before its delay has passed. */
  lemma RetryWaits(t: Tables, k: DeliveryKey, input: D.RetryInput, now: Time, later: Time)
    requires K.HoldsLive(t, k, input.token, now) && D.RetryDelivery(t, k, input, now).Ok?
    ensures var u := D.RetryDelivery(t, k, input, now).value;
            && k in u.deliveries && u.deliveries[k].state.Pending? && u.deliveries[k].lastError == input.error
            && (K.Claimable(u.deliveries[k], later) <==> now + input.retryAfter <= later)
  {
  }

  /** A requeued delivery is claimable from its delay on; an abandoned one never is. */
  lemma ResolutionWaits(t: Tables, b: nat, input: K.ResolveInput, now: Time, later: Time)
    requires D.ResolveDeliveryBlock(t, b, input, now).Ok? && b in t.blocks && t.blocks[b].resolved.None?
    ensures var u := D.ResolveDeliveryBlock(t, b, input, now).value;
            && t.blocks[b].key in u.deliveries && t.blocks[b].key in t.deliveries
            && (input.note.Some? ==> u.deliveries[t.blocks[b].key].lastError == input.note)
            && (input.note.None? ==> u.deliveries[t.blocks[b].key].lastError == t.deliveries[t.blocks[b].key].lastError)
            && (K.Claimable(u.deliveries[t.blocks[b].key], later)
                <==> input.how.Requeue? && now + input.retryAfter <= later)
  {
    P.RetireForBlockFrame(K.ResolveBlock(t, b, input, now).value, b, input.how);
  }

  /** A block parks the row and records which attempt it speaks about, under which lease and why. */
  lemma BlockRecordsAttempt(t: Tables, k: DeliveryKey, input: D.BlockInput, now: Time, later: Time)
    requires Inv(t) && K.HoldsLive(t, k, input.token, now) && D.BlockDelivery(t, k, input, now).Ok?
    ensures var (u, record, created) := D.BlockDelivery(t, k, input, now).value;
            && created && record !in t.blocks && record in u.blocks
            && u.blocks[record] == Block.Block(k, t.deliveries[k].attempt, input.token, input.reason, None)
            && k in u.deliveries && u.deliveries[k].lastError == Some(input.reason)
            && !K.Claimable(u.deliveries[k], later)
  {
    InvUnused(t);
  }

  /** A posted message reaches exactly the inbox members it is for, and never its own sender unless addressed. */
  lemma PostDelivers(t: Tables, m: Message, now: Time, k: DeliveryKey)
    requires Inv(t) && K.InsertMessage(t, m, now).Ok? && k.message == t.nextSeq
    ensures var c, u := t.channels[m.channel], K.InsertMessage(t, m, now).value;
            k in u.deliveries <==>
              && k.agent in c.members && c.members[k.agent].Inbox?
              && (if m.recipient.Some? then m.recipient == Some(k.agent) else k.agent != m.sender)
    ensures k in K.InsertMessage(t, m, now).value.deliveries ==>
              K.Claimable(K.InsertMessage(t, m, now).value.deliveries[k], now)
  {
    assert k in t.deliveries ==> DeliveryRow(t, k);
    var u := K.InsertMessage(t, m, now).value;
    assert k == DeliveryKey(t.nextSeq, k.agent);
    var snapshot := K.Snapshot(t.nextSeq, K.Recipients(t.channels[m.channel], m), now);
    assert k in snapshot <==> k.agent in K.Recipients(t.channels[m.channel], m);
  }
}
