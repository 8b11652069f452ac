/**
 What every call on messages, deliveries and attempts answers, and exactly what it
 writes, told from the rows before the call. In a reachable store most guards of a
 transaction cannot fire; what is left is the condition a caller can check.
 */
module DeliveryAnswers {
  import opened Wrappers
  import opened Tables
  import opened Ordering
  import opened DeliveryInvariant
  import opened SessionInvariant
  import opened Recovery
  import I = Invocations
  import K = Kernel
  import S = SessionTurns
  import B = SessionBindings
  import D = Settlements
  import P = ProtocolInvariant

  const DAY_MS := 86_400_000
  const MAX_TEXT := 4_096

  // ---- leases and attempts, as rows ----------------------------------------------------------------

  /** The delivery is leased under this token, and the lease has not expired. */
  predicate LiveUnder(t: Tables, k: DeliveryKey, token: Id, now: Time) {
    && k in t.deliveries
    && match t.deliveries[k].state
       case Leased(held, expiry) => held == token && now < expiry
       case _ => false
  }

  /** The delivery was last settled this way, under this token. */
  predicate SettledAs(t: Tables, k: DeliveryKey, token: Id, how: Settlement) {
    k in t.deliveries && t.deliveries[k].lastSettled == Some((token, how))
  }

  /** Attempt `i` is not over and was made under this lease. */
  predicate Attempting(t: Tables, i: Id, k: DeliveryKey, token: Id) {
    && i in t.invocations && t.invocations[i].key == k && t.invocations[i].token == token
    && (t.invocations[i].state.Reserved? || t.invocations[i].state.Armed?)
  }

  ghost predicate SomeArmed(t: Tables, k: DeliveryKey, token: Id) {
    exists i :: Attempting(t, i, k, token) && t.invocations[i].state.Armed?
  }

  /** An attempt under this lease runs on a session. */
  ghost predicate SomeBound(t: Tables, k: DeliveryKey, token: Id) {
    exists i :: Attempting(t, i, k, token) && i in t.turns
  }

  /** An attempt under this lease runs on a session that was not marked uncertain. */
  ghost predicate SomeRunning(t: Tables, k: DeliveryKey, token: Id) {
    exists i :: Attempting(t, i, k, token) && i in t.turns && t.turns[i].state.TurnActive?
  }

  function ArmedAt(inv: Invocation): Option<Time> {
    match inv.state
    case Reserved => None
    case Armed(at) => Some(at)
    case Terminal(armed, _, _, _) => armed
  }

  /** The attempts under one lease ended this way, keeping when they were armed; all others stand. */
  ghost predicate AttemptsEnded(t: Tables, u: Tables, k: DeliveryKey, token: Id, now: Time, certainty: Certainty,
                                reason: TerminalReason)
  {
    && u.invocations.Keys == t.invocations.Keys
    && forall i | i in t.invocations ::
         u.invocations[i] == if Attempting(t, i, k, token)
                             then t.invocations[i].(state := Terminal(ArmedAt(t.invocations[i]), now, certainty, reason))
                             else t.invocations[i]
  }

  /** Only this delivery row, the block table and the attempts changed. */
  ghost predicate SettlesOnly(t: Tables, u: Tables, k: DeliveryKey, row: Delivery) {
    u == t.(deliveries := t.deliveries[k := row], invocations := u.invocations, blocks := u.blocks, nextBlock := u.nextBlock)
  }

  lemma OpenUnderIsAttempting(t: Tables, i: Id, k: DeliveryKey, token: Id)
    ensures Attempting(t, i, k, token) <==> i in t.invocations && S.OpenUnder(t.invocations[i], k, token)
  {
  }

  /** An attempt that is not over runs on a session exactly if its turn is active or uncertain. */
  lemma BoundIsUnsettled(t: Tables, k: DeliveryKey, token: Id)
    requires Inv(t)
    ensures S.BoundTurnAllowsSettlement(t, k, token, false) <==> !SomeBound(t, k, token)
    ensures S.BoundTurnAllowsSettlement(t, k, token, true) <==> !SomeRunning(t, k, token)
    ensures SomeBound(t, k, token) ==> SomeArmed(t, k, token)
  {
    forall i | Attempting(t, i, k, token) && i in t.turns
      ensures t.invocations[i].state.Armed? && !t.turns[i].state.TurnQuiescent?
    {
      assert TurnRow(t, i);
    }
    forall i | i in t.invocations
      ensures Attempting(t, i, k, token) <==> S.OpenUnder(t.invocations[i], k, token)
    {
    }
  }

  /** The guard and the update read only attempts and turns. */
  lemma Terminalizes(t: Tables, mid: Tables, k: DeliveryKey, token: Id, certainty: Certainty, reason: TerminalReason,
                     now: Time, blocked: bool)
    requires mid.invocations == t.invocations && mid.turns == t.turns
    requires blocked == (certainty.OutcomeUnknown? && reason.BlockedBy?)
    requires S.BoundTurnAllowsSettlement(t, k, token, blocked)
    ensures var r := I.Terminalize(mid, k, token, certainty, reason, now);
            && r.Ok? && r.value == mid.(invocations := r.value.invocations)
            && AttemptsEnded(t, r.value, k, token, now, certainty, reason)
  {
  }

  // ---- acknowledging -----------------------------------------------------------------------------------

  /**
   A live lease is acknowledged exactly when its attempt does not run on a session;
   without one, only the exact repeat succeeds, and it writes nothing.
   */
  lemma AcknowledgeExactly(t: Tables, k: DeliveryKey, token: Id, now: Time)
    requires Inv(t)
    ensures LiveUnder(t, k, token, now) && SomeBound(t, k, token) ==> D.AcknowledgeDelivery(t, k, token, now) == Err(Conflict)
    ensures LiveUnder(t, k, token, now) && !SomeBound(t, k, token) ==>
              var r := D.AcknowledgeDelivery(t, k, token, now);
              && r.Ok? && AttemptsEnded(t, r.value, k, token, now, OutcomeKnown, AcknowledgedBy)
              && SettlesOnly(t, r.value, k, t.deliveries[k].(state := Acknowledged,
                                                              lastSettled := Some((token, SettledAcknowledged))))
              && r.value.blocks == t.blocks && r.value.nextBlock == t.nextBlock
    ensures !LiveUnder(t, k, token, now) ==>
              D.AcknowledgeDelivery(t, k, token, now)
              == if k !in t.deliveries then Err(NotFound)
                 else if SettledAs(t, k, token, SettledAcknowledged) then Ok(t) else Err(LeaseConflict)
  {
    BoundIsUnsettled(t, k, token);
    if LiveUnder(t, k, token, now) {
      var mid := K.Acknowledge(t, k, token);
      if !SomeBound(t, k, token) {
        Terminalizes(t, mid, k, token, OutcomeKnown, AcknowledgedBy, now, false);
      }
    }
  }

  // ---- retrying -------------------------------------------------------------------------------------------

  predicate RetryInBounds(input: D.RetryInput, now: Time) {
    && input.retryAfter <= DAY_MS && now + input.retryAfter <= I64_MAX
    && (input.error.Some? ==> |input.error.value| <= MAX_TEXT)
  }

  /**
   Whatever is provably unstarted may be retried: a live lease is released exactly
   when its attempt was not armed, and that attempt then counts as not started.
   Without a live lease only the exact repeat succeeds, and it writes nothing.
   */
  lemma RetryExactly(t: Tables, k: DeliveryKey, input: D.RetryInput, now: Time)
    requires Inv(t)
    ensures !RetryInBounds(input, now) ==> D.RetryDelivery(t, k, input, now) == Err(Invalid)
    ensures RetryInBounds(input, now) && SomeArmed(t, k, input.token) ==> D.RetryDelivery(t, k, input, now) == Err(Conflict)
    ensures RetryInBounds(input, now) && !SomeArmed(t, k, input.token) && LiveUnder(t, k, input.token, now) ==>
              var r := D.RetryDelivery(t, k, input, now);
              && r.Ok? && AttemptsEnded(t, r.value, k, input.token, now, NotStarted, RetriedBy)
              && (forall i | Attempting(t, i, k, input.token) ::
                    r.value.invocations[i].state == Terminal(None, now, NotStarted, RetriedBy))
              && SettlesOnly(t, r.value, k, t.deliveries[k].(state := Pending, availableAt := now + input.retryAfter,
                                                              lastError := input.error,
                                                              lastSettled := Some((input.token, SettledRetry))))
              && r.value.blocks == t.blocks && r.value.nextBlock == t.nextBlock
    ensures RetryInBounds(input, now) && !SomeArmed(t, k, input.token) && !LiveUnder(t, k, input.token, now) ==>
              D.RetryDelivery(t, k, input, now)
              == if k !in t.deliveries then Err(NotFound)
                 else if SettledAs(t, k, input.token, SettledRetry) then Ok(t) else Err(LeaseConflict)
  {
    BoundIsUnsettled(t, k, input.token);
    forall i
      ensures Attempting(t, i, k, input.token) <==> i in t.invocations && S.OpenUnder(t.invocations[i], k, input.token)
    {
      OpenUnderIsAttempting(t, i, k, input.token);
    }
    assert I.RetryIsSafe(t, k, input.token) <==> !SomeArmed(t, k, input.token);
    if RetryInBounds(input, now) && !SomeArmed(t, k, input.token) && LiveUnder(t, k, input.token, now) {
      var mid := K.Release(t, k, input.token, now + input.retryAfter, input.error);
      Terminalizes(t, mid, k, input.token, NotStarted, RetriedBy, now, false);
    }
  }

  // ---- blocking ------------------------------------------------------------------------------------------------

  predicate SaysWhy(reason: Text) {
    !Blank(reason) && |reason| <= MAX_TEXT
  }

  /** Record `b` was written under this lease. */
  predicate Records(t: Tables, b: nat, k: DeliveryKey, token: Id) {
    b in t.blocks && t.blocks[b].key == k && t.blocks[b].token == token
  }

  /**
   A live lease is blocked exactly when its attempt does not run on a session that
   is not yet marked uncertain; the record is new and carries attempt, lease and
   reason. Without a live lease only the reason on record is recognised.
   */
  lemma BlockExactly(t: Tables, k: DeliveryKey, input: D.BlockInput, now: Time)
    requires Inv(t)
    ensures !SaysWhy(input.reason) ==> D.BlockDelivery(t, k, input, now) == Err(Invalid)
    ensures SaysWhy(input.reason) && LiveUnder(t, k, input.token, now) && SomeRunning(t, k, input.token) ==>
              D.BlockDelivery(t, k, input, now) == Err(Conflict)
    ensures SaysWhy(input.reason) && LiveUnder(t, k, input.token, now) && !SomeRunning(t, k, input.token) ==>
              var r := D.BlockDelivery(t, k, input, now);
              && r.Ok? && r.value.2 && r.value.1 !in t.blocks && r.value.0.nextBlock == r.value.1 + 1
              && AttemptsEnded(t, r.value.0, k, input.token, now, OutcomeUnknown, BlockedBy)
              && SettlesOnly(t, r.value.0, k, t.deliveries[k].(state := DeliveryState.Blocked, lastError := Some(input.reason),
                                                                lastSettled := Some((input.token, SettledBlocked))))
              && r.value.0.blocks
                 == t.blocks[r.value.1 := Block(k, t.deliveries[k].attempt, input.token, input.reason, None)]
    ensures SaysWhy(input.reason) && !LiveUnder(t, k, input.token, now) ==>
              && (forall b | Records(t, b, k, input.token) ::
                    D.BlockDelivery(t, k, input, now)
                    == if t.blocks[b].reason == input.reason then Ok((t, b, false)) else Err(Conflict))
              && ((forall b :: !Records(t, b, k, input.token)) ==>
                    D.BlockDelivery(t, k, input, now) == Err(if k in t.deliveries then LeaseConflict else NotFound))
  {
    BoundIsUnsettled(t, k, input.token);
    assert forall b :: Records(t, b, k, input.token) <==> b in K.BlocksUnder(t, k, input.token);
    if SaysWhy(input.reason) {
      if LiveUnder(t, k, input.token, now) {
        BlockLive(t, k, input, now);
      } else {
        BlockAgain(t, k, input, now);
      }
    }
  }

  lemma BlockLive(t: Tables, k: DeliveryKey, input: D.BlockInput, now: Time)
    requires Inv(t) && SaysWhy(input.reason) && LiveUnder(t, k, input.token, now)
    ensures t.nextBlock !in t.blocks
    ensures SomeRunning(t, k, input.token) ==> D.BlockDelivery(t, k, input, now) == Err(Conflict)
    ensures !SomeRunning(t, k, input.token) ==>
              var r := D.BlockDelivery(t, k, input, now);
              && r.Ok? && r.value.2 && r.value.1 == t.nextBlock
              && AttemptsEnded(t, r.value.0, k, input.token, now, OutcomeUnknown, BlockedBy)
              && r.value.0 == t.(deliveries := t.deliveries[k := t.deliveries[k].(
                                                 state := DeliveryState.Blocked, lastError := Some(input.reason),
                                                 lastSettled := Some((input.token, SettledBlocked)))],
                                 invocations := r.value.0.invocations,
                                 blocks := t.blocks[t.nextBlock := Block(k, t.deliveries[k].attempt, input.token, input.reason, None)],
                                 nextBlock := t.nextBlock + 1)
  {
    WhileHeld(t, k, input.token);
    BoundIsUnsettled(t, k, input.token);
    assert t.nextBlock in t.blocks ==> BlockRow(t, t.nextBlock);
    assert K.BlocksUnder(t, k, input.token) == {};
    var parked := K.Park(t, k, input.token, input.reason);
    assert K.BlocksUnder(parked, k, input.token) == {};
    var mid := K.RecordBlock(parked, k, t.deliveries[k].attempt, input.token, input.reason).value;
    if !SomeRunning(t, k, input.token) {
      Terminalizes(t, mid, k, input.token, OutcomeUnknown, BlockedBy, now, true);
    }
  }

  lemma BlockAgain(t: Tables, k: DeliveryKey, input: D.BlockInput, now: Time)
    requires Inv(t) && SaysWhy(input.reason) && !LiveUnder(t, k, input.token, now)
    ensures forall b | Records(t, b, k, input.token) ::
              D.BlockDelivery(t, k, input, now)
              == if t.blocks[b].reason == input.reason then Ok((t, b, false)) else Err(Conflict)
    ensures (forall b :: !Records(t, b, k, input.token)) ==>
              D.BlockDelivery(t, k, input, now) == Err(if k in t.deliveries then LeaseConflict else NotFound)
  {
    var under := K.BlocksUnder(t, k, input.token);
    assert forall b :: Records(t, b, k, input.token) <==> b in under;
    forall b | Records(t, b, k, input.token)
      ensures Least(under) == b
    {
      assert BlockRow(t, Least(under)) && BlockPair(t, b, Least(under));
    }
    if forall b :: !Records(t, b, k, input.token) {
      assert under == {};
    }
  }

  /** Without a live lease, blocking succeeds exactly when the reason is on record. */
  lemma BlockAgainSucceeds(t: Tables, k: DeliveryKey, input: D.BlockInput, now: Time)
    requires Inv(t) && !LiveUnder(t, k, input.token, now)
    ensures D.BlockDelivery(t, k, input, now).Ok? <==>
              && SaysWhy(input.reason)
              && exists b :: Records(t, b, k, input.token) && t.blocks[b].reason == input.reason
  {
    BlockExactly(t, k, input, now);
  }

  // ---- posting -----------------------------------------------------------------------------------------------------

  const MAX_KEY := 256

  predicate WellFormed(m: Message) {
    && !Blank(m.kind)
    && (m.key.Some? && m.key.value.CallerKey? ==> !Blank(m.key.value.text) && |m.key.value.text| <= MAX_KEY)
  }

  /** Message `s` holds the idempotency key of `m`. */
  predicate HoldsKey(t: Tables, s: nat, m: Message) {
    s in t.messages && m.key.Some? && t.messages[s].sender == m.sender && t.messages[s].key == m.key
  }

  /** Everything a caller chooses besides the key is the same. */
  predicate SaysTheSame(a: Message, b: Message) {
    && a.channel == b.channel && a.sender == b.sender && a.recipient == b.recipient && a.kind == b.kind
    && a.payload == b.payload && a.correlation == b.correlation && a.causation == b.causation
  }

  /** The channel takes the message: it is open, and the sender and any recipient are members. */
  predicate Takes(t: Tables, m: Message) {
    && m.channel in t.channels && !t.channels[m.channel].archived && m.sender in t.channels[m.channel].members
    && (m.recipient.Some? ==> m.recipient.value in t.channels[m.channel].members)
  }

  function Refusal(t: Tables, m: Message): FleetError {
    if m.channel !in t.channels then NotFound else if t.channels[m.channel].archived then Conflict else NotMember
  }

  /** `k` is a delivery of the message that is posted next, to an inbox member it is for. */
  predicate DeliversTo(t: Tables, m: Message, k: DeliveryKey) {
    && k.message == t.nextSeq && m.channel in t.channels
    && var members := t.channels[m.channel].members;
       && k.agent in members && members[k.agent].Inbox?
       && (if m.recipient.Some? then m.recipient == Some(k.agent) else k.agent != m.sender)
  }

  /** The message was appended with exactly its deliveries, claimable from now on. */
  ghost predicate Appended(t: Tables, u: Tables, m: Message, now: Time) {
    && t.nextSeq !in t.messages
    && u == t.(messages := t.messages[t.nextSeq := m], nextSeq := t.nextSeq + 1, deliveries := u.deliveries)
    && (forall k :: k in u.deliveries <==> k in t.deliveries || DeliversTo(t, m, k))
    && (forall k | k in u.deliveries ::
          u.deliveries[k] == if k in t.deliveries then t.deliveries[k] else Delivery(Pending, 0, now, None, None))
  }

  lemma InsertExactly(t: Tables, m: Message, now: Time)
    requires DeliveryInv(t)
    ensures !Takes(t, m) ==> K.InsertMessage(t, m, now) == Err(Refusal(t, m))
    ensures Takes(t, m) ==> K.InsertMessage(t, m, now).Ok? && Appended(t, K.InsertMessage(t, m, now).value, m, now)
  {
    if Takes(t, m) {
      var recipients := K.Recipients(t.channels[m.channel], m);
      var snapshot := K.Snapshot(t.nextSeq, recipients, now);
      assert t.nextSeq !in t.messages;
      forall k
        ensures k in snapshot <==> DeliversTo(t, m, k)
        ensures k in t.deliveries ==> k !in snapshot
      {
        assert k in t.deliveries ==> DeliveryRow(t, k);
        assert k == DeliveryKey(k.message, k.agent);
        assert k in snapshot <==> k.message == t.nextSeq && k.agent in recipients;
      }
    }
  }

  /**
   A message whose key is free is appended exactly when its channel takes it. A key
   that is taken is recognised exactly when its holder says the same, and then
   nothing is written.
   */
  lemma PostExactly(t: Tables, m: Message, now: Time)
    requires Inv(t)
    ensures !WellFormed(m) ==> K.AppendMessage(t, m, now) == Err(Invalid)
    ensures WellFormed(m) && (forall s :: !HoldsKey(t, s, m)) && !Takes(t, m) ==>
              K.AppendMessage(t, m, now) == Err(Refusal(t, m))
    ensures WellFormed(m) && (forall s :: !HoldsKey(t, s, m)) && Takes(t, m) ==>
              var r := K.AppendMessage(t, m, now); r.Ok? && r.value.1 && Appended(t, r.value.0, m, now)
    ensures WellFormed(m) && (exists s :: HoldsKey(t, s, m)) ==>
              K.AppendMessage(t, m, now)
              == if exists s :: HoldsKey(t, s, m) && SaysTheSame(t.messages[s], m) then Ok((t, false)) else Err(Conflict)
  {
    InsertExactly(t, m, now);
    if m.key.Some? {
      var holders := K.KeyHolders(t, m.sender, m.key.value);
      assert forall s :: HoldsKey(t, s, m) <==> s in holders;
    }
  }

  // ---- arming ------------------------------------------------------------------------------------------------------

  /** The attempt is of this agent, and the caller knows its token and fence. */
  predicate Presented(t: Tables, agent: Id, i: Id, token: Id, fence: Id) {
    i in t.invocations && t.invocations[i].key.agent == agent && t.invocations[i].token == token && t.invocations[i].fence == fence
  }

  /**
   The dispatch fence commits exactly for an attempt that is not over and whose own
   lease lasts; it writes one column, and once armed nothing.
   */
  lemma ArmExactly(t: Tables, agent: Id, i: Id, arm: I.ArmInput, now: Time)
    requires Inv(t)
    ensures I.ArmInvocation(t, agent, i, arm, now).Ok? <==>
              && Presented(t, agent, i, arm.token, arm.fence) && now < t.invocations[i].expiry
              && (t.invocations[i].state.Reserved? || t.invocations[i].state.Armed?)
    ensures I.ArmInvocation(t, agent, i, arm, now).Ok? ==>
              I.ArmInvocation(t, agent, i, arm, now).value
              == if t.invocations[i].state.Armed? then t
                 else t.(invocations := t.invocations[i := t.invocations[i].(state := Armed(now))])
  {
    if i in t.invocations {
      assert AttemptRow(t, i) && DeliveryRow(t, t.invocations[i].key);
    }
  }

  // ---- completing ------------------------------------------------------------------------------------------------------

  /** The answer that attempt `i` would publish. */
  function AnswerOf(t: Tables, i: Id, kind: Text, payload: Text): Message
    requires i in t.invocations && t.invocations[i].key.message in t.messages
  {
    var input := t.messages[t.invocations[i].key.message];
    Message(channel := input.channel, sender := t.invocations[i].key.agent, key := Some(ResultKey(i)),
            recipient := Some(input.sender), kind := kind, payload := payload, correlation := input.correlation,
            causation := Some(t.invocations[i].key.message))
  }

  /** The agent already stored message `s` under the result key of attempt `i`. */
  predicate TakesResultKey(t: Tables, s: nat, agent: Id, i: Id) {
    s in t.messages && t.messages[s].sender == agent && t.messages[s].key == Some(ResultKey(i))
  }

  /** The attempt can be completed now: armed, its lease live, its result not published, its channel open. */
  ghost predicate Completable(t: Tables, agent: Id, i: Id, input: I.CompleteInput, now: Time) {
    && i in t.invocations && t.invocations[i].state.Armed? && now < t.invocations[i].expiry
    && (forall s :: !TakesResultKey(t, s, agent, i))
    && t.invocations[i].key.message in t.messages && Takes(t, AnswerOf(t, i, input.kind, input.payload))
  }

  /** The answer was appended, the input acknowledged and the attempt ended known; nothing else changed. */
  ghost predicate CompletedBy(t: Tables, u: Tables, i: Id, input: I.CompleteInput, now: Time) {
    && i in t.invocations && t.invocations[i].key in t.deliveries && t.invocations[i].key.message in t.messages
    && var inv := t.invocations[i];
       var answer := AnswerOf(t, i, input.kind, input.payload);
       && u == t.(messages := t.messages[t.nextSeq := answer], nextSeq := t.nextSeq + 1, deliveries := u.deliveries,
                  invocations := t.invocations[i := inv.(state := Terminal(ArmedAt(inv), now, OutcomeKnown,
                                                                           Completed(t.nextSeq)))])
       && (forall k :: k in u.deliveries <==> k in t.deliveries || DeliversTo(t, answer, k))
       && (forall k | k in u.deliveries ::
             u.deliveries[k] == if k == inv.key then t.deliveries[k].(state := Acknowledged,
                                                                       lastSettled := Some((inv.token, SettledAcknowledged)))
                                else if k in t.deliveries then t.deliveries[k] else Delivery(Pending, 0, now, None, None))
  }

  /**
   A completion with the right token and fence: a completed attempt recognises
   exactly the kind and payload it stored and refuses any other as a conflict; an
   armed one with a live lease publishes; anything else is refused.
   */
  lemma CompleteExactly(t: Tables, agent: Id, i: Id, input: I.CompleteInput, now: Time, throughSession: bool)
    requires Inv(t) && !Blank(input.kind) && Presented(t, agent, i, input.token, input.fence)
    requires throughSession || i !in t.turns || t.turns[i].state.TurnQuiescent?
    ensures t.invocations[i].HasResult() ==>
              I.CompleteInvocation(t, agent, i, input, now, throughSession)
              == if P.ResultSays(t, i, input.kind, input.payload) then Ok((t, false)) else Err(Conflict)
    ensures !t.invocations[i].HasResult() ==>
              (I.CompleteInvocation(t, agent, i, input, now, throughSession).Ok? <==> Completable(t, agent, i, input, now))
    ensures !t.invocations[i].HasResult() && Completable(t, agent, i, input, now) ==>
              var r := I.CompleteInvocation(t, agent, i, input, now, throughSession);
              r.Ok? && r.value.1 && CompletedBy(t, r.value.0, i, input, now)
  {
    assert AttemptRow(t, i) && DeliveryRow(t, t.invocations[i].key) && ResultRow(t, i);
    var answer := AnswerOf(t, i, input.kind, input.payload);
    assert I.ResultMessage(t, i, input) == answer;
    if t.invocations[i].HasResult() {
      RecognisesResult(t, i, input);
    } else if t.invocations[i].state.Armed? {
      PublishExactly(t, agent, i, input, now);
    }
  }

  lemma PublishExactly(t: Tables, agent: Id, i: Id, input: I.CompleteInput, now: Time)
    requires Inv(t) && i in t.invocations && t.invocations[i].key.agent == agent && t.invocations[i].state.Armed?
    requires t.invocations[i].key in t.deliveries && t.invocations[i].key.message in t.messages
    ensures t.deliveries[t.invocations[i].key].state == Leased(t.invocations[i].token, t.invocations[i].expiry)
    ensures K.KeyHolders(t, agent, ResultKey(i)) == {} <==> forall s :: !TakesResultKey(t, s, agent, i)
    ensures var answer, r := AnswerOf(t, i, input.kind, input.payload), I.PublishResult(t, i, I.ResultMessage(t, i, input), now);
            now < t.invocations[i].expiry ==>
              (r.Ok? <==> Takes(t, answer)) && (r.Ok? ==> r.value.1 && CompletedBy(t, r.value.0, i, input, now))
  {
    var answer := AnswerOf(t, i, input.kind, input.payload);
    assert AttemptRow(t, i);
    assert forall s :: TakesResultKey(t, s, agent, i) <==> s in K.KeyHolders(t, agent, ResultKey(i));
    InsertExactly(t, answer, now);
    if now < t.invocations[i].expiry && Takes(t, answer) {
      PublishWrites(t, K.InsertMessage(t, answer, now).value, i, input, now);
    }
  }

  /** Once the answer is appended, the acknowledgement and the verdict complete the completion. */
  lemma PublishWrites(t: Tables, published: Tables, i: Id, input: I.CompleteInput, now: Time)
    requires i in t.invocations && t.invocations[i].state.Armed?
    requires t.invocations[i].key in t.deliveries && t.invocations[i].key.message in t.messages
    requires LiveUnder(t, t.invocations[i].key, t.invocations[i].token, now)
    requires var answer := AnswerOf(t, i, input.kind, input.payload);
             K.InsertMessage(t, answer, now) == Ok(published) && Appended(t, published, answer, now)
    ensures var r := I.PublishResult(t, i, I.ResultMessage(t, i, input), now);
            r.Ok? && r.value.1 && CompletedBy(t, r.value.0, i, input, now)
  {
    var inv := t.invocations[i];
    assert I.ResultMessage(t, i, input) == AnswerOf(t, i, input.kind, input.payload);
    assert inv.key in published.deliveries && published.deliveries[inv.key] == t.deliveries[inv.key];
    assert K.HoldsLive(published, inv.key, inv.token, now);
  }

  /** The stored result differs from a repeated one at most in kind and payload. */
  lemma RecognisesResult(t: Tables, i: Id, input: I.CompleteInput)
    requires Inv(t) && i in t.invocations && t.invocations[i].HasResult() && t.invocations[i].key.message in t.messages
    ensures t.invocations[i].state.reason.result in t.messages
    ensures K.SameContent(t.messages[t.invocations[i].state.reason.result], I.ResultMessage(t, i, input))
            <==> P.ResultSays(t, i, input.kind, input.payload)
  {
    assert ResultRow(t, i);
  }

  /** Everybody else is refused before the attempt is looked at. */
  lemma CompleteNeeds(t: Tables, agent: Id, i: Id, input: I.CompleteInput, now: Time, throughSession: bool)
    requires Inv(t) && I.CompleteInvocation(t, agent, i, input, now, throughSession).Ok?
    ensures !Blank(input.kind) && Presented(t, agent, i, input.token, input.fence)
    ensures throughSession || i !in t.turns || t.turns[i].state.TurnQuiescent?
  {
  }

  // ---- an operator's decision ----------------------------------------------------------------------------------------------

  predicate DecisionInBounds(b: nat, input: K.ResolveInput) {
    && b > 0 && input.retryAfter <= DAY_MS && (input.how.Abandon? ==> input.retryAfter == 0)
    && (input.note.Some? ==> !Blank(input.note.value) && |input.note.value| <= MAX_TEXT)
  }

  /** The bound attempt that record `b` is about. */
  predicate IsAbout(t: Tables, b: nat, i: Id) {
    && b in t.blocks && i in t.invocations && i in t.turns
    && t.invocations[i].key == t.blocks[b].key && t.invocations[i].token == t.blocks[b].token
  }

  /** The session of the attempt was retired, and not by this decision. */
  predicate RetiredByHand(t: Tables, b: nat, how: Resolution, i: Id) {
    && IsAbout(t, b, i) && t.turns[i].binding in t.bindings
    && var binding := t.bindings[t.turns[i].binding];
       binding.state.Retired? && binding.retiredReason != Some(B.OperatorReason(b, how))
  }

  /** The decision can be taken: the block is open and the delay fits, or it was taken before. */
  predicate Decidable(t: Tables, b: nat, input: K.ResolveInput, now: Time) {
    && b in t.blocks
    && match t.blocks[b].resolved
       case None => input.how.Requeue? ==> now + input.retryAfter <= I64_MAX
       case Some(was) => was == Resolved(input.how, input.note, input.retryAfter)
  }

  /** What the decision makes of the parked row. */
  function Decided(d: Delivery, input: K.ResolveInput, now: Time): Delivery {
    match input.how
    case Requeue =>
      Delivery(Pending, d.attempt, now + input.retryAfter, if input.note.Some? then input.note else d.lastError, None)
    case Abandon =>
      Delivery(Dead, d.attempt, d.availableAt, if input.note.Some? then input.note else d.lastError, None)
  }

  /** The session rows after the decision: the one the record is about is retired, all others stand. */
  ghost predicate SessionRetired(t: Tables, u: Tables, b: nat, how: Resolution) {
    && u.bindings.Keys == t.bindings.Keys
    && (forall k | k in t.bindings && !RunsTurnOf(t, b, k) :: u.bindings[k] == t.bindings[k])
    && (forall k | k in t.bindings && RunsTurnOf(t, b, k) ::
          u.bindings[k] == t.bindings[k].(state := Retired, active := None, retiredReason := Some(B.OperatorReason(b, how))))
  }

  /** The session ran the attempt that record `b` is about. */
  ghost predicate RunsTurnOf(t: Tables, b: nat, k: BindingKey) {
    exists i :: IsAbout(t, b, i) && t.turns[i].binding == k
  }

  lemma AboutIsBlocked(t: Tables, b: nat)
    requires Inv(t) && b in t.blocks
    ensures forall i :: IsAbout(t, b, i) <==> i in B.BlockedTurns(t, b)
    ensures forall i, j | IsAbout(t, b, i) && IsAbout(t, b, j) :: i == j
    ensures forall i | IsAbout(t, b, i) ::
              && t.turns[i].binding in t.bindings && t.invocations[i].Ended(OutcomeUnknown) && t.turns[i].state.TurnUncertain?
              && var binding := t.bindings[t.turns[i].binding];
                 if binding.state.Retired? then binding.active.None? else binding.state.Uncertain? && binding.active == Some(i)
  {
    forall i | IsAbout(t, b, i)
      ensures t.turns[i].binding in t.bindings && t.invocations[i].Ended(OutcomeUnknown) && t.turns[i].state.TurnUncertain?
      ensures var binding := t.bindings[t.turns[i].binding];
              if binding.state.Retired? then binding.active.None? else binding.state.Uncertain? && binding.active == Some(i)
    {
      assert BlockRow(t, b) && AttemptRow(t, i) && TurnRow(t, i) && BindingRow(t, t.turns[i].binding);
      assert Evidence(t, b, t.invocations[i].key, t.invocations[i].token);
    }
    forall i, j | IsAbout(t, b, i) && IsAbout(t, b, j)
      ensures i == j
    {
      assert AttemptPair(t, i, j);
    }
  }

  lemma RetireForBlockAnswers(t: Tables, b: nat, how: Resolution)
    requires Inv(t) && b in t.blocks
    ensures (exists i :: RetiredByHand(t, b, how, i)) ==> B.RetireForBlock(t, b, how) == Err(Conflict)
    ensures (forall i :: !RetiredByHand(t, b, how, i)) ==>
              var r := B.RetireForBlock(t, b, how);
              r.Ok? && r.value == t.(bindings := r.value.bindings) && SessionRetired(t, r.value, b, how)
  {
    AboutIsBlocked(t, b);
    var bound := B.BlockedTurns(t, b);
    if bound != {} {
      var i := Least(bound);
      assert IsAbout(t, b, i);
      assert forall j :: IsAbout(t, b, j) <==> j == i;
      RetiresItsSession(t, b, how, i);
      assert RetiredByHand(t, b, how, i) || forall j :: !RetiredByHand(t, b, how, j);
    } else {
      assert forall k :: !RunsTurnOf(t, b, k);
    }
  }

  lemma RetiresItsSession(t: Tables, b: nat, how: Resolution, i: Id)
    requires IsAbout(t, b, i) && (forall j :: IsAbout(t, b, j) <==> j == i)
    requires t.turns[i].binding in t.bindings && t.invocations[i].Ended(OutcomeUnknown) && t.turns[i].state.TurnUncertain?
    requires var binding := t.bindings[t.turns[i].binding];
             if binding.state.Retired? then binding.active.None? else binding.state.Uncertain? && binding.active == Some(i)
    requires B.BlockedTurns(t, b) != {} && Least(B.BlockedTurns(t, b)) == i
    ensures RetiredByHand(t, b, how, i) ==> B.RetireForBlock(t, b, how) == Err(Conflict)
    ensures !RetiredByHand(t, b, how, i) ==>
              var r := B.RetireForBlock(t, b, how);
              r.Ok? && r.value == t.(bindings := r.value.bindings) && SessionRetired(t, r.value, b, how)
  {
    var k := t.turns[i].binding;
    assert forall l :: RunsTurnOf(t, b, l) <==> l == k;
  }

  /**
   An operator's decision is taken exactly when the block is open, or the same
   decision was taken before, and the session was not retired by hand. It moves the
   parked row as decided, closes the block, retires the session, and nothing else.
   */
  lemma ResolveExactly(t: Tables, b: nat, input: K.ResolveInput, now: Time)
    requires Inv(t)
    ensures !DecisionInBounds(b, input) ==> D.ResolveDeliveryBlock(t, b, input, now) == Err(Invalid)
    ensures DecisionInBounds(b, input) && b !in t.blocks ==> D.ResolveDeliveryBlock(t, b, input, now) == Err(NotFound)
    ensures DecisionInBounds(b, input) ==>
              (D.ResolveDeliveryBlock(t, b, input, now).Ok?
               <==> Decidable(t, b, input, now) && forall i :: !RetiredByHand(t, b, input.how, i))
    ensures DecisionInBounds(b, input) && D.ResolveDeliveryBlock(t, b, input, now).Ok? ==>
              b in t.blocks && t.blocks[b].key in t.deliveries
              && var k, u := t.blocks[b].key, D.ResolveDeliveryBlock(t, b, input, now).value;
                 && SessionRetired(t, u, b, input.how)
                 && u.(bindings := t.bindings)
                    == if t.blocks[b].resolved.Some? then t
                       else t.(deliveries := t.deliveries[k := Decided(t.deliveries[k], input, now)],
                               blocks := t.blocks[b := t.blocks[b].(resolved := Some(Resolved(input.how, input.note, input.retryAfter)))])
  {
    if DecisionInBounds(b, input) && b in t.blocks {
      assert BlockRow(t, b);
      DecisionWrites(t, b, input, now);
      if Decidable(t, b, input, now) {
        DecisionRetires(t, K.ResolveBlock(t, b, input, now).value, b, input, now);
      }
    }
  }

  lemma DecisionRetires(t: Tables, mid: Tables, b: nat, input: K.ResolveInput, now: Time)
    requires Inv(t) && K.ResolveBlock(t, b, input, now) == Ok(mid) && b in t.blocks && b in mid.blocks
    requires mid.blocks[b].key == t.blocks[b].key && mid.blocks[b].token == t.blocks[b].token
    requires mid.invocations == t.invocations && mid.turns == t.turns && mid.bindings == t.bindings
    ensures D.ResolveDeliveryBlock(t, b, input, now).Ok? <==> forall i :: !RetiredByHand(t, b, input.how, i)
    ensures D.ResolveDeliveryBlock(t, b, input, now).Ok? ==>
              var u := D.ResolveDeliveryBlock(t, b, input, now).value;
              u.(bindings := mid.bindings) == mid && SessionRetired(t, u, b, input.how)
  {
    P.ResolveRowKeeps(t, b, input, now);
    RetireForBlockAnswers(mid, b, input.how);
    DecisionFrame(t, mid, b, input.how);
  }

  /** What the decision writes does not change which session the record is about. */
  lemma DecisionFrame(t: Tables, mid: Tables, b: nat, how: Resolution)
    requires b in t.blocks && b in mid.blocks && mid.blocks[b].key == t.blocks[b].key && mid.blocks[b].token == t.blocks[b].token
    requires mid.invocations == t.invocations && mid.turns == t.turns && mid.bindings == t.bindings
    ensures forall i :: RetiredByHand(mid, b, how, i) <==> RetiredByHand(t, b, how, i)
    ensures forall u :: SessionRetired(mid, u, b, how) <==> SessionRetired(t, u, b, how)
  {
    assert forall i :: IsAbout(mid, b, i) <==> IsAbout(t, b, i);
    assert forall k :: RunsTurnOf(mid, b, k) <==> RunsTurnOf(t, b, k);
  }

  lemma DecisionWrites(t: Tables, b: nat, input: K.ResolveInput, now: Time)
    requires DecisionInBounds(b, input) && b in t.blocks && t.blocks[b].key in t.deliveries
    requires t.blocks[b].resolved.None? ==> t.deliveries[t.blocks[b].key].state.Blocked?
    ensures K.ResolveBlock(t, b, input, now).Ok? <==> Decidable(t, b, input, now)
    ensures Decidable(t, b, input, now) ==>
              var k := t.blocks[b].key;
              K.ResolveBlock(t, b, input, now).value
              == if t.blocks[b].resolved.Some? then t
                 else t.(deliveries := t.deliveries[k := Decided(t.deliveries[k], input, now)],
                         blocks := t.blocks[b := t.blocks[b].(resolved := Some(Resolved(input.how, input.note, input.retryAfter)))])
  {
  }

  // ---- claiming ----------------------------------------------------------------------------------------------------------------

  /** The row may be leased: due, and pending or under a lease that has expired. */
  predicate Due(t: Tables, k: DeliveryKey, agent: Id, now: Time, kinds: Option<set<Text>>) {
    && k in t.deliveries && k.agent == agent && t.deliveries[k].availableAt <= now
    && (match t.deliveries[k].state
        case Pending => true
        case Leased(_, expiry) => expiry <= now
        case _ => false)
    && k.message in t.messages && (kinds.Some? ==> t.messages[k.message].kind in kinds.value)
  }

  /** The rows a claim may lease are exactly the due ones of the inbox. */
  lemma ClaimableExactly(t: Tables, agent: Id, now: Time, kinds: Option<set<Text>>)
    ensures forall k :: k in K.ClaimableKeys(t, agent, now, kinds) <==> Due(t, k, agent, now, kinds)
  {
  }
}
