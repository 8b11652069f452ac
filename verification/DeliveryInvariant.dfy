/**
 What every transaction keeps about deliveries, the attempts fencing them, and
 the block evidence: at most one open attempt per delivery, holding exactly the
 delivery's lease, and verdicts that the delivery and block rows bear out.
 */
module DeliveryInvariant {
  import opened Wrappers
  import opened Tables
  import opened Invocations
  import K = Kernel
  import S = SessionTurns

  // ---- the invariant, row by row ------------------------------------------------------

  /** Row `b` is block evidence recorded under this lease. */
  predicate Evidence(t: Tables, b: nat, k: DeliveryKey, token: Id) {
    b in t.blocks && t.blocks[b].key == k && t.blocks[b].token == token
  }

  predicate Unresolved(t: Tables, b: nat, k: DeliveryKey) {
    b in t.blocks && t.blocks[b].key == k && t.blocks[b].resolved.None?
  }

  /**
   One attempt: while open it holds the delivery's exact lease; once terminal its
   verdict is borne out by the delivery and by block evidence.
   */
  ghost predicate AttemptRow(t: Tables, i: Id)
    requires i in t.invocations
  {
    var inv := t.invocations[i];
    && i < t.nextId && inv.token < t.nextId
    && inv.key in t.deliveries
    && inv.attempt <= t.deliveries[inv.key].attempt
    && (!inv.state.Terminal? ==>
          && t.deliveries[inv.key].state == Leased(inv.token, inv.expiry)
          && t.deliveries[inv.key].attempt == inv.attempt)
    && (inv.Ended(NotStarted) ==> !inv.EverArmed())
    && (inv.Ended(OutcomeKnown) ==>
          && t.deliveries[inv.key].state.Acknowledged?
          && t.deliveries[inv.key].attempt == inv.attempt
          && forall b :: !Evidence(t, b, inv.key, inv.token))
    && (inv.Ended(OutcomeUnknown) ==> exists b :: Evidence(t, b, inv.key, inv.token))
    && (inv.HasResult() ==> inv.Ended(OutcomeKnown))
  }

  /** A parked delivery has an unresolved block; a leased one an issued token. */
  ghost predicate DeliveryRow(t: Tables, k: DeliveryKey)
    requires k in t.deliveries
  {
    && k.message in t.messages
    && (t.deliveries[k].state.Leased? ==> t.deliveries[k].state.token < t.nextId)
    && (t.deliveries[k].state.Blocked? ==> exists b :: Unresolved(t, b, k))
  }

  /** A block is open exactly while its delivery is parked; abandoning is final. */
  ghost predicate BlockRow(t: Tables, b: nat)
    requires b in t.blocks
  {
    var block := t.blocks[b];
    && b < t.nextBlock && block.token < t.nextId
    && block.key in t.deliveries
    && !K.Holds(t, block.key, block.token)
    && (block.resolved.None? ==> t.deliveries[block.key].state.Blocked?)
    && (block.resolved.Some? && block.resolved.value.how.Abandon? ==> t.deliveries[block.key].state.Dead?)
  }

  /** Attempts of one delivery are told apart by number and by lease token. */
  ghost predicate AttemptsDistinct(t: Tables) {
    forall i, j {:trigger AttemptPair(t, i, j)} | i in t.invocations && j in t.invocations :: AttemptPair(t, i, j)
  }

  ghost predicate AttemptPair(t: Tables, i: Id, j: Id)
    requires i in t.invocations && j in t.invocations
  {
    i != j && t.invocations[i].key == t.invocations[j].key ==>
      t.invocations[i].attempt != t.invocations[j].attempt && t.invocations[i].token != t.invocations[j].token
  }

  /** One block per lease, and one unresolved block per delivery. */
  ghost predicate BlocksDistinct(t: Tables) {
    forall b, c {:trigger BlockPair(t, b, c)} | b in t.blocks && c in t.blocks :: BlockPair(t, b, c)
  }

  ghost predicate BlockPair(t: Tables, b: nat, c: nat)
    requires b in t.blocks && c in t.blocks
  {
    b != c && t.blocks[b].key == t.blocks[c].key ==>
      t.blocks[b].token != t.blocks[c].token && (t.blocks[b].resolved.Some? || t.blocks[c].resolved.Some?)
  }

  ghost predicate DeliveryInv(t: Tables) {
    && (forall m | m in t.messages :: m < t.nextSeq)
    && (forall k {:trigger DeliveryRow(t, k)} | k in t.deliveries :: DeliveryRow(t, k))
    && (forall i {:trigger AttemptRow(t, i)} | i in t.invocations :: AttemptRow(t, i))
    && (forall b {:trigger BlockRow(t, b)} | b in t.blocks :: BlockRow(t, b))
    && AttemptsDistinct(t)
    && BlocksDistinct(t)
  }

  // ---- consequences ------------------------------------------------------------------------

  /** While a lease is held, other attempts of the delivery are over and its old blocks were requeued. */
  lemma WhileHeld(t: Tables, k: DeliveryKey, token: Id)
    requires DeliveryInv(t) && K.Holds(t, k, token)
    ensures forall i | i in t.invocations && t.invocations[i].key == k ::
              && !t.invocations[i].Ended(OutcomeKnown)
              && (!t.invocations[i].state.Terminal? ==> t.invocations[i].token == token)
    ensures forall b | b in t.blocks && t.blocks[b].key == k ::
              && t.blocks[b].token != token
              && t.blocks[b].resolved.Some? && t.blocks[b].resolved.value.how.Requeue?
  {
    forall i | i in t.invocations && t.invocations[i].key == k
      ensures !t.invocations[i].Ended(OutcomeKnown)
      ensures !t.invocations[i].state.Terminal? ==> t.invocations[i].token == token
    {
      assert AttemptRow(t, i);
    }
    forall b | b in t.blocks && t.blocks[b].key == k
      ensures t.blocks[b].token != token
      ensures t.blocks[b].resolved.Some? && t.blocks[b].resolved.value.how.Requeue?
    {
      assert BlockRow(t, b);
    }
  }

  /** Ending "every attempt open under a lease" ends the one attempt that is. */
  lemma EndAttemptsIsSingle(t: Tables, i: Id, certainty: Certainty, reason: TerminalReason, now: Time)
    requires AttemptsDistinct(t)
    requires i in t.invocations && !t.invocations[i].state.Terminal?
    ensures EndAttempts(t, t.invocations[i].key, t.invocations[i].token, certainty, reason, now)
            == t.(invocations := t.invocations[i := End(t.invocations[i], now, certainty, reason)])
  {
    var u := EndAttempts(t, t.invocations[i].key, t.invocations[i].token, certainty, reason, now);
    var v := t.(invocations := t.invocations[i := End(t.invocations[i], now, certainty, reason)]);
    forall j | j in t.invocations
      ensures u.invocations[j] == v.invocations[j]
    {
      assert AttemptPair(t, i, j);
    }
    assert u.invocations == v.invocations;
  }

  // ---- two-state frames ----------------------------------------------------------------------

  /** The same attempts, apart from their state. */
  ghost predicate SameAttempts(t: Tables, u: Tables) {
    && u.invocations.Keys == t.invocations.Keys
    && forall i | i in t.invocations :: u.invocations[i] == t.invocations[i].(state := u.invocations[i].state)
  }

  lemma DistinctKeeps(t: Tables, u: Tables)
    requires AttemptsDistinct(t) && SameAttempts(t, u)
    ensures AttemptsDistinct(u)
  {
    forall i, j | i in u.invocations && j in u.invocations
      ensures AttemptPair(u, i, j)
    {
      assert AttemptPair(t, i, j);
      assert u.invocations[i] == t.invocations[i].(state := u.invocations[i].state);
      assert u.invocations[j] == t.invocations[j].(state := u.invocations[j].state);
    }
  }

  lemma BlockPairsKeep(t: Tables, u: Tables)
    requires BlocksDistinct(t) && u.blocks == t.blocks
    ensures BlocksDistinct(u)
  {
    forall b, c | b in u.blocks && c in u.blocks
      ensures BlockPair(u, b, c)
    {
      assert BlockPair(t, b, c);
    }
  }

  /** An attempt row survives when its own delivery, evidence and counters do. */
  lemma AttemptRowFrame(t: Tables, u: Tables, i: Id)
    requires i in t.invocations && AttemptRow(t, i)
    requires i in u.invocations && u.invocations[i] == t.invocations[i]
    requires t.nextId <= u.nextId
    requires t.invocations[i].key in u.deliveries
    requires u.deliveries[t.invocations[i].key].state == t.deliveries[t.invocations[i].key].state
    requires u.deliveries[t.invocations[i].key].attempt == t.deliveries[t.invocations[i].key].attempt
    requires forall b :: Evidence(u, b, t.invocations[i].key, t.invocations[i].token)
                         <==> Evidence(t, b, t.invocations[i].key, t.invocations[i].token)
    ensures AttemptRow(u, i)
  {
    var inv := t.invocations[i];
    if inv.Ended(OutcomeUnknown) {
      var b :| Evidence(t, b, inv.key, inv.token);
      assert Evidence(u, b, inv.key, inv.token);
    }
  }

  // ---- messages --------------------------------------------------------------------------------

  lemma InsertMessageKeeps(t: Tables, m: Message, now: Time)
    requires DeliveryInv(t) && K.InsertMessage(t, m, now).Ok?
    ensures DeliveryInv(K.InsertMessage(t, m, now).value)
    ensures forall k | k in t.deliveries ::
              k in K.InsertMessage(t, m, now).value.deliveries
              && K.InsertMessage(t, m, now).value.deliveries[k] == t.deliveries[k]
  {
    var u := K.InsertMessage(t, m, now).value;
    forall k | k in t.deliveries
      ensures k in u.deliveries && u.deliveries[k] == t.deliveries[k]
    {
      assert DeliveryRow(t, k);
    }
    forall k | k in u.deliveries
      ensures DeliveryRow(u, k)
    {
      if k in t.deliveries {
        assert DeliveryRow(t, k);
        if t.deliveries[k].state.Blocked? {
          var b :| Unresolved(t, b, k);
          assert Unresolved(u, b, k);
        }
      }
    }
    forall i | i in u.invocations
      ensures AttemptRow(u, i)
    {
      assert AttemptRow(t, i);
      AttemptRowFrame(t, u, i);
    }
    forall b | b in u.blocks
      ensures BlockRow(u, b)
    {
      assert BlockRow(t, b);
    }
    DistinctKeeps(t, u);
    BlockPairsKeep(t, u);
  }

  // ---- leasing ------------------------------------------------------------------------------------

  /** Leasing rows that no open attempt holds, under a token nobody carries. */
  lemma LeaseKeeps(t: Tables, keys: set<DeliveryKey>, token: Id, expiry: Time)
    requires DeliveryInv(t)
    requires token < t.nextId
    requires forall b | b in t.blocks :: t.blocks[b].token != token
    requires forall k | k in keys ::
               k in t.deliveries && (t.deliveries[k].state.Pending? || t.deliveries[k].state.Leased?)
    requires forall i | i in t.invocations && t.invocations[i].key in keys :: t.invocations[i].state.Terminal?
    ensures DeliveryInv(K.LeaseRows(t, keys, token, expiry))
  {
    var u := K.LeaseRows(t, keys, token, expiry);
    forall k | k in u.deliveries
      ensures DeliveryRow(u, k)
    {
      assert DeliveryRow(t, k);
      if u.deliveries[k].state.Blocked? {
        var b :| Unresolved(t, b, k);
        assert Unresolved(u, b, k);
      }
    }
    forall i | i in u.invocations
      ensures AttemptRow(u, i)
    {
      LeaseAttemptRow(t, u, keys, token, expiry, i);
    }
    forall b | b in u.blocks
      ensures BlockRow(u, b)
    {
      assert BlockRow(t, b);
    }
    DistinctKeeps(t, u);
    BlockPairsKeep(t, u);
  }

  lemma LeaseAttemptRow(t: Tables, u: Tables, keys: set<DeliveryKey>, token: Id, expiry: Time, i: Id)
    requires u == K.LeaseRows(t, keys, token, expiry)
    requires i in t.invocations && AttemptRow(t, i)
    requires t.invocations[i].key in keys ==> t.invocations[i].state.Terminal?
    requires forall k | k in keys ::
               k in t.deliveries && (t.deliveries[k].state.Pending? || t.deliveries[k].state.Leased?)
    ensures AttemptRow(u, i)
  {
    var inv := t.invocations[i];
    assert forall b :: Evidence(u, b, inv.key, inv.token) <==> Evidence(t, b, inv.key, inv.token);
    if inv.key !in keys {
      AttemptRowFrame(t, u, i);
    } else if inv.Ended(OutcomeUnknown) {
      var b :| Evidence(t, b, inv.key, inv.token);
      assert Evidence(u, b, inv.key, inv.token);
    }
  }

  /** Inserting the attempt of a row leased under a token no attempt carries. */
  lemma ReserveRowKeeps(t: Tables, k: DeliveryKey, token: Id, expiry: Time, now: Time)
    requires DeliveryInv(t)
    requires k in t.deliveries && t.deliveries[k].state == Leased(token, expiry)
    requires forall i | i in t.invocations && t.invocations[i].key == k ::
               t.invocations[i].attempt < t.deliveries[k].attempt && t.invocations[i].token != token
    ensures ReserveRow(t, k, token, expiry, now).Ok?
    ensures DeliveryInv(ReserveRow(t, k, token, expiry, now).value)
  {
    var u := ReserveRow(t, k, token, expiry, now).value;
    assert t.nextId in t.invocations ==> AttemptRow(t, t.nextId);
    forall l | l in u.deliveries
      ensures DeliveryRow(u, l)
    {
      assert DeliveryRow(t, l);
      if u.deliveries[l].state.Blocked? {
        var b :| Unresolved(t, b, l);
        assert Unresolved(u, b, l);
      }
    }
    forall i | i in u.invocations
      ensures AttemptRow(u, i)
    {
      if i == t.nextId {
        assert DeliveryRow(t, k);
      } else {
        assert AttemptRow(t, i);
        AttemptRowFrame(t, u, i);
      }
    }
    forall b | b in u.blocks
      ensures BlockRow(u, b)
    {
      assert BlockRow(t, b);
    }
    forall i, j | i in u.invocations && j in u.invocations
      ensures AttemptPair(u, i, j)
    {
      if i != t.nextId && j != t.nextId {
        assert AttemptPair(t, i, j);
      }
    }
    BlockPairsKeep(t, u);
  }

  // ---- changes of one attempt's state, deliveries untouched -------------------------------------------

  /** Arming reservations, or ending them as not started, leaves everything else standing. */
  lemma ReservationsMove(t: Tables, u: Tables)
    requires DeliveryInv(t)
    requires SameAttempts(t, u) && u == t.(invocations := u.invocations)
    requires forall i | i in t.invocations ::
               || u.invocations[i] == t.invocations[i]
               || (t.invocations[i].state.Reserved? && u.invocations[i].state.Armed?)
               || (t.invocations[i].state.Reserved? && u.invocations[i].Ended(NotStarted)
                   && u.invocations[i].state.armed.None? && !u.invocations[i].HasResult())
    ensures DeliveryInv(u)
  {
    DistinctKeeps(t, u);
    forall k | k in u.deliveries
      ensures DeliveryRow(u, k)
    {
      assert DeliveryRow(t, k);
      if u.deliveries[k].state.Blocked? {
        var b :| Unresolved(t, b, k);
        assert Unresolved(u, b, k);
      }
    }
    forall i | i in u.invocations
      ensures AttemptRow(u, i)
    {
      assert AttemptRow(t, i);
      if u.invocations[i] == t.invocations[i] {
        AttemptRowFrame(t, u, i);
      }
    }
    forall b | b in u.blocks
      ensures BlockRow(u, b)
    {
      assert BlockRow(t, b);
    }
    BlockPairsKeep(t, u);
  }

  // ---- settlement ------------------------------------------------------------------------------------

  /** The lease on `k` was settled: its row moved off the lease and its attempt ended. */
  ghost predicate Settled(t: Tables, u: Tables, k: DeliveryKey, token: Id, certainty: Certainty) {
    && K.Holds(t, k, token)
    && u.messages == t.messages && u.nextSeq == t.nextSeq && u.nextId == t.nextId
    && u.deliveries.Keys == t.deliveries.Keys
    && (forall l | l in t.deliveries && l != k :: u.deliveries[l] == t.deliveries[l])
    && u.deliveries[k].attempt == t.deliveries[k].attempt
    && !u.deliveries[k].state.Leased?
    && SameAttempts(t, u)
    && forall i | i in t.invocations ::
         if S.OpenUnder(t.invocations[i], k, token)
         then u.invocations[i].Ended(certainty)
              && (u.invocations[i].EverArmed() <==> t.invocations[i].EverArmed())
              && (u.invocations[i].HasResult() ==> certainty.OutcomeKnown?)
         else u.invocations[i] == t.invocations[i]
  }

  lemma EndAttemptsSettles(t: Tables, mid: Tables, k: DeliveryKey, token: Id, certainty: Certainty,
                           reason: TerminalReason, now: Time)
    requires K.Holds(t, k, token)
    requires mid.invocations == t.invocations && mid.nextId == t.nextId
    requires mid.messages == t.messages && mid.nextSeq == t.nextSeq
    requires mid.deliveries.Keys == t.deliveries.Keys
    requires forall l | l in t.deliveries && l != k :: mid.deliveries[l] == t.deliveries[l]
    requires mid.deliveries[k].attempt == t.deliveries[k].attempt && !mid.deliveries[k].state.Leased?
    requires reason.Completed? ==> certainty.OutcomeKnown?
    ensures Settled(t, EndAttempts(mid, k, token, certainty, reason, now), k, token, certainty)
  {
  }

  /** Known and not-started settlements move the row to a state that needs no evidence. */
  lemma SettledWithoutEvidence(t: Tables, u: Tables, k: DeliveryKey, token: Id, certainty: Certainty)
    requires DeliveryInv(t) && Settled(t, u, k, token, certainty)
    requires u.blocks == t.blocks && u.nextBlock == t.nextBlock
    requires certainty.OutcomeKnown? ==> u.deliveries[k].state.Acknowledged?
    requires certainty.NotStarted? ==> u.deliveries[k].state.Pending? && RetryIsSafe(t, k, token)
    requires !certainty.OutcomeUnknown?
    ensures DeliveryInv(u)
  {
    WhileHeld(t, k, token);
    DistinctKeeps(t, u);
    forall l | l in u.deliveries
      ensures DeliveryRow(u, l)
    {
      assert DeliveryRow(t, l);
      if u.deliveries[l].state.Blocked? {
        var b :| Unresolved(t, b, l);
        assert Unresolved(u, b, l);
      }
    }
    forall i | i in u.invocations
      ensures AttemptRow(u, i)
    {
      assert AttemptRow(t, i);
      SettledAttemptRow(t, u, k, token, certainty, i);
    }
    forall b | b in u.blocks
      ensures BlockRow(u, b)
    {
      assert BlockRow(t, b);
    }
    BlockPairsKeep(t, u);
  }

  lemma SettledAttemptRow(t: Tables, u: Tables, k: DeliveryKey, token: Id, certainty: Certainty, i: Id)
    requires Settled(t, u, k, token, certainty)
    requires i in t.invocations && AttemptRow(t, i)
    requires u.blocks == t.blocks
    requires t.invocations[i].key == k ==>
               && !t.invocations[i].Ended(OutcomeKnown)
               && (!t.invocations[i].state.Terminal? ==> t.invocations[i].token == token)
    requires forall b | b in t.blocks && t.blocks[b].key == k :: t.blocks[b].token != token
    requires certainty.OutcomeKnown? ==> u.deliveries[k].state.Acknowledged?
    requires certainty.NotStarted? ==> RetryIsSafe(t, k, token)
    requires !certainty.OutcomeUnknown?
    ensures AttemptRow(u, i)
  {
    var inv := t.invocations[i];
    assert forall b :: Evidence(u, b, inv.key, inv.token) <==> Evidence(t, b, inv.key, inv.token);
    if inv.key != k {
      AttemptRowFrame(t, u, i);
    } else if inv.Ended(OutcomeUnknown) {
      var b :| Evidence(t, b, inv.key, inv.token);
      assert Evidence(u, b, inv.key, inv.token);
    }
  }

  lemma AcknowledgeKeeps(t: Tables, k: DeliveryKey, token: Id, reason: TerminalReason, now: Time)
    requires DeliveryInv(t) && K.Holds(t, k, token)
    ensures DeliveryInv(EndAttempts(K.Acknowledge(t, k, token), k, token, OutcomeKnown, reason, now))
  {
    EndAttemptsSettles(t, K.Acknowledge(t, k, token), k, token, OutcomeKnown, reason, now);
    SettledWithoutEvidence(t, EndAttempts(K.Acknowledge(t, k, token), k, token, OutcomeKnown, reason, now),
                           k, token, OutcomeKnown);
  }

  lemma ReleaseKeeps(t: Tables, k: DeliveryKey, token: Id, availableAt: Time, error: Option<Text>, now: Time)
    requires DeliveryInv(t) && K.Holds(t, k, token) && RetryIsSafe(t, k, token)
    ensures DeliveryInv(EndAttempts(K.Release(t, k, token, availableAt, error), k, token, NotStarted, RetriedBy, now))
  {
    EndAttemptsSettles(t, K.Release(t, k, token, availableAt, error), k, token, NotStarted, RetriedBy, now);
    SettledWithoutEvidence(t, EndAttempts(K.Release(t, k, token, availableAt, error), k, token, NotStarted, RetriedBy, now),
                           k, token, NotStarted);
  }

  /** Parking with evidence: the attempt that held the lease ends unknown. */
  lemma ParkKeeps(t: Tables, k: DeliveryKey, token: Id, attempt: nat, text: Text, reason: TerminalReason, now: Time)
    requires DeliveryInv(t) && K.Holds(t, k, token) && !reason.Completed?
    ensures K.RecordBlock(K.Park(t, k, token, text), k, attempt, token, text).Ok?
    ensures DeliveryInv(EndAttempts(K.RecordBlock(K.Park(t, k, token, text), k, attempt, token, text).value,
                                    k, token, OutcomeUnknown, reason, now))
  {
    WhileHeld(t, k, token);
    var parked := K.Park(t, k, token, text);
    assert K.BlocksUnder(parked, k, token) == {};
    var mid := K.RecordBlock(parked, k, attempt, token, text).value;
    var u := EndAttempts(mid, k, token, OutcomeUnknown, reason, now);
    EndAttemptsSettles(t, mid, k, token, OutcomeUnknown, reason, now);
    SettledWithEvidence(t, u, k, token);
  }

  ghost predicate Parked(t: Tables, u: Tables, k: DeliveryKey, token: Id) {
    && Settled(t, u, k, token, OutcomeUnknown)
    && u.deliveries[k].state.Blocked?
    && u.nextBlock == t.nextBlock + 1
    && u.blocks.Keys == t.blocks.Keys + {t.nextBlock}
    && t.nextBlock !in t.blocks
    && (forall b | b in t.blocks :: u.blocks[b] == t.blocks[b])
    && Evidence(u, t.nextBlock, k, token) && u.blocks[t.nextBlock].resolved.None?
  }

  lemma SettledWithEvidence(t: Tables, u: Tables, k: DeliveryKey, token: Id)
    requires DeliveryInv(t) && Settled(t, u, k, token, OutcomeUnknown)
    requires u.deliveries[k].state.Blocked? && u.nextBlock == t.nextBlock + 1
    requires u.blocks.Keys == t.blocks.Keys + {t.nextBlock}
    requires forall b | b in t.blocks && b != t.nextBlock :: u.blocks[b] == t.blocks[b]
    requires Evidence(u, t.nextBlock, k, token) && u.blocks[t.nextBlock].resolved.None?
    ensures DeliveryInv(u)
  {
    WhileHeld(t, k, token);
    DistinctKeeps(t, u);
    assert t.nextBlock in t.blocks ==> BlockRow(t, t.nextBlock);
    assert Parked(t, u, k, token);
    forall l | l in u.deliveries
      ensures DeliveryRow(u, l)
    {
      assert DeliveryRow(t, l);
      if l == k {
        assert Unresolved(u, t.nextBlock, k);
      } else if u.deliveries[l].state.Blocked? {
        var b :| Unresolved(t, b, l);
        assert Unresolved(u, b, l);
      }
    }
    forall i | i in u.invocations
      ensures AttemptRow(u, i)
    {
      assert AttemptRow(t, i);
      ParkedAttemptRow(t, u, k, token, i);
    }
    forall b | b in u.blocks
      ensures BlockRow(u, b)
    {
      if b == t.nextBlock {
        assert DeliveryRow(t, k);
      } else {
        assert BlockRow(t, b);
      }
    }
    ParkedBlocksDistinct(t, u, k, token);
  }

  lemma ParkedAttemptRow(t: Tables, u: Tables, k: DeliveryKey, token: Id, i: Id)
    requires Parked(t, u, k, token)
    requires i in t.invocations && AttemptRow(t, i)
    requires t.invocations[i].key == k ==>
               && !t.invocations[i].Ended(OutcomeKnown)
               && (!t.invocations[i].state.Terminal? ==> t.invocations[i].token == token)
    ensures AttemptRow(u, i)
  {
    var inv := t.invocations[i];
    if inv.key != k {
      assert forall b :: Evidence(u, b, inv.key, inv.token) <==> Evidence(t, b, inv.key, inv.token);
      AttemptRowFrame(t, u, i);
    } else if S.OpenUnder(inv, k, token) {
      assert Evidence(u, t.nextBlock, k, token);
    } else if inv.Ended(OutcomeUnknown) {
      var b :| Evidence(t, b, inv.key, inv.token);
      assert Evidence(u, b, inv.key, inv.token);
    }
  }

  lemma ParkedBlocksDistinct(t: Tables, u: Tables, k: DeliveryKey, token: Id)
    requires Parked(t, u, k, token) && BlocksDistinct(t)
    requires forall b | b in t.blocks && t.blocks[b].key == k :: t.blocks[b].token != token && t.blocks[b].resolved.Some?
    ensures BlocksDistinct(u)
  {
    forall b, c | b in u.blocks && c in u.blocks
      ensures BlockPair(u, b, c)
    {
      if b in t.blocks && c in t.blocks {
        assert BlockPair(t, b, c);
      }
    }
  }

  // ---- operator resolution -------------------------------------------------------------------------------

  lemma ResolveKeeps(t: Tables, blockId: nat, input: K.ResolveInput, now: Time)
    requires DeliveryInv(t) && K.ResolveBlock(t, blockId, input, now).Ok?
    ensures DeliveryInv(K.ResolveBlock(t, blockId, input, now).value)
  {
    var u := K.ResolveBlock(t, blockId, input, now).value;
    if t.blocks[blockId].resolved.None? {
      var k := t.blocks[blockId].key;
      assert BlockRow(t, blockId);
      forall l | l in u.deliveries
        ensures DeliveryRow(u, l)
      {
        assert DeliveryRow(t, l);
        if u.deliveries[l].state.Blocked? {
          var b :| Unresolved(t, b, l);
          assert Unresolved(u, b, l);
        }
      }
      forall i | i in u.invocations
        ensures AttemptRow(u, i)
      {
        assert AttemptRow(t, i);
        ResolvedAttemptRow(t, u, blockId, i);
      }
      forall b | b in u.blocks
        ensures BlockRow(u, b)
      {
        assert BlockRow(t, b) && BlockPair(t, b, blockId);
      }
      forall b, c | b in u.blocks && c in u.blocks
        ensures BlockPair(u, b, c)
      {
        assert BlockPair(t, b, c);
      }
      DistinctKeeps(t, u);
    }
  }

  lemma ResolvedAttemptRow(t: Tables, u: Tables, blockId: nat, i: Id)
    requires blockId in t.blocks && t.blocks[blockId].key in t.deliveries
    requires t.deliveries[t.blocks[blockId].key].state.Blocked?
    requires i in t.invocations && AttemptRow(t, i)
    requires u.invocations == t.invocations && u.nextId == t.nextId
    requires blockId in u.blocks && u.blocks[blockId] == t.blocks[blockId].(resolved := u.blocks[blockId].resolved)
    requires u.blocks == t.blocks[blockId := u.blocks[blockId]]
    requires t.blocks[blockId].key in u.deliveries
    requires u.deliveries == t.deliveries[t.blocks[blockId].key := u.deliveries[t.blocks[blockId].key]]
    requires u.deliveries[t.blocks[blockId].key].attempt == t.deliveries[t.blocks[blockId].key].attempt
    ensures AttemptRow(u, i)
  {
    var inv := t.invocations[i];
    assert forall b :: Evidence(u, b, inv.key, inv.token) <==> Evidence(t, b, inv.key, inv.token);
    if inv.key != t.blocks[blockId].key {
      AttemptRowFrame(t, u, i);
    } else if inv.Ended(OutcomeUnknown) {
      var b :| Evidence(t, b, inv.key, inv.token);
      assert Evidence(u, b, inv.key, inv.token);
    }
  }
}
