/**
 Recovery of expired attempts: it keeps the joint invariant, succeeds exactly
 when no expired armed attempt was stranded by an early retirement of its
 session, leaves nothing expired behind, and counts what it settled.
 */
module Recovery {
  import opened Wrappers
  import opened Tables
  import opened Invocations
  import opened Ordering
  import opened DeliveryInvariant
  import opened SessionInvariant
  import K = Kernel
  import S = SessionTurns

  ghost predicate Inv(t: Tables) {
    DeliveryInv(t) && SessionInv(t)
  }

  // ---- expired reservations -----------------------------------------------------------------

  lemma ReservationsKeep(t: Tables, agent: Id, now: Time)
    requires Inv(t)
    ensures Inv(TerminalizeExpiredReservations(t, agent, now))
  {
    var u := TerminalizeExpiredReservations(t, agent, now);
    ReservationsMove(t, u);
    forall i | i in t.invocations
      ensures QuietMove(t, u, i)
    {
      if i in t.turns {
        assert TurnRow(t, i);
      }
    }
    QuietKeeps(t, u);
  }

  // ---- one expired armed attempt ---------------------------------------------------------------

  /** The session of this attempt was retired before the attempt was settled. */
  predicate Stranded(t: Tables, i: Id) {
    i in t.turns && t.turns[i].binding in t.bindings && t.bindings[t.turns[i].binding].state.Retired?
  }

  /** Parking is the session mark, then the delivery, its evidence and the verdict. */
  function Marked(t: Tables, i: Id): Result<Tables> {
    S.MarkExpiredTurnUncertain(t, i, ExpiryReason(i))
  }

  /** Only the attempt's own turn and binding changed, and no binding was retired. */
  ghost predicate SessionMarked(t: Tables, m: Tables, i: Id) {
    && m == t.(turns := m.turns, bindings := m.bindings)
    && m.turns.Keys == t.turns.Keys
    && (forall j | j in t.turns :: m.turns[j].binding == t.turns[j].binding)
    && (i in t.turns ==> m.turns[i].state.TurnUncertain?)
    && m.bindings.Keys == t.bindings.Keys
    && (forall k | k in t.bindings :: m.bindings[k].state.Retired? <==> t.bindings[k].state.Retired?)
  }

  lemma MarkedExactly(t: Tables, i: Id)
    requires SessionInv(t) && i in t.invocations && t.invocations[i].state.Armed?
    ensures Marked(t, i).Ok? <==> !Stranded(t, i)
    ensures Marked(t, i).Ok? ==> SessionInv(Marked(t, i).value)
    ensures Marked(t, i).Ok? ==> SessionMarked(t, Marked(t, i).value, i)
  {
    if i in t.turns {
      assert TurnRow(t, i);
      var turn := t.turns[i];
      assert BindingRow(t, turn.binding);
      if turn.state.TurnActive? {
        var h := Handle(turn.binding.id, turn.binding.generation, turn.epoch);
        assert h.Key() == turn.binding;
        MarkUncertainKeeps(t, t.bindings[turn.binding].lane.agent, i, h, ExpiryReason(i));
      }
    }
  }

  /** The mark reads and writes only the session rows, so it commutes with the rest of parking. */
  lemma MarkFrame(t: Tables, u: Tables, i: Id, reason: Text)
    requires u.turns == t.turns && u.bindings == t.bindings
    ensures S.MarkExpiredTurnUncertain(u, i, reason).Ok? <==> S.MarkExpiredTurnUncertain(t, i, reason).Ok?
    ensures S.MarkExpiredTurnUncertain(t, i, reason).Ok? ==>
              S.MarkExpiredTurnUncertain(u, i, reason).value
              == u.(turns := S.MarkExpiredTurnUncertain(t, i, reason).value.turns,
                    bindings := S.MarkExpiredTurnUncertain(t, i, reason).value.bindings)
  {
  }

  function Ended(t: Tables, i: Id, now: Time): Tables
    requires i in t.invocations && t.invocations[i].key in t.deliveries
  {
    var inv := t.invocations[i];
    var parked := K.Park(t, inv.key, inv.token, ExpiryReason(i));
    parked.(blocks := t.blocks[t.nextBlock := Block(inv.key, t.deliveries[inv.key].attempt, inv.token, ExpiryReason(i), None)],
            nextBlock := t.nextBlock + 1,
            invocations := t.invocations[i := End(inv, now, OutcomeUnknown, LeaseExpiredAfterArm)])
  }

  lemma EndedKeeps(t: Tables, i: Id, now: Time)
    requires DeliveryInv(t) && i in t.invocations && t.invocations[i].state.Armed?
    requires K.Holds(t, t.invocations[i].key, t.invocations[i].token)
    ensures DeliveryInv(Ended(t, i, now))
    ensures K.RecordBlock(K.Park(t, t.invocations[i].key, t.invocations[i].token, ExpiryReason(i)), t.invocations[i].key,
                          t.deliveries[t.invocations[i].key].attempt, t.invocations[i].token, ExpiryReason(i)).Ok?
  {
    var inv := t.invocations[i];
    var attempt := t.deliveries[inv.key].attempt;
    ParkKeeps(t, inv.key, inv.token, attempt, ExpiryReason(i), LeaseExpiredAfterArm, now);
    var mid := K.RecordBlock(K.Park(t, inv.key, inv.token, ExpiryReason(i)), inv.key, attempt, inv.token, ExpiryReason(i)).value;
    DistinctKeeps(t, mid);
    EndAttemptsIsSingle(mid, i, OutcomeUnknown, LeaseExpiredAfterArm, now);
  }

  /** Parking an expired armed attempt succeeds exactly when its session is not stranded. */
  lemma ParkExactly(t: Tables, i: Id, now: Time)
    requires Inv(t) && i in t.invocations && t.invocations[i].state.Armed?
    requires K.HoldsExpired(t, t.invocations[i].key, t.invocations[i].token, now)
    ensures ParkExpired(t, i, now).Ok? <==> !Stranded(t, i)
    ensures !Stranded(t, i) ==>
              ParkExpired(t, i, now).value
              == Ended(t, i, now).(turns := Marked(t, i).value.turns, bindings := Marked(t, i).value.bindings)
  {
    EndedKeeps(t, i, now);
    ParkUnfolds(t, i, now);
    MarkedExactly(t, i);
    MarkFrame(t, Ended(t, i, now), i, ExpiryReason(i));
  }

  /** Once its evidence can be recorded, parking is the session mark on the ended attempt. */
  lemma ParkUnfolds(t: Tables, i: Id, now: Time)
    requires i in t.invocations && t.invocations[i].state.Armed?
    requires K.HoldsExpired(t, t.invocations[i].key, t.invocations[i].token, now)
    requires K.RecordBlock(K.Park(t, t.invocations[i].key, t.invocations[i].token, ExpiryReason(i)), t.invocations[i].key,
                           t.deliveries[t.invocations[i].key].attempt, t.invocations[i].token, ExpiryReason(i)).Ok?
    ensures ParkExpired(t, i, now) == S.MarkExpiredTurnUncertain(Ended(t, i, now), i, ExpiryReason(i))
  {
  }

  /** What parking `i` wrote: its attempt and delivery, and at most its own turn and binding. */
  ghost predicate ParkedOne(t: Tables, u: Tables, i: Id) {
    && i in t.invocations && t.invocations[i].key in t.deliveries
    && u.messages == t.messages && u.nextId == t.nextId && u.nextSeq == t.nextSeq
    && u.agents == t.agents && u.channels == t.channels && u.generations == t.generations
    && i in u.invocations && u.invocations == t.invocations[i := u.invocations[i]]
    && u.invocations[i].Ended(OutcomeUnknown)
    && u.invocations[i] == t.invocations[i].(state := u.invocations[i].state)
    && t.invocations[i].key in u.deliveries
    && u.deliveries == t.deliveries[t.invocations[i].key := u.deliveries[t.invocations[i].key]]
    && u.turns.Keys == t.turns.Keys
    && (forall j | j in t.turns :: u.turns[j].binding == t.turns[j].binding)
    && u.bindings.Keys == t.bindings.Keys
    && (forall k | k in t.bindings :: u.bindings[k].state.Retired? <==> t.bindings[k].state.Retired?)
  }

  lemma ParkSummary(t: Tables, i: Id, now: Time)
    requires Inv(t) && i in t.invocations && t.invocations[i].state.Armed?
    requires K.HoldsExpired(t, t.invocations[i].key, t.invocations[i].token, now)
    ensures ParkExpired(t, i, now).Ok? <==> !Stranded(t, i)
    ensures ParkExpired(t, i, now).Ok? ==>
              Inv(ParkExpired(t, i, now).value) && ParkedOne(t, ParkExpired(t, i, now).value, i)
  {
    ParkExactly(t, i, now);
    if !Stranded(t, i) {
      EndedKeeps(t, i, now);
      MarkedExactly(t, i);
      ParkComposes(t, Marked(t, i).value, Ended(t, i, now), ParkExpired(t, i, now).value, i, now);
    }
  }

  /** The session mark `m` and the ended attempt `e`, put together. */
  lemma ParkComposes(t: Tables, m: Tables, e: Tables, u: Tables, i: Id, now: Time)
    requires i in t.invocations && t.invocations[i].key in t.deliveries && t.invocations[i].state.Armed?
    requires e == Ended(t, i, now) && DeliveryInv(e)
    requires SessionInv(m) && SessionMarked(t, m, i)
    requires u == e.(turns := m.turns, bindings := m.bindings)
    ensures Inv(u) && ParkedOne(t, u, i)
  {
    DeliveryPart(e, u);
    forall j | j in m.invocations
      ensures QuietMove(m, u, j)
    {
    }
    QuietKeeps(m, u);
  }

  /** The delivery half of the invariant does not look at sessions. */
  lemma DeliveryPart(t: Tables, u: Tables)
    requires DeliveryInv(t)
    requires u == t.(agents := u.agents, channels := u.channels, generations := u.generations,
                     turns := u.turns, bindings := u.bindings, observed := u.observed, nextId := u.nextId)
    requires t.nextId <= u.nextId
    ensures DeliveryInv(u)
  {
    forall k | k in u.deliveries
      ensures DeliveryRow(u, k)
    {
      assert DeliveryRow(t, k);
      if t.deliveries[k].state.Blocked? {
        var b :| Unresolved(t, b, k);
        assert Unresolved(u, b, k);
      }
    }
    forall i | i in u.invocations
      ensures AttemptRow(u, i)
    {
      assert AttemptRow(t, i);
      AttemptRowFrame(t, u, i);
    }
    DistinctKeeps(t, u);
    BlockPairsKeep(t, u);
    forall b | b in u.blocks
      ensures BlockRow(u, b)
    {
      assert BlockRow(t, b);
    }
  }

  // ---- all of them ----------------------------------------------------------------------------------

  /** Parking `i` spares every other open attempt: its row, its lease, and whether it is stranded. */
  lemma ParkSpares(t: Tables, u: Tables, i: Id, j: Id)
    requires DeliveryInv(t) && ParkedOne(t, u, i) && !t.invocations[i].state.Terminal?
    requires j in t.invocations && j != i && !t.invocations[j].state.Terminal?
    ensures j in u.invocations && u.invocations[j] == t.invocations[j]
    ensures t.invocations[j].key in t.deliveries && t.invocations[j].key in u.deliveries
    ensures u.deliveries[t.invocations[j].key] == t.deliveries[t.invocations[j].key]
    ensures Stranded(u, j) <==> Stranded(t, j)
  {
    assert AttemptRow(t, i) && AttemptRow(t, j) && AttemptPair(t, i, j);
  }

  /** Every id names an armed attempt holding an expired lease. */
  ghost predicate ToPark(t: Tables, ids: seq<Id>, now: Time) {
    && (forall x, y | 0 <= x < y < |ids| :: ids[x] != ids[y])
    && (forall i | i in ids ::
          && i in t.invocations && t.invocations[i].state.Armed?
          && K.HoldsExpired(t, t.invocations[i].key, t.invocations[i].token, now))
  }

  /** What a batch of parking leaves behind. */
  ghost predicate BatchParked(t: Tables, u: Tables, ids: seq<Id>) {
    && u.messages == t.messages && u.nextId == t.nextId && u.nextSeq == t.nextSeq
    && u.invocations.Keys == t.invocations.Keys
    && (forall i | i in t.invocations && i !in ids :: u.invocations[i] == t.invocations[i])
    && (forall i | i in ids && i in t.invocations ::
          u.invocations[i].Ended(OutcomeUnknown) && u.invocations[i] == t.invocations[i].(state := u.invocations[i].state))
    && u.agents == t.agents && u.channels == t.channels && u.generations == t.generations
  }

  ghost predicate NoneStranded(t: Tables, ids: seq<Id>) {
    forall i | i in ids :: !Stranded(t, i)
  }

  lemma {:induction false} ParkAllKeeps(t: Tables, ids: seq<Id>, now: Time)
    requires Inv(t) && ToPark(t, ids, now)
    ensures ParkAll(t, ids, now).Ok? <==> NoneStranded(t, ids)
    ensures ParkAll(t, ids, now).Ok? ==> Inv(ParkAll(t, ids, now).value) && BatchParked(t, ParkAll(t, ids, now).value, ids)
    decreases |ids|
  {
    if ids != [] {
      var i, rest := ids[0], ids[1..];
      assert ids == [i] + rest;
      ParkHead(t, i, rest, now);
      var parked := ParkExpired(t, i, now);
      if parked.Ok? {
        ParkAllKeeps(parked.value, rest, now);
        if ParkAll(parked.value, rest, now).Ok? {
          BatchExtends(t, parked.value, ParkAll(parked.value, rest, now).value, i, rest);
        }
      }
    }
  }

  lemma ParkHead(t: Tables, i: Id, rest: seq<Id>, now: Time)
    requires Inv(t) && ToPark(t, [i] + rest, now)
    ensures i !in rest
    ensures ParkExpired(t, i, now).Err? ==> !NoneStranded(t, [i] + rest)
    ensures ParkExpired(t, i, now).Ok? ==>
              && Inv(ParkExpired(t, i, now).value) && ParkedOne(t, ParkExpired(t, i, now).value, i)
              && ToPark(ParkExpired(t, i, now).value, rest, now)
              && (NoneStranded(ParkExpired(t, i, now).value, rest) <==> NoneStranded(t, [i] + rest))
  {
    var ids := [i] + rest;
    assert i in ids;
    ParkSummary(t, i, now);
    assert forall x | 0 <= x < |rest| :: rest[x] == ids[x + 1] && ids[0] != ids[x + 1];
    var parked := ParkExpired(t, i, now);
    if parked.Ok? {
      RestToPark(t, parked.value, i, rest, now);
      StrandedSplit(t, parked.value, i, rest);
    }
  }

  lemma StrandedSplit(t: Tables, u: Tables, i: Id, rest: seq<Id>)
    requires !Stranded(t, i)
    requires forall j | j in rest :: Stranded(u, j) <==> Stranded(t, j)
    ensures NoneStranded(u, rest) <==> NoneStranded(t, [i] + rest)
  {
    assert forall j :: j in [i] + rest <==> j == i || j in rest;
  }

  lemma RestToPark(t: Tables, u: Tables, i: Id, rest: seq<Id>, now: Time)
    requires DeliveryInv(t) && ToPark(t, [i] + rest, now) && ParkedOne(t, u, i)
    ensures ToPark(u, rest, now)
    ensures forall j | j in rest :: Stranded(u, j) <==> Stranded(t, j)
  {
    var ids := [i] + rest;
    assert i in ids;
    forall x, y | 0 <= x < y < |rest|
      ensures rest[x] != rest[y]
    {
      assert ids[x + 1] == rest[x] && ids[y + 1] == rest[y];
    }
    forall j | j in rest
      ensures j in u.invocations && u.invocations[j].state.Armed?
      ensures K.HoldsExpired(u, u.invocations[j].key, u.invocations[j].token, now)
      ensures Stranded(u, j) <==> Stranded(t, j)
    {
      var x :| 0 <= x < |rest| && rest[x] == j;
      assert ids[0] == i && ids[x + 1] == j && j in ids;
      ParkSpares(t, u, i, j);
    }
  }

  lemma BatchExtends(t: Tables, u: Tables, v: Tables, i: Id, rest: seq<Id>)
    requires ParkedOne(t, u, i) && BatchParked(u, v, rest) && i !in rest
    ensures BatchParked(t, v, [i] + rest)
  {
  }

  // ---- recovery of one agent --------------------------------------------------------------------------

  /** An armed attempt of this agent that is expired at `now` and stranded. */
  predicate StrandedExpired(t: Tables, i: Id, agent: Id, now: Time) {
    ExpiredAttempt(t, i, agent, now) && t.invocations[i].state.Armed? && Stranded(t, i)
  }

  /** The lease holder of an open attempt is expired with the attempt itself. */
  lemma ExpiredTogether(t: Tables, i: Id, agent: Id, now: Time)
    requires DeliveryInv(t) && i in t.invocations && t.invocations[i].key.agent == agent
    ensures ExpiredAttempt(t, i, agent, now) <==> !t.invocations[i].state.Terminal? && t.invocations[i].expiry <= now
  {
    assert AttemptRow(t, i);
  }

  lemma ArmedAreReady(t: Tables, agent: Id, now: Time)
    requires Inv(t)
    ensures ToPark(TerminalizeExpiredReservations(t, agent, now),
                   ArmedToPark(TerminalizeExpiredReservations(t, agent, now), agent, now), now)
    ensures ExpiredArmed(TerminalizeExpiredReservations(t, agent, now), agent, now) == ExpiredArmed(t, agent, now)
    ensures forall i :: i in ArmedToPark(TerminalizeExpiredReservations(t, agent, now), agent, now)
                        <==> i in ExpiredArmed(t, agent, now)
    ensures |ArmedToPark(TerminalizeExpiredReservations(t, agent, now), agent, now)| == |ExpiredArmed(t, agent, now)|
  {
    var mid := TerminalizeExpiredReservations(t, agent, now);
    ListedAreRows(ArmedToPark(mid, agent, now), ExpiredArmed(mid, agent, now), ReservationOrder(mid));
  }

  lemma ListedAreRows(r: seq<Id>, ids: set<Id>, key: map<Id, int>)
    requires Listing(r, ids, key)
    ensures |r| == |ids|
    ensures forall i :: i in r <==> i in ids
    ensures forall x, y | 0 <= x < y < |r| :: r[x] != r[y]
  {
    ListingLength(r, ids, key);
    forall i
      ensures i in r <==> i in ids
    {
      assert Listed(r, i) <==> i in ids;
    }
    forall x, y | 0 <= x < y < |r|
      ensures r[x] != r[y]
    {
      assert InOrder(r, key, x, y);
    }
  }

  /**
   Recovery at `now` succeeds exactly when the agent has no expired attempt that
   an early retirement stranded; it keeps the invariant, and afterwards the agent
   has no open attempt whose lease expired by `now`.
   */
  lemma RecoveryExactly(t: Tables, agent: Id, now: Time)
    requires Inv(t)
    ensures Recover(t, agent, now).Ok? <==> forall i :: !StrandedExpired(t, i, agent, now)
    ensures Recover(t, agent, now).Ok? ==> Inv(Recover(t, agent, now).value.0)
    ensures Recover(t, agent, now).Ok? ==> Recovered(t, Recover(t, agent, now).value.0, agent, now)
    ensures Recover(t, agent, now).Ok? ==>
              Recover(t, agent, now).value.1
              == |set i | i in t.invocations && ExpiredAttempt(t, i, agent, now)|
  {
    var mid := TerminalizeExpiredReservations(t, agent, now);
    var ids := ArmedToPark(mid, agent, now);
    ReservationsKeep(t, agent, now);
    ArmedAreReady(t, agent, now);
    ParkAllKeeps(mid, ids, now);
    forall i
      ensures StrandedExpired(t, i, agent, now) <==> i in ids && Stranded(mid, i)
    {
    }
    if Recover(t, agent, now).Ok? {
      RecoveredAfter(t, mid, ParkAll(mid, ids, now).value, ids, agent, now);
      CountBoth(t, agent, now);
    }
  }

  /** The expired attempts of the agent ended, each as its state demands; all others stand. */
  ghost predicate Recovered(t: Tables, u: Tables, agent: Id, now: Time) {
    && u.messages == t.messages && u.nextId == t.nextId && u.nextSeq == t.nextSeq
    && u.agents == t.agents && u.channels == t.channels && u.generations == t.generations
    && u.invocations.Keys == t.invocations.Keys
    && (forall i | i in t.invocations ::
          && u.invocations[i] == t.invocations[i].(state := u.invocations[i].state)
          && (if ExpiredAttempt(t, i, agent, now)
              then u.invocations[i].Ended(if t.invocations[i].state.Armed? then OutcomeUnknown else NotStarted)
              else u.invocations[i] == t.invocations[i]))
  }

  lemma RecoveredAfter(t: Tables, mid: Tables, u: Tables, ids: seq<Id>, agent: Id, now: Time)
    requires Inv(t) && mid == TerminalizeExpiredReservations(t, agent, now)
    requires forall i :: i in ids <==> i in ExpiredArmed(t, agent, now)
    requires BatchParked(mid, u, ids)
    ensures Recovered(t, u, agent, now)
  {
    forall i | i in t.invocations
      ensures u.invocations[i] == t.invocations[i].(state := u.invocations[i].state)
      ensures if ExpiredAttempt(t, i, agent, now)
              then u.invocations[i].Ended(if t.invocations[i].state.Armed? then OutcomeUnknown else NotStarted)
              else u.invocations[i] == t.invocations[i]
    {
      assert i in mid.invocations;
    }
  }

  lemma CountBoth(t: Tables, agent: Id, now: Time)
    ensures |ExpiredReservations(t, agent, now)| + |ExpiredArmed(t, agent, now)|
            == |set i | i in t.invocations && ExpiredAttempt(t, i, agent, now)|
  {
    var r, a := ExpiredReservations(t, agent, now), ExpiredArmed(t, agent, now);
    var all := set i | i in t.invocations && ExpiredAttempt(t, i, agent, now);
    assert r + a == all && r !! a;
  }

  /** After a recovery at `now` no attempt of the agent is open with a lease expired by `now`. */
  lemma NothingExpiredRemains(t: Tables, agent: Id, now: Time)
    requires Inv(t) && Recover(t, agent, now).Ok?
    ensures forall i | i in Recover(t, agent, now).value.0.invocations
              && Recover(t, agent, now).value.0.invocations[i].key.agent == agent
              && !Recover(t, agent, now).value.0.invocations[i].state.Terminal? ::
              Recover(t, agent, now).value.0.invocations[i].expiry > now
  {
    RecoveryExactly(t, agent, now);
    var u := Recover(t, agent, now).value.0;
    forall i | i in u.invocations && u.invocations[i].key.agent == agent && !u.invocations[i].state.Terminal?
      ensures u.invocations[i].expiry > now
    {
      ExpiredTogether(t, i, agent, now);
    }
  }

  /** Recovering twice at one clock reading changes nothing and reports nothing. */
  lemma RecoveryIdempotent(t: Tables, agent: Id, now: Time)
    requires Inv(t) && Recover(t, agent, now).Ok?
    ensures Recover(Recover(t, agent, now).value.0, agent, now) == Ok((Recover(t, agent, now).value.0, 0))
  {
    NothingExpiredRemains(t, agent, now);
    NothingToRecover(Recover(t, agent, now).value.0, agent, now);
  }

  lemma NothingToRecover(u: Tables, agent: Id, now: Time)
    requires forall i | i in u.invocations && u.invocations[i].key.agent == agent && !u.invocations[i].state.Terminal? ::
               u.invocations[i].expiry > now
    ensures Recover(u, agent, now) == Ok((u, 0))
  {
    assert ExpiredReservations(u, agent, now) == {};
    var mid := TerminalizeExpiredReservations(u, agent, now);
    assert mid.invocations == u.invocations;
    assert mid == u;
    assert ExpiredArmed(u, agent, now) == {};
    ListedAreRows(ArmedToPark(u, agent, now), {}, ReservationOrder(u));
  }
}
