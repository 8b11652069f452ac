/**
 What recovery and claiming write, told from the rows before the call: an overdue
 armed attempt parks its delivery with evidence and fences its session, an overdue
 reservation ends as not started, and a claim leases the oldest due rows.
 */
module RecoveryAnswers {
  import opened Wrappers
  import opened Tables
  import opened Ordering
  import opened DeliveryInvariant
  import opened SessionInvariant
  import opened Recovery
  import A = DeliveryAnswers
  import I = Invocations
  import K = Kernel
  import L = Leasing
  import D = Settlements
  import T = Totality

  // ---- overdue attempts -----------------------------------------------------------------------------

  /** The attempt is of this inbox, not over, and its lease has expired. */
  predicate Overdue(t: Tables, i: Id, agent: Id, now: Time) {
    && i in t.invocations && t.invocations[i].key.agent == agent && t.invocations[i].expiry <= now
    && (t.invocations[i].state.Reserved? || t.invocations[i].state.Armed?)
  }

  lemma OverdueExactly(t: Tables, i: Id, agent: Id, now: Time)
    requires Inv(t)
    ensures I.ExpiredAttempt(t, i, agent, now) <==> Overdue(t, i, agent, now)
  {
    if i in t.invocations && t.invocations[i].key.agent == agent {
      ExpiredTogether(t, i, agent, now);
    }
  }

  /** A record of attempt `i`, written since `t`. */
  predicate NewRecord(t: Tables, u: Tables, i: Id, b: nat) {
    && i in t.invocations && t.invocations[i].key in t.deliveries
    && b !in t.blocks && b in u.blocks
    && u.blocks[b] == Block(t.invocations[i].key, t.deliveries[t.invocations[i].key].attempt, t.invocations[i].token,
                            I.ExpiryReason(i), None)
  }

  /** Attempt `i` was parked: delivery, evidence, verdict and session mark, all for one reason. */
  ghost predicate ParkedRows(t: Tables, u: Tables, i: Id, now: Time) {
    && i in t.invocations && t.invocations[i].state.Armed? && i in u.invocations
    && t.invocations[i].key in t.deliveries && t.invocations[i].key in u.deliveries
    && var inv := t.invocations[i];
       && u.invocations[i] == inv.(state := Terminal(Some(inv.state.armedAt), now, OutcomeUnknown, LeaseExpiredAfterArm))
       && u.deliveries[inv.key] == t.deliveries[inv.key].(state := DeliveryState.Blocked, lastError := Some(I.ExpiryReason(i)),
                                                           lastSettled := Some((inv.token, SettledBlocked)))
       && (exists b :: NewRecord(t, u, i, b))
       && (i in t.turns ==>
             && i in u.turns
             && u.turns[i] == if t.turns[i].state.TurnActive? then t.turns[i].(state := TurnUncertain(I.ExpiryReason(i)))
                              else t.turns[i])
  }

  /** Delivery `k` belongs to one of these attempts. */
  ghost predicate DeliveredTo(t: Tables, ids: seq<Id>, k: DeliveryKey) {
    exists i :: i in ids && i in t.invocations && t.invocations[i].key == k
  }

  /** Every listed attempt was parked, and no other delivery, record, attempt or turn changed. */
  ghost predicate AllParked(t: Tables, u: Tables, ids: seq<Id>, now: Time) {
    OthersStand(t, u, ids) && EachParked(t, u, ids, now) && RecordsAre(t, u, ids)
  }

  ghost predicate EachParked(t: Tables, u: Tables, ids: seq<Id>, now: Time) {
    forall i {:trigger ParkedRows(t, u, i, now)} | i in ids :: ParkedRows(t, u, i, now)
  }

  /** Nothing but the listed attempts, their deliveries and their turns moved, and no row came or went. */
  ghost predicate OthersStand(t: Tables, u: Tables, ids: seq<Id>) {
    && u == t.(deliveries := u.deliveries, blocks := u.blocks, nextBlock := u.nextBlock, invocations := u.invocations,
               turns := u.turns, bindings := u.bindings)
    && u.invocations.Keys == t.invocations.Keys && u.deliveries.Keys == t.deliveries.Keys && u.turns.Keys == t.turns.Keys
    && (forall i | i in t.invocations && i !in ids :: u.invocations[i] == t.invocations[i])
    && (forall i | i in t.turns && i !in ids :: u.turns[i] == t.turns[i])
    && (forall k | k in t.deliveries && !DeliveredTo(t, ids, k) :: u.deliveries[k] == t.deliveries[k])
  }

  /** Records stay, and a new one is about a listed attempt. */
  ghost predicate RecordsAre(t: Tables, u: Tables, ids: seq<Id>) {
    && (forall b | b in t.blocks :: b in u.blocks && u.blocks[b] == t.blocks[b])
    && (forall b {:trigger RecordedFor(t, u, ids, b)} | b in u.blocks && b !in t.blocks :: RecordedFor(t, u, ids, b))
  }

  /** Record `b` is about one of these attempts. */
  ghost predicate RecordedFor(t: Tables, u: Tables, ids: seq<Id>, b: nat) {
    exists i :: i in ids && NewRecord(t, u, i, b)
  }

  /** The mark moves the attempt's own turn, if it is active, and its session. */
  lemma MarkWrites(t: Tables, i: Id)
    requires Marked(t, i).Ok?
    requires i in t.turns ==> !t.turns[i].state.TurnQuiescent? && t.turns[i].binding in t.bindings
    ensures Marked(t, i).value.turns
            == if i in t.turns && t.turns[i].state.TurnActive?
               then t.turns[i := t.turns[i].(state := TurnUncertain(I.ExpiryReason(i)))] else t.turns
  {
  }

  lemma ParkWrites(t: Tables, i: Id, now: Time)
    requires Inv(t) && i in t.invocations && t.invocations[i].state.Armed?
    requires K.HoldsExpired(t, t.invocations[i].key, t.invocations[i].token, now)
    requires I.ParkExpired(t, i, now).Ok?
    ensures AllParked(t, I.ParkExpired(t, i, now).value, [i], now)
  {
    ParkExactly(t, i, now);
    MarkedExactly(t, i);
    assert t.nextBlock in t.blocks ==> BlockRow(t, t.nextBlock);
    assert i in t.turns ==> TurnRow(t, i);
    MarkWrites(t, i);
    EndedWrites(t, I.ParkExpired(t, i, now).value, i, now);
  }

  lemma EndedWrites(t: Tables, u: Tables, i: Id, now: Time)
    requires i in t.invocations && t.invocations[i].state.Armed? && t.invocations[i].key in t.deliveries
    requires t.nextBlock !in t.blocks
    requires u == Ended(t, i, now).(turns := u.turns, bindings := u.bindings)
    requires u.turns == if i in t.turns && t.turns[i].state.TurnActive?
                        then t.turns[i := t.turns[i].(state := TurnUncertain(I.ExpiryReason(i)))] else t.turns
    ensures AllParked(t, u, [i], now)
  {
    assert NewRecord(t, u, i, t.nextBlock);
    assert DeliveredTo(t, [i], t.invocations[i].key);
  }

  lemma {:induction false} ParkAllWrites(t: Tables, ids: seq<Id>, now: Time)
    requires Inv(t) && ToPark(t, ids, now) && I.ParkAll(t, ids, now).Ok?
    ensures AllParked(t, I.ParkAll(t, ids, now).value, ids, now)
    decreases |ids|
  {
    if ids != [] {
      var i, rest := ids[0], ids[1..];
      assert ids == [i] + rest;
      ParkHead(t, i, rest, now);
      var u := I.ParkExpired(t, i, now).value;
      ParkWrites(t, i, now);
      ParkAllWrites(u, rest, now);
      forall j | j in rest
        ensures Apart(t, i, j)
      {
        assert j in ids && AttemptRow(t, i) && AttemptRow(t, j) && AttemptPair(t, i, j);
      }
      ParkedJoin(t, u, I.ParkAll(u, rest, now).value, i, rest, now);
    }
  }

  /** Attempt `j` is armed and of another delivery than `i`. */
  predicate Apart(t: Tables, i: Id, j: Id) {
    && i in t.invocations && j in t.invocations && t.invocations[j].state.Armed?
    && t.invocations[j].key != t.invocations[i].key && t.invocations[j].key in t.deliveries
  }

  /** Parking one attempt and then others of other deliveries parks them all. */
  lemma ParkedJoin(t: Tables, u: Tables, v: Tables, i: Id, rest: seq<Id>, now: Time)
    requires AllParked(t, u, [i], now) && AllParked(u, v, rest, now) && i !in rest && i in t.invocations
    requires forall j | j in rest :: Apart(t, i, j)
    ensures AllParked(t, v, [i] + rest, now)
  {
    var ids := [i] + rest;
    OthersJoin(t, u, v, i, rest);
    forall j | j in ids
      ensures ParkedRows(t, v, j, now)
    {
      if j == i {
        HeadStaysParked(t, u, v, i, rest, now);
      } else {
        RestIsParked(t, u, v, i, j, rest, now);
      }
    }
    RecordsJoin(t, u, v, i, rest);
  }

  lemma OthersJoin(t: Tables, u: Tables, v: Tables, i: Id, rest: seq<Id>)
    requires OthersStand(t, u, [i]) && OthersStand(u, v, rest) && i !in rest
    requires forall j | j in rest :: Apart(t, i, j)
    ensures OthersStand(t, v, [i] + rest)
  {
    var ids := [i] + rest;
    assert forall j :: j in ids <==> j == i || j in rest;
    forall k | !DeliveredTo(t, ids, k)
      ensures !DeliveredTo(t, [i], k) && !DeliveredTo(u, rest, k)
    {
    }
  }

  lemma RecordsJoin(t: Tables, u: Tables, v: Tables, i: Id, rest: seq<Id>)
    requires OthersStand(t, u, [i]) && RecordsAre(t, u, [i]) && RecordsAre(u, v, rest) && i !in rest
    requires forall j | j in rest :: Apart(t, i, j)
    ensures RecordsAre(t, v, [i] + rest)
  {
    var ids := [i] + rest;
    forall b | b in v.blocks && b !in t.blocks
      ensures RecordedFor(t, v, ids, b)
    {
      if b in u.blocks {
        assert RecordedFor(t, u, [i], b);
        assert NewRecord(t, v, i, b) && i in ids;
      } else {
        assert RecordedFor(u, v, rest, b);
        var j :| j in rest && NewRecord(u, v, j, b);
        SameRecord(t, u, v, i, j, b);
        assert j in ids;
      }
    }
  }

  lemma SameRecord(t: Tables, u: Tables, v: Tables, i: Id, j: Id, b: nat)
    requires OthersStand(t, u, [i]) && Apart(t, i, j) && NewRecord(u, v, j, b) && t.blocks.Keys <= u.blocks.Keys
    ensures NewRecord(t, v, j, b)
  {
    assert j !in [i] && !DeliveredTo(t, [i], t.invocations[j].key);
  }

  lemma HeadStaysParked(t: Tables, u: Tables, v: Tables, i: Id, rest: seq<Id>, now: Time)
    requires AllParked(t, u, [i], now) && OthersStand(u, v, rest) && RecordsAre(u, v, rest) && i !in rest && i in t.invocations
    requires forall j | j in rest :: Apart(t, i, j)
    ensures ParkedRows(t, v, i, now)
  {
    assert i in [i] && ParkedRows(t, u, i, now);
    assert !DeliveredTo(u, rest, t.invocations[i].key) by {
      assert forall j | j in rest :: Apart(t, i, j) && u.invocations[j] == t.invocations[j];
    }
    var b :| NewRecord(t, u, i, b);
    assert NewRecord(t, v, i, b);
  }

  lemma RestIsParked(t: Tables, u: Tables, v: Tables, i: Id, j: Id, rest: seq<Id>, now: Time)
    requires OthersStand(t, u, [i]) && RecordsAre(t, u, [i]) && AllParked(u, v, rest, now) && j in rest && Apart(t, i, j)
    requires i !in rest
    ensures ParkedRows(t, v, j, now)
  {
    assert j !in [i] && !DeliveredTo(t, [i], t.invocations[j].key);
    assert ParkedRows(u, v, j, now);
    var b :| NewRecord(u, v, j, b);
    SameRecord(t, u, v, i, j, b);
  }

  // ---- one recovery ------------------------------------------------------------------------------------

  /** Some overdue armed attempt of the inbox holds this delivery. */
  ghost predicate HeldOverdue(t: Tables, k: DeliveryKey, agent: Id, now: Time) {
    exists i :: Overdue(t, i, agent, now) && t.invocations[i].state.Armed? && t.invocations[i].key == k
  }

  /** What recovery writes: every overdue attempt is settled as its state demands, and nothing else changes. */
  ghost predicate RecoveredRows(t: Tables, u: Tables, agent: Id, now: Time) {
    OverdueSettled(t, u, agent, now) && RestStands(t, u, agent, now) && OverdueRecorded(t, u, agent, now)
  }

  /** An overdue armed attempt is parked, an overdue reservation ended as not started. */
  ghost predicate OverdueSettled(t: Tables, u: Tables, agent: Id, now: Time) {
    && u.invocations.Keys == t.invocations.Keys
    && (forall i {:trigger ParkedRows(t, u, i, now)} | Overdue(t, i, agent, now) && t.invocations[i].state.Armed? ::
          ParkedRows(t, u, i, now))
    && (forall i | Overdue(t, i, agent, now) && t.invocations[i].state.Reserved? ::
          u.invocations[i] == t.invocations[i].(state := Terminal(None, now, NotStarted, ReservationExpired)))
    && (forall i | i in t.invocations && !Overdue(t, i, agent, now) :: u.invocations[i] == t.invocations[i])
  }

  ghost predicate RestStands(t: Tables, u: Tables, agent: Id, now: Time) {
    && u == t.(deliveries := u.deliveries, blocks := u.blocks, nextBlock := u.nextBlock, invocations := u.invocations,
               turns := u.turns, bindings := u.bindings)
    && u.deliveries.Keys == t.deliveries.Keys && u.turns.Keys == t.turns.Keys
    && (forall i | i in t.turns && !Overdue(t, i, agent, now) :: u.turns[i] == t.turns[i])
    && (forall k | k in t.deliveries && !HeldOverdue(t, k, agent, now) :: u.deliveries[k] == t.deliveries[k])
  }

  ghost predicate OverdueRecorded(t: Tables, u: Tables, agent: Id, now: Time) {
    && (forall b | b in t.blocks :: b in u.blocks && u.blocks[b] == t.blocks[b])
    && (forall b {:trigger RecordedOverdue(t, u, b, agent, now)} | b in u.blocks && b !in t.blocks ::
          RecordedOverdue(t, u, b, agent, now))
  }

  /** Record `b` is about an overdue attempt of the inbox. */
  ghost predicate RecordedOverdue(t: Tables, u: Tables, b: nat, agent: Id, now: Time) {
    exists i :: Overdue(t, i, agent, now) && NewRecord(t, u, i, b)
  }

  /** Recovery writes exactly that. */
  lemma RecoveryWrites(t: Tables, agent: Id, now: Time)
    requires Inv(t) && I.Recover(t, agent, now).Ok?
    ensures RecoveredRows(t, I.Recover(t, agent, now).value.0, agent, now)
  {
    var mid := I.TerminalizeExpiredReservations(t, agent, now);
    var ids := I.ArmedToPark(mid, agent, now);
    ReservationsKeep(t, agent, now);
    ArmedAreReady(t, agent, now);
    ParkAllWrites(mid, ids, now);
    forall i
      ensures I.ExpiredAttempt(t, i, agent, now) <==> Overdue(t, i, agent, now)
    {
      OverdueExactly(t, i, agent, now);
    }
    BothWrite(t, mid, I.ParkAll(mid, ids, now).value, ids, agent, now);
  }

  /** The overdue reservations ended, and nothing else changed. */
  ghost predicate ReservationsEnded(t: Tables, mid: Tables, agent: Id, now: Time) {
    && mid == t.(invocations := mid.invocations) && mid.invocations.Keys == t.invocations.Keys
    && forall i | i in t.invocations ::
         mid.invocations[i] == if Overdue(t, i, agent, now) && t.invocations[i].state.Reserved?
                               then t.invocations[i].(state := Terminal(None, now, NotStarted, ReservationExpired))
                               else t.invocations[i]
  }

  ghost predicate ListsArmed(t: Tables, ids: seq<Id>, agent: Id, now: Time) {
    forall i :: i in ids <==> Overdue(t, i, agent, now) && t.invocations[i].state.Armed?
  }

  lemma BothWrite(t: Tables, mid: Tables, u: Tables, ids: seq<Id>, agent: Id, now: Time)
    requires ReservationsEnded(t, mid, agent, now) && ListsArmed(t, ids, agent, now) && AllParked(mid, u, ids, now)
    ensures RecoveredRows(t, u, agent, now)
  {
    BothSettle(t, mid, u, ids, agent, now);
    BothSpare(t, mid, u, ids, agent, now);
    BothRecord(t, mid, u, ids, agent, now);
  }

  lemma BothSettle(t: Tables, mid: Tables, u: Tables, ids: seq<Id>, agent: Id, now: Time)
    requires ReservationsEnded(t, mid, agent, now) && ListsArmed(t, ids, agent, now)
    requires OthersStand(mid, u, ids) && EachParked(mid, u, ids, now)
    ensures OverdueSettled(t, u, agent, now)
  {
    forall i | Overdue(t, i, agent, now) && t.invocations[i].state.Armed?
      ensures ParkedRows(t, u, i, now)
    {
      assert i in ids && ParkedRows(mid, u, i, now);
      SameRows(t, mid, u, i, now);
    }
  }

  lemma BothSpare(t: Tables, mid: Tables, u: Tables, ids: seq<Id>, agent: Id, now: Time)
    requires ReservationsEnded(t, mid, agent, now) && ListsArmed(t, ids, agent, now) && OthersStand(mid, u, ids)
    ensures RestStands(t, u, agent, now)
  {
    forall k | !HeldOverdue(t, k, agent, now)
      ensures !DeliveredTo(mid, ids, k)
    {
    }
  }

  lemma BothRecord(t: Tables, mid: Tables, u: Tables, ids: seq<Id>, agent: Id, now: Time)
    requires ReservationsEnded(t, mid, agent, now) && ListsArmed(t, ids, agent, now) && RecordsAre(mid, u, ids)
    ensures OverdueRecorded(t, u, agent, now)
  {
    forall b | b in u.blocks && b !in t.blocks
      ensures RecordedOverdue(t, u, b, agent, now)
    {
      assert RecordedFor(mid, u, ids, b);
      var i :| i in ids && NewRecord(mid, u, i, b);
      assert NewRecord(t, u, i, b);
    }
  }

  lemma SameRows(t: Tables, mid: Tables, u: Tables, i: Id, now: Time)
    requires mid == t.(invocations := mid.invocations) && i in t.invocations && i in mid.invocations
    requires mid.invocations[i] == t.invocations[i] && ParkedRows(mid, u, i, now)
    ensures ParkedRows(t, u, i, now)
  {
    var b :| NewRecord(mid, u, i, b);
    assert NewRecord(t, u, i, b);
  }

  /** An overdue armed attempt whose session was retired. */
  predicate Stuck(t: Tables, i: Id, agent: Id, now: Time) {
    && Overdue(t, i, agent, now) && t.invocations[i].state.Armed?
    && i in t.turns && t.turns[i].binding in t.bindings && t.bindings[t.turns[i].binding].state.Retired?
  }

  lemma StuckExactly(t: Tables, i: Id, agent: Id, now: Time)
    requires Inv(t)
    ensures StrandedExpired(t, i, agent, now) <==> Stuck(t, i, agent, now)
  {
    OverdueExactly(t, i, agent, now);
  }

  /** Recovery succeeds exactly when no overdue attempt is stuck; it writes what it should and counts what it settled. */
  lemma RecoverExactly(t: Tables, agent: Id, now: Time)
    requires Inv(t)
    ensures I.Recover(t, agent, now).Ok? <==> forall i :: !Stuck(t, i, agent, now)
    ensures I.Recover(t, agent, now).Ok? ==>
              && RecoveredRows(t, I.Recover(t, agent, now).value.0, agent, now)
              && I.Recover(t, agent, now).value.1 == |set i | i in t.invocations && Overdue(t, i, agent, now)|
  {
    RecoveryExactly(t, agent, now);
    forall i
      ensures StrandedExpired(t, i, agent, now) <==> Stuck(t, i, agent, now)
      ensures I.ExpiredAttempt(t, i, agent, now) <==> Overdue(t, i, agent, now)
    {
      StuckExactly(t, i, agent, now);
      OverdueExactly(t, i, agent, now);
    }
    if I.Recover(t, agent, now).Ok? {
      RecoveryWrites(t, agent, now);
      assert (set i | i in t.invocations && Overdue(t, i, agent, now))
          == set i | i in t.invocations && I.ExpiredAttempt(t, i, agent, now);
    }
  }

  // ---- leasing after recovery ------------------------------------------------------------------------------------

  /** As many due rows as the limit allows, and no row while an older due one is left out. */
  ghost predicate OldestDue(t: Tables, leased: set<DeliveryKey>, agent: Id, now: Time, limit: nat, kinds: Option<set<Text>>) {
    && |leased| <= limit
    && (forall k | k in leased :: A.Due(t, k, agent, now, kinds))
    && (forall k, l | k in leased && A.Due(t, l, agent, now, kinds) && l.message <= k.message :: l in leased)
    && (|leased| < limit ==> forall k | A.Due(t, k, agent, now, kinds) :: k in leased)
  }

  /** Exactly these rows were leased, each as its next attempt. */
  ghost predicate Leases(t: Tables, u: Tables, leased: set<DeliveryKey>, token: Id, expiry: Time) {
    && u == t.(deliveries := u.deliveries) && u.deliveries.Keys == t.deliveries.Keys
    && forall k | k in t.deliveries ::
         u.deliveries[k] == if k in leased
                            then t.deliveries[k].(state := Leased(token, expiry), attempt := t.deliveries[k].attempt + 1)
                            else t.deliveries[k]
  }

  /** The oldest due rows of the inbox were leased. */
  ghost predicate LeasesOldest(t: Tables, u: Tables, agent: Id, token: Id, expiry: Time, now: Time, limit: nat,
                               kinds: Option<set<Text>>)
  {
    exists leased :: OldestDue(t, leased, agent, now, limit, kinds) && Leases(t, u, leased, token, expiry)
  }

  lemma OldestAreDue(t: Tables, agent: Id, now: Time, limit: nat, kinds: Option<set<Text>>)
    ensures OldestDue(t, K.Oldest(K.ClaimableKeys(t, agent, now, kinds), limit), agent, now, limit, kinds)
  {
    var keys := K.ClaimableKeys(t, agent, now, kinds);
    var leased := K.Oldest(keys, limit);
    A.ClaimableExactly(t, agent, now, kinds);
    L.OldestIsPrefix(keys, limit);
    if |leased| < limit {
      assert keys == leased + (keys - leased);
      assert |keys - leased| == 0;
    }
  }

  lemma LeaseTakesOldestDue(t: Tables, agent: Id, token: Id, expiry: Time, now: Time, limit: nat, kinds: Option<set<Text>>)
    ensures LeasesOldest(t, K.LeaseClaimable(t, agent, token, expiry, now, limit, kinds), agent, token, expiry, now, limit, kinds)
  {
    var leased := K.Oldest(K.ClaimableKeys(t, agent, now, kinds), limit);
    OldestAreDue(t, agent, now, limit, kinds);
    LeaseWrites(t, leased, token, expiry);
  }

  lemma LeaseWrites(t: Tables, keys: set<DeliveryKey>, token: Id, expiry: Time)
    ensures Leases(t, K.LeaseRows(t, keys, token, expiry), keys, token, expiry)
  {
  }

  predicate ClaimInBounds(input: I.ClaimInput, now: Time) {
    1 <= input.limit <= 100 && 1 <= input.duration <= 3_600_000 && now + input.duration <= I64_MAX
  }

  /**
   A claim succeeds exactly for a known agent, within bounds, when no overdue attempt
   of the inbox is stuck; it recovers the inbox first, then leases the oldest due
   rows of the recovered tables under a token issued for it.
   */
  lemma ClaimLeases(t: Tables, agent: Id, input: I.ClaimInput, now: Time)
    requires Inv(t)
    ensures I.RecoverThenLease(t, agent, input, now).Ok? <==>
              ClaimInBounds(input, now) && agent in t.agents && forall i :: !Stuck(t, i, agent, now)
    ensures I.RecoverThenLease(t, agent, input, now).Ok? ==>
              ClaimedRows(t, I.RecoverThenLease(t, agent, input, now).value, agent, input, now)
  {
    ClaimSucceeds(t, agent, input, now);
    if I.RecoverThenLease(t, agent, input, now).Ok? {
      L.IssueKeeps(t);
      RecoveredThenLeased(t, agent, input, now);
    }
  }

  lemma ClaimSucceeds(t: Tables, agent: Id, input: I.ClaimInput, now: Time)
    requires Inv(t)
    ensures I.RecoverThenLease(t, agent, input, now).Ok? <==>
              ClaimInBounds(input, now) && agent in t.agents && forall i :: !Stuck(t, i, agent, now)
  {
    T.ClaimExactly(t, agent, input, now);
    forall i
      ensures StrandedExpired(t, i, agent, now) <==> Stuck(t, i, agent, now)
    {
      StuckExactly(t, i, agent, now);
    }
  }

  /** The tables once the claim's token was issued. */
  function Issued(t: Tables): Tables {
    t.(nextId := t.nextId + 1)
  }

  /** The inbox was recovered, and then its oldest due rows leased under the next token. */
  ghost predicate ClaimedRows(t: Tables, u: Tables, agent: Id, input: I.ClaimInput, now: Time) {
    exists r ::
      && RecoveredRows(Issued(t), r, agent, now)
      && LeasesOldest(r, u, agent, t.nextId, now + input.duration, now, input.limit, input.kinds)
  }

  lemma RecoveredThenLeased(t: Tables, agent: Id, input: I.ClaimInput, now: Time)
    requires Inv(Issued(t)) && I.RecoverThenLease(t, agent, input, now).Ok?
    ensures ClaimedRows(t, I.RecoverThenLease(t, agent, input, now).value, agent, input, now)
  {
    RecoveryWrites(Issued(t), agent, now);
    LeasedFrom(I.Recover(Issued(t), agent, now), agent, t.nextId, input, now);
  }

  lemma LeasedFrom(recovery: Result<(Tables, nat)>, agent: Id, token: Id, input: I.ClaimInput, now: Time)
    requires recovery.Ok?
    ensures I.LeaseRecovered(recovery, agent, token, input, now).Ok?
    ensures LeasesOldest(recovery.value.0, I.LeaseRecovered(recovery, agent, token, input, now).value, agent, token,
                         now + input.duration, now, input.limit, input.kinds)
  {
    LeaseTakesOldestDue(recovery.value.0, agent, token, now + input.duration, now, input.limit, input.kinds);
  }

  /** The two public claims: deliveries of every kind, or attempts for the named kinds. */
  lemma ClaimAndReserve(t: Tables, agent: Id, input: I.ClaimInput, now: Time)
    requires Inv(t)
    ensures D.ClaimDeliveries(t, agent, input, now).Ok? <==>
              ClaimInBounds(input, now) && agent in t.agents && forall i :: !Stuck(t, i, agent, now)
    ensures D.ClaimDeliveries(t, agent, input, now).Ok? ==>
              D.ClaimDeliveries(t, agent, input, now) == I.RecoverThenLease(t, agent, input.(kinds := None), now)
    ensures I.ReserveInvocations(t, agent, input, now).Ok? <==>
              && ClaimInBounds(input, now) && agent in t.agents && (forall i :: !Stuck(t, i, agent, now))
              && (input.kinds.Some? ==> input.kinds.value != {})
  {
    ClaimSucceeds(t, agent, input.(kinds := None), now);
    ClaimSucceeds(t, agent, input, now);
    L.ReserveKeeps(t, agent, input, now);
  }
}
