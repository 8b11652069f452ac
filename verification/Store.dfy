/**
 The store as an object whose tables are updated in place, one method per call.
 A method is one transaction: it writes statement by statement, and puts back the
 tables it started from when a statement reports an error. Each method is one
 step of the transition system, so what is proved of runs holds of every use of
 the object.
 */
module Stores {
  import opened Wrappers
  import opened Tables
  import opened Ordering
  import opened Recovery
  import opened Protocol
  import I = Invocations
  import K = Kernel
  import S = SessionTurns
  import B = SessionBindings
  import D = Settlements
  import L = Leasing
  import P = ProtocolInvariant

  /** Inside a transaction: on an error the tables are left for the caller to roll back. */
  ghost predicate Wrote(spec: Result<Tables>, error: Option<FleetError>, after: Tables) {
    match spec
    case Ok(u) => error == None && after == u
    case Err(e) => error == Some(e)
  }

  /** A whole transaction: on an error the tables are the ones it started from. */
  ghost predicate Committed(spec: Result<Tables>, error: Option<FleetError>, before: Tables, after: Tables) {
    Wrote(spec, error, after) && (error.Some? ==> after == before)
  }

  /** The same for a transaction that also reports a value. */
  ghost predicate Reported<T(!new)>(spec: Result<(Tables, T)>, error: Option<FleetError>, value: Option<T>,
                                    before: Tables, after: Tables)
  {
    match spec
    case Ok(r) => error == None && value == Some(r.1) && after == r.0
    case Err(e) => error == Some(e) && value == None && after == before
  }

  /** What is left to recover completes what was recovered so far. */
  ghost predicate Continues(whole: Result<(Tables, nat)>, rest: Result<(Tables, nat)>, settled: nat) {
    match rest
    case Ok(r) => whole == Ok((r.0, settled + r.1))
    case Err(e) => whole == Err(e)
  }

  /** Recovering a list is recovering its head and then the rest. */
  lemma {:induction false} NextInbox(t: Tables, list: seq<Id>, now: Time)
    requires list != []
    ensures I.Recover(t, list[0], now).Ok? ==>
              Continues(I.RecoverAll(t, list, now), I.RecoverAll(I.Recover(t, list[0], now).value.0, list[1..], now),
                        I.Recover(t, list[0], now).value.1)
    ensures I.Recover(t, list[0], now).Err? ==> I.RecoverAll(t, list, now) == Err(I.Recover(t, list[0], now).error)
  {
    RestContinues(I.Recover(t, list[0], now), list[1..], now);
  }

  lemma {:induction false} RestContinues(first: Result<(Tables, nat)>, rest: seq<Id>, now: Time)
    ensures first.Ok? ==>
              Continues(I.RecoverRest(first, rest, now), I.RecoverAll(first.value.0, rest, now), first.value.1)
    ensures first.Err? ==> I.RecoverRest(first, rest, now) == Err(first.error)
  {
  }

  lemma TraceExtends(before: seq<Tables>, after: seq<Tables>, calls: seq<Action>, n: nat)
    requires n < |calls| && |after| == n + 2 && before == after[..n + 1] && Trace(before, after[0], calls[..n])
    requires after[n + 1] == Step(after[n], calls[n])
    ensures Trace(after, after[0], calls[..n + 1])
  {
    var done := calls[..n + 1];
    forall m: nat | m < |done|
      ensures Moves(after, done, m)
    {
      assert m < n ==> Moves(before, calls[..n], m);
    }
  }

  class Store {
    /** The tables as the open transaction sees them. */
    var db: Tables

    ghost predicate Valid()
      reads this
    {
      Inv(db)
    }

    constructor ()
      ensures db == EMPTY && Valid()
    {
      db := EMPTY;
      new;
      P.EmptyStore();
    }

    // ---- recovery ---------------------------------------------------------------------------

    /** Fences the session of an expired armed attempt. */
    method MarkExpiredTurnUncertain(i: Id, reason: Text) returns (error: Option<FleetError>)
      modifies this
      ensures Wrote(S.MarkExpiredTurnUncertain(old(db), i, reason), error, db)
    {
      if i !in db.turns || db.turns[i].binding !in db.bindings {
        return None;
      }
      var turn := db.turns[i];
      var b := db.bindings[turn.binding];
      if b.active != Some(i) {
        return Some(Conflict);
      }
      if turn.state.TurnUncertain? && b.state.Uncertain? {
        return None;
      }
      if !turn.state.TurnActive? || !b.state.Active? || b.epoch != turn.epoch {
        return Some(Conflict);
      }
      assert Handle(turn.binding.id, turn.binding.generation, turn.epoch).Key() == turn.binding;
      db := db.(turns := db.turns[i := turn.(state := TurnUncertain(reason))]);
      db := db.(bindings := db.bindings[turn.binding := b.(state := Uncertain, uncertainReason := Some(reason))]);
      return None;
    }

    /** Parks one expired armed attempt. */
    method ParkExpired(i: Id, now: Time) returns (error: Option<FleetError>)
      modifies this
      ensures Wrote(I.ParkExpired(old(db), i, now), error, db)
    {
      if i !in db.invocations {
        return Some(NotFound);
      }
      var inv := db.invocations[i];
      var reason := I.ExpiryReason(i);
      if !K.HoldsExpired(db, inv.key, inv.token, now) {
        return Some(Conflict);
      }
      var attempt := db.deliveries[inv.key].attempt;
      db := K.Park(db, inv.key, inv.token, reason);
      error := RecordBlock(inv.key, attempt, inv.token, reason);
      if error.Some? {
        return;
      }
      if !inv.state.Armed? {
        return Some(Conflict);
      }
      db := db.(invocations := db.invocations[i := I.End(inv, now, OutcomeUnknown, LeaseExpiredAfterArm)]);
      error := MarkExpiredTurnUncertain(i, reason);
    }

    method RecordBlock(k: DeliveryKey, attempt: nat, token: Id, reason: Text) returns (error: Option<FleetError>)
      modifies this
      ensures Wrote(K.RecordBlock(old(db), k, attempt, token, reason), error, db)
    {
      if K.BlocksUnder(db, k, token) != {} {
        return Some(FleetError.Persistence);
      }
      db := db.(blocks := db.blocks[db.nextBlock := Block.Block(k, attempt, token, reason, None)]);
      db := db.(nextBlock := db.nextBlock + 1);
      return None;
    }

    method ParkRows(ids: seq<Id>, now: Time) returns (error: Option<FleetError>)
      modifies this
      ensures Wrote(I.ParkAll(old(db), ids, now), error, db)
    {
      error := None;
      var n := 0;
      assert ids[0..] == ids;
      while n < |ids|
        invariant 0 <= n <= |ids| && error == None
        invariant I.ParkAll(db, ids[n..], now) == I.ParkAll(old(db), ids, now)
      {
        assert ids[n..][0] == ids[n] && ids[n..][1..] == ids[n + 1..];
        error := ParkExpired(ids[n], now);
        if error.Some? {
          return;
        }
        n := n + 1;
      }
    }

    /** Settles every expired attempt of one inbox and counts them. */
    method Recover(agent: Id, now: Time) returns (error: Option<FleetError>, settled: nat)
      modifies this
      ensures match I.Recover(old(db), agent, now)
              case Ok(r) => error == None && db == r.0 && settled == r.1
              case Err(e) => error == Some(e)
    {
      settled := |I.ExpiredReservations(db, agent, now)|;
      db := I.TerminalizeExpiredReservations(db, agent, now);
      var ids := SortRows(I.ExpiredArmed(db, agent, now), I.ReservationOrder(db));
      settled := settled + |ids|;
      error := ParkRows(ids, now);
    }

    /** Recovers one inbox of the list, leaving the rest of the list to recover. */
    method RecoverInbox(inboxes: seq<Id>, n: nat, now: Time) returns (error: Option<FleetError>, settled: nat)
      requires n < |inboxes|
      modifies this
      ensures error.Some? ==> I.RecoverAll(old(db), inboxes[n..], now) == Err(error.value)
      ensures error.None? ==>
                Continues(I.RecoverAll(old(db), inboxes[n..], now), I.RecoverAll(db, inboxes[n + 1..], now), settled)
    {
      assert inboxes[n..][0] == inboxes[n] && inboxes[n..][1..] == inboxes[n + 1..];
      NextInbox(db, inboxes[n..], now);
      error, settled := Recover(inboxes[n], now);
    }

    method RecoverInboxes(inboxes: seq<Id>, now: Time) returns (error: Option<FleetError>, settled: nat)
      modifies this
      ensures match I.RecoverAll(old(db), inboxes, now)
              case Ok(r) => error == None && db == r.0 && settled == r.1
              case Err(e) => error == Some(e)
    {
      error, settled := None, 0;
      var n := 0;
      assert inboxes[0..] == inboxes;
      ghost var whole := I.RecoverAll(db, inboxes, now);
      while n < |inboxes|
        invariant 0 <= n <= |inboxes| && error == None
        invariant Continues(whole, I.RecoverAll(db, inboxes[n..], now), settled)
      {
        var some;
        error, some := RecoverInbox(inboxes, n, now);
        if error.Some? {
          return;
        }
        settled := settled + some;
        n := n + 1;
      }
    }

    /** The reaper's transaction over the inboxes it found. */
    method RecoverAll(inboxes: seq<Id>, now: Time) returns (error: Option<FleetError>, settled: Option<nat>)
      requires Valid()
      modifies this
      ensures Valid()
      ensures Reported(I.RecoverAll(old(db), inboxes, now), error, settled, old(db), db)
    {
      var saved := db;
      var count;
      error, count := RecoverInboxes(inboxes, now);
      settled := Some(count);
      if error.Some? {
        db := saved;
        settled := None;
      } else {
        P.ReapKeeps(saved, inboxes, now);
      }
    }

    // ---- claiming ---------------------------------------------------------------------------------

    /** Leases the oldest eligible rows of an inbox under a fresh token. */
    method Lease(agent: Id, token: Id, expiry: Time, now: Time, limit: nat, kinds: Option<set<Text>>)
      modifies this
      ensures db == K.LeaseClaimable(old(db), agent, token, expiry, now, limit, kinds)
    {
      var eligible := K.ClaimableKeys(db, agent, now, kinds);
      var messages := K.MessagesOf(eligible);
      var rows := SortRows(messages, Unkeyed(messages));
      var taken := K.Take(rows, limit);
      var oldest := set k <- eligible | k.message in taken;
      db := K.LeaseRows(db, oldest, token, expiry);
    }

    method RecoverThenLease(agent: Id, input: I.ClaimInput, now: Time) returns (error: Option<FleetError>)
      modifies this
      ensures Wrote(I.RecoverThenLease(old(db), agent, input, now), error, db)
    {
      if !K.ValidClaim(input.limit, input.duration) {
        return Some(Invalid);
      }
      if agent !in db.agents {
        return Some(NotFound);
      }
      if now + input.duration > I64_MAX {
        return Some(Invalid);
      }
      var token := db.nextId;
      db := db.(nextId := token + 1);
      error := RecoverAndLease(agent, token, input, now);
    }

    method RecoverAndLease(agent: Id, token: Id, input: I.ClaimInput, now: Time) returns (error: Option<FleetError>)
      modifies this
      ensures Wrote(I.LeaseRecovered(I.Recover(old(db), agent, now), agent, token, input, now), error, db)
    {
      var settled;
      error, settled := Recover(agent, now);
      if error.None? {
        Lease(agent, token, now + input.duration, now, input.limit, input.kinds);
      }
    }

    method ClaimDeliveries(agent: Id, input: I.ClaimInput, now: Time) returns (error: Option<FleetError>)
      requires Valid()
      modifies this
      ensures Valid()
      ensures Committed(D.ClaimDeliveries(old(db), agent, input, now), error, old(db), db)
    {
      var saved := db;
      if !K.ValidClaim(input.limit, input.duration) || now + input.duration > I64_MAX {
        return Some(Invalid);
      }
      error := RecoverThenLease(agent, input.(kinds := None), now);
      if error.Some? {
        db := saved;
      } else {
        P.ClaimKeeps(saved, agent, input, now);
      }
    }

    method ReserveRow(k: DeliveryKey, token: Id, expiry: Time, now: Time) returns (error: Option<FleetError>)
      requires k in db.deliveries
      modifies this
      ensures Wrote(I.ReserveRow(old(db), k, token, expiry, now), error, db)
    {
      var attempt := db.deliveries[k].attempt;
      if exists i | i in db.invocations :: db.invocations[i].key == k && db.invocations[i].attempt == attempt {
        return Some(FleetError.Persistence);
      }
      db := db.(invocations := db.invocations[
        db.nextId := Invocation(k, attempt, token, expiry, db.nextId + 1, Reserved, now)]);
      db := db.(nextId := db.nextId + 2);
      return None;
    }

    /** Inserts one reserved attempt per leased row, in message order. */
    method ReserveRows(agent: Id, rows: seq<nat>, token: Id, expiry: Time, now: Time) returns (error: Option<FleetError>)
      requires forall m | m in rows :: DeliveryKey(m, agent) in db.deliveries
      modifies this
      ensures Wrote(I.ReserveRows(old(db), agent, rows, token, expiry, now), error, db)
    {
      error := None;
      var n := 0;
      assert rows[0..] == rows;
      while n < |rows|
        invariant 0 <= n <= |rows| && error == None && db.deliveries == old(db).deliveries
        invariant forall m | m in rows[n..] :: DeliveryKey(m, agent) in db.deliveries
        invariant I.ReserveRows(db, agent, rows[n..], token, expiry, now)
                  == I.ReserveRows(old(db), agent, rows, token, expiry, now)
      {
        assert rows[n..][0] == rows[n] && rows[n..][1..] == rows[n + 1..];
        error := ReserveRow(DeliveryKey(rows[n], agent), token, expiry, now);
        if error.Some? {
          return;
        }
        n := n + 1;
      }
    }

    method ReserveInvocations(agent: Id, input: I.ClaimInput, now: Time) returns (error: Option<FleetError>)
      requires Valid()
      modifies this
      ensures Valid()
      ensures Committed(I.ReserveInvocations(old(db), agent, input, now), error, old(db), db)
    {
      var saved := db;
      L.ReserveKeeps(saved, agent, input, now);
      if input.kinds == Some({}) {
        return Some(Invalid);
      }
      error := RecoverThenLease(agent, input, now);
      if error.None? {
        error := ReserveLeased(agent, saved.nextId, now + input.duration, now);
      }
      if error.Some? {
        db := saved;
      }
    }

    method ReserveLeased(agent: Id, token: Id, expiry: Time, now: Time) returns (error: Option<FleetError>)
      modifies this
      ensures Wrote(I.ReserveLeased(Ok(old(db)), agent, token, expiry, now), error, db)
    {
      var leased := K.LeasedSeqs(db, agent, token);
      var rows := SortRows(leased, Unkeyed(leased));
      I.LeasedRowsExist(db, agent, token);
      error := ReserveRows(agent, rows, token, expiry, now);
    }

    // ---- the dispatch fence and completion ----------------------------------------------------------

    method Arm(agent: Id, i: Id, input: I.ArmInput, now: Time) returns (error: Option<FleetError>)
      modifies this
      ensures Committed(I.ArmInvocation(old(db), agent, i, input, now), error, old(db), db)
    {
      if !I.KnownTo(db, agent, i) {
        return Some(NotFound);
      }
      var inv := db.invocations[i];
      if inv.token != input.token || inv.fence != input.fence || !I.LiveLease(db, inv, input.token, now) {
        return Some(LeaseConflict);
      }
      if inv.state.Terminal? {
        return Some(Conflict);
      }
      if inv.state.Reserved? {
        db := db.(invocations := db.invocations[i := inv.(state := Armed(now))]);
      }
      return None;
    }

    method ArmInvocation(agent: Id, i: Id, input: I.ArmInput, now: Time) returns (error: Option<FleetError>)
      requires Valid()
      modifies this
      ensures Valid()
      ensures Committed(I.ArmInvocation(old(db), agent, i, input, now), error, old(db), db)
    {
      ghost var saved := db;
      error := Arm(agent, i, input, now);
      if error.None? {
        P.ArmKeeps(saved, agent, i, input, now);
      }
    }

    method InsertMessage(m: Message, now: Time) returns (error: Option<FleetError>)
      modifies this
      ensures Committed(K.InsertMessage(old(db), m, now), error, old(db), db)
    {
      if m.channel !in db.channels {
        return Some(NotFound);
      }
      var c := db.channels[m.channel];
      if c.archived {
        return Some(Conflict);
      }
      if m.sender !in c.members || (m.recipient.Some? && m.recipient.value !in c.members) {
        return Some(FleetError.NotMember);
      }
      var deliveries := K.Snapshot(db.nextSeq, K.Recipients(c, m), now);
      db := db.(messages := db.messages[db.nextSeq := m], nextSeq := db.nextSeq + 1);
      db := db.(deliveries := db.deliveries + deliveries);
      return None;
    }

    /** Completes an armed attempt, or recognises an exact repeat and writes nothing. */
    method Complete(agent: Id, i: Id, input: I.CompleteInput, now: Time, throughSession: bool)
      returns (error: Option<FleetError>, created: bool)
      modifies this
      ensures match I.CompleteInvocation(old(db), agent, i, input, now, throughSession)
              case Ok(r) => error == None && db == r.0 && created == r.1
              case Err(e) => error == Some(e)
    {
      created := false;
      if Blank(input.kind) {
        return Some(Invalid), false;
      }
      if !throughSession && S.ActiveOnSession(db, i) {
        return Some(Conflict), false;
      }
      if !I.KnownTo(db, agent, i) {
        return Some(NotFound), false;
      }
      var inv := db.invocations[i];
      if inv.token != input.token || inv.fence != input.fence {
        return Some(LeaseConflict), false;
      }
      var expected := I.ResultMessage(db, i, input);
      if inv.state.Terminal? {
        if !inv.HasResult() {
          return Some(Conflict), false;
        }
        if inv.state.reason.result !in db.messages {
          return Some(NotFound), false;
        }
        if !K.SameContent(db.messages[inv.state.reason.result], expected) {
          return Some(Conflict), false;
        }
        return None, false;
      }
      if !inv.state.Armed? {
        return Some(Conflict), false;
      }
      if !I.LiveLease(db, inv, input.token, now) {
        return Some(LeaseConflict), false;
      }
      if K.KeyHolders(db, agent, ResultKey(i)) != {} {
        return Some(Conflict), false;
      }
      error, created := Publish(i, expected, now);
    }

    /** The writes of a completion: the result, the acknowledgement, the verdict. */
    method Publish(i: Id, expected: Message, now: Time) returns (error: Option<FleetError>, created: bool)
      requires i in db.invocations && db.invocations[i].key in db.deliveries
      modifies this
      ensures match I.PublishResult(old(db), i, expected, now)
              case Ok(r) => error == None && db == r.0 && created == r.1
              case Err(e) => error == Some(e)
    {
      var inv, result := db.invocations[i], db.nextSeq;
      error := InsertMessage(expected, now);
      if error.Some? {
        return error, false;
      }
      if !K.HoldsLive(db, inv.key, inv.token, now) {
        return Some(LeaseConflict), false;
      }
      db := K.Acknowledge(db, inv.key, inv.token);
      db := db.(invocations := db.invocations[i := I.End(inv, now, OutcomeKnown, Completed(result))]);
      return None, true;
    }

    method CompleteInvocation(agent: Id, i: Id, input: I.CompleteInput, now: Time)
      returns (error: Option<FleetError>, created: Option<bool>)
      requires Valid()
      modifies this
      ensures Valid()
      ensures Reported(I.CompleteInvocation(old(db), agent, i, input, now, false), error, created, old(db), db)
    {
      var saved := db;
      var published;
      error, published := Complete(agent, i, input, now, false);
      created := Some(published);
      if error.Some? {
        db := saved;
        created := None;
      } else {
        P.CompleteKeeps(saved, agent, i, input, now);
      }
    }

    /** Appends a message, or recognises an exact repeat of its idempotency key. */
    method PostMessage(m: Message, now: Time) returns (error: Option<FleetError>, created: Option<bool>)
      requires Valid()
      modifies this
      ensures Valid()
      ensures Reported(K.AppendMessage(old(db), m, now), error, created, old(db), db)
    {
      ghost var saved := db;
      if Blank(m.kind) || !K.ValidKey(m.key) {
        return Some(Invalid), None;
      }
      if m.key.Some? {
        var holders := K.KeyHolders(db, m.sender, m.key.value);
        if holders != {} {
          if exists s <- holders :: K.SameContent(db.messages[s], m) {
            return None, Some(false);
          }
          return Some(Conflict), None;
        }
      }
      error := InsertMessage(m, now);
      created := if error.None? then Some(true) else None;
      if error.None? {
        P.InsertKeepsAll(saved, m, now);
      }
    }

    // ---- settlement -----------------------------------------------------------------------------------

    /** Ends the attempt that fences a lease, unless its session turn forbids it. */
    method Terminalize(k: DeliveryKey, token: Id, certainty: Certainty, reason: TerminalReason, now: Time)
      returns (error: Option<FleetError>)
      modifies this
      ensures Wrote(I.Terminalize(old(db), k, token, certainty, reason, now), error, db)
    {
      if !S.BoundTurnAllowsSettlement(db, k, token, certainty.OutcomeUnknown? && reason.BlockedBy?) {
        return Some(Conflict);
      }
      db := I.EndAttempts(db, k, token, certainty, reason, now);
      return None;
    }

    method AcknowledgeDelivery(k: DeliveryKey, token: Id, now: Time) returns (error: Option<FleetError>)
      requires Valid()
      modifies this
      ensures Valid()
      ensures Committed(D.AcknowledgeDelivery(old(db), k, token, now), error, old(db), db)
    {
      var saved := db;
      if K.HoldsLive(db, k, token, now) {
        db := K.Acknowledge(db, k, token);
        error := Terminalize(k, token, OutcomeKnown, AcknowledgedBy, now);
        if error.Some? {
          db := saved;
        }
      } else {
        error := Miss(k, token, SettledAcknowledged);
      }
      if error.None? {
        P.AcknowledgeDeliveryKeeps(saved, k, token, now);
      }
    }

    /** A settlement that moved no row succeeds only as an exact repeat. */
    method Miss(k: DeliveryKey, token: Id, settlement: Settlement) returns (error: Option<FleetError>)
      ensures Committed(K.SettleMiss(db, k, token, settlement), error, db, db)
    {
      if k !in db.deliveries {
        return Some(NotFound);
      }
      return if db.deliveries[k].lastSettled == Some((token, settlement)) then None else Some(LeaseConflict);
    }

    method RetryDelivery(k: DeliveryKey, input: D.RetryInput, now: Time) returns (error: Option<FleetError>)
      requires Valid()
      modifies this
      ensures Valid()
      ensures Committed(D.RetryDelivery(old(db), k, input, now), error, old(db), db)
    {
      var saved := db;
      if !D.ValidRetry(input) || now + input.retryAfter > I64_MAX {
        return Some(Invalid);
      }
      if !I.RetryIsSafe(db, k, input.token) {
        return Some(Conflict);
      }
      if K.HoldsLive(db, k, input.token, now) {
        db := K.Release(db, k, input.token, now + input.retryAfter, input.error);
        error := Terminalize(k, input.token, NotStarted, RetriedBy, now);
        if error.Some? {
          db := saved;
        }
      } else {
        error := Miss(k, input.token, SettledRetry);
      }
      if error.None? {
        P.RetryDeliveryKeeps(saved, k, input, now);
      }
    }

    /** Parks a delivery with evidence; a repeat with the same reason finds the record. */
    method BlockDelivery(k: DeliveryKey, input: D.BlockInput, now: Time)
      returns (error: Option<FleetError>, record: nat, created: bool)
      requires Valid()
      modifies this
      ensures Valid()
      ensures match D.BlockDelivery(old(db), k, input, now)
              case Ok(r) => error == None && db == r.0 && record == r.1 && created == r.2
              case Err(e) => error == Some(e) && db == old(db)
    {
      var saved := db;
      record, created := db.nextBlock, false;
      if !Bounded(input.reason, K.MAX_ERROR_LENGTH) {
        return Some(Invalid), record, false;
      }
      if K.HoldsLive(db, k, input.token, now) {
        error := ParkWithEvidence(k, input, now);
        created := true;
        if error.Some? {
          db := saved;
        }
      } else if K.BlocksUnder(db, k, input.token) != {} {
        record := Least(K.BlocksUnder(db, k, input.token));
        error := if db.blocks[record].reason == input.reason then None else Some(Conflict);
      } else {
        error := Miss(k, input.token, SettledBlocked);
        error := if error.None? then Some(LeaseConflict) else error;
      }
      if error.None? {
        P.BlockDeliveryKeeps(saved, k, input, now);
      }
    }

    method ParkWithEvidence(k: DeliveryKey, input: D.BlockInput, now: Time) returns (error: Option<FleetError>)
      requires K.HoldsLive(db, k, input.token, now) && Bounded(input.reason, K.MAX_ERROR_LENGTH)
      modifies this
      ensures match D.BlockDelivery(old(db), k, input, now)
              case Ok(r) => error == None && db == r.0 && r.1 == old(db).nextBlock && r.2
              case Err(e) => error == Some(e)
    {
      var attempt := db.deliveries[k].attempt;
      db := K.Park(db, k, input.token, input.reason);
      error := RecordBlock(k, attempt, input.token, input.reason);
      if error.None? {
        error := Terminalize(k, input.token, OutcomeUnknown, BlockedBy, now);
      }
    }

    method ResolveBlock(blockId: nat, input: K.ResolveInput, now: Time) returns (error: Option<FleetError>)
      modifies this
      ensures Wrote(K.ResolveBlock(old(db), blockId, input, now), error, db)
    {
      if !K.ValidResolution(blockId, input) {
        return Some(Invalid);
      }
      if blockId !in db.blocks || db.blocks[blockId].key !in db.deliveries {
        return Some(NotFound);
      }
      var b := db.blocks[blockId];
      var decision := Resolved(input.how, input.note, input.retryAfter);
      if b.resolved.Some? {
        return if b.resolved == Some(decision) then None else Some(Conflict);
      }
      if !db.deliveries[b.key].state.Blocked? {
        return Some(Conflict);
      }
      if input.how.Requeue? && now + input.retryAfter > I64_MAX {
        return Some(Invalid);
      }
      db := db.(deliveries := db.deliveries[b.key := K.ResolveDeliveryRow(db.deliveries[b.key], input, now)]);
      db := db.(blocks := db.blocks[blockId := b.(resolved := Some(decision))]);
      return None;
    }

    method RetireForBlock(blockId: nat, how: Resolution) returns (error: Option<FleetError>)
      modifies this
      ensures Wrote(B.RetireForBlock(old(db), blockId, how), error, db)
    {
      if blockId !in db.blocks {
        return Some(NotFound);
      }
      var bound := B.BlockedTurns(db, blockId);
      if bound == {} {
        return None;
      }
      var i := Least(bound);
      var k := db.turns[i].binding;
      var b, reason := db.bindings[k], B.OperatorReason(blockId, how);
      if b.state.Retired? {
        return if b.retiredReason == Some(reason) then None else Some(Conflict);
      }
      if !db.invocations[i].Ended(OutcomeUnknown) || !db.turns[i].state.TurnUncertain? || !b.state.Uncertain?
         || b.active != Some(i) {
        return Some(Conflict);
      }
      db := db.(bindings := db.bindings[k := B.RetireRow(b, reason)]);
      return None;
    }

    method ResolveDeliveryBlock(blockId: nat, input: K.ResolveInput, now: Time) returns (error: Option<FleetError>)
      requires Valid()
      modifies this
      ensures Valid()
      ensures Committed(D.ResolveDeliveryBlock(old(db), blockId, input, now), error, old(db), db)
    {
      var saved := db;
      error := ResolveBlock(blockId, input, now);
      if error.None? {
        error := RetireForBlock(blockId, input.how);
      }
      if error.Some? {
        db := saved;
      } else {
        P.ResolveDeliveryBlockKeeps(saved, blockId, input, now);
      }
    }

    // ---- sessions ------------------------------------------------------------------------------------------

    method InsertBinding(k: BindingKey, input: B.AcquireInput)
      returns (error: Option<FleetError>, acquisition: Option<B.Acquisition>)
      modifies this
      ensures Reported(B.InsertBinding(old(db), k, input), error, acquisition, old(db), db)
    {
      if k.generation == 0 || k.generation > I64_MAX {
        return Some(Invalid), None;
      }
      if k in db.bindings || B.CurrentRows(db, input.lane) != {} {
        return Some(FleetError.Persistence), None;
      }
      db := db.(bindings := db.bindings[k := Binding(input.lane, 1, input.owner, input.config, None, Opening,
                                                     None, None, None, None)]);
      return None, Some(B.Acquisition(Handle(k.id, k.generation, 1), B.Create));
    }

    /** Retires the current generation of a lane and opens the next. On an error the caller rolls back. */
    method Rotate(k: BindingKey, input: B.AcquireInput, reason: Text)
      returns (error: Option<FleetError>, acquisition: Option<B.Acquisition>)
      requires k in db.bindings
      modifies this
      ensures match B.Rotate(old(db), k, input, reason)
              case Ok(r) => error == None && db == r.0 && acquisition == Some(r.1)
              case Err(e) => error == Some(e) && acquisition == None
    {
      if !db.bindings[k].state.Opening? && !db.bindings[k].state.Ready? {
        return Some(Conflict), None;
      }
      db := db.(bindings := db.bindings[k := B.RetireRow(db.bindings[k], reason)]);
      error, acquisition := InsertBinding(BindingKey(k.id, k.generation + 1), input);
    }

    /** Takes over a compatible ready session under the next owner epoch. */
    method Adopt(k: BindingKey, owner: Id) returns (error: Option<FleetError>, acquisition: Option<B.Acquisition>)
      requires k in db.bindings
      modifies this
      ensures Reported(B.Adopt(old(db), k, owner), error, acquisition, old(db), db)
    {
      var b := db.bindings[k];
      if b.epoch + 1 > I64_MAX {
        return Some(Invalid), None;
      }
      if !b.state.Ready? {
        return Some(Conflict), None;
      }
      if b.sessionRef.None? {
        return Some(Invalid), None;
      }
      db := db.(bindings := db.bindings[k := b.(epoch := b.epoch + 1, owner := owner)]);
      return None, Some(B.Acquisition(Handle(k.id, k.generation, b.epoch + 1), B.Resume(b.sessionRef.value)));
    }

    method AcquireExisting(k: BindingKey, input: B.AcquireInput)
      returns (error: Option<FleetError>, acquisition: Option<B.Acquisition>)
      requires k in db.bindings
      modifies this
      ensures match B.AcquireExisting(old(db), k, input)
              case Ok(r) => error == None && db == r.0 && acquisition == Some(r.1)
              case Err(e) => error == Some(e) && acquisition == None
    {
      var b := db.bindings[k];
      if b.owner == input.owner {
        if b.config != input.config || !(b.state.Opening? || b.state.Ready?) {
          return Some(Conflict), None;
        }
        var own := Handle(k.id, k.generation, b.epoch);
        if b.state.Opening? {
          return None, Some(B.Acquisition(own, B.Create));
        }
        if b.sessionRef.None? {
          return Some(Invalid), None;
        }
        return None, Some(B.Acquisition(own, B.Resume(b.sessionRef.value)));
      }
      if b.state.Opening? {
        error, acquisition := Rotate(k, input, "opening_superseded_by_new_owner");
      } else if !b.state.Ready? {
        return Some(Conflict), None;
      } else if b.config == input.config {
        error, acquisition := Adopt(k, input.owner);
      } else {
        error, acquisition := Rotate(k, input, "incompatible_profile_rotation");
      }
    }

    method InsertAfterLatestRetired(input: B.AcquireInput)
      returns (error: Option<FleetError>, acquisition: Option<B.Acquisition>)
      modifies this
      ensures match B.InsertAfterLatestRetired(old(db), input)
              case Ok(r) => error == None && db == r.0 && acquisition == Some(r.1)
              case Err(e) => error == Some(e) && acquisition == None
    {
      var rows := B.LaneRows(db, input.lane);
      if rows == {} {
        var id := db.nextId;
        db := db.(nextId := id + 1);
        error, acquisition := InsertBinding(BindingKey(id, 1), input);
      } else {
        var latest := B.Latest(rows);
        if !db.bindings[latest].state.Retired? {
          return Some(Conflict), None;
        }
        error, acquisition := InsertBinding(BindingKey(latest.id, latest.generation + 1), input);
      }
    }

    method AcquireSessionBinding(input: B.AcquireInput)
      returns (error: Option<FleetError>, acquisition: Option<B.Acquisition>)
      requires Valid()
      modifies this
      ensures Valid()
      ensures Reported(B.AcquireSessionBinding(old(db), input), error, acquisition, old(db), db)
    {
      var saved := db;
      if input.lane.agent !in db.agents {
        return Some(NotFound), None;
      }
      var current := B.CurrentRows(db, input.lane);
      if current == {} {
        error, acquisition := InsertAfterLatestRetired(input);
      } else {
        error, acquisition := AcquireExisting(B.Latest(current), input);
      }
      if error.Some? {
        db := saved;
      } else {
        P.AcquireSessionKeeps(saved, input);
      }
    }

    method RecordSessionOpened(agent: Id, h: Handle, sessionRef: Id) returns (error: Option<FleetError>)
      requires Valid()
      modifies this
      ensures Valid()
      ensures Committed(B.RecordSessionOpened(old(db), agent, h, sessionRef), error, old(db), db)
    {
      ghost var saved := db;
      var row := B.OwnedRow(db, agent, h);
      if row.Err? {
        return Some(row.error);
      }
      var b := row.value;
      if b.state.Opening? {
        db := db.(bindings := db.bindings[h.Key() := b.(state := Ready, sessionRef := Some(sessionRef))]);
      } else if !b.state.Ready? || b.sessionRef != Some(sessionRef) {
        return Some(Conflict);
      }
      P.OpenedKeepsAll(saved, agent, h, sessionRef);
      return None;
    }

    method ActivateTurn(agent: Id, i: Id, h: Handle) returns (error: Option<FleetError>)
      modifies this
      ensures Wrote(B.ActivateTurn(old(db), agent, i, h), error, db)
    {
      if i in db.turns {
        return if db.turns[i] == Turn(h.Key(), h.epoch, TurnActive) then None else Some(Conflict);
      }
      if !S.OwnerFence(db, agent, h) || !db.bindings[h.Key()].state.Ready? || db.bindings[h.Key()].active.Some? {
        return Some(Conflict);
      }
      db := db.(turns := db.turns[i := Turn(h.Key(), h.epoch, TurnActive)]);
      db := db.(bindings := db.bindings[h.Key() := db.bindings[h.Key()].(state := Active, active := Some(i))]);
      return None;
    }

    method BeginObservation(agent: Id, i: Id, generation: Id) returns (error: Option<FleetError>)
      modifies this
      ensures Wrote(B.BeginObservation(old(db), agent, i, generation), error, db)
    {
      if generation !in db.generations || db.generations[generation] != PluginGeneration(agent, true) || i in db.observed {
        return Some(Conflict);
      }
      db := db.(observed := db.observed + {i});
      return None;
    }

    /** The fence, the turn and the observation row commit together. */
    method ArmSessionInvocation(agent: Id, i: Id, h: Handle, sessionRef: Id, generation: Id, input: I.ArmInput, now: Time)
      returns (error: Option<FleetError>)
      requires Valid()
      modifies this
      ensures Valid()
      ensures Committed(B.ArmSessionInvocation(old(db), agent, i, h, sessionRef, generation, input, now), error, old(db), db)
    {
      var saved := db;
      var row := B.OwnedRow(db, agent, h);
      if row.Err? {
        return Some(row.error);
      }
      var b := row.value;
      if b.sessionRef != Some(sessionRef) {
        return Some(LeaseConflict);
      }
      if !(b.state.Ready? && b.active.None?) && !(b.state.Active? && b.active == Some(i)) {
        return Some(Conflict);
      }
      error := Arm(agent, i, input, now);
      if error.None? {
        error := ActivateTurn(agent, i, h);
      }
      if error.None? {
        error := BeginObservation(agent, i, generation);
      }
      if error.Some? {
        db := saved;
      } else {
        P.ArmSessionKeeps(saved, agent, i, h, sessionRef, generation, input, now);
      }
    }

    method SettleQuiescentTurn(agent: Id, i: Id, h: Handle, persistence: Persistence) returns (error: Option<FleetError>)
      modifies this
      ensures Wrote(B.SettleQuiescentTurn(old(db), agent, i, h, persistence), error, db)
    {
      if i !in db.turns {
        return Some(NotFound);
      }
      if db.turns[i].state.TurnQuiescent? {
        return if db.turns[i].state.persistence == persistence then None else Some(Conflict);
      }
      if !db.turns[i].state.TurnActive? || !S.OwnerFence(db, agent, h) || !db.bindings[h.Key()].state.Active?
         || db.bindings[h.Key()].active != Some(i) {
        return Some(Conflict);
      }
      db := db.(turns := db.turns[i := db.turns[i].(state := TurnQuiescent(persistence))]);
      db := db.(bindings := db.bindings[h.Key() := db.bindings[h.Key()].(
        state := Ready, active := None, lastQuiescent := Some(i))]);
      return None;
    }

    method CompleteSessionInvocation(agent: Id, i: Id, h: Handle, persistence: Persistence, input: I.CompleteInput,
                                     now: Time)
      returns (error: Option<FleetError>, created: Option<bool>)
      requires Valid()
      modifies this
      ensures Valid()
      ensures Reported(B.CompleteSessionInvocation(old(db), agent, i, h, persistence, input, now), error, created,
                       old(db), db)
    {
      var saved := db;
      if !B.ValidHandle(h) {
        return Some(Invalid), None;
      }
      var guard := B.ValidateBoundTurn(db, agent, i, h, true);
      if guard.Stop? {
        return Some(guard.error), None;
      }
      var published;
      error, published := Complete(agent, i, input, now, true);
      if error.None? {
        error := SettleQuiescentTurn(agent, i, h, persistence);
      }
      created := Some(published);
      if error.Some? {
        db := saved;
        created := None;
      } else {
        P.CompleteSessionKeeps(saved, agent, i, h, persistence, input, now);
      }
    }

    method MarkSessionUncertain(agent: Id, i: Id, h: Handle, reason: Text) returns (error: Option<FleetError>)
      requires Valid()
      modifies this
      ensures Valid()
      ensures Committed(B.MarkSessionUncertain(old(db), agent, i, h, reason), error, old(db), db)
    {
      ghost var saved := db;
      if !B.ValidHandle(h) || !Bounded(reason, B.MAX_REASON_BYTES) {
        return Some(Invalid);
      }
      var guard := B.ValidateBoundTurn(db, agent, i, h, false);
      if guard.Stop? {
        return Some(guard.error);
      }
      if h.Key() !in db.bindings {
        return Some(NotFound);
      }
      var b := db.bindings[h.Key()];
      if b.state.Uncertain? {
        return if b.uncertainReason == Some(reason) then None else Some(Conflict);
      }
      if !db.turns[i].state.TurnActive? || !S.OwnerFence(db, agent, h) || !b.state.Active? || b.active != Some(i) {
        return Some(Conflict);
      }
      db := db.(turns := db.turns[i := db.turns[i].(state := TurnUncertain(reason))]);
      db := db.(bindings := db.bindings[h.Key() := b.(state := Uncertain, uncertainReason := Some(reason))]);
      P.MarkSessionKeeps(saved, agent, i, h, reason);
      return None;
    }

    method RetireSessionBinding(agent: Id, h: Handle, reason: Text) returns (error: Option<FleetError>)
      requires Valid()
      modifies this
      ensures Valid()
      ensures Committed(B.RetireSessionBinding(old(db), agent, h, reason), error, old(db), db)
    {
      ghost var saved := db;
      if !Bounded(reason, B.MAX_REASON_BYTES) {
        return Some(Invalid);
      }
      var row := B.OwnedRow(db, agent, h);
      if row.Err? {
        return Some(row.error);
      }
      if row.value.state.Active? {
        return Some(Conflict);
      }
      if row.value.state.Retired? {
        return if row.value.retiredReason == Some(reason) then None else Some(Conflict);
      }
      db := db.(bindings := db.bindings[h.Key() := B.RetireRow(row.value, reason)]);
      P.RetireSessionKeeps(saved, agent, h, reason);
      return None;
    }

    // ---- any call ---------------------------------------------------------------------------------------------

    method PerformSession(a: Action) returns (error: Option<FleetError>)
      requires Valid()
      requires a.Acquire? || a.Opened? || a.ArmSession? || a.CompleteSession? || a.MarkUncertain? || a.Retire?
      modifies this
      ensures Valid() && Committed(Attempt(old(db), a), error, old(db), db)
    {
      if a.Acquire? {
        var acquisition;
        error, acquisition := AcquireSessionBinding(a.acquire);
      } else if a.Opened? {
        error := RecordSessionOpened(a.agent, a.handle, a.sessionRef);
      } else if a.ArmSession? {
        error := ArmSessionInvocation(a.agent, a.attempt, a.handle, a.sessionRef, a.generation, a.arm, a.now);
      } else if a.CompleteSession? {
        var created;
        error, created := CompleteSessionInvocation(a.agent, a.attempt, a.handle, a.persistence, a.completion, a.now);
      } else if a.MarkUncertain? {
        error := MarkSessionUncertain(a.agent, a.attempt, a.handle, a.reason);
      } else {
        error := RetireSessionBinding(a.agent, a.handle, a.reason);
      }
    }

    method PerformSettlement(a: Action) returns (error: Option<FleetError>)
      requires Valid() && (a.Acknowledge? || a.Retry? || a.Block? || a.Resolve? || a.Reap?)
      modifies this
      ensures Valid() && Committed(Attempt(old(db), a), error, old(db), db)
    {
      if a.Acknowledge? {
        error := AcknowledgeDelivery(a.key, a.token, a.now);
      } else if a.Retry? {
        error := RetryDelivery(a.key, a.retry, a.now);
      } else if a.Block? {
        var record, created;
        error, record, created := BlockDelivery(a.key, a.block, a.now);
      } else if a.Resolve? {
        error := ResolveDeliveryBlock(a.blockId, a.decision, a.now);
      } else {
        var settled;
        error, settled := RecoverAll(a.inboxes, a.now);
      }
    }

    /** Every call is one step of the transition system. */
    method Perform(a: Action) returns (error: Option<FleetError>)
      requires Valid()
      modifies this
      ensures Valid() && Committed(Attempt(old(db), a), error, old(db), db)
    {
      match a
      case Environment(agents, channels, generations) =>
        ghost var saved := db;
        db := db.(agents := agents, channels := channels, generations := generations);
        P.EnvironmentKeeps(saved, agents, channels, generations);
        error := None;
      case Post(m, now) =>
        var created;
        error, created := PostMessage(m, now);
      case Claim(agent, claim, now) => error := ClaimDeliveries(agent, claim, now);
      case Reserve(agent, claim, now) => error := ReserveInvocations(agent, claim, now);
      case Arm(agent, i, arm, now) => error := ArmInvocation(agent, i, arm, now);
      case Complete(agent, i, completion, now) =>
        var created;
        error, created := CompleteInvocation(agent, i, completion, now);
      case Acknowledge(_, _, _) => error := PerformSettlement(a);
      case Retry(_, _, _) => error := PerformSettlement(a);
      case Block(_, _, _) => error := PerformSettlement(a);
      case Resolve(_, _, _) => error := PerformSettlement(a);
      case Reap(_, _) => error := PerformSettlement(a);
      case _ => error := PerformSession(a);
    }

    /** The calls of other parties, in the order the store serialises them. */
    method PerformAll(calls: seq<Action>)
      requires Valid()
      modifies this
      ensures Valid() && db == Steps(old(db), calls)
    {
      var n := 0;
      ghost var states := [db];
      while n < |calls|
        invariant 0 <= n <= |calls| && Valid() && |states| == n + 1 && states[0] == old(db) && states[n] == db
        invariant Trace(states, old(db), calls[..n])
      {
        ghost var before := states;
        var error := Perform(calls[n]);
        states := states + [db];
        TraceExtends(before, states, calls, n);
        n := n + 1;
      }
      assert calls[..n] == calls;
      StepsIs(states, old(db), calls);
    }
  }
}
