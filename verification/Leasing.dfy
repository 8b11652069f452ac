/**
 Leasing after recovery: the leased rows are the oldest eligible ones, no open
 attempt holds any of them, and every leased row gets exactly one new attempt.
 */
module Leasing {
  import opened Wrappers
  import opened Tables
  import opened Ordering
  import opened Invocations
  import opened DeliveryInvariant
  import opened SessionInvariant
  import opened Recovery
  import K = Kernel
  import S = SessionTurns

  // ---- ORDER BY message LIMIT n ------------------------------------------------------------------

  /** An inbox holds each message at most once. */
  ghost predicate OnePerMessage(keys: set<DeliveryKey>) {
    forall k, l | k in keys && l in keys && k.message == l.message :: k == l
  }

  /** The leased rows are the first `limit` eligible rows in message order. */
  lemma OldestIsPrefix(keys: set<DeliveryKey>, limit: nat)
    requires OnePerMessage(keys)
    ensures K.Oldest(keys, limit) <= keys
    ensures |K.Oldest(keys, limit)| == if |keys| <= limit then |keys| else limit
    ensures forall k, l | k in K.Oldest(keys, limit) && l in keys && l.message <= k.message :: l in K.Oldest(keys, limit)
  {
    var messages := K.MessagesOf(keys);
    var rows := Ascending(messages);
    var taken := K.Take(rows, limit);
    ListedAreRows(rows, messages, Unkeyed(messages));
    SameSize(keys, messages);
    forall k, l | k in K.Oldest(keys, limit) && l in keys && l.message <= k.message
      ensures l in K.Oldest(keys, limit)
    {
      PrefixDownward(rows, taken, messages, k.message, l.message);
    }
    var leased := K.Oldest(keys, limit);
    assert K.MessagesOf(leased) == set m | m in taken by {
      forall m | m in taken
        ensures m in K.MessagesOf(leased)
      {
        assert m in rows && m in messages;
        var k :| k in keys && k.message == m;
        assert k in leased;
      }
    }
    SameSize(leased, K.MessagesOf(leased));
    DistinctSize(taken, K.MessagesOf(leased));
  }

  lemma PrefixDownward(rows: seq<nat>, taken: seq<nat>, messages: set<nat>, a: nat, b: nat)
    requires Listing(rows, messages, Unkeyed(messages)) && taken <= rows
    requires a in taken && b in messages && b <= a
    ensures b in taken
  {
    assert Listed(rows, b);
    var x :| 0 <= x < |taken| && taken[x] == a;
    var y :| 0 <= y < |rows| && rows[y] == b;
    assert x < y ==> InOrder(rows, Unkeyed(messages), x, y);
    assert y <= x;
  }

  lemma {:induction false} SameSize(keys: set<DeliveryKey>, messages: set<nat>)
    requires OnePerMessage(keys) && messages == K.MessagesOf(keys)
    ensures |messages| == |keys|
    decreases |keys|
  {
    if keys != {} {
      var k :| k in keys;
      assert K.MessagesOf(keys - {k}) == messages - {k.message};
      SameSize(keys - {k}, messages - {k.message});
    }
  }

  lemma {:induction false} DistinctSize(r: seq<nat>, s: set<nat>)
    requires forall x, y | 0 <= x < y < |r| :: r[x] != r[y]
    requires forall m :: m in s <==> m in r
    ensures |s| == |r|
  {
    if r == [] {
      assert s == {};
    } else {
      var last := |r| - 1;
      forall m
        ensures m in s - {r[last]} <==> m in r[..last]
      {
        if m in r {
          var x :| 0 <= x < |r| && r[x] == m;
          assert x < last ==> r[..last][x] == m;
        }
      }
      DistinctSize(r[..last], s - {r[last]});
    }
  }

  // ---- fresh tokens ----------------------------------------------------------------------------

  /** Every lease token in the store was issued before `n`. */
  ghost predicate TokensBelow(t: Tables, n: Id) {
    && (forall k | k in t.deliveries && t.deliveries[k].state.Leased? :: t.deliveries[k].state.token < n)
    && (forall b | b in t.blocks :: t.blocks[b].token < n)
    && (forall i | i in t.invocations :: t.invocations[i].token < n)
  }

  lemma TokensIssued(t: Tables)
    requires DeliveryInv(t)
    ensures TokensBelow(t, t.nextId)
  {
    forall k | k in t.deliveries && t.deliveries[k].state.Leased?
      ensures t.deliveries[k].state.token < t.nextId
    {
      assert DeliveryRow(t, k);
    }
    forall b | b in t.blocks
      ensures t.blocks[b].token < t.nextId
    {
      assert BlockRow(t, b);
    }
    forall i | i in t.invocations
      ensures t.invocations[i].token < t.nextId
    {
      assert AttemptRow(t, i);
    }
  }

  lemma ParkTokens(t: Tables, i: Id, now: Time, n: Id)
    requires TokensBelow(t, n) && ParkExpired(t, i, now).Ok?
    ensures TokensBelow(ParkExpired(t, i, now).value, n)
  {
  }

  lemma {:induction false} ParkAllTokens(t: Tables, ids: seq<Id>, now: Time, n: Id)
    requires TokensBelow(t, n) && ParkAll(t, ids, now).Ok?
    ensures TokensBelow(ParkAll(t, ids, now).value, n)
    decreases |ids|
  {
    if ids != [] {
      ParkTokens(t, ids[0], now, n);
      ParkAllTokens(ParkExpired(t, ids[0], now).value, ids[1..], now, n);
    }
  }

  lemma RecoverTokens(t: Tables, agent: Id, now: Time, n: Id)
    requires TokensBelow(t, n) && Recover(t, agent, now).Ok?
    ensures TokensBelow(Recover(t, agent, now).value.0, n)
  {
    var mid := TerminalizeExpiredReservations(t, agent, now);
    assert TokensBelow(mid, n);
    ParkAllTokens(mid, ArmedToPark(mid, agent, now), now, n);
  }

  // ---- recover, then lease ------------------------------------------------------------------------

  /** Issuing one UUID disturbs nothing. */
  lemma IssueKeeps(t: Tables)
    requires Inv(t)
    ensures Inv(t.(nextId := t.nextId + 1))
  {
    var u := t.(nextId := t.nextId + 1);
    DeliveryPart(t, u);
    QuietKeeps(t, u);
  }

  /** No open attempt holds a row that is claimable once its agent was recovered. */
  lemma ClaimableIsFree(u: Tables, agent: Id, now: Time, kinds: Option<set<Text>>, i: Id)
    requires DeliveryInv(u)
    requires i in u.invocations && u.invocations[i].key in K.ClaimableKeys(u, agent, now, kinds)
    requires u.invocations[i].key.agent == agent && !u.invocations[i].state.Terminal? ==> u.invocations[i].expiry > now
    ensures u.invocations[i].state.Terminal?
  {
    assert AttemptRow(u, i);
  }

  lemma LeaseAfterRecovery(u: Tables, agent: Id, token: Id, expiry: Time, now: Time, limit: nat, kinds: Option<set<Text>>)
    requires Inv(u) && token < u.nextId && TokensBelow(u, token)
    requires forall i | i in u.invocations && u.invocations[i].key.agent == agent && !u.invocations[i].state.Terminal? ::
               u.invocations[i].expiry > now
    ensures Inv(K.LeaseClaimable(u, agent, token, expiry, now, limit, kinds))
  {
    var keys := K.Oldest(K.ClaimableKeys(u, agent, now, kinds), limit);
    forall i | i in u.invocations && u.invocations[i].key in keys
      ensures u.invocations[i].state.Terminal?
    {
      ClaimableIsFree(u, agent, now, kinds, i);
    }
    LeaseKeeps(u, keys, token, expiry);
    QuietKeeps(u, K.LeaseRows(u, keys, token, expiry));
  }

  /** Each listed delivery is leased under `token`, and its earlier attempts are told apart from the next one. */
  ghost predicate ReadyToReserve(t: Tables, agent: Id, messages: seq<nat>, token: Id, expiry: Time) {
    && (forall x, y | 0 <= x < y < |messages| :: messages[x] != messages[y])
    && (forall m | m in messages ::
          && DeliveryKey(m, agent) in t.deliveries
          && t.deliveries[DeliveryKey(m, agent)].state == Leased(token, expiry))
    && (forall m, i | m in messages && i in t.invocations && t.invocations[i].key == DeliveryKey(m, agent) ::
          && t.invocations[i].attempt < t.deliveries[DeliveryKey(m, agent)].attempt
          && t.invocations[i].token != token)
  }

  lemma LeasedAreReady(u: Tables, agent: Id, token: Id, expiry: Time, now: Time, limit: nat, kinds: Option<set<Text>>)
    requires DeliveryInv(u) && TokensBelow(u, token)
    ensures var v := K.LeaseClaimable(u, agent, token, expiry, now, limit, kinds);
            ReadyToReserve(v, agent, Ascending(K.LeasedSeqs(v, agent, token)), token, expiry)
  {
    var v := K.LeaseClaimable(u, agent, token, expiry, now, limit, kinds);
    var keys := K.Oldest(K.ClaimableKeys(u, agent, now, kinds), limit);
    var messages := Ascending(K.LeasedSeqs(v, agent, token));
    ListedAreRows(messages, K.LeasedSeqs(v, agent, token), Unkeyed(K.LeasedSeqs(v, agent, token)));
    forall m | m in messages
      ensures DeliveryKey(m, agent) in keys && DeliveryKey(m, agent) in u.deliveries
    {
      var k :| k in v.deliveries && k.agent == agent && v.deliveries[k].state.Leased?
               && v.deliveries[k].state.token == token && k.message == m;
      assert k == DeliveryKey(m, agent);
    }
    forall m, i | m in messages && i in v.invocations && v.invocations[i].key == DeliveryKey(m, agent)
      ensures v.invocations[i].attempt < v.deliveries[DeliveryKey(m, agent)].attempt
      ensures v.invocations[i].token != token
    {
      assert AttemptRow(u, i);
    }
  }

  /** A recovered store in which `token` is the one UUID issued and not yet used. */
  ghost predicate ReadyToLease(u: Tables, agent: Id, token: Id, now: Time) {
    && Inv(u) && u.nextId == token + 1 && TokensBelow(u, token)
    && (forall i | i in u.invocations && u.invocations[i].key.agent == agent && !u.invocations[i].state.Terminal? ::
          u.invocations[i].expiry > now)
  }

  lemma RecoveredForLease(t: Tables, agent: Id, now: Time)
    requires Inv(t) && Recover(t.(nextId := t.nextId + 1), agent, now).Ok?
    ensures ReadyToLease(Recover(t.(nextId := t.nextId + 1), agent, now).value.0, agent, t.nextId, now)
  {
    var issued := t.(nextId := t.nextId + 1);
    TokensIssued(t);
    IssueKeeps(t);
    assert TokensBelow(issued, t.nextId);
    RecoveredIssued(issued, agent, now, t.nextId);
  }

  lemma RecoveredIssued(issued: Tables, agent: Id, now: Time, token: Id)
    requires Inv(issued) && issued.nextId == token + 1 && TokensBelow(issued, token) && Recover(issued, agent, now).Ok?
    ensures ReadyToLease(Recover(issued, agent, now).value.0, agent, token, now)
  {
    RecoveryExactly(issued, agent, now);
    NothingExpiredRemains(issued, agent, now);
    RecoverTokens(issued, agent, now, token);
  }

  /** The store and the rows to reserve once a claim leased them. */
  ghost predicate LeasedBatch(v: Tables, agent: Id, token: Id, expiry: Time) {
    && Inv(v) && v.nextId == token + 1
    && ReadyToReserve(v, agent, Ascending(K.LeasedSeqs(v, agent, token)), token, expiry)
  }

  lemma LeaseBatch(u: Tables, agent: Id, token: Id, expiry: Time, now: Time, limit: nat, kinds: Option<set<Text>>)
    requires ReadyToLease(u, agent, token, now)
    ensures LeasedBatch(K.LeaseClaimable(u, agent, token, expiry, now, limit, kinds), agent, token, expiry)
  {
    LeaseAfterRecovery(u, agent, token, expiry, now, limit, kinds);
    LeasedAreReady(u, agent, token, expiry, now, limit, kinds);
  }

  lemma LeaseRecoveredBatch(recovery: Result<(Tables, nat)>, agent: Id, token: Id, input: ClaimInput, now: Time)
    requires recovery.Ok? && ReadyToLease(recovery.value.0, agent, token, now)
    ensures LeaseRecovered(recovery, agent, token, input, now).Ok?
    ensures LeasedBatch(LeaseRecovered(recovery, agent, token, input, now).value, agent, token, now + input.duration)
  {
    LeaseBatch(recovery.value.0, agent, token, now + input.duration, now, input.limit, input.kinds);
  }

  lemma RecoverThenLeaseKeeps(t: Tables, agent: Id, input: ClaimInput, now: Time)
    requires Inv(t) && RecoverThenLease(t, agent, input, now).Ok?
    ensures LeasedBatch(RecoverThenLease(t, agent, input, now).value, agent, t.nextId, now + input.duration)
  {
    RecoveredForLease(t, agent, now);
    LeaseRecoveredBatch(Recover(t.(nextId := t.nextId + 1), agent, now), agent, t.nextId, input, now);
  }

  // ---- one attempt per leased row --------------------------------------------------------------------

  lemma ReserveOne(t: Tables, k: DeliveryKey, token: Id, expiry: Time, now: Time)
    requires Inv(t) && k in t.deliveries && t.deliveries[k].state == Leased(token, expiry)
    requires forall i | i in t.invocations && t.invocations[i].key == k ::
               t.invocations[i].attempt < t.deliveries[k].attempt && t.invocations[i].token != token
    ensures ReserveRow(t, k, token, expiry, now).Ok?
    ensures Inv(ReserveRow(t, k, token, expiry, now).value)
  {
    ReserveRowKeeps(t, k, token, expiry, now);
    var u := ReserveRow(t, k, token, expiry, now).value;
    assert t.nextId in t.invocations ==> AttemptRow(t, t.nextId);
    QuietKeeps(t, u);
  }

  lemma RestReady(t: Tables, agent: Id, messages: seq<nat>, token: Id, expiry: Time, now: Time)
    requires messages != [] && ReadyToReserve(t, agent, messages, token, expiry)
    requires t.nextId !in t.invocations
    requires ReserveRow(t, DeliveryKey(messages[0], agent), token, expiry, now).Ok?
    ensures ReadyToReserve(ReserveRow(t, DeliveryKey(messages[0], agent), token, expiry, now).value, agent, messages[1..],
                           token, expiry)
  {
    var u := ReserveRow(t, DeliveryKey(messages[0], agent), token, expiry, now).value;
    var rest := messages[1..];
    forall x, y | 0 <= x < y < |rest|
      ensures rest[x] != rest[y]
    {
      assert messages[x + 1] != messages[y + 1];
    }
    forall m | m in rest
      ensures m != messages[0] && m in messages
    {
      var x :| 0 <= x < |rest| && rest[x] == m;
      assert messages[0] != messages[x + 1];
    }
  }

  /** The unique-key checks of the attempt table never fire. */
  lemma {:induction false} ReserveRowsKeep(t: Tables, agent: Id, messages: seq<nat>, token: Id, expiry: Time, now: Time)
    requires Inv(t) && ReadyToReserve(t, agent, messages, token, expiry)
    ensures ReserveRows(t, agent, messages, token, expiry, now).Ok?
    ensures Inv(ReserveRows(t, agent, messages, token, expiry, now).value)
    decreases |messages|
  {
    if messages != [] {
      var k := DeliveryKey(messages[0], agent);
      ReserveOne(t, k, token, expiry, now);
      assert t.nextId in t.invocations ==> AttemptRow(t, t.nextId);
      RestReady(t, agent, messages, token, expiry, now);
      ReserveRowsKeep(ReserveRow(t, k, token, expiry, now).value, agent, messages[1..], token, expiry, now);
    }
  }

  /** A reservation succeeds exactly when its claim does, and keeps the invariant. */
  lemma ReserveKeeps(t: Tables, agent: Id, input: ClaimInput, now: Time)
    requires Inv(t)
    ensures ReserveInvocations(t, agent, input, now).Ok?
            <==> (input.kinds.Some? ==> input.kinds.value != {}) && RecoverThenLease(t, agent, input, now).Ok?
    ensures ReserveInvocations(t, agent, input, now).Ok? ==> Inv(ReserveInvocations(t, agent, input, now).value)
  {
    if RecoverThenLease(t, agent, input, now).Ok? {
      RecoverThenLeaseKeeps(t, agent, input, now);
    }
    ReserveFrom(t, agent, input, now);
  }

  lemma ReserveFrom(t: Tables, agent: Id, input: ClaimInput, now: Time)
    requires RecoverThenLease(t, agent, input, now).Ok? ==>
               LeasedBatch(RecoverThenLease(t, agent, input, now).value, agent, t.nextId, now + input.duration)
    ensures ReserveInvocations(t, agent, input, now).Ok?
            <==> (input.kinds.Some? ==> input.kinds.value != {}) && RecoverThenLease(t, agent, input, now).Ok?
    ensures ReserveInvocations(t, agent, input, now).Ok? ==> Inv(ReserveInvocations(t, agent, input, now).value)
  {
    if RecoverThenLease(t, agent, input, now).Ok? {
      ReserveBatch(RecoverThenLease(t, agent, input, now), agent, t.nextId, now + input.duration, now);
    }
  }

  lemma ReserveBatch(lease: Result<Tables>, agent: Id, token: Id, expiry: Time, now: Time)
    requires lease.Ok? && LeasedBatch(lease.value, agent, token, expiry)
    ensures ReserveLeased(lease, agent, token, expiry, now).Ok?
    ensures Inv(ReserveLeased(lease, agent, token, expiry, now).value)
  {
    ReserveRowsKeep(lease.value, agent, Ascending(K.LeasedSeqs(lease.value, agent, token)), token, expiry, now);
  }

  // ---- what a reservation returns ------------------------------------------------------------------------

  /** A new attempt of the leased row, with the row's attempt number, the lease's expiry and a fence of its own. */
  predicate FreshAttempt(t: Tables, u: Tables, i: Id, k: DeliveryKey, token: Id, expiry: Time, now: Time) {
    && i in u.invocations && i !in t.invocations && k in u.deliveries
    && u.invocations[i] == Invocation(k, u.deliveries[k].attempt, token, expiry, u.invocations[i].fence, Reserved, now)
    && u.invocations[i].fence >= t.nextId && u.invocations[i].fence != i
  }

  /** Every listed row gets a reserved attempt, and earlier attempts stay as they were. */
  lemma {:induction false} ReserveRowsCover(t: Tables, agent: Id, messages: seq<nat>, token: Id, expiry: Time, now: Time)
    requires Inv(t) && ReadyToReserve(t, agent, messages, token, expiry)
    ensures ReserveRows(t, agent, messages, token, expiry, now).Ok?
    ensures var u := ReserveRows(t, agent, messages, token, expiry, now).value;
            && u == t.(invocations := u.invocations, nextId := u.nextId)
            && (forall i | i in t.invocations :: i in u.invocations && u.invocations[i] == t.invocations[i])
            && t.nextId <= u.nextId
            && (forall m | m in messages :: exists i :: FreshAttempt(t, u, i, DeliveryKey(m, agent), token, expiry, now))
    decreases |messages|
  {
    if messages != [] {
      var k := DeliveryKey(messages[0], agent);
      ReserveOne(t, k, token, expiry, now);
      assert t.nextId in t.invocations ==> AttemptRow(t, t.nextId);
      RestReady(t, agent, messages, token, expiry, now);
      var reserved := ReserveRow(t, k, token, expiry, now).value;
      ReserveRowsCover(reserved, agent, messages[1..], token, expiry, now);
      var u := ReserveRows(t, agent, messages, token, expiry, now).value;
      assert FreshAttempt(t, u, t.nextId, k, token, expiry, now);
      forall m | m in messages
        ensures exists i :: FreshAttempt(t, u, i, DeliveryKey(m, agent), token, expiry, now)
      {
        if m != messages[0] {
          assert m in messages[1..];
          var i :| FreshAttempt(reserved, u, i, DeliveryKey(m, agent), token, expiry, now);
          assert FreshAttempt(t, u, i, DeliveryKey(m, agent), token, expiry, now);
        }
      }
    }
  }

  lemma ReserveBatchCovers(lease: Result<Tables>, agent: Id, token: Id, expiry: Time, now: Time, k: DeliveryKey)
    requires lease.Ok? && LeasedBatch(lease.value, agent, token, expiry)
    requires k.agent == agent && K.Holds(lease.value, k, token)
    ensures ReserveLeased(lease, agent, token, expiry, now).Ok?
    ensures ReserveLeased(lease, agent, token, expiry, now).value.deliveries == lease.value.deliveries
    ensures exists i :: FreshAttempt(lease.value, ReserveLeased(lease, agent, token, expiry, now).value, i, k, token, expiry, now)
  {
    var t := lease.value;
    var rows := K.LeasedSeqs(t, agent, token);
    ReserveRowsCover(t, agent, Ascending(rows), token, expiry, now);
    ListedAreRows(Ascending(rows), rows, Unkeyed(rows));
    assert k.message in rows;
    assert k == DeliveryKey(k.message, agent);
  }

  /** After a reservation, a row leased under its token has one open attempt, and it is reserved. */
  lemma ReservationFencesLease(t: Tables, agent: Id, input: ClaimInput, now: Time, expiry: Time, k: DeliveryKey)
    requires expiry == now + input.duration
    requires Inv(t) && ReserveInvocations(t, agent, input, now).Ok?
    requires k.agent == agent && K.Holds(RecoverThenLease(t, agent, input, now).value, k, t.nextId)
    ensures var u := ReserveInvocations(t, agent, input, now).value;
            exists i :: FreshAttempt(RecoverThenLease(t, agent, input, now).value, u, i, k, t.nextId, expiry, now)
                        && forall j | j in u.invocations && S.OpenUnder(u.invocations[j], k, t.nextId) :: j == i
  {
    RecoverThenLeaseKeeps(t, agent, input, now);
    ReservationCovers(t, agent, input, now, expiry, k);
    ReserveKeeps(t, agent, input, now);
    OneReserved(RecoverThenLease(t, agent, input, now).value, ReserveInvocations(t, agent, input, now).value, k, t.nextId,
                expiry, now);
  }

  lemma ReservationCovers(t: Tables, agent: Id, input: ClaimInput, now: Time, expiry: Time, k: DeliveryKey)
    requires expiry == now + input.duration
    requires RecoverThenLease(t, agent, input, now).Ok? && ReserveInvocations(t, agent, input, now).Ok?
    requires LeasedBatch(RecoverThenLease(t, agent, input, now).value, agent, t.nextId, now + input.duration)
    requires k.agent == agent && K.Holds(RecoverThenLease(t, agent, input, now).value, k, t.nextId)
    ensures exists i :: FreshAttempt(RecoverThenLease(t, agent, input, now).value,
                                     ReserveInvocations(t, agent, input, now).value, i, k, t.nextId, expiry, now)
  {
    ReserveBatchCovers(RecoverThenLease(t, agent, input, now), agent, t.nextId, now + input.duration, now, k);
  }

  lemma OneReserved(v: Tables, u: Tables, k: DeliveryKey, token: Id, expiry: Time, now: Time)
    requires Inv(u) && exists i :: FreshAttempt(v, u, i, k, token, expiry, now)
    ensures exists i :: FreshAttempt(v, u, i, k, token, expiry, now)
                        && forall j | j in u.invocations && S.OpenUnder(u.invocations[j], k, token) :: j == i
  {
    var i :| FreshAttempt(v, u, i, k, token, expiry, now);
    forall j | j in u.invocations && S.OpenUnder(u.invocations[j], k, token)
      ensures j == i
    {
      assert AttemptPair(u, i, j);
    }
  }

  /** A claim puts its fresh token on the oldest eligible rows, and on no others. */
  lemma LeasedExactly(u: Tables, agent: Id, token: Id, expiry: Time, now: Time, limit: nat, kinds: Option<set<Text>>,
                      k: DeliveryKey)
    requires ReadyToLease(u, agent, token, now) && k in u.deliveries
    ensures var v := K.LeaseClaimable(u, agent, token, expiry, now, limit, kinds);
            && k in v.deliveries
            && (K.Holds(v, k, token) <==> k in K.Oldest(K.ClaimableKeys(u, agent, now, kinds), limit))
            && (K.Holds(v, k, token) ==>
                  v.deliveries[k].state == Leased(token, expiry) && v.deliveries[k].attempt == u.deliveries[k].attempt + 1)
            && (!K.Holds(v, k, token) ==> v.deliveries[k] == u.deliveries[k])
  {
  }

  /** What a claim leases, by age: at most `limit` rows, and never a row while an older eligible one waits. */
  lemma ClaimTakesOldest(u: Tables, agent: Id, token: Id, expiry: Time, now: Time, limit: nat, kinds: Option<set<Text>>,
                         k: DeliveryKey, l: DeliveryKey)
    requires ReadyToLease(u, agent, token, now) && k in u.deliveries
    requires l in K.ClaimableKeys(u, agent, now, kinds) && l.message <= k.message
    requires K.Holds(K.LeaseClaimable(u, agent, token, expiry, now, limit, kinds), k, token)
    ensures K.Holds(K.LeaseClaimable(u, agent, token, expiry, now, limit, kinds), l, token)
  {
    LeasedExactly(u, agent, token, expiry, now, limit, kinds, k);
    LeasedExactly(u, agent, token, expiry, now, limit, kinds, l);
    OldestIsPrefix(K.ClaimableKeys(u, agent, now, kinds), limit);
  }
}
