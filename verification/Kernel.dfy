/**
 The delivery row's state machine and the message log, as the kernel crate
 exposes them to the layers above: each transition runs inside a transaction the
 caller owns.
 */
module Kernel {
  import opened Wrappers
  import opened Tables
  import opened Ordering

  const MAX_CLAIM_LIMIT := 100
  const MAX_LEASE_DURATION_MS := 3_600_000
  const MAX_RETRY_DELAY_MS := 86_400_000
  const MAX_ERROR_LENGTH := 4_096
  const MAX_IDEMPOTENCY_KEY_LENGTH := 256

  // ---- leasing -----------------------------------------------------------------

  predicate Claimable(d: Delivery, now: Time) {
    && d.availableAt <= now
    && (d.state.Pending? || (d.state.Leased? && d.state.expiry <= now))
  }

  /** The rows of one inbox that are eligible for a lease. */
  function ClaimableKeys(t: Tables, agent: Id, now: Time, kinds: Option<set<Text>>): set<DeliveryKey> {
    set k <- t.deliveries.Keys |
      && k.agent == agent
      && Claimable(t.deliveries[k], now)
      && k.message in t.messages
      && (kinds.Some? ==> t.messages[k.message].kind in kinds.value)
  }

  function MessagesOf(keys: set<DeliveryKey>): set<nat> {
    set k <- keys :: k.message
  }

  function Take(rows: seq<nat>, limit: nat): seq<nat> {
    if limit <= |rows| then rows[..limit] else rows
  }

  /** `ORDER BY message_seq LIMIT limit`. */
  ghost function Oldest(keys: set<DeliveryKey>, limit: nat): set<DeliveryKey> {
    var taken := Take(Ascending(MessagesOf(keys)), limit);
    set k <- keys | k.message in taken
  }

  function LeaseRows(t: Tables, keys: set<DeliveryKey>, token: Id, expiry: Time): Tables {
    t.(deliveries := map k <- t.deliveries ::
         if k in keys
         then t.deliveries[k].(state := Leased(token, expiry), attempt := t.deliveries[k].attempt + 1)
         else t.deliveries[k])
  }

  ghost function LeaseClaimable(t: Tables, agent: Id, token: Id, expiry: Time, now: Time, limit: nat,
                          kinds: Option<set<Text>>): Tables
  {
    LeaseRows(t, Oldest(ClaimableKeys(t, agent, now, kinds), limit), token, expiry)
  }

  /** The sequences one agent holds under one lease token. */
  function LeasedSeqs(t: Tables, agent: Id, token: Id): set<nat> {
    set k <- t.deliveries.Keys | k.agent == agent && t.deliveries[k].state.Leased? && t.deliveries[k].state.token == token
      :: k.message
  }

  predicate ValidClaim(limit: nat, duration: nat) {
    1 <= limit <= MAX_CLAIM_LIMIT && 1 <= duration <= MAX_LEASE_DURATION_MS
  }

  // ---- settlement of one leased row ---------------------------------------------

  /** The row is leased under exactly this token. */
  predicate Holds(t: Tables, k: DeliveryKey, token: Id) {
    k in t.deliveries && t.deliveries[k].state.Leased? && t.deliveries[k].state.token == token
  }

  predicate HoldsLive(t: Tables, k: DeliveryKey, token: Id, now: Time) {
    Holds(t, k, token) && t.deliveries[k].state.expiry > now
  }

  predicate HoldsExpired(t: Tables, k: DeliveryKey, token: Id, now: Time) {
    Holds(t, k, token) && t.deliveries[k].state.expiry <= now
  }

  function Acknowledge(t: Tables, k: DeliveryKey, token: Id): Tables
    requires k in t.deliveries
  {
    t.(deliveries := t.deliveries[k := t.deliveries[k].(
                       state := Acknowledged, lastSettled := Some((token, SettledAcknowledged)))])
  }

  function Release(t: Tables, k: DeliveryKey, token: Id, availableAt: Time, error: Option<Text>): Tables
    requires k in t.deliveries
  {
    t.(deliveries := t.deliveries[k := t.deliveries[k].(
                       state := Pending, availableAt := availableAt, lastError := error,
                       lastSettled := Some((token, SettledRetry)))])
  }

  function Park(t: Tables, k: DeliveryKey, token: Id, reason: Text): Tables
    requires k in t.deliveries
  {
    t.(deliveries := t.deliveries[k := t.deliveries[k].(
                       state := DeliveryState.Blocked, lastError := Some(reason),
                       lastSettled := Some((token, SettledBlocked)))])
  }

  /** A settlement that moved no row succeeds only as an exact repeat. */
  function SettleMiss(t: Tables, k: DeliveryKey, token: Id, settlement: Settlement): Result<Tables> {
    if k !in t.deliveries then Err(NotFound)
    else if t.deliveries[k].lastSettled == Some((token, settlement)) then Ok(t)
    else Err(LeaseConflict)
  }

  // ---- block evidence -------------------------------------------------------------

  /** `UNIQUE (message_seq, agent_id, lease_token)` on the block table. */
  function BlocksUnder(t: Tables, k: DeliveryKey, token: Id): set<nat> {
    set b <- t.blocks.Keys | t.blocks[b].key == k && t.blocks[b].token == token
  }

  function RecordBlock(t: Tables, k: DeliveryKey, attempt: nat, token: Id, reason: Text): Result<Tables> {
    if BlocksUnder(t, k, token) != {} then Err(FleetError.Persistence) else
    Ok(t.(blocks := t.blocks[t.nextBlock := Block(k, attempt, token, reason, None)], nextBlock := t.nextBlock + 1))
  }

  datatype ResolveInput = ResolveInput(how: Resolution, note: Option<Text>, retryAfter: nat)

  predicate ValidResolution(blockId: nat, input: ResolveInput) {
    && blockId > 0
    && input.retryAfter <= MAX_RETRY_DELAY_MS
    && (input.how.Abandon? ==> input.retryAfter == 0)
    && (input.note.Some? ==> Bounded(input.note.value, MAX_ERROR_LENGTH))
  }

  function ResolveDeliveryRow(d: Delivery, input: ResolveInput, now: Time): Delivery {
    d.(state := if input.how.Requeue? then Pending else Dead,
       availableAt := if input.how.Requeue? then now + input.retryAfter else d.availableAt,
       lastError := if input.note.Some? then input.note else d.lastError,
       lastSettled := None)
  }

  /** Applies one operator decision to the row and to its block evidence. */
  function ResolveBlock(t: Tables, blockId: nat, input: ResolveInput, now: Time): Result<Tables> {
    if !ValidResolution(blockId, input) then Err(Invalid) else
    :- Need(blockId in t.blocks && t.blocks[blockId].key in t.deliveries, NotFound);
    var b := t.blocks[blockId];
    var decision := Resolved(input.how, input.note, input.retryAfter);
    if b.resolved.Some? then
      :- Need(b.resolved == Some(decision), Conflict);
      Ok(t)
    else
      :- Need(t.deliveries[b.key].state.Blocked?, Conflict);
      :- Need(input.how.Requeue? ==> now + input.retryAfter <= I64_MAX, Invalid);
      Ok(t.(deliveries := t.deliveries[b.key := ResolveDeliveryRow(t.deliveries[b.key], input, now)],
            blocks := t.blocks[blockId := b.(resolved := Some(decision))]))
  }

  // ---- messages ---------------------------------------------------------------------

  /** The inbox members one message is delivered to. */
  function Recipients(c: Channel, m: Message): set<Id> {
    set a <- c.members.Keys |
      && c.members[a].Inbox?
      && (if m.recipient.Some? then a == m.recipient.value else a != m.sender)
  }

  function Snapshot(message: nat, recipients: set<Id>, now: Time): map<DeliveryKey, Delivery> {
    map a <- recipients :: DeliveryKey(message, a) := Delivery(Pending, 0, now, None, None)
  }

  /** Appends one immutable message with its delivery snapshot. */
  function InsertMessage(t: Tables, m: Message, now: Time): Result<Tables> {
    if m.channel !in t.channels then Err(NotFound) else
    var c := t.channels[m.channel];
    :- Need(!c.archived, Conflict);
    :- Need(m.sender in c.members, FleetError.NotMember);
    :- Need(m.recipient.Some? ==> m.recipient.value in c.members, FleetError.NotMember);
    Ok(t.(messages := t.messages[t.nextSeq := m],
          deliveries := t.deliveries + Snapshot(t.nextSeq, Recipients(c, m), now),
          nextSeq := t.nextSeq + 1))
  }

  /** The messages one sender stored under one idempotency key. */
  function KeyHolders(t: Tables, sender: Id, key: MessageKey): set<nat> {
    set s <- t.messages.Keys | t.messages[s].sender == sender && t.messages[s].key == Some(key)
  }

  /** Equality of everything an idempotent repeat must repeat. */
  predicate SameContent(a: Message, b: Message) {
    a.(key := None) == b.(key := None)
  }

  predicate ValidKey(key: Option<MessageKey>) {
    key.Some? && key.value.CallerKey? ==> Bounded(key.value.text, MAX_IDEMPOTENCY_KEY_LENGTH)
  }

  /** Appends a message, or recognises an exact repeat of its key. */
  function AppendMessage(t: Tables, m: Message, now: Time): Result<(Tables, bool)> {
    if Blank(m.kind) || !ValidKey(m.key) then Err(Invalid) else
    if m.key.Some? && KeyHolders(t, m.sender, m.key.value) != {} then
      :- Need(exists s <- KeyHolders(t, m.sender, m.key.value) :: SameContent(t.messages[s], m), Conflict);
      Ok((t, false))
    else
      var appended :- InsertMessage(t, m, now);
      Ok((appended, true))
  }
}
