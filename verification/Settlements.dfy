/**
 Delivery settlement composed with the invocation fence: a delivery and the
 attempt fencing it settle together or not at all.
 */
module Settlements {
  import opened Wrappers
  import opened Tables
  import opened Invocations
  import opened Ordering
  import K = Kernel
  import B = SessionBindings

  /** Leases deliveries without creating managed attempts. */
  ghost function ClaimDeliveries(t: Tables, agent: Id, input: ClaimInput, now: Time): Result<Tables> {
    if !(K.ValidClaim(input.limit, input.duration) && now + input.duration <= I64_MAX) then Err(Invalid) else
    RecoverThenLease(t, agent, input.(kinds := None), now)
  }

  function AcknowledgeDelivery(t: Tables, k: DeliveryKey, token: Id, now: Time): Result<Tables> {
    if K.HoldsLive(t, k, token, now)
    then Terminalize(K.Acknowledge(t, k, token), k, token, OutcomeKnown, AcknowledgedBy, now)
    else K.SettleMiss(t, k, token, SettledAcknowledged)
  }

  datatype RetryInput = RetryInput(token: Id, retryAfter: nat, error: Option<Text>)

  predicate ValidRetry(input: RetryInput) {
    && input.retryAfter <= K.MAX_RETRY_DELAY_MS
    && (input.error.Some? ==> |input.error.value| <= K.MAX_ERROR_LENGTH)
  }

  function RetryDelivery(t: Tables, k: DeliveryKey, input: RetryInput, now: Time): Result<Tables> {
    if !ValidRetry(input) then Err(Invalid) else
    :- Need(now + input.retryAfter <= I64_MAX, Invalid);
    :- Need(RetryIsSafe(t, k, input.token), Conflict);
    if K.HoldsLive(t, k, input.token, now)
    then Terminalize(K.Release(t, k, input.token, now + input.retryAfter, input.error),
                     k, input.token, NotStarted, RetriedBy, now)
    else K.SettleMiss(t, k, input.token, SettledRetry)
  }

  datatype BlockInput = BlockInput(token: Id, reason: Text)

  /** Parks a delivery; the block record id and whether it was created now. */
  function BlockDelivery(t: Tables, k: DeliveryKey, input: BlockInput, now: Time): Result<(Tables, nat, bool)> {
    if !Bounded(input.reason, K.MAX_ERROR_LENGTH) then Err(Invalid) else
    if K.HoldsLive(t, k, input.token, now) then
      var parked := K.Park(t, k, input.token, input.reason);
      var evidenced :- K.RecordBlock(parked, k, t.deliveries[k].attempt, input.token, input.reason);
      var ended :- Terminalize(evidenced, k, input.token, OutcomeUnknown, BlockedBy, now);
      Ok((ended, t.nextBlock, true))
    else if K.BlocksUnder(t, k, input.token) != {} then
      var b := Least(K.BlocksUnder(t, k, input.token));
      :- Need(t.blocks[b].reason == input.reason, Conflict);
      Ok((t, b, false))
    else
      var _ :- K.SettleMiss(t, k, input.token, SettledBlocked);
      Err(LeaseConflict)
  }

  function Parked(r: Result<(Tables, nat, bool)>): Result<Tables> {
    var done :- r;
    Ok(done.0)
  }

  /** One operator decision: the delivery row and the session it concerns. */
  function ResolveDeliveryBlock(t: Tables, blockId: nat, input: K.ResolveInput, now: Time): Result<Tables> {
    RetireResolved(K.ResolveBlock(t, blockId, input, now), blockId, input.how)
  }

  function RetireResolved(resolution: Result<Tables>, blockId: nat, how: Resolution): Result<Tables> {
    var resolved :- resolution;
    B.RetireForBlock(resolved, blockId, how)
  }
}
