/**
 Session lanes and owner fencing: acquisition by adoption or rotation, the bound
 turn of an invocation, and retirement.
 */
module SessionBindings {
  import opened Wrappers
  import opened Tables
  import opened Ordering
  import opened SessionTurns
  import I = Invocations

  const MAX_REASON_BYTES := 4_096

  // ---- lanes -------------------------------------------------------------------------

  /** One row sorts before another by generation, then by binding id. */
  predicate Below(a: BindingKey, b: BindingKey) {
    a.generation < b.generation || (a.generation == b.generation && a.id <= b.id)
  }

  lemma {:induction false} LatestExists(keys: set<BindingKey>)
    requires keys != {}
    ensures exists r :: r in keys && forall k | k in keys :: Below(k, r)
    decreases keys
  {
    var x :| x in keys;
    if z :| z in keys && !Below(z, x) {
      var rest := keys - {x};
      assert z in rest;
      LatestExists(rest);
      var y :| y in rest && forall k | k in rest :: Below(k, y);
      var r := if Below(x, y) then y else x;
      forall k | k in keys
        ensures Below(k, r)
      {
        assert k == x || k in rest;
      }
      assert r in keys;
    }
  }

  function Latest(keys: set<BindingKey>): (r: BindingKey)
    requires keys != {}
    ensures r in keys && forall k | k in keys :: Below(k, r)
  {
    LatestExists(keys);
    var r :| r in keys && forall k | k in keys :: Below(k, r);
    r
  }

  function LaneRows(t: Tables, lane: Lane): set<BindingKey> {
    set k <- t.bindings.Keys | t.bindings[k].lane == lane
  }

  function CurrentRows(t: Tables, lane: Lane): set<BindingKey> {
    set k <- t.bindings.Keys | t.bindings[k].lane == lane && !t.bindings[k].state.Retired?
  }

  // ---- acquisition -------------------------------------------------------------------

  datatype AcquireInput = AcquireInput(lane: Lane, owner: Id, config: Configuration)

  datatype Mode = Create | Resume(sessionRef: Id)

  datatype Acquisition = Acquisition(handle: Handle, mode: Mode)

  function InsertBinding(t: Tables, k: BindingKey, input: AcquireInput): Result<(Tables, Acquisition)> {
    if k.generation == 0 || k.generation > I64_MAX then Err(Invalid) else
    :- Need(k !in t.bindings && CurrentRows(t, input.lane) == {}, FleetError.Persistence);
    Ok((t.(bindings := t.bindings[k := Binding(input.lane, 1, input.owner, input.config, None, Opening,
                                                None, None, None, None)]),
        Acquisition(Handle(k.id, k.generation, 1), Create)))
  }

  function InsertAfterLatestRetired(t: Tables, input: AcquireInput): Result<(Tables, Acquisition)> {
    var rows := LaneRows(t, input.lane);
    if rows == {} then InsertBinding(t.(nextId := t.nextId + 1), BindingKey(t.nextId, 1), input)
    else
      var latest := Latest(rows);
      :- Need(t.bindings[latest].state.Retired?, Conflict);
      InsertBinding(t, BindingKey(latest.id, latest.generation + 1), input)
  }

  function RetireRow(b: Binding, reason: Text): Binding {
    b.(state := Retired, active := None, retiredReason := Some(reason))
  }

  /** Retires the current generation and opens the next one. */
  function Rotate(t: Tables, k: BindingKey, input: AcquireInput, reason: Text): Result<(Tables, Acquisition)>
    requires k in t.bindings
  {
    if !(t.bindings[k].state.Opening? || t.bindings[k].state.Ready?) then Err(Conflict) else
    InsertBinding(t.(bindings := t.bindings[k := RetireRow(t.bindings[k], reason)]),
                  BindingKey(k.id, k.generation + 1), input)
  }

  /** Takes over a compatible ready session under the next owner epoch. */
  function Adopt(t: Tables, k: BindingKey, owner: Id): Result<(Tables, Acquisition)>
    requires k in t.bindings
  {
    var b := t.bindings[k];
    :- Need(b.epoch + 1 <= I64_MAX, Invalid);
    :- Need(b.state.Ready?, Conflict);
    :- Need(b.sessionRef.Some?, Invalid);
    Ok((t.(bindings := t.bindings[k := b.(epoch := b.epoch + 1, owner := owner)]),
        Acquisition(Handle(k.id, k.generation, b.epoch + 1), Resume(b.sessionRef.value))))
  }

  function AcquireExisting(t: Tables, k: BindingKey, input: AcquireInput): Result<(Tables, Acquisition)>
    requires k in t.bindings
  {
    var b := t.bindings[k];
    var own := Handle(k.id, k.generation, b.epoch);
    if b.owner == input.owner then
      :- Need(b.config == input.config, Conflict);
      if b.state.Opening? then Ok((t, Acquisition(own, Create)))
      else
        :- Need(b.state.Ready?, Conflict);
        :- Need(b.sessionRef.Some?, Invalid);
        Ok((t, Acquisition(own, Resume(b.sessionRef.value))))
    else if b.state.Opening? then Rotate(t, k, input, "opening_superseded_by_new_owner")
    else if b.state.Ready? then
      if b.config == input.config then Adopt(t, k, input.owner)
      else Rotate(t, k, input, "incompatible_profile_rotation")
    else Err(Conflict)
  }

  function AcquireSessionBinding(t: Tables, input: AcquireInput): Result<(Tables, Acquisition)> {
    if input.lane.agent !in t.agents then Err(NotFound) else
    var current := CurrentRows(t, input.lane);
    if current == {} then InsertAfterLatestRetired(t, input)
    else AcquireExisting(t, Latest(current), input)
  }

  // ---- calls under a handle -------------------------------------------------------------

  predicate ValidHandle(h: Handle) {
    0 < h.generation <= I64_MAX && 0 < h.epoch <= I64_MAX
  }

  function OwnedRow(t: Tables, agent: Id, h: Handle): Result<Binding> {
    if !ValidHandle(h) then Err(Invalid) else
    :- Need(h.Key() in t.bindings && t.bindings[h.Key()].lane.agent == agent, NotFound);
    :- Need(t.bindings[h.Key()].epoch == h.epoch, LeaseConflict);
    Ok(t.bindings[h.Key()])
  }

  /** Persists the native session reference before any prompt is armed. */
  function RecordSessionOpened(t: Tables, agent: Id, h: Handle, sessionRef: Id): Result<Tables> {
    var b :- OwnedRow(t, agent, h);
    if b.state.Opening? then
      Ok(t.(bindings := t.bindings[h.Key() := b.(state := Ready, sessionRef := Some(sessionRef))]))
    else
      :- Need(b.state.Ready? && b.sessionRef == Some(sessionRef), Conflict);
      Ok(t)
  }

  /** Binds the armed attempt to the exact owner of the session. */
  function ActivateTurn(t: Tables, agent: Id, i: Id, h: Handle): Result<Tables> {
    if i in t.turns then
      :- Need(t.turns[i] == Turn(h.Key(), h.epoch, TurnActive), Conflict);
      Ok(t)
    else
      :- Need(OwnerFence(t, agent, h) && t.bindings[h.Key()].state.Ready? && t.bindings[h.Key()].active.None?, Conflict);
      Ok(t.(turns := t.turns[i := Turn(h.Key(), h.epoch, TurnActive)],
            bindings := t.bindings[h.Key() := t.bindings[h.Key()].(state := Active, active := Some(i))]))
  }

  /** Opens the attempt's observation row under a live plugin generation. */
  function BeginObservation(t: Tables, agent: Id, i: Id, generation: Id): Result<Tables> {
    if !(generation in t.generations && t.generations[generation] == PluginGeneration(agent, true)) then Err(Conflict) else
    :- Need(i !in t.observed, Conflict);
    Ok(t.(observed := t.observed + {i}))
  }

  function ArmSessionInvocation(t: Tables, agent: Id, i: Id, h: Handle, sessionRef: Id, generation: Id,
                                input: I.ArmInput, now: Time): Result<Tables>
  {
    var b :- OwnedRow(t, agent, h);
    :- Need(b.sessionRef == Some(sessionRef), LeaseConflict);
    :- Need((b.state.Ready? && b.active.None?) || (b.state.Active? && b.active == Some(i)), Conflict);
    BindArmed(I.ArmInvocation(t, agent, i, input, now), agent, i, h, generation)
  }

  function BindArmed(arm: Result<Tables>, agent: Id, i: Id, h: Handle, generation: Id): Result<Tables> {
    var armed :- arm;
    var bound :- ActivateTurn(armed, agent, i, h);
    BeginObservation(bound, agent, i, generation)
  }

  /** The handle owns the turn of this attempt, or repeats its completion. */
  function ValidateBoundTurn(t: Tables, agent: Id, i: Id, h: Handle, quiescentReplay: bool): Guard {
    if i !in t.turns then Stop(NotFound)
    else if t.turns[i].binding != h.Key() || t.turns[i].epoch != h.epoch then Stop(LeaseConflict)
    else if quiescentReplay && t.turns[i].state.TurnQuiescent? then Pass
    else
      var row := OwnedRow(t, agent, h);
      if row.Err? then Stop(row.error)
      else Need((row.value.state.Active? || row.value.state.Uncertain?) && row.value.active == Some(i), Conflict)
  }

  function SettleQuiescentTurn(t: Tables, agent: Id, i: Id, h: Handle, persistence: Persistence): Result<Tables> {
    if i !in t.turns then Err(NotFound) else
    if t.turns[i].state.TurnQuiescent? then
      :- Need(t.turns[i].state.persistence == persistence, Conflict);
      Ok(t)
    else
      :- Need(t.turns[i].state.TurnActive?, Conflict);
      :- Need(OwnerFence(t, agent, h)
              && t.bindings[h.Key()].state.Active?
              && t.bindings[h.Key()].active == Some(i), Conflict);
      Ok(t.(turns := t.turns[i := t.turns[i].(state := TurnQuiescent(persistence))],
            bindings := t.bindings[h.Key() := t.bindings[h.Key()].(
                          state := Ready, active := None, lastQuiescent := Some(i))]))
  }

  /** Publishes the result, acknowledges the input, and frees the session. */
  function CompleteSessionInvocation(t: Tables, agent: Id, i: Id, h: Handle, persistence: Persistence,
                                     input: I.CompleteInput, now: Time): Result<(Tables, bool)>
  {
    if !ValidHandle(h) then Err(Invalid) else
    :- ValidateBoundTurn(t, agent, i, h, true);
    FreeSession(I.CompleteInvocation(t, agent, i, input, now, true), agent, i, h, persistence)
  }

  function FreeSession(completed: Result<(Tables, bool)>, agent: Id, i: Id, h: Handle, persistence: Persistence)
    : Result<(Tables, bool)>
  {
    var completion :- completed;
    var settled :- SettleQuiescentTurn(completion.0, agent, i, h, persistence);
    Ok((settled, completion.1))
  }

  /** Fences an active session before its delivery is parked. */
  function MarkSessionUncertain(t: Tables, agent: Id, i: Id, h: Handle, reason: Text): Result<Tables> {
    if !ValidHandle(h) || !Bounded(reason, MAX_REASON_BYTES) then Err(Invalid) else
    :- ValidateBoundTurn(t, agent, i, h, false);
    :- Need(h.Key() in t.bindings, NotFound);
    var b := t.bindings[h.Key()];
    if b.state.Uncertain? then
      :- Need(b.uncertainReason == Some(reason), Conflict);
      Ok(t)
    else MarkTurnUncertain(t, agent, i, h, reason)
  }

  /** Retires a generation that has no active turn. */
  function RetireSessionBinding(t: Tables, agent: Id, h: Handle, reason: Text): Result<Tables> {
    if !Bounded(reason, MAX_REASON_BYTES) then Err(Invalid) else
    var b :- OwnedRow(t, agent, h);
    :- Need(!b.state.Active?, Conflict);
    if b.state.Retired? then
      :- Need(b.retiredReason == Some(reason), Conflict);
      Ok(t)
    else Ok(t.(bindings := t.bindings[h.Key() := RetireRow(b, reason)]))
  }

  // ---- operator recovery ------------------------------------------------------------------

  function OperatorReason(blockId: nat, how: Resolution): Text {
    "operator_resolved_delivery_block_" + Decimal(blockId) + (if how.Requeue? then "_requeued" else "_abandoned")
  }

  /** The bound attempts a block record speaks about. */
  function BlockedTurns(t: Tables, blockId: nat): set<Id>
    requires blockId in t.blocks
  {
    set i <- t.turns.Keys |
      && i in t.invocations
      && t.invocations[i].key == t.blocks[blockId].key
      && t.invocations[i].token == t.blocks[blockId].token
      && t.turns[i].binding in t.bindings
  }

  /** Retires the uncertain session of a block that the operator resolved. */
  function RetireForBlock(t: Tables, blockId: nat, how: Resolution): Result<Tables> {
    if blockId !in t.blocks then Err(NotFound) else
    var bound := BlockedTurns(t, blockId);
    if bound == {} then Ok(t)
    else
      var i := Least(bound);
      var k := t.turns[i].binding;
      var b := t.bindings[k];
      var reason := OperatorReason(blockId, how);
      if b.state.Retired? then
        :- Need(b.retiredReason == Some(reason), Conflict);
        Ok(t)
      else
        :- Need(t.invocations[i].Ended(OutcomeUnknown)
                && t.turns[i].state.TurnUncertain?
                && b.state.Uncertain?
                && b.active == Some(i), Conflict);
        Ok(t.(bindings := t.bindings[k := RetireRow(b, reason)]))
  }
}
