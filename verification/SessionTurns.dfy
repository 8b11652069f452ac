/**
 The part of session ownership that delivery settlement and expiry recovery
 consult: the turn bound to an invocation, and how it is fenced uncertain.
 */
module SessionTurns {
  import opened Wrappers
  import opened Tables

  /** A settled-elsewhere turn blocks completion outside its binding fence. */
  predicate ActiveOnSession(t: Tables, i: Id) {
    i in t.turns && (t.turns[i].state.TurnActive? || t.turns[i].state.TurnUncertain?)
  }

  /** The attempt that currently fences one delivery lease. */
  predicate OpenUnder(inv: Invocation, k: DeliveryKey, token: Id) {
    inv.key == k && inv.token == token && !inv.state.Terminal?
  }

  /** May a plain delivery settlement end the attempt holding this lease? */
  predicate BoundTurnAllowsSettlement(t: Tables, k: DeliveryKey, token: Id, blocking: bool) {
    forall i | i in t.invocations && OpenUnder(t.invocations[i], k, token) && i in t.turns ::
      t.turns[i].state.TurnQuiescent? || (t.turns[i].state.TurnUncertain? && blocking)
  }

  /** The four columns every write to a binding row has to match. */
  predicate OwnerFence(t: Tables, agent: Id, h: Handle) {
    && h.Key() in t.bindings
    && t.bindings[h.Key()].lane.agent == agent
    && t.bindings[h.Key()].epoch == h.epoch
  }

  function MarkTurnUncertain(t: Tables, agent: Id, i: Id, h: Handle, reason: Text): Result<Tables> {
    if !(i in t.turns && t.turns[i].state.TurnActive?) then Err(Conflict) else
    :- Need(OwnerFence(t, agent, h)
            && t.bindings[h.Key()].state.Active?
            && t.bindings[h.Key()].active == Some(i), Conflict);
    Ok(t.(turns := t.turns[i := t.turns[i].(state := TurnUncertain(reason))],
          bindings := t.bindings[h.Key() := t.bindings[h.Key()].(
                        state := Uncertain, uncertainReason := Some(reason))]))
  }

  /** Fences the session of an expired armed attempt, when it has one. */
  function MarkExpiredTurnUncertain(t: Tables, i: Id, reason: Text): Result<Tables> {
    if i !in t.turns || t.turns[i].binding !in t.bindings then Ok(t)
    else
      var turn := t.turns[i];
      var b := t.bindings[turn.binding];
      :- Need(b.active == Some(i), Conflict);
      if turn.state.TurnUncertain? && b.state.Uncertain? then Ok(t)
      else
        :- Need(turn.state.TurnActive? && b.state.Active?, Conflict);
        MarkTurnUncertain(t, b.lane.agent, i, Handle(turn.binding.id, turn.binding.generation, turn.epoch), reason)
  }
}
