/**
 What every transaction keeps about session lanes, bound turns and results: a
 binding is active or uncertain exactly when it names the attempt whose turn says
 so under the same owner, generations of a lane are contiguous and all but the
 last retired, and a completed attempt's result answers its input.
 */
module SessionInvariant {
  import opened Wrappers
  import opened Tables
  import opened SessionBindings
  import opened SessionTurns
  import opened Ordering
  import I = Invocations
  import K = Kernel

  // ---- the invariant, row by row ---------------------------------------------------------

  ghost predicate BindingRow(t: Tables, k: BindingKey)
    requires k in t.bindings
  {
    var b := t.bindings[k];
    && k.id < t.nextId && k.generation >= 1 && b.epoch >= 1
    && (b.state.Active? || b.state.Uncertain? <==> b.active.Some?)
    && (b.active.Some? ==>
          && b.active.value in t.turns
          && t.turns[b.active.value].binding == k
          && t.turns[b.active.value].epoch == b.epoch
          && (b.state.Active? ==> t.turns[b.active.value].state.TurnActive?)
          && (b.state.Uncertain? ==>
                && t.turns[b.active.value].state.TurnUncertain?
                && b.uncertainReason == Some(t.turns[b.active.value].state.reason)))
    && (b.state.Opening? ==> b.sessionRef.None?)
    && (b.state.Ready? || b.state.Active? || b.state.Uncertain? ==> b.sessionRef.Some?)
    && (k.generation > 1 ==>
          && BindingKey(k.id, k.generation - 1) in t.bindings
          && t.bindings[BindingKey(k.id, k.generation - 1)].state.Retired?)
  }

  ghost predicate TurnRow(t: Tables, i: Id)
    requires i in t.turns
  {
    var turn := t.turns[i];
    && i in t.invocations
    && t.invocations[i].EverArmed()
    && turn.binding in t.bindings
    && t.bindings[turn.binding].lane.agent == t.invocations[i].key.agent
    && turn.epoch <= t.bindings[turn.binding].epoch
    && (turn.state.TurnActive? ==>
          && t.invocations[i].state.Armed?
          && t.bindings[turn.binding].state.Active?
          && t.bindings[turn.binding].active == Some(i)
          && t.bindings[turn.binding].epoch == turn.epoch)
    && (turn.state.TurnUncertain? ==>
          && (t.invocations[i].state.Armed? || t.invocations[i].Ended(OutcomeUnknown))
          && t.bindings[turn.binding].epoch == turn.epoch
          && (|| (t.bindings[turn.binding].state.Uncertain? && t.bindings[turn.binding].active == Some(i))
              || t.bindings[turn.binding].state.Retired?))
    && (turn.state.TurnQuiescent? ==> t.invocations[i].HasResult())
  }

  /** Two rows share a binding id exactly when they share a lane, and a superseded one is retired. */
  ghost predicate LanePair(t: Tables, k: BindingKey, l: BindingKey)
    requires k in t.bindings && l in t.bindings
  {
    && (k.id == l.id <==> t.bindings[k].lane == t.bindings[l].lane)
    && (k.id == l.id && k.generation < l.generation ==> t.bindings[k].state.Retired?)
  }

  ghost predicate LanesOrdered(t: Tables) {
    forall k, l {:trigger LanePair(t, k, l)} | k in t.bindings && l in t.bindings :: LanePair(t, k, l)
  }

  /** The published result answers the input message of attempt `i`. */
  predicate Answers(t: Tables, i: Id, result: nat)
    requires i in t.invocations
  {
    var key := t.invocations[i].key;
    && key.message in t.messages && result in t.messages
    && var source, m := t.messages[key.message], t.messages[result];
       && m.channel == source.channel
       && m.sender == key.agent
       && m.key == Some(ResultKey(i))
       && m.recipient == Some(source.sender)
       && m.correlation == source.correlation
       && m.causation == Some(key.message)
  }

  ghost predicate ResultsAnswer(t: Tables) {
    forall i {:trigger ResultRow(t, i)} | i in t.invocations :: ResultRow(t, i)
  }

  predicate ResultRow(t: Tables, i: Id)
    requires i in t.invocations
  {
    t.invocations[i].HasResult() ==> Answers(t, i, t.invocations[i].state.reason.result)
  }

  ghost predicate SessionInv(t: Tables) {
    && (forall k {:trigger BindingRow(t, k)} | k in t.bindings :: BindingRow(t, k))
    && (forall i {:trigger TurnRow(t, i)} | i in t.turns :: TurnRow(t, i))
    && t.observed <= t.turns.Keys
    && LanesOrdered(t)
    && ResultsAnswer(t)
  }

  // ---- attempts and messages move, sessions do not -------------------------------------------

  /** How an attempt may move without its session noticing. */
  ghost predicate QuietMove(t: Tables, u: Tables, i: Id)
    requires i in t.invocations && i in u.invocations
  {
    || u.invocations[i] == t.invocations[i]
    || (&& u.invocations[i].key == t.invocations[i].key
        && (u.invocations[i].HasResult() ==> i !in t.turns && Answers(u, i, u.invocations[i].state.reason.result))
        && (i in t.turns ==>
              && t.turns[i].state.TurnUncertain?
              && t.invocations[i].state.Armed?
              && u.invocations[i].Ended(OutcomeUnknown) && u.invocations[i].EverArmed()))
  }

  lemma QuietKeeps(t: Tables, u: Tables)
    requires SessionInv(t)
    requires u.bindings == t.bindings && u.turns == t.turns && u.observed == t.observed
    requires t.nextId <= u.nextId
    requires forall m | m in t.messages :: m in u.messages && u.messages[m] == t.messages[m]
    requires t.invocations.Keys <= u.invocations.Keys
    requires forall i | i in t.invocations :: QuietMove(t, u, i)
    requires forall i | i in u.invocations && i !in t.invocations :: !u.invocations[i].HasResult()
    ensures SessionInv(u)
  {
    forall k | k in u.bindings
      ensures BindingRow(u, k)
    {
      assert BindingRow(t, k);
    }
    forall i | i in u.turns
      ensures TurnRow(u, i)
    {
      assert TurnRow(t, i);
      assert QuietMove(t, u, i);
    }
    forall i | i in u.invocations
      ensures ResultRow(u, i)
    {
      if i in t.invocations {
        assert QuietMove(t, u, i) && ResultRow(t, i);
      }
    }
    forall k, l | k in u.bindings && l in u.bindings
      ensures LanePair(u, k, l)
    {
      assert LanePair(t, k, l);
    }
  }

  // ---- one binding row and at most one turn move ----------------------------------------------

  /** Only row `k` of the bindings and the turn of `i` differ. */
  ghost predicate OnlyMoved(t: Tables, u: Tables, k: BindingKey, i: Id) {
    && k in t.bindings
    && u.bindings.Keys == t.bindings.Keys
    && (forall l | l in t.bindings && l != k :: u.bindings[l] == t.bindings[l])
    && u.bindings[k].lane == t.bindings[k].lane
    && t.turns.Keys <= u.turns.Keys <= t.turns.Keys + {i}
    && (forall j | j in t.turns && j != i :: u.turns[j] == t.turns[j])
    && (i in u.turns ==> u.turns[i].binding == k)
    && (i in t.turns ==> t.turns[i].binding == k)
  }

  /** Messages are only appended, and only attempt `i` may have moved; a result it gained answers. */
  ghost predicate AttemptMoved(t: Tables, u: Tables, i: Id) {
    && (forall m | m in t.messages :: m in u.messages && u.messages[m] == t.messages[m])
    && u.invocations.Keys == t.invocations.Keys
    && (forall j | j in t.invocations && j != i :: u.invocations[j] == t.invocations[j])
    && (i in t.invocations ==>
          && u.invocations[i].key == t.invocations[i].key
          && (u.invocations[i] == t.invocations[i]
              || (u.invocations[i].HasResult() ==> Answers(u, i, u.invocations[i].state.reason.result))))
  }

  lemma LanesAfterMove(t: Tables, u: Tables, k: BindingKey, i: Id)
    requires LanesOrdered(t) && OnlyMoved(t, u, k, i)
    requires t.bindings[k].state.Retired? ==> u.bindings[k].state.Retired?
    ensures LanesOrdered(u)
  {
    forall l, m | l in u.bindings && m in u.bindings
      ensures LanePair(u, l, m)
    {
      assert LanePair(t, l, m);
    }
  }

  /** Other bindings keep their rows: they name other turns, and `k` stays retired if it was. */
  lemma OtherBindingRow(t: Tables, u: Tables, k: BindingKey, i: Id, l: BindingKey)
    requires OnlyMoved(t, u, k, i) && t.nextId <= u.nextId
    requires l in t.bindings && l != k && BindingRow(t, l)
    requires t.bindings[k].state.Retired? ==> u.bindings[k].state.Retired?
    ensures BindingRow(u, l)
  {
  }

  /** Rows `k` and `i` being right, and `k` keeping every other turn it carries, suffices. */
  lemma MoveKeeps(t: Tables, u: Tables, k: BindingKey, i: Id)
    requires SessionInv(t) && OnlyMoved(t, u, k, i) && AttemptMoved(t, u, i)
    requires t.nextId <= u.nextId
    requires u.observed <= u.turns.Keys
    requires t.bindings[k].state.Retired? ==> u.bindings[k].state.Retired?
    requires BindingRow(u, k)
    requires i in u.turns ==> TurnRow(u, i)
    requires forall j | j in t.turns && j != i && t.turns[j].binding == k :: TurnRow(u, j)
    ensures SessionInv(u)
  {
    LanesAfterMove(t, u, k, i);
    forall l | l in u.bindings
      ensures BindingRow(u, l)
    {
      if l != k {
        assert BindingRow(t, l);
        OtherBindingRow(t, u, k, i, l);
      }
    }
    forall j | j in u.turns
      ensures TurnRow(u, j)
    {
      if j != i {
        assert TurnRow(t, j);
      }
    }
    forall j | j in u.invocations
      ensures ResultRow(u, j)
    {
      if u.invocations[j] == t.invocations[j] {
        assert ResultRow(t, j);
      }
    }
  }

  /** A turn on a ready or opening row is quiescent, so moving the row does not disturb it. */
  lemma IdleTurn(t: Tables, u: Tables, k: BindingKey, i: Id, j: Id)
    requires OnlyMoved(t, u, k, i) && AttemptMoved(t, u, i)
    requires j in t.turns && j != i && t.turns[j].binding == k && TurnRow(t, j)
    requires BindingRow(t, k)
    requires t.bindings[k].state.Opening? || t.bindings[k].state.Ready? || t.bindings[k].active == Some(i)
    requires t.bindings[k].epoch <= u.bindings[k].epoch
    ensures TurnRow(u, j)
  {
  }

  /** Moving an idle row, or the row whose turn is `i`, together with that turn. */
  lemma BoundMoveKeeps(t: Tables, u: Tables, k: BindingKey, i: Id)
    requires SessionInv(t) && OnlyMoved(t, u, k, i) && AttemptMoved(t, u, i)
    requires t.nextId <= u.nextId
    requires u.observed == t.observed
    requires t.bindings[k].state.Opening? || t.bindings[k].state.Ready? || t.bindings[k].active == Some(i)
    requires t.bindings[k].epoch <= u.bindings[k].epoch
    requires BindingRow(u, k)
    requires i in u.turns ==> TurnRow(u, i)
    ensures SessionInv(u)
  {
    assert BindingRow(t, k);
    forall j | j in t.turns && j != i && t.turns[j].binding == k
      ensures TurnRow(u, j)
    {
      assert TurnRow(t, j);
      IdleTurn(t, u, k, i, j);
    }
    MoveKeeps(t, u, k, i);
  }

  lemma OpenedKeeps(t: Tables, agent: Id, h: Handle, sessionRef: Id)
    requires SessionInv(t) && RecordSessionOpened(t, agent, h, sessionRef).Ok?
    ensures SessionInv(RecordSessionOpened(t, agent, h, sessionRef).value)
  {
    var u := RecordSessionOpened(t, agent, h, sessionRef).value;
    if t.bindings[h.Key()].state.Opening? {
      assert BindingRow(t, h.Key());
      IdleMoveKeeps(t, u, h.Key());
    }
  }

  /** Moving an opening or ready row, with no turn involved. */
  lemma IdleMoveKeeps(t: Tables, u: Tables, k: BindingKey)
    requires SessionInv(t) && k in t.bindings && k in u.bindings
    requires u == t.(bindings := t.bindings[k := u.bindings[k]])
    requires t.bindings[k].state.Opening? || t.bindings[k].state.Ready?
    requires u.bindings[k].lane == t.bindings[k].lane && t.bindings[k].epoch <= u.bindings[k].epoch
    requires u.bindings[k].active.None? && !u.bindings[k].state.Active? && !u.bindings[k].state.Uncertain?
    requires u.bindings[k].state.Opening? ==> u.bindings[k].sessionRef.None?
    requires u.bindings[k].state.Ready? ==> u.bindings[k].sessionRef.Some?
    ensures SessionInv(u)
  {
    var i: Id :| i !in t.turns by {
      FreshTurn(t.turns.Keys);
    }
    assert BindingRow(t, k);
    assert BindingRow(u, k);
    BoundMoveKeeps(t, u, k, i);
  }

  lemma FreshTurn(s: set<Id>)
    ensures exists i: Id :: i !in s
  {
    var bound := Bound(s);
    assert bound !in s;
  }

  ghost function Bound(s: set<Id>): (b: nat)
    ensures forall i | i in s :: i < b
  {
    if s == {} then 0
    else
      var x :| x in s;
      var rest := Bound(s - {x});
      assert forall i | i in s :: i == x || i in s - {x};
      if rest > x then rest else x + 1
  }

  // ---- retirement -------------------------------------------------------------------------------

  lemma RetireKeeps(t: Tables, k: BindingKey, reason: Text)
    requires SessionInv(t) && k in t.bindings && !t.bindings[k].state.Active?
    ensures SessionInv(t.(bindings := t.bindings[k := RetireRow(t.bindings[k], reason)]))
  {
    var u := t.(bindings := t.bindings[k := RetireRow(t.bindings[k], reason)]);
    assert BindingRow(t, k);
    if t.bindings[k].active.Some? {
      var i := t.bindings[k].active.value;
      assert TurnRow(t, i);
      BoundMoveKeeps(t, u, k, i);
    } else if t.bindings[k].state.Retired? {
      RetiredAgain(t, u, k);
    } else {
      IdleMoveKeeps(t, u, k);
    }
  }

  lemma RetiredAgain(t: Tables, u: Tables, k: BindingKey)
    requires SessionInv(t) && k in t.bindings && k in u.bindings
    requires u == t.(bindings := t.bindings[k := u.bindings[k]])
    requires t.bindings[k].state.Retired?
    requires u.bindings[k] == t.bindings[k].(retiredReason := u.bindings[k].retiredReason)
    ensures SessionInv(u)
  {
    FreshTurn(t.turns.Keys);
    var i: Id :| i !in t.turns;
    assert BindingRow(t, k);
    forall j | j in t.turns && t.turns[j].binding == k
      ensures TurnRow(u, j)
    {
      assert TurnRow(t, j);
    }
    MoveKeeps(t, u, k, i);
  }

  lemma RetireForBlockKeeps(t: Tables, blockId: nat, how: Resolution)
    requires SessionInv(t) && RetireForBlock(t, blockId, how).Ok?
    ensures SessionInv(RetireForBlock(t, blockId, how).value)
  {
    var bound := BlockedTurns(t, blockId);
    if bound != {} {
      var i := Least(bound);
      var k := t.turns[i].binding;
      if !t.bindings[k].state.Retired? {
        RetireKeeps(t, k, OperatorReason(blockId, how));
      }
    }
  }

  // ---- the bound turn ------------------------------------------------------------------------------

  /** The two rows an activation or an uncertainty mark writes, from the rows it read. */
  lemma BoundRows(t: Tables, u: Tables, k: BindingKey, i: Id)
    requires k in t.bindings && BindingRow(t, k) && k in u.bindings && i in u.turns
    requires u.bindings == t.bindings[k := u.bindings[k]] && u.turns == t.turns[i := u.turns[i]]
    requires u.invocations == t.invocations && u.nextId == t.nextId
    requires i in t.invocations && t.invocations[i].state.Armed? && t.invocations[i].key.agent == t.bindings[k].lane.agent
    requires !t.bindings[k].state.Opening? && !t.bindings[k].state.Retired?
    requires u.turns[i].binding == k && u.turns[i].epoch == t.bindings[k].epoch
    requires u.bindings[k] == t.bindings[k].(state := u.bindings[k].state, active := Some(i),
                                             uncertainReason := u.bindings[k].uncertainReason)
    requires || (u.bindings[k].state.Active? && u.turns[i].state.TurnActive?)
             || (u.bindings[k].state.Uncertain? && u.turns[i].state.TurnUncertain?
                 && u.bindings[k].uncertainReason == Some(u.turns[i].state.reason))
    ensures BindingRow(u, k) && TurnRow(u, i)
  {
  }

  lemma ActivateKeeps(t: Tables, agent: Id, i: Id, h: Handle)
    requires SessionInv(t) && ActivateTurn(t, agent, i, h).Ok?
    requires i in t.invocations && t.invocations[i].state.Armed? && t.invocations[i].key.agent == agent
    ensures SessionInv(ActivateTurn(t, agent, i, h).value)
  {
    var u := ActivateTurn(t, agent, i, h).value;
    var k := h.Key();
    if i !in t.turns {
      assert BindingRow(t, k);
      BoundRows(t, u, k, i);
      BoundMoveKeeps(t, u, k, i);
    }
  }

  lemma MarkUncertainKeeps(t: Tables, agent: Id, i: Id, h: Handle, reason: Text)
    requires SessionInv(t) && MarkTurnUncertain(t, agent, i, h, reason).Ok?
    ensures SessionInv(MarkTurnUncertain(t, agent, i, h, reason).value)
    ensures MarkTurnUncertain(t, agent, i, h, reason).value.turns[i].state.TurnUncertain?
  {
    var u := MarkTurnUncertain(t, agent, i, h, reason).value;
    var k := h.Key();
    assert TurnRow(t, i);
    assert BindingRow(t, k);
    BoundRows(t, u, k, i);
    BoundMoveKeeps(t, u, k, i);
  }

  // ---- acquisition -----------------------------------------------------------------------------------

  lemma InsertKeeps(t: Tables, k: BindingKey, input: AcquireInput)
    requires SessionInv(t) && InsertBinding(t, k, input).Ok?
    requires k.id < t.nextId
    requires forall l | l in t.bindings ::
               && (l.id == k.id <==> t.bindings[l].lane == input.lane)
               && (l.id == k.id ==> l.generation < k.generation)
    requires k.generation > 1 ==> BindingKey(k.id, k.generation - 1) in t.bindings
    ensures SessionInv(InsertBinding(t, k, input).value.0)
  {
    var u := InsertBinding(t, k, input).value.0;
    forall l | l in t.bindings && l.id == k.id
      ensures t.bindings[l].state.Retired?
    {
      assert l !in CurrentRows(t, input.lane);
    }
    forall l | l in u.bindings
      ensures BindingRow(u, l)
    {
      if l != k {
        assert BindingRow(t, l);
        assert u.bindings[l] == t.bindings[l];
      }
    }
    forall i | i in u.turns
      ensures TurnRow(u, i)
    {
      assert TurnRow(t, i);
    }
    forall l, m | l in u.bindings && m in u.bindings
      ensures LanePair(u, l, m)
    {
      if l != k && m != k {
        assert LanePair(t, l, m);
      }
    }
    forall i | i in u.invocations
      ensures ResultRow(u, i)
    {
      assert ResultRow(t, i);
    }
  }

  lemma AcquireKeeps(t: Tables, input: AcquireInput)
    requires SessionInv(t) && AcquireSessionBinding(t, input).Ok?
    ensures SessionInv(AcquireSessionBinding(t, input).value.0)
  {
    var current := CurrentRows(t, input.lane);
    if current == {} {
      AcquireFreshKeeps(t, input);
    } else {
      AcquireExistingKeeps(t, Latest(current), input);
    }
  }

  lemma AcquireFreshKeeps(t: Tables, input: AcquireInput)
    requires SessionInv(t) && InsertAfterLatestRetired(t, input).Ok?
    ensures SessionInv(InsertAfterLatestRetired(t, input).value.0)
  {
    var rows := LaneRows(t, input.lane);
    if rows == {} {
      var issued := t.(nextId := t.nextId + 1);
      QuietKeeps(t, issued);
      forall l | l in t.bindings
        ensures l.id != t.nextId && t.bindings[l].lane != input.lane
      {
        assert BindingRow(t, l);
        assert l !in rows;
      }
      InsertKeeps(issued, BindingKey(t.nextId, 1), input);
    } else {
      var latest := Latest(rows);
      assert BindingRow(t, latest);
      NextGeneration(t, latest, input.lane);
      InsertKeeps(t, BindingKey(latest.id, latest.generation + 1), input);
    }
  }

  /** The generation after the latest row of a lane is new to that lane. */
  lemma NextGeneration(t: Tables, k: BindingKey, lane: Lane)
    requires LanesOrdered(t) && k in t.bindings && t.bindings[k].lane == lane
    requires forall l | l in t.bindings && t.bindings[l].lane == lane :: Below(l, k)
    ensures forall l | l in t.bindings ::
              && (l.id == k.id <==> t.bindings[l].lane == lane)
              && (l.id == k.id ==> l.generation < k.generation + 1)
  {
    forall l | l in t.bindings
      ensures l.id == k.id <==> t.bindings[l].lane == lane
      ensures l.id == k.id ==> l.generation < k.generation + 1
    {
      assert LanePair(t, l, k);
    }
  }

  lemma AcquireExistingKeeps(t: Tables, k: BindingKey, input: AcquireInput)
    requires SessionInv(t) && k in t.bindings && t.bindings[k].lane == input.lane && !t.bindings[k].state.Retired?
    requires AcquireExisting(t, k, input).Ok?
    ensures SessionInv(AcquireExisting(t, k, input).value.0)
  {
    var b := t.bindings[k];
    assert BindingRow(t, k);
    if b.owner != input.owner {
      if b.state.Ready? && b.config == input.config {
        IdleMoveKeeps(t, Adopt(t, k, input.owner).value.0, k);
      } else {
        var reason := if b.state.Opening? then "opening_superseded_by_new_owner" else "incompatible_profile_rotation";
        RotateKeeps(t, k, input, reason);
      }
    }
  }

  lemma RotateKeeps(t: Tables, k: BindingKey, input: AcquireInput, reason: Text)
    requires SessionInv(t) && k in t.bindings && t.bindings[k].lane == input.lane && !t.bindings[k].state.Retired?
    requires Rotate(t, k, input, reason).Ok?
    ensures SessionInv(Rotate(t, k, input, reason).value.0)
  {
    var retired := t.(bindings := t.bindings[k := RetireRow(t.bindings[k], reason)]);
    RetireKeeps(t, k, reason);
    assert BindingRow(t, k);
    forall l | l in t.bindings && t.bindings[l].lane == input.lane
      ensures Below(l, k)
    {
      assert LanePair(t, k, l);
    }
    NextGeneration(t, k, input.lane);
    InsertKeeps(retired, BindingKey(k.id, k.generation + 1), input);
  }
}
