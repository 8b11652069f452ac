/**
 What every call on session ownership answers, and exactly what it writes, told from
 the rows before the call: when an acquisition creates, resumes, adopts or rotates,
 and which owner may open, arm, complete, mark or retire.
 */
module SessionAnswers {
  import opened Wrappers
  import opened Tables
  import opened DeliveryInvariant
  import opened SessionInvariant
  import opened Recovery
  import A = DeliveryAnswers
  import I = Invocations
  import S = SessionTurns
  import B = SessionBindings
  import O = Ownership
  import P = ProtocolInvariant

  // ---- acquisition ------------------------------------------------------------------------------------

  predicate InLane(t: Tables, k: BindingKey, lane: Lane) {
    k in t.bindings && t.bindings[k].lane == lane
  }

  /** The lane's row in use. */
  predicate Current(t: Tables, k: BindingKey, lane: Lane) {
    InLane(t, k, lane) && !t.bindings[k].state.Retired?
  }

  /** Every row of the lane is retired, and `k` is the newest of them. */
  ghost predicate NewestRetired(t: Tables, k: BindingKey, lane: Lane) {
    InLane(t, k, lane) && forall l | InLane(t, l, lane) :: t.bindings[l].state.Retired? && l.generation <= k.generation
  }

  /** A generation nobody has opened yet. */
  function Opened(input: B.AcquireInput): Binding {
    Binding(lane := input.lane, epoch := 1, owner := input.owner, config := input.config, sessionRef := None,
            state := Opening, active := None, lastQuiescent := None, uncertainReason := None, retiredReason := None)
  }

  /** The next generation was opened, the row before it retired for this reason. */
  ghost predicate Rotated(t: Tables, k: BindingKey, input: B.AcquireInput, reason: Text,
                          r: Result<(Tables, B.Acquisition)>)
    requires k in t.bindings
  {
    if k.generation + 1 > I64_MAX then r == Err(Invalid)
    else
      var next := BindingKey(k.id, k.generation + 1);
      && next !in t.bindings
      && r == Ok((t.(bindings := t.bindings[k := t.bindings[k].(state := Retired, active := None,
                                                                retiredReason := Some(reason))][next := Opened(input)]),
                  B.Acquisition(Handle(k.id, k.generation + 1, 1), B.Create)))
  }

  /** The same generation went to the caller under the next epoch, with the session it has. */
  ghost predicate Adopted(t: Tables, k: BindingKey, input: B.AcquireInput, r: Result<(Tables, B.Acquisition)>)
    requires k in t.bindings
  {
    var b := t.bindings[k];
    if b.epoch + 1 > I64_MAX then r == Err(Invalid)
    else
      && b.sessionRef.Some?
      && r == Ok((t.(bindings := t.bindings[k := b.(epoch := b.epoch + 1, owner := input.owner)]),
                  B.Acquisition(Handle(k.id, k.generation, b.epoch + 1), B.Resume(b.sessionRef.value))))
  }

  /** What acquiring a lane with a row in use answers, by owner, state and configuration of that row. */
  ghost predicate AnswersFor(t: Tables, k: BindingKey, input: B.AcquireInput, r: Result<(Tables, B.Acquisition)>)
    requires k in t.bindings
  {
    var b := t.bindings[k];
    match b.state
    case Opening =>
      if b.owner != input.owner then Rotated(t, k, input, "opening_superseded_by_new_owner", r)
      else r == if b.config == input.config then Ok((t, B.Acquisition(Handle(k.id, k.generation, b.epoch), B.Create)))
                else Err(Conflict)
    case Ready =>
      if b.owner != input.owner && b.config == input.config then Adopted(t, k, input, r)
      else if b.owner != input.owner then Rotated(t, k, input, "incompatible_profile_rotation", r)
      else b.sessionRef.Some?
           && r == if b.config == input.config
                   then Ok((t, B.Acquisition(Handle(k.id, k.generation, b.epoch), B.Resume(b.sessionRef.value))))
                   else Err(Conflict)
    case _ => r == Err(Conflict)
  }

  /**
   Another owner adopts a ready session of its own configuration and replaces one
   that is opening or of another configuration; the same owner gets what it has; an
   active or uncertain session is refused; a lane without a row in use gets its next
   generation.
   */
  lemma AcquireExactly(t: Tables, input: B.AcquireInput)
    requires Inv(t)
    ensures input.lane.agent !in t.agents ==> B.AcquireSessionBinding(t, input) == Err(NotFound)
    ensures input.lane.agent in t.agents && (forall k :: !InLane(t, k, input.lane)) ==>
              B.AcquireSessionBinding(t, input)
              == Ok((t.(bindings := t.bindings[BindingKey(t.nextId, 1) := Opened(input)], nextId := t.nextId + 1),
                     B.Acquisition(Handle(t.nextId, 1, 1), B.Create)))
    ensures input.lane.agent in t.agents ==>
              forall k | NewestRetired(t, k, input.lane) ::
                B.AcquireSessionBinding(t, input)
                == if k.generation + 1 > I64_MAX then Err(Invalid)
                   else Ok((t.(bindings := t.bindings[BindingKey(k.id, k.generation + 1) := Opened(input)]),
                            B.Acquisition(Handle(k.id, k.generation + 1, 1), B.Create)))
    ensures input.lane.agent in t.agents ==>
              forall k | Current(t, k, input.lane) :: AnswersFor(t, k, input, B.AcquireSessionBinding(t, input))
  {
    if input.lane.agent in t.agents {
      if forall k :: !InLane(t, k, input.lane) {
        AcquireFirst(t, input);
      }
      forall k | NewestRetired(t, k, input.lane)
        ensures B.AcquireSessionBinding(t, input)
                == if k.generation + 1 > I64_MAX then Err(Invalid)
                   else Ok((t.(bindings := t.bindings[BindingKey(k.id, k.generation + 1) := Opened(input)]),
                            B.Acquisition(Handle(k.id, k.generation + 1, 1), B.Create)))
      {
        AcquireNext(t, k, input);
      }
      forall k | Current(t, k, input.lane)
        ensures AnswersFor(t, k, input, B.AcquireSessionBinding(t, input))
      {
        AcquireCurrent(t, k, input);
      }
    }
  }

  /** Every lane is in exactly one of the three situations. */
  lemma {:induction false} LaneSituations(t: Tables, lane: Lane)
    requires Inv(t)
    ensures || (forall k :: !InLane(t, k, lane))
            || (exists k :: NewestRetired(t, k, lane))
            || (exists k :: Current(t, k, lane))
    ensures forall k, l | Current(t, k, lane) :: (Current(t, l, lane) ==> k == l) && !NewestRetired(t, l, lane)
  {
    forall k, l | Current(t, k, lane)
      ensures Current(t, l, lane) ==> k == l
    {
      if Current(t, l, lane) {
        O.LaneHasOneCurrentRow(t, k, l);
      }
    }
    var rows := B.LaneRows(t, lane);
    assert forall k :: InLane(t, k, lane) <==> k in rows;
    if rows != {} && forall k :: !Current(t, k, lane) {
      forall l | InLane(t, l, lane)
        ensures t.bindings[l].state.Retired?
      {
        assert !Current(t, l, lane);
      }
      LatestIsNewest(t, lane, B.Latest(rows));
      assert NewestRetired(t, B.Latest(rows), lane);
    }
  }

  /** Of the rows of one lane the latest has the highest generation. */
  lemma LatestIsNewest(t: Tables, lane: Lane, k: BindingKey)
    requires Inv(t) && InLane(t, k, lane) && forall l | InLane(t, l, lane) :: B.Below(l, k)
    ensures forall l | InLane(t, l, lane) :: l.id == k.id && l.generation <= k.generation
  {
    forall l | InLane(t, l, lane)
      ensures l.id == k.id && l.generation <= k.generation
    {
      O.LaneHasOneCurrentRow(t, l, k);
    }
  }

  lemma AcquireFirst(t: Tables, input: B.AcquireInput)
    requires Inv(t) && input.lane.agent in t.agents && forall k :: !InLane(t, k, input.lane)
    ensures B.AcquireSessionBinding(t, input)
            == Ok((t.(bindings := t.bindings[BindingKey(t.nextId, 1) := Opened(input)], nextId := t.nextId + 1),
                   B.Acquisition(Handle(t.nextId, 1, 1), B.Create)))
  {
    assert BindingKey(t.nextId, 1) in t.bindings ==> BindingRow(t, BindingKey(t.nextId, 1));
    var rows := B.LaneRows(t, input.lane);
    assert forall k :: k in rows ==> InLane(t, k, input.lane);
    assert rows == {};
    assert B.CurrentRows(t.(nextId := t.nextId + 1), input.lane) == {};
  }

  lemma AcquireNext(t: Tables, k: BindingKey, input: B.AcquireInput)
    requires Inv(t) && input.lane.agent in t.agents && NewestRetired(t, k, input.lane)
    ensures B.AcquireSessionBinding(t, input)
            == if k.generation + 1 > I64_MAX then Err(Invalid)
               else Ok((t.(bindings := t.bindings[BindingKey(k.id, k.generation + 1) := Opened(input)]),
                        B.Acquisition(Handle(k.id, k.generation + 1, 1), B.Create)))
  {
    var rows := B.LaneRows(t, input.lane);
    assert forall l :: InLane(t, l, input.lane) <==> l in rows;
    assert B.CurrentRows(t, input.lane) == {};
    var latest := B.Latest(rows);
    LatestIsNewest(t, input.lane, latest);
    O.LaneHasOneCurrentRow(t, k, latest);
    assert latest == k;
    NextIsFree(t, k, input.lane);
  }

  lemma NextIsFree(t: Tables, k: BindingKey, lane: Lane)
    requires Inv(t) && InLane(t, k, lane) && forall l | InLane(t, l, lane) :: l.generation <= k.generation
    ensures BindingKey(k.id, k.generation + 1) !in t.bindings
  {
    var next := BindingKey(k.id, k.generation + 1);
    assert next in t.bindings ==> LanePair(t, k, next) && InLane(t, next, lane);
  }

  lemma CurrentIsNewest(t: Tables, k: BindingKey, lane: Lane)
    requires Inv(t) && Current(t, k, lane)
    ensures B.CurrentRows(t, lane) == {k}
    ensures BindingKey(k.id, k.generation + 1) !in t.bindings
  {
    forall l | l in B.CurrentRows(t, lane)
      ensures l == k
    {
      O.LaneHasOneCurrentRow(t, k, l);
    }
    forall l | InLane(t, l, lane)
      ensures l.generation <= k.generation
    {
      assert LanePair(t, k, l);
    }
    NextIsFree(t, k, lane);
  }

  lemma AcquireCurrent(t: Tables, k: BindingKey, input: B.AcquireInput)
    requires Inv(t) && input.lane.agent in t.agents && Current(t, k, input.lane)
    ensures AnswersFor(t, k, input, B.AcquireSessionBinding(t, input))
  {
    CurrentIsNewest(t, k, input.lane);
    assert B.Latest({k}) == k && B.AcquireSessionBinding(t, input) == B.AcquireExisting(t, k, input);
    assert BindingRow(t, k);
    ExistingAnswers(t, k, input);
  }

  lemma ExistingAnswers(t: Tables, k: BindingKey, input: B.AcquireInput)
    requires k in t.bindings && B.CurrentRows(t, input.lane) == {k} && BindingKey(k.id, k.generation + 1) !in t.bindings
    requires t.bindings[k].state.Ready? ==> t.bindings[k].sessionRef.Some?
    ensures AnswersFor(t, k, input, B.AcquireExisting(t, k, input))
  {
    var b := t.bindings[k];
    if b.owner != input.owner && (b.state.Opening? || (b.state.Ready? && b.config != input.config)) {
      RotateAnswers(t, k, input, if b.state.Opening? then "opening_superseded_by_new_owner" else "incompatible_profile_rotation");
    }
  }

  lemma RotateAnswers(t: Tables, k: BindingKey, input: B.AcquireInput, reason: Text)
    requires k in t.bindings && B.CurrentRows(t, input.lane) == {k} && BindingKey(k.id, k.generation + 1) !in t.bindings
    requires t.bindings[k].state.Opening? || t.bindings[k].state.Ready?
    ensures Rotated(t, k, input, reason, B.Rotate(t, k, input, reason))
  {
    var b := t.bindings[k];
    var closed := t.(bindings := t.bindings[k := b.(state := Retired, active := None, retiredReason := Some(reason))]);
    forall l
      ensures l !in B.CurrentRows(closed, input.lane)
    {
      assert l in B.CurrentRows(closed, input.lane) ==> l in B.CurrentRows(t, input.lane);
    }
    assert B.CurrentRows(closed, input.lane) == {};
  }

  // ---- the exact owner -------------------------------------------------------------------------------------

  predicate HandleInRange(h: Handle) {
    1 <= h.generation <= I64_MAX && 1 <= h.epoch <= I64_MAX
  }

  /** The handle names a row of this agent at its present epoch. */
  predicate Owner(t: Tables, agent: Id, h: Handle) {
    && HandleInRange(h) && h.Key() in t.bindings
    && t.bindings[h.Key()].lane.agent == agent && t.bindings[h.Key()].epoch == h.epoch
  }

  lemma OwnedExactly(t: Tables, agent: Id, h: Handle)
    ensures B.OwnedRow(t, agent, h).Ok? <==> Owner(t, agent, h)
    ensures Owner(t, agent, h) ==> B.OwnedRow(t, agent, h).value == t.bindings[h.Key()]
  {
  }

  /** The native reference is stored once, by the owner of an opening session; repeating the same one is recognised. */
  lemma OpenedExactly(t: Tables, agent: Id, h: Handle, sessionRef: Id)
    ensures B.RecordSessionOpened(t, agent, h, sessionRef).Ok? <==>
              && Owner(t, agent, h)
              && var b := t.bindings[h.Key()];
                 b.state.Opening? || (b.state.Ready? && b.sessionRef == Some(sessionRef))
    ensures B.RecordSessionOpened(t, agent, h, sessionRef).Ok? ==>
              B.RecordSessionOpened(t, agent, h, sessionRef).value
              == if t.bindings[h.Key()].state.Ready? then t
                 else t.(bindings := t.bindings[h.Key() := t.bindings[h.Key()].(state := Ready, sessionRef := Some(sessionRef))])
  {
    OwnedExactly(t, agent, h);
  }

  /** A session without an active turn is retired by its owner, once, for one reason. */
  lemma RetireExactly(t: Tables, agent: Id, h: Handle, reason: Text)
    ensures B.RetireSessionBinding(t, agent, h, reason).Ok? <==>
              && A.SaysWhy(reason) && Owner(t, agent, h)
              && var b := t.bindings[h.Key()];
                 !b.state.Active? && (b.state.Retired? ==> b.retiredReason == Some(reason))
    ensures B.RetireSessionBinding(t, agent, h, reason).Ok? ==>
              B.RetireSessionBinding(t, agent, h, reason).value
              == if t.bindings[h.Key()].state.Retired? then t
                 else t.(bindings := t.bindings[h.Key() := t.bindings[h.Key()].(state := Retired, active := None,
                                                                                retiredReason := Some(reason))])
  {
    OwnedExactly(t, agent, h);
  }

  /** The attempt runs, or ran, under this handle. */
  predicate RunsUnder(t: Tables, i: Id, h: Handle) {
    i in t.turns && t.turns[i].binding == h.Key() && t.turns[i].epoch == h.epoch
  }

  /**
   A turn is marked uncertain exactly while it is active under this handle; the same
   mark is recognised until the session is retired.
   */
  lemma MarkExactly(t: Tables, agent: Id, i: Id, h: Handle, reason: Text)
    requires Inv(t)
    ensures B.MarkSessionUncertain(t, agent, i, h, reason).Ok? <==>
              && A.SaysWhy(reason) && Owner(t, agent, h) && RunsUnder(t, i, h)
              && (t.turns[i].state.TurnActive?
                  || (t.turns[i].state == TurnUncertain(reason) && !t.bindings[h.Key()].state.Retired?))
    ensures B.MarkSessionUncertain(t, agent, i, h, reason).Ok? ==>
              B.MarkSessionUncertain(t, agent, i, h, reason).value
              == if t.turns[i].state.TurnUncertain? then t
                 else t.(turns := t.turns[i := Turn(h.Key(), h.epoch, TurnUncertain(reason))],
                         bindings := t.bindings[h.Key() := t.bindings[h.Key()].(state := Uncertain,
                                                                                uncertainReason := Some(reason))])
  {
    OwnedExactly(t, agent, h);
    if RunsUnder(t, i, h) {
      assert TurnRow(t, i) && BindingRow(t, h.Key());
    }
  }

  // ---- arming through a session --------------------------------------------------------------------------------

  /** The plugin generation is alive and of this agent. */
  predicate Alive(t: Tables, agent: Id, generation: Id) {
    generation in t.generations && t.generations[generation].agent == agent && t.generations[generation].active
  }

  /** The attempt may pass the dispatch fence now. */
  predicate Armable(t: Tables, agent: Id, i: Id, arm: I.ArmInput, now: Time) {
    && A.Presented(t, agent, i, arm.token, arm.fence) && now < t.invocations[i].expiry
    && (t.invocations[i].state.Reserved? || t.invocations[i].state.Armed?)
  }

  /**
   A session arms an attempt exactly when its owner names the session's reference and
   a live plugin generation, the attempt may pass the fence, and the session is
   ready, or already runs this attempt without an observation row.
   */
  lemma ArmSessionExactly(t: Tables, agent: Id, i: Id, h: Handle, sessionRef: Id, generation: Id, arm: I.ArmInput, now: Time)
    requires Inv(t)
    ensures B.ArmSessionInvocation(t, agent, i, h, sessionRef, generation, arm, now).Ok? <==>
              && Owner(t, agent, h) && t.bindings[h.Key()].sessionRef == Some(sessionRef)
              && Armable(t, agent, i, arm, now) && Alive(t, agent, generation)
              && (if i in t.turns then RunsUnder(t, i, h) && t.turns[i].state.TurnActive? && i !in t.observed
                  else t.bindings[h.Key()].state.Ready?)
    ensures B.ArmSessionInvocation(t, agent, i, h, sessionRef, generation, arm, now).Ok? ==>
              B.ArmSessionInvocation(t, agent, i, h, sessionRef, generation, arm, now).value
              == t.(invocations := if t.invocations[i].state.Armed? then t.invocations
                                   else t.invocations[i := t.invocations[i].(state := Armed(now))],
                    turns := t.turns[i := Turn(h.Key(), h.epoch, TurnActive)],
                    bindings := t.bindings[h.Key() := t.bindings[h.Key()].(state := Active, active := Some(i))],
                    observed := t.observed + {i})
  {
    OwnedExactly(t, agent, h);
    A.ArmExactly(t, agent, i, arm, now);
    if Owner(t, agent, h) {
      assert BindingRow(t, h.Key());
      if i in t.turns {
        assert TurnRow(t, i);
      }
      if I.ArmInvocation(t, agent, i, arm, now).Ok? {
        BindExactly(t, I.ArmInvocation(t, agent, i, arm, now).value, agent, i, h, generation);
      }
    }
  }

  /** Binding and observing, on tables that differ from `t` in the attempt only. */
  lemma BindExactly(t: Tables, armed: Tables, agent: Id, i: Id, h: Handle, generation: Id)
    requires armed == t.(invocations := armed.invocations) && Owner(t, agent, h) && t.observed <= t.turns.Keys
    requires t.bindings[h.Key()].state.Ready? ==> t.bindings[h.Key()].active.None?
    requires i in t.turns && RunsUnder(t, i, h) && t.turns[i].state.TurnActive? ==>
               t.bindings[h.Key()].state.Active? && t.bindings[h.Key()].active == Some(i)
    ensures B.BindArmed(Ok(armed), agent, i, h, generation).Ok? <==>
              && Alive(t, agent, generation)
              && (if i in t.turns then RunsUnder(t, i, h) && t.turns[i].state.TurnActive? && i !in t.observed
                  else t.bindings[h.Key()].state.Ready?)
    ensures B.BindArmed(Ok(armed), agent, i, h, generation).Ok? ==>
              B.BindArmed(Ok(armed), agent, i, h, generation).value
              == armed.(turns := t.turns[i := Turn(h.Key(), h.epoch, TurnActive)],
                        bindings := t.bindings[h.Key() := t.bindings[h.Key()].(state := Active, active := Some(i))],
                        observed := t.observed + {i})
  {
  }

  // ---- completing through a session ---------------------------------------------------------------------------------

  /** The completion as outside a session, and the turn and its session are settled with it. */
  ghost predicate CompletedOn(t: Tables, u: Tables, i: Id, h: Handle, p: Persistence, input: I.CompleteInput, now: Time) {
    && h.Key() in t.bindings
    && A.CompletedBy(t, u.(turns := t.turns, bindings := t.bindings), i, input, now)
    && u.turns == t.turns[i := Turn(h.Key(), h.epoch, TurnQuiescent(p))]
    && u.bindings == t.bindings[h.Key() := t.bindings[h.Key()].(state := Ready, active := None, lastQuiescent := Some(i))]
  }

  /**
   A session completes an attempt exactly while its turn is active under this handle
   and the attempt is completable; a settled turn recognises exactly the result and
   persistence it was settled with; an uncertain turn is never completed.
   */
  lemma CompleteSessionExactly(t: Tables, agent: Id, i: Id, h: Handle, p: Persistence, input: I.CompleteInput, now: Time)
    requires Inv(t)
    ensures B.CompleteSessionInvocation(t, agent, i, h, p, input, now).Ok? <==>
              && HandleInRange(h) && RunsUnder(t, i, h) && !Blank(input.kind)
              && A.Presented(t, agent, i, input.token, input.fence)
              && (match t.turns[i].state
                  case TurnActive => A.Completable(t, agent, i, input, now)
                  case TurnQuiescent(was) => was == p && P.ResultSays(t, i, input.kind, input.payload)
                  case TurnUncertain(_) => false)
    ensures B.CompleteSessionInvocation(t, agent, i, h, p, input, now).Ok? ==>
              var r := B.CompleteSessionInvocation(t, agent, i, h, p, input, now).value;
              if t.turns[i].state.TurnActive? then r.1 && CompletedOn(t, r.0, i, h, p, input, now) else r == (t, false)
  {
    OwnedExactly(t, agent, h);
    if RunsUnder(t, i, h) {
      assert TurnRow(t, i) && BindingRow(t, h.Key());
      if !Blank(input.kind) && A.Presented(t, agent, i, input.token, input.fence) {
        A.CompleteExactly(t, agent, i, input, now, true);
      }
      if I.CompleteInvocation(t, agent, i, input, now, true).Ok? {
        A.CompleteNeeds(t, agent, i, input, now, true);
      }
    }
  }
}
