/**
 Session ownership over whole runs: a replaced owner is fenced for good, lanes
 are contiguous histories whose (generation, epoch) only rises, an uncertain
 generation never carries another turn, and a session turn is armed once.
 */
module Ownership {
  import opened Wrappers
  import opened Tables
  import opened Protocol
  import opened DeliveryInvariant
  import opened SessionInvariant
  import opened Recovery
  import opened Evolution
  import opened Runs
  import I = Invocations
  import S = SessionTurns
  import B = SessionBindings
  import P = ProtocolInvariant

  // ---- stale handles -------------------------------------------------------------------------

  /** The row of this handle was taken over or retired. */
  predicate Stale(t: Tables, h: Handle) {
    h.Key() in t.bindings && (h.epoch < t.bindings[h.Key()].epoch || t.bindings[h.Key()].state.Retired?)
  }

  /** The call presents handle `h`. */
  predicate Presents(a: Action, h: Handle) {
    (a.Opened? || a.ArmSession? || a.CompleteSession? || a.MarkUncertain? || a.Retire?) && a.handle == h
  }

  /** The call repeats a completion or a retirement that is already on record. */
  predicate Repeats(t: Tables, a: Action) {
    || (a.CompleteSession? && HasResult(t, a.attempt))
    || (a.Retire? && a.handle.Key() in t.bindings && t.bindings[a.handle.Key()].retiredReason == Some(a.reason))
  }

  lemma StaleOpens(t: Tables, agent: Id, h: Handle, sessionRef: Id)
    requires Stale(t, h)
    ensures B.RecordSessionOpened(t, agent, h, sessionRef).Err?
  {
  }

  lemma StaleArms(t: Tables, agent: Id, i: Id, h: Handle, sessionRef: Id, generation: Id, arm: I.ArmInput, now: Time)
    requires Stale(t, h)
    ensures B.ArmSessionInvocation(t, agent, i, h, sessionRef, generation, arm, now).Err?
  {
  }

  lemma StaleCompletes(t: Tables, agent: Id, i: Id, h: Handle, p: Persistence, input: I.CompleteInput, now: Time)
    requires Inv(t) && Stale(t, h) && B.CompleteSessionInvocation(t, agent, i, h, p, input, now).Ok?
    ensures HasResult(t, i) && B.CompleteSessionInvocation(t, agent, i, h, p, input, now).value.0 == t
  {
    P.CompleteSessionCases(t, agent, i, h, p, input, now);
    P.CompletionCases(t, agent, i, input, now, true);
    StaleTurn(t, agent, i, h);
  }

  /** The only turn a stale handle still validates is one that was completed. */
  lemma StaleTurn(t: Tables, agent: Id, i: Id, h: Handle)
    requires Inv(t) && Stale(t, h) && B.ValidateBoundTurn(t, agent, i, h, true).Pass?
    ensures HasResult(t, i)
  {
    assert TurnRow(t, i);
  }

  lemma StaleMarks(t: Tables, agent: Id, i: Id, h: Handle, reason: Text)
    requires Stale(t, h)
    ensures B.MarkSessionUncertain(t, agent, i, h, reason).Err?
  {
  }

  lemma StaleRetires(t: Tables, agent: Id, h: Handle, reason: Text)
    requires Stale(t, h) && B.RetireSessionBinding(t, agent, h, reason).Ok?
    ensures B.RetireSessionBinding(t, agent, h, reason).value == t
    ensures t.bindings[h.Key()].retiredReason == Some(reason)
  {
  }

  /** A stale handle changes no row; it succeeds only by repeating what is on record. */
  lemma StaleIsInert(e: Event, h: Handle)
    requires Executed(e) && Inv(e.before) && Stale(e.before, h) && Presents(e.call, h)
    ensures e.after == e.before && (e.ok ==> Repeats(e.before, e.call))
  {
    var t, a := e.before, e.call;
    if a.Opened? {
      StaleOpens(t, a.agent, h, a.sessionRef);
    } else if a.ArmSession? {
      StaleArms(t, a.agent, a.attempt, h, a.sessionRef, a.generation, a.arm, a.now);
    } else if a.CompleteSession? {
      if e.ok {
        StaleCompletes(t, a.agent, a.attempt, h, a.persistence, a.completion, a.now);
      }
    } else if a.MarkUncertain? {
      StaleMarks(t, a.agent, a.attempt, h, a.reason);
    } else if e.ok {
      StaleRetires(t, a.agent, h, a.reason);
    }
  }

  lemma StaysStale(t: Tables, u: Tables, scope: Scope, h: Handle)
    requires Evolves(t, u, scope) && Stale(t, h)
    ensures Stale(u, h)
  {
    assert BindingKept(t, u, h.Key(), scope);
  }

  /** Once stale, a handle is inert for the rest of the run. */
  lemma StaleForever(run: seq<Event>, p: nat, q: nat, h: Handle)
    requires Run(run) && p < q < |run| && Stale(run[p].after, h) && Presents(run[q].call, h)
    ensures run[q].after == run[q].before && (run[q].ok ==> Repeats(run[q].before, run[q].call))
  {
    Persists(run, p, q);
    StaysStale(run[p].after, run[q].before, ScopeBetween(run, p, q), h);
    Reachable(run, q);
    LinkedBefore(run, q);
    StaleIsInert(run[q], h);
  }

  // ---- acquisition fences everybody else -------------------------------------------------------

  /** `g` is the lane's one live handle: its row is not retired and carries its epoch and owner. */
  predicate Owns(t: Tables, lane: Lane, g: Handle, owner: Id) {
    && g.Key() in t.bindings && t.bindings[g.Key()].lane == lane
    && t.bindings[g.Key()].epoch == g.epoch && t.bindings[g.Key()].owner == owner
    && !t.bindings[g.Key()].state.Retired?
  }

  /** The acquisition tells the owner what the row holds: nothing opened yet, or the session to resume. */
  predicate Describes(t: Tables, input: B.AcquireInput, a: B.Acquisition) {
    && a.handle.Key() in t.bindings && t.bindings[a.handle.Key()].config == input.config
    && (a.mode.Create? ==> t.bindings[a.handle.Key()].state.Opening?)
    && (a.mode.Resume? ==>
          t.bindings[a.handle.Key()].state.Ready? && t.bindings[a.handle.Key()].sessionRef == Some(a.mode.sessionRef))
  }

  /** A handle the store has issued for this lane at some time. */
  predicate Issued(t: Tables, lane: Lane, h: Handle) {
    h.Key() in t.bindings && t.bindings[h.Key()].lane == lane && h.epoch <= t.bindings[h.Key()].epoch
  }

  lemma InsertOwns(t: Tables, k: BindingKey, input: B.AcquireInput)
    requires B.InsertBinding(t, k, input).Ok?
    ensures var r := B.InsertBinding(t, k, input).value;
            Owns(r.0, input.lane, r.1.handle, input.owner) && Describes(r.0, input, r.1)
  {
  }

  lemma ExistingOwns(t: Tables, k: BindingKey, input: B.AcquireInput)
    requires k in t.bindings && t.bindings[k].lane == input.lane && B.AcquireExisting(t, k, input).Ok?
    ensures var r := B.AcquireExisting(t, k, input).value;
            Owns(r.0, input.lane, r.1.handle, input.owner) && Describes(r.0, input, r.1)
  {
    var b := t.bindings[k];
    if b.owner != input.owner && (b.state.Opening? || b.config != input.config) {
      var reason := if b.state.Opening? then "opening_superseded_by_new_owner" else "incompatible_profile_rotation";
      InsertOwns(t.(bindings := t.bindings[k := B.RetireRow(b, reason)]), BindingKey(k.id, k.generation + 1), input);
    }
  }

  lemma FreshOwns(t: Tables, input: B.AcquireInput)
    requires B.InsertAfterLatestRetired(t, input).Ok?
    ensures var r := B.InsertAfterLatestRetired(t, input).value;
            Owns(r.0, input.lane, r.1.handle, input.owner) && Describes(r.0, input, r.1)
  {
    var rows := B.LaneRows(t, input.lane);
    if rows == {} {
      InsertOwns(t.(nextId := t.nextId + 1), BindingKey(t.nextId, 1), input);
    } else {
      InsertOwns(t, BindingKey(B.Latest(rows).id, B.Latest(rows).generation + 1), input);
    }
  }

  lemma AcquisitionOwns(t: Tables, input: B.AcquireInput)
    requires B.AcquireSessionBinding(t, input).Ok?
    ensures var r := B.AcquireSessionBinding(t, input).value;
            Owns(r.0, input.lane, r.1.handle, input.owner) && Describes(r.0, input, r.1)
  {
    var current := B.CurrentRows(t, input.lane);
    if current == {} {
      FreshOwns(t, input);
    } else {
      ExistingOwns(t, B.Latest(current), input);
    }
  }

  /** Beside the live handle of a lane, every handle ever issued for it is stale. */
  lemma OthersAreStale(t: Tables, lane: Lane, g: Handle, owner: Id, h: Handle)
    requires Inv(t) && Owns(t, lane, g, owner) && Issued(t, lane, h) && h != g
    ensures Stale(t, h)
  {
    assert LanePair(t, g.Key(), h.Key()) && LanePair(t, h.Key(), g.Key());
  }

  /** The handle a successful acquisition returned. */
  ghost function Acquired(e: Event): Handle
    requires Executed(e) && e.ok && e.call.Acquire?
  {
    B.AcquireSessionBinding(e.before, e.call.acquire).value.1.handle
  }

  /**
   After an acquisition, every other handle issued for the lane is fenced for the
   rest of the run: presenting it changes no row and succeeds only as a repeat.
   */
  lemma ReplacedOwnerIsFenced(run: seq<Event>, p: nat, q: nat, h: Handle)
    requires Run(run) && p < q < |run| && run[p].ok && run[p].call.Acquire?
    requires Executed(run[p]) && h != Acquired(run[p])
    requires Issued(run[p].after, run[p].call.acquire.lane, h) && Presents(run[q].call, h)
    ensures run[q].after == run[q].before && (run[q].ok ==> Repeats(run[q].before, run[q].call))
  {
    var input := run[p].call.acquire;
    AcquisitionOwns(run[p].before, input);
    Reachable(run, p);
    OthersAreStale(run[p].after, input.lane, Acquired(run[p]), input.owner, h);
    StaleForever(run, p, q, h);
  }

  // ---- lane history -----------------------------------------------------------------------------

  /** Below any generation of a lane lie all smaller ones, retired, under the same binding id. */
  lemma {:induction false} LaneIsContiguous(t: Tables, k: BindingKey, g: nat)
    requires Inv(t) && k in t.bindings && 1 <= g < k.generation
    ensures BindingKey(k.id, g) in t.bindings && t.bindings[BindingKey(k.id, g)].state.Retired?
    ensures t.bindings[BindingKey(k.id, g)].lane == t.bindings[k].lane
    decreases k.generation - g
  {
    var below := BindingKey(k.id, k.generation - 1);
    assert BindingRow(t, k);
    assert LanePair(t, below, k);
    if g < k.generation - 1 {
      LaneIsContiguous(t, below, g);
    }
  }

  /** One binding id per lane, and at most one generation of it that is not retired. */
  lemma LaneHasOneCurrentRow(t: Tables, k: BindingKey, l: BindingKey)
    requires Inv(t) && k in t.bindings && l in t.bindings && t.bindings[k].lane == t.bindings[l].lane
    ensures k.id == l.id
    ensures !t.bindings[k].state.Retired? && !t.bindings[l].state.Retired? ==> k == l
  {
    assert LanePair(t, k, l) && LanePair(t, l, k);
  }

  /** `k` is the newest generation of the lane. */
  ghost predicate Heads(t: Tables, lane: Lane, k: BindingKey) {
    && k in t.bindings && t.bindings[k].lane == lane
    && forall l | l in t.bindings && t.bindings[l].lane == lane :: l.generation <= k.generation
  }

  /** Between two states, the head moves up lexicographically, strictly so when its owner changes. */
  lemma HeadRises(t: Tables, u: Tables, scope: Scope, lane: Lane, k: BindingKey, l: BindingKey)
    requires Inv(u) && Evolves(t, u, scope) && Heads(t, lane, k) && Heads(u, lane, l)
    ensures k.id == l.id && k.generation <= l.generation
    ensures k.generation == l.generation ==>
              && t.bindings[k].epoch <= u.bindings[l].epoch
              && (t.bindings[k].owner != u.bindings[l].owner ==> t.bindings[k].epoch < u.bindings[l].epoch)
    ensures k.generation < l.generation ==> IsRetired(u, k)
  {
    assert BindingKept(t, u, k, scope);
    assert LanePair(u, k, l);
  }

  /** Over any stretch of a run, ownership of a lane moves only forward. */
  lemma OwnershipRises(run: seq<Event>, p: nat, q: nat, lane: Lane, k: BindingKey, l: BindingKey)
    requires Run(run) && p < q < |run| && Heads(run[p].after, lane, k) && Heads(run[q].before, lane, l)
    ensures k.id == l.id && k.generation <= l.generation
    ensures k.generation == l.generation ==>
              && run[p].after.bindings[k].epoch <= run[q].before.bindings[l].epoch
              && (run[p].after.bindings[k].owner != run[q].before.bindings[l].owner ==>
                    run[p].after.bindings[k].epoch < run[q].before.bindings[l].epoch)
    ensures k.generation < l.generation ==> IsRetired(run[q].before, k)
  {
    Persists(run, p, q);
    Reachable(run, q);
    HeadRises(run[p].after, run[q].before, ScopeBetween(run, p, q), lane, k, l);
  }

  // ---- uncertain generations ------------------------------------------------------------------------

  /** The generation carried a turn whose effect nobody could bound. */
  predicate EverUncertain(t: Tables, k: BindingKey, i: Id) {
    i in t.turns && t.turns[i].binding == k && t.turns[i].state.TurnUncertain?
  }

  /** An uncertain binding names the turn that made it so. */
  lemma UncertainNamesTurn(t: Tables, k: BindingKey)
    requires Inv(t) && k in t.bindings && t.bindings[k].state.Uncertain?
    ensures t.bindings[k].active.Some? && EverUncertain(t, k, t.bindings[k].active.value)
  {
    assert BindingRow(t, k);
  }

  lemma UncertainIsClosed(t: Tables, k: BindingKey, i: Id)
    requires Inv(t) && EverUncertain(t, k, i)
    ensures k in t.bindings && (t.bindings[k].state.Uncertain? || t.bindings[k].state.Retired?)
  {
    assert TurnRow(t, i);
  }

  lemma ArmNeedsOpenRow(t: Tables, agent: Id, i: Id, h: Handle, sessionRef: Id, generation: Id, arm: I.ArmInput, now: Time)
    requires B.ArmSessionInvocation(t, agent, i, h, sessionRef, generation, arm, now).Ok?
    ensures h.Key() in t.bindings && (t.bindings[h.Key()].state.Ready? || t.bindings[h.Key()].state.Active?)
    ensures B.ArmSessionInvocation(t, agent, i, h, sessionRef, generation, arm, now).value.turns
            == t.turns[i := Turn(h.Key(), h.epoch, TurnActive)]
  {
    BoundTurnWritten(I.ArmInvocation(t, agent, i, arm, now), agent, i, h, generation);
  }

  lemma BoundTurnWritten(arm: Result<Tables>, agent: Id, i: Id, h: Handle, generation: Id)
    requires B.BindArmed(arm, agent, i, h, generation).Ok?
    ensures B.BindArmed(arm, agent, i, h, generation).value.turns
            == arm.value.turns[i := Turn(h.Key(), h.epoch, TurnActive)]
  {
  }

  /** Only a session arm binds a turn, to the handle it presents. */
  lemma TurnsComeFromArming(run: seq<Event>, n: nat, j: Id)
    requires Run(run) && n < |run| && j in run[n].after.turns && j !in run[n].before.turns
    ensures run[n].ok && run[n].call.ArmSession? && run[n].call.attempt == j
    ensures run[n].after.turns[j].binding == run[n].call.handle.Key()
    ensures run[n].after.turns[j].binding in run[n].before.bindings
    ensures var state := run[n].before.bindings[run[n].after.turns[j].binding].state; state.Ready? || state.Active?
  {
    var t, a := run[n].before, run[n].call;
    Evolved(run, n);
    LinkedBefore(run, n);
    assert AttemptKept(t, run[n].after, j, ScopeOf(t, a));
    if a.ArmSession? {
      ArmNeedsOpenRow(t, a.agent, a.attempt, a.handle, a.sessionRef, a.generation, a.arm, a.now);
    }
  }

  /** A generation that was ever uncertain is never armed again and gains no further turn. */
  lemma UncertainNeverArmsAgain(run: seq<Event>, p: nat, q: nat, k: BindingKey, i: Id, j: Id)
    requires Run(run) && p < q < |run| && EverUncertain(run[p].after, k, i)
    ensures run[q].call.ArmSession? && run[q].call.handle.Key() == k ==> !run[q].ok
    ensures j in run[q].after.turns && run[q].after.turns[j].binding == k ==> j in run[q].before.turns
  {
    Persists(run, p, q);
    assert AttemptKept(run[p].after, run[q].before, i, ScopeBetween(run, p, q));
    Reachable(run, q);
    UncertainIsClosed(run[q].before, k, i);
    LinkedBefore(run, q);
    var t, a := run[q].before, run[q].call;
    if a.ArmSession? && run[q].ok {
      ArmNeedsOpenRow(t, a.agent, a.attempt, a.handle, a.sessionRef, a.generation, a.arm, a.now);
    }
    if j in run[q].after.turns && j !in run[q].before.turns {
      TurnsComeFromArming(run, q, j);
    }
  }

  // ---- arming through a session ------------------------------------------------------------------------

  lemma ArmSessionObserves(t: Tables, agent: Id, i: Id, h: Handle, sessionRef: Id, generation: Id, arm: I.ArmInput, now: Time)
    requires B.ArmSessionInvocation(t, agent, i, h, sessionRef, generation, arm, now).Ok?
    ensures i !in t.observed
    ensures i in B.ArmSessionInvocation(t, agent, i, h, sessionRef, generation, arm, now).value.observed
  {
  }

  /** A session arm succeeds at most once per attempt: its replay is rejected. */
  lemma SessionArmIsNotRepeatable(run: seq<Event>, p: nat, q: nat, i: Id)
    requires Run(run) && p < q < |run|
    requires run[p].ok && run[p].call.ArmSession? && run[p].call.attempt == i
    requires run[q].call.ArmSession? && run[q].call.attempt == i
    ensures !run[q].ok && run[q].after == run[q].before
  {
    LinkedBefore(run, p);
    var a := run[p].call;
    ArmSessionObserves(run[p].before, a.agent, i, a.handle, a.sessionRef, a.generation, a.arm, a.now);
    Persists(run, p, q);
    assert AttemptKept(run[p].after, run[q].before, i, ScopeBetween(run, p, q));
    LinkedBefore(run, q);
    var b := run[q].call;
    if run[q].ok {
      ArmSessionObserves(run[q].before, b.agent, i, b.handle, b.sessionRef, b.generation, b.arm, b.now);
    }
  }
}
