/**
 Runs of the store, and dispatch safety over them. A run is any finite sequence
 of calls from the empty store, recorded with the tables before and after each.
 */
module Runs {
  import opened Wrappers
  import opened Tables
  import opened Protocol
  import opened DeliveryInvariant
  import opened SessionInvariant
  import opened Recovery
  import opened Evolution
  import I = Invocations
  import K = Kernel
  import B = SessionBindings
  import D = Settlements
  import P = ProtocolInvariant

  /** One call of a run, its outcome, and the tables around it. */
  datatype Event = Event(before: Tables, call: Action, ok: bool, after: Tables)

  ghost predicate Executed(e: Event) {
    e.ok == Attempt(e.before, e.call).Ok? && e.after == Step(e.before, e.call)
  }

  ghost predicate Linked(run: seq<Event>, n: nat)
    requires n < |run|
  {
    Executed(run[n]) && run[n].before == if n == 0 then EMPTY else run[n - 1].after
  }

  ghost predicate Run(run: seq<Event>) {
    forall n: nat {:trigger Linked(run, n)} | n < |run| :: Linked(run, n)
  }

  /** The run makes exactly these calls, in order. */
  ghost predicate Makes(run: seq<Event>, calls: seq<Action>) {
    |run| == |calls| && forall n | 0 <= n < |calls| :: run[n].call == calls[n]
  }

  /** Every sequence of calls has a run. */
  lemma {:induction false} RunExists(calls: seq<Action>)
    ensures exists run: seq<Event> :: Run(run) && Makes(run, calls)
  {
    if calls == [] {
      assert Run([]) && Makes([], calls);
    } else {
      var last := |calls| - 1;
      RunExists(calls[..last]);
      var prefix: seq<Event> :| Run(prefix) && Makes(prefix, calls[..last]);
      var t := if last == 0 then EMPTY else prefix[last - 1].after;
      var run := prefix + [Event(t, calls[last], Attempt(t, calls[last]).Ok?, Step(t, calls[last]))];
      forall n: nat | n < |run|
        ensures Linked(run, n)
      {
        assert n < last ==> Linked(prefix, n);
      }
      forall n | 0 <= n < |calls|
        ensures run[n].call == calls[n]
      {
        assert n < last ==> run[n] == prefix[n];
      }
      assert Run(run) && Makes(run, calls);
    }
  }

  // ---- what holds at every call ------------------------------------------------------------------

  /** The joint invariant holds in every reachable state. */
  lemma {:induction false} Reachable(run: seq<Event>, n: nat)
    requires Run(run) && n < |run|
    ensures Inv(run[n].before) && Inv(run[n].after)
  {
    if n == 0 {
      P.EmptyStore();
    } else {
      Reachable(run, n - 1);
    }
    LinkedBefore(run, n);
    ExecutedKeeps(run[n]);
  }

  /** After any call, an open attempt holds its delivery's exact lease and is the only open one of that delivery. */
  lemma OpenAttemptsHoldLeases(run: seq<Event>, n: nat, i: Id, j: Id)
    requires Run(run) && n < |run| && i in run[n].after.invocations && !run[n].after.invocations[i].state.Terminal?
    ensures var t, inv := run[n].after, run[n].after.invocations[i];
            inv.key in t.deliveries && t.deliveries[inv.key].state == Leased(inv.token, inv.expiry)
    ensures (&& j in run[n].after.invocations && !run[n].after.invocations[j].state.Terminal?
             && run[n].after.invocations[j].key == run[n].after.invocations[i].key) ==> i == j
  {
    Reachable(run, n);
    assert AttemptRow(run[n].after, i);
    if j in run[n].after.invocations {
      assert AttemptRow(run[n].after, j) && AttemptPair(run[n].after, i, j);
    }
  }

  /**
   After any call, a binding is active or uncertain exactly when it names an attempt,
   whose turn then has the same state, generation and epoch; an active binding's
   attempt is armed, an uncertain one's is armed or ended unknown.
   */
  lemma BindingsAgreeWithTurns(run: seq<Event>, n: nat, k: BindingKey)
    requires Run(run) && n < |run| && k in run[n].after.bindings
    ensures var t, b := run[n].after, run[n].after.bindings[k];
            && (b.state.Active? || b.state.Uncertain? <==> b.active.Some?)
            && (b.active.Some? ==>
                  var i := b.active.value;
                  && i in t.turns && t.turns[i].binding == k && t.turns[i].epoch == b.epoch && i in t.invocations
                  && (if b.state.Active? then t.turns[i].state.TurnActive? && t.invocations[i].state.Armed?
                      else t.turns[i].state.TurnUncertain?
                           && (t.invocations[i].state.Armed? || t.invocations[i].Ended(OutcomeUnknown))))
  {
    Reachable(run, n);
    assert BindingRow(run[n].after, k);
    var b := run[n].after.bindings[k];
    assert b.active.Some? ==> TurnRow(run[n].after, b.active.value);
  }

  lemma LinkedBefore(run: seq<Event>, n: nat)
    requires Run(run) && n < |run|
    ensures Executed(run[n]) && run[n].before == if n == 0 then EMPTY else run[n - 1].after
  {
    assert Linked(run, n);
  }

  lemma ExecutedKeeps(e: Event)
    requires Executed(e) && Inv(e.before)
    ensures Inv(e.after)
  {
    P.StepKeeps(e.before, e.call);
  }

  lemma Evolved(run: seq<Event>, n: nat)
    requires Run(run) && n < |run|
    ensures Evolves(run[n].before, run[n].after, ScopeOf(run[n].before, run[n].call))
  {
    Reachable(run, n);
    LinkedBefore(run, n);
    StepEvolves(run[n].before, run[n].call);
  }

  /** What the calls strictly after `p` and before `q` were allowed to touch. */
  ghost function ScopeBetween(run: seq<Event>, p: nat, q: nat): Scope
    requires p < q < |run|
  {
    if p + 1 == q then NOTHING else Join(ScopeBetween(run, p, q - 1), ScopeOf(run[q - 1].before, run[q - 1].call))
  }

  /** Nothing is taken back between one call and a later one. */
  lemma {:induction false} Persists(run: seq<Event>, p: nat, q: nat)
    requires Run(run) && p < q < |run|
    ensures Evolves(run[p].after, run[q].before, ScopeBetween(run, p, q))
  {
    PreviousAfter(run, q);
    if p + 1 < q {
      Persists(run, p, q - 1);
      Evolved(run, q - 1);
      JoinEvolves(run[p].after, run[q - 1].before, run[q - 1].after, ScopeBetween(run, p, q - 1),
                  ScopeOf(run[q - 1].before, run[q - 1].call));
    } else {
      EvolvesReflexive(run[p].after);
    }
  }

  lemma PreviousAfter(run: seq<Event>, q: nat)
    requires Run(run) && 0 < q < |run|
    ensures run[q].before == run[q - 1].after
  {
    LinkedBefore(run, q);
  }

  // ---- at-most-once dispatch ------------------------------------------------------------------

  /** The call asks to pass the dispatch fence of attempt `i`. */
  predicate AsksToArm(a: Action, i: Id) {
    (a.Arm? || a.ArmSession?) && a.attempt == i
  }

  /** The call committed the dispatch fence of `i`, or repeated it. */
  predicate Dispatches(e: Event, i: Id) {
    AsksToArm(e.call, i) && e.ok
  }

  /** The call is an operator's requeue of block `b`, and it took effect. */
  predicate Requeues(e: Event, b: nat) {
    && e.call.Resolve? && e.call.blockId == b && e.call.decision.how.Requeue?
    && !WasResolved(e.before, b) && WasResolved(e.after, b)
  }

  /** A fence commits only for an open attempt that holds its live lease, and is on record afterwards. */
  lemma DispatchOpens(e: Event, i: Id)
    requires Executed(e) && Dispatches(e, i)
    ensures i in e.before.invocations && !e.before.invocations[i].state.Terminal?
    ensures K.HoldsLive(e.before, e.before.invocations[i].key, e.before.invocations[i].token, e.call.now)
    ensures EverArmed(e.after, i)
  {
    if e.call.ArmSession? {
      ArmSessionArms(e.before, e.call.agent, i, e.call.handle, e.call.sessionRef, e.call.generation, e.call.arm, e.call.now);
    }
  }

  lemma ArmSessionArms(t: Tables, agent: Id, i: Id, h: Handle, sessionRef: Id, generation: Id, arm: I.ArmInput, now: Time)
    requires B.ArmSessionInvocation(t, agent, i, h, sessionRef, generation, arm, now).Ok?
    ensures i in t.invocations && !t.invocations[i].state.Terminal?
    ensures K.HoldsLive(t, t.invocations[i].key, t.invocations[i].token, now)
    ensures EverArmed(B.ArmSessionInvocation(t, agent, i, h, sessionRef, generation, arm, now).value, i)
  {
  }

  /** While an attempt is open, no block was recorded under its lease. */
  lemma OpenHasNoBlock(t: Tables, i: Id, b: nat)
    requires Inv(t) && i in t.invocations && !t.invocations[i].state.Terminal?
    ensures !Evidence(t, b, t.invocations[i].key, t.invocations[i].token)
  {
    assert AttemptRow(t, i);
    WhileHeld(t, t.invocations[i].key, t.invocations[i].token);
  }

  /** Block `b` is evidence of the lease of attempt `inv`. */
  predicate BlockOf(t: Tables, b: nat, inv: Invocation) {
    Evidence(t, b, inv.key, inv.token)
  }

  predicate WasRequeued(t: Tables, b: nat) {
    WasResolved(t, b) && t.blocks[b].resolved.value.how.Requeue?
  }

  /** Behind an open attempt, every other armed attempt of the delivery was requeued by an operator. */
  lemma EarlierWasRequeued(t: Tables, i: Id, j: Id)
    requires Inv(t) && i != j && EverArmed(t, i)
    requires j in t.invocations && !t.invocations[j].state.Terminal? && t.invocations[i].key == t.invocations[j].key
    ensures exists b :: BlockOf(t, b, t.invocations[i]) && WasRequeued(t, b)
  {
    var k := t.invocations[j].key;
    assert AttemptRow(t, i) && AttemptRow(t, j) && AttemptPair(t, i, j);
    WhileHeld(t, k, t.invocations[j].token);
    var b :| Evidence(t, b, k, t.invocations[i].token);
    assert BlockOf(t, b, t.invocations[i]) && WasRequeued(t, b);
  }

  /** Only an operator's call resolves a block, with the decision it carries. */
  lemma ResolutionIsOperators(run: seq<Event>, n: nat, b: nat)
    requires Run(run) && n < |run| && !WasResolved(run[n].before, b) && WasResolved(run[n].after, b)
    ensures run[n].ok && run[n].call.Resolve? && run[n].call.blockId == b && b in run[n].before.blocks
    ensures run[n].after.blocks[b].resolved.value.how == run[n].call.decision.how
  {
    Evolved(run, n);
    LinkedBefore(run, n);
    assert BlockKept(run[n].before, run[n].after, b, ScopeOf(run[n].before, run[n].call));
    ResolutionDecision(run[n].before, b, run[n].call.decision, run[n].call.now);
  }

  lemma ResolutionDecision(t: Tables, b: nat, input: K.ResolveInput, now: Time)
    requires D.ResolveDeliveryBlock(t, b, input, now).Ok?
    ensures b in t.blocks && WasResolved(D.ResolveDeliveryBlock(t, b, input, now).value, b)
    ensures D.ResolveDeliveryBlock(t, b, input, now).value.blocks[b].resolved.value.how == input.how
  {
    ResolvedRow(t, b, input, now);
    P.RetireForBlockFrame(K.ResolveBlock(t, b, input, now).value, b, input.how);
  }

  lemma ResolvedRow(t: Tables, b: nat, input: K.ResolveInput, now: Time)
    requires K.ResolveBlock(t, b, input, now).Ok?
    ensures b in t.blocks && WasResolved(K.ResolveBlock(t, b, input, now).value, b)
    ensures K.ResolveBlock(t, b, input, now).value.blocks[b].resolved.value.how == input.how
  {
  }

  /** A block that became requeued was requeued at some call in between. */
  lemma {:induction false} RequeuedBetween(run: seq<Event>, p: nat, q: nat, b: nat)
    requires Run(run) && p < q < |run| && !WasResolved(run[p].after, b) && WasRequeued(run[q].before, b)
    ensures exists n :: p < n < q && Requeues(run[n], b) && b in run[n].before.blocks
  {
    PreviousAfter(run, q);
    if WasResolved(run[q - 1].before, b) {
      Evolved(run, q - 1);
      assert BlockKept(run[q - 1].before, run[q - 1].after, b, ScopeOf(run[q - 1].before, run[q - 1].call));
      RequeuedBetween(run, p, q - 1, b);
    } else {
      ResolutionIsOperators(run, q - 1, b);
      assert Requeues(run[q - 1], b);
    }
  }

  /** A block seen later and already present kept its lease. */
  lemma BlockFixed(t: Tables, u: Tables, scope: Scope, b: nat, inv: Invocation)
    requires Evolves(t, u, scope) && b in t.blocks && BlockOf(u, b, inv)
    ensures BlockOf(t, b, inv)
  {
    assert BlockKept(t, u, b, scope);
  }

  /** Having passed the fence is never undone, and the attempt stays the same one. */
  lemma ArmedForever(run: seq<Event>, p: nat, q: nat, i: Id)
    requires Run(run) && p < q < |run| && Dispatches(run[p], i)
    ensures i in run[p].before.invocations && EverArmed(run[q].before, i)
    ensures run[q].before.invocations[i].key == run[p].before.invocations[i].key
    ensures run[q].before.invocations[i].token == run[p].before.invocations[i].token
  {
    LinkedBefore(run, p);
    DispatchOpens(run[p], i);
    Evolved(run, p);
    assert AttemptKept(run[p].before, run[p].after, i, ScopeOf(run[p].before, run[p].call));
    Persists(run, p, q);
    assert AttemptKept(run[p].after, run[q].before, i, ScopeBetween(run, p, q));
  }

  /** Right after `i` was dispatched, no block of its lease can have been resolved. */
  lemma NotResolvedAtDispatch(run: seq<Event>, p: nat, q: nat, i: Id, b: nat)
    requires Run(run) && p < q < |run| && Dispatches(run[p], i)
    requires i in run[p].before.invocations && BlockOf(run[q].before, b, run[p].before.invocations[i])
    ensures !WasResolved(run[p].after, b)
  {
    var inv := run[p].before.invocations[i];
    LinkedBefore(run, p);
    DispatchOpens(run[p], i);
    Reachable(run, p);
    OpenHasNoBlock(run[p].before, i, b);
    Evolved(run, p);
    assert BlockKept(run[p].before, run[p].after, b, ScopeOf(run[p].before, run[p].call));
    Persists(run, p, q);
    assert BlockKept(run[p].after, run[q].before, b, ScopeBetween(run, p, q));
  }

  /**
   Two attempts that both passed the dispatch fence for one delivery are separated
   by an operator's requeue of a block recorded under the earlier one's lease.
   */
  lemma AtMostOnceDispatch(run: seq<Event>, p: nat, q: nat, i: Id, j: Id)
    requires Run(run) && p < q < |run| && i != j && Dispatches(run[p], i) && Dispatches(run[q], j)
    requires i in run[p].before.invocations && j in run[q].before.invocations
    requires run[q].before.invocations[j].key == run[p].before.invocations[i].key
    ensures exists n, b :: p < n < q && Requeues(run[n], b) && BlockOf(run[n].before, b, run[p].before.invocations[i])
  {
    var inv := run[p].before.invocations[i];
    ArmedForever(run, p, q, i);
    OtherWasRequeued(run, q, i, j);
    var b :| BlockOf(run[q].before, b, run[q].before.invocations[i]) && WasRequeued(run[q].before, b);
    assert BlockOf(run[q].before, b, inv);
    NotResolvedAtDispatch(run, p, q, i, b);
    RequeuedBetween(run, p, q, b);
    var n :| p < n < q && Requeues(run[n], b) && b in run[n].before.blocks;
    RequeuedBlockIs(run, n, q, b, inv);
  }

  lemma OtherWasRequeued(run: seq<Event>, q: nat, i: Id, j: Id)
    requires Run(run) && q < |run| && i != j && Dispatches(run[q], j) && EverArmed(run[q].before, i)
    requires j in run[q].before.invocations && run[q].before.invocations[i].key == run[q].before.invocations[j].key
    ensures exists b :: BlockOf(run[q].before, b, run[q].before.invocations[i]) && WasRequeued(run[q].before, b)
  {
    LinkedBefore(run, q);
    DispatchOpens(run[q], j);
    Reachable(run, q);
    EarlierWasRequeued(run[q].before, i, j);
  }

  lemma RequeuedBlockIs(run: seq<Event>, n: nat, q: nat, b: nat, inv: Invocation)
    requires Run(run) && n < q < |run| && b in run[n].before.blocks && BlockOf(run[q].before, b, inv)
    ensures BlockOf(run[n].before, b, inv)
  {
    Evolved(run, n);
    assert BlockKept(run[n].before, run[n].after, b, ScopeOf(run[n].before, run[n].call));
    Persists(run, n, q);
    BlockFixed(run[n].after, run[q].before, ScopeBetween(run, n, q), b, inv);
  }
}
