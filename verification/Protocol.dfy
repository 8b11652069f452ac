/**
 The store as a transition system: every public call is one atomic transaction,
 issued by any worker, reaper, operator or owner, in any order and with any clock
 reading. A call that reports an error was rolled back.
 */
module Protocol {
  import opened Wrappers
  import opened Tables
  import I = Invocations
  import K = Kernel
  import B = SessionBindings
  import D = Settlements

  datatype Action =
    | Environment(agents: set<Id>, channels: map<Id, Channel>, generations: map<Id, PluginGeneration>)
    | Post(message: Message, now: Time)
    | Claim(agent: Id, claim: I.ClaimInput, now: Time)
    | Reserve(agent: Id, claim: I.ClaimInput, now: Time)
    | Arm(agent: Id, attempt: Id, arm: I.ArmInput, now: Time)
    | Complete(agent: Id, attempt: Id, completion: I.CompleteInput, now: Time)
    | Acknowledge(key: DeliveryKey, token: Id, now: Time)
    | Retry(key: DeliveryKey, retry: D.RetryInput, now: Time)
    | Block(key: DeliveryKey, block: D.BlockInput, now: Time)
    | Resolve(blockId: nat, decision: K.ResolveInput, now: Time)
    | Reap(inboxes: seq<Id>, now: Time)
    | Acquire(acquire: B.AcquireInput)
    | Opened(agent: Id, handle: Handle, sessionRef: Id)
    | ArmSession(agent: Id, attempt: Id, handle: Handle, sessionRef: Id, generation: Id, arm: I.ArmInput, now: Time)
    | CompleteSession(agent: Id, attempt: Id, handle: Handle, persistence: Persistence, completion: I.CompleteInput,
                      now: Time)
    | MarkUncertain(agent: Id, attempt: Id, handle: Handle, reason: Text)
    | Retire(agent: Id, handle: Handle, reason: Text)

  /** The tables a call that also reports a value leaves behind. */
  function After<T>(r: Result<(Tables, T)>): Result<Tables> {
    var done :- r;
    Ok(done.0)
  }

  function Posted(t: Tables, m: Message, now: Time): Result<Tables> {
    After(K.AppendMessage(t, m, now))
  }

  ghost function Attempt(t: Tables, a: Action): Result<Tables> {
    match a
    case Environment(agents, channels, generations) =>
      Ok(t.(agents := agents, channels := channels, generations := generations))
    case Post(m, now) => Posted(t, m, now)
    case Claim(agent, claim, now) => D.ClaimDeliveries(t, agent, claim, now)
    case Reserve(agent, claim, now) => I.ReserveInvocations(t, agent, claim, now)
    case Arm(agent, i, arm, now) => I.ArmInvocation(t, agent, i, arm, now)
    case Complete(agent, i, completion, now) => After(I.CompleteInvocation(t, agent, i, completion, now, false))
    case Acknowledge(k, token, now) => D.AcknowledgeDelivery(t, k, token, now)
    case Retry(k, retry, now) => D.RetryDelivery(t, k, retry, now)
    case Block(k, block, now) => D.Parked(D.BlockDelivery(t, k, block, now))
    case Resolve(b, decision, now) => D.ResolveDeliveryBlock(t, b, decision, now)
    case Reap(inboxes, now) => After(I.RecoverAll(t, inboxes, now))
    case Acquire(input) => After(B.AcquireSessionBinding(t, input))
    case Opened(agent, h, sessionRef) => B.RecordSessionOpened(t, agent, h, sessionRef)
    case ArmSession(agent, i, h, sessionRef, generation, arm, now) =>
      B.ArmSessionInvocation(t, agent, i, h, sessionRef, generation, arm, now)
    case CompleteSession(agent, i, h, persistence, completion, now) =>
      After(B.CompleteSessionInvocation(t, agent, i, h, persistence, completion, now))
    case MarkUncertain(agent, i, h, reason) => B.MarkSessionUncertain(t, agent, i, h, reason)
    case Retire(agent, h, reason) => B.RetireSessionBinding(t, agent, h, reason)
  }

  /** An error rolls the transaction back. */
  ghost function Step(t: Tables, a: Action): Tables {
    var r := Attempt(t, a);
    if r.Ok? then r.value else t
  }

  // ---- any number of calls ---------------------------------------------------------------------------

  ghost predicate Moves(states: seq<Tables>, calls: seq<Action>, n: nat)
    requires n < |calls| && |states| == |calls| + 1
  {
    states[n + 1] == Step(states[n], calls[n])
  }

  /** The tables before the first call and after each one. */
  ghost predicate Trace(states: seq<Tables>, t: Tables, calls: seq<Action>) {
    && |states| == |calls| + 1 && states[0] == t
    && forall n: nat {:trigger Moves(states, calls, n)} | n < |calls| :: Moves(states, calls, n)
  }

  lemma {:induction false} TraceExists(t: Tables, calls: seq<Action>)
    ensures exists states :: Trace(states, t, calls)
    decreases |calls|
  {
    if calls == [] {
      assert Trace([t], t, calls);
    } else {
      var last := |calls| - 1;
      TraceExists(t, calls[..last]);
      var states :| Trace(states, t, calls[..last]);
      var longer := states + [Step(states[last], calls[last])];
      forall n: nat | n < |calls|
        ensures Moves(longer, calls, n)
      {
        assert n < last ==> Moves(states, calls[..last], n);
      }
      assert Trace(longer, t, calls);
    }
  }

  lemma {:induction false} TraceUnique(r: seq<Tables>, s: seq<Tables>, t: Tables, calls: seq<Action>, n: nat)
    requires Trace(r, t, calls) && Trace(s, t, calls) && n <= |calls|
    ensures r[n] == s[n]
  {
    if n > 0 {
      TraceUnique(r, s, t, calls, n - 1);
      assert Moves(r, calls, n - 1) && Moves(s, calls, n - 1);
    }
  }

  /** The tables after any number of calls. */
  ghost function Steps(t: Tables, calls: seq<Action>): Tables {
    TraceExists(t, calls);
    var states :| Trace(states, t, calls);
    states[|calls|]
  }

  lemma NoSteps(t: Tables)
    ensures Steps(t, []) == t
  {
    assert Trace([t], t, []);
    StepsIs([t], t, []);
  }

  /** The first call, then the others. */
  lemma FirstOfSteps(t: Tables, calls: seq<Action>)
    requires calls != []
    ensures Steps(t, calls) == Steps(Step(t, calls[0]), calls[1..])
  {
    TraceExists(t, calls);
    var states :| Trace(states, t, calls) && states[|calls|] == Steps(t, calls);
    var rest, later := states[1..], calls[1..];
    assert Moves(states, calls, 0);
    forall n: nat | n < |later|
      ensures Moves(rest, later, n)
    {
      assert Moves(states, calls, n + 1);
    }
    StepsIs(rest, Step(t, calls[0]), later);
  }

  lemma StepsIs(states: seq<Tables>, t: Tables, calls: seq<Action>)
    requires Trace(states, t, calls)
    ensures Steps(t, calls) == states[|calls|]
  {
    var other :| Trace(other, t, calls) && other[|calls|] == Steps(t, calls);
    TraceUnique(states, other, t, calls, |calls|);
  }
}
