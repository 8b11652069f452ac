/**
 When the transactions of a managed turn go through, told from the tables they find:
 arming, completing and parking, each on whatever other parties left.
 */
module TurnAnswers {
  import opened Wrappers
  import opened Tables
  import opened Protocol
  import opened Recovery
  import opened Evolution
  import opened Controller
  import E = EventFold
  import C = EvidenceChain
  import A = DeliveryAnswers
  import D = Settlements
  import I = Invocations
  import P = ProtocolInvariant
  import SA = SessionAnswers

  /** The tables that the `n`-th transaction of the turn finds. */
  ghost function Found(t: Tables, world: World, n: nat): Tables {
    Steps(t, CallsAt(world, n))
  }

  /** A turn arms exactly when its session and its attempt are its own, ready, and in time. */
  lemma TurnArmsExactly(t: Tables, turn: ManagedTurn, world: World)
    requires Inv(t)
    ensures ArmedFrom(t, turn, world).Ok? <==>
              var s := Found(t, world, 0);
              && SA.Owner(s, turn.agent, turn.handle) && s.bindings[turn.handle.Key()].sessionRef == Some(turn.sessionRef)
              && A.Presented(s, turn.agent, turn.attempt, turn.invocation.token, turn.invocation.fence)
              && (s.invocations[turn.attempt].state.Reserved? || s.invocations[turn.attempt].state.Armed?)
              && world.clock(0) < s.invocations[turn.attempt].expiry && SA.Alive(s, turn.agent, turn.generation)
              && (if turn.attempt in s.turns
                  then && SA.RunsUnder(s, turn.attempt, turn.handle) && s.turns[turn.attempt].state.TurnActive?
                       && turn.attempt !in s.observed
                  else s.bindings[turn.handle.Key()].state.Ready?)
  {
    StepsKeep(t, CallsAt(world, 0));
    SA.ArmSessionExactly(Found(t, world, 0), turn.agent, turn.attempt, turn.handle, turn.sessionRef, turn.generation,
                         I.ArmInput(turn.invocation.token, turn.invocation.fence), world.clock(0));
  }

  /** The tables let the turn publish its result now. */
  ghost predicate CanPublish(s: Tables, turn: ManagedTurn, p: Persistence, now: Time) {
    && SA.HandleInRange(turn.handle) && SA.RunsUnder(s, turn.attempt, turn.handle) && !Blank(turn.resultKind)
    && A.Presented(s, turn.agent, turn.attempt, turn.invocation.token, turn.invocation.fence)
    && match s.turns[turn.attempt].state
       case TurnActive => A.Completable(s, turn.agent, turn.attempt, Result(turn), now)
       case TurnQuiescent(was) => was == p && P.ResultSays(s, turn.attempt, turn.resultKind, turn.payload)
       case TurnUncertain(_) => false
  }

  /** What the turn asks the store to publish. */
  function Result(turn: ManagedTurn): I.CompleteInput {
    I.CompleteInput(token := turn.invocation.token, fence := turn.invocation.fence, kind := turn.resultKind,
                    payload := turn.payload)
  }

  /** A safe terminal is completed exactly when the tables let the turn publish its result. */
  lemma TurnCompletesExactly(t: Tables, turn: ManagedTurn, summary: E.TerminalSummary, stop: Option<HostStop>, world: World)
    requires Inv(t) && summary.quiescent && summary.certainty != OutcomeUnknown
    ensures var (u, outcome) := Settling(t, turn, summary, stop, world);
            var s := Found(t, world, 3);
            if CanPublish(s, turn, summary.persistence, world.clock(3))
            then && !outcome.Failed?
                 && (if s.turns[turn.attempt].state.TurnActive?
                     then SA.CompletedOn(s, u, turn.attempt, turn.handle, summary.persistence, Result(turn), world.clock(3))
                     else u == s)
            else outcome.Failed? && u == s
  {
    StepsKeep(t, CallsAt(world, 3));
    SA.CompleteSessionExactly(Found(t, world, 3), turn.agent, turn.attempt, turn.handle, summary.persistence, Result(turn),
                              world.clock(3));
  }

  /** The tables let the turn be marked uncertain for this reason. */
  predicate CanMark(s: Tables, turn: ManagedTurn, reason: Text) {
    && A.SaysWhy(reason) && SA.Owner(s, turn.agent, turn.handle) && SA.RunsUnder(s, turn.attempt, turn.handle)
    && (s.turns[turn.attempt].state.TurnActive?
        || (s.turns[turn.attempt].state == TurnUncertain(reason) && !s.bindings[turn.handle.Key()].state.Retired?))
  }

  /** The tables let the delivery of the turn be parked for this reason, or show that it was. */
  ghost predicate CanPark(s: Tables, turn: ManagedTurn, reason: Text, now: Time) {
    && A.SaysWhy(reason)
    && if A.LiveUnder(s, turn.invocation.key, turn.invocation.token, now)
       then !A.SomeRunning(s, turn.invocation.key, turn.invocation.token)
       else exists b :: A.Records(s, b, turn.invocation.key, turn.invocation.token) && s.blocks[b].reason == reason
  }

  /** The tables once the turn was marked. */
  function MarkedFor(s: Tables, turn: ManagedTurn, reason: Text): Tables
    requires CanMark(s, turn, reason)
  {
    if s.turns[turn.attempt].state.TurnUncertain? then s
    else
      var k := turn.handle.Key();
      s.(turns := s.turns[turn.attempt := Turn(k, turn.handle.epoch, TurnUncertain(reason))],
         bindings := s.bindings[k := s.bindings[k].(state := Uncertain, uncertainReason := Some(reason))])
  }

  /** A turn is parked exactly when its mark and then its block go through. */
  lemma TurnParksExactly(t: Tables, turn: ManagedTurn, reason: Text, world: World, n: nat)
    requires Inv(t)
    ensures Parking(t, turn, reason, world, n).1.Blocked? <==>
              var s := Found(t, world, n);
              && CanMark(s, turn, reason)
              && CanPark(Found(MarkedFor(s, turn, reason), world, n + 1), turn, reason, world.clock(n + 1))
  {
    var s := Found(t, world, n);
    StepsKeep(t, CallsAt(world, n));
    SA.MarkExactly(s, turn.agent, turn.attempt, turn.handle, reason);
    if CanMark(s, turn, reason) {
      P.MarkSessionKeeps(s, turn.agent, turn.attempt, turn.handle, reason);
      StepsKeep(MarkedFor(s, turn, reason), CallsAt(world, n + 1));
      MarkedParksExactly(MarkedFor(s, turn, reason), turn, reason, world, n + 1);
    }
  }

  lemma MarkedParksExactly(t: Tables, turn: ManagedTurn, reason: Text, world: World, n: nat)
    requires Inv(Found(t, world, n))
    ensures ParkingMarked(t, turn, reason, world, n).1.Blocked? <==> CanPark(Found(t, world, n), turn, reason, world.clock(n))
  {
    var v, k, input := Found(t, world, n), turn.invocation.key, D.BlockInput(turn.invocation.token, reason);
    A.BlockExactly(v, k, input, world.clock(n));
    if !A.LiveUnder(v, k, turn.invocation.token, world.clock(n)) {
      A.BlockAgainSucceeds(v, k, input, world.clock(n));
    }
  }

  // ---- draining ------------------------------------------------------------------------------------------

  /** The notification is an event, or a resolved permission request, that row `r` records as row `q`. */
  predicate Passes(sha: C.Codes -> Text, r: E.Row, n: Notification, q: E.Row) {
    match n
    case TurnEvent(event, alive) => E.Offered(sha, r, alive, event) == Ok(q)
    case PermissionRequested(event, alive, resolved) => resolved && E.Offered(sha, r, alive, event) == Ok(q)
    case _ => false
  }

  /** The first `n` notifications pass, over these rows. */
  ghost predicate Path(sha: C.Codes -> Text, r: E.Row, items: seq<Notification>, rows: seq<E.Row>, n: nat) {
    && n <= |items| && |rows| == n + 1 && rows[0] == r
    && forall m: nat {:trigger PassesAt(sha, items, rows, m)} | m < n :: PassesAt(sha, items, rows, m)
  }

  predicate PassesAt(sha: C.Codes -> Text, items: seq<Notification>, rows: seq<E.Row>, m: nat) {
    m < |items| && m + 1 < |rows| && Passes(sha, rows[m], items[m], rows[m + 1])
  }

  /** After a path, a terminal that the row records. */
  ghost predicate EndsAt(sha: C.Codes -> Text, r: E.Row, items: seq<Notification>, rows: seq<E.Row>, n: nat) {
    && n < |items| && Path(sha, r, items, rows, n)
    && items[n].TurnTerminal? && items[n].terminal.Terminal? && E.Offered(sha, rows[n], true, items[n].terminal).Ok?
  }

  lemma PathTail(sha: C.Codes -> Text, r: E.Row, items: seq<Notification>, rows: seq<E.Row>, n: nat)
    requires n > 0 && Path(sha, r, items, rows, n)
    ensures Passes(sha, r, items[0], rows[1]) && Path(sha, rows[1], items[1..], rows[1..], n - 1)
  {
    assert PassesAt(sha, items, rows, 0);
    forall m: nat | m < n - 1
      ensures PassesAt(sha, items[1..], rows[1..], m)
    {
      assert PassesAt(sha, items, rows, m + 1);
    }
  }

  lemma PathHead(sha: C.Codes -> Text, r: E.Row, items: seq<Notification>, next: E.Row, rows: seq<E.Row>, n: nat)
    requires items != [] && Passes(sha, r, items[0], next) && Path(sha, next, items[1..], rows, n)
    ensures Path(sha, r, items, [r] + rows, n + 1)
  {
    forall m: nat | m < n + 1
      ensures PassesAt(sha, items, [r] + rows, m)
    {
      assert m > 0 ==> PassesAt(sha, items[1..], rows, m - 1);
    }
  }

  /** The notification passes exactly when it does not end the drain. */
  lemma PassingExactly(sha: C.Codes -> Text, r: E.Row, n: Notification)
    ensures forall q :: Passes(sha, r, n, q) <==> Notified(sha, r, n) == (q, None)
  {
  }

  lemma {:induction false} PathDrains(sha: C.Codes -> Text, r: E.Row, feed: Feed, rows: seq<E.Row>, n: nat)
    requires Path(sha, r, feed.items, rows, n)
    ensures DrainOf(sha, r, feed) == DrainOf(sha, rows[n], feed.(items := feed.items[n..]))
    decreases n
  {
    if n == 0 {
      assert feed.items[0..] == feed.items;
    } else {
      PathTail(sha, r, feed.items, rows, n);
      PassingExactly(sha, r, feed.items[0]);
      var rest := feed.(items := feed.items[1..]);
      PathDrains(sha, rows[1], rest, rows[1..], n - 1);
      assert rest.items[n - 1..] == feed.items[n..];
    }
  }

  /** A drain that does not fail goes along a path, to its terminal or to the end. */
  lemma {:induction false} DrainHasPath(sha: C.Codes -> Text, r: E.Row, feed: Feed)
    requires !DrainOf(sha, r, feed).DrainFailed?
    ensures DrainOf(sha, r, feed).DrainTerminal? ==> exists rows, n: nat :: EndsAt(sha, r, feed.items, rows, n)
    ensures DrainOf(sha, r, feed).StillRunning? ==> !feed.failed && exists rows :: Path(sha, r, feed.items, rows, |feed.items|)
    decreases |feed.items|
  {
    if feed.items == [] {
      assert Path(sha, r, feed.items, [r], 0);
    } else {
      PassingExactly(sha, r, feed.items[0]);
      var (next, ended) := Notified(sha, r, feed.items[0]);
      if ended.Some? {
        assert Path(sha, r, feed.items, [r], 0) && EndsAt(sha, r, feed.items, [r], 0);
      } else {
        var rest := feed.(items := feed.items[1..]);
        DrainHasPath(sha, next, rest);
        if DrainOf(sha, next, rest).DrainTerminal? {
          var rows, n: nat :| EndsAt(sha, next, rest.items, rows, n);
          PathHead(sha, r, feed.items, next, rows, n);
          assert EndsAt(sha, r, feed.items, [r] + rows, n + 1);
        } else {
          var rows :| Path(sha, next, rest.items, rows, |rest.items|);
          PathHead(sha, r, feed.items, next, rows, |rest.items|);
        }
      }
    }
  }

  /**
   Evidence drains to a terminal exactly when every notification before some terminal
   passes and the row records that terminal; it is still running exactly when all pass
   and the harness did not fail. Anything else is a failed drain.
   */
  lemma DrainsExactly(sha: C.Codes -> Text, r: E.Row, feed: Feed)
    ensures DrainOf(sha, r, feed).DrainTerminal? <==> exists rows, n: nat :: EndsAt(sha, r, feed.items, rows, n)
    ensures DrainOf(sha, r, feed).StillRunning? <==>
              !feed.failed && exists rows :: Path(sha, r, feed.items, rows, |feed.items|)
    ensures forall rows, n: nat | EndsAt(sha, r, feed.items, rows, n) ::
              DrainOf(sha, r, feed) == DrainTerminal(feed.items[n].terminal.summary)
  {
    forall rows, n: nat | EndsAt(sha, r, feed.items, rows, n)
      ensures DrainOf(sha, r, feed) == DrainTerminal(feed.items[n].terminal.summary)
    {
      PathDrains(sha, r, feed, rows, n);
      assert feed.items[n..][0] == feed.items[n];
    }
    if !feed.failed && exists rows :: Path(sha, r, feed.items, rows, |feed.items|) {
      var rows :| Path(sha, r, feed.items, rows, |feed.items|);
      PathDrains(sha, r, feed, rows, |feed.items|);
    }
    if !DrainOf(sha, r, feed).DrainFailed? {
      DrainHasPath(sha, r, feed);
    }
  }
}
