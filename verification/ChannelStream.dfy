/**
 A channel stream across reconnects: frames go through a bounded queue that one
 consumer drains serially; a lost transport is replaced from the cursor. Against
 any server the accepted sequences strictly rise; against a server that replays
 its log in order after the requested cursor they are a gap-free stretch of it.
 */
module ChannelStreams {
  import opened Wrappers
  import opened StreamAcceptance

  // ---- the server's log -----------------------------------------------------------------------

  /** A channel log: sequences strictly rise. */
  ghost predicate Log(log: seq<Message>) {
    forall i: nat, j: nat {:trigger Rises(log, i, j)} | i < j < |log| :: Rises(log, i, j)
  }

  predicate Rises(log: seq<Message>, i: nat, j: nat)
    requires i < |log| && j < |log|
  {
    log[i].sequence < log[j].sequence
  }

  /** How many messages of the log lie at or below a cursor. */
  function Upto(log: seq<Message>, cursor: int): nat {
    UptoAmong(log, cursor, |log|)
  }

  /** The same among the first `n` messages. */
  function UptoAmong(log: seq<Message>, cursor: int, n: nat): nat
    requires n <= |log|
  {
    if n == 0 || log[n - 1].sequence <= cursor then n else UptoAmong(log, cursor, n - 1)
  }

  lemma {:induction false} UptoAmongSplits(log: seq<Message>, cursor: int, n: nat)
    requires Log(log) && n <= |log|
    ensures UptoAmong(log, cursor, n) <= n
    ensures forall i | 0 <= i < n :: i < UptoAmong(log, cursor, n) <==> log[i].sequence <= cursor
  {
    if n > 0 {
      UptoAmongSplits(log, cursor, n - 1);
      forall i: nat | i < n - 1
        ensures log[i].sequence < log[n - 1].sequence
      {
        assert Rises(log, i, n - 1);
      }
    }
  }

  lemma UptoSplits(log: seq<Message>, cursor: int)
    requires Log(log)
    ensures Upto(log, cursor) <= |log|
    ensures forall i | 0 <= i < |log| :: i < Upto(log, cursor) <==> log[i].sequence <= cursor
  {
    UptoAmongSplits(log, cursor, |log|);
  }

  /** No message of the log lies strictly between a cursor and a sequence. */
  ghost predicate NoneBetween(log: seq<Message>, cursor: int, sequence: int) {
    forall i: nat {:trigger Outside(log, i, cursor, sequence)} | i < |log| :: Outside(log, i, cursor, sequence)
  }

  predicate Outside(log: seq<Message>, i: nat, cursor: int, sequence: int)
    requires i < |log|
  {
    !(cursor < log[i].sequence < sequence)
  }

  /** Accepted so far is one gap-free stretch of the log. */
  ghost predicate GapFree(log: seq<Message>, start: int, cursor: int, accepted: seq<Message>) {
    && Upto(log, start) <= Upto(log, cursor) <= |log|
    && accepted == log[Upto(log, start)..Upto(log, cursor)]
  }

  /** Accepting the log's next message extends the accepted stretch by one. */
  lemma NextExtends(log: seq<Message>, start: int, cursor: int, accepted: seq<Message>, m: Message)
    requires Log(log) && m in log && cursor < m.sequence && NoneBetween(log, cursor, m.sequence)
    requires GapFree(log, start, cursor, accepted)
    ensures GapFree(log, start, m.sequence, accepted + [m])
  {
    UptoSplits(log, cursor);
    UptoSplits(log, m.sequence);
    var n := Upto(log, cursor);
    var k :| 0 <= k < |log| && log[k] == m;
    assert n < k ==> Rises(log, n, k);
    assert Outside(log, n, cursor, m.sequence);
    assert k == n;
    assert n + 1 < |log| ==> Rises(log, n, n + 1);
    assert Upto(log, m.sequence) == n + 1;
  }

  // ---- what a queue holds of a log ------------------------------------------------------------------

  /** Message `i` of the log, if it lies before queued message `j`, is ahead of it. */
  ghost predicate Ahead(log: seq<Message>, cursor: int, flight: Option<Message>, queue: seq<Message>, j: nat, i: nat)
    requires j < |queue| && i < |log|
  {
    cursor < log[i].sequence < queue[j].sequence ==> flight == Some(log[i]) || log[i] in queue[..j]
  }

  /**
   What is in flight is the next message after the cursor, and whatever lies before
   a queued message is ahead of it.
   */
  ghost predicate InLogOrder(log: seq<Message>, cursor: int, flight: Option<Message>, queue: seq<Message>) {
    && (flight.Some? ==> flight.value in log && NoneBetween(log, cursor, flight.value.sequence))
    && (forall j | 0 <= j < |queue| :: queue[j] in log)
    && (forall j: nat, i: nat {:trigger Ahead(log, cursor, flight, queue, j, i)} | j < |queue| && i < |log| ::
          Ahead(log, cursor, flight, queue, j, i))
  }

  /** Message `i` of the log was accepted or is held. */
  predicate Kept(log: seq<Message>, cursor: int, flight: Option<Message>, queue: seq<Message>, i: nat)
    requires i < |log|
  {
    log[i].sequence <= cursor || flight == Some(log[i]) || log[i] in queue
  }

  ghost predicate KeptUpto(log: seq<Message>, sent: nat, cursor: int, flight: Option<Message>, queue: seq<Message>) {
    && sent <= |log|
    && forall i: nat {:trigger Kept(log, cursor, flight, queue, i)} | i < sent :: Kept(log, cursor, flight, queue, i)
  }

  lemma ShiftOrder(log: seq<Message>, cursor: int, queue: seq<Message>)
    requires queue != [] && InLogOrder(log, cursor, None, queue)
    ensures queue[0].sequence <= cursor ==> InLogOrder(log, cursor, None, queue[1..])
    ensures queue[0].sequence > cursor ==> InLogOrder(log, cursor, Some(queue[0]), queue[1..])
  {
    var m, rest := queue[0], queue[1..];
    var flight := if m.sequence <= cursor then None else Some(m);
    forall j: nat, i: nat | j < |rest| && i < |log|
      ensures Ahead(log, cursor, flight, rest, j, i)
    {
      assert Ahead(log, cursor, None, queue, j + 1, i);
      assert queue[..j + 1] == [m] + rest[..j];
    }
    forall i: nat | i < |log|
      ensures Outside(log, i, cursor, m.sequence)
    {
      assert Ahead(log, cursor, None, queue, 0, i);
    }
  }

  lemma ShiftKept(log: seq<Message>, sent: nat, cursor: int, queue: seq<Message>)
    requires queue != [] && KeptUpto(log, sent, cursor, None, queue)
    ensures queue[0].sequence <= cursor ==> KeptUpto(log, sent, cursor, None, queue[1..])
    ensures KeptUpto(log, sent, cursor, Some(queue[0]), queue[1..])
  {
    assert queue == [queue[0]] + queue[1..];
    forall i: nat | i < sent
      ensures queue[0].sequence <= cursor ==> Kept(log, cursor, None, queue[1..], i)
      ensures Kept(log, cursor, Some(queue[0]), queue[1..], i)
    {
      assert Kept(log, cursor, None, queue, i);
    }
  }

  lemma AcceptOrder(log: seq<Message>, cursor: int, m: Message, queue: seq<Message>)
    requires Log(log) && InLogOrder(log, cursor, Some(m), queue) && cursor < m.sequence
    ensures InLogOrder(log, m.sequence, None, queue)
  {
    forall j: nat, i: nat | j < |queue| && i < |log|
      ensures Ahead(log, m.sequence, None, queue, j, i)
    {
      assert Ahead(log, cursor, Some(m), queue, j, i);
    }
  }

  lemma AcceptKept(log: seq<Message>, sent: nat, cursor: int, m: Message, queue: seq<Message>)
    requires KeptUpto(log, sent, cursor, Some(m), queue) && cursor < m.sequence
    ensures KeptUpto(log, sent, m.sequence, None, queue)
  {
    forall i: nat | i < sent
      ensures Kept(log, m.sequence, None, queue, i)
    {
      assert Kept(log, cursor, Some(m), queue, i);
    }
  }

  /** A frame the server may send next: the next message of its log, or one it already sent. */
  predicate Follows(log: seq<Message>, sent: nat, m: Message) {
    sent <= |log| && ((sent < |log| && m == log[sent]) || m in log[..sent])
  }

  function Sent(log: seq<Message>, sent: nat, m: Message): nat {
    if sent < |log| && m == log[sent] then sent + 1 else sent
  }

  lemma PushOrder(log: seq<Message>, sent: nat, cursor: int, flight: Option<Message>, queue: seq<Message>, m: Message)
    requires Log(log) && Follows(log, sent, m)
    requires InLogOrder(log, cursor, flight, queue) && KeptUpto(log, sent, cursor, flight, queue)
    ensures InLogOrder(log, cursor, flight, queue + [m])
    ensures KeptUpto(log, Sent(log, sent, m), cursor, flight, queue + [m])
  {
    var longer := queue + [m];
    var at :| 0 <= at < |log| && log[at] == m && at <= sent;
    forall j: nat, i: nat | j < |longer| && i < |log|
      ensures Ahead(log, cursor, flight, longer, j, i)
    {
      if j < |queue| {
        assert Ahead(log, cursor, flight, queue, j, i) && longer[..j] == queue[..j];
      } else if i < sent {
        assert Kept(log, cursor, flight, queue, i) && longer[..j] == queue;
      } else {
        assert at < i ==> Rises(log, at, i);
      }
    }
    forall i: nat | i < Sent(log, sent, m)
      ensures Kept(log, cursor, flight, longer, i)
    {
      assert i < sent ==> Kept(log, cursor, flight, queue, i);
    }
  }

  lemma EmptyOrder(log: seq<Message>, cursor: int)
    ensures InLogOrder(log, cursor, None, [])
  {
  }

  /** Dropping the queue keeps the order of what is in flight. */
  lemma ClearOrder(log: seq<Message>, cursor: int, flight: Option<Message>, queue: seq<Message>)
    requires InLogOrder(log, cursor, flight, queue)
    ensures InLogOrder(log, cursor, flight, [])
  {
  }

  // ---- the acceptance queue ----------------------------------------------------------------------------

  datatype Failure = ConsumerRejected | IdentityConflict

  class MessageAcceptanceQueue {
    const shared: Acceptance
    const maxPending: nat
    var pending: seq<Message>
    /** The message the consumer is deciding on; the queue is busy exactly while there is one. */
    var inFlight: Option<Message>
    var terminal: bool
    var failure: Option<Failure>
    /** The server's log, how much of it this transport has sent, and whether frames were dropped. */
    ghost const log: seq<Message>
    ghost const faithful: bool
    ghost var sent: nat
    ghost var dropped: bool

    constructor (shared: Acceptance, maxPending: nat, ghost log: seq<Message>, ghost faithful: bool)
      requires shared.Valid()
      requires faithful ==> Log(log) && GapFree(log, shared.start, shared.cursor, shared.accepted)
      ensures this.shared == shared && this.maxPending == maxPending && this.log == log && this.faithful == faithful
      ensures Valid() && pending == [] && inFlight.None? && !terminal && failure.None? && !dropped
      ensures sent == Upto(log, shared.cursor)
    {
      this.shared, this.maxPending, this.log, this.faithful := shared, maxPending, log, faithful;
      pending, inFlight, terminal, failure := [], None, false, None;
      sent, dropped := Upto(log, shared.cursor), false;
      new;
      if faithful {
        UptoSplits(log, shared.cursor);
        EmptyOrder(log, shared.cursor);
        forall i: nat | i < sent
          ensures Kept(log, shared.cursor, None, [], i)
        {
        }
      }
    }

    /** Bounded, and nothing is held back once the queue ended. */
    ghost predicate Bounded()
      reads this, shared
    {
      && shared.Valid()
      && |pending| <= maxPending
      && (terminal ==> pending == []) && (failure.Some? ==> terminal)
      && (inFlight.Some? ==> shared.Classify(inFlight.value).New?)
    }

    /** Relative to a faithful server: accepted is gap-free, and what is held continues it. */
    ghost predicate Tracks()
      reads this, shared
    {
      faithful ==>
        && Log(log) && GapFree(log, shared.start, shared.cursor, shared.accepted)
        && InLogOrder(log, shared.cursor, inFlight, pending)
        && (!dropped && !terminal ==> KeptUpto(log, sent, shared.cursor, inFlight, pending))
    }

    /** Between events, a queue never holds messages without a consumer at work. */
    ghost predicate Valid()
      reads this, shared
    {
      Bounded() && Tracks() && (pending != [] ==> inFlight.Some?)
    }

    /** Takes the next message: a duplicate is dropped, a new one goes to the consumer, a conflict ends the queue. */
    method TakeNext()
      requires Bounded() && Tracks() && inFlight.None? && !terminal && pending != []
      modifies this
      ensures Bounded() && Tracks() && sent == old(sent) && dropped == old(dropped)
      ensures match shared.Classify(old(pending)[0])
              case New => inFlight == Some(old(pending)[0]) && pending == old(pending)[1..] && !terminal
              case Duplicate => inFlight.None? && pending == old(pending)[1..] && !terminal
              case Conflicting => inFlight.None? && pending == [] && terminal && failure == Some(IdentityConflict)
      ensures !terminal ==> failure == old(failure)
    {
      var m := pending[0];
      var kind := shared.Classify(m);
      if kind.Conflicting? {
        terminal, pending, failure := true, [], Some(IdentityConflict);
        return;
      }
      if faithful {
        ShiftOrder(log, shared.cursor, pending);
        if !dropped {
          ShiftKept(log, sent, shared.cursor, pending);
        }
      }
      pending := pending[1..];
      if kind.New? {
        inFlight := Some(m);
      }
    }

    /**
     Of the messages `held`, the first `k` are duplicates and were dropped; the next
     one, if there is one, went to the consumer or, in conflict, ended the queue.
     */
    ghost predicate Took(held: seq<Message>, k: nat)
      reads this, shared
    {
      && k <= |held| && (forall i | 0 <= i < k :: shared.Classify(held[i]).Duplicate?)
      && if k == |held| then inFlight.None? && pending == [] && !terminal
         else match shared.Classify(held[k])
              case New => inFlight == Some(held[k]) && pending == held[k + 1..] && !terminal
              case Duplicate => false
              case Conflicting => inFlight.None? && pending == [] && terminal
    }

    /** Takes messages until one is new, a conflict ends the queue, or none is left. */
    method Pump()
      requires Bounded() && Tracks() && inFlight.None?
      modifies this
      ensures Valid() && sent == old(sent) && dropped == old(dropped)
      ensures !old(terminal) ==> exists k: nat :: Took(old(pending), k)
      ensures old(terminal) ==> terminal && inFlight.None?
      ensures failure == if terminal && !old(terminal) then Some(IdentityConflict) else old(failure)
    {
      ghost var held, k := pending, 0;
      while !terminal && inFlight.None? && pending != []
        invariant Bounded() && Tracks() && sent == old(sent) && dropped == old(dropped)
        invariant old(terminal) ==> terminal && inFlight.None?
        invariant failure == if terminal && !old(terminal) then Some(IdentityConflict) else old(failure)
        invariant 0 <= k <= |held| && forall i | 0 <= i < k :: shared.Classify(held[i]).Duplicate?
        invariant !old(terminal) ==> if terminal || inFlight.Some? then Took(held, k) else pending == held[k..]
        decreases |pending|
      {
        ghost var kind := shared.Classify(pending[0]);
        assert pending[0] == held[k] && pending[1..] == held[k + 1..];
        TakeNext();
        k := if kind.Duplicate? then k + 1 else k;
      }
      assert !old(terminal) ==> Took(held, k);
    }

    /** With a single message held: a new one goes to the consumer, any other is gone. */
    method PumpOne(m: Message)
      requires Bounded() && Tracks() && inFlight.None? && !terminal && pending == [m]
      modifies this
      ensures Valid() && sent == old(sent) && dropped == old(dropped)
      ensures pending == [] && inFlight == if shared.Classify(m).New? then Some(m) else None
      ensures terminal <==> shared.Classify(m).Conflicting?
      ensures failure == if terminal then Some(IdentityConflict) else old(failure)
    {
      Pump();
      ghost var k: nat :| Took(old(pending), k);
      assert old(pending)[0] == m && (k == 1 ==> shared.Classify(old(pending)[0]).Duplicate?);
    }

    method Push(m: Message)
      requires Valid() && !terminal && |pending| < maxPending
      requires faithful ==> !dropped && Follows(log, sent, m)
      modifies this`pending, this`sent
      ensures Bounded() && Tracks()
      ensures pending == old(pending) + [m] && sent == Sent(log, old(sent), m)
    {
      if faithful {
        PushOrder(log, sent, shared.cursor, inFlight, pending, m);
      }
      pending := pending + [m];
      sent := Sent(log, sent, m);
    }

    /** Queues one message; false means that backpressure requires a replay. */
    method Offer(m: Message) returns (queued: bool)
      requires Valid()
      requires faithful && !terminal ==> !dropped && Follows(log, sent, m)
      modifies this
      ensures Valid() && dropped == old(dropped)
      ensures queued <==> old(terminal) || |old(pending)| < maxPending
      ensures queued && !old(terminal) && old(inFlight).Some? ==> inFlight == old(inFlight) && pending == old(pending) + [m]
      ensures queued && !old(terminal) && old(inFlight).None? ==>
                && pending == [] && inFlight == (if shared.Classify(m).New? then Some(m) else None)
                && (terminal <==> shared.Classify(m).Conflicting?)
      ensures !queued ==> pending == old(pending) && inFlight == old(inFlight) && terminal == old(terminal)
      ensures sent == if old(terminal) || !queued then old(sent) else Sent(log, old(sent), m)
      ensures terminal && !old(terminal) ==> failure == Some(IdentityConflict)
      ensures failure.Some? ==> old(failure).Some? || terminal
      ensures old(terminal) ==> failure == old(failure) && terminal
    {
      if terminal {
        return true;
      }
      if |pending| >= maxPending {
        return false;
      }
      Push(m);
      if inFlight.None? {
        assert pending == [m];
        PumpOne(m);
      }
      return true;
    }

    method Clear()
      requires Valid()
      modifies this`pending, this`dropped
      ensures Valid() && pending == [] && dropped
    {
      if faithful {
        ClearOrder(log, shared.cursor, inFlight, pending);
      }
      pending, dropped := [], true;
    }

    method Stop()
      requires Valid()
      modifies this`pending, this`dropped, this`terminal
      ensures Valid() && terminal && pending == []
    {
      Clear();
      terminal := true;
    }

    /** The consumer resolved the message in flight: only now does the cursor move. */
    method Resolve()
      requires Valid() && inFlight.Some?
      modifies this, shared
      ensures Valid() && shared.accepted == old(shared.accepted) + [old(inFlight).value]
      ensures shared.cursor == old(inFlight).value.sequence && sent == old(sent) && dropped == old(dropped)
      ensures !old(terminal) ==> exists k: nat :: Took(old(pending), k)
      ensures old(terminal) ==> terminal && failure == old(failure) && inFlight.None?
      ensures terminal ==> old(terminal) || failure.Some?
    {
      var m := inFlight.value;
      if faithful {
        NextExtends(log, shared.start, shared.cursor, shared.accepted, m);
        AcceptOrder(log, shared.cursor, m, pending);
        if !dropped && !terminal {
          AcceptKept(log, sent, shared.cursor, m, pending);
        }
      }
      shared.Accept(m);
      inFlight := None;
      Pump();
    }

    /** The consumer rejected the message in flight: nothing is accepted and the queue ends. */
    method Reject()
      requires Valid() && inFlight.Some?
      modifies this
      ensures Valid() && terminal && pending == [] && inFlight.None? && failure == Some(ConsumerRejected)
      ensures sent == old(sent) && dropped == old(dropped)
    {
      if faithful {
        EmptyOrder(log, shared.cursor);
      }
      terminal, pending, inFlight, failure := true, [], None, Some(ConsumerRejected);
    }
  }

  /** A queue that holds nothing and lost nothing has accepted everything sent to it. */
  lemma IdleAcceptedAll(log: seq<Message>, sent: nat, cursor: int)
    requires Log(log) && KeptUpto(log, sent, cursor, None, [])
    ensures sent <= Upto(log, cursor)
  {
    UptoSplits(log, cursor);
    if sent > 0 {
      assert Kept(log, cursor, None, [], sent - 1);
    }
  }

  // ---- one transport attempt ---------------------------------------------------------------------------------

  datatype Dialect = Browser | Native

  datatype StreamError = ProtocolError | ConsumerError | UpgradeRejected | ReconnectExhausted | GrantFailed | SocketFailed

  /** What a frame turns out to be; a faithful server only continues or repeats its log. */
  datatype Frame =
    | Unreadable
    | ReadyFrame(linked: bool)
    | InvalidMessage
    | Next
    | Repeat(index: nat)
    | Forged(message: Message)

  datatype Event =
    | Opened(protocolMatches: bool, redeemed: bool)
    | Received(frame: Frame)
    | TransportError
    | Closed(code: nat)
    | UnexpectedResponse
    | Aborted
    | StopRequested
    | ConsumerResolved
    | ConsumerRejects

  /** Where a faithful server stands after a callback that left the attempt live. */
  function Sequel(end: nat, sent: nat, event: Event): nat {
    if event.Received? && event.frame.Next? && sent < end then sent + 1 else sent
  }

  /** How many of the server's next messages arrived with the first `n` callbacks. */
  function Nexts(events: seq<Event>, n: nat): nat
    requires n <= |events|
  {
    if n == 0 then 0 else Nexts(events, n - 1) + if events[n - 1] == Received(Next) then 1 else 0
  }

  function Min(a: nat, b: nat): nat {
    if a <= b then a else b
  }

  lemma NextsGrow(end: nat, start: nat, events: seq<Event>, n: nat)
    requires n < |events|
    ensures Sequel(end, Min(end, start + Nexts(events, n)), events[n]) == Min(end, start + Nexts(events, n + 1))
  {
  }

  class ChannelStream {
    const dialect: Dialect
    const shared: Acceptance
    const maxPending: nat
    /** How many reconnect delays the stream was configured with. */
    const delays: nat
    /** The log behind the server, and whether the server keeps to it. */
    const log: seq<Message>
    ghost const faithful: bool

    var lane: MessageAcceptanceQueue
    var sent: nat
    var isOpen: bool
    var ready: bool
    var disconnected: bool
    var settled: bool
    var error: Option<StreamError>
    var stopRequested: bool
    var reconnectIndex: nat
    var attempts: nat
    /** The cursor the present attempt started from. */
    ghost var since: int

    constructor (dialect: Dialect, start: int, maxPending: nat, delays: nat, log: seq<Message>, ghost faithful: bool)
      requires faithful ==> Log(log)
      ensures this.faithful == faithful && this.log == log && this.delays == delays && this.maxPending == maxPending
      ensures Valid() && fresh(shared) && fresh(lane)
      ensures shared.start == start && shared.accepted == [] && attempts == 0 && !stopRequested && error.None?
    {
      this.dialect, this.maxPending, this.delays, this.log, this.faithful := dialect, maxPending, delays, log, faithful;
      var s := new Acceptance(start);
      if faithful {
        UptoSplits(log, start);
      }
      shared := s;
      lane := new MessageAcceptanceQueue(s, maxPending, log, faithful);
      sent, isOpen, ready, disconnected, settled, error := 0, false, false, true, true, None;
      stopRequested, reconnectIndex, attempts, since := false, 0, 0, start;
    }

    /** The transport is up and nothing failed. */
    predicate Live()
      reads this
    {
      !settled && !disconnected && error.None?
    }

    /**
     A settled attempt holds nothing; a queue that ended or lost frames belongs to an
     attempt that is not live; and the budget bounds the attempts.
     */
    ghost predicate Valid()
      reads this, shared, lane
    {
      && lane.shared == shared && lane.log == log && lane.faithful == faithful && lane.maxPending == maxPending
      && lane.Valid()
      && (settled ==> lane.inFlight.None? && lane.pending == [])
      && (!settled ==> lane.inFlight.Some? || Live())
      && (lane.terminal ==> error.Some?)
      && (Live() ==> !lane.terminal && !lane.dropped && lane.sent == sent)
      && attempts <= delays + 1 && (attempts > 0 ==> attempts <= reconnectIndex + 1) && reconnectIndex <= delays + 1
    }

    /** As `Valid`, before the attempt had a chance to settle. */
    ghost predicate Pending()
      reads this, shared, lane
    {
      && lane.shared == shared && lane.log == log && lane.faithful == faithful && lane.maxPending == maxPending
      && lane.Valid() && !settled && (lane.terminal ==> error.Some?)
      && (Live() ==> !lane.terminal && !lane.dropped && lane.sent == sent)
      && attempts <= delays + 1 && (attempts > 0 ==> attempts <= reconnectIndex + 1) && reconnectIndex <= delays + 1
    }

    /** What a valid stream has accepted; one that is live and holds nothing, everything a faithful server sent. */
    lemma WhatIsAccepted()
      requires Valid()
      ensures attempts <= delays + 1 && Rising(shared.start, shared.accepted)
      ensures shared.cursor == LastSequence(shared.start, shared.accepted)
      ensures faithful ==> GapFree(log, shared.start, shared.cursor, shared.accepted)
      ensures faithful && Live() && lane.inFlight.None? ==> sent <= Upto(log, shared.cursor)
    {
      if faithful && Live() && lane.inFlight.None? {
        IdleAcceptedAll(log, sent, shared.cursor);
      }
    }

    method SettleIfPossible()
      requires Pending()
      modifies this`settled
      ensures Valid() && (settled <==> lane.inFlight.None? && (error.Some? || disconnected))
    {
      if lane.inFlight.None? && (error.Some? || disconnected) {
        settled := true;
      }
    }

    method Fail(e: StreamError)
      requires Pending()
      modifies this`error, this`settled, lane`pending, lane`dropped, lane`terminal
      ensures Valid() && error == if old(error).None? then Some(e) else old(error)
      ensures (settled <==> lane.inFlight.None?) && lane.pending == if old(error).None? then [] else old(lane.pending)
    {
      if error.None? {
        error := Some(e);
        lane.Stop();
      }
      SettleIfPossible();
    }

    method Disconnect()
      requires Pending()
      modifies this`disconnected, this`settled
      ensures Valid() && !Live() && (settled <==> lane.inFlight.None?)
      ensures disconnected == if error.None? then true else old(disconnected)
    {
      if error.None? {
        disconnected := true;
      }
      SettleIfPossible();
    }

    /** The queue may have ended itself; the attempt takes the failure over. */
    method TakeFailure()
      requires lane.shared == shared && lane.log == log && lane.faithful == faithful && lane.maxPending == maxPending
      requires lane.Valid() && !settled && (lane.terminal ==> error.Some? || lane.failure.Some?)
      requires Live() ==> !lane.dropped && lane.sent == sent
      requires attempts <= delays + 1 && (attempts > 0 ==> attempts <= reconnectIndex + 1) && reconnectIndex <= delays + 1
      modifies this`error, this`settled
      ensures Valid() && (settled <==> lane.inFlight.None? && (error.Some? || disconnected))
      ensures error == if old(error).Some? || lane.failure.None? then old(error)
                       else if lane.failure == Some(IdentityConflict) then Some(ProtocolError) else Some(ConsumerError)
    {
      if error.None? && lane.failure.Some? {
        error := Some(if lane.failure.value.IdentityConflict? then ProtocolError else ConsumerError);
      }
      SettleIfPossible();
    }

    /** The message a frame carries, if it carries one, as the server stands now. */
    function Carried(frame: Frame): Option<Message>
      reads this
    {
      match frame
      case Next => if sent < |log| then Some(log[sent]) else None
      case Repeat(i) => if i < sent && i < |log| then Some(log[i]) else None
      case Forged(m) => Some(m)
      case _ => None
    }

    /**
     A live attempt that held `pending` behind `flight` and had been sent `before`
     messages took `m` in. Without room it gives the transport up, to be replayed; else
     `m` waits behind what is in flight, or goes to the consumer if it is new.
     */
    ghost predicate TookIn(m: Message, pending: seq<Message>, flight: Option<Message>, before: nat)
      reads this, shared, lane
    {
      if |pending| >= maxPending
      then disconnected && error.None? && lane.pending == [] && lane.inFlight == flight && sent == before
      else
        && sent == (if before < |log| && m == log[before] then before + 1 else before)
        && (flight.Some? ==> Live() && lane.inFlight == flight && lane.pending == pending + [m])
        && (flight.None? ==>
              && lane.pending == [] && lane.inFlight == (if shared.Classify(m).New? then Some(m) else None)
              && (if shared.Classify(m).Conflicting? then error == Some(ProtocolError) else Live()))
    }

    /** Nothing of the attempt changed. */
    ghost predicate Stands(pending: seq<Message>, flight: Option<Message>, before: nat)
      reads this, lane
    {
      Live() && lane.pending == pending && lane.inFlight == flight && sent == before
    }

    /**
     What a frame does to a live attempt: before the handshake only the linked ready
     frame of a browser stream is in order; after it, every frame that carries a message
     is taken in, and any other frame fails the stream.
     */
    ghost predicate ReceivedAs(frame: Frame, wasOpen: bool, wasReady: bool, pending: seq<Message>, flight: Option<Message>,
                               before: nat)
      reads this, shared, lane
    {
      if frame.Unreadable? || (dialect.Native? && !wasOpen) then error == Some(ProtocolError)
      else if dialect.Browser? && !wasReady
      then if frame == ReadyFrame(true) then ready && Stands(pending, flight, before) else error == Some(ProtocolError)
      else match frame
           case Next => if before < |log| then TookIn(log[before], pending, flight, before) else Stands(pending, flight, before)
           case Repeat(i) =>
             if i < before && i < |log| then TookIn(log[i], pending, flight, before) else Stands(pending, flight, before)
           case Forged(m) => TookIn(m, pending, flight, before)
           case _ => error == Some(ProtocolError)
    }

    method OfferMessage(m: Message)
      requires Valid() && Live() && (faithful ==> Follows(log, sent, m))
      modifies this, lane
      ensures Valid() && lane == old(lane) && shared.accepted == old(shared.accepted)
      ensures TookIn(m, old(lane.pending), old(lane.inFlight), old(sent)) && isOpen == old(isOpen) && ready == old(ready)
      ensures unchanged(this`stopRequested, this`reconnectIndex, this`attempts, this`since)
    {
      var queued := lane.Offer(m);
      if queued {
        sent := Sent(log, sent, m);
        TakeFailure();
      } else {
        lane.Clear();
        disconnected := true;
        SettleIfPossible();
      }
    }

    method Receive(frame: Frame)
      requires Valid() && Live() && (faithful ==> !frame.Forged?)
      modifies this, lane
      ensures Valid() && lane == old(lane) && shared.accepted == old(shared.accepted)
      ensures ReceivedAs(frame, old(isOpen), old(ready), old(lane.pending), old(lane.inFlight), old(sent))
      ensures unchanged(this`stopRequested, this`reconnectIndex, this`attempts, this`since)
    {
      if frame.Unreadable? || (dialect.Native? && !isOpen) {
        Fail(ProtocolError);
      } else if dialect.Browser? && !ready {
        if frame == ReadyFrame(true) {
          ready := true;
        } else {
          Fail(ProtocolError);
        }
      } else if frame.InvalidMessage? || frame.ReadyFrame? {
        Fail(ProtocolError);
      } else {
        var m := Carried(frame);
        if m.Some? {
          OfferMessage(m.value);
        }
      }
    }

    /** A second opening or the wrong protocol fails the stream; a grant that cannot be redeemed loses the transport. */
    ghost predicate OpenedAs(protocolMatches: bool, redeemed: bool, wasOpen: bool)
      reads this
    {
      if wasOpen || (dialect.Browser? && !protocolMatches) then error == Some(ProtocolError)
      else isOpen && error.None? && (Live() <==> dialect.Native? || redeemed)
    }

    method OnOpen(protocolMatches: bool, redeemed: bool)
      requires Valid() && Live()
      modifies this, lane
      ensures Valid() && lane == old(lane) && shared.accepted == old(shared.accepted)
      ensures OpenedAs(protocolMatches, redeemed, old(isOpen)) && sent == old(sent)
      ensures Live() ==> lane.pending == old(lane.pending) && lane.inFlight == old(lane.inFlight)
      ensures unchanged(this`stopRequested, this`reconnectIndex, this`attempts, this`since)
    {
      if isOpen || (dialect.Browser? && !protocolMatches) {
        Fail(ProtocolError);
      } else {
        isOpen := true;
        if dialect.Browser? && !redeemed {
          Disconnect();
        }
      }
    }

    /** The transport closed: the attempt is over as soon as the consumer is not at work. */
    method OnClose(code: nat)
      requires Valid() && !settled
      modifies this, lane
      ensures Valid() && lane == old(lane) && shared.accepted == old(shared.accepted)
      ensures disconnected && !Live() && lane.inFlight == old(lane.inFlight)
      ensures settled <==> lane.inFlight.None?
      ensures error == if old(error).None? && dialect.Native? && old(isOpen) && code == 1008 then Some(UpgradeRejected)
                       else old(error)
      ensures lane.pending == if stopRequested || error != old(error) then [] else old(lane.pending)
      ensures unchanged(this`stopRequested, this`reconnectIndex, this`attempts, this`since)
    {
      disconnected := true;
      if stopRequested {
        lane.Clear();
      }
      if dialect.Native? && isOpen && code == 1008 {
        Fail(UpgradeRejected);
      } else {
        SettleIfPossible();
      }
    }

    /** The consumer decided on the message in flight. */
    method OnDecision(accepted: bool)
      requires Valid() && lane.inFlight.Some?
      modifies this, lane, shared
      ensures Valid() && lane == old(lane)
      ensures shared.accepted == if accepted then old(shared.accepted) + [old(lane.inFlight).value]
                                 else old(shared.accepted)
      ensures accepted ==> shared.cursor == old(lane.inFlight).value.sequence
      ensures !accepted ==> error == if old(error).Some? then old(error) else Some(ConsumerError)
      ensures sent == old(sent) && (Live() ==> old(Live()))
      ensures unchanged(this`stopRequested, this`reconnectIndex, this`attempts, this`since)
    {
      if accepted {
        lane.Resolve();
      } else {
        lane.Reject();
      }
      TakeFailure();
    }

    /** Against a faithful server only its next message moves the position of a live attempt. */
    lemma PositionMoves(frame: Frame, wasOpen: bool, wasReady: bool, pending: seq<Message>, flight: Option<Message>, before: nat)
      requires Log(log) && before <= |log| && !frame.Forged? && Live()
      requires ReceivedAs(frame, wasOpen, wasReady, pending, flight, before)
      ensures sent == Sequel(|log|, before, Received(frame))
    {
      assert frame.Repeat? && frame.index < before < |log| ==> Rises(log, frame.index, before);
    }

    /** A frame on a live attempt, and where a faithful server stands after it. */
    method OnMessage(frame: Frame)
      requires Valid() && Live() && (faithful ==> !frame.Forged?)
      modifies this, lane
      ensures Valid() && lane == old(lane) && shared.accepted == old(shared.accepted)
      ensures ReceivedAs(frame, old(isOpen), old(ready), old(lane.pending), old(lane.inFlight), old(sent))
      ensures faithful && Live() ==> sent == Sequel(|log|, old(sent), Received(frame))
      ensures unchanged(this`stopRequested, this`reconnectIndex, this`attempts, this`since)
    {
      PositionInLog();
      ghost var before := sent;
      Receive(frame);
      if faithful && Live() {
        PositionMoves(frame, old(isOpen), old(ready), old(lane.pending), old(lane.inFlight), before);
      }
    }

    /** One callback of the socket, the consumer, the timer or the caller. */
    method Handle(event: Event)
      requires Valid() && !settled && (faithful && event.Received? ==> !event.frame.Forged?)
      modifies this, lane, shared
      ensures Valid() && lane == old(lane)
      ensures shared.accepted == if event.ConsumerResolved? && old(lane.inFlight).Some?
                                 then old(shared.accepted) + [old(lane.inFlight).value] else old(shared.accepted)
      ensures event.Received? && old(Live()) ==>
                ReceivedAs(event.frame, old(isOpen), old(ready), old(lane.pending), old(lane.inFlight), old(sent))
      ensures event.Opened? && old(Live()) ==> OpenedAs(event.protocolMatches, event.redeemed, old(isOpen))
      ensures event.ConsumerRejects? && old(lane.inFlight).Some? ==>
                error == if old(error).Some? then old(error) else Some(ConsumerError)
      ensures event.UnexpectedResponse? && dialect.Native? ==>
                error == if old(error).Some? then old(error) else Some(UpgradeRejected)
      ensures event.Closed? || event.TransportError? || event.Aborted? || event.StopRequested? ==> !Live()
      ensures stopRequested == (old(stopRequested) || event.StopRequested?)
      ensures Live() ==> old(Live())
      ensures faithful && Live() ==> sent == Sequel(|log|, old(sent), event)
      ensures unchanged(this`reconnectIndex, this`attempts, this`since)
    {
      match event
      case Opened(protocolMatches, redeemed) =>
        if Live() {
          OnOpen(protocolMatches, redeemed);
        }
      case Received(frame) =>
        if Live() {
          OnMessage(frame);
        }
      case TransportError => Disconnect();
      case Closed(code) => OnClose(code);
      case UnexpectedResponse =>
        if dialect.Native? {
          Fail(UpgradeRejected);
        }
      case Aborted => Disconnect();
      case StopRequested =>
        stopRequested := true;
        Disconnect();
      case ConsumerResolved =>
        if lane.inFlight.Some? {
          OnDecision(true);
        }
      case ConsumerRejects =>
        if lane.inFlight.Some? {
          OnDecision(false);
        }
    }

    // ---- the reconnect loop -----------------------------------------------------------------------------

    /** An empty queue on the same acceptance state, at the cursor's position in the log. */
    method NewQueue() returns (queue: MessageAcceptanceQueue)
      requires Valid()
      ensures fresh(queue) && queue.shared == shared && queue.maxPending == maxPending && queue.log == log
      ensures queue.faithful == faithful && queue.Valid() && queue.pending == [] && queue.inFlight.None?
      ensures !queue.terminal && !queue.dropped && queue.sent == Upto(log, shared.cursor)
    {
      queue := new MessageAcceptanceQueue(shared, maxPending, log, faithful);
    }

    /** A fresh transport, opened at the cursor. */
    method Connect()
      requires Valid() && settled && attempts <= delays && attempts <= reconnectIndex
      modifies this
      ensures Valid() && Live() && fresh(lane) && lane.inFlight.None? && lane.pending == []
      ensures sent == Upto(log, shared.cursor) && since == shared.cursor && error.None?
      ensures attempts == old(attempts) + 1 && unchanged(this`stopRequested, this`reconnectIndex)
    {
      lane := NewQueue();
      isOpen, ready, disconnected, settled, error := false, false, false, false, None;
      sent := Upto(log, shared.cursor);
      attempts, since := attempts + 1, shared.cursor;
    }

    /** The server has sent, from position `start` on, one message for every next frame, as far as its log goes. */
    predicate Reached(start: nat, events: seq<Event>, n: nat)
      requires n <= |events|
      reads this
    {
      sent == Min(|log|, start + Nexts(events, n))
    }

    /** The same of the attempt's own callbacks, from the cursor it started at. */
    ghost predicate ReachedIn(trial: Trial)
      reads this
    {
      Reached(Upto(log, since), trial.events, |trial.events|)
    }

    lemma PositionInLog()
      requires Valid()
      ensures faithful && Live() ==> Log(log) && sent <= |log|
    {
    }

    /** The `n`-th callback, as the attempt as a whole sees it. */
    method Advance(events: seq<Event>, n: nat, ghost start: nat)
      requires Valid() && !settled && n < |events| && (faithful && events[n].Received? ==> !events[n].frame.Forged?)
      requires faithful && Live() ==> Reached(start, events, n)
      modifies this, lane, shared
      ensures Valid() && lane == old(lane) && old(shared.accepted) <= shared.accepted
      ensures unchanged(this`reconnectIndex, this`attempts, this`since) && (old(stopRequested) ==> stopRequested)
      ensures faithful && Live() ==> Reached(start, events, n + 1)
    {
      NextsGrow(|log|, start, events, n);
      Handle(events[n]);
    }

    /** Feeds callbacks to the attempt until it settles or no further callback has happened yet. */
    method Consume(events: seq<Event>)
      requires Valid() && (faithful ==> forall i | 0 <= i < |events| && events[i].Received? :: !events[i].frame.Forged?)
      modifies this, lane, shared
      ensures Valid() && lane == old(lane) && old(shared.accepted) <= shared.accepted
      ensures unchanged(this`reconnectIndex, this`attempts, this`since)
      ensures old(stopRequested) ==> stopRequested
      ensures faithful && Live() ==> Reached(old(sent), events, |events|)
    {
      PositionInLog();
      ConsumeFrom(events, 0, sent);
    }

    method ConsumeFrom(events: seq<Event>, n: nat, ghost start: nat)
      requires Valid() && n <= |events| && (faithful && Live() ==> Reached(start, events, n))
      requires faithful ==> forall i | 0 <= i < |events| && events[i].Received? :: !events[i].frame.Forged?
      modifies this, lane, shared
      ensures Valid() && lane == old(lane) && old(shared.accepted) <= shared.accepted
      ensures unchanged(this`reconnectIndex, this`attempts, this`since)
      ensures old(stopRequested) ==> stopRequested
      ensures faithful && Live() ==> Reached(start, events, |events|)
      decreases |events| - n
    {
      if n < |events| && !settled {
        Advance(events, n, start);
        ConsumeFrom(events, n + 1, start);
      }
    }

    /** Why an attempt ended the stream. */
    predicate EndsWith(ending: Ending, trial: Trial)
      reads this
    {
      match ending
      case Stopped => settled && stopRequested && error.None?
      case Failed(e) =>
        && settled
        && (|| error == Some(e)
            || (e == GrantFailed && dialect.Browser? && trial.grant.Refused? && error.None?)
            || (e == SocketFailed && !trial.created && error.None?))
      case Unfinished => !settled
    }

    /** One attempt from the cursor; a result ends the stream, none asks for another attempt. */
    method Attempt(trial: Trial) returns (ending: Option<Ending>)
      requires Valid() && settled && attempts <= delays && attempts <= reconnectIndex
      requires faithful ==> forall i | 0 <= i < |trial.events| && trial.events[i].Received? :: !trial.events[i].frame.Forged?
      modifies this, lane, shared
      ensures Valid() && fresh(lane) && old(shared.accepted) <= shared.accepted
      ensures attempts == old(attempts) + 1 && reconnectIndex == old(reconnectIndex)
      ensures ending.None? ==> settled && !stopRequested && error.None?
      ensures faithful && Live() ==> ReachedIn(trial)
      ensures ending.Some? ==> EndsWith(ending.value, trial)
      ensures dialect.Browser? && trial.grant != Issued ==>
                && shared.accepted == old(shared.accepted) && stopRequested == (old(stopRequested) || trial.stoppedGranting)
                && ending == (if stopRequested then Some(Stopped)
                              else if trial.grant == Refused then Some(Failed(GrantFailed)) else None)
      ensures (dialect.Native? || trial.grant == Issued) && !trial.created ==>
                shared.accepted == old(shared.accepted) && ending == Some(Failed(SocketFailed))
      ensures (dialect.Native? || trial.grant == Issued) && trial.created ==>
                ending == (if !settled then Some(Unfinished) else if error.Some? then Some(Failed(error.value))
                           else if stopRequested then Some(Stopped) else None)
    {
      Connect();
      if dialect.Browser? && !trial.grant.Issued? {
        settled, disconnected := true, true;
        stopRequested := stopRequested || trial.stoppedGranting;
        return if stopRequested then Some(Stopped) else if trial.grant.Refused? then Some(Failed(GrantFailed)) else None;
      }
      if !trial.created {
        settled, disconnected := true, true;
        return Some(Failed(SocketFailed));
      }
      Consume(trial.events);
      ending := Conclude(trial);
    }

    method Conclude(trial: Trial) returns (ending: Option<Ending>)
      ensures ending.None? ==> settled && !stopRequested && error.None?
      ensures ending.Some? ==> EndsWith(ending.value, trial)
      ensures ending == (if !settled then Some(Unfinished) else if error.Some? then Some(Failed(error.value))
                         else if stopRequested then Some(Stopped) else None)
    {
      return if !settled then Some(Unfinished)
             else if error.Some? then Some(Failed(error.value))
             else if stopRequested then Some(Stopped) else None;
    }

    /** Whether the reconnect budget or the caller ends the stream before the next attempt. */
    method BeforeAttempt(trial: Trial) returns (ending: Option<Ending>)
      requires Valid()
      modifies this`stopRequested
      ensures Valid()
      ensures ending.None? ==> reconnectIndex <= delays && stopRequested == old(stopRequested)
      ensures ending.Some? ==> (ending == Some(Stopped) && stopRequested) || ending == Some(Failed(ReconnectExhausted))
      ensures ending == Some(Failed(ReconnectExhausted)) <==> reconnectIndex > delays && reconnectIndex > 0
      ensures ending == Some(Stopped) <==> 0 < reconnectIndex <= delays && trial.stoppedWaiting
    {
      if reconnectIndex == 0 {
        return None;
      }
      if reconnectIndex > delays {
        return Some(Failed(ReconnectExhausted));
      }
      if trial.stoppedWaiting {
        stopRequested := true;
        return Some(Stopped);
      }
      return None;
    }

    /** One round of the reconnect loop. */
    method Try(trials: seq<Trial>, n: nat) returns (ending: Option<Ending>)
      requires Valid() && settled && attempts == reconnectIndex == n < |trials| && Honest(faithful, trials)
      modifies this, lane, shared
      ensures Valid() && (lane == old(lane) || fresh(lane)) && old(shared.accepted) <= shared.accepted
      ensures ending.None? ==> settled && attempts == reconnectIndex == n + 1
      ensures Progress(this, trials)
      ensures ending.Some? ==> EndedBy(this, trials, ending.value)
    {
      ending := BeforeAttempt(trials[n]);
      if ending.None? {
        ending := AttemptAt(trials, n);
      }
    }

    method AttemptAt(trials: seq<Trial>, n: nat) returns (ending: Option<Ending>)
      requires Valid() && settled && attempts == reconnectIndex == n < |trials| && Honest(faithful, trials) && n <= delays
      modifies this, lane, shared
      ensures Valid() && fresh(lane) && old(shared.accepted) <= shared.accepted
      ensures ending.None? ==> settled && attempts == reconnectIndex == n + 1
      ensures Progress(this, trials)
      ensures ending.Some? ==> EndedBy(this, trials, ending.value)
    {
      ending := Attempt(trials[n]);
      if ending.None? {
        reconnectIndex := reconnectIndex + 1;
      }
    }
  }

  /** How the issuance of a browser grant ended; a native attempt needs none. */
  datatype GrantResult = Issued | Retryable | GrantAborted | Refused

  datatype Trial = Trial(stoppedWaiting: bool, grant: GrantResult, stoppedGranting: bool, created: bool, events: seq<Event>)

  datatype Ending = Stopped | Failed(error: StreamError) | Unfinished

  ghost predicate Honest(faithful: bool, trials: seq<Trial>) {
    faithful ==> forall n, i | 0 <= n < |trials| && 0 <= i < |trials[n].events| && trials[n].events[i].Received? ::
      !trials[n].events[i].frame.Forged?
  }

  /**
   A live attempt stands where its callbacks brought it: from the cursor it started at,
   one message further for every next frame, as far as a faithful server's log goes.
   */
  ghost predicate Progress(stream: ChannelStream, trials: seq<Trial>)
    reads stream
  {
    stream.faithful && stream.Live() ==>
      0 < stream.attempts <= |trials| && stream.ReachedIn(trials[stream.attempts - 1])
  }

  /** Why the stream ended: the caller, the budget, the last attempt, or because nothing more has happened yet. */
  predicate EndedBy(stream: ChannelStream, trials: seq<Trial>, ending: Ending)
    reads stream
  {
    || (ending == Stopped && stream.settled && stream.stopRequested)
    || (ending == Failed(ReconnectExhausted) && stream.settled && stream.attempts == stream.delays + 1)
    || (0 < stream.attempts <= |trials| && stream.EndsWith(ending, trials[stream.attempts - 1]))
    || (ending == Unfinished && stream.settled && stream.attempts == |trials|)
  }

  /**
   Runs attempts, each from the cursor the previous ones left, until the caller
   stops the stream, an attempt fails it, the reconnect budget is spent, or the
   execution described by `trials` ends.
   */
  method Run(stream: ChannelStream, trials: seq<Trial>) returns (ending: Ending)
    requires stream.Valid() && stream.settled && stream.attempts == 0 && stream.reconnectIndex == 0
    requires Honest(stream.faithful, trials)
    modifies stream, stream.lane, stream.shared
    ensures stream.Valid()
    ensures stream.attempts <= stream.delays + 1
    ensures old(stream.shared.accepted) <= stream.shared.accepted
    ensures Rising(stream.shared.start, stream.shared.accepted)
    ensures stream.shared.cursor == LastSequence(stream.shared.start, stream.shared.accepted)
    ensures stream.faithful ==>
              GapFree(stream.log, stream.shared.start, stream.shared.cursor, stream.shared.accepted)
    ensures stream.faithful && stream.Live() && stream.lane.inFlight.None? ==>
              stream.sent <= Upto(stream.log, stream.shared.cursor)
    ensures Progress(stream, trials)
    ensures EndedBy(stream, trials, ending)
  {
    var n, result := 0, None;
    while n < |trials| && result.None? && !stream.stopRequested
      invariant 0 <= n <= |trials| && stream.Valid()
      invariant result.None? ==> stream.settled && stream.attempts == stream.reconnectIndex == n
      invariant Progress(stream, trials)
      invariant result.Some? ==> EndedBy(stream, trials, result.value)
      invariant old(stream.shared.accepted) <= stream.shared.accepted
      invariant stream.lane == old(stream.lane) || fresh(stream.lane)
    {
      result := stream.Try(trials, n);
      n := n + 1;
    }
    stream.WhatIsAccepted();
    ending := if result.Some? then result.value else if stream.stopRequested then Stopped else Unfinished;
  }
}
