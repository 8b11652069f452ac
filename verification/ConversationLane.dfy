/**
 One channel lane of a conversation: under any interleaving of stream messages and
 send replies the list is strictly sorted, agrees with both maps, and holds
 exactly the admitted messages with the largest sequences.
 */
module ConversationLane {
  import opened Wrappers

  datatype Message = Message(channel: nat, sequence: int, id: nat, content: string)

  /** Strictly sorted by sequence. */
  ghost predicate Sorted(ms: seq<Message>) {
    forall i, j | 0 <= i < j < |ms| :: ms[i].sequence < ms[j].sequence
  }

  /** Sorting a sorted list with one more message. */
  function Insert(ms: seq<Message>, m: Message): seq<Message> {
    if ms == [] || ms[|ms| - 1].sequence <= m.sequence then ms + [m]
    else Insert(ms[..|ms| - 1], m) + [ms[|ms| - 1]]
  }

  lemma {:induction false} InsertHolds(ms: seq<Message>, m: Message)
    ensures |Insert(ms, m)| == |ms| + 1
    ensures forall x :: x in Insert(ms, m) <==> x in ms || x == m
  {
    if ms != [] && ms[|ms| - 1].sequence > m.sequence {
      InsertHolds(ms[..|ms| - 1], m);
      assert ms == ms[..|ms| - 1] + [ms[|ms| - 1]];
    }
  }

  lemma {:induction false} InsertSorts(ms: seq<Message>, m: Message)
    requires Sorted(ms) && forall i | 0 <= i < |ms| :: ms[i].sequence != m.sequence
    ensures Sorted(Insert(ms, m))
  {
    if ms != [] && ms[|ms| - 1].sequence > m.sequence {
      var front, last := ms[..|ms| - 1], ms[|ms| - 1];
      InsertSorts(front, m);
      InsertHolds(front, m);
      forall i | 0 <= i < |Insert(front, m)|
        ensures Insert(front, m)[i].sequence < last.sequence
      {
        var x := Insert(front, m)[i];
        assert x in Insert(front, m);
        if x != m {
          var k :| 0 <= k < |front| && front[k] == x;
          assert ms[k].sequence < ms[|ms| - 1].sequence;
        }
      }
    }
  }

  /** The maps hold exactly the listed messages, by sequence and by identity. */
  ghost predicate Mapped(ms: seq<Message>, bySequence: map<int, Message>, byId: map<nat, Message>) {
    && (forall x {:trigger Filed(bySequence, byId, x)} :: x in ms <==> Filed(bySequence, byId, x))
    && (forall s | s in bySequence :: bySequence[s].sequence == s && bySequence[s] in ms)
    && (forall d | d in byId :: byId[d].id == d && byId[d] in ms)
  }

  predicate Filed(bySequence: map<int, Message>, byId: map<nat, Message>, x: Message) {
    x.sequence in bySequence && bySequence[x.sequence] == x && x.id in byId && byId[x.id] == x
  }

  /** The list holds the admitted messages with the largest sequences, as many as are retained. */
  ghost predicate Largest(ms: seq<Message>, admitted: set<Message>, bound: nat) {
    && (forall x | x in ms :: x in admitted)
    && (forall x | x in admitted :: x in ms || (|ms| == bound && forall i | 0 <= i < |ms| :: x.sequence < ms[i].sequence))
    && |ms| <= bound
  }

  /** The last `bound` messages of a list, or all of it. */
  function Newest(ms: seq<Message>, bound: nat): seq<Message> {
    if |ms| <= bound then ms else ms[|ms| - bound..]
  }

  class Lane {
    const channel: nat
    const maxRetained: nat
    var messages: seq<Message>
    var bySequence: map<int, Message>
    var byId: map<nat, Message>
    var cursor: int
    /** Every message ever admitted to the list. */
    ghost var admitted: set<Message>

    constructor (channel: nat, maxRetained: nat)
      requires 16 <= maxRetained <= 4_096
      ensures Valid() && this.channel == channel && this.maxRetained == maxRetained
      ensures messages == [] && cursor == 0 && admitted == {}
    {
      this.channel, this.maxRetained := channel, maxRetained;
      messages, bySequence, byId, cursor, admitted := [], map[], map[], 0, {};
    }

    ghost predicate Valid()
      reads this
    {
      && maxRetained > 0
      && Sorted(messages) && Mapped(messages, bySequence, byId) && Largest(messages, admitted, maxRetained)
    }

    /** The stored messages contradict this one: another channel, or a reused identity. */
    predicate Conflicts(m: Message)
      reads this
    {
      || m.channel != channel
      || (m.sequence in bySequence && bySequence[m.sequence] != m)
      || (m.id in byId && byId[m.id] != m)
    }

    predicate Admits(m: Message)
      reads this
    {
      m.sequence !in bySequence && m.id !in byId && m.sequence > cursor
    }

    /** A message conflicts exactly if it is of another channel, or shares a sequence or identity with another listed one. */
    lemma ConflictExactly(m: Message)
      requires Valid()
      ensures !Conflicts(m) <==>
                m.channel == channel && forall x | x in messages && (x.sequence == m.sequence || x.id == m.id) :: x == m
      ensures !Conflicts(m) ==> (Admits(m) <==> m !in messages && m.sequence > cursor)
    {
      forall x | x in messages
        ensures Filed(bySequence, byId, x)
      {
      }
      assert m in messages <==> Filed(bySequence, byId, m);
    }

    /** Takes a message from the stream or from the reply to a send. */
    method AcceptMessage(m: Message, fromStream: bool) returns (ok: bool)
      requires Valid()
      modifies this
      ensures Valid()
      ensures ok <==> m.channel == channel && forall x | x in old(messages) && (x.sequence == m.sequence || x.id == m.id) :: x == m
      ensures !ok ==> unchanged(this)
      ensures ok ==> admitted == old(admitted) + if m !in old(messages) && m.sequence > old(cursor) then {m} else {}
      ensures m in old(messages) || m.sequence <= old(cursor) ==> messages == old(messages)
      ensures forall x | x in messages :: x in old(messages) || x == m
      ensures cursor == if ok && fromStream && m.sequence > old(cursor) then m.sequence else old(cursor)
    {
      ConflictExactly(m);
      if Conflicts(m) {
        return false;
      }
      if Admits(m) {
        InsertHolds(messages, m);
        Admit(m);
        Evict();
      }
      if fromStream && m.sequence > cursor {
        cursor := m.sequence;
      }
      return true;
    }

    /** Files a new message; the list may exceed its bound by one until the caller evicts. */
    method Admit(m: Message)
      requires Valid() && m.sequence !in bySequence && m.id !in byId
      modifies this`messages, this`bySequence, this`byId, this`admitted
      ensures Sorted(messages) && Mapped(messages, bySequence, byId)
      ensures admitted == old(admitted) + {m} && messages == Insert(old(messages), m)
      ensures Overfull(messages, admitted, maxRetained)
    {
      InsertHolds(messages, m);
      forall i | 0 <= i < |messages|
        ensures messages[i].sequence != m.sequence
      {
        assert messages[i] in messages;
        assert Filed(bySequence, byId, messages[i]);
      }
      InsertSorts(messages, m);
      MappedInsert(messages, bySequence, byId, m, bySequence[m.sequence := m], byId[m.id := m]);
      OverfullInsert(messages, admitted, maxRetained, m);
      bySequence := bySequence[m.sequence := m];
      byId := byId[m.id := m];
      messages := Insert(messages, m);
      admitted := admitted + {m};
    }

    method EvictFirst()
      requires maxRetained > 0 && Sorted(messages) && Mapped(messages, bySequence, byId)
      requires |messages| > maxRetained && Overfull(messages, admitted, maxRetained)
      modifies this`messages, this`bySequence, this`byId
      ensures messages == old(messages)[1..] && Sorted(messages) && Mapped(messages, bySequence, byId)
      ensures Overfull(messages, admitted, maxRetained)
    {
      var expired := messages[0];
      MappedEvict(messages, bySequence, byId, bySequence - {expired.sequence}, byId - {expired.id});
      OverfullEvict(messages, admitted, maxRetained);
      messages := messages[1..];
      bySequence := bySequence - {expired.sequence};
      byId := byId - {expired.id};
    }

    /** Drops the smallest sequences until the bound holds. */
    method Evict()
      requires maxRetained > 0 && Sorted(messages) && Mapped(messages, bySequence, byId)
      requires Overfull(messages, admitted, maxRetained)
      modifies this`messages, this`bySequence, this`byId
      ensures Valid() && messages == Newest(old(messages), maxRetained)
    {
      while |messages| > maxRetained
        invariant Newest(messages, maxRetained) == Newest(old(messages), maxRetained)
        invariant Sorted(messages) && Mapped(messages, bySequence, byId) && Overfull(messages, admitted, maxRetained)
        decreases |messages|
      {
        NewestOfRest(messages, maxRetained);
        EvictFirst();
      }
      WithinBound(messages, admitted, maxRetained);
    }
  }

  /** As `Largest`, for a list that may still be above its bound. */
  ghost predicate Overfull(ms: seq<Message>, admitted: set<Message>, bound: nat) {
    && (forall x | x in ms :: x in admitted)
    && (forall x | x in admitted :: x in ms || Outgrown(ms, x.sequence, bound))
  }

  /** The sequence lies below everything the list will keep. */
  ghost predicate Outgrown(ms: seq<Message>, s: int, bound: nat) {
    |ms| >= bound && forall i | 0 <= i < |ms| && |ms| - bound <= i :: s < ms[i].sequence
  }

  lemma WithinBound(ms: seq<Message>, admitted: set<Message>, bound: nat)
    requires Overfull(ms, admitted, bound) && |ms| <= bound
    ensures Largest(ms, admitted, bound)
  {
  }

  lemma NewestOfRest(ms: seq<Message>, bound: nat)
    requires |ms| > bound
    ensures Newest(ms[1..], bound) == Newest(ms, bound)
  {
  }

  lemma MappedInsert(ms: seq<Message>, bySequence: map<int, Message>, byId: map<nat, Message>, m: Message,
                     bySequence': map<int, Message>, byId': map<nat, Message>)
    requires Mapped(ms, bySequence, byId) && m.sequence !in bySequence && m.id !in byId
    requires bySequence' == bySequence[m.sequence := m] && byId' == byId[m.id := m]
    ensures Mapped(Insert(ms, m), bySequence', byId')
  {
    InsertHolds(ms, m);
    forall x
      ensures x in Insert(ms, m) <==> Filed(bySequence', byId', x)
    {
      assert x in ms <==> Filed(bySequence, byId, x);
    }
  }

  lemma MappedEvict(ms: seq<Message>, bySequence: map<int, Message>, byId: map<nat, Message>,
                    bySequence': map<int, Message>, byId': map<nat, Message>)
    requires ms != [] && Sorted(ms) && Mapped(ms, bySequence, byId)
    requires bySequence' == bySequence - {ms[0].sequence} && byId' == byId - {ms[0].id}
    ensures Mapped(ms[1..], bySequence', byId')
  {
    assert ms == [ms[0]] + ms[1..];
    assert ms[0] in ms && Filed(bySequence, byId, ms[0]);
    forall x
      ensures x in ms[1..] <==> Filed(bySequence', byId', x)
    {
      assert x in ms <==> Filed(bySequence, byId, x);
      assert x in ms[1..] ==> x.sequence != ms[0].sequence;
    }
  }

  lemma OverfullInsert(ms: seq<Message>, admitted: set<Message>, bound: nat, m: Message)
    requires Largest(ms, admitted, bound) && Sorted(Insert(ms, m)) && bound > 0
    ensures Overfull(Insert(ms, m), admitted + {m}, bound)
  {
    InsertHolds(ms, m);
    var more := Insert(ms, m);
    forall x | x in admitted + {m}
      ensures x in more || Outgrown(more, x.sequence, bound)
    {
      if x !in ms && x != m {
        AboveAll(ms, m, x.sequence);
      }
    }
  }

  /** A sequence below everything kept is below everything but possibly the smallest after an insertion. */
  lemma AboveAll(ms: seq<Message>, m: Message, s: int)
    requires Sorted(Insert(ms, m)) && ms != [] && forall i | 0 <= i < |ms| :: s < ms[i].sequence
    ensures forall i | 1 <= i < |Insert(ms, m)| :: s < Insert(ms, m)[i].sequence
  {
    InsertHolds(ms, m);
    var more := Insert(ms, m);
    forall i | 1 <= i < |more|
      ensures s < more[i].sequence
    {
      assert more[i] in more && more[0] in more;
      assert more[0].sequence < more[i].sequence;
    }
  }

  lemma OverfullEvict(ms: seq<Message>, admitted: set<Message>, bound: nat)
    requires Sorted(ms) && |ms| > bound > 0 && Overfull(ms, admitted, bound)
    ensures Overfull(ms[1..], admitted, bound)
  {
    var rest := ms[1..];
    assert ms == [ms[0]] + rest;
    forall x | x in admitted
      ensures x in rest || Outgrown(rest, x.sequence, bound)
    {
      assert forall i | 0 <= i < |rest| :: rest[i] == ms[i + 1];
    }
  }
}
