/**
 Serial acceptance of one channel's messages: accepted sequences strictly rise,
 the cursor is the last one accepted, and the two identity maps are mutual
 inverses over exactly the most recently accepted messages.
 */
module StreamAcceptance {
  import opened Wrappers

  const MAX_RETAINED_IDENTITIES := 4_096

  type MessageId = nat

  datatype Message = Message(sequence: int, id: MessageId, content: string)

  datatype Duplicate = New | Duplicate | Conflicting

  // ---- what has been accepted ---------------------------------------------------------------

  /** Strictly rising sequences, all above `start`. */
  ghost predicate Rising(start: int, a: seq<Message>) {
    forall i: nat, j: nat {:trigger InOrder(start, a, i, j)} | i <= j < |a| :: InOrder(start, a, i, j)
  }

  predicate InOrder(start: int, a: seq<Message>, i: nat, j: nat)
    requires i <= j < |a|
  {
    start < a[i].sequence && (i < j ==> a[i].sequence < a[j].sequence)
  }

  /** Everything accepted lies at or below the last sequence, and that above `start`. */
  lemma LastIsHighest(start: int, a: seq<Message>)
    requires Rising(start, a)
    ensures start <= LastSequence(start, a)
    ensures forall i | 0 <= i < |a| :: a[i].sequence <= LastSequence(start, a)
  {
    forall i: nat | i < |a|
      ensures start < a[i].sequence <= LastSequence(start, a)
    {
      assert InOrder(start, a, i, |a| - 1);
    }
    assert a != [] ==> start < a[|a| - 1].sequence;
  }

  /** A message above the last one continues the rise. */
  lemma RisesFurther(start: int, a: seq<Message>, m: Message)
    requires Rising(start, a) && LastSequence(start, a) < m.sequence
    ensures Rising(start, a + [m])
  {
    LastIsHighest(start, a);
    forall i: nat, j: nat | i <= j < |a + [m]|
      ensures InOrder(start, a + [m], i, j)
    {
      assert j < |a| ==> InOrder(start, a, i, j);
      assert i < |a| ==> InOrder(start, a, i, i);
    }
  }

  function LastSequence(start: int, a: seq<Message>): int {
    if a == [] then start else a[|a| - 1].sequence
  }

  /** The most recently accepted messages, as many as are retained. */
  function Window(a: seq<Message>): seq<Message> {
    if |a| <= MAX_RETAINED_IDENTITIES then a else a[|a| - MAX_RETAINED_IDENTITIES..]
  }

  /** Position `i` of the retained messages, in the queue and in both maps. */
  predicate Entry(w: seq<Message>, bySequence: map<int, MessageId>, byId: map<MessageId, int>, order: seq<int>, i: nat)
    requires i < |w| && |order| == |w|
  {
    && order[i] == w[i].sequence
    && w[i].sequence in bySequence && bySequence[w[i].sequence] == w[i].id
    && w[i].id in byId && byId[w[i].id] == w[i].sequence
  }

  ghost predicate HasSequence(w: seq<Message>, s: int) {
    exists i: nat :: i < |w| && w[i].sequence == s
  }

  ghost predicate HasId(w: seq<Message>, d: MessageId) {
    exists i: nat :: i < |w| && w[i].id == d
  }

  /** The maps and the queue of retained sequences describe exactly the messages `w`, both ways. */
  ghost predicate Indexes(w: seq<Message>, bySequence: map<int, MessageId>, byId: map<MessageId, int>, order: seq<int>) {
    && |order| == |w|
    && (forall i: nat {:trigger Entry(w, bySequence, byId, order, i)} | i < |w| :: Entry(w, bySequence, byId, order, i))
    && (forall s {:trigger HasSequence(w, s)} | s in bySequence :: HasSequence(w, s))
    && (forall d {:trigger HasId(w, d)} | d in byId :: HasId(w, d))
  }

  /** Looking up a sequence and then its identity, or the other way round, returns where it started. */
  lemma MapsAreInverse(w: seq<Message>, bySequence: map<int, MessageId>, byId: map<MessageId, int>, order: seq<int>)
    requires Indexes(w, bySequence, byId, order)
    ensures forall s | s in bySequence :: bySequence[s] in byId && byId[bySequence[s]] == s
    ensures forall d | d in byId :: byId[d] in bySequence && bySequence[byId[d]] == d
  {
    forall s | s in bySequence
      ensures bySequence[s] in byId && byId[bySequence[s]] == s
    {
      assert HasSequence(w, s);
      var i: nat :| i < |w| && w[i].sequence == s;
      assert Entry(w, bySequence, byId, order, i);
    }
    forall d | d in byId
      ensures byId[d] in bySequence && bySequence[byId[d]] == d
    {
      assert HasId(w, d);
      var i: nat :| i < |w| && w[i].id == d;
      assert Entry(w, bySequence, byId, order, i);
    }
  }

  lemma IndexesAppend(w: seq<Message>, bySequence: map<int, MessageId>, byId: map<MessageId, int>, order: seq<int>, m: Message,
                      bySequence': map<int, MessageId>, byId': map<MessageId, int>)
    requires Indexes(w, bySequence, byId, order) && m.sequence !in bySequence && m.id !in byId
    requires bySequence' == bySequence[m.sequence := m.id] && byId' == byId[m.id := m.sequence]
    ensures Indexes(w + [m], bySequence', byId', order + [m.sequence])
  {
    var v := w + [m];
    forall i: nat | i < |v|
      ensures Entry(v, bySequence', byId', order + [m.sequence], i)
    {
      assert i < |w| ==> Entry(w, bySequence, byId, order, i);
    }
    assert v[|w|] == m;
    forall s | s in bySequence'
      ensures HasSequence(v, s)
    {
      if s != m.sequence {
        assert HasSequence(w, s);
        var i: nat :| i < |w| && w[i].sequence == s;
        assert v[i].sequence == s;
      }
    }
    forall d | d in byId'
      ensures HasId(v, d)
    {
      if d != m.id {
        assert HasId(w, d);
        var i: nat :| i < |w| && w[i].id == d;
        assert v[i].id == d;
      }
    }
  }

  lemma IndexesExpire(w: seq<Message>, bySequence: map<int, MessageId>, byId: map<MessageId, int>, order: seq<int>,
                      bySequence': map<int, MessageId>, byId': map<MessageId, int>)
    requires w != [] && Indexes(w, bySequence, byId, order)
    requires forall i | 0 < i < |w| :: w[0].sequence < w[i].sequence
    requires bySequence' == bySequence - {w[0].sequence} && byId' == byId - {w[0].id}
    ensures Indexes(w[1..], bySequence', byId', order[1..])
  {
    var v := w[1..];
    assert Entry(w, bySequence, byId, order, 0);
    forall i: nat | i < |v|
      ensures Entry(v, bySequence', byId', order[1..], i)
    {
      assert Entry(w, bySequence, byId, order, i + 1) && v[i] == w[i + 1];
      assert w[0].sequence < w[i + 1].sequence;
    }
    forall s | s in bySequence'
      ensures HasSequence(v, s)
    {
      assert HasSequence(w, s);
      var i: nat :| i < |w| && w[i].sequence == s;
      assert v[i - 1].sequence == s;
    }
    forall d | d in byId'
      ensures HasId(v, d)
    {
      assert HasId(w, d);
      var i: nat :| i < |w| && w[i].id == d;
      assert v[i - 1].id == d;
    }
  }

  /** The two share a sequence or an identity, but not both. */
  predicate Clashes(a: Message, b: Message) {
    (a.sequence == b.sequence) != (a.id == b.id)
  }

  /** The first of the last messages has the lowest sequence of them. */
  lemma WindowRises(start: int, a: seq<Message>, v: seq<Message>)
    requires Rising(start, a) && 0 < |v| <= |a| && v == a[|a| - |v|..]
    ensures forall i | 0 < i < |v| :: v[0].sequence < v[i].sequence
  {
    forall i | 0 < i < |v|
      ensures v[0].sequence < v[i].sequence
    {
      assert InOrder(start, a, |a| - |v|, |a| - |v| + i);
    }
  }

  class Acceptance {
    var cursor: int
    var bySequence: map<int, MessageId>
    var byId: map<MessageId, int>
    var order: seq<int>
    ghost const start: int
    ghost var accepted: seq<Message>

    constructor (start: int)
      ensures this.start == start && cursor == start && accepted == [] && Valid()
    {
      this.start, cursor := start, start;
      bySequence, byId, order := map[], map[], [];
      accepted := [];
    }

    ghost predicate Valid()
      reads this
    {
      && Rising(start, accepted)
      && cursor == LastSequence(start, accepted)
      && Indexes(Window(accepted), bySequence, byId, order)
    }

    function Classify(m: Message): Duplicate
      reads this
    {
      if m.id in byId && byId[m.id] != m.sequence then Conflicting
      else if m.sequence in bySequence && bySequence[m.sequence] != m.id then Conflicting
      else if m.sequence <= cursor then Duplicate.Duplicate
      else New
    }

    /**
     A message conflicts exactly with a retained message that shares its sequence or its
     identity but not both; of the others, those above the cursor are new.
     */
    lemma ClassifyExactly(m: Message)
      requires Valid()
      ensures Classify(m).Conflicting? <==> exists i: nat :: i < |Window(accepted)| && Clashes(Window(accepted)[i], m)
      ensures Classify(m).New? <==> !Classify(m).Conflicting? && m.sequence > cursor
    {
      var w := Window(accepted);
      forall i: nat | i < |w|
        ensures Clashes(w[i], m) ==> Classify(m).Conflicting?
      {
        assert Entry(w, bySequence, byId, order, i);
      }
      if Classify(m).Conflicting? {
        assert m.id in byId ==> HasId(w, m.id);
        assert m.sequence in bySequence ==> HasSequence(w, m.sequence);
        var i: nat :| i < |w| && (if m.id in byId && byId[m.id] != m.sequence then w[i].id == m.id else w[i].sequence == m.sequence);
        assert Entry(w, bySequence, byId, order, i);
        assert Clashes(w[i], m);
      }
    }

    /** A new message is above everything accepted, and its identity is not retained. */
    lemma NewIsUnseen(m: Message)
      requires Valid() && Classify(m).New?
      ensures m.sequence !in bySequence && m.id !in byId
    {
      var w := Window(accepted);
      assert m.sequence in bySequence ==> HasSequence(w, m.sequence);
      LastIsHighest(start, accepted);
      assert forall i | 0 <= i < |w| :: w[i].sequence <= cursor;
      MapsAreInverse(w, bySequence, byId, order);
    }

    /** The consumer accepted `m`: the cursor moves to it and its identity is remembered. */
    method Accept(m: Message)
      requires Valid() && Classify(m).New?
      modifies this
      ensures Valid() && accepted == old(accepted) + [m] && cursor == m.sequence
    {
      ghost var w := Window(accepted);
      NewIsUnseen(m);
      RisesFurther(start, accepted, m);
      IndexesAppend(w, bySequence, byId, order, m, bySequence[m.sequence := m.id], byId[m.id := m.sequence]);
      cursor := m.sequence;
      bySequence := bySequence[m.sequence := m.id];
      byId := byId[m.id := m.sequence];
      order := order + [m.sequence];
      accepted := accepted + [m];
      if |order| > MAX_RETAINED_IDENTITIES {
        ghost var v := w + [m];
        WindowRises(start, accepted, v);
        assert Entry(v, bySequence, byId, order, 0);
        IndexesExpire(v, bySequence, byId, order, bySequence - {v[0].sequence}, byId - {v[0].id});
        var expired := order[0];
        order := order[1..];
        var id := bySequence[expired];
        bySequence := bySequence - {expired};
        byId := byId - {id};
        assert v[1..] == Window(accepted);
      } else {
        assert w + [m] == Window(accepted);
      }
    }
  }
}
