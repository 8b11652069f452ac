/**
 The invocation-scoped message grant: within one activation at most eight messages
 are created, each under the armed identity, and none while no grant is active,
 whatever other parties do to the store meanwhile.
 */
module MessageGrant {
  import opened Wrappers
  import opened Tables
  import opened Protocol
  import opened Recovery
  import opened Evolution
  import A = DeliveryAnswers
  import K = Kernel
  import St = Stores

  const MAX_MESSAGES_PER_INVOCATION := 8
  const MAX_OPERATION_ID_BYTES := 128
  const MAX_MESSAGE_KIND_BYTES := 256
  const MAX_PAYLOAD_BYTES := 64 * 1024

  datatype Grant = Grant(
    invocation: Id, sender: Id, channel: Id, source: nat, correlation: Id, expiry: Time, published: nat,
    operations: set<Text>)

  datatype PublishInput = PublishInput(operation: Text, recipient: Id, kind: Text, payload: Text)

  predicate ValidInput(input: PublishInput) {
    && Bounded(input.operation, MAX_OPERATION_ID_BYTES)
    && Bounded(input.kind, MAX_MESSAGE_KIND_BYTES)
    && |input.payload| <= MAX_PAYLOAD_BYTES
  }

  /** The digest that names an operation inside an idempotency key. */
  type OperationDigest = Text -> Text

  function KeyFor(digest: OperationDigest, invocation: Id, operation: Text): MessageKey {
    CallerKey("invocation:" + Decimal(invocation) + ":publish:" + digest(operation))
  }

  /** Operations that the digest tells apart have keys of their own. */
  lemma KeysDiffer(digest: OperationDigest, invocation: Id, a: Text, b: Text)
    ensures KeyFor(digest, invocation, a) == KeyFor(digest, invocation, b) <==> digest(a) == digest(b)
  {
    var prefix := "invocation:" + Decimal(invocation) + ":publish:";
    assert (prefix + digest(a))[|prefix|..] == digest(a);
    assert (prefix + digest(b))[|prefix|..] == digest(b);
  }

  /** The grant fixes everything but the recipient, the kind and the payload. */
  function MessageFor(digest: OperationDigest, g: Grant, input: PublishInput): Message {
    Message(g.channel, g.sender, Some(KeyFor(digest, g.invocation, input.operation)), Some(input.recipient), input.kind,
            input.payload, Some(g.correlation), Some(g.source))
  }

  /** The correlation a turn's messages inherit: that of its input, or else the input itself. */
  function Thread(source: Message, m: nat): Id {
    if source.correlation.Some? then source.correlation.value else m
  }

  /** The grant lets this operation through: it is live, the recipient is a peer, and the budget allows it. */
  predicate Permits(g: Grant, input: PublishInput, now: Time) {
    && ValidInput(input) && g.expiry > now && input.recipient != g.sender
    && (input.operation in g.operations || g.published < MAX_MESSAGES_PER_INVOCATION)
  }

  /** A stored message that this grant may have produced. */
  predicate UnderGrant(t: Tables, g: Grant, m: nat) {
    && m in t.messages
    && t.messages[m].sender == g.sender && t.messages[m].channel == g.channel
    && t.messages[m].correlation == Some(g.correlation) && t.messages[m].causation == Some(g.source)
  }

  /** The key of this operation is taken, so publishing it again creates nothing. */
  ghost predicate Spent(t: Tables, digest: OperationDigest, g: Grant, operation: Text) {
    K.KeyHolders(t, g.sender, KeyFor(digest, g.invocation, operation)) != {}
  }

  lemma SpentStays(t: Tables, u: Tables, scope: Scope, digest: OperationDigest, g: Grant, operation: Text)
    requires Evolves(t, u, scope) && Spent(t, digest, g, operation)
    ensures Spent(u, digest, g, operation)
  {
    var key := KeyFor(digest, g.invocation, operation);
    var m :| m in K.KeyHolders(t, g.sender, key);
    assert MessageKept(t, u, m);
    assert m in K.KeyHolders(u, g.sender, key);
  }

  lemma MessageStays(t: Tables, u: Tables, scope: Scope, g: Grant, m: nat)
    requires Evolves(t, u, scope) && UnderGrant(t, g, m)
    ensures UnderGrant(u, g, m)
  {
    assert MessageKept(t, u, m);
  }

  /** An append of a grant's message: a known operation creates nothing, and afterwards the operation is known. */
  lemma AppendUnderGrant(t: Tables, u: Tables, digest: OperationDigest, g: Grant, input: PublishInput, now: Time,
                         created: bool)
    requires Unused(t) && K.AppendMessage(t, MessageFor(digest, g, input), now) == Ok((u, created))
    ensures Spent(u, digest, g, input.operation)
    ensures Spent(t, digest, g, input.operation) <==> !created
    ensures created ==> t.nextSeq !in t.messages && UnderGrant(u, g, t.nextSeq)
                        && u.messages == t.messages[t.nextSeq := u.messages[t.nextSeq]]
                        && u.messages[t.nextSeq].key == Some(KeyFor(digest, g.invocation, input.operation))
                        && u.messages[t.nextSeq].recipient == Some(input.recipient)
                        && u.messages[t.nextSeq].kind == input.kind && u.messages[t.nextSeq].payload == input.payload
    ensures !created ==> u == t
  {
    var key := KeyFor(digest, g.invocation, input.operation);
    if created {
      assert t.nextSeq in K.KeyHolders(u, g.sender, key);
    }
  }

  /** A well-formed message of an unspent operation that the channel takes is created. */
  lemma UnspentIsCreated(t: Tables, digest: OperationDigest, g: Grant, input: PublishInput, now: Time)
    requires Inv(t) && !Spent(t, digest, g, input.operation)
    requires var m := MessageFor(digest, g, input); A.WellFormed(m) && A.Takes(t, m)
    ensures var r := K.AppendMessage(t, MessageFor(digest, g, input), now);
            r.Ok? && r.value.1 && A.Appended(t, r.value.0, MessageFor(digest, g, input), now)
  {
    var m := MessageFor(digest, g, input);
    forall s
      ensures !A.HoldsKey(t, s, m)
    {
      assert A.HoldsKey(t, s, m) ==> s in K.KeyHolders(t, g.sender, KeyFor(digest, g.invocation, input.operation));
    }
    A.PostExactly(t, m, now);
  }

  /** Publishing one operation does not spend another that the digest tells apart. */
  lemma OperationsAreSeparate(t: Tables, u: Tables, digest: OperationDigest, g: Grant, input: PublishInput, now: Time,
                              created: bool, other: Text)
    requires Unused(t) && K.AppendMessage(t, MessageFor(digest, g, input), now) == Ok((u, created))
    requires digest(other) != digest(input.operation)
    ensures Spent(u, digest, g, other) <==> Spent(t, digest, g, other)
  {
    AppendUnderGrant(t, u, digest, g, input, now, created);
    KeysDiffer(digest, g.invocation, other, input.operation);
    var key := KeyFor(digest, g.invocation, other);
    assert K.KeyHolders(u, g.sender, key) == K.KeyHolders(t, g.sender, key);
  }

  class MessageBroker {
    const store: St.Store
    const digest: OperationDigest
    var active: Option<Grant>
    /** The messages created under the present activation. */
    ghost var created: seq<nat>

    constructor (store: St.Store, digest: OperationDigest)
      requires store.Valid()
      ensures this.store == store && this.digest == digest && active.None? && Valid()
    {
      this.store, this.digest, active, created := store, digest, None, [];
    }

    /** The counter is the number of messages created, and each of them carries the armed identity. */
    ghost predicate Valid()
      reads this, store
    {
      && store.Valid()
      && match active
         case None => created == []
         case Some(g) =>
           && g.published == |created| <= MAX_MESSAGES_PER_INVOCATION
           && (forall i | 0 <= i < |created| :: UnderGrant(store.db, g, created[i]))
           && (forall i, j | 0 <= i < j < |created| :: created[i] != created[j])
           && (forall o | o in g.operations :: Spent(store.db, digest, g, o))
    }

    method Activate(invocation: Id, inv: Invocation, source: Message, now: Time) returns (ok: bool)
      requires Valid()
      modifies this
      ensures Valid() && (ok <==> inv.expiry > now && old(active).None?)
      ensures !ok ==> active == old(active) && created == old(created)
      ensures ok ==> created == [] && active == Some(Grant(invocation, inv.key.agent, source.channel, inv.key.message,
                                                           Thread(source, inv.key.message), inv.expiry, 0, {}))
    {
      if inv.expiry <= now || active.Some? {
        return false;
      }
      var thread := Thread(source, inv.key.message);
      active := Some(Grant(invocation, inv.key.agent, source.channel, inv.key.message, thread, inv.expiry, 0, {}));
      created := [];
      return true;
    }

    method Deactivate(invocation: Id)
      requires Valid()
      modifies this
      ensures Valid()
      ensures old(active).Some? && old(active).value.invocation == invocation ==> active.None?
      ensures !(old(active).Some? && old(active).value.invocation == invocation) ==>
                active == old(active) && created == old(created)
    {
      if active.Some? && active.value.invocation == invocation {
        active, created := None, [];
      }
    }

    /**
     Publishes one message under the armed grant. It succeeds exactly when the grant
     permits the operation and the store takes the message; only a message that was
     created is charged to the budget.
     */
    method Publish(input: PublishInput, now: Time) returns (ok: bool)
      requires Valid()
      modifies this, store
      ensures Valid()
      ensures ok <==> && old(active).Some? && old(active).value.expiry > now && input.recipient != old(active).value.sender
                      && (input.operation in old(active).value.operations || old(active).value.published < 8)
                      && !Blank(input.operation) && |input.operation| <= 128 && !Blank(input.kind) && |input.kind| <= 256
                      && |input.payload| <= 65_536
                      && K.AppendMessage(old(store.db), MessageFor(digest, old(active).value, input), now).Ok?
      ensures !ok ==> active == old(active) && created == old(created) && store.db == old(store.db)
      ensures ok ==> Published(old(store.db), old(active).value, old(created), input, now)
      ensures ok && old(active).Some? ==>
                (created == old(created) + [old(store.db).nextSeq]
                 <==> !Spent(old(store.db), digest, old(active).value, input.operation))
      ensures created != old(created) ==> store.db.messages.Keys == old(store.db.messages).Keys + {old(store.db).nextSeq}
    {
      if active.None? || !Permits(active.value, input, now) {
        return false;
      }
      ok := Append(active.value, input, now);
    }

    /** What a successful call leaves: the store took the message of `g`, and a created one was charged. */
    ghost predicate Published(t: Tables, g: Grant, charged: seq<nat>, input: PublishInput, now: Time)
      reads this, store
    {
      && K.AppendMessage(t, MessageFor(digest, g, input), now) == Ok((store.db, created != charged))
      && (created == charged || created == charged + [t.nextSeq])
      && active == Some(g.(published := |created|, operations := g.operations + {input.operation}))
    }

    /** The durable append, and the bookkeeping of a call that succeeded. */
    method Append(g: Grant, input: PublishInput, now: Time) returns (ok: bool)
      requires Valid() && active == Some(g)
      requires input.operation in g.operations || g.published < MAX_MESSAGES_PER_INVOCATION
      modifies this, store
      ensures Valid()
      ensures ok <==> K.AppendMessage(old(store.db), MessageFor(digest, g, input), now).Ok?
      ensures !ok ==> active == old(active) && created == old(created) && store.db == old(store.db)
      ensures ok ==> Published(old(store.db), g, old(created), input, now)
      ensures ok ==> (created == old(created) + [old(store.db).nextSeq] <==> !Spent(old(store.db), digest, g, input.operation))
      ensures created != old(created) ==> store.db.messages.Keys == old(store.db.messages).Keys + {old(store.db).nextSeq}
    {
      ghost var t := store.db;
      InvUnused(t);
      var error, made := store.PostMessage(MessageFor(digest, g, input), now);
      if error.Some? {
        return false;
      }
      AppendUnderGrant(t, store.db, digest, g, input, now, made.value);
      AppendEvolves(t, MessageFor(digest, g, input), now);
      var g' := g.(published := if made.value then g.published + 1 else g.published,
                   operations := g.operations + {input.operation});
      forall o | o in g'.operations
        ensures Spent(store.db, digest, g', o)
      {
        if o in g.operations {
          SpentStays(t, store.db, NOTHING, digest, g, o);
        }
        assert Spent(store.db, digest, g, o);
      }
      forall i | 0 <= i < |created|
        ensures UnderGrant(store.db, g', created[i]) && created[i] in t.messages
      {
        MessageStays(t, store.db, NOTHING, g, created[i]);
      }
      active := Some(g');
      created := if made.value then created + [t.nextSeq] else created;
      return true;
    }

    /** Other parties use the store while the grant is, or is not, active. */
    method Others(calls: seq<Action>)
      requires Valid()
      modifies store
      ensures Valid()
    {
      ghost var t := store.db;
      StepsKeep(t, calls);
      store.PerformAll(calls);
      if active.Some? {
        GrantSurvives(t, store.db, digest, active.value, created);
      }
    }
  }

  lemma AppendEvolves(t: Tables, m: Message, now: Time)
    requires Unused(t) && K.AppendMessage(t, m, now).Ok?
    ensures Evolves(t, K.AppendMessage(t, m, now).value.0, NOTHING)
  {
    PostEvolves(t, m, now);
  }

  lemma GrantSurvives(t: Tables, u: Tables, digest: OperationDigest, g: Grant, created: seq<nat>)
    requires Later(t, u)
    requires forall i | 0 <= i < |created| :: UnderGrant(t, g, created[i])
    requires forall o | o in g.operations :: Spent(t, digest, g, o)
    ensures forall i | 0 <= i < |created| :: UnderGrant(u, g, created[i])
    ensures forall o | o in g.operations :: Spent(u, digest, g, o)
  {
    var scope :| Evolves(t, u, scope);
    forall i | 0 <= i < |created|
      ensures UnderGrant(u, g, created[i])
    {
      MessageStays(t, u, scope, g, created[i]);
    }
    forall o | o in g.operations
      ensures Spent(u, digest, g, o)
    {
      SpentStays(t, u, scope, digest, g, o);
    }
  }
}
