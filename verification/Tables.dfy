/**
 The durable rows behind the dispatch fence.

 Identifiers, tokens and references are only ever compared for equality, so they
 are natural numbers. A message is addressed by its durable sequence; its public
 UUID is in one-to-one correspondence with it. Text is the sequence of its UTF-8
 code units, so its length is its length in bytes.
 */
module Tables {
  import opened Wrappers

  type Id = nat
  type Time = int
  type Text = string

  const I64_MAX: int := 0x7FFF_FFFF_FFFF_FFFF

  // ---- messages and channels ---------------------------------------------

  /** Only a membership in inbox mode receives deliveries. */
  datatype DeliveryMode = Inbox | StreamOnly

  datatype Channel = Channel(archived: bool, members: map<Id, DeliveryMode>)

  /** Idempotency keys by the two formats the execution layer builds. */
  datatype MessageKey = ResultKey(invocation: Id) | CallerKey(text: Text)

  datatype Message = Message(
    channel: Id, sender: Id, key: Option<MessageKey>, recipient: Option<Id>,
    kind: Text, payload: Text, correlation: Option<Id>, causation: Option<nat>)

  // ---- deliveries and blocks ---------------------------------------------

  datatype DeliveryKey = DeliveryKey(message: nat, agent: Id)

  datatype DeliveryState =
    | Pending
    | Leased(token: Id, expiry: Time)
    | Blocked
    | Acknowledged
    | Dead

  datatype Settlement = SettledAcknowledged | SettledRetry | SettledBlocked

  datatype Delivery = Delivery(
    state: DeliveryState, attempt: nat, availableAt: Time, lastError: Option<Text>,
    lastSettled: Option<(Id, Settlement)>)

  datatype Resolution = Requeue | Abandon

  datatype Resolved = Resolved(how: Resolution, note: Option<Text>, retryAfter: nat)

  datatype Block = Block(
    key: DeliveryKey, attempt: nat, token: Id, reason: Text, resolved: Option<Resolved>)

  // ---- invocations ---------------------------------------------------------

  datatype Certainty = NotStarted | OutcomeKnown | OutcomeUnknown

  datatype TerminalReason =
    | Completed(result: nat)
    | AcknowledgedBy
    | RetriedBy
    | BlockedBy
    | ReservationExpired
    | LeaseExpiredAfterArm

  datatype InvocationState =
    | Reserved
    | Armed(armedAt: Time)
    | Terminal(armed: Option<Time>, at: Time, certainty: Certainty, reason: TerminalReason)

  datatype Invocation = Invocation(
    key: DeliveryKey, attempt: nat, token: Id, expiry: Time, fence: Id,
    state: InvocationState, reservedAt: Time)
  {
    /** Whether the write-ahead dispatch fence of this attempt ever committed. */
    predicate EverArmed() {
      state.Armed? || (state.Terminal? && state.armed.Some?)
    }

    predicate Ended(certainty: Certainty) {
      state.Terminal? && state.certainty == certainty
    }

    predicate HasResult() {
      state.Terminal? && state.reason.Completed?
    }
  }

  // ---- sessions ------------------------------------------------------------

  datatype Lane = Lane(agent: Id, policy: Id, key: Id)

  datatype Configuration = Configuration(
    profileDigest: Id, compatibilityDigest: Id, workingDirectory: Id, additionalDirectories: seq<Id>)

  datatype BindingKey = BindingKey(id: Id, generation: nat)

  datatype BindingState = Opening | Ready | Active | Uncertain | Retired

  datatype Persistence = Confirmed | RuntimeClaimed | UnknownPersistence

  datatype Binding = Binding(
    lane: Lane, epoch: nat, owner: Id, config: Configuration, sessionRef: Option<Id>,
    state: BindingState, active: Option<Id>, lastQuiescent: Option<Id>,
    uncertainReason: Option<Text>, retiredReason: Option<Text>)

  datatype TurnState =
    | TurnActive
    | TurnQuiescent(persistence: Persistence)
    | TurnUncertain(reason: Text)

  datatype Turn = Turn(binding: BindingKey, epoch: nat, state: TurnState)

  /** What a controller holds: the exact binding generation and owner epoch. */
  datatype Handle = Handle(id: Id, generation: nat, epoch: nat) {
    function Key(): BindingKey {
      BindingKey(id, generation)
    }
  }

  datatype PluginGeneration = PluginGeneration(agent: Id, active: bool)

  // ---- the store -------------------------------------------------------------

  /**
   All tables, together with the counters that issue message sequences, block
   row numbers, and fresh UUIDs.
   */
  datatype Tables = Tables(
    agents: set<Id>,
    channels: map<Id, Channel>,
    generations: map<Id, PluginGeneration>,
    messages: map<nat, Message>,
    deliveries: map<DeliveryKey, Delivery>,
    blocks: map<nat, Block>,
    invocations: map<Id, Invocation>,
    bindings: map<BindingKey, Binding>,
    turns: map<Id, Turn>,
    observed: set<Id>,
    nextSeq: nat,
    nextBlock: nat,
    nextId: nat)

  const EMPTY: Tables := Tables({}, map[], map[], map[], map[], map[], map[], map[], map[], {}, 1, 1, 0)

  // ---- text ------------------------------------------------------------------

  predicate Blank(t: Text) {
    forall i | 0 <= i < |t| :: t[i] in {' ', '\t', '\n', '\r'}
  }

  predicate Bounded(t: Text, limit: nat) {
    !Blank(t) && |t| <= limit
  }

  function Decimal(n: nat): Text {
    if n < 10 then [['0', '1', '2', '3', '4', '5', '6', '7', '8', '9'][n]]
    else Decimal(n / 10) + Decimal(n % 10)
  }
}
