/**
 The observation row of one invocation: harness updates are folded one by one
 into counters and the chain digest, then a terminal summary freezes the row.
 */
module EventFold {
  import opened Wrappers
  import opened Tables
  import opened Json
  import opened EvidenceChain

  const MAX_EVIDENCE_JSON_BYTES := 1024 * 1024

  // ---- classes ------------------------------------------------------------------------------

  datatype EventClass = Prompt | Assistant | Reasoning | Tool | Plan | Usage | Metadata | Permission | Unknown

  /** The wire classifications that name a class; any other is unknown. */
  const NAMES: seq<(Text, EventClass)> := [
    ("user_message_content", Prompt), ("agent_message_content", Assistant), ("reasoning_content", Reasoning),
    ("tool_call", Tool), ("tool_call_update", Tool), ("plan_update", Plan), ("usage", Usage), ("metadata", Metadata),
    ("permission_request", Permission)]

  function Lookup(names: seq<(Text, EventClass)>, classification: Text): EventClass {
    if names == [] then Unknown
    else if names[0].0 == classification then names[0].1
    else Lookup(names[1..], classification)
  }

  function Parse(classification: Text): EventClass {
    Lookup(NAMES, classification)
  }

  datatype Counters = Counters(
    prompt: nat, assistant: nat, reasoning: nat, tool: nat, plan: nat, usage: nat, metadata: nat, permission: nat,
    unknown: nat)
  {
    function Plus(c: Counters): Counters {
      Counters(prompt + c.prompt, assistant + c.assistant, reasoning + c.reasoning, tool + c.tool, plan + c.plan,
               usage + c.usage, metadata + c.metadata, permission + c.permission, unknown + c.unknown)
    }

    function Total(): nat {
      prompt + assistant + reasoning + tool + plan + usage + metadata + permission + unknown
    }

    function Of(category: EventClass): nat {
      match category
      case Prompt => prompt
      case Assistant => assistant
      case Reasoning => reasoning
      case Tool => tool
      case Plan => plan
      case Usage => usage
      case Metadata => metadata
      case Permission => permission
      case Unknown => unknown
    }
  }

  const ZERO := Counters(0, 0, 0, 0, 0, 0, 0, 0, 0)

  function Increments(classification: Text): Counters {
    match Parse(classification)
    case Prompt => ZERO.(prompt := 1)
    case Assistant => ZERO.(assistant := 1)
    case Reasoning => ZERO.(reasoning := 1)
    case Tool => ZERO.(tool := 1)
    case Plan => ZERO.(plan := 1)
    case Usage => ZERO.(usage := 1)
    case Metadata => ZERO.(metadata := 1)
    case Permission => ZERO.(permission := 1)
    case Unknown => ZERO.(unknown := 1)
  }

  // ---- the row --------------------------------------------------------------------------------

  datatype TerminalSummary = TerminalSummary(
    stopReason: Text, runtimeStopReason: Option<Text>, certainty: Certainty, quiescent: bool, persistence: Persistence,
    usage: Text)

  datatype Row = Row(
    lastSeq: nat, lastDigest: Option<Text>, chain: Option<Text>, eventCount: nat, payloadBytes: nat,
    firstAt: Option<int>, lastAt: Option<int>, counts: Counters, terminal: Option<TerminalSummary>)

  /** The row as arming inserts it. */
  const FRESH_ROW := Row(0, None, None, 0, 0, None, None, ZERO, None)

  /** An update as the harness offers it. */
  datatype Offer =
    | Event(position: nat, at: int, classification: Text, raw: Value)
    | Terminal(lastSeq: nat, summary: TerminalSummary)

  function UpdateOf(o: Offer): Update
    requires o.Event?
  {
    Update(o.position, o.at, o.classification, Serialize(o.raw))
  }

  predicate ValidEvent(o: Offer)
    requires o.Event?
  {
    o.position > 0 && o.at > 0 && !Blank(o.classification) && o.position <= I64_MAX
  }

  /** The columns one accepted update writes. */
  function Folded(sha: Codes -> Text, row: Row, e: Update): Row
    requires e.at >= 0
  {
    var digest := EventDigest(sha, e);
    Row(e.position, Some(digest), Some(Digest(sha, ChainInput(row.chain, digest))), row.eventCount + 1,
        row.payloadBytes + |e.raw|, if row.firstAt.Some? then row.firstAt else Some(e.at), Some(e.at),
        row.counts.Plus(Increments(e.classification)), row.terminal)
  }

  /** The row takes the offer as its next update. */
  predicate Takes(r: Row, active: bool, o: Offer) {
    o.Event? && ValidEvent(o) && active && r.terminal.None? && o.position == r.lastSeq + 1
  }

  /** What one offer does to a row: the row it leaves, or the error it is refused with. */
  function Offered(sha: Codes -> Text, r: Row, active: bool, o: Offer): Result<Row> {
    match o
    case Event(_, _, _, _) =>
      if !ValidEvent(o) then Err(Invalid)
      else if !active || r.terminal.Some? then Err(Conflict)
      else if o.position == r.lastSeq && r.lastDigest == Some(EventDigest(sha, UpdateOf(o))) then Ok(r)
      else if o.position == r.lastSeq + 1 then Ok(Folded(sha, r, UpdateOf(o)))
      else Err(Conflict)
    case Terminal(lastSeq, summary) =>
      if lastSeq > I64_MAX || |summary.usage| > MAX_EVIDENCE_JSON_BYTES then Err(Invalid)
      else if r.lastSeq != lastSeq || (r.terminal.Some? && r.terminal != Some(summary)) then Err(Conflict)
      else Ok(r.(terminal := Some(summary)))
  }

  /** A refused offer leaves the row as it was. */
  function RowAfter(sha: Codes -> Text, r: Row, active: bool, o: Offer): Row {
    var offered := Offered(sha, r, active, o);
    if offered.Ok? then offered.value else r
  }

  /** The updates a row takes from a sequence of offers. */
  function TakenFrom(sha: Codes -> Text, r: Row, active: bool, offers: seq<Offer>): seq<Update>
    decreases |offers|
  {
    if offers == [] then []
    else Taken(r, active, offers[0]) + TakenFrom(sha, RowAfter(sha, r, active, offers[0]), active, offers[1..])
  }

  function Taken(r: Row, active: bool, o: Offer): seq<Update> {
    if Takes(r, active, o) then [UpdateOf(o)] else []
  }

  /** The row a sequence of offers leaves. */
  function RowAfterAll(sha: Codes -> Text, r: Row, active: bool, offers: seq<Offer>): Row
    decreases |offers|
  {
    if offers == [] then r else RowAfterAll(sha, RowAfter(sha, r, active, offers[0]), active, offers[1..])
  }

  /** A terminal row takes nothing and never changes. */
  lemma {:induction false} TerminalRowIsFrozen(sha: Codes -> Text, r: Row, active: bool, offers: seq<Offer>)
    requires r.terminal.Some?
    ensures RowAfterAll(sha, r, active, offers) == r && TakenFrom(sha, r, active, offers) == []
    decreases |offers|
  {
    if offers != [] {
      assert RowAfter(sha, r, active, offers[0]) == r;
      TerminalRowIsFrozen(sha, r, active, offers[1..]);
    }
  }

  /** After the first `i` offers the row is `r` and `taken` was taken; the rest completes the whole. */
  ghost predicate Midway(sha: Codes -> Text, first: Row, active: bool, offers: seq<Offer>, i: nat, r: Row,
                         taken: seq<Update>)
    requires i <= |offers|
  {
    && taken + TakenFrom(sha, r, active, offers[i..]) == TakenFrom(sha, first, active, offers)
    && RowAfterAll(sha, r, active, offers[i..]) == RowAfterAll(sha, first, active, offers)
  }

  lemma MidwayBegins(sha: Codes -> Text, first: Row, active: bool, offers: seq<Offer>)
    ensures Midway(sha, first, active, offers, 0, first, [])
  {
    assert offers[0..] == offers;
  }

  lemma MidwayMoves(sha: Codes -> Text, first: Row, active: bool, offers: seq<Offer>, i: nat, r: Row, taken: seq<Update>)
    requires i < |offers| && Midway(sha, first, active, offers, i, r, taken)
    ensures Midway(sha, first, active, offers, i + 1, RowAfter(sha, r, active, offers[i]),
                   taken + Taken(r, active, offers[i]))
  {
    OneOfferMore(sha, r, active, offers, i);
  }

  lemma MidwayEnds(sha: Codes -> Text, first: Row, active: bool, offers: seq<Offer>, r: Row, taken: seq<Update>)
    requires Midway(sha, first, active, offers, |offers|, r, taken)
    ensures taken == TakenFrom(sha, first, active, offers) && r == RowAfterAll(sha, first, active, offers)
  {
  }

  /** One offer more: what it takes, then what the rest takes. */
  lemma OneOfferMore(sha: Codes -> Text, r: Row, active: bool, offers: seq<Offer>, i: nat)
    requires i < |offers|
    ensures var next := RowAfter(sha, r, active, offers[i]);
            && TakenFrom(sha, r, active, offers[i..]) == Taken(r, active, offers[i]) + TakenFrom(sha, next, active, offers[i + 1..])
            && RowAfterAll(sha, r, active, offers[i..]) == RowAfterAll(sha, next, active, offers[i + 1..])
  {
    assert offers[i..][0] == offers[i] && offers[i..][1..] == offers[i + 1..];
  }

  /** How a recording reports: the error, and the row it left. */
  ghost predicate Reports(offered: Result<Row>, error: Option<FleetError>, before: Row, after: Option<Row>) {
    && (offered.Ok? ==> error.None? && after == Some(offered.value))
    && (offered.Err? ==> error == Some(offered.error) && after == Some(before))
  }

  // ---- recording ---------------------------------------------------------------------------------

  class Observation {
    const sha: Codes -> Text
    /** The row, absent until a session arm inserts it. */
    var row: Option<Row>
    /** Whether the plugin generation of the row is still active. */
    var active: bool
    /** The updates folded so far. */
    ghost var history: seq<Update>

    constructor (sha: Codes -> Text)
      ensures this.sha == sha && row.None? && history == [] && Valid()
    {
      this.sha := sha;
      row, active, history := None, true, [];
    }

    /** The row is exactly the summary of the updates accepted since it was inserted. */
    ghost predicate Valid()
      reads this
    {
      if row.None? then history == [] else Describes(sha, row.value, history)
    }

    /** The row a session arm inserts. */
    method Begin()
      requires Valid() && row.None?
      modifies this`row
      ensures Valid() && row == Some(FRESH_ROW)
    {
      FreshDescribes(sha);
      row := Some(FRESH_ROW);
    }

    /** The offer is the next update of a live row. */
    ghost predicate Accepts(o: Offer)
      requires o.Event?
      reads this
    {
      row.Some? && ValidEvent(o) && active && row.value.terminal.None? && o.position == |history| + 1
    }

    /** The offer repeats the last update of a live row, by its digest. */
    ghost predicate Repeats(o: Offer)
      requires o.Event?
      reads this
    {
      && row.Some? && ValidEvent(o) && active && row.value.terminal.None?
      && history != [] && o.position == |history|
      && row.value.lastDigest == Some(EventDigest(sha, UpdateOf(o)))
    }

    /** Folds one update; an exact repeat of the last one is accepted and changes nothing. */
    method RecordEvent(o: Offer) returns (error: Option<FleetError>)
      requires Valid() && o.Event? && o.at <= I64_MAX
      modifies this`row, this`history
      ensures Valid()
      ensures if old(Accepts(o)) then history == old(history) + [UpdateOf(o)] && row.Some? && row.value.terminal.None?
              else row == old(row) && history == old(history)
      ensures error.None? <==> old(Accepts(o)) || old(Repeats(o))
      ensures old(row).None? ==> row.None? && error.Some?
      ensures old(row).Some? ==>
                && (old(Accepts(o)) <==> Takes(old(row).value, active, o))
                && Reports(Offered(sha, old(row).value, active, o), error, old(row).value, row)
    {
      if o.position == 0 || o.at <= 0 || Blank(o.classification) || o.position > I64_MAX {
        return Some(Invalid);
      }
      if row.None? {
        return Some(NotFound);
      }
      var r := row.value;
      if !active || r.terminal.Some? {
        return Some(Conflict);
      }
      var e := UpdateOf(o);
      SerializedIsPrintable(o.raw);
      assert ColumnAgrees(sha, r, history, Numbering);
      if o.position == r.lastSeq {
        return if r.lastDigest == Some(EventDigest(sha, e)) then None else Some(Conflict);
      }
      if o.position != r.lastSeq + 1 {
        return Some(Conflict);
      }
      Fold(e);
      return None;
    }

    /** Writes the columns of the next update. */
    method Fold(e: Update)
      requires Valid() && row.Some? && Admissible(e) && e.position == |history| + 1
      modifies this`row, this`history
      ensures Valid() && history == old(history) + [e] && row == Some(Folded(sha, old(row).value, e))
    {
      FoldingDescribes(sha, row.value, history, e);
      row := Some(Folded(sha, row.value, e));
      history := history + [e];
    }

    /** Freezes the row; an exact repeat is accepted and changes nothing. */
    method RecordTerminal(o: Offer) returns (error: Option<FleetError>)
      requires Valid() && o.Terminal?
      modifies this`row
      ensures Valid() && (old(row).None? <==> row.None?)
      ensures error.Some? ==> row == old(row)
      ensures error.None? <==>
                && |o.summary.usage| <= MAX_EVIDENCE_JSON_BYTES && o.lastSeq <= I64_MAX
                && old(row).Some? && o.lastSeq == |history|
                && (old(row).value.terminal.Some? ==> old(row).value.terminal == Some(o.summary))
      ensures error.None? ==> row == Some(old(row).value.(terminal := Some(o.summary)))
      ensures old(row).Some? ==> Reports(Offered(sha, old(row).value, active, o), error, old(row).value, row)
    {
      if o.lastSeq > I64_MAX || |o.summary.usage| > MAX_EVIDENCE_JSON_BYTES {
        return Some(Invalid);
      }
      if row.None? {
        return Some(NotFound);
      }
      var r := row.value;
      assert ColumnAgrees(sha, r, history, Numbering);
      if r.lastSeq != o.lastSeq {
        return Some(Conflict);
      }
      if r.terminal.Some? {
        return if r.terminal == Some(o.summary) then None else Some(Conflict);
      }
      EndingDescribes(sha, r, history, Some(o.summary));
      row := Some(r.(terminal := Some(o.summary)));
      return None;
    }

    method Record(o: Offer) returns (error: Option<FleetError>)
      requires Valid() && row.Some? && (o.Event? ==> o.at <= I64_MAX)
      modifies this`row, this`history
      ensures Valid() && row.Some? && Reports(Offered(sha, old(row).value, active, o), error, old(row).value, row)
      ensures row == Some(RowAfter(sha, old(row).value, active, o))
      ensures history == old(history) + Taken(old(row).value, active, o)
    {
      if o.Event? {
        error := RecordEvent(o);
      } else {
        error := RecordTerminal(o);
      }
    }

    /** Offers everything a harness sends, in order, whatever the outcome of each. */
    method RecordAll(offers: seq<Offer>)
      requires Valid() && row.Some?
      requires forall i | 0 <= i < |offers| && offers[i].Event? :: offers[i].at <= I64_MAX
      modifies this`row, this`history
      ensures Valid() && row.Some?
      ensures history == old(history) + TakenFrom(sha, old(row).value, active, offers)
      ensures row == Some(RowAfterAll(sha, old(row).value, active, offers))
    {
      ghost var first, before := row.value, history;
      ghost var taken: seq<Update> := [];
      MidwayBegins(sha, first, active, offers);
      for i := 0 to |offers|
        invariant Valid() && row.Some? && history == before + taken
        invariant Midway(sha, first, active, offers, i, row.value, taken)
      {
        MidwayMoves(sha, first, active, offers, i, row.value, taken);
        taken := taken + Taken(row.value, active, offers[i]);
        var error := Record(offers[i]);
      }
      MidwayEnds(sha, first, active, offers, row.value, taken);
    }
  }

  // ---- the specification ------------------------------------------------------------------------

  /** The accepted updates are numbered 1 to n. */
  ghost predicate Contiguous(h: seq<Update>) {
    forall i | 0 <= i < |h| :: h[i].position == i + 1 && Admissible(h[i])
  }

  function Bytes(h: seq<Update>): nat {
    if h == [] then 0 else Bytes(h[..|h| - 1]) + |h[|h| - 1].raw|
  }

  /** How many updates of a history belong to one class. */
  function Count(h: seq<Update>, category: EventClass): nat {
    if h == [] then 0
    else Count(h[..|h| - 1], category) + (if Parse(h[|h| - 1].classification) == category then 1 else 0)
  }

  function Tally(h: seq<Update>): Counters {
    Counters(Count(h, Prompt), Count(h, Assistant), Count(h, Reasoning), Count(h, Tool), Count(h, Plan),
             Count(h, Usage), Count(h, Metadata), Count(h, Permission), Count(h, Unknown))
  }

  /** The groups of columns that an accepted update writes. */
  datatype Column = Numbering | Chaining | Volume | Times | Classes

  /** One group of columns is that of the history, told without folding. */
  ghost predicate ColumnAgrees(sha: Codes -> Text, r: Row, h: seq<Update>, c: Column)
    requires Contiguous(h)
  {
    match c
    case Numbering => r.lastSeq == |h| && r.eventCount == |h|
    case Chaining =>
      r.lastDigest == (if h == [] then None else Some(EventDigest(sha, h[|h| - 1]))) && r.chain == Chain(sha, h)
    case Volume => r.payloadBytes == Bytes(h)
    case Times =>
      && r.firstAt == (if h == [] then None else Some(h[0].at))
      && r.lastAt == (if h == [] then None else Some(h[|h| - 1].at))
    case Classes => r.counts == Tally(h)
  }

  /** The row describes exactly the history 1 to n. */
  ghost predicate Describes(sha: Codes -> Text, r: Row, h: seq<Update>) {
    Contiguous(h) && forall c {:trigger ColumnAgrees(sha, r, h, c)} :: ColumnAgrees(sha, r, h, c)
  }

  lemma FreshDescribes(sha: Codes -> Text)
    ensures Describes(sha, FRESH_ROW, [])
  {
  }

  /** The terminal summary is beside the history. */
  lemma EndingDescribes(sha: Codes -> Text, r: Row, h: seq<Update>, terminal: Option<TerminalSummary>)
    requires Describes(sha, r, h)
    ensures Describes(sha, r.(terminal := terminal), h)
  {
    forall c
      ensures ColumnAgrees(sha, r.(terminal := terminal), h, c)
    {
      assert ColumnAgrees(sha, r, h, c);
    }
  }

  lemma CountFolds(h: seq<Update>, e: Update, category: EventClass)
    ensures Count(h + [e], category) == Count(h, category) + Increments(e.classification).Of(category)
  {
    var longer := h + [e];
    assert longer[..|longer| - 1] == h && longer[|h|] == e;
    IncrementsOne(e.classification, category);
  }

  lemma PlusByClass(a: Counters, b: Counters, c: Counters)
    requires forall category :: c.Of(category) == a.Of(category) + b.Of(category)
    ensures c == a.Plus(b)
  {
    assert c.Of(Prompt) == a.Of(Prompt) + b.Of(Prompt) && c.Of(Assistant) == a.Of(Assistant) + b.Of(Assistant);
    assert c.Of(Reasoning) == a.Of(Reasoning) + b.Of(Reasoning) && c.Of(Tool) == a.Of(Tool) + b.Of(Tool);
    assert c.Of(Plan) == a.Of(Plan) + b.Of(Plan) && c.Of(Usage) == a.Of(Usage) + b.Of(Usage);
    assert c.Of(Metadata) == a.Of(Metadata) + b.Of(Metadata) && c.Of(Unknown) == a.Of(Unknown) + b.Of(Unknown);
    assert c.Of(Permission) == a.Of(Permission) + b.Of(Permission);
  }

  lemma TallyOf(h: seq<Update>, category: EventClass)
    ensures Tally(h).Of(category) == Count(h, category)
  {
  }

  lemma TallyFolds(h: seq<Update>, e: Update)
    ensures Tally(h + [e]) == Tally(h).Plus(Increments(e.classification))
  {
    forall category
      ensures Tally(h + [e]).Of(category) == Tally(h).Of(category) + Increments(e.classification).Of(category)
    {
      TallyOf(h, category);
      TallyOf(h + [e], category);
      CountFolds(h, e, category);
    }
    PlusByClass(Tally(h), Increments(e.classification), Tally(h + [e]));
  }

  /** Folding the next update into a row that describes a history describes the longer history. */
  lemma FoldingDescribes(sha: Codes -> Text, r: Row, h: seq<Update>, e: Update)
    requires Describes(sha, r, h) && Admissible(e) && e.position == |h| + 1
    ensures Describes(sha, Folded(sha, r, e), h + [e])
  {
    var longer := h + [e];
    assert longer[..|longer| - 1] == h && longer[|h|] == e;
    assert Contiguous(longer);
    forall c
      ensures ColumnAgrees(sha, Folded(sha, r, e), longer, c)
    {
      assert ColumnAgrees(sha, r, h, c);
      if c.Classes? {
        TallyFolds(h, e);
      }
    }
  }

  /** The nine class counters add up to the number of accepted updates. */
  lemma {:induction false} TallyIsTotal(h: seq<Update>)
    ensures Tally(h).Total() == |h|
  {
    if h != [] {
      TallyIsTotal(h[..|h| - 1]);
    }
  }

  /** One update advances exactly the counter of its class. */
  lemma IncrementsOne(classification: Text, category: EventClass)
    ensures Increments(classification).Of(category) == if Parse(classification) == category then 1 else 0
  {
  }

  /**
   What an observation row says about the updates behind it: they are 1 to n, the
   count and last sequence are n, the class counters partition them, the bytes add
   up, and the chain is theirs.
   */
  lemma RowDescribesHistory(sha: Codes -> Text, h: seq<Update>, r: Row)
    requires Describes(sha, r, h)
    ensures r.eventCount == r.lastSeq == r.counts.Total() == |h| && r.payloadBytes == Bytes(h)
    ensures r.chain == Chain(sha, h) && r.counts == Tally(h)
  {
    assert ColumnAgrees(sha, r, h, Numbering) && ColumnAgrees(sha, r, h, Chaining);
    assert ColumnAgrees(sha, r, h, Volume) && ColumnAgrees(sha, r, h, Classes);
    TallyIsTotal(h);
  }

  /** A history has one row, apart from its terminal summary. */
  lemma HistoryDeterminesRow(sha: Codes -> Text, h: seq<Update>, r: Row, q: Row)
    requires Describes(sha, r, h) && Describes(sha, q, h)
    ensures r == q.(terminal := r.terminal)
  {
    assert ColumnAgrees(sha, r, h, Numbering) && ColumnAgrees(sha, q, h, Numbering);
    assert ColumnAgrees(sha, r, h, Chaining) && ColumnAgrees(sha, q, h, Chaining);
    assert ColumnAgrees(sha, r, h, Volume) && ColumnAgrees(sha, q, h, Volume);
    assert ColumnAgrees(sha, r, h, Times) && ColumnAgrees(sha, q, h, Times);
    assert ColumnAgrees(sha, r, h, Classes) && ColumnAgrees(sha, q, h, Classes);
  }

  /** Two rows with one chain digest describe one history, unless they exhibit a hash collision. */
  lemma ChainIdentifiesRow(sha: Codes -> Text, h: seq<Update>, g: seq<Update>, r: Row, q: Row)
    requires Hash(sha) && Describes(sha, r, h) && Describes(sha, q, g) && r.chain == q.chain
    ensures (h == g && r == q.(terminal := r.terminal)) || Collide(sha, h, g)
  {
    assert ColumnAgrees(sha, r, h, Chaining) && ColumnAgrees(sha, q, g, Chaining);
    ChainDeterminesHistory(sha, h, g);
    if h == g {
      HistoryDeterminesRow(sha, h, r, q);
    }
  }
}
