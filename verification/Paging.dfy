/**
 Keyset paging over durable evidence rows: following the cursor of each page's
 last row, in either order and with any page size, reads every matching row
 exactly once and in order.
 */
module Paging {
  import opened Wrappers
  import opened Tables

  const MAX_EVIDENCE_PAGE := 500

  /** The columns a page is addressed and filtered by. */
  datatype EvidenceRow = EvidenceRow(changed: int, id: nat, agent: Id, settled: bool)

  datatype Order = Newest | Oldest

  datatype Cursor = Cursor(changed: int, id: nat)

  datatype EvidencePage = EvidencePage(agent: Option<Id>, after: Option<Cursor>, limit: nat, settled: bool, order: Order)

  function At(row: EvidenceRow): Cursor {
    Cursor(row.changed, row.id)
  }

  /** The keyset comparison: `a` is read strictly before `b`. */
  predicate Precedes(order: Order, a: Cursor, b: Cursor) {
    match order
    case Oldest => a.changed < b.changed || (a.changed == b.changed && a.id < b.id)
    case Newest => a.changed > b.changed || (a.changed == b.changed && a.id > b.id)
  }

  predicate Matches(row: EvidenceRow, p: EvidencePage) {
    && (p.agent.Some? ==> row.agent == p.agent.value)
    && (p.settled ==> row.settled)
    && (p.after.Some? ==> Precedes(p.order, p.after.value, At(row)))
  }

  function Matching(rows: set<EvidenceRow>, p: EvidencePage): set<EvidenceRow> {
    set row <- rows | Matches(row, p)
  }

  /** An oversized limit is clamped, a negative cursor refused. */
  function Validate(p: EvidencePage): Result<nat> {
    if p.after.Some? && p.after.value.changed < 0 then Err(Invalid) else
    Ok(if p.limit < 1 then 1 else if p.limit > MAX_EVIDENCE_PAGE then MAX_EVIDENCE_PAGE else p.limit)
  }

  ghost predicate UniqueIds(rows: set<EvidenceRow>) {
    forall a, b | a in rows && b in rows && a.id == b.id :: a == b
  }

  // ---- listings ---------------------------------------------------------------------------------

  ghost predicate Ordered(order: Order, r: seq<EvidenceRow>) {
    forall x, y | 0 <= x < y < |r| :: Precedes(order, At(r[x]), At(r[y]))
  }

  /** `r` reads exactly the rows `s`, each once, in order. */
  ghost predicate Lists(order: Order, r: seq<EvidenceRow>, s: set<EvidenceRow>) {
    (forall row :: row in r <==> row in s) && Ordered(order, r)
  }

  /** Every row of `s` comes before every row of `u`. */
  ghost predicate AllPrecede(order: Order, s: set<EvidenceRow>, u: set<EvidenceRow>) {
    forall a, b | a in s && b in u :: Precedes(order, At(a), At(b))
  }

  ghost predicate IsFirst(order: Order, s: set<EvidenceRow>, f: EvidenceRow) {
    f in s && forall row | row in s && row != f :: Precedes(order, At(f), At(row))
  }

  lemma {:induction false} FirstRowExists(order: Order, s: set<EvidenceRow>)
    requires s != {} && UniqueIds(s)
    ensures exists f :: IsFirst(order, s, f)
    decreases |s|
  {
    var x :| x in s;
    var rest := s - {x};
    if rest == {} {
      assert s == {x};
      assert IsFirst(order, s, x);
    } else {
      FirstRowExists(order, rest);
      var y :| IsFirst(order, rest, y);
      assert IsFirst(order, s, if Precedes(order, At(x), At(y)) then x else y);
    }
  }

  function FirstRow(order: Order, s: set<EvidenceRow>): (f: EvidenceRow)
    requires s != {} && UniqueIds(s)
    ensures f in s && forall row | row in s && row != f :: Precedes(order, At(f), At(row))
  {
    FirstRowExists(order, s);
    var f :| f in s && forall row | row in s && row != f :: Precedes(order, At(f), At(row));
    f
  }

  // ---- one page ------------------------------------------------------------------------------------

  /** One page: the first rows, in order, of those that match, as many as the limit allows. */
  method ReadPage(rows: set<EvidenceRow>, p: EvidencePage) returns (page: Result<seq<EvidenceRow>>)
    requires UniqueIds(rows)
    ensures page.Err? <==> Validate(p).Err?
    ensures page.Ok? ==>
              var read := set row | row in page.value;
              && read <= Matching(rows, p) && Lists(p.order, page.value, read)
              && AllPrecede(p.order, read, Matching(rows, p) - read)
              && |page.value| <= Validate(p).value
              && (|page.value| < Validate(p).value ==> read == Matching(rows, p))
              && (Matching(rows, p) != {} ==> page.value != [])
    ensures page.Ok? ==>
              && |page.value| <= 500 && (1 <= p.limit ==> |page.value| <= p.limit)
              && (forall row | row in page.value :: row in rows && Selected(row, p))
              && (|page.value| < 500 && |page.value| < p.limit ==> forall row | row in rows && Selected(row, p) :: row in page.value)
              && (p.order.Oldest? ==> forall x, y | 0 <= x < y < |page.value| :: page.value[x].changed <= page.value[y].changed)
              && (p.order.Newest? ==> forall x, y | 0 <= x < y < |page.value| :: page.value[x].changed >= page.value[y].changed)
  {
    var limit := Validate(p);
    if limit.Err? {
      return Err(limit.error);
    }
    var r := [];
    var left := Matching(rows, p);
    ghost var read: set<EvidenceRow> := {};
    while left != {} && |r| < limit.value
      invariant read + left == Matching(rows, p) && read !! left
      invariant Lists(p.order, r, read) && AllPrecede(p.order, read, left)
      invariant (r == [] ==> read == {}) && |r| <= limit.value
      decreases left
    {
      var f := FirstRow(p.order, left);
      Appends(p.order, r, read, f);
      r := r + [f];
      read := read + {f};
      left := left - {f};
    }
    assert read == set row | row in r;
    assert left == Matching(rows, p) - read;
    PageMeans(rows, p, r);
    return Ok(r);
  }

  /** The row passes the filters and lies beyond the cursor, by time of change and then by id. */
  predicate Selected(row: EvidenceRow, p: EvidencePage) {
    && (p.agent.None? || p.agent == Some(row.agent)) && (!p.settled || row.settled)
    && match p.after
       case None => true
       case Some(Cursor(changed, id)) =>
         if row.changed == changed then (if p.order.Oldest? then row.id > id else row.id < id)
         else (if p.order.Oldest? then row.changed > changed else row.changed < changed)
  }

  lemma PageMeans(rows: set<EvidenceRow>, p: EvidencePage, r: seq<EvidenceRow>)
    requires Ordered(p.order, r)
    ensures forall row | row in rows :: row in Matching(rows, p) <==> Selected(row, p)
    ensures p.order.Oldest? ==> forall x, y | 0 <= x < y < |r| :: r[x].changed <= r[y].changed
    ensures p.order.Newest? ==> forall x, y | 0 <= x < y < |r| :: r[x].changed >= r[y].changed
  {
  }

  lemma Appends(order: Order, r: seq<EvidenceRow>, s: set<EvidenceRow>, f: EvidenceRow)
    requires Lists(order, r, s) && forall row | row in s :: Precedes(order, At(row), At(f))
    ensures Lists(order, r + [f], s + {f})
  {
    assert forall x | 0 <= x < |r| :: r[x] in s;
  }

  lemma ListsConcat(order: Order, r: seq<EvidenceRow>, s: set<EvidenceRow>, q: seq<EvidenceRow>, u: set<EvidenceRow>)
    requires Lists(order, r, s) && Lists(order, q, u) && AllPrecede(order, s, u)
    ensures Lists(order, r + q, s + u)
  {
    assert forall x | 0 <= x < |r| :: r[x] in s;
    assert forall x | 0 <= x < |q| :: q[x] in u;
    forall x, y | 0 <= x < y < |r + q|
      ensures Precedes(order, At((r + q)[x]), At((r + q)[y]))
    {
      if y < |r| {
        assert (r + q)[x] == r[x] && (r + q)[y] == r[y];
      } else if |r| <= x {
        assert (r + q)[x] == q[x - |r|] && (r + q)[y] == q[y - |r|];
      } else {
        assert (r + q)[x] == r[x] && (r + q)[y] == q[y - |r|];
      }
    }
  }

  // ---- following the cursor -----------------------------------------------------------------------------

  /** What a page read, and what the cursor of its last row still leaves to read. */
  lemma CursorSplits(rows: set<EvidenceRow>, p: EvidencePage, page: seq<EvidenceRow>, read: set<EvidenceRow>)
    requires UniqueIds(rows) && page != [] && Lists(p.order, page, read)
    requires read <= Matching(rows, p) && AllPrecede(p.order, read, Matching(rows, p) - read)
    ensures Matching(rows, p.(after := Some(At(page[|page| - 1])))) == Matching(rows, p) - read
  {
    var last := page[|page| - 1];
    var next := p.(after := Some(At(last)));
    assert last in page && last in read;
    forall row | row in rows
      ensures row in Matching(rows, next) <==> row in Matching(rows, p) && row !in read
    {
      if row in read {
        assert row in page;
        var x :| 0 <= x < |page| && page[x] == row;
        assert x < |page| - 1 ==> Precedes(p.order, At(row), At(last));
      }
    }
  }

  /** A collector that resumes each time from the last row it has seen. */
  method ReadAll(rows: set<EvidenceRow>, p: EvidencePage) returns (all: seq<EvidenceRow>)
    requires UniqueIds(rows) && p.after.None? && forall row | row in rows :: row.changed >= 0
    ensures Lists(p.order, all, Matching(rows, p))
  {
    all := [];
    var next := p;
    ghost var read: set<EvidenceRow> := {};
    var more := true;
    while more
      invariant next == p.(after := next.after) && (next.after.Some? ==> next.after.value.changed >= 0)
      invariant read + Matching(rows, next) == Matching(rows, p) && read !! Matching(rows, next)
      invariant Lists(p.order, all, read) && AllPrecede(p.order, read, Matching(rows, next))
      invariant !more ==> Matching(rows, next) == {}
      decreases Matching(rows, next), more
    {
      var page := ReadPage(rows, next);
      if page.value == [] {
        more := false;
      } else {
        ghost var some := set row | row in page.value;
        ListsConcat(p.order, all, read, page.value, some);
        CursorSplits(rows, next, page.value, some);
        var last := page.value[|page.value| - 1];
        assert last in some;
        all := all + page.value;
        read := read + some;
        next := next.(after := Some(At(last)));
      }
    }
    assert read == Matching(rows, p);
  }

  /** The listing of a row set is unique, so every page size reads the same sequence. */
  lemma {:induction false} ListingIsUnique(order: Order, r: seq<EvidenceRow>, q: seq<EvidenceRow>, s: set<EvidenceRow>)
    requires Lists(order, r, s) && Lists(order, q, s)
    ensures r == q
    decreases |r|
  {
    if r == [] {
      assert forall x | 0 <= x < |q| :: q[x] in r;
    } else {
      assert r[0] in r && r[0] in q;
      HeadsAgree(order, r, q, s);
      TailLists(order, r, s);
      TailLists(order, q, s);
      ListingIsUnique(order, r[1..], q[1..], s - {r[0]});
      assert r == [r[0]] + r[1..] && q == [q[0]] + q[1..];
    }
  }

  lemma HeadsAgree(order: Order, r: seq<EvidenceRow>, q: seq<EvidenceRow>, s: set<EvidenceRow>)
    requires Lists(order, r, s) && Lists(order, q, s) && r != [] && q != []
    ensures r[0] == q[0]
  {
    assert r[0] in r && q[0] in q;
    var x :| 0 <= x < |q| && q[x] == r[0];
    var y :| 0 <= y < |r| && r[y] == q[0];
    assert x > 0 ==> Precedes(order, At(q[0]), At(q[x]));
    assert y > 0 ==> Precedes(order, At(r[0]), At(r[y]));
  }

  lemma TailLists(order: Order, r: seq<EvidenceRow>, s: set<EvidenceRow>)
    requires Lists(order, r, s) && r != []
    ensures Lists(order, r[1..], s - {r[0]})
  {
    assert r == [r[0]] + r[1..];
    forall row | row in r[1..]
      ensures row != r[0]
    {
      var x :| 0 <= x < |r[1..]| && r[1..][x] == row;
      assert Precedes(order, At(r[0]), At(r[x + 1]));
    }
  }
}
