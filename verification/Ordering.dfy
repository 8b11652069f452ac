/** Deterministic row order: `ORDER BY key, id` over a finite set of row ids. */
module Ordering {

  /** Row `i` sorts no later than row `j`. */
  predicate NotAfter(key: map<nat, int>, i: nat, j: nat)
    requires i in key && j in key
  {
    key[i] < key[j] || (key[i] == key[j] && i <= j)
  }

  lemma FirstExists(ids: set<nat>, key: map<nat, int>)
    requires ids != {} && ids <= key.Keys
    ensures exists r :: r in ids && forall j | j in ids :: NotAfter(key, r, j)
  {
    var x :| x in ids;
    var rest := ids - {x};
    if rest == {} {
      assert ids == {x};
      assert forall j | j in ids :: NotAfter(key, x, j);
    } else {
      FirstExists(rest, key);
      var y :| y in rest && forall j | j in rest :: NotAfter(key, y, j);
      var r := if NotAfter(key, x, y) then x else y;
      assert forall j | j in ids :: j == x || j in rest;
      assert forall j | j in ids :: NotAfter(key, r, j);
    }
  }

  function First(ids: set<nat>, key: map<nat, int>): (r: nat)
    requires ids != {} && ids <= key.Keys
    ensures r in ids && forall j | j in ids :: NotAfter(key, r, j)
  {
    FirstExists(ids, key);
    var r :| r in ids && forall j | j in ids :: NotAfter(key, r, j);
    r
  }

  function Least(s: set<nat>): (r: nat)
    requires s != {}
    ensures r in s
  {
    First(s, map i <- s :: 0)
  }

  // ---- row listings -------------------------------------------------------------------

  predicate Listed(r: seq<nat>, i: nat) {
    i in r
  }

  /** Position `x` comes before position `y`, as distinct rows in order. */
  predicate InOrder(r: seq<nat>, key: map<nat, int>, x: int, y: int)
    requires 0 <= x < |r| && 0 <= y < |r|
  {
    r[x] in key && r[y] in key && r[x] != r[y] && NotAfter(key, r[x], r[y])
  }

  /** `r` lists exactly the rows `ids`, each once, in row order. */
  ghost predicate Listing(r: seq<nat>, ids: set<nat>, key: map<nat, int>) {
    && (forall i {:trigger Listed(r, i)} :: Listed(r, i) <==> i in ids)
    && (forall x, y {:trigger InOrder(r, key, x, y)} | 0 <= x < y < |r| :: InOrder(r, key, x, y))
  }

  lemma ListingExtends(ids: set<nat>, key: map<nat, int>, rest: seq<nat>)
    requires ids != {} && ids <= key.Keys
    requires Listing(rest, ids - {First(ids, key)}, key)
    ensures Listing([First(ids, key)] + rest, ids, key)
  {
    var f := First(ids, key);
    var r := [f] + rest;
    forall i
      ensures Listed(r, i) <==> i in ids
    {
      assert Listed(rest, i) <==> i in ids - {f};
    }
    forall x, y | 0 <= x < y < |r|
      ensures InOrder(r, key, x, y)
    {
      assert Listed(rest, rest[y - 1]);
      if x > 0 {
        assert InOrder(rest, key, x - 1, y - 1);
      }
    }
  }

  lemma {:induction false} ListingExists(ids: set<nat>, key: map<nat, int>)
    requires ids <= key.Keys
    ensures exists r :: Listing(r, ids, key)
    decreases |ids|
  {
    if ids == {} {
      assert Listing([], ids, key);
    } else {
      ListingExists(ids - {First(ids, key)}, key);
      var rest :| Listing(rest, ids - {First(ids, key)}, key);
      ListingExtends(ids, key, rest);
    }
  }

  /** The order decides the listing. */
  lemma {:induction false} ListingUnique(r: seq<nat>, s: seq<nat>, ids: set<nat>, key: map<nat, int>)
    requires Listing(r, ids, key) && Listing(s, ids, key)
    ensures r == s
    decreases |r|
  {
    if r == [] {
      assert s != [] ==> Listed(s, s[0]);
      assert s != [] ==> !Listed(r, s[0]);
    } else {
      assert Listed(r, r[0]) && Listed(s, r[0]);
      HeadIsFirst(r, ids, key);
      HeadIsFirst(s, ids, key);
      TailListing(r, ids, key);
      TailListing(s, ids, key);
      ListingUnique(r[1..], s[1..], ids - {r[0]}, key);
      assert r == [r[0]] + r[1..] && s == [s[0]] + s[1..];
    }
  }

  lemma HeadIsFirst(r: seq<nat>, ids: set<nat>, key: map<nat, int>)
    requires r != [] && Listing(r, ids, key)
    ensures ids != {} && r[0] in ids
    ensures forall i | i in ids && i != r[0] :: r[0] in key && i in key && NotAfter(key, r[0], i) && !NotAfter(key, i, r[0])
  {
    assert Listed(r, r[0]);
    forall i | i in ids && i != r[0]
      ensures r[0] in key && i in key && NotAfter(key, r[0], i) && !NotAfter(key, i, r[0])
    {
      assert Listed(r, i);
      var x :| 0 <= x < |r| && r[x] == i;
      assert InOrder(r, key, 0, x);
    }
  }

  lemma TailListing(r: seq<nat>, ids: set<nat>, key: map<nat, int>)
    requires r != [] && Listing(r, ids, key)
    ensures Listing(r[1..], ids - {r[0]}, key)
  {
    var rest := r[1..];
    forall i
      ensures Listed(rest, i) <==> i in ids - {r[0]}
    {
      assert Listed(r, i) <==> i in ids;
      if Listed(rest, i) {
        var x :| 0 <= x < |rest| && rest[x] == i;
        assert InOrder(r, key, 0, x + 1);
      }
    }
    forall x, y | 0 <= x < y < |rest|
      ensures InOrder(rest, key, x, y)
    {
      assert InOrder(r, key, x + 1, y + 1);
    }
  }

  lemma {:induction false} ListingLength(r: seq<nat>, ids: set<nat>, key: map<nat, int>)
    requires Listing(r, ids, key)
    ensures |r| == |ids|
    decreases |r|
  {
    if r == [] {
      assert forall i | i in ids :: Listed(r, i);
      assert ids == {};
    } else {
      HeadIsFirst(r, ids, key);
      TailListing(r, ids, key);
      ListingLength(r[1..], ids - {r[0]}, key);
    }
  }

  /** The rows in order. */
  ghost function SortedBy(ids: set<nat>, key: map<nat, int>): (r: seq<nat>)
    requires ids <= key.Keys
    ensures Listing(r, ids, key)
  {
    ListingExists(ids, key);
    var r :| Listing(r, ids, key);
    r
  }

  function Unkeyed(s: set<nat>): map<nat, int> {
    map i <- s :: 0
  }

  /** The elements in increasing order. */
  ghost function Ascending(s: set<nat>): seq<nat> {
    SortedBy(s, Unkeyed(s))
  }

  /** The executable counterpart: repeated selection of the first remaining row. */
  method SortRows(ids: set<nat>, key: map<nat, int>) returns (r: seq<nat>)
    requires ids <= key.Keys
    ensures r == SortedBy(ids, key)
  {
    r := [];
    var left := ids;
    assert forall s: seq<nat> :: [] + s == s;
    while left != {}
      invariant left <= ids
      invariant forall s | Listing(s, left, key) :: Listing(r + s, ids, key)
      decreases left
    {
      var f := First(left, key);
      forall s | Listing(s, left - {f}, key)
        ensures Listing(r + [f] + s, ids, key)
      {
        ListingExtends(left, key, s);
        assert r + ([f] + s) == r + [f] + s;
      }
      r := r + [f];
      left := left - {f};
    }
    assert Listing([], left, key);
    assert r + [] == r;
    ListingUnique(r, SortedBy(ids, key), ids, key);
  }
}
