/**
 The evidence chain of one invocation: two histories with the same chain digest
 are the same history, unless they exhibit a collision of the hash function.
 */
module EvidenceChain {
  import opened Wrappers
  import opened Tables
  import opened Json

  type Codes = seq<int>

  /** One accepted harness update. */
  datatype Update = Update(position: nat, at: int, classification: Text, raw: Text)

  /** What the recorder admits: signed 64-bit numbers and serialised JSON. */
  predicate Admissible(e: Update) {
    0 < e.position <= I64_MAX && 0 < e.at <= I64_MAX && !Blank(e.classification) && Printable(e.raw)
  }

  function CodesOf(t: Text): Codes {
    seq(|t|, i requires 0 <= i < |t| => t[i] as int)
  }

  /** The low `width` bytes of `n`, most significant first. */
  function BigEndian(n: nat, width: nat): (r: Codes)
    ensures |r| == width
  {
    if width == 0 then [] else BigEndian(n / 256, width - 1) + [n % 256]
  }

  function EventInput(e: Update): Codes
    requires e.at >= 0
  {
    BigEndian(e.position, 8) + BigEndian(e.at, 8) + CodesOf(e.classification) + [0] + CodesOf(e.raw)
  }

  function ChainInput(previous: Option<Text>, event: Text): Codes {
    CodesOf(if previous.Some? then previous.value else "sha256:genesis") + [0] + CodesOf(event)
  }

  const DIGEST_LENGTH := 71

  /** A hash function that prints 64 hexadecimal digits. */
  ghost predicate Hash(sha: Codes -> Text) {
    forall x :: |sha(x)| == 64
  }

  function Digest(sha: Codes -> Text, input: Codes): Text {
    "sha256:" + sha(input)
  }

  function EventDigest(sha: Codes -> Text, e: Update): Text
    requires e.at >= 0
  {
    Digest(sha, EventInput(e))
  }

  predicate Timed(history: seq<Update>) {
    forall i | 0 <= i < |history| :: history[i].at >= 0
  }

  /** The chain digest after a history. */
  function Chain(sha: Codes -> Text, history: seq<Update>): Option<Text>
    requires Timed(history)
    decreases |history|, 1
  {
    if history == [] then None
    else Some(Digest(sha, LastInput(sha, history)))
  }

  function LastInput(sha: Codes -> Text, history: seq<Update>): Codes
    requires history != [] && Timed(history)
    decreases |history|, 0
  {
    var last := |history| - 1;
    ChainInput(Chain(sha, history[..last]), EventDigest(sha, history[last]))
  }

  // ---- the encodings are injective --------------------------------------------------------

  function Power(width: nat): nat {
    if width == 0 then 1 else 256 * Power(width - 1)
  }

  lemma {:induction false} BigEndianInjective(m: nat, n: nat, width: nat)
    requires m < Power(width) && n < Power(width) && BigEndian(m, width) == BigEndian(n, width)
    ensures m == n
  {
    if width > 0 {
      var a, b := BigEndian(m / 256, width - 1), BigEndian(n / 256, width - 1);
      assert (a + [m % 256])[..width - 1] == a && (b + [n % 256])[..width - 1] == b;
      assert (a + [m % 256])[width - 1] == m % 256 && (b + [n % 256])[width - 1] == n % 256;
      BigEndianInjective(m / 256, n / 256, width - 1);
    }
  }

  lemma CodesInjective(s: Text, t: Text)
    requires CodesOf(s) == CodesOf(t)
    ensures s == t
  {
    assert |s| == |CodesOf(s)| == |CodesOf(t)| == |t|;
    forall i | 0 <= i < |s|
      ensures s[i] == t[i]
    {
      assert CodesOf(s)[i] == CodesOf(t)[i];
    }
  }

  /** A text without NUL after the last NUL is found from the right. */
  lemma SplitAtLastNul(a: Codes, b: Codes, c: Codes, d: Codes)
    requires a + [0] + b == c + [0] + d
    requires (forall i | 0 <= i < |b| :: b[i] != 0) && (forall i | 0 <= i < |d| :: d[i] != 0)
    ensures a == c && b == d
  {
    var x, y := a + [0] + b, c + [0] + d;
    assert x[|a|] == 0 && y[|c|] == 0;
    assert forall i | |a| < i < |x| :: x[i] == b[i - |a| - 1];
    assert forall i | |c| < i < |y| :: y[i] == d[i - |c| - 1];
    assert |a| == |c|;
    assert x[..|a|] == a && y[..|c|] == c;
    assert x[|a| + 1..] == b && y[|c| + 1..] == d;
  }

  lemma PrintableHasNoNul(t: Text)
    requires Printable(t)
    ensures forall i | 0 <= i < |CodesOf(t)| :: CodesOf(t)[i] != 0
  {
  }

  lemma EventInputInjective(a: Update, b: Update)
    requires Admissible(a) && Admissible(b) && EventInput(a) == EventInput(b)
    ensures a == b
  {
    var x, y := EventInput(a), EventInput(b);
    HeadersInjective(a, b);
    assert x[16..] == CodesOf(a.classification) + [0] + CodesOf(a.raw);
    assert y[16..] == CodesOf(b.classification) + [0] + CodesOf(b.raw);
    PrintableHasNoNul(a.raw);
    PrintableHasNoNul(b.raw);
    SplitAtLastNul(CodesOf(a.classification), CodesOf(a.raw), CodesOf(b.classification), CodesOf(b.raw));
    CodesInjective(a.classification, b.classification);
    CodesInjective(a.raw, b.raw);
  }

  lemma HeadersInjective(a: Update, b: Update)
    requires Admissible(a) && Admissible(b) && EventInput(a) == EventInput(b)
    ensures a.position == b.position && a.at == b.at
  {
    var x, y := EventInput(a), EventInput(b);
    assert x[..8] == BigEndian(a.position, 8) && y[..8] == BigEndian(b.position, 8);
    assert x[8..16] == BigEndian(a.at, 8) && y[8..16] == BigEndian(b.at, 8);
    EightBytes();
    BigEndianInjective(a.position, b.position, 8);
    BigEndianInjective(a.at, b.at, 8);
  }

  lemma EightBytes()
    ensures I64_MAX < Power(8)
  {
    assert Power(4) == 0x1_0000_0000;
    assert Power(8) == 0x1_0000_0000 * 0x1_0000_0000;
  }

  /** The genesis marker is never a digest, and digests have one length, so links split one way only. */
  lemma ChainInputInjective(p: Option<Text>, d: Text, q: Option<Text>, e: Text)
    requires |d| == DIGEST_LENGTH && |e| == DIGEST_LENGTH
    requires (p.Some? ==> |p.value| == DIGEST_LENGTH) && (q.Some? ==> |q.value| == DIGEST_LENGTH)
    requires ChainInput(p, d) == ChainInput(q, e)
    ensures p == q && d == e
  {
    var left := if p.Some? then p.value else "sha256:genesis";
    var right := if q.Some? then q.value else "sha256:genesis";
    var x, y := ChainInput(p, d), ChainInput(q, e);
    assert |left| == |right|;
    assert x[..|left|] == CodesOf(left) && y[..|right|] == CodesOf(right);
    assert x[|left| + 1..] == CodesOf(d) && y[|right| + 1..] == CodesOf(e);
    CodesInjective(left, right);
    CodesInjective(d, e);
  }

  // ---- the chain determines the history --------------------------------------------------------

  predicate AllAdmissible(history: seq<Update>) {
    forall i | 0 <= i < |history| :: Admissible(history[i])
  }

  /** Every input hashed while folding a history. */
  ghost function Hashed(sha: Codes -> Text, history: seq<Update>): set<Codes>
    requires Timed(history)
  {
    if history == [] then {}
    else
      var last := |history| - 1;
      Hashed(sha, history[..last]) + {EventInput(history[last]), LastInput(sha, history)}
  }

  /** Two different inputs, one hashed for each history, with the same hash. */
  ghost predicate Collide(sha: Codes -> Text, a: seq<Update>, b: seq<Update>)
    requires Timed(a) && Timed(b)
  {
    exists x, y :: x in Hashed(sha, a) && y in Hashed(sha, b) && x != y && sha(x) == sha(y)
  }

  lemma SameDigest(sha: Codes -> Text, x: Codes, y: Codes)
    requires Digest(sha, x) == Digest(sha, y)
    ensures sha(x) == sha(y)
  {
    assert Digest(sha, x)[7..] == sha(x) && Digest(sha, y)[7..] == sha(y);
  }

  /**
   Equal chain digests mean equal histories, of whatever lengths, unless folding
   them exhibits a collision of the hash function.
   */
  lemma {:induction false} ChainDeterminesHistory(sha: Codes -> Text, a: seq<Update>, b: seq<Update>)
    requires Hash(sha) && AllAdmissible(a) && AllAdmissible(b)
    requires Chain(sha, a) == Chain(sha, b)
    ensures a == b || Collide(sha, a, b)
  {
    if a != [] && b != [] {
      var m, n := |a| - 1, |b| - 1;
      assert a == a[..m] + [a[m]] && b == b[..n] + [b[n]];
      SameDigest(sha, LastInput(sha, a), LastInput(sha, b));
      if LastInput(sha, a) == LastInput(sha, b) {
        ChainInputInjective(Chain(sha, a[..m]), EventDigest(sha, a[m]), Chain(sha, b[..n]), EventDigest(sha, b[n]));
        SameDigest(sha, EventInput(a[m]), EventInput(b[n]));
        ChainDeterminesHistory(sha, a[..m], b[..n]);
        if EventInput(a[m]) == EventInput(b[n]) {
          EventInputInjective(a[m], b[n]);
        } else {
          assert EventInput(a[m]) in Hashed(sha, a) && EventInput(b[n]) in Hashed(sha, b);
        }
      } else {
        assert LastInput(sha, a) in Hashed(sha, a) && LastInput(sha, b) in Hashed(sha, b);
      }
    }
  }
}
