// stl_hash_jump_consistent of module/stl/src/stl_hash.c, with exact arithmetic in place of doubles.
module JumpHashes {
  import opened Arithmetic

  /** The generator's step: key * 2862933555777941757 + 1 in 64 bits. */
  function NextKey(key: nat): (r: nat)
    ensures r < WORD64
  {
    (key * 2862933555777941757 + 1) % WORD64
  }

  /** Where the key jumps from bucket b: floor((b + 1) * (2^31 / ((key >> 33) + 1))). */
  function Leap(b: nat, key: nat): nat {
    (b + 1) * 0x8000_0000 / (key / 0x2_0000_0000 + 1)
  }

  /** A jump goes strictly forward: the divisor is at most 2^31. */
  lemma LeapsForward(b: nat, key: nat)
    requires key < WORD64
    ensures Leap(b, key) > b
  {
    var d := key / 0x2_0000_0000 + 1;
    assert 1 <= d <= 0x8000_0000;
    DivAtLeast((b + 1) * 0x8000_0000, d, b + 1);
  }

  lemma DivAtLeast(x: nat, d: nat, q: nat)
    requires 1 <= d <= 0x8000_0000 && x == q * 0x8000_0000
    ensures x / d >= q
  {
    assert q * d <= x;
    var r := x / d;
    assert x < (r + 1) * d;
    MulLess(r, q, d);
  }

  lemma {:induction false} MulLess(a: nat, b: nat, d: nat)
    ensures a < b ==> a * d + d <= b * d
    decreases b
  {
    if a < b {
      assert b * d == (b - 1) * d + d;
      MulLess(a, b - 1, d);
    }
  }

  // ---------- The sequence of jumps ----------

  function KeyAt(key: nat, i: nat): nat {
    if i == 0 then key else NextKey(KeyAt(key, i - 1))
  }

  /** The buckets a key jumps through as buckets are added: 0 first, then ever larger ones. */
  function JumpAt(key: nat, i: nat): nat {
    if i == 0 then 0 else Leap(JumpAt(key, i - 1), KeyAt(key, i))
  }

  lemma JumpsRise(key: nat, i: nat)
    ensures JumpAt(key, i) < JumpAt(key, i + 1)
  {
    LeapsForward(JumpAt(key, i), KeyAt(key, i + 1));
  }

  lemma {:induction false} JumpsRiseAll(key: nat, i: nat, k: nat)
    requires i < k
    ensures JumpAt(key, i) < JumpAt(key, k)
    decreases k
  {
    JumpsRise(key, k - 1);
    if i < k - 1 { JumpsRiseAll(key, i, k - 1); }
  }

  /** v is the last jump below n. */
  ghost predicate LastBelow(key: nat, n: int, v: int) {
    exists i :: 0 <= i && JumpAt(key, i) == v && v < n <= JumpAt(key, i + 1)
  }

  /** There is only one. */
  lemma LastBelowUnique(key: nat, n: int, v: int, w: int)
    requires LastBelow(key, n, v) && LastBelow(key, n, w)
    ensures v == w
  {
    hide JumpAt;
    var i :| 0 <= i && JumpAt(key, i) == v && v < n <= JumpAt(key, i + 1);
    var k :| 0 <= k && JumpAt(key, k) == w && w < n <= JumpAt(key, k + 1);
    if i + 1 < k { JumpsRiseAll(key, i + 1, k); }
    if k + 1 < i { JumpsRiseAll(key, k + 1, i); }
  }

  /** The loop. Without buckets it does not run, and -1 comes out as 1. */
  method JumpConsistent(key: nat, buckets: int) returns (value: nat)
    requires key < WORD64
    ensures buckets >= 1 ==> value == Bucket(key, buckets)
    ensures buckets < 1 ==> value == 1
  {
    var b, j := -1, 0;
    var k := key;
    ghost var i := 0;
    while j < buckets
      invariant j == JumpAt(key, i) && k == KeyAt(key, i)
      invariant if i == 0 then b == -1 else b == JumpAt(key, i - 1) && b < buckets
      decreases buckets - j
    {
      JumpsRise(key, i);
      b := j;
      k := NextKey(k);
      j := Leap(b, k);
      i := i + 1;
    }
    value := if b < 0 then -b else b;
    if buckets >= 1 {
      assert LastBelow(key, buckets, value);
      LastBelowUnique(key, buckets, value, Bucket(key, buckets));
    }
  }

  // ---------- Consistency ----------

  /** The bucket of a key among n: its last jump below n. */
  ghost function Bucket(key: nat, n: nat): (v: nat)
    requires n >= 1
    ensures v < n && LastBelow(key, n, v)
  {
    BucketFrom(key, n, 0)
  }

  ghost function BucketFrom(key: nat, n: nat, i: nat): (v: nat)
    requires JumpAt(key, i) < n
    ensures v < n && LastBelow(key, n, v)
    decreases n - JumpAt(key, i)
  {
    JumpsRise(key, i);
    if JumpAt(key, i + 1) < n then BucketFrom(key, n, i + 1) else JumpAt(key, i)
  }

  /** From n to m buckets a key stays where it was or moves to one of the new buckets. */
  lemma MovesOnlyToNew(key: nat, n: nat, m: nat)
    requires 1 <= n <= m
    ensures Bucket(key, m) == Bucket(key, n) || Bucket(key, m) >= n
  {
    var v := Bucket(key, m);
    if v < n {
      var i :| 0 <= i && JumpAt(key, i) == v && v < m <= JumpAt(key, i + 1);
      assert LastBelow(key, n, v);
      LastBelowUnique(key, n, v, Bucket(key, n));
    }
  }

  /** One more bucket: a key stays, or moves to the new one. */
  lemma OneMoreBucket(key: nat, n: nat)
    requires n >= 1
    ensures Bucket(key, n + 1) == Bucket(key, n) || Bucket(key, n + 1) == n
  {
    MovesOnlyToNew(key, n, n + 1);
  }

  // ---------- Balance ----------

  lemma QuotientAtLeast(x: nat, d: nat, n: nat)
    requires d >= 1
    ensures x / d >= n <==> n * d <= x
  {
    var q := x / d;
    assert q * d <= x < (q + 1) * d;
    MulLess(n, q + 1, d);
    MulLess(q, n, d);
    if n <= q { MulLess(n, q, d); }
  }

  ghost predicate Under(q: int, k: nat) { 0 <= q < k }

  ghost function Below(k: nat): set<nat> { set q | 0 <= q < k && Under(q, k) }

  lemma {:induction false} BelowSize(k: nat)
    ensures |Below(k)| == k
  {
    if k > 0 {
      BelowSize(k - 1);
      assert Below(k) == Below(k - 1) + {k - 1};
    } else {
      assert Below(0) == {};
    }
  }

  /** Only the upper 31 bits of the key decide how far it leaps. */
  lemma LeapsByUpperBits(b: nat, key: nat)
    requires key < WORD64
    ensures key / 0x2_0000_0000 < 0x8000_0000 && Leap(b, key) == Leap(b, key / 0x2_0000_0000 * 0x2_0000_0000)
  {
  }

  /** Of the 2^31 values of those bits, exactly floor((b + 1) * 2^31 / n) take a key from bucket b to n or
      beyond: a share of (b + 1) / n. */
  lemma LeapsInProportion(b: nat, n: nat)
    requires b < n
    ensures |set q | 0 <= q < 0x8000_0000 && Leap(b, q * 0x2_0000_0000) >= n| == (b + 1) * 0x8000_0000 / n
  {
    var x := (b + 1) * 0x8000_0000;
    var k := x / n;
    var far := set q | 0 <= q < 0x8000_0000 && Leap(b, q * 0x2_0000_0000) >= n;
    MulUp(b + 1, n, 0x8000_0000);
    QuotientAtMost(x, n, 0x8000_0000);
    forall q | 0 <= q ensures q in far <==> q in Below(k) {
      LeapAtUpper(b, q);
      QuotientAtLeast(x, q + 1, n);
      QuotientAtLeast(x, n, q + 1);
      assert n * (q + 1) == (q + 1) * n;
    }
    assert far == Below(k);
    BelowSize(k);
  }

  lemma LeapAtUpper(b: nat, q: nat)
    ensures Leap(b, q * 0x2_0000_0000) == (b + 1) * 0x8000_0000 / (q + 1)
  {
    assert q * 0x2_0000_0000 / 0x2_0000_0000 == q;
  }

  lemma MulUp(a: nat, b: nat, d: nat)
    requires a <= b
    ensures a * d <= b * d
  {
  }

  lemma QuotientAtMost(x: nat, d: nat, m: nat)
    requires d >= 1 && x <= d * m
    ensures x / d <= m
  {
    QuotientAtLeast(x, d, m + 1);
  }

  // ---------- Known answers ----------

  /** From bucket b the key k becomes k' and leaps to j. */
  predicate Steps(k: nat, b: nat, k': nat, j: nat) { NextKey(k) == k' && Leap(b, k') == j }

  lemma Jump(key: nat, i: nat, k: nat, b: nat, k': nat, j: nat)
    requires KeyAt(key, i) == k && JumpAt(key, i) == b && Steps(k, b, k', j)
    ensures KeyAt(key, i + 1) == k' && JumpAt(key, i + 1) == j
  {
    hide NextKey, Leap;
  }

  lemma JumpsBegin(key: nat)
    ensures KeyAt(key, 0) == key && JumpAt(key, 0) == 0
  {
  }

  lemma Steps42Of57()
    ensures Steps(42, 0, 9562744900416244099, 1)
    ensures Steps(9562744900416244099, 1, 14010661636263409272, 2)
    ensures Steps(14010661636263409272, 2, 2482660656413906073, 22)
    ensures Steps(2482660656413906073, 22, 12779540726165998390, 33)
    ensures Steps(12779540726165998390, 33, 15469935623126070367, 40)
    ensures Steps(15469935623126070367, 40, 17576256497753526756, 43)
    ensures Steps(17576256497753526756, 43, 1419670933141876309, 571)
  {
  }

  lemma Bucket42Of57()
    ensures Bucket(42, 57) == 43
  {
    hide Bucket, Steps, KeyAt, JumpAt;
    Steps42Of57();
    JumpsBegin(42);
    Jump(42, 0, 42, 0, 9562744900416244099, 1);
    Jump(42, 1, 9562744900416244099, 1, 14010661636263409272, 2);
    Jump(42, 2, 14010661636263409272, 2, 2482660656413906073, 22);
    Jump(42, 3, 2482660656413906073, 22, 12779540726165998390, 33);
    Jump(42, 4, 12779540726165998390, 33, 15469935623126070367, 40);
    Jump(42, 5, 15469935623126070367, 40, 17576256497753526756, 43);
    Jump(42, 6, 17576256497753526756, 43, 1419670933141876309, 571);
    assert LastBelow(42, 57, 43);
    LastBelowUnique(42, 57, 43, Bucket(42, 57));
  }

  lemma Steps256Of1024()
    ensures Steps(256, 0, 13487971404480576769, 1)
    ensures Steps(13487971404480576769, 1, 14592341821717395966, 2)
    ensures Steps(14592341821717395966, 2, 15464308700622647303, 3)
    ensures Steps(15464308700622647303, 3, 4569389403071022828, 16)
    ensures Steps(4569389403071022828, 16, 2277514397722515261, 137)
    ensures Steps(2277514397722515261, 137, 4889150287270209354, 520)
    ensures Steps(4889150287270209354, 520, 2460374328665044003, 3906)
  {
  }

  lemma Bucket256Of1024()
    ensures Bucket(256, 1024) == 520
  {
    hide Bucket, Steps, KeyAt, JumpAt;
    Steps256Of1024();
    JumpsBegin(256);
    Jump(256, 0, 256, 0, 13487971404480576769, 1);
    Jump(256, 1, 13487971404480576769, 1, 14592341821717395966, 2);
    Jump(256, 2, 14592341821717395966, 2, 15464308700622647303, 3);
    Jump(256, 3, 15464308700622647303, 3, 4569389403071022828, 16);
    Jump(256, 4, 4569389403071022828, 16, 2277514397722515261, 137);
    Jump(256, 5, 2277514397722515261, 137, 4889150287270209354, 520);
    Jump(256, 6, 4889150287270209354, 520, 2460374328665044003, 3906);
    assert LastBelow(256, 1024, 520);
    LastBelowUnique(256, 1024, 520, Bucket(256, 1024));
  }
}
