// Block-by-block hashing with a 64-byte buffer, as in module/stl/src/stl_md5.c and stl_sha1.c. The
// two differ in their compression function and in the byte order of the length; everything here
// holds for any compression function.
module StreamHashes {
  import opened Arithmetic

  /** A whole number of 64-byte blocks. */
  predicate Blocks(n: nat) { n % 64 == 0 }

  /** What a 64-bit counter keeps of a number. */
  function Wrapped(n: nat): nat { n % WORD64 }

  /** Compressing data 64 bytes at a time. */
  function Fold<S>(f: (S, seq<int>) -> S, s: S, data: seq<int>): S
    requires Blocks(|data|)
    decreases |data|
  {
    if data == [] then s else Fold(f, f(s, data[..64]), data[64..])
  }

  lemma {:induction false} FoldSplit<S>(f: (S, seq<int>) -> S, s: S, a: seq<int>, b: seq<int>)
    requires Blocks(|a|) && Blocks(|b|)
    ensures Blocks(|a + b|) && Fold(f, s, a + b) == Fold(f, Fold(f, s, a), b)
    decreases |a|
  {
    if a == [] {
      assert a + b == b;
    } else {
      assert (a + b)[..64] == a[..64] && (a + b)[64..] == a[64..] + b;
      FoldSplit(f, f(s, a[..64]), a[64..], b);
    }
  }

  lemma FoldOne<S>(f: (S, seq<int>) -> S, s: S, block: seq<int>)
    requires |block| == 64
    ensures Blocks(|block|) && Fold(f, s, block) == f(s, block)
  {
    assert block[..64] == block && block[64..] == [];
  }

  // ---------- Padding, as the standards define it ----------

  function Zeros(n: nat): (s: seq<int>)
    ensures |s| == n
  {
    seq(n, _ => 0)
  }

  /** The low 64 bits of the length in bits, least significant byte first. */
  function LittleLength(len: nat): (s: seq<int>)
    ensures |s| == 8
  {
    seq(8, i requires 0 <= i < 8 => len / Pow256(i) % 256)
  }

  function Pow256(k: nat): (r: nat)
    ensures r >= 1
  {
    if k == 0 then 1 else 256 * Pow256(k - 1)
  }

  function LengthField(big: bool, bits: nat): (s: seq<int>)
    ensures |s| == 8
  {
    var l := LittleLength(bits);
    if big then seq(8, i requires 0 <= i < 8 => l[7 - i]) else l
  }

  /** Eight bytes as a number, the first one weighing least or most. */
  function Weighed(f: seq<int>, big: bool): int
    requires |f| == 8
  {
    if big then
      f[7] + 0x100 * f[6] + 0x1_0000 * f[5] + 0x100_0000 * f[4] + 0x1_0000_0000 * f[3] + 0x100_0000_0000 * f[2]
      + 0x1_0000_0000_0000 * f[1] + 0x100_0000_0000_0000 * f[0]
    else
      f[0] + 0x100 * f[1] + 0x1_0000 * f[2] + 0x100_0000 * f[3] + 0x1_0000_0000 * f[4] + 0x100_0000_0000 * f[5]
      + 0x1_0000_0000_0000 * f[6] + 0x100_0000_0000_0000 * f[7]
  }

  /** The length field holds the number of bits, in bytes, in either order. */
  lemma LengthFieldWeighs(big: bool, bits: nat)
    requires bits < WORD64
    ensures Weighed(LengthField(big, bits), big) == bits
    ensures forall i :: 0 <= i < 8 ==> 0 <= LengthField(big, bits)[i] < 256
  {
    LittleWeighs(bits);
    hide LittleLength;
  }

  lemma LittleWeighs(bits: nat)
    requires bits < WORD64
    ensures Weighed(LittleLength(bits), false) == bits
    ensures forall i :: 0 <= i < 8 ==> 0 <= LittleLength(bits)[i] < 256
  {
    hide Pow256, LittleLength;
    forall i | 0 <= i < 8 ensures LittleLength(bits)[i] == bits / Pow256(i) % 256 { ByteAt(bits, i); }
    assert Pow256(0) == 1 by { NoPower(); }
    Shorter(bits, 0);
    Shorter(bits, 1);
    Shorter(bits, 2);
    Shorter(bits, 3);
    Shorter(bits, 4);
    Shorter(bits, 5);
    Shorter(bits, 6);
    Shorter(bits, 7);
    NothingAbove(bits);
  }

  lemma ByteAt(bits: nat, i: nat)
    requires i < 8
    ensures LittleLength(bits)[i] == bits / Pow256(i) % 256
  {
  }

  lemma NoPower()
    ensures Pow256(0) == 1
  {
  }

  /** Byte i is what bits / 256^i leaves when divided by 256. */
  lemma Shorter(bits: nat, i: nat)
    ensures bits / Pow256(i) == bits / Pow256(i) % 256 + 256 * (bits / Pow256(i + 1))
  {
    assert Pow256(i + 1) == 256 * Pow256(i);
    hide Pow256;
    DivTwice(bits, Pow256(i));
  }

  lemma DivTwice(x: nat, p: nat)
    requires p >= 1
    ensures x / (256 * p) == x / p / 256
  {
    var q, r := x / p, x % p;
    var s, u := q / 256, q % 256;
    assert x == q * p + r;
    assert q == 256 * s + u;
    assert u * p + p <= 256 * p by { MulMono(u + 1, 256, p); }
    assert x == s * (256 * p) + (u * p + r);
    Quotient(x, 256 * p, s, u * p + r);
  }

  lemma MulMono(a: nat, b: nat, p: nat)
    requires a <= b
    ensures a * p <= b * p
  {
  }

  lemma Quotient(x: nat, d: nat, s: nat, r: nat)
    requires x == s * d + r && r < d
    ensures x / d == s
  {
    var t := x / d;
    assert x == t * d + x % d;
    if t < s { MulMono(t + 1, s, d); }
    if s < t { MulMono(s + 1, t, d); }
  }

  lemma NothingAbove(bits: nat)
    requires bits < WORD64
    ensures bits / Pow256(8) == 0
  {
    assert Pow256(4) == 0x1_0000_0000;
    assert Pow256(8) == WORD64;
  }

  /** A 1 bit, zeros up to 8 bytes short of a block boundary, and the length in bits: sections 3.1
      and 3.2 of RFC 1321, section 5.1.1 of FIPS 180-4. */
  function Padded(m: seq<int>, big: bool): (p: seq<int>)
    ensures Blocks(|p|) && m <= p && |p| - |m| <= 72
  {
    m + [0x80] + Zeros((55 - |m|) % 64) + LengthField(big, Wrapped(|m| * 8))
  }

  // ---------- The context ----------

  datatype Ctx<S> = Ctx(state: S, buffer: seq<int>, bytes: nat)

  /** memcpy of data into buf at offset i. */
  function Over(buf: seq<int>, i: nat, data: seq<int>): (r: seq<int>)
    requires i + |data| <= |buf|
    ensures |r| == |buf| && r[..i] == buf[..i] && r[i..i + |data|] == data && r[i + |data|..] == buf[i + |data|..]
  {
    buf[..i] + data + buf[i + |data|..]
  }

  /** The largest multiple of 64 up to n. */
  function Whole(n: nat): (r: nat)
    ensures r <= n < r + 64 && Blocks(r)
  {
    n - n % 64
  }

  /** Whole blocks are compressed straight from the data, the rest is kept in the buffer. */
  function Tail<S>(f: (S, seq<int>) -> S, s: S, buf: seq<int>, data: seq<int>, bytes: nat): Ctx<S>
    requires |buf| == 64
  {
    var n := Whole(|data|);
    Ctx(Fold(f, s, data[..n]), Over(buf, 0, data[n..]), bytes)
  }

  function Update<S>(f: (S, seq<int>) -> S, c: Ctx<S>, data: seq<int>): Ctx<S>
    requires |c.buffer| == 64
  {
    var used := c.bytes % 64;
    var bytes := Wrapped(c.bytes + |data|);
    if used == 0 then Tail(f, c.state, c.buffer, data, bytes)
    else
      var free := 64 - used;
      if |data| < free then Ctx(c.state, Over(c.buffer, used, data), bytes)
      else
        var buf := Over(c.buffer, used, data[..free]);
        Tail(f, f(c.state, buf), buf, data[free..], bytes)
  }

  function Final<S>(f: (S, seq<int>) -> S, big: bool, c: Ctx<S>): S
    requires |c.buffer| == 64
  {
    var used := c.bytes % 64 + 1;
    var buf := Over(c.buffer, used - 1, [0x80]);
    var free := 64 - used;
    var length := LengthField(big, Wrapped(c.bytes * 8));
    if free < 8 then
      var buf1 := Over(buf, used, Zeros(free));
      var buf2 := Over(buf1, 0, Zeros(56));
      f(f(c.state, buf1), Over(buf2, 56, length))
    else
      f(c.state, Over(Over(buf, used, Zeros(free - 8)), 56, length))
  }

  // ---------- The context stands for the message so far ----------

  /** The message so far is b, in whole blocks and compressed, and rest, kept in the buffer. */
  ghost predicate Absorbed<S>(f: (S, seq<int>) -> S, init: S, c: Ctx<S>, b: seq<int>, rest: seq<int>) {
    Blocks(|b|) && |rest| < 64 && |c.buffer| == 64 && c.bytes == Wrapped(|b| + |rest|)
    && c.state == Fold(f, init, b) && c.buffer[..|rest|] == rest
  }

  lemma WrapMore(q: nat, z: nat)
    ensures Wrapped(WORD64 * q + z) == Wrapped(z)
  {
  }

  lemma WrapParts(x: nat) returns (q: nat)
    ensures x == WORD64 * q + Wrapped(x)
  {
    q := x / WORD64;
  }

  lemma WrapAdd(x: nat, n: nat)
    ensures Wrapped(Wrapped(x) + n) == Wrapped(x + n)
  {
    hide Wrapped;
    var q := WrapParts(x);
    WrapMore(q, Wrapped(x) + n);
  }

  lemma WrapBits(x: nat)
    ensures Wrapped(Wrapped(x) * 8) == Wrapped(x * 8)
  {
    hide Wrapped;
    var q := WrapParts(x);
    WrapMore(8 * q, Wrapped(x) * 8);
  }

  lemma WrapUsed(b: nat, r: nat)
    requires Blocks(b) && r < 64
    ensures Wrapped(b + r) % 64 == r
  {
    var q, k := (b + r) / WORD64, b / 64;
    assert Wrapped(b + r) == 64 * (k - 0x400_0000_0000_0000 * q) + r;
  }

  lemma CountBytes(b: nat, r: nat, n: nat)
    requires Blocks(b) && r < 64
    ensures Wrapped(b + r) % 64 == r
    ensures Wrapped(Wrapped(b + r) + n) == Wrapped(b + r + n)
    ensures Wrapped(Wrapped(b + r) * 8) == Wrapped((b + r) * 8)
  {
    hide Wrapped, Blocks;
    WrapUsed(b, r);
    WrapAdd(b + r, n);
    WrapBits(b + r);
  }

  lemma FillStart(buf: seq<int>, d: seq<int>)
    requires |d| <= |buf|
    ensures Over(buf, 0, d)[..|d|] == d
  {
  }

  /** Tail absorbs data after whole blocks b. */
  lemma TailAbsorbs<S>(f: (S, seq<int>) -> S, init: S, b: seq<int>, buf: seq<int>, data: seq<int>, bytes: nat)
    requires Blocks(|b|) && |buf| == 64 && bytes == Wrapped(|b| + |data|)
    ensures var n := Whole(|data|);
      Absorbed(f, init, Tail(f, Fold(f, init, b), buf, data, bytes), b + data[..n], data[n..])
  {
    hide Fold, Over, Blocks, Wrapped, Absorbed, Whole;
    var n := Whole(|data|);
    PartsAbsorb(f, init, b, buf, data[..n], data[n..], bytes);
  }

  lemma PartsAbsorb<S>(f: (S, seq<int>) -> S, init: S, b: seq<int>, buf: seq<int>, d1: seq<int>, d2: seq<int>,
    bytes: nat)
    requires Blocks(|b|) && Blocks(|d1|) && |d2| < 64 && |buf| == 64 && bytes == Wrapped(|b| + (|d1| + |d2|))
    ensures Absorbed(f, init, Ctx(Fold(f, Fold(f, init, b), d1), Over(buf, 0, d2), bytes), b + d1, d2)
  {
    hide Fold, Over, Blocks, Wrapped;
    FoldSplit(f, init, b, d1);
    FillStart(buf, d2);
    assert |b + d1| + |d2| == |b| + (|d1| + |d2|);
  }

  lemma FillBuffer(buf: seq<int>, rest: seq<int>, d: seq<int>)
    requires |rest| + |d| <= |buf| && buf[..|rest|] == rest
    ensures Over(buf, |rest|, d)[..|rest| + |d|] == rest + d
  {
  }

  lemma Regroup(b: seq<int>, rest: seq<int>, data: seq<int>, k: nat, n: nat)
    requires k <= |data| && n <= |data| - k
    ensures b + (rest + data[..k]) + data[k..][..n] + data[k..][n..] == b + rest + data
  {
    assert data == data[..k] + (data[k..][..n] + data[k..][n..]);
  }

  lemma UpdateAbsorbs<S>(f: (S, seq<int>) -> S, init: S, c: Ctx<S>, b: seq<int>, rest: seq<int>, data: seq<int>)
    returns (b': seq<int>, rest': seq<int>)
    requires Absorbed(f, init, c, b, rest)
    ensures Absorbed(f, init, Update(f, c, data), b', rest') && b' + rest' == b + rest + data
  {
    hide Fold, Over, Tail, Blocks, Wrapped, Whole;
    CountBytes(|b|, |rest|, |data|);
    var bytes := Wrapped(c.bytes + |data|);
    if rest == [] {
      var n := Whole(|data|);
      TailAbsorbs(f, init, b, c.buffer, data, bytes);
      b', rest' := b + data[..n], data[n..];
      assert b' + rest' == b + rest + data;
    } else {
      var free := 64 - |rest|;
      if |data| < free {
        FillBuffer(c.buffer, rest, data);
        b', rest' := b, rest + data;
        assert b' + rest' == b + rest + data;
      } else {
        b', rest' := FullBuffer(f, init, c, b, rest, data);
      }
    }
  }

  lemma FullBuffer<S>(f: (S, seq<int>) -> S, init: S, c: Ctx<S>, b: seq<int>, rest: seq<int>, data: seq<int>)
    returns (b': seq<int>, rest': seq<int>)
    requires Absorbed(f, init, c, b, rest) && rest != [] && |data| >= 64 - |rest|
    ensures Absorbed(f, init, Update(f, c, data), b', rest') && b' + rest' == b + rest + data
  {
    hide Fold, Over, Tail, Blocks, Wrapped, Whole;
    CountBytes(|b|, |rest|, |data|);
    var free := 64 - |rest|;
    var d1, d2 := data[..free], data[free..];
    var buf := Over(c.buffer, |rest|, d1);
    FillBuffer(c.buffer, rest, d1);
    assert buf == buf[..64] == rest + d1;
    FoldSplit(f, init, b, buf);
    FoldOne(f, Fold(f, init, b), buf);
    var n := Whole(|d2|);
    TailAbsorbs(f, init, b + buf, buf, d2, Wrapped(c.bytes + |data|));
    b', rest' := b + buf + d2[..n], d2[n..];
    Regroup(b, rest, data, free, n);
  }

  // ---------- Finishing ----------

  /** The last one or two blocks, built in the buffer. */
  lemma LastBlock(buf: seq<int>, rest: seq<int>, length: seq<int>)
    requires |buf| == 64 && |rest| <= 55 && buf[..|rest|] == rest && |length| == 8
    ensures Over(Over(Over(buf, |rest|, [0x80]), |rest| + 1, Zeros(55 - |rest|)), 56,
      length) == rest + [0x80] + Zeros(55 - |rest|) + length
  {
    var b1 := Over(buf, |rest|, [0x80]);
    FillBuffer(buf, rest, [0x80]);
    FillBuffer(b1, rest + [0x80], Zeros(55 - |rest|));
    var b2 := Over(b1, |rest| + 1, Zeros(55 - |rest|));
    FillBuffer(b2, rest + [0x80] + Zeros(55 - |rest|), length);
    var b3 := Over(b2, 56, length);
    assert b3 == b3[..64];
  }

  lemma LastButOne(buf: seq<int>, rest: seq<int>)
    requires |buf| == 64 && 55 < |rest| < 64 && buf[..|rest|] == rest
    ensures Over(Over(buf, |rest|, [0x80]), |rest| + 1, Zeros(63 - |rest|)) == rest + [0x80] + Zeros(63 - |rest|)
  {
    var b1 := Over(buf, |rest|, [0x80]);
    FillBuffer(buf, rest, [0x80]);
    FillBuffer(b1, rest + [0x80], Zeros(63 - |rest|));
    var b2 := Over(b1, |rest| + 1, Zeros(63 - |rest|));
    assert b2 == b2[..64];
  }

  lemma LengthBlock(buf: seq<int>, length: seq<int>)
    requires |buf| == 64 && |length| == 8
    ensures Over(Over(buf, 0, Zeros(56)), 56, length) == Zeros(56) + length
  {
  }

  lemma ZerosJoin(i: nat, j: nat)
    ensures Zeros(i) + Zeros(j) == Zeros(i + j)
  {
  }

  lemma PadShort(b: seq<int>, rest: seq<int>, big: bool)
    requires Blocks(|b|) && |rest| <= 55
    ensures Padded(b + rest, big)
         == b + (rest + [0x80] + Zeros(55 - |rest|) + LengthField(big, Wrapped((|b| + |rest|) * 8)))
  {
    PadsTo(|b|, |rest|);
    hide Blocks, Zeros, LengthField, Wrapped;
    Shifted(b, rest, [0x80], Zeros(55 - |rest|), LengthField(big, Wrapped((|b| + |rest|) * 8)));
  }

  lemma PadsTo(b: nat, r: nat)
    requires Blocks(b)
    ensures r <= 55 ==> (55 - (b + r)) % 64 == 55 - r
    ensures 55 < r < 64 ==> (55 - (b + r)) % 64 == 63 - r + 56
  {
  }

  lemma Shifted(b: seq<int>, r: seq<int>, x: seq<int>, y: seq<int>, z: seq<int>)
    ensures b + r + x + y + z == b + (r + x + y + z)
  {
  }

  lemma PadLong(b: seq<int>, rest: seq<int>, big: bool)
    requires Blocks(|b|) && 55 < |rest| < 64
    ensures Padded(b + rest, big)
         == b + ((rest + [0x80] + Zeros(63 - |rest|)) + (Zeros(56) + LengthField(big, Wrapped((|b| + |rest|) * 8))))
  {
    PadsTo(|b|, |rest|);
    ZerosJoin(63 - |rest|, 56);
    hide Blocks, Zeros, LengthField, Wrapped;
    var y, y', z := Zeros(63 - |rest|), Zeros(56), LengthField(big, Wrapped((|b| + |rest|) * 8));
    Shifted(b, rest, [0x80], y + y', z);
    assert rest + [0x80] + (y + y') + z == (rest + [0x80] + y) + (y' + z);
  }

  /** Finishing compresses exactly the padded message. */
  lemma FinalIsPadded<S>(f: (S, seq<int>) -> S, init: S, big: bool, c: Ctx<S>, b: seq<int>, rest: seq<int>)
    requires Absorbed(f, init, c, b, rest)
    ensures Final(f, big, c) == Fold(f, init, Padded(b + rest, big))
  {
    hide Fold, Over, Padded, Zeros, LengthField, Blocks, Wrapped;
    CountBytes(|b|, |rest|, 0);
    var length := LengthField(big, Wrapped((|b| + |rest|) * 8));
    if |rest| <= 55 {
      var z := 55 - |rest|;
      LastBlock(c.buffer, rest, length);
      PadShort(b, rest, big);
      FoldSplit(f, init, b, rest + [0x80] + Zeros(z) + length);
      FoldOne(f, Fold(f, init, b), rest + [0x80] + Zeros(z) + length);
    } else {
      var buf1 := rest + [0x80] + Zeros(63 - |rest|);
      LastButOne(c.buffer, rest);
      LengthBlock(buf1, length);
      PadLong(b, rest, big);
      FoldSplit(f, init, b, buf1 + (Zeros(56) + length));
      FoldSplit(f, Fold(f, init, b), buf1, Zeros(56) + length);
      FoldOne(f, Fold(f, init, b), buf1);
      FoldOne(f, f(Fold(f, init, b), buf1), Zeros(56) + length);
    }
  }

  // ---------- Any split of a message into updates ----------

  function Updates<S>(f: (S, seq<int>) -> S, c: Ctx<S>, pieces: seq<seq<int>>): (r: Ctx<S>)
    requires |c.buffer| == 64
    ensures |r.buffer| == 64
    decreases |pieces|
  {
    if pieces == [] then c else Updates(f, Update(f, c, pieces[0]), pieces[1..])
  }

  ghost function Concat(pieces: seq<seq<int>>): seq<int> {
    if pieces == [] then [] else pieces[0] + Concat(pieces[1..])
  }

  lemma {:induction false} UpdatesAbsorb<S>(f: (S, seq<int>) -> S, init: S, c: Ctx<S>, b: seq<int>, rest: seq<int>,
    pieces: seq<seq<int>>)
    returns (b': seq<int>, rest': seq<int>)
    requires Absorbed(f, init, c, b, rest)
    ensures Absorbed(f, init, Updates(f, c, pieces), b', rest') && b' + rest' == b + rest + Concat(pieces)
    decreases |pieces|
  {
    hide Absorbed, Update;
    BufferSize(f, init, c, b, rest);
    if pieces == [] {
      b', rest' := b, rest;
    } else {
      b', rest' := UpdateAbsorbs(f, init, c, b, rest, pieces[0]);
      var m := b' + rest';
      b', rest' := UpdatesAbsorb(f, init, Update(f, c, pieces[0]), b', rest', pieces[1..]);
      assert b + rest + pieces[0] + Concat(pieces[1..]) == b + rest + Concat(pieces);
    }
  }

  lemma BufferSize<S>(f: (S, seq<int>) -> S, init: S, c: Ctx<S>, b: seq<int>, rest: seq<int>)
    requires Absorbed(f, init, c, b, rest)
    ensures |c.buffer| == 64
  {
  }

  /** However a message is cut into pieces, hashing the pieces one after the other gives what
      compressing the padded message block by block gives. */
  lemma AnySplitHashesAlike<S>(f: (S, seq<int>) -> S, init: S, big: bool, buffer: seq<int>, pieces: seq<seq<int>>)
    requires |buffer| == 64
    ensures Final(f, big, Updates(f, Ctx(init, buffer, 0), pieces)) == Fold(f, init, Padded(Concat(pieces), big))
  {
    assert Absorbed(f, init, Ctx(init, buffer, 0), [], []);
    var b, rest := UpdatesAbsorb(f, init, Ctx(init, buffer, 0), [], [], pieces);
    assert [] + [] + Concat(pieces) == Concat(pieces);
    FinalIsPadded(f, init, big, Updates(f, Ctx(init, buffer, 0), pieces), b, rest);
  }

  // ---------- The calls on a context updated in place ----------

  class Hasher<S> {
    const compress: (S, seq<int>) -> S
    const big: bool
    var state: S
    const buffer: array<int>
    var bytes: nat

    ghost function View(): Ctx<S>
      reads this, buffer
    {
      Ctx(state, buffer[..], bytes)
    }

    ghost predicate Valid()
      reads this
    {
      buffer.Length == 64
    }

    constructor (compress: (S, seq<int>) -> S, big: bool, init: S)
      ensures Valid() && fresh(buffer) && this.compress == compress && this.big == big
      ensures View() == Ctx(init, Zeros(64), 0)
    {
      this.compress, this.big := compress, big;
      state, bytes := init, 0;
      buffer := new int[64](_ => 0);
      new;
      assert buffer[..] == Zeros(64);
    }

    /** The block loop. */
    method Body(data: seq<int>)
      requires Blocks(|data|)
      modifies this`state
      ensures state == Fold(compress, old(state), data)
    {
      hide Fold;
      var p := 0;
      assert data[..0] == [];
      FoldNone(compress, state);
      while p < |data|
        invariant 0 <= p <= |data| && Blocks(p) && Blocks(|data|)
        invariant state == Fold(compress, old(state), data[..p])
      {
        FoldNext(compress, old(state), data, p);
        state := compress(state, data[p..p + 64]);
        p := p + 64;
      }
      assert data[..|data|] == data;
    }

    /** memcpy into the buffer. */
    method Copy(i: nat, data: seq<int>)
      requires Valid() && i + |data| <= 64
      modifies buffer
      ensures buffer[..] == Over(old(buffer[..]), i, data)
    {
      for j := 0 to |data|
        invariant forall k :: 0 <= k < j ==> buffer[i + k] == data[k]
        invariant forall k :: 0 <= k < 64 && !(i <= k < i + j) ==> buffer[k] == old(buffer[k])
      {
        buffer[i + j] := data[j];
      }
      assert buffer[..] == Over(old(buffer[..]), i, data);
    }

    method Compute(data: seq<int>)
      requires Valid()
      modifies this`state, this`bytes, buffer
      ensures View() == Update(compress, old(View()), data)
    {
      hide Fold, Over, Wrapped, Whole;
      var used := bytes % 64;
      bytes := Wrapped(bytes + |data|);
      var rest := data;
      if used != 0 {
        var free := 64 - used;
        if |data| < free {
          Copy(used, data);
          return;
        }
        Copy(used, data[..free]);
        rest := data[free..];
        FoldOne(compress, state, buffer[..]);
        Body(buffer[..]);
      }
      var n := Whole(|rest|);
      if |rest| >= 64 {
        Body(rest[..n]);
      } else {
        ShortIsNone(|rest|);
        assert rest[..0] == [];
        FoldNone(compress, state);
      }
      Copy(0, rest[n..]);
    }

    method Checksum() returns (result: S)
      requires Valid()
      modifies this`state, buffer
      ensures result == Final(compress, big, old(View()))
    {
      hide Fold, Over, Wrapped, Zeros, LengthField;
      var used := bytes % 64;
      Copy(used, [0x80]);
      used := used + 1;
      var free := 64 - used;
      if free < 8 {
        Copy(used, Zeros(free));
        FoldOne(compress, state, buffer[..]);
        Body(buffer[..]);
        used := 0;
        free := 64;
      }
      Copy(used, Zeros(free - 8));
      Copy(56, LengthField(big, Wrapped(bytes * 8)));
      FoldOne(compress, state, buffer[..]);
      Body(buffer[..]);
      result := state;
    }
  }

  lemma FoldNone<S>(f: (S, seq<int>) -> S, s: S)
    ensures Fold(f, s, []) == s
  {
  }

  lemma ShortIsNone(n: nat)
    requires n < 64
    ensures Whole(n) == 0
  {
  }

  lemma FoldNext<S>(f: (S, seq<int>) -> S, s: S, data: seq<int>, p: nat)
    requires Blocks(|data|) && Blocks(p) && p < |data|
    ensures p + 64 <= |data| && Blocks(p + 64)
    ensures Fold(f, s, data[..p + 64]) == f(Fold(f, s, data[..p]), data[p..p + 64])
  {
    assert data[..p + 64] == data[..p] + data[p..p + 64];
    FoldSplit(f, s, data[..p], data[p..p + 64]);
    FoldOne(f, Fold(f, s, data[..p]), data[p..p + 64]);
  }
}
