// The compression functions that module/stl/src/stl_md5.c and stl_sha1.c plug into block hashing,
// on 32-bit words with wrap-around.
module Compressions {
  import opened StreamHashes

  type Word = bv32

  function Rotate(x: Word, s: nat): Word
    requires s <= 32
  {
    (x << s) | (x >> (32 - s))
  }

  function Byte(x: int): Word { (x % 256) as bv32 }

  // ---------- MD5 ----------

  datatype Md5State = Md5State(a: Word, b: Word, c: Word, d: Word)

  const MD5_INIT: Md5State := Md5State(0x67452301, 0xefcdab89, 0x98badcfe, 0x10325476)

  /** The constants of round 1. */
  function Md5Constant1(i: nat): Word {
    match i
    case 0 => 0xd76aa478 case 1 => 0xe8c7b756 case 2 => 0x242070db case 3 => 0xc1bdceee
    case 4 => 0xf57c0faf case 5 => 0x4787c62a case 6 => 0xa8304613 case 7 => 0xfd469501
    case 8 => 0x698098d8 case 9 => 0x8b44f7af case 10 => 0xffff5bb1 case 11 => 0x895cd7be
    case 12 => 0x6b901122 case 13 => 0xfd987193 case 14 => 0xa679438e case _ => 0x49b40821
  }

  /** The constants of round 2. */
  function Md5Constant2(i: nat): Word {
    match i
    case 16 => 0xf61e2562 case 17 => 0xc040b340 case 18 => 0x265e5a51 case 19 => 0xe9b6c7aa
    case 20 => 0xd62f105d case 21 => 0x02441453 case 22 => 0xd8a1e681 case 23 => 0xe7d3fbc8
    case 24 => 0x21e1cde6 case 25 => 0xc33707d6 case 26 => 0xf4d50d87 case 27 => 0x455a14ed
    case 28 => 0xa9e3e905 case 29 => 0xfcefa3f8 case 30 => 0x676f02d9 case _ => 0x8d2a4c8a
  }

  /** The constants of round 3. */
  function Md5Constant3(i: nat): Word {
    match i
    case 32 => 0xfffa3942 case 33 => 0x8771f681 case 34 => 0x6d9d6122 case 35 => 0xfde5380c
    case 36 => 0xa4beea44 case 37 => 0x4bdecfa9 case 38 => 0xf6bb4b60 case 39 => 0xbebfbc70
    case 40 => 0x289b7ec6 case 41 => 0xeaa127fa case 42 => 0xd4ef3085 case 43 => 0x04881d05
    case 44 => 0xd9d4d039 case 45 => 0xe6db99e5 case 46 => 0x1fa27cf8 case _ => 0xc4ac5665
  }

  /** The constants of round 4. */
  function Md5Constant4(i: nat): Word {
    match i
    case 48 => 0xf4292244 case 49 => 0x432aff97 case 50 => 0xab9423a7 case 51 => 0xfc93a039
    case 52 => 0x655b59c3 case 53 => 0x8f0ccc92 case 54 => 0xffeff47d case 55 => 0x85845dd1
    case 56 => 0x6fa87e4f case 57 => 0xfe2ce6e0 case 58 => 0xa3014314 case 59 => 0x4e0811a1
    case 60 => 0xf7537e82 case 61 => 0xbd3af235 case 62 => 0x2ad7d2bb case _ => 0xeb86d391
  }

  function Md5Constant(i: nat): Word {
    if i < 16 then Md5Constant1(i) else if i < 32 then Md5Constant2(i) else if i < 48 then Md5Constant3(i)
    else Md5Constant4(i)
  }

  function F(x: Word, y: Word, z: Word): Word { z ^ (x & (y ^ z)) }
  function G(x: Word, y: Word, z: Word): Word { y ^ (z & (x ^ y)) }
  function H(x: Word, y: Word, z: Word): Word { x ^ y ^ z }
  function I(x: Word, y: Word, z: Word): Word { y ^ (x | !z) }

  /** F and G save an AND-NOT but are the functions of section 3.4 of RFC 1321. */
  lemma FastForms(x: Word, y: Word, z: Word)
    ensures F(x, y, z) == (x & y) | (!x & z)
    ensures G(x, y, z) == (x & z) | (y & !z)
  {
  }

  /** Which of the block's 16 words step i reads, and how far it rotates. */
  function Md5Index(i: nat): (k: nat)
    requires i < 64
    ensures k < 16
  {
    if i < 16 then i else if i < 32 then (5 * i + 1) % 16 else if i < 48 then (3 * i + 5) % 16 else 7 * i % 16
  }

  function Md5Shift(i: nat): (s: nat)
    requires i < 64
    ensures s <= 32
  {
    var k := i % 4;
    if i < 16 then (if k == 0 then 7 else if k == 1 then 12 else if k == 2 then 17 else 22)
    else if i < 32 then (if k == 0 then 5 else if k == 1 then 9 else if k == 2 then 14 else 20)
    else if i < 48 then (if k == 0 then 4 else if k == 1 then 11 else if k == 2 then 16 else 23)
    else (if k == 0 then 6 else if k == 1 then 10 else if k == 2 then 15 else 21)
  }

  function LittleWord(p: seq<int>, n: nat): Word
    requires n * 4 + 4 <= |p|
  {
    Byte(p[n * 4]) | (Byte(p[n * 4 + 1]) << 8) | (Byte(p[n * 4 + 2]) << 16) | (Byte(p[n * 4 + 3]) << 24)
  }

  /** The macro STEP: what becomes of the first of the four words. */
  function Stepped(a: Word, f: Word, b: Word, x: Word, t: Word, s: nat): Word
    requires s <= 32
  {
    Rotate(a + (f + x + t), s) + b
  }

  /** The function of the round that step i belongs to. */
  function Md5Mix(i: nat, x: Word, y: Word, z: Word): Word {
    if i < 16 then F(x, y, z) else if i < 32 then G(x, y, z) else if i < 48 then H(x, y, z) else I(x, y, z)
  }

  /** The word that step i computes. */
  function Md5Row(a: Word, b: Word, c: Word, d: Word, p: seq<int>, i: nat): Word
    requires |p| == 64 && i < 64
  {
    Stepped(a, Md5Mix(i, b, c, d), b, LittleWord(p, Md5Index(i)), Md5Constant(i), Md5Shift(i))
  }

  function Md5Step(s: Md5State, p: seq<int>, i: nat): Md5State
    requires |p| == 64 && i < 64
  {
    Md5State(s.d, Md5Row(s.a, s.b, s.c, s.d, p, i), s.b, s.c)
  }

  /** n steps, the first of them step `from`. */
  function Md5Steps(s: Md5State, p: seq<int>, from: nat, n: nat): Md5State
    requires |p| == 64 && from + n <= 64
  {
    if n == 0 then s else Md5Step(Md5Steps(s, p, from, n - 1), p, from + n - 1)
  }

  lemma {:induction false} Md5Join(s: Md5State, p: seq<int>, from: nat, k: nat, n: nat)
    requires |p| == 64 && from + k + n <= 64
    ensures Md5Steps(Md5Steps(s, p, from, k), p, from + k, n) == Md5Steps(s, p, from, k + n)
  {
    hide Md5Step;
    if n > 0 { Md5Join(s, p, from, k, n - 1); }
  }

  /** Four steps give every word its turn, so they can leave each in its place. */
  lemma Md5Four(s: Md5State, p: seq<int>, from: nat, k: nat)
    requires |p| == 64 && from + k + 4 <= 64
    ensures var q, i := Md5Steps(s, p, from, k), from + k;
            var a := Md5Row(q.a, q.b, q.c, q.d, p, i);
            var d := Md5Row(q.d, a, q.b, q.c, p, i + 1);
            var c := Md5Row(q.c, d, a, q.b, p, i + 2);
            var b := Md5Row(q.b, c, d, a, p, i + 3);
            Md5Steps(s, p, from, k + 4) == Md5State(a, b, c, d)
  {
    hide Md5Row;
    assert Md5Steps(s, p, from, k + 2) == Md5Step(Md5Steps(s, p, from, k + 1), p, from + k + 1);
    assert Md5Steps(s, p, from, k + 4) == Md5Step(Md5Steps(s, p, from, k + 3), p, from + k + 3);
  }

  /** One turn of stl_md5_body's loop. */
  function Md5Compress(s: Md5State, p: seq<int>): Md5State {
    if |p| != 64 then s
    else
      Md5Plus(Md5Steps(s, p, 0, 64), s)
  }

  function Md5Plus(r: Md5State, s: Md5State): Md5State { Md5State(r.a + s.a, r.b + s.b, r.c + s.c, r.d + s.d) }

  // ---------- SHA-1 ----------

  datatype Sha1State = Sha1State(a: Word, b: Word, c: Word, d: Word, e: Word)

  const SHA1_INIT: Sha1State := Sha1State(0x67452301, 0xefcdab89, 0x98badcfe, 0x10325476, 0xc3d2e1f0)

  function F1(b: Word, c: Word, d: Word): Word { (b & c) | (!b & d) }
  function F2(b: Word, c: Word, d: Word): Word { b ^ c ^ d }
  function F3(b: Word, c: Word, d: Word): Word { (b & c) | (b & d) | (c & d) }

  /** F1 and F3 are the Ch and Maj functions of section 4.1.1 of FIPS 180-4. */
  lemma ChAndMaj(b: Word, c: Word, d: Word)
    ensures F1(b, c, d) == (b & c) ^ (!b & d)
    ensures F3(b, c, d) == (b & c) ^ (b & d) ^ (c & d)
  {
  }

  function BigWord(p: seq<int>, n: nat): Word
    requires n * 4 + 4 <= |p|
  {
    Byte(p[n * 4 + 3]) | (Byte(p[n * 4 + 2]) << 8) | (Byte(p[n * 4 + 1]) << 16) | (Byte(p[n * 4]) << 24)
  }

  function Mixed(x: Word, y: Word, z: Word, w: Word): Word { Rotate(x ^ y ^ z ^ w, 1) }

  /** The message schedule: word t of 80. */
  function Schedule(p: seq<int>, t: nat): Word
    requires |p| == 64
  {
    if t < 16 then BigWord(p, t)
    else Mixed(Schedule(p, t - 3), Schedule(p, t - 8), Schedule(p, t - 14), Schedule(p, t - 16))
  }

  /** Filling the words array. */
  method LoadWords(p: seq<int>) returns (words: array<Word>)
    requires |p| == 64
    ensures fresh(words) && words.Length == 80 && forall t :: 0 <= t < 80 ==> words[t] == Schedule(p, t)
  {
    hide Mixed, BigWord;
    words := new Word[80](_ => 0);
    for i := 0 to 16
      invariant forall t :: 0 <= t < i ==> words[t] == Schedule(p, t)
    {
      words[i] := BigWord(p, i);
    }
    for i := 16 to 80
      invariant forall t :: 0 <= t < i ==> words[t] == Schedule(p, t)
    {
      words[i] := Mixed(words[i - 3], words[i - 8], words[i - 14], words[i - 16]);
    }
  }

  function Sha1Constant(t: nat): Word {
    if t < 20 then 0x5a827999 else if t < 40 then 0x6ed9eba1 else if t < 60 then 0x8f1bbcdc else 0xca62c1d6
  }

  /** The word temp of the macro STEP. */
  function Turned(a: Word, f: Word, e: Word, w: Word, t: Word): Word { Rotate(a, 5) + f + e + w + t }

  function Rotate30(b: Word): Word { Rotate(b, 30) }

  function Sha1Mix(t: nat, b: Word, c: Word, d: Word): Word {
    if t < 20 then F1(b, c, d) else if 40 <= t < 60 then F3(b, c, d) else F2(b, c, d)
  }

  /** The word temp in step t. */
  function Sha1Row(a: Word, b: Word, c: Word, d: Word, e: Word, p: seq<int>, t: nat): Word
    requires |p| == 64
  {
    Turned(a, Sha1Mix(t, b, c, d), e, Schedule(p, t), Sha1Constant(t))
  }

  function Sha1Step(s: Sha1State, p: seq<int>, t: nat): Sha1State
    requires |p| == 64
  {
    Sha1State(Sha1Row(s.a, s.b, s.c, s.d, s.e, p, t), s.a, Rotate30(s.b), s.c, s.d)
  }

  /** n steps, the first of them step `from`. */
  function Sha1Steps(s: Sha1State, p: seq<int>, from: nat, n: nat): Sha1State
    requires |p| == 64
  {
    if n == 0 then s else Sha1Step(Sha1Steps(s, p, from, n - 1), p, from + n - 1)
  }

  lemma {:induction false} Sha1Join(s: Sha1State, p: seq<int>, from: nat, k: nat, n: nat)
    requires |p| == 64
    ensures Sha1Steps(Sha1Steps(s, p, from, k), p, from + k, n) == Sha1Steps(s, p, from, k + n)
  {
    hide Sha1Step;
    if n > 0 { Sha1Join(s, p, from, k, n - 1); }
  }

  /** Five steps, one after the other. */
  lemma Sha1Five(s: Sha1State, p: seq<int>, from: nat, k: nat)
    requires |p| == 64
    ensures var q, i := Sha1Steps(s, p, from, k), from + k;
            var t1 := Sha1Row(q.a, q.b, q.c, q.d, q.e, p, i);
            var t2 := Sha1Row(t1, q.a, Rotate30(q.b), q.c, q.d, p, i + 1);
            var t3 := Sha1Row(t2, t1, Rotate30(q.a), Rotate30(q.b), q.c, p, i + 2);
            var t4 := Sha1Row(t3, t2, Rotate30(t1), Rotate30(q.a), Rotate30(q.b), p, i + 3);
            var t5 := Sha1Row(t4, t3, Rotate30(t2), Rotate30(t1), Rotate30(q.a), p, i + 4);
            Sha1Steps(s, p, from, k + 5) == Sha1State(t5, t4, Rotate30(t3), Rotate30(t2), Rotate30(t1))
  {
    hide Sha1Row, Rotate30;
    assert Sha1Steps(s, p, from, k + 2) == Sha1Step(Sha1Steps(s, p, from, k + 1), p, from + k + 1);
    assert Sha1Steps(s, p, from, k + 4) == Sha1Step(Sha1Steps(s, p, from, k + 3), p, from + k + 3);
    assert Sha1Steps(s, p, from, k + 5) == Sha1Step(Sha1Steps(s, p, from, k + 4), p, from + k + 4);
  }

  /** One turn of stl_sha1_body's loop. */
  function Sha1Compress(s: Sha1State, p: seq<int>): Sha1State {
    if |p| != 64 then s
    else
      Sha1Plus(Sha1Steps(s, p, 0, 80), s)
  }

  function Sha1Plus(r: Sha1State, s: Sha1State): Sha1State {
    Sha1State(r.a + s.a, r.b + s.b, r.c + s.c, r.d + s.d, r.e + s.e)
  }

  // ---------- Streaming, for these two ----------

  /** MD5 of a message does not depend on how it is cut into stl_md5_compute calls. */
  lemma Md5AnySplit(pieces: seq<seq<int>>)
    ensures Final(Md5Compress, false, Updates(Md5Compress, Ctx(MD5_INIT, Zeros(64), 0), pieces))
         == Fold(Md5Compress, MD5_INIT, Padded(Concat(pieces), false))
  {
    AnySplitHashesAlike(Md5Compress, MD5_INIT, false, Zeros(64), pieces);
  }

  /** SHA-1 likewise; its context starts with whatever the buffer held. */
  lemma Sha1AnySplit(buffer: seq<int>, pieces: seq<seq<int>>)
    requires |buffer| == 64
    ensures Final(Sha1Compress, true, Updates(Sha1Compress, Ctx(SHA1_INIT, buffer, 0), pieces))
         == Fold(Sha1Compress, SHA1_INIT, Padded(Concat(pieces), true))
  {
    AnySplitHashesAlike(Sha1Compress, SHA1_INIT, true, buffer, pieces);
  }
}
