// Base64 as in module/stl/src/stl_base64.c. Characters and bytes are their codes; shifts and masks
// of the 24-bit accumulator are written as divisions and remainders.
module Base64Codec {

  const PAD: int := 61

  /** The alphabet of section 4 of RFC 4648. */
  function Symbol(v: nat): int
    requires v < 64
  {
    if v < 26 then 65 + v else if v < 52 then 71 + v else if v < 62 then v - 4 else if v == 62 then 43 else 47
  }

  /** The lookup table: -1 for everything outside the alphabet. */
  function Value(c: int): (v: int)
    ensures -1 <= v < 64
  {
    if 65 <= c <= 90 then c - 65
    else if 97 <= c <= 122 then c - 71
    else if 48 <= c <= 57 then c + 4
    else if c == 43 then 62
    else if c == 47 then 63
    else -1
  }

  predicate IsSpace(c: int) { c == 32 || c == 9 || c == 10 || c == 13 }

  lemma SymbolValue(v: nat)
    requires v < 64
    ensures Value(Symbol(v)) == v && !IsSpace(Symbol(v)) && Symbol(v) != PAD
  {
  }

  predicate IsBytes(s: seq<int>) { forall i :: 0 <= i < |s| ==> 0 <= s[i] < 256 }

  // ---------- Encoding ----------

  /** Four 6-bit digits of a 24-bit number. */
  function Digits(n: nat): seq<int>
    requires n < 0x100_0000
  {
    [Symbol(n / 0x4_0000), Symbol(n / 0x1000 % 64), Symbol(n / 64 % 64), Symbol(n % 64)]
  }

  /** Three bytes as a 24-bit number. */
  function Joined(a: int, b: int, c: int): (n: nat)
    requires 0 <= a < 256 && 0 <= b < 256 && 0 <= c < 256
    ensures n < 0x100_0000
  {
    a * 0x1_0000 + b * 0x100 + c
  }

  /** Section 4 of RFC 4648: three bytes become four symbols; one or two left over are padded. */
  function Encoded(s: seq<int>): seq<int>
    requires IsBytes(s)
    decreases |s|
  {
    if |s| == 0 then []
    else if |s| == 1 then Digits(Joined(s[0], 0, 0))[..2] + [PAD, PAD]
    else if |s| == 2 then Digits(Joined(s[0], s[1], 0))[..3] + [PAD]
    else Digits(Joined(s[0], s[1], s[2])) + Encoded(s[3..])
  }

  lemma {:induction false} EncodedLength(s: seq<int>)
    requires IsBytes(s)
    ensures |Encoded(s)| == 4 * ((|s| + 2) / 3)
    decreases |s|
  {
    hide Encoded, IsBytes;
    if |s| >= 3 {
      BytesFrom(s, 3);
      EncodedLength(s[3..]);
      FourMore(s);
    } else {
      ShortLength(s);
    }
  }

  lemma BytesFrom(s: seq<int>, k: nat)
    requires IsBytes(s) && k <= |s|
    ensures IsBytes(s[k..])
  {
  }

  lemma FourMore(s: seq<int>)
    requires IsBytes(s) && |s| >= 3
    ensures IsBytes(s[3..]) && |Encoded(s)| == 4 + |Encoded(s[3..])|
  {
    hide Symbol, Joined;
  }

  lemma ShortLength(s: seq<int>)
    requires IsBytes(s) && |s| < 3
    ensures |Encoded(s)| == if |s| == 0 then 0 else 4
  {
    hide Symbol, Joined;
  }

  lemma EncodedNone()
    ensures Encoded([]) == []
  {
  }

  lemma EncodedThree(s: seq<int>)
    requires IsBytes(s) && |s| >= 3
    ensures Encoded(s) == Digits(Joined(s[0], s[1], s[2])) + Encoded(s[3..])
  {
  }

  /** Whole groups first: what the loop has written when it has just emptied its accumulator. */
  lemma {:induction false} EncodedGroup(s: seq<int>, k: nat)
    requires IsBytes(s) && k + 3 <= |s| && k % 3 == 0
    ensures Encoded(s[..k + 3]) == Encoded(s[..k]) + Digits(Joined(s[k], s[k + 1], s[k + 2]))
    decreases k
  {
    hide Encoded, Digits, Joined;
    EncodedThree(s[..k + 3]);
    EncodedNone();
    if k == 0 {
      assert s[..3][3..] == [] && s[..0] == [];
    } else {
      EncodedThree(s[..k]);
      EncodedGroup(s[3..], k - 3);
      assert s[..k + 3][3..] == s[3..][..k] && s[..k][3..] == s[3..][..k - 3];
    }
  }

  lemma {:induction false} EncodedTail(s: seq<int>, k: nat)
    requires IsBytes(s) && k <= |s| < k + 3 && k % 3 == 0
    ensures Encoded(s) == Encoded(s[..k]) + Encoded(s[k..])
    decreases k
  {
    hide Encoded, Digits, Joined;
    EncodedNone();
    if k == 0 {
      assert s[..0] == [] && s[0..] == s;
    } else {
      EncodedThree(s);
      EncodedThree(s[..k]);
      EncodedTail(s[3..], k - 3);
      assert s[..k][3..] == s[3..][..k - 3] && s[k..] == s[3..][k - 3..];
    }
  }

  function Shift(pos: int): nat { if pos == 2 then 0x1_0000 else if pos == 1 then 0x100 else 1 }

  /** What the accumulator holds of the bytes after k. */
  function Held(s: seq<int>, k: nat, i: nat): nat
    requires IsBytes(s) && k <= i <= |s| && i < k + 3
  {
    if i == k then 0 else if i == k + 1 then Joined(s[k], 0, 0) else Joined(s[k], s[k + 1], 0)
  }

  lemma HeldNext(s: seq<int>, k: nat, i: nat)
    requires IsBytes(s) && k <= i < |s| && i < k + 3
    ensures var sum := Held(s, k, i) + s[i] * Shift(2 - (i - k));
      if i < k + 2 then sum == Held(s, k, i + 1) else sum == Joined(s[k], s[k + 1], s[k + 2])
  {
  }

  /** What is written for the last one or two bytes. */
  lemma LastSymbols(s: seq<int>, k: nat)
    requires IsBytes(s) && k <= |s| < k + 3
    ensures |s| == k ==> Encoded(s[k..]) == []
    ensures Held(s, k, |s|) < 0x100_0000
    ensures |s| > k ==>
      var n := Held(s, k, |s|);
      Encoded(s[k..]) == [Symbol(n / 0x4_0000), Symbol(n / 0x1000 % 64),
                          if |s| == k + 2 then Symbol(n / 64 % 64) else PAD, PAD]
  {
    hide Symbol, Joined;
  }

  method Encode(src: seq<int>) returns (dst: seq<int>)
    requires IsBytes(src)
    ensures dst == Encoded(src)
  {
    hide Encoded, Symbol, Joined, Held, Shift;
    dst := [];
    var pos, buf := 2, 0;
    var i := 0;
    ghost var k := 0;
    assert src[..0] == [];
    EncodedNone();
    HeldNothing(src, 0);
    while i < |src|
      invariant 0 <= k <= i <= |src| && k % 3 == 0 && i < k + 3 && pos == 2 - (i - k)
      invariant buf == Held(src, k, i) && dst == Encoded(src[..k])
    {
      HeldNext(src, k, i);
      buf := buf + src[i] * Shift(pos);
      pos := pos - 1;
      i := i + 1;
      if pos < 0 {
        EncodedGroup(src, k);
        dst := dst + [Symbol(buf / 0x4_0000), Symbol(buf / 0x1000 % 64), Symbol(buf / 64 % 64), Symbol(buf % 64)];
        pos := 2;
        buf := 0;
        k := i;
        HeldNothing(src, k);
      }
    }
    EncodedTail(src, k);
    LastSymbols(src, k);
    if pos != 2 {
      dst := dst + [Symbol(buf / 0x4_0000), Symbol(buf / 0x1000 % 64),
                    if pos == 0 then Symbol(buf / 64 % 64) else PAD, PAD];
    }
  }

  lemma HeldNothing(s: seq<int>, k: nat)
    requires IsBytes(s) && k <= |s|
    ensures Held(s, k, k) == 0
  {
  }

  // ---------- Decoding ----------

  /** The decoder's variables: the accumulator, how many symbols it holds, which padding was seen
      (1 after two symbols, 2 after three), and the bytes written. */
  datatype Decoder = Decoder(buf: nat, pos: nat, end: nat, out: seq<int>)

  datatype Outcome = Going(d: Decoder) | Bad(written: seq<int>)

  /** One more symbol value; the fourth empties the accumulator. */
  function Take(d: Decoder, v: nat): Decoder {
    var buf := d.buf * 64 + v;
    if d.pos + 1 < 4 then Decoder(buf, d.pos + 1, d.end, d.out)
    else Decoder(0, 0, d.end,
                 d.out + [buf / 0x1_0000 % 256] + (if d.end == 0 || d.end > 1 then [buf / 0x100 % 256] else [])
                       + (if d.end == 0 || d.end > 2 then [buf % 256] else []))
  }

  function Accept(d: Decoder, c: int): Outcome {
    if IsSpace(c) then Bad(d.out)
    else if c == PAD then
      if d.end != 0 then Going(Take(d, 0))
      else if d.pos == 2 then Going(Take(d.(end := 1), 0))
      else if d.pos == 3 then Going(Take(d.(end := 2), 0))
      else Bad(d.out)
    else if 0 < c < 127 && Value(c) >= 0 then Going(Take(d, Value(c)))
    else Bad(d.out)
  }

  function AcceptAll(d: Decoder, s: seq<int>): Outcome
    decreases |s|
  {
    if s == [] then Going(d)
    else match Accept(d, s[0])
      case Going(d') => AcceptAll(d', s[1..])
      case Bad(w) => Bad(w)
  }

  const START: Decoder := Decoder(0, 0, 0, [])

  /** The bytes, or nothing if a symbol is out of place or the last group is not whole. */
  datatype Decoding = Bytes(bytes: seq<int>) | Refused

  function Decoded(s: seq<int>): Decoding {
    match AcceptAll(START, s)
    case Going(d) => if d.pos == 0 then Bytes(d.out) else Refused
    case Bad(_) => Refused
  }

  method Decode(src: seq<int>) returns (code: int, dst: seq<int>)
    ensures Decoded(src).Bytes? ==> dst == Decoded(src).bytes && code == |dst|
    ensures Decoded(src).Refused? ==> code == -1
    ensures |dst| <= DecLen(|src|)
  {
    hide Take, Accept, AcceptAll, DecLen;
    var d := START;
    var i := 0;
    assert src[0..] == src;
    while i < |src|
      invariant 0 <= i <= |src| && AcceptAll(d, src[i..]) == AcceptAll(START, src)
      invariant WithinLength(d, i)
    {
      AcceptNext(d, src, i);
      WrittenSoFar(d, i, src[i]);
      var step := Accept(d, src[i]);
      i := i + 1;
      match step
      case Bad(w) =>
        DecLenGrows(i - 1, |src|);
        return -1, w;
      case Going(d') =>
        d := d';
    }
    assert src[i..] == [];
    AcceptNone(d);
    WithinEnd(d, i);
    if d.pos != 0 {
      return -1, d.out;
    }
    return |d.out|, d.out;
  }

  // ---------- The two length functions ----------

  function EncLen(n: nat): nat { (n + 2) * 4 / 3 }

  function DecLen(n: nat): nat { n * 3 / 4 }

  lemma EncLenBounds(s: seq<int>)
    requires IsBytes(s)
    ensures |Encoded(s)| <= EncLen(|s|)
  {
    EncodedLength(s);
  }

  /** After i symbols: at most three bytes for every four. */
  ghost predicate WithinLength(d: Decoder, i: nat) { d.pos == i % 4 && |d.out| <= 3 * (i / 4) }

  lemma WrittenSoFar(d: Decoder, i: nat, c: int)
    requires WithinLength(d, i)
    ensures match Accept(d, c) case Going(d') => WithinLength(d', i + 1) case Bad(w) => |w| <= DecLen(i)
  {
  }

  lemma WithinEnd(d: Decoder, i: nat)
    requires WithinLength(d, i)
    ensures |d.out| <= DecLen(i)
  {
  }

  lemma DecLenGrows(i: nat, j: nat)
    requires i <= j
    ensures DecLen(i) <= DecLen(j)
  {
  }

  lemma AcceptNone(d: Decoder)
    ensures AcceptAll(d, []) == Going(d)
  {
  }

  lemma AcceptNext(d: Decoder, s: seq<int>, i: nat)
    requires i < |s|
    ensures AcceptAll(d, s[i..])
         == match Accept(d, s[i]) case Going(d') => AcceptAll(d', s[i + 1..]) case Bad(w) => Bad(w)
  {
    assert s[i..][0] == s[i] && s[i..][1..] == s[i + 1..];
  }

  // ---------- Round trip ----------

  lemma AcceptSymbol(d: Decoder, v: nat, rest: seq<int>)
    requires v < 64
    ensures AcceptAll(d, [Symbol(v)] + rest) == AcceptAll(Take(d, v), rest)
  {
    SymbolValue(v);
    assert ([Symbol(v)] + rest)[1..] == rest;
  }

  lemma AcceptPad(d: Decoder, rest: seq<int>)
    requires d.end != 0 || d.pos == 2 || d.pos == 3
    ensures AcceptAll(d, [PAD] + rest)
         == AcceptAll(Take(if d.end != 0 then d else if d.pos == 2 then d.(end := 1) else d.(end := 2), 0), rest)
  {
    assert ([PAD] + rest)[1..] == rest;
  }

  /** The digits of a number add up to it again. */
  lemma DigitsAddUp(n: nat)
    requires n < 0x100_0000
    ensures n / 0x4_0000 < 64
    ensures ((n / 0x4_0000 * 64 + n / 0x1000 % 64) * 64 + n / 64 % 64) * 64 + n % 64 == n
  {
  }

  lemma BytesOut(a: int, b: int, c: int)
    requires 0 <= a < 256 && 0 <= b < 256 && 0 <= c < 256
    ensures var n := Joined(a, b, c); n / 0x1_0000 % 256 == a && n / 0x100 % 256 == b && n % 256 == c
  {
    LowByte(a * 0x100 + b, c);
    LowByte(a, b);
    HighByte(a, b * 0x100 + c);
  }

  lemma LowByte(h: nat, l: nat)
    requires l < 256
    ensures (h * 0x100 + l) % 256 == l && (h * 0x100 + l) / 0x100 == h
  {
  }

  lemma HighByte(h: nat, l: nat)
    requires l < 0x1_0000
    ensures (h * 0x1_0000 + l) / 0x1_0000 == h
  {
  }

  /** Four symbols of a whole group give its three bytes. */
  lemma GroupBack(out: seq<int>, a: int, b: int, c: int, rest: seq<int>)
    requires 0 <= a < 256 && 0 <= b < 256 && 0 <= c < 256
    ensures AcceptAll(Decoder(0, 0, 0, out), Digits(Joined(a, b, c)) + rest)
         == AcceptAll(Decoder(0, 0, 0, out + [a, b, c]), rest)
  {
    hide AcceptAll, Accept, Symbol, Joined;
    var n := Joined(a, b, c);
    DigitsAddUp(n);
    BytesOut(a, b, c);
    var v0, v1, v2, v3 := n / 0x4_0000, n / 0x1000 % 64, n / 64 % 64, n % 64;
    var d0 := Decoder(0, 0, 0, out);
    assert Digits(n) + rest == [Symbol(v0)] + ([Symbol(v1)] + ([Symbol(v2)] + ([Symbol(v3)] + rest)));
    AcceptSymbol(d0, v0, [Symbol(v1)] + ([Symbol(v2)] + ([Symbol(v3)] + rest)));
    AcceptSymbol(Take(d0, v0), v1, [Symbol(v2)] + ([Symbol(v3)] + rest));
    AcceptSymbol(Take(Take(d0, v0), v1), v2, [Symbol(v3)] + rest);
    AcceptSymbol(Take(Take(Take(d0, v0), v1), v2), v3, rest);
    assert out + [a] + [b] + [c] == out + [a, b, c];
  }

  lemma TwoBack(out: seq<int>, a: int, b: int)
    requires 0 <= a < 256 && 0 <= b < 256
    ensures AcceptAll(Decoder(0, 0, 0, out), Digits(Joined(a, b, 0))[..3] + [PAD])
         == Going(Decoder(0, 0, 2, out + [a, b]))
  {
    hide AcceptAll, Accept, Symbol, Joined;
    var n := Joined(a, b, 0);
    DigitsAddUp(n);
    BytesOut(a, b, 0);
    var v0, v1, v2 := n / 0x4_0000, n / 0x1000 % 64, n / 64 % 64;
    var d0 := Decoder(0, 0, 0, out);
    LowBits(a, b);
    assert Digits(n)[..3] + [PAD] == [Symbol(v0)] + ([Symbol(v1)] + ([Symbol(v2)] + ([PAD] + [])));
    AcceptSymbol(d0, v0, [Symbol(v1)] + ([Symbol(v2)] + ([PAD] + [])));
    AcceptSymbol(Take(d0, v0), v1, [Symbol(v2)] + ([PAD] + []));
    AcceptSymbol(Take(Take(d0, v0), v1), v2, [PAD] + []);
    AcceptPad(Take(Take(Take(d0, v0), v1), v2), []);
    AcceptNone(Decoder(0, 0, 2, out + [a, b]));
    assert out + [a] + [b] + [] == out + [a, b];
  }

  /** Numbers made of fewer bytes have zero digits at the end. */
  lemma LowBits(a: int, b: int)
    requires 0 <= a < 256 && 0 <= b < 256
    ensures Joined(a, b, 0) % 64 == 0
    ensures b == 0 ==> Joined(a, b, 0) / 64 % 64 == 0
  {
  }

  lemma OneBack(out: seq<int>, a: int)
    requires 0 <= a < 256
    ensures AcceptAll(Decoder(0, 0, 0, out), Digits(Joined(a, 0, 0))[..2] + [PAD, PAD])
         == Going(Decoder(0, 0, 1, out + [a]))
  {
    hide AcceptAll, Accept, Symbol, Joined;
    var n := Joined(a, 0, 0);
    DigitsAddUp(n);
    BytesOut(a, 0, 0);
    var v0, v1 := n / 0x4_0000, n / 0x1000 % 64;
    var d0 := Decoder(0, 0, 0, out);
    LowBits(a, 0);
    assert Digits(n)[..2] + [PAD, PAD] == [Symbol(v0)] + ([Symbol(v1)] + ([PAD] + ([PAD] + [])));
    AcceptSymbol(d0, v0, [Symbol(v1)] + ([PAD] + ([PAD] + [])));
    AcceptSymbol(Take(d0, v0), v1, [PAD] + ([PAD] + []));
    var d2 := Take(Take(d0, v0), v1);
    AcceptPad(d2, [PAD] + []);
    AcceptPad(Take(d2.(end := 1), 0), []);
    AcceptNone(Decoder(0, 0, 1, out + [a]));
    assert out + [a] + [] + [] == out + [a];
  }

  /** The padding mark left after a message of this length. */
  function PadMark(n: nat): nat { if n % 3 == 0 then 0 else n % 3 }

  lemma {:induction false} RoundTripFrom(out: seq<int>, s: seq<int>)
    requires IsBytes(s)
    ensures AcceptAll(Decoder(0, 0, 0, out), Encoded(s)) == Going(Decoder(0, 0, PadMark(|s|), out + s))
    decreases |s|
  {
    hide AcceptAll, Digits, Joined;
    if |s| == 0 {
      AcceptNone(Decoder(0, 0, 0, out));
    } else if |s| == 1 {
      OneBack(out, s[0]);
      assert out + [s[0]] == out + s;
    } else if |s| == 2 {
      TwoBack(out, s[0], s[1]);
      assert out + [s[0], s[1]] == out + s;
    } else {
      GroupBack(out, s[0], s[1], s[2], Encoded(s[3..]));
      RoundTripFrom(out + [s[0], s[1], s[2]], s[3..]);
      assert out + [s[0], s[1], s[2]] + s[3..] == out + s;
    }
  }

  /** Decoding what was encoded gives it back. */
  lemma RoundTrip(s: seq<int>)
    requires IsBytes(s)
    ensures Decoded(Encoded(s)) == Bytes(s)
  {
    RoundTripFrom([], s);
    assert [] + s == s;
  }

  /** No two messages have the same encoding. */
  lemma EncodingIsInjective(s: seq<int>, t: seq<int>)
    requires IsBytes(s) && IsBytes(t) && Encoded(s) == Encoded(t)
    ensures s == t
  {
    RoundTrip(s);
    RoundTrip(t);
  }

  // ---------- What the decoder accepts ----------

  ghost predicate Clean(s: seq<int>) { forall i :: 0 <= i < |s| ==> s[i] == PAD || Value(s[i]) >= 0 }

  ghost predicate FirstPad(s: seq<int>, i: int) { 0 <= i < |s| && s[i] == PAD && PAD !in s[..i] }

  /** The first padding character is the third or fourth of its group of four. */
  ghost predicate PadsLate(s: seq<int>, pos: nat) { forall i :: FirstPad(s, i) ==> (pos + i) % 4 >= 2 }

  lemma PadsLateStep(s: seq<int>, pos: nat)
    requires s != [] && pos < 4
    ensures s[0] == PAD ==> (PadsLate(s, pos) <==> pos >= 2)
    ensures s[0] != PAD ==> (PadsLate(s, pos) <==> PadsLate(s[1..], (pos + 1) % 4))
  {
    if s[0] == PAD {
      assert FirstPad(s, 0);
      forall i | 0 < i <= |s| ensures PAD in s[..i] { assert s[..i][0] == PAD; }
    } else {
      forall i ensures FirstPad(s, i + 1) <==> FirstPad(s[1..], i) {
        if 0 <= i < |s| - 1 { assert s[..i + 1] == [s[0]] + s[1..][..i]; }
      }
      forall i ensures FirstPad(s, i) ==> i > 0 && FirstPad(s[1..], i - 1) {
        assert FirstPad(s, i - 1 + 1) == FirstPad(s, i);
      }
    }
  }

  lemma {:induction false} AcceptsFrom(d: Decoder, s: seq<int>)
    requires d.pos < 4
    ensures AcceptAll(d, s).Going? <==> Clean(s) && (d.end != 0 || PadsLate(s, d.pos))
    ensures AcceptAll(d, s).Going? ==> AcceptAll(d, s).d.pos == (d.pos + |s|) % 4
    decreases |s|
  {
    hide PadsLate, FirstPad, Take;
    if s == [] {
      NoPads(d.pos);
    } else {
      PadsLateStep(s, d.pos);
      CleanStep(s);
      TakePos(d, s[0]);
      match Accept(d, s[0])
      case Going(d') => AcceptsFrom(d', s[1..]);
      case Bad(_) =>
    }
  }

  lemma NoPads(pos: nat)
    ensures PadsLate([], pos)
  {
  }

  lemma CleanStep(s: seq<int>)
    requires s != []
    ensures Clean(s) <==> (s[0] == PAD || Value(s[0]) >= 0) && Clean(s[1..])
  {
  }

  lemma TakePos(d: Decoder, c: int)
    requires d.pos < 4
    ensures match Accept(d, c)
      case Going(d') => d'.pos == (d.pos + 1) % 4 && (c == PAD || Value(c) >= 0)
                        && (if c == PAD && d.end == 0 then d.pos >= 2 && d'.end != 0 else d'.end == d.end)
      case Bad(_) => !(c == PAD || Value(c) >= 0) || (c == PAD && d.end == 0 && d.pos < 2)
  {
  }

  /** Exactly what is accepted: whole groups of alphabet characters and padding in which the first
      padding character is the third or fourth of its group. Nothing is asked of what follows it. */
  lemma AcceptsExactly(s: seq<int>)
    ensures Decoded(s).Bytes? <==> |s| % 4 == 0 && Clean(s) && PadsLate(s, 0)
  {
    AcceptsFrom(START, s);
  }

  /** The decoder is laxer than the encoder is strict: a symbol after the padding passes. */
  lemma AcceptsSymbolAfterPadding()
    ensures Decoded([65, 65, PAD, 65]) == Bytes([0])
  {
    var d0 := START;
    assert Symbol(0) == 65;
    assert [65, 65, PAD, 65] == [Symbol(0)] + ([Symbol(0)] + ([PAD] + ([Symbol(0)] + [])));
    AcceptSymbol(d0, 0, [Symbol(0)] + ([PAD] + ([Symbol(0)] + [])));
    AcceptSymbol(Take(d0, 0), 0, [PAD] + ([Symbol(0)] + []));
    var d2 := Take(Take(d0, 0), 0);
    AcceptPad(d2, [Symbol(0)] + []);
    AcceptSymbol(Take(d2.(end := 1), 0), 0, []);
  }

  // ---------- The alphabet and the published examples ----------

  function Upper(): (s: string)
    ensures |s| == 26
  {
    "ABCDEFGHIJKLMNOPQRSTUVWXYZ"
  }

  function Lower(): (s: string)
    ensures |s| == 26
  {
    "abcdefghijklmnopqrstuvwxyz"
  }

  function DigitsPlusSlash(): (s: string)
    ensures |s| == 12
  {
    "0123456789+/"
  }

  function Alphabet(): (s: string)
    ensures |s| == 64
  {
    Upper() + Lower() + DigitsPlusSlash()
  }

  lemma UpperCase(k: nat)
    requires k < 26
    ensures Symbol(k) == Upper()[k] as int
  {
    match k
    case 0 => case 1 => case 2 => case 3 => case 4 => case 5 => case 6 => case 7 =>
    case 8 => case 9 => case 10 => case 11 => case 12 => case 13 => case 14 => case 15 =>
    case 16 => case 17 => case 18 => case 19 => case 20 => case 21 => case 22 => case 23 =>
    case 24 => case _ =>
  }

  lemma LowerCase(k: nat)
    requires k < 26
    ensures Symbol(26 + k) == Lower()[k] as int
  {
    match k
    case 0 => case 1 => case 2 => case 3 => case 4 => case 5 => case 6 => case 7 =>
    case 8 => case 9 => case 10 => case 11 => case 12 => case 13 => case 14 => case 15 =>
    case 16 => case 17 => case 18 => case 19 => case 20 => case 21 => case 22 => case 23 =>
    case 24 => case _ =>
  }

  lemma DigitsAndSigns(k: nat)
    requires k < 12
    ensures Symbol(52 + k) == DigitsPlusSlash()[k] as int
  {
    match k
    case 0 => case 1 => case 2 => case 3 => case 4 => case 5 => case 6 => case 7 =>
    case 8 => case 9 => case 10 => case _ =>
  }

  /** The symbol of v is the v-th character of the alphabet. */
  lemma SymbolInAlphabet(v: nat)
    requires v < 64
    ensures Symbol(v) == Alphabet()[v] as int && Value(Alphabet()[v] as int) == v
  {
    SymbolValue(v);
    hide Symbol, Value, Upper, Lower, DigitsPlusSlash;
    if v < 26 {
      UpperCase(v);
    } else if v < 52 {
      LowerCase(v - 26);
    } else {
      DigitsAndSigns(v - 52);
    }
  }

  /** Nothing else is in the lookup table. */
  lemma OnlyTheAlphabet(c: int)
    ensures Value(c) != -1 ==> Symbol(Value(c)) == c
  {
  }

  function Codes(s: string): seq<int> { seq(|s|, i requires 0 <= i < |s| => s[i] as int) }

  /** The test vectors of section 10 of RFC 4648. */
  lemma PublishedVectors()
    ensures IsBytes(Codes("foobar")) && Encoded(Codes("foobar")) == Codes("Zm9vYmFy")
    ensures IsBytes(Codes("fooba")) && Encoded(Codes("fooba")) == Codes("Zm9vYmE=")
    ensures IsBytes(Codes("foob")) && Encoded(Codes("foob")) == Codes("Zm9vYg==")
    ensures IsBytes(Codes("foo")) && Encoded(Codes("foo")) == Codes("Zm9v")
  {
    hide Encoded;
    Foo();
    FooThen("bar");
    FooThen("ba");
    FooThen("b");
    Three();
    Two();
    One();
    assert "foo" + "bar" == "foobar" && "foo" + "ba" == "fooba" && "foo" + "b" == "foob" && "foo" + "" == "foo";
    assert Codes("Zm9v") + Codes("YmFy") == Codes("Zm9vYmFy");
    assert Codes("Zm9v") + Codes("YmE=") == Codes("Zm9vYmE=");
    assert Codes("Zm9v") + Codes("Yg==") == Codes("Zm9vYg==");
  }

  lemma Foo()
    ensures IsBytes(Codes("foo")) && Encoded(Codes("foo")) == Codes("Zm9v")
  {
    hide Encoded;
    FooThen("");
    Nothing();
    assert "foo" + "" == "foo" && Codes("Zm9v") + [] == Codes("Zm9v");
  }

  lemma Nothing()
    ensures Codes("") == [] && Encoded([]) == []
  {
  }

  lemma Three()
    ensures IsBytes(Codes("bar")) && Encoded(Codes("bar")) == Codes("YmFy")
  {
    assert Codes("bar")[3..] == [] && Encoded([]) == [];
  }

  lemma Two()
    ensures IsBytes(Codes("ba")) && Encoded(Codes("ba")) == Codes("YmE=")
  {
  }

  lemma One()
    ensures IsBytes(Codes("b")) && Encoded(Codes("b")) == Codes("Yg==")
  {
  }

  lemma FooThen(s: string)
    requires IsBytes(Codes(s))
    ensures IsBytes(Codes("foo" + s)) && Encoded(Codes("foo" + s)) == Codes("Zm9v") + Encoded(Codes(s))
  {
    hide Digits, Joined;
    var all := Codes("foo" + s);
    assert all[0] == 102 && all[1] == 111 && all[2] == 111;
    assert all[3..] == Codes(s);
    FooDigits();
  }

  lemma FooDigits()
    ensures Digits(Joined(102, 111, 111)) == Codes("Zm9v")
  {
  }
}
