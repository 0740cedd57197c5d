// The bodies of the loops of stl_md5_body and stl_sha1_body, step by step as module/stl/src/stl_md5.c and
// stl_sha1.c list them, proved to be the compression functions.
module HashBodies {
  import opened Compressions

  // ---------- MD5 ----------

  /** Step i reads word n, adds the constant t and rotates by s. */
  ghost predicate Reads(i: nat, n: nat, t: Word, s: nat)
    requires i < 64
  {
    Md5Index(i) == n && Md5Constant(i) == t && Md5Shift(i) == s
  }

  lemma Md5Rows1()
    ensures Reads(0, 0, 0xd76aa478, 7) && Reads(1, 1, 0xe8c7b756, 12)
    ensures Reads(2, 2, 0x242070db, 17) && Reads(3, 3, 0xc1bdceee, 22)
    ensures Reads(4, 4, 0xf57c0faf, 7) && Reads(5, 5, 0x4787c62a, 12)
    ensures Reads(6, 6, 0xa8304613, 17) && Reads(7, 7, 0xfd469501, 22)
  {
  }

  lemma Md5Rows2()
    ensures Reads(8, 8, 0x698098d8, 7) && Reads(9, 9, 0x8b44f7af, 12)
    ensures Reads(10, 10, 0xffff5bb1, 17) && Reads(11, 11, 0x895cd7be, 22)
    ensures Reads(12, 12, 0x6b901122, 7) && Reads(13, 13, 0xfd987193, 12)
    ensures Reads(14, 14, 0xa679438e, 17) && Reads(15, 15, 0x49b40821, 22)
  {
  }

  lemma Md5Rows3()
    ensures Reads(16, 1, 0xf61e2562, 5) && Reads(17, 6, 0xc040b340, 9)
    ensures Reads(18, 11, 0x265e5a51, 14) && Reads(19, 0, 0xe9b6c7aa, 20)
    ensures Reads(20, 5, 0xd62f105d, 5) && Reads(21, 10, 0x02441453, 9)
    ensures Reads(22, 15, 0xd8a1e681, 14) && Reads(23, 4, 0xe7d3fbc8, 20)
  {
  }

  lemma Md5Rows4()
    ensures Reads(24, 9, 0x21e1cde6, 5) && Reads(25, 14, 0xc33707d6, 9)
    ensures Reads(26, 3, 0xf4d50d87, 14) && Reads(27, 8, 0x455a14ed, 20)
    ensures Reads(28, 13, 0xa9e3e905, 5) && Reads(29, 2, 0xfcefa3f8, 9)
    ensures Reads(30, 7, 0x676f02d9, 14) && Reads(31, 12, 0x8d2a4c8a, 20)
  {
  }

  lemma Md5Rows5()
    ensures Reads(32, 5, 0xfffa3942, 4) && Reads(33, 8, 0x8771f681, 11)
    ensures Reads(34, 11, 0x6d9d6122, 16) && Reads(35, 14, 0xfde5380c, 23)
    ensures Reads(36, 1, 0xa4beea44, 4) && Reads(37, 4, 0x4bdecfa9, 11)
    ensures Reads(38, 7, 0xf6bb4b60, 16) && Reads(39, 10, 0xbebfbc70, 23)
  {
  }

  lemma Md5Rows6()
    ensures Reads(40, 13, 0x289b7ec6, 4) && Reads(41, 0, 0xeaa127fa, 11)
    ensures Reads(42, 3, 0xd4ef3085, 16) && Reads(43, 6, 0x04881d05, 23)
    ensures Reads(44, 9, 0xd9d4d039, 4) && Reads(45, 12, 0xe6db99e5, 11)
    ensures Reads(46, 15, 0x1fa27cf8, 16) && Reads(47, 2, 0xc4ac5665, 23)
  {
  }

  lemma Md5Rows7()
    ensures Reads(48, 0, 0xf4292244, 6) && Reads(49, 7, 0x432aff97, 10)
    ensures Reads(50, 14, 0xab9423a7, 15) && Reads(51, 5, 0xfc93a039, 21)
    ensures Reads(52, 12, 0x655b59c3, 6) && Reads(53, 3, 0x8f0ccc92, 10)
    ensures Reads(54, 10, 0xffeff47d, 15) && Reads(55, 1, 0x85845dd1, 21)
  {
  }

  lemma Md5Rows8()
    ensures Reads(56, 8, 0x6fa87e4f, 6) && Reads(57, 15, 0xfe2ce6e0, 10)
    ensures Reads(58, 6, 0xa3014314, 15) && Reads(59, 13, 0x4e0811a1, 21)
    ensures Reads(60, 4, 0xf7537e82, 6) && Reads(61, 11, 0xbd3af235, 10)
    ensures Reads(62, 2, 0x2ad7d2bb, 15) && Reads(63, 9, 0xeb86d391, 21)
  {
  }

  lemma Md5Mixes1()
    ensures forall i, x, y, z {:trigger Md5Mix(i, x, y, z)} :: 0 <= i < 16 ==> Md5Mix(i, x, y, z) == F(x, y, z)
  {
  }

  lemma Md5Mixes2()
    ensures forall i, x, y, z {:trigger Md5Mix(i, x, y, z)} :: 16 <= i < 32 ==> Md5Mix(i, x, y, z) == G(x, y, z)
  {
  }

  lemma Md5Mixes3()
    ensures forall i, x, y, z {:trigger Md5Mix(i, x, y, z)} :: 32 <= i < 48 ==> Md5Mix(i, x, y, z) == H(x, y, z)
  {
  }

  lemma Md5Mixes4()
    ensures forall i, x, y, z {:trigger Md5Mix(i, x, y, z)} :: 48 <= i < 64 ==> Md5Mix(i, x, y, z) == I(x, y, z)
  {
  }

  method Md5Round1(p: seq<int>, a0: Word, b0: Word, c0: Word, d0: Word)
      returns (a: Word, b: Word, c: Word, d: Word)
    requires |p| == 64
    ensures Md5State(a, b, c, d) == Md5Steps(Md5State(a0, b0, c0, d0), p, 0, 16)
  {
    hide F, G, H, I, Stepped, LittleWord, Md5Steps, Md5Constant, Md5Index, Md5Shift, Md5Mix;
    Md5Mixes1();
    Md5Rows1();
    Md5Rows2();
    ghost var s := Md5State(a0, b0, c0, d0);
    Md5None(s, p, 0);
    a, b, c, d := a0, b0, c0, d0;
    Md5Four(s, p, 0, 0);
    a := Stepped(a, F(b, c, d), b, LittleWord(p, 0), 0xd76aa478, 7);
    d := Stepped(d, F(a, b, c), a, LittleWord(p, 1), 0xe8c7b756, 12);
    c := Stepped(c, F(d, a, b), d, LittleWord(p, 2), 0x242070db, 17);
    b := Stepped(b, F(c, d, a), c, LittleWord(p, 3), 0xc1bdceee, 22);
    assert Md5State(a, b, c, d) == Md5Steps(s, p, 0, 4);
    Md5Four(s, p, 0, 4);
    a := Stepped(a, F(b, c, d), b, LittleWord(p, 4), 0xf57c0faf, 7);
    d := Stepped(d, F(a, b, c), a, LittleWord(p, 5), 0x4787c62a, 12);
    c := Stepped(c, F(d, a, b), d, LittleWord(p, 6), 0xa8304613, 17);
    b := Stepped(b, F(c, d, a), c, LittleWord(p, 7), 0xfd469501, 22);
    assert Md5State(a, b, c, d) == Md5Steps(s, p, 0, 8);
    Md5Four(s, p, 0, 8);
    a := Stepped(a, F(b, c, d), b, LittleWord(p, 8), 0x698098d8, 7);
    d := Stepped(d, F(a, b, c), a, LittleWord(p, 9), 0x8b44f7af, 12);
    c := Stepped(c, F(d, a, b), d, LittleWord(p, 10), 0xffff5bb1, 17);
    b := Stepped(b, F(c, d, a), c, LittleWord(p, 11), 0x895cd7be, 22);
    assert Md5State(a, b, c, d) == Md5Steps(s, p, 0, 12);
    Md5Four(s, p, 0, 12);
    a := Stepped(a, F(b, c, d), b, LittleWord(p, 12), 0x6b901122, 7);
    d := Stepped(d, F(a, b, c), a, LittleWord(p, 13), 0xfd987193, 12);
    c := Stepped(c, F(d, a, b), d, LittleWord(p, 14), 0xa679438e, 17);
    b := Stepped(b, F(c, d, a), c, LittleWord(p, 15), 0x49b40821, 22);
  }

  method Md5Round2(p: seq<int>, a0: Word, b0: Word, c0: Word, d0: Word)
      returns (a: Word, b: Word, c: Word, d: Word)
    requires |p| == 64
    ensures Md5State(a, b, c, d) == Md5Steps(Md5State(a0, b0, c0, d0), p, 16, 16)
  {
    hide F, G, H, I, Stepped, LittleWord, Md5Steps, Md5Constant, Md5Index, Md5Shift, Md5Mix;
    Md5Mixes2();
    Md5Rows3();
    Md5Rows4();
    ghost var s := Md5State(a0, b0, c0, d0);
    Md5None(s, p, 16);
    a, b, c, d := a0, b0, c0, d0;
    Md5Four(s, p, 16, 0);
    a := Stepped(a, G(b, c, d), b, LittleWord(p, 1), 0xf61e2562, 5);
    d := Stepped(d, G(a, b, c), a, LittleWord(p, 6), 0xc040b340, 9);
    c := Stepped(c, G(d, a, b), d, LittleWord(p, 11), 0x265e5a51, 14);
    b := Stepped(b, G(c, d, a), c, LittleWord(p, 0), 0xe9b6c7aa, 20);
    assert Md5State(a, b, c, d) == Md5Steps(s, p, 16, 4);
    Md5Four(s, p, 16, 4);
    a := Stepped(a, G(b, c, d), b, LittleWord(p, 5), 0xd62f105d, 5);
    d := Stepped(d, G(a, b, c), a, LittleWord(p, 10), 0x02441453, 9);
    c := Stepped(c, G(d, a, b), d, LittleWord(p, 15), 0xd8a1e681, 14);
    b := Stepped(b, G(c, d, a), c, LittleWord(p, 4), 0xe7d3fbc8, 20);
    assert Md5State(a, b, c, d) == Md5Steps(s, p, 16, 8);
    Md5Four(s, p, 16, 8);
    a := Stepped(a, G(b, c, d), b, LittleWord(p, 9), 0x21e1cde6, 5);
    d := Stepped(d, G(a, b, c), a, LittleWord(p, 14), 0xc33707d6, 9);
    c := Stepped(c, G(d, a, b), d, LittleWord(p, 3), 0xf4d50d87, 14);
    b := Stepped(b, G(c, d, a), c, LittleWord(p, 8), 0x455a14ed, 20);
    assert Md5State(a, b, c, d) == Md5Steps(s, p, 16, 12);
    Md5Four(s, p, 16, 12);
    a := Stepped(a, G(b, c, d), b, LittleWord(p, 13), 0xa9e3e905, 5);
    d := Stepped(d, G(a, b, c), a, LittleWord(p, 2), 0xfcefa3f8, 9);
    c := Stepped(c, G(d, a, b), d, LittleWord(p, 7), 0x676f02d9, 14);
    b := Stepped(b, G(c, d, a), c, LittleWord(p, 12), 0x8d2a4c8a, 20);
  }

  method Md5Round3(p: seq<int>, a0: Word, b0: Word, c0: Word, d0: Word)
      returns (a: Word, b: Word, c: Word, d: Word)
    requires |p| == 64
    ensures Md5State(a, b, c, d) == Md5Steps(Md5State(a0, b0, c0, d0), p, 32, 16)
  {
    hide F, G, H, I, Stepped, LittleWord, Md5Steps, Md5Constant, Md5Index, Md5Shift, Md5Mix;
    Md5Mixes3();
    Md5Rows5();
    Md5Rows6();
    ghost var s := Md5State(a0, b0, c0, d0);
    Md5None(s, p, 32);
    a, b, c, d := a0, b0, c0, d0;
    Md5Four(s, p, 32, 0);
    a := Stepped(a, H(b, c, d), b, LittleWord(p, 5), 0xfffa3942, 4);
    d := Stepped(d, H(a, b, c), a, LittleWord(p, 8), 0x8771f681, 11);
    c := Stepped(c, H(d, a, b), d, LittleWord(p, 11), 0x6d9d6122, 16);
    b := Stepped(b, H(c, d, a), c, LittleWord(p, 14), 0xfde5380c, 23);
    assert Md5State(a, b, c, d) == Md5Steps(s, p, 32, 4);
    Md5Four(s, p, 32, 4);
    a := Stepped(a, H(b, c, d), b, LittleWord(p, 1), 0xa4beea44, 4);
    d := Stepped(d, H(a, b, c), a, LittleWord(p, 4), 0x4bdecfa9, 11);
    c := Stepped(c, H(d, a, b), d, LittleWord(p, 7), 0xf6bb4b60, 16);
    b := Stepped(b, H(c, d, a), c, LittleWord(p, 10), 0xbebfbc70, 23);
    assert Md5State(a, b, c, d) == Md5Steps(s, p, 32, 8);
    Md5Four(s, p, 32, 8);
    a := Stepped(a, H(b, c, d), b, LittleWord(p, 13), 0x289b7ec6, 4);
    d := Stepped(d, H(a, b, c), a, LittleWord(p, 0), 0xeaa127fa, 11);
    c := Stepped(c, H(d, a, b), d, LittleWord(p, 3), 0xd4ef3085, 16);
    b := Stepped(b, H(c, d, a), c, LittleWord(p, 6), 0x04881d05, 23);
    assert Md5State(a, b, c, d) == Md5Steps(s, p, 32, 12);
    Md5Four(s, p, 32, 12);
    a := Stepped(a, H(b, c, d), b, LittleWord(p, 9), 0xd9d4d039, 4);
    d := Stepped(d, H(a, b, c), a, LittleWord(p, 12), 0xe6db99e5, 11);
    c := Stepped(c, H(d, a, b), d, LittleWord(p, 15), 0x1fa27cf8, 16);
    b := Stepped(b, H(c, d, a), c, LittleWord(p, 2), 0xc4ac5665, 23);
  }

  method Md5Round4(p: seq<int>, a0: Word, b0: Word, c0: Word, d0: Word)
      returns (a: Word, b: Word, c: Word, d: Word)
    requires |p| == 64
    ensures Md5State(a, b, c, d) == Md5Steps(Md5State(a0, b0, c0, d0), p, 48, 16)
  {
    hide F, G, H, I, Stepped, LittleWord, Md5Steps, Md5Constant, Md5Index, Md5Shift, Md5Mix;
    Md5Mixes4();
    Md5Rows7();
    Md5Rows8();
    ghost var s := Md5State(a0, b0, c0, d0);
    Md5None(s, p, 48);
    a, b, c, d := a0, b0, c0, d0;
    Md5Four(s, p, 48, 0);
    a := Stepped(a, I(b, c, d), b, LittleWord(p, 0), 0xf4292244, 6);
    d := Stepped(d, I(a, b, c), a, LittleWord(p, 7), 0x432aff97, 10);
    c := Stepped(c, I(d, a, b), d, LittleWord(p, 14), 0xab9423a7, 15);
    b := Stepped(b, I(c, d, a), c, LittleWord(p, 5), 0xfc93a039, 21);
    assert Md5State(a, b, c, d) == Md5Steps(s, p, 48, 4);
    Md5Four(s, p, 48, 4);
    a := Stepped(a, I(b, c, d), b, LittleWord(p, 12), 0x655b59c3, 6);
    d := Stepped(d, I(a, b, c), a, LittleWord(p, 3), 0x8f0ccc92, 10);
    c := Stepped(c, I(d, a, b), d, LittleWord(p, 10), 0xffeff47d, 15);
    b := Stepped(b, I(c, d, a), c, LittleWord(p, 1), 0x85845dd1, 21);
    assert Md5State(a, b, c, d) == Md5Steps(s, p, 48, 8);
    Md5Four(s, p, 48, 8);
    a := Stepped(a, I(b, c, d), b, LittleWord(p, 8), 0x6fa87e4f, 6);
    d := Stepped(d, I(a, b, c), a, LittleWord(p, 15), 0xfe2ce6e0, 10);
    c := Stepped(c, I(d, a, b), d, LittleWord(p, 6), 0xa3014314, 15);
    b := Stepped(b, I(c, d, a), c, LittleWord(p, 13), 0x4e0811a1, 21);
    assert Md5State(a, b, c, d) == Md5Steps(s, p, 48, 12);
    Md5Four(s, p, 48, 12);
    a := Stepped(a, I(b, c, d), b, LittleWord(p, 4), 0xf7537e82, 6);
    d := Stepped(d, I(a, b, c), a, LittleWord(p, 11), 0xbd3af235, 10);
    c := Stepped(c, I(d, a, b), d, LittleWord(p, 2), 0x2ad7d2bb, 15);
    b := Stepped(b, I(c, d, a), c, LittleWord(p, 9), 0xeb86d391, 21);
  }

  lemma Md5None(s: Md5State, p: seq<int>, from: nat)
    requires |p| == 64 && from <= 64
    ensures Md5Steps(s, p, from, 0) == s
  {
  }

  /** One turn of the loop, on the four words of the context. */
  method Md5Block(s: Md5State, p: seq<int>) returns (r: Md5State)
    requires |p| == 64
    ensures r == Md5Compress(s, p)
  {
    hide Md5Steps, Md5Plus;
    var a, b, c, d := Md5Round1(p, s.a, s.b, s.c, s.d);
    a, b, c, d := Md5Round2(p, a, b, c, d);
    Md5Join(s, p, 0, 16, 16);
    a, b, c, d := Md5Round3(p, a, b, c, d);
    Md5Join(s, p, 0, 32, 16);
    a, b, c, d := Md5Round4(p, a, b, c, d);
    Md5Join(s, p, 0, 48, 16);
    r := Md5Plus(Md5State(a, b, c, d), s);
  }

  // ---------- SHA-1 ----------

  ghost predicate Loaded(words: seq<Word>, p: seq<int>)
    requires |p| == 64
  {
    |words| == 80 && forall t :: 0 <= t < 80 ==> words[t] == Schedule(p, t)
  }

  lemma Sha1Rows1()
    ensures forall t, b, c, d {:trigger Sha1Mix(t, b, c, d)} :: 0 <= t < 20 ==> Sha1Mix(t, b, c, d) == F1(b, c, d)
    ensures forall t {:trigger Sha1Constant(t)} :: 0 <= t < 20 ==> Sha1Constant(t) == 0x5a827999
  {
  }

  lemma Sha1Rows2()
    ensures forall t, b, c, d {:trigger Sha1Mix(t, b, c, d)} :: 20 <= t < 40 ==> Sha1Mix(t, b, c, d) == F2(b, c, d)
    ensures forall t {:trigger Sha1Constant(t)} :: 20 <= t < 40 ==> Sha1Constant(t) == 0x6ed9eba1
  {
  }

  lemma Sha1Rows3()
    ensures forall t, b, c, d {:trigger Sha1Mix(t, b, c, d)} :: 40 <= t < 60 ==> Sha1Mix(t, b, c, d) == F3(b, c, d)
    ensures forall t {:trigger Sha1Constant(t)} :: 40 <= t < 60 ==> Sha1Constant(t) == 0x8f1bbcdc
  {
  }

  lemma Sha1Rows4()
    ensures forall t, b, c, d {:trigger Sha1Mix(t, b, c, d)} :: 60 <= t < 80 ==> Sha1Mix(t, b, c, d) == F2(b, c, d)
    ensures forall t {:trigger Sha1Constant(t)} :: 60 <= t < 80 ==> Sha1Constant(t) == 0xca62c1d6
  {
  }

  method Sha1Round1Front(p: seq<int>, words: seq<Word>, a0: Word, b0: Word, c0: Word, d0: Word, e0: Word)
      returns (a: Word, b: Word, c: Word, d: Word, e: Word)
    requires |p| == 64 && Loaded(words, p)
    ensures Sha1State(a, b, c, d, e) == Sha1Steps(Sha1State(a0, b0, c0, d0, e0), p, 0, 10)
  {
    hide F1, F2, F3, Turned, Rotate30, Sha1Steps, Schedule, Sha1Mix, Sha1Constant;
    Sha1Rows1();
    ghost var s := Sha1State(a0, b0, c0, d0, e0);
    Sha1None(s, p, 0);
    a, b, c, d, e := a0, b0, c0, d0, e0;
    Sha1Five(s, p, 0, 0);
    a, b, c, d, e := Turned(a, F1(b, c, d), e, words[0], 0x5a827999), a, Rotate30(b), c, d;
    a, b, c, d, e := Turned(a, F1(b, c, d), e, words[1], 0x5a827999), a, Rotate30(b), c, d;
    a, b, c, d, e := Turned(a, F1(b, c, d), e, words[2], 0x5a827999), a, Rotate30(b), c, d;
    a, b, c, d, e := Turned(a, F1(b, c, d), e, words[3], 0x5a827999), a, Rotate30(b), c, d;
    a, b, c, d, e := Turned(a, F1(b, c, d), e, words[4], 0x5a827999), a, Rotate30(b), c, d;
    assert Sha1State(a, b, c, d, e) == Sha1Steps(s, p, 0, 5);
    Sha1Five(s, p, 0, 5);
    a, b, c, d, e := Turned(a, F1(b, c, d), e, words[5], 0x5a827999), a, Rotate30(b), c, d;
    a, b, c, d, e := Turned(a, F1(b, c, d), e, words[6], 0x5a827999), a, Rotate30(b), c, d;
    a, b, c, d, e := Turned(a, F1(b, c, d), e, words[7], 0x5a827999), a, Rotate30(b), c, d;
    a, b, c, d, e := Turned(a, F1(b, c, d), e, words[8], 0x5a827999), a, Rotate30(b), c, d;
    a, b, c, d, e := Turned(a, F1(b, c, d), e, words[9], 0x5a827999), a, Rotate30(b), c, d;
  }

  method Sha1Round1Back(p: seq<int>, words: seq<Word>, a0: Word, b0: Word, c0: Word, d0: Word, e0: Word)
      returns (a: Word, b: Word, c: Word, d: Word, e: Word)
    requires |p| == 64 && Loaded(words, p)
    ensures Sha1State(a, b, c, d, e) == Sha1Steps(Sha1State(a0, b0, c0, d0, e0), p, 10, 10)
  {
    hide F1, F2, F3, Turned, Rotate30, Sha1Steps, Schedule, Sha1Mix, Sha1Constant;
    Sha1Rows1();
    ghost var s := Sha1State(a0, b0, c0, d0, e0);
    Sha1None(s, p, 10);
    a, b, c, d, e := a0, b0, c0, d0, e0;
    Sha1Five(s, p, 10, 0);
    a, b, c, d, e := Turned(a, F1(b, c, d), e, words[10], 0x5a827999), a, Rotate30(b), c, d;
    a, b, c, d, e := Turned(a, F1(b, c, d), e, words[11], 0x5a827999), a, Rotate30(b), c, d;
    a, b, c, d, e := Turned(a, F1(b, c, d), e, words[12], 0x5a827999), a, Rotate30(b), c, d;
    a, b, c, d, e := Turned(a, F1(b, c, d), e, words[13], 0x5a827999), a, Rotate30(b), c, d;
    a, b, c, d, e := Turned(a, F1(b, c, d), e, words[14], 0x5a827999), a, Rotate30(b), c, d;
    assert Sha1State(a, b, c, d, e) == Sha1Steps(s, p, 10, 5);
    Sha1Five(s, p, 10, 5);
    a, b, c, d, e := Turned(a, F1(b, c, d), e, words[15], 0x5a827999), a, Rotate30(b), c, d;
    a, b, c, d, e := Turned(a, F1(b, c, d), e, words[16], 0x5a827999), a, Rotate30(b), c, d;
    a, b, c, d, e := Turned(a, F1(b, c, d), e, words[17], 0x5a827999), a, Rotate30(b), c, d;
    a, b, c, d, e := Turned(a, F1(b, c, d), e, words[18], 0x5a827999), a, Rotate30(b), c, d;
    a, b, c, d, e := Turned(a, F1(b, c, d), e, words[19], 0x5a827999), a, Rotate30(b), c, d;
  }

  method Sha1Round2Front(p: seq<int>, words: seq<Word>, a0: Word, b0: Word, c0: Word, d0: Word, e0: Word)
      returns (a: Word, b: Word, c: Word, d: Word, e: Word)
    requires |p| == 64 && Loaded(words, p)
    ensures Sha1State(a, b, c, d, e) == Sha1Steps(Sha1State(a0, b0, c0, d0, e0), p, 20, 10)
  {
    hide F1, F2, F3, Turned, Rotate30, Sha1Steps, Schedule, Sha1Mix, Sha1Constant;
    Sha1Rows2();
    ghost var s := Sha1State(a0, b0, c0, d0, e0);
    Sha1None(s, p, 20);
    a, b, c, d, e := a0, b0, c0, d0, e0;
    Sha1Five(s, p, 20, 0);
    a, b, c, d, e := Turned(a, F2(b, c, d), e, words[20], 0x6ed9eba1), a, Rotate30(b), c, d;
    a, b, c, d, e := Turned(a, F2(b, c, d), e, words[21], 0x6ed9eba1), a, Rotate30(b), c, d;
    a, b, c, d, e := Turned(a, F2(b, c, d), e, words[22], 0x6ed9eba1), a, Rotate30(b), c, d;
    a, b, c, d, e := Turned(a, F2(b, c, d), e, words[23], 0x6ed9eba1), a, Rotate30(b), c, d;
    a, b, c, d, e := Turned(a, F2(b, c, d), e, words[24], 0x6ed9eba1), a, Rotate30(b), c, d;
    assert Sha1State(a, b, c, d, e) == Sha1Steps(s, p, 20, 5);
    Sha1Five(s, p, 20, 5);
    a, b, c, d, e := Turned(a, F2(b, c, d), e, words[25], 0x6ed9eba1), a, Rotate30(b), c, d;
    a, b, c, d, e := Turned(a, F2(b, c, d), e, words[26], 0x6ed9eba1), a, Rotate30(b), c, d;
    a, b, c, d, e := Turned(a, F2(b, c, d), e, words[27], 0x6ed9eba1), a, Rotate30(b), c, d;
    a, b, c, d, e := Turned(a, F2(b, c, d), e, words[28], 0x6ed9eba1), a, Rotate30(b), c, d;
    a, b, c, d, e := Turned(a, F2(b, c, d), e, words[29], 0x6ed9eba1), a, Rotate30(b), c, d;
  }

  method Sha1Round2Back(p: seq<int>, words: seq<Word>, a0: Word, b0: Word, c0: Word, d0: Word, e0: Word)
      returns (a: Word, b: Word, c: Word, d: Word, e: Word)
    requires |p| == 64 && Loaded(words, p)
    ensures Sha1State(a, b, c, d, e) == Sha1Steps(Sha1State(a0, b0, c0, d0, e0), p, 30, 10)
  {
    hide F1, F2, F3, Turned, Rotate30, Sha1Steps, Schedule, Sha1Mix, Sha1Constant;
    Sha1Rows2();
    ghost var s := Sha1State(a0, b0, c0, d0, e0);
    Sha1None(s, p, 30);
    a, b, c, d, e := a0, b0, c0, d0, e0;
    Sha1Five(s, p, 30, 0);
    a, b, c, d, e := Turned(a, F2(b, c, d), e, words[30], 0x6ed9eba1), a, Rotate30(b), c, d;
    a, b, c, d, e := Turned(a, F2(b, c, d), e, words[31], 0x6ed9eba1), a, Rotate30(b), c, d;
    a, b, c, d, e := Turned(a, F2(b, c, d), e, words[32], 0x6ed9eba1), a, Rotate30(b), c, d;
    a, b, c, d, e := Turned(a, F2(b, c, d), e, words[33], 0x6ed9eba1), a, Rotate30(b), c, d;
    a, b, c, d, e := Turned(a, F2(b, c, d), e, words[34], 0x6ed9eba1), a, Rotate30(b), c, d;
    assert Sha1State(a, b, c, d, e) == Sha1Steps(s, p, 30, 5);
    Sha1Five(s, p, 30, 5);
    a, b, c, d, e := Turned(a, F2(b, c, d), e, words[35], 0x6ed9eba1), a, Rotate30(b), c, d;
    a, b, c, d, e := Turned(a, F2(b, c, d), e, words[36], 0x6ed9eba1), a, Rotate30(b), c, d;
    a, b, c, d, e := Turned(a, F2(b, c, d), e, words[37], 0x6ed9eba1), a, Rotate30(b), c, d;
    a, b, c, d, e := Turned(a, F2(b, c, d), e, words[38], 0x6ed9eba1), a, Rotate30(b), c, d;
    a, b, c, d, e := Turned(a, F2(b, c, d), e, words[39], 0x6ed9eba1), a, Rotate30(b), c, d;
  }

  method Sha1Round3Front(p: seq<int>, words: seq<Word>, a0: Word, b0: Word, c0: Word, d0: Word, e0: Word)
      returns (a: Word, b: Word, c: Word, d: Word, e: Word)
    requires |p| == 64 && Loaded(words, p)
    ensures Sha1State(a, b, c, d, e) == Sha1Steps(Sha1State(a0, b0, c0, d0, e0), p, 40, 10)
  {
    hide F1, F2, F3, Turned, Rotate30, Sha1Steps, Schedule, Sha1Mix, Sha1Constant;
    Sha1Rows3();
    ghost var s := Sha1State(a0, b0, c0, d0, e0);
    Sha1None(s, p, 40);
    a, b, c, d, e := a0, b0, c0, d0, e0;
    Sha1Five(s, p, 40, 0);
    a, b, c, d, e := Turned(a, F3(b, c, d), e, words[40], 0x8f1bbcdc), a, Rotate30(b), c, d;
    a, b, c, d, e := Turned(a, F3(b, c, d), e, words[41], 0x8f1bbcdc), a, Rotate30(b), c, d;
    a, b, c, d, e := Turned(a, F3(b, c, d), e, words[42], 0x8f1bbcdc), a, Rotate30(b), c, d;
    a, b, c, d, e := Turned(a, F3(b, c, d), e, words[43], 0x8f1bbcdc), a, Rotate30(b), c, d;
    a, b, c, d, e := Turned(a, F3(b, c, d), e, words[44], 0x8f1bbcdc), a, Rotate30(b), c, d;
    assert Sha1State(a, b, c, d, e) == Sha1Steps(s, p, 40, 5);
    Sha1Five(s, p, 40, 5);
    a, b, c, d, e := Turned(a, F3(b, c, d), e, words[45], 0x8f1bbcdc), a, Rotate30(b), c, d;
    a, b, c, d, e := Turned(a, F3(b, c, d), e, words[46], 0x8f1bbcdc), a, Rotate30(b), c, d;
    a, b, c, d, e := Turned(a, F3(b, c, d), e, words[47], 0x8f1bbcdc), a, Rotate30(b), c, d;
    a, b, c, d, e := Turned(a, F3(b, c, d), e, words[48], 0x8f1bbcdc), a, Rotate30(b), c, d;
    a, b, c, d, e := Turned(a, F3(b, c, d), e, words[49], 0x8f1bbcdc), a, Rotate30(b), c, d;
  }

  method Sha1Round3Back(p: seq<int>, words: seq<Word>, a0: Word, b0: Word, c0: Word, d0: Word, e0: Word)
      returns (a: Word, b: Word, c: Word, d: Word, e: Word)
    requires |p| == 64 && Loaded(words, p)
    ensures Sha1State(a, b, c, d, e) == Sha1Steps(Sha1State(a0, b0, c0, d0, e0), p, 50, 10)
  {
    hide F1, F2, F3, Turned, Rotate30, Sha1Steps, Schedule, Sha1Mix, Sha1Constant;
    Sha1Rows3();
    ghost var s := Sha1State(a0, b0, c0, d0, e0);
    Sha1None(s, p, 50);
    a, b, c, d, e := a0, b0, c0, d0, e0;
    Sha1Five(s, p, 50, 0);
    a, b, c, d, e := Turned(a, F3(b, c, d), e, words[50], 0x8f1bbcdc), a, Rotate30(b), c, d;
    a, b, c, d, e := Turned(a, F3(b, c, d), e, words[51], 0x8f1bbcdc), a, Rotate30(b), c, d;
    a, b, c, d, e := Turned(a, F3(b, c, d), e, words[52], 0x8f1bbcdc), a, Rotate30(b), c, d;
    a, b, c, d, e := Turned(a, F3(b, c, d), e, words[53], 0x8f1bbcdc), a, Rotate30(b), c, d;
    a, b, c, d, e := Turned(a, F3(b, c, d), e, words[54], 0x8f1bbcdc), a, Rotate30(b), c, d;
    assert Sha1State(a, b, c, d, e) == Sha1Steps(s, p, 50, 5);
    Sha1Five(s, p, 50, 5);
    a, b, c, d, e := Turned(a, F3(b, c, d), e, words[55], 0x8f1bbcdc), a, Rotate30(b), c, d;
    a, b, c, d, e := Turned(a, F3(b, c, d), e, words[56], 0x8f1bbcdc), a, Rotate30(b), c, d;
    a, b, c, d, e := Turned(a, F3(b, c, d), e, words[57], 0x8f1bbcdc), a, Rotate30(b), c, d;
    a, b, c, d, e := Turned(a, F3(b, c, d), e, words[58], 0x8f1bbcdc), a, Rotate30(b), c, d;
    a, b, c, d, e := Turned(a, F3(b, c, d), e, words[59], 0x8f1bbcdc), a, Rotate30(b), c, d;
  }

  method Sha1Round4Front(p: seq<int>, words: seq<Word>, a0: Word, b0: Word, c0: Word, d0: Word, e0: Word)
      returns (a: Word, b: Word, c: Word, d: Word, e: Word)
    requires |p| == 64 && Loaded(words, p)
    ensures Sha1State(a, b, c, d, e) == Sha1Steps(Sha1State(a0, b0, c0, d0, e0), p, 60, 10)
  {
    hide F1, F2, F3, Turned, Rotate30, Sha1Steps, Schedule, Sha1Mix, Sha1Constant;
    Sha1Rows4();
    ghost var s := Sha1State(a0, b0, c0, d0, e0);
    Sha1None(s, p, 60);
    a, b, c, d, e := a0, b0, c0, d0, e0;
    Sha1Five(s, p, 60, 0);
    a, b, c, d, e := Turned(a, F2(b, c, d), e, words[60], 0xca62c1d6), a, Rotate30(b), c, d;
    a, b, c, d, e := Turned(a, F2(b, c, d), e, words[61], 0xca62c1d6), a, Rotate30(b), c, d;
    a, b, c, d, e := Turned(a, F2(b, c, d), e, words[62], 0xca62c1d6), a, Rotate30(b), c, d;
    a, b, c, d, e := Turned(a, F2(b, c, d), e, words[63], 0xca62c1d6), a, Rotate30(b), c, d;
    a, b, c, d, e := Turned(a, F2(b, c, d), e, words[64], 0xca62c1d6), a, Rotate30(b), c, d;
    assert Sha1State(a, b, c, d, e) == Sha1Steps(s, p, 60, 5);
    Sha1Five(s, p, 60, 5);
    a, b, c, d, e := Turned(a, F2(b, c, d), e, words[65], 0xca62c1d6), a, Rotate30(b), c, d;
    a, b, c, d, e := Turned(a, F2(b, c, d), e, words[66], 0xca62c1d6), a, Rotate30(b), c, d;
    a, b, c, d, e := Turned(a, F2(b, c, d), e, words[67], 0xca62c1d6), a, Rotate30(b), c, d;
    a, b, c, d, e := Turned(a, F2(b, c, d), e, words[68], 0xca62c1d6), a, Rotate30(b), c, d;
    a, b, c, d, e := Turned(a, F2(b, c, d), e, words[69], 0xca62c1d6), a, Rotate30(b), c, d;
  }

  method Sha1Round4Back(p: seq<int>, words: seq<Word>, a0: Word, b0: Word, c0: Word, d0: Word, e0: Word)
      returns (a: Word, b: Word, c: Word, d: Word, e: Word)
    requires |p| == 64 && Loaded(words, p)
    ensures Sha1State(a, b, c, d, e) == Sha1Steps(Sha1State(a0, b0, c0, d0, e0), p, 70, 10)
  {
    hide F1, F2, F3, Turned, Rotate30, Sha1Steps, Schedule, Sha1Mix, Sha1Constant;
    Sha1Rows4();
    ghost var s := Sha1State(a0, b0, c0, d0, e0);
    Sha1None(s, p, 70);
    a, b, c, d, e := a0, b0, c0, d0, e0;
    Sha1Five(s, p, 70, 0);
    a, b, c, d, e := Turned(a, F2(b, c, d), e, words[70], 0xca62c1d6), a, Rotate30(b), c, d;
    a, b, c, d, e := Turned(a, F2(b, c, d), e, words[71], 0xca62c1d6), a, Rotate30(b), c, d;
    a, b, c, d, e := Turned(a, F2(b, c, d), e, words[72], 0xca62c1d6), a, Rotate30(b), c, d;
    a, b, c, d, e := Turned(a, F2(b, c, d), e, words[73], 0xca62c1d6), a, Rotate30(b), c, d;
    a, b, c, d, e := Turned(a, F2(b, c, d), e, words[74], 0xca62c1d6), a, Rotate30(b), c, d;
    assert Sha1State(a, b, c, d, e) == Sha1Steps(s, p, 70, 5);
    Sha1Five(s, p, 70, 5);
    a, b, c, d, e := Turned(a, F2(b, c, d), e, words[75], 0xca62c1d6), a, Rotate30(b), c, d;
    a, b, c, d, e := Turned(a, F2(b, c, d), e, words[76], 0xca62c1d6), a, Rotate30(b), c, d;
    a, b, c, d, e := Turned(a, F2(b, c, d), e, words[77], 0xca62c1d6), a, Rotate30(b), c, d;
    a, b, c, d, e := Turned(a, F2(b, c, d), e, words[78], 0xca62c1d6), a, Rotate30(b), c, d;
    a, b, c, d, e := Turned(a, F2(b, c, d), e, words[79], 0xca62c1d6), a, Rotate30(b), c, d;
  }

  lemma Sha1None(s: Sha1State, p: seq<int>, from: nat)
    requires |p| == 64
    ensures Sha1Steps(s, p, from, 0) == s
  {
  }

  method Sha1Block(s: Sha1State, p: seq<int>) returns (r: Sha1State)
    requires |p| == 64
    ensures r == Sha1Compress(s, p)
  {
    hide Sha1Steps, Schedule, Sha1Plus;
    var loaded := LoadWords(p);
    var words := loaded[..];
    var a, b, c, d, e := Sha1Round1Front(p, words, s.a, s.b, s.c, s.d, s.e);
    a, b, c, d, e := Sha1Round1Back(p, words, a, b, c, d, e);
    Sha1Join(s, p, 0, 10, 10);
    a, b, c, d, e := Sha1Round2Front(p, words, a, b, c, d, e);
    Sha1Join(s, p, 0, 20, 10);
    a, b, c, d, e := Sha1Round2Back(p, words, a, b, c, d, e);
    Sha1Join(s, p, 0, 30, 10);
    a, b, c, d, e := Sha1Round3Front(p, words, a, b, c, d, e);
    Sha1Join(s, p, 0, 40, 10);
    a, b, c, d, e := Sha1Round3Back(p, words, a, b, c, d, e);
    Sha1Join(s, p, 0, 50, 10);
    a, b, c, d, e := Sha1Round4Front(p, words, a, b, c, d, e);
    Sha1Join(s, p, 0, 60, 10);
    a, b, c, d, e := Sha1Round4Back(p, words, a, b, c, d, e);
    Sha1Join(s, p, 0, 70, 10);
    r := Sha1Plus(Sha1State(a, b, c, d, e), s);
  }
}
