// The known answers for the message "abc": section A.5 of RFC 1321 and the SHA-1 example that NIST
// publishes with FIPS 180-4. Every few steps the state is compared with a literal.
module HashVectors {
  import opened StreamHashes
  import opened Compressions
  import opened HashBodies

  const ABC: seq<int> := [97, 98, 99]

  const LITTLE: seq<int> := [97, 98, 99, 128] + Zeros(52) + [24, 0, 0, 0, 0, 0, 0, 0]

  const BIG: seq<int> := [97, 98, 99, 128] + Zeros(52) + [0, 0, 0, 0, 0, 0, 0, 24]

  lemma PaddedAbc()
    ensures Padded(ABC, false) == LITTLE && Padded(ABC, true) == BIG && |LITTLE| == |BIG| == 64
  {
    var l := LittleLength(24);
    assert l == [24, 0, 0, 0, 0, 0, 0, 0] by { LengthOf24(); }
    assert LengthField(true, 24) == [0, 0, 0, 0, 0, 0, 0, 24];
  }

  lemma LengthOf24()
    ensures LittleLength(24) == [24, 0, 0, 0, 0, 0, 0, 0]
  {
    hide Pow256;
    assert Pow256(0) == 1 by { NoPower(); }
    forall i | 1 <= i < 8 ensures 24 / Pow256(i) == 0 {
      Pow256Above(i);
      SmallQuotient(24, Pow256(i));
    }
  }

  lemma SmallQuotient(x: nat, p: nat)
    requires x < p
    ensures x / p == 0
  {
  }

  lemma {:induction false} Pow256Above(i: nat)
    requires i >= 1
    ensures Pow256(i) >= 256
  {
    if i > 1 { Pow256Above(i - 1); }
  }

  // ---------- MD5 ----------

  lemma SomeBytes()
    ensures Byte(0) == 0 && Byte(24) == 24 && Byte(97) == 97 && Byte(98) == 98 && Byte(99) == 99 && Byte(128) == 128
  {
    hide Byte;
    LowBytes();
    ByteA();
    ByteB();
    ByteC();
    BytePad();
  }

  lemma LowBytes()
    ensures Byte(0) == 0 && Byte(24) == 24
  {
  }

  lemma ByteA()
    ensures Byte(97) == 97
  {
  }

  lemma ByteB()
    ensures Byte(98) == 98
  {
  }

  lemma ByteC()
    ensures Byte(99) == 99
  {
  }

  lemma BytePad()
    ensures Byte(128) == 128
  {
  }

  lemma LittleWords()
    ensures |LITTLE| == 64
    ensures forall n :: 0 <= n < 16 ==>
      LittleWord(LITTLE, n) == if n == 0 then 0x80636261 else if n == 14 then 24 else 0
  {
    forall n | 0 <= n < 16 ensures LittleWord(LITTLE, n) == if n == 0 then 0x80636261 else if n == 14 then 24 else 0 {
      LittleWordAt(n);
    }
  }

  lemma LittleWordAt(n: nat)
    requires n < 16
    ensures |LITTLE| == 64 && LittleWord(LITTLE, n) == if n == 0 then 0x80636261 else if n == 14 then 24 else 0
  {
    hide Byte;
    SomeBytes();
    var p := LITTLE;
    if n == 0 {
      assert p[0] == 97 && p[1] == 98 && p[2] == 99 && p[3] == 128;
    } else if n == 14 {
      assert p[56] == 24 && p[57] == 0 && p[58] == 0 && p[59] == 0;
    } else {
      assert p[n * 4] == 0 && p[n * 4 + 1] == 0 && p[n * 4 + 2] == 0 && p[n * 4 + 3] == 0;
    }
  }

  lemma Md5Sums1()
    ensures Stepped(0x67452301, F(0xefcdab89, 0x98badcfe, 0x10325476), 0xefcdab89, 0x80636261, 0xd76aa478, 7)
         == 0xd6d117b4
    ensures Stepped(0x10325476, F(0xd6d117b4, 0xefcdab89, 0x98badcfe), 0xd6d117b4, 0x00000000, 0xe8c7b756, 12)
         == 0x344a8432
    ensures Stepped(0x98badcfe, F(0x344a8432, 0xd6d117b4, 0xefcdab89), 0x344a8432, 0x00000000, 0x242070db, 17)
         == 0x2f6fbd72
    ensures Stepped(0xefcdab89, F(0x2f6fbd72, 0x344a8432, 0xd6d117b4), 0x2f6fbd72, 0x00000000, 0xc1bdceee, 22)
         == 0x7ad956f2
    ensures Stepped(0xd6d117b4, F(0x7ad956f2, 0x2f6fbd72, 0x344a8432), 0x7ad956f2, 0x00000000, 0xf57c0faf, 7)
         == 0xc73741ef
    ensures Stepped(0x344a8432, F(0xc73741ef, 0x7ad956f2, 0x2f6fbd72), 0xc73741ef, 0x00000000, 0x4787c62a, 12)
         == 0x8bac3051
    ensures Stepped(0x2f6fbd72, F(0x8bac3051, 0xc73741ef, 0x7ad956f2), 0x8bac3051, 0x00000000, 0xa8304613, 17)
         == 0x207dc67b
    ensures Stepped(0x7ad956f2, F(0x207dc67b, 0x8bac3051, 0xc73741ef), 0x207dc67b, 0x00000000, 0xfd469501, 22)
         == 0x928d99f6
  {
  }

  lemma Md5Abc1()
    ensures |LITTLE| == 64
    ensures Md5Steps(MD5_INIT, LITTLE, 0, 8) == Md5State(0xc73741ef, 0x928d99f6, 0x207dc67b, 0x8bac3051)
  {
    hide LittleWord, Md5Steps, Stepped, F, G, H, I, Md5Mix, Md5Index, Md5Constant, Md5Shift;
    Md5Begins();
    LittleWords();
    Md5Mixes1();
    Md5Rows1();
    Md5Sums1();
    Md5Four(MD5_INIT, LITTLE, 0, 0);
    Md5Four(MD5_INIT, LITTLE, 0, 4);
  }

  lemma Md5Sums2()
    ensures Stepped(0xc73741ef, F(0x928d99f6, 0x207dc67b, 0x8bac3051), 0x928d99f6, 0x00000000, 0x698098d8, 7)
         == 0x854b3712
    ensures Stepped(0x8bac3051, F(0x854b3712, 0x928d99f6, 0x207dc67b), 0x854b3712, 0x00000000, 0x8b44f7af, 12)
         == 0x74e2f284
    ensures Stepped(0x207dc67b, F(0x74e2f284, 0x854b3712, 0x928d99f6), 0x74e2f284, 0x00000000, 0xffff5bb1, 17)
         == 0x3020401c
    ensures Stepped(0x928d99f6, F(0x3020401c, 0x74e2f284, 0x854b3712), 0x3020401c, 0x00000000, 0x895cd7be, 22)
         == 0x5ed49596
    ensures Stepped(0x854b3712, F(0x5ed49596, 0x3020401c, 0x74e2f284), 0x5ed49596, 0x00000000, 0x6b901122, 7)
         == 0xdda9b9a6
    ensures Stepped(0x74e2f284, F(0xdda9b9a6, 0x5ed49596, 0x3020401c), 0xdda9b9a6, 0x00000000, 0xfd987193, 12)
         == 0xa1051895
    ensures Stepped(0x3020401c, F(0xa1051895, 0xdda9b9a6, 0x5ed49596), 0xa1051895, 0x00000018, 0xa679438e, 17)
         == 0xe396856b
    ensures Stepped(0x5ed49596, F(0xe396856b, 0xa1051895, 0xdda9b9a6), 0xe396856b, 0x00000000, 0x49b40821, 22)
         == 0x72aff2e0
  {
  }

  lemma Md5Abc2()
    ensures |LITTLE| == 64
    ensures Md5Steps(MD5_INIT, LITTLE, 0, 16) == Md5State(0xdda9b9a6, 0x72aff2e0, 0xe396856b, 0xa1051895)
  {
    hide LittleWord, Md5Steps, Stepped, F, G, H, I, Md5Mix, Md5Index, Md5Constant, Md5Shift;
    Md5Abc1();
    LittleWords();
    Md5Mixes1();
    Md5Rows2();
    Md5Sums2();
    Md5Four(MD5_INIT, LITTLE, 0, 8);
    Md5Four(MD5_INIT, LITTLE, 0, 12);
  }

  lemma Md5Sums3()
    ensures Stepped(0xdda9b9a6, G(0x72aff2e0, 0xe396856b, 0xa1051895), 0x72aff2e0, 0x00000000, 0xf61e2562, 5)
         == 0x3e9e9126
    ensures Stepped(0xa1051895, G(0x3e9e9126, 0x72aff2e0, 0xe396856b), 0x3e9e9126, 0x00000000, 0xc040b340, 9)
         == 0x4a1d804e
    ensures Stepped(0xe396856b, G(0x4a1d804e, 0x3e9e9126, 0x72aff2e0), 0x4a1d804e, 0x00000000, 0x265e5a51, 14)
         == 0xe25e1652
    ensures Stepped(0x72aff2e0, G(0xe25e1652, 0x4a1d804e, 0x3e9e9126), 0xe25e1652, 0x80636261, 0xe9b6c7aa, 20)
         == 0xb5b204e4
    ensures Stepped(0x3e9e9126, G(0xb5b204e4, 0xe25e1652, 0x4a1d804e), 0xb5b204e4, 0x00000000, 0xd62f105d, 5)
         == 0x59a8ffda
    ensures Stepped(0x4a1d804e, G(0x59a8ffda, 0xb5b204e4, 0xe25e1652), 0x59a8ffda, 0x00000000, 0x02441453, 9)
         == 0x6d002f1e
    ensures Stepped(0xe25e1652, G(0x6d002f1e, 0x59a8ffda, 0xb5b204e4), 0x6d002f1e, 0x00000000, 0xd8a1e681, 14)
         == 0xabfc7920
    ensures Stepped(0xb5b204e4, G(0xabfc7920, 0x6d002f1e, 0x59a8ffda), 0xabfc7920, 0x00000000, 0xe7d3fbc8, 20)
         == 0x47092c07
  {
  }

  lemma Md5Abc3()
    ensures |LITTLE| == 64
    ensures Md5Steps(MD5_INIT, LITTLE, 0, 24) == Md5State(0x59a8ffda, 0x47092c07, 0xabfc7920, 0x6d002f1e)
  {
    hide LittleWord, Md5Steps, Stepped, F, G, H, I, Md5Mix, Md5Index, Md5Constant, Md5Shift;
    Md5Abc2();
    LittleWords();
    Md5Mixes2();
    Md5Rows3();
    Md5Sums3();
    Md5Four(MD5_INIT, LITTLE, 0, 16);
    Md5Four(MD5_INIT, LITTLE, 0, 20);
  }

  lemma Md5Sums4()
    ensures Stepped(0x59a8ffda, G(0x47092c07, 0xabfc7920, 0x6d002f1e), 0x47092c07, 0x00000000, 0x21e1cde6, 5)
         == 0xb7f268cf
    ensures Stepped(0x6d002f1e, G(0xb7f268cf, 0x47092c07, 0xabfc7920), 0xb7f268cf, 0x00000018, 0xc33707d6, 9)
         == 0x09388eff
    ensures Stepped(0xabfc7920, G(0x09388eff, 0xb7f268cf, 0x47092c07), 0x09388eff, 0x00000000, 0xf4d50d87, 14)
         == 0xfe1623b1
    ensures Stepped(0x47092c07, G(0xfe1623b1, 0x09388eff, 0xb7f268cf), 0xfe1623b1, 0x00000000, 0x455a14ed, 20)
         == 0x786acb8f
    ensures Stepped(0xb7f268cf, G(0x786acb8f, 0xfe1623b1, 0x09388eff), 0x786acb8f, 0x00000000, 0xa9e3e905, 5)
         == 0x790a77fb
    ensures Stepped(0x09388eff, G(0x790a77fb, 0x786acb8f, 0xfe1623b1), 0x790a77fb, 0x00000000, 0xfcefa3f8, 9)
         == 0x9f47e4f8
    ensures Stepped(0xfe1623b1, G(0x9f47e4f8, 0x790a77fb, 0x786acb8f), 0x9f47e4f8, 0x00000000, 0x676f02d9, 14)
         == 0xa62884aa
    ensures Stepped(0x786acb8f, G(0xa62884aa, 0x9f47e4f8, 0x790a77fb), 0xa62884aa, 0x00000000, 0x8d2a4c8a, 20)
         == 0x726342d3
  {
  }

  lemma Md5Abc4()
    ensures |LITTLE| == 64
    ensures Md5Steps(MD5_INIT, LITTLE, 0, 32) == Md5State(0x790a77fb, 0x726342d3, 0xa62884aa, 0x9f47e4f8)
  {
    hide LittleWord, Md5Steps, Stepped, F, G, H, I, Md5Mix, Md5Index, Md5Constant, Md5Shift;
    Md5Abc3();
    LittleWords();
    Md5Mixes2();
    Md5Rows4();
    Md5Sums4();
    Md5Four(MD5_INIT, LITTLE, 0, 24);
    Md5Four(MD5_INIT, LITTLE, 0, 28);
  }

  lemma Md5Sums5()
    ensures Stepped(0x790a77fb, H(0x726342d3, 0xa62884aa, 0x9f47e4f8), 0x726342d3, 0x00000000, 0xfffa3942, 4)
         == 0xb3707ebf
    ensures Stepped(0x9f47e4f8, H(0xb3707ebf, 0x726342d3, 0xa62884aa), 0xb3707ebf, 0x00000000, 0x8771f681, 11)
         == 0x60127b2e
    ensures Stepped(0xa62884aa, H(0x60127b2e, 0xb3707ebf, 0x726342d3), 0x60127b2e, 0x00000000, 0x6d9d6122, 16)
         == 0x8d212ff5
    ensures Stepped(0x726342d3, H(0x8d212ff5, 0x60127b2e, 0xb3707ebf), 0x8d212ff5, 0x00000018, 0xfde5380c, 23)
         == 0x3b0875c7
    ensures Stepped(0xb3707ebf, H(0x3b0875c7, 0x8d212ff5, 0x60127b2e), 0x3b0875c7, 0x00000000, 0xa4beea44, 4)
         == 0x21b117b9
    ensures Stepped(0x60127b2e, H(0x21b117b9, 0x3b0875c7, 0x8d212ff5), 0x21b117b9, 0x00000000, 0x4bdecfa9, 11)
         == 0x6e7429d5
    ensures Stepped(0x8d212ff5, H(0x6e7429d5, 0x21b117b9, 0x3b0875c7), 0x6e7429d5, 0x00000000, 0xf6bb4b60, 16)
         == 0x3575227e
    ensures Stepped(0x3b0875c7, H(0x3575227e, 0x6e7429d5, 0x21b117b9), 0x3575227e, 0x00000000, 0xbebfbc70, 23)
         == 0x5a2f5ea5
  {
  }

  lemma Md5Abc5()
    ensures |LITTLE| == 64
    ensures Md5Steps(MD5_INIT, LITTLE, 0, 40) == Md5State(0x21b117b9, 0x5a2f5ea5, 0x3575227e, 0x6e7429d5)
  {
    hide LittleWord, Md5Steps, Stepped, F, G, H, I, Md5Mix, Md5Index, Md5Constant, Md5Shift;
    Md5Abc4();
    LittleWords();
    Md5Mixes3();
    Md5Rows5();
    Md5Sums5();
    Md5Four(MD5_INIT, LITTLE, 0, 32);
    Md5Four(MD5_INIT, LITTLE, 0, 36);
  }

  lemma Md5Sums6()
    ensures Stepped(0x21b117b9, H(0x5a2f5ea5, 0x3575227e, 0x6e7429d5), 0x5a2f5ea5, 0x00000000, 0x289b7ec6, 4)
         == 0x11de1779
    ensures Stepped(0x6e7429d5, H(0x11de1779, 0x5a2f5ea5, 0x3575227e), 0x11de1779, 0x80636261, 0xeaa127fa, 11)
         == 0xfadcaa38
    ensures Stepped(0x3575227e, H(0xfadcaa38, 0x11de1779, 0x5a2f5ea5), 0xfadcaa38, 0x00000000, 0xd4ef3085, 16)
         == 0x31c465ca
    ensures Stepped(0x5a2f5ea5, H(0x31c465ca, 0xfadcaa38, 0x11de1779), 0x31c465ca, 0x00000000, 0x04881d05, 23)
         == 0x4c6124f4
    ensures Stepped(0x11de1779, H(0x4c6124f4, 0x31c465ca, 0xfadcaa38), 0x4c6124f4, 0x00000000, 0xd9d4d039, 4)
         == 0x7f2e507b
    ensures Stepped(0xfadcaa38, H(0x7f2e507b, 0x4c6124f4, 0x31c465ca), 0x7f2e507b, 0x00000000, 0xe6db99e5, 11)
         == 0x99d9679d
    ensures Stepped(0x31c465ca, H(0x99d9679d, 0x7f2e507b, 0x4c6124f4), 0x99d9679d, 0x00000000, 0x1fa27cf8, 16)
         == 0x8fae6399
    ensures Stepped(0x4c6124f4, H(0x8fae6399, 0x99d9679d, 0x7f2e507b), 0x8fae6399, 0x00000000, 0xc4ac5665, 23)
         == 0x7beb9700
  {
  }

  lemma Md5Abc6()
    ensures |LITTLE| == 64
    ensures Md5Steps(MD5_INIT, LITTLE, 0, 48) == Md5State(0x7f2e507b, 0x7beb9700, 0x8fae6399, 0x99d9679d)
  {
    hide LittleWord, Md5Steps, Stepped, F, G, H, I, Md5Mix, Md5Index, Md5Constant, Md5Shift;
    Md5Abc5();
    LittleWords();
    Md5Mixes3();
    Md5Rows6();
    Md5Sums6();
    Md5Four(MD5_INIT, LITTLE, 0, 40);
    Md5Four(MD5_INIT, LITTLE, 0, 44);
  }

  lemma Md5Sums7()
    ensures Stepped(0x7f2e507b, I(0x7beb9700, 0x8fae6399, 0x99d9679d), 0x7beb9700, 0x80636261, 0xf4292244, 6)
         == 0x7b201df8
    ensures Stepped(0x99d9679d, I(0x7b201df8, 0x7beb9700, 0x8fae6399), 0x7b201df8, 0x00000000, 0x432aff97, 10)
         == 0xf4e8e96e
    ensures Stepped(0x8fae6399, I(0xf4e8e96e, 0x7b201df8, 0x7beb9700), 0xf4e8e96e, 0x00000018, 0xab9423a7, 15)
         == 0xb298cefd
    ensures Stepped(0x7beb9700, I(0xb298cefd, 0xf4e8e96e, 0x7b201df8), 0xb298cefd, 0x00000000, 0xfc93a039, 21)
         == 0x8bf025c4
    ensures Stepped(0x7b201df8, I(0x8bf025c4, 0xb298cefd, 0xf4e8e96e), 0x8bf025c4, 0x00000000, 0x655b59c3, 6)
         == 0x06cc5e8a
    ensures Stepped(0xf4e8e96e, I(0x06cc5e8a, 0x8bf025c4, 0xb298cefd), 0x06cc5e8a, 0x00000000, 0x8f0ccc92, 10)
         == 0x5b0d97aa
    ensures Stepped(0xb298cefd, I(0x5b0d97aa, 0x06cc5e8a, 0x8bf025c4), 0x5b0d97aa, 0x00000000, 0xffeff47d, 15)
         == 0x7d632dd0
    ensures Stepped(0x8bf025c4, I(0x7d632dd0, 0x5b0d97aa, 0x06cc5e8a), 0x7d632dd0, 0x00000000, 0x85845dd1, 21)
         == 0x3bfa2c27
  {
  }

  lemma Md5Abc7()
    ensures |LITTLE| == 64
    ensures Md5Steps(MD5_INIT, LITTLE, 0, 56) == Md5State(0x06cc5e8a, 0x3bfa2c27, 0x7d632dd0, 0x5b0d97aa)
  {
    hide LittleWord, Md5Steps, Stepped, F, G, H, I, Md5Mix, Md5Index, Md5Constant, Md5Shift;
    Md5Abc6();
    LittleWords();
    Md5Mixes4();
    Md5Rows7();
    Md5Sums7();
    Md5Four(MD5_INIT, LITTLE, 0, 48);
    Md5Four(MD5_INIT, LITTLE, 0, 52);
  }

  lemma Md5Sums8()
    ensures Stepped(0x06cc5e8a, I(0x3bfa2c27, 0x7d632dd0, 0x5b0d97aa), 0x3bfa2c27, 0x00000000, 0x6fa87e4f, 6)
         == 0x7f81cc35
    ensures Stepped(0x5b0d97aa, I(0x7f81cc35, 0x3bfa2c27, 0x7d632dd0), 0x7f81cc35, 0x00000000, 0xfe2ce6e0, 10)
         == 0x094454ab
    ensures Stepped(0x7d632dd0, I(0x094454ab, 0x7f81cc35, 0x3bfa2c27), 0x094454ab, 0x00000000, 0xa3014314, 15)
         == 0x4f9dbe3f
    ensures Stepped(0x3bfa2c27, I(0x4f9dbe3f, 0x094454ab, 0x7f81cc35), 0x4f9dbe3f, 0x00000000, 0x4e0811a1, 21)
         == 0x7327d604
    ensures Stepped(0x7f81cc35, I(0x7327d604, 0x4f9dbe3f, 0x094454ab), 0x7327d604, 0x00000000, 0xf7537e82, 6)
         == 0x310ade8f
    ensures Stepped(0x094454ab, I(0x310ade8f, 0x7327d604, 0x4f9dbe3f), 0x310ade8f, 0x00000000, 0xbd3af235, 10)
         == 0x624d8cb2
    ensures Stepped(0x4f9dbe3f, I(0x624d8cb2, 0x310ade8f, 0x7327d604), 0x624d8cb2, 0x00000000, 0x2ad7d2bb, 15)
         == 0xe484b9d8
    ensures Stepped(0x7327d604, I(0xe484b9d8, 0x624d8cb2, 0x310ade8f), 0xe484b9d8, 0x00000000, 0xeb86d391, 21)
         == 0xc08226b3
  {
  }

  lemma Md5Abc8()
    ensures |LITTLE| == 64
    ensures Md5Steps(MD5_INIT, LITTLE, 0, 64) == Md5State(0x310ade8f, 0xc08226b3, 0xe484b9d8, 0x624d8cb2)
  {
    hide LittleWord, Md5Steps, Stepped, F, G, H, I, Md5Mix, Md5Index, Md5Constant, Md5Shift;
    Md5Abc7();
    LittleWords();
    Md5Mixes4();
    Md5Rows8();
    Md5Sums8();
    Md5Four(MD5_INIT, LITTLE, 0, 56);
    Md5Four(MD5_INIT, LITTLE, 0, 60);
  }

  lemma Md5Begins()
    ensures |LITTLE| == 64 && Md5Steps(MD5_INIT, LITTLE, 0, 0) == MD5_INIT
  {
  }

  /** MD5 of "abc": 900150983cd24fb0d6963f7d28e17f72. */
  lemma Md5OfAbc()
    ensures Fold(Md5Compress, MD5_INIT, Padded(ABC, false)) == Md5State(0x98500190, 0xb04fd23c, 0x7d3f96d6, 0x727fe128)
  {
    hide Md5Steps;
    PaddedAbc();
    Md5Abc8();
    FoldOne(Md5Compress, MD5_INIT, LITTLE);
  }

  // ---------- SHA-1 ----------

  lemma BigWords(n: nat)
    requires n < 16
    ensures |BIG| == 64 && BigWord(BIG, n) == if n == 0 then 0x61626380 else if n == 15 then 24 else 0
  {
    hide Byte;
    SomeBytes();
    var p := BIG;
    if n == 0 {
      assert p[0] == 97 && p[1] == 98 && p[2] == 99 && p[3] == 128;
    } else if n == 15 {
      assert p[60] == 0 && p[61] == 0 && p[62] == 0 && p[63] == 24;
    } else {
      assert p[n * 4] == 0 && p[n * 4 + 1] == 0 && p[n * 4 + 2] == 0 && p[n * 4 + 3] == 0;
    }
  }

  lemma Sha1Words0()
    ensures |BIG| == 64
    ensures Schedule(BIG, 0) == 0x61626380 && Schedule(BIG, 1) == 0x00000000 && Schedule(BIG, 2) == 0x00000000
    ensures Schedule(BIG, 3) == 0x00000000 && Schedule(BIG, 4) == 0x00000000 && Schedule(BIG, 5) == 0x00000000
    ensures Schedule(BIG, 6) == 0x00000000 && Schedule(BIG, 7) == 0x00000000 && Schedule(BIG, 8) == 0x00000000
    ensures Schedule(BIG, 9) == 0x00000000 && Schedule(BIG, 10) == 0x00000000 && Schedule(BIG, 11) == 0x00000000
    ensures Schedule(BIG, 12) == 0x00000000 && Schedule(BIG, 13) == 0x00000000 && Schedule(BIG, 14) == 0x00000000
    ensures Schedule(BIG, 15) == 0x00000018
  {
    hide BigWord, Mixed;
    forall t | 0 <= t < 16 ensures Schedule(BIG, t) == if t == 0 then 0x61626380 else if t == 15 then 24 else 0 {
      BigWords(t);
    }
  }

  lemma ScheduleNext(p: seq<int>, t: nat)
    requires |p| == 64 && 16 <= t
    ensures Schedule(p, t) == Mixed(Schedule(p, t - 3), Schedule(p, t - 8), Schedule(p, t - 14), Schedule(p, t - 16))
  {
  }

  lemma Sha1Mixed1()
    ensures Mixed(0x00000000, 0x00000000, 0x00000000, 0x61626380) == 0xc2c4c700
    ensures Mixed(0x00000000, 0x00000000, 0x00000000, 0x00000000) == 0x00000000
    ensures Mixed(0x00000018, 0x00000000, 0x00000000, 0x00000000) == 0x00000030
    ensures Mixed(0xc2c4c700, 0x00000000, 0x00000000, 0x00000000) == 0x85898e01
    ensures Mixed(0x00000000, 0x00000000, 0x00000000, 0x00000000) == 0x00000000
    ensures Mixed(0x00000030, 0x00000000, 0x00000000, 0x00000000) == 0x00000060
    ensures Mixed(0x85898e01, 0x00000000, 0x00000000, 0x00000000) == 0x0b131c03
    ensures Mixed(0x00000000, 0x00000018, 0x00000000, 0x00000000) == 0x00000030
    ensures Mixed(0x00000060, 0xc2c4c700, 0x00000000, 0x00000000) == 0x85898ec1
    ensures Mixed(0x0b131c03, 0x00000000, 0x00000000, 0x00000000) == 0x16263806
    ensures Mixed(0x00000030, 0x00000030, 0x00000000, 0x00000000) == 0x00000000
    ensures Mixed(0x85898ec1, 0x85898e01, 0x00000000, 0x00000000) == 0x00000180
    ensures Mixed(0x16263806, 0x00000000, 0x00000000, 0x00000000) == 0x2c4c700c
    ensures Mixed(0x00000000, 0x00000060, 0x00000018, 0x00000000) == 0x000000f0
    ensures Mixed(0x00000180, 0x0b131c03, 0xc2c4c700, 0x00000000) == 0x93afb507
    ensures Mixed(0x2c4c700c, 0x00000030, 0x00000000, 0x00000018) == 0x5898e048
  {
  }

  lemma Sha1Words1()
    ensures |BIG| == 64
    ensures Schedule(BIG, 16) == 0xc2c4c700 && Schedule(BIG, 17) == 0x00000000 && Schedule(BIG, 18) == 0x00000030
    ensures Schedule(BIG, 19) == 0x85898e01 && Schedule(BIG, 20) == 0x00000000 && Schedule(BIG, 21) == 0x00000060
    ensures Schedule(BIG, 22) == 0x0b131c03 && Schedule(BIG, 23) == 0x00000030 && Schedule(BIG, 24) == 0x85898ec1
    ensures Schedule(BIG, 25) == 0x16263806 && Schedule(BIG, 26) == 0x00000000 && Schedule(BIG, 27) == 0x00000180
    ensures Schedule(BIG, 28) == 0x2c4c700c && Schedule(BIG, 29) == 0x000000f0 && Schedule(BIG, 30) == 0x93afb507
    ensures Schedule(BIG, 31) == 0x5898e048
  {
    hide Schedule, Mixed;
    Sha1Words0();
    Sha1Mixed1();
    ScheduleNext(BIG, 16);
    ScheduleNext(BIG, 17);
    ScheduleNext(BIG, 18);
    ScheduleNext(BIG, 19);
    ScheduleNext(BIG, 20);
    ScheduleNext(BIG, 21);
    ScheduleNext(BIG, 22);
    ScheduleNext(BIG, 23);
    ScheduleNext(BIG, 24);
    ScheduleNext(BIG, 25);
    ScheduleNext(BIG, 26);
    ScheduleNext(BIG, 27);
    ScheduleNext(BIG, 28);
    ScheduleNext(BIG, 29);
    ScheduleNext(BIG, 30);
    ScheduleNext(BIG, 31);
  }

  lemma Sha1Mixed2()
    ensures Mixed(0x000000f0, 0x85898ec1, 0x00000030, 0xc2c4c700) == 0x8e9a9202
    ensures Mixed(0x93afb507, 0x16263806, 0x85898e01, 0x00000000) == 0x00000600
    ensures Mixed(0x5898e048, 0x00000000, 0x00000000, 0x00000030) == 0xb131c0f0
    ensures Mixed(0x8e9a9202, 0x00000180, 0x00000060, 0x85898e01) == 0x16263bc6
    ensures Mixed(0x00000600, 0x2c4c700c, 0x0b131c03, 0x00000000) == 0x4ebed41e
    ensures Mixed(0xb131c0f0, 0x000000f0, 0x00000030, 0x00000060) == 0x626380a1
    ensures Mixed(0x16263bc6, 0x93afb507, 0x85898ec1, 0x0b131c03) == 0x16263806
    ensures Mixed(0x4ebed41e, 0x5898e048, 0x16263806, 0x00000030) == 0x000018c0
    ensures Mixed(0x626380a1, 0x8e9a9202, 0x00000000, 0x85898ec1) == 0xd2e138c4
    ensures Mixed(0x16263806, 0x00000600, 0x00000180, 0x16263806) == 0x00000f00
    ensures Mixed(0x000018c0, 0xb131c0f0, 0x2c4c700c, 0x00000000) == 0x3afb5079
    ensures Mixed(0xd2e138c4, 0x16263bc6, 0x000000f0, 0x00000180) == 0x898e04e5
    ensures Mixed(0x00000f00, 0x4ebed41e, 0x93afb507, 0x2c4c700c) == 0xe2ba3c2b
    ensures Mixed(0x3afb5079, 0x626380a1, 0x5898e048, 0x000000f0) == 0x000060c0
    ensures Mixed(0x898e04e5, 0x16263806, 0x8e9a9202, 0x93afb507) == 0x053a37cd
    ensures Mixed(0xe2ba3c2b, 0x000018c0, 0x00000600, 0x5898e048) == 0x74458547
  {
  }

  lemma Sha1Words2()
    ensures |BIG| == 64
    ensures Schedule(BIG, 32) == 0x8e9a9202 && Schedule(BIG, 33) == 0x00000600 && Schedule(BIG, 34) == 0xb131c0f0
    ensures Schedule(BIG, 35) == 0x16263bc6 && Schedule(BIG, 36) == 0x4ebed41e && Schedule(BIG, 37) == 0x626380a1
    ensures Schedule(BIG, 38) == 0x16263806 && Schedule(BIG, 39) == 0x000018c0 && Schedule(BIG, 40) == 0xd2e138c4
    ensures Schedule(BIG, 41) == 0x00000f00 && Schedule(BIG, 42) == 0x3afb5079 && Schedule(BIG, 43) == 0x898e04e5
    ensures Schedule(BIG, 44) == 0xe2ba3c2b && Schedule(BIG, 45) == 0x000060c0 && Schedule(BIG, 46) == 0x053a37cd
    ensures Schedule(BIG, 47) == 0x74458547
  {
    hide Schedule, Mixed;
    Sha1Words1();
    Sha1Mixed2();
    ScheduleNext(BIG, 32);
    ScheduleNext(BIG, 33);
    ScheduleNext(BIG, 34);
    ScheduleNext(BIG, 35);
    ScheduleNext(BIG, 36);
    ScheduleNext(BIG, 37);
    ScheduleNext(BIG, 38);
    ScheduleNext(BIG, 39);
    ScheduleNext(BIG, 40);
    ScheduleNext(BIG, 41);
    ScheduleNext(BIG, 42);
    ScheduleNext(BIG, 43);
    ScheduleNext(BIG, 44);
    ScheduleNext(BIG, 45);
    ScheduleNext(BIG, 46);
    ScheduleNext(BIG, 47);
  }

  lemma Sha1Mixed3()
    ensures Mixed(0x000060c0, 0xd2e138c4, 0xb131c0f0, 0x8e9a9202) == 0xda9415ed
    ensures Mixed(0x053a37cd, 0x00000f00, 0x16263bc6, 0x00000600) == 0x26380a16
    ensures Mixed(0x74458547, 0x3afb5079, 0x4ebed41e, 0xb131c0f0) == 0x626383a1
    ensures Mixed(0xda9415ed, 0x898e04e5, 0x626380a1, 0x16263bc6) == 0x4ebf54de
    ensures Mixed(0x26380a16, 0xe2ba3c2b, 0x16263806, 0x4ebed41e) == 0x3835b44b
    ensures Mixed(0x626383a1, 0x000060c0, 0x000018c0, 0x626380a1) == 0x0000f600
    ensures Mixed(0x4ebf54de, 0x053a37cd, 0xd2e138c4, 0x16263806) == 0x1e84c7a3
    ensures Mixed(0x3835b44b, 0x74458547, 0x00000f00, 0x000018c0) == 0x98e04d98
    ensures Mixed(0x0000f600, 0xda9415ed, 0x3afb5079, 0xd2e138c4) == 0x651d16a0
    ensures Mixed(0x1e84c7a3, 0x26380a16, 0x898e04e5, 0x00000f00) == 0x62658ca1
    ensures Mixed(0x98e04d98, 0x626383a1, 0xe2ba3c2b, 0x3afb5079) == 0x458544d6
    ensures Mixed(0x651d16a0, 0x4ebf54de, 0x000060c0, 0x898e04e5) == 0x44584cb7
    ensures Mixed(0x62658ca1, 0x3835b44b, 0x053a37cd, 0xe2ba3c2b) == 0x7ba06619
    ensures Mixed(0x458544d6, 0x0000f600, 0x74458547, 0x000060c0) == 0x6380aea2
    ensures Mixed(0x44584cb7, 0x1e84c7a3, 0xda9415ed, 0x053a37cd) == 0x0ae55269
    ensures Mixed(0x7ba06619, 0x98e04d98, 0x26380a16, 0x74458547) == 0x627b49a1
  {
  }

  lemma Sha1Words3()
    ensures |BIG| == 64
    ensures Schedule(BIG, 48) == 0xda9415ed && Schedule(BIG, 49) == 0x26380a16 && Schedule(BIG, 50) == 0x626383a1
    ensures Schedule(BIG, 51) == 0x4ebf54de && Schedule(BIG, 52) == 0x3835b44b && Schedule(BIG, 53) == 0x0000f600
    ensures Schedule(BIG, 54) == 0x1e84c7a3 && Schedule(BIG, 55) == 0x98e04d98 && Schedule(BIG, 56) == 0x651d16a0
    ensures Schedule(BIG, 57) == 0x62658ca1 && Schedule(BIG, 58) == 0x458544d6 && Schedule(BIG, 59) == 0x44584cb7
    ensures Schedule(BIG, 60) == 0x7ba06619 && Schedule(BIG, 61) == 0x6380aea2 && Schedule(BIG, 62) == 0x0ae55269
    ensures Schedule(BIG, 63) == 0x627b49a1
  {
    hide Schedule, Mixed;
    Sha1Words2();
    Sha1Mixed3();
    ScheduleNext(BIG, 48);
    ScheduleNext(BIG, 49);
    ScheduleNext(BIG, 50);
    ScheduleNext(BIG, 51);
    ScheduleNext(BIG, 52);
    ScheduleNext(BIG, 53);
    ScheduleNext(BIG, 54);
    ScheduleNext(BIG, 55);
    ScheduleNext(BIG, 56);
    ScheduleNext(BIG, 57);
    ScheduleNext(BIG, 58);
    ScheduleNext(BIG, 59);
    ScheduleNext(BIG, 60);
    ScheduleNext(BIG, 61);
    ScheduleNext(BIG, 62);
    ScheduleNext(BIG, 63);
  }

  lemma Sha1Mixed4()
    ensures Mixed(0x6380aea2, 0x651d16a0, 0x626383a1, 0xda9415ed) == 0x7cd45c9d
    ensures Mixed(0x0ae55269, 0x62658ca1, 0x4ebf54de, 0x26380a16) == 0x000f0000
    ensures Mixed(0x627b49a1, 0x458544d6, 0x3835b44b, 0x626383a1) == 0xfb50753a
    ensures Mixed(0x7cd45c9d, 0x44584cb7, 0x0000f600, 0x4ebf54de) == 0xec6765e8
    ensures Mixed(0x000f0000, 0x7ba06619, 0x1e84c7a3, 0x3835b44b) == 0xba3c2be2
    ensures Mixed(0xfb50753a, 0x6380aea2, 0x98e04d98, 0x0000f600) == 0x0060c000
    ensures Mixed(0xec6765e8, 0x0ae55269, 0x651d16a0, 0x1e84c7a3) == 0x3a37cd05
    ensures Mixed(0xba3c2be2, 0x627b49a1, 0x62658ca1, 0x98e04d98) == 0x458546f4
    ensures Mixed(0x0060c000, 0x7cd45c9d, 0x458544d6, 0x651d16a0) == 0xb8599dd6
    ensures Mixed(0x3a37cd05, 0x000f0000, 0x44584cb7, 0x62658ca1) == 0x380a1a26
    ensures Mixed(0x458546f4, 0xfb50753a, 0x7ba06619, 0x458544d6) == 0x01e02203
    ensures Mixed(0xb8599dd6, 0xec6765e8, 0x6380aea2, 0x44584cb7) == 0xe7cc3456
    ensures Mixed(0x380a1a26, 0xba3c2be2, 0x0ae55269, 0x7ba06619) == 0xe6e60b69
    ensures Mixed(0x01e02203, 0x0060c000, 0x627b49a1, 0x6380aea2) == 0x00f60a00
    ensures Mixed(0xe7cc3456, 0x3a37cd05, 0x7cd45c9d, 0x0ae55269) == 0x5795ef4f
    ensures Mixed(0xe6e60b69, 0x458546f4, 0x000f0000, 0x627b49a1) == 0x822e0879
  {
  }

  lemma Sha1Words4()
    ensures |BIG| == 64
    ensures Schedule(BIG, 64) == 0x7cd45c9d && Schedule(BIG, 65) == 0x000f0000 && Schedule(BIG, 66) == 0xfb50753a
    ensures Schedule(BIG, 67) == 0xec6765e8 && Schedule(BIG, 68) == 0xba3c2be2 && Schedule(BIG, 69) == 0x0060c000
    ensures Schedule(BIG, 70) == 0x3a37cd05 && Schedule(BIG, 71) == 0x458546f4 && Schedule(BIG, 72) == 0xb8599dd6
    ensures Schedule(BIG, 73) == 0x380a1a26 && Schedule(BIG, 74) == 0x01e02203 && Schedule(BIG, 75) == 0xe7cc3456
    ensures Schedule(BIG, 76) == 0xe6e60b69 && Schedule(BIG, 77) == 0x00f60a00 && Schedule(BIG, 78) == 0x5795ef4f
    ensures Schedule(BIG, 79) == 0x822e0879
  {
    hide Schedule, Mixed;
    Sha1Words3();
    Sha1Mixed4();
    ScheduleNext(BIG, 64);
    ScheduleNext(BIG, 65);
    ScheduleNext(BIG, 66);
    ScheduleNext(BIG, 67);
    ScheduleNext(BIG, 68);
    ScheduleNext(BIG, 69);
    ScheduleNext(BIG, 70);
    ScheduleNext(BIG, 71);
    ScheduleNext(BIG, 72);
    ScheduleNext(BIG, 73);
    ScheduleNext(BIG, 74);
    ScheduleNext(BIG, 75);
    ScheduleNext(BIG, 76);
    ScheduleNext(BIG, 77);
    ScheduleNext(BIG, 78);
    ScheduleNext(BIG, 79);
  }

  lemma Sha1Sums1()
    ensures Turned(0x67452301, F1(0xefcdab89, 0x98badcfe, 0x10325476), 0xc3d2e1f0, 0x61626380, 0x5a827999) == 0x0116fc33
    ensures Turned(0x0116fc33, F1(0x67452301, 0x7bf36ae2, 0x98badcfe), 0x10325476, 0x00000000, 0x5a827999) == 0x8990536d
    ensures Turned(0x8990536d, F1(0x0116fc33, 0x59d148c0, 0x7bf36ae2), 0x98badcfe, 0x00000000, 0x5a827999) == 0xa1390f08
    ensures Turned(0xa1390f08, F1(0x8990536d, 0xc045bf0c, 0x59d148c0), 0x7bf36ae2, 0x00000000, 0x5a827999) == 0xcdd8e11b
    ensures Turned(0xcdd8e11b, F1(0xa1390f08, 0x626414db, 0xc045bf0c), 0x59d148c0, 0x00000000, 0x5a827999) == 0xcfd499de
    ensures Turned(0xcfd499de, F1(0xcdd8e11b, 0x284e43c2, 0x626414db), 0xc045bf0c, 0x00000000, 0x5a827999) == 0x3fc7ca40
    ensures Turned(0x3fc7ca40, F1(0xcfd499de, 0xf3763846, 0x284e43c2), 0x626414db, 0x00000000, 0x5a827999) == 0x993e30c1
    ensures Turned(0x993e30c1, F1(0x3fc7ca40, 0xb3f52677, 0xf3763846), 0x284e43c2, 0x00000000, 0x5a827999) == 0x9e8c07d4
    ensures Turned(0x9e8c07d4, F1(0x993e30c1, 0x0ff1f290, 0xb3f52677), 0xf3763846, 0x00000000, 0x5a827999) == 0x4b6ae328
    ensures Turned(0x4b6ae328, F1(0x9e8c07d4, 0x664f8c30, 0x0ff1f290), 0xb3f52677, 0x00000000, 0x5a827999) == 0x8351f929
    ensures Rotate30(0xefcdab89) == 0x7bf36ae2
    ensures Rotate30(0x67452301) == 0x59d148c0
    ensures Rotate30(0x0116fc33) == 0xc045bf0c
    ensures Rotate30(0x8990536d) == 0x626414db
    ensures Rotate30(0xa1390f08) == 0x284e43c2
    ensures Rotate30(0xcdd8e11b) == 0xf3763846
    ensures Rotate30(0xcfd499de) == 0xb3f52677
    ensures Rotate30(0x3fc7ca40) == 0x0ff1f290
    ensures Rotate30(0x993e30c1) == 0x664f8c30
    ensures Rotate30(0x9e8c07d4) == 0x27a301f5
  {
  }

  lemma Sha1Abc1()
    ensures |BIG| == 64
    ensures Sha1Steps(SHA1_INIT, BIG, 0, 10) == Sha1State(0x8351f929, 0x4b6ae328, 0x27a301f5, 0x664f8c30, 0x0ff1f290)
  {
    hide Schedule, Sha1Steps, Turned, F1, F2, F3, Sha1Mix, Sha1Constant, Rotate30;
    Sha1Begins();
    Sha1Words0();
    Sha1Rows1();
    Sha1Sums1();
    Sha1Five(SHA1_INIT, BIG, 0, 0);
    Sha1Five(SHA1_INIT, BIG, 0, 5);
  }

  lemma Sha1Sums2()
    ensures Turned(0x8351f929, F1(0x4b6ae328, 0x27a301f5, 0x664f8c30), 0x0ff1f290, 0x00000000, 0x5a827999) == 0xfbda9e89
    ensures Turned(0xfbda9e89, F1(0x8351f929, 0x12dab8ca, 0x27a301f5), 0x664f8c30, 0x00000000, 0x5a827999) == 0x63188fe4
    ensures Turned(0x63188fe4, F1(0xfbda9e89, 0x60d47e4a, 0x12dab8ca), 0x27a301f5, 0x00000000, 0x5a827999) == 0x4607b664
    ensures Turned(0x4607b664, F1(0x63188fe4, 0x7ef6a7a2, 0x60d47e4a), 0x12dab8ca, 0x00000000, 0x5a827999) == 0x9128f695
    ensures Turned(0x9128f695, F1(0x4607b664, 0x18c623f9, 0x7ef6a7a2), 0x60d47e4a, 0x00000000, 0x5a827999) == 0x196bee77
    ensures Turned(0x196bee77, F1(0x9128f695, 0x1181ed99, 0x18c623f9), 0x7ef6a7a2, 0x00000018, 0x5a827999) == 0x20bdd62f
    ensures Turned(0x20bdd62f, F1(0x196bee77, 0x644a3da5, 0x1181ed99), 0x18c623f9, 0xc2c4c700, 0x5a827999) == 0x4e925823
    ensures Turned(0x4e925823, F1(0x20bdd62f, 0xc65afb9d, 0x644a3da5), 0x1181ed99, 0x00000000, 0x5a827999) == 0x82aa6728
    ensures Turned(0x82aa6728, F1(0x4e925823, 0xc82f758b, 0xc65afb9d), 0x644a3da5, 0x00000030, 0x5a827999) == 0xdc64901d
    ensures Turned(0xdc64901d, F1(0x82aa6728, 0xd3a49608, 0xc82f758b), 0xc65afb9d, 0x85898e01, 0x5a827999) == 0xfd9e1d7d
    ensures Rotate30(0x4b6ae328) == 0x12dab8ca
    ensures Rotate30(0x8351f929) == 0x60d47e4a
    ensures Rotate30(0xfbda9e89) == 0x7ef6a7a2
    ensures Rotate30(0x63188fe4) == 0x18c623f9
    ensures Rotate30(0x4607b664) == 0x1181ed99
    ensures Rotate30(0x9128f695) == 0x644a3da5
    ensures Rotate30(0x196bee77) == 0xc65afb9d
    ensures Rotate30(0x20bdd62f) == 0xc82f758b
    ensures Rotate30(0x4e925823) == 0xd3a49608
    ensures Rotate30(0x82aa6728) == 0x20aa99ca
  {
  }

  lemma Sha1Abc2()
    ensures |BIG| == 64
    ensures Sha1Steps(SHA1_INIT, BIG, 0, 20) == Sha1State(0xfd9e1d7d, 0xdc64901d, 0x20aa99ca, 0xd3a49608, 0xc82f758b)
  {
    hide Schedule, Sha1Steps, Turned, F1, F2, F3, Sha1Mix, Sha1Constant, Rotate30;
    Sha1Abc1();
    Sha1Words0();
    Sha1Words1();
    Sha1Rows1();
    Sha1Sums2();
    Sha1Five(SHA1_INIT, BIG, 0, 10);
    Sha1Five(SHA1_INIT, BIG, 0, 15);
  }

  lemma Sha1Sums3()
    ensures Turned(0xfd9e1d7d, F2(0xdc64901d, 0x20aa99ca, 0xd3a49608), 0xc82f758b, 0x00000000, 0x6ed9eba1) == 0x1a37b0ca
    ensures Turned(0x1a37b0ca, F2(0xfd9e1d7d, 0x77192407, 0x20aa99ca), 0xd3a49608, 0x00000060, 0x6ed9eba1) == 0x33a23bfc
    ensures Turned(0x33a23bfc, F2(0x1a37b0ca, 0x7f67875f, 0x77192407), 0x20aa99ca, 0x0b131c03, 0x6ed9eba1) == 0x21283486
    ensures Turned(0x21283486, F2(0x33a23bfc, 0x868dec32, 0x7f67875f), 0x77192407, 0x00000030, 0x6ed9eba1) == 0xd541f12d
    ensures Turned(0xd541f12d, F2(0x21283486, 0x0ce88eff, 0x868dec32), 0x7f67875f, 0x85898ec1, 0x6ed9eba1) == 0xc7567dc6
    ensures Turned(0xc7567dc6, F2(0xd541f12d, 0x884a0d21, 0x0ce88eff), 0x868dec32, 0x16263806, 0x6ed9eba1) == 0x48413ba4
    ensures Turned(0x48413ba4, F2(0xc7567dc6, 0x75507c4b, 0x884a0d21), 0x0ce88eff, 0x00000000, 0x6ed9eba1) == 0xbe35fbd5
    ensures Turned(0xbe35fbd5, F2(0x48413ba4, 0xb1d59f71, 0x75507c4b), 0x884a0d21, 0x00000180, 0x6ed9eba1) == 0x4aa84d97
    ensures Turned(0x4aa84d97, F2(0xbe35fbd5, 0x12104ee9, 0xb1d59f71), 0x75507c4b, 0x2c4c700c, 0x6ed9eba1) == 0x8370b52e
    ensures Turned(0x8370b52e, F2(0x4aa84d97, 0x6f8d7ef5, 0x12104ee9), 0xb1d59f71, 0x000000f0, 0x6ed9eba1) == 0xc5fbaf5d
    ensures Rotate30(0xdc64901d) == 0x77192407
    ensures Rotate30(0xfd9e1d7d) == 0x7f67875f
    ensures Rotate30(0x1a37b0ca) == 0x868dec32
    ensures Rotate30(0x33a23bfc) == 0x0ce88eff
    ensures Rotate30(0x21283486) == 0x884a0d21
    ensures Rotate30(0xd541f12d) == 0x75507c4b
    ensures Rotate30(0xc7567dc6) == 0xb1d59f71
    ensures Rotate30(0x48413ba4) == 0x12104ee9
    ensures Rotate30(0xbe35fbd5) == 0x6f8d7ef5
    ensures Rotate30(0x4aa84d97) == 0xd2aa1365
  {
  }

  lemma Sha1Abc3()
    ensures |BIG| == 64
    ensures Sha1Steps(SHA1_INIT, BIG, 0, 30) == Sha1State(0xc5fbaf5d, 0x8370b52e, 0xd2aa1365, 0x6f8d7ef5, 0x12104ee9)
  {
    hide Schedule, Sha1Steps, Turned, F1, F2, F3, Sha1Mix, Sha1Constant, Rotate30;
    Sha1Abc2();
    Sha1Words1();
    Sha1Rows2();
    Sha1Sums3();
    Sha1Five(SHA1_INIT, BIG, 0, 20);
    Sha1Five(SHA1_INIT, BIG, 0, 25);
  }

  lemma Sha1Sums4()
    ensures Turned(0xc5fbaf5d, F2(0x8370b52e, 0xd2aa1365, 0x6f8d7ef5), 0x12104ee9, 0x93afb507, 0x6ed9eba1) == 0x1267b407
    ensures Turned(0x1267b407, F2(0xc5fbaf5d, 0xa0dc2d4b, 0xd2aa1365), 0x6f8d7ef5, 0x5898e048, 0x6ed9eba1) == 0x3b845d33
    ensures Turned(0x3b845d33, F2(0x1267b407, 0x717eebd7, 0xa0dc2d4b), 0xd2aa1365, 0x8e9a9202, 0x6ed9eba1) == 0x046faa0a
    ensures Turned(0x046faa0a, F2(0x3b845d33, 0xc499ed01, 0x717eebd7), 0xa0dc2d4b, 0x00000600, 0x6ed9eba1) == 0x2c0ebc11
    ensures Turned(0x2c0ebc11, F2(0x046faa0a, 0xcee1174c, 0xc499ed01), 0x717eebd7, 0xb131c0f0, 0x6ed9eba1) == 0x21796ad4
    ensures Turned(0x21796ad4, F2(0x2c0ebc11, 0x811bea82, 0xcee1174c), 0xc499ed01, 0x16263bc6, 0x6ed9eba1) == 0xdcbbb0cb
    ensures Turned(0xdcbbb0cb, F2(0x21796ad4, 0x4b03af04, 0x811bea82), 0xcee1174c, 0x4ebed41e, 0x6ed9eba1) == 0x0f511fd8
    ensures Turned(0x0f511fd8, F2(0xdcbbb0cb, 0x085e5ab5, 0x4b03af04), 0x811bea82, 0x626380a1, 0x6ed9eba1) == 0xdc63973f
    ensures Turned(0xdc63973f, F2(0x0f511fd8, 0xf72eec32, 0x085e5ab5), 0x4b03af04, 0x16263806, 0x6ed9eba1) == 0x4c986405
    ensures Turned(0x4c986405, F2(0xdc63973f, 0x03d447f6, 0xf72eec32), 0x085e5ab5, 0x000018c0, 0x6ed9eba1) == 0x32de1cba
    ensures Rotate30(0x8370b52e) == 0xa0dc2d4b
    ensures Rotate30(0xc5fbaf5d) == 0x717eebd7
    ensures Rotate30(0x1267b407) == 0xc499ed01
    ensures Rotate30(0x3b845d33) == 0xcee1174c
    ensures Rotate30(0x046faa0a) == 0x811bea82
    ensures Rotate30(0x2c0ebc11) == 0x4b03af04
    ensures Rotate30(0x21796ad4) == 0x085e5ab5
    ensures Rotate30(0xdcbbb0cb) == 0xf72eec32
    ensures Rotate30(0x0f511fd8) == 0x03d447f6
    ensures Rotate30(0xdc63973f) == 0xf718e5cf
  {
  }

  lemma Sha1Abc4()
    ensures |BIG| == 64
    ensures Sha1Steps(SHA1_INIT, BIG, 0, 40) == Sha1State(0x32de1cba, 0x4c986405, 0xf718e5cf, 0x03d447f6, 0xf72eec32)
  {
    hide Schedule, Sha1Steps, Turned, F1, F2, F3, Sha1Mix, Sha1Constant, Rotate30;
    Sha1Abc3();
    Sha1Words1();
    Sha1Words2();
    Sha1Rows2();
    Sha1Sums4();
    Sha1Five(SHA1_INIT, BIG, 0, 30);
    Sha1Five(SHA1_INIT, BIG, 0, 35);
  }

  lemma Sha1Sums5()
    ensures Turned(0x32de1cba, F3(0x4c986405, 0xf718e5cf, 0x03d447f6), 0xf72eec32, 0xd2e138c4, 0x8f1bbcdc) == 0xfc87dedf
    ensures Turned(0xfc87dedf, F3(0x32de1cba, 0x53261901, 0xf718e5cf), 0x03d447f6, 0x00000f00, 0x8f1bbcdc) == 0x970a0d5c
    ensures Turned(0x970a0d5c, F3(0xfc87dedf, 0x8cb7872e, 0x53261901), 0xf718e5cf, 0x3afb5079, 0x8f1bbcdc) == 0x7f193dc5
    ensures Turned(0x7f193dc5, F3(0x970a0d5c, 0xff21f7b7, 0x8cb7872e), 0x53261901, 0x898e04e5, 0x8f1bbcdc) == 0xee1b1aaf
    ensures Turned(0xee1b1aaf, F3(0x7f193dc5, 0x25c28357, 0xff21f7b7), 0x8cb7872e, 0xe2ba3c2b, 0x8f1bbcdc) == 0x40f28e09
    ensures Turned(0x40f28e09, F3(0xee1b1aaf, 0x5fc64f71, 0x25c28357), 0xff21f7b7, 0x000060c0, 0x8f1bbcdc) == 0x1c51e1f2
    ensures Turned(0x1c51e1f2, F3(0x40f28e09, 0xfb86c6ab, 0x5fc64f71), 0x25c28357, 0x053a37cd, 0x8f1bbcdc) == 0xa01b846c
    ensures Turned(0xa01b846c, F3(0x1c51e1f2, 0x503ca382, 0xfb86c6ab), 0x5fc64f71, 0x74458547, 0x8f1bbcdc) == 0xbead02ca
    ensures Turned(0xbead02ca, F3(0xa01b846c, 0x8714787c, 0x503ca382), 0xfb86c6ab, 0xda9415ed, 0x8f1bbcdc) == 0xbaf39337
    ensures Turned(0xbaf39337, F3(0xbead02ca, 0x2806e11b, 0x8714787c), 0x503ca382, 0x26380a16, 0x8f1bbcdc) == 0x120731c5
    ensures Rotate30(0x4c986405) == 0x53261901
    ensures Rotate30(0x32de1cba) == 0x8cb7872e
    ensures Rotate30(0xfc87dedf) == 0xff21f7b7
    ensures Rotate30(0x970a0d5c) == 0x25c28357
    ensures Rotate30(0x7f193dc5) == 0x5fc64f71
    ensures Rotate30(0xee1b1aaf) == 0xfb86c6ab
    ensures Rotate30(0x40f28e09) == 0x503ca382
    ensures Rotate30(0x1c51e1f2) == 0x8714787c
    ensures Rotate30(0xa01b846c) == 0x2806e11b
    ensures Rotate30(0xbead02ca) == 0xafab40b2
  {
  }

  lemma Sha1Abc5()
    ensures |BIG| == 64
    ensures Sha1Steps(SHA1_INIT, BIG, 0, 50) == Sha1State(0x120731c5, 0xbaf39337, 0xafab40b2, 0x2806e11b, 0x8714787c)
  {
    hide Schedule, Sha1Steps, Turned, F1, F2, F3, Sha1Mix, Sha1Constant, Rotate30;
    Sha1Abc4();
    Sha1Words2();
    Sha1Words3();
    Sha1Rows3();
    Sha1Sums5();
    Sha1Five(SHA1_INIT, BIG, 0, 40);
    Sha1Five(SHA1_INIT, BIG, 0, 45);
  }

  lemma Sha1Sums6()
    ensures Turned(0x120731c5, F3(0xbaf39337, 0xafab40b2, 0x2806e11b), 0x8714787c, 0x626383a1, 0x8f1bbcdc) == 0x641db2ce
    ensures Turned(0x641db2ce, F3(0x120731c5, 0xeebce4cd, 0xafab40b2), 0x2806e11b, 0x4ebf54de, 0x8f1bbcdc) == 0x3847ad66
    ensures Turned(0x3847ad66, F3(0x641db2ce, 0x4481cc71, 0xeebce4cd), 0xafab40b2, 0x3835b44b, 0x8f1bbcdc) == 0xe490436d
    ensures Turned(0xe490436d, F3(0x3847ad66, 0x99076cb3, 0x4481cc71), 0xeebce4cd, 0x0000f600, 0x8f1bbcdc) == 0x27e9f1d8
    ensures Turned(0x27e9f1d8, F3(0xe490436d, 0x8e11eb59, 0x99076cb3), 0x4481cc71, 0x1e84c7a3, 0x8f1bbcdc) == 0x7b71f76d
    ensures Turned(0x7b71f76d, F3(0x27e9f1d8, 0x792410db, 0x8e11eb59), 0x99076cb3, 0x98e04d98, 0x8f1bbcdc) == 0x5e6456af
    ensures Turned(0x5e6456af, F3(0x7b71f76d, 0x09fa7c76, 0x792410db), 0x8e11eb59, 0x651d16a0, 0x8f1bbcdc) == 0xc846093f
    ensures Turned(0xc846093f, F3(0x5e6456af, 0x5edc7ddb, 0x09fa7c76), 0x792410db, 0x62658ca1, 0x8f1bbcdc) == 0xd262ff50
    ensures Turned(0xd262ff50, F3(0xc846093f, 0xd79915ab, 0x5edc7ddb), 0x09fa7c76, 0x458544d6, 0x8f1bbcdc) == 0x09d785fd
    ensures Turned(0x09d785fd, F3(0xd262ff50, 0xf211824f, 0xd79915ab), 0x5edc7ddb, 0x44584cb7, 0x8f1bbcdc) == 0x3f52de5a
    ensures Rotate30(0xbaf39337) == 0xeebce4cd
    ensures Rotate30(0x120731c5) == 0x4481cc71
    ensures Rotate30(0x641db2ce) == 0x99076cb3
    ensures Rotate30(0x3847ad66) == 0x8e11eb59
    ensures Rotate30(0xe490436d) == 0x792410db
    ensures Rotate30(0x27e9f1d8) == 0x09fa7c76
    ensures Rotate30(0x7b71f76d) == 0x5edc7ddb
    ensures Rotate30(0x5e6456af) == 0xd79915ab
    ensures Rotate30(0xc846093f) == 0xf211824f
    ensures Rotate30(0xd262ff50) == 0x3498bfd4
  {
  }

  lemma Sha1Abc6()
    ensures |BIG| == 64
    ensures Sha1Steps(SHA1_INIT, BIG, 0, 60) == Sha1State(0x3f52de5a, 0x09d785fd, 0x3498bfd4, 0xf211824f, 0xd79915ab)
  {
    hide Schedule, Sha1Steps, Turned, F1, F2, F3, Sha1Mix, Sha1Constant, Rotate30;
    Sha1Abc5();
    Sha1Words3();
    Sha1Rows3();
    Sha1Sums6();
    Sha1Five(SHA1_INIT, BIG, 0, 50);
    Sha1Five(SHA1_INIT, BIG, 0, 55);
  }

  lemma Sha1Sums7()
    ensures Turned(0x3f52de5a, F2(0x09d785fd, 0x3498bfd4, 0xf211824f), 0xd79915ab, 0x7ba06619, 0xca62c1d6) == 0xd756c147
    ensures Turned(0xd756c147, F2(0x3f52de5a, 0x4275e17f, 0x3498bfd4), 0xf211824f, 0x6380aea2, 0xca62c1d6) == 0x548c9cb2
    ensures Turned(0x548c9cb2, F2(0xd756c147, 0x8fd4b796, 0x4275e17f), 0x3498bfd4, 0x0ae55269, 0xca62c1d6) == 0xb66c020b
    ensures Turned(0xb66c020b, F2(0x548c9cb2, 0xf5d5b051, 0x8fd4b796), 0x4275e17f, 0x627b49a1, 0xca62c1d6) == 0x6b61c9e1
    ensures Turned(0x6b61c9e1, F2(0xb66c020b, 0x9523272c, 0xf5d5b051), 0x8fd4b796, 0x7cd45c9d, 0xca62c1d6) == 0x19dfa7ac
    ensures Turned(0x19dfa7ac, F2(0x6b61c9e1, 0xed9b0082, 0x9523272c), 0xf5d5b051, 0x000f0000, 0xca62c1d6) == 0x101655f9
    ensures Turned(0x101655f9, F2(0x19dfa7ac, 0x5ad87278, 0xed9b0082), 0x9523272c, 0xfb50753a, 0xca62c1d6) == 0x0c3df2b4
    ensures Turned(0x0c3df2b4, F2(0x101655f9, 0x0677e9eb, 0x5ad87278), 0xed9b0082, 0xec6765e8, 0xca62c1d6) == 0x78dd4d2b
    ensures Turned(0x78dd4d2b, F2(0x0c3df2b4, 0x4405957e, 0x0677e9eb), 0x5ad87278, 0xba3c2be2, 0xca62c1d6) == 0x497093c0
    ensures Turned(0x497093c0, F2(0x78dd4d2b, 0x030f7cad, 0x4405957e), 0x0677e9eb, 0x0060c000, 0xca62c1d6) == 0x3f2588c2
    ensures Rotate30(0x09d785fd) == 0x4275e17f
    ensures Rotate30(0x3f52de5a) == 0x8fd4b796
    ensures Rotate30(0xd756c147) == 0xf5d5b051
    ensures Rotate30(0x548c9cb2) == 0x9523272c
    ensures Rotate30(0xb66c020b) == 0xed9b0082
    ensures Rotate30(0x6b61c9e1) == 0x5ad87278
    ensures Rotate30(0x19dfa7ac) == 0x0677e9eb
    ensures Rotate30(0x101655f9) == 0x4405957e
    ensures Rotate30(0x0c3df2b4) == 0x030f7cad
    ensures Rotate30(0x78dd4d2b) == 0xde37534a
  {
  }

  lemma Sha1Abc7()
    ensures |BIG| == 64
    ensures Sha1Steps(SHA1_INIT, BIG, 0, 70) == Sha1State(0x3f2588c2, 0x497093c0, 0xde37534a, 0x030f7cad, 0x4405957e)
  {
    hide Schedule, Sha1Steps, Turned, F1, F2, F3, Sha1Mix, Sha1Constant, Rotate30;
    Sha1Abc6();
    Sha1Words3();
    Sha1Words4();
    Sha1Rows4();
    Sha1Sums7();
    Sha1Five(SHA1_INIT, BIG, 0, 60);
    Sha1Five(SHA1_INIT, BIG, 0, 65);
  }

  lemma Sha1Sums8()
    ensures Turned(0x3f2588c2, F2(0x497093c0, 0xde37534a, 0x030f7cad), 0x4405957e, 0x3a37cd05, 0xca62c1d6) == 0xc199f8c7
    ensures Turned(0xc199f8c7, F2(0x3f2588c2, 0x125c24f0, 0xde37534a), 0x030f7cad, 0x458546f4, 0xca62c1d6) == 0x39859de7
    ensures Turned(0x39859de7, F2(0xc199f8c7, 0x8fc96230, 0x125c24f0), 0xde37534a, 0xb8599dd6, 0xca62c1d6) == 0xedb42de4
    ensures Turned(0xedb42de4, F2(0x39859de7, 0xf0667e31, 0x8fc96230), 0x125c24f0, 0x380a1a26, 0xca62c1d6) == 0x11793f6f
    ensures Turned(0x11793f6f, F2(0xedb42de4, 0xce616779, 0xf0667e31), 0x8fc96230, 0x01e02203, 0xca62c1d6) == 0x5ee76897
    ensures Turned(0x5ee76897, F2(0x11793f6f, 0x3b6d0b79, 0xce616779), 0xf0667e31, 0xe7cc3456, 0xca62c1d6) == 0x63f7dab7
    ensures Turned(0x63f7dab7, F2(0x5ee76897, 0xc45e4fdb, 0x3b6d0b79), 0xce616779, 0xe6e60b69, 0xca62c1d6) == 0xa079b7d9
    ensures Turned(0xa079b7d9, F2(0x63f7dab7, 0xd7b9da25, 0xc45e4fdb), 0x3b6d0b79, 0x00f60a00, 0xca62c1d6) == 0x860d21cc
    ensures Turned(0x860d21cc, F2(0xa079b7d9, 0xd8fdf6ad, 0xd7b9da25), 0xc45e4fdb, 0x5795ef4f, 0xca62c1d6) == 0x5738d5e1
    ensures Turned(0x5738d5e1, F2(0x860d21cc, 0x681e6df6, 0xd8fdf6ad), 0xd7b9da25, 0x822e0879, 0xca62c1d6) == 0x42541b35
    ensures Rotate30(0x497093c0) == 0x125c24f0
    ensures Rotate30(0x3f2588c2) == 0x8fc96230
    ensures Rotate30(0xc199f8c7) == 0xf0667e31
    ensures Rotate30(0x39859de7) == 0xce616779
    ensures Rotate30(0xedb42de4) == 0x3b6d0b79
    ensures Rotate30(0x11793f6f) == 0xc45e4fdb
    ensures Rotate30(0x5ee76897) == 0xd7b9da25
    ensures Rotate30(0x63f7dab7) == 0xd8fdf6ad
    ensures Rotate30(0xa079b7d9) == 0x681e6df6
    ensures Rotate30(0x860d21cc) == 0x21834873
  {
  }

  lemma Sha1Abc8()
    ensures |BIG| == 64
    ensures Sha1Steps(SHA1_INIT, BIG, 0, 80) == Sha1State(0x42541b35, 0x5738d5e1, 0x21834873, 0x681e6df6, 0xd8fdf6ad)
  {
    hide Schedule, Sha1Steps, Turned, F1, F2, F3, Sha1Mix, Sha1Constant, Rotate30;
    Sha1Abc7();
    Sha1Words4();
    Sha1Rows4();
    Sha1Sums8();
    Sha1Five(SHA1_INIT, BIG, 0, 70);
    Sha1Five(SHA1_INIT, BIG, 0, 75);
  }

  lemma Sha1Begins()
    ensures |BIG| == 64 && Sha1Steps(SHA1_INIT, BIG, 0, 0) == SHA1_INIT
  {
  }

  /** SHA-1 of "abc": a9993e364706816aba3e25717850c26c9cd0d89d. */
  lemma Sha1OfAbc()
    ensures Fold(Sha1Compress, SHA1_INIT, Padded(ABC, true))
         == Sha1State(0xa9993e36, 0x4706816a, 0xba3e2571, 0x7850c26c, 0x9cd0d89d)
  {
    hide Sha1Steps;
    PaddedAbc();
    Sha1Abc8();
    FoldOne(Sha1Compress, SHA1_INIT, BIG);
  }
}
