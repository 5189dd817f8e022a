/** The digest of "abc" in section A.5 of RFC 1321, computed operation by operation from the definition. */
module Md5Sample {
  import opened Words
  import opened Md5Spec
  import opened Streaming = Md5

  /** The one block of the padded message, as words. */
  function Abc(): seq<Reg> {
    [Reg(0x80636261), Reg(0x00000000), Reg(0x00000000), Reg(0x00000000),
     Reg(0x00000000), Reg(0x00000000), Reg(0x00000000), Reg(0x00000000),
     Reg(0x00000000), Reg(0x00000000), Reg(0x00000000), Reg(0x00000000),
     Reg(0x00000000), Reg(0x00000000), Reg(0x00000018), Reg(0x00000000)]
  }

  lemma Values0()
    ensures FF(Reg(0x67452301), Reg(0xefcdab89), Reg(0x98badcfe), Reg(0x10325476), Reg(0x80636261), 7, 0xd76aa478) == Reg(0xd6d117b4)
    ensures FF(Reg(0x10325476), Reg(0xd6d117b4), Reg(0xefcdab89), Reg(0x98badcfe), Reg(0x00000000), 12, 0xe8c7b756) == Reg(0x344a8432)
    ensures FF(Reg(0x98badcfe), Reg(0x344a8432), Reg(0xd6d117b4), Reg(0xefcdab89), Reg(0x00000000), 17, 0x242070db) == Reg(0x2f6fbd72)
    ensures FF(Reg(0xefcdab89), Reg(0x2f6fbd72), Reg(0x344a8432), Reg(0xd6d117b4), Reg(0x00000000), 22, 0xc1bdceee) == Reg(0x7ad956f2)
  {
  }

  lemma Values4()
    ensures FF(Reg(0xd6d117b4), Reg(0x7ad956f2), Reg(0x2f6fbd72), Reg(0x344a8432), Reg(0x00000000), 7, 0xf57c0faf) == Reg(0xc73741ef)
    ensures FF(Reg(0x344a8432), Reg(0xc73741ef), Reg(0x7ad956f2), Reg(0x2f6fbd72), Reg(0x00000000), 12, 0x4787c62a) == Reg(0x8bac3051)
    ensures FF(Reg(0x2f6fbd72), Reg(0x8bac3051), Reg(0xc73741ef), Reg(0x7ad956f2), Reg(0x00000000), 17, 0xa8304613) == Reg(0x207dc67b)
    ensures FF(Reg(0x7ad956f2), Reg(0x207dc67b), Reg(0x8bac3051), Reg(0xc73741ef), Reg(0x00000000), 22, 0xfd469501) == Reg(0x928d99f6)
  {
  }

  lemma Values8()
    ensures FF(Reg(0xc73741ef), Reg(0x928d99f6), Reg(0x207dc67b), Reg(0x8bac3051), Reg(0x00000000), 7, 0x698098d8) == Reg(0x854b3712)
    ensures FF(Reg(0x8bac3051), Reg(0x854b3712), Reg(0x928d99f6), Reg(0x207dc67b), Reg(0x00000000), 12, 0x8b44f7af) == Reg(0x74e2f284)
    ensures FF(Reg(0x207dc67b), Reg(0x74e2f284), Reg(0x854b3712), Reg(0x928d99f6), Reg(0x00000000), 17, 0xffff5bb1) == Reg(0x3020401c)
    ensures FF(Reg(0x928d99f6), Reg(0x3020401c), Reg(0x74e2f284), Reg(0x854b3712), Reg(0x00000000), 22, 0x895cd7be) == Reg(0x5ed49596)
  {
  }

  lemma Values12()
    ensures FF(Reg(0x854b3712), Reg(0x5ed49596), Reg(0x3020401c), Reg(0x74e2f284), Reg(0x00000000), 7, 0x6b901122) == Reg(0xdda9b9a6)
    ensures FF(Reg(0x74e2f284), Reg(0xdda9b9a6), Reg(0x5ed49596), Reg(0x3020401c), Reg(0x00000000), 12, 0xfd987193) == Reg(0xa1051895)
    ensures FF(Reg(0x3020401c), Reg(0xa1051895), Reg(0xdda9b9a6), Reg(0x5ed49596), Reg(0x00000018), 17, 0xa679438e) == Reg(0xe396856b)
    ensures FF(Reg(0x5ed49596), Reg(0xe396856b), Reg(0xa1051895), Reg(0xdda9b9a6), Reg(0x00000000), 22, 0x49b40821) == Reg(0x72aff2e0)
  {
  }

  lemma Values16()
    ensures GG(Reg(0xdda9b9a6), Reg(0x72aff2e0), Reg(0xe396856b), Reg(0xa1051895), Reg(0x00000000), 5, 0xf61e2562) == Reg(0x3e9e9126)
    ensures GG(Reg(0xa1051895), Reg(0x3e9e9126), Reg(0x72aff2e0), Reg(0xe396856b), Reg(0x00000000), 9, 0xc040b340) == Reg(0x4a1d804e)
    ensures GG(Reg(0xe396856b), Reg(0x4a1d804e), Reg(0x3e9e9126), Reg(0x72aff2e0), Reg(0x00000000), 14, 0x265e5a51) == Reg(0xe25e1652)
    ensures GG(Reg(0x72aff2e0), Reg(0xe25e1652), Reg(0x4a1d804e), Reg(0x3e9e9126), Reg(0x80636261), 20, 0xe9b6c7aa) == Reg(0xb5b204e4)
  {
  }

  lemma Values20()
    ensures GG(Reg(0x3e9e9126), Reg(0xb5b204e4), Reg(0xe25e1652), Reg(0x4a1d804e), Reg(0x00000000), 5, 0xd62f105d) == Reg(0x59a8ffda)
    ensures GG(Reg(0x4a1d804e), Reg(0x59a8ffda), Reg(0xb5b204e4), Reg(0xe25e1652), Reg(0x00000000), 9, 0x02441453) == Reg(0x6d002f1e)
    ensures GG(Reg(0xe25e1652), Reg(0x6d002f1e), Reg(0x59a8ffda), Reg(0xb5b204e4), Reg(0x00000000), 14, 0xd8a1e681) == Reg(0xabfc7920)
    ensures GG(Reg(0xb5b204e4), Reg(0xabfc7920), Reg(0x6d002f1e), Reg(0x59a8ffda), Reg(0x00000000), 20, 0xe7d3fbc8) == Reg(0x47092c07)
  {
  }

  lemma Values24()
    ensures GG(Reg(0x59a8ffda), Reg(0x47092c07), Reg(0xabfc7920), Reg(0x6d002f1e), Reg(0x00000000), 5, 0x21e1cde6) == Reg(0xb7f268cf)
    ensures GG(Reg(0x6d002f1e), Reg(0xb7f268cf), Reg(0x47092c07), Reg(0xabfc7920), Reg(0x00000018), 9, 0xc33707d6) == Reg(0x09388eff)
    ensures GG(Reg(0xabfc7920), Reg(0x09388eff), Reg(0xb7f268cf), Reg(0x47092c07), Reg(0x00000000), 14, 0xf4d50d87) == Reg(0xfe1623b1)
    ensures GG(Reg(0x47092c07), Reg(0xfe1623b1), Reg(0x09388eff), Reg(0xb7f268cf), Reg(0x00000000), 20, 0x455a14ed) == Reg(0x786acb8f)
  {
  }

  lemma Values28()
    ensures GG(Reg(0xb7f268cf), Reg(0x786acb8f), Reg(0xfe1623b1), Reg(0x09388eff), Reg(0x00000000), 5, 0xa9e3e905) == Reg(0x790a77fb)
    ensures GG(Reg(0x09388eff), Reg(0x790a77fb), Reg(0x786acb8f), Reg(0xfe1623b1), Reg(0x00000000), 9, 0xfcefa3f8) == Reg(0x9f47e4f8)
    ensures GG(Reg(0xfe1623b1), Reg(0x9f47e4f8), Reg(0x790a77fb), Reg(0x786acb8f), Reg(0x00000000), 14, 0x676f02d9) == Reg(0xa62884aa)
    ensures GG(Reg(0x786acb8f), Reg(0xa62884aa), Reg(0x9f47e4f8), Reg(0x790a77fb), Reg(0x00000000), 20, 0x8d2a4c8a) == Reg(0x726342d3)
  {
  }

  lemma Values32()
    ensures HH(Reg(0x790a77fb), Reg(0x726342d3), Reg(0xa62884aa), Reg(0x9f47e4f8), Reg(0x00000000), 4, 0xfffa3942) == Reg(0xb3707ebf)
    ensures HH(Reg(0x9f47e4f8), Reg(0xb3707ebf), Reg(0x726342d3), Reg(0xa62884aa), Reg(0x00000000), 11, 0x8771f681) == Reg(0x60127b2e)
    ensures HH(Reg(0xa62884aa), Reg(0x60127b2e), Reg(0xb3707ebf), Reg(0x726342d3), Reg(0x00000000), 16, 0x6d9d6122) == Reg(0x8d212ff5)
    ensures HH(Reg(0x726342d3), Reg(0x8d212ff5), Reg(0x60127b2e), Reg(0xb3707ebf), Reg(0x00000018), 23, 0xfde5380c) == Reg(0x3b0875c7)
  {
  }

  lemma Values36()
    ensures HH(Reg(0xb3707ebf), Reg(0x3b0875c7), Reg(0x8d212ff5), Reg(0x60127b2e), Reg(0x00000000), 4, 0xa4beea44) == Reg(0x21b117b9)
    ensures HH(Reg(0x60127b2e), Reg(0x21b117b9), Reg(0x3b0875c7), Reg(0x8d212ff5), Reg(0x00000000), 11, 0x4bdecfa9) == Reg(0x6e7429d5)
    ensures HH(Reg(0x8d212ff5), Reg(0x6e7429d5), Reg(0x21b117b9), Reg(0x3b0875c7), Reg(0x00000000), 16, 0xf6bb4b60) == Reg(0x3575227e)
    ensures HH(Reg(0x3b0875c7), Reg(0x3575227e), Reg(0x6e7429d5), Reg(0x21b117b9), Reg(0x00000000), 23, 0xbebfbc70) == Reg(0x5a2f5ea5)
  {
  }

  lemma Values40()
    ensures HH(Reg(0x21b117b9), Reg(0x5a2f5ea5), Reg(0x3575227e), Reg(0x6e7429d5), Reg(0x00000000), 4, 0x289b7ec6) == Reg(0x11de1779)
    ensures HH(Reg(0x6e7429d5), Reg(0x11de1779), Reg(0x5a2f5ea5), Reg(0x3575227e), Reg(0x80636261), 11, 0xeaa127fa) == Reg(0xfadcaa38)
    ensures HH(Reg(0x3575227e), Reg(0xfadcaa38), Reg(0x11de1779), Reg(0x5a2f5ea5), Reg(0x00000000), 16, 0xd4ef3085) == Reg(0x31c465ca)
    ensures HH(Reg(0x5a2f5ea5), Reg(0x31c465ca), Reg(0xfadcaa38), Reg(0x11de1779), Reg(0x00000000), 23, 0x04881d05) == Reg(0x4c6124f4)
  {
  }

  lemma Values44()
    ensures HH(Reg(0x11de1779), Reg(0x4c6124f4), Reg(0x31c465ca), Reg(0xfadcaa38), Reg(0x00000000), 4, 0xd9d4d039) == Reg(0x7f2e507b)
    ensures HH(Reg(0xfadcaa38), Reg(0x7f2e507b), Reg(0x4c6124f4), Reg(0x31c465ca), Reg(0x00000000), 11, 0xe6db99e5) == Reg(0x99d9679d)
    ensures HH(Reg(0x31c465ca), Reg(0x99d9679d), Reg(0x7f2e507b), Reg(0x4c6124f4), Reg(0x00000000), 16, 0x1fa27cf8) == Reg(0x8fae6399)
    ensures HH(Reg(0x4c6124f4), Reg(0x8fae6399), Reg(0x99d9679d), Reg(0x7f2e507b), Reg(0x00000000), 23, 0xc4ac5665) == Reg(0x7beb9700)
  {
  }

  lemma Values48()
    ensures II(Reg(0x7f2e507b), Reg(0x7beb9700), Reg(0x8fae6399), Reg(0x99d9679d), Reg(0x80636261), 6, 0xf4292244) == Reg(0x7b201df8)
    ensures II(Reg(0x99d9679d), Reg(0x7b201df8), Reg(0x7beb9700), Reg(0x8fae6399), Reg(0x00000000), 10, 0x432aff97) == Reg(0xf4e8e96e)
    ensures II(Reg(0x8fae6399), Reg(0xf4e8e96e), Reg(0x7b201df8), Reg(0x7beb9700), Reg(0x00000018), 15, 0xab9423a7) == Reg(0xb298cefd)
    ensures II(Reg(0x7beb9700), Reg(0xb298cefd), Reg(0xf4e8e96e), Reg(0x7b201df8), Reg(0x00000000), 21, 0xfc93a039) == Reg(0x8bf025c4)
  {
  }

  lemma Values52()
    ensures II(Reg(0x7b201df8), Reg(0x8bf025c4), Reg(0xb298cefd), Reg(0xf4e8e96e), Reg(0x00000000), 6, 0x655b59c3) == Reg(0x06cc5e8a)
    ensures II(Reg(0xf4e8e96e), Reg(0x06cc5e8a), Reg(0x8bf025c4), Reg(0xb298cefd), Reg(0x00000000), 10, 0x8f0ccc92) == Reg(0x5b0d97aa)
    ensures II(Reg(0xb298cefd), Reg(0x5b0d97aa), Reg(0x06cc5e8a), Reg(0x8bf025c4), Reg(0x00000000), 15, 0xffeff47d) == Reg(0x7d632dd0)
    ensures II(Reg(0x8bf025c4), Reg(0x7d632dd0), Reg(0x5b0d97aa), Reg(0x06cc5e8a), Reg(0x00000000), 21, 0x85845dd1) == Reg(0x3bfa2c27)
  {
  }

  lemma Values56()
    ensures II(Reg(0x06cc5e8a), Reg(0x3bfa2c27), Reg(0x7d632dd0), Reg(0x5b0d97aa), Reg(0x00000000), 6, 0x6fa87e4f) == Reg(0x7f81cc35)
    ensures II(Reg(0x5b0d97aa), Reg(0x7f81cc35), Reg(0x3bfa2c27), Reg(0x7d632dd0), Reg(0x00000000), 10, 0xfe2ce6e0) == Reg(0x094454ab)
    ensures II(Reg(0x7d632dd0), Reg(0x094454ab), Reg(0x7f81cc35), Reg(0x3bfa2c27), Reg(0x00000000), 15, 0xa3014314) == Reg(0x4f9dbe3f)
    ensures II(Reg(0x3bfa2c27), Reg(0x4f9dbe3f), Reg(0x094454ab), Reg(0x7f81cc35), Reg(0x00000000), 21, 0x4e0811a1) == Reg(0x7327d604)
  {
  }

  lemma Values60()
    ensures II(Reg(0x7f81cc35), Reg(0x7327d604), Reg(0x4f9dbe3f), Reg(0x094454ab), Reg(0x00000000), 6, 0xf7537e82) == Reg(0x310ade8f)
    ensures II(Reg(0x094454ab), Reg(0x310ade8f), Reg(0x7327d604), Reg(0x4f9dbe3f), Reg(0x00000000), 10, 0xbd3af235) == Reg(0x624d8cb2)
    ensures II(Reg(0x4f9dbe3f), Reg(0x624d8cb2), Reg(0x310ade8f), Reg(0x7327d604), Reg(0x00000000), 15, 0x2ad7d2bb) == Reg(0xe484b9d8)
    ensures II(Reg(0x7327d604), Reg(0xe484b9d8), Reg(0x624d8cb2), Reg(0x310ade8f), Reg(0x00000000), 21, 0xeb86d391) == Reg(0xc08226b3)
  {
  }

  lemma After16()
    ensures Operations(16, Abc(), INITIAL) == Chain(Reg(0xdda9b9a6), Reg(0x72aff2e0), Reg(0xe396856b), Reg(0xa1051895))
  {
    hide FF, GG, HH, II, Operations, WordIndex, Shift, Sine;
    Table1();
    assert Operations(0, Abc(), INITIAL) == INITIAL by { Four(0, Abc(), INITIAL); }
    assert Operations(4, Abc(), INITIAL) == Chain(Reg(0xd6d117b4), Reg(0x7ad956f2), Reg(0x2f6fbd72), Reg(0x344a8432)) by { Four(0, Abc(), INITIAL); Values0(); }
    assert Operations(8, Abc(), INITIAL) == Chain(Reg(0xc73741ef), Reg(0x928d99f6), Reg(0x207dc67b), Reg(0x8bac3051)) by { Four(4, Abc(), INITIAL); Values4(); }
    assert Operations(12, Abc(), INITIAL) == Chain(Reg(0x854b3712), Reg(0x5ed49596), Reg(0x3020401c), Reg(0x74e2f284)) by { Four(8, Abc(), INITIAL); Values8(); }
    assert Operations(16, Abc(), INITIAL) == Chain(Reg(0xdda9b9a6), Reg(0x72aff2e0), Reg(0xe396856b), Reg(0xa1051895)) by { Four(12, Abc(), INITIAL); Values12(); }
  }

  lemma After32()
    ensures Operations(32, Abc(), INITIAL) == Chain(Reg(0x790a77fb), Reg(0x726342d3), Reg(0xa62884aa), Reg(0x9f47e4f8))
  {
    hide FF, GG, HH, II, Operations, WordIndex, Shift, Sine;
    Table2();
    After16();
    assert Operations(20, Abc(), INITIAL) == Chain(Reg(0x3e9e9126), Reg(0xb5b204e4), Reg(0xe25e1652), Reg(0x4a1d804e)) by { Four(16, Abc(), INITIAL); Values16(); }
    assert Operations(24, Abc(), INITIAL) == Chain(Reg(0x59a8ffda), Reg(0x47092c07), Reg(0xabfc7920), Reg(0x6d002f1e)) by { Four(20, Abc(), INITIAL); Values20(); }
    assert Operations(28, Abc(), INITIAL) == Chain(Reg(0xb7f268cf), Reg(0x786acb8f), Reg(0xfe1623b1), Reg(0x09388eff)) by { Four(24, Abc(), INITIAL); Values24(); }
    assert Operations(32, Abc(), INITIAL) == Chain(Reg(0x790a77fb), Reg(0x726342d3), Reg(0xa62884aa), Reg(0x9f47e4f8)) by { Four(28, Abc(), INITIAL); Values28(); }
  }

  lemma After48()
    ensures Operations(48, Abc(), INITIAL) == Chain(Reg(0x7f2e507b), Reg(0x7beb9700), Reg(0x8fae6399), Reg(0x99d9679d))
  {
    hide FF, GG, HH, II, Operations, WordIndex, Shift, Sine;
    Table3();
    After32();
    assert Operations(36, Abc(), INITIAL) == Chain(Reg(0xb3707ebf), Reg(0x3b0875c7), Reg(0x8d212ff5), Reg(0x60127b2e)) by { Four(32, Abc(), INITIAL); Values32(); }
    assert Operations(40, Abc(), INITIAL) == Chain(Reg(0x21b117b9), Reg(0x5a2f5ea5), Reg(0x3575227e), Reg(0x6e7429d5)) by { Four(36, Abc(), INITIAL); Values36(); }
    assert Operations(44, Abc(), INITIAL) == Chain(Reg(0x11de1779), Reg(0x4c6124f4), Reg(0x31c465ca), Reg(0xfadcaa38)) by { Four(40, Abc(), INITIAL); Values40(); }
    assert Operations(48, Abc(), INITIAL) == Chain(Reg(0x7f2e507b), Reg(0x7beb9700), Reg(0x8fae6399), Reg(0x99d9679d)) by { Four(44, Abc(), INITIAL); Values44(); }
  }

  lemma After64()
    ensures Operations(64, Abc(), INITIAL) == Chain(Reg(0x310ade8f), Reg(0xc08226b3), Reg(0xe484b9d8), Reg(0x624d8cb2))
  {
    hide FF, GG, HH, II, Operations, WordIndex, Shift, Sine;
    Table4();
    After48();
    assert Operations(52, Abc(), INITIAL) == Chain(Reg(0x7b201df8), Reg(0x8bf025c4), Reg(0xb298cefd), Reg(0xf4e8e96e)) by { Four(48, Abc(), INITIAL); Values48(); }
    assert Operations(56, Abc(), INITIAL) == Chain(Reg(0x06cc5e8a), Reg(0x3bfa2c27), Reg(0x7d632dd0), Reg(0x5b0d97aa)) by { Four(52, Abc(), INITIAL); Values52(); }
    assert Operations(60, Abc(), INITIAL) == Chain(Reg(0x7f81cc35), Reg(0x7327d604), Reg(0x4f9dbe3f), Reg(0x094454ab)) by { Four(56, Abc(), INITIAL); Values56(); }
    assert Operations(64, Abc(), INITIAL) == Chain(Reg(0x310ade8f), Reg(0xc08226b3), Reg(0xe484b9d8), Reg(0x624d8cb2)) by { Four(60, Abc(), INITIAL); Values60(); }
  }

  lemma Shifted(bytes: seq<byte>, j: nat)
    requires j + 8 <= |bytes|
    ensures bytes[4..][j..j + 4] == bytes[j + 4..j + 8]
  {
  }

  lemma {:induction false} WordAt(bytes: seq<byte>, k: nat)
    requires |bytes| % 4 == 0 && 4 * k < |bytes|
    ensures DecodeWords(bytes)[k] == Reg(DecodeWord(bytes[4 * k..4 * k + 4]))
  {
    hide DecodeWord;
    if k > 0 {
      WordAt(bytes[4..], k - 1);
      var j := 4 * (k - 1);
      Shifted(bytes, j);
    }
  }

  const ABC: seq<byte> := [0x61, 0x62, 0x63]

  lemma ShortWords()
    ensures EncodeWord(24) == [24, 0, 0, 0] && EncodeWord(0) == [0, 0, 0, 0]
  {
  }

  lemma ShortCount(low: u32, high: u32)
    requires low == 24 && high == 0
    ensures CountBytes(low, high) == EncodeWord(24) + EncodeWord(0)
  {
    hide EncodeWord;
  }

  lemma LengthOfAbc()
    ensures LengthBytes(3) == [24, 0, 0, 0, 0, 0, 0, 0]
  {
    hide EncodeWord, CountBytes;
    ShortWords();
    ShortCount(24, 0);
  }

  lemma PaddedAbc()
    ensures |Padded(ABC)| == 64
    ensures Padded(ABC)[..4] == [0x61, 0x62, 0x63, 0x80] && Padded(ABC)[56..60] == [24, 0, 0, 0]
    ensures forall k :: 4 <= k < 64 && !(56 <= k < 60) ==> Padded(ABC)[k] == 0
  {
    LengthOfAbc();
    hide LengthBytes;
    assert |Padding(3)| == 53;
  }

  lemma WordsOfAbc()
    ensures |Padded(ABC)| == 64 && DecodeWords(Padded(ABC)) == Abc()
  {
    PaddedAbc();
    var block := Padded(ABC);
    hide Padded;
    forall k | 0 <= k < 16
      ensures DecodeWords(block)[k] == Abc()[k]
    {
      WordAt(block, k);
      assert k != 0 && k != 14 ==> block[4 * k..4 * k + 4] == [0, 0, 0, 0];
    }
  }

  /** MD5 ("abc") = 900150983cd24fb0d6963f7d28e17f72. */
  lemma DigestOfAbc()
    ensures Md5(ABC) ==
      [0x90, 0x01, 0x50, 0x98, 0x3c, 0xd2, 0x4f, 0xb0, 0xd6, 0x96, 0x3f, 0x7d, 0x28, 0xe1, 0x7f, 0x72]
  {
    WordsOfAbc();
    After64();
    hide Operations, DecodeWords, Padded;
    var block := Padded(ABC);
    assert block[..64] == block && block[64..] == [];
    var end := Compress(INITIAL, block);
    assert end == Chain(Reg(0x98500190), Reg(0xb04fd23c), Reg(0x7d3f96d6), Reg(0x727fe128));
    assert Blocks(INITIAL, block) == Blocks(end, []) == end;
  }
}
