/** The streaming digest of common/md5.cpp, refined against the definition in Md5Spec. */
module Md5 {
  import opened Words
  import opened Md5Spec

  // -------------------------------------------------------------------------------------------
  // The unrolled compression
  // -------------------------------------------------------------------------------------------

  const S11 := 7    const S12 := 12   const S13 := 17   const S14 := 22
  const S21 := 5    const S22 := 9    const S23 := 14   const S24 := 20
  const S31 := 4    const S32 := 11   const S33 := 16   const S34 := 23
  const S41 := 6    const S42 := 10   const S43 := 15   const S44 := 21

  function FF(a: Reg, b: Reg, c: Reg, d: Reg, x: Reg, s: nat, ac: word): Reg
    requires s < 32
  {
    Turn(a, F(b, c, d), x, s, ac, b)
  }

  function GG(a: Reg, b: Reg, c: Reg, d: Reg, x: Reg, s: nat, ac: word): Reg
    requires s < 32
  {
    Turn(a, G(b, c, d), x, s, ac, b)
  }

  function HH(a: Reg, b: Reg, c: Reg, d: Reg, x: Reg, s: nat, ac: word): Reg
    requires s < 32
  {
    Turn(a, H(b, c, d), x, s, ac, b)
  }

  function II(a: Reg, b: Reg, c: Reg, d: Reg, x: Reg, s: nat, ac: word): Reg
    requires s < 32
  {
    Turn(a, I(b, c, d), x, s, ac, b)
  }

  /** Operation i takes word k of the block, this rotation and this constant. */
  predicate Entry(i: nat, k: nat, shift: nat, sine: word)
    requires i < 64
  {
    WordIndex(i) == k && Shift(i) == shift && Sine(i) == sine
  }

  /** The macro of the round that operation i is in. */
  function Macro(i: nat, a: Reg, b: Reg, c: Reg, d: Reg, x: Reg, s: nat, ac: word): Reg
    requires s < 32
  {
    if i < 16 then FF(a, b, c, d, x, s, ac)
    else if i < 32 then GG(a, b, c, d, x, s, ac)
    else if i < 48 then HH(a, b, c, d, x, s, ac)
    else II(a, b, c, d, x, s, ac)
  }

  lemma OneOperation(i: nat, x: seq<Reg>, s: Chain)
    requires i < 64 && |x| == 16
    ensures Operations(i + 1, x, s) ==
            var t := Operations(i, x, s);
            Chain(t.d, Macro(i, t.a, t.b, t.c, t.d, x[WordIndex(i)], Shift(i), Sine(i)), t.b, t.c)
  {
    hide Turn, Sine, Shift, WordIndex, F, G, H, I;
  }

  /** Four operations bring every register back to its own role. */
  lemma Four(n: nat, x: seq<Reg>, s: Chain)
    requires n + 4 <= 64 && |x| == 16
    ensures Operations(0, x, s) == s
    ensures var t := Operations(n, x, s);
            var a := Macro(n, t.a, t.b, t.c, t.d, x[WordIndex(n)], Shift(n), Sine(n));
            var d := Macro(n + 1, t.d, a, t.b, t.c, x[WordIndex(n + 1)], Shift(n + 1), Sine(n + 1));
            var c := Macro(n + 2, t.c, d, a, t.b, x[WordIndex(n + 2)], Shift(n + 2), Sine(n + 2));
            var b := Macro(n + 3, t.b, c, d, a, x[WordIndex(n + 3)], Shift(n + 3), Sine(n + 3));
            Operations(n + 4, x, s) == Chain(a, b, c, d)
  {
    hide Macro, Sine, Shift, WordIndex, Operation;
    OneOperation(n, x, s);
    OneOperation(n + 1, x, s);
    OneOperation(n + 2, x, s);
    OneOperation(n + 3, x, s);
  }

  lemma Sines1()
    ensures Sine(0) == 0xd76aa478
    ensures Sine(1) == 0xe8c7b756
    ensures Sine(2) == 0x242070db
    ensures Sine(3) == 0xc1bdceee
    ensures Sine(4) == 0xf57c0faf
    ensures Sine(5) == 0x4787c62a
    ensures Sine(6) == 0xa8304613
    ensures Sine(7) == 0xfd469501
    ensures Sine(8) == 0x698098d8
    ensures Sine(9) == 0x8b44f7af
    ensures Sine(10) == 0xffff5bb1
    ensures Sine(11) == 0x895cd7be
    ensures Sine(12) == 0x6b901122
    ensures Sine(13) == 0xfd987193
    ensures Sine(14) == 0xa679438e
    ensures Sine(15) == 0x49b40821
  {
  }

  lemma Table1()
    ensures Entry(0, 0, S11, 0xd76aa478)
    ensures Entry(1, 1, S12, 0xe8c7b756)
    ensures Entry(2, 2, S13, 0x242070db)
    ensures Entry(3, 3, S14, 0xc1bdceee)
    ensures Entry(4, 4, S11, 0xf57c0faf)
    ensures Entry(5, 5, S12, 0x4787c62a)
    ensures Entry(6, 6, S13, 0xa8304613)
    ensures Entry(7, 7, S14, 0xfd469501)
    ensures Entry(8, 8, S11, 0x698098d8)
    ensures Entry(9, 9, S12, 0x8b44f7af)
    ensures Entry(10, 10, S13, 0xffff5bb1)
    ensures Entry(11, 11, S14, 0x895cd7be)
    ensures Entry(12, 12, S11, 0x6b901122)
    ensures Entry(13, 13, S12, 0xfd987193)
    ensures Entry(14, 14, S13, 0xa679438e)
    ensures Entry(15, 15, S14, 0x49b40821)
  {
    Sines1();
    hide Sine;
  }

  /** Statements 1 to 16 of `transform`, the order of the operands rotating from one to the next. */
  method Round1(a0: Reg, b0: Reg, c0: Reg, d0: Reg, x: seq<Reg>, ghost start: Chain)
    returns (a: Reg, b: Reg, c: Reg, d: Reg)
    requires |x| == 16 && Chain(a0, b0, c0, d0) == Operations(0, x, start)
    ensures Chain(a, b, c, d) == Operations(16, x, start)
  {
    hide FF, GG, HH, II, Operations, WordIndex, Shift, Sine;
    Table1();
    a, b, c, d := a0, b0, c0, d0;
    a := FF(a, b, c, d, x[0], S11, 0xd76aa478);
    d := FF(d, a, b, c, x[1], S12, 0xe8c7b756);
    c := FF(c, d, a, b, x[2], S13, 0x242070db);
    b := FF(b, c, d, a, x[3], S14, 0xc1bdceee);
    assert Chain(a, b, c, d) == Operations(4, x, start) by { Four(0, x, start); }
    a := FF(a, b, c, d, x[4], S11, 0xf57c0faf);
    d := FF(d, a, b, c, x[5], S12, 0x4787c62a);
    c := FF(c, d, a, b, x[6], S13, 0xa8304613);
    b := FF(b, c, d, a, x[7], S14, 0xfd469501);
    assert Chain(a, b, c, d) == Operations(8, x, start) by { Four(4, x, start); }
    a := FF(a, b, c, d, x[8], S11, 0x698098d8);
    d := FF(d, a, b, c, x[9], S12, 0x8b44f7af);
    c := FF(c, d, a, b, x[10], S13, 0xffff5bb1);
    b := FF(b, c, d, a, x[11], S14, 0x895cd7be);
    assert Chain(a, b, c, d) == Operations(12, x, start) by { Four(8, x, start); }
    a := FF(a, b, c, d, x[12], S11, 0x6b901122);
    d := FF(d, a, b, c, x[13], S12, 0xfd987193);
    c := FF(c, d, a, b, x[14], S13, 0xa679438e);
    b := FF(b, c, d, a, x[15], S14, 0x49b40821);
    assert Chain(a, b, c, d) == Operations(16, x, start) by { Four(12, x, start); }
  }

  lemma Sines2()
    ensures Sine(16) == 0xf61e2562
    ensures Sine(17) == 0xc040b340
    ensures Sine(18) == 0x265e5a51
    ensures Sine(19) == 0xe9b6c7aa
    ensures Sine(20) == 0xd62f105d
    ensures Sine(21) == 0x02441453
    ensures Sine(22) == 0xd8a1e681
    ensures Sine(23) == 0xe7d3fbc8
    ensures Sine(24) == 0x21e1cde6
    ensures Sine(25) == 0xc33707d6
    ensures Sine(26) == 0xf4d50d87
    ensures Sine(27) == 0x455a14ed
    ensures Sine(28) == 0xa9e3e905
    ensures Sine(29) == 0xfcefa3f8
    ensures Sine(30) == 0x676f02d9
    ensures Sine(31) == 0x8d2a4c8a
  {
  }

  lemma Table2()
    ensures Entry(16, 1, S21, 0xf61e2562)
    ensures Entry(17, 6, S22, 0xc040b340)
    ensures Entry(18, 11, S23, 0x265e5a51)
    ensures Entry(19, 0, S24, 0xe9b6c7aa)
    ensures Entry(20, 5, S21, 0xd62f105d)
    ensures Entry(21, 10, S22, 0x02441453)
    ensures Entry(22, 15, S23, 0xd8a1e681)
    ensures Entry(23, 4, S24, 0xe7d3fbc8)
    ensures Entry(24, 9, S21, 0x21e1cde6)
    ensures Entry(25, 14, S22, 0xc33707d6)
    ensures Entry(26, 3, S23, 0xf4d50d87)
    ensures Entry(27, 8, S24, 0x455a14ed)
    ensures Entry(28, 13, S21, 0xa9e3e905)
    ensures Entry(29, 2, S22, 0xfcefa3f8)
    ensures Entry(30, 7, S23, 0x676f02d9)
    ensures Entry(31, 12, S24, 0x8d2a4c8a)
  {
    Sines2();
    hide Sine;
  }

  /** Statements 17 to 32 of `transform`, the order of the operands rotating from one to the next. */
  method Round2(a0: Reg, b0: Reg, c0: Reg, d0: Reg, x: seq<Reg>, ghost start: Chain)
    returns (a: Reg, b: Reg, c: Reg, d: Reg)
    requires |x| == 16 && Chain(a0, b0, c0, d0) == Operations(16, x, start)
    ensures Chain(a, b, c, d) == Operations(32, x, start)
  {
    hide FF, GG, HH, II, Operations, WordIndex, Shift, Sine;
    Table2();
    a, b, c, d := a0, b0, c0, d0;
    a := GG(a, b, c, d, x[1], S21, 0xf61e2562);
    d := GG(d, a, b, c, x[6], S22, 0xc040b340);
    c := GG(c, d, a, b, x[11], S23, 0x265e5a51);
    b := GG(b, c, d, a, x[0], S24, 0xe9b6c7aa);
    assert Chain(a, b, c, d) == Operations(20, x, start) by { Four(16, x, start); }
    a := GG(a, b, c, d, x[5], S21, 0xd62f105d);
    d := GG(d, a, b, c, x[10], S22, 0x02441453);
    c := GG(c, d, a, b, x[15], S23, 0xd8a1e681);
    b := GG(b, c, d, a, x[4], S24, 0xe7d3fbc8);
    assert Chain(a, b, c, d) == Operations(24, x, start) by { Four(20, x, start); }
    a := GG(a, b, c, d, x[9], S21, 0x21e1cde6);
    d := GG(d, a, b, c, x[14], S22, 0xc33707d6);
    c := GG(c, d, a, b, x[3], S23, 0xf4d50d87);
    b := GG(b, c, d, a, x[8], S24, 0x455a14ed);
    assert Chain(a, b, c, d) == Operations(28, x, start) by { Four(24, x, start); }
    a := GG(a, b, c, d, x[13], S21, 0xa9e3e905);
    d := GG(d, a, b, c, x[2], S22, 0xfcefa3f8);
    c := GG(c, d, a, b, x[7], S23, 0x676f02d9);
    b := GG(b, c, d, a, x[12], S24, 0x8d2a4c8a);
    assert Chain(a, b, c, d) == Operations(32, x, start) by { Four(28, x, start); }
  }

  lemma Sines3()
    ensures Sine(32) == 0xfffa3942
    ensures Sine(33) == 0x8771f681
    ensures Sine(34) == 0x6d9d6122
    ensures Sine(35) == 0xfde5380c
    ensures Sine(36) == 0xa4beea44
    ensures Sine(37) == 0x4bdecfa9
    ensures Sine(38) == 0xf6bb4b60
    ensures Sine(39) == 0xbebfbc70
    ensures Sine(40) == 0x289b7ec6
    ensures Sine(41) == 0xeaa127fa
    ensures Sine(42) == 0xd4ef3085
    ensures Sine(43) == 0x04881d05
    ensures Sine(44) == 0xd9d4d039
    ensures Sine(45) == 0xe6db99e5
    ensures Sine(46) == 0x1fa27cf8
    ensures Sine(47) == 0xc4ac5665
  {
  }

  lemma Table3()
    ensures Entry(32, 5, S31, 0xfffa3942)
    ensures Entry(33, 8, S32, 0x8771f681)
    ensures Entry(34, 11, S33, 0x6d9d6122)
    ensures Entry(35, 14, S34, 0xfde5380c)
    ensures Entry(36, 1, S31, 0xa4beea44)
    ensures Entry(37, 4, S32, 0x4bdecfa9)
    ensures Entry(38, 7, S33, 0xf6bb4b60)
    ensures Entry(39, 10, S34, 0xbebfbc70)
    ensures Entry(40, 13, S31, 0x289b7ec6)
    ensures Entry(41, 0, S32, 0xeaa127fa)
    ensures Entry(42, 3, S33, 0xd4ef3085)
    ensures Entry(43, 6, S34, 0x04881d05)
    ensures Entry(44, 9, S31, 0xd9d4d039)
    ensures Entry(45, 12, S32, 0xe6db99e5)
    ensures Entry(46, 15, S33, 0x1fa27cf8)
    ensures Entry(47, 2, S34, 0xc4ac5665)
  {
    Sines3();
    hide Sine;
  }

  /** Statements 33 to 48 of `transform`, the order of the operands rotating from one to the next. */
  method Round3(a0: Reg, b0: Reg, c0: Reg, d0: Reg, x: seq<Reg>, ghost start: Chain)
    returns (a: Reg, b: Reg, c: Reg, d: Reg)
    requires |x| == 16 && Chain(a0, b0, c0, d0) == Operations(32, x, start)
    ensures Chain(a, b, c, d) == Operations(48, x, start)
  {
    hide FF, GG, HH, II, Operations, WordIndex, Shift, Sine;
    Table3();
    a, b, c, d := a0, b0, c0, d0;
    a := HH(a, b, c, d, x[5], S31, 0xfffa3942);
    d := HH(d, a, b, c, x[8], S32, 0x8771f681);
    c := HH(c, d, a, b, x[11], S33, 0x6d9d6122);
    b := HH(b, c, d, a, x[14], S34, 0xfde5380c);
    assert Chain(a, b, c, d) == Operations(36, x, start) by { Four(32, x, start); }
    a := HH(a, b, c, d, x[1], S31, 0xa4beea44);
    d := HH(d, a, b, c, x[4], S32, 0x4bdecfa9);
    c := HH(c, d, a, b, x[7], S33, 0xf6bb4b60);
    b := HH(b, c, d, a, x[10], S34, 0xbebfbc70);
    assert Chain(a, b, c, d) == Operations(40, x, start) by { Four(36, x, start); }
    a := HH(a, b, c, d, x[13], S31, 0x289b7ec6);
    d := HH(d, a, b, c, x[0], S32, 0xeaa127fa);
    c := HH(c, d, a, b, x[3], S33, 0xd4ef3085);
    b := HH(b, c, d, a, x[6], S34, 0x04881d05);
    assert Chain(a, b, c, d) == Operations(44, x, start) by { Four(40, x, start); }
    a := HH(a, b, c, d, x[9], S31, 0xd9d4d039);
    d := HH(d, a, b, c, x[12], S32, 0xe6db99e5);
    c := HH(c, d, a, b, x[15], S33, 0x1fa27cf8);
    b := HH(b, c, d, a, x[2], S34, 0xc4ac5665);
    assert Chain(a, b, c, d) == Operations(48, x, start) by { Four(44, x, start); }
  }

  lemma Sines4()
    ensures Sine(48) == 0xf4292244
    ensures Sine(49) == 0x432aff97
    ensures Sine(50) == 0xab9423a7
    ensures Sine(51) == 0xfc93a039
    ensures Sine(52) == 0x655b59c3
    ensures Sine(53) == 0x8f0ccc92
    ensures Sine(54) == 0xffeff47d
    ensures Sine(55) == 0x85845dd1
    ensures Sine(56) == 0x6fa87e4f
    ensures Sine(57) == 0xfe2ce6e0
    ensures Sine(58) == 0xa3014314
    ensures Sine(59) == 0x4e0811a1
    ensures Sine(60) == 0xf7537e82
    ensures Sine(61) == 0xbd3af235
    ensures Sine(62) == 0x2ad7d2bb
    ensures Sine(63) == 0xeb86d391
  {
  }

  lemma Table4()
    ensures Entry(48, 0, S41, 0xf4292244)
    ensures Entry(49, 7, S42, 0x432aff97)
    ensures Entry(50, 14, S43, 0xab9423a7)
    ensures Entry(51, 5, S44, 0xfc93a039)
    ensures Entry(52, 12, S41, 0x655b59c3)
    ensures Entry(53, 3, S42, 0x8f0ccc92)
    ensures Entry(54, 10, S43, 0xffeff47d)
    ensures Entry(55, 1, S44, 0x85845dd1)
    ensures Entry(56, 8, S41, 0x6fa87e4f)
    ensures Entry(57, 15, S42, 0xfe2ce6e0)
    ensures Entry(58, 6, S43, 0xa3014314)
    ensures Entry(59, 13, S44, 0x4e0811a1)
    ensures Entry(60, 4, S41, 0xf7537e82)
    ensures Entry(61, 11, S42, 0xbd3af235)
    ensures Entry(62, 2, S43, 0x2ad7d2bb)
    ensures Entry(63, 9, S44, 0xeb86d391)
  {
    Sines4();
    hide Sine;
  }

  /** Statements 49 to 64 of `transform`, the order of the operands rotating from one to the next. */
  method Round4(a0: Reg, b0: Reg, c0: Reg, d0: Reg, x: seq<Reg>, ghost start: Chain)
    returns (a: Reg, b: Reg, c: Reg, d: Reg)
    requires |x| == 16 && Chain(a0, b0, c0, d0) == Operations(48, x, start)
    ensures Chain(a, b, c, d) == Operations(64, x, start)
  {
    hide FF, GG, HH, II, Operations, WordIndex, Shift, Sine;
    Table4();
    a, b, c, d := a0, b0, c0, d0;
    a := II(a, b, c, d, x[0], S41, 0xf4292244);
    d := II(d, a, b, c, x[7], S42, 0x432aff97);
    c := II(c, d, a, b, x[14], S43, 0xab9423a7);
    b := II(b, c, d, a, x[5], S44, 0xfc93a039);
    assert Chain(a, b, c, d) == Operations(52, x, start) by { Four(48, x, start); }
    a := II(a, b, c, d, x[12], S41, 0x655b59c3);
    d := II(d, a, b, c, x[3], S42, 0x8f0ccc92);
    c := II(c, d, a, b, x[10], S43, 0xffeff47d);
    b := II(b, c, d, a, x[1], S44, 0x85845dd1);
    assert Chain(a, b, c, d) == Operations(56, x, start) by { Four(52, x, start); }
    a := II(a, b, c, d, x[8], S41, 0x6fa87e4f);
    d := II(d, a, b, c, x[15], S42, 0xfe2ce6e0);
    c := II(c, d, a, b, x[6], S43, 0xa3014314);
    b := II(b, c, d, a, x[13], S44, 0x4e0811a1);
    assert Chain(a, b, c, d) == Operations(60, x, start) by { Four(56, x, start); }
    a := II(a, b, c, d, x[4], S41, 0xf7537e82);
    d := II(d, a, b, c, x[11], S42, 0xbd3af235);
    c := II(c, d, a, b, x[2], S43, 0x2ad7d2bb);
    b := II(b, c, d, a, x[9], S44, 0xeb86d391);
    assert Chain(a, b, c, d) == Operations(64, x, start) by { Four(60, x, start); }
  }

  /** The whole unrolled compression is the loop of 64 operations. */
  method Unrolled(start: Chain, x: seq<Reg>) returns (end: Chain)
    requires |x| == 16
    ensures end == Operations(64, x, start)
  {
    hide Operation;
    var a, b, c, d := Round1(start.a, start.b, start.c, start.d, x, start);
    a, b, c, d := Round2(a, b, c, d, x, start);
    a, b, c, d := Round3(a, b, c, d, x, start);
    a, b, c, d := Round4(a, b, c, d, x, start);
    end := Chain(a, b, c, d);
  }

  // -------------------------------------------------------------------------------------------
  // The loops between bytes and words
  // -------------------------------------------------------------------------------------------

  method Decode(input: seq<byte>) returns (output: seq<Reg>)
    requires |input| % 4 == 0
    ensures output == DecodeWords(input)
  {
    hide DecodeWord;
    output := [];
    var j := 0;
    while j < |input|
      invariant j % 4 == 0 && j <= |input| && (|input| - j) % 4 == 0
      invariant DecodeWords(input) == output + DecodeWords(input[j..])
    {
      assert input[j..][..4] == input[j..j + 4] && input[j..][4..] == input[j + 4..];
      output := output + [Reg(DecodeWord(input[j..j + 4]))];
      j := j + 4;
    }
  }

  method Encode(input: seq<Reg>) returns (output: seq<byte>)
    ensures output == EncodeWords(input)
  {
    hide EncodeWord;
    output := [];
    for i := 0 to |input|
      invariant EncodeWords(input) == output + EncodeWords(input[i..])
    {
      assert input[i..][0] == input[i] && input[i..][1..] == input[i + 1..];
      output := output + EncodeWord(input[i].bits);
    }
  }

  // -------------------------------------------------------------------------------------------
  // The two-word bit counter
  // -------------------------------------------------------------------------------------------

  const WORD_RANGE := 0x1_0000_0000

  /** One `update` may not be longer than this, or the 32-bit loop index wraps round. */
  const MAX_UPDATE := WORD_RANGE - 64

  function LowCount(n: nat): nat { 8 * n % WORD_RANGE }

  function HighCount(n: nat): nat { 8 * n / WORD_RANGE % WORD_RANGE }

  /** Adding the low words carries exactly when the sum comes out below what was added. */
  lemma CountCarries(n: nat, len: nat)
    requires len <= MAX_UPDATE
    ensures var low := (LowCount(n) + len * 8 % WORD_RANGE) % WORD_RANGE;
            var carry := if low < len * 8 % WORD_RANGE then 1 else 0;
            && low == LowCount(n + len)
            && (HighCount(n) + carry + len / 0x2000_0000) % WORD_RANGE == HighCount(n + len)
  {
    var q, r := 8 * n / WORD_RANGE, 8 * n % WORD_RANGE;
    var u, v := len / 0x2000_0000, len * 8 % WORD_RANGE;
    assert 8 * n == q * WORD_RANGE + r && 8 * len == u * WORD_RANGE + v;
    var carry := if r + v >= WORD_RANGE then 1 else 0;
    var low := r + v - carry * WORD_RANGE;
    DivModUnique(8 * (n + len), q + u + carry, low);
    DivModUnique(r + v, carry, low);
    ModAdd(q, u + carry);
  }

  lemma DivModUnique(x: nat, q: nat, r: nat)
    requires x == q * WORD_RANGE + r && r < WORD_RANGE
    ensures x / WORD_RANGE == q && x % WORD_RANGE == r
  {
  }

  lemma ModAdd(a: nat, b: nat)
    ensures (a % WORD_RANGE + b) % WORD_RANGE == (a + b) % WORD_RANGE
  {
  }

  lemma BufferedBytes(n: nat)
    ensures LowCount(n) / 8 % 64 == n % 64
  {
    var q, r := n / 0x2000_0000, n % 0x2000_0000;
    assert n == q * 0x2000_0000 + r;
    DivModUnique(8 * n, q, 8 * r);
    assert r % 64 == n % 64 by { assert q * 0x2000_0000 == 64 * (q * 0x80_0000); ModSplit(q * 0x80_0000, r); }
  }

  lemma ModSplit(k: nat, r: nat)
    ensures (64 * k + r) % 64 == r % 64
  {
  }

  // -------------------------------------------------------------------------------------------
  // The digest object
  // -------------------------------------------------------------------------------------------

  function Zeros(n: nat): (z: seq<byte>)
    ensures |z| == n
  {
    seq(n, _ => 0)
  }

  const PADDING: seq<byte> := [0x80] + Zeros(63)

  lemma PaddingPrefix(n: nat)
    ensures PADDING[..if n % 64 < 56 then 56 - n % 64 else 120 - n % 64] == Padding(n)
  {
    var k := n % 64;
    assert (119 - k) % 64 == if k < 56 then 55 - k else 119 - k;
  }

  /** The bytes of `m` that fill no whole block yet. */
  function Tail(m: seq<byte>): (t: seq<byte>)
    ensures |t| == |m| % 64
  {
    m[|m| - |m| % 64..]
  }

  function WholePart(m: seq<byte>): (w: seq<byte>)
    ensures |w| % 64 == 0 && |w| == |m| - |m| % 64
  {
    WholeLength(|m|);
    m[..|m| - |m| % 64]
  }

  lemma WholeLength(n: nat)
    ensures (n - n % 64) % 64 == 0
  {
  }

  lemma NothingFed()
    ensures LowCount(0) == 0 && HighCount(0) == 0
    ensures Blocks(INITIAL, WholePart([])) == INITIAL && Tail([]) == []
  {
  }

  lemma FirstBlock(fed: seq<byte>, input: seq<byte>)
    requires |fed| % 64 + |input| >= 64
    ensures var part := 64 - |fed| % 64;
      WholePart(fed) + (Tail(fed) + input[..part]) == (fed + input)[..|fed| + part]
  {
    assert WholePart(fed) + Tail(fed) == fed;
  }

  lemma BlockStep(whole: seq<byte>, block: seq<byte>)
    requires |whole| % 64 == 0 && |block| == 64
    ensures Blocks(INITIAL, whole + block) == Compress(Blocks(INITIAL, whole), block)
  {
    hide Compress;
    BlocksConcat(INITIAL, whole, block);
    var s := Blocks(INITIAL, whole);
    assert block[..64] == block && block[64..] == [];
    assert Blocks(s, block) == Blocks(Compress(s, block), []);
  }

  lemma RemainderIs(n: nat, r: nat)
    requires r <= 64
    ensures n % 64 == 0 && r < 64 ==> (n + r) % 64 == r
    ensures n % 64 + r < 64 ==> (n + r) % 64 == n % 64 + r
    ensures n % 64 + r == 64 ==> (n + r) % 64 == 0
  {
  }

  lemma CarryLate(n: nat, len: nat)
    requires len <= MAX_UPDATE
    ensures var added := len * 8 % WORD_RANGE;
            var low := (LowCount(n) + added) % WORD_RANGE;
            var high := if low < added then (HighCount(n) + 1) % WORD_RANGE else HighCount(n);
            low == LowCount(n + len) && (high + len / 0x2000_0000) % WORD_RANGE == HighCount(n + len)
  {
    CountCarries(n, len);
    hide LowCount, HighCount;
    ModAdd(HighCount(n) + 1, len / 0x2000_0000);
  }

  lemma NextBlock(n: nat)
    requires n % 64 == 0
    ensures (n + 64) % 64 == 0
  {
  }

  lemma LeftIs(n: nat, index: nat, i: nat, len: nat)
    requires index == n % 64 && i <= len < i + 64 && (n + i) % 64 == 0
    ensures (index + len) % 64 == len - i
  {
    var q := n / 64;
    assert index + i == n + i - 64 * q;
  }

  /** The block buffer after `index` buffered bytes were followed by `input`: the first block is
      completed in the buffer, what is left at the end overwrites its beginning. */
  function BufferAfter(buffer: seq<byte>, index: nat, input: seq<byte>): (b: seq<byte>)
    requires |buffer| == 64 && index < 64
    ensures |b| == 64
  {
    if index + |input| < 64 then buffer[..index] + input + buffer[index + |input|..]
    else
      var left := (index + |input|) % 64;
      input[|input| - left..] + (buffer[..index] + input[..64 - index])[left..]
  }

  /** What the object has been fed once it has been asked for a digest: the digest leaves the counter
      and the state as they were, but if 56 bytes or more were buffered, padding lies over them. */
  function AfterDigest(m: seq<byte>): (r: seq<byte>)
    ensures |r| == |m|
  {
    if |m| % 64 < 56 then m else WholePart(m) + (Zeros(56) + LengthBytes(|m|))[..|m| % 64]
  }

  lemma WholeIsWhole(m: seq<byte>)
    requires |m| % 64 == 0
    ensures WholePart(m) == m && Tail(m) == []
  {
  }

  lemma BufferAfterShort(buffer: seq<byte>, index: nat, input: seq<byte>)
    requires |buffer| == 64 && index + |input| < 64
    ensures BufferAfter(buffer, index, input) == buffer[..index] + input[0..] + buffer[index + |input|..]
  {
    assert input[0..] == input;
  }

  lemma BufferAfterLong(buffer: seq<byte>, index: nat, input: seq<byte>, i: nat, mid: seq<byte>)
    requires |buffer| == 64 && index < 64 <= index + |input| && i <= |input| < i + 64
    requires (index + |input|) % 64 == |input| - i && mid == buffer[..index] + input[..64 - index]
    ensures BufferAfter(buffer, index, input) == mid[..0] + input[i..] + mid[0 + |input[i..]|..]
  {
    assert |input| - (|input| - i) == i;
    assert mid[..0] + input[i..] == input[i..];
  }

  function CountWords(count0: u32, count1: u32): seq<Reg> {
    [Reg(count0 as word), Reg(count1 as word)]
  }

  lemma EncodedWords(low: u32, high: u32)
    ensures EncodeWords(CountWords(low, high)) == CountBytes(low, high)
  {
    hide EncodeWord;
    var words := CountWords(low, high);
    assert words[1..] == [words[1]];
    assert EncodeWords([words[1]]) == EncodeWord(words[1].bits) + EncodeWords([]);
  }

  lemma EncodedCountIs(n: nat)
    ensures LowCount(n) < WORD_RANGE && HighCount(n) < WORD_RANGE
    ensures EncodeWords(CountWords(LowCount(n), HighCount(n))) == LengthBytes(n)
  {
    EncodedWords(LowCount(n), HighCount(n));
    hide CountBytes, CountWords, EncodeWords;
  }

  /** What padding and length leave in the block buffer. */
  lemma BufferAfterPadding(buffer: seq<byte>, n: nat, bits: seq<byte>)
    requires |buffer| == 64 && |bits| == 8
    ensures var index := n % 64;
            var last := BufferAfter(BufferAfter(buffer, index, Padding(n)), 56, bits);
            if index < 56 then last[..index] == buffer[..index] else last == Zeros(56) + bits
  {
    var index := n % 64;
    PaddingPrefix(n);
    var padded := BufferAfter(buffer, index, Padding(n));
    BufferAfterLong(padded, 56, bits, 8, padded[..56] + bits);
    if index < 56 {
      assert Padding(n) == PADDING[..56 - index];
      BufferAfterShort(buffer, index, Padding(n));
    } else {
      var i := 64 - index;
      assert Padding(n) == PADDING[..120 - index];
      BufferAfterLong(buffer, index, Padding(n), i, buffer[..index] + Padding(n)[..i]);
      assert Padding(n)[i..] == Zeros(56);
    }
  }

  lemma TailOfAfterDigest(m: seq<byte>)
    ensures WholePart(AfterDigest(m)) == WholePart(m)
    ensures Tail(AfterDigest(m)) == if |m| % 64 < 56 then Tail(m) else (Zeros(56) + LengthBytes(|m|))[..|m| % 64]
  {
  }

  lemma RestoredBuffer(before: seq<byte>, m: seq<byte>, last: seq<byte>)
    requires |before| == 64 && before[..|m| % 64] == Tail(m)
    requires last == BufferAfter(BufferAfter(before, |m| % 64, Padding(|m|)), (|m| + |Padding(|m|)|) % 64, LengthBytes(|m|))
    ensures last[..|AfterDigest(m)| % 64] == Tail(AfterDigest(m))
  {
    BufferAfterPadding(before, |m|, LengthBytes(|m|));
    TailOfAfterDigest(m);
    hide BufferAfter, Padding, LengthBytes, AfterDigest, Tail;
  }

  /** Asking for a digest leaves later updates alone exactly when fewer than 56 bytes are buffered, or
      when the buffered bytes happen to be what the padding overwrites them with. */
  lemma DigestHarmless(m: seq<byte>)
    ensures AfterDigest(m) == m <==>
            |m| % 64 < 56 || Tail(m) == (Zeros(56) + LengthBytes(|m|))[..|m| % 64]
  {
    hide LengthBytes, Zeros;
    var whole, tail := WholePart(m), Tail(m);
    assert m == whole + tail && m[|whole|..] == tail;
    if |m| % 64 >= 56 {
      var lost := (Zeros(56) + LengthBytes(|m|))[..|m| % 64];
      hide WholePart, Tail;
      assert AfterDigest(m) == whole + lost && (whole + lost)[|whole|..] == lost;
    }
  }

  /** The damage is done once: asking again finds the object as the first digest left it. */
  lemma DigestSettles(m: seq<byte>)
    ensures AfterDigest(AfterDigest(m)) == AfterDigest(m)
  {
    hide LengthBytes, Zeros;
    TailOfAfterDigest(m);
  }

  lemma DigestDisturbs()
    ensures AfterDigest(seq(60, _ => 1)) != seq(60, _ => 1)
  {
    hide LengthBytes;
    var m: seq<byte> := seq(60, _ => 1);
    var lost := (Zeros(56) + LengthBytes(60))[..60];
    assert WholePart(m) == [];
    assert AfterDigest(m) == lost;
    assert lost[0] == 0 && m[0] == 1;
  }

  class Md5Digest {
    var state: Chain
    var count0: nat
    var count1: nat
    var buffer: array<byte>
    var finished: bool
    var stored: seq<byte>
    /** Every byte fed since the last reset. */
    ghost var fed: seq<byte>

    /** What holds whether the flag is set or not. */
    ghost predicate Consistent()
      reads this, buffer
    {
      && buffer.Length == 64
      && count0 == LowCount(|fed|)
      && count1 == HighCount(|fed|)
      && state == Blocks(INITIAL, WholePart(fed))
      && buffer[..|fed| % 64] == Tail(fed)
    }

    /** What every call leaves: the flag is never set. */
    ghost predicate Valid()
      reads this, buffer
    {
      Consistent() && !finished
    }

    constructor ()
      ensures Valid() && fed == [] && fresh(buffer)
    {
      hide LowCount, HighCount, Blocks, WholePart, Tail;
      finished := false;
      stored := [];
      count0, count1 := 0, 0;
      state := INITIAL;
      buffer := new byte[64];
      fed := [];
      new;
      NothingFed();
    }

    method Reset()
      requires buffer.Length == 64
      modifies this
      ensures Valid() && fed == [] && buffer == old(buffer) && stored == old(stored)
    {
      hide LowCount, HighCount, Blocks, WholePart, Tail;
      finished := false;
      count0, count1 := 0, 0;
      state := INITIAL;
      fed := [];
      NothingFed();
    }

    method Transform(block: seq<byte>)
      requires |block| == 64
      modifies this`state
      ensures state == Compress(old(state), block)
    {
      var x := Decode(block);
      var end := Unrolled(state, x);
      state := AddChains(state, end);
    }

    method Copy(at: nat, source: seq<byte>)
      requires at + |source| <= buffer.Length
      modifies buffer
      ensures buffer[..] == old(buffer[..at]) + source + old(buffer[at + |source|..])
    {
      forall k | 0 <= k < |source| {
        buffer[at + k] := source[k];
      }
    }

    method CountUp(length: nat)
      requires length <= MAX_UPDATE
      requires count0 == LowCount(|fed|) && count1 == HighCount(|fed|)
      modifies this`count0, this`count1
      ensures count0 == LowCount(|fed| + length) && count1 == HighCount(|fed| + length)
    {
      hide LowCount, HighCount;
      CarryLate(|fed|, length);
      var added := length * 8 % WORD_RANGE;
      count0 := (count0 + added) % WORD_RANGE;
      if count0 < added {
        count1 := (count1 + 1) % WORD_RANGE;
      }
      count1 := (count1 + length / 0x2000_0000) % WORD_RANGE;
    }

    /** The last `memcpy` of `update`: what fills no block is buffered. */
    method BufferRest(index: nat, rest: seq<byte>)
      requires index == |fed| % 64
      requires buffer.Length == 64 && |rest| < 64 && !finished
      requires count0 == LowCount(|fed| + |rest|) && count1 == HighCount(|fed| + |rest|)
      requires state == Blocks(INITIAL, WholePart(fed)) && |fed| % 64 + |rest| < 64
      requires buffer[..|fed| % 64] == Tail(fed)
      modifies this`fed, buffer
      ensures Valid() && fed == old(fed) + rest && buffer == old(buffer)
      ensures buffer[..] == old(buffer[..|fed| % 64]) + rest + old(buffer[|fed| % 64 + |rest|..])
    {
      hide LowCount, HighCount, Blocks;
      RemainderIs(|fed|, |rest|);
      Copy(index, rest);
      assert WholePart(fed + rest) == WholePart(fed);
      assert Tail(fed + rest) == Tail(fed) + rest;
      fed := fed + rest;
    }

    /** Completes the buffered block with the beginning of `input` and transforms as often as possible. */
    method Absorb(index: nat, input: seq<byte>) returns (i: nat)
      requires index == |fed| % 64 && index + |input| >= 64
      requires buffer.Length == 64 && buffer[..index] == Tail(fed)
      requires state == Blocks(INITIAL, WholePart(fed))
      modifies this`state, buffer
      ensures i <= |input| < i + 64 && (|fed| + i) % 64 == 0
      ensures state == Blocks(INITIAL, (fed + input)[..|fed| + i])
      ensures buffer[..] == old(buffer[..index]) + input[..64 - index]
    {
      hide Blocks, Compress, WholePart, Tail;
      var partLen := 64 - index;
      ghost var n, all := |fed|, fed + input;
      RemainderIs(n, partLen);
      Copy(index, input[..partLen]);
      FirstBlock(fed, input);
      assert buffer[..] == Tail(fed) + input[..partLen];
      BlockStep(WholePart(fed), buffer[..]);
      Transform(buffer[..]);
      i := partLen;
      while i + 63 < |input|
        invariant partLen <= i <= |input| && (n + i) % 64 == 0
        invariant state == Blocks(INITIAL, all[..n + i])
        invariant buffer[..] == old(buffer[..index]) + input[..partLen]
      {
        BlockStep(all[..n + i], input[i..i + 64]);
        assert all[..n + i] + input[i..i + 64] == all[..n + (i + 64)];
        Transform(input[i..i + 64]);
        NextBlock(n + i);
        i := i + 64;
      }
    }

    /** Transforms as often as possible: the bytes taken are the first `i`, the rest will be buffered at `at`. */
    method TakeBlocks(index: nat, input: seq<byte>) returns (i: nat, at: nat)
      requires index == |fed| % 64 && buffer.Length == 64 && buffer[..index] == Tail(fed)
      requires state == Blocks(INITIAL, WholePart(fed))
      modifies this`state, this`fed, buffer
      ensures i <= |input| && fed == (old(fed) + input)[..|old(fed)| + i]
      ensures at == |fed| % 64 && at + |input| - i < 64 && buffer[..at] == Tail(fed)
      ensures state == Blocks(INITIAL, WholePart(fed))
      ensures BufferAfter(old(buffer[..]), index, input) == buffer[..at] + input[i..] + buffer[at + |input[i..]|..]
    {
      hide Blocks, WholePart, Tail, BufferAfter;
      i, at := 0, index;
      ghost var before := buffer[..];
      if |input| >= 64 - index {
        ghost var all := fed + input;
        i := Absorb(index, input);
        LeftIs(|fed|, index, i, |input|);
        BufferAfterLong(before, index, input, i, buffer[..]);
        fed := all[..|fed| + i];
        WholeIsWhole(fed);
        at := 0;
      } else {
        BufferAfterShort(before, index, input);
        assert (fed + input)[..|fed|] == fed;
      }
    }

    method Update(input: seq<byte>)
      requires Consistent() && |input| <= MAX_UPDATE
      modifies this, buffer
      ensures Valid() && buffer == old(buffer) && stored == old(stored)
      ensures fed == old(fed) + input
      ensures buffer[..] == BufferAfter(old(buffer[..]), |old(fed)| % 64, input)
    {
      hide LowCount, HighCount, Blocks, WholePart, Tail, BufferAfter;
      ghost var all := fed + input;
      finished := false;
      BufferedBytes(|fed|);
      var index := count0 / 8 % 64;
      CountUp(|input|);
      var i, at := TakeBlocks(index, input);
      BufferRest(at, input[i..]);
      assert fed == all[..|all| - |input| + i] + input[i..] == all;
    }

    /** Pads, stores the digest, and puts state and counter back; the buffer is not put back, and the
        updates it makes clear the flag that `digest` has just set. */
    method Final()
      requires Consistent()
      modifies this, buffer
      ensures Valid() && buffer == old(buffer)
      ensures stored == Md5(old(fed)) && fed == AfterDigest(old(fed))
    {
      hide LowCount, HighCount, Blocks, WholePart, Tail, BufferAfter, EncodeWord, EncodeWords, LengthBytes, Padding, AfterDigest, CountWords;
      var oldState, oldCount0, oldCount1 := state, count0, count1;
      ghost var m, before := fed, buffer[..];
      EncodedCountIs(|m|);
      BufferedBytes(|m|);
      PaddingPrefix(|m|);
      var bits := Encode(CountWords(count0, count1));
      var index := count0 / 8 % 64;
      var padLen := if index < 56 then 56 - index else 120 - index;
      var padding := PADDING[..padLen];
      assert padding == Padding(|m|) && bits == LengthBytes(|m|);
      Update(padding);
      assert fed == m + Padding(|m|);
      ghost var middle := buffer[..];
      Update(bits);
      assert fed == m + Padding(|m|) + LengthBytes(|m|) == Padded(m);
      WholeIsWhole(fed);
      stored := Encode([state.a, state.b, state.c, state.d]);
      assert stored == Md5(m);
      state, count0, count1 := oldState, oldCount0, oldCount1;
      assert middle == BufferAfter(before, |m| % 64, Padding(|m|));
      RestoredBuffer(before, m, buffer[..]);
      TailOfAfterDigest(m);
      fed := AfterDigest(m);
    }

    /** `digest`: it would return what is stored if the flag were set; but the flag never survives `final`,
        so every call takes the digest anew. */
    method Digest() returns (digest: seq<byte>)
      requires Valid()
      modifies this, buffer
      ensures Valid() && buffer == old(buffer)
      ensures digest == Md5(old(fed)) && fed == AfterDigest(old(fed))
    {
      hide LowCount, HighCount, Blocks, WholePart, Tail, Md5, AfterDigest;
      if !finished {
        finished := true;
        Final();
      }
      digest := stored;
    }
  }

  /** However a message is cut into updates, its digest is the one RFC 1321 defines. */
  method DigestOfChunks(chunks: seq<seq<byte>>) returns (digest: seq<byte>)
    requires forall k :: 0 <= k < |chunks| ==> |chunks[k]| <= MAX_UPDATE
    ensures digest == Md5(Flatten(chunks))
  {
    hide LowCount, HighCount, Blocks, WholePart, Tail, BufferAfter, LengthBytes, Md5, AfterDigest;
    var md5 := new Md5Digest();
    for k := 0 to |chunks|
      invariant md5.Valid() && fresh(md5) && fresh(md5.buffer)
      invariant md5.fed == Flatten(chunks[..k])
    {
      FlattenLast(chunks, k);
      md5.Update(chunks[k]);
    }
    assert chunks[..|chunks|] == chunks;
    digest := md5.Digest();
  }

  /** Between two digests the object may be fed more: what the second digest is taken of. */
  method DigestTwice(first: seq<byte>, second: seq<byte>) returns (digest1: seq<byte>, digest2: seq<byte>)
    requires |first| <= MAX_UPDATE && |second| <= MAX_UPDATE
    ensures digest1 == Md5(first) && digest2 == Md5(AfterDigest(first) + second)
    ensures |first| % 64 < 56 ==> digest2 == Md5(first + second)
  {
    hide LowCount, HighCount, Blocks, WholePart, Tail, BufferAfter, LengthBytes, Md5;
    var md5 := new Md5Digest();
    md5.Update(first);
    assert [] + first == first;
    digest1 := md5.Digest();
    md5.Update(second);
    digest2 := md5.Digest();
  }

}
