/** The MD5 message digest as sections 3.1 to 3.5 of RFC 1321 define it. */
module Md5Spec {
  import opened Words

  /** A 32-bit register, boxed so that proofs which only move registers about need not look inside. */
  datatype Reg = Reg(bits: word)

  /** The four-word chaining state. */
  datatype Chain = Chain(a: Reg, b: Reg, c: Reg, d: Reg)

  const INITIAL := Chain(Reg(0x67452301), Reg(0xefcdab89), Reg(0x98badcfe), Reg(0x10325476))

  /** The integer part of 4294967296 times abs(sin(i + 1)), i + 1 in radians. */
  function Sine(i: nat): word
    requires i < 64
  {
    if i < 16 then Sine1(i) else if i < 32 then Sine2(i - 16) else if i < 48 then Sine3(i - 32) else Sine4(i - 48)
  }

  function Sine1(k: nat): word {
    match k
    case 0 => 0xd76aa478 case 1 => 0xe8c7b756 case 2 => 0x242070db case 3 => 0xc1bdceee
    case 4 => 0xf57c0faf case 5 => 0x4787c62a case 6 => 0xa8304613 case 7 => 0xfd469501
    case 8 => 0x698098d8 case 9 => 0x8b44f7af case 10 => 0xffff5bb1 case 11 => 0x895cd7be
    case 12 => 0x6b901122 case 13 => 0xfd987193 case 14 => 0xa679438e case _ => 0x49b40821
  }

  function Sine2(k: nat): word {
    match k
    case 0 => 0xf61e2562 case 1 => 0xc040b340 case 2 => 0x265e5a51 case 3 => 0xe9b6c7aa
    case 4 => 0xd62f105d case 5 => 0x02441453 case 6 => 0xd8a1e681 case 7 => 0xe7d3fbc8
    case 8 => 0x21e1cde6 case 9 => 0xc33707d6 case 10 => 0xf4d50d87 case 11 => 0x455a14ed
    case 12 => 0xa9e3e905 case 13 => 0xfcefa3f8 case 14 => 0x676f02d9 case _ => 0x8d2a4c8a
  }

  function Sine3(k: nat): word {
    match k
    case 0 => 0xfffa3942 case 1 => 0x8771f681 case 2 => 0x6d9d6122 case 3 => 0xfde5380c
    case 4 => 0xa4beea44 case 5 => 0x4bdecfa9 case 6 => 0xf6bb4b60 case 7 => 0xbebfbc70
    case 8 => 0x289b7ec6 case 9 => 0xeaa127fa case 10 => 0xd4ef3085 case 11 => 0x04881d05
    case 12 => 0xd9d4d039 case 13 => 0xe6db99e5 case 14 => 0x1fa27cf8 case _ => 0xc4ac5665
  }

  function Sine4(k: nat): word {
    match k
    case 0 => 0xf4292244 case 1 => 0x432aff97 case 2 => 0xab9423a7 case 3 => 0xfc93a039
    case 4 => 0x655b59c3 case 5 => 0x8f0ccc92 case 6 => 0xffeff47d case 7 => 0x85845dd1
    case 8 => 0x6fa87e4f case 9 => 0xfe2ce6e0 case 10 => 0xa3014314 case 11 => 0x4e0811a1
    case 12 => 0xf7537e82 case 13 => 0xbd3af235 case 14 => 0x2ad7d2bb case _ => 0xeb86d391
  }

  // -------------------------------------------------------------------------------------------
  // Section 3.4: the compression of one block, as a loop over 64 operations
  // -------------------------------------------------------------------------------------------

  function F(x: Reg, y: Reg, z: Reg): Reg { Reg((x.bits & y.bits) | (!x.bits & z.bits)) }

  function G(x: Reg, y: Reg, z: Reg): Reg { Reg((x.bits & z.bits) | (y.bits & !z.bits)) }

  function H(x: Reg, y: Reg, z: Reg): Reg { Reg(x.bits ^ y.bits ^ z.bits) }

  function I(x: Reg, y: Reg, z: Reg): Reg { Reg(y.bits ^ (x.bits | !z.bits)) }

  lemma WordSelect(m: word, a: word, b: word)
    ensures ((m & a) | (!m & b)) & m == a & m && ((m & a) | (!m & b)) & !m == b & !m
    ensures ((a & m) | (b & !m)) & m == a & m && ((a & m) | (b & !m)) & !m == b & !m
  {
  }

  /** F takes the bits of `y` where `x` is set, and those of `z` elsewhere. */
  lemma FSelects(x: Reg, y: Reg, z: Reg)
    ensures F(x, y, z).bits & x.bits == y.bits & x.bits && F(x, y, z).bits & !x.bits == z.bits & !x.bits
  {
    WordSelect(x.bits, y.bits, z.bits);
  }

  /** G takes the bits of `x` where `z` is set, and those of `y` elsewhere. */
  lemma GSelects(x: Reg, y: Reg, z: Reg)
    ensures G(x, y, z).bits & z.bits == x.bits & z.bits && G(x, y, z).bits & !z.bits == y.bits & !z.bits
  {
    WordSelect(z.bits, x.bits, y.bits);
  }

  lemma WordParity(a: word, b: word, c: word)
    ensures (a ^ b ^ c) ^ b ^ c == a && a ^ b ^ c == c ^ b ^ a
  {
  }

  /** H is the parity: it takes part in its own inverse, and the order does not matter. */
  lemma HIsParity(x: Reg, y: Reg, z: Reg)
    ensures H(H(x, y, z), y, z) == x && H(x, y, z) == H(z, y, x)
  {
    WordParity(x.bits, y.bits, z.bits);
  }

  lemma WordFlip(a: word, b: word, c: word)
    ensures ((b ^ (a | !c)) ^ b) & c == a & c && ((b ^ (a | !c)) ^ b) & !c == !c
  {
  }

  /** I flips the bits of `y` where `x` is set or `z` is clear, and no others. */
  lemma IFlips(x: Reg, y: Reg, z: Reg)
    ensures (I(x, y, z).bits ^ y.bits) & z.bits == x.bits & z.bits && (I(x, y, z).bits ^ y.bits) & !z.bits == !z.bits
  {
    WordFlip(x.bits, y.bits, z.bits);
  }

  function RotateLeft(x: word, n: nat): word
    requires n < 32
  {
    (x << n) | (x >> (32 - n))
  }

  /** What one operation makes of its first operand: add, rotate, add. */
  function Turn(a: Reg, mixed: Reg, x: Reg, shift: nat, sine: word, b: Reg): Reg
    requires shift < 32
  {
    Reg(RotateLeft(a.bits + mixed.bits + x.bits + sine, shift) + b.bits)
  }

  function Mix(i: nat, b: Reg, c: Reg, d: Reg): Reg {
    if i < 16 then F(b, c, d) else if i < 32 then G(b, c, d) else if i < 48 then H(b, c, d) else I(b, c, d)
  }

  /** Which word of the block operation i takes. */
  function WordIndex(i: nat): (k: nat)
    ensures k < 16
  {
    if i < 16 then i % 16 else if i < 32 then (5 * i + 1) % 16 else if i < 48 then (3 * i + 5) % 16 else (7 * i) % 16
  }

  /** By how much operation i rotates. */
  function Shift(i: nat): (s: nat)
    ensures s < 32
  {
    var k := i % 4;
    if i < 16 then (match k case 0 => 7 case 1 => 12 case 2 => 17 case _ => 22)
    else if i < 32 then (match k case 0 => 5 case 1 => 9 case 2 => 14 case _ => 20)
    else if i < 48 then (match k case 0 => 4 case 1 => 11 case 2 => 16 case _ => 23)
    else (match k case 0 => 6 case 1 => 10 case 2 => 15 case _ => 21)
  }

  /** Operation i on the registers, after which the roles of the registers move on by one. */
  function Operation(i: nat, x: seq<Reg>, s: Chain): Chain
    requires i < 64 && |x| == 16
  {
    Chain(s.d, Turn(s.a, Mix(i, s.b, s.c, s.d), x[WordIndex(i)], Shift(i), Sine(i), s.b), s.b, s.c)
  }

  function Operations(n: nat, x: seq<Reg>, s: Chain): Chain
    requires n <= 64 && |x| == 16
  {
    if n == 0 then s else Operation(n - 1, x, Operations(n - 1, x, s))
  }

  function DecodeWords(bytes: seq<byte>): (words: seq<Reg>)
    requires |bytes| % 4 == 0
    ensures |words| * 4 == |bytes|
  {
    if bytes == [] then [] else [Reg(DecodeWord(bytes[..4]))] + DecodeWords(bytes[4..])
  }

  function EncodeWords(words: seq<Reg>): (bytes: seq<byte>)
    ensures |bytes| == 4 * |words|
  {
    if words == [] then [] else EncodeWord(words[0].bits) + EncodeWords(words[1..])
  }

  function AddChains(s: Chain, t: Chain): Chain {
    Chain(Reg(s.a.bits + t.a.bits), Reg(s.b.bits + t.b.bits), Reg(s.c.bits + t.c.bits), Reg(s.d.bits + t.d.bits))
  }

  function Compress(s: Chain, block: seq<byte>): Chain
    requires |block| == 64
  {
    AddChains(s, Operations(64, DecodeWords(block), s))
  }

  lemma WholeBlocks(n: int)
    requires (n + 64) % 64 == 0
    ensures n % 64 == 0
  {
  }

  lemma LengthFillsBlock(n: nat)
    requires n % 64 == 56
    ensures (n + 8) % 64 == 0
  {
  }

  function Blocks(s: Chain, data: seq<byte>): Chain
    requires |data| % 64 == 0
    decreases |data|
  {
    if data == [] then s
    else
      WholeBlocks(|data| - 64);
      Blocks(Compress(s, data[..64]), data[64..])
  }

  // -------------------------------------------------------------------------------------------
  // Sections 3.1, 3.2 and 3.5: padding, length and output
  // -------------------------------------------------------------------------------------------

  /** A one bit, then zeros up to 56 bytes modulo 64. */
  function Padding(n: nat): (p: seq<byte>)
    ensures 1 <= |p| <= 64 && (n + |p|) % 64 == 56
  {
    [0x80] + seq((119 - n % 64) % 64, _ => 0)
  }

  /** The length in bits, modulo 2^64, low-order word first. */
  function LengthBytes(n: nat): (b: seq<byte>)
    ensures |b| == 8
  {
    CountBytes(8 * n % 0x1_0000_0000, 8 * n / 0x1_0000_0000 % 0x1_0000_0000)
  }

  /** A number of 64 bits, the low word first. */
  function CountBytes(low: u32, high: u32): (b: seq<byte>)
    ensures |b| == 8
  {
    EncodeWord(low as word) + EncodeWord(high as word)
  }

  /** Together the two words are the number of bits, modulo 2^64. */
  lemma LengthIsBits(n: nat) returns (low: u32, high: u32)
    ensures LengthBytes(n) == CountBytes(low, high)
    ensures low + 0x1_0000_0000 * high == 8 * n % 0x1_0000_0000_0000_0000
  {
    hide CountBytes;
    var q := 8 * n / 0x1_0000_0000;
    low, high := 8 * n % 0x1_0000_0000, q % 0x1_0000_0000;
    assert 8 * n == 0x1_0000_0000_0000_0000 * (q / 0x1_0000_0000) + (0x1_0000_0000 * high + low);
  }

  function Padded(message: seq<byte>): (p: seq<byte>)
    ensures |p| % 64 == 0
  {
    LengthFillsBlock(|message| + |Padding(|message|)|);
    message + Padding(|message|) + LengthBytes(|message|)
  }

  function Output(s: Chain): seq<byte> {
    EncodeWords([s.a, s.b, s.c, s.d])
  }

  function Md5(message: seq<byte>): seq<byte> {
    Output(Blocks(INITIAL, Padded(message)))
  }

  // -------------------------------------------------------------------------------------------
  // Properties
  // -------------------------------------------------------------------------------------------

  lemma {:induction false} BlocksConcat(s: Chain, a: seq<byte>, b: seq<byte>)
    requires |a| % 64 == 0 && |b| % 64 == 0
    ensures Blocks(s, a + b) == Blocks(Blocks(s, a), b)
    decreases |a|
  {
    hide Compress;
    if a == [] {
      assert a + b == b;
    } else {
      assert (a + b)[..64] == a[..64] && (a + b)[64..] == a[64..] + b;
      BlocksConcat(Compress(s, a[..64]), a[64..], b);
    }
  }

  lemma {:induction false} DecodeEncodeWords(words: seq<Reg>)
    ensures DecodeWords(EncodeWords(words)) == words
  {
    hide DecodeWord, EncodeWord;
    if words != [] {
      var bytes := EncodeWords(words);
      assert bytes[..4] == EncodeWord(words[0].bits) && bytes[4..] == EncodeWords(words[1..]);
      DecodeEncodeWord(words[0].bits);
      DecodeEncodeWords(words[1..]);
    }
  }

  lemma {:induction false} EncodeDecodeWords(bytes: seq<byte>)
    requires |bytes| % 4 == 0
    ensures EncodeWords(DecodeWords(bytes)) == bytes
  {
    hide DecodeWord, EncodeWord;
    if bytes != [] {
      EncodeDecodeWord(bytes[..4]);
      EncodeDecodeWords(bytes[4..]);
      assert DecodeWords(bytes)[1..] == DecodeWords(bytes[4..]);
      assert bytes == bytes[..4] + bytes[4..];
    }
  }
}
