/** Bytes, 32-bit words and the little-endian view of a word that the server reads and writes. */
module Words {

  /** MAX_MESSAGE_LEN: the size of a read, of a write, and the longest legal frame. */
  const MAX_MESSAGE_LEN := 65000

  type byte = bv8
  type word = bv32

  /** The four bytes of a word, low-order byte first. */
  function EncodeWord(w: word): (b: seq<byte>)
    ensures |b| == 4
  {
    [(w & 0xff) as byte, ((w >> 8) & 0xff) as byte, ((w >> 16) & 0xff) as byte, ((w >> 24) & 0xff) as byte]
  }

  function DecodeWord(b: seq<byte>): word
    requires |b| == 4
  {
    (b[0] as word) | ((b[1] as word) << 8) | ((b[2] as word) << 16) | ((b[3] as word) << 24)
  }

  lemma DecodeEncodeWord(w: word)
    ensures DecodeWord(EncodeWord(w)) == w
  {
  }

  lemma EncodeDecodeWord(b: seq<byte>)
    requires |b| == 4
    ensures EncodeWord(DecodeWord(b)) == b
  {
  }

  // -------------------------------------------------------------------------------------------
  // Bytes as numbers
  // -------------------------------------------------------------------------------------------

  type u8 = x: int | 0 <= x < 0x100
  type u32 = x: int | 0 <= x < 0x1_0000_0000

  // A conversion between numbers and bit-vectors is out of reach of the solver; a nibble is not.
  function HexDigit(k: nat): byte {
    match k
    case 0 => 0 case 1 => 1 case 2 => 2 case 3 => 3 case 4 => 4 case 5 => 5 case 6 => 6 case 7 => 7
    case 8 => 8 case 9 => 9 case 10 => 10 case 11 => 11 case 12 => 12 case 13 => 13 case 14 => 14 case _ => 15
  }

  function HexValue(d: byte): (k: nat)
    ensures k < 16
  {
    match d
    case 0 => 0 case 1 => 1 case 2 => 2 case 3 => 3 case 4 => 4 case 5 => 5 case 6 => 6 case 7 => 7
    case 8 => 8 case 9 => 9 case 10 => 10 case 11 => 11 case 12 => 12 case 13 => 13 case 14 => 14 case _ => 15
  }

  /** The number that a byte stands for. */
  function ByteValue(b: byte): u8 { 16 * HexValue(b >> 4) + HexValue(b & 15) }

  function ByteOf(n: u8): byte { (HexDigit(n / 16) << 4) | HexDigit(n % 16) }

  lemma HexInverse(k: nat, d: byte)
    ensures k < 16 ==> HexValue(HexDigit(k)) == k
    ensures d < 16 ==> HexDigit(HexValue(d)) == d
    ensures HexDigit(k) < 16
  {
  }

  lemma Halves(x: byte, y: byte, b: byte)
    ensures x < 16 && y < 16 ==> ((x << 4) | y) >> 4 == x && ((x << 4) | y) & 15 == y
    ensures b >> 4 < 16 && b & 15 < 16 && ((b >> 4) << 4) | (b & 15) == b
  {
  }

  lemma ByteOfValue(b: byte)
    ensures ByteOf(ByteValue(b)) == b
  {
    hide HexDigit, HexValue;
    HexInverse(0, b >> 4);
    HexInverse(0, b & 15);
    Halves(0, 0, b);
  }

  lemma ValueOfByte(n: u8)
    ensures ByteValue(ByteOf(n)) == n
  {
    hide HexDigit, HexValue;
    HexInverse(n / 16, 0);
    HexInverse(n % 16, 0);
    Halves(HexDigit(n / 16), HexDigit(n % 16), 0);
  }

  /** An unsigned 32-bit number as it lies in a message, low-order byte first. */
  function PutU32(n: u32): (b: seq<byte>)
    ensures |b| == 4
  {
    [ByteOf(n % 0x100), ByteOf(n / 0x100 % 0x100), ByteOf(n / 0x1_0000 % 0x100), ByteOf(n / 0x100_0000)]
  }

  function GetU32(b: seq<byte>): u32
    requires |b| == 4
  {
    ByteValue(b[0]) + 0x100 * ByteValue(b[1]) + 0x1_0000 * ByteValue(b[2]) + 0x100_0000 * ByteValue(b[3])
  }

  lemma SmallBytes()
    ensures ByteOf(0) == 0 && ByteOf(1) == 1 && ByteOf(2) == 2 && ByteOf(3) == 3 && ByteOf(4) == 4 && ByteOf(19) == 19
  {
  }

  lemma PutSmall(n: u8)
    ensures PutU32(n) == [ByteOf(n), ByteOf(0), ByteOf(0), ByteOf(0)]
  {
    hide ByteOf;
  }

  lemma LowWordByteFirst()
    ensures EncodeWord(0x01020304) == [4, 3, 2, 1]
  {
  }

  /** Both views of a number put the low-order byte first. */
  lemma LowByteFirst()
    ensures PutU32(0x01020304) == [4, 3, 2, 1] && EncodeWord(0x01020304) == [4, 3, 2, 1]
  {
    LowWordByteFirst();
    SmallBytes();
    hide ByteOf, EncodeWord;
    assert PutU32(0x01020304) == [ByteOf(4), ByteOf(3), ByteOf(2), ByteOf(1)];
  }

  lemma SplitU32(n: u32)
    ensures n == n % 0x100 + 0x100 * (n / 0x100 % 0x100) + 0x1_0000 * (n / 0x1_0000 % 0x100) + 0x100_0000 * (n / 0x100_0000)
  {
    var a := n / 0x100;
    var b := a / 0x100;
    assert n / 0x1_0000 == b && n / 0x100_0000 == b / 0x100;
  }

  lemma GetPutU32(n: u32)
    ensures GetU32(PutU32(n)) == n
  {
    hide ByteOf, ByteValue;
    SplitU32(n);
    ValueOfByte(n % 0x100);
    ValueOfByte(n / 0x100 % 0x100);
    ValueOfByte(n / 0x1_0000 % 0x100);
    ValueOfByte(n / 0x100_0000);
  }

  /** The pieces of `parts`, one after the other. */
  function Flatten<T>(parts: seq<seq<T>>): seq<T> {
    if parts == [] then [] else parts[0] + Flatten(parts[1..])
  }

  lemma FlattenOne<T>(part: seq<T>)
    ensures Flatten([part]) == part && Flatten<T>([]) == []
  {
  }

  lemma {:induction false} FlattenConcat<T>(a: seq<seq<T>>, b: seq<seq<T>>)
    ensures Flatten(a + b) == Flatten(a) + Flatten(b)
  {
    if a == [] {
      assert a + b == b;
    } else {
      assert (a + b)[0] == a[0] && (a + b)[1..] == a[1..] + b;
      FlattenConcat(a[1..], b);
    }
  }

  lemma FlattenLast<T>(parts: seq<seq<T>>, i: nat)
    requires i < |parts|
    ensures Flatten(parts[..i + 1]) == Flatten(parts[..i]) + parts[i]
  {
    assert parts[..i + 1] == parts[..i] + [parts[i]];
    FlattenConcat(parts[..i], [parts[i]]);
    assert Flatten([parts[i]]) == parts[i] + Flatten([]);
  }
}
