/** A bit set over an array of words (battleserver/UpdateMask.h). Single bits are changed through the
    little-endian byte view of the words, whole masks word by word; both are operations on one set. */
module UpdateMask {
  import opened Words

  // -------------------------------------------------------------------------------------------
  // Bits of a byte and of a word
  // -------------------------------------------------------------------------------------------

  type BitIndex = i: int | 0 <= i < 32

  /** `1 << i`. */
  function Mask(i: nat): byte {
    match i
    case 0 => 1 case 1 => 2 case 2 => 4 case 3 => 8 case 4 => 16 case 5 => 32 case 6 => 64 case _ => 128
  }

  function And(a: byte, b: byte): byte { a & b }

  function Or(a: byte, b: byte): byte { a | b }

  function Not(a: byte): byte { 0xff ^ a }

  predicate TestBit(b: byte, i: nat) { And(b, Mask(i)) != 0 }

  predicate OneBit(m: byte) {
    m == 1 || m == 2 || m == 4 || m == 8 || m == 16 || m == 32 || m == 64 || m == 128
  }

  lemma MaskedAnd(a: byte, b: byte, m: byte)
    requires OneBit(m)
    ensures And(And(a, b), m) != 0 <==> And(a, m) != 0 && And(b, m) != 0
  {
  }

  lemma MaskedOr(a: byte, b: byte, m: byte)
    requires OneBit(m)
    ensures And(Or(a, b), m) != 0 <==> And(a, m) != 0 || And(b, m) != 0
  {
    assert (a | b) & m == (a & m) | (b & m);
  }

  lemma MaskedNot(a: byte, m: byte)
    requires OneBit(m)
    ensures And(Not(a), m) != 0 <==> And(a, m) == 0
  {
  }

  lemma BitsOfBytes(a: byte, b: byte, i: nat)
    ensures TestBit(And(a, b), i) <==> TestBit(a, i) && TestBit(b, i)
    ensures TestBit(Or(a, b), i) <==> TestBit(a, i) || TestBit(b, i)
    ensures TestBit(Not(a), i) <==> !TestBit(a, i)
  {
    assert OneBit(Mask(i));
    hide Mask, And, Or, Not, OneBit;
    MaskedAnd(a, b, Mask(i));
    MaskedOr(a, b, Mask(i));
    MaskedNot(a, Mask(i));
  }

  lemma BitOfMask(i: nat, j: nat)
    requires i < 8 && j < 8
    ensures TestBit(Mask(i), j) <==> i == j
  {
  }

  lemma ByteIsZeroIff(b: byte)
    ensures b == 0 <==> forall i: nat :: i < 8 ==> !TestBit(b, i)
  {
    if b != 0 {
      assert TestBit(b, 0) || TestBit(b, 1) || TestBit(b, 2) || TestBit(b, 3) ||
             TestBit(b, 4) || TestBit(b, 5) || TestBit(b, 6) || TestBit(b, 7);
    }
  }

  /** Byte `k` of a word in memory. */
  function ByteAt(w: word, k: nat): byte
    requires k < 4
  {
    EncodeWord(w)[k]
  }

  function WithByte(w: word, k: nat, b: byte): word
    requires k < 4
  {
    DecodeWord(EncodeWord(w)[k := b])
  }

  lemma ByteOfWithByte(w: word, k: nat, b: byte, j: nat)
    requires k < 4 && j < 4
    ensures ByteAt(WithByte(w, k, b), j) == if j == k then b else ByteAt(w, j)
  {
    hide EncodeWord, DecodeWord;
    EncodeDecodeWord(EncodeWord(w)[k := b]);
  }

  function AndWord(v: word, w: word): word { v & w }

  function OrWord(v: word, w: word): word { v | w }

  function Low(w: word): byte { (w & 0xff) as byte }

  function Shr8(w: word): word { w >> 8 }

  function Shr16(w: word): word { w >> 16 }

  function Shr24(w: word): word { w >> 24 }

  function Shifted(w: word, k: nat): word {
    match k
    case 0 => w
    case 1 => Shr8(w)
    case 2 => Shr16(w)
    case _ => Shr24(w)
  }

  lemma BytesOfWord(w: word)
    ensures EncodeWord(w) == [Low(w), Low(Shr8(w)), Low(Shr16(w)), Low(Shr24(w))]
  {
  }

  lemma ByteIsShifted(w: word, k: nat)
    requires k < 4
    ensures ByteAt(w, k) == Low(Shifted(w, k))
  {
    hide EncodeWord, Low, Shr8, Shr16, Shr24;
    BytesOfWord(w);
  }

  lemma LowByteOfAnd(v: word, w: word)
    ensures Low(AndWord(v, w)) == And(Low(v), Low(w))
  {
  }

  lemma LowByteOfOr(v: word, w: word)
    ensures Low(OrWord(v, w)) == Or(Low(v), Low(w))
  {
  }

  lemma Shift8OfAnd(v: word, w: word)
    ensures Shr8(AndWord(v, w)) == AndWord(Shr8(v), Shr8(w))
  {
  }

  lemma Shift16OfAnd(v: word, w: word)
    ensures Shr16(AndWord(v, w)) == AndWord(Shr16(v), Shr16(w))
  {
  }

  lemma Shift24OfAnd(v: word, w: word)
    ensures Shr24(AndWord(v, w)) == AndWord(Shr24(v), Shr24(w))
  {
  }

  lemma Shift8OfOr(v: word, w: word)
    ensures Shr8(OrWord(v, w)) == OrWord(Shr8(v), Shr8(w))
  {
  }

  lemma Shift16OfOr(v: word, w: word)
    ensures Shr16(OrWord(v, w)) == OrWord(Shr16(v), Shr16(w))
  {
  }

  lemma Shift24OfOr(v: word, w: word)
    ensures Shr24(OrWord(v, w)) == OrWord(Shr24(v), Shr24(w))
  {
  }

  lemma ShiftedAnd(v: word, w: word, k: nat)
    ensures Shifted(AndWord(v, w), k) == AndWord(Shifted(v, k), Shifted(w, k))
  {
    hide AndWord, Shr8, Shr16, Shr24;
    Shift8OfAnd(v, w);
    Shift16OfAnd(v, w);
    Shift24OfAnd(v, w);
  }

  lemma ShiftedOr(v: word, w: word, k: nat)
    ensures Shifted(OrWord(v, w), k) == OrWord(Shifted(v, k), Shifted(w, k))
  {
    hide OrWord, Shr8, Shr16, Shr24;
    Shift8OfOr(v, w);
    Shift16OfOr(v, w);
    Shift24OfOr(v, w);
  }

  lemma BytesOfAnd(v: word, w: word, k: nat)
    requires k < 4
    ensures ByteAt(AndWord(v, w), k) == And(ByteAt(v, k), ByteAt(w, k))
  {
    hide ByteAt, AndWord, And, Low, Shifted;
    ByteIsShifted(v, k);
    ByteIsShifted(w, k);
    ByteIsShifted(AndWord(v, w), k);
    ShiftedAnd(v, w, k);
    LowByteOfAnd(Shifted(v, k), Shifted(w, k));
  }

  lemma BytesOfOr(v: word, w: word, k: nat)
    requires k < 4
    ensures ByteAt(OrWord(v, w), k) == Or(ByteAt(v, k), ByteAt(w, k))
  {
    hide ByteAt, OrWord, Or, Low, Shifted;
    ByteIsShifted(v, k);
    ByteIsShifted(w, k);
    ByteIsShifted(OrWord(v, w), k);
    ShiftedOr(v, w, k);
    LowByteOfOr(Shifted(v, k), Shifted(w, k));
  }

  lemma WordIsZeroIff(w: word)
    ensures w == 0 <==> ByteAt(w, 0) == 0 && ByteAt(w, 1) == 0 && ByteAt(w, 2) == 0 && ByteAt(w, 3) == 0
  {
  }

  predicate BitOf(w: word, i: BitIndex) { TestBit(ByteAt(w, i / 8), i % 8) }

  lemma BitsOfWords(v: word, w: word, i: BitIndex)
    ensures BitOf(AndWord(v, w), i) <==> BitOf(v, i) && BitOf(w, i)
    ensures BitOf(OrWord(v, w), i) <==> BitOf(v, i) || BitOf(w, i)
    ensures !BitOf(0, i)
  {
    hide ByteAt, TestBit, And, Or, AndWord, OrWord;
    BytesOfAnd(v, w, i / 8);
    BytesOfOr(v, w, i / 8);
    WordIsZeroIff(0);
    BitsOfBytes(ByteAt(v, i / 8), ByteAt(w, i / 8), i % 8);
    ByteIsZeroIff(0);
  }

  lemma NonZeroWordHasBit(w: word) returns (i: BitIndex)
    requires w != 0
    ensures BitOf(w, i)
  {
    hide ByteAt, TestBit;
    WordIsZeroIff(w);
    var k: nat := if ByteAt(w, 0) != 0 then 0 else if ByteAt(w, 1) != 0 then 1 else if ByteAt(w, 2) != 0 then 2 else 3;
    ByteIsZeroIff(ByteAt(w, k));
    var j: nat :| j < 8 && TestBit(ByteAt(w, k), j);
    i := 8 * k + j;
  }

  /** A byte changed in one bit. */
  function Changed(w: word, i: BitIndex, on: bool): word {
    var b := ByteAt(w, i / 8);
    WithByte(w, i / 8, if on then Or(b, Mask(i % 8)) else And(b, Not(Mask(i % 8))))
  }

  lemma BitOfChanged(w: word, i: BitIndex, on: bool, j: BitIndex)
    ensures BitOf(Changed(w, i, on), j) <==> if i == j then on else BitOf(w, j)
  {
    hide ByteAt, WithByte, TestBit, Or, And, Not, Mask;
    var b := ByteAt(w, i / 8);
    ByteOfWithByte(w, i / 8, if on then Or(b, Mask(i % 8)) else And(b, Not(Mask(i % 8))), j / 8);
    BitsOfBytes(b, Mask(i % 8), j % 8);
    BitsOfBytes(Mask(i % 8), 0, j % 8);
    BitsOfBytes(b, Not(Mask(i % 8)), j % 8);
    BitOfMask(i % 8, j % 8);
    assert i / 8 == j / 8 && i % 8 == j % 8 ==> i == j;
  }

  // -------------------------------------------------------------------------------------------
  // The set of a sequence of words
  // -------------------------------------------------------------------------------------------

  predicate Has(ws: seq<word>, i: nat) { i / 32 < |ws| && BitOf(ws[i / 32], i % 32) }

  ghost function Bits(ws: seq<word>): set<nat> {
    set i: nat | i < 32 * |ws| && Has(ws, i)
  }

  lemma InBits(ws: seq<word>, i: nat)
    ensures i in Bits(ws) <==> Has(ws, i)
  {
  }

  /** Changing one bit of one byte adds or removes one member. */
  lemma ChangedBits(ws: seq<word>, i: nat, on: bool)
    requires i / 32 < |ws|
    ensures Bits(ws[i / 32 := Changed(ws[i / 32], i % 32, on)]) == if on then Bits(ws) + {i} else Bits(ws) - {i}
  {
    hide BitOf, Changed;
    var vs := ws[i / 32 := Changed(ws[i / 32], i % 32, on)];
    forall j: nat
      ensures j in Bits(vs) <==> if i == j then on else j in Bits(ws)
    {
      BitOfChanged(ws[i / 32], i % 32, on, j % 32);
      assert i / 32 == j / 32 && i % 32 == j % 32 ==> i == j;
    }
  }

  /** Word by word, `&` is intersection and `|` is union. */
  lemma CombinedBits(vs: seq<word>, ws: seq<word>, both: seq<word>, either: seq<word>)
    requires |vs| == |ws| == |both| == |either|
    requires forall k :: 0 <= k < |vs| ==> both[k] == AndWord(vs[k], ws[k]) && either[k] == OrWord(vs[k], ws[k])
    ensures Bits(both) == Bits(vs) * Bits(ws) && Bits(either) == Bits(vs) + Bits(ws)
  {
    hide BitOf, AndWord, OrWord;
    forall i: nat | i / 32 < |vs|
      ensures Has(both, i) <==> Has(vs, i) && Has(ws, i)
      ensures Has(either, i) <==> Has(vs, i) || Has(ws, i)
    {
      BitsOfWords(vs[i / 32], ws[i / 32], i % 32);
    }
  }

  lemma ZeroBits(ws: seq<word>)
    requires forall k :: 0 <= k < |ws| ==> ws[k] == 0
    ensures Bits(ws) == {}
  {
    hide BitOf;
    forall i: nat | i / 32 < |ws|
      ensures !Has(ws, i)
    {
      BitsOfWords(0, 0, i % 32);
    }
  }

  /** `SetCount`: full blocks, and one more for the rest. */
  function Blocks(count: nat): nat { count / 32 + if count % 32 != 0 then 1 else 0 }

  lemma BlocksAreEnough(count: nat, i: nat)
    requires i < count
    ensures i / 32 < Blocks(count)
  {
  }

  /** Bit k is worth 2 to the power k. */
  lemma SampleBits()
    ensures Changed(0, 0, true) == 1 && Changed(0, 9, true) == 0x200 && Changed(0, 31, true) == 0x8000_0000
    ensures Changed(0xffff_ffff, 16, false) == 0xfffe_ffff
  {
  }

  // -------------------------------------------------------------------------------------------
  // The object
  // -------------------------------------------------------------------------------------------

  class UpdateMask {
    var words: array<word>
    var count: nat

    /** Members are below the count, although the last word has room for more. */
    ghost predicate Valid()
      reads this, words
    {
      words.Length == Blocks(count) && forall i :: i in Members() ==> i < count
    }

    ghost function Members(): set<nat>
      reads this, words
    {
      Bits(words[..])
    }

    constructor ()
      ensures Valid() && fresh(words) && count == 0 && Members() == {}
    {
      words := new word[0];
      count := 0;
    }

    method SetCount(n: nat)
      modifies this
      ensures Valid() && fresh(words) && count == n && Members() == {}
    {
      hide Bits;
      count := n;
      words := new word[Blocks(n)](_ => 0);
      ZeroBits(words[..]);
    }

    method Clear()
      requires Valid()
      modifies words
      ensures Valid() && Members() == {}
    {
      hide Bits;
      forall k | 0 <= k < words.Length {
        words[k] := 0;
      }
      ZeroBits(words[..]);
    }

    method SetBit(index: nat)
      requires Valid() && index < count
      modifies words
      ensures Valid() && Members() == old(Members()) + {index}
    {
      hide Bits, Changed;
      BlocksAreEnough(count, index);
      ghost var members := Members();
      ghost var before := words[..];
      words[index / 32] := Changed(words[index / 32], index % 32, true);
      ChangedBits(before, index, true);
      assert words[..] == before[index / 32 := Changed(before[index / 32], index % 32, true)];
      assert Members() == members + {index};
    }

    method UnsetBit(index: nat)
      requires Valid() && index < count
      modifies words
      ensures Valid() && Members() == old(Members()) - {index}
    {
      hide Bits, Changed;
      BlocksAreEnough(count, index);
      ghost var members := Members();
      ghost var before := words[..];
      words[index / 32] := Changed(words[index / 32], index % 32, false);
      ChangedBits(before, index, false);
      assert words[..] == before[index / 32 := Changed(before[index / 32], index % 32, false)];
      assert Members() == members - {index};
    }

    method GetBit(index: nat) returns (on: bool)
      requires Valid()
      ensures on <==> index in Members()
    {
      hide Bits, BitOf;
      InBits(words[..], index);
      if index < count {
        BlocksAreEnough(count, index);
        on := BitOf(words[index / 32], index % 32);
      } else {
        on := false;
      }
    }

    /** The number of blocks up to the last one that is not zero; at least 1. A mask without blocks
        would be read out of its bounds. */
    method GetUpdateBlockCount() returns (n: nat)
      requires Valid() && words.Length > 0
      ensures 1 <= n <= words.Length && forall i :: i in Members() ==> i < 32 * n
      ensures n == 1 || exists i :: i in Members() && 32 * (n - 1) <= i
    {
      hide BitOf;
      var x := words.Length - 1;
      while x != 0
        invariant 0 <= x < words.Length && forall k :: x < k < words.Length ==> words[k] == 0
      {
        if words[x] != 0 {
          break;
        }
        x := x - 1;
      }
      n := x + 1;
      forall i | i in Members()
        ensures i < 32 * n
      {
        BitsOfWords(0, 0, i % 32);
      }
      if n > 1 {
        var i := NonZeroWordHasBit(words[x]);
        assert Has(words[..], 32 * x + i);
        InBits(words[..], 32 * x + i);
        assert 32 * x + i in Members() && 32 * (n - 1) <= 32 * x + i;
      }
    }

    /** `operator =`. The words are emptied before they are copied: a mask assigned to itself is lost. */
    method Assign(mask: UpdateMask)
      requires mask.Valid()
      modifies this
      ensures Valid() && fresh(words) && count == old(mask.count)
      ensures Members() == if mask == this then {} else old(mask.Members())
    {
      hide Bits;
      ghost var before := mask.words[..];
      ghost var members := if mask == this then {} else mask.Members();
      SetCount(mask.count);
      ghost var zeros := words[..];
      assert mask != this ==> mask.words[..] == before;
      forall k | 0 <= k < words.Length {
        words[k] := mask.words[k];
      }
      assert words[..] == if mask == this then zeros else before;
      assert Members() == members;
    }

    /** `operator &=`. */
    method IntersectWith(mask: UpdateMask)
      requires Valid() && mask.Valid() && mask.count <= count && Blocks(mask.count) == Blocks(count)
      requires mask != this ==> mask.words != words
      modifies words
      ensures Valid() && Members() == old(Members()) * old(mask.Members())
    {
      hide Bits, AndWord, OrWord;
      ghost var members := Members() * mask.Members();
      ghost var vs, ws := words[..], mask.words[..];
      for i := 0 to words.Length
        invariant forall k :: 0 <= k < words.Length ==> words[k] == if k < i then AndWord(vs[k], ws[k]) else vs[k]
        invariant mask != this ==> mask.words[..] == ws
      {
        words[i] := AndWord(words[i], mask.words[i]);
      }
      CombinedBits(vs, ws, words[..], seq(|vs|, k requires 0 <= k < |vs| => OrWord(vs[k], ws[k])));
      assert Members() == members;
    }

    /** `operator |=`. */
    method UniteWith(mask: UpdateMask)
      requires Valid() && mask.Valid() && mask.count <= count && Blocks(mask.count) == Blocks(count)
      requires mask != this ==> mask.words != words
      modifies words
      ensures Valid() && Members() == old(Members()) + old(mask.Members())
    {
      hide Bits, AndWord, OrWord;
      ghost var members := Members() + mask.Members();
      ghost var vs, ws := words[..], mask.words[..];
      for i := 0 to words.Length
        invariant forall k :: 0 <= k < words.Length ==> words[k] == if k < i then OrWord(vs[k], ws[k]) else vs[k]
        invariant mask != this ==> mask.words[..] == ws
      {
        words[i] := OrWord(words[i], mask.words[i]);
      }
      CombinedBits(vs, ws, seq(|vs|, k requires 0 <= k < |vs| => AndWord(vs[k], ws[k])), words[..]);
      assert Members() == Bits(vs) + Bits(ws);
      assert Members() == members;
    }

    /** `operator &` and `operator |`: a new mask. */
    method Intersection(mask: UpdateMask) returns (r: UpdateMask)
      requires Valid() && mask.Valid() && mask.count <= count && Blocks(mask.count) == Blocks(count)
      ensures fresh(r) && r.Valid() && r.count == count && r.Members() == Members() * mask.Members()
    {
      r := new UpdateMask();
      r.Assign(this);
      r.IntersectWith(mask);
    }

    method Union(mask: UpdateMask) returns (r: UpdateMask)
      requires Valid() && mask.Valid() && mask.count <= count && Blocks(mask.count) == Blocks(count)
      ensures fresh(r) && r.Valid() && r.count == count && r.Members() == Members() + mask.Members()
    {
      r := new UpdateMask();
      r.Assign(this);
      r.UniteWith(mask);
    }
  }
}
