/** CRC-32 of a frame body (common/crypt.cpp): the table-driven, eight-way unrolled loop
    against the bit-at-a-time definition, and what the checksum is for: it notices damage. */
module Crc32 {
  import opened Words

  const POLY: word := 0xedb88320
  const ONES: word := 0xffffffff

  // -------------------------------------------------------------------------------------------
  // Definition, one bit at a time
  // -------------------------------------------------------------------------------------------

  /** Exclusive or, named, like the byte shifts below, so that proofs which only need its laws
      can keep its bits out of sight. */
  function Xor(a: word, b: word): word { a ^ b }

  function Widen(b: byte): word { b as word }

  function Low(c: word): word { c & 0xff }

  function Down(c: word): word { c >> 8 }

  function Up(c: word): word { c << 8 }

  /** One bit of the reflected polynomial division. */
  function Step(c: word): word {
    if c & 1 == 1 then Xor(POLY, c >> 1) else c >> 1
  }

  function Step4(c: word): word { Step(Step(Step(Step(c)))) }

  function Step8(c: word): word { Step4(Step4(c)) }

  /** The register after feeding `data` into register `c`, one byte after the other. */
  function Feed(c: word, data: seq<byte>): word
    decreases |data|
  {
    if data == [] then c else Feed(Step8(Xor(c, Widen(data[0]))), data[1..])
  }

  /** The CRC that continues from the CRC `seed` of what came before. */
  function Crc(seed: word, data: seq<byte>): word {
    Xor(Feed(Xor(seed, ONES), data), ONES)
  }

  lemma Digits1()
    ensures Step8(Xor(0xffffffff, Widen(0x31))) == 0x7c231048
    ensures Step8(Xor(0x7c231048, Widen(0x32))) == 0xb0acbb32
    ensures Step8(Xor(0xb0acbb32, Widen(0x33))) == 0x77b79c2d
  {
  }

  lemma Digits2()
    ensures Step8(Xor(0x77b79c2d, Widen(0x34))) == 0x641c1f5c
    ensures Step8(Xor(0x641c1f5c, Widen(0x35))) == 0x340ac5e3
    ensures Step8(Xor(0x340ac5e3, Widen(0x36))) == 0xf68d2c9e
  {
  }

  lemma Digits3()
    ensures Step8(Xor(0xf68d2c9e, Widen(0x37))) == 0xaffc9660
    ensures Step8(Xor(0xaffc9660, Widen(0x38))) == 0x651f2550
    ensures Step8(Xor(0x651f2550, Widen(0x39))) == 0x340bc6d9
  {
  }

  /** The check value of this CRC: the digits 1 to 9 give 0xcbf43926. */
  lemma CheckValue()
    ensures Crc(0, [0x31, 0x32, 0x33, 0x34, 0x35, 0x36, 0x37, 0x38, 0x39]) == 0xcbf43926
  {
    Digits1();
    Digits2();
    Digits3();
    var data := [0x31, 0x32, 0x33, 0x34, 0x35, 0x36, 0x37, 0x38, 0x39];
    assert Xor(0, ONES) == ONES && Xor(0x340bc6d9, ONES) == 0xcbf43926;
    hide Step8, Xor, Widen;
    assert Feed(0x340bc6d9, data[9..]) == 0x340bc6d9;
    assert Feed(0x651f2550, data[8..]) == 0x340bc6d9;
    assert Feed(0xaffc9660, data[7..]) == 0x340bc6d9;
    assert Feed(0xf68d2c9e, data[6..]) == 0x340bc6d9;
    assert Feed(0x340ac5e3, data[5..]) == 0x340bc6d9;
    assert Feed(0x641c1f5c, data[4..]) == 0x340bc6d9;
    assert Feed(0x77b79c2d, data[3..]) == 0x340bc6d9;
    assert Feed(0xb0acbb32, data[2..]) == 0x340bc6d9;
    assert Feed(0x7c231048, data[1..]) == 0x340bc6d9;
    assert Feed(0xffffffff, data[0..]) == 0x340bc6d9;
    assert data[0..] == data;
  }

  // -------------------------------------------------------------------------------------------
  // The table
  // -------------------------------------------------------------------------------------------

  function CrcTable(i: byte): word {
    match i >> 4
    case 0 => CrcRow0(i & 15) case 1 => CrcRow1(i & 15) case 2 => CrcRow2(i & 15) case 3 => CrcRow3(i & 15)
    case 4 => CrcRow4(i & 15) case 5 => CrcRow5(i & 15) case 6 => CrcRow6(i & 15) case 7 => CrcRow7(i & 15)
    case 8 => CrcRow8(i & 15) case 9 => CrcRow9(i & 15) case 10 => CrcRowA(i & 15) case 11 => CrcRowB(i & 15)
    case 12 => CrcRowC(i & 15) case 13 => CrcRowD(i & 15) case 14 => CrcRowE(i & 15) case _ => CrcRowF(i & 15)
  }

  function CrcRow0(low: bv8): bv32 {
    match low
    case 0 => 0x00000000 case 1 => 0x77073096 case 2 => 0xee0e612c case 3 => 0x990951ba
    case 4 => 0x076dc419 case 5 => 0x706af48f case 6 => 0xe963a535 case 7 => 0x9e6495a3
    case 8 => 0x0edb8832 case 9 => 0x79dcb8a4 case 10 => 0xe0d5e91e case 11 => 0x97d2d988
    case 12 => 0x09b64c2b case 13 => 0x7eb17cbd case 14 => 0xe7b82d07 case _ => 0x90bf1d91
  }

  function CrcRow1(low: bv8): bv32 {
    match low
    case 0 => 0x1db71064 case 1 => 0x6ab020f2 case 2 => 0xf3b97148 case 3 => 0x84be41de
    case 4 => 0x1adad47d case 5 => 0x6ddde4eb case 6 => 0xf4d4b551 case 7 => 0x83d385c7
    case 8 => 0x136c9856 case 9 => 0x646ba8c0 case 10 => 0xfd62f97a case 11 => 0x8a65c9ec
    case 12 => 0x14015c4f case 13 => 0x63066cd9 case 14 => 0xfa0f3d63 case _ => 0x8d080df5
  }

  function CrcRow2(low: bv8): bv32 {
    match low
    case 0 => 0x3b6e20c8 case 1 => 0x4c69105e case 2 => 0xd56041e4 case 3 => 0xa2677172
    case 4 => 0x3c03e4d1 case 5 => 0x4b04d447 case 6 => 0xd20d85fd case 7 => 0xa50ab56b
    case 8 => 0x35b5a8fa case 9 => 0x42b2986c case 10 => 0xdbbbc9d6 case 11 => 0xacbcf940
    case 12 => 0x32d86ce3 case 13 => 0x45df5c75 case 14 => 0xdcd60dcf case _ => 0xabd13d59
  }

  function CrcRow3(low: bv8): bv32 {
    match low
    case 0 => 0x26d930ac case 1 => 0x51de003a case 2 => 0xc8d75180 case 3 => 0xbfd06116
    case 4 => 0x21b4f4b5 case 5 => 0x56b3c423 case 6 => 0xcfba9599 case 7 => 0xb8bda50f
    case 8 => 0x2802b89e case 9 => 0x5f058808 case 10 => 0xc60cd9b2 case 11 => 0xb10be924
    case 12 => 0x2f6f7c87 case 13 => 0x58684c11 case 14 => 0xc1611dab case _ => 0xb6662d3d
  }

  function CrcRow4(low: bv8): bv32 {
    match low
    case 0 => 0x76dc4190 case 1 => 0x01db7106 case 2 => 0x98d220bc case 3 => 0xefd5102a
    case 4 => 0x71b18589 case 5 => 0x06b6b51f case 6 => 0x9fbfe4a5 case 7 => 0xe8b8d433
    case 8 => 0x7807c9a2 case 9 => 0x0f00f934 case 10 => 0x9609a88e case 11 => 0xe10e9818
    case 12 => 0x7f6a0dbb case 13 => 0x086d3d2d case 14 => 0x91646c97 case _ => 0xe6635c01
  }

  function CrcRow5(low: bv8): bv32 {
    match low
    case 0 => 0x6b6b51f4 case 1 => 0x1c6c6162 case 2 => 0x856530d8 case 3 => 0xf262004e
    case 4 => 0x6c0695ed case 5 => 0x1b01a57b case 6 => 0x8208f4c1 case 7 => 0xf50fc457
    case 8 => 0x65b0d9c6 case 9 => 0x12b7e950 case 10 => 0x8bbeb8ea case 11 => 0xfcb9887c
    case 12 => 0x62dd1ddf case 13 => 0x15da2d49 case 14 => 0x8cd37cf3 case _ => 0xfbd44c65
  }

  function CrcRow6(low: bv8): bv32 {
    match low
    case 0 => 0x4db26158 case 1 => 0x3ab551ce case 2 => 0xa3bc0074 case 3 => 0xd4bb30e2
    case 4 => 0x4adfa541 case 5 => 0x3dd895d7 case 6 => 0xa4d1c46d case 7 => 0xd3d6f4fb
    case 8 => 0x4369e96a case 9 => 0x346ed9fc case 10 => 0xad678846 case 11 => 0xda60b8d0
    case 12 => 0x44042d73 case 13 => 0x33031de5 case 14 => 0xaa0a4c5f case _ => 0xdd0d7cc9
  }

  function CrcRow7(low: bv8): bv32 {
    match low
    case 0 => 0x5005713c case 1 => 0x270241aa case 2 => 0xbe0b1010 case 3 => 0xc90c2086
    case 4 => 0x5768b525 case 5 => 0x206f85b3 case 6 => 0xb966d409 case 7 => 0xce61e49f
    case 8 => 0x5edef90e case 9 => 0x29d9c998 case 10 => 0xb0d09822 case 11 => 0xc7d7a8b4
    case 12 => 0x59b33d17 case 13 => 0x2eb40d81 case 14 => 0xb7bd5c3b case _ => 0xc0ba6cad
  }

  function CrcRow8(low: bv8): bv32 {
    match low
    case 0 => 0xedb88320 case 1 => 0x9abfb3b6 case 2 => 0x03b6e20c case 3 => 0x74b1d29a
    case 4 => 0xead54739 case 5 => 0x9dd277af case 6 => 0x04db2615 case 7 => 0x73dc1683
    case 8 => 0xe3630b12 case 9 => 0x94643b84 case 10 => 0x0d6d6a3e case 11 => 0x7a6a5aa8
    case 12 => 0xe40ecf0b case 13 => 0x9309ff9d case 14 => 0x0a00ae27 case _ => 0x7d079eb1
  }

  function CrcRow9(low: bv8): bv32 {
    match low
    case 0 => 0xf00f9344 case 1 => 0x8708a3d2 case 2 => 0x1e01f268 case 3 => 0x6906c2fe
    case 4 => 0xf762575d case 5 => 0x806567cb case 6 => 0x196c3671 case 7 => 0x6e6b06e7
    case 8 => 0xfed41b76 case 9 => 0x89d32be0 case 10 => 0x10da7a5a case 11 => 0x67dd4acc
    case 12 => 0xf9b9df6f case 13 => 0x8ebeeff9 case 14 => 0x17b7be43 case _ => 0x60b08ed5
  }

  function CrcRowA(low: bv8): bv32 {
    match low
    case 0 => 0xd6d6a3e8 case 1 => 0xa1d1937e case 2 => 0x38d8c2c4 case 3 => 0x4fdff252
    case 4 => 0xd1bb67f1 case 5 => 0xa6bc5767 case 6 => 0x3fb506dd case 7 => 0x48b2364b
    case 8 => 0xd80d2bda case 9 => 0xaf0a1b4c case 10 => 0x36034af6 case 11 => 0x41047a60
    case 12 => 0xdf60efc3 case 13 => 0xa867df55 case 14 => 0x316e8eef case _ => 0x4669be79
  }

  function CrcRowB(low: bv8): bv32 {
    match low
    case 0 => 0xcb61b38c case 1 => 0xbc66831a case 2 => 0x256fd2a0 case 3 => 0x5268e236
    case 4 => 0xcc0c7795 case 5 => 0xbb0b4703 case 6 => 0x220216b9 case 7 => 0x5505262f
    case 8 => 0xc5ba3bbe case 9 => 0xb2bd0b28 case 10 => 0x2bb45a92 case 11 => 0x5cb36a04
    case 12 => 0xc2d7ffa7 case 13 => 0xb5d0cf31 case 14 => 0x2cd99e8b case _ => 0x5bdeae1d
  }

  function CrcRowC(low: bv8): bv32 {
    match low
    case 0 => 0x9b64c2b0 case 1 => 0xec63f226 case 2 => 0x756aa39c case 3 => 0x026d930a
    case 4 => 0x9c0906a9 case 5 => 0xeb0e363f case 6 => 0x72076785 case 7 => 0x05005713
    case 8 => 0x95bf4a82 case 9 => 0xe2b87a14 case 10 => 0x7bb12bae case 11 => 0x0cb61b38
    case 12 => 0x92d28e9b case 13 => 0xe5d5be0d case 14 => 0x7cdcefb7 case _ => 0x0bdbdf21
  }

  function CrcRowD(low: bv8): bv32 {
    match low
    case 0 => 0x86d3d2d4 case 1 => 0xf1d4e242 case 2 => 0x68ddb3f8 case 3 => 0x1fda836e
    case 4 => 0x81be16cd case 5 => 0xf6b9265b case 6 => 0x6fb077e1 case 7 => 0x18b74777
    case 8 => 0x88085ae6 case 9 => 0xff0f6a70 case 10 => 0x66063bca case 11 => 0x11010b5c
    case 12 => 0x8f659eff case 13 => 0xf862ae69 case 14 => 0x616bffd3 case _ => 0x166ccf45
  }

  function CrcRowE(low: bv8): bv32 {
    match low
    case 0 => 0xa00ae278 case 1 => 0xd70dd2ee case 2 => 0x4e048354 case 3 => 0x3903b3c2
    case 4 => 0xa7672661 case 5 => 0xd06016f7 case 6 => 0x4969474d case 7 => 0x3e6e77db
    case 8 => 0xaed16a4a case 9 => 0xd9d65adc case 10 => 0x40df0b66 case 11 => 0x37d83bf0
    case 12 => 0xa9bcae53 case 13 => 0xdebb9ec5 case 14 => 0x47b2cf7f case _ => 0x30b5ffe9
  }

  function CrcRowF(low: bv8): bv32 {
    match low
    case 0 => 0xbdbdf21c case 1 => 0xcabac28a case 2 => 0x53b39330 case 3 => 0x24b4a3a6
    case 4 => 0xbad03605 case 5 => 0xcdd70693 case 6 => 0x54de5729 case 7 => 0x23d967bf
    case 8 => 0xb3667a2e case 9 => 0xc4614ab8 case 10 => 0x5d681b02 case 11 => 0x2a6f2b94
    case 12 => 0xb40bbe37 case 13 => 0xc30c8ea1 case 14 => 0x5a05df1b case _ => 0x2d02ef8d
  }

  // The sixteen rows, each for every index in it.
  lemma Row0Is(k: byte) requires k < 16 ensures CrcRow0(k) == Step8((k | 0x00) as word) {}
  lemma Row1Is(k: byte) requires k < 16 ensures CrcRow1(k) == Step8((k | 0x10) as word) {}
  lemma Row2Is(k: byte) requires k < 16 ensures CrcRow2(k) == Step8((k | 0x20) as word) {}
  lemma Row3Is(k: byte) requires k < 16 ensures CrcRow3(k) == Step8((k | 0x30) as word) {}
  lemma Row4Is(k: byte) requires k < 16 ensures CrcRow4(k) == Step8((k | 0x40) as word) {}
  lemma Row5Is(k: byte) requires k < 16 ensures CrcRow5(k) == Step8((k | 0x50) as word) {}
  lemma Row6Is(k: byte) requires k < 16 ensures CrcRow6(k) == Step8((k | 0x60) as word) {}
  lemma Row7Is(k: byte) requires k < 16 ensures CrcRow7(k) == Step8((k | 0x70) as word) {}
  lemma Row8Is(k: byte) requires k < 16 ensures CrcRow8(k) == Step8((k | 0x80) as word) {}
  lemma Row9Is(k: byte) requires k < 16 ensures CrcRow9(k) == Step8((k | 0x90) as word) {}
  lemma RowAIs(k: byte) requires k < 16 ensures CrcRowA(k) == Step8((k | 0xA0) as word) {}
  lemma RowBIs(k: byte) requires k < 16 ensures CrcRowB(k) == Step8((k | 0xB0) as word) {}
  lemma RowCIs(k: byte) requires k < 16 ensures CrcRowC(k) == Step8((k | 0xC0) as word) {}
  lemma RowDIs(k: byte) requires k < 16 ensures CrcRowD(k) == Step8((k | 0xD0) as word) {}
  lemma RowEIs(k: byte) requires k < 16 ensures CrcRowE(k) == Step8((k | 0xE0) as word) {}
  lemma RowFIs(k: byte) requires k < 16 ensures CrcRowF(k) == Step8((k | 0xF0) as word) {}

  /** Every one of the 256 constants is the eight-fold step of its index. */
  lemma TableIsEightSteps(i: byte)
    ensures CrcTable(i) == Step8(i as word)
  {
    hide Step8, CrcRow0, CrcRow1, CrcRow2, CrcRow3, CrcRow4, CrcRow5, CrcRow6, CrcRow7;
    hide CrcRow8, CrcRow9, CrcRowA, CrcRowB, CrcRowC, CrcRowD, CrcRowE, CrcRowF;
    var k := i & 15;
    match i >> 4
    case 0 => assert k | 0x00 == i; Row0Is(k);
    case 1 => assert k | 0x10 == i; Row1Is(k);
    case 2 => assert k | 0x20 == i; Row2Is(k);
    case 3 => assert k | 0x30 == i; Row3Is(k);
    case 4 => assert k | 0x40 == i; Row4Is(k);
    case 5 => assert k | 0x50 == i; Row5Is(k);
    case 6 => assert k | 0x60 == i; Row6Is(k);
    case 7 => assert k | 0x70 == i; Row7Is(k);
    case 8 => assert k | 0x80 == i; Row8Is(k);
    case 9 => assert k | 0x90 == i; Row9Is(k);
    case 10 => assert k | 0xA0 == i; RowAIs(k);
    case 11 => assert k | 0xB0 == i; RowBIs(k);
    case 12 => assert k | 0xC0 == i; RowCIs(k);
    case 13 => assert k | 0xD0 == i; RowDIs(k);
    case 14 => assert k | 0xE0 == i; RowEIs(k);
    case _ => assert k | 0xF0 == i; RowFIs(k);
  }

  // -------------------------------------------------------------------------------------------
  // The step is linear and one-to-one
  // -------------------------------------------------------------------------------------------

  lemma ShiftLinear(a: word, b: word)
    ensures (a ^ b) >> 1 == (a >> 1) ^ (b >> 1)
    ensures ((a ^ b) & 1 == 1) == ((a & 1 == 1) != (b & 1 == 1))
  {
  }

  lemma XorShuffle(p: word, a: word, b: word)
    ensures p ^ (a ^ b) == (p ^ a) ^ b
    ensures p ^ (a ^ b) == a ^ (p ^ b)
    ensures a ^ b == (p ^ a) ^ (p ^ b)
  {
  }

  lemma StepLinear(a: word, b: word)
    ensures Step(Xor(a, b)) == Xor(Step(a), Step(b))
  {
    ShiftLinear(a, b);
    XorShuffle(POLY, a >> 1, b >> 1);
  }

  lemma Step4Linear(a: word, b: word)
    ensures Step4(Xor(a, b)) == Xor(Step4(a), Step4(b))
  {
    hide Step, Xor;
    StepLinear(a, b);
    StepLinear(Step(a), Step(b));
    StepLinear(Step(Step(a)), Step(Step(b)));
    StepLinear(Step(Step(Step(a))), Step(Step(Step(b))));
  }

  lemma Step8Linear(a: word, b: word)
    ensures Step8(Xor(a, b)) == Xor(Step8(a), Step8(b))
  {
    hide Step4, Xor;
    Step4Linear(a, b);
    Step4Linear(Step4(a), Step4(b));
  }

  lemma Step8OfHigh(c: word)
    requires Low(c) == 0
    ensures Step8(c) == Down(c)
  {
  }

  function High(c: word): word { c & 0xffffff00 }

  lemma SplitLow(c: word)
    ensures c == Xor(Low(c), High(c)) && Low(High(c)) == 0 && Down(High(c)) == Down(c)
  {
  }

  /** Eight steps depend on the low byte only, the rest is shifted down. */
  lemma Step8ByLowByte(c: word)
    ensures Step8(c) == Xor(Step8(Low(c)), Down(c))
  {
    hide Step8, Xor, Low, High, Down;
    SplitLow(c);
    Step8Linear(Low(c), High(c));
    Step8OfHigh(High(c));
  }

  lemma StepInjective(a: word, b: word)
    requires Step(a) == Step(b)
    ensures a == b
  {
  }

  lemma Step4Injective(a: word, b: word)
    requires Step4(a) == Step4(b)
    ensures a == b
  {
    hide Step;
    StepInjective(Step(Step(Step(a))), Step(Step(Step(b))));
    StepInjective(Step(Step(a)), Step(Step(b)));
    StepInjective(Step(a), Step(b));
    StepInjective(a, b);
  }

  lemma Step8Injective(a: word, b: word)
    requires Step8(a) == Step8(b)
    ensures a == b
  {
    hide Step4;
    Step4Injective(Step4(a), Step4(b));
    Step4Injective(a, b);
  }

  // -------------------------------------------------------------------------------------------
  // Properties of the checksum
  // -------------------------------------------------------------------------------------------

  lemma {:induction false} FeedConcat(c: word, a: seq<byte>, b: seq<byte>)
    ensures Feed(c, a + b) == Feed(Feed(c, a), b)
    decreases |a|
  {
    hide Step8, Xor;
    if a == [] {
      assert a + b == b;
    } else {
      assert (a + b)[1..] == a[1..] + b;
      FeedConcat(Step8(Xor(c, Widen(a[0]))), a[1..], b);
    }
  }

  lemma XorCancel(c: word, d: word, b: word)
    ensures Xor(Xor(c, b), b) == c
    ensures Xor(c, b) == Xor(d, b) ==> c == d
  {
  }

  /** The result of one part, used as the seed of the next, continues the CRC of the whole. */
  lemma CrcChains(seed: word, a: seq<byte>, b: seq<byte>)
    ensures Crc(Crc(seed, a), b) == Crc(seed, a + b)
  {
    hide Feed, Xor;
    XorCancel(Feed(Xor(seed, ONES), a), 0, ONES);
    FeedConcat(Xor(seed, ONES), a, b);
  }

  lemma {:induction false} FeedInjective(c: word, d: word, data: seq<byte>)
    requires Feed(c, data) == Feed(d, data)
    ensures c == d
    decreases |data|
  {
    hide Step8, Xor;
    if data != [] {
      var b := Widen(data[0]);
      FeedInjective(Step8(Xor(c, b)), Step8(Xor(d, b)), data[1..]);
      Step8Injective(Xor(c, b), Xor(d, b));
      XorCancel(c, d, b);
    }
  }

  predicate Fits(b: word) { b >> 24 == 0 }

  /** A byte that is fed after eight steps could have been fed before them, one byte higher. */
  lemma Push(c: word, b: word)
    requires Fits(b)
    ensures Xor(Step8(c), b) == Step8(Xor(c, Up(b)))
  {
    hide Step8, Xor, Low, Up, Down, Fits;
    Step8Linear(c, Up(b));
    ShiftUp(b);
    Step8OfHigh(Up(b));
  }

  lemma ShiftUp(b: word)
    requires Fits(b)
    ensures Low(Up(b)) == 0
    ensures Down(Up(b)) == b
  {
  }

  lemma ByteFits(b: byte)
    ensures Fits(Widen(b)) && Fits(Up(Widen(b))) && Fits(Up(Up(Widen(b))))
  {
  }

  lemma FeedSingle(c: word, b: byte)
    ensures Feed(c, []) == c && Feed(c, [b]) == Step8(Xor(c, Widen(b)))
  {
    hide Step8, Xor;
  }

  lemma FourFeeds(c: word, b: seq<byte>)
    requires |b| == 4
    ensures Feed(c, b) ==
            Step8(Xor(Step8(Xor(Step8(Xor(Step8(Xor(c, Widen(b[0]))), Widen(b[1]))), Widen(b[2]))), Widen(b[3])))
  {
    hide Step8, Xor, Feed;
    var c1 := Step8(Xor(c, Widen(b[0])));
    var c2 := Step8(Xor(c1, Widen(b[1])));
    FeedSingle(c, b[0]);
    FeedSingle(c1, b[1]);
    FeedSingle(c2, b[2]);
    FeedSingle(Step8(Xor(c2, Widen(b[2]))), b[3]);
    FeedConcat(c, [b[0]], [b[1]]);
    FeedConcat(c, [b[0]] + [b[1]], [b[2]]);
    FeedConcat(c, [b[0]] + [b[1]] + [b[2]], [b[3]]);
    assert b == [b[0]] + [b[1]] + [b[2]] + [b[3]];
  }

  lemma XorAssoc(a: word, b: word, c: word)
    ensures Xor(Xor(a, b), c) == Xor(a, Xor(b, c))
  {
  }

  /** The word that four bytes form, low-order byte first. */
  function Pack(b0: word, b1: word, b2: word, b3: word): word {
    Xor(Xor(Xor(b0, Up(b1)), Up(Up(b2))), Up(Up(Up(b3))))
  }

  /** The register after four bytes, with every byte moved up to where it enters. */
  lemma FourPushes(c: word, b0: word, b1: word, b2: word, b3: word)
    requires Fits(b1) && Fits(b2) && Fits(Up(b2)) && Fits(b3) && Fits(Up(b3)) && Fits(Up(Up(b3)))
    ensures Step8(Xor(Step8(Xor(Step8(Xor(Step8(Xor(c, b0)), b1)), b2)), b3))
         == Step8(Step8(Step8(Step8(Xor(c, Pack(b0, b1, b2, b3))))))
  {
    hide Step8, Xor, Up, Fits;
    var c1 := Xor(c, b0);
    var c2 := Xor(c1, Up(b1));
    var c3 := Xor(c2, Up(Up(b2)));
    Push(c1, b1);
    Push(Step8(c2), b2);
    Push(c2, Up(b2));
    Push(Step8(Step8(c3)), b3);
    Push(Step8(c3), Up(b3));
    Push(c3, Up(Up(b3)));
    XorAssoc(c, b0, Up(b1));
    XorAssoc(c, Xor(b0, Up(b1)), Up(Up(b2)));
    XorAssoc(c, Xor(Xor(b0, Up(b1)), Up(Up(b2))), Up(Up(Up(b3))));
  }

  /** Feeding four bytes is feeding, all at once, the word they form. */
  lemma FeedWord(c: word, b: seq<byte>)
    requires |b| == 4
    ensures Feed(c, b) == Step8(Step8(Step8(Step8(Xor(c, PackBytes(b))))))
  {
    hide Step8, Pack, Feed, Xor, Up, Fits, Widen;
    FourFeeds(c, b);
    ByteFits(b[1]);
    ByteFits(b[2]);
    ByteFits(b[3]);
    FourPushes(c, Widen(b[0]), Widen(b[1]), Widen(b[2]), Widen(b[3]));
  }

  function PackBytes(b: seq<byte>): word
    requires |b| == 4
  {
    Pack(Widen(b[0]), Widen(b[1]), Widen(b[2]), Widen(b[3]))
  }

  lemma PackInjective(x0: byte, x1: byte, x2: byte, x3: byte, y0: byte, y1: byte, y2: byte, y3: byte)
    requires Pack(Widen(x0), Widen(x1), Widen(x2), Widen(x3)) == Pack(Widen(y0), Widen(y1), Widen(y2), Widen(y3))
    ensures x0 == y0 && x1 == y1 && x2 == y2 && x3 == y3
  {
  }

  /** Two different four-byte blocks never take the register to the same value. */
  lemma BlocksSeparate(c: word, x: seq<byte>, y: seq<byte>)
    requires |x| == |y| == 4 && x != y
    ensures Feed(c, x) != Feed(c, y)
  {
    hide Step8, Feed, Pack, Widen, Xor;
    if Feed(c, x) == Feed(c, y) {
      FeedWord(c, x);
      FeedWord(c, y);
      var u, v := Xor(c, PackBytes(x)), Xor(c, PackBytes(y));
      Step8Injective(Step8(Step8(Step8(u))), Step8(Step8(Step8(v))));
      Step8Injective(Step8(Step8(u)), Step8(Step8(v)));
      Step8Injective(Step8(u), Step8(v));
      Step8Injective(u, v);
      XorSwap(c, PackBytes(x), PackBytes(y));
      PackInjective(x[0], x[1], x[2], x[3], y[0], y[1], y[2], y[3]);
    }
  }

  lemma XorSwap(c: word, a: word, b: word)
    requires Xor(c, a) == Xor(c, b)
    ensures a == b
  {
  }

  /** Damage confined to at most four consecutive bytes always changes the checksum. */
  lemma BurstChangesCrc(seed: word, before: seq<byte>, x: seq<byte>, y: seq<byte>, after: seq<byte>)
    requires |x| == |y| <= 4 && x != y
    ensures Crc(seed, before + x + after) != Crc(seed, before + y + after)
  {
    hide Feed, Xor;
    var start := Xor(seed, ONES);
    var c := Feed(start, before);
    var zeros := seq(4 - |x|, _ => 0 as byte);
    FeedConcat(start, before, x);
    FeedConcat(start, before, y);
    FeedConcat(start, before + x, after);
    FeedConcat(start, before + y, after);
    FeedConcat(c, x, zeros);
    FeedConcat(c, y, zeros);
    assert (x + zeros)[..|x|] == x && (y + zeros)[..|x|] == y;
    BlocksSeparate(c, x + zeros, y + zeros);
    if Crc(seed, before + x + after) == Crc(seed, before + y + after) {
      XorCancel(Feed(Feed(c, x), after), Feed(Feed(c, y), after), ONES);
      FeedInjective(Feed(c, x), Feed(c, y), after);
    }
  }

  // -------------------------------------------------------------------------------------------
  // The code
  // -------------------------------------------------------------------------------------------

  datatype Buffer = Null | Bytes(data: seq<byte>)

  /** A `char` widened to the type of the register where `char` is signed. */
  function WidenChar(b: byte): word {
    if b & 0x80 == 0 then Widen(b) else Widen(b) | 0xffff_ff00
  }

  /** DO1: one table step. The mask discards whatever the sign extension put above the low byte. */
  function DoOne(crc: word, b: byte): word {
    Xor(CrcTable(Low(Xor(crc, WidenChar(b))) as byte), Down(crc))
  }

  lemma MaskedIndex(crc: word, b: byte)
    ensures Low(Xor(crc, WidenChar(b))) == Low(Xor(crc, Widen(b))) < 0x100
    ensures (Low(Xor(crc, Widen(b))) as byte) as word == Low(Xor(crc, Widen(b)))
    ensures Down(Xor(crc, Widen(b))) == Down(crc)
  {
  }

  lemma DoOneIsEightSteps(crc: word, b: byte)
    ensures DoOne(crc, b) == Step8(Xor(crc, Widen(b)))
  {
    MaskedIndex(crc, b);
    hide Step8, CrcTable, Xor, WidenChar, Down;
    TableIsEightSteps(Low(Xor(crc, Widen(b))) as byte);
    Step8ByLowByte(Xor(crc, Widen(b)));
  }

  lemma FeedOne(c: word, data: seq<byte>, i: nat)
    requires i < |data|
    ensures Feed(c, data[..i + 1]) == DoOne(Feed(c, data[..i]), data[i])
  {
    hide Step8, DoOne, Xor;
    assert data[..i + 1] == data[..i] + [data[i]];
    FeedConcat(c, data[..i], [data[i]]);
    DoOneIsEightSteps(Feed(c, data[..i]), data[i]);
    FeedSingle(Feed(c, data[..i]), data[i]);
  }

  /** The loop of eight table steps at a time, then the loop over what is left. */
  method ComputeCrc(seed: word, buffer: Buffer) returns (crc: word)
    ensures crc == match buffer case Null => 0 case Bytes(data) => Crc(seed, data)
  {
    hide DoOne, Feed, Xor;
    if buffer == Null {
      return 0;
    }
    var data := buffer.data;
    var start := Xor(seed, ONES);
    crc := start;
    var p, len := 0, |data|;
    FeedSingle(start, 0);
    assert data[..0] == [];
    while len >= 8
      invariant 0 <= p && 0 <= len && p + len == |data|
      invariant crc == Feed(start, data[..p])
    {
      FeedOne(start, data, p);
      FeedOne(start, data, p + 1);
      FeedOne(start, data, p + 2);
      FeedOne(start, data, p + 3);
      FeedOne(start, data, p + 4);
      FeedOne(start, data, p + 5);
      FeedOne(start, data, p + 6);
      FeedOne(start, data, p + 7);
      crc := DoOne(crc, data[p]);
      crc := DoOne(crc, data[p + 1]);
      crc := DoOne(crc, data[p + 2]);
      crc := DoOne(crc, data[p + 3]);
      crc := DoOne(crc, data[p + 4]);
      crc := DoOne(crc, data[p + 5]);
      crc := DoOne(crc, data[p + 6]);
      crc := DoOne(crc, data[p + 7]);
      p, len := p + 8, len - 8;
    }
    while len != 0
      invariant 0 <= p && 0 <= len && p + len == |data|
      invariant crc == Feed(start, data[..p])
    {
      FeedOne(start, data, p);
      crc := DoOne(crc, data[p]);
      p, len := p + 1, len - 1;
    }
    assert data[..p] == data;
    crc := Xor(crc, ONES);
  }
}
