/** The substitution cipher (common/crypt.cpp): ten substitution rows used in turn, whose inverses are
    found by search. Bytes are numbers here, because they index the rows. */
module Cipher {
  import opened Collections
  import opened Words

  const ROWS := 10

  type Row = r: seq<u8> | |r| == 256 witness seq(256, _ => 0)

  const BLANK: Row := seq(256, _ => 0)

  type Dictionary = d: seq<Row> | |d| == ROWS witness [BLANK, BLANK, BLANK, BLANK, BLANK, BLANK, BLANK, BLANK, BLANK, BLANK]

  function XorByte(a: byte, b: byte): byte { a ^ b }

  lemma XorByteTwice(a: byte, b: byte)
    ensures XorByte(XorByte(a, b), b) == a
  {
  }

  function Xor(a: u8, b: u8): u8 { ByteValue(XorByte(ByteOf(a), ByteOf(b))) }

  lemma XorTwice(a: u8, b: u8)
    ensures Xor(Xor(a, b), b) == a
  {
    hide ByteValue, ByteOf, XorByte;
    ByteOfValue(XorByte(ByteOf(a), ByteOf(b)));
    XorByteTwice(ByteOf(a), ByteOf(b));
    ValueOfByte(a);
  }

  // -------------------------------------------------------------------------------------------
  // The inverse of a row
  // -------------------------------------------------------------------------------------------

  /** Where the search for `j` stops; 256 if it is not found. */
  function Search(row: Row, j: u8, k: nat): (r: nat)
    requires k <= 256
    ensures k <= r <= 256 && (r < 256 ==> row[r] == j) && forall i :: k <= i < r ==> row[i] != j
    decreases 256 - k
  {
    if k == 256 || row[k] == j then k else Search(row, j, k + 1)
  }

  /** As it is stored in a byte: not found becomes 0. */
  function Reverse(row: Row, j: u8): u8 { Search(row, j, 0) % 256 }

  ghost predicate Injective(row: Row) {
    forall x, y :: 0 <= x < y < 256 ==> row[x] != row[y]
  }

  ghost predicate Occurs(row: Row, j: u8) {
    exists x :: 0 <= x < 256 && row[x] == j
  }

  ghost predicate Surjective(row: Row) {
    forall j: u8 :: Occurs(row, j)
  }

  /** The search inverts a row from the left exactly when no byte occurs twice in it. */
  lemma ReverseIsLeftInverseIff(row: Row)
    ensures (forall x: u8 :: Reverse(row, row[x]) == x) <==> Injective(row)
  {
    if Injective(row) {
      forall x: u8
        ensures Reverse(row, row[x]) == x
      {
        var r := Search(row, row[x], 0);
        assert r <= x;
      }
    } else {
      var x, y :| 0 <= x < y < 256 && row[x] == row[y];
      assert Reverse(row, row[y]) <= x;
    }
  }

  /** And from the right exactly when every byte occurs. */
  lemma ReverseIsRightInverseIff(row: Row)
    ensures (forall j: u8 :: row[Reverse(row, j)] == j) <==> Surjective(row)
  {
    if Surjective(row) {
      forall j: u8
        ensures row[Reverse(row, j)] == j
      {
        assert Occurs(row, j);
        var x :| 0 <= x < 256 && row[x] == j;
        assert Search(row, j, 0) <= x;
      }
    } else if forall j: u8 :: row[Reverse(row, j)] == j {
      forall j: u8
        ensures Occurs(row, j)
      {
        assert row[Reverse(row, j)] == j;
      }
    }
  }

  ghost function Upto(n: nat): (r: set<int>)
    ensures |r| == n && forall x :: x in r <==> 0 <= x < n
  {
    if n == 0 then {} else Upto(n - 1) + {n - 1}
  }

  ghost function FirstEntries(row: Row, n: nat): set<int>
    requires n <= 256
  {
    set x | 0 <= x < n :: row[x]
  }

  lemma {:induction false} AsManyEntries(row: Row, n: nat)
    requires Injective(row) && n <= 256
    ensures |FirstEntries(row, n)| == n
  {
    if n > 0 {
      AsManyEntries(row, n - 1);
      assert FirstEntries(row, n) == FirstEntries(row, n - 1) + {row[n - 1]};
    }
  }

  lemma InjectiveIsSurjective(row: Row)
    requires Injective(row)
    ensures Surjective(row)
  {
    AsManyEntries(row, 256);
    assert FirstEntries(row, 256) <= Upto(256);
    SubsetSize(FirstEntries(row, 256), Upto(256));
    forall j: u8
      ensures Occurs(row, j)
    {
      assert j in Upto(256);
    }
  }

  /** A row in which no byte occurs twice is inverted from both sides. */
  lemma ReverseIsInverse(row: Row)
    requires Injective(row)
    ensures forall j: u8 :: row[Reverse(row, j)] == j && Reverse(row, row[j]) == j
  {
    InjectiveIsSurjective(row);
    ReverseIsLeftInverseIff(row);
    ReverseIsRightInverseIff(row);
  }

  /** `sslInitDictionary`. */
  method SslInitDictionary(dict: Dictionary, reversed: array2<u8>)
    requires reversed.Length0 == ROWS && reversed.Length1 == 256
    modifies reversed
    ensures forall i, j :: 0 <= i < ROWS && 0 <= j < 256 ==> reversed[i, j] == Reverse(dict[i], j)
  {
    hide Reverse;
    for i := 0 to ROWS
      invariant forall a, b :: 0 <= a < i && 0 <= b < 256 ==> reversed[a, b] == Reverse(dict[a], b)
    {
      for j := 0 to 256
        invariant forall a, b :: 0 <= a < i && 0 <= b < 256 ==> reversed[a, b] == Reverse(dict[a], b)
        invariant forall b :: 0 <= b < j ==> reversed[i, b] == Reverse(dict[i], b)
      {
        reversed[i, j] := FindByte(dict[i], j);
      }
    }
  }

  method FindByte(row: Row, j: u8) returns (r: u8)
    ensures r == Reverse(row, j)
  {
    var k := 0;
    while k < 256
      invariant 0 <= k <= 256 && Search(row, j, 0) == Search(row, j, k)
    {
      if row[k] == j {
        break;
      }
      k := k + 1;
    }
    r := k % 256;
  }

  // -------------------------------------------------------------------------------------------
  // Encrypting and decrypting
  // -------------------------------------------------------------------------------------------

  /** `sslEncrypt` under a non-zero key, `random` being rand() % 256: one byte more than the input. */
  function Encrypted(dict: Dictionary, key: u8, random: u8, input: seq<u8>): (out: seq<u8>)
    ensures |out| == |input| + 1
  {
    seq(|input|, i requires 0 <= i < |input| => Xor(dict[(random + i) % ROWS][input[i]], key)) + [random]
  }

  /** `sslDecrypt` under a non-zero key. */
  function Decrypted(dict: Dictionary, key: u8, data: seq<u8>): (out: seq<u8>)
    requires data != []
    ensures |out| == |data| - 1
  {
    var random := data[|data| - 1];
    seq(|data| - 1, i requires 0 <= i < |data| - 1 => Reverse(dict[(random + i) % ROWS], Xor(data[i], key)))
  }

  predicate RoundTrips(dict: Dictionary, key: u8, random: u8, input: seq<u8>) {
    Decrypted(dict, key, Encrypted(dict, key, random, input)) == input
  }

  /** Every message survives, whatever the key, the random byte and the length, exactly when no row of the
      dictionary holds a byte twice. */
  lemma RoundTripsIff(dict: Dictionary)
    ensures (forall key: u8, random: u8, input: seq<u8> :: RoundTrips(dict, key, random, input))
       <==> forall r :: 0 <= r < ROWS ==> Injective(dict[r])
  {
    if forall r :: 0 <= r < ROWS ==> Injective(dict[r]) {
      forall key: u8, random: u8, input: seq<u8>
        ensures RoundTrips(dict, key, random, input)
      {
        MessageSurvives(dict, key, random, input);
      }
    } else {
      var r :| 0 <= r < ROWS && !Injective(dict[r]);
      DamagedMessage(dict, r);
    }
  }

  lemma DecryptedAt(dict: Dictionary, key: u8, random: u8, input: seq<u8>, i: nat)
    requires i < |input|
    ensures var row := dict[(random + i) % ROWS];
      Decrypted(dict, key, Encrypted(dict, key, random, input))[i] == Reverse(row, row[input[i]])
  {
    hide Xor, Reverse;
    XorTwice(dict[(random + i) % ROWS][input[i]], key);
  }

  lemma MessageSurvives(dict: Dictionary, key: u8, random: u8, input: seq<u8>)
    requires forall r :: 0 <= r < ROWS ==> Injective(dict[r])
    ensures RoundTrips(dict, key, random, input)
  {
    hide Encrypted, Decrypted, Reverse, Injective;
    forall i | 0 <= i < |input|
      ensures Decrypted(dict, key, Encrypted(dict, key, random, input))[i] == input[i]
    {
      DecryptedAt(dict, key, random, input, i);
      ReverseIsLeftInverseIff(dict[(random + i) % ROWS]);
    }
  }

  /** A message of one byte tells a damaged row. */
  lemma DamagedMessage(dict: Dictionary, r: nat)
    requires r < ROWS && !Injective(dict[r])
    ensures exists x: u8 :: !RoundTrips(dict, 1, r, [x])
  {
    hide Encrypted, Decrypted, Reverse, Injective;
    ReverseIsLeftInverseIff(dict[r]);
    var x: u8 :| Reverse(dict[r], dict[r][x]) != x;
    DecryptedAt(dict, 1, r, [x], 0);
    assert !RoundTrips(dict, 1, r, [x]);
  }

  method SslEncrypt(dict: Dictionary, key: u8, random: u8, input: seq<u8>, out: array<u8>) returns (len: nat)
    requires out.Length > |input|
    modifies out
    ensures key == 0 ==> len == |input| && out[..] == old(out[..])
    ensures key != 0 ==> len == |input| + 1 && out[..len] == Encrypted(dict, key, random, input)
  {
    hide Xor;
    if key == 0 {
      return |input|;
    }
    for i := 0 to |input|
      invariant forall k :: 0 <= k < i ==> out[k] == Encrypted(dict, key, random, input)[k]
    {
      out[i] := Xor(dict[(random + i) % ROWS][input[i]], key);
    }
    out[|input|] := random;
    return |input| + 1;
  }

  /** The loop runs over the random byte too, and writes one byte more than the length it returns. */
  method SslDecrypt(dict: Dictionary, reversed: array2<u8>, key: u8, data: seq<u8>, out: array<u8>) returns (len: nat)
    requires reversed.Length0 == ROWS && reversed.Length1 == 256 && data != [] && out.Length >= |data|
    requires forall i, j :: 0 <= i < ROWS && 0 <= j < 256 ==> reversed[i, j] == Reverse(dict[i], j)
    modifies out
    ensures key == 0 ==> len == |data| && out[..] == old(out[..])
    ensures key != 0 ==> len == |data| - 1 && out[..len] == Decrypted(dict, key, data)
  {
    hide Xor, Reverse;
    if key == 0 {
      return |data|;
    }
    var random := data[|data| - 1];
    for i := 0 to |data|
      invariant forall k :: 0 <= k < i && k < |data| - 1 ==> out[k] == Decrypted(dict, key, data)[k]
      invariant forall i, j :: 0 <= i < ROWS && 0 <= j < 256 ==> reversed[i, j] == Reverse(dict[i], j)
    {
      out[i] := reversed[(random + i) % ROWS, Xor(data[i], key)];
    }
    return |data| - 1;
  }
}
