/** Numbers and lists as text: what `sprintf("%d")`, `atoi` and `SplitStringA` (common/utilities.cpp) do. */
module Text {
  import opened Words

  // -------------------------------------------------------------------------------------------
  // Numbers
  // -------------------------------------------------------------------------------------------

  function Digit(k: nat): char {
    match k
    case 0 => '0' case 1 => '1' case 2 => '2' case 3 => '3' case 4 => '4'
    case 5 => '5' case 6 => '6' case 7 => '7' case 8 => '8' case _ => '9'
  }

  predicate IsDigit(c: char) { '0' <= c <= '9' }

  function DigitValue(c: char): (k: nat)
    ensures k < 10
  {
    match c
    case '0' => 0 case '1' => 1 case '2' => 2 case '3' => 3 case '4' => 4
    case '5' => 5 case '6' => 6 case '7' => 7 case '8' => 8 case _ => 9
  }

  lemma DigitInverse(k: nat)
    requires k < 10
    ensures IsDigit(Digit(k)) && DigitValue(Digit(k)) == k
  {
  }

  function PrintNat(n: nat): (s: string)
    ensures s != ""
  {
    (if n < 10 then "" else PrintNat(n / 10)) + [Digit(n % 10)]
  }

  /** `sprintf("%d", n)`. */
  function PrintInt(n: int): (s: string)
    ensures s != ""
  {
    if n < 0 then "-" + PrintNat(-n) else PrintNat(n)
  }

  predicate IsSpace(c: char) { c == ' ' || '\t' <= c <= '\r' }

  /** The value of the digits at the front of `s`, after digits worth `before`. */
  function LeadingDigits(s: string, before: nat): nat {
    if s == "" || !IsDigit(s[0]) then before else LeadingDigits(s[1..], 10 * before + DigitValue(s[0]))
  }

  /** `atoi`: blanks, a sign, and digits up to the first other character; 0 if there are none. */
  function Atoi(s: string): int {
    if s == "" then 0
    else if IsSpace(s[0]) then Atoi(s[1..])
    else if s[0] == '-' then -(LeadingDigits(s[1..], 0) as int)
    else if s[0] == '+' then LeadingDigits(s[1..], 0)
    else LeadingDigits(s, 0)
  }

  predicate AllDigits(s: string) { forall k :: 0 <= k < |s| ==> IsDigit(s[k]) }

  lemma {:induction false} PrintedAreDigits(n: nat)
    ensures AllDigits(PrintNat(n))
  {
    DigitInverse(n % 10);
    if n >= 10 {
      PrintedAreDigits(n / 10);
    }
  }

  lemma {:induction false} LastDigit(s: string, c: char, before: nat)
    requires AllDigits(s) && IsDigit(c)
    ensures LeadingDigits(s + [c], before) == 10 * LeadingDigits(s, before) + DigitValue(c)
  {
    if s == "" {
      assert (s + [c])[1..] == "";
    } else {
      assert (s + [c])[0] == s[0] && (s + [c])[1..] == s[1..] + [c];
      LastDigit(s[1..], c, 10 * before + DigitValue(s[0]));
    }
  }

  lemma {:induction false} DigitsOfNat(n: nat)
    ensures LeadingDigits(PrintNat(n), 0) == n
  {
    DigitInverse(n % 10);
    var s := if n < 10 then "" else PrintNat(n / 10);
    if n >= 10 {
      PrintedAreDigits(n / 10);
      DigitsOfNat(n / 10);
    }
    LastDigit(s, Digit(n % 10), 0);
  }

  /** Printing a number and reading it back gives the number, negative or not. */
  lemma AtoiOfPrinted(n: int)
    ensures Atoi(PrintInt(n)) == n
  {
    if n < 0 {
      DigitsOfNat(-n);
      assert PrintInt(n)[1..] == PrintNat(-n);
    } else {
      DigitsOfNat(n);
      PrintedAreDigits(n);
    }
  }

  lemma PrintMore(n: nat, d: nat)
    requires d < 10
    ensures PrintNat(10 * n + d) == (if n == 0 then "" else PrintNat(n)) + [Digit(d)]
  {
  }

  lemma SampleDigits()
    ensures PrintNat(0) == "0" && PrintNat(7) == "7" && PrintNat(1) == "1"
  {
    PrintMore(0, 0);
    PrintMore(0, 7);
    PrintMore(0, 1);
  }

  lemma SampleNats()
    ensures PrintNat(120) == "120" && PrintNat(1050) == "1050"
  {
    SampleDigits();
    hide PrintNat;
    assert PrintNat(12) == "12" by { PrintMore(1, 2); }
    assert PrintNat(120) == "120" by { PrintMore(12, 0); }
    assert PrintNat(10) == "10" by { PrintMore(1, 0); }
    assert PrintNat(105) == "105" by { PrintMore(10, 5); }
    assert PrintNat(1050) == "1050" by { PrintMore(105, 0); }
  }

  /** Decimal, the sign first. */
  lemma SamplePrinted()
    ensures PrintInt(0) == "0" && PrintInt(7) == "7" && PrintInt(-120) == "-120" && PrintInt(1050) == "1050"
  {
    SampleDigits();
    SampleNats();
    hide PrintNat;
  }

  /** Reading skips blanks and stops at the first character that is no digit. */
  lemma SampleRead()
    ensures Atoi(" +42x") == 42 && Atoi("-7") == -7 && Atoi("x") == 0
  {
    assert " +42x"[1..] == "+42x" && "+42x"[1..] == "42x" && "42x"[1..] == "2x" && "2x"[1..] == "x" && "-7"[1..] == "7";
    assert LeadingDigits("x", 42) == 42;
    assert LeadingDigits("2x", 4) == 42;
    assert LeadingDigits("42x", 0) == 42;
    assert LeadingDigits("7", 0) == 7 by { assert "7"[1..] == ""; }
  }

  /** A printed number contains none of the separators. */
  lemma PrintedIsPlain(n: int, sep: char)
    requires sep in ";,:"
    ensures sep !in PrintInt(n)
  {
    PrintedAreDigits(if n < 0 then -n else n);
  }

  // -------------------------------------------------------------------------------------------
  // Lists
  // -------------------------------------------------------------------------------------------

  /** Where `sep` first occurs in `s` at or after `from`; |s| if it does not. */
  function Find(s: string, sep: char, from: nat): (k: nat)
    requires from <= |s|
    ensures from <= k <= |s| && (k < |s| ==> s[k] == sep) && sep !in s[from..k]
    decreases |s| - from
  {
    if from == |s| || s[from] == sep then from else Find(s, sep, from + 1)
  }

  function NonEmpty(s: string): seq<string> { if s == "" then [] else [s] }

  /** The non-empty pieces between separators. */
  function Split(s: string, sep: char): seq<string>
    decreases |s|
  {
    var k := Find(s, sep, 0);
    NonEmpty(s[..k]) + if k == |s| then [] else Split(s[k + 1..], sep)
  }

  function Join(parts: seq<string>, sep: char): string {
    if parts == [] then "" else if |parts| == 1 then parts[0] else parts[0] + [sep] + Join(parts[1..], sep)
  }

  predicate Separable(parts: seq<string>, sep: char) {
    forall k :: 0 <= k < |parts| ==> parts[k] != "" && sep !in parts[k]
  }

  lemma FindFirst(s: string, sep: char, k: nat)
    requires k <= |s| && sep !in s[..k] && (k < |s| ==> s[k] == sep)
    ensures Find(s, sep, 0) == k
  {
    var f := Find(s, sep, 0);
    assert s[0..f] == s[..f];
  }

  /** Splitting what was joined gives the pieces back. */
  lemma {:induction false} SplitJoined(parts: seq<string>, sep: char)
    requires Separable(parts, sep)
    ensures Split(Join(parts, sep), sep) == parts
  {
    var s := Join(parts, sep);
    if |parts| >= 2 {
      assert s[..|parts[0]|] == parts[0] && s[|parts[0]| + 1..] == Join(parts[1..], sep);
      FindFirst(s, sep, |parts[0]|);
      SplitJoined(parts[1..], sep);
    } else if |parts| == 1 {
      assert s[..|s|] == s == parts[0];
      FindFirst(s, sep, |s|);
    }
  }

  function Without(s: string, sep: char): string {
    if s == "" then "" else (if s[0] == sep then "" else [s[0]]) + Without(s[1..], sep)
  }

  lemma {:induction false} WithoutConcat(a: string, b: string, sep: char)
    ensures Without(a + b, sep) == Without(a, sep) + Without(b, sep)
  {
    if a == "" {
      assert a + b == b;
    } else {
      WithoutConcat(a[1..], b, sep);
      assert (a + b)[0] == a[0] && (a + b)[1..] == a[1..] + b;
      var head := if a[0] == sep then "" else [a[0]];
      assert head + (Without(a[1..], sep) + Without(b, sep)) == (head + Without(a[1..], sep)) + Without(b, sep);
    }
  }

  lemma {:induction false} WithoutPlain(a: string, sep: char)
    requires sep !in a
    ensures Without(a, sep) == a
  {
    if a != "" {
      WithoutPlain(a[1..], sep);
    }
  }

  lemma SplitUnfolds(s: string, sep: char)
    ensures var k := Find(s, sep, 0);
      Split(s, sep) == NonEmpty(s[..k]) + if k == |s| then [] else Split(s[k + 1..], sep)
  {
  }

  lemma PlainPiece(s: string, sep: char)
    requires sep !in s
    ensures Separable(NonEmpty(s), sep)
  {
  }

  /** Whatever the text: the pieces are non-empty, contain no separator, and lose nothing but separators. */
  lemma {:induction false} SplitKeepsText(s: string, sep: char)
    ensures Separable(Split(s, sep), sep) && Flatten(Split(s, sep)) == Without(s, sep)
    decreases |s|
  {
    hide Flatten, Without, Split, NonEmpty, Find;
    var k := Find(s, sep, 0);
    assert s[0..k] == s[..k] && s == s[..k] + s[k..];
    SplitUnfolds(s, sep);
    PlainPiece(s[..k], sep);
    WithoutPlain(s[..k], sep);
    WithoutConcat(s[..k], s[k..], sep);
    FlattenNonEmpty(s[..k]);
    if k < |s| {
      SplitKeepsText(s[k + 1..], sep);
      FlattenConcat(NonEmpty(s[..k]), Split(s[k + 1..], sep));
      WithoutFirst(s[k..], sep);
      assert s[k..][1..] == s[k + 1..];
    } else {
      WithoutPlain(s[k..], sep);
      assert Split(s, sep) == NonEmpty(s[..k]);
    }
  }

  lemma FlattenNonEmpty(s: string)
    ensures Flatten(NonEmpty(s)) == s
  {
  }

  lemma WithoutFirst(s: string, sep: char)
    requires s != "" && s[0] == sep
    ensures Without(s, sep) == Without(s[1..], sep)
  {
  }

  /** The pieces of `s` that begin at `from`. */
  function SplitFrom(s: string, sep: char, from: nat): seq<string>
    requires from <= |s|
  {
    Split(s[from..], sep)
  }

  lemma FindFrom(s: string, sep: char, from: nat)
    requires from <= |s|
    ensures Find(s, sep, from) == from + Find(s[from..], sep, 0)
  {
    var k := Find(s, sep, from);
    assert s[from..][..k - from] == s[from..k];
    FindFirst(s[from..], sep, k - from);
  }

  lemma SplitStep(s: string, sep: char, from: nat)
    requires from <= |s|
    ensures var k := Find(s, sep, from);
      SplitFrom(s, sep, from) == NonEmpty(s[from..k]) + if k == |s| then [] else SplitFrom(s, sep, k + 1)
  {
    FindFrom(s, sep, from);
    var k := Find(s, sep, from);
    assert s[from..][..k - from] == s[from..k];
    if k < |s| {
      assert s[from..][k - from + 1..] == s[k + 1..];
    }
  }

  /** The positions of the separator at or after `from`. */
  function Positions(s: string, sep: char, from: nat): (p: seq<nat>)
    requires from <= |s|
    ensures forall k :: 0 <= k < |p| ==> from <= p[k] < |s|
    decreases |s| - from
  {
    var k := Find(s, sep, from);
    if k == |s| then [] else [k] + Positions(s, sep, k + 1)
  }

  lemma PositionsStep(s: string, sep: char, from: nat)
    requires from <= |s|
    ensures var k := Find(s, sep, from);
      Positions(s, sep, from) == if k == |s| then [] else [k] + Positions(s, sep, k + 1)
  {
  }

  /** The first loop of `SplitStringA`. */
  method FindPositions(s: string, sep: char) returns (positions: seq<nat>)
    ensures positions == Positions(s, sep, 0)
  {
    hide Find, Positions;
    var from: nat := 0;
    var newPos := Find(s, sep, 0);
    positions := [];
    while newPos < |s|
      invariant from <= |s| && newPos == Find(s, sep, from)
      invariant Positions(s, sep, 0) == positions + Positions(s, sep, from)
      decreases |s| - from
    {
      PositionsStep(s, sep, from);
      positions := positions + [newPos];
      from := newPos + 1;
      newPos := Find(s, sep, from);
    }
    PositionsStep(s, sep, from);
  }

  function Keep(pieces: seq<string>, piece: string): seq<string> {
    if |piece| > 0 then pieces + [piece] else pieces
  }

  lemma KeepMore(pieces: seq<string>, piece: string, more: seq<string>)
    ensures Keep(pieces, piece) + more == pieces + (NonEmpty(piece) + more)
  {
  }

  /** `SplitStringA` with a separator of one character: collect the positions of the separator, then cut. */
  method SplitStringA(s: string, sep: char) returns (pieces: seq<string>)
    ensures pieces == Split(s, sep)
  {
    hide Find, Split, Positions, Keep, NonEmpty;
    pieces := [];
    var positions := FindPositions(s, sep);
    assert s[0..] == s;
    var from: nat := 0;
    for i := 0 to |positions|
      invariant from <= |s| && Positions(s, sep, from) == positions[i..]
      invariant Split(s, sep) == pieces + SplitFrom(s, sep, from)
    {
      SplitStep(s, sep, from);
      PositionsStep(s, sep, from);
      assert positions[i..][0] == positions[i] && positions[i..][1..] == positions[i + 1..];
      KeepMore(pieces, s[from..positions[i]], SplitFrom(s, sep, positions[i] + 1));
      pieces := Keep(pieces, s[from..positions[i]]);
      from := positions[i] + 1;
    }
    SplitStep(s, sep, from);
    PositionsStep(s, sep, from);
    assert s[from..|s|] == s[from..];
    KeepMore(pieces, s[from..], []);
    pieces := Keep(pieces, s[from..]);
  }
}
