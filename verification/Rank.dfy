/** The board of the daily game (gameserver/RankManager.cpp): a list of entries and a map from the
    account to its place in the list. */
module Rank {
  type Account = nat

  datatype Entry = Entry(acc: Account, name: string, score: int, rank: int, time: int)

  datatype Board = Board(list: seq<Entry>, index: map<Account, int>, maxSize: int, minScore: int)

  // -------------------------------------------------------------------------------------------
  // The order, and sorting by it
  // -------------------------------------------------------------------------------------------

  /** `DailyRank`: the higher score first, the earlier time first among equals. */
  predicate Before(a: Entry, b: Entry) {
    a.score > b.score || (a.score == b.score && a.time < b.time)
  }

  predicate Ordered(s: seq<Entry>) {
    forall i, j :: 0 <= i < j < |s| ==> !Before(s[j], s[i])
  }

  function Place(s: seq<Entry>, e: Entry): seq<Entry> {
    if s == [] then [e]
    else if Before(e, s[|s| - 1]) then Place(s[..|s| - 1], e) + [s[|s| - 1]]
    else s + [e]
  }

  /** `std::list::sort`, which keeps the order of equivalent entries. */
  function Sort(s: seq<Entry>): seq<Entry> {
    if s == [] then [] else Place(Sort(s[..|s| - 1]), s[|s| - 1])
  }

  lemma {:induction false} PlaceStaysAfter(s: seq<Entry>, e: Entry, x: Entry)
    requires !Before(x, e) && forall i :: 0 <= i < |s| ==> !Before(x, s[i])
    ensures forall i :: 0 <= i < |Place(s, e)| ==> !Before(x, Place(s, e)[i])
  {
    if s != [] {
      PlaceStaysAfter(s[..|s| - 1], e, x);
    }
  }

  lemma {:induction false} PlaceKeepsOrdered(s: seq<Entry>, e: Entry)
    requires Ordered(s)
    ensures Ordered(Place(s, e))
  {
    if s != [] {
      var n := |s| - 1;
      PlaceKeepsOrdered(s[..n], e);
      if Before(e, s[n]) {
        PlaceStaysAfter(s[..n], e, s[n]);
      } else {
        assert forall i :: 0 <= i < n ==> !Before(s[n], s[i]);
      }
    }
  }

  lemma {:induction false} PlacePermutes(s: seq<Entry>, e: Entry)
    ensures multiset(Place(s, e)) == multiset(s) + multiset{e}
  {
    if s != [] {
      var n := |s| - 1;
      assert s == s[..n] + [s[n]];
      PlacePermutes(s[..n], e);
    }
  }

  /** Sorting gives an ordered list of the same entries: higher scores come first, and among equal scores the
      earlier ones. */
  lemma {:induction false} SortSorts(s: seq<Entry>)
    ensures Ordered(Sort(s)) && multiset(Sort(s)) == multiset(s)
    ensures forall i, j :: 0 <= i < j < |Sort(s)| ==>
      Sort(s)[i].score >= Sort(s)[j].score && (Sort(s)[i].score == Sort(s)[j].score ==> Sort(s)[i].time <= Sort(s)[j].time)
  {
    if s != [] {
      var n := |s| - 1;
      assert s == s[..n] + [s[n]];
      SortSorts(s[..n]);
      PlaceKeepsOrdered(Sort(s[..n]), s[n]);
      PlacePermutes(Sort(s[..n]), s[n]);
    }
  }

  function Tie(e: Entry, score: int, time: int): seq<Entry> {
    if e.score == score && e.time == time then [e] else []
  }

  /** The entries that are equivalent to one of this score and time. */
  function Ties(s: seq<Entry>, score: int, time: int): seq<Entry> {
    if s == [] then [] else Ties(s[..|s| - 1], score, time) + Tie(s[|s| - 1], score, time)
  }

  lemma TiesMore(s: seq<Entry>, e: Entry, score: int, time: int)
    ensures Ties(s + [e], score, time) == Ties(s, score, time) + Tie(e, score, time)
  {
    assert (s + [e])[..|s|] == s;
  }

  lemma {:induction false} PlaceIsStable(s: seq<Entry>, e: Entry, score: int, time: int)
    ensures Ties(Place(s, e), score, time) == Ties(s, score, time) + Tie(e, score, time)
  {
    hide Ties;
    TiesMore(s, e, score, time);
    if s == [] {
      assert s + [e] == [e];
    } else if Before(e, s[|s| - 1]) {
      var n := |s| - 1;
      PlaceIsStable(s[..n], e, score, time);
      TiesMore(Place(s[..n], e), s[n], score, time);
      TiesMore(s[..n], s[n], score, time);
      assert s == s[..n] + [s[n]];
      var before, x, y := Ties(s[..n], score, time), Tie(e, score, time), Tie(s[n], score, time);
      assert x == [] || y == [];
      assert (before + x) + y == (before + y) + x;
    }
  }

  /** Sorting keeps equivalent entries in their order. */
  lemma {:induction false} SortIsStable(s: seq<Entry>, score: int, time: int)
    ensures Ties(Sort(s), score, time) == Ties(s, score, time)
  {
    if s != [] {
      SortIsStable(s[..|s| - 1], score, time);
      PlaceIsStable(Sort(s[..|s| - 1]), s[|s| - 1], score, time);
    }
  }

  // -------------------------------------------------------------------------------------------
  // The update
  // -------------------------------------------------------------------------------------------

  function Renumbered(s: seq<Entry>): (r: seq<Entry>)
    ensures |r| == |s| && forall i :: 0 <= i < |s| ==> r[i] == s[i].(rank := i + 1)
  {
    seq(|s|, i requires 0 <= i < |s| => s[i].(rank := i + 1))
  }

  /** The map that the loop of renumbering builds. */
  function IndexOf(s: seq<Entry>): map<Account, int> {
    if s == [] then map[] else IndexOf(s[..|s| - 1])[s[|s| - 1].acc := |s|]
  }

  function Find(s: seq<Entry>, acc: Account): (p: nat)
    ensures p <= |s| && (p < |s| ==> s[p].acc == acc) && forall i :: 0 <= i < p ==> s[i].acc != acc
  {
    if s == [] || s[0].acc == acc then 0 else 1 + Find(s[1..], acc)
  }

  /** A negative size is a huge one when it is compared with the size of the map. */
  predicate Full(b: Board) { 0 <= b.maxSize <= |b.index| }

  predicate NeedAdd(b: Board, acc: Account, score: int) {
    Find(b.list, acc) == |b.list| && (score > b.minScore || !Full(b))
  }

  function Entered(b: Board, acc: Account, name: string, score: int, now: int): Board {
    var p := Find(b.list, acc);
    if p < |b.list| then b.(list := b.list[p := b.list[p].(score := score, name := name)])
    else if !NeedAdd(b, acc, score) then b
    else
      var rank := |b.list| + 1;
      b.(list := b.list + [Entry(acc, name, score, rank, now)], index := b.index[acc := rank], minScore := score)
  }

  function Resorted(b: Board): Board {
    var list := Renumbered(Sort(b.list));
    b.(list := list, index := IndexOf(list))
  }

  function Updated(b: Board, acc: Account, name: string, score: int, now: int): Board {
    var e := Entered(b, acc, name, score, now);
    if score > b.minScore then Resorted(e) else e
  }

  /** The rank that the player is told. */
  function ToldRank(b: Board, acc: Account, name: string, score: int, now: int): int {
    var u := Updated(b, acc, name, score, now);
    if score > b.minScore && acc in u.index then u.index[acc]
    else if NeedAdd(b, acc, score) then |b.list| + 1
    else b.maxSize + 1
  }

  // -------------------------------------------------------------------------------------------
  // What every update keeps
  // -------------------------------------------------------------------------------------------

  ghost predicate DistinctAccounts(s: seq<Entry>) {
    forall i, j :: 0 <= i < j < |s| ==> s[i].acc != s[j].acc
  }

  /** The map is the one of the list, and every entry knows its place. */
  ghost predicate Indexed(b: Board) {
    DistinctAccounts(b.list) && b.index == IndexOf(b.list) && Numbered(b.list)
  }

  predicate Numbered(s: seq<Entry>) {
    forall i :: 0 <= i < |s| ==> s[i].rank == i + 1
  }

  /** The map takes the accounts of a list one to one to their places 1, 2, ... */
  lemma {:induction false} PlaceOfEntry(s: seq<Entry>, i: nat)
    requires DistinctAccounts(s) && i < |s|
    ensures s[i].acc in IndexOf(s) && IndexOf(s)[s[i].acc] == i + 1
  {
    if i < |s| - 1 {
      PlaceOfEntry(s[..|s| - 1], i);
    }
  }

  lemma {:induction false} EntryOfPlace(s: seq<Entry>, acc: Account)
    requires acc in IndexOf(s)
    ensures 1 <= IndexOf(s)[acc] <= |s| && s[IndexOf(s)[acc] - 1].acc == acc
  {
    if s[|s| - 1].acc != acc {
      EntryOfPlace(s[..|s| - 1], acc);
    }
  }

  lemma {:induction false} SameAccountsSameIndex(s: seq<Entry>, t: seq<Entry>)
    requires |s| == |t| && forall i :: 0 <= i < |s| ==> s[i].acc == t[i].acc
    ensures IndexOf(s) == IndexOf(t)
  {
    if s != [] {
      SameAccountsSameIndex(s[..|s| - 1], t[..|t| - 1]);
    }
  }

  lemma Cancel<T>(a: multiset<T>, b: multiset<T>, x: T)
    requires a + multiset{x} == b + multiset{x}
    ensures a == b
  {
    assert a == (a + multiset{x}) - multiset{x} && b == (b + multiset{x}) - multiset{x};
  }

  lemma RemoveOne<T>(s: seq<T>, t: seq<T>, k: nat, n: nat)
    requires multiset(s) == multiset(t) && k < |s| && |t| == n + 1 && s[k] == t[n]
    ensures multiset(s[..k] + s[k + 1..]) == multiset(t[..n])
  {
    assert t == t[..n] + [t[n]];
    assert s == s[..k] + ([s[k]] + s[k + 1..]);
    assert multiset(s) == multiset(s[..k]) + (multiset{s[k]} + multiset(s[k + 1..]));
    assert multiset(s) == multiset(s[..k] + s[k + 1..]) + multiset{s[k]};
    Cancel(multiset(s[..k] + s[k + 1..]), multiset(t[..n]), s[k]);
  }

  predicate Absent(s: seq<Entry>, acc: Account) {
    forall i :: 0 <= i < |s| ==> s[i].acc != acc
  }

  lemma {:induction false} PlaceKeepsAbsent(s: seq<Entry>, e: Entry, acc: Account)
    requires Absent(s, acc) && e.acc != acc
    ensures Absent(Place(s, e), acc)
  {
    if s != [] {
      PlaceKeepsAbsent(s[..|s| - 1], e, acc);
    }
  }

  lemma {:induction false} SortKeepsAbsent(s: seq<Entry>, acc: Account)
    requires Absent(s, acc)
    ensures Absent(Sort(s), acc)
  {
    if s != [] {
      SortKeepsAbsent(s[..|s| - 1], acc);
      PlaceKeepsAbsent(Sort(s[..|s| - 1]), s[|s| - 1], acc);
    }
  }

  lemma {:induction false} PlaceKeepsDistinct(s: seq<Entry>, e: Entry)
    requires DistinctAccounts(s) && Absent(s, e.acc)
    ensures DistinctAccounts(Place(s, e))
  {
    if s != [] {
      PlaceKeepsDistinct(s[..|s| - 1], e);
      PlaceKeepsAbsent(s[..|s| - 1], e, s[|s| - 1].acc);
    }
  }

  lemma {:induction false} SortKeepsDistinct(s: seq<Entry>)
    requires DistinctAccounts(s)
    ensures DistinctAccounts(Sort(s))
  {
    if s != [] {
      SortKeepsDistinct(s[..|s| - 1]);
      SortKeepsAbsent(s[..|s| - 1], s[|s| - 1].acc);
      PlaceKeepsDistinct(Sort(s[..|s| - 1]), s[|s| - 1]);
    }
  }

  lemma ResortedIsIndexed(b: Board)
    requires DistinctAccounts(b.list)
    ensures Indexed(Resorted(b))
  {
    hide Sort, IndexOf;
    SortKeepsDistinct(b.list);
  }

  lemma EnteredIsIndexed(b: Board, acc: Account, name: string, score: int, now: int)
    requires Indexed(b)
    ensures Indexed(Entered(b, acc, name, score, now))
  {
    hide IndexOf;
    var e := Entered(b, acc, name, score, now);
    var p := Find(b.list, acc);
    if p < |b.list| {
      SameAccountsSameIndex(b.list, e.list);
    } else if NeedAdd(b, acc, score) {
      IndexOfMore(b.list, e.list[|b.list|]);
    }
  }

  lemma IndexOfMore(s: seq<Entry>, e: Entry)
    ensures IndexOf(s + [e]) == IndexOf(s)[e.acc := |s| + 1]
  {
    assert (s + [e])[..|s|] == s;
  }

  /** An update keeps the accounts distinct and the map in step with the list. */
  lemma UpdateKeepsIndexed(b: Board, acc: Account, name: string, score: int, now: int)
    requires Indexed(b)
    ensures Indexed(Updated(b, acc, name, score, now))
  {
    hide Resorted, Entered;
    EnteredIsIndexed(b, acc, name, score, now);
    ResortedIsIndexed(Entered(b, acc, name, score, now));
  }

  datatype Step = Update(acc: Account, name: string, score: int, now: int) | Clear | SetMax(size: int)

  function Next(b: Board, s: Step): Board {
    match s
    case Update(acc, name, score, now) => Updated(b, acc, name, score, now)
    case Clear => b.(list := [], index := map[])
    case SetMax(size) => b.(maxSize := size)
  }

  function After(b: Board, steps: seq<Step>): Board {
    if steps == [] then b else Next(After(b, steps[..|steps| - 1]), steps[|steps| - 1])
  }

  /** Whatever is played: starting from an empty board, each account on the board is there once, and the
      map gives its place. */
  lemma {:induction false} EveryBoardIsIndexed(maxSize: int, minScore: int, steps: seq<Step>)
    ensures Indexed(After(Board([], map[], maxSize, minScore), steps))
  {
    if steps != [] {
      var before := After(Board([], map[], maxSize, minScore), steps[..|steps| - 1]);
      EveryBoardIsIndexed(maxSize, minScore, steps[..|steps| - 1]);
      hide Indexed, Updated;
      match steps[|steps| - 1]
      case Update(acc, name, score, now) => UpdateKeepsIndexed(before, acc, name, score, now);
      case Clear => EmptyIsIndexed(before.maxSize, before.minScore);
      case SetMax(size) => SizeDoesNotMatter(before, size);
    } else {
      EmptyIsIndexed(maxSize, minScore);
    }
  }

  lemma EmptyIsIndexed(maxSize: int, minScore: int)
    ensures Indexed(Board([], map[], maxSize, minScore))
  {
  }

  lemma SizeDoesNotMatter(b: Board, size: int)
    requires Indexed(b)
    ensures Indexed(b.(maxSize := size))
  {
  }

  lemma PlaceInSorted(s: seq<Entry>, p: nat) returns (k: nat)
    requires p < |s|
    ensures k < |s| == |Sort(s)| && Sort(s)[k] == s[p]
  {
    hide Sort;
    SortSorts(s);
    assert s[p] in multiset(Sort(s));
    assert |s| == |multiset(s)| == |multiset(Sort(s))|;
    k :| 0 <= k < |Sort(s)| && Sort(s)[k] == s[p];
  }

  /** Where the player's entry is before the board is sorted. */
  lemma PlayerIsEntered(b: Board, acc: Account, name: string, score: int, now: int)
    requires score > b.minScore || NeedAdd(b, acc, score)
    ensures var e, p := Entered(b, acc, name, score, now), Find(b.list, acc);
      p < |e.list| && e.list[p].acc == acc && e.list[p].score == score
  {
  }

  lemma ToldRankAfterSorting(b: Board, acc: Account, name: string, score: int, now: int)
    requires Indexed(b) && score > b.minScore
    ensures var u, r := Updated(b, acc, name, score, now), ToldRank(b, acc, name, score, now);
      1 <= r <= |u.list| && u.list[r - 1].acc == acc && u.list[r - 1].score == score
  {
    hide Sort, IndexOf, Entered, Indexed;
    var e := Entered(b, acc, name, score, now);
    PlayerIsEntered(b, acc, name, score, now);
    UpdateKeepsIndexed(b, acc, name, score, now);
    var k := PlaceInSorted(e.list, Find(b.list, acc));
    assert DistinctAccounts(Resorted(e).list) by { DistinctOfIndexed(Resorted(e)); }
    PlaceOfEntry(Resorted(e).list, k);
  }

  lemma DistinctOfIndexed(b: Board)
    requires Indexed(b)
    ensures DistinctAccounts(b.list)
  {
  }

  /** The rank told is the player's place if the player was put on the board or the board was sorted; anyone
      else is told to be off the board. */
  lemma ToldRankIsPlace(b: Board, acc: Account, name: string, score: int, now: int)
    requires Indexed(b)
    ensures var u, r := Updated(b, acc, name, score, now), ToldRank(b, acc, name, score, now);
      if score > b.minScore || NeedAdd(b, acc, score)
      then 1 <= r <= |u.list| && u.list[r - 1].acc == acc && u.list[r - 1].score == score
      else r == b.maxSize + 1
  {
    hide Sort, IndexOf, Resorted;
    if score > b.minScore {
      hide Updated, ToldRank, Entered;
      ToldRankAfterSorting(b, acc, name, score, now);
    }
  }

  /** The rank that a player ought to be told. */
  function Standing(b: Board, acc: Account): int {
    var p := Find(b.list, acc);
    if p < |b.list| then p + 1 else b.maxSize + 1
  }

  lemma FoundAt(s: seq<Entry>, acc: Account, k: nat)
    requires DistinctAccounts(s) && k < |s| && s[k].acc == acc
    ensures Find(s, acc) == k
  {
    assert Find(s, acc) <= k;
  }

  lemma UnsortedStanding(b: Board, acc: Account, name: string, score: int, now: int)
    requires score <= b.minScore && !NeedAdd(b, acc, score)
    ensures Standing(Updated(b, acc, name, score, now), acc) == Standing(b, acc)
  {
    var p, u := Find(b.list, acc), Updated(b, acc, name, score, now);
    if p < |b.list| {
      assert u.list[p].acc == acc;
      assert forall i :: 0 <= i < p ==> u.list[i].acc != acc;
    }
  }

  /** A player is told the right rank exactly when the board was sorted, or the player was not on it before,
      or stands just where those off the board are told to be: a player on the board who does not beat the
      minimum is told to be off it. */
  lemma ToldRankIsRightIff(b: Board, acc: Account, name: string, score: int, now: int)
    requires Indexed(b)
    ensures ToldRank(b, acc, name, score, now) == Standing(Updated(b, acc, name, score, now), acc) <==>
      score > b.minScore || Find(b.list, acc) == |b.list| || Find(b.list, acc) == b.maxSize
  {
    var u, r := Updated(b, acc, name, score, now), ToldRank(b, acc, name, score, now);
    ToldRankIsPlace(b, acc, name, score, now);
    UpdateKeepsIndexed(b, acc, name, score, now);
    DistinctOfIndexed(u);
    if score > b.minScore || NeedAdd(b, acc, score) {
      hide Updated, ToldRank, Indexed, DistinctAccounts;
      FoundAt(u.list, acc, r - 1);
    } else {
      UnsortedStanding(b, acc, name, score, now);
    }
  }

  function Unranked(s: seq<Entry>): (r: seq<Entry>)
    ensures |r| == |s| && forall i :: 0 <= i < |s| ==> r[i] == s[i].(rank := 0)
  {
    seq(|s|, i requires 0 <= i < |s| => s[i].(rank := 0))
  }

  lemma {:induction false} UnrankedPermuted(s: seq<Entry>, t: seq<Entry>)
    requires multiset(s) == multiset(t)
    ensures multiset(Unranked(s)) == multiset(Unranked(t))
    decreases |s|
  {
    if t == [] {
      assert |s| == |multiset(s)| == |multiset(t)| == 0;
    } else {
      var n := |t| - 1;
      assert t[n] in multiset(s);
      var k :| 0 <= k < |s| && s[k] == t[n];
      var less := s[..k] + s[k + 1..];
      RemoveOne(s, t, k, n);
      UnrankedPermuted(less, t[..n]);
      assert Unranked(t) == Unranked(t[..n]) + [t[n].(rank := 0)];
      assert Unranked(less) == Unranked(s[..k]) + Unranked(s[k + 1..]);
      assert Unranked(s) == Unranked(s[..k]) + [s[k].(rank := 0)] + Unranked(s[k + 1..]);
    }
  }

  /** A score above the minimum leaves the board sorted, with the same entries as before plus the change. */
  lemma HighScoreSorts(b: Board, acc: Account, name: string, score: int, now: int)
    requires score > b.minScore
    ensures var u, e := Updated(b, acc, name, score, now), Entered(b, acc, name, score, now);
      Ordered(u.list) && multiset(Unranked(u.list)) == multiset(Unranked(e.list))
  {
    hide Sort;
    var e := Entered(b, acc, name, score, now);
    SortSorts(e.list);
    UnrankedPermuted(Sort(e.list), e.list);
    assert Unranked(Renumbered(Sort(e.list))) == Unranked(Sort(e.list));
  }

  /** An entry changed at place `p` still stands between its neighbours. */
  predicate FitsAt(s: seq<Entry>, p: nat, e: Entry)
    requires p < |s|
  {
    (p > 0 ==> !Before(e, s[p - 1])) && (p < |s| - 1 ==> !Before(s[p + 1], e))
  }

  /** Whether an update without sorting leaves a sorted board sorted: a listed player's new score has to
      fit between its neighbours, a newcomer has to belong at the end. */
  predicate StaysInOrder(b: Board, acc: Account, name: string, score: int, now: int) {
    var p := Find(b.list, acc);
    if p < |b.list| then FitsAt(b.list, p, b.list[p].(score := score))
    else NeedAdd(b, acc, score) && b.list != [] ==> !Before(Entry(acc, name, score, 0, now), b.list[|b.list| - 1])
  }

  lemma ChangedStaysOrderedIff(s: seq<Entry>, p: nat, e: Entry)
    requires Ordered(s) && p < |s|
    ensures Ordered(s[p := e]) <==> FitsAt(s, p, e)
  {
    var t := s[p := e];
    if FitsAt(s, p, e) {
      forall i, j | 0 <= i < j < |t|
        ensures !Before(t[j], t[i])
      {
        if j == p && i < p - 1 {
          assert !Before(s[p - 1], s[i]);
        } else if i == p && j > p + 1 {
          assert !Before(s[j], s[p + 1]);
        }
      }
    } else if p > 0 && Before(e, s[p - 1]) {
      assert Before(t[p], t[p - 1]);
    } else {
      assert Before(t[p + 1], t[p]);
    }
  }

  lemma AddedStaysOrderedIff(s: seq<Entry>, e: Entry)
    requires Ordered(s)
    ensures Ordered(s + [e]) <==> s == [] || !Before(e, s[|s| - 1])
  {
    var t := s + [e];
    if s != [] {
      var n := |s| - 1;
      assert t[n] == s[n] && t[n + 1] == e;
      forall i | 0 <= i < n && !Before(e, s[n])
        ensures !Before(e, s[i])
      {
        assert !Before(s[n], s[i]);
      }
    }
  }

  /** Every update of a sorted board leaves it sorted exactly when the board is sorted again, which is when
      the score exceeds the minimum, or the entry stands where it belongs already. The minimum is only the
      score of the last one added, so neither need be. */
  lemma UpdateSortedIff(b: Board, acc: Account, name: string, score: int, now: int)
    requires Ordered(b.list)
    ensures Ordered(Updated(b, acc, name, score, now).list) <==> score > b.minScore || StaysInOrder(b, acc, name, score, now)
  {
    hide Resorted, Ordered;
    var p := Find(b.list, acc);
    if score > b.minScore {
      HighScoreSorts(b, acc, name, score, now);
    } else if p < |b.list| {
      ChangedStaysOrderedIff(b.list, p, b.list[p].(score := score, name := name));
    } else if NeedAdd(b, acc, score) {
      AddedStaysOrderedIff(b.list, Entry(acc, name, score, |b.list| + 1, now));
    }
  }

  /** An empty board of ten places, then one player with 50 points, then a second one with 40. */
  const NOBODY := Board([], map[], 10, 0)
  const ONE := Board([Entry(1, "a", 50, 1, 0)], map[1 := 1], 10, 50)
  const TWO := Board([Entry(1, "a", 50, 1, 0), Entry(2, "b", 40, 2, 1)], map[1 := 1, 2 := 2], 10, 40)

  lemma OneIsReached()
    ensures Updated(NOBODY, 1, "a", 50, 0) == ONE
  {
    var first := Entry(1, "a", 50, 1, 0);
    assert Entered(NOBODY, 1, "a", 50, 0).list == [first];
    assert [first][..0] == [];
    assert Sort([first]) == Place([], first) == [first];
    assert Renumbered([first]) == [first];
    assert IndexOf([first]) == map[1 := 1];
  }

  lemma AfterTwo(b: Board, s: Step, t: Step)
    ensures After(b, [s, t]) == Next(Next(b, s), t)
  {
    assert [s, t][..1] == [s] && [s][..0] == [];
    assert After(b, [s]) == Next(After(b, []), s);
  }

  lemma SecondIsAdded()
    ensures Updated(ONE, 2, "b", 40, 1) == TWO
  {
    hide Resorted;
    assert Find(ONE.list, 2) == 1;
  }

  lemma TwoIsReached()
    ensures After(NOBODY, [Update(1, "a", 50, 0), Update(2, "b", 40, 1)]) == TWO
  {
    OneIsReached();
    SecondIsAdded();
    AfterTwo(NOBODY, Update(1, "a", 50, 0), Update(2, "b", 40, 1));
    hide After, Updated;
  }

  /** Now the first player's score falls to 30: the entry stays on top of the board, and the player is told
      to be off it. */
  lemma FallenPlayerStaysOnTop()
    ensures var two := After(NOBODY, [Update(1, "a", 50, 0), Update(2, "b", 40, 1)]);
      Ordered(two.list) && !Ordered(Updated(two, 1, "a", 30, 2).list) &&
      ToldRank(two, 1, "a", 30, 2) == 11 && Standing(Updated(two, 1, "a", 30, 2), 1) == 1
  {
    TwoIsReached();
    hide After, Resorted;
    UpdateSortedIff(TWO, 1, "a", 30, 2);
    assert Find(TWO.list, 1) == 0;
  }

  lemma {:induction false} AsManyIndexed(s: seq<Entry>)
    requires DistinctAccounts(s)
    ensures |IndexOf(s)| == |s| && forall acc :: acc in IndexOf(s) ==> exists i :: 0 <= i < |s| && s[i].acc == acc
  {
    if s != [] {
      var n := |s| - 1;
      AsManyIndexed(s[..n]);
      assert s[n].acc !in IndexOf(s[..n]);
      assert IndexOf(s).Keys == IndexOf(s[..n]).Keys + {s[n].acc};
    }
  }

  /** A board within its size stays within it exactly when the player is on it, has a place left, or
      does not beat the minimum: a high score is added to a full board. */
  lemma BoardFitsIff(b: Board, acc: Account, name: string, score: int, now: int)
    requires Indexed(b) && |b.list| <= b.maxSize
    ensures |Updated(b, acc, name, score, now).list| <= b.maxSize <==>
      Find(b.list, acc) < |b.list| || |b.list| < b.maxSize || score <= b.minScore
  {
    hide Sort, IndexOf;
    AsManyIndexed(b.list);
    var e := Entered(b, acc, name, score, now);
    SortSorts(e.list);
    assert |multiset(Sort(e.list))| == |multiset(e.list)|;
  }

  lemma SortTwo(a: Entry, b: Entry)
    ensures Sort([a, b]) == if Before(b, a) then [b, a] else [a, b]
  {
    assert [a, b][..1] == [a] && [a][..0] == [];
    assert Sort([a]) == Place([], a) == [a];
    assert Place([], b) == [b];
  }

  const GROWN := [Entry(2, "b", 60, 1, 1), Entry(1, "a", 50, 2, 0)]

  lemma GrownList()
    ensures Updated(ONE.(maxSize := 1), 2, "b", 60, 1).list == GROWN
  {
    var a, b := Entry(1, "a", 50, 1, 0), Entry(2, "b", 60, 2, 1);
    SortTwo(a, b);
    assert Before(b, a);
    hide Sort, IndexOf, Before;
    assert Entered(ONE.(maxSize := 1), 2, "b", 60, 1).list == [a, b];
    assert Renumbered([b, a]) == GROWN;
  }

  /** A board of one place, a player with 50 points, then one with 60: two entries, and the place of the
      first player is the rank told to those who are not on the board. */
  lemma FullBoardGrows()
    ensures var two := After(NOBODY.(maxSize := 1), [Update(1, "a", 50, 0), Update(2, "b", 60, 1)]);
      |two.list| == 2 > two.maxSize && two.list[1].acc == 1 && Standing(two, 1) == two.maxSize + 1
  {
    OneIsReached();
    SizeIsKept(NOBODY, 1, 1, "a", 50, 0);
    AfterTwo(NOBODY.(maxSize := 1), Update(1, "a", 50, 0), Update(2, "b", 60, 1));
    GrownList();
    hide After, Resorted, Entered, Find;
    assert Updated(ONE.(maxSize := 1), 2, "b", 60, 1).maxSize == 1 by { SizeIsKept(ONE, 1, 2, "b", 60, 1); }
    FoundSecond(GROWN);
  }

  lemma FoundSecond(s: seq<Entry>)
    requires |s| == 2 && s[0].acc != s[1].acc
    ensures Find(s, s[1].acc) == 1
  {
  }

  /** The size matters only for a player who is not on the board and does not beat the minimum. */
  lemma SizeIsKept(b: Board, size: int, acc: Account, name: string, score: int, now: int)
    requires score > b.minScore
    ensures Updated(b.(maxSize := size), acc, name, score, now) == Updated(b, acc, name, score, now).(maxSize := size)
  {
    hide Sort, IndexOf;
  }

  // -------------------------------------------------------------------------------------------
  // The object
  // -------------------------------------------------------------------------------------------

  /** The loop that numbers the sorted entries, rebuilds the map, and finds the player. */
  method Number(sorted: seq<Entry>, acc: Account, before: int) returns (list: seq<Entry>, index: map<Account, int>, rank: int)
    ensures list == Renumbered(sorted) && index == IndexOf(list)
    ensures rank == if acc in index then index[acc] else before
  {
    list, index, rank := sorted, map[], before;
    ghost var target := Renumbered(sorted);
    for i := 0 to |list|
      invariant |list| == |sorted| && forall j :: 0 <= j < |sorted| ==> list[j] == if j < i then target[j] else sorted[j]
      invariant index == IndexOf(target[..i])
      invariant rank == if acc in index then index[acc] else before
    {
      hide IndexOf;
      IndexOfMore(target[..i], target[i]);
      assert target[..i + 1] == target[..i] + [target[i]];
      list := list[i := list[i].(rank := i + 1)];
      index := index[list[i].acc := i + 1];
      if list[i].acc == acc {
        rank := list[i].rank;
      }
    }
    assert target[..|list|] == target && list == target;
  }

  lemma ListedIsIndexed(s: seq<Entry>, acc: Account)
    requires DistinctAccounts(s) && acc !in IndexOf(s)
    ensures Absent(s, acc)
  {
    forall i | 0 <= i < |s|
      ensures s[i].acc != acc
    {
      PlaceOfEntry(s, i);
    }
  }

  class RankManager {
    var list: seq<Entry>
    var index: map<Account, int>
    var maxSize: int
    var minScore: int

    function Abs(): Board
      reads this
    {
      Board(list, index, maxSize, minScore)
    }

    method UpdateHeroDailyRank(acc: Account, name: string, score: int, now: int) returns (rank: int)
      modifies this
      ensures Abs() == Updated(old(Abs()), acc, name, score, now)
      ensures rank == ToldRank(old(Abs()), acc, name, score, now)
    {
      hide Resorted, IndexOf;
      rank := maxSize + 1;
      var full := true;
      if maxSize < 0 || |index| < maxSize {
        full := false;
      }
      var needAdd, needRank := false, false;
      if score <= minScore {
        if !full {
          needAdd := true;
        }
      } else {
        needAdd, needRank := true, true;
      }
      var p := ChangeEntry(acc, name, score);
      if p < |list| {
        needAdd := false;
      }
      if needAdd {
        rank := |list| + 1;
        index := index[acc := rank];
        minScore := score;
        list := list + [Entry(acc, name, score, rank, now)];
      }
      if needRank {
        rank := SortAndNumber(acc, rank);
      }
    }

    /** The loop that looks for the account. */
    method ChangeEntry(acc: Account, name: string, score: int) returns (p: nat)
      modifies this`list
      ensures p == Find(old(list), acc)
      ensures list == if p < |old(list)| then old(list)[p := old(list)[p].(score := score, name := name)] else old(list)
    {
      p := 0;
      while p < |list|
        invariant 0 <= p <= |list| && list == old(list) && Find(list, acc) == p + Find(list[p..], acc)
      {
        if list[p].acc == acc {
          list := list[p := list[p].(score := score, name := name)];
          return;
        }
        assert list[p..][1..] == list[p + 1..];
        p := p + 1;
      }
    }

    /** The second half of the update: sort, and number what was sorted. */
    method SortAndNumber(acc: Account, before: int) returns (rank: int)
      modifies this`list, this`index
      ensures Abs() == Resorted(old(Abs()))
      ensures rank == if acc in index then index[acc] else before
    {
      hide Sort;
      list := Sort(list);
      list, index, rank := Number(list, acc, before);
    }

    /** The player's place in the list, or one more than the size of the board for a player who is not on it.
        On a board that has outgrown its size the place after its size is somebody's too. */
    method GetHeroDailyRank(acc: Account) returns (rank: int)
      requires Indexed(Abs())
      ensures rank == Standing(Abs(), acc)
      ensures if Absent(list, acc) then rank == maxSize + 1 else 1 <= rank <= |list| && list[rank - 1].acc == acc
      ensures rank == maxSize + 1 <==> Absent(list, acc) || (0 <= maxSize < |list| && list[maxSize].acc == acc)
    {
      hide IndexOf;
      rank := maxSize + 1;
      if acc in index {
        EntryOfPlace(list, acc);
        rank := index[acc];
        FoundAt(list, acc, rank - 1);
      } else {
        ListedIsIndexed(list, acc);
      }
    }

    method ClearRankList()
      modifies this`list, this`index
      ensures Abs() == Next(old(Abs()), Clear)
      ensures list == [] && index == map[] && maxSize == old(maxSize) && minScore == old(minScore)
    {
      list, index := [], map[];
    }
  }
}
