/** Saving a hero as text columns (DreamHero::SaveHero), reading the columns back on the database server
    (DBQuestManager::dbDoQueryHeroInfo) and filling the hero from what was read (DreamHero::set_info). */
module HeroSave {
  import opened Collections
  import opened HeroData
  import opened Text

  type Pair = (int, int)

  /** The special creatures killed at one place. */
  datatype KillEntry = KillEntry(place: Place, kills: seq<Kill>)

  /** The columns that hold one number each, as numbers or as text. */
  datatype Numbers<T> = Numbers(gold: T, jewel: T, completeCount: T, refreshCount: T, refreshTime: T,
                                chapter: T, section: T, lotteryTime: T)

  /** A row of the `character` table. */
  datatype Row = Row(
    numbers: Numbers<string>, records: string, heroes: string, tasks: string, lotions: string, gridState: string,
    kills: string, creatures: string)

  /** The message between the two servers: numbers and lists, with the maps as lists. */
  datatype Info = Info(
    numbers: Numbers<int>, records: seq<Record>, heroes: seq<bool>, tasks: seq<Task>, lotions: seq<int>,
    gridState: seq<(int, bool)>, kills: seq<KillEntry>, creatures: seq<Pair>)

  // -------------------------------------------------------------------------------------------
  // One item
  // -------------------------------------------------------------------------------------------

  function PrintPair(p: Pair): string { PrintInt(p.0) + "," + PrintInt(p.1) }

  function PrintBool(b: bool): string { PrintInt(if b then 1 else 0) }

  function PrintTask(t: Task): string { PrintInt(t.id) + "," + PrintInt(t.argument) + "," + PrintInt(t.useTime) }

  function PrintFlag(f: (int, bool)): string { PrintPair((f.0, if f.1 then 1 else 0)) }

  function PrintRecord(r: Record): string { PrintPair((r.chapter, r.section)) }

  function PrintKill(k: Kill): string { PrintPair((k.id, k.kind)) }

  function PrintKills(e: KillEntry): string {
    Join([PrintPair(e.place)] + Printed(e.kills, PrintKill), ':')
  }

  function ParseInt(s: string): Option<int> { Some(Atoi(s)) }

  function ParseBool(s: string): Option<bool> { Some(Atoi(s) != 0) }

  function ParsePair(s: string): Option<Pair> {
    var v := Split(s, ',');
    if |v| == 2 then Some((Atoi(v[0]), Atoi(v[1]))) else None
  }

  function ParseRecord(s: string): Option<Record> {
    match ParsePair(s)
    case None => None
    case Some(p) => Some(Record(p.0, p.1))
  }

  function ParseKill(s: string): Option<Kill> {
    match ParsePair(s)
    case None => None
    case Some(p) => Some(Kill(p.0, p.1))
  }

  function ParseTask(s: string): Option<Task> {
    var v := Split(s, ',');
    if |v| == 3 then Some(Task(Atoi(v[0]), Atoi(v[1]), Atoi(v[2]))) else None
  }

  /** Creatures and grid states are read from two or more numbers. */
  function ParsePairOrMore(s: string): Option<Pair> {
    var v := Split(s, ',');
    if |v| >= 2 then Some((Atoi(v[0]), Atoi(v[1]))) else None
  }

  function ParseFlag(s: string): Option<(int, bool)> {
    match ParsePairOrMore(s)
    case None => None
    case Some(p) => Some((p.0, p.1 != 0))
  }

  function ParseKills(s: string): Option<KillEntry> {
    var v := Split(s, ':');
    if |v| < 2 || ParsePair(v[0]) == None then None
    else Some(KillEntry(ParsePair(v[0]).value, Parsed(v[1..], ParseKill)))
  }

  // -------------------------------------------------------------------------------------------
  // Columns
  // -------------------------------------------------------------------------------------------

  function Printed<T>(items: seq<T>, print1: T -> string): (parts: seq<string>)
    ensures |parts| == |items| && forall k :: 0 <= k < |items| ==> parts[k] == print1(items[k])
  {
    if items == [] then [] else Printed(items[..|items| - 1], print1) + [print1(items[|items| - 1])]
  }

  /** Pieces that do not parse are skipped. */
  function Parsed<T>(pieces: seq<string>, parse: string -> Option<T>): seq<T> {
    if pieces == [] then []
    else
      var before := Parsed(pieces[..|pieces| - 1], parse);
      match parse(pieces[|pieces| - 1])
      case None => before
      case Some(x) => before + [x]
  }

  function Column<T>(items: seq<T>, print1: T -> string, sep: char): string { Join(Printed(items, print1), sep) }

  function Uncolumn<T>(text: string, parse: string -> Option<T>, sep: char): seq<T> { Parsed(Split(text, sep), parse) }

  ghost predicate Faithful<T>(x: T, print1: T -> string, parse: string -> Option<T>, sep: char) {
    print1(x) != "" && sep !in print1(x) && parse(print1(x)) == Some(x)
  }

  lemma {:induction false} ParsedPrinted<T>(items: seq<T>, print1: T -> string, parse: string -> Option<T>, sep: char)
    requires forall k :: 0 <= k < |items| ==> Faithful(items[k], print1, parse, sep)
    ensures Parsed(Printed(items, print1), parse) == items
  {
    var n := |items| - 1;
    if items != [] {
      ParsedPrinted(items[..n], print1, parse, sep);
      assert Printed(items, print1)[..n] == Printed(items[..n], print1);
      assert Faithful(items[n], print1, parse, sep);
      assert items == items[..n] + [items[n]];
    }
  }

  lemma ColumnRoundTrip<T>(items: seq<T>, print1: T -> string, parse: string -> Option<T>, sep: char)
    requires forall k :: 0 <= k < |items| ==> Faithful(items[k], print1, parse, sep)
    ensures Uncolumn(Column(items, print1, sep), parse, sep) == items
  {
    SplitJoined(Printed(items, print1), sep);
    ParsedPrinted(items, print1, parse, sep);
  }

  // -------------------------------------------------------------------------------------------
  // Each kind of item is read back as it was printed
  // -------------------------------------------------------------------------------------------

  lemma IntIsFaithful(n: int, sep: char)
    requires sep in ";,:"
    ensures Faithful(n, PrintInt, ParseInt, sep)
  {
    AtoiOfPrinted(n);
    PrintedIsPlain(n, sep);
  }

  lemma BoolIsFaithful(b: bool)
    ensures Faithful(b, PrintBool, ParseBool, ';')
  {
    IntIsFaithful(if b then 1 else 0, ';');
  }

  lemma PairIsFaithful(p: Pair, sep: char)
    requires sep in ";:"
    ensures Faithful(p, PrintPair, ParsePair, sep) && Faithful(p, PrintPair, ParsePairOrMore, sep)
  {
    hide PrintInt, Atoi, Split;
    var parts := [PrintInt(p.0), PrintInt(p.1)];
    IntIsFaithful(p.0, ',');
    IntIsFaithful(p.1, ',');
    assert Join(parts[1..], ',') == parts[1];
    assert PrintPair(p) == Join(parts, ',');
    SplitJoined(parts, ',');
    PrintedIsPlain(p.0, sep);
    PrintedIsPlain(p.1, sep);
  }

  lemma FlagIsFaithful(f: (int, bool))
    ensures Faithful(f, PrintFlag, ParseFlag, ';')
  {
    PairIsFaithful((f.0, if f.1 then 1 else 0), ';');
  }

  lemma RecordIsFaithful(r: Record)
    ensures Faithful(r, PrintRecord, ParseRecord, ';')
  {
    PairIsFaithful((r.chapter, r.section), ';');
  }

  lemma KillIsFaithful(k: Kill, sep: char)
    requires sep in ";:"
    ensures Faithful(k, PrintKill, ParseKill, sep)
  {
    PairIsFaithful((k.id, k.kind), sep);
  }

  lemma TaskIsFaithful(t: Task)
    ensures Faithful(t, PrintTask, ParseTask, ';')
  {
    hide PrintInt, Atoi, Split;
    var parts := [PrintInt(t.id), PrintInt(t.argument), PrintInt(t.useTime)];
    IntIsFaithful(t.id, ',');
    IntIsFaithful(t.argument, ',');
    IntIsFaithful(t.useTime, ',');
    assert Join(parts[1..][1..], ',') == parts[2];
    assert Join(parts[1..], ',') == parts[1] + "," + parts[2];
    assert PrintTask(t) == Join(parts, ',');
    SplitJoined(parts, ',');
    PrintedIsPlain(t.id, ';');
    PrintedIsPlain(t.argument, ';');
    PrintedIsPlain(t.useTime, ';');
  }

  lemma {:induction false} JoinIsPlain(parts: seq<string>, sep: char, c: char)
    requires c != sep && forall k :: 0 <= k < |parts| ==> c !in parts[k]
    ensures c !in Join(parts, sep)
    ensures parts != [] && parts[0] != "" ==> Join(parts, sep) != ""
  {
    if |parts| >= 2 {
      JoinIsPlain(parts[1..], sep, c);
    }
  }

  /** An entry comes back if it holds at least one kill. */
  lemma KillsAreFaithful(e: KillEntry)
    requires e.kills != []
    ensures Faithful(e, PrintKills, ParseKills, ';')
  {
    hide PrintPair, ParsePair, PrintKill, ParseKill, Split;
    var parts := [PrintPair(e.place)] + Printed(e.kills, PrintKill);
    PairIsFaithful(e.place, ':');
    PairIsFaithful(e.place, ';');
    forall k | 0 <= k < |e.kills|
      ensures Faithful(e.kills[k], PrintKill, ParseKill, ':')
      ensures Faithful(e.kills[k], PrintKill, ParseKill, ';')
    {
      KillIsFaithful(e.kills[k], ':');
      KillIsFaithful(e.kills[k], ';');
    }
    forall k | 0 <= k < |parts|
      ensures parts[k] != "" && ':' !in parts[k] && ';' !in parts[k]
    {
      if k > 0 {
        assert Faithful(e.kills[k - 1], PrintKill, ParseKill, ':') && Faithful(e.kills[k - 1], PrintKill, ParseKill, ';');
      }
    }
    SplitJoined(parts, ':');
    JoinIsPlain(parts, ':', ';');
    ParsedPrinted(e.kills, PrintKill, ParseKill, ':');
    assert parts[1..] == Printed(e.kills, PrintKill);
  }

  // -------------------------------------------------------------------------------------------
  // The maps
  // -------------------------------------------------------------------------------------------

  /** `order` lists the keys of a std::map as its iterator meets them; any order will do. */
  ghost predicate Enumerates<K(!new), V>(order: seq<K>, m: map<K, V>) {
    && (forall k :: k in order <==> k in m)
    && (forall i, j :: 0 <= i < j < |order| ==> order[i] != order[j])
  }

  /** The entries that SaveHero prints: those with kills. */
  function SavedKills(m: map<Place, seq<Kill>>, order: seq<Place>): seq<KillEntry>
    requires forall k :: k in order ==> k in m
  {
    if order == [] then []
    else
      var last := order[|order| - 1];
      SavedKills(m, order[..|order| - 1]) + if m[last] == [] then [] else [KillEntry(last, m[last])]
  }

  function SavedCreatures(m: map<int, int>, order: seq<int>): seq<Pair>
    requires forall k :: k in order ==> k in m
  {
    if order == [] then []
    else
      var last := order[|order| - 1];
      SavedCreatures(m, order[..|order| - 1]) + [(last, m[last])]
  }

  /** `_special_kills[place].push_back` for every kill of an entry. */
  function PushKills(m: map<Place, seq<Kill>>, place: Place, kills: seq<Kill>): map<Place, seq<Kill>> {
    if kills == [] then m else m[place := (if place in m then m[place] else []) + kills]
  }

  function FilledKills(entries: seq<KillEntry>): map<Place, seq<Kill>> {
    if entries == [] then map[]
    else
      var last := entries[|entries| - 1];
      PushKills(FilledKills(entries[..|entries| - 1]), last.place, last.kills)
  }

  function FilledCreatures(entries: seq<Pair>): map<int, int> {
    if entries == [] then map[]
    else
      var last := entries[|entries| - 1];
      FilledCreatures(entries[..|entries| - 1])[last.0 := last.1]
  }

  /** The entries of a map that hold kills. */
  function WithKills(m: map<Place, seq<Kill>>): map<Place, seq<Kill>> {
    map k | k in m && m[k] != [] :: m[k]
  }

  /** What the first part of `order` has restored. */
  function Restored(m: map<Place, seq<Kill>>, order: seq<Place>): map<Place, seq<Kill>>
    requires forall k :: k in order ==> k in m
  {
    map k | k in order && m[k] != [] :: m[k]
  }

  lemma RestoreOne(m: map<Place, seq<Kill>>, order: seq<Place>, last: Place)
    requires forall k :: k in order ==> k in m
    requires last in m && last !in order
    ensures Restored(m, order + [last]) == PushKills(Restored(m, order), last, m[last])
  {
    assert [] + m[last] == m[last];
  }

  lemma {:induction false} KillsRestored(m: map<Place, seq<Kill>>, order: seq<Place>)
    requires forall k :: k in order ==> k in m
    requires forall i, j :: 0 <= i < j < |order| ==> order[i] != order[j]
    ensures FilledKills(SavedKills(m, order)) == Restored(m, order)
  {
    if order != [] {
      var n := |order| - 1;
      var before := SavedKills(m, order[..n]);
      KillsRestored(m, order[..n]);
      hide Restored, PushKills;
      RestoreOne(m, order[..n], order[n]);
      assert order == order[..n] + [order[n]];
      PushNone();
      if m[order[n]] != [] {
        var all := before + [KillEntry(order[n], m[order[n]])];
        assert SavedKills(m, order) == all && all[..|all| - 1] == before;
      } else {
        assert SavedKills(m, order) == before;
      }
    }
  }

  lemma {:induction false} CreaturesRestored(m: map<int, int>, order: seq<int>)
    requires forall k :: k in order ==> k in m
    ensures FilledCreatures(SavedCreatures(m, order)) == map k | k in order :: m[k]
  {
    if order != [] {
      var n := |order| - 1;
      var before := SavedCreatures(m, order[..n]);
      CreaturesRestored(m, order[..n]);
      assert forall k :: k in order <==> k in order[..n] || k == order[n];
      assert (before + [(order[n], m[order[n]])])[..|before|] == before;
    }
  }

  // -------------------------------------------------------------------------------------------
  // Saving and loading
  // -------------------------------------------------------------------------------------------

  function NumbersOf(p: Player): Numbers<int> {
    Numbers(p.hero.gold, p.jewel, p.hero.completeCount, p.hero.refreshCount, p.hero.refreshTime,
            p.chapter, p.section, p.lotteryTime)
  }

  function OnNumbers<A, B>(f: A -> B, n: Numbers<A>): Numbers<B> {
    Numbers(f(n.gold), f(n.jewel), f(n.completeCount), f(n.refreshCount), f(n.refreshTime),
            f(n.chapter), f(n.section), f(n.lotteryTime))
  }

  function Saved(p: Player, killOrder: seq<Place>, creatureOrder: seq<int>): Row
    requires forall k :: k in killOrder ==> k in p.kills
    requires forall k :: k in creatureOrder ==> k in p.creatures
  {
    Row(OnNumbers(PrintInt, NumbersOf(p)),
        Column(p.hero.records, PrintRecord, ';'), Column(p.heroes, PrintBool, ';'),
        Column(p.hero.tasks, PrintTask, ';'), Column(p.lotions, PrintInt, ','), Column(p.gridState, PrintFlag, ';'),
        Column(SavedKills(p.kills, killOrder), PrintKills, ';'),
        Column(SavedCreatures(p.creatures, creatureOrder), PrintPair, ';'))
  }

  function Queried(r: Row): Info {
    Info(OnNumbers(Atoi, r.numbers),
         Uncolumn(r.records, ParseRecord, ';'), Uncolumn(r.heroes, ParseBool, ';'),
         Uncolumn(r.tasks, ParseTask, ';'), Uncolumn(r.lotions, ParseInt, ','), Uncolumn(r.gridState, ParseFlag, ';'),
         Uncolumn(r.kills, ParseKills, ';'), Uncolumn(r.creatures, ParsePairOrMore, ';'))
  }

  function Filled(i: Info): Player {
    var n := i.numbers;
    Player(Hero(i.tasks, i.records, n.gold, n.completeCount, n.refreshCount, n.refreshTime), n.jewel, i.lotions,
           FilledKills(i.kills), FilledCreatures(i.creatures), i.heroes, i.gridState, n.chapter, n.section, n.lotteryTime)
  }

  lemma {:induction false} SavedKillsHoldKills(m: map<Place, seq<Kill>>, order: seq<Place>)
    requires forall k :: k in order ==> k in m
    ensures forall e :: e in SavedKills(m, order) ==> e.kills != []
  {
    if order != [] {
      SavedKillsHoldKills(m, order[..|order| - 1]);
    }
  }

  lemma NumbersAreRead(n: Numbers<int>)
    ensures OnNumbers(Atoi, OnNumbers(PrintInt, n)) == n
  {
    hide PrintInt, Atoi;
    forall k: int
      ensures Atoi(PrintInt(k)) == k
    {
      AtoiOfPrinted(k);
    }
  }

  /** What the database server reads is what the game server printed. */
  lemma QueriedSaved(p: Player, killOrder: seq<Place>, creatureOrder: seq<int>)
    requires forall k :: k in killOrder ==> k in p.kills
    requires forall k :: k in creatureOrder ==> k in p.creatures
    ensures Queried(Saved(p, killOrder, creatureOrder)) ==
      Info(NumbersOf(p), p.hero.records, p.heroes, p.hero.tasks, p.lotions, p.gridState,
           SavedKills(p.kills, killOrder), SavedCreatures(p.creatures, creatureOrder))
  {
    hide Column, Uncolumn, Faithful, PrintInt, Atoi, OnNumbers;
    NumbersAreRead(NumbersOf(p));
    forall q: Pair ensures Faithful(q, PrintPair, ParsePairOrMore, ';') { PairIsFaithful(q, ';'); }
    forall r ensures Faithful(r, PrintRecord, ParseRecord, ';') { RecordIsFaithful(r); }
    forall b ensures Faithful(b, PrintBool, ParseBool, ';') { BoolIsFaithful(b); }
    forall t ensures Faithful(t, PrintTask, ParseTask, ';') { TaskIsFaithful(t); }
    forall n ensures Faithful(n, PrintInt, ParseInt, ',') { IntIsFaithful(n, ','); }
    forall f ensures Faithful(f, PrintFlag, ParseFlag, ';') { FlagIsFaithful(f); }
    forall e: KillEntry | e.kills != [] ensures Faithful(e, PrintKills, ParseKills, ';') { KillsAreFaithful(e); }
    SavedKillsHoldKills(p.kills, killOrder);
    ColumnRoundTrip(p.hero.records, PrintRecord, ParseRecord, ';');
    ColumnRoundTrip(p.heroes, PrintBool, ParseBool, ';');
    ColumnRoundTrip(p.hero.tasks, PrintTask, ParseTask, ';');
    ColumnRoundTrip(p.lotions, PrintInt, ParseInt, ',');
    ColumnRoundTrip(p.gridState, PrintFlag, ParseFlag, ';');
    ColumnRoundTrip(SavedKills(p.kills, killOrder), PrintKills, ParseKills, ';');
    ColumnRoundTrip(SavedCreatures(p.creatures, creatureOrder), PrintPair, ParsePairOrMore, ';');
  }

  /** A player who is saved and loaded again. */
  function Reloaded(p: Player, killOrder: seq<Place>, creatureOrder: seq<int>): Player
    requires forall k :: k in killOrder ==> k in p.kills
    requires forall k :: k in creatureOrder ==> k in p.creatures
  {
    Filled(Queried(Saved(p, killOrder, creatureOrder)))
  }

  lemma MapsRestored(p: Player, killOrder: seq<Place>, creatureOrder: seq<int>)
    requires Enumerates(killOrder, p.kills) && Enumerates(creatureOrder, p.creatures)
    ensures FilledKills(SavedKills(p.kills, killOrder)) == WithKills(p.kills)
    ensures FilledCreatures(SavedCreatures(p.creatures, creatureOrder)) == p.creatures
  {
    hide FilledKills, FilledCreatures, SavedKills, SavedCreatures;
    KillsRestored(p.kills, killOrder);
    CreaturesRestored(p.creatures, creatureOrder);
    assert Restored(p.kills, killOrder) == WithKills(p.kills);
    assert (map k | k in creatureOrder :: p.creatures[k]) == p.creatures;
  }

  lemma NothingForgotten(m: map<Place, seq<Kill>>)
    ensures forall place :: KillsAt(WithKills(m), place) == KillsAt(m, place)
  {
  }

  /** A player who is saved and loaded again is the same player, whatever the numbers, except that places
      without special kills are forgotten; so every place has the kills that it had. */
  lemma LoadedIsSaved(p: Player, killOrder: seq<Place>, creatureOrder: seq<int>)
    requires Enumerates(killOrder, p.kills) && Enumerates(creatureOrder, p.creatures)
    ensures Reloaded(p, killOrder, creatureOrder) == p.(kills := WithKills(p.kills))
    ensures forall place :: KillsAt(WithKills(p.kills), place) == KillsAt(p.kills, place)
  {
    hide Saved, Queried, KillsAt, WithKills, FilledKills, FilledCreatures, SavedKills, SavedCreatures;
    QueriedSaved(p, killOrder, creatureOrder);
    MapsRestored(p, killOrder, creatureOrder);
    NothingForgotten(p.kills);
  }

  /** So nothing is lost exactly when every place in the map holds a kill. */
  lemma NothingLostIff(p: Player, killOrder: seq<Place>, creatureOrder: seq<int>)
    requires Enumerates(killOrder, p.kills) && Enumerates(creatureOrder, p.creatures)
    ensures Reloaded(p, killOrder, creatureOrder) == p <==> forall k :: k in p.kills ==> p.kills[k] != []
  {
    hide Reloaded;
    LoadedIsSaved(p, killOrder, creatureOrder);
    if forall k :: k in p.kills ==> p.kills[k] != [] {
      assert WithKills(p.kills) == p.kills;
    }
  }

  // -------------------------------------------------------------------------------------------
  // A row as it is
  // -------------------------------------------------------------------------------------------

  const SAMPLE := Player(
    Hero([Task(3, -1, 20), Task(4, 0, 0)], [Record(1, 12)], 100, 2, 3, 4), 5, [0, 2],
    map[(1, 2) := [Kill(7, 1), Kill(8, 2)]], map[9 := 1], [true, false], [(5, true)], 6, 7, 8)

  lemma SampleInts()
    ensures PrintInt(0) == "0" && PrintInt(1) == "1" && PrintInt(2) == "2" && PrintInt(3) == "3" && PrintInt(4) == "4"
    ensures PrintInt(5) == "5" && PrintInt(6) == "6" && PrintInt(7) == "7" && PrintInt(8) == "8" && PrintInt(9) == "9"
    ensures PrintInt(-1) == "-1" && PrintInt(12) == "12" && PrintInt(20) == "20" && PrintInt(100) == "100"
  {
    hide PrintNat;
    for d := 0 to 10
      invariant forall k :: 0 <= k < d ==> PrintNat(k) == [Digit(k)]
    {
      PrintMore(0, d);
    }
    PrintMore(1, 2);
    PrintMore(2, 0);
    PrintMore(1, 0);
    PrintMore(10, 0);
  }

  lemma OneItem<T>(x: T, print1: T -> string, sep: char)
    ensures Column([x], print1, sep) == print1(x)
  {
    EmptyColumn(print1, sep);
    ColumnMore([], x, print1, sep);
    assert [] + [x] == [x];
  }

  lemma TwoItems<T>(x: T, y: T, print1: T -> string, sep: char)
    ensures Column([x, y], print1, sep) == print1(x) + [sep] + print1(y)
  {
    OneItem(x, print1, sep);
    ColumnMore([x], y, print1, sep);
    assert [x] + [y] == [x, y];
  }

  lemma SampleKills()
    ensures SavedKills(SAMPLE.kills, [(1, 2)]) == [KillEntry((1, 2), [Kill(7, 1), Kill(8, 2)])]
    ensures SavedCreatures(SAMPLE.creatures, [9]) == [(9, 1)]
    ensures PrintKills(KillEntry((1, 2), [Kill(7, 1), Kill(8, 2)])) == "1,2:7,1:8,2"
  {
    SampleInts();
    hide PrintInt;
    var m := SAMPLE.kills;
    assert [(1, 2)][..0] == [] && SavedKills(m, []) == [];
    assert [9][..0] == [] && SavedCreatures(SAMPLE.creatures, []) == [];
    var kills := [Kill(7, 1), Kill(8, 2)];
    assert PrintKill(kills[0]) == "7,1" && PrintKill(kills[1]) == "8,2" && PrintPair((1, 2)) == "1,2";
    assert Printed(kills, PrintKill) == ["7,1", "8,2"];
    var parts := ["1,2", "7,1", "8,2"];
    assert [PrintPair((1, 2))] + Printed(kills, PrintKill) == parts;
    assert parts[1..] == ["7,1", "8,2"] && parts[1..][1..] == ["8,2"];
    assert Join(parts[1..], ':') == "7,1" + [':'] + "8,2";
    assert Join(parts, ':') == "1,2" + [':'] + Join(parts[1..], ':');
  }

  /** The row of one player, column by column. */
  lemma SampleRow()
    ensures Saved(SAMPLE, [(1, 2)], [9]) ==
      Row(Numbers("100", "5", "2", "3", "4", "6", "7", "8"),
          "1,12", "1;0", "3,-1,20;4,0,0", "0,2", "5,1", "1,2:7,1:8,2", "9,1")
  {
    SampleInts();
    SampleKills();
    OneItem(Record(1, 12), PrintRecord, ';');
    TwoItems(true, false, PrintBool, ';');
    TwoItems(Task(3, -1, 20), Task(4, 0, 0), PrintTask, ';');
    TwoItems(0, 2, PrintInt, ',');
    OneItem((5, true), PrintFlag, ';');
    OneItem(KillEntry((1, 2), [Kill(7, 1), Kill(8, 2)]), PrintKills, ';');
    OneItem((9, 1), PrintPair, ';');
    hide PrintInt, Column, PrintKills, SavedKills, SavedCreatures;
  }

  // -------------------------------------------------------------------------------------------
  // The loops
  // -------------------------------------------------------------------------------------------

  lemma {:induction false} JoinMore(parts: seq<string>, last: string, sep: char)
    ensures Join(parts + [last], sep) == if parts == [] then last else Join(parts, sep) + [sep] + last
  {
    if |parts| == 1 {
      assert (parts + [last])[1..] == [last];
    } else if |parts| >= 2 {
      assert (parts + [last])[0] == parts[0] && (parts + [last])[1..] == parts[1..] + [last];
      JoinMore(parts[1..], last, sep);
      assert parts[0] + [sep] + (Join(parts[1..], sep) + [sep] + last) == (parts[0] + [sep] + Join(parts[1..], sep)) + [sep] + last;
    }
  }

  lemma ColumnMore<T>(items: seq<T>, x: T, print1: T -> string, sep: char)
    ensures Column(items + [x], print1, sep) == if items == [] then print1(x) else Column(items, print1, sep) + [sep] + print1(x)
  {
    assert (items + [x])[..|items|] == items;
    JoinMore(Printed(items, print1), print1(x), sep);
  }

  /** The loop by which SaveHero prints a list. */
  method PrintColumn<T>(items: seq<T>, print1: T -> string, sep: char) returns (text: string)
    ensures text == Column(items, print1, sep)
  {
    text := "";
    for i := 0 to |items|
      invariant text == Column(items[..i], print1, sep)
    {
      ColumnMore(items[..i], items[i], print1, sep);
      assert items[..i + 1] == items[..i] + [items[i]];
      if i != 0 {
        text := text + [sep];
      }
      text := text + print1(items[i]);
    }
    assert items[..|items|] == items;
  }

  /** The loop over the special kills; the inner loop puts a ':' before every kill. */
  method PrintKillColumn(m: map<Place, seq<Kill>>, order: seq<Place>) returns (text: string)
    requires forall k :: k in order ==> k in m
    ensures text == Column(SavedKills(m, order), PrintKills, ';')
  {
    hide PrintPair, PrintKills, Column;
    text := "";
    ghost var entries: seq<KillEntry> := [];
    EmptyColumn(PrintKills, ';');
    for i := 0 to |order|
      invariant entries == SavedKills(m, order[..i]) && text == Column(entries, PrintKills, ';')
      invariant text == "" <==> entries == []
    {
      assert order[..i + 1][..i] == order[..i];
      var tail := PrintTail(order[i], m[order[i]]);
      if tail != "" {
        var e := KillEntry(order[i], m[order[i]]);
        ColumnMore(entries, e, PrintKills, ';');
        entries := entries + [e];
        if text != "" {
          text := text + ";";
        }
        text := text + PrintPair(order[i]) + tail;
      }
    }
    assert order[..|order|] == order;
  }

  lemma EmptyColumn<T>(print1: T -> string, sep: char)
    ensures Column([], print1, sep) == ""
  {
  }

  lemma NoKills(place: Place)
    ensures PrintKills(KillEntry(place, [])) == PrintPair(place)
  {
    hide PrintPair;
    assert [PrintPair(place)] + Printed([], PrintKill) == [PrintPair(place)];
  }

  lemma OneMoreKill(place: Place, kills: seq<Kill>, kill: Kill)
    ensures PrintKills(KillEntry(place, kills + [kill])) == PrintKills(KillEntry(place, kills)) + ":" + PrintKill(kill)
  {
    hide PrintPair, PrintKill, Join;
    var before := [PrintPair(place)] + Printed(kills, PrintKill);
    JoinMore(before, PrintKill(kill), ':');
    assert (kills + [kill])[..|kills|] == kills;
    assert [PrintPair(place)] + Printed(kills + [kill], PrintKill) == before + [PrintKill(kill)];
  }

  method PrintTail(place: Place, kills: seq<Kill>) returns (tail: string)
    ensures PrintPair(place) + tail == PrintKills(KillEntry(place, kills))
    ensures tail == "" <==> kills == []
  {
    hide PrintPair, PrintKill, PrintKills;
    tail := "";
    NoKills(place);
    for j := 0 to |kills|
      invariant PrintPair(place) + tail == PrintKills(KillEntry(place, kills[..j]))
      invariant tail == "" <==> j == 0
    {
      OneMoreKill(place, kills[..j], kills[j]);
      assert kills[..j + 1] == kills[..j] + [kills[j]];
      assert PrintPair(place) + (tail + ":" + PrintKill(kills[j])) == (PrintPair(place) + tail) + ":" + PrintKill(kills[j]);
      tail := tail + ":" + PrintKill(kills[j]);
    }
    assert kills[..|kills|] == kills;
  }

  /** The loop by which the database server reads a list. */
  method ParseColumn<T>(text: string, parse: string -> Option<T>, sep: char) returns (items: seq<T>)
    ensures items == Uncolumn(text, parse, sep)
  {
    hide Split;
    var pieces := SplitStringA(text, sep);
    items := [];
    for i := 0 to |pieces|
      invariant items == Parsed(pieces[..i], parse)
    {
      assert pieces[..i + 1][..i] == pieces[..i];
      match parse(pieces[i]) {
        case None =>
        case Some(x) => items := items + [x];
      }
    }
    assert pieces[..|pieces|] == pieces;
  }

  method SaveHero(p: Player, killOrder: seq<Place>, creatureOrder: seq<int>) returns (row: Row)
    requires forall k :: k in killOrder ==> k in p.kills
    requires forall k :: k in creatureOrder ==> k in p.creatures
    ensures row == Saved(p, killOrder, creatureOrder)
  {
    hide Column;
    var records := PrintColumn(p.hero.records, PrintRecord, ';');
    var heroes := PrintColumn(p.heroes, PrintBool, ';');
    var tasks := PrintColumn(p.hero.tasks, PrintTask, ';');
    var kills := PrintKillColumn(p.kills, killOrder);
    var grid := PrintColumn(p.gridState, PrintFlag, ';');
    var creatures := PrintColumn(SavedCreatures(p.creatures, creatureOrder), PrintPair, ';');
    var lotions := PrintColumn(p.lotions, PrintInt, ',');
    var numbers := Numbers(PrintInt(p.hero.gold), PrintInt(p.jewel), PrintInt(p.hero.completeCount),
                           PrintInt(p.hero.refreshCount), PrintInt(p.hero.refreshTime),
                           PrintInt(p.chapter), PrintInt(p.section), PrintInt(p.lotteryTime));
    row := Row(numbers, records, heroes, tasks, lotions, grid, kills, creatures);
  }

  method DbDoQueryHeroInfo(row: Row) returns (info: Info)
    ensures info == Queried(row)
  {
    hide Uncolumn;
    var n := row.numbers;
    var numbers := Numbers(Atoi(n.gold), Atoi(n.jewel), Atoi(n.completeCount), Atoi(n.refreshCount), Atoi(n.refreshTime),
                           Atoi(n.chapter), Atoi(n.section), Atoi(n.lotteryTime));
    var records := ParseColumn(row.records, ParseRecord, ';');
    var heroes := ParseColumn(row.heroes, ParseBool, ';');
    var tasks := ParseColumn(row.tasks, ParseTask, ';');
    var kills := ParseColumn(row.kills, ParseKills, ';');
    var lotions := ParseColumn(row.lotions, ParseInt, ',');
    var creatures := ParseColumn(row.creatures, ParsePairOrMore, ';');
    var grid := ParseColumn(row.gridState, ParseFlag, ';');
    info := Info(numbers, records, heroes, tasks, lotions, grid, kills, creatures);
  }

  lemma PushOne(m: map<Place, seq<Kill>>, place: Place, kills: seq<Kill>, kill: Kill)
    ensures var p := PushKills(m, place, kills);
      PushKills(m, place, kills + [kill]) == p[place := (if place in p then p[place] else []) + [kill]]
  {
    var had := if place in m then m[place] else [];
    assert had + (kills + [kill]) == (had + kills) + [kill];
    if kills == [] {
      assert had + kills == had;
    }
  }

  lemma PushNone()
    ensures forall m: map<Place, seq<Kill>>, place: Place :: PushKills(m, place, []) == m
  {
  }

  /** The loops of `set_info` that rebuild the maps. */
  method SetInfo(info: Info) returns (p: Player)
    ensures p == Filled(info)
  {
    hide PushKills;
    var kills: map<Place, seq<Kill>> := map[];
    PushNone();
    for i := 0 to |info.kills|
      invariant kills == FilledKills(info.kills[..i])
    {
      var e := info.kills[i];
      ghost var before := kills;
      assert info.kills[..i + 1][..i] == info.kills[..i] && info.kills[..i + 1][i] == e;
      for j := 0 to |e.kills|
        invariant kills == PushKills(before, e.place, e.kills[..j])
      {
        assert e.kills[..j + 1] == e.kills[..j] + [e.kills[j]];
        PushOne(before, e.place, e.kills[..j], e.kills[j]);
        kills := kills[e.place := (if e.place in kills then kills[e.place] else []) + [e.kills[j]]];
      }
      assert e.kills[..|e.kills|] == e.kills;
    }
    assert info.kills[..|info.kills|] == info.kills;
    var creatures: map<int, int> := map[];
    for i := 0 to |info.creatures|
      invariant creatures == FilledCreatures(info.creatures[..i])
    {
      assert info.creatures[..i + 1][..i] == info.creatures[..i];
      creatures := creatures[info.creatures[i].0 := info.creatures[i].1];
    }
    assert info.creatures[..|info.creatures|] == info.creatures;
    var n := info.numbers;
    p := Player(Hero(info.tasks, info.records, n.gold, n.completeCount, n.refreshCount, n.refreshTime), n.jewel,
                info.lotions, kills, creatures, info.heroes, info.gridState, n.chapter, n.section, n.lotteryTime);
  }
}
