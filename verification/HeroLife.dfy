/** A player's life on the game server: every run of the requests of modules HeroTasks, ExitGame and Lottery,
    with the player saved and loaded again (module HeroSave) at any time. */
module HeroLife {
  import opened HeroData
  import opened HeroTasks
  import opened ExitGame
  import opened Lottery
  import HeroSave

  /** `Other` stands for all requests that touch neither tasks nor lotions nor kills nor the place: it sets the
      rest as it likes. */
  datatype Step =
    | RefreshTask(giveUp: int, pay: bool, now: int, r: nat)
    | DayPasses(due: bool, r: nat)
    | Replace(count: i32, rands: nat -> nat)
    | Enter(chapter: int, section: int)
    | Exit(m: Report)
    | DrawPrize(configs: seq<Prize>, today: bool, now: int, rand: nat, random: nat)
    | BuyLotion(shop: map<int, LotionPrice>, id: int)
    | SaveAndLoad(killOrder: seq<Place>, creatureOrder: seq<int>)
    | ResetMap(place: Place)
    | Other(gold: int, jewel: int, completed: int, records: seq<Record>, heroes: seq<bool>, gridState: seq<(int, bool)>,
            creatures: map<int, int>, lotteryTime: int)
    | LoadFromConfig(gold: int, jewel: int, heroes: seq<bool>)

  /** A player as `LoadFromConfig` makes one. */
  function Newborn(gold: int, jewel: int, heroes: seq<bool>): Player {
    Player(Hero([], [Record(1, 1), Record(0, 0)], gold, 0, 0, 0), jewel, [], map[], map[], heroes, [], 0, 0, 0)
  }

  ghost predicate Enabled(p: Player, s: Step) {
    s.SaveAndLoad? ==> HeroSave.Enumerates(s.killOrder, p.kills) && HeroSave.Enumerates(s.creatureOrder, p.creatures)
  }

  ghost function Next(c: Config, p: Player, s: Step): Player
    requires Enabled(p, s)
  {
    match s
    case RefreshTask(giveUp, pay, now, r) => p.(hero := Refresh(c, p.hero, giveUp, pay, now, r).hero)
    case DayPasses(due, r) => p.(hero := DayRefresh(c, p.hero, due, r))
    case Replace(count, rands) => p.(hero := Filled(c, p.hero, Rounds(c, count), rands))
    case Enter(chapter, section) => p.(chapter := chapter, section := section)
    case Exit(m) => Exited(c, p, m)
    case DrawPrize(configs, today, now, rand, random) => Drawn(p, configs, today, now, rand, random).0
    case BuyLotion(shop, id) => Bought(p, shop, id).0
    case SaveAndLoad(killOrder, creatureOrder) => HeroSave.Reloaded(p, killOrder, creatureOrder)
    case ResetMap(place) => p.(kills := p.kills - {place})
    case Other(gold, jewel, completed, records, heroes, gridState, creatures, lotteryTime) =>
      p.(hero := p.hero.(gold := gold, completeCount := completed, records := records), jewel := jewel, heroes := heroes,
         gridState := gridState, creatures := creatures, lotteryTime := lotteryTime)
    case LoadFromConfig(gold, jewel, heroes) => Newborn(gold, jewel, heroes)
  }

  ghost predicate Run(c: Config, ps: seq<Player>, steps: seq<Step>) {
    && |ps| == |steps| + 1
    && forall i :: 0 <= i < |steps| ==> Enabled(ps[i], steps[i]) && ps[i + 1] == Next(c, ps[i], steps[i])
  }

  // -------------------------------------------------------------------------------------------
  // What every run keeps
  // -------------------------------------------------------------------------------------------

  ghost predicate DistinctKills(kills: seq<Kill>) {
    forall i, j :: 0 <= i < j < |kills| ==> kills[i] != kills[j]
  }

  /** No task, no lotion and no special kill of a place is there twice. */
  ghost predicate Sound(p: Player) {
    && DistinctIds(p.hero.tasks)
    && DistinctLotions(p.lotions)
    && forall place :: DistinctKills(KillsAt(p.kills, place))
  }

  lemma {:induction false} UnusedKeepsDistinct(lotions: seq<int>, used: seq<int>)
    requires DistinctLotions(lotions)
    ensures DistinctLotions(Unused(lotions, used)) && forall x :: x in Unused(lotions, used) ==> x in lotions
  {
    if lotions != [] {
      var n := |lotions| - 1;
      UnusedKeepsDistinct(lotions[..n], used);
      assert lotions == lotions[..n] + [lotions[n]];
      assert lotions[n] !in lotions[..n];
    }
  }

  lemma RemovedKills(kills: map<Place, seq<Kill>>, place: Place)
    ensures forall other :: KillsAt(kills - {place}, other) == if other == place then [] else KillsAt(kills, other)
  {
    var now := kills - {place};
    forall other: Place
      ensures KillsAt(now, other) == if other == place then [] else KillsAt(kills, other)
    {
      assert other in now <==> other in kills && other != place;
    }
  }

  lemma NewbornIsSound(gold: int, jewel: int, heroes: seq<bool>)
    ensures Sound(Newborn(gold, jewel, heroes))
  {
  }

  lemma EnteredKills(kills: map<Place, seq<Kill>>, place: Place, list: seq<Kill>)
    ensures forall other :: KillsAt(kills[place := list], other) == if other == place then list else KillsAt(kills, other)
  {
    var now := kills[place := list];
    forall other: Place
      ensures KillsAt(now, other) == if other == place then list else KillsAt(kills, other)
    {
      assert other in now <==> other in kills || other == place;
    }
  }

  lemma KillsAfterExit(c: Config, p: Player, m: Report)
    requires ErrorOf(p, m) == NoError
    ensures var place := (p.chapter, p.section);
      forall other :: KillsAt(Exited(c, p, m).kills, other) ==
        if other == place then Merged(KillsAt(p.kills, place), m.kills) else KillsAt(p.kills, other)
  {
    hide KillsAt, CompleteAll, AllOverwritten, Advanced, Merged, Noted, Unused;
    var place := (p.chapter, p.section);
    EnteredKills(p.kills, place, Merged(KillsAt(p.kills, place), m.kills));
    assert Exited(c, p, m).kills == p.kills[place := Merged(KillsAt(p.kills, place), m.kills)];
  }

  lemma LotionsAfterExit(c: Config, p: Player, m: Report)
    requires ErrorOf(p, m) == NoError
    ensures Exited(c, p, m).lotions == Unused(p.lotions, m.useLotions)
  {
    hide KillsAt, CompleteAll, AllOverwritten, Advanced, Merged, Noted, Unused;
  }

  lemma ExitKeepsSound(c: Config, p: Player, m: Report)
    requires Sound(p)
    ensures Sound(Exited(c, p, m)) && |Exited(c, p, m).hero.tasks| <= |p.hero.tasks|
  {
    if ErrorOf(p, m) == NoError {
      ExitAccounts(c, p, m);
      KillsAfterExit(c, p, m);
      LotionsAfterExit(c, p, m);
      UnusedKeepsDistinct(p.lotions, m.useLotions);
      MergedKeepsDistinct(KillsAt(p.kills, (p.chapter, p.section)), m.kills);
      hide Exited, ErrorOf, Kept, Payout, Merged, Unused, KillsAt;
    }
  }

  lemma ResetKeepsSound(p: Player, place: Place)
    requires Sound(p)
    ensures Sound(p.(kills := p.kills - {place}))
  {
    RemovedKills(p.kills, place);
    hide KillsAt;
  }

  lemma StepKeepsSound(c: Config, p: Player, s: Step)
    requires Sound(p) && Enabled(p, s)
    ensures Sound(Next(c, p, s))
  {
    hide Refresh, DayRefresh, Filled, Exited, HeroSave.Reloaded, DistinctIds, DistinctLotions, DistinctKills;
    match s
    case RefreshTask(giveUp, pay, now, r) => RefreshKeepsInv(c, p.hero, giveUp, pay, now, r);
    case DayPasses(due, r) => DayRefreshKeepsInv(c, p.hero, due, r);
    case Replace(count, rands) => FilledIsDistinct(c, p.hero, Rounds(c, count), rands);
    case Enter(chapter, section) =>
    case Exit(m) => ExitKeepsSound(c, p, m);
    case DrawPrize(configs, today, now, rand, random) => DrawKeepsDistinct(p, configs, today, now, rand, random);
    case BuyLotion(shop, id) => BuyKeepsDistinct(p, shop, id);
    case SaveAndLoad(killOrder, creatureOrder) => HeroSave.LoadedIsSaved(p, killOrder, creatureOrder);
    case ResetMap(place) => ResetKeepsSound(p, place);
    case Other(gold, jewel, completed, records, heroes, gridState, creatures, lotteryTime) =>
    case LoadFromConfig(gold, jewel, heroes) => NewbornIsSound(gold, jewel, heroes);
  }

  /** Over every run of a player without duplicates, such as a newborn one, none ever come. */
  lemma {:induction false} EveryRunIsSound(c: Config, ps: seq<Player>, steps: seq<Step>, k: nat)
    requires Run(c, ps, steps) && Sound(ps[0]) && k <= |steps|
    ensures Sound(ps[k])
  {
    if k > 0 {
      EveryRunIsSound(c, ps, steps, k - 1);
      StepKeepsSound(c, ps[k - 1], steps[k - 1]);
    }
  }

  lemma ExitBalances(c: Config, p: Player, m: Report)
    requires DistinctLotions(p.lotions) && ErrorOf(p, m) == NoError
    ensures multiset(Exited(c, p, m).lotions) == multiset(p.lotions) - multiset(m.useLotions)
  {
    LotionsAfterExit(c, p, m);
    hide Exited;
    forall x | x in m.useLotions
      ensures multiset(p.lotions)[x] <= multiset(m.useLotions)[x]
    {
      AtMostOnce(p.lotions, x);
    }
    LotionsBalanceIff(p.lotions, m.useLotions);
  }

  lemma UsedAreGone(c: Config, p: Player, m: Report)
    requires ErrorOf(p, m) == NoError
    ensures forall x :: x in m.useLotions ==> x in p.lotions && x !in Exited(c, p, m).lotions
  {
    LotionsAfterExit(c, p, m);
    hide Exited;
    forall x | x in m.useLotions
      ensures x !in Unused(p.lotions, m.useLotions)
    {
      UnusedMembers(p.lotions, m.useLotions, x);
    }
  }

  /** Over every run each exit without error leaves exactly the lotions held less the lotions used. */
  lemma EveryExitBalances(c: Config, ps: seq<Player>, steps: seq<Step>, k: nat)
    requires Run(c, ps, steps) && Sound(ps[0]) && k < |steps|
    requires steps[k].Exit? && ErrorOf(ps[k], steps[k].m) == NoError
    ensures multiset(ps[k + 1].lotions) == multiset(ps[k].lotions) - multiset(steps[k].m.useLotions)
    ensures forall x :: x in steps[k].m.useLotions ==> x in ps[k].lotions && x !in ps[k + 1].lotions
  {
    UsedAreGone(c, ps[k], steps[k].m);
    hide ErrorOf, Exited;
    EveryRunIsSound(c, ps, steps, k);
    ExitBalances(c, ps[k], steps[k].m);
    assert ps[k + 1] == Exited(c, ps[k], steps[k].m);
    hide Run, Sound, DistinctLotions;
  }

  lemma {:induction false} AtMostOnce(s: seq<int>, x: int)
    requires forall i, j :: 0 <= i < j < |s| ==> s[i] != s[j]
    ensures multiset(s)[x] <= 1
  {
    if s != [] {
      var n := |s| - 1;
      assert s == s[..n] + [s[n]];
      AtMostOnce(s[..n], x);
    }
  }

  // -------------------------------------------------------------------------------------------
  // Exits and records
  // -------------------------------------------------------------------------------------------

  /** The place that the player is in; none if both numbers are -1. */
  function PlaceOf(p: Player): Place { (p.chapter, p.section) }

  /** The step puts the player into this place: by entering it, or as a newborn player. */
  predicate Enters(s: Step, place: Place) {
    (s.Enter? && (s.chapter, s.section) == place) || (s.LoadFromConfig? && place == (0, 0))
  }

  lemma PlaceAfter(c: Config, p: Player, s: Step)
    requires Enabled(p, s)
    ensures PlaceOf(Next(c, p, s)) ==
      match s
      case Enter(chapter, section) => (chapter, section)
      case Exit(m) => (-1, -1)
      case LoadFromConfig(gold, jewel, heroes) => (0, 0)
      case _ => PlaceOf(p)
  {
    hide Refresh, DayRefresh, Filled, HeroSave.Reloaded, Offered, Start, Picked;
    if s.SaveAndLoad? {
      HeroSave.LoadedIsSaved(p, s.killOrder, s.creatureOrder);
    }
  }

  lemma RunLength(c: Config, ps: seq<Player>, steps: seq<Step>)
    requires Run(c, ps, steps)
    ensures |ps| == |steps| + 1
  {
  }

  lemma PlaceStep(c: Config, ps: seq<Player>, steps: seq<Step>, k: nat)
    requires Run(c, ps, steps) && k < |steps| && PlaceOf(ps[k + 1]) != (-1, -1)
    ensures Enters(steps[k], PlaceOf(ps[k + 1])) ||
      (PlaceOf(ps[k + 1]) == PlaceOf(ps[k]) && !steps[k].Exit? && !steps[k].Enter?)
  {
    hide Next, Enabled;
    PlaceAfter(c, ps[k], steps[k]);
  }

  lemma {:induction false} PlaceWasEntered(c: Config, ps: seq<Player>, steps: seq<Step>, k: nat) returns (j: nat)
    requires Run(c, ps, steps) && PlaceOf(ps[0]) == (-1, -1) && k <= |steps| && PlaceOf(ps[k]) != (-1, -1)
    ensures j < k && Enters(steps[j], PlaceOf(ps[k]))
    ensures forall i :: j < i < k ==> !steps[i].Exit? && !steps[i].Enter?
  {
    hide Run, PlaceOf, Enters;
    RunLength(c, ps, steps);
    PlaceStep(c, ps, steps, k - 1);
    if Enters(steps[k - 1], PlaceOf(ps[k])) {
      j := k - 1;
    } else {
      j := PlaceWasEntered(c, ps, steps, k - 1);
    }
  }

  /** Over every run of a player who starts outside: an exit without error is from the place entered last, and
      it is the first exit since. So no game entered is ever taken home twice. */
  lemma EveryExitWasEntered(c: Config, ps: seq<Player>, steps: seq<Step>, k: nat) returns (j: nat)
    requires Run(c, ps, steps) && PlaceOf(ps[0]) == (-1, -1)
    requires k < |steps| && steps[k].Exit? && ErrorOf(ps[k], steps[k].m) == NoError
    ensures j < k && Enters(steps[j], (steps[k].m.chapter, steps[k].m.section))
    ensures forall i :: j < i < k ==> !steps[i].Exit? && !steps[i].Enter?
  {
    j := PlaceWasEntered(c, ps, steps, k);
  }

  /** Every record is there, of the same chapter, and no section before the one it had. */
  ghost predicate Advances(before: seq<Record>, after: seq<Record>) {
    |before| == |after| &&
    forall i :: 0 <= i < |before| ==> before[i].chapter == after[i].chapter && before[i].section <= after[i].section
  }

  lemma TasksKeepRecords(c: Config, h: Hero, giveUp: int, flag: bool, now: int, r: nat, n: nat, rands: nat -> nat)
    ensures Refresh(c, h, giveUp, flag, now, r).hero.records == h.records
    ensures DayRefresh(c, h, flag, r).records == h.records
    ensures Filled(c, h, n, rands).records == h.records
  {
    FilledIsDistinct(c, h, n, rands);
    hide RandomTask, Holds, Without, Add, RefreshAllowed, Filled;
  }

  lemma ExitAdvances(c: Config, p: Player, m: Report)
    requires DistinctIds(p.hero.tasks)
    ensures Advances(p.hero.records, Exited(c, p, m).hero.records)
  {
    if ErrorOf(p, m) == NoError {
      ExitAccounts(c, p, m);
      hide Exited, Kept, Payout;
    }
  }

  lemma LotionsKeepRecords(p: Player, configs: seq<Prize>, today: bool, now: int, rand: nat, random: nat,
                           shop: map<int, LotionPrice>, id: int)
    ensures Drawn(p, configs, today, now, rand, random).0.hero.records == p.hero.records
    ensures Bought(p, shop, id).0.hero.records == p.hero.records
  {
    hide Offered, Start, Picked;
  }

  lemma StepAdvances(c: Config, p: Player, s: Step)
    requires Enabled(p, s) && !s.Other? && !s.LoadFromConfig? && DistinctIds(p.hero.tasks)
    ensures Advances(p.hero.records, Next(c, p, s).hero.records)
  {
    hide Refresh, DayRefresh, Filled, Exited, Drawn, Bought, Rounds, HeroSave.Reloaded;
    match s
    case RefreshTask(giveUp, pay, now, r) => TasksKeepRecords(c, p.hero, giveUp, pay, now, r, 0, n => 0);
    case DayPasses(due, r) => TasksKeepRecords(c, p.hero, 0, due, 0, r, 0, n => 0);
    case Replace(count, rands) => TasksKeepRecords(c, p.hero, 0, false, 0, 0, Rounds(c, count), rands);
    case Exit(m) => ExitAdvances(c, p, m);
    case DrawPrize(configs, today, now, rand, random) => LotionsKeepRecords(p, configs, today, now, rand, random, map[], 0);
    case BuyLotion(shop, id) => LotionsKeepRecords(p, [], false, 0, 0, 0, shop, id);
    case SaveAndLoad(killOrder, creatureOrder) => HeroSave.LoadedIsSaved(p, killOrder, creatureOrder);
    case _ =>
  }

  lemma AdvancesFurther(a: seq<Record>, b: seq<Record>, c: seq<Record>)
    requires Advances(a, b) && Advances(b, c)
    ensures Advances(a, c)
  {
  }

  /** Over every run no exit, and nothing else that has a step of its own, ever sets a record back. */
  lemma RecordsOnlyAdvance(c: Config, ps: seq<Player>, steps: seq<Step>, i: nat, k: nat)
    requires Run(c, ps, steps) && Sound(ps[0]) && i <= k <= |steps|
    requires forall j :: i <= j < k ==> !steps[j].Other? && !steps[j].LoadFromConfig?
    ensures Advances(ps[i].hero.records, ps[k].hero.records)
  {
    for j := i to k
      invariant Advances(ps[i].hero.records, ps[j].hero.records)
    {
      EveryRunIsSound(c, ps, steps, j);
      hide Next, Enabled, Advances;
      StepAdvances(c, ps[j], steps[j]);
      AdvancesFurther(ps[i].hero.records, ps[j].hero.records, ps[j + 1].hero.records);
    }
  }

  /** A request to replace tasks that keeps to the maximum (HeroTasks.ReplaceFitsIff). */
  ghost predicate Fits(c: Config, p: Player, s: Step) {
    s.Replace? ==> s.count >= 0 || |UnlockedIds(c, p.hero)| <= c.maxTasks
  }

  /** Over every run the tasks stay within the maximum, as long as each replacing does. */
  lemma {:induction false} EveryRunKeepsTasks(c: Config, ps: seq<Player>, steps: seq<Step>, k: nat)
    requires c.maxTasks >= 0 && forall i :: 0 <= i < |c.tasks| ==> c.tasks[i].id != 0
    requires Run(c, ps, steps) && Sound(ps[0]) && Inv(c, ps[0].hero) && k <= |steps|
    requires forall i :: 0 <= i < |steps| ==> Fits(c, ps[i], steps[i])
    ensures Inv(c, ps[k].hero)
  {
    if k > 0 {
      EveryRunKeepsTasks(c, ps, steps, k - 1);
      EveryRunIsSound(c, ps, steps, k - 1);
      StepKeepsInv(c, ps[k - 1], steps[k - 1]);
    }
  }

  lemma TasksStay(p: Player, s: Step)
    requires Enabled(p, s) && (s.Enter? || s.DrawPrize? || s.BuyLotion? || s.SaveAndLoad? || s.ResetMap? || s.Other?)
    ensures forall c :: Next(c, p, s).hero.tasks == p.hero.tasks
  {
    hide HeroSave.Reloaded, Offered, Start, Picked;
    if s.SaveAndLoad? {
      HeroSave.LoadedIsSaved(p, s.killOrder, s.creatureOrder);
    }
  }

  lemma StepKeepsInv(c: Config, p: Player, s: Step)
    requires c.maxTasks >= 0 && forall i :: 0 <= i < |c.tasks| ==> c.tasks[i].id != 0
    requires Sound(p) && Inv(c, p.hero) && Enabled(p, s) && Fits(c, p, s)
    ensures Inv(c, Next(c, p, s).hero)
  {
    StepKeepsSound(c, p, s);
    hide Refresh, DayRefresh, Filled, Exited, Drawn, Bought, Rounds, UnlockedIds, Enabled;
    hide HeroSave.Reloaded, DistinctIds, DistinctLotions, DistinctKills, KillsAt;
    match s
    case RefreshTask(giveUp, pay, now, r) => RefreshKeepsInv(c, p.hero, giveUp, pay, now, r);
    case DayPasses(due, r) => DayRefreshKeepsInv(c, p.hero, due, r);
    case Replace(count, rands) => ReplaceFitsIff(c, p.hero, count, rands);
    case Exit(m) => ExitKeepsSound(c, p, m);
    case LoadFromConfig(gold, jewel, heroes) =>
    case _ => TasksStay(p, s);
  }

  // -------------------------------------------------------------------------------------------
  // What saving forgets, and that it is never noticed
  // -------------------------------------------------------------------------------------------

  const NOTHING_DONE := Report(1, 2, false, 0, [], [], [], [], [])

  lemma EmptyExit(c: Config, p: Player)
    requires p.chapter == 1 && p.section == 2 && p.kills == map[] && p.creatures == map[]
    ensures Exited(c, p, NOTHING_DONE).kills == map[(1, 2) := []] && Exited(c, p, NOTHING_DONE).creatures == map[]
  {
    hide CompleteAll, AllOverwritten, Advanced, Unused;
    assert Merged([], []) == [];
  }

  lemma EmptyPlaceIsDropped(p: Player)
    requires p.kills == map[(1, 2) := []] && p.creatures == map[]
    ensures HeroSave.Enumerates([(1, 2)], p.kills) && HeroSave.Enumerates([], p.creatures)
    ensures HeroSave.Reloaded(p, [(1, 2)], []).kills == map[]
  {
    hide HeroSave.Reloaded;
    HeroSave.LoadedIsSaved(p, [(1, 2)], []);
    assert HeroSave.WithKills(p.kills) == map[];
  }

  lemma TwoSteps(c: Config, p: Player, s: Step, t: Step)
    requires Enabled(p, s) && Enabled(Next(c, p, s), t)
    ensures Run(c, [p, Next(c, p, s), Next(c, Next(c, p, s), t)], [s, t])
  {
    hide Next, Enabled;
  }

  lemma LeavingEmpty(c: Config, gold: int, jewel: int, heroes: seq<bool>)
    ensures var left := Next(c, Next(c, Newborn(gold, jewel, heroes), Enter(1, 2)), Exit(NOTHING_DONE));
      left.kills == map[(1, 2) := []] && left.creatures == map[]
  {
    hide Exited;
    EmptyExit(c, Newborn(gold, jewel, heroes).(chapter := 1, section := 2));
  }

  /** A newborn player leaves a game without a special kill, and is saved: the place is in the map before,
      and not after. */
  lemma EmptyPlaceIsForgotten(c: Config, gold: int, jewel: int, heroes: seq<bool>)
    ensures
      var born := Newborn(gold, jewel, heroes);
      var entered := Next(c, born, Enter(1, 2));
      var left := Next(c, entered, Exit(NOTHING_DONE));
      Run(c, [born, entered, left], [Enter(1, 2), Exit(NOTHING_DONE)]) &&
      left.kills == map[(1, 2) := []] && Enabled(left, SaveAndLoad([(1, 2)], [])) &&
      HeroSave.Reloaded(left, [(1, 2)], []).kills == map[]
  {
    hide Next, Newborn, Run, HeroSave.Reloaded, HeroSave.Enumerates;
    var born := Newborn(gold, jewel, heroes);
    TwoSteps(c, born, Enter(1, 2), Exit(NOTHING_DONE));
    LeavingEmpty(c, gold, jewel, heroes);
    EmptyPlaceIsDropped(Next(c, Next(c, born, Enter(1, 2)), Exit(NOTHING_DONE)));
  }

  /** The same player, but for places without special kills. */
  ghost predicate Same(p: Player, q: Player) {
    p.(kills := q.kills) == q && forall place :: KillsAt(p.kills, place) == KillsAt(q.kills, place)
  }

  /** The same steps without saving and loading. */
  ghost function Played(c: Config, p: Player, steps: seq<Step>): Player {
    if steps == [] then p
    else
      var before, s := Played(c, p, steps[..|steps| - 1]), steps[|steps| - 1];
      if s.SaveAndLoad? then before else Next(c, before, s)
  }

  lemma ExitKeepsSame(c: Config, p: Player, q: Player, m: Report)
    requires Same(p, q)
    ensures Same(Exited(c, p, m), Exited(c, q, m)) && ErrorOf(p, m) == ErrorOf(q, m)
  {
    hide KillsAt, CompleteAll, AllOverwritten, Advanced, Merged, Noted, Unused;
    assert Exited(c, p, m).(kills := Exited(c, q, m).kills) == Exited(c, q, m);
    if ErrorOf(p, m) == NoError {
      KillsAfterExit(c, p, m);
      KillsAfterExit(c, q, m);
      hide Exited;
    }
  }

  lemma DrawKeepsSame(p: Player, q: Player, configs: seq<Prize>, today: bool, now: int, rand: nat, random: nat)
    requires Same(p, q)
    ensures Same(Drawn(p, configs, today, now, rand, random).0, Drawn(q, configs, today, now, rand, random).0)
  {
    hide KillsAt, Offered, Start, Picked;
  }

  lemma BuyKeepsSame(p: Player, q: Player, shop: map<int, LotionPrice>, id: int)
    requires Same(p, q)
    ensures Same(Bought(p, shop, id).0, Bought(q, shop, id).0)
  {
    hide KillsAt;
  }

  lemma StepKeepsSame(c: Config, p: Player, q: Player, s: Step)
    requires Same(p, q) && Enabled(p, s)
    ensures Same(Next(c, p, s), if s.SaveAndLoad? then q else Next(c, q, s))
  {
    hide Refresh, DayRefresh, Filled, Exited, Drawn, Bought, HeroSave.Reloaded, KillsAt;
    match s
    case RefreshTask(giveUp, pay, now, r) =>
    case DayPasses(due, r) =>
    case Replace(count, rands) =>
    case Enter(chapter, section) =>
    case Exit(m) => ExitKeepsSame(c, p, q, m);
    case DrawPrize(configs, today, now, rand, random) => DrawKeepsSame(p, q, configs, today, now, rand, random);
    case BuyLotion(shop, id) => BuyKeepsSame(p, q, shop, id);
    case SaveAndLoad(killOrder, creatureOrder) => HeroSave.LoadedIsSaved(p, killOrder, creatureOrder);
    case ResetMap(place) => RemovedKills(p.kills, place); RemovedKills(q.kills, place);
    case Other(gold, jewel, completed, records, heroes, gridState, creatures, lotteryTime) =>
    case LoadFromConfig(gold, jewel, heroes) =>
  }

  /** However often the player is saved and loaded in a run, the player at its end is the one whom the
      requests alone would have made. */
  lemma {:induction false} ReloadingIsInvisible(c: Config, ps: seq<Player>, steps: seq<Step>)
    requires Run(c, ps, steps)
    ensures Same(ps[|steps|], Played(c, ps[0], steps))
  {
    if steps != [] {
      var n := |steps| - 1;
      assert Run(c, ps[..n + 1], steps[..n]);
      ReloadingIsInvisible(c, ps[..n + 1], steps[..n]);
      StepKeepsSame(c, ps[n], Played(c, ps[0], steps[..n]), steps[n]);
    }
  }
}
