/** The tasks of a hero (gameserver/DreamHero.cpp): which task is offered, and how applying, giving up,
    replacing, the day passing and leaving a game change the list of tasks. */
module HeroTasks {
  import opened Collections
  import opened HeroData

  type i32 = x: int | -0x8000_0000 <= x < 0x8000_0000

  /** `gift` is what the task pays; the rest says when it is unlocked. */
  datatype TaskConfig = TaskConfig(id: int, gift: int, needCount: int, needChapter: int, needSection: int)

  /** The configuration: the tasks in the order of the std::map, and the global numbers. */
  datatype Config = Config(tasks: seq<TaskConfig>, maxTasks: i32, refreshGold: int, freeCount: int, cooldown: int)

  datatype Error = ErrorNo | NotEnoughGold | InCooldown | NotFoundGiveUp | Unknow

  // -------------------------------------------------------------------------------------------
  // Which task is offered
  // -------------------------------------------------------------------------------------------

  predicate Holds(tasks: seq<Task>, id: int) {
    exists i :: 0 <= i < |tasks| && tasks[i].id == id
  }

  /** The task given up is skipped too, but only while another task is held. */
  predicate Skipped(tasks: seq<Task>, giveUp: int, id: int) {
    tasks != [] && (Holds(tasks, id) || giveUp == id)
  }

  function ChapterRecord(records: seq<Record>, chapter: int): (k: nat)
    ensures k <= |records|
    ensures k < |records| ==> records[k].chapter == chapter
    ensures forall i :: 0 <= i < k ==> records[i].chapter != chapter
  {
    if records == [] || records[0].chapter == chapter then 0 else 1 + ChapterRecord(records[1..], chapter)
  }

  predicate Unlocked(c: TaskConfig, completeCount: int, records: seq<Record>) {
    && c.needCount <= completeCount
    && (c.needChapter == 0 ||
        var k := ChapterRecord(records, c.needChapter);
        k < |records| && c.needSection <= records[k].section)
  }

  predicate Eligible(c: TaskConfig, h: Hero, giveUp: int) {
    !Skipped(h.tasks, giveUp, c.id) && Unlocked(c, h.completeCount, h.records)
  }

  function Candidates(configs: seq<TaskConfig>, h: Hero, giveUp: int): seq<int> {
    if configs == [] then []
    else
      var last := configs[|configs| - 1];
      Candidates(configs[..|configs| - 1], h, giveUp) + if Eligible(last, h, giveUp) then [last.id] else []
  }

  /** `RadnomTaskInfo`: the id of the task offered, 0 for none; `r` is what rand() returns. */
  function RandomTask(c: Config, h: Hero, giveUp: int, r: nat): int {
    var vc := Candidates(c.tasks, h, giveUp);
    if vc == [] then 0 else vc[r % |vc|]
  }

  lemma {:induction false} CandidateIsEligible(configs: seq<TaskConfig>, h: Hero, giveUp: int, k: nat) returns (i: nat)
    requires k < |Candidates(configs, h, giveUp)|
    ensures i < |configs| && configs[i].id == Candidates(configs, h, giveUp)[k] && Eligible(configs[i], h, giveUp)
  {
    var n := |configs| - 1;
    var before := Candidates(configs[..n], h, giveUp);
    if k < |before| {
      i := CandidateIsEligible(configs[..n], h, giveUp, k);
    } else {
      i := n;
    }
  }

  lemma {:induction false} EligibleIsCandidate(configs: seq<TaskConfig>, h: Hero, giveUp: int, i: nat)
    requires i < |configs| && Eligible(configs[i], h, giveUp)
    ensures configs[i].id in Candidates(configs, h, giveUp)
  {
    if i < |configs| - 1 {
      EligibleIsCandidate(configs[..|configs| - 1], h, giveUp, i);
    }
  }

  /** A task that is offered is configured, unlocked and not held already; and it is not the one given up,
      unless no other task is held. */
  lemma OfferedIsNew(c: Config, h: Hero, giveUp: int, r: nat)
    requires RandomTask(c, h, giveUp, r) != 0
    ensures var id := RandomTask(c, h, giveUp, r);
      !Holds(h.tasks, id) && (id == giveUp ==> h.tasks == []) &&
      exists i :: 0 <= i < |c.tasks| && c.tasks[i].id == id && Unlocked(c.tasks[i], h.completeCount, h.records)
  {
    var vc := Candidates(c.tasks, h, giveUp);
    var i := CandidateIsEligible(c.tasks, h, giveUp, r % |vc|);
  }

  /** Nothing is offered exactly when no task is eligible. */
  lemma NothingOfferedIff(c: Config, h: Hero, giveUp: int, r: nat)
    requires forall i :: 0 <= i < |c.tasks| ==> c.tasks[i].id != 0
    ensures RandomTask(c, h, giveUp, r) == 0 <==> forall i :: 0 <= i < |c.tasks| ==> !Eligible(c.tasks[i], h, giveUp)
  {
    var vc := Candidates(c.tasks, h, giveUp);
    if vc != [] {
      var i := CandidateIsEligible(c.tasks, h, giveUp, r % |vc|);
    } else {
      forall i | 0 <= i < |c.tasks|
        ensures !Eligible(c.tasks[i], h, giveUp)
      {
        if Eligible(c.tasks[i], h, giveUp) {
          EligibleIsCandidate(c.tasks, h, giveUp, i);
        }
      }
    }
  }

  // -------------------------------------------------------------------------------------------
  // The requests
  // -------------------------------------------------------------------------------------------

  /** The list without the first task of this id. */
  function Without(tasks: seq<Task>, id: int): seq<Task> {
    if tasks == [] then [] else if tasks[0].id == id then tasks[1..] else [tasks[0]] + Without(tasks[1..], id)
  }

  function Add(tasks: seq<Task>, id: int): seq<Task> {
    if id == 0 then tasks else tasks + [Task(id, 0, 0)]
  }

  datatype Refreshed = Refreshed(hero: Hero, error: Error)

  /** What must hold before anything is given up. */
  function RefreshAllowed(c: Config, h: Hero, gold: bool, now: int): Error {
    if h.gold < c.refreshGold && gold then NotEnoughGold
    else if h.refreshCount > c.freeCount && now - h.refreshTime < c.cooldown then InCooldown
    else ErrorNo
  }

  /** `RefreshTask`: apply for a task, or give one up (`giveUp` is not 0) for another. */
  function Refresh(c: Config, h: Hero, giveUp: int, gold: bool, now: int, r: nat): Refreshed {
    var allowed := RefreshAllowed(c, h, gold, now);
    if allowed != ErrorNo then Refreshed(h, allowed)
    else if giveUp != 0 && !Holds(h.tasks, giveUp) then Refreshed(h, NotFoundGiveUp)
    else
      var g := if giveUp != 0 then h.(tasks := Without(h.tasks, giveUp)) else h;
      if |g.tasks| > c.maxTasks - 1 then Refreshed(g, Unknow)
      else
        var id := RandomTask(c, g, giveUp, r);
        var a := g.(tasks := Add(g.tasks, id), refreshCount := g.refreshCount + 1, refreshTime := now);
        Refreshed(if id != 0 then a.(gold := a.gold - c.refreshGold) else a, ErrorNo)
  }

  /** The part of `dayRefresh` about tasks; `due` is whether the day has changed. */
  function DayRefresh(c: Config, h: Hero, due: bool, r: nat): Hero {
    if !due then h
    else if |h.tasks| < c.maxTasks then h.(refreshCount := 0, tasks := Add(h.tasks, RandomTask(c, h, 0, r)))
    else h.(refreshCount := 0)
  }

  /** How often `for (size_t i = 0; i < task_count; i++)` runs: a negative count is a huge one. */
  function Rounds(c: Config, count: i32): nat {
    var n := if count > c.maxTasks then c.maxTasks else count;
    if n < 0 then n + 0x1_0000_0000_0000_0000 else n
  }

  function Filled(c: Config, h: Hero, n: nat, rands: nat -> nat): Hero {
    if n == 0 then h.(tasks := [])
    else
      var f := Filled(c, h, n - 1, rands);
      f.(tasks := Add(f.tasks, RandomTask(c, f, 0, rands(n - 1))))
  }

  // -------------------------------------------------------------------------------------------
  // What every request keeps
  // -------------------------------------------------------------------------------------------

  ghost predicate DistinctIds(tasks: seq<Task>) {
    forall i, j :: 0 <= i < j < |tasks| ==> tasks[i].id != tasks[j].id
  }

  ghost predicate Inv(c: Config, h: Hero) {
    DistinctIds(h.tasks) && |h.tasks| <= c.maxTasks
  }

  lemma HoldsFirst(tasks: seq<Task>, id: int)
    requires tasks != []
    ensures Holds(tasks, id) <==> tasks[0].id == id || Holds(tasks[1..], id)
  {
    if Holds(tasks[1..], id) {
      var i :| 0 <= i < |tasks[1..]| && tasks[1..][i].id == id;
      assert tasks[i + 1].id == id;
    }
    if Holds(tasks, id) && tasks[0].id != id {
      var i :| 0 <= i < |tasks| && tasks[i].id == id;
      assert tasks[1..][i - 1].id == id;
    }
  }

  lemma {:induction false} WithoutHolds(tasks: seq<Task>, id: int, other: int)
    ensures Holds(Without(tasks, id), other) ==> Holds(tasks, other)
    ensures other != id && Holds(tasks, other) ==> Holds(Without(tasks, id), other)
    ensures |Without(tasks, id)| == if Holds(tasks, id) then |tasks| - 1 else |tasks|
  {
    if tasks != [] {
      WithoutHolds(tasks[1..], id, other);
      HoldsFirst(tasks, id);
      HoldsFirst(tasks, other);
      var less := Without(tasks, id);
      if tasks[0].id != id {
        HoldsFirst(less, other);
        assert less[1..] == Without(tasks[1..], id);
      }
    }
  }

  lemma {:induction false} WithoutKeepsDistinct(tasks: seq<Task>, id: int)
    requires DistinctIds(tasks)
    ensures DistinctIds(Without(tasks, id)) && !Holds(Without(tasks, id), id)
  {
    if tasks != [] {
      WithoutKeepsDistinct(tasks[1..], id);
      var less := Without(tasks[1..], id);
      if tasks[0].id == id {
        assert Without(tasks, id) == tasks[1..];
      } else {
        WithoutHolds(tasks[1..], id, tasks[0].id);
        assert !Holds(tasks[1..], tasks[0].id) && !Holds(less, tasks[0].id);
        HoldsFirst([tasks[0]] + less, id);
        assert ([tasks[0]] + less)[1..] == less;
      }
    }
  }

  lemma AddKeepsDistinct(c: Config, h: Hero, giveUp: int, r: nat)
    requires DistinctIds(h.tasks)
    ensures DistinctIds(Add(h.tasks, RandomTask(c, h, giveUp, r)))
  {
    if RandomTask(c, h, giveUp, r) != 0 {
      OfferedIsNew(c, h, giveUp, r);
    }
  }

  /** A refresh keeps the ids distinct and never goes beyond the maximum by itself. */
  lemma RefreshKeepsInv(c: Config, h: Hero, giveUp: int, gold: bool, now: int, r: nat)
    requires DistinctIds(h.tasks)
    ensures DistinctIds(Refresh(c, h, giveUp, gold, now, r).hero.tasks)
    ensures Inv(c, h) ==> Inv(c, Refresh(c, h, giveUp, gold, now, r).hero)
  {
    var g := if giveUp != 0 then h.(tasks := Without(h.tasks, giveUp)) else h;
    WithoutKeepsDistinct(h.tasks, giveUp);
    WithoutHolds(h.tasks, giveUp, giveUp);
    AddKeepsDistinct(c, g, giveUp, r);
  }

  lemma DayRefreshKeepsInv(c: Config, h: Hero, due: bool, r: nat)
    requires DistinctIds(h.tasks)
    ensures DistinctIds(DayRefresh(c, h, due, r).tasks)
    ensures Inv(c, h) ==> Inv(c, DayRefresh(c, h, due, r))
  {
    AddKeepsDistinct(c, h, 0, r);
  }

  lemma {:induction false} FilledIsDistinct(c: Config, h: Hero, n: nat, rands: nat -> nat)
    ensures DistinctIds(Filled(c, h, n, rands).tasks) && |Filled(c, h, n, rands).tasks| <= n
    ensures Filled(c, h, n, rands).records == h.records && Filled(c, h, n, rands).completeCount == h.completeCount
  {
    if n > 0 {
      FilledIsDistinct(c, h, n - 1, rands);
      AddKeepsDistinct(c, Filled(c, h, n - 1, rands), 0, rands(n - 1));
    }
  }

  // -------------------------------------------------------------------------------------------
  // How far replacing goes
  // -------------------------------------------------------------------------------------------

  ghost function Ids(tasks: seq<Task>): set<int> {
    set i | 0 <= i < |tasks| :: tasks[i].id
  }

  ghost function UnlockedIds(c: Config, h: Hero): set<int> {
    set i | 0 <= i < |c.tasks| && Unlocked(c.tasks[i], h.completeCount, h.records) :: c.tasks[i].id
  }

  lemma {:induction false} AsManyIds(tasks: seq<Task>)
    requires DistinctIds(tasks)
    ensures |Ids(tasks)| == |tasks|
  {
    if tasks != [] {
      var n := |tasks| - 1;
      AsManyIds(tasks[..n]);
      assert Ids(tasks) == Ids(tasks[..n]) + {tasks[n].id};
    }
  }

  /** Replacing offers a new task as long as an unlocked one is not held. */
  lemma {:induction false} FilledCount(c: Config, h: Hero, n: nat, rands: nat -> nat)
    requires forall i :: 0 <= i < |c.tasks| ==> c.tasks[i].id != 0
    ensures var f := Filled(c, h, n, rands);
      Ids(f.tasks) <= UnlockedIds(c, h) && |f.tasks| == if n <= |UnlockedIds(c, h)| then n else |UnlockedIds(c, h)|
  {
    if n > 0 {
      var f := Filled(c, h, n - 1, rands);
      FilledCount(c, h, n - 1, rands);
      FilledIsDistinct(c, h, n - 1, rands);
      AsManyIds(f.tasks);
      SubsetSize(Ids(f.tasks), UnlockedIds(c, h));
      OneMore(c, f, rands(n - 1));
    }
  }

  lemma OneMore(c: Config, f: Hero, r: nat)
    requires forall i :: 0 <= i < |c.tasks| ==> c.tasks[i].id != 0
    requires Ids(f.tasks) <= UnlockedIds(c, f)
    ensures var id := RandomTask(c, f, 0, r);
      Ids(Add(f.tasks, id)) <= UnlockedIds(c, f) && (id == 0 <==> Ids(f.tasks) == UnlockedIds(c, f))
  {
    var id := RandomTask(c, f, 0, r);
    NothingOfferedIff(c, f, 0, r);
    if id == 0 {
      forall x | x in UnlockedIds(c, f)
        ensures x in Ids(f.tasks)
      {
        var i :| 0 <= i < |c.tasks| && Unlocked(c.tasks[i], f.completeCount, f.records) && c.tasks[i].id == x;
        assert !Eligible(c.tasks[i], f, 0);
        var k :| 0 <= k < |f.tasks| && f.tasks[k].id == x;
      }
    } else {
      OfferedIsNew(c, f, 0, r);
      var i :| 0 <= i < |c.tasks| && c.tasks[i].id == id && Unlocked(c.tasks[i], f.completeCount, f.records);
      assert id in UnlockedIds(c, f) && id !in Ids(f.tasks);
    }
  }

  function Smaller(a: int, b: int): int { if a <= b then a else b }

  /** Replacing keeps to the maximum exactly when the count asked for is not negative, or no more tasks than
      that are unlocked; and if it is not negative, as many tasks are held as asked for, allowed and unlocked. */
  lemma ReplaceFitsIff(c: Config, h: Hero, count: i32, rands: nat -> nat)
    requires forall i :: 0 <= i < |c.tasks| ==> c.tasks[i].id != 0
    requires 0 <= c.maxTasks
    ensures |Filled(c, h, Rounds(c, count), rands).tasks| <= c.maxTasks <==> count >= 0 || |UnlockedIds(c, h)| <= c.maxTasks
    ensures count >= 0 ==>
      |Filled(c, h, Rounds(c, count), rands).tasks| == Smaller(count, Smaller(c.maxTasks, |UnlockedIds(c, h)|))
  {
    FilledCount(c, h, Rounds(c, count), rands);
  }

  /** Two tasks are unlocked and one may be held: a request to replace minus one tasks makes it two. */
  lemma NegativeCountOverfills(rands: nat -> nat)
    ensures
      var c := Config([TaskConfig(1, 10, 0, 0, 0), TaskConfig(2, 10, 0, 0, 0)], 1, 5, 1, 60);
      |Filled(c, Hero([], [], 0, 0, 0, 0), Rounds(c, -1), rands).tasks| == 2
  {
    var c := Config([TaskConfig(1, 10, 0, 0, 0), TaskConfig(2, 10, 0, 0, 0)], 1, 5, 1, 60);
    var h := Hero([], [], 0, 0, 0, 0);
    var ids := UnlockedIds(c, h);
    assert Unlocked(c.tasks[0], 0, []) && Unlocked(c.tasks[1], 0, []);
    assert 1 in ids && 2 in ids;
    assert ids == {1, 2};
    FilledCount(c, h, Rounds(c, -1), rands);
  }

  /** The id offered by a refresh; 0 if the refresh fails or no task is eligible. */
  function OfferedBy(c: Config, h: Hero, giveUp: int, gold: bool, now: int, r: nat): int {
    if Refresh(c, h, giveUp, gold, now, r).error != ErrorNo then 0
    else RandomTask(c, if giveUp != 0 then h.(tasks := Without(h.tasks, giveUp)) else h, giveUp, r)
  }

  /** How many tasks there are afterwards: one less for the one given up, one more for the one offered. */
  lemma RefreshCountsTasks(c: Config, h: Hero, giveUp: int, gold: bool, now: int, r: nat)
    ensures var a := Refresh(c, h, giveUp, gold, now, r);
      a.error == ErrorNo ==>
        |a.hero.tasks| == |h.tasks| - (if giveUp != 0 then 1 else 0) +
          (if OfferedBy(c, h, giveUp, gold, now, r) != 0 then 1 else 0) <= c.maxTasks
    ensures Refresh(c, h, giveUp, gold, now, r).error == NotFoundGiveUp <==>
      giveUp != 0 && !Holds(h.tasks, giveUp) && RefreshAllowed(c, h, gold, now) == ErrorNo
  {
    hide RandomTask, Without, Holds;
    WithoutHolds(h.tasks, giveUp, giveUp);
  }

  /** A new day brings one task if there is room and one is eligible, and takes none away. */
  lemma DayBringsTask(c: Config, h: Hero, due: bool, r: nat)
    requires forall i :: 0 <= i < |c.tasks| ==> c.tasks[i].id != 0
    ensures var n := DayRefresh(c, h, due, r);
      h.tasks <= n.tasks &&
      |n.tasks| == |h.tasks| +
        if due && |h.tasks| < c.maxTasks && exists i :: 0 <= i < |c.tasks| && Eligible(c.tasks[i], h, 0) then 1 else 0
  {
    NothingOfferedIff(c, h, 0, r);
    hide RandomTask, Eligible;
  }

  /** What a refresh costs: the price whenever a task is offered, whether it was to be paid for or not. */
  lemma RefreshCosts(c: Config, h: Hero, giveUp: int, gold: bool, now: int, r: nat)
    ensures Refresh(c, h, giveUp, gold, now, r).hero.gold ==
      h.gold - if OfferedBy(c, h, giveUp, gold, now, r) != 0 then c.refreshGold else 0
  {
    hide RandomTask;
  }

  /** So a refresh that is not to be paid for is free exactly when the price is 0, or it fails, or no task is
      eligible once the one given up is gone; and it leaves a debt exactly when a task is offered for
      more than the hero has. */
  lemma FreeRefreshIff(c: Config, h: Hero, giveUp: int, now: int, r: nat)
    requires forall i :: 0 <= i < |c.tasks| ==> c.tasks[i].id != 0
    ensures var g := if giveUp != 0 then h.(tasks := Without(h.tasks, giveUp)) else h;
      var f := Refresh(c, h, giveUp, false, now, r);
      (f.hero.gold == h.gold <==>
        c.refreshGold == 0 || f.error != ErrorNo ||
        forall i :: 0 <= i < |c.tasks| ==> !Eligible(c.tasks[i], g, giveUp)) &&
      (f.hero.gold < 0 <==> h.gold < if OfferedBy(c, h, giveUp, false, now, r) != 0 then c.refreshGold else 0)
  {
    hide RandomTask;
    var g := if giveUp != 0 then h.(tasks := Without(h.tasks, giveUp)) else h;
    RefreshCosts(c, h, giveUp, false, now, r);
    NothingOfferedIff(c, g, giveUp, r);
  }

  /** A hero without gold and tasks who applies for one, not paying: 5 gold in debt. */
  lemma FreeRefreshInDebt()
    ensures
      var c := Config([TaskConfig(1, 10, 0, 0, 0)], 3, 5, 1, 60);
      var h := Hero([], [], 0, 0, 0, 0);
      Refresh(c, h, 0, false, 0, 0) == Refreshed(Hero([Task(1, 0, 0)], [], -5, 0, 1, 0), ErrorNo)
  {
    var c := Config([TaskConfig(1, 10, 0, 0, 0)], 3, 5, 1, 60);
    var h := Hero([], [], 0, 0, 0, 0);
    assert c.tasks[..0] == [];
    assert Candidates(c.tasks, h, 0) == [1];
  }

  /** The task given up may be offered in its own place exactly when it was the only one held and is
      unlocked; `h` is the hero without it. */
  lemma GivenUpIsOfferedIff(c: Config, h: Hero, giveUp: int)
    requires !Holds(h.tasks, giveUp)
    ensures giveUp in Candidates(c.tasks, h, giveUp) <==>
      h.tasks == [] &&
      exists i :: 0 <= i < |c.tasks| && c.tasks[i].id == giveUp && Unlocked(c.tasks[i], h.completeCount, h.records)
  {
    hide Unlocked;
    if giveUp in Candidates(c.tasks, h, giveUp) {
      var k :| 0 <= k < |Candidates(c.tasks, h, giveUp)| && Candidates(c.tasks, h, giveUp)[k] == giveUp;
      var i := CandidateIsEligible(c.tasks, h, giveUp, k);
    } else if i :| 0 <= i < |c.tasks| && c.tasks[i].id == giveUp && Unlocked(c.tasks[i], h.completeCount, h.records) {
      if h.tasks == [] {
        EligibleIsCandidate(c.tasks, h, giveUp, i);
      }
    }
  }

  /** The only task there is, given up for another: it is offered again, for its price. */
  lemma GivenUpReturns(r: nat)
    ensures
      var c := Config([TaskConfig(1, 10, 0, 0, 0)], 3, 5, 1, 60);
      Refresh(c, Hero([Task(1, 7, 9)], [], 5, 0, 0, 0), 1, true, 100, r) ==
        Refreshed(Hero([Task(1, 0, 0)], [], 0, 0, 1, 100), ErrorNo)
  {
    var c := Config([TaskConfig(1, 10, 0, 0, 0)], 3, 5, 1, 60);
    var h := Hero([], [], 5, 0, 0, 0);
    assert c.tasks[..0] == [];
    assert Candidates(c.tasks, h, 1) == [1];
    assert Without([Task(1, 7, 9)], 1) == [];
    assert [Task(1, 7, 9)][0].id == 1;
  }

  /** Each candidate is offered for some value of rand(). */
  lemma EveryCandidateIsOffered(c: Config, h: Hero, giveUp: int, id: int) returns (r: nat)
    requires id in Candidates(c.tasks, h, giveUp)
    ensures RandomTask(c, h, giveUp, r) == id
  {
    var vc := Candidates(c.tasks, h, giveUp);
    hide Candidates;
    r :| 0 <= r < |vc| && vc[r] == id;
    assert r % |vc| == r;
  }

  /** A task is unlocked when enough tasks have been completed and the first record of its chapter, if it
      needs one, has reached its section. */
  lemma UnlockedIff(c: TaskConfig, completeCount: int, records: seq<Record>)
    ensures Unlocked(c, completeCount, records) <==>
      completeCount >= c.needCount &&
      (c.needChapter != 0 ==>
        exists i :: 0 <= i < |records| && records[i].chapter == c.needChapter && records[i].section >= c.needSection &&
          forall j :: 0 <= j < i ==> records[j].chapter != c.needChapter)
  {
    var k := ChapterRecord(records, c.needChapter);
    if k < |records| && c.needSection <= records[k].section {
      assert records[k].chapter == c.needChapter;
    }
  }

  // -------------------------------------------------------------------------------------------
  // How often a task may be asked for
  // -------------------------------------------------------------------------------------------

  datatype Request = Request(giveUp: int, gold: bool, now: int, r: nat)

  function Answer(c: Config, h: Hero, q: Request): Refreshed {
    Refresh(c, h, q.giveUp, q.gold, q.now, q.r)
  }

  function Asked(c: Config, h: Hero, qs: seq<Request>): Hero {
    if qs == [] then h else Answer(c, Asked(c, h, qs[..|qs| - 1]), qs[|qs| - 1]).hero
  }

  /** Whether request `i` was granted. */
  predicate Granted(c: Config, h: Hero, qs: seq<Request>, i: nat)
    requires i < |qs|
  {
    Answer(c, Asked(c, h, qs[..i]), qs[i]).error == ErrorNo
  }

  function Grants(c: Config, h: Hero, qs: seq<Request>): nat {
    if qs == [] then 0
    else Grants(c, h, qs[..|qs| - 1]) + if Granted(c, h, qs, |qs| - 1) then 1 else 0
  }

  /** A request that is granted counts and notes the time; any other changes at most the tasks. */
  lemma AnswerCounts(c: Config, h: Hero, q: Request)
    ensures var a := Answer(c, h, q);
      if a.error == ErrorNo then a.hero.refreshCount == h.refreshCount + 1 && a.hero.refreshTime == q.now
      else a.hero == h.(tasks := a.hero.tasks)
  {
    hide RandomTask;
  }

  lemma {:induction false} GrantsCount(c: Config, h: Hero, qs: seq<Request>)
    ensures Asked(c, h, qs).refreshCount == h.refreshCount + Grants(c, h, qs)
  {
    if qs != [] {
      var n := |qs| - 1;
      GrantsCount(c, h, qs[..n]);
      AnswerCounts(c, Asked(c, h, qs[..n]), qs[n]);
      hide Answer;
    }
  }

  lemma {:induction false} LastGrantIsNoted(c: Config, h: Hero, qs: seq<Request>, i: nat)
    requires i < |qs| && Granted(c, h, qs, i) && forall j :: i < j < |qs| ==> !Granted(c, h, qs, j)
    ensures Asked(c, h, qs).refreshTime == qs[i].now
  {
    var n := |qs| - 1;
    AnswerCounts(c, Asked(c, h, qs[..n]), qs[n]);
    hide Answer;
    if i < n {
      assert !Granted(c, h, qs, n);
      assert qs[..n][..i] == qs[..i];
      forall j | i < j < n
        ensures !Granted(c, h, qs[..n], j)
      {
        assert qs[..n][..j] == qs[..j];
        assert !Granted(c, h, qs, j);
      }
      LastGrantIsNoted(c, h, qs[..n], i);
    }
  }

  /** On one day, whatever was asked for before: a request has to wait exactly when more requests than are free
      have been granted since the day began, and the last of them less than a cooldown ago; unless it is to be
      paid for and cannot be, which is found out first. */
  lemma CooldownIff(c: Config, h: Hero, r: nat, qs: seq<Request>, i: nat, q: Request)
    requires var day := DayRefresh(c, h, true, r);
      i < |qs| && Granted(c, day, qs, i) && forall j :: i < j < |qs| ==> !Granted(c, day, qs, j)
    ensures var day := DayRefresh(c, h, true, r);
      var before := Asked(c, day, qs);
      var short := q.gold && before.gold < c.refreshGold;
      (Answer(c, before, q).error == NotEnoughGold <==> short) &&
      (Answer(c, before, q).error == InCooldown <==>
        !short && Grants(c, day, qs) > c.freeCount && q.now < qs[i].now + c.cooldown)
  {
    var day := DayRefresh(c, h, true, r);
    assert day.refreshCount == 0;
    GrantsCount(c, day, qs);
    LastGrantIsNoted(c, day, qs, i);
    hide RandomTask, Asked, Grants, Granted, DayRefresh;
  }

  /** So the first requests of a day never have to wait. */
  lemma FreeRequestsNeverWait(c: Config, h: Hero, r: nat, qs: seq<Request>, q: Request)
    requires |qs| <= c.freeCount
    ensures Answer(c, Asked(c, DayRefresh(c, h, true, r), qs), q).error != InCooldown
  {
    var day := DayRefresh(c, h, true, r);
    GrantsCount(c, day, qs);
    FewGrants(c, day, qs);
    hide RandomTask, Asked, Grants;
  }

  lemma {:induction false} FewGrants(c: Config, h: Hero, qs: seq<Request>)
    ensures Grants(c, h, qs) <= |qs|
  {
    if qs != [] {
      FewGrants(c, h, qs[..|qs| - 1]);
    }
  }
}
