/** The hero object and its requests, loop by loop, against modules HeroTasks and ExitGame. */
module HeroRequests {
  import opened HeroData
  import opened HeroTasks
  import opened ExitGame
  import opened Lottery

  /** The loops over parts of a hero or of a message. */

  method FindTask(tasks: seq<Task>, id: int) returns (k: nat)
    ensures k <= |tasks| && (k < |tasks| ==> tasks[k].id == id) && forall i :: 0 <= i < k ==> tasks[i].id != id
    ensures k < |tasks| <==> Holds(tasks, id)
  {
    k := 0;
    while k < |tasks|
      invariant 0 <= k <= |tasks| && forall i :: 0 <= i < k ==> tasks[i].id != id
    {
      if tasks[k].id == id {
        return;
      }
      k := k + 1;
    }
  }

  lemma Slices<T>(s: seq<T>, k: nat, x: T)
    requires 0 < k < |s|
    ensures s[..1] + (s[1..][..k - 1] + s[1..][k..]) == s[..k] + s[k + 1..]
    ensures s[..1] + s[1..][k - 1 := x] == s[k := x]
  {
  }

  /** What is done to the first task of an id is done at the place where the loop stops. */
  lemma {:induction false} FirstTask(tasks: seq<Task>, info: Task, k: nat)
    requires k < |tasks| && tasks[k].id == info.id && forall i :: 0 <= i < k ==> tasks[i].id != info.id
    ensures Without(tasks, info.id) == tasks[..k] + tasks[k + 1..] && Overwritten(tasks, info) == tasks[k := info]
  {
    if 0 < k {
      FirstTask(tasks[1..], info, k - 1);
      Slices(tasks, k, info);
      assert tasks[..1] == [tasks[0]];
    } else {
      assert [info] + tasks[1..] == tasks[0 := info];
    }
  }

  lemma {:induction false} NoTask(tasks: seq<Task>, info: Task)
    requires !Holds(tasks, info.id)
    ensures Overwritten(tasks, info) == tasks
  {
    if tasks != [] {
      HoldsFirst(tasks, info.id);
      NoTask(tasks[1..], info);
    }
  }

  method IsUnlocked(c: TaskConfig, completeCount: int, records: seq<Record>) returns (ok: bool)
    ensures ok == Unlocked(c, completeCount, records)
  {
    if completeCount < c.needCount {
      return false;
    }
    if c.needChapter != 0 {
      for i := 0 to |records|
        invariant ChapterRecord(records, c.needChapter) == i + ChapterRecord(records[i..], c.needChapter)
      {
        if records[i].chapter == c.needChapter {
          return c.needSection <= records[i].section;
        }
        assert records[i..][1..] == records[i + 1..];
      }
      return false;
    }
    return true;
  }

  /** `RadnomTaskInfo`. */
  method RandomTaskInfo(c: Config, h: Hero, giveUp: int, r: nat) returns (id: int)
    ensures id == RandomTask(c, h, giveUp, r)
  {
    hide Unlocked;
    var vc: seq<int> := [];
    for n := 0 to |c.tasks|
      invariant vc == Candidates(c.tasks[..n], h, giveUp)
    {
      assert c.tasks[..n + 1][..n] == c.tasks[..n];
      var needContinue := false;
      for i := 0 to |h.tasks|
        invariant needContinue <==> i > 0 && (giveUp == c.tasks[n].id || exists j :: 0 <= j < i && h.tasks[j].id == c.tasks[n].id)
      {
        if h.tasks[i].id == c.tasks[n].id || giveUp == c.tasks[n].id {
          needContinue := true;
        }
      }
      if !needContinue {
        var unlocked := IsUnlocked(c.tasks[n], h.completeCount, h.records);
        if unlocked {
          vc := vc + [c.tasks[n].id];
        }
      }
    }
    assert c.tasks[..|c.tasks|] == c.tasks;
    id := 0;
    if |vc| != 0 {
      id := vc[r % |vc|];
    }
  }

  method CheckLotions(lotions: seq<int>, used: seq<int>) returns (ok: bool)
    ensures ok == AllHeld(lotions, used)
  {
    for i := 0 to |used|
      invariant AllHeld(lotions, used[..i])
    {
      var found := false;
      for k := 0 to |lotions|
        invariant found <==> used[i] in lotions[..k]
      {
        if used[i] == lotions[k] {
          found := true;
        }
      }
      assert lotions[..|lotions|] == lotions;
      if !found {
        return false;
      }
    }
    assert used[..|used|] == used;
    return true;
  }

  method UseLotions(lotions: seq<int>, used: seq<int>) returns (left: seq<int>)
    ensures left == Unused(lotions, used)
  {
    left := [];
    for i := 0 to |lotions|
      invariant left == Unused(lotions[..i], used)
    {
      assert lotions[..i + 1][..i] == lotions[..i];
      var use := false;
      for j := 0 to |used|
        invariant use <==> lotions[i] in used[..j]
      {
        if used[j] == lotions[i] {
          use := true;
        }
      }
      assert used[..|used|] == used;
      if !use {
        left := left + [lotions[i]];
      }
    }
    assert lotions[..|lotions|] == lotions;
  }

  method OverwriteTasks(tasks: seq<Task>, infos: seq<Task>) returns (now: seq<Task>)
    ensures now == AllOverwritten(tasks, infos)
  {
    now := tasks;
    for i := 0 to |infos|
      invariant now == AllOverwritten(tasks, infos[..i])
    {
      assert infos[..i + 1][..i] == infos[..i];
      var k := FindTask(now, infos[i].id);
      if k < |now| {
        FirstTask(now, infos[i], k);
        now := now[k := infos[i]];
      } else {
        NoTask(now, infos[i]);
      }
    }
    assert infos[..|infos|] == infos;
  }

  method CompleteTasks(configs: seq<TaskConfig>, tasks: seq<Task>, ids: seq<int>) returns (now: seq<Task>, count: int, gold: int)
    ensures CompleteAll(configs, tasks, ids) == Completion(now, count, gold)
  {
    now, count, gold := tasks, 0, 0;
    for i := 0 to |ids|
      invariant CompleteAll(configs, tasks, ids[..i]) == Completion(now, count, gold)
    {
      assert ids[..i + 1][..i] == ids[..i];
      if Configured(configs, ids[i]) {
        var k := FindTask(now, ids[i]);
        if k < |now| {
          FirstTask(now, Task(ids[i], 0, 0), k);
          count := count + 1;
          now := now[..k] + now[k + 1..];
          gold := gold + Gift(configs, ids[i]);
        }
      }
    }
    assert ids[..|ids|] == ids;
  }

  method AdvanceRecords(records: seq<Record>, chapter: int, section: int) returns (now: seq<Record>)
    ensures now == Advanced(records, chapter, section)
  {
    now := records;
    for i := 0 to |records|
      invariant |now| == |records|
      invariant forall j :: 0 <= j < |now| ==> now[j] == if j < i then AdvancedOne(records[j], chapter, section) else records[j]
    {
      if now[i].chapter == chapter {
        if section == now[i].section + 1 {
          now := now[i := Record(chapter, section)];
        }
      }
    }
  }

  method MergeKills(list: seq<Kill>, more: seq<Kill>) returns (now: seq<Kill>)
    ensures now == Merged(list, more)
  {
    now := list;
    for i := 0 to |more|
      invariant now == Merged(list, more[..i])
    {
      assert more[..i + 1][..i] == more[..i];
      var needAdd := true;
      for k := 0 to |now|
        invariant needAdd <==> more[i] !in now[..k]
      {
        if now[k].id == more[i].id && now[k].kind == more[i].kind {
          needAdd := false;
        }
      }
      assert now[..|now|] == now;
      if needAdd {
        now := now + [more[i]];
      }
    }
    assert more[..|more|] == more;
  }

  method NoteCreatures(creatures: map<int, int>, more: seq<(int, int)>) returns (now: map<int, int>)
    ensures now == Noted(creatures, more)
  {
    now := creatures;
    for i := 0 to |more|
      invariant now == Noted(creatures, more[..i])
    {
      assert more[..i + 1][..i] == more[..i];
      now := now[more[i].0 := more[i].1];
    }
    assert more[..|more|] == more;
  }

  class DreamHero {
    const config: Config
    var tasks: seq<Task>
    var records: seq<Record>
    var gold: int
    var completeCount: int
    var refreshCount: int
    var refreshTime: int
    var lotions: seq<int>
    var kills: map<Place, seq<Kill>>
    var creatures: map<int, int>
    var chapter: int
    var section: int
    var jewel: int
    var heroes: seq<bool>
    var gridState: seq<(int, bool)>
    var lotteryTime: int

    function Info(): Hero
      reads this
    {
      Hero(tasks, records, gold, completeCount, refreshCount, refreshTime)
    }

    function Abs(): Player
      reads this
    {
      Player(Info(), jewel, lotions, kills, creatures, heroes, gridState, chapter, section, lotteryTime)
    }

    method RefreshTask(giveUp: int, pay: bool, now: int, r: nat) returns (error: Error)
      modifies this`tasks, this`gold, this`refreshCount, this`refreshTime
      ensures Refresh(config, old(Info()), giveUp, pay, now, r) == Refreshed(Info(), error)
    {
      hide RandomTask, Holds, Without;
      error := ErrorNo;
      if gold < config.refreshGold && pay {
        error := NotEnoughGold;
      } else if refreshCount > config.freeCount {
        if now - refreshTime < config.cooldown {
          error := InCooldown;
        }
      }
      if error == ErrorNo {
        if giveUp != 0 {
          error := NotFoundGiveUp;
          var k := FindTask(tasks, giveUp);
          if k < |tasks| {
            FirstTask(tasks, Task(giveUp, 0, 0), k);
            error := ErrorNo;
            tasks := tasks[..k] + tasks[k + 1..];
          }
        }
        if error == ErrorNo {
          if |tasks| <= config.maxTasks - 1 {
            refreshCount := refreshCount + 1;
            refreshTime := now;
          } else {
            error := Unknow;
          }
        }
      }
      var id := RandomTaskInfo(config, Info(), giveUp, r);
      RandomTaskIgnores(config, Info(), giveUp, r);
      if error == ErrorNo {
        if id != 0 {
          tasks := tasks + [Task(id, 0, 0)];
          gold := gold - config.refreshGold;
        }
      }
    }

    method DayRefresh(due: bool, r: nat)
      modifies this`tasks, this`refreshCount
      ensures Info() == HeroTasks.DayRefresh(config, old(Info()), due, r)
    {
      hide RandomTask;
      if due {
        RandomTaskIgnores(config, Info(), 0, r);
        refreshCount := 0;
        if |tasks| < config.maxTasks {
          RandomTaskIgnores(config, Info(), 0, r);
          var id := RandomTaskInfo(config, Info(), 0, r);
          if id != 0 {
            tasks := tasks + [Task(id, 0, 0)];
          }
        }
      }
    }

    method ReqReplaceTask(count: i32, rands: nat -> nat)
      modifies this`tasks
      ensures Info() == Filled(config, old(Info()), Rounds(config, count), rands)
    {
      hide RandomTask;
      var n := Rounds(config, count);
      tasks := [];
      for i := 0 to n
        invariant Info() == Filled(config, old(Info()), i, rands)
      {
        var id := RandomTaskInfo(config, Info(), 0, rands(i));
        if id != 0 {
          tasks := tasks + [Task(id, 0, 0)];
        }
      }
    }

    method RecordKills(place: Place, more: seq<Kill>)
      modifies this`kills
      ensures kills == old(kills)[place := Merged(KillsAt(old(kills), place), more)]
    {
      if place !in kills {
        kills := kills[place := []];
      }
      var merged := MergeKills(kills[place], more);
      kills := kills[place := merged];
    }

    method SettleTasks(m: Report)
      modifies this`tasks, this`gold, this`completeCount
      ensures CompleteAll(config.tasks, AllOverwritten(old(tasks), m.taskInfos), m.complete) ==
        Completion(tasks, completeCount - old(completeCount), gold - (if old(gold) < 0 then 0 else old(gold)) - m.gold)
    {
      tasks := OverwriteTasks(tasks, m.taskInfos);
      var done, taskGold;
      tasks, done, taskGold := CompleteTasks(config.tasks, tasks, m.complete);
      if gold < 0 {
        gold := 0;
      }
      gold := gold + m.gold + taskGold;
      completeCount := completeCount + done;
    }

    method SettleRecords(m: Report)
      modifies this`records
      ensures records == if m.success then Advanced(old(records), m.chapter, m.section) else old(records)
    {
      if m.success {
        records := AdvanceRecords(records, m.chapter, m.section);
      }
    }

    /** What an exit without error changes, but for the place. */
    method TakeHome(m: Report)
      requires ErrorOf(Abs(), m) == NoError
      modifies this`tasks, this`gold, this`completeCount, this`lotions, this`records, this`kills, this`creatures
      ensures Abs().(chapter := -1, section := -1) == Exited(config, old(Abs()), m)
    {
      hide ErrorOf, CompleteAll, AllOverwritten, Advanced, Merged, Noted, Unused, KillsAt;
      lotions := UseLotions(lotions, m.useLotions);
      SettleTasks(m);
      SettleRecords(m);
      RecordKills((chapter, section), m.kills);
      creatures := NoteCreatures(creatures, m.creatures);
    }

    method ReqExitGame(m: Report) returns (error: ExitError)
      modifies this
      ensures error == ErrorOf(old(Abs()), m) && Abs() == Exited(config, old(Abs()), m)
    {
      error := NoError;
      if (m.chapter == -1 && m.section == -1) || m.chapter != chapter || m.section != section {
        error := NotEntered;
      } else {
        hide AllHeld;
        var held := CheckLotions(lotions, m.useLotions);
        if !held {
          error := NotFoundLotion;
        }
        if error == NoError {
          TakeHome(m);
        }
      }
      chapter, section := -1, -1;
    }

    /** `ReqDayLottery`; `rand` and `random` are its two calls of rand(). */
    method ReqDayLottery(configs: seq<Prize>, today: bool, now: int, rand: nat, random: nat) returns (error: LotteryError)
      modifies this`lotions, this`gold, this`jewel, this`lotteryTime
      ensures Drawn(old(Abs()), configs, today, now, rand, random) == (Abs(), error)
    {
      hide Offered, Start, Picked;
      error := LotteryNo;
      if !today {
        var ps := Offer(configs, lotions);
        if ps != [] {
          var picked := Draw(ps, rand);
          if picked.Some? {
            lotteryTime := now;
            error := Win(ps[picked.value], random);
          } else {
            error := NoWeight;
          }
        } else {
          error := NothingOffered;
        }
      } else {
        error := AlreadyToday;
      }
    }

    method Win(prize: Prize, random: nat) returns (error: LotteryError)
      modifies this`lotions, this`gold, this`jewel
      ensures Won(old(Abs()), prize, random) == (Abs(), error)
    {
      error := LotteryNo;
      if prize.kind == Lotion {
        if 0 <= prize.index <= 3 {
          lotions := lotions + [prize.index];
        } else {
          error := BadLotion;
        }
      } else {
        var randomCount := 0;
        if prize.random > 0 {
          randomCount := random % prize.random;
        }
        var addCount := prize.base + randomCount;
        if addCount != 0 {
          if prize.kind == Gold {
            gold := gold + addCount;
          } else if prize.kind == Jewel {
            jewel := jewel + addCount;
          }
        }
      }
    }

    method ReqBuyLotion(shop: map<int, LotionPrice>, id: int) returns (error: BuyError)
      modifies this`lotions, this`gold, this`jewel
      ensures Bought(old(Abs()), shop, id) == (Abs(), error)
    {
      error := BuyNo;
      if 0 <= id <= 3 {
        if id in shop {
          var held := Held(lotions, id);
          if held {
            error := AlreadyHeld;
          }
          if error == BuyNo {
            match shop[id].currency
            case ForJewel =>
              if jewel < shop[id].count {
                error := TooLittleJewel;
              } else {
                jewel := jewel - shop[id].count;
              }
            case ForGold =>
              if gold < shop[id].count {
                error := TooLittleGold;
              } else {
                gold := gold - shop[id].count;
              }
            case ForNothing =>
          }
          if error == BuyNo {
            lotions := lotions + [id];
          }
        } else {
          error := NoSuchLotion;
        }
      } else {
        error := NoSuchLotion;
      }
    }
  }

  lemma {:induction false} CandidatesIgnore(configs: seq<TaskConfig>, h: Hero, g: Hero, giveUp: int)
    requires h.tasks == g.tasks && h.records == g.records && h.completeCount == g.completeCount
    ensures Candidates(configs, h, giveUp) == Candidates(configs, g, giveUp)
  {
    if configs != [] {
      CandidatesIgnore(configs[..|configs| - 1], h, g, giveUp);
    }
  }

  /** What is offered depends on the tasks, the records and the number of tasks completed alone. */
  lemma RandomTaskIgnores(c: Config, h: Hero, giveUp: int, r: nat)
    ensures forall gold, count, time ::
      RandomTask(c, h.(gold := gold, refreshCount := count, refreshTime := time), giveUp, r) == RandomTask(c, h, giveUp, r)
  {
    forall gold, count, time
      ensures RandomTask(c, h.(gold := gold, refreshCount := count, refreshTime := time), giveUp, r) == RandomTask(c, h, giveUp, r)
    {
      CandidatesIgnore(c.tasks, h.(gold := gold, refreshCount := count, refreshTime := time), h, giveUp);
    }
  }
}
