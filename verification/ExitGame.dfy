/** What a hero takes home from a game (DreamHero::ReqExitGame): lotions used, tasks completed, gold,
    records and special kills. */
module ExitGame {
  import opened Collections
  import opened HeroData
  import opened HeroTasks

  /** What the client reports. */
  datatype Report = Report(chapter: int, section: int, success: bool, gold: int, useLotions: seq<int>,
                           taskInfos: seq<Task>, complete: seq<int>, kills: seq<Kill>, creatures: seq<(int, int)>)

  datatype ExitError = NoError | NotEntered | NotFoundLotion

  // -------------------------------------------------------------------------------------------
  // The parts
  // -------------------------------------------------------------------------------------------

  /** The lotions that are not among the used ones. */
  function Unused(lotions: seq<int>, used: seq<int>): seq<int> {
    if lotions == [] then []
    else
      var n := |lotions| - 1;
      Unused(lotions[..n], used) + if lotions[n] in used then [] else [lotions[n]]
  }

  /** The first task of that id takes over what is reported about it. */
  function Overwritten(tasks: seq<Task>, info: Task): (r: seq<Task>)
    ensures |r| == |tasks| && forall i :: 0 <= i < |tasks| ==> r[i].id == tasks[i].id
  {
    if tasks == [] then []
    else if tasks[0].id == info.id then [info] + tasks[1..]
    else [tasks[0]] + Overwritten(tasks[1..], info)
  }

  function AllOverwritten(tasks: seq<Task>, infos: seq<Task>): (r: seq<Task>)
    ensures |r| == |tasks| && forall i :: 0 <= i < |tasks| ==> r[i].id == tasks[i].id
  {
    if infos == [] then tasks
    else Overwritten(AllOverwritten(tasks, infos[..|infos| - 1]), infos[|infos| - 1])
  }

  /** `getMapTask`. */
  function FindConfig(configs: seq<TaskConfig>, id: int): (k: nat)
    ensures k <= |configs| && (k < |configs| ==> configs[k].id == id)
  {
    if configs == [] || configs[0].id == id then 0 else 1 + FindConfig(configs[1..], id)
  }

  predicate Configured(configs: seq<TaskConfig>, id: int) { FindConfig(configs, id) < |configs| }

  function Gift(configs: seq<TaskConfig>, id: int): int {
    if Configured(configs, id) then configs[FindConfig(configs, id)].gift else 0
  }

  datatype Completion = Completion(tasks: seq<Task>, count: int, gold: int)

  /** One id that the client reports as completed. */
  function CompleteOne(configs: seq<TaskConfig>, c: Completion, id: int): Completion {
    if Configured(configs, id) && Holds(c.tasks, id)
    then Completion(Without(c.tasks, id), c.count + 1, c.gold + Gift(configs, id))
    else c
  }

  function CompleteAll(configs: seq<TaskConfig>, tasks: seq<Task>, ids: seq<int>): Completion {
    if ids == [] then Completion(tasks, 0, 0)
    else CompleteOne(configs, CompleteAll(configs, tasks, ids[..|ids| - 1]), ids[|ids| - 1])
  }

  /** A record of the chapter moves on to its next section, if that is the one played. */
  function AdvancedOne(r: Record, chapter: int, section: int): Record {
    if r.chapter == chapter && section == r.section + 1 then Record(chapter, section) else r
  }

  function Advanced(records: seq<Record>, chapter: int, section: int): (r: seq<Record>)
    ensures |r| == |records| && forall i :: 0 <= i < |r| ==> r[i] == AdvancedOne(records[i], chapter, section)
  {
    seq(|records|, i requires 0 <= i < |records| => AdvancedOne(records[i], chapter, section))
  }

  function Merged(list: seq<Kill>, more: seq<Kill>): seq<Kill> {
    if more == [] then list
    else
      var m := Merged(list, more[..|more| - 1]);
      if more[|more| - 1] in m then m else m + [more[|more| - 1]]
  }

  function Noted(creatures: map<int, int>, more: seq<(int, int)>): map<int, int> {
    if more == [] then creatures
    else Noted(creatures, more[..|more| - 1])[more[|more| - 1].0 := more[|more| - 1].1]
  }

  // -------------------------------------------------------------------------------------------
  // The request
  // -------------------------------------------------------------------------------------------

  predicate AllHeld(lotions: seq<int>, used: seq<int>) {
    forall i :: 0 <= i < |used| ==> used[i] in lotions
  }

  function ErrorOf(p: Player, m: Report): ExitError {
    if (m.chapter == -1 && m.section == -1) || m.chapter != p.chapter || m.section != p.section then NotEntered
    else if !AllHeld(p.lotions, m.useLotions) then NotFoundLotion
    else NoError
  }

  function Exited(c: Config, p: Player, m: Report): Player {
    if ErrorOf(p, m) != NoError then p.(chapter := -1, section := -1)
    else
      var h := p.hero;
      var done := CompleteAll(c.tasks, AllOverwritten(h.tasks, m.taskInfos), m.complete);
      var place := (p.chapter, p.section);
      p.(hero := h.(tasks := done.tasks,
                    records := if m.success then Advanced(h.records, m.chapter, m.section) else h.records,
                    gold := (if h.gold < 0 then 0 else h.gold) + m.gold + done.gold,
                    completeCount := h.completeCount + done.count),
         lotions := Unused(p.lotions, m.useLotions),
         kills := p.kills[place := Merged(KillsAt(p.kills, place), m.kills)],
         creatures := Noted(p.creatures, m.creatures),
         chapter := -1, section := -1)
  }

  // -------------------------------------------------------------------------------------------
  // Tasks: each one that is held, configured and completed is removed and pays once
  // -------------------------------------------------------------------------------------------

  predicate Paid(configs: seq<TaskConfig>, ids: seq<int>, id: int) {
    id in ids && Configured(configs, id)
  }

  /** The tasks that stay. */
  function Kept(configs: seq<TaskConfig>, tasks: seq<Task>, ids: seq<int>): seq<Task> {
    if tasks == [] then []
    else if Paid(configs, ids, tasks[0].id) then Kept(configs, tasks[1..], ids)
    else [tasks[0]] + Kept(configs, tasks[1..], ids)
  }

  /** The gifts of the tasks that do not. */
  function Payout(configs: seq<TaskConfig>, tasks: seq<Task>, ids: seq<int>): int {
    if tasks == [] then 0
    else (if Paid(configs, ids, tasks[0].id) then Gift(configs, tasks[0].id) else 0) + Payout(configs, tasks[1..], ids)
  }

  lemma {:induction false} KeptHolds(configs: seq<TaskConfig>, tasks: seq<Task>, ids: seq<int>, id: int)
    ensures Holds(Kept(configs, tasks, ids), id) <==> Holds(tasks, id) && !Paid(configs, ids, id)
  {
    if tasks != [] {
      KeptHolds(configs, tasks[1..], ids, id);
      HoldsFirst(tasks, id);
      var k := Kept(configs, tasks, ids);
      if !Paid(configs, ids, tasks[0].id) {
        HoldsFirst(k, id);
        assert k[1..] == Kept(configs, tasks[1..], ids);
      } else {
        assert k == Kept(configs, tasks[1..], ids);
      }
    }
  }

  lemma {:induction false} KeptSame(configs: seq<TaskConfig>, tasks: seq<Task>, ids: seq<int>, more: seq<int>)
    requires forall i :: 0 <= i < |tasks| ==> (Paid(configs, ids, tasks[i].id) <==> Paid(configs, more, tasks[i].id))
    ensures Kept(configs, tasks, ids) == Kept(configs, tasks, more) && Payout(configs, tasks, ids) == Payout(configs, tasks, more)
  {
    if tasks != [] {
      KeptSame(configs, tasks[1..], ids, more);
    }
  }

  /** One more id. */
  lemma {:induction false} KeptStep(configs: seq<TaskConfig>, tasks: seq<Task>, ids: seq<int>, id: int)
    requires DistinctIds(tasks) && Configured(configs, id) && Holds(tasks, id) && id !in ids
    ensures Kept(configs, tasks, ids + [id]) == Without(Kept(configs, tasks, ids), id)
    ensures Payout(configs, tasks, ids + [id]) == Payout(configs, tasks, ids) + Gift(configs, id)
  {
    hide Without;
    var t := tasks[0];
    WithoutOne(t, Kept(configs, tasks[1..], ids), id);
    PaidStep(configs, ids, id, t.id);
    if t.id == id {
      forall i | 0 <= i < |tasks[1..]|
        ensures Paid(configs, ids, tasks[1..][i].id) <==> Paid(configs, ids + [id], tasks[1..][i].id)
      {
        assert tasks[1..][i] == tasks[i + 1];
        PaidStep(configs, ids, id, tasks[i + 1].id);
      }
      KeptSame(configs, tasks[1..], ids, ids + [id]);
    } else {
      hide Paid;
      HoldsFirst(tasks, id);
      KeptStep(configs, tasks[1..], ids, id);
    }
  }

  lemma WithoutOne(t: Task, more: seq<Task>, id: int)
    ensures Without([t] + more, id) == if t.id == id then more else [t] + Without(more, id)
  {
    assert ([t] + more)[1..] == more;
  }

  lemma PaidStep(configs: seq<TaskConfig>, ids: seq<int>, id: int, x: int)
    ensures Paid(configs, ids + [id], x) <==> Paid(configs, ids, x) || (x == id && Configured(configs, x))
  {
  }

  lemma CompletionStep(configs: seq<TaskConfig>, tasks: seq<Task>, ids: seq<int>, id: int, c: Completion)
    requires DistinctIds(tasks)
    requires c.tasks == Kept(configs, tasks, ids) && c.gold == Payout(configs, tasks, ids) && c.count == |tasks| - |c.tasks|
    ensures var d := CompleteOne(configs, c, id);
      d.tasks == Kept(configs, tasks, ids + [id]) && d.gold == Payout(configs, tasks, ids + [id]) && d.count == |tasks| - |d.tasks|
  {
    KeptHolds(configs, tasks, ids, id);
    if Configured(configs, id) && Holds(c.tasks, id) {
      KeptStep(configs, tasks, ids, id);
      WithoutHolds(c.tasks, id, id);
    } else {
      forall i | 0 <= i < |tasks|
        ensures Paid(configs, ids, tasks[i].id) <==> Paid(configs, ids + [id], tasks[i].id)
      {
        assert Holds(tasks, tasks[i].id);
      }
      KeptSame(configs, tasks, ids, ids + [id]);
    }
  }

  /** Whatever ids are reported, in whatever order and however often: a held task is removed exactly when
      it is configured and reported, it pays its gift once, and each removed task counts one. */
  lemma {:induction false} CompletionPaysOnce(configs: seq<TaskConfig>, tasks: seq<Task>, ids: seq<int>)
    requires DistinctIds(tasks)
    ensures var c := CompleteAll(configs, tasks, ids);
      c.tasks == Kept(configs, tasks, ids) && c.gold == Payout(configs, tasks, ids) && c.count == |tasks| - |c.tasks|
  {
    if ids == [] {
      NothingPaid(configs, tasks);
    } else {
      var n := |ids| - 1;
      CompletionPaysOnce(configs, tasks, ids[..n]);
      CompletionStep(configs, tasks, ids[..n], ids[n], CompleteAll(configs, tasks, ids[..n]));
      assert ids == ids[..n] + [ids[n]];
    }
  }

  lemma {:induction false} NothingPaid(configs: seq<TaskConfig>, tasks: seq<Task>)
    ensures Kept(configs, tasks, []) == tasks && Payout(configs, tasks, []) == 0
  {
    if tasks != [] {
      NothingPaid(configs, tasks[1..]);
    }
  }

  lemma {:induction false} KeptIsPart(configs: seq<TaskConfig>, tasks: seq<Task>, ids: seq<int>)
    requires DistinctIds(tasks)
    ensures DistinctIds(Kept(configs, tasks, ids)) && |Kept(configs, tasks, ids)| <= |tasks|
  {
    if tasks != [] {
      KeptIsPart(configs, tasks[1..], ids);
      KeptHolds(configs, tasks[1..], ids, tasks[0].id);
      assert !Holds(tasks[1..], tasks[0].id);
      var k := Kept(configs, tasks[1..], ids);
      assert forall i :: 0 <= i < |k| ==> k[i].id != tasks[0].id by {
        if i :| 0 <= i < |k| && k[i].id == tasks[0].id { assert Holds(k, tasks[0].id); }
      }
    }
  }

  // -------------------------------------------------------------------------------------------
  // Lotions, kills, records
  // -------------------------------------------------------------------------------------------

  lemma {:induction false} UnusedMembers(lotions: seq<int>, used: seq<int>, x: int)
    ensures multiset(Unused(lotions, used))[x] == if x in used then 0 else multiset(lotions)[x]
  {
    if lotions != [] {
      var n := |lotions| - 1;
      assert lotions == lotions[..n] + [lotions[n]];
      UnusedMembers(lotions[..n], used, x);
    }
  }

  /** Every lotion of a used kind is gone. So what is left is what was held less what was used exactly when
      no used kind was held more often than it was used. */
  lemma LotionsBalanceIff(lotions: seq<int>, used: seq<int>)
    ensures multiset(Unused(lotions, used)) == multiset(lotions) - multiset(used)
       <==> forall x :: x in used ==> multiset(lotions)[x] <= multiset(used)[x]
  {
    var left, held, gone := multiset(Unused(lotions, used)), multiset(lotions), multiset(used);
    forall x
      ensures left[x] == if x in used then 0 else held[x]
      ensures x in used <==> gone[x] > 0
    {
      UnusedMembers(lotions, used, x);
    }
    hide Unused;
    if forall x :: x in used ==> held[x] <= gone[x] {
      forall x
        ensures left[x] == (held - gone)[x]
      {
      }
      SameMultiset(left, held - gone);
    } else {
      var x :| x in used && held[x] > gone[x];
      assert left[x] == 0 < (held - gone)[x];
    }
  }

  lemma {:induction false} MergedKeepsDistinct(list: seq<Kill>, more: seq<Kill>)
    requires forall i, j :: 0 <= i < j < |list| ==> list[i] != list[j]
    ensures forall i, j :: 0 <= i < j < |Merged(list, more)| ==> Merged(list, more)[i] != Merged(list, more)[j]
    ensures list <= Merged(list, more)
    ensures forall k :: k in Merged(list, more) <==> k in list || k in more
  {
    if more != [] {
      MergedKeepsDistinct(list, more[..|more| - 1]);
    }
  }

  /** Only the record of the section before the one played moves, by one section, and none moves back. */
  lemma RecordsAdvance(records: seq<Record>, chapter: int, section: int, i: nat)
    requires i < |records|
    ensures var r := Advanced(records, chapter, section)[i];
      r.chapter == records[i].chapter && records[i].section <= r.section <= records[i].section + 1 &&
      (r.section == records[i].section + 1 <==> records[i] == Record(chapter, section - 1))
  {
  }

  /** A refused exit takes nothing home, but the place is left all the same. It is refused if it is not from the
      place that the player is in, or for a lotion that is not held. */
  lemma RefusedExit(c: Config, p: Player, m: Report)
    ensures ErrorOf(p, m) == NoError <==>
      (m.chapter, m.section) == (p.chapter, p.section) != (-1, -1) && forall x :: x in m.useLotions ==> x in p.lotions
    ensures ErrorOf(p, m) == NotFoundLotion ==>
      (m.chapter, m.section) == (p.chapter, p.section) && exists x :: x in m.useLotions && x !in p.lotions
    ensures ErrorOf(p, m) != NoError ==> Exited(c, p, m) == p.(chapter := -1, section := -1)
  {
    HeldByMembers(p.lotions, m.useLotions);
    hide AllHeld;
  }

  lemma HeldByMembers(lotions: seq<int>, used: seq<int>)
    ensures AllHeld(lotions, used) <==> forall x :: x in used ==> x in lotions
  {
    if AllHeld(lotions, used) {
      forall x | x in used
        ensures x in lotions
      {
        var i :| 0 <= i < |used| && used[i] == x;
      }
    }
    if forall x :: x in used ==> x in lotions {
      forall i | 0 <= i < |used|
        ensures used[i] in lotions
      {
        var x := used[i];
        assert x in used;
      }
    }
  }

  /** A held task is as it was reported last. */
  lemma {:induction false} OverwrittenIsLast(tasks: seq<Task>, infos: seq<Task>, i: nat, k: nat)
    requires DistinctIds(tasks) && k < |tasks| && i < |infos| && infos[i].id == tasks[k].id
    requires forall j :: i < j < |infos| ==> infos[j].id != tasks[k].id
    ensures AllOverwritten(tasks, infos)[k] == infos[i]
  {
    var n := |infos| - 1;
    AllOverwrittenAt(tasks, infos, k);
    hide AllOverwritten;
    if i < n {
      assert infos[n].id != tasks[k].id;
      OverwrittenIsLast(tasks, infos[..n], i, k);
    }
  }

  /** And as it was, if it is not reported. */
  lemma {:induction false} NotReportedStays(tasks: seq<Task>, infos: seq<Task>, k: nat)
    requires DistinctIds(tasks) && k < |tasks| && forall j :: 0 <= j < |infos| ==> infos[j].id != tasks[k].id
    ensures AllOverwritten(tasks, infos)[k] == tasks[k]
  {
    if infos != [] {
      var n := |infos| - 1;
      assert infos[n].id != tasks[k].id;
      AllOverwrittenAt(tasks, infos, k);
      NotReportedStays(tasks, infos[..n], k);
    }
  }

  lemma AllOverwrittenAt(tasks: seq<Task>, infos: seq<Task>, k: nat)
    requires DistinctIds(tasks) && k < |tasks| && infos != []
    ensures var n := |infos| - 1;
      AllOverwritten(tasks, infos)[k] ==
        if tasks[k].id == infos[n].id then infos[n] else AllOverwritten(tasks, infos[..n])[k]
  {
    hide Overwritten;
    var n := |infos| - 1;
    OverwrittenAt(AllOverwritten(tasks, infos[..n]), infos[n], k);
  }

  lemma {:induction false} OverwrittenAt(tasks: seq<Task>, info: Task, k: nat)
    requires DistinctIds(tasks) && k < |tasks|
    ensures Overwritten(tasks, info)[k] == if tasks[k].id == info.id then info else tasks[k]
  {
    if k > 0 {
      if tasks[0].id != info.id {
        OverwrittenAt(tasks[1..], info, k - 1);
      }
    }
  }

  /** A creature has the status reported last. */
  lemma {:induction false} NotedIsLast(creatures: map<int, int>, more: seq<(int, int)>, id: int, i: nat)
    requires i < |more| && more[i].0 == id && forall j :: i < j < |more| ==> more[j].0 != id
    ensures id in Noted(creatures, more) && Noted(creatures, more)[id] == more[i].1
  {
    var n := |more| - 1;
    if i < n {
      assert more[n].0 != id;
      NotedIsLast(creatures, more[..n], id, i);
    }
  }

  /** And the one it had, if none is reported. */
  lemma {:induction false} NotNotedStays(creatures: map<int, int>, more: seq<(int, int)>, id: int)
    requires forall j :: 0 <= j < |more| ==> more[j].0 != id
    ensures id in Noted(creatures, more) <==> id in creatures
    ensures id in creatures ==> Noted(creatures, more)[id] == creatures[id]
  {
    if more != [] {
      var n := |more| - 1;
      assert more[n].0 != id;
      NotNotedStays(creatures, more[..n], id);
    }
  }

  /** The account of an exit without error. */
  lemma ExitAccounts(c: Config, p: Player, m: Report)
    requires DistinctIds(p.hero.tasks) && ErrorOf(p, m) == NoError
    ensures var h, after := p.hero, Exited(c, p, m).hero;
      && after.gold == (if h.gold < 0 then 0 else h.gold) + m.gold + Payout(c.tasks, h.tasks, m.complete)
      && after.completeCount == h.completeCount + (|h.tasks| - |after.tasks|)
      && after.tasks == Kept(c.tasks, AllOverwritten(h.tasks, m.taskInfos), m.complete)
      && DistinctIds(after.tasks) && |after.tasks| <= |h.tasks|
      && |after.records| == |h.records|
      && forall i :: 0 <= i < |h.records| ==>
           after.records[i].chapter == h.records[i].chapter &&
           after.records[i].section == h.records[i].section +
             if m.success && h.records[i] == Record(m.chapter, m.section - 1) then 1 else 0
  {
    var tasks := AllOverwritten(p.hero.tasks, m.taskInfos);
    CompletionPaysOnce(c.tasks, tasks, m.complete);
    KeptIsPart(c.tasks, tasks, m.complete);
    PayoutByIds(c.tasks, tasks, p.hero.tasks, m.complete);
  }

  lemma {:induction false} PayoutByIds(configs: seq<TaskConfig>, tasks: seq<Task>, others: seq<Task>, ids: seq<int>)
    requires |tasks| == |others| && forall i :: 0 <= i < |tasks| ==> tasks[i].id == others[i].id
    ensures Payout(configs, tasks, ids) == Payout(configs, others, ids)
  {
    if tasks != [] {
      PayoutByIds(configs, tasks[1..], others[1..], ids);
    }
  }
}
