/** Shop promotions (gameserver/ShopSalesPromotionManager.cpp): a promotion is announced, executed and
    ended by timers or by the day passing, and while it is executing its discounts are booked in the
    shop's ledger. */
module Promotion {
  import opened Collections

  /** When a promotion is shown, begins and ends: in seconds, weekdays, or days since the server opened. */
  datatype Time =
    | Normal(show: int, begin: int, end: int)
    | Week(show: int, begin: int, end: int)
    | OpenDays(show: int, begin: int, end: int)

  /** `cheap` gives the discount per shop grid; it is empty for promotions that are not about heroes. */
  datatype Config = Config(time: Time, cheap: map<int, int>)

  datatype Phase = Wait | Apply | Excute | Destroy

  datatype Callback = CallApply | CallExcute | CallExit

  /** A one-shot event and when it is due. */
  datatype Timer = Timer(call: Callback, due: int)

  /** `timer` is the pending event; `added` and `removed` count the bookings in the ledger. */
  datatype Promo = Promo(config: Config, phase: Phase, timer: Option<Timer>, added: nat, removed: nat)

  /** What the server's clock says. */
  datatype Clock = Clock(now: int, weekday: int, openDay: int)

  // -------------------------------------------------------------------------------------------
  // What a call does to a promotion
  // -------------------------------------------------------------------------------------------

  /** A waiting promotion is announced today. */
  predicate ShowsToday(t: Time, c: Clock) {
    match t
    case Normal(_, _, _) => false
    case Week(show, _, end) => if show <= end then show <= c.weekday <= end else c.weekday <= show || c.weekday >= end
    case OpenDays(show, _, end) => show <= end && show <= c.openDay <= end
  }

  predicate BeginsToday(t: Time, c: Clock) {
    match t
    case Normal(_, _, _) => false
    case Week(_, begin, end) =>
      if begin <= end then begin <= c.weekday <= end else c.weekday <= begin || c.weekday >= end
    case OpenDays(_, begin, end) => begin <= c.openDay <= end
  }

  predicate EndsToday(t: Time, c: Clock) {
    match t
    case Normal(_, _, _) => false
    case Week(_, begin, end) =>
      if begin <= end then c.weekday < begin || c.weekday > end else c.weekday > begin && c.weekday < end
    case OpenDays(_, begin, end) => c.openDay < begin || c.openDay > end
  }

  function Exited(p: Promo): Promo {
    p.(phase := Destroy, timer := None, removed := p.removed + 1)
  }

  /** `excute(bool)`. */
  function WithBooking(p: Promo, b: bool): Promo {
    if b then p.(phase := Excute, added := p.added + 1) else p.(phase := Excute, removed := p.removed + 1)
  }

  function Executed(p: Promo, c: Clock): Promo {
    var q := WithBooking(p, true);
    if !q.config.time.Normal? then
      if EndsToday(q.config.time, c) then Exited(q) else q
    else if q.config.time.end > c.now then q.(timer := Some(Timer(CallExit, q.config.time.end)))
    else Exited(q)
  }

  function Applied(p: Promo, c: Clock): Promo {
    var q := p.(phase := Apply, timer := None);
    if q.config.time.Normal? then
      if q.config.time.begin <= c.now then Executed(q, c)
      else q.(timer := Some(Timer(CallExcute, q.config.time.begin)))
    else if BeginsToday(q.config.time, c) then Executed(q, c)
    else q
  }

  function Passed(p: Promo, c: Clock): Promo {
    match p.phase
    case Wait => if ShowsToday(p.config.time, c) then Applied(p, c) else p
    case Apply => if BeginsToday(p.config.time, c) then Executed(p, c) else p
    case Excute => if EndsToday(p.config.time, c) then Exited(p) else p
    case Destroy => p
  }

  /** A fired timer is no longer pending. */
  function Fired(p: Promo, c: Clock): Promo {
    var q := p.(timer := None);
    match p.timer
    case None => p
    case Some(Timer(CallApply, _)) => Applied(q, c)
    case Some(Timer(CallExcute, _)) => Executed(q, c)
    case Some(Timer(CallExit, _)) => Exited(q)
  }

  function Fresh(config: Config): Promo { Promo(config, Wait, None, 0, 0) }

  /** `init`: nothing becomes of a promotion that would be over before it is shown. */
  function Started(config: Config, c: Clock): Option<Promo> {
    match config.time
    case Normal(show, _, end) =>
      if show > end then None
      else if show <= c.now then Some(Applied(Fresh(config), c))
      else Some(Fresh(config).(timer := Some(Timer(CallApply, show))))
    case _ => Some(Passed(Fresh(config), c))
  }

  // -------------------------------------------------------------------------------------------
  // One promotion, over its whole life
  // -------------------------------------------------------------------------------------------

  /** A promotion is booked once when it starts executing and cancelled once when it ends; a timer is
      pending only for the next thing a promotion by the clock has to do. */
  predicate Coherent(p: Promo) {
    && p.added == (if p.phase.Wait? || p.phase.Apply? then 0 else 1)
    && p.removed == (if p.phase.Destroy? then 1 else 0)
    && match p.timer
       case None => true
       case Some(Timer(CallApply, _)) => p.config.time.Normal? && p.phase == Wait
       case Some(Timer(CallExcute, _)) => p.config.time.Normal? && p.phase == Apply
       case Some(Timer(CallExit, _)) => p.config.time.Normal? && p.phase == Excute
  }

  function Rank(phase: Phase): nat {
    match phase case Wait => 3 case Apply => 2 case Excute => 1 case Destroy => 0
  }

  datatype Event = DayPasses(c: Clock) | TimerFires(c: Clock)

  function After(p: Promo, e: Event): Promo {
    match e
    case DayPasses(c) => Passed(p, c)
    case TimerFires(c) => Fired(p, c)
  }

  function AfterAll(p: Promo, events: seq<Event>): Promo {
    if events == [] then p else After(AfterAll(p, events[..|events| - 1]), events[|events| - 1])
  }

  /** In every life: booked at most once, cancelled exactly when destroyed and only if booked before,
      and never back to an earlier phase. */
  lemma {:induction false} EveryLifeIsCoherent(config: Config, c: Clock, events: seq<Event>)
    requires Started(config, c).Some?
    ensures var p := AfterAll(Started(config, c).value, events);
      Coherent(p) && p.config == config && p.removed <= p.added <= 1 && (p.removed == 1 <==> p.phase == Destroy)
  {
    if events != [] {
      EveryLifeIsCoherent(config, c, events[..|events| - 1]);
    }
  }

  lemma {:induction false} PhasesOnlyAdvance(p: Promo, events: seq<Event>)
    requires Coherent(p)
    ensures Coherent(AfterAll(p, events)) && Rank(AfterAll(p, events).phase) <= Rank(p.phase)
    ensures p.phase == Destroy ==> AfterAll(p, events) == p
  {
    if events != [] {
      PhasesOnlyAdvance(p, events[..|events| - 1]);
    }
  }

  /** On every day a promotion by days either begins or ends, never both. */
  lemma BeginsOrEnds(t: Time, c: Clock)
    requires !t.Normal?
    ensures BeginsToday(t, c) <==> !EndsToday(t, c)
  {
  }

  /** A weekly promotion ends on some weekday exactly when its window does not wrap around the week and
      leaves a day out: a wrapped window admits every day. */
  lemma WeeklyEndsIff(show: int, begin: int, end: int)
    ensures (exists d :: 0 <= d < 7 && EndsToday(Week(show, begin, end), Clock(0, d, 0)))
       <==> begin <= end && (begin > 0 || end < 6)
  {
    var t := Week(show, begin, end);
    if begin <= end && begin > 0 {
      assert EndsToday(t, Clock(0, 0, 0));
    } else if begin <= end && end < 6 {
      assert EndsToday(t, Clock(0, 6, 0));
    }
  }

  lemma {:induction false} WrappedWeekNeverEnds(p: Promo, events: seq<Event>)
    requires Coherent(p) && p.config.time.Week? && p.config.time.begin > p.config.time.end && p.phase == Excute
    ensures AfterAll(p, events) == p
  {
    if events != [] {
      WrappedWeekNeverEnds(p, events[..|events| - 1]);
    }
  }

  // -------------------------------------------------------------------------------------------
  // The ledger
  // -------------------------------------------------------------------------------------------

  /** `getCheapGold`. */
  function Discount(ledger: map<int, int>, grid: int): int {
    if grid in ledger then ledger[grid] else 0
  }

  /** What a promotion contributes at the moment. */
  function Share(p: Promo, grid: int): int {
    if p.phase == Excute then Discount(p.config.cheap, grid) else 0
  }

  function Total(ps: seq<Promo>, grid: int): int {
    if ps == [] then 0 else Total(ps[..|ps| - 1], grid) + Share(ps[|ps| - 1], grid)
  }

  /** The ledger moves by `delta` times what is in `cheap`. */
  ghost predicate Moved(before: map<int, int>, after: map<int, int>, cheap: map<int, int>, delta: int) {
    forall g :: Discount(after, g) == Discount(before, g) + delta * Discount(cheap, g)
  }

  /** The ledger follows the promotion from `p` to `q`. */
  ghost predicate Booked(before: map<int, int>, after: map<int, int>, p: Promo, q: Promo) {
    forall g :: Discount(after, g) == Discount(before, g) + Share(q, g) - Share(p, g)
  }

  // -------------------------------------------------------------------------------------------
  // A promotion by the clock keeps to its times
  // -------------------------------------------------------------------------------------------

  /** Where a promotion by the clock ought to be at time `now`. */
  function Stage(t: Time, now: int): Phase {
    if now < t.show then Wait else if now < t.begin then Apply else if now < t.end then Excute else Destroy
  }

  /** What is pending is the next thing to be done, and nothing has been done too early. */
  predicate OnSchedule(p: Promo, now: int) {
    var t := p.config.time;
    t.Normal? &&
    match p.phase
    case Wait => p.timer == Some(Timer(CallApply, t.show))
    case Apply => t.show <= now && p.timer == Some(Timer(CallExcute, t.begin))
    case Excute => t.show <= now && t.begin <= now && p.timer == Some(Timer(CallExit, t.end))
    case Destroy => t.show <= now && t.begin <= now && t.end <= now && p.timer == None
  }

  /** No pending event is due. */
  predicate Prompt(p: Promo, now: int) { p.timer.Some? ==> now < p.timer.value.due }

  function ClockOf(e: Event): Clock { e.c }

  /** The clock does not go back, and no timer fires before it is due; it may fire late. */
  ghost predicate Timely(p: Promo, start: int, events: seq<Event>) {
    forall i :: 0 <= i < |events| ==> TimelyAt(p, start, events, i)
  }

  predicate TimelyAt(p: Promo, start: int, events: seq<Event>, i: nat)
    requires i < |events|
  {
    var at := AfterAll(p, events[..i]);
    TimeAfter(start, events[..i]) <= ClockOf(events[i]).now &&
    (events[i].TimerFires? && at.timer.Some? ==> at.timer.value.due <= ClockOf(events[i]).now)
  }

  function TimeAfter(start: int, events: seq<Event>): int {
    if events == [] then start else ClockOf(events[|events| - 1]).now
  }

  lemma {:induction false} StaysOnSchedule(p: Promo, start: int, events: seq<Event>)
    requires OnSchedule(p, start) && Timely(p, start, events)
    ensures OnSchedule(AfterAll(p, events), TimeAfter(start, events)) && AfterAll(p, events).config == p.config
  {
    if events != [] {
      var n := |events| - 1;
      forall i | 0 <= i < n
        ensures TimelyAt(p, start, events[..n], i)
      {
        assert events[..n][..i] == events[..i];
        assert TimelyAt(p, start, events, i);
      }
      StaysOnSchedule(p, start, events[..n]);
      assert TimelyAt(p, start, events, n);
      EventKeepsSchedule(AfterAll(p, events[..n]), TimeAfter(start, events[..n]), events[n]);
    }
  }

  lemma EventKeepsSchedule(p: Promo, before: int, e: Event)
    requires OnSchedule(p, before) && before <= ClockOf(e).now
    requires e.TimerFires? && p.timer.Some? ==> p.timer.value.due <= ClockOf(e).now
    ensures OnSchedule(After(p, e), ClockOf(e).now) && After(p, e).config == p.config
  {
  }

  /** In every life of a promotion by the clock: it is started if and only if it is not shown after its end,
      and whenever no timer is overdue it is where it ought to be. So its discounts are in the ledger exactly
      from the later of show and begin until the end. */
  lemma EveryLifeIsOnTime(config: Config, c: Clock, events: seq<Event>, now: int, g: int)
    requires config.time.Normal? && config.time.show <= config.time.end
    ensures Started(config, c).Some?
    ensures var first := Started(config, c).value;
      var p, t := AfterAll(first, events), config.time;
      Timely(first, c.now, events) && TimeAfter(c.now, events) <= now && Prompt(p, now) ==>
        p.phase == Stage(t, now) &&
        Share(p, g) == if t.show <= now && t.begin <= now < t.end then Discount(config.cheap, g) else 0
  {
    var first := Started(config, c).value;
    assert OnSchedule(first, c.now) && first.config == config;
    if Timely(first, c.now, events) {
      StaysOnSchedule(first, c.now, events);
    }
  }

  lemma LateIsNotStarted(config: Config, c: Clock)
    ensures Started(config, c) == None <==> config.time.Normal? && config.time.show > config.time.end
  {
  }

  // -------------------------------------------------------------------------------------------
  // A promotion by days keeps to its windows
  // -------------------------------------------------------------------------------------------

  /** The days on which it is shown: a window that wraps around the week is every day. */
  predicate Shown(t: Time, c: Clock) {
    match t
    case Week(show, _, end) => show > end || show <= c.weekday <= end
    case OpenDays(show, _, end) => show <= c.openDay <= end
    case Normal(_, _, _) => false
  }

  /** The days on which its discounts hold. */
  predicate InWindow(t: Time, c: Clock) {
    match t
    case Week(_, begin, end) => begin > end || begin <= c.weekday <= end
    case OpenDays(_, begin, end) => begin <= c.openDay <= end
    case Normal(_, _, _) => false
  }

  /** What a day makes of a promotion by days: once announced it executes exactly on the days of its window, and
      the first day after them ends it. */
  lemma DayDecides(p: Promo, c: Clock, g: int)
    requires !p.config.time.Normal? && p.phase != Destroy
    ensures var q, t := Passed(p, c), p.config.time;
      q.config == p.config &&
      q.phase == (if p.phase == Wait && !Shown(t, c) then Wait
                  else if InWindow(t, c) then Excute
                  else if p.phase == Excute then Destroy
                  else Apply) &&
      (p.phase != Wait || Shown(t, c) ==> Share(q, g) == if InWindow(t, c) then Discount(p.config.cheap, g) else 0)
  {
  }

  /** Where a promotion by days since the server opened ought to be on day `d`. */
  function DayStage(t: Time, d: int): Phase {
    if d < t.show then Wait else if d < t.begin then Apply else if d <= t.end then Excute else Destroy
  }

  /** Day by day, from a day before its end: it is announced, executes and ends on its days. */
  lemma {:induction false} OpenDaysAreKept(config: Config, c: Clock, events: seq<Event>)
    requires config.time.OpenDays? && config.time.show <= config.time.end && config.time.begin <= config.time.end
    requires c.openDay <= config.time.end
    requires forall i :: 0 <= i < |events| ==> events[i].DayPasses? && ClockOf(events[i]).openDay == c.openDay + i + 1
    ensures Started(config, c).Some?
    ensures var p := AfterAll(Started(config, c).value, events);
      p.phase == DayStage(config.time, c.openDay + |events|) && p.config == config
  {
    if events != [] {
      OpenDaysAreKept(config, c, events[..|events| - 1]);
    }
  }

  /** The promotions that `update` keeps. */
  function Remaining(ps: seq<Promo>): seq<Promo> {
    if ps == [] then [] else Remaining(ps[..|ps| - 1]) + if ps[|ps| - 1].phase == Destroy then [] else [ps[|ps| - 1]]
  }

  lemma {:induction false} RemainingSplit(a: seq<Promo>, b: seq<Promo>)
    ensures Remaining(a + b) == Remaining(a) + Remaining(b)
  {
    if b == [] {
      assert a + b == a;
    } else {
      assert (a + b)[..|a + b| - 1] == a + b[..|b| - 1];
      RemainingSplit(a, b[..|b| - 1]);
    }
  }

  lemma CutOut<T>(s: seq<T>, i: nat)
    requires i < |s|
    ensures s == s[..i] + [s[i]] + s[i + 1..] && s[..i + 1] == s[..i] + [s[i]]
  {
  }

  lemma RemainingStep(kept: seq<Promo>, p: Promo, more: seq<Promo>)
    requires Remaining(kept) == kept
    ensures p.phase != Destroy ==> Remaining(kept + [p]) == kept + [p]
    ensures p.phase == Destroy ==> Remaining(kept + more) == Remaining(kept + [p] + more)
  {
    RemainingOne(p);
    hide Remaining;
    RemainingSplit(kept, [p]);
    RemainingSplit(kept + [p], more);
    RemainingSplit(kept, more);
  }

  lemma RemainingOne(p: Promo)
    ensures Remaining([p]) == if p.phase == Destroy then [] else [p]
  {
    assert [p][..0] == [];
  }

  /** What is destroyed contributes nothing. */
  lemma {:induction false} TotalWithout(a: seq<Promo>, p: Promo, b: seq<Promo>, grid: int)
    requires p.phase == Destroy
    ensures Total(a + [p] + b, grid) == Total(a + b, grid)
  {
    if b == [] {
      assert (a + [p] + b)[..|a|] == a && a + b == a;
    } else {
      var n := |b| - 1;
      assert (a + [p] + b)[..|a| + 1 + n] == a + [p] + b[..n] && (a + b)[..|a| + n] == a + b[..n];
      TotalWithout(a, p, b[..n], grid);
    }
  }

  lemma {:induction false} TotalReplaced(ps: seq<Promo>, i: nat, q: Promo, grid: int)
    requires i < |ps|
    ensures Total(ps[i := q], grid) == Total(ps, grid) + Share(q, grid) - Share(ps[i], grid)
  {
    var n := |ps| - 1;
    if i < n {
      assert ps[i := q][..n] == ps[..n][i := q];
      TotalReplaced(ps[..n], i, q, grid);
    } else {
      assert ps[i := q][..n] == ps[..n];
    }
  }

  // -------------------------------------------------------------------------------------------
  // The objects
  // -------------------------------------------------------------------------------------------

  class TimeShopPromotion {
    const config: Config
    const parent: ShopSalesPromotionManager
    var phase: Phase
    var timer: Option<Timer>
    ghost var added: nat
    ghost var removed: nat

    ghost function Abs(): Promo
      reads this
    {
      Promo(config, phase, timer, added, removed)
    }

    constructor (config: Config, parent: ShopSalesPromotionManager)
      ensures Abs() == Fresh(config) && this.config == config && this.parent == parent
    {
      this.config, this.parent := config, parent;
      phase, timer, added, removed := Wait, None, 0, 0;
    }

    /** `excute(bool)`: into phase Excute, and the discounts into or out of the ledger. */
    method Book(b: bool)
      modifies this`phase, this`added, this`removed, parent`cheapGold
      ensures Abs() == WithBooking(old(Abs()), b)
      ensures Moved(old(parent.cheapGold), parent.cheapGold, config.cheap, if b then 1 else -1)
    {
      phase := Excute;
      if b { added := added + 1; } else { removed := removed + 1; }
      ghost var sign := if b then 1 else -1;
      var todo := config.cheap;
      while todo != map[]
        invariant todo.Keys <= config.cheap.Keys && forall g :: g in todo ==> todo[g] == config.cheap[g]
        invariant Abs() == WithBooking(old(Abs()), b)
        invariant Moved(old(parent.cheapGold), parent.cheapGold, config.cheap - todo.Keys, sign)
        decreases todo.Keys
      {
        var it :| it in todo.Items;
        todo := todo - {it.0};
        parent.ModifyCheapGold(it.0, if b then it.1 else -it.1);
      }
      assert config.cheap - todo.Keys == config.cheap;
    }

    /** `DayPass`, as it is written: each phase is tested again after the calls for the phase before it. */
    method DayPass(c: Clock)
      requires Coherent(Abs())
      modifies this, parent`cheapGold
      ensures Abs() == Passed(old(Abs()), c)
      ensures Booked(old(parent.cheapGold), parent.cheapGold, old(Abs()), Abs())
      decreases 2 * Rank(phase)
    {
      if phase == Wait {
        if ShowsToday(config.time, c) {
          DoApply(c);
        }
      }
      if phase == Apply {
        if BeginsToday(config.time, c) {
          DoExcute(c);
        }
      }
      if phase == Excute {
        if EndsToday(config.time, c) {
          Exit();
        }
      }
    }

    method DoApply(c: Clock)
      requires Coherent(Abs()) && phase == Wait
      modifies this, parent`cheapGold
      ensures Abs() == Applied(old(Abs()), c)
      ensures Booked(old(parent.cheapGold), parent.cheapGold, old(Abs()), Abs())
      decreases 5
    {
      timer := None;
      phase := Apply;
      if config.time.Normal? {
        var delay := config.time.begin - c.now;
        if delay <= 0 {
          DoExcute(c);
        } else {
          timer := Some(Timer(CallExcute, c.now + delay));
        }
      } else {
        DayPass(c);
      }
    }

    method DoExcute(c: Clock)
      requires Coherent(Abs()) && phase == Apply && timer == None
      modifies this, parent`cheapGold
      ensures Abs() == Executed(old(Abs()), c)
      ensures Booked(old(parent.cheapGold), parent.cheapGold, old(Abs()), Abs())
      decreases 3
    {
      Book(true);
      if config.time.Normal? {
        var delay := config.time.end - c.now;
        if delay > 0 {
          timer := Some(Timer(CallExit, c.now + delay));
        } else {
          Exit();
        }
      } else {
        DayPass(c);
      }
    }

    method Exit()
      requires Coherent(Abs()) && phase == Excute
      modifies this, parent`cheapGold
      ensures Abs() == Exited(old(Abs()))
      ensures Booked(old(parent.cheapGold), parent.cheapGold, old(Abs()), Abs())
      decreases 1
    {
      timer := None;
      phase := Wait;
      Book(false);
      phase := Destroy;
    }

    method Init(c: Clock) returns (ok: bool)
      requires Abs() == Fresh(config)
      modifies this, parent`cheapGold
      ensures ok == Started(config, c).Some?
      ensures Abs() == if ok then Started(config, c).value else Fresh(config)
      ensures Booked(old(parent.cheapGold), parent.cheapGold, old(Abs()), Abs())
    {
      if config.time.Normal? {
        if config.time.show > config.time.end {
          return false;
        }
        var delay := config.time.show - c.now;
        if delay <= 0 {
          DoApply(c);
        } else {
          timer := Some(Timer(CallApply, c.now + delay));
        }
      } else {
        DayPass(c);
      }
      return true;
    }

    method Fire(c: Clock)
      requires Coherent(Abs()) && timer != None
      modifies this, parent`cheapGold
      ensures Abs() == Fired(old(Abs()), c)
      ensures Booked(old(parent.cheapGold), parent.cheapGold, old(Abs()), Abs())
    {
      var call := timer.value.call;
      timer := None;
      match call
      case CallApply => DoApply(c);
      case CallExcute => DoExcute(c);
      case CallExit => Exit();
    }
  }

  class ShopSalesPromotionManager {
    var cheapGold: map<int, int>
    var promotions: seq<TimeShopPromotion>
    ghost var views: seq<Promo>

    ghost predicate Valid()
      reads this, promotions
    {
      && |views| == |promotions|
      && (forall i :: 0 <= i < |promotions| ==> promotions[i].parent == this && promotions[i].Abs() == views[i] && Coherent(views[i]))
      && (forall i, j :: 0 <= i < j < |promotions| ==> promotions[i] != promotions[j])
      && forall g :: Discount(cheapGold, g) == Total(views, g)
    }

    constructor ()
      ensures Valid() && promotions == []
    {
      cheapGold, promotions, views := map[], [], [];
    }

    method ModifyCheapGold(grid: int, amount: int)
      modifies this`cheapGold
      ensures forall g :: Discount(cheapGold, g) == Discount(old(cheapGold), g) + if g == grid then amount else 0
    {
      if grid !in cheapGold {
        cheapGold := cheapGold[grid := 0];
      }
      var number := cheapGold[grid];
      number := number + amount;
      cheapGold := cheapGold[grid := number];
    }

    method AddPromotion(config: Config, c: Clock)
      requires Valid()
      modifies this
      ensures Valid()
      ensures views == old(views) + if Started(config, c) == None then [] else [Started(config, c).value]
    {
      var entry := new TimeShopPromotion(config, this);
      ghost var before := cheapGold;
      var ok := entry.Init(c);
      if ok {
        Append(entry, before);
      }
    }

    method Append(entry: TimeShopPromotion, ghost before: map<int, int>)
      requires |views| == |promotions| && entry.parent == this && Coherent(entry.Abs())
      requires forall i :: 0 <= i < |promotions| ==>
        promotions[i] != entry && promotions[i].parent == this && promotions[i].Abs() == views[i] && Coherent(views[i])
      requires forall i, j :: 0 <= i < j < |promotions| ==> promotions[i] != promotions[j]
      requires forall g :: Discount(before, g) == Total(views, g)
      requires forall g :: Discount(cheapGold, g) == Discount(before, g) + Share(entry.Abs(), g)
      modifies this`promotions, this`views
      ensures Valid() && views == old(views) + [entry.Abs()]
    {
      promotions := promotions + [entry];
      views := views + [entry.Abs()];
      assert views[..|views| - 1] == old(views);
    }

    ghost method Record(i: nat, before: map<int, int>)
      requires i < |promotions| && |views| == |promotions|
      requires forall j :: 0 <= j < |promotions| ==> promotions[j].parent == this && (j == i || promotions[j].Abs() == views[j]) && Coherent(views[j])
      requires forall i, j :: 0 <= i < j < |promotions| ==> promotions[i] != promotions[j]
      requires Coherent(promotions[i].Abs()) && Booked(before, cheapGold, views[i], promotions[i].Abs())
      requires forall g :: Discount(before, g) == Total(views, g)
      modifies this`views
      ensures Valid() && views == old(views)[i := promotions[i].Abs()]
    {
      forall g
        ensures Discount(cheapGold, g) == Total(views[i := promotions[i].Abs()], g)
      {
        TotalReplaced(views, i, promotions[i].Abs(), g);
      }
      views := views[i := promotions[i].Abs()];
    }

    /** The ledger stays the sum of what is executing, whichever timer fires. */
    method FireTimer(i: nat, c: Clock)
      requires Valid() && i < |promotions| && promotions[i].timer != None
      modifies this`cheapGold, this`views, promotions[i]
      ensures Valid() && views == old(views)[i := Fired(old(views)[i], c)]
    {
      promotions[i].Fire(c);
      Record(i, old(cheapGold));
    }

    method DayPass(c: Clock)
      requires Valid()
      modifies this`cheapGold, this`views, promotions
      ensures Valid() && |views| == |old(views)|
      ensures forall i :: 0 <= i < |views| ==> views[i] == Passed(old(views)[i], c)
    {
      for i := 0 to |promotions|
        invariant Valid() && |views| == |old(views)|
        invariant forall j :: 0 <= j < |views| ==> views[j] == if j < i then Passed(old(views)[j], c) else old(views)[j]
      {
        ghost var before := cheapGold;
        promotions[i].DayPass(c);
        Record(i, before);
      }
    }

    /** `update`: what is destroyed leaves the list, and the ledger is none the poorer. */
    method Update()
      requires Valid()
      modifies this`promotions, this`views
      ensures Valid() && views == Remaining(old(views))
    {
      var i := 0;
      while i < |promotions|
        invariant 0 <= i <= |promotions| && Valid()
        invariant Remaining(views[..i]) == views[..i] && Remaining(views) == Remaining(old(views))
        decreases |promotions| - i
      {
        RemainingStep(views[..i], views[i], views[i + 1..]);
        CutOut(views, i);
        if promotions[i].phase == Destroy {
          EraseAt(i);
        } else {
          i := i + 1;
        }
      }
      assert views[..|views|] == views;
    }

    method EraseAt(i: nat)
      requires Valid() && i < |promotions| && promotions[i].phase == Destroy
      modifies this`promotions, this`views
      ensures Valid() && views == old(views)[..i] + old(views)[i + 1..]
      ensures promotions == old(promotions)[..i] + old(promotions)[i + 1..]
    {
      forall g
        ensures Total(views[..i] + views[i + 1..], g) == Discount(cheapGold, g)
      {
        TotalWithout(views[..i], views[i], views[i + 1..], g);
        CutOut(views, i);
      }
      promotions := promotions[..i] + promotions[i + 1..];
      views := views[..i] + views[i + 1..];
    }
  }
}
