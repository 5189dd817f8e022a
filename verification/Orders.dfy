/** Payment orders of one hero while it is in memory (gameserver/DreamHero.cpp, GSHttpManager.h). */
module Orders {
  import opened Collections

  datatype DealStatus = WaitToPay | WaitPrepareToPay | Complete | WaitPrepareToVerify | Failed

  datatype Deal = Deal(keyCode: string, status: int, price: int, kind: DealStatus)

  datatype GameError = ErrorNo | NotFoundConfig | NotFoundOrder | OrderCompleted | Unknow

  /** What a purchase adds, after the promotion's rating: any two numbers. */
  datatype Amount = Amount(gold: int, jewel: int)

  /** What the gold shop sells at the moment, by product. */
  type Prices = map<string, Amount>

  datatype Credit = Credit(id: int, amount: Amount)

  datatype Hero = Hero(deals: map<int, Deal>, gold: int, jewel: int)

  predicate Payable(k: DealStatus) { k == WaitToPay || k == WaitPrepareToPay }

  /** Closed to payment for good. */
  predicate Closed(k: DealStatus) { k == Complete || k == Failed }

  // -------------------------------------------------------------------------------------------
  // The steps
  // -------------------------------------------------------------------------------------------

  datatype Paid = Paid(hero: Hero, error: GameError, credit: Option<Credit>)

  /** `addDealPay`; `keyCode` is the product of the notification. */
  function PaidBy(h: Hero, prices: Prices, keyCode: string, status: int, id: int, error: GameError): Paid {
    if error != ErrorNo then Paid(h, Unknow, None)
    else if keyCode !in prices then Paid(h, NotFoundConfig, None)
    else if id !in h.deals then Paid(h, NotFoundOrder, None)
    else
      var d := h.deals[id];
      if status != 0 then Paid(h.(deals := h.deals[id := d.(kind := Failed)]), Unknow, None)
      else if Payable(d.kind) then
        Paid(Hero(h.deals[id := d.(kind := Complete)], h.gold + prices[keyCode].gold, h.jewel + prices[keyCode].jewel),
             ErrorNo, Some(Credit(id, prices[keyCode])))
      else if d.kind == Complete then Paid(h, OrderCompleted, None)
      else Paid(h, Unknow, None)
  }

  /** `addDealWaitToPay`: an order that is known already stays as it is. */
  function WithOrder(h: Hero, keyCode: string, status: int, price: int, id: int, error: GameError): Hero {
    if error != ErrorNo || id in h.deals then h
    else h.(deals := h.deals[id := Deal(keyCode, status, price, WaitToPay)])
  }

  /** `ReqCrearteDeal`: asking for a new order gives up the ones not yet paid. */
  function WithoutWaiting(h: Hero): Hero {
    h.(deals := map id | id in h.deals && h.deals[id].kind != WaitToPay :: h.deals[id])
  }

  /** Verifying a receipt and saving leave the orders alone: what `SaveHero` means to erase once saved it
      never reaches, as its iterator is already at the end. */
  datatype Step =
    | Pay(prices: Prices, keyCode: string, status: int, id: int, error: GameError)
    | Announce(keyCode: string, status: int, price: int, id: int, error: GameError)
    | Create
    | Verify(id: int)
    | Save

  function Next(h: Hero, s: Step): Hero {
    match s
    case Pay(prices, keyCode, status, id, error) => PaidBy(h, prices, keyCode, status, id, error).hero
    case Announce(keyCode, status, price, id, error) => WithOrder(h, keyCode, status, price, id, error)
    case Create => WithoutWaiting(h)
    case Verify(id) => h
    case Save => h
  }

  function Credited(h: Hero, s: Step): (c: seq<Credit>)
    ensures |c| <= 1
  {
    if s.Pay? && PaidBy(h, s.prices, s.keyCode, s.status, s.id, s.error).credit.Some?
    then [PaidBy(h, s.prices, s.keyCode, s.status, s.id, s.error).credit.value] else []
  }

  // -------------------------------------------------------------------------------------------
  // Whole runs
  // -------------------------------------------------------------------------------------------

  function After(h: Hero, steps: seq<Step>): Hero {
    if steps == [] then h else Next(After(h, steps[..|steps| - 1]), steps[|steps| - 1])
  }

  /** Every credit of a run, in order. */
  function Credits(h: Hero, steps: seq<Step>): seq<Credit> {
    if steps == [] then []
    else
      var before := steps[..|steps| - 1];
      Credits(h, before) + Credited(After(h, before), steps[|steps| - 1])
  }

  function TotalGold(cs: seq<Credit>): int {
    if cs == [] then 0 else TotalGold(cs[..|cs| - 1]) + cs[|cs| - 1].amount.gold
  }

  function TotalJewel(cs: seq<Credit>): int {
    if cs == [] then 0 else TotalJewel(cs[..|cs| - 1]) + cs[|cs| - 1].amount.jewel
  }

  ghost predicate OncePerOrder(cs: seq<Credit>) {
    forall i, j :: 0 <= i < j < |cs| ==> cs[i].id != cs[j].id
  }

  ghost predicate AllClosed(cs: seq<Credit>, h: Hero) {
    forall i :: 0 <= i < |cs| ==> cs[i].id in h.deals && Closed(h.deals[cs[i].id].kind)
  }

  /** A closed order is never opened again, nor forgotten. */
  lemma ClosedStaysClosed(h: Hero, s: Step, id: int)
    requires id in h.deals && Closed(h.deals[id].kind)
    ensures id in Next(h, s).deals && Closed(Next(h, s).deals[id].kind)
  {
  }

  /** A step credits at most the order it is about, which was payable and is closed by it. */
  lemma CreditCloses(h: Hero, s: Step)
    requires Credited(h, s) != []
    ensures s.Pay? && Credited(h, s)[0].id == s.id
    ensures s.id in h.deals && Payable(h.deals[s.id].kind)
    ensures s.id in Next(h, s).deals && Next(h, s).deals[s.id].kind == Complete
  {
  }

  lemma TotalsOfMore(cs: seq<Credit>, more: seq<Credit>)
    requires |more| <= 1
    ensures TotalGold(cs + more) == TotalGold(cs) + if more == [] then 0 else more[0].amount.gold
    ensures TotalJewel(cs + more) == TotalJewel(cs) + if more == [] then 0 else more[0].amount.jewel
  {
    if more == [] {
      assert cs + more == cs;
    } else {
      assert (cs + more)[..|cs|] == cs;
    }
  }

  lemma CreditsStep(cs: seq<Credit>, h: Hero, s: Step)
    requires OncePerOrder(cs) && AllClosed(cs, h)
    ensures OncePerOrder(cs + Credited(h, s)) && AllClosed(cs + Credited(h, s), Next(h, s))
  {
    hide Next, Credited;
    if Credited(h, s) != [] {
      CreditCloses(h, s);
      assert Closed(Next(h, s).deals[Credited(h, s)[0].id].kind);
      assert forall i :: 0 <= i < |cs| ==> cs[i].id != Credited(h, s)[0].id;
    } else {
      assert cs + Credited(h, s) == cs;
    }
    forall i | 0 <= i < |cs|
      ensures cs[i].id in Next(h, s).deals && Closed(Next(h, s).deals[cs[i].id].kind)
    {
      ClosedStaysClosed(h, s, cs[i].id);
    }
  }

  /** In every run: an order is credited at most once and stays closed afterwards, and the balance is
      what it was at the start plus what was credited. */
  lemma {:induction false} EveryRunCreditsOnce(h: Hero, steps: seq<Step>)
    ensures OncePerOrder(Credits(h, steps)) && AllClosed(Credits(h, steps), After(h, steps))
    ensures After(h, steps).gold == h.gold + TotalGold(Credits(h, steps))
    ensures After(h, steps).jewel == h.jewel + TotalJewel(Credits(h, steps))
  {
    hide OncePerOrder, AllClosed, Next, Credited, TotalGold, TotalJewel;
    if steps == [] {
      assert OncePerOrder([]) && AllClosed([], h) && TotalGold([]) == TotalJewel([]) == 0 by { NoCredits(h); }
    } else {
      var n := |steps| - 1;
      var before := After(h, steps[..n]);
      EveryRunCreditsOnce(h, steps[..n]);
      CreditsStep(Credits(h, steps[..n]), before, steps[n]);
      TotalsOfMore(Credits(h, steps[..n]), Credited(before, steps[n]));
      BalanceStep(before, steps[n]);
    }
  }

  lemma NoCredits(h: Hero)
    ensures OncePerOrder([]) && AllClosed([], h) && TotalGold([]) == TotalJewel([]) == 0
  {
  }

  lemma BalanceStep(h: Hero, s: Step)
    ensures var c := Credited(h, s);
      Next(h, s).gold == h.gold + (if c == [] then 0 else c[0].amount.gold) &&
      Next(h, s).jewel == h.jewel + (if c == [] then 0 else c[0].amount.jewel)
  {
  }

  // -------------------------------------------------------------------------------------------
  // What is credited, and what is due
  // -------------------------------------------------------------------------------------------

  /** What a step ought to credit: the price of the product ordered, if that is sold. */
  function DueFor(h: Hero, s: Step): (c: seq<Credit>)
    ensures |c| <= |Credited(h, s)|
  {
    if Credited(h, s) == [] || h.deals[s.id].keyCode !in s.prices then []
    else [Credit(s.id, s.prices[h.deals[s.id].keyCode])]
  }

  function Due(h: Hero, steps: seq<Step>): (c: seq<Credit>)
    ensures |c| <= |Credits(h, steps)|
  {
    if steps == [] then []
    else
      var before := steps[..|steps| - 1];
      Due(h, before) + DueFor(After(h, before), steps[|steps| - 1])
  }

  /** A notification that names a product of the same price as the one ordered. */
  predicate SamePrice(s: Step, ordered: string) {
    s.Pay? && s.keyCode in s.prices && ordered in s.prices && s.prices[s.keyCode] == s.prices[ordered]
  }

  ghost predicate Fair(h: Hero, steps: seq<Step>, k: nat)
    requires k < |steps|
  {
    var before := After(h, steps[..k]);
    Credited(before, steps[k]) != [] ==> SamePrice(steps[k], before.deals[steps[k].id].keyCode)
  }

  lemma {:induction false} AppendSame<T>(a: seq<T>, b: seq<T>, c: seq<T>, d: seq<T>)
    requires |b| <= |a| && |d| <= |c|
    ensures a + c == b + d <==> a == b && c == d
  {
    if a + c == b + d {
      assert a == (a + c)[..|a|] && b == (b + d)[..|b|] && c == (a + c)[|a|..] && d == (b + d)[|b|..];
    }
  }

  /** In every run: what is credited is what is due, order by order, exactly when every notification that
      credits names a product of the price of the one ordered. The two are never compared. */
  lemma {:induction false} CreditsAreDueIff(h: Hero, steps: seq<Step>)
    ensures Credits(h, steps) == Due(h, steps) <==> forall k :: 0 <= k < |steps| ==> Fair(h, steps, k)
  {
    if steps != [] {
      var n := |steps| - 1;
      var before := After(h, steps[..n]);
      CreditsAreDueIff(h, steps[..n]);
      AppendSame(Credits(h, steps[..n]), Due(h, steps[..n]), Credited(before, steps[n]), DueFor(before, steps[n]));
      CreditsMore(h, steps);
      DueStep(before, steps[n]);
      FairBefore(h, steps);
      assert Fair(h, steps, n) <==> Credited(before, steps[n]) == DueFor(before, steps[n]);
      hide Credited, DueFor, After, Credits, Due, Fair;
      assert (forall k :: 0 <= k < |steps| ==> Fair(h, steps, k)) <==>
        (forall k :: 0 <= k < n ==> Fair(h, steps[..n], k)) && Fair(h, steps, n);
    }
  }

  lemma FairBefore(h: Hero, steps: seq<Step>)
    requires steps != []
    ensures forall k {:trigger Fair(h, steps, k)} {:trigger Fair(h, steps[..|steps| - 1], k)} :: 0 <= k < |steps| - 1 ==>
      (Fair(h, steps, k) <==> Fair(h, steps[..|steps| - 1], k))
  {
    hide Credited, After, SamePrice;
    forall k | 0 <= k < |steps| - 1
      ensures Fair(h, steps, k) <==> Fair(h, steps[..|steps| - 1], k)
    {
      assert steps[..|steps| - 1][..k] == steps[..k];
    }
  }

  lemma CreditsMore(h: Hero, steps: seq<Step>)
    requires steps != []
    ensures var n := |steps| - 1;
      var before := After(h, steps[..n]);
      Credits(h, steps) == Credits(h, steps[..n]) + Credited(before, steps[n]) &&
      Due(h, steps) == Due(h, steps[..n]) + DueFor(before, steps[n])
  {
  }

  lemma DueStep(h: Hero, s: Step)
    ensures Credited(h, s) == DueFor(h, s) <==> (Credited(h, s) != [] ==> SamePrice(s, h.deals[s.id].keyCode))
  {
  }

  /** Then gold and jewels are what they were plus the prices of the products ordered. */
  lemma FairRunsPayWhatIsDue(h: Hero, steps: seq<Step>)
    requires forall k :: 0 <= k < |steps| ==> Fair(h, steps, k)
    ensures After(h, steps).gold == h.gold + TotalGold(Due(h, steps))
    ensures After(h, steps).jewel == h.jewel + TotalJewel(Due(h, steps))
  {
    hide After, Credits, Due;
    CreditsAreDueIff(h, steps);
    EveryRunCreditsOnce(h, steps);
  }

  /** An order of the small product, notified as the large one, is credited as the large one. */
  lemma OtherProductIsCredited()
    ensures
      var prices: Prices := map["small" := Amount(10, 0), "large" := Amount(1000, 0)];
      var ordered := Next(Hero(map[], 0, 0), Announce("small", 0, 6, 1, ErrorNo));
      var paid := Next(ordered, Pay(prices, "large", 0, 1, ErrorNo));
      ordered.deals == map[1 := Deal("small", 0, 6, WaitToPay)] && paid.gold == 1000
  {
  }

  /** Completed orders must not be erased, as `SaveHero` tries to: an order erased and announced again is
      credited a second time. */
  lemma ErasedOrderPaysTwice(h: Hero, id: int, keyCode: string, a: Amount)
    requires id in h.deals && Payable(h.deals[id].kind)
    ensures var pay := Pay(map[keyCode := a], keyCode, 0, id, ErrorNo);
      var once := Next(h, pay);
      var erased := once.(deals := once.deals - {id});
      After(erased, [Announce(keyCode, 0, 0, id, ErrorNo), pay]).gold == h.gold + 2 * a.gold
  {
    var pay := Pay(map[keyCode := a], keyCode, 0, id, ErrorNo);
    var once := Next(h, pay);
    var erased := once.(deals := once.deals - {id});
    var announce := Announce(keyCode, 0, 0, id, ErrorNo);
    assert [announce, pay][..1] == [announce] && [announce][..0] == [];
    assert After(erased, [announce]) == Next(After(erased, []), announce);
  }

  // -------------------------------------------------------------------------------------------
  // Orders that are paid
  // -------------------------------------------------------------------------------------------

  /** The order is known and waits for its payment. */
  predicate Open(h: Hero, id: int, keyCode: string) {
    id in h.deals && h.deals[id].keyCode == keyCode && h.deals[id].kind == WaitToPay
  }

  /** A step that decides what becomes of it: a payment, or a request for a new order. */
  predicate Settles(s: Step, id: int) {
    s.Create? || (s.Pay? && s.id == id && s.error == ErrorNo && s.keyCode in s.prices)
  }

  lemma {:induction false} StaysOpen(h: Hero, steps: seq<Step>, i: nat, id: int, keyCode: string)
    requires i <= |steps| && Open(After(h, steps[..i]), id, keyCode)
    requires forall j :: i <= j < |steps| ==> !Settles(steps[j], id)
    ensures Open(After(h, steps), id, keyCode)
  {
    var n := |steps| - 1;
    if i <= n {
      assert steps[..n][..i] == steps[..i];
      StaysOpen(h, steps[..n], i, id, keyCode);
      assert !Settles(steps[n], id);
    } else {
      assert steps[..i] == steps;
    }
  }

  /** In every run: an order that is announced and then notified as paid, before a request for a new order or
      another notification about it, is credited the price of the product named, once. */
  lemma AnnouncedOrderIsPaid(h: Hero, steps: seq<Step>, i: nat)
    requires 0 < |steps| && i < |steps| - 1
    requires steps[i].Announce? && steps[i].error == ErrorNo && steps[i].id !in After(h, steps[..i]).deals
    requires forall j :: i < j < |steps| - 1 ==> !Settles(steps[j], steps[i].id)
    requires var pay := steps[|steps| - 1];
      pay.Pay? && pay.id == steps[i].id && pay.error == ErrorNo && pay.status == 0 && pay.keyCode in pay.prices
    ensures var before, after, pay := After(h, steps[..|steps| - 1]), After(h, steps), steps[|steps| - 1];
      after.gold == before.gold + pay.prices[pay.keyCode].gold && after.jewel == before.jewel + pay.prices[pay.keyCode].jewel &&
      Credited(before, pay) == [Credit(pay.id, pay.prices[pay.keyCode])] &&
      PaidBy(before, pay.prices, pay.keyCode, 0, pay.id, ErrorNo).error == ErrorNo
  {
    var n := |steps| - 1;
    assert steps[..i + 1][..i] == steps[..i] && steps[..n][..i + 1] == steps[..i + 1];
    assert Open(After(h, steps[..i + 1]), steps[i].id, steps[i].keyCode);
    StaysOpen(h, steps[..n], i + 1, steps[i].id, steps[i].keyCode);
  }

  /** A request for a new order forgets exactly the orders that wait for their payment. */
  lemma CreateForgetsIff(h: Hero, id: int)
    requires id in h.deals
    ensures id !in Next(h, Create).deals <==> h.deals[id].kind == WaitToPay
    ensures id in Next(h, Create).deals ==> Next(h, Create).deals[id] == h.deals[id]
  {
  }

  lemma {:induction false} StaysForgotten(h: Hero, steps: seq<Step>, i: nat, id: int)
    requires i <= |steps| && id !in After(h, steps[..i]).deals
    requires forall j :: i <= j < |steps| ==> !(steps[j].Announce? && steps[j].id == id)
    ensures id !in After(h, steps).deals
  {
    var n := |steps| - 1;
    if i <= n {
      assert steps[..n][..i] == steps[..i];
      StaysForgotten(h, steps[..n], i, id);
      assert !(steps[n].Announce? && steps[n].id == id);
    } else {
      assert steps[..i] == steps;
    }
  }

  /** So in every run an order given up for a new one is never credited, unless it is announced again. */
  lemma AbandonedOrderIsNotPaid(h: Hero, steps: seq<Step>, i: nat, id: int, keyCode: string)
    requires i < |steps| - 1 && steps[i].Create? && Open(After(h, steps[..i]), id, keyCode)
    requires forall j :: i < j < |steps| - 1 ==> !(steps[j].Announce? && steps[j].id == id)
    requires steps[|steps| - 1].Pay? && steps[|steps| - 1].id == id
    ensures Credited(After(h, steps[..|steps| - 1]), steps[|steps| - 1]) == []
  {
    var n := |steps| - 1;
    assert steps[..i + 1][..i] == steps[..i] && steps[..n][..i + 1] == steps[..i + 1];
    CreateForgetsIff(After(h, steps[..i]), id);
    StaysForgotten(h, steps[..n], i + 1, id);
  }

  /** An order taken up by the shop, in state WaitPrepareToPay, is credited too; any other order that is known is
      refused, and which error is answered tells why nothing was credited. */
  lemma PaymentAnswers(h: Hero, prices: Prices, keyCode: string, status: int, id: int, error: GameError)
    ensures var p := PaidBy(h, prices, keyCode, status, id, error);
      (p.error == ErrorNo <==> p.credit.Some?) &&
      (p.credit.Some? <==>
        error == ErrorNo && keyCode in prices && id in h.deals && status == 0 && h.deals[id].kind in {WaitToPay, WaitPrepareToPay}) &&
      (p.error == NotFoundConfig <==> error == ErrorNo && keyCode !in prices) &&
      (p.error == NotFoundOrder <==> error == ErrorNo && keyCode in prices && id !in h.deals) &&
      (p.error == OrderCompleted <==>
        error == ErrorNo && keyCode in prices && id in h.deals && status == 0 && h.deals[id].kind == Complete)
  {
  }

  /** A notification of failure for a known product. */
  predicate Fails(s: Step, id: int) {
    s.Pay? && s.id == id && s.error == ErrorNo && s.keyCode in s.prices && s.status != 0
  }

  lemma ClosedStep(h: Hero, s: Step, id: int)
    requires id in h.deals && Closed(h.deals[id].kind)
    ensures id in Next(h, s).deals
    ensures Next(h, s).deals[id].kind == if Fails(s, id) then Failed else h.deals[id].kind
  {
  }

  /** In every run an order that was credited ends as failed exactly when a failure was notified after the
      payment, and as completed otherwise; either way its credit stays (EveryRunCreditsOnce). */
  lemma {:induction false} PaidEndsFailedIff(h: Hero, steps: seq<Step>, i: nat)
    requires i < |steps| && Credited(After(h, steps[..i]), steps[i]) != []
    ensures steps[i].Pay? && steps[i].id in After(h, steps).deals
    ensures After(h, steps).deals[steps[i].id].kind ==
      if exists j :: i < j < |steps| && Fails(steps[j], steps[i].id) then Failed else Complete
  {
    var n := |steps| - 1;
    if i == n {
      CreditCloses(After(h, steps[..n]), steps[n]);
    } else {
      assert steps[..n][..i] == steps[..i];
      PaidEndsFailedIff(h, steps[..n], i);
      hide Next, Fails, Credited;
      ClosedStep(After(h, steps[..n]), steps[n], steps[i].id);
      assert forall j :: i < j < n ==> steps[..n][j] == steps[j];
      assert (exists j :: i < j < |steps| && Fails(steps[j], steps[i].id)) <==>
        (exists j :: i < j < n && Fails(steps[..n][j], steps[i].id)) || Fails(steps[n], steps[i].id);
    }
  }

  /** Paid, then notified as failed: the order has failed, and the gold is there. */
  lemma FailedOrderIsPaid()
    ensures
      var prices: Prices := map["small" := Amount(10, 0)];
      var steps := [Announce("small", 0, 6, 1, ErrorNo), Pay(prices, "small", 0, 1, ErrorNo), Pay(prices, "small", 1, 1, ErrorNo)];
      var end := After(Hero(map[], 0, 0), steps);
      1 in end.deals && end.deals[1].kind == Failed && end.gold == 10
  {
    var prices: Prices := map["small" := Amount(10, 0)];
    var steps := [Announce("small", 0, 6, 1, ErrorNo), Pay(prices, "small", 0, 1, ErrorNo), Pay(prices, "small", 1, 1, ErrorNo)];
    assert steps[..2] == [steps[0], steps[1]] && steps[..2][..1] == [steps[0]] && [steps[0]][..0] == [];
    var ordered := After(Hero(map[], 0, 0), [steps[0]]);
    assert ordered == Next(After(Hero(map[], 0, 0), []), steps[0]);
    assert After(Hero(map[], 0, 0), steps[..2]) == Next(ordered, steps[1]);
  }

  // -------------------------------------------------------------------------------------------
  // The object
  // -------------------------------------------------------------------------------------------

  class DreamHero {
    var deals: map<int, Deal>
    var gold: int
    var jewel: int

    function Abs(): Hero
      reads this
    {
      Hero(deals, gold, jewel)
    }

    method AddDealPay(prices: Prices, keyCode: string, status: int, id: int, en: GameError)
      returns (error: GameError, added: Amount)
      modifies this
      ensures var p := PaidBy(old(Abs()), prices, keyCode, status, id, en);
        Abs() == p.hero && error == p.error && added == if p.credit.Some? then p.credit.value.amount else Amount(0, 0)
    {
      error, added := en, Amount(0, 0);
      if error == ErrorNo {
        if keyCode in prices {
          if id in deals {
            var entry := deals[id];
            if status == 0 {
              if entry.kind == WaitToPay || entry.kind == WaitPrepareToPay {
                deals := deals[id := entry.(kind := Complete)];
                added := prices[keyCode];
                gold := gold + added.gold;
                jewel := jewel + added.jewel;
                error := ErrorNo;
              } else if entry.kind == Complete {
                error := OrderCompleted;
              } else {
                error := Unknow;
              }
            } else {
              deals := deals[id := entry.(kind := Failed)];
              error := Unknow;
            }
          } else {
            error := NotFoundOrder;
          }
        } else {
          error := NotFoundConfig;
        }
      } else {
        error := Unknow;
      }
    }

    method AddDealWaitToPay(keyCode: string, status: int, price: int, id: int, error: GameError)
      modifies this`deals
      ensures Abs() == WithOrder(old(Abs()), keyCode, status, price, id, error)
    {
      if error == ErrorNo {
        if id !in deals {
          deals := deals[id := Deal(keyCode, status, price, WaitToPay)];
        }
      }
    }

    method ReqCreateDeal()
      modifies this`deals
      ensures Abs() == WithoutWaiting(old(Abs()))
    {
      var todo := deals;
      while todo != map[]
        invariant forall id :: id in todo ==> id in deals && todo[id] == deals[id]
        invariant deals.Keys <= old(deals).Keys
        invariant forall id :: id in old(deals) && id !in todo ==> (id in deals <==> old(deals)[id].kind != WaitToPay)
        invariant forall id :: id in deals ==> deals[id] == old(deals)[id]
        decreases todo.Keys
      {
        var it :| it in todo.Items;
        todo := todo - {it.0};
        if it.1.kind == WaitToPay {
          deals := deals - {it.0};
        }
      }
      assert forall id :: id !in todo;
      ghost var kept := WithoutWaiting(old(Abs())).deals;
      assert forall id :: id in kept <==> id in old(deals) && old(deals)[id].kind != WaitToPay;
      assert forall id :: id in deals <==> id in old(deals) && old(deals)[id].kind != WaitToPay;
      assert forall id :: id in deals ==> deals[id] == kept[id];
      SameMap(deals, kept);
    }
  }
}
