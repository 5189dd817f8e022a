/** The daily lottery (DreamHero::ReqDayLottery), a weighted draw by a map from prefix sums to prizes, and
    the purchase of lotions (DreamHero::ReqBuyLotion). */
module Lottery {
  import opened Collections
  import opened HeroData

  datatype PrizeKind = Lotion | Gold | Jewel | Nothing

  /** `rating` is the weight; `index` is the lotion, for a prize that is one; the others pay `base` and a
      random part below `random`. */
  datatype Prize = Prize(kind: PrizeKind, index: int, rating: int, base: int, random: int)

  // -------------------------------------------------------------------------------------------
  // The draw
  // -------------------------------------------------------------------------------------------

  /** The weights before prize `i`. */
  function Start(ps: seq<Prize>, i: nat): int
    requires i <= |ps|
  {
    if i == 0 then 0 else Start(ps, i - 1) + ps[i - 1].rating
  }

  function Total(ps: seq<Prize>): int { Start(ps, |ps|) }

  /** Of the first `n` prizes the one that starts last at or before `x`, and the latest of those. */
  function PickedFrom(ps: seq<Prize>, n: nat, x: int): (i: nat)
    requires n <= |ps|
    ensures i < n || i == 0
  {
    if n <= 1 then 0
    else
      var i := PickedFrom(ps, n - 1, x);
      if Start(ps, n - 1) <= x && Start(ps, i) <= Start(ps, n - 1) then n - 1 else i
  }

  function Picked(ps: seq<Prize>, x: int): (i: nat)
    requires ps != []
    ensures i < |ps|
  {
    PickedFrom(ps, |ps|, x)
  }

  lemma {:induction false} PickedIsGreatest(ps: seq<Prize>, n: nat, x: int, j: nat)
    requires j < n <= |ps| && x >= 0
    ensures var i := PickedFrom(ps, n, x);
      Start(ps, i) <= x && (Start(ps, j) <= x ==> Start(ps, j) < Start(ps, i) || (Start(ps, j) == Start(ps, i) && j <= i))
  {
    if n > 1 {
      PickedIsGreatest(ps, n - 1, x, if j < n - 1 then j else 0);
    }
  }

  /** No weight is negative. */
  predicate Weighted(ps: seq<Prize>) { forall i :: 0 <= i < |ps| ==> ps[i].rating >= 0 }

  lemma {:induction false} StartGrows(ps: seq<Prize>, i: nat, j: nat)
    requires Weighted(ps) && i <= j <= |ps|
    ensures Start(ps, i) <= Start(ps, j)
  {
    if i < j {
      StartGrows(ps, i, j - 1);
    }
  }

  /** The residues that a prize owns, when no weight is negative. */
  predicate Owns(ps: seq<Prize>, i: nat, x: int) {
    i < |ps| && Start(ps, i) <= x < Start(ps, i + 1)
  }

  lemma OwnerIsUnique(ps: seq<Prize>, i: nat, j: nat, x: int)
    requires Weighted(ps) && Owns(ps, i, x) && Owns(ps, j, x)
    ensures i == j
  {
    if i < j {
      StartGrows(ps, i + 1, j);
    } else if j < i {
      StartGrows(ps, j + 1, i);
    }
  }

  /** Every residue has an owner, whose weight is positive. */
  lemma {:induction false} EveryResidueIsOwned(ps: seq<Prize>, x: int, n: nat) returns (i: nat)
    requires n <= |ps| && 0 <= x < Start(ps, n)
    ensures i < n && Owns(ps, i, x) && ps[i].rating > 0
  {
    if x < Start(ps, n - 1) {
      i := EveryResidueIsOwned(ps, x, n - 1);
    } else {
      i := n - 1;
    }
  }

  /** The prize picked is the owner of the residue. */
  lemma PickedIsOwner(ps: seq<Prize>, x: int)
    requires Weighted(ps) && ps != [] && 0 <= x < Total(ps)
    ensures Owns(ps, Picked(ps, x), x)
  {
    var i := Picked(ps, x);
    var j := EveryResidueIsOwned(ps, x, |ps|);
    PickedIsGreatest(ps, |ps|, x, j);
    if j < i {
      StartGrows(ps, j + 1, i);
    } else if i < j {
      StartGrows(ps, i, j);
    }
  }

  /** For how many residues prize `i` is picked. */
  ghost function Chances(ps: seq<Prize>, i: nat): nat
    requires ps != []
  {
    |set x: nat | x < Total(ps) && Picked(ps, x) == i|
  }

  predicate Within(x: nat, from: nat, to: nat) { from <= x < to }

  ghost function Interval(from: nat, to: nat): set<nat> {
    set x: nat | x < to && Within(x, from, to)
  }

  lemma {:induction false} IntervalSize(from: nat, to: nat)
    requires from <= to
    ensures |Interval(from, to)| == to - from
  {
    if from == to {
      assert Interval(from, to) == {};
    } else {
      IntervalSize(from, to - 1);
      assert Interval(from, to) == Interval(from, to - 1) + {to - 1};
    }
  }

  lemma DrawnByWeight(ps: seq<Prize>, i: nat)
    requires Weighted(ps) && i < |ps|
    ensures Chances(ps, i) == ps[i].rating
  {
    hide Start, Picked;
    StartIsZero(ps);
    StartGrows(ps, 0, i);
    StartGrows(ps, i, i + 1);
    StartGrows(ps, i + 1, |ps|);
    IntervalSize(Start(ps, i), Start(ps, i + 1));
    forall x: nat | x < Total(ps)
      ensures Picked(ps, x) == i <==> Within(x, Start(ps, i), Start(ps, i + 1))
    {
      PickedIsOwner(ps, x);
      if Owns(ps, i, x) {
        OwnerIsUnique(ps, i, Picked(ps, x), x);
      }
    }
    assert (set x: nat | x < Total(ps) && Picked(ps, x) == i) == Interval(Start(ps, i), Start(ps, i + 1));
    StartStep(ps, i);
  }

  lemma StartIsZero(ps: seq<Prize>)
    ensures Start(ps, 0) == 0
  {
  }

  lemma StartStep(ps: seq<Prize>, i: nat)
    requires i < |ps|
    ensures Start(ps, i + 1) == Start(ps, i) + ps[i].rating
  {
  }

  /** Each prize is drawn by its weight exactly when no weight is negative. */
  lemma FairIff(ps: seq<Prize>)
    requires ps != []
    ensures (forall i: nat :: i < |ps| ==> Chances(ps, i) == ps[i].rating) <==> Weighted(ps)
  {
    if Weighted(ps) {
      forall i: nat | i < |ps|
        ensures Chances(ps, i) == ps[i].rating
      {
        DrawnByWeight(ps, i);
      }
    } else {
      var k :| 0 <= k < |ps| && ps[k].rating < 0;
      assert Chances(ps, k) != ps[k].rating;
    }
  }

  // -------------------------------------------------------------------------------------------
  // The draw as it is written: a std::map of starts, walked from the front
  // -------------------------------------------------------------------------------------------

  /** A std::map as the list of its entries in the order of the keys. */
  type Table = seq<(int, nat)>

  predicate Sorted(t: Table) { forall j, k :: 0 <= j < k < |t| ==> t[j].0 < t[k].0 }

  /** Assignment to `map[key]`. */
  function Assigned(t: Table, key: int, prize: nat): Table {
    if t == [] then [(key, prize)]
    else
      var n := |t| - 1;
      if t[n].0 < key then t + [(key, prize)]
      else if t[n].0 == key then t[..n] + [(key, prize)]
      else Assigned(t[..n], key, prize) + [t[n]]
  }

  /** The last entry whose key is not above `x`. */
  function Walk(t: Table, x: int): Option<(int, nat)> {
    if t == [] then None
    else if t[|t| - 1].0 <= x then Some(t[|t| - 1])
    else Walk(t[..|t| - 1], x)
  }

  lemma {:induction false} AssignedIsSorted(t: Table, key: int, prize: nat, bound: int)
    requires Sorted(t) && key < bound && forall k :: 0 <= k < |t| ==> t[k].0 < bound
    ensures Sorted(Assigned(t, key, prize)) && forall k :: 0 <= k < |Assigned(t, key, prize)| ==> Assigned(t, key, prize)[k].0 < bound
  {
    if t != [] && t[|t| - 1].0 > key {
      AssignedIsSorted(t[..|t| - 1], key, prize, t[|t| - 1].0);
    }
  }

  lemma {:induction false} WalkBelow(t: Table, x: int)
    requires Sorted(t)
    ensures Walk(t, x).Some? ==> Walk(t, x).value.0 <= x && (t != [] ==> Walk(t, x).value.0 <= t[|t| - 1].0)
  {
    if t != [] && t[|t| - 1].0 > x {
      WalkBelow(t[..|t| - 1], x);
    }
  }

  lemma WalkMore(t: Table, e: (int, nat), x: int)
    ensures Walk(t + [e], x) == if e.0 <= x then Some(e) else Walk(t, x)
  {
    assert (t + [e])[..|t|] == t;
  }

  lemma {:induction false} WalkAssigned(t: Table, key: int, prize: nat, x: int)
    requires Sorted(t)
    ensures Walk(Assigned(t, key, prize), x) ==
      var w := Walk(t, x);
      if key <= x && (w == None || w.value.0 <= key) then Some((key, prize)) else w
  {
    hide Walk;
    if t == [] {
      EmptyTable(x);
      WalkMore([], (key, prize), x);
      assert [] + [(key, prize)] == [(key, prize)];
    } else {
      var n := |t| - 1;
      assert t == t[..n] + [t[n]];
      WalkMore(t[..n], t[n], x);
      if t[n].0 < key {
        WalkBelow(t, x);
        WalkMore(t, (key, prize), x);
      } else if t[n].0 == key {
        WalkMore(t[..n], (key, prize), x);
        BelowLast(t, x);
      } else {
        WalkMore(Assigned(t[..n], key, prize), t[n], x);
        WalkAssigned(t[..n], key, prize, x);
      }
    }
  }

  /** What is found before the last entry has a smaller key. */
  lemma {:induction false} BelowLast(t: Table, x: int)
    requires Sorted(t) && t != []
    ensures var w := Walk(t[..|t| - 1], x); w.Some? ==> w.value.0 < t[|t| - 1].0
  {
    if |t| > 1 {
      WalkBelow(t[..|t| - 1], x);
    }
  }

  /** The table of the first `n` prizes finds the prize picked from them. */
  ghost predicate Finds(ps: seq<Prize>, n: nat, t: Table, x: int)
    requires n <= |ps|
  {
    Walk(t, x) == if n == 0 then None else Some((Start(ps, PickedFrom(ps, n, x)), PickedFrom(ps, n, x)))
  }

  lemma FindsMore(ps: seq<Prize>, n: nat, t: Table, x: int)
    requires n < |ps| && x >= 0 && Sorted(t) && Finds(ps, n, t, x)
    ensures Finds(ps, n + 1, Assigned(t, Start(ps, n), n), x)
  {
    WalkAssigned(t, Start(ps, n), n, x);
    if n > 0 {
      PickedIsGreatest(ps, n, x, 0);
    }
  }

  method Draw(ps: seq<Prize>, rand: nat) returns (picked: Option<nat>)
    requires ps != []
    ensures picked == if Total(ps) <= 0 then None else Some(Picked(ps, rand % Total(ps)))
  {
    hide Walk, Assigned, Sorted, PickedFrom;
    var t: Table := [];
    var rating := 0;
    ghost var x := if Total(ps) > 0 then rand % Total(ps) else 0;
    EmptyTable(x);
    for n := 0 to |ps|
      invariant rating == Start(ps, n) && Sorted(t) && Finds(ps, n, t, x)
    {
      FindsMore(ps, n, t, x);
      AssignKeepsSorted(t, rating, n);
      t := Assigned(t, rating, n);
      rating := rating + ps[n].rating;
    }
    if rating <= 0 {
      return None;
    }
    var found := WalkTable(t, rand % rating);
    assert found == Walk(t, x);
    return Some(found.value.1);
  }

  lemma EmptyTable(x: int)
    ensures Sorted([]) && Walk([], x) == None
  {
  }

  lemma AssignKeepsSorted(t: Table, key: int, prize: nat)
    requires Sorted(t)
    ensures Sorted(Assigned(t, key, prize))
  {
    var last := if t == [] then key else t[|t| - 1].0;
    AssignedIsSorted(t, key, prize, if last < key then key + 1 else last + 1);
  }

  /** The loop over the table. */
  method WalkTable(t: Table, x: int) returns (entry: Option<(int, nat)>)
    requires Sorted(t)
    ensures entry == Walk(t, x)
  {
    entry := None;
    for k := 0 to |t|
      invariant entry == Walk(t[..k], x)
    {
      assert t[..k + 1][..k] == t[..k];
      if t[k].0 > x {
        WalkStops(t, x, k);
        return;
      }
      entry := Some(t[k]);
    }
    assert t[..|t|] == t;
  }

  lemma {:induction false} WalkStops(t: Table, x: int, k: nat)
    requires Sorted(t) && k < |t| && t[k].0 > x
    ensures Walk(t, x) == Walk(t[..k], x)
  {
    var n := |t| - 1;
    if k < n {
      WalkStops(t[..n], x, k);
      assert t[..n][..k] == t[..k];
    }
  }

  // -------------------------------------------------------------------------------------------
  // The requests
  // -------------------------------------------------------------------------------------------

  /** A lotion that is held takes no part. */
  predicate TakesPart(p: Prize, lotions: seq<int>) { p.kind == Lotion ==> p.index !in lotions }

  function Offered(configs: seq<Prize>, lotions: seq<int>): (r: seq<Prize>)
    ensures forall i :: 0 <= i < |r| ==> TakesPart(r[i], lotions)
  {
    if configs == [] then []
    else
      var n := |configs| - 1;
      Offered(configs[..n], lotions) + if TakesPart(configs[n], lotions) then [configs[n]] else []
  }

  method Offer(configs: seq<Prize>, lotions: seq<int>) returns (r: seq<Prize>)
    ensures r == Offered(configs, lotions)
  {
    r := [];
    for n := 0 to |configs|
      invariant r == Offered(configs[..n], lotions)
    {
      assert configs[..n + 1][..n] == configs[..n];
      if configs[n].kind == Lotion {
        var found := Held(lotions, configs[n].index);
        if !found {
          r := r + [configs[n]];
        }
      } else {
        r := r + [configs[n]];
      }
    }
    assert configs[..|configs|] == configs;
  }

  /** The loop that looks for a lotion among the ones held. */
  method Held(lotions: seq<int>, id: int) returns (found: bool)
    ensures found <==> id in lotions
  {
    found := false;
    for i := 0 to |lotions|
      invariant found <==> id in lotions[..i]
    {
      if lotions[i] == id {
        found := true;
      }
    }
    assert lotions[..|lotions|] == lotions;
  }

  datatype LotteryError = LotteryNo | AlreadyToday | NothingOffered | NoWeight | BadLotion

  /** What a prize that is not a lotion pays; `random` is a second value of rand(). */
  function Amount(p: Prize, random: nat): int {
    p.base + if p.random > 0 then random % p.random else 0
  }

  /** What winning a prize makes of the player. */
  function Won(p: Player, prize: Prize, random: nat): (Player, LotteryError) {
    match prize.kind
    case Lotion =>
      if 0 <= prize.index <= 3 then (p.(lotions := p.lotions + [prize.index]), LotteryNo) else (p, BadLotion)
    case Gold => (p.(hero := p.hero.(gold := p.hero.gold + Amount(prize, random))), LotteryNo)
    case Jewel => (p.(jewel := p.jewel + Amount(prize, random)), LotteryNo)
    case Nothing => (p, LotteryNo)
  }

  /** `ReqDayLottery`; `today` is whether the last draw was today. */
  function Drawn(p: Player, configs: seq<Prize>, today: bool, now: int, rand: nat, random: nat): (Player, LotteryError) {
    var ps := Offered(configs, p.lotions);
    if today then (p, AlreadyToday)
    else if ps == [] then (p, NothingOffered)
    else if Total(ps) <= 0 then (p, NoWeight)
    else Won(p.(lotteryTime := now), ps[Picked(ps, rand % Total(ps))], random)
  }

  datatype Currency = ForGold | ForJewel | ForNothing

  datatype LotionPrice = LotionPrice(currency: Currency, count: int)

  datatype BuyError = BuyNo | NoSuchLotion | AlreadyHeld | TooLittleJewel | TooLittleGold

  /** `ReqBuyLotion`. */
  function Bought(p: Player, shop: map<int, LotionPrice>, id: int): (Player, BuyError) {
    if !(0 <= id <= 3) || id !in shop then (p, NoSuchLotion)
    else if id in p.lotions then (p, AlreadyHeld)
    else
      var q := p.(lotions := p.lotions + [id]);
      match shop[id].currency
      case ForJewel => if p.jewel < shop[id].count then (p, TooLittleJewel) else (q.(jewel := p.jewel - shop[id].count), BuyNo)
      case ForGold =>
        if p.hero.gold < shop[id].count then (p, TooLittleGold)
        else (q.(hero := p.hero.(gold := p.hero.gold - shop[id].count)), BuyNo)
      case ForNothing => (q, BuyNo)
  }

  // -------------------------------------------------------------------------------------------
  // What a prize pays, and what a lotion costs
  // -------------------------------------------------------------------------------------------

  /** At least the base, and less than the base plus the random part; the base alone if there is none. */
  predicate PaidFor(prize: Prize, paid: int) {
    prize.base <= paid && (if prize.random > 0 then paid < prize.base + prize.random else paid == prize.base)
  }

  /** Every draw without error takes one of the prizes that may be won, pays that prize and nothing else, and
      notes the time. */
  lemma DrawPays(p: Player, configs: seq<Prize>, today: bool, now: int, rand: nat, random: nat) returns (prize: Prize)
    requires Drawn(p, configs, today, now, rand, random).1 == LotteryNo
    ensures !today && prize in configs && (prize.kind == Lotion ==> prize.index !in p.lotions && 0 <= prize.index <= 3)
    ensures var q := Drawn(p, configs, today, now, rand, random).0;
      q == p.(lotteryTime := now, hero := p.hero.(gold := q.hero.gold), jewel := q.jewel, lotions := q.lotions) &&
      (if prize.kind == Gold then PaidFor(prize, q.hero.gold - p.hero.gold) else q.hero.gold == p.hero.gold) &&
      (if prize.kind == Jewel then PaidFor(prize, q.jewel - p.jewel) else q.jewel == p.jewel) &&
      q.lotions == if prize.kind == Lotion then p.lotions + [prize.index] else p.lotions
  {
    hide Offered, Start, Picked;
    var ps := Offered(configs, p.lotions);
    prize := ps[Picked(ps, rand % Total(ps))];
    OfferedAreConfigured(configs, p.lotions);
    assert TakesPart(prize, p.lotions);
  }

  lemma {:induction false} OfferedAreConfigured(configs: seq<Prize>, lotions: seq<int>)
    ensures forall x :: x in Offered(configs, lotions) <==> x in configs && TakesPart(x, lotions)
  {
    if configs != [] {
      var n := |configs| - 1;
      OfferedAreConfigured(configs[..n], lotions);
      assert configs == configs[..n] + [configs[n]];
    }
  }

  /** A draw fails on the same day, without prizes or weights, or for a lotion that does not exist; the time is
      noted in the last case, and nothing else changes. */
  lemma FailedDraw(p: Player, configs: seq<Prize>, today: bool, now: int, rand: nat, random: nat)
    ensures var (q, e) := Drawn(p, configs, today, now, rand, random);
      (e == AlreadyToday <==> today) &&
      (e == NothingOffered <==> !today && forall i :: 0 <= i < |configs| ==> !TakesPart(configs[i], p.lotions)) &&
      (e != LotteryNo ==> q == if e == BadLotion then p.(lotteryTime := now) else p)
  {
    hide Start, Picked;
    OfferedAreConfigured(configs, p.lotions);
    var ps := Offered(configs, p.lotions);
    if ps != [] {
      assert ps[0] in configs && TakesPart(ps[0], p.lotions);
    } else {
      assert forall i :: 0 <= i < |configs| ==> configs[i] in configs;
    }
  }

  /** A purchase succeeds exactly when the lotion is sold, not held, and can be paid; it costs its price, in
      its currency, and a purchase that fails costs nothing. */
  lemma BuyCosts(p: Player, shop: map<int, LotionPrice>, id: int)
    ensures var (q, e) := Bought(p, shop, id);
      var price := if id in shop then shop[id] else LotionPrice(ForNothing, 0);
      (e == BuyNo <==>
        id in shop && 0 <= id <= 3 && id !in p.lotions &&
        (price.currency == ForGold ==> price.count <= p.hero.gold) && (price.currency == ForJewel ==> price.count <= p.jewel)) &&
      q.hero.gold == p.hero.gold - (if e == BuyNo && price.currency == ForGold then price.count else 0) &&
      q.jewel == p.jewel - (if e == BuyNo && price.currency == ForJewel then price.count else 0) &&
      q.lotions == (if e == BuyNo then p.lotions + [id] else p.lotions) &&
      q == p.(hero := p.hero.(gold := q.hero.gold), jewel := q.jewel, lotions := q.lotions)
  {
  }

  // -------------------------------------------------------------------------------------------
  // Lotions stay distinct
  // -------------------------------------------------------------------------------------------

  ghost predicate DistinctLotions(lotions: seq<int>) {
    && (forall i, j :: 0 <= i < j < |lotions| ==> lotions[i] != lotions[j])
    && forall i :: 0 <= i < |lotions| ==> 0 <= lotions[i] <= 3
  }

  lemma DrawKeepsDistinct(p: Player, configs: seq<Prize>, today: bool, now: int, rand: nat, random: nat)
    requires DistinctLotions(p.lotions)
    ensures DistinctLotions(Drawn(p, configs, today, now, rand, random).0.lotions)
  {
    hide Start, Offered, Picked;
    var ps := Offered(configs, p.lotions);
    if !today && ps != [] && Total(ps) > 0 {
      assert TakesPart(ps[Picked(ps, rand % Total(ps))], p.lotions);
    }
  }

  lemma BuyKeepsDistinct(p: Player, shop: map<int, LotionPrice>, id: int)
    requires DistinctLotions(p.lotions)
    ensures DistinctLotions(Bought(p, shop, id).0.lotions)
  {
  }
}
