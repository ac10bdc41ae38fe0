/** The greedy plan maximises the gains from trade: no feasible allocation does better. */
module MatchingOptimality {
  import opened Rows
  import opened Matching
  import opened MatchingTheory

  // `quantity` units from the sell at one index of the input to the buy at another.
  datatype Allocation = Allocation(buy: nat, sell: nat, quantity: nat)

  // What an order can trade: nothing on the wrong side or with nothing left.
  function Cap(side: Side, q: Quote): nat { if Eligible(side, q) then q.remaining else 0 }

  function Place(side: Side, a: Allocation): nat { if side.Buy? then a.buy else a.sell }

  function Allocated(side: Side, allocs: seq<Allocation>, at: nat): nat {
    if allocs == [] then 0
    else (if Place(side, allocs[0]) == at then allocs[0].quantity else 0) + Allocated(side, allocs[1..], at)
  }

  ghost predicate InRange(buys: seq<Quote>, sells: seq<Quote>, allocs: seq<Allocation>) {
    forall k :: 0 <= k < |allocs| ==> allocs[k].buy < |buys| && allocs[k].sell < |sells|
  }

  ghost predicate WithinCap(side: Side, s: seq<Quote>, allocs: seq<Allocation>) {
    forall i :: 0 <= i < |s| ==> Allocated(side, allocs, i) <= Cap(side, s[i])
  }

  // Goods move only inside a region, and no order trades more than it has left.
  ghost predicate Feasible(buys: seq<Quote>, sells: seq<Quote>, allocs: seq<Allocation>) {
    && InRange(buys, sells, allocs)
    && WithinCap(Buy, buys, allocs) && WithinCap(Sell, sells, allocs)
    && forall k :: 0 <= k < |allocs| ==> buys[allocs[k].buy].region == sells[allocs[k].sell].region
  }

  function Gain(buys: seq<Quote>, sells: seq<Quote>, allocs: seq<Allocation>): int
    requires InRange(buys, sells, allocs)
  {
    if allocs == [] then 0
    else allocs[0].quantity * (buys[allocs[0].buy].price - sells[allocs[0].sell].price)
         + Gain(buys, sells, allocs[1..])
  }

  function PairingGain(ps: seq<Pairing>): int {
    if ps == [] then 0 else ps[0].quantity * (ps[0].buy.price - ps[0].sell.price) + PairingGain(ps[1..])
  }

  // What one unit of an order gains against the outside price p.
  function Edge(side: Side, price: int, p: int): nat {
    Max(0, if side.Buy? then price - p else p - price)
  }

  // The dual value of one side of the book at the price p.
  function Surplus(side: Side, s: seq<Quote>, p: int): int {
    if s == [] then 0 else Cap(side, s[0]) * Edge(side, s[0].price, p) + Surplus(side, s[1..], p)
  }

  // ---------------------------------------------------------------- every allocation is below the dual

  function Reduce(s: seq<Quote>, at: nat, quantity: nat): seq<Quote>
    requires at < |s|
  {
    s[at := s[at].(remaining := s[at].remaining - quantity)]
  }

  lemma {:induction false} SurplusOfReduced(side: Side, s: seq<Quote>, at: nat, quantity: nat, p: int)
    requires at < |s| && quantity <= Cap(side, s[at])
    ensures Surplus(side, s, p) == Surplus(side, Reduce(s, at, quantity), p) + quantity * Edge(side, s[at].price, p)
    ensures quantity > 0 ==> Cap(side, Reduce(s, at, quantity)[at]) == Cap(side, s[at]) - quantity
  {
    var t := Reduce(s, at, quantity);
    var edge := Edge(side, s[at].price, p);
    if at == 0 {
      assert t[1..] == s[1..];
      assert Cap(side, t[0]) == Cap(side, s[0]) - quantity;
      assert Cap(side, s[0]) * edge == (Cap(side, s[0]) - quantity) * edge + quantity * edge;
    } else {
      SurplusOfReduced(side, s[1..], at - 1, quantity, p);
      assert t[1..] == Reduce(s[1..], at - 1, quantity);
    }
  }

  lemma {:induction false} SurplusNonNegative(side: Side, s: seq<Quote>, p: int)
    ensures Surplus(side, s, p) >= 0
  {
    if s != [] {
      SurplusNonNegative(side, s[1..], p);
      assert Cap(side, s[0]) * Edge(side, s[0].price, p) >= 0;
    }
  }

  lemma WithinCapAfter(side: Side, s: seq<Quote>, allocs: seq<Allocation>)
    requires allocs != [] && Place(side, allocs[0]) < |s| && WithinCap(side, s, allocs)
    ensures allocs[0].quantity <= Cap(side, s[Place(side, allocs[0])])
    ensures WithinCap(side, Reduce(s, Place(side, allocs[0]), allocs[0].quantity), allocs[1..])
  {
    var at, quantity := Place(side, allocs[0]), allocs[0].quantity;
    assert Allocated(side, allocs, at) <= Cap(side, s[at]);
    var t := Reduce(s, at, quantity);
    forall i | 0 <= i < |t| ensures Allocated(side, allocs[1..], i) <= Cap(side, t[i]) {
      assert Allocated(side, allocs, i) <= Cap(side, s[i]);
    }
  }

  lemma {:induction false} GainIgnoresRemainders(
    buys: seq<Quote>, sells: seq<Quote>, buys': seq<Quote>, sells': seq<Quote>, allocs: seq<Allocation>)
    requires |buys| == |buys'| && |sells| == |sells'| && InRange(buys, sells, allocs)
    requires forall i :: 0 <= i < |buys| ==> buys[i].price == buys'[i].price
    requires forall j :: 0 <= j < |sells| ==> sells[j].price == sells'[j].price
    ensures Gain(buys, sells, allocs) == Gain(buys', sells', allocs)
  {
    if allocs != [] {
      GainIgnoresRemainders(buys, sells, buys', sells', allocs[1..]);
    }
  }

  lemma UnitGain(quantity: nat, buy: int, sell: int, p: int)
    ensures quantity * (buy - sell) <= quantity * Edge(Buy, buy, p) + quantity * Edge(Sell, sell, p)
  {
    var edges := Edge(Buy, buy, p) + Edge(Sell, sell, p);
    assert buy - sell <= edges;
    assert quantity * (buy - sell) <= quantity * edges;
    assert quantity * edges == quantity * Edge(Buy, buy, p) + quantity * Edge(Sell, sell, p);
  }

  // Weak duality.
  lemma {:induction false} GainBelowSurplus(buys: seq<Quote>, sells: seq<Quote>, allocs: seq<Allocation>, p: int)
    requires InRange(buys, sells, allocs) && WithinCap(Buy, buys, allocs) && WithinCap(Sell, sells, allocs)
    ensures Gain(buys, sells, allocs) <= Surplus(Buy, buys, p) + Surplus(Sell, sells, p)
    decreases |allocs|
  {
    if allocs == [] {
      SurplusNonNegative(Buy, buys, p);
      SurplusNonNegative(Sell, sells, p);
    } else {
      var a := allocs[0];
      WithinCapAfter(Buy, buys, allocs);
      WithinCapAfter(Sell, sells, allocs);
      SurplusOfReduced(Buy, buys, a.buy, a.quantity, p);
      SurplusOfReduced(Sell, sells, a.sell, a.quantity, p);
      var buys', sells' := Reduce(buys, a.buy, a.quantity), Reduce(sells, a.sell, a.quantity);
      GainBelowSurplus(buys', sells', allocs[1..], p);
      GainIgnoresRemainders(buys, sells, buys', sells', allocs[1..]);
      UnitGain(a.quantity, buys[a.buy].price, sells[a.sell].price, p);
    }
  }

  // ---------------------------------------------------------------- the plan reaches the dual

  ghost predicate AllOn(side: Side, s: seq<Quote>) { forall i :: 0 <= i < |s| ==> s[i].side == side }

  ghost predicate NoneBetter(side: Side, s: seq<Quote>, p: int) {
    forall i :: 0 <= i < |s| ==> if side.Buy? then s[i].price <= p else s[i].price >= p
  }

  lemma {:induction false} NoEdgeNoSurplus(side: Side, s: seq<Quote>, p: int)
    requires NoneBetter(side, s, p)
    ensures Surplus(side, s, p) == 0
  {
    if s != [] {
      assert Edge(side, s[0].price, p) == 0;
      NoEdgeNoSurplus(side, s[1..], p);
    }
  }

  lemma SurplusStep(side: Side, s: seq<Quote>, quantity: int, p: int)
    requires s != [] && Positive(s) && AllOn(side, s) && 0 < quantity <= s[0].remaining
    ensures AllOn(side, After(s, quantity))
    ensures Surplus(side, s, p) == Surplus(side, After(s, quantity), p) + quantity * Edge(side, s[0].price, p)
  {
    SurplusOfReduced(side, s, 0, quantity, p);
    var t := Reduce(s, 0, quantity);
    assert t == [t[0]] + s[1..];
    if s[0].remaining == quantity {
      assert Surplus(side, t, p) == Surplus(side, t[1..], p);
      assert t[1..] == s[1..];
    }
  }

  // There is a price, within any bounds that bracket the book, at which the greedy matching attains the dual.
  lemma {:induction false} ClearingPrice(bs: seq<Quote>, ss: seq<Quote>, low: int, high: int) returns (p: int)
    requires Positive(bs) && Positive(ss) && DistinctIds(bs) && DistinctIds(ss)
    requires Sorted(Buy, bs) && Sorted(Sell, ss) && AllOn(Buy, bs) && AllOn(Sell, ss)
    requires low <= high && NoneBetter(Buy, bs, high) && NoneBetter(Sell, ss, low)
    ensures low <= p <= high
    ensures PairingGain(Cross(bs, ss)) == Surplus(Buy, bs, p) + Surplus(Sell, ss, p)
    decreases |bs| + |ss|
  {
    if bs == [] {
      p := low;
      NoEdgeNoSurplus(Sell, ss, p);
    } else if ss == [] {
      p := high;
      NoEdgeNoSurplus(Buy, bs, p);
    } else if bs[0].price < ss[0].price {
      p := Max(low, bs[0].price);
      BestFirst(Buy, bs);
      BestFirst(Sell, ss);
      NoEdgeNoSurplus(Buy, bs, p);
      NoEdgeNoSurplus(Sell, ss, p);
    } else {
      p := ClearingStep(bs, ss, low, high);
    }
  }

  lemma BestFirst(side: Side, s: seq<Quote>)
    requires s != [] && Sorted(side, s)
    ensures NoneBetter(side, s, s[0].price)
  {
    forall i | 0 <= i < |s| ensures if side.Buy? then s[i].price <= s[0].price else s[i].price >= s[0].price {
      assert i == 0 || Ahead(side, s[0], s[i]);
    }
  }

  lemma NoneBetterAfter(side: Side, s: seq<Quote>, quantity: int, p: int)
    requires s != [] && 0 < quantity <= s[0].remaining && NoneBetter(side, s, p)
    ensures NoneBetter(side, After(s, quantity), p)
  {
  }

  lemma {:induction false} ClearingStep(bs: seq<Quote>, ss: seq<Quote>, low: int, high: int) returns (p: int)
    requires Positive(bs) && Positive(ss) && DistinctIds(bs) && DistinctIds(ss)
    requires Sorted(Buy, bs) && Sorted(Sell, ss) && AllOn(Buy, bs) && AllOn(Sell, ss)
    requires low <= high && NoneBetter(Buy, bs, high) && NoneBetter(Sell, ss, low)
    requires bs != [] && ss != [] && bs[0].price >= ss[0].price
    ensures low <= p <= high
    ensures PairingGain(Cross(bs, ss)) == Surplus(Buy, bs, p) + Surplus(Sell, ss, p)
    decreases |bs| + |ss|, 0
  {
    var quantity := Min(bs[0].remaining, ss[0].remaining);
    BookAfterBest(Buy, bs, quantity);
    BookAfterBest(Sell, ss, quantity);
    p := ClearingPrice(After(bs, quantity), After(ss, quantity), ss[0].price, bs[0].price);
    SurplusStep(Buy, bs, quantity, p);
    SurplusStep(Sell, ss, quantity, p);
    EdgesMeet(quantity, bs[0].price, ss[0].price, p);
    assert bs[0].price <= high && low <= ss[0].price;
  }

  lemma BookAfterBest(side: Side, s: seq<Quote>, quantity: int)
    requires s != [] && Positive(s) && DistinctIds(s) && Sorted(side, s) && AllOn(side, s)
    requires 0 < quantity <= s[0].remaining
    ensures var t := After(s, quantity);
            Positive(t) && DistinctIds(t) && Sorted(side, t) && AllOn(side, t) && NoneBetter(side, t, s[0].price)
  {
    StepKeeps(s, quantity);
    BestFirst(side, s);
    NoneBetterAfter(side, s, quantity, s[0].price);
    SurplusStep(side, s, quantity, 0);
  }

  lemma EdgesMeet(quantity: int, buy: int, sell: int, p: int)
    requires sell <= p <= buy
    ensures quantity * Edge(Buy, buy, p) + quantity * Edge(Sell, sell, p) == quantity * (buy - sell)
  {
    assert Edge(Buy, buy, p) + Edge(Sell, sell, p) == buy - sell;
  }

  // ---------------------------------------------------------------- the theorem on the planner's own input

  lemma {:induction false} SurplusOfInsert(side: Side, q: Quote, s: seq<Quote>, p: int)
    ensures Surplus(side, Insert(side, q, s), p) == Cap(side, q) * Edge(side, q.price, p) + Surplus(side, s, p)
  {
    if s == [] || Ahead(side, q, s[0]) {
      assert ([q] + s)[1..] == s;
    } else {
      SurplusOfInsert(side, q, s[1..], p);
      assert ([s[0]] + Insert(side, q, s[1..]))[1..] == Insert(side, q, s[1..]);
    }
  }

  lemma {:induction false} SurplusOfSort(side: Side, s: seq<Quote>, p: int)
    ensures Surplus(side, Sort(side, s), p) == Surplus(side, s, p)
  {
    if s != [] {
      SurplusOfSort(side, s[1..], p);
      SurplusOfInsert(side, s[0], Sort(side, s[1..]), p);
    }
  }

  lemma {:induction false} SurplusOfEligibles(side: Side, s: seq<Quote>, p: int)
    ensures Surplus(side, Eligibles(side, s), p) == Surplus(side, s, p)
  {
    if s != [] {
      SurplusOfEligibles(side, s[1..], p);
      if Eligible(side, s[0]) {
        assert ([s[0]] + Eligibles(side, s[1..]))[1..] == Eligibles(side, s[1..]);
      } else {
        assert [] + Eligibles(side, s[1..]) == Eligibles(side, s[1..]);
      }
    }
  }

  lemma AllOnBook(side: Side, s: seq<Quote>)
    requires DistinctIds(s)
    ensures AllOn(side, OrderBook(side, s))
  {
    OrderBookFacts(side, s);
    var book := OrderBook(side, s);
    forall i | 0 <= i < |book| ensures book[i].side == side {
      assert book[i] in book;
    }
  }

  // Some price clears the two order books of any input.
  lemma PlanReachesDual(buys: seq<Quote>, sells: seq<Quote>) returns (p: int)
    requires DistinctIds(buys) && DistinctIds(sells)
    ensures PairingGain(Pairings(buys, sells)) == Surplus(Buy, buys, p) + Surplus(Sell, sells, p)
  {
    OrderBookFacts(Buy, buys);
    OrderBookFacts(Sell, sells);
    AllOnBook(Buy, buys);
    AllOnBook(Sell, sells);
    var bs, ss := OrderBook(Buy, buys), OrderBook(Sell, sells);
    if bs != [] { BestFirst(Buy, bs); }
    if ss != [] { BestFirst(Sell, ss); }
    var high := if bs == [] then (if ss == [] then 0 else ss[0].price) else bs[0].price;
    var low := if ss == [] then high else Min(ss[0].price, high);
    p := ClearingPrice(bs, ss, low, high);
    SurplusOfSort(Buy, Eligibles(Buy, buys), p);
    SurplusOfSort(Sell, Eligibles(Sell, sells), p);
    SurplusOfEligibles(Buy, buys, p);
    SurplusOfEligibles(Sell, sells, p);
  }

  // The limit price of the order `id`.
  function Limit(s: seq<Quote>, id: Id): int {
    if s == [] then 0 else if s[0].id == id then s[0].price else Limit(s[1..], id)
  }

  // What a list of announced matches gains at the limits of the orders it names.
  function MatchGain(buys: seq<Quote>, sells: seq<Quote>, ms: seq<Match>): int {
    if ms == [] then 0
    else ms[0].quantity * (Limit(buys, ms[0].buyOrder) - Limit(sells, ms[0].sellOrder))
         + MatchGain(buys, sells, ms[1..])
  }

  lemma {:induction false} LimitOf(s: seq<Quote>, i: nat)
    requires DistinctIds(s) && i < |s|
    ensures Limit(s, s[i].id) == s[i].price
  {
    if i > 0 {
      LimitOf(s[1..], i - 1);
    }
  }

  lemma {:induction false} GainOfAnnounced(buys: seq<Quote>, sells: seq<Quote>, ps: seq<Pairing>)
    requires forall k :: 0 <= k < |ps| ==>
      Limit(buys, ps[k].buy.id) == ps[k].buy.price && Limit(sells, ps[k].sell.id) == ps[k].sell.price
    ensures MatchGain(buys, sells, AnnounceAll(ps)) == PairingGain(ps)
  {
    if ps != [] {
      GainOfAnnounced(buys, sells, ps[1..]);
      assert AnnounceAll(ps)[1..] == AnnounceAll(ps[1..]);
    }
  }

  lemma PlanGain(buys: seq<Quote>, sells: seq<Quote>)
    requires DistinctIds(buys) && DistinctIds(sells)
    ensures MatchGain(buys, sells, AnnounceAll(Pairings(buys, sells))) == PairingGain(Pairings(buys, sells))
  {
    OrderBookFacts(Buy, buys);
    OrderBookFacts(Sell, sells);
    var bs, ss := OrderBook(Buy, buys), OrderBook(Sell, sells);
    var ps := Pairings(buys, sells);
    forall k | 0 <= k < |ps|
      ensures Limit(buys, ps[k].buy.id) == ps[k].buy.price && Limit(sells, ps[k].sell.id) == ps[k].sell.price
    {
      var i, j := PairingOrigin(bs, ss, k);
      assert bs[i] in buys && ss[j] in sells;
      var b :| 0 <= b < |buys| && buys[b] == bs[i];
      var s :| 0 <= s < |sells| && sells[s] == ss[j];
      LimitOf(buys, b);
      LimitOf(sells, s);
    }
    GainOfAnnounced(buys, sells, ps);
  }

  lemma CrossRegionAllocatesNothing(buys: seq<Quote>, sells: seq<Quote>, allocs: seq<Allocation>)
    requires Feasible(buys, sells, allocs) && OneRegion(buys) && OneRegion(sells)
    requires buys != [] && sells != [] && buys[0].region != sells[0].region
    ensures allocs == []
  {
  }

  // The plan's gains from trade are the maximum over all feasible allocations of sells to buys.
  lemma PlanIsOptimal(buys: seq<Quote>, sells: seq<Quote>, allocs: seq<Allocation>)
    requires DistinctIds(buys) && DistinctIds(sells) && Plan(buys, sells).Planned?
    requires Feasible(buys, sells, allocs)
    ensures Gain(buys, sells, allocs) <= MatchGain(buys, sells, Plan(buys, sells).matches)
  {
    if buys != [] && sells != [] && buys[0].region != sells[0].region {
      CrossRegionAllocatesNothing(buys, sells, allocs);
    } else {
      var p := PlanReachesDual(buys, sells);
      GainBelowSurplus(buys, sells, allocs, p);
      PlanGain(buys, sells);
    }
  }
}
