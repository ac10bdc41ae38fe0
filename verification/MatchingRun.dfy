/** One tick of matching: plans made from one snapshot are all settled in full, and leave no crossed book. */
module MatchingRun {
  import opened Rows
  import opened Matching
  import opened MatchingTheory
  import opened Market
  import opened Accounting
  import opened MarketBooks

  function Names(side: Side, m: Match): Id { if side.Buy? then m.buyOrder else m.sellOrder }

  // How much of the order `id` on `side` a list of matches fills.
  function FillIn(side: Side, ms: seq<Match>, id: Id): int {
    if ms == [] then 0 else (if Names(side, ms[0]) == id then ms[0].quantity else 0) + FillIn(side, ms[1..], id)
  }

  ghost predicate AllPositive(ms: seq<Match>) { forall k :: 0 <= k < |ms| ==> ms[k].quantity > 0 }

  lemma {:induction false} FillInBounds(side: Side, ms: seq<Match>, id: Id)
    requires AllPositive(ms)
    ensures FillIn(side, ms, id) >= 0
    ensures forall k :: 0 <= k < |ms| && Names(side, ms[k]) == id ==> FillIn(side, ms, id) >= ms[k].quantity
  {
    if ms != [] {
      FillInBounds(side, ms[1..], id);
      forall k | 0 <= k < |ms| && Names(side, ms[k]) == id ensures FillIn(side, ms, id) >= ms[k].quantity {
        if k > 0 { assert ms[1..][k - 1] == ms[k]; }
      }
    }
  }

  // The terms of a match agree with the orders it names.
  ghost predicate Agrees(orders: map<Id, Order>, m: Match) {
    && m.buyOrder in orders && m.sellOrder in orders
    && orders[m.buyOrder].side.Buy? && orders[m.sellOrder].side.Sell?
    && orders[m.buyOrder].item == orders[m.sellOrder].item == m.item
    && orders[m.buyOrder].region == orders[m.sellOrder].region == m.region
    && 0 < m.quantity && 0 < m.price && orders[m.sellOrder].price <= m.price <= orders[m.buyOrder].price
  }

  // No order is asked for more than it has left, and only open orders are asked for anything.
  ghost predicate Fillable(orders: map<Id, Order>, ms: seq<Match>) {
    forall id :: id in orders && FillIn(orders[id].side, ms, id) > 0 ==>
      orders[id].status.Open? && FillIn(orders[id].side, ms, id) <= orders[id].remaining
  }

  ghost predicate Executable(orders: map<Id, Order>, ms: seq<Match>) {
    (forall k :: 0 <= k < |ms| ==> Agrees(orders, ms[k])) && Fillable(orders, ms)
  }

  // The order after `fill` units of it were settled.
  predicate Advanced(o: Order, o': Order, fill: int) {
    && o' == o.(remaining := o'.remaining, status := o'.status, reservedCash := o'.reservedCash,
                reservedQuantity := o'.reservedQuantity, tickClosed := o'.tickClosed)
    && o'.remaining == o.remaining - fill
    && o'.status == if fill > 0 && o'.remaining == 0 then Filled else o.status
  }

  ghost predicate Progress(orders: map<Id, Order>, orders': map<Id, Order>, ms: seq<Match>) {
    orders.Keys == orders'.Keys
    && forall id :: id in orders ==> Advanced(orders[id], orders'[id], FillIn(orders[id].side, ms, id))
  }

  function TradeOf(orders: map<Id, Order>, m: Match, tick: int): Trade
    requires m.buyOrder in orders && m.sellOrder in orders
  {
    Trade(m.buyOrder, m.sellOrder, orders[m.buyOrder].company, orders[m.sellOrder].company,
          orders[m.buyOrder].item, orders[m.buyOrder].region, m.quantity, m.price, m.quantity * m.price, tick)
  }

  predicate NamesRows(orders: map<Id, Order>, ms: seq<Match>) {
    forall k :: 0 <= k < |ms| ==> ms[k].buyOrder in orders && ms[k].sellOrder in orders
  }

  // One trade per match, at its full quantity and its price.
  function TradesOf(orders: map<Id, Order>, ms: seq<Match>, tick: int): (ts: seq<Trade>)
    requires NamesRows(orders, ms)
  {
    if ms == [] then [] else [TradeOf(orders, ms[0], tick)] + TradesOf(orders, ms[1..], tick)
  }

  // A trade reads only what no settlement changes.
  ghost predicate SameTerms(orders: map<Id, Order>, orders': map<Id, Order>) {
    orders.Keys == orders'.Keys
    && forall id :: id in orders ==>
         orders'[id].company == orders[id].company && orders'[id].item == orders[id].item &&
             orders'[id].region == orders[id].region
  }

  lemma {:induction false} TradesOfTerms(orders: map<Id, Order>, orders': map<Id, Order>, ms: seq<Match>, tick: int)
    requires NamesRows(orders, ms) && SameTerms(orders, orders')
    ensures NamesRows(orders', ms) && TradesOf(orders, ms, tick) == TradesOf(orders', ms, tick)
  {
    if ms != [] {
      assert ms[0].buyOrder in orders && ms[0].sellOrder in orders;
      TradesOfTerms(orders, orders', ms[1..], tick);
    }
  }

  lemma HeadSettles(w: World, ms: seq<Match>)
    requires ms != [] && Executable(w.orders, ms)
    ensures Settles(w, ms[0])
  {
    var m := ms[0];
    assert Agrees(w.orders, m);
    assert AllPositive(ms) by {
      forall k | 0 <= k < |ms| ensures ms[k].quantity > 0 { assert Agrees(w.orders, ms[k]); }
    }
    FillInBounds(Buy, ms, m.buyOrder);
    FillInBounds(Sell, ms, m.sellOrder);
  }

  lemma OneStep(w: World, ms: seq<Match>, tick: int)
    requires ms != [] && Executable(w.orders, ms) && OrdersOk(w.orders, w.companies)
    requires Settles(w, ms[0])
    ensures var m := ms[0];
            var orders' := w.orders[m.buyOrder := Reduced(w.orders[m.buyOrder], m.quantity, tick)]
                                   [m.sellOrder := Reduced(w.orders[m.sellOrder], m.quantity, tick)];
            Progress(w.orders, orders', [m])
  {
  }

  lemma RestExecutable(orders: map<Id, Order>, orders': map<Id, Order>, ms: seq<Match>)
    requires ms != [] && Executable(orders, ms) && Progress(orders, orders', [ms[0]])
    ensures Executable(orders', ms[1..])
  {
    forall k | 0 <= k < |ms[1..]| ensures Agrees(orders', ms[1..][k]) {
      assert Agrees(orders, ms[k + 1]);
    }
    assert Agrees(orders, ms[0]);
    assert AllPositive(ms) by { forall k | 0 <= k < |ms| ensures ms[k].quantity > 0 { assert Agrees(orders, ms[k]); } }
    forall id | id in orders' && FillIn(orders'[id].side, ms[1..], id) > 0
      ensures orders'[id].status.Open? && FillIn(orders'[id].side, ms[1..], id) <= orders'[id].remaining
    {
      var side := orders[id].side;
      FillInBounds(side, [ms[0]], id);
      assert FillIn(side, ms, id) == FillIn(side, [ms[0]], id) + FillIn(side, ms[1..], id);
    }
  }

  lemma ProgressComposes(orders: map<Id, Order>, mid: map<Id, Order>, orders': map<Id, Order>, ms: seq<Match>)
    requires ms != [] && Progress(orders, mid, [ms[0]]) && Progress(mid, orders', ms[1..]) && AllPositive(ms)
    requires Fillable(mid, ms[1..])
    ensures Progress(orders, orders', ms)
  {
    forall id | id in orders ensures Advanced(orders[id], orders'[id], FillIn(orders[id].side, ms, id)) {
      var side := orders[id].side;
      FillInBounds(side, [ms[0]], id);
      FillInBounds(side, ms[1..], id);
      assert FillIn(side, ms, id) == FillIn(side, [ms[0]], id) + FillIn(side, ms[1..], id);
    }
  }

  lemma AgreeingNamesRows(orders: map<Id, Order>, ms: seq<Match>)
    requires forall k :: 0 <= k < |ms| ==> Agrees(orders, ms[k])
    ensures NamesRows(orders, ms) && AllPositive(ms)
  {
    forall k | 0 <= k < |ms|
      ensures ms[k].buyOrder in orders && ms[k].sellOrder in orders && ms[k].quantity > 0
    {
      assert Agrees(orders, ms[k]);
    }
  }

  lemma SettleHead(w: World, ms: seq<Match>, tick: int)
    requires Books(w) && ms != [] && Executable(w.orders, ms)
    ensures SettleMatch(w, ms[0], tick).Thrown? ==> StopsFor(w, SettleMatch(w, ms[0], tick).error)
    ensures ms[0].buyOrder in w.orders && ms[0].sellOrder in w.orders
    ensures SettleMatch(w, ms[0], tick).Done? ==>
              var mid := SettleMatch(w, ms[0], tick).world;
              && Books(mid) && (Solvent(w) ==> Solvent(mid))
              && Progress(w.orders, mid.orders, [ms[0]]) && Executable(mid.orders, ms[1..])
              && mid.trades == w.trades + [TradeOf(w.orders, ms[0], tick)]
  {
    HeadSettles(w, ms);
    SettleMatchStops(w, ms[0], tick);
    if SettleMatch(w, ms[0], tick).Done? {
      OneStep(w, ms, tick);
      RestExecutable(w.orders, Settled(w, ms[0], tick).orders, ms);
    }
  }

  // A list of executable matches is settled to the last one and in full, or something stops it: a full store, where
  // every company covers its reservations.
  lemma {:induction false} SettleAllExecutes(w: World, ms: seq<Match>, tick: int)
    requires Books(w) && Executable(w.orders, ms)
    ensures SettleAll(w, ms, tick).Thrown? ==> StopsFor(w, SettleAll(w, ms, tick).error)
    ensures SettleAll(w, ms, tick).Done? ==>
              var next := SettleAll(w, ms, tick).world;
              Books(next) && (Solvent(w) ==> Solvent(next)) && Progress(w.orders, next.orders, ms)
    decreases |ms|
  {
    hide Books, Solvent, Executable, SettleMatch;
    if ms == [] {
      NothingProgresses(w.orders);
    } else {
      SettleHead(w, ms, tick);
      ExecutableIsPositive(w.orders, ms);
      if SettleMatch(w, ms[0], tick).Done? {
        var mid := SettleMatch(w, ms[0], tick).world;
        SettleAllExecutes(mid, ms[1..], tick);
        ExecutableIsFillable(mid.orders, ms[1..]);
        if SettleAll(mid, ms[1..], tick).Done? {
          ProgressComposes(w.orders, mid.orders, SettleAll(mid, ms[1..], tick).world.orders, ms);
        }
      }
    }
  }

  lemma NothingProgresses(orders: map<Id, Order>)
    ensures Progress(orders, orders, [])
  {
  }

  lemma ExecutableIsPositive(orders: map<Id, Order>, ms: seq<Match>)
    requires Executable(orders, ms)
    ensures AllPositive(ms) && NamesRows(orders, ms)
  {
    AgreeingNamesRows(orders, ms);
  }

  lemma ExecutableIsFillable(orders: map<Id, Order>, ms: seq<Match>)
    requires Executable(orders, ms)
    ensures Fillable(orders, ms)
  {
  }

  lemma TradesOfHead(orders: map<Id, Order>, mid: map<Id, Order>, ms: seq<Match>, tick: int,
                     before: seq<Trade>, after: seq<Trade>)
    requires ms != [] && NamesRows(orders, ms) && Progress(orders, mid, [ms[0]]) && NamesRows(mid, ms[1..])
    requires after == before + [TradeOf(orders, ms[0], tick)]
    ensures before + TradesOf(orders, ms, tick) == after + TradesOf(mid, ms[1..], tick)
  {
    assert SameTerms(orders, mid);
    TradesOfTerms(orders, mid, ms[1..], tick);
  }

  lemma {:induction false} SettleAllTrades(w: World, ms: seq<Match>, tick: int)
    requires Books(w) && Executable(w.orders, ms)
    ensures NamesRows(w.orders, ms)
    ensures SettleAll(w, ms, tick).Done? ==>
              SettleAll(w, ms, tick).world.trades == w.trades + TradesOf(w.orders, ms, tick)
    decreases |ms|
  {
    AgreeingNamesRows(w.orders, ms);
    if ms != [] {
      SettleHead(w, ms, tick);
      if SettleMatch(w, ms[0], tick).Done? {
        var mid := SettleMatch(w, ms[0], tick).world;
        SettleAllTrades(mid, ms[1..], tick);
        TradesOfHead(w.orders, mid.orders, ms, tick, w.trades, mid.trades);
      }
    }
  }

  // ---------------------------------------------------------------- from orders to quotes and back

  // The rows the order query returned: each open order once, in any order.
  ghost predicate Lists(listing: seq<Id>, orders: map<Id, Order>) {
    && (forall i, j :: 0 <= i < j < |listing| ==> listing[i] != listing[j])
    && (forall id :: id in orders && orders[id].status.Open? ==> id in listing)
  }

  predicate InGroup(orders: map<Id, Order>, id: Id, g: Group, side: Side) {
    && id in orders && orders[id].status.Open? && orders[id].side == side
    && orders[id].region == g.region && orders[id].item == g.item
  }

  lemma {:induction false} GroupSideMembers(orders: map<Id, Order>, listing: seq<Id>, g: Group, side: Side)
    requires forall i, j :: 0 <= i < j < |listing| ==> listing[i] != listing[j]
    ensures var qs := GroupSide(orders, listing, g.region, g.item, side);
            && DistinctIds(qs) && OneRegion(qs)
            && (forall i :: 0 <= i < |qs| ==>
                  qs[i].id in listing && InGroup(orders, qs[i].id, g, side) &&
                      qs[i] == QuoteOf(qs[i].id, orders[qs[i].id]))
            && (forall id :: id in listing && InGroup(orders, id, g, side) ==> QuoteOf(id, orders[id]) in qs)
  {
    if listing != [] {
      GroupSideMembers(orders, listing[1..], g, side);
      var qs := GroupSide(orders, listing, g.region, g.item, side);
      var rest := GroupSide(orders, listing[1..], g.region, g.item, side);
      assert listing == [listing[0]] + listing[1..];
      if InGroup(orders, listing[0], g, side) {
        assert qs == [QuoteOf(listing[0], orders[listing[0]])] + rest;
      } else {
        assert qs == rest;
      }
    }
  }

  lemma {:induction false} FillInAnnounced(side: Side, ps: seq<Pairing>, id: Id)
    ensures FillIn(side, AnnounceAll(ps), id) == Traded(side, ps, id)
  {
    if ps != [] {
      FillInAnnounced(side, ps[1..], id);
      assert AnnounceAll(ps)[1..] == AnnounceAll(ps[1..]);
    }
  }

  // What a plan fills: nothing outside its book, at most what is left inside it.
  lemma PlanFillBounds(buys: seq<Quote>, sells: seq<Quote>, side: Side, id: Id)
    requires DistinctIds(buys) && DistinctIds(sells)
    requires Plan(buys, sells) == Planned(AnnounceAll(Pairings(buys, sells)))
    ensures FillIn(side, Plan(buys, sells).matches, id) == Traded(side, Pairings(buys, sells), id)
    ensures (forall q :: q in Input(side, buys, sells) && Eligible(side, q) ==> q.id != id) ==>
              FillIn(side, Plan(buys, sells).matches, id) == 0
    ensures forall q :: q in Input(side, buys, sells) && Eligible(side, q) && q.id == id ==>
              0 <= FillIn(side, Plan(buys, sells).matches, id) <= q.remaining
  {
    FillInAnnounced(side, Pairings(buys, sells), id);
    hide Plan, FillIn, Traded, AnnounceAll, Pairings;
    if forall q :: q in Input(side, buys, sells) && Eligible(side, q) ==> q.id != id {
      AbsentUnfilled(buys, sells, side, id);
    }
    forall q | q in Input(side, buys, sells) && Eligible(side, q) && q.id == id
      ensures 0 <= Traded(side, Pairings(buys, sells), id) <= q.remaining
    {
      PresentCapped(buys, sells, side, q);
    }
  }

  lemma AbsentUnfilled(buys: seq<Quote>, sells: seq<Quote>, side: Side, id: Id)
    requires DistinctIds(buys) && DistinctIds(sells)
    requires forall q :: q in Input(side, buys, sells) && Eligible(side, q) ==> q.id != id
    ensures Traded(side, Pairings(buys, sells), id) == 0
  {
    OrderBookFacts(Buy, buys);
    OrderBookFacts(Sell, sells);
    hide OrderBook, Cross, Traded, Sorted;
    var bs, ss := OrderBook(Buy, buys), OrderBook(Sell, sells);
    var book := Book(side, bs, ss);
    forall i | 0 <= i < |book| ensures book[i].id != id { assert book[i] in book; }
    StrangersTradeNothing(side, bs, ss, id);
  }

  lemma PresentCapped(buys: seq<Quote>, sells: seq<Quote>, side: Side, q: Quote)
    requires DistinctIds(buys) && DistinctIds(sells) && q in Input(side, buys, sells) && Eligible(side, q)
    ensures 0 <= Traded(side, Pairings(buys, sells), q.id) <= q.remaining
  {
    OrderBookFacts(Buy, buys);
    OrderBookFacts(Sell, sells);
    hide OrderBook, Cross, Traded, Sorted;
    var bs, ss := OrderBook(Buy, buys), OrderBook(Sell, sells);
    NoOverfill(side, bs, ss, PlaceInBook(Book(side, bs, ss), q));
  }


  ghost predicate PlanReady(orders: map<Id, Order>, listing: seq<Id>, g: Group) {
    var buys, sells := GroupSide(orders, listing, g.region, g.item, Buy),
        GroupSide(orders, listing, g.region, g.item, Sell);
    && DistinctIds(buys) && DistinctIds(sells)
    && PlanGroup(orders, listing, g) == Planned(AnnounceAll(Pairings(buys, sells)))
  }

  // The rows of a group always share their region, so planning a group never throws.
  lemma GroupPlans(orders: map<Id, Order>, listing: seq<Id>, g: Group)
    requires Lists(listing, orders)
    ensures PlanReady(orders, listing, g)
  {
    GroupSideMembers(orders, listing, g, Buy);
    GroupSideMembers(orders, listing, g, Sell);
    var buys, sells := GroupSide(orders, listing, g.region, g.item, Buy),
        GroupSide(orders, listing, g.region, g.item, Sell);
    if buys != [] && sells != [] {
      assert InGroup(orders, buys[0].id, g, Buy) && InGroup(orders, sells[0].id, g, Sell);
    }
  }

  lemma GroupFill(orders: map<Id, Order>, listing: seq<Id>, g: Group, id: Id, companies: map<Id, Company>)
    requires Lists(listing, orders) && OrdersOk(orders, companies) && id in orders
    ensures PlanReady(orders, listing, g)
    ensures var fill := FillIn(orders[id].side, PlanGroup(orders, listing, g).matches, id);
            if InGroup(orders, id, g, orders[id].side) then 0 <= fill <= orders[id].remaining else fill == 0
  {
    GroupPlans(orders, listing, g);
    var side := orders[id].side;
    GroupSideMembers(orders, listing, g, side);
    var buys, sells := GroupSide(orders, listing, g.region, g.item, Buy),
        GroupSide(orders, listing, g.region, g.item, Sell);
    PlanFillBounds(buys, sells, side, id);
    if InGroup(orders, id, g, side) {
      assert QuoteOf(id, orders[id]) in Input(side, buys, sells);
      assert Eligible(side, QuoteOf(id, orders[id]));
    }
  }

  lemma GroupAgrees(orders: map<Id, Order>, listing: seq<Id>, g: Group, companies: map<Id, Company>, k: nat)
    requires Lists(listing, orders) && OrdersOk(orders, companies)
    requires PlanReady(orders, listing, g) && k < |PlanGroup(orders, listing, g).matches|
    ensures Agrees(orders, PlanGroup(orders, listing, g).matches[k])
  {
    GroupSideMembers(orders, listing, g, Buy);
    GroupSideMembers(orders, listing, g, Sell);
    var buys, sells := GroupSide(orders, listing, g.region, g.item, Buy),
        GroupSide(orders, listing, g.region, g.item, Sell);
    var b, s := MatchesAreWellFormed(buys, sells, k);
    assert orders[s.id].price > 0;
  }

  lemma GroupExecutable(orders: map<Id, Order>, listing: seq<Id>, g: Group, companies: map<Id, Company>)
    requires Lists(listing, orders) && OrdersOk(orders, companies)
    ensures PlanReady(orders, listing, g)
    ensures Executable(orders, PlanGroup(orders, listing, g).matches)
  {
    GroupPlans(orders, listing, g);
    var ms := PlanGroup(orders, listing, g).matches;
    forall k | 0 <= k < |ms| ensures Agrees(orders, ms[k]) {
      GroupAgrees(orders, listing, g, companies, k);
    }
    forall id | id in orders && FillIn(orders[id].side, ms, id) > 0
      ensures orders[id].status.Open? && FillIn(orders[id].side, ms, id) <= orders[id].remaining
    {
      GroupFill(orders, listing, g, id, companies);
    }
  }

  // ---------------------------------------------------------------- all groups

  ghost predicate DistinctGroups(groups: seq<Group>) {
    forall i, j :: 0 <= i < j < |groups| ==> groups[i] != groups[j]
  }

  // The fill an order has when the groups listed so far are settled: that of its own group, or none.
  ghost function PlannedBy(snapshot: map<Id, Order>, listing: seq<Id>, groups: seq<Group>, id: Id): int
    requires id in snapshot
  {
    var g := Group(snapshot[id].region, snapshot[id].item);
    if g in groups && PlanReady(snapshot, listing, g)
    then FillIn(snapshot[id].side, PlanGroup(snapshot, listing, g).matches, id) else 0
  }

  // Every order stands where the plans of the listed groups leave it.
  ghost predicate Stands(snapshot: map<Id, Order>, orders: map<Id, Order>, listing: seq<Id>, groups: seq<Group>) {
    && snapshot.Keys == orders.Keys
    && forall id :: id in snapshot ==> Advanced(snapshot[id], orders[id], PlannedBy(snapshot, listing, groups, id))
  }

  lemma NextGroupExecutable(
    snapshot: map<Id, Order>, orders: map<Id, Order>, listing: seq<Id>, done: seq<Group>, g: Group,
    companies: map<Id, Company>)
    requires Lists(listing, snapshot) && OrdersOk(snapshot, companies)
    requires Stands(snapshot, orders, listing, done) && g !in done
    ensures PlanReady(snapshot, listing, g) && Executable(orders, PlanGroup(snapshot, listing, g).matches)
  {
    GroupExecutable(snapshot, listing, g, companies);
    var ms := PlanGroup(snapshot, listing, g).matches;
    forall k | 0 <= k < |ms| ensures Agrees(orders, ms[k]) {
      assert Agrees(snapshot, ms[k]);
    }
    forall id | id in orders && FillIn(orders[id].side, ms, id) > 0
      ensures orders[id].status.Open? && FillIn(orders[id].side, ms, id) <= orders[id].remaining
    {
      GroupFill(snapshot, listing, g, id, companies);
    }
  }

  lemma GroupSettled(
    snapshot: map<Id, Order>, orders: map<Id, Order>, orders': map<Id, Order>, listing: seq<Id>, done: seq<Group>,
    g: Group,
    companies: map<Id, Company>)
    requires Lists(listing, snapshot) && OrdersOk(snapshot, companies)
    requires Stands(snapshot, orders, listing, done) && g !in done && PlanReady(snapshot, listing, g)
    requires Progress(orders, orders', PlanGroup(snapshot, listing, g).matches)
    ensures Stands(snapshot, orders', listing, done + [g])
  {
    var ms := PlanGroup(snapshot, listing, g).matches;
    forall id | id in snapshot
      ensures Advanced(snapshot[id], orders'[id], PlannedBy(snapshot, listing, done + [g], id))
    {
      GroupFill(snapshot, listing, g, id, companies);
      var own := Group(snapshot[id].region, snapshot[id].item);
      assert own in done + [g] <==> own in done || own == g;
      assert Advanced(snapshot[id], orders[id], PlannedBy(snapshot, listing, done, id));
      assert Advanced(orders[id], orders'[id], FillIn(orders[id].side, ms, id));
    }
  }

  lemma FreshGroup(done: seq<Group>, groups: seq<Group>)
    requires groups != [] && DistinctGroups(done + groups)
    ensures groups[0] !in done
  {
    var all := done + groups;
    forall i | 0 <= i < |done| ensures done[i] != groups[0] {
      assert all[i] == done[i] && all[|done|] == groups[0];
    }
  }

  lemma StandsOnTerms(snapshot: map<Id, Order>, orders: map<Id, Order>, listing: seq<Id>, groups: seq<Group>)
    requires Stands(snapshot, orders, listing, groups)
    ensures SameTerms(orders, snapshot)
  {
    forall id | id in orders
      ensures snapshot[id].company == orders[id].company && snapshot[id].item == orders[id].item &&
              snapshot[id].region == orders[id].region
    {
      assert Advanced(snapshot[id], orders[id], PlannedBy(snapshot, listing, groups, id));
    }
  }

  // Settling the next group: its whole plan, one trade per match, or nothing that counts.
  lemma NextGroupSettles(
    snapshot: map<Id, Order>, listing: seq<Id>, w: World, done: seq<Group>, g: Group, tick: int,
    companies: map<Id, Company>)
    requires Books(w) && Lists(listing, snapshot) && OrdersOk(snapshot, companies)
    requires Stands(snapshot, w.orders, listing, done) && g !in done
    ensures PlanGroup(snapshot, listing, g).Planned? && Executable(w.orders, PlanGroup(snapshot, listing, g).matches)
    ensures NamesRows(snapshot, PlanGroup(snapshot, listing, g).matches)
    ensures var out := SettleAll(w, PlanGroup(snapshot, listing, g).matches, tick);
            if out.Done? then
              && Books(out.world) && (Solvent(w) ==> Solvent(out.world))
              && Stands(snapshot, out.world.orders, listing, done + [g])
              && out.world.trades == w.trades + TradesOf(snapshot, PlanGroup(snapshot, listing, g).matches, tick)
            else StopsFor(w, out.error)
  {
    NextGroupExecutable(snapshot, w.orders, listing, done, g, companies);
    StandsOnTerms(snapshot, w.orders, listing, done);
    var ms := PlanGroup(snapshot, listing, g).matches;
    hide *;
    SettleAllExecutes(w, ms, tick);
    SettleAllTrades(w, ms, tick);
    TradesOfTerms(w.orders, snapshot, ms, tick);
    if SettleAll(w, ms, tick).Done? {
      GroupSettled(snapshot, w.orders, SettleAll(w, ms, tick).world.orders, listing, done, g, companies);
    }
  }

  // Every match of every plan, in the order of the groups.
  function AllMatches(orders: map<Id, Order>, listing: seq<Id>, groups: seq<Group>): seq<Match> {
    if groups == [] then []
    else
      var plan := PlanGroup(orders, listing, groups[0]);
      (if plan.Planned? then plan.matches else []) + AllMatches(orders, listing, groups[1..])
  }

  lemma {:induction false} TradesOfAppend(orders: map<Id, Order>, ms: seq<Match>, rest: seq<Match>, tick: int)
    requires NamesRows(orders, ms) && NamesRows(orders, rest)
    ensures NamesRows(orders, ms + rest)
    ensures TradesOf(orders, ms + rest, tick) == TradesOf(orders, ms, tick) + TradesOf(orders, rest, tick)
  {
    if ms == [] {
      assert ms + rest == rest;
    } else {
      TradesOfAppend(orders, ms[1..], rest, tick);
      assert (ms + rest)[1..] == ms[1..] + rest;
    }
  }

  lemma {:induction false} MatchGroupsSettles(
    snapshot: map<Id, Order>, listing: seq<Id>, w: World, done: seq<Group>, groups: seq<Group>, tick: int,
    companies: map<Id, Company>)
    requires Books(w) && Lists(listing, snapshot) && OrdersOk(snapshot, companies)
    requires DistinctGroups(done + groups) && Stands(snapshot, w.orders, listing, done)
    ensures var out := MatchGroups(snapshot, listing, w, groups, tick);
            if out.Done? then
              && Books(out.world) && (Solvent(w) ==> Solvent(out.world))
              && Stands(snapshot, out.world.orders, listing, done + groups)
              && NamesRows(snapshot, AllMatches(snapshot, listing, groups))
              && out.world.trades == w.trades + TradesOf(snapshot, AllMatches(snapshot, listing, groups), tick)
            else StopsFor(w, out.error)
    decreases |groups|
  {
    hide Books, Solvent, Lists, OrdersOk, Stands, PlanGroup, SettleAll, Executable;
    if groups == [] {
      assert done + groups == done;
    } else {
      var g := groups[0];
      FreshGroup(done, groups);
      NextGroupSettles(snapshot, listing, w, done, g, tick, companies);
      var settled := SettleAll(w, PlanGroup(snapshot, listing, g).matches, tick);
      if settled.Done? {
        assert done + groups == (done + [g]) + groups[1..];
        MatchGroupsSettles(snapshot, listing, settled.world, done + [g], groups[1..], tick, companies);
        if MatchGroups(snapshot, listing, settled.world, groups[1..], tick).Done? {
          TradesOfAppend(snapshot, PlanGroup(snapshot, listing, g).matches,
              AllMatches(snapshot, listing, groups[1..]), tick);
        }
      }
    }
  }

  // The groups cover every open order: what collecting the group keys of the open orders yields.
  ghost predicate Covers(groups: seq<Group>, orders: map<Id, Order>) {
    forall id :: id in orders && orders[id].status.Open? ==> Group(orders[id].region, orders[id].item) in groups
  }

  ghost predicate CrossedBook(orders: map<Id, Order>) {
    exists b, s :: b in orders && s in orders && orders[b].status.Open? && orders[s].status.Open?
      && orders[b].side.Buy? && orders[s].side.Sell? && orders[b].region == orders[s].region
      && orders[b].item == orders[s].item && orders[b].price >= orders[s].price
  }

  lemma NoCrossLeft(snapshot: map<Id, Order>, orders: map<Id, Order>, listing: seq<Id>, groups: seq<Group>,
                    companies: map<Id, Company>, b: Id, s: Id)
    requires Lists(listing, snapshot) && OrdersOk(snapshot, companies) && OrdersOk(orders, companies)
    requires Covers(groups, snapshot) && Stands(snapshot, orders, listing, groups)
    requires b in orders && s in orders && orders[b].status.Open? && orders[s].status.Open?
    requires orders[b].side.Buy? && orders[s].side.Sell?
    requires orders[b].region == orders[s].region && orders[b].item == orders[s].item
    ensures orders[b].price < orders[s].price
  {
    var g := Group(orders[b].region, orders[b].item);
    assert Advanced(snapshot[b], orders[b], PlannedBy(snapshot, listing, groups, b));
    assert Advanced(snapshot[s], orders[s], PlannedBy(snapshot, listing, groups, s));
    GroupPlans(snapshot, listing, g);
    GroupSideMembers(snapshot, listing, g, Buy);
    GroupSideMembers(snapshot, listing, g, Sell);
    var buys, sells := GroupSide(snapshot, listing, g.region, g.item, Buy),
        GroupSide(snapshot, listing, g.region, g.item, Sell);
    PlanFillBounds(buys, sells, Buy, b);
    PlanFillBounds(buys, sells, Sell, s);
    assert InGroup(snapshot, b, g, Buy) && InGroup(snapshot, s, g, Sell);
    PlanLeavesNoCross(buys, sells, QuoteOf(b, snapshot[b]), QuoteOf(s, snapshot[s]));
  }

  // One tick of matching. Whatever order the open orders were read in, either it aborts - for a full store, where
  // every company covers its reservations - or every match planned from the initial snapshot was settled in full,
  // the trades added are exactly those matches, and no buy is left at or above a sell.
  lemma MatchingSettlesEveryPlan(w: World, listing: seq<Id>, groups: seq<Group>, tick: int)
    requires Books(w)
    requires Lists(listing, w.orders) && DistinctGroups(groups) && Covers(groups, w.orders)
    ensures var out := RunMatching(w, listing, groups, tick);
            if out.Done? then
              && Books(out.world) && (Solvent(w) ==> Solvent(out.world))
              && Stands(w.orders, out.world.orders, listing, groups)
              && NamesRows(w.orders, AllMatches(w.orders, listing, groups))
              && out.world.trades == w.trades + TradesOf(w.orders, AllMatches(w.orders, listing, groups), tick)
              && !CrossedBook(out.world.orders)
            else StopsFor(w, out.error)
  {
    assert [] + groups == groups;
    NothingStands(w.orders, listing);
    MatchGroupsSettles(w.orders, listing, w, [], groups, tick, w.companies);
    var out := RunMatching(w, listing, groups, tick);
    if out.Done? {
      BooksOrders(w);
      BooksOrders(out.world);
      hide Books, Solvent, Stands, AllMatches, TradesOf, MatchGroups;
      SameOwners(w, out.world.orders, listing, groups, out.world.companies);
      NothingCrossed(w, out.world.orders, listing, groups);
    }
  }

  lemma NothingStands(orders: map<Id, Order>, listing: seq<Id>)
    ensures Stands(orders, orders, listing, [])
  {
  }

  lemma BooksOrders(w: World)
    requires Books(w)
    ensures OrdersOk(w.orders, w.companies)
  {
  }

  lemma NothingCrossed(w: World, orders: map<Id, Order>, listing: seq<Id>, groups: seq<Group>)
    requires Lists(listing, w.orders) && OrdersOk(w.orders, w.companies) && OrdersOk(orders, w.companies)
    requires Covers(groups, w.orders) && Stands(w.orders, orders, listing, groups)
    ensures !CrossedBook(orders)
  {
    hide Lists, OrdersOk, Stands, Covers;
    forall b, s | b in orders && s in orders && orders[b].status.Open? && orders[s].status.Open?
      && orders[b].side.Buy? && orders[s].side.Sell? && orders[b].region == orders[s].region &&
          orders[b].item == orders[s].item
      ensures orders[b].price < orders[s].price
    {
      NoCrossLeft(w.orders, orders, listing, groups, w.companies, b, s);
    }
  }

  lemma SameOwners(w: World, orders: map<Id, Order>, listing: seq<Id>, groups: seq<Group>, companies: map<Id, Company>)
    requires OrdersOk(w.orders, w.companies) && OrdersOk(orders, companies)
    requires Stands(w.orders, orders, listing, groups)
    ensures OrdersOk(orders, w.companies)
  {
    forall id | id in orders ensures OrderOk(orders[id]) && orders[id].company in w.companies {
      assert Advanced(w.orders[id], orders[id], PlannedBy(w.orders, listing, groups, id));
    }
  }
}
