/** Price-time priority in plain terms: ticks, times and ids of the orders read, quantities and prices announced. */
module PriceTime {
  import opened Rows
  import opened Matching
  import opened MatchingTheory
  import opened Market
  import opened Accounting
  import opened MatchingRun

  // The one order was placed before the other: at an earlier tick, or at the same tick and an earlier time, or at the
  // same tick and time with the smaller id.
  predicate PlacedBefore(a: Quote, b: Quote) {
    || a.tickPlaced < b.tickPlaced
    || (a.tickPlaced == b.tickPlaced && a.createdAt < b.createdAt)
    || (a.tickPlaced == b.tickPlaced && a.createdAt == b.createdAt && a.id < b.id)
  }

  // A higher bid, a lower offer.
  predicate PricedBetter(side: Side, a: Quote, b: Quote) { if side.Buy? then a.price > b.price else a.price < b.price }

  lemma PlacedBeforeIsTotal(a: Quote, b: Quote)
    requires a.id != b.id
    ensures PlacedBefore(a, b) <==> !PlacedBefore(b, a)
  {
  }

  // Of two orders of one side, the better priced is served first, and at equal prices the one placed first: any fill of
  // the other means that it is filled completely.
  lemma FirstIsServedFirst(buys: seq<Quote>, sells: seq<Quote>, side: Side, first: Quote, second: Quote)
    requires DistinctIds(buys) && DistinctIds(sells) && Plan(buys, sells).Planned?
    requires first in Input(side, buys, sells) && first.side == side && first.remaining > 0
    requires second in Input(side, buys, sells) && second.side == side && second.remaining > 0
    requires PricedBetter(side, first, second) || (first.price == second.price && PlacedBefore(first, second))
    ensures 0 <= FillIn(side, Plan(buys, sells).matches, second.id) <= second.remaining
    ensures FillIn(side, Plan(buys, sells).matches, second.id) > 0 ==>
              FillIn(side, Plan(buys, sells).matches, first.id) == first.remaining
  {
    if buys == [] || sells == [] || buys[0].region == sells[0].region {
      PriceTimePriority(buys, sells, side, first, second);
      FillInAnnounced(side, Pairings(buys, sells), first.id);
      FillInAnnounced(side, Pairings(buys, sells), second.id);
    }
  }

  // Every match is at the price of whichever of its two orders was placed first.
  lemma FirstOrderSetsThePrice(buys: seq<Quote>, sells: seq<Quote>, k: nat) returns (b: Quote, s: Quote)
    requires DistinctIds(buys) && DistinctIds(sells)
    requires Plan(buys, sells).Planned? && k < |Plan(buys, sells).matches|
    ensures b in buys && s in sells
    ensures var m := Plan(buys, sells).matches[k];
            && m.buyOrder == b.id && m.sellOrder == s.id
            && (PlacedBefore(b, s) ==> m.price == b.price) && (PlacedBefore(s, b) ==> m.price == s.price)
  {
    OrderBookFacts(Buy, buys);
    OrderBookFacts(Sell, sells);
    var bs, ss := OrderBook(Buy, buys), OrderBook(Sell, sells);
    var i, j := PairingOrigin(bs, ss, k);
    b, s := bs[i], ss[j];
    hide OrderBook, Cross;
    assert Plan(buys, sells).matches[k] == Announce(Pairings(buys, sells)[k]);
  }

  // A side that mixes regions is refused, and nothing else is.
  lemma RefusedIffMixed(buys: seq<Quote>, sells: seq<Quote>)
    ensures Plan(buys, sells).MixedRegions? <==>
              || (exists i, j :: 0 <= i < |buys| && 0 <= j < |buys| && buys[i].region != buys[j].region)
              || (exists i, j :: 0 <= i < |sells| && 0 <= j < |sells| && sells[i].region != sells[j].region)
  {
    MixedIff(buys);
    MixedIff(sells);
    hide OneRegion, Pairings;
  }

  lemma MixedIff(s: seq<Quote>)
    ensures !OneRegion(s) <==> exists i, j :: 0 <= i < |s| && 0 <= j < |s| && s[i].region != s[j].region
  {
    if i :| 0 <= i < |s| && s[i].region != s[0].region { assert s[i].region != s[0].region; }
  }

  // ---------------------------------------------------------------- one tick of matching

  // The same of two rows of the order table.
  predicate RowPlacedBefore(orders: map<Id, Order>, a: Id, b: Id)
    requires a in orders && b in orders
  {
    || orders[a].tickPlaced < orders[b].tickPlaced
    || (orders[a].tickPlaced == orders[b].tickPlaced && orders[a].createdAt < orders[b].createdAt)
    || (orders[a].tickPlaced == orders[b].tickPlaced && orders[a].createdAt == orders[b].createdAt && a < b)
  }

  // Two open orders that compete: the same side of the same item in the same region.
  predicate Compete(orders: map<Id, Order>, a: Id, b: Id) {
    && a in orders && b in orders && orders[a].status.Open? && orders[b].status.Open?
    && orders[a].side == orders[b].side && orders[a].region == orders[b].region && orders[a].item == orders[b].item
  }

  predicate RowFirst(orders: map<Id, Order>, a: Id, b: Id)
    requires Compete(orders, a, b)
  {
    || (if orders[a].side.Buy? then orders[a].price > orders[b].price else orders[a].price < orders[b].price)
    || (orders[a].price == orders[b].price && RowPlacedBefore(orders, a, b))
  }

  lemma GroupServesFirst(orders: map<Id, Order>, listing: seq<Id>, g: Group, companies: map<Id, Company>, a: Id, b: Id)
    requires Lists(listing, orders) && OrdersOk(orders, companies)
    requires Compete(orders, a, b) && RowFirst(orders, a, b) && g == Group(orders[a].region, orders[a].item)
    ensures PlanReady(orders, listing, g)
    ensures var ms := PlanGroup(orders, listing, g).matches;
            FillIn(orders[a].side, ms, b) > 0 ==> FillIn(orders[a].side, ms, a) == orders[a].remaining
  {
    GroupPlans(orders, listing, g);
    GroupSideMembers(orders, listing, g, Buy);
    GroupSideMembers(orders, listing, g, Sell);
    var buys, sells := GroupSide(orders, listing, g.region, g.item, Buy),
        GroupSide(orders, listing, g.region, g.item, Sell);
    assert InGroup(orders, a, g, orders[a].side) && InGroup(orders, b, g, orders[a].side);
    hide GroupSide, Plan, FillIn;
    FirstIsServedFirst(buys, sells, orders[a].side, QuoteOf(a, orders[a]), QuoteOf(b, orders[b]));
  }

  // One tick of matching: if anything of an order was traded, every order of its side, item and region with a better
  // price, or the same price and an earlier place, was filled to the last unit.
  lemma BookIsServedInOrder(w: World, listing: seq<Id>, groups: seq<Group>, tick: int, a: Id, b: Id)
    requires Books(w) && Lists(listing, w.orders) && DistinctGroups(groups) && Covers(groups, w.orders)
    requires RunMatching(w, listing, groups, tick).Done?
    requires Compete(w.orders, a, b) && RowFirst(w.orders, a, b)
    ensures var next := RunMatching(w, listing, groups, tick).world.orders;
            && a in next && b in next
            && (next[b].remaining < w.orders[b].remaining ==> next[a].remaining == 0 && next[a].status.Filled?)
  {
    var g := Group(w.orders[a].region, w.orders[a].item);
    BooksOrders(w);
    MatchingSettlesEveryPlan(w, listing, groups, tick);
    var next := RunMatching(w, listing, groups, tick).world.orders;
    hide Books, RunMatching, OrdersOk, CrossedBook, TradesOf, NamesRows, AllMatches;
    GroupServesFirst(w.orders, listing, g, w.companies, a, b);
    assert g in groups;
    assert Advanced(w.orders[a], next[a], PlannedBy(w.orders, listing, groups, a));
    assert Advanced(w.orders[b], next[b], PlannedBy(w.orders, listing, groups, b));
    assert w.orders[a].remaining > 0 by { OpenIsPositive(w.orders, w.companies, a); }
  }

  lemma OpenIsPositive(orders: map<Id, Order>, companies: map<Id, Company>, id: Id)
    requires OrdersOk(orders, companies) && id in orders && orders[id].status.Open?
    ensures orders[id].remaining > 0
  {
    assert OrderOk(orders[id]);
  }

  // The terms of a match between two rows: it is at the limit of the one placed first.
  predicate AtFirstPrice(orders: map<Id, Order>, buy: Id, sell: Id, price: int) {
    && buy in orders && sell in orders
    && price == if RowPlacedBefore(orders, buy, sell) then orders[buy].price else orders[sell].price
  }

  lemma GroupPriced(orders: map<Id, Order>, listing: seq<Id>, g: Group, k: nat)
    requires Lists(listing, orders) && PlanReady(orders, listing, g) && k < |PlanGroup(orders, listing, g).matches|
    ensures var m := PlanGroup(orders, listing, g).matches[k];
            AtFirstPrice(orders, m.buyOrder, m.sellOrder, m.price)
  {
    GroupSideMembers(orders, listing, g, Buy);
    GroupSideMembers(orders, listing, g, Sell);
    var buys, sells := GroupSide(orders, listing, g.region, g.item, Buy),
        GroupSide(orders, listing, g.region, g.item, Sell);
    var b, s := FirstOrderSetsThePrice(buys, sells, k);
    assert InGroup(orders, b.id, g, Buy) && InGroup(orders, s.id, g, Sell);
    PlacedBeforeIsTotal(b, s);
  }

  lemma {:induction false} AllMatchesPriced(orders: map<Id, Order>, listing: seq<Id>, groups: seq<Group>)
    requires Lists(listing, orders)
    ensures forall k :: 0 <= k < |AllMatches(orders, listing, groups)| ==>
              var m := AllMatches(orders, listing, groups)[k]; AtFirstPrice(orders, m.buyOrder, m.sellOrder, m.price)
  {
    if groups != [] {
      GroupPlans(orders, listing, groups[0]);
      AllMatchesPriced(orders, listing, groups[1..]);
      var ms := PlanGroup(orders, listing, groups[0]).matches;
      forall k | 0 <= k < |ms| ensures AtFirstPrice(orders, ms[k].buyOrder, ms[k].sellOrder, ms[k].price) {
        GroupPriced(orders, listing, groups[0], k);
      }
    }
  }

  lemma {:induction false} TradesOfAt(orders: map<Id, Order>, ms: seq<Match>, tick: int)
    requires NamesRows(orders, ms)
    ensures |TradesOf(orders, ms, tick)| == |ms|
    ensures forall k :: 0 <= k < |ms| ==> TradesOf(orders, ms, tick)[k] == TradeOf(orders, ms[k], tick)
  {
    if ms != [] { TradesOfAt(orders, ms[1..], tick); }
  }

  // And every trade it made is at the limit of whichever of its two orders was placed first.
  lemma TradesAtFirstPrice(w: World, listing: seq<Id>, groups: seq<Group>, tick: int)
    requires Books(w) && Lists(listing, w.orders) && DistinctGroups(groups) && Covers(groups, w.orders)
    requires RunMatching(w, listing, groups, tick).Done?
    ensures var trades := RunMatching(w, listing, groups, tick).world.trades;
            && w.trades <= trades
            && forall k :: |w.trades| <= k < |trades| ==>
                 AtFirstPrice(w.orders, trades[k].buyOrder, trades[k].sellOrder, trades[k].price)
  {
    MatchingSettlesEveryPlan(w, listing, groups, tick);
    hide Books, RunMatching, AllMatches, Stands, CrossedBook, AtFirstPrice, Lists, Covers, TradesOf;
    AllMatchesPriced(w.orders, listing, groups);
    TradesOfAt(w.orders, AllMatches(w.orders, listing, groups), tick);
  }
}
