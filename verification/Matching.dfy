/** Price-time matching of one region's orders for one item: the planner and its two-pointer loop. */
module Matching {
  import opened Rows

  // The part of an open order the planner reads.
  datatype Quote = Quote(
    id: Id, item: Id, region: Id, side: Side, price: int, remaining: int, tickPlaced: int, createdAt: int)

  // A buy and a sell as they stood when they were matched.
  datatype Pairing = Pairing(buy: Quote, sell: Quote, quantity: int)

  datatype Match = Match(item: Id, region: Id, buyOrder: Id, sellOrder: Id, quantity: int, price: int)

  datatype PlanResult = Planned(matches: seq<Match>) | MixedRegions

  // compareByTimeThenId(left, right) <= 0
  predicate NotLater(left: Quote, right: Quote) {
    if left.tickPlaced != right.tickPlaced then left.tickPlaced < right.tickPlaced
    else if left.createdAt != right.createdAt then left.createdAt < right.createdAt
    else left.id <= right.id
  }

  // compareBuyPriority(left, right) <= 0, and the mirror image for sells.
  predicate Ahead(side: Side, left: Quote, right: Quote) {
    if left.price != right.price then
      (if side.Buy? then left.price > right.price else left.price < right.price)
    else NotLater(left, right)
  }

  predicate Sorted(side: Side, s: seq<Quote>) {
    forall i, j :: 0 <= i < j < |s| ==> Ahead(side, s[i], s[j])
  }

  predicate DistinctIds(s: seq<Quote>) {
    forall i, j :: 0 <= i < j < |s| ==> s[i].id != s[j].id
  }

  predicate Eligible(side: Side, q: Quote) { q.side == side && q.remaining > 0 }

  function Eligibles(side: Side, s: seq<Quote>): seq<Quote> {
    if s == [] then []
    else (if Eligible(side, s[0]) then [s[0]] else []) + Eligibles(side, s[1..])
  }

  function Insert(side: Side, q: Quote, s: seq<Quote>): seq<Quote> {
    if s == [] || Ahead(side, q, s[0]) then [q] + s else [s[0]] + Insert(side, q, s[1..])
  }

  function Sort(side: Side, s: seq<Quote>): seq<Quote> {
    if s == [] then [] else Insert(side, s[0], Sort(side, s[1..]))
  }

  function OrderBook(side: Side, s: seq<Quote>): seq<Quote> { Sort(side, Eligibles(side, s)) }

  function ExecutionPrice(buy: Quote, sell: Quote): int {
    if NotLater(buy, sell) then buy.price else sell.price
  }

  // The book after its first order has traded `quantity`.
  function After(s: seq<Quote>, quantity: int): (r: seq<Quote>)
    requires s != [] && 0 < quantity <= s[0].remaining
    ensures |r| <= |s|
  {
    if s[0].remaining == quantity then s[1..] else [s[0].(remaining := s[0].remaining - quantity)] + s[1..]
  }

  ghost predicate Positive(s: seq<Quote>) { forall i :: 0 <= i < |s| ==> s[i].remaining > 0 }

  // The greedy matching of two books, as a recursion on what is left of them.
  function Cross(bs: seq<Quote>, ss: seq<Quote>): seq<Pairing>
    requires Positive(bs) && Positive(ss)
    decreases |bs| + |ss|
  {
    if bs == [] || ss == [] || bs[0].price < ss[0].price then []
    else
      var quantity := Min(bs[0].remaining, ss[0].remaining);
      [Pairing(bs[0], ss[0], quantity)] + Cross(After(bs, quantity), After(ss, quantity))
  }

  function Announce(p: Pairing): Match {
    Match(p.buy.item, p.buy.region, p.buy.id, p.sell.id, p.quantity, ExecutionPrice(p.buy, p.sell))
  }

  function AnnounceAll(ps: seq<Pairing>): (ms: seq<Match>)
    ensures |ms| == |ps|
    ensures forall k :: 0 <= k < |ps| ==> ms[k] == Announce(ps[k])
  {
    if ps == [] then [] else [Announce(ps[0])] + AnnounceAll(ps[1..])
  }

  predicate OneRegion(s: seq<Quote>) { forall i :: 0 <= i < |s| ==> s[i].region == s[0].region }

  lemma EligiblesPositive(side: Side, s: seq<Quote>)
    ensures Positive(Eligibles(side, s))
  {
  }

  lemma {:induction false} InsertPermutes(side: Side, q: Quote, s: seq<Quote>)
    ensures multiset(Insert(side, q, s)) == multiset{q} + multiset(s)
  {
    if s == [] || Ahead(side, q, s[0]) {
    } else {
      InsertPermutes(side, q, s[1..]);
      assert s == [s[0]] + s[1..];
    }
  }

  // The array sort permutes its input.
  lemma {:induction false} SortPermutes(side: Side, s: seq<Quote>)
    ensures multiset(Sort(side, s)) == multiset(s)
  {
    if s != [] {
      SortPermutes(side, s[1..]);
      InsertPermutes(side, s[0], Sort(side, s[1..]));
      assert s == [s[0]] + s[1..];
    }
  }

  lemma OrderBookMembers(side: Side, s: seq<Quote>)
    ensures multiset(OrderBook(side, s)) == multiset(Eligibles(side, s))
    ensures Positive(OrderBook(side, s))
  {
    var e := Eligibles(side, s);
    EligiblesPositive(side, s);
    SortPermutes(side, e);
    forall i | 0 <= i < |OrderBook(side, s)| ensures OrderBook(side, s)[i].remaining > 0 {
      var q := OrderBook(side, s)[i];
      assert q in multiset(OrderBook(side, s));
      assert q in e;
    }
  }

  // What the planner matches, before the matches are written out.
  function Pairings(buys: seq<Quote>, sells: seq<Quote>): seq<Pairing> {
    OrderBookMembers(Buy, buys);
    OrderBookMembers(Sell, sells);
    Cross(OrderBook(Buy, buys), OrderBook(Sell, sells))
  }

  // planOrderMatchesForItem: refuse a mixed book, match nothing across regions, else match greedily.
  function Plan(buys: seq<Quote>, sells: seq<Quote>): PlanResult {
    if !OneRegion(buys) || !OneRegion(sells) then MixedRegions
    else if buys != [] && sells != [] && buys[0].region != sells[0].region then Planned([])
    else Planned(AnnounceAll(Pairings(buys, sells)))
  }

  lemma AnnounceAppend(ps: seq<Pairing>, qs: seq<Pairing>)
    ensures AnnounceAll(ps + qs) == AnnounceAll(ps) + AnnounceAll(qs)
  {
  }

  // Counting down the order a pointer stands on, and moving the pointer past it once nothing is left.
  function Advance(s: seq<Quote>, at: nat): nat
    requires at < |s|
  {
    if s[at].remaining == 0 then at + 1 else at
  }

  lemma CountDown(s: seq<Quote>, at: nat, quantity: int)
    requires at < |s| && Positive(s[at..]) && 0 < quantity <= s[at].remaining
    ensures var t := s[at := s[at].(remaining := s[at].remaining - quantity)];
            s[at..] != [] && s[at..][0] == s[at] &&
            t[Advance(t, at)..] == After(s[at..], quantity) && Positive(t[Advance(t, at)..])
  {
    var t := s[at := s[at].(remaining := s[at].remaining - quantity)];
    assert t[at + 1..] == s[at..][1..];
    assert t[at..] == [t[at]] + t[at + 1..];
    var tail := t[at + 1..];
    forall i | 0 <= i < |tail| ensures tail[i].remaining > 0 {
      assert tail[i] == s[at..][i + 1];
    }
  }

  lemma CrossStep(done: seq<Pairing>, bs: seq<Quote>, ss: seq<Quote>, quantity: int)
    requires bs != [] && ss != [] && Positive(bs) && Positive(ss) && bs[0].price >= ss[0].price
    requires quantity == Min(bs[0].remaining, ss[0].remaining)
    ensures Positive(After(bs, quantity)) && Positive(After(ss, quantity))
    ensures done + Cross(bs, ss)
         == (done + [Pairing(bs[0], ss[0], quantity)]) + Cross(After(bs, quantity), After(ss, quantity))
  {
  }

  /** The two-pointer loop over sorted copies whose remainders it counts down. */
  method PlanOrderMatches(buys: seq<Quote>, sells: seq<Quote>) returns (r: PlanResult)
    ensures r == Plan(buys, sells)
  {
    if !OneRegion(buys) || !OneRegion(sells) {
      return MixedRegions;
    }
    if buys != [] && sells != [] && buys[0].region != sells[0].region {
      return Planned([]);
    }
    OrderBookMembers(Buy, buys);
    OrderBookMembers(Sell, sells);
    var matches := MatchSorted(OrderBook(Buy, buys), OrderBook(Sell, sells));
    r := Planned(matches);
  }

  lemma CrossStops(bs: seq<Quote>, ss: seq<Quote>)
    requires Positive(bs) && Positive(ss) && (bs == [] || ss == [] || bs[0].price < ss[0].price)
    ensures Cross(bs, ss) == []
  {
  }

  method MatchSorted(sortedBuys: seq<Quote>, sortedSells: seq<Quote>) returns (matches: seq<Match>)
    requires Positive(sortedBuys) && Positive(sortedSells)
    ensures matches == AnnounceAll(Cross(sortedBuys, sortedSells))
  {
    hide Cross;
    var orderedBuys, orderedSells := sortedBuys, sortedSells;
    var buyIndex, sellIndex := 0, 0;
    matches := [];
    ghost var done: seq<Pairing> := [];
    assert orderedBuys[0..] == sortedBuys && orderedSells[0..] == sortedSells;
    while buyIndex < |orderedBuys| && sellIndex < |orderedSells|
      invariant 0 <= buyIndex <= |orderedBuys| && 0 <= sellIndex <= |orderedSells|
      invariant Positive(orderedBuys[buyIndex..]) && Positive(orderedSells[sellIndex..])
      invariant done + Cross(orderedBuys[buyIndex..], orderedSells[sellIndex..]) == Cross(sortedBuys, sortedSells)
      invariant matches == AnnounceAll(done)
      decreases |orderedBuys| - buyIndex + |orderedSells| - sellIndex
    {
      var buy, sell := orderedBuys[buyIndex], orderedSells[sellIndex];
      if buy.price < sell.price {
        break;
      }
      assert orderedBuys[buyIndex..][0].remaining > 0 && orderedSells[sellIndex..][0].remaining > 0;
      var quantity := Min(buy.remaining, sell.remaining);
      CountDown(orderedBuys, buyIndex, quantity);
      CountDown(orderedSells, sellIndex, quantity);
      CrossStep(done, orderedBuys[buyIndex..], orderedSells[sellIndex..], quantity);
      AnnounceAppend(done, [Pairing(buy, sell, quantity)]);
      done := done + [Pairing(buy, sell, quantity)];
      matches := matches + [Announce(Pairing(buy, sell, quantity))];
      orderedBuys := orderedBuys[buyIndex := buy.(remaining := buy.remaining - quantity)];
      orderedSells := orderedSells[sellIndex := sell.(remaining := sell.remaining - quantity)];
      if orderedBuys[buyIndex].remaining == 0 {
        buyIndex := buyIndex + 1;
      }
      if orderedSells[sellIndex].remaining == 0 {
        sellIndex := sellIndex + 1;
      }
    }
    CrossStops(orderedBuys[buyIndex..], orderedSells[sellIndex..]);
    assert done + [] == done;
  }
}
