/** Orders and settlement keep the books. */
module MarketBooks {
  import opened Rows
  import opened Storage
  import opened Matching
  import opened Market
  import opened Accounting

  lemma PlaceBuyKeepsBooks(w: World, r: OrderRequest, id: Id, tick: int, now: int)
    requires Books(w) && id !in w.orders && r.side.Buy? && r.company in w.companies
    requires PlaceBuy(w, r, id, tick, now).Done?
    ensures Books(PlaceBuy(w, r, id, tick, now).world)
  {
    var c := w.companies[r.company];
    var o := NewOrder(r, c.region, tick, now);
    CashBackedPut(w.companies, w.orders, c.(reserved := c.reserved + r.quantity * r.price), id, o);
    StockBackedAside(w.stock, w.orders, w.jobs, id, o);
  }

  lemma PlaceSellKeepsBooks(w: World, r: OrderRequest, id: Id, tick: int, now: int)
    requires Books(w) && id !in w.orders && r.side.Sell? && r.company in w.companies
    requires r.quantity > 0 && r.price > 0
    requires PlaceSell(w, r, id, tick, now).Done?
    ensures Books(PlaceSell(w, r, id, tick, now).world)
  {
    var o := NewOrder(r, w.companies[r.company].region, tick, now);
    var s := w.stock[KeyOf(o)];
    CashBackedAside(w.companies, w.orders, id, o);
    StockBackedPut(w.stock, w.orders, w.jobs, s.(reserved := s.reserved + r.quantity), id, o);
  }

  lemma PlaceOrderKeepsBooks(w: World, r: OrderRequest, id: Id, tick: int, now: int)
    requires Books(w) && PlaceOrder(w, r, id, tick, now).Done?
    ensures Books(PlaceOrder(w, r, id, tick, now).world)
    ensures Solvent(w) ==> Solvent(PlaceOrder(w, r, id, tick, now).world)
  {
    if r.side.Buy? {
      PlaceBuyKeepsBooks(w, r, id, tick, now);
    } else {
      PlaceSellKeepsBooks(w, r, id, tick, now);
    }
  }

  lemma CancelBuyKeepsBooks(w: World, id: Id, tick: int)
    requires Books(w) && id in w.orders && w.orders[id].status.Open? && w.orders[id].side.Buy?
    requires ReleaseGuard(w, w.orders[id]).None?
    ensures Books(Withdraw(w, id, tick))
  {
    hide CashBacked, StockBacked, BuyClaims, SellClaims, JobClaims;
    var o := w.orders[id];
    var c := w.companies[o.company];
    CashBackedPut(w.companies, w.orders, c.(reserved := c.reserved - o.reservedCash), id, Withdrawn(o, tick));
    StockBackedAside(w.stock, w.orders, w.jobs, id, Withdrawn(o, tick));
  }

  lemma CancelSellKeepsBooks(w: World, id: Id, tick: int)
    requires Books(w) && id in w.orders && w.orders[id].status.Open? && w.orders[id].side.Sell?
    requires ReleaseGuard(w, w.orders[id]).None?
    ensures Books(Withdraw(w, id, tick))
  {
    hide CashBacked, StockBacked, BuyClaims, SellClaims, JobClaims;
    var o := w.orders[id];
    var s := w.stock[KeyOf(o)];
    CashBackedAside(w.companies, w.orders, id, Withdrawn(o, tick));
    StockBackedPut(w.stock, w.orders, w.jobs, s.(reserved := s.reserved - o.reservedQuantity), id, Withdrawn(o, tick));
  }

  lemma CancelOrderKeepsBooks(w: World, id: Id, tick: int)
    requires Books(w) && CancelOrder(w, id, tick).Done?
    ensures Books(CancelOrder(w, id, tick).world)
  {
    if w.orders[id].status.Open? {
      if w.orders[id].side.Buy? { CancelBuyKeepsBooks(w, id, tick); } else { CancelSellKeepsBooks(w, id, tick); }
    }
  }

  // A cancel of any existing order goes through: neither consistency check can fire.
  lemma CancelOrderNeverThrows(w: World, id: Id, tick: nat)
    requires Books(w) && id in w.orders
    ensures CancelOrder(w, id, tick).Done?
  {
    if w.orders[id].status.Open? { OrderCovered(w, id); }
  }

  // ---------------------------------------------------------------- settlement

  // A match between two open orders, as the planner announces it.
  ghost predicate Announced(w: World, m: Match) {
    && m.buyOrder in w.orders && m.sellOrder in w.orders
    && w.orders[m.buyOrder].side.Buy? && w.orders[m.sellOrder].side.Sell?
    && w.orders[m.buyOrder].item == w.orders[m.sellOrder].item == m.item
    && w.orders[m.buyOrder].region == w.orders[m.sellOrder].region == m.region
    && 0 < m.quantity && 0 < m.price && w.orders[m.sellOrder].price <= m.price <= w.orders[m.buyOrder].price
  }

  // A settlement that has something left to settle.
  ghost predicate Settles(w: World, m: Match) {
    && Announced(w, m)
    && w.orders[m.buyOrder].status.Open? && w.orders[m.sellOrder].status.Open?
    && m.quantity <= w.orders[m.buyOrder].remaining && m.quantity <= w.orders[m.sellOrder].remaining
  }

  lemma ReducedOk(o: Order, quantity: int, tick: int)
    requires OrderOk(o) && o.status.Open? && 0 < quantity <= o.remaining
    ensures OrderOk(Reduced(o, quantity, tick))
    ensures quantity * o.price <= o.remaining * o.price
  {
    assert (o.remaining - quantity) * o.price == o.remaining * o.price - quantity * o.price;
    assert (o.remaining - quantity) * o.price >= 0;
  }

  lemma PaysAtMostItsLimit(quantity: int, price: int, limit: int)
    requires 0 < quantity && 0 < price <= limit
    ensures 0 < quantity * price <= quantity * limit
  {
  }

  // The facts about the two orders and their holders that a settlement's checks rest on.
  lemma SettlementFacts(w: World, m: Match, tick: int)
    requires Books(w) && Settles(w, m)
    ensures var buy, sell := w.orders[m.buyOrder], w.orders[m.sellOrder];
            && buy.company in w.companies && sell.company in w.companies && KeyOf(sell) in w.stock
            && 0 < m.quantity * m.price <= m.quantity * buy.price <= buy.reservedCash
            && buy.reservedCash <= w.companies[buy.company].reserved
            && m.quantity <= sell.reservedQuantity <= w.stock[KeyOf(sell)].reserved <= w.stock[KeyOf(sell)].quantity
            && OrderOk(Reduced(buy, m.quantity, tick)) && OrderOk(Reduced(sell, m.quantity, tick))
  {
    ReducedOk(w.orders[m.buyOrder], m.quantity, tick);
    ReducedOk(w.orders[m.sellOrder], m.quantity, tick);
    OrderCovered(w, m.buyOrder);
    OrderCovered(w, m.sellOrder);
    PaysAtMostItsLimit(m.quantity, m.price, w.orders[m.buyOrder].price);
  }

  // What a settlement asks of the buyer's cash beyond its reservation.
  predicate BuyerCovers(m: Match, buy: Order, buyer: Company) {
    && m.quantity * m.price <= buyer.cash
    && buyer.reserved - m.quantity * buy.price <= buyer.cash - m.quantity * m.price
  }

  // With books in order, a settlement passes every check except possibly those on the buyer's cash and the storage
  // limit; a company that covers its reservations passes the former too.
  lemma SettlementChecks(w: World, m: Match, tick: int)
    requires Books(w) && Settles(w, m)
    ensures OrdersAgree(m, w.orders[m.buyOrder], w.orders[m.sellOrder])
    ensures w.orders[m.buyOrder].company in w.companies && w.orders[m.sellOrder].company in w.companies
    ensures KeyOf(w.orders[m.sellOrder]) in w.stock
    ensures PartiesCover(m, w.orders[m.buyOrder], w.stock[KeyOf(w.orders[m.sellOrder])],
            w.companies[w.orders[m.buyOrder].company])
       <==> BuyerCovers(m, w.orders[m.buyOrder], w.companies[w.orders[m.buyOrder].company])
    ensures Solvent(w) ==> BuyerCovers(m, w.orders[m.buyOrder], w.companies[w.orders[m.buyOrder].company])
  {
    SettlementFacts(w, m, tick);
  }

  lemma SettledCashBacked(w: World, m: Match, tick: int)
    requires Books(w) && Settles(w, m)
    ensures KeyOf(w.orders[m.sellOrder]) in w.stock ==>
              CashBacked(Settled(w, m, tick).companies, Settled(w, m, tick).orders)
  {
    var buy, sell := w.orders[m.buyOrder], w.orders[m.sellOrder];
    var b := w.companies[buy.company];
    var reduction := m.quantity * buy.price;
    ReducedOk(buy, m.quantity, tick);
    var c1 := b.(reserved := b.reserved - reduction);
    CashBackedPut(w.companies, w.orders, c1, m.buyOrder, Reduced(buy, m.quantity, tick));
    var companies1, orders1 := w.companies[buy.company := c1], w.orders[m.buyOrder := Reduced(buy, m.quantity, tick)];
    CashBackedAside(companies1, orders1, m.sellOrder, Reduced(sell, m.quantity, tick));
    CashBackedByReserved(companies1,
      CashAfterTrade(w.companies, buy.company, sell.company, reduction, m.quantity * m.price),
      orders1[m.sellOrder := Reduced(sell, m.quantity, tick)]);
  }

  lemma SettledStockBacked(w: World, m: Match, tick: int)
    requires Books(w) && Settles(w, m) && KeyOf(w.orders[m.sellOrder]) in w.stock
    ensures StockBacked(Settled(w, m, tick).stock, Settled(w, m, tick).orders, w.jobs)
  {
    var buy, sell := w.orders[m.buyOrder], w.orders[m.sellOrder];
    var s := w.stock[KeyOf(sell)];
    StockBackedAside(w.stock, w.orders, w.jobs, m.buyOrder, Reduced(buy, m.quantity, tick));
    var orders1 := w.orders[m.buyOrder := Reduced(buy, m.quantity, tick)];
    ReducedOk(sell, m.quantity, tick);
    var s1 := Stock(s.quantity - m.quantity, s.reserved - m.quantity);
    StockBackedPut(w.stock, orders1, w.jobs, s1, m.sellOrder, Reduced(sell, m.quantity, tick));
    var stock1 := w.stock[KeyOf(sell) := s1];
    CreditKeeps(stock1, KeyOf(buy), m.quantity);
    StockBackedByReserved(stock1, Settled(w, m, tick).stock, Settled(w, m, tick).orders, w.jobs);
  }

  lemma SettledOrdersOk(w: World, m: Match, tick: int)
    requires Books(w) && Settles(w, m)
    ensures KeyOf(w.orders[m.sellOrder]) in w.stock
    ensures OrdersOk(Settled(w, m, tick).orders, w.companies) && Settled(w, m, tick).companies.Keys == w.companies.Keys
  {
    SettlementFacts(w, m, tick);
  }

  lemma TradedCompaniesOk(companies: map<Id, Company>, buyer: Id, seller: Id, reduction: int, notional: int)
    requires CompaniesOk(companies) && buyer in companies && seller in companies
    requires 0 <= notional <= companies[buyer].cash && reduction <= companies[buyer].reserved
    ensures CompaniesOk(CashAfterTrade(companies, buyer, seller, reduction, notional))
  {
  }

  lemma TradedStockOk(stock: map<RowKey, Stock>, sell: RowKey, buy: RowKey, quantity: int)
    requires StockRowsOk(stock) && sell in stock && 0 <= quantity <= stock[sell].reserved
    ensures StockRowsOk(StockAfterTrade(stock, sell, buy, quantity))
  {
    var s := stock[sell];
    CreditKeeps(stock[sell := Stock(s.quantity - quantity, s.reserved - quantity)], buy, quantity);
  }

  lemma SettledRowsOk(w: World, m: Match, tick: int)
    requires Books(w) && Settles(w, m)
    requires w.orders[m.buyOrder].company in w.companies
    requires BuyerCovers(m, w.orders[m.buyOrder], w.companies[w.orders[m.buyOrder].company])
    ensures KeyOf(w.orders[m.sellOrder]) in w.stock
    ensures RowsOk(Settled(w, m, tick))
  {
    var buy, sell := w.orders[m.buyOrder], w.orders[m.sellOrder];
    SettlementFacts(w, m, tick);
    SettledOrdersOk(w, m, tick);
    TradedCompaniesOk(w.companies, buy.company, sell.company, m.quantity * buy.price, m.quantity * m.price);
    TradedStockOk(w.stock, KeyOf(sell), KeyOf(buy), m.quantity);
  }

  lemma SettledSolvent(w: World, m: Match, tick: int)
    requires Books(w) && Solvent(w) && Settles(w, m)
    ensures KeyOf(w.orders[m.sellOrder]) in w.stock
    ensures Solvent(Settled(w, m, tick))
  {
    SettlementFacts(w, m, tick);
  }

  lemma SettledBooks(w: World, m: Match, tick: int)
    requires Books(w) && Settles(w, m)
    requires w.orders[m.buyOrder].company in w.companies
    requires BuyerCovers(m, w.orders[m.buyOrder], w.companies[w.orders[m.buyOrder].company])
    ensures KeyOf(w.orders[m.sellOrder]) in w.stock
    ensures Books(Settled(w, m, tick))
  {
    SettledRowsOk(w, m, tick);
    SettledCashBacked(w, m, tick);
    SettledStockBacked(w, m, tick);
  }

  // A settlement keeps the books. It fails its consistency check exactly when the buyer's cash does not cover what it
  // is to keep in reserve, and its storage check exactly when it passes that one and the buyer's store is full. Where
  // every company covers its reservations, only the latter is left.
  lemma SettleMatchKeepsBooks(w: World, m: Match, tick: int)
    requires Books(w) && Settles(w, m)
    ensures w.orders[m.buyOrder].company in w.companies
    ensures SettleMatch(w, m, tick).Done? ==>
              SettleMatch(w, m, tick).world == Settled(w, m, tick) && Books(SettleMatch(w, m, tick).world)
    ensures SettleMatch(w, m, tick).Done? && Solvent(w) ==> Solvent(SettleMatch(w, m, tick).world)
    ensures var buy, sell := w.orders[m.buyOrder], w.orders[m.sellOrder];
            var full := buy.company != sell.company && !Fits(w, buy.company, buy.region, m.quantity);
            var covers := BuyerCovers(m, buy, w.companies[buy.company]);
            && (SettleMatch(w, m, tick) == Thrown(Inconsistent, w) <==> !covers)
            && (SettleMatch(w, m, tick) == Thrown(StorageFull, w) <==> covers && full)
            && (SettleMatch(w, m, tick).Done? <==> covers && !full)
            && (Solvent(w) ==> covers)
  {
    SettlementChecks(w, m, tick);
    hide Books, Fits;
    if BuyerCovers(m, w.orders[m.buyOrder], w.companies[w.orders[m.buyOrder].company]) { SettledBooks(w, m, tick); }
    if Solvent(w) { SettledSolvent(w, m, tick); }
  }

  lemma SettleMatchStops(w: World, m: Match, tick: int)
    requires Books(w) && Settles(w, m)
    ensures SettleMatch(w, m, tick).Thrown? ==> StopsFor(w, SettleMatch(w, m, tick).error)
    ensures SettleMatch(w, m, tick).Done? ==>
              && SettleMatch(w, m, tick).world == Settled(w, m, tick) && Books(SettleMatch(w, m, tick).world)
              && (Solvent(w) ==> Solvent(SettleMatch(w, m, tick).world))
  {
    hide Books, Settles, SettleMatch, Settled, Fits, BuyerCovers, Solvent;
    SettleMatchKeepsBooks(w, m, tick);
  }
}
