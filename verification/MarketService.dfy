/** Market orders and matching, statement by statement on the tables. */
module MarketService {
  import opened Rows
  import opened Matching
  import opened Market
  import opened Database

  method PlaceMarketOrder(tx: Tables, r: OrderRequest, id: Id, tick: int, now: int) returns (error: Option<Error>)
    modifies tx
    ensures Result(error, tx.State()) == PlaceOrder(old(tx.State()), r, id, tick, now)
  {
    if r.quantity <= 0 || r.price <= 0 || tick < 0 { return Some(BadInput); }
    if r.company !in tx.companies || r.item !in tx.catalogue.items { return Some(NotFound); }
    if r.locked { return Some(Refused); }
    var company := tx.companies[r.company];
    if r.region.Some? && r.region.value != company.region { return Some(Forbidden); }
    if id in tx.orders { return Some(Conflict); }
    if r.side.Buy? {
      error := PlaceBuyOrder(tx, r, id, tick, now);
    } else {
      error := PlaceSellOrder(tx, r, id, tick, now);
    }
  }

  method PlaceBuyOrder(tx: Tables, r: OrderRequest, id: Id, tick: int, now: int) returns (error: Option<Error>)
    requires r.company in tx.companies
    modifies tx
    ensures Result(error, tx.State()) == PlaceBuy(old(tx.State()), r, id, tick, now)
  {
    var company := tx.companies[r.company];
    var attempt := ReserveCash(company.cash, company.reserved, r.quantity, r.price);
    if attempt.Rejected? { return Some(attempt.error); }
    tx.companies := tx.companies[r.company := company.(reserved := attempt.total)];
    tx.orders := tx.orders[id := NewOrder(r, company.region, tick, now)];
    tx.AppendEntry(Entry(r.company, tick, OrderReserve, 0, attempt.total - company.reserved, company.cash));
    return None;
  }

  method PlaceSellOrder(tx: Tables, r: OrderRequest, id: Id, tick: int, now: int) returns (error: Option<Error>)
    requires r.company in tx.companies
    modifies tx
    ensures Result(error, tx.State()) == PlaceSell(old(tx.State()), r, id, tick, now)
  {
    var company := tx.companies[r.company];
    var key := RowKey(r.company, r.item, company.region);
    if key !in tx.stock { return Some(BadInput); }
    var attempt := ReserveStock(tx.stock[key], r.quantity);
    if attempt.Rejected? { return Some(attempt.error); }
    tx.stock := tx.stock[key := tx.stock[key].(reserved := attempt.total)];
    tx.orders := tx.orders[id := NewOrder(r, company.region, tick, now)];
    return None;
  }

  method CancelMarketOrder(tx: Tables, id: Id, tick: int) returns (error: Option<Error>)
    modifies tx
    ensures Result(error, tx.State()) == CancelOrder(old(tx.State()), id, tick)
  {
    if tick < 0 { return Some(BadInput); }
    if id !in tx.orders { return Some(NotFound); }
    var order := tx.orders[id];
    if !order.status.Open? { return None; }
    if order.side.Buy? && order.reservedCash > 0 {
      if order.company !in tx.companies { return Some(NotFound); }
      var company := tx.companies[order.company];
      var reserved := company.reserved - order.reservedCash;
      if reserved < 0 { return Some(Inconsistent); }
      tx.companies := tx.companies[order.company := company.(reserved := reserved)];
      tx.AppendEntry(Entry(order.company, tick, OrderReserve, 0, -order.reservedCash, company.cash));
    } else if order.side.Sell? && order.reservedQuantity > 0 {
      var key := KeyOf(order);
      if key !in tx.stock { return Some(Inconsistent); }
      var reserved := tx.stock[key].reserved - order.reservedQuantity;
      if reserved < 0 { return Some(Inconsistent); }
      tx.stock := tx.stock[key := tx.stock[key].(reserved := reserved)];
    }
    tx.orders := tx.orders[id := Withdrawn(order, tick)];
    return None;
  }

  method SettleOne(tx: Tables, m: Match, tick: int) returns (error: Option<Error>)
    modifies tx
    ensures Result(error, tx.State()) == SettleMatch(old(tx.State()), m, tick)
  {
    if m.buyOrder !in tx.orders || m.sellOrder !in tx.orders { return Some(NotFound); }
    var buy, sell := tx.orders[m.buyOrder], tx.orders[m.sellOrder];
    if !buy.status.Open? || !sell.status.Open? { return None; }
    if !OrdersAgree(m, buy, sell) { return Some(Inconsistent); }
    if buy.company !in tx.companies || sell.company !in tx.companies { return Some(NotFound); }
    var sellKey, buyKey := KeyOf(sell), KeyOf(buy);
    if sellKey !in tx.stock { return Some(Inconsistent); }
    var row, buyer, seller := tx.stock[sellKey], tx.companies[buy.company], tx.companies[sell.company];
    if !PartiesCover(m, buy, row, buyer) { return Some(Inconsistent); }
    if buy.company != sell.company {
      if m.quantity < 0 { return Some(BadInput); }
      var room := tx.HasRoom(buy.company, buy.region, m.quantity);
      if !room { return Some(StorageFull); }
    }
    WriteSettlement(tx, m, tick);
    return None;
  }

  // The buyer pays and its reservation shrinks; a self-trade moves no cash.
  method MoveCash(tx: Tables, buyer: Id, seller: Id, reduction: int, notional: int)
    requires buyer in tx.companies && seller in tx.companies
    modifies tx`companies
    ensures tx.companies == CashAfterTrade(old(tx.companies), buyer, seller, reduction, notional)
  {
    var b, s := tx.companies[buyer], tx.companies[seller];
    if buyer == seller {
      tx.companies := tx.companies[buyer := b.(reserved := b.reserved - reduction)];
    } else {
      tx.companies := tx.companies[buyer := b.(cash := b.cash - notional, reserved := b.reserved - reduction)];
      tx.companies := tx.companies[seller := s.(cash := s.cash + notional)];
    }
  }

  method MoveStock(tx: Tables, sell: RowKey, buy: RowKey, quantity: int)
    requires sell in tx.stock
    modifies tx`stock
    ensures tx.stock == StockAfterTrade(old(tx.stock), sell, buy, quantity)
  {
    var s := tx.stock[sell];
    tx.stock := tx.stock[sell := Stock(s.quantity - quantity, s.reserved - quantity)];
    tx.CreditStock(buy, quantity);
  }

  // The writes once every check has passed.
  method WriteSettlement(tx: Tables, m: Match, tick: int)
    requires m.buyOrder in tx.orders && m.sellOrder in tx.orders
    requires tx.orders[m.buyOrder].company in tx.companies && tx.orders[m.sellOrder].company in tx.companies
    requires KeyOf(tx.orders[m.sellOrder]) in tx.stock
    modifies tx
    ensures tx.State() == Settled(old(tx.State()), m, tick)
  {
    hide CashAfterTrade, StockAfterTrade, Reduced;
    var buy, sell := tx.orders[m.buyOrder], tx.orders[m.sellOrder];
    var notional, reduction := m.quantity * m.price, m.quantity * buy.price;
    var buyerCash, sellerCash := tx.companies[buy.company].cash, tx.companies[sell.company].cash;
    MoveCash(tx, buy.company, sell.company, reduction, notional);
    MoveStock(tx, KeyOf(sell), KeyOf(buy), m.quantity);
    tx.orders := tx.orders[m.buyOrder := Reduced(buy, m.quantity, tick)];
    tx.orders := tx.orders[m.sellOrder := Reduced(sell, m.quantity, tick)];
    RecordTrade(tx, Trade(m.buyOrder, m.sellOrder, buy.company, sell.company, buy.item, buy.region,
                          m.quantity, m.price, notional, tick),
                reduction, buyerCash, sellerCash);
  }

  method RecordTrade(tx: Tables, t: Trade, reduction: int, buyerCash: int, sellerCash: int)
    modifies tx`trades, tx`ledger
    ensures tx.trades == old(tx.trades) + [t]
    ensures tx.ledger == old(tx.ledger) +
              [Entry(t.buyer, t.tick, TradeSettlement, -t.total, -reduction, buyerCash - t.total),
               Entry(t.seller, t.tick, TradeSettlement, t.total, 0,
                     if t.buyer == t.seller then buyerCash else sellerCash + t.total)]
  {
    tx.trades := tx.trades + [t];
    tx.AppendEntry(Entry(t.buyer, t.tick, TradeSettlement, -t.total, -reduction, buyerCash - t.total));
    tx.AppendEntry(Entry(t.seller, t.tick, TradeSettlement, t.total, 0,
                         if t.buyer == t.seller then buyerCash else sellerCash + t.total));
  }

  method SettleMatches(tx: Tables, ms: seq<Match>, tick: int) returns (error: Option<Error>)
    modifies tx
    ensures Result(error, tx.State()) == SettleAll(old(tx.State()), ms, tick)
  {
    hide SettleMatch;
    for i := 0 to |ms|
      invariant SettleAll(tx.State(), ms[i..], tick) == SettleAll(old(tx.State()), ms, tick)
    {
      assert ms[i..][0] == ms[i] && ms[i..][1..] == ms[i + 1..];
      error := SettleOne(tx, ms[i], tick);
      if error.Some? { return; }
    }
    return None;
  }

  // The open orders of one side of a group, collected in one pass over the rows of the order query.
  method CollectSide(orders: map<Id, Order>, listing: seq<Id>, region: Id, item: Id, side: Side)
    returns (quotes: seq<Quote>)
    ensures quotes == GroupSide(orders, listing, region, item, side)
  {
    quotes := [];
    for i := 0 to |listing|
      invariant quotes + GroupSide(orders, listing[i..], region, item, side) ==
              GroupSide(orders, listing, region, item, side)
    {
      var id := listing[i];
      assert listing[i..][0] == id && listing[i..][1..] == listing[i + 1..];
      ghost var rest := GroupSide(orders, listing[i + 1..], region, item, side);
      if id in orders && orders[id].status.Open? && orders[id].region == region && orders[id].item == item
         && orders[id].side == side {
        assert GroupSide(orders, listing[i..], region, item, side) == [QuoteOf(id, orders[id])] + rest;
        quotes := quotes + [QuoteOf(id, orders[id])];
      } else {
        assert GroupSide(orders, listing[i..], region, item, side) == [] + rest == rest;
      }
    }
  }

  // runMarketMatchingForTick: the book is read once, then each group is planned from it and settled.
  method RunMarketMatching(tx: Tables, listing: seq<Id>, groups: seq<Group>, tick: int) returns (error: Option<Error>)
    modifies tx
    ensures Result(error, tx.State()) == RunMatching(old(tx.State()), listing, groups, tick)
  {
    var snapshot := tx.orders;
    for i := 0 to |groups|
      invariant MatchGroups(snapshot, listing, tx.State(), groups[i..], tick) ==
              RunMatching(old(tx.State()), listing, groups, tick)
    {
      hide SettleAll, Plan;
      assert groups[i..][0] == groups[i] && groups[i..][1..] == groups[i + 1..];
      var buys := CollectSide(snapshot, listing, groups[i].region, groups[i].item, Buy);
      var sells := CollectSide(snapshot, listing, groups[i].region, groups[i].item, Sell);
      var plan := PlanOrderMatches(buys, sells);
      if plan.MixedRegions? { return Some(Inconsistent); }
      error := SettleMatches(tx, plan.matches, tick);
      if error.Some? { return; }
    }
    return None;
  }
}
