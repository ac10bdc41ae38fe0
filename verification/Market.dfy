/** Placing, cancelling and settling market orders, as functions of the open transaction's state. */
module Market {
  import opened Rows
  import opened Storage
  import opened Matching

  datatype Attempt = Reserved(total: int) | Rejected(error: Error)

  predicate CashOk(cash: int, reserved: int) { 0 <= reserved <= cash }

  predicate StockOk(s: Stock) { 0 <= s.reserved <= s.quantity }

  // reserveCashForBuyOrder: the reserved total after reserving quantity * price.
  function ReserveCash(cash: int, reserved: int, quantity: int, price: int): (r: Attempt)
    ensures r.Reserved? <==> quantity > 0 && price > 0 && CashOk(cash, reserved) && quantity * price <= cash - reserved
    ensures r.Reserved? ==> CashOk(cash, r.total) && r.total - reserved == quantity * price > 0
  {
    if quantity <= 0 || price <= 0 then Rejected(BadInput)
    else if !CashOk(cash, reserved) then Rejected(Inconsistent)
    else if cash - reserved < quantity * price then Rejected(InsufficientFunds)
    else Reserved(reserved + quantity * price)
  }

  // reserveInventoryForSellOrder
  function ReserveStock(s: Stock, quantity: int): (r: Attempt)
    ensures r.Reserved? <==> quantity > 0 && StockOk(s) && quantity <= s.quantity - s.reserved
    ensures r.Reserved? ==> StockOk(s.(reserved := r.total)) && r.total - s.reserved == quantity
  {
    if quantity <= 0 then Rejected(BadInput)
    else if !StockOk(s) then Rejected(Inconsistent)
    else if s.quantity - s.reserved < quantity then Rejected(InsufficientInventory)
    else Reserved(s.reserved + quantity)
  }

  // `locked` is the outcome of the research-tier and specialization checks on a player company.
  datatype OrderRequest = OrderRequest(
    company: Id, item: Id, region: Option<Id>, side: Side, quantity: int, price: int, locked: bool)

  function NewOrder(r: OrderRequest, region: Id, tick: int, now: int): Order {
    Order(r.company, r.item, region, r.side, Open, r.price, r.quantity, r.quantity,
          if r.side.Buy? then r.quantity * r.price else 0, if r.side.Sell? then r.quantity else 0,
          tick, now, None)
  }

  function PlaceOrder(w: World, r: OrderRequest, id: Id, tick: int, now: int): Outcome {
    if r.quantity <= 0 || r.price <= 0 || tick < 0 then Thrown(BadInput, w)
    else if r.company !in w.companies || r.item !in w.catalogue.items then Thrown(NotFound, w)
    else if r.locked then Thrown(Refused, w)
    else if r.region.Some? && r.region.value != w.companies[r.company].region then Thrown(Forbidden, w)
    else if id in w.orders then Thrown(Conflict, w)
    else if r.side.Buy? then PlaceBuy(w, r, id, tick, now)
    else PlaceSell(w, r, id, tick, now)
  }

  function PlaceBuy(w: World, r: OrderRequest, id: Id, tick: int, now: int): Outcome
    requires r.company in w.companies
  {
    var c := w.companies[r.company];
    match ReserveCash(c.cash, c.reserved, r.quantity, r.price)
    case Rejected(e) => Thrown(e, w)
    case Reserved(total) =>
      Done(w.(companies := w.companies[r.company := c.(reserved := total)],
              orders := w.orders[id := NewOrder(r, c.region, tick, now)],
              ledger := w.ledger + [Entry(r.company, tick, OrderReserve, 0, total - c.reserved, c.cash)]))
  }

  function PlaceSell(w: World, r: OrderRequest, id: Id, tick: int, now: int): Outcome
    requires r.company in w.companies
  {
    var c := w.companies[r.company];
    var key := RowKey(r.company, r.item, c.region);
    if key !in w.stock then Thrown(BadInput, w)
    else
      match ReserveStock(w.stock[key], r.quantity)
      case Rejected(e) => Thrown(e, w)
      case Reserved(total) =>
        Done(w.(stock := w.stock[key := w.stock[key].(reserved := total)],
                orders := w.orders[id := NewOrder(r, c.region, tick, now)]))
  }

  function KeyOf(o: Order): RowKey { RowKey(o.company, o.item, o.region) }

  function Withdrawn(o: Order, tick: int): Order {
    o.(status := OrderStatus.Cancelled, tickClosed := Some(tick), reservedCash := 0, reservedQuantity := 0)
  }

  function CancelOrder(w: World, id: Id, tick: int): Outcome {
    if tick < 0 then Thrown(BadInput, w)
    else if id !in w.orders then Thrown(NotFound, w)
    else if !w.orders[id].status.Open? then Done(w)
    else
      match ReleaseGuard(w, w.orders[id])
      case Some(e) => Thrown(e, w)
      case None => Done(Withdraw(w, id, tick))
  }

  predicate HoldsCash(o: Order) { o.side.Buy? && o.reservedCash > 0 }

  predicate HoldsStock(o: Order) { o.side.Sell? && o.reservedQuantity > 0 }

  // The throws of the two release branches.
  function ReleaseGuard(w: World, o: Order): Option<Error> {
    if HoldsCash(o) then
      if o.company !in w.companies then Some(NotFound)
      else if w.companies[o.company].reserved - o.reservedCash < 0 then Some(Inconsistent)
      else None
    else if HoldsStock(o) then
      if KeyOf(o) !in w.stock || w.stock[KeyOf(o)].reserved - o.reservedQuantity < 0 then Some(Inconsistent) else None
    else None
  }

  function CashReleased(companies: map<Id, Company>, o: Order): map<Id, Company>
    requires HoldsCash(o) ==> o.company in companies
  {
    if !HoldsCash(o) then companies
    else companies[o.company := companies[o.company].(reserved := companies[o.company].reserved - o.reservedCash)]
  }

  function StockReleased(stock: map<RowKey, Stock>, o: Order): map<RowKey, Stock>
    requires HoldsStock(o) ==> KeyOf(o) in stock
  {
    if !HoldsStock(o) then stock
    else stock[KeyOf(o) := stock[KeyOf(o)].(reserved := stock[KeyOf(o)].reserved - o.reservedQuantity)]
  }

  function ReleaseEntries(companies: map<Id, Company>, o: Order, tick: int): seq<Entry>
    requires HoldsCash(o) ==> o.company in companies
  {
    if !HoldsCash(o) then []
    else [Entry(o.company, tick, OrderReserve, 0, -o.reservedCash, companies[o.company].cash)]
  }

  // The order closed and whatever it held released.
  function Withdraw(w: World, id: Id, tick: int): World
    requires id in w.orders && ReleaseGuard(w, w.orders[id]).None?
  {
    var o := w.orders[id];
    w.(companies := CashReleased(w.companies, o),
       stock := StockReleased(w.stock, o),
       ledger := w.ledger + ReleaseEntries(w.companies, o, tick),
       orders := w.orders[id := Withdrawn(o, tick)])
  }

  // ---------------------------------------------------------------- settlement

  // The checks on the two orders, up to and including their own reservations.
  predicate OrdersAgree(m: Match, buy: Order, sell: Order) {
    && buy.side.Buy? && sell.side.Sell?
    && buy.item == sell.item == m.item && buy.region == sell.region == m.region
    && m.quantity <= buy.remaining && m.quantity <= sell.remaining
    && m.quantity * buy.price <= buy.reservedCash && m.quantity <= sell.reservedQuantity
  }

  // The checks on the seller's row and the buyer's cash.
  predicate PartiesCover(m: Match, buy: Order, row: Stock, buyer: Company) {
    var reduction, notional := m.quantity * buy.price, m.quantity * m.price;
    && m.quantity <= row.quantity && m.quantity <= row.reserved
    && reduction <= buyer.reserved && notional <= buyer.cash
    && buyer.reserved - reduction <= buyer.cash - notional
  }

  ghost function SettleMatch(w: World, m: Match, tick: int): Outcome {
    if m.buyOrder !in w.orders || m.sellOrder !in w.orders then Thrown(NotFound, w)
    else
      var buy, sell := w.orders[m.buyOrder], w.orders[m.sellOrder];
      if !buy.status.Open? || !sell.status.Open? then Done(w)
      else if !OrdersAgree(m, buy, sell) then Thrown(Inconsistent, w)
      else if buy.company !in w.companies || sell.company !in w.companies then Thrown(NotFound, w)
      else if KeyOf(sell) !in w.stock then Thrown(Inconsistent, w)
      else if !PartiesCover(m, buy, w.stock[KeyOf(sell)], w.companies[buy.company]) then Thrown(Inconsistent, w)
      else if buy.company != sell.company && m.quantity < 0 then Thrown(BadInput, w)
      else if buy.company != sell.company && !Fits(w, buy.company, buy.region, m.quantity) then Thrown(StorageFull, w)
      else Done(Settled(w, m, tick))
  }

  function CashAfterTrade(
    companies: map<Id, Company>, buyer: Id, seller: Id, reduction: int, notional: int): map<Id, Company>
    requires buyer in companies && seller in companies
  {
    var b, s := companies[buyer], companies[seller];
    if buyer == seller then companies[buyer := b.(reserved := b.reserved - reduction)]
    else companies[buyer := b.(cash := b.cash - notional, reserved := b.reserved - reduction)]
                  [seller := s.(cash := s.cash + notional)]
  }

  function Reduced(o: Order, quantity: int, tick: int): Order {
    var left := o.remaining - quantity;
    o.(remaining := left,
       reservedCash := if o.side.Buy? then o.reservedCash - quantity * o.price else o.reservedCash,
       reservedQuantity := if o.side.Sell? then o.reservedQuantity - quantity else o.reservedQuantity,
       status := if left == 0 then Filled else Open,
       tickClosed := if left == 0 then Some(tick) else None)
  }

  function StockAfterTrade(stock: map<RowKey, Stock>, sell: RowKey, buy: RowKey, quantity: int): map<RowKey, Stock>
    requires sell in stock
  {
    var s := stock[sell];
    Credit(stock[sell := Stock(s.quantity - quantity, s.reserved - quantity)], buy, quantity)
  }

  // The writes of one settlement, in the source's order: companies, rows, orders, trade, two ledger entries.
  function Settled(w: World, m: Match, tick: int): World
    requires m.buyOrder in w.orders && m.sellOrder in w.orders
    requires w.orders[m.buyOrder].company in w.companies && w.orders[m.sellOrder].company in w.companies
    requires KeyOf(w.orders[m.sellOrder]) in w.stock
  {
    var buy, sell := w.orders[m.buyOrder], w.orders[m.sellOrder];
    var notional, reduction := m.quantity * m.price, m.quantity * buy.price;
    var buyerCash, sellerCash := w.companies[buy.company].cash, w.companies[sell.company].cash;
    w.(companies := CashAfterTrade(w.companies, buy.company, sell.company, reduction, notional),
       stock := StockAfterTrade(w.stock, KeyOf(sell), KeyOf(buy), m.quantity),
       orders := w.orders[m.buyOrder := Reduced(buy, m.quantity, tick)]
                         [m.sellOrder := Reduced(sell, m.quantity, tick)],
       trades := w.trades + [Trade(m.buyOrder, m.sellOrder, buy.company, sell.company, buy.item, buy.region,
                                   m.quantity, m.price, notional, tick)],
       ledger := w.ledger +
         [Entry(buy.company, tick, TradeSettlement, -notional, -reduction, buyerCash - notional),
          Entry(sell.company, tick, TradeSettlement, notional, 0,
                if buy.company == sell.company then buyerCash else sellerCash + notional)])
  }

  ghost function SettleAll(w: World, ms: seq<Match>, tick: int): Outcome
    decreases |ms|
  {
    if ms == [] then Done(w)
    else
      match SettleMatch(w, ms[0], tick)
      case Thrown(e, open) => Thrown(e, open)
      case Done(next) => SettleAll(next, ms[1..], tick)
  }

  // ---------------------------------------------------------------- one tick of matching

  function QuoteOf(id: Id, o: Order): Quote {
    Quote(id, o.item, o.region, o.side, o.price, o.remaining, o.tickPlaced, o.createdAt)
  }

  // One side of a group: the open orders of a region and item among the rows the query returned.
  function GroupSide(orders: map<Id, Order>, listing: seq<Id>, region: Id, item: Id, side: Side): seq<Quote> {
    if listing == [] then []
    else
      var id := listing[0];
      (if id in orders && orders[id].status.Open? && orders[id].region == region && orders[id].item == item
          && orders[id].side == side then [QuoteOf(id, orders[id])] else [])
      + GroupSide(orders, listing[1..], region, item, side)
  }

  datatype Group = Group(region: Id, item: Id)

  function PlanGroup(orders: map<Id, Order>, listing: seq<Id>, g: Group): PlanResult {
    Plan(GroupSide(orders, listing, g.region, g.item, Buy), GroupSide(orders, listing, g.region, g.item, Sell))
  }

  // Every group is planned from the orders as they were before the first settlement.
  ghost function MatchGroups(snapshot: map<Id, Order>, listing: seq<Id>, w: World, groups: seq<Group>,
      tick: int): Outcome
    decreases |groups|
  {
    if groups == [] then Done(w)
    else
      match PlanGroup(snapshot, listing, groups[0])
      case MixedRegions => Thrown(Inconsistent, w)
      case Planned(ms) =>
        match SettleAll(w, ms, tick)
        case Thrown(e, open) => Thrown(e, open)
        case Done(next) => MatchGroups(snapshot, listing, next, groups[1..], tick)
  }

  ghost function RunMatching(w: World, listing: seq<Id>, groups: seq<Group>, tick: int): Outcome {
    MatchGroups(w.orders, listing, w, groups, tick)
  }
}
