/** What the rows record of their own past: when they closed, and how their quantities came about. */
module Records {
  import opened Rows
  import opened Matching
  import opened Market
  import opened Production
  import Logistics
  import Contracts
  import opened Accounting
  import opened MarketBooks

  // ---------------------------------------------------------------- stamps

  // An order has a closing tick exactly when it is closed, and is filled exactly when nothing is left of it.
  predicate OrderStamped(o: Order) {
    0 <= o.remaining <= o.quantity && (o.status.Open? <==> o.tickClosed.None?) &&
        (o.status.Filled? <==> o.remaining == 0)
  }

  // A job is due no earlier than it started and no later than its recipe's full duration after that.
  predicate JobStamped(job: Job) {
    (job.status.InProgress? <==> job.completed.None?) && job.started <= job.due <= job.started + job.recipe.duration
  }

  predicate ShipmentStamped(s: Shipment) {
    (s.status.InTransit? <==> s.closed.None?) && s.created <= s.arrives && s.from != s.to
  }

  predicate ContractStamped(k: Contract) {
    && (k.status.Fulfilled? || k.status.Expired? <==> k.closed.Some?)
    && (k.seller.Some? <==> k.accepted.Some?) && k.created < k.expires
  }

  ghost predicate Stamped(w: World) {
    && (forall id :: id in w.orders ==> OrderStamped(w.orders[id]))
    && (forall id :: id in w.jobs ==> JobStamped(w.jobs[id]))
    && (forall id :: id in w.shipments ==> ShipmentStamped(w.shipments[id]))
    && (forall id :: id in w.contracts ==> ContractStamped(w.contracts[id]))
  }

  // ---------------------------------------------------------------- trades

  // How much of an order the trades filled.
  function FilledBy(trades: seq<Trade>, id: Id): int {
    if trades == [] then 0
    else FilledBy(trades[..|trades| - 1], id) +
         (if trades[|trades| - 1].buyOrder == id ||
             trades[|trades| - 1].sellOrder == id then trades[|trades| - 1].quantity else 0)
  }

  // A trade joins a buy and a sell of its item and region, at a price between their limits.
  predicate TradeOk(t: Trade, orders: map<Id, Order>) {
    && t.buyOrder in orders && t.sellOrder in orders && t.quantity > 0 && t.total == t.quantity * t.price
    && orders[t.buyOrder].side.Buy? && orders[t.sellOrder].side.Sell?
    && orders[t.buyOrder].company == t.buyer && orders[t.sellOrder].company == t.seller
    && orders[t.buyOrder].item == orders[t.sellOrder].item == t.item
    && orders[t.buyOrder].region == orders[t.sellOrder].region == t.region
    && orders[t.sellOrder].price <= t.price <= orders[t.buyOrder].price
  }

  ghost predicate TradesOk(trades: seq<Trade>, orders: map<Id, Order>) {
    forall i :: 0 <= i < |trades| ==> TradeOk(trades[i], orders)
  }

  // What an order has left plus what was traded of it is what it was placed for.
  ghost predicate FillsBacked(trades: seq<Trade>, orders: map<Id, Order>) {
    forall id :: id in orders ==> orders[id].remaining + FilledBy(trades, id) == orders[id].quantity
  }

  ghost predicate Recorded(w: World) { Stamped(w) && TradesOk(w.trades, w.orders) && FillsBacked(w.trades, w.orders) }

  // ---------------------------------------------------------------- commands that touch none of these tables

  ghost predicate RecordsSame(w: World, next: World) {
    && next.orders == w.orders && next.jobs == w.jobs && next.shipments == w.shipments && next.contracts == w.contracts
    && next.trades == w.trades
  }

  lemma RecordsStay(w: World, next: World)
    requires Recorded(w) && RecordsSame(w, next)
    ensures Recorded(next)
  {
  }

  // ---------------------------------------------------------------- orders

  lemma {:induction false} StrangerUnfilled(trades: seq<Trade>, orders: map<Id, Order>, id: Id)
    requires TradesOk(trades, orders) && id !in orders
    ensures FilledBy(trades, id) == 0
  {
    if trades != [] {
      assert TradeOk(trades[|trades| - 1], orders);
      StrangerUnfilled(trades[..|trades| - 1], orders, id);
    }
  }

  // A changed order row keeps its terms.
  lemma TradesStayOk(trades: seq<Trade>, orders: map<Id, Order>, next: map<Id, Order>)
    requires TradesOk(trades, orders)
    requires forall id :: id in orders ==>
               id in next && next[id] == orders[id].(remaining := next[id].remaining, status := next[id].status,
                 reservedCash := next[id].reservedCash, reservedQuantity := next[id].reservedQuantity,
                     tickClosed := next[id].tickClosed)
    ensures TradesOk(trades, next)
  {
    forall i | 0 <= i < |trades| ensures TradeOk(trades[i], next) {
      assert TradeOk(trades[i], orders);
    }
  }

  ghost predicate OnlyOrders(w: World, next: World) {
    next.jobs == w.jobs && next.shipments == w.shipments && next.contracts == w.contracts
  }

  lemma NewOrderRecorded(w: World, next: World, id: Id, o: Order)
    requires Recorded(w) && id !in w.orders && OrderStamped(o) && o.remaining == o.quantity
    requires OnlyOrders(w, next) && next.orders == w.orders[id := o] && next.trades == w.trades
    ensures Recorded(next)
  {
    StrangerUnfilled(w.trades, w.orders, id);
    TradesStayOk(w.trades, w.orders, next.orders);
  }

  lemma PlaceOrderRecorded(w: World, r: OrderRequest, id: Id, tick: int, now: int)
    requires Recorded(w) && PlaceOrder(w, r, id, tick, now).Done?
    ensures Recorded(PlaceOrder(w, r, id, tick, now).world)
  {
    hide Recorded;
    var o := NewOrder(r, w.companies[r.company].region, tick, now);
    if r.side.Buy? {
      NewOrderRecorded(w, PlaceBuy(w, r, id, tick, now).world, id, o);
    } else {
      NewOrderRecorded(w, PlaceSell(w, r, id, tick, now).world, id, o);
    }
  }

  lemma WithdrawRecorded(w: World, id: Id, tick: int)
    requires Recorded(w) && OrdersOk(w.orders, w.companies)
    requires id in w.orders && w.orders[id].status.Open? && ReleaseGuard(w, w.orders[id]).None?
    ensures Recorded(Withdraw(w, id, tick))
  {
    hide CashReleased, StockReleased, ReleaseEntries, FilledBy, TradeOk, OrderOk;
    var next := Withdraw(w, id, tick);
    assert next.orders == w.orders[id := Withdrawn(w.orders[id], tick)] && next.trades == w.trades &&
        OnlyOrders(w, next);
    hide Withdraw;
    TradesStayOk(w.trades, w.orders, next.orders);
  }

  lemma CancelOrderRecorded(w: World, id: Id, tick: int)
    requires Recorded(w) && Books(w) && CancelOrder(w, id, tick).Done?
    ensures Recorded(CancelOrder(w, id, tick).world)
  {
    hide Recorded, Withdraw;
    if w.orders[id].status.Open? { WithdrawRecorded(w, id, tick); }
  }

  lemma FilledAppend(trades: seq<Trade>, t: Trade)
    ensures forall id :: FilledBy(trades + [t], id)
                      == FilledBy(trades, id) + (if t.buyOrder == id || t.sellOrder == id then t.quantity else 0)
  {
    assert (trades + [t])[..|trades|] == trades;
  }

  lemma SellerRowThere(w: World, m: Match, tick: int)
    requires Books(w) && Settles(w, m)
    ensures KeyOf(w.orders[m.sellOrder]) in w.stock
    ensures w.orders[m.buyOrder].company in w.companies && w.orders[m.sellOrder].company in w.companies
  {
    SettlementFacts(w, m, tick);
  }

  lemma SettledRecorded(w: World, m: Match, tick: int)
    requires Recorded(w) && Books(w) && Settles(w, m)
    ensures KeyOf(w.orders[m.sellOrder]) in w.stock && Recorded(Settled(w, m, tick))
  {
    SellerRowThere(w, m, tick);
    hide Books;
    var next := Settled(w, m, tick);
    assert next.trades == w.trades + [TradeFor(w, m, tick)] && OnlyOrders(w, next) &&
        next.orders == OrdersAfter(w, m, tick);
    hide Settled;
    SettledTrades(w, m, tick);
    SettledStamps(w, m, tick);
  }

  function TradeFor(w: World, m: Match, tick: int): Trade
    requires m.buyOrder in w.orders && m.sellOrder in w.orders
  {
    var buy, sell := w.orders[m.buyOrder], w.orders[m.sellOrder];
    Trade(m.buyOrder, m.sellOrder, buy.company, sell.company, buy.item, buy.region, m.quantity, m.price,
        m.quantity * m.price, tick)
  }

  function OrdersAfter(w: World, m: Match, tick: int): map<Id, Order>
    requires m.buyOrder in w.orders && m.sellOrder in w.orders
  {
    w.orders[m.buyOrder := Reduced(w.orders[m.buyOrder], m.quantity, tick)]
            [m.sellOrder := Reduced(w.orders[m.sellOrder], m.quantity, tick)]
  }

  lemma SettledStamps(w: World, m: Match, tick: int)
    requires Stamped(w) && Settles(w, m)
    ensures forall id :: id in OrdersAfter(w, m, tick) ==> OrderStamped(OrdersAfter(w, m, tick)[id])
  {
  }

  lemma SettledTrades(w: World, m: Match, tick: int)
    requires TradesOk(w.trades, w.orders) && FillsBacked(w.trades, w.orders) && Settles(w, m)
    ensures TradesOk(w.trades + [TradeFor(w, m, tick)], OrdersAfter(w, m, tick))
    ensures FillsBacked(w.trades + [TradeFor(w, m, tick)], OrdersAfter(w, m, tick))
  {
    TradesStayOk(w.trades, w.orders, OrdersAfter(w, m, tick));
    assert TradeOk(TradeFor(w, m, tick), OrdersAfter(w, m, tick));
    FilledAppend(w.trades, TradeFor(w, m, tick));
  }

  // ---------------------------------------------------------------- jobs and shipments

  // One row of one table changes, and the trades and orders do not.
  ghost predicate OneRow(w: World, next: World) {
    next.orders == w.orders && next.trades == w.trades
  }

  lemma CreateJobRecorded(w: World, r: JobRequest, id: Id, tick: int)
    requires Recorded(w) && CreateJob(w, r, id, tick).Done?
    ensures Recorded(CreateJob(w, r, id, tick).world)
  {
    var next := CreateJob(w, r, id, tick).world;
    assert JobStamped(next.jobs[id]);
    assert OneRow(w, next) && next.jobs == w.jobs[id := next.jobs[id]];
    assert next.shipments == w.shipments && next.contracts == w.contracts;
    hide CreateJob, JobStamped;
    assert Stamped(next);
  }

  lemma CloseJobRecorded(w: World, next: World, id: Id)
    requires Recorded(w) && id in w.jobs && OneRow(w, next) && next.shipments == w.shipments &&
            next.contracts == w.contracts
    requires id in next.jobs && next.jobs == w.jobs[id := next.jobs[id]] && JobStamped(next.jobs[id])
    ensures Recorded(next)
  {
  }

  lemma CancelJobRecorded(w: World, id: Id, tick: int)
    requires Recorded(w) && CancelJob(w, id, tick).Done?
    ensures Recorded(CancelJob(w, id, tick).world)
  {
    if w.jobs[id].status.InProgress? { CloseJobRecorded(w, CancelJob(w, id, tick).world, id); }
  }

  lemma CompleteJobRecorded(w: World, id: Id, tick: int)
    requires Recorded(w) && CompleteJob(w, id, tick).Done?
    ensures Recorded(CompleteJob(w, id, tick).world)
  {
    if id in w.jobs && w.jobs[id].status.InProgress? && w.jobs[id].due <= tick {
      CloseJobRecorded(w, CompleteJob(w, id, tick).world, id);
    }
  }

  lemma ShipmentRowRecorded(w: World, next: World, id: Id, s: Shipment)
    requires Recorded(w) && OneRow(w, next) && next.jobs == w.jobs && next.contracts == w.contracts
    requires next.shipments == w.shipments[id := s] && ShipmentStamped(s)
    ensures Recorded(next)
  {
  }

  lemma CreateShipmentRecorded(w: World, r: Logistics.ShipmentRequest, id: Id, tick: int, g: Logistics.FeeConfig)
    requires Recorded(w) && Logistics.CreateShipment(w, r, id, tick, g).Done?
    ensures Recorded(Logistics.CreateShipment(w, r, id, tick, g).world)
  {
    hide Recorded;
    var next := Logistics.CreateShipment(w, r, id, tick, g).world;
    ShipmentRowRecorded(w, next, id, next.shipments[id]);
  }

  lemma CancelShipmentRecorded(w: World, id: Id, tick: int)
    requires Recorded(w) && Logistics.CancelShipment(w, id, tick).Done?
    ensures Recorded(Logistics.CancelShipment(w, id, tick).world)
  {
    var next := Logistics.CancelShipment(w, id, tick).world;
    assert ShipmentStamped(w.shipments[id]);
    hide Recorded;
    if w.shipments[id].status.InTransit? { ShipmentRowRecorded(w, next, id, next.shipments[id]); }
  }

  lemma DeliverOneRecorded(w: World, id: Id, tick: int)
    requires Recorded(w)
    ensures Recorded(Logistics.DeliverOne(w, id, tick))
  {
    var next := Logistics.DeliverOne(w, id, tick);
    if Logistics.Due(w, id, tick) && !Logistics.ArrivalOf(w, w.shipments[id]).StillInTransit? {
      assert ShipmentStamped(w.shipments[id]);
      hide Recorded, Logistics.ArrivalOf;
      ShipmentRowRecorded(w, next, id, next.shipments[id]);
    } else {
      assert next == w;
    }
  }

  // ---------------------------------------------------------------- contracts

  lemma ContractRowsRecorded(w: World, next: World)
    requires Recorded(w) && OneRow(w, next) && next.jobs == w.jobs && next.shipments == w.shipments
    requires forall id :: id in next.contracts ==> ContractStamped(next.contracts[id])
    ensures Recorded(next)
  {
  }

  lemma AcceptRecorded(w: World, id: Id, seller: Id, tick: int)
    requires Recorded(w) && Contracts.AcceptContract(w, id, seller, tick).Done?
    ensures Recorded(Contracts.AcceptContract(w, id, seller, tick).world)
  {
    ContractRowsRecorded(w, Contracts.AcceptContract(w, id, seller, tick).world);
  }

  lemma FulfilRecorded(w: World, id: Id, seller: Id, quantity: int, tick: int, locked: bool)
    requires Recorded(w) && Contracts.FulfilContract(w, id, seller, quantity, tick, locked).Done?
    ensures Recorded(Contracts.FulfilContract(w, id, seller, quantity, tick, locked).world)
  {
    ContractRowsRecorded(w, Contracts.FulfilContract(w, id, seller, quantity, tick, locked).world);
  }

  lemma ExpireRecorded(w: World, tick: int)
    requires Recorded(w)
    ensures Recorded(Contracts.ExpireContracts(w, tick))
  {
    ContractRowsRecorded(w, Contracts.ExpireContracts(w, tick));
  }

  lemma OfferRecorded(w: World, id: Id, k: Contract)
    requires Recorded(w) && ContractStamped(k)
    ensures Recorded(w.(contracts := w.contracts[id := k]))
  {
    ContractRowsRecorded(w, w.(contracts := w.contracts[id := k]));
  }
}
