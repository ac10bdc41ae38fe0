/** Every command accounts for the goods it moves. */
module Goods {
  import opened Rows
  import opened Sums
  import opened Storage
  import opened Matching
  import opened Market
  import opened Production
  import opened ProductionBooks
  import opened Accounting
  import Logistics
  import DemandSink
  import Contracts
  import opened Conservation

  lemma SameStockKeepsGoods(w: World, next: World)
    requires next.stock.Keys == w.stock.Keys && forall k :: k in w.stock ==>
            next.stock[k].quantity == w.stock[k].quantity
    requires next.shipments == w.shipments && next.jobs == w.jobs && next.consumed == w.consumed
    ensures GoodsKept(w, next)
  {
    StockedSame(w.stock, next.stock);
  }

  // A job row that is not completed, before or after, makes nothing.
  lemma JobKeepsGoods(w: World, next: World, id: Id, job: Job)
    requires next.stock.Keys == w.stock.Keys && forall k :: k in w.stock ==>
            next.stock[k].quantity == w.stock[k].quantity
    requires next.shipments == w.shipments && next.jobs == w.jobs[id := job] && next.consumed == w.consumed
    requires !job.status.JobCompleted? && (id in w.jobs ==> !w.jobs[id].status.JobCompleted?)
    ensures GoodsKept(w, next)
  {
    StockedSame(w.stock, next.stock);
    MadePut(w.jobs, id, job);
  }

  lemma CreateJobKeepsGoods(w: World, r: JobRequest, id: Id, tick: int)
    requires CreateJob(w, r, id, tick).Done?
    ensures GoodsKept(w, CreateJob(w, r, id, tick).world)
  {
    var next := CreateJob(w, r, id, tick).world;
    var job := next.jobs[id];
    CheckedInputsExist(Reserve, w.stock, job.company, job.region, JobNeeds(job));
    UseInputsEffect(Reserve, w.stock, job.company, job.region, JobNeeds(job));
    JobKeepsGoods(w, next, id, job);
  }

  lemma CancelJobKeepsGoods(w: World, id: Id, tick: int)
    requires CancelJob(w, id, tick).Done?
    ensures GoodsKept(w, CancelJob(w, id, tick).world)
  {
    var next := CancelJob(w, id, tick).world;
    var job := w.jobs[id];
    if job.status.InProgress? {
      CheckedInputsExist(Release, w.stock, job.company, job.region, JobNeeds(job));
      UseInputsEffect(Release, w.stock, job.company, job.region, JobNeeds(job));
      JobKeepsGoods(w, next, id, next.jobs[id]);
    }
  }

  // Consuming the requirements takes exactly what is needed of each item.
  lemma ConsumedStock(stock: map<RowKey, Stock>, company: Id, region: Id, reqs: seq<Ingredient>, item: Id)
    requires DistinctItems(reqs) && RowsPresent(stock, company, region, reqs)
    ensures Stocked(UseInputs(Consume, stock, company, region, reqs), item) == Stocked(stock, item) - Needed(reqs, item)
  {
    var after := UseInputs(Consume, stock, company, region, reqs);
    var key := RowKey(company, item, region);
    UseInputsEffect(Consume, stock, company, region, reqs);
    SumChangesAt(stock, StockOf(item), after, StockOf(item), key);
    if key !in stock { AbsentNotNeeded(stock, company, region, reqs, key); }
  }

  // A completed job turns its inputs into its outputs and nothing else.
  lemma CompleteJobKeepsGoods(w: World, id: Id, tick: int)
    requires Books(w) && CompleteJob(w, id, tick).Done?
    ensures GoodsKept(w, CompleteJob(w, id, tick).world)
  {
    if id in w.jobs && w.jobs[id].status.InProgress? && w.jobs[id].due <= tick {
      var next := CompleteJob(w, id, tick).world;
      var job := w.jobs[id];
      JobReservationsHold(w, id, Consume);
      MadePut(w.jobs, id, next.jobs[id]);
      var mid := UseInputs(Consume, w.stock, job.company, job.region, JobNeeds(job));
      StockedCredit(mid, OutputKey(job), job.recipe.outputQuantity * job.runs);
      assert JobNeeds(next.jobs[id]) == JobNeeds(job);
      forall i ensures Conservation.Goods(next, i) == Conservation.Goods(w, i) {
        ConsumedStock(w.stock, job.company, job.region, JobNeeds(job), i);
      }
    }
  }

  lemma SettledKeepsGoods(w: World, m: Match, tick: int)
    requires m.buyOrder in w.orders && m.sellOrder in w.orders
    requires w.orders[m.buyOrder].company in w.companies && w.orders[m.sellOrder].company in w.companies
    requires KeyOf(w.orders[m.sellOrder]) in w.stock && w.orders[m.buyOrder].item == w.orders[m.sellOrder].item
    ensures GoodsKept(w, Settled(w, m, tick))
  {
    var sell, buy := KeyOf(w.orders[m.sellOrder]), KeyOf(w.orders[m.buyOrder]);
    var s := w.stock[sell];
    var less := Stock(s.quantity - m.quantity, s.reserved - m.quantity);
    StockedPut(w.stock, sell, less);
    StockedCredit(w.stock[sell := less], buy, m.quantity);
  }

  lemma PlaceOrderKeepsGoods(w: World, r: OrderRequest, id: Id, tick: int, now: int)
    requires PlaceOrder(w, r, id, tick, now).Done?
    ensures GoodsKept(w, PlaceOrder(w, r, id, tick, now).world)
  {
    SameStockKeepsGoods(w, if r.side.Buy? then PlaceBuy(w, r, id, tick, now).world
        else PlaceSell(w, r, id, tick, now).world);
  }

  lemma CancelOrderKeepsGoods(w: World, id: Id, tick: int)
    requires CancelOrder(w, id, tick).Done?
    ensures GoodsKept(w, CancelOrder(w, id, tick).world)
  {
    if w.orders[id].status.Open? {
      SameStockKeepsGoods(w, Withdraw(w, id, tick));
    }
  }

  lemma CreateShipmentKeepsGoods(w: World, r: Logistics.ShipmentRequest, id: Id, tick: int, g: Logistics.FeeConfig)
    requires Logistics.CreateShipment(w, r, id, tick, g).Done?
    ensures GoodsKept(w, Logistics.CreateShipment(w, r, id, tick, g).world)
  {
    var next := Logistics.CreateShipment(w, r, id, tick, g).world;
    var from := RowKey(r.company, r.item, w.companies[r.company].region);
    StockedPut(w.stock, from, next.stock[from]);
    TransitPut(w.shipments, id, next.shipments[id]);
  }

  // A shipment that leaves transit is credited once, wherever it lands.
  lemma ArrivalKeepsGoods(w: World, next: World, id: Id, region: Id)
    requires id in w.shipments && w.shipments[id].status.InTransit? && id in next.shipments
    requires next.shipments[id] ==
            w.shipments[id].(status := next.shipments[id].status, closed := next.shipments[id].closed)
    requires !next.shipments[id].status.InTransit? && next.shipments == w.shipments[id := next.shipments[id]]
    requires next.stock == Credit(w.stock, Logistics.ArrivalKey(w.shipments[id], region), w.shipments[id].quantity)
    requires next.jobs == w.jobs && next.consumed == w.consumed
    ensures GoodsKept(w, next)
  {
    TransitPut(w.shipments, id, next.shipments[id]);
    StockedCredit(w.stock, Logistics.ArrivalKey(w.shipments[id], region), w.shipments[id].quantity);
  }

  lemma CancelShipmentKeepsGoods(w: World, id: Id, tick: int)
    requires Logistics.CancelShipment(w, id, tick).Done?
    ensures GoodsKept(w, Logistics.CancelShipment(w, id, tick).world)
  {
    if w.shipments[id].status.InTransit? {
      ArrivalKeepsGoods(w, Logistics.CancelShipment(w, id, tick).world, id, w.shipments[id].from);
    }
  }

  lemma DeliverOneKeepsGoods(w: World, id: Id, tick: int)
    ensures GoodsKept(w, Logistics.DeliverOne(w, id, tick))
  {
    if Logistics.Due(w, id, tick) && !Logistics.ArrivalOf(w, w.shipments[id]).StillInTransit? {
      ArrivalKeepsGoods(w, Logistics.DeliverOne(w, id, tick), id, Logistics.ArrivalRegion(w, w.shipments[id]));
    }
  }

  lemma TakeKeepsGoods(w: World, key: RowKey, taken: int)
    requires key in w.stock
    ensures GoodsKept(w, DemandSink.Take(w, key, taken))
  {
    var next := DemandSink.Take(w, key, taken);
    StockedPut(w.stock, key, next.stock[key]);
    EatenAppend(w.consumed, Consumption(key, taken));
    forall i ensures Conservation.Goods(next, i) == Conservation.Goods(w, i) {
      assert Stocked(next.stock, i) == Stocked(w.stock, i) - (if key.item == i then taken else 0);
      assert EatenOf(next.consumed, i) == EatenOf(w.consumed, i) + (if key.item == i then taken else 0);
    }
  }

  lemma TakeRowKeepsGoods(w: World, key: RowKey, demand: int)
    ensures GoodsKept(w, DemandSink.TakeRow(w, key, demand))
  {
    if key in w.stock { TakeKeepsGoods(w, key, DemandSink.TakenFrom(w, key, demand)); }
  }

  lemma FulfilKeepsGoods(w: World, id: Id, seller: Id, quantity: int, tick: int, locked: bool)
    requires Contracts.FulfilContract(w, id, seller, quantity, tick, locked).Done?
    ensures GoodsKept(w, Contracts.FulfilContract(w, id, seller, quantity, tick, locked).world)
  {
    var row := Contracts.SellerRow(w, id);
    var less := w.stock[row].(quantity := w.stock[row].quantity - quantity);
    StockedPut(w.stock, row, less);
    StockedCredit(w.stock[row := less], Contracts.BuyerRow(w, id), quantity);
  }
}
