/** Every command takes a healthy world to a healthy world that follows it. */
module Steps {
  import opened Rows
  import opened Matching
  import opened Market
  import opened Payroll
  import opened Production
  import Estate
  import Logistics
  import DemandSink
  import opened Accounting
  import opened MarketBooks
  import opened ProductionBooks
  import opened CompanyBooks
  import opened Conservation
  import opened Audits
  import opened Goods
  import opened Solvency
  import opened Health
  import opened Records

  lemma PlaceBuyBeside(w: World, r: OrderRequest, id: Id, tick: int, now: int)
    requires r.company in w.companies && id !in w.orders && PlaceBuy(w, r, id, tick, now).Done?
    ensures Beside(w, PlaceBuy(w, r, id, tick, now).world)
  {
  }

  lemma PlaceSellBeside(w: World, r: OrderRequest, id: Id, tick: int, now: int)
    requires r.company in w.companies && id !in w.orders && PlaceSell(w, r, id, tick, now).Done?
    ensures Beside(w, PlaceSell(w, r, id, tick, now).world)
  {
  }

  lemma PlaceOrderBeside(w: World, r: OrderRequest, id: Id, tick: int, now: int)
    requires PlaceOrder(w, r, id, tick, now).Done?
    ensures Beside(w, PlaceOrder(w, r, id, tick, now).world)
  {
    if r.side.Buy? { PlaceBuyBeside(w, r, id, tick, now); } else { PlaceSellBeside(w, r, id, tick, now); }
  }

  lemma PlaceOrderCarries(w: World, r: OrderRequest, id: Id, tick: int, now: int)
    requires Sound(w) && PlaceOrder(w, r, id, tick, now).Done?
    ensures Carries(w, PlaceOrder(w, r, id, tick, now).world)
  {
    hide *;
    Parts(w);
    PlaceOrderKeepsBooks(w, r, id, tick, now);
    PlaceOrderStaysSolvent(w, r, id, tick, now);
    PlaceOrderAudited(w, r, id, tick, now);
    PlaceOrderKeepsGoods(w, r, id, tick, now);
    PlaceOrderBeside(w, r, id, tick, now);
    PlaceOrderRecorded(w, r, id, tick, now);
    AsideCarries(w, PlaceOrder(w, r, id, tick, now).world);
  }

  lemma WithdrawBeside(w: World, id: Id, tick: int)
    requires id in w.orders && w.orders[id].status.Open? && ReleaseGuard(w, w.orders[id]).None?
    ensures Beside(w, Withdraw(w, id, tick))
  {
  }

  lemma CancelOrderBeside(w: World, id: Id, tick: int)
    requires CancelOrder(w, id, tick).Done?
    ensures Beside(w, CancelOrder(w, id, tick).world)
  {
    if w.orders[id].status.Open? { WithdrawBeside(w, id, tick); } else { BesideSelf(w); }
  }

  lemma CancelOrderCarries(w: World, id: Id, tick: int)
    requires Sound(w) && CancelOrder(w, id, tick).Done?
    ensures Carries(w, CancelOrder(w, id, tick).world)
  {
    hide *;
    Parts(w);
    CancelOrderKeepsBooks(w, id, tick);
    CancelOrderStaysSolvent(w, id, tick);
    CancelOrderAudited(w, id, tick);
    CancelOrderKeepsGoods(w, id, tick);
    CancelOrderBeside(w, id, tick);
    CancelOrderRecorded(w, id, tick);
    AsideCarries(w, CancelOrder(w, id, tick).world);
  }

  lemma CreateJobBeside(w: World, r: JobRequest, id: Id, tick: int)
    requires CreateJob(w, r, id, tick).Done?
    ensures Beside(w, CreateJob(w, r, id, tick).world)
    ensures CreateJob(w, r, id, tick).world.companies == w.companies
  {
  }

  lemma CreateJobCarries(w: World, r: JobRequest, id: Id, tick: int)
    requires Sound(w) && CreateJob(w, r, id, tick).Done?
    ensures Carries(w, CreateJob(w, r, id, tick).world)
  {
    hide *;
    Parts(w);
    CreateJobKeepsBooks(w, r, id, tick);
    CreateJobAudited(w, r, id, tick);
    CreateJobKeepsGoods(w, r, id, tick);
    CreateJobBeside(w, r, id, tick);
    SameCompaniesSolvent(w, CreateJob(w, r, id, tick).world);
    CreateJobRecorded(w, r, id, tick);
    AsideCarries(w, CreateJob(w, r, id, tick).world);
  }

  lemma CancelJobBeside(w: World, id: Id, tick: nat)
    requires id in w.jobs && CancelJob(w, id, tick).Done?
    ensures Beside(w, CancelJob(w, id, tick).world)
    ensures CancelJob(w, id, tick).world.companies == w.companies
  {
    if !w.jobs[id].status.InProgress? { BesideSelf(w); }
  }

  lemma CancelJobCarries(w: World, id: Id, tick: nat)
    requires Sound(w) && id in w.jobs && CancelJob(w, id, tick).Done?
    ensures Carries(w, CancelJob(w, id, tick).world)
  {
    hide *;
    Parts(w);
    CancelJobKeepsBooks(w, id, tick);
    CancelJobAudited(w, id, tick);
    CancelJobKeepsGoods(w, id, tick);
    CancelJobBeside(w, id, tick);
    SameCompaniesSolvent(w, CancelJob(w, id, tick).world);
    CancelJobRecorded(w, id, tick);
    AsideCarries(w, CancelJob(w, id, tick).world);
  }

  lemma CompleteJobBeside(w: World, id: Id, tick: int)
    requires CompleteJob(w, id, tick).Done?
    ensures Beside(w, CompleteJob(w, id, tick).world)
    ensures CompleteJob(w, id, tick).world.companies == w.companies
  {
    if id !in w.jobs || !w.jobs[id].status.InProgress? || tick < w.jobs[id].due { BesideSelf(w); }
  }

  lemma CompleteJobCarries(w: World, id: Id, tick: int)
    requires Sound(w) && CompleteJob(w, id, tick).Done?
    ensures Carries(w, CompleteJob(w, id, tick).world)
  {
    hide *;
    Parts(w);
    CompleteJobKeepsBooks(w, id, tick);
    CompleteJobAudited(w, id, tick);
    CompleteJobKeepsGoods(w, id, tick);
    CompleteJobBeside(w, id, tick);
    SameCompaniesSolvent(w, CompleteJob(w, id, tick).world);
    CompleteJobRecorded(w, id, tick);
    AsideCarries(w, CompleteJob(w, id, tick).world);
  }

  lemma SetAllocationBeside(w: World, company: Id, a: int, b: int, c: int, d: int)
    requires SetAllocation(w, company, a, b, c, d).Done?
    ensures Beside(w, SetAllocation(w, company, a, b, c, d).world) &&
            RecordsSame(w, SetAllocation(w, company, a, b, c, d).world)
    ensures StoresStill(w, SetAllocation(w, company, a, b, c, d).world)
  {
  }

  lemma SetAllocationCarries(w: World, company: Id, a: int, b: int, c: int, d: int)
    requires Sound(w) && SetAllocation(w, company, a, b, c, d).Done?
    ensures Carries(w, SetAllocation(w, company, a, b, c, d).world)
  {
    hide *;
    Parts(w);
    SetAllocationKeepsBooks(w, company, a, b, c, d);
    SetAllocationStaysSolvent(w, company, a, b, c, d);
    SetAllocationAudited(w, company, a, b, c, d);
    SetAllocationBeside(w, company, a, b, c, d);
    StillKeepsGoods(w, SetAllocation(w, company, a, b, c, d).world);
    RecordsStay(w, SetAllocation(w, company, a, b, c, d).world);
    AsideCarries(w, SetAllocation(w, company, a, b, c, d).world);
  }

  lemma LayOffBeside(w: World, company: Id, heads: int, g: Config)
    requires company in w.companies && LayOff(w, company, heads, g).Done?
    ensures Beside(w, LayOff(w, company, heads, g).world) && RecordsSame(w, LayOff(w, company, heads, g).world) &&
            StoresStill(w, LayOff(w, company, heads, g).world)
  {
  }

  lemma HireBeside(w: World, company: Id, heads: int, id: Id, now: int, g: Config)
    requires company in w.companies && Hire(w, company, heads, id, now, g).Done?
    ensures Beside(w, Hire(w, company, heads, id, now, g).world)
    ensures RecordsSame(w, Hire(w, company, heads, id, now, g).world)
    ensures StoresStill(w, Hire(w, company, heads, id, now, g).world)
  {
  }

  lemma RequestCapacityBeside(w: World, company: Id, delta: int, id: Id, now: int, g: Config)
    requires RequestCapacity(w, company, delta, id, now, g).Done?
    ensures Beside(w, RequestCapacity(w, company, delta, id, now, g).world) &&
            RecordsSame(w, RequestCapacity(w, company, delta, id, now, g).world)
    ensures StoresStill(w, RequestCapacity(w, company, delta, id, now, g).world)
  {
    if delta < 0 { LayOffBeside(w, company, -delta, g); } else { HireBeside(w, company, delta, id, now, g); }
  }

  lemma RequestCapacityCarries(w: World, company: Id, delta: int, id: Id, now: int, g: Config)
    requires Sound(w) && RequestCapacity(w, company, delta, id, now, g).Done?
    ensures Carries(w, RequestCapacity(w, company, delta, id, now, g).world)
  {
    hide *;
    Parts(w);
    RequestCapacityKeepsBooks(w, company, delta, id, now, g);
    RequestCapacityStaysSolvent(w, company, delta, id, now, g);
    RequestCapacityAudited(w, company, delta, id, now, g);
    RequestCapacityBeside(w, company, delta, id, now, g);
    StillKeepsGoods(w, RequestCapacity(w, company, delta, id, now, g).world);
    RecordsStay(w, RequestCapacity(w, company, delta, id, now, g).world);
    AsideCarries(w, RequestCapacity(w, company, delta, id, now, g).world);
  }

  lemma ApplyHiringBeside(w: World, id: Id, tick: int)
    requires Books(w)
    ensures ApplyHiring(w, id, tick).Done? && Beside(w, ApplyHiring(w, id, tick).world) &&
            RecordsSame(w, ApplyHiring(w, id, tick).world)
    ensures StoresStill(w, ApplyHiring(w, id, tick).world)
  {
    if id !in w.hirings || w.hirings[id].applied.Some? || tick < w.hirings[id].arrives { BesideSelf(w); }
  }

  lemma ApplyHiringCarries(w: World, id: Id, tick: int)
    requires Sound(w)
    ensures ApplyHiring(w, id, tick).Done? && Carries(w, ApplyHiring(w, id, tick).world)
  {
    hide *;
    Parts(w);
    ApplyHiringKeepsBooks(w, id, tick);
    ApplyHiringStaysSolvent(w, id, tick);
    ApplyHiringAudited(w, id, tick);
    ApplyHiringBeside(w, id, tick);
    StillKeepsGoods(w, ApplyHiring(w, id, tick).world);
    RecordsStay(w, ApplyHiring(w, id, tick).world);
    AsideCarries(w, ApplyHiring(w, id, tick).world);
  }

  lemma PaySalaryBeside(w: World, company: Id, tick: int, g: Config)
    requires Books(w) && ValidConfig(g)
    ensures PaySalary(w, company, tick, g).Done? && Beside(w, PaySalary(w, company, tick, g).world) &&
            RecordsSame(w, PaySalary(w, company, tick, g).world)
    ensures StoresStill(w, PaySalary(w, company, tick, g).world)
  {
    if company !in w.companies { BesideSelf(w); }
  }

  lemma PaySalaryCarries(w: World, company: Id, tick: int, g: Config)
    requires Sound(w) && ValidConfig(g)
    ensures PaySalary(w, company, tick, g).Done? && Carries(w, PaySalary(w, company, tick, g).world)
  {
    hide *;
    Parts(w);
    PaySalaryKeepsBooks(w, company, tick, g);
    PaySalaryStaysSolvent(w, company, tick, g);
    PaySalaryAudited(w, company, tick, g);
    PaySalaryBeside(w, company, tick, g);
    StillKeepsGoods(w, PaySalary(w, company, tick, g).world);
    RecordsStay(w, PaySalary(w, company, tick, g).world);
    AsideCarries(w, PaySalary(w, company, tick, g).world);
  }

  lemma AcquireBeside(w: World, r: Estate.BuildingRequest, id: Id, tick: int)
    requires Estate.Acquire(w, r, id, tick).Done?
    ensures Beside(w, Estate.Acquire(w, r, id, tick).world) && RecordsSame(w, Estate.Acquire(w, r, id, tick).world)
    ensures StoresStill(w, Estate.Acquire(w, r, id, tick).world)
  {
  }

  lemma AcquireCarries(w: World, r: Estate.BuildingRequest, id: Id, tick: int)
    requires Sound(w) && Estate.Acquire(w, r, id, tick).Done?
    ensures Carries(w, Estate.Acquire(w, r, id, tick).world)
  {
    hide *;
    Parts(w);
    AcquireKeepsBooks(w, r, id, tick);
    AcquireStaysSolvent(w, r, id, tick);
    AcquireAudited(w, r, id, tick);
    AcquireBeside(w, r, id, tick);
    StillKeepsGoods(w, Estate.Acquire(w, r, id, tick).world);
    RecordsStay(w, Estate.Acquire(w, r, id, tick).world);
    AsideCarries(w, Estate.Acquire(w, r, id, tick).world);
  }

  lemma PayCostBeside(w: World, id: Id, tick: int)
    requires id in w.buildings && w.buildings[id].company in w.companies
    ensures Beside(w, Estate.PayCost(w, id, tick)) && RecordsSame(w, Estate.PayCost(w, id, tick)) &&
            StoresStill(w, Estate.PayCost(w, id, tick))
  {
  }

  lemma ShutDownBeside(w: World, id: Id, tick: int)
    requires id in w.buildings
    ensures Beside(w, Estate.ShutDown(w, id, tick)) && RecordsSame(w, Estate.ShutDown(w, id, tick)) &&
            StoresStill(w, Estate.ShutDown(w, id, tick))
  {
  }

  lemma ChargeBuildingBeside(w: World, id: Id, tick: int)
    requires Estate.ChargeBuilding(w, id, tick).Done?
    ensures Beside(w, Estate.ChargeBuilding(w, id, tick).world) &&
            RecordsSame(w, Estate.ChargeBuilding(w, id, tick).world)
    ensures StoresStill(w, Estate.ChargeBuilding(w, id, tick).world)
  {
    if id !in w.buildings || !Estate.CostDue(w.buildings[id], tick) {
      BesideSelf(w);
    } else {
      var c := w.companies[w.buildings[id].company];
      if c.cash - c.reserved >= w.buildings[id].weeklyCost {
        PayCostBeside(w, id, tick);
      } else {
        ShutDownBeside(w, id, tick);
      }
    }
  }

  lemma ChargeBuildingCarries(w: World, id: Id, tick: int)
    requires Sound(w) && Estate.ChargeBuilding(w, id, tick).Done?
    ensures Carries(w, Estate.ChargeBuilding(w, id, tick).world)
  {
    hide *;
    Parts(w);
    ChargeBuildingKeepsBooks(w, id, tick);
    ChargeBuildingStaysSolvent(w, id, tick);
    ChargeBuildingAudited(w, id, tick);
    ChargeBuildingBeside(w, id, tick);
    StillKeepsGoods(w, Estate.ChargeBuilding(w, id, tick).world);
    RecordsStay(w, Estate.ChargeBuilding(w, id, tick).world);
    AsideCarries(w, Estate.ChargeBuilding(w, id, tick).world);
  }

  lemma ReactivateBeside(w: World, id: Id, tick: int)
    requires Estate.Reactivate(w, id, tick).Done?
    ensures Beside(w, Estate.Reactivate(w, id, tick).world) && RecordsSame(w, Estate.Reactivate(w, id, tick).world)
    ensures StoresStill(w, Estate.Reactivate(w, id, tick).world)
    ensures Estate.Reactivate(w, id, tick).world.companies == w.companies
  {
  }

  lemma ReactivateCarries(w: World, id: Id, tick: int)
    requires Sound(w) && Estate.Reactivate(w, id, tick).Done?
    ensures Carries(w, Estate.Reactivate(w, id, tick).world)
  {
    hide *;
    Parts(w);
    ReactivateKeepsBooks(w, id, tick);
    ReactivateAudited(w, id, tick);
    ReactivateBeside(w, id, tick);
    StillKeepsGoods(w, Estate.Reactivate(w, id, tick).world);
    SameCompaniesSolvent(w, Estate.Reactivate(w, id, tick).world);
    RecordsStay(w, Estate.Reactivate(w, id, tick).world);
    AsideCarries(w, Estate.Reactivate(w, id, tick).world);
  }

  lemma CreateShipmentBeside(w: World, r: Logistics.ShipmentRequest, id: Id, tick: int, g: Logistics.FeeConfig)
    requires Logistics.CreateShipment(w, r, id, tick, g).Done?
    ensures Beside(w, Logistics.CreateShipment(w, r, id, tick, g).world)
  {
  }

  lemma CreateShipmentCarries(w: World, r: Logistics.ShipmentRequest, id: Id, tick: int, g: Logistics.FeeConfig)
    requires Sound(w) && Logistics.CreateShipment(w, r, id, tick, g).Done?
    ensures Carries(w, Logistics.CreateShipment(w, r, id, tick, g).world)
  {
    hide *;
    Parts(w);
    CreateShipmentKeepsBooks(w, r, id, tick, g);
    CreateShipmentStaysSolvent(w, r, id, tick, g);
    CreateShipmentAudited(w, r, id, tick, g);
    CreateShipmentKeepsGoods(w, r, id, tick, g);
    CreateShipmentBeside(w, r, id, tick, g);
    CreateShipmentRecorded(w, r, id, tick, g);
    AsideCarries(w, Logistics.CreateShipment(w, r, id, tick, g).world);
  }

  lemma CancelShipmentBeside(w: World, id: Id, tick: nat)
    requires id in w.shipments && Logistics.CancelShipment(w, id, tick).Done?
    ensures Beside(w, Logistics.CancelShipment(w, id, tick).world)
    ensures Logistics.CancelShipment(w, id, tick).world.companies == w.companies
  {
    if !w.shipments[id].status.InTransit? { BesideSelf(w); }
  }

  lemma CancelShipmentCarries(w: World, id: Id, tick: nat)
    requires Sound(w) && id in w.shipments && Logistics.CancelShipment(w, id, tick).Done?
    ensures Carries(w, Logistics.CancelShipment(w, id, tick).world)
  {
    hide *;
    Parts(w);
    CancelShipmentKeepsBooks(w, id, tick);
    CancelShipmentAudited(w, id, tick);
    CancelShipmentKeepsGoods(w, id, tick);
    CancelShipmentBeside(w, id, tick);
    SameCompaniesSolvent(w, Logistics.CancelShipment(w, id, tick).world);
    CancelShipmentRecorded(w, id, tick);
    AsideCarries(w, Logistics.CancelShipment(w, id, tick).world);
  }

  lemma DeliverOneBeside(w: World, id: Id, tick: int)
    ensures Beside(w, Logistics.DeliverOne(w, id, tick))
    ensures Logistics.DeliverOne(w, id, tick).companies == w.companies
  {
    if Logistics.DeliverOne(w, id, tick) == w { BesideSelf(w); }
  }

  lemma DeliverOneCarries(w: World, id: Id, tick: int)
    requires Sound(w)
    ensures Carries(w, Logistics.DeliverOne(w, id, tick))
  {
    hide *;
    Parts(w);
    DeliverOneKeepsBooks(w, id, tick);
    DeliverOneAudited(w, id, tick);
    DeliverOneKeepsGoods(w, id, tick);
    DeliverOneBeside(w, id, tick);
    SameCompaniesSolvent(w, Logistics.DeliverOne(w, id, tick));
    DeliverOneRecorded(w, id, tick);
    AsideCarries(w, Logistics.DeliverOne(w, id, tick));
  }

  lemma TakeRowBeside(w: World, key: RowKey, demand: int)
    ensures Beside(w, DemandSink.TakeRow(w, key, demand)) && RecordsSame(w, DemandSink.TakeRow(w, key, demand))
    ensures DemandSink.TakeRow(w, key, demand).companies == w.companies
  {
    if DemandSink.TakeRow(w, key, demand) == w { BesideSelf(w); }
  }

  lemma TakeRowCarries(w: World, key: RowKey, demand: int)
    requires Sound(w)
    ensures Carries(w, DemandSink.TakeRow(w, key, demand))
  {
    hide *;
    Parts(w);
    TakeRowKeepsBooks(w, key, demand);
    TakeRowAudited(w, key, demand);
    TakeRowKeepsGoods(w, key, demand);
    TakeRowBeside(w, key, demand);
    SameCompaniesSolvent(w, DemandSink.TakeRow(w, key, demand));
    RecordsStay(w, DemandSink.TakeRow(w, key, demand));
    AsideCarries(w, DemandSink.TakeRow(w, key, demand));
  }

  lemma SettledBeside(w: World, m: Match, tick: int)
    requires Books(w) && Settles(w, m)
    ensures KeyOf(w.orders[m.sellOrder]) in w.stock && Beside(w, Settled(w, m, tick))
  {
    SellerRowThere(w, m, tick);
    SettledOrdersGoOn(w, m, tick);
    var next := Settled(w, m, tick);
    assert Aside(w, next) && next.jobs == w.jobs && next.shipments == w.shipments;
    hide Settled, Reduced, OrderGoesOn, Books, Settles;
  }

  lemma SettledKept(w: World, m: Match, tick: int)
    requires Books(w) && Settles(w, m)
    ensures KeyOf(w.orders[m.sellOrder]) in w.stock
    ensures BooksEntries(w, Settled(w, m, tick)) && GoodsKept(w, Settled(w, m, tick))
  {
    SellerRowThere(w, m, tick);
    hide Settled, Books, BooksEntries, GoodsKept;
    SettledAudited(w, m, tick);
    SettledKeepsGoods(w, m, tick);
  }

  lemma SettledOrdersGoOn(w: World, m: Match, tick: int)
    requires Settles(w, m)
    ensures OrdersGoOn(w.orders, w.orders[m.buyOrder := Reduced(w.orders[m.buyOrder], m.quantity, tick)]
                                         [m.sellOrder := Reduced(w.orders[m.sellOrder], m.quantity, tick)])
  {
  }

  lemma SettledCarries(w: World, m: Match, tick: int)
    requires Sound(w) && Settles(w, m) && SettleMatch(w, m, tick).Done?
    ensures Carries(w, SettleMatch(w, m, tick).world)
  {
    hide *;
    Parts(w);
    SettleMatchKeepsBooks(w, m, tick);
    SettledBeside(w, m, tick);
    SettledKept(w, m, tick);
    SettledRecorded(w, m, tick);
    AsideCarries(w, SettleMatch(w, m, tick).world);
  }
}
