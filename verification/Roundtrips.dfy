/** What one command undoes of another, and what a command settles for every later state of every run. */
module Roundtrips {
  import opened Rows
  import opened Sums
  import opened Storage
  import opened Market
  import opened Payroll
  import opened Production
  import opened Accounting
  import opened ProductionBooks
  import opened Conservation
  import opened ResearchTheory
  import opened Health
  import opened DealSteps
  import opened Simulation
  import opened Reachable
  import Estate
  import Logistics
  import Contracts
  import opened Research

  // ---------------------------------------------------------------- orders and jobs

  lemma BuyThenCancel(w: World, r: OrderRequest, id: Id, tick: int, now: int, later: nat)
    requires r.side.Buy? && PlaceOrder(w, r, id, tick, now).Done?
    ensures CancelOrder(PlaceOrder(w, r, id, tick, now).world, id, later).Done?
    ensures var back := CancelOrder(PlaceOrder(w, r, id, tick, now).world, id, later).world;
            var c, total := w.companies[r.company], r.quantity * r.price;
            && back.companies == w.companies && back == w.(orders := back.orders, ledger := back.ledger)
            && back.orders == w.orders[id := Withdrawn(NewOrder(r, c.region, tick, now), later)]
            && back.ledger == w.ledger + [Entry(r.company, tick, OrderReserve, 0, total, c.cash)]
                                       + [Entry(r.company, later, OrderReserve, 0, -total, c.cash)]
  {
    var placed := PlaceOrder(w, r, id, tick, now).world;
    var o := placed.orders[id];
    assert ReleaseGuard(placed, o).None?;
    assert CashReleased(placed.companies, o) == w.companies;
  }

  lemma SellThenCancel(w: World, r: OrderRequest, id: Id, tick: int, now: int, later: nat)
    requires r.side.Sell? && PlaceOrder(w, r, id, tick, now).Done?
    ensures CancelOrder(PlaceOrder(w, r, id, tick, now).world, id, later).Done?
    ensures var back := CancelOrder(PlaceOrder(w, r, id, tick, now).world, id, later).world;
            && back.stock == w.stock && back == w.(orders := back.orders)
            && back.orders == w.orders[id := Withdrawn(NewOrder(r, w.companies[r.company].region, tick, now), later)]
  {
    var placed := PlaceOrder(w, r, id, tick, now).world;
    var o := placed.orders[id];
    assert ReleaseGuard(placed, o).None?;
    assert StockReleased(placed.stock, o) == w.stock;
  }

  // Entries were added that say nothing was moved in all.
  ghost predicate LedgerEven(before: seq<Entry>, after: seq<Entry>) {
    forall c :: LedgerCash(after, c) == LedgerCash(before, c) && LedgerReserved(after, c) == LedgerReserved(before, c)
  }

  lemma OppositeEntries(ledger: seq<Entry>, e: Entry, e': Entry)
    requires e.company == e'.company && e.deltaCash + e'.deltaCash == 0 && e.deltaReserved + e'.deltaReserved == 0
    ensures LedgerEven(ledger, ledger + [e] + [e'])
  {
    LedgerAppend(ledger, e);
    LedgerAppend(ledger + [e], e');
  }

  lemma BuyLedgerEven(w: World, r: OrderRequest, id: Id, tick: int, now: int, later: nat)
    requires r.side.Buy? && PlaceOrder(w, r, id, tick, now).Done?
    ensures CancelOrder(PlaceOrder(w, r, id, tick, now).world, id, later).Done?
    ensures LedgerEven(w.ledger, CancelOrder(PlaceOrder(w, r, id, tick, now).world, id, later).world.ledger)
  {
    assert r.company in w.companies;
    var c, total := w.companies[r.company], r.quantity * r.price;
    BuyThenCancel(w, r, id, tick, now, later);
    hide *;
    OppositeEntries(w.ledger, Entry(r.company, tick, OrderReserve, 0, total, c.cash),
                    Entry(r.company, later, OrderReserve, 0, -total, c.cash));
  }

  ghost predicate Undone(w: World, back: World, id: Id, quantity: int, later: int) {
    && back == w.(orders := back.orders, ledger := back.ledger) && LedgerEven(w.ledger, back.ledger)
    && id !in w.orders && back.orders - {id} == w.orders
    && id in back.orders && back.orders[id].status == OrderStatus.Cancelled
    && back.orders[id].tickClosed == Some(later) && back.orders[id].remaining == quantity
  }

  lemma BuyUndone(w: World, r: OrderRequest, id: Id, tick: int, now: int, later: nat)
    requires r.side.Buy? && id !in w.orders && r.company in w.companies && PlaceOrder(w, r, id, tick, now).Done?
    ensures CancelOrder(PlaceOrder(w, r, id, tick, now).world, id, later).Done?
    ensures Undone(w, CancelOrder(PlaceOrder(w, r, id, tick, now).world, id, later).world, id, r.quantity, later)
  {
    hide PlaceOrder, CancelOrder, LedgerEven;
    BuyThenCancel(w, r, id, tick, now, later);
    BuyLedgerEven(w, r, id, tick, now, later);
    assert CancelOrder(PlaceOrder(w, r, id, tick, now).world, id, later).world.orders - {id} == w.orders;
  }

  lemma SellUndone(w: World, r: OrderRequest, id: Id, tick: int, now: int, later: nat)
    requires r.side.Sell? && id !in w.orders && r.company in w.companies && PlaceOrder(w, r, id, tick, now).Done?
    ensures CancelOrder(PlaceOrder(w, r, id, tick, now).world, id, later).Done?
    ensures Undone(w, CancelOrder(PlaceOrder(w, r, id, tick, now).world, id, later).world, id, r.quantity, later)
  {
    hide PlaceOrder, CancelOrder;
    SellThenCancel(w, r, id, tick, now, later);
    assert CancelOrder(PlaceOrder(w, r, id, tick, now).world, id, later).world.orders - {id} == w.orders;
  }

  // A placement and its cancel leave cash, stock and every reservation as they were, and their ledger entries cancel.
  lemma PlaceThenCancel(w: World, r: OrderRequest, id: Id, tick: int, now: int, later: nat)
    requires PlaceOrder(w, r, id, tick, now).Done?
    ensures CancelOrder(PlaceOrder(w, r, id, tick, now).world, id, later).Done?
    ensures var back := CancelOrder(PlaceOrder(w, r, id, tick, now).world, id, later).world;
            && back == w.(orders := back.orders, ledger := back.ledger) && LedgerEven(w.ledger, back.ledger)
            && id !in w.orders && back.orders - {id} == w.orders
            && id in back.orders && back.orders[id].status == OrderStatus.Cancelled
            && back.orders[id].tickClosed == Some(later) && back.orders[id].remaining == r.quantity
  {
    assert id !in w.orders && r.company in w.companies;
    if r.side.Buy? {
      BuyUndone(w, r, id, tick, now, later);
    } else {
      SellUndone(w, r, id, tick, now, later);
    }
    hide PlaceOrder, CancelOrder, LedgerEven;
  }

  lemma ReservedThenReleased(stock: map<RowKey, Stock>, company: Id, region: Id, reqs: seq<Ingredient>)
    requires RowsPresent(stock, company, region, reqs)
    ensures var reserved := UseInputs(Reserve, stock, company, region, reqs);
            RowsPresent(reserved, company, region, reqs) && UseInputs(Release, reserved, company, region, reqs) == stock
  {
    UseInputsEffect(Reserve, stock, company, region, reqs);
    UseInputsEffect(Release, UseInputs(Reserve, stock, company, region, reqs), company, region, reqs);
  }

  lemma CreatedFacts(w: World, r: JobRequest, id: Id, tick: int)
    requires CreateJob(w, r, id, tick).Done?
    ensures id !in w.jobs && id in CreateJob(w, r, id, tick).world.jobs
    ensures var next := CreateJob(w, r, id, tick).world;
            var job := next.jobs[id];
            && job.status.InProgress? && RowsPresent(w.stock, job.company, job.region, JobNeeds(job))
            && next == w.(stock := UseInputs(Reserve, w.stock, job.company, job.region, JobNeeds(job)),
                          jobs := w.jobs[id := job])
  {
    var c, recipe := w.companies[r.company], w.catalogue.recipes[r.recipe];
    CheckedInputsExist(Reserve, w.stock, r.company, c.region, Requirements(recipe.inputs, r.runs));
  }

  lemma CancelledFacts(w: World, id: Id, later: nat)
    requires id in w.jobs && w.jobs[id].status.InProgress? && CancelJob(w, id, later).Done?
    requires RowsPresent(w.stock, w.jobs[id].company, w.jobs[id].region, JobNeeds(w.jobs[id]))
    ensures var job := w.jobs[id];
            CancelJob(w, id, later).world
            == w.(stock := UseInputs(Release, w.stock, job.company, job.region, JobNeeds(job)),
                  jobs := w.jobs[id := job.(status := JobCancelled, completed := Some(later))])
  {
  }

  // A job created and cancelled gives every input back.
  lemma CreateThenCancelJob(w: World, r: JobRequest, id: Id, tick: int, later: nat)
    requires Books(w) && CreateJob(w, r, id, tick).Done?
    ensures CancelJob(CreateJob(w, r, id, tick).world, id, later).Done?
    ensures var back := CancelJob(CreateJob(w, r, id, tick).world, id, later).world;
            && back == w.(jobs := back.jobs) && back.jobs - {id} == w.jobs
            && id in back.jobs && back.jobs[id].status == JobCancelled && back.jobs[id].completed == Some(later)
  {
    hide Books, CreateJob, CancelJob, UseInputs, RowsPresent;
    CreateJobKeepsBooks(w, r, id, tick);
    CreatedFacts(w, r, id, tick);
    var created := CreateJob(w, r, id, tick).world;
    var job := created.jobs[id];
    CancelJobKeepsBooks(created, id, later);
    ReservedThenReleased(w.stock, job.company, job.region, JobNeeds(job));
    CancelledFacts(created, id, later);
    assert CancelJob(created, id, later).world.jobs - {id} == w.jobs;
  }

  // ---------------------------------------------------------------- shipments

  // A shipment sent and recalled gives the goods back to the row they came from; the fee stays paid.
  lemma ShipThenRecall(w: World, r: Logistics.ShipmentRequest, id: Id, tick: int, later: nat, g: Logistics.FeeConfig)
    requires Logistics.CreateShipment(w, r, id, tick, g).Done?
    ensures Logistics.CancelShipment(Logistics.CreateShipment(w, r, id, tick, g).world, id, later).Done?
    ensures var sent := Logistics.CreateShipment(w, r, id, tick, g).world;
            var back := Logistics.CancelShipment(sent, id, later).world;
            && back == w.(companies := back.companies, shipments := back.shipments, ledger := back.ledger)
            && back.companies == w.companies[r.company := w.companies[r.company].(
                                   cash := w.companies[r.company].cash - (g.base + g.perUnit * r.quantity))]
            && back.shipments - {id} == w.shipments && id in back.shipments
            && back.shipments[id].status == ShipmentCancelled && back.ledger == sent.ledger
  {
    var sent := Logistics.CreateShipment(w, r, id, tick, g).world;
    var back := Logistics.CancelShipment(sent, id, later).world;
    assert back.stock == w.stock;
    assert back.shipments - {id} == w.shipments;
  }

  lemma ShipmentsStayClosed(w: World, commands: seq<Issued>, id: Id)
    requires Sound(w) && AllSupplied(w, commands) && id in w.shipments && !w.shipments[id].status.InTransit?
    ensures id in Run(w, commands).shipments && Run(w, commands).shipments[id] == w.shipments[id]
  {
    hide Run, Sound, Audited, GoodsKept, ResearchGrows, OrdersGoOn, JobsGoOn, ContractsGoOn;
    RunContinues(w, commands);
    assert ShipmentGoesOn(w.shipments[id], Run(w, commands).shipments[id]);
  }

  // The goods of a shipment enter a store once: after it was recalled or delivered, in whatever state a run then
  // reaches, neither another cancel nor a delivery does anything.
  lemma ClosedShipmentIsInert(w: World, commands: seq<Issued>, id: Id, tick: nat)
    requires Sound(w) && AllSupplied(w, commands) && id in w.shipments && !w.shipments[id].status.InTransit?
    ensures Logistics.CancelShipment(Run(w, commands), id, tick) == Done(Run(w, commands))
    ensures Logistics.DeliverOne(Run(w, commands), id, tick) == Run(w, commands)
  {
    ShipmentsStayClosed(w, commands, id);
    hide Sound, Run, AllSupplied;
  }

  // ---------------------------------------------------------------- workforce

  // An allocation is accepted exactly when its four shares make up the whole, and a refused one writes nothing.
  lemma AllocationAcceptedIff(w: World, company: Id, f: Workforce)
    requires Books(w)
    ensures SetAllocation(w, company, f.operations, f.research, f.logistics, f.corporate).Done?
       <==> company in w.companies && ValidAllocation(f)
    ensures Commit(w, SetAllocation(w, company, f.operations, f.research, f.logistics, f.corporate)) == w
            || SetAllocation(w, company, f.operations, f.research, f.logistics, f.corporate).Done?
  {
    if company in w.companies { assert CompanyOk(w.companies[company]); }
  }

  // Only the last allocation counts: an earlier one leaves no trace, and neither touches capacity or efficiency.
  lemma LastAllocationCounts(w: World, company: Id, f: Workforce, f': Workforce)
    requires SetAllocation(w, company, f.operations, f.research, f.logistics, f.corporate).Done?
    ensures var mid := SetAllocation(w, company, f.operations, f.research, f.logistics, f.corporate).world;
            var once := SetAllocation(w, company, f'.operations, f'.research, f'.logistics, f'.corporate);
            var twice := SetAllocation(mid, company, f'.operations, f'.research, f'.logistics, f'.corporate);
            && (twice.Done? <==> once.Done?) && (once.Done? ==> twice.world == once.world)
            && mid.companies[company].workforce.capacity == w.companies[company].workforce.capacity
            && mid.companies[company].workforce.efficiency == w.companies[company].workforce.efficiency
  {
    var mid := SetAllocation(w, company, f.operations, f.research, f.logistics, f.corporate).world;
    var once := SetAllocation(w, company, f'.operations, f'.research, f'.logistics, f'.corporate);
    var twice := SetAllocation(mid, company, f'.operations, f'.research, f'.logistics, f'.corporate);
    if once.Done? { assert twice.world.companies == once.world.companies; }
  }

  lemma ProductMonotone(a: int, b: int, x: nat)
    requires a <= b
    ensures a * x <= b * x
  {
  }

  lemma BonusMonotone(a: int, b: int, f: Workforce, f': Workforce, maxBonus: nat)
    requires ValidWorkforce(f) && ValidWorkforce(f') && f.capacity == f'.capacity && f.efficiency == f'.efficiency
    requires 0 <= a <= b <= 100 && maxBonus > 0
    ensures 0 <= Bonus(a, f, maxBonus) <= Bonus(b, f', maxBonus) <= maxBonus
  {
    ProductMonotone(a, b, f.efficiency);
    ProductMonotone(a * f.efficiency, b * f.efficiency, maxBonus);
  }

  lemma DurationMonotone(duration: nat, m: int, m': int)
    requires 1 <= m <= m' <= MAX_BPS
    ensures ApplyDuration(duration, m) <= ApplyDuration(duration, m')
  {
    assert duration * m <= duration * m';
  }

  // Moving staff to a function never makes that function slower.
  lemma MoreStaffIsNoSlower(f: Workforce, f': Workforce, duration: nat)
    requires ValidWorkforce(f) && ValidWorkforce(f') && f.capacity == f'.capacity && f.efficiency == f'.efficiency
    ensures f.operations <= f'.operations ==>
              ApplyDuration(duration, ProductionMultiplier(f')) <= ApplyDuration(duration, ProductionMultiplier(f))
    ensures f.research <= f'.research ==>
              ApplyDuration(duration, ResearchMultiplier(f')) <= ApplyDuration(duration, ResearchMultiplier(f))
    ensures f.logistics <= f'.logistics ==>
              ApplyDuration(duration, TravelMultiplier(f')) <= ApplyDuration(duration, TravelMultiplier(f))
  {
    if f.operations <= f'.operations {
      BonusMonotone(f.operations, f'.operations, f, f', PRODUCTION_MAX_BONUS_BPS);
      DurationMonotone(duration, ProductionMultiplier(f'), ProductionMultiplier(f));
    }
    if f.research <= f'.research {
      BonusMonotone(f.research, f'.research, f, f', RESEARCH_MAX_BONUS_BPS);
      DurationMonotone(duration, ResearchMultiplier(f'), ResearchMultiplier(f));
    }
    if f.logistics <= f'.logistics {
      BonusMonotone(f.logistics, f'.logistics, f, f', LOGISTICS_MAX_REDUCTION_BPS);
      DurationMonotone(duration, TravelMultiplier(f'), TravelMultiplier(f));
    }
  }

  // Hired heads are paid for at once and arrive once, when they are due and not before.
  lemma HireThenArrive(w: World, company: Id, heads: int, id: Id, now: int, g: Config, tick: int)
    requires heads > 0 && RequestCapacity(w, company, heads, id, now, g).Done?
    ensures var hired := RequestCapacity(w, company, heads, id, now, g).world;
            && hired.companies == w.companies[company :=
                 w.companies[company].(cash := w.companies[company].cash - heads * g.recruitmentCost)]
            && (tick < now + g.hiringDelay ==> ApplyHiring(hired, id, tick) == Done(hired))
            && (tick >= now + g.hiringDelay ==>
                  && ApplyHiring(hired, id, tick).Done?
                  && var arrived := ApplyHiring(hired, id, tick).world;
                     && arrived.companies == hired.companies[company :=
                          hired.companies[company].(workforce := hired.companies[company].workforce.(
                            capacity := w.companies[company].workforce.capacity + heads))]
                     && forall again :: ApplyHiring(arrived, id, again) == Done(arrived))
  {
  }

  lemma LaidOff(w: World, company: Id, heads: int, id: Id, now: int, g: Config)
    requires heads > 0 && RequestCapacity(w, company, -heads, id, now, g).Done?
    ensures var c, next := w.companies[company], RequestCapacity(w, company, -heads, id, now, g).world;
            && next == w.(companies := w.companies[company := next.companies[company]])
            && next.companies[company] == c.(workforce := next.companies[company].workforce)
            && next.companies[company].workforce.capacity == c.workforce.capacity - heads
            && next.companies[company].workforce.efficiency <= c.workforce.efficiency
  {
  }

  // Laying off the heads that arrived brings capacity back to what it was, and no cash.
  lemma HireThenLayOff(w: World, company: Id, heads: int, id: Id, other: Id, now: int, g: Config, tick: int)
    requires heads > 0 && RequestCapacity(w, company, heads, id, now, g).Done? && tick >= now + g.hiringDelay
    ensures ApplyHiring(RequestCapacity(w, company, heads, id, now, g).world, id, tick).Done?
    ensures var arrived := ApplyHiring(RequestCapacity(w, company, heads, id, now, g).world, id, tick).world;
            RequestCapacity(arrived, company, -heads, other, tick, g).Done? ==>
              var c, back := w.companies[company], RequestCapacity(arrived, company, -heads, other, tick, g).world;
              && back.companies[company].workforce.capacity == c.workforce.capacity
              && back.companies[company].workforce.efficiency <= c.workforce.efficiency
              && back.companies[company].cash == c.cash - heads * g.recruitmentCost
  {
    HireThenArrive(w, company, heads, id, now, g, tick);
    assert company in w.companies;
    hide RequestCapacity, ApplyHiring;
    var arrived := ApplyHiring(RequestCapacity(w, company, heads, id, now, g).world, id, tick).world;
    if RequestCapacity(arrived, company, -heads, other, tick, g).Done? {
      LaidOff(arrived, company, heads, other, tick, g);
    }
  }

  // ---------------------------------------------------------------- buildings

  lemma CapacityPut(w: World, id: Id, b: Building, c: Id, r: Id)
    ensures Capacity(w.(buildings := w.buildings[id := b]), c, r)
         == Capacity(w, c, r)
            + WAREHOUSE_CAPACITY_PER_SLOT * (WarehouseIn(c, r)(id, b) - At(w.buildings, WarehouseIn(c, r), id))
  {
    SumPut(w.buildings, WarehouseIn(c, r), id, b);
  }

  // A new warehouse adds its slot to one store of one company; it is charged from its seventh tick on, not before.
  lemma AcquiredWarehouse(w: World, r: Estate.BuildingRequest, id: Id, tick: int)
    requires Estate.Acquire(w, r, id, tick).Done?
    ensures var next := Estate.Acquire(w, r, id, tick).world;
            && (forall c, region :: Capacity(next, c, region) == Capacity(w, c, region)
                  + (if r.kind.Warehouse? && c == r.company && region == r.region then 500 else 0))
            && forall t :: Estate.CostDue(next.buildings[id], t) <==> t >= tick + 7
  {
    var next := Estate.Acquire(w, r, id, tick).world;
    forall c, region
      ensures Capacity(next, c, region) == Capacity(w, c, region)
                + (if r.kind.Warehouse? && c == r.company && region == r.region then 500 else 0)
    {
      CapacityPut(w, id, next.buildings[id], c, region);
    }
  }

  // A building its company cannot pay for is shut down and can be reopened: the room it gave comes back, the cost it
  // was shut down for is never charged, and its seven ticks start again.
  lemma ShutThenReopen(w: World, id: Id, tick: int, later: nat)
    requires id in w.buildings && w.buildings[id].active
    ensures var shut := Estate.ShutDown(w, id, tick);
            && (forall c, r :: Capacity(shut, c, r) == Capacity(w, c, r)
                  - (if w.buildings[id].kind.Warehouse? && c == w.buildings[id].company && r == w.buildings[id].region
                     then 500 else 0))
            && Estate.ChargeBuilding(shut, id, later) == Done(shut)
            && Estate.Reactivate(shut, id, later).Done?
            && var back := Estate.Reactivate(shut, id, later).world;
               && back == w.(buildings := back.buildings)
               && (forall c, r :: Capacity(back, c, r) == Capacity(w, c, r))
               && forall t :: Estate.CostDue(back.buildings[id], t) <==> t >= later + 7
  {
    var shut := Estate.ShutDown(w, id, tick);
    var back := Estate.Reactivate(shut, id, later).world;
    forall c, r
      ensures Capacity(shut, c, r) == Capacity(w, c, r)
                - (if w.buildings[id].kind.Warehouse? && c == w.buildings[id].company && r == w.buildings[id].region
                   then 500 else 0)
      ensures Capacity(back, c, r) == Capacity(w, c, r)
    {
      CapacityPut(w, id, shut.buildings[id], c, r);
      CapacityPut(shut, id, back.buildings[id], c, r);
    }
  }

  // ---------------------------------------------------------------- contracts

  lemma ContractsGoOnInRuns(w: World, commands: seq<Issued>, id: Id)
    requires Sound(w) && AllSupplied(w, commands) && id in w.contracts
    ensures id in Run(w, commands).contracts && ContractGoesOn(w.contracts[id], Run(w, commands).contracts[id])
  {
    hide Run, Sound, Audited, GoodsKept, ResearchGrows, OrdersGoOn, JobsGoOn, ShipmentsGoOn, ContractGoesOn;
    RunContinues(w, commands);
  }

  // Once a seller has accepted, in whatever state a run then reaches, nobody accepts again and nobody else delivers.
  lemma AcceptedForGood(
    w: World, id: Id, seller: Id, tick: int, commands: seq<Issued>, other: Id, quantity: int, later: int, locked: bool)
    requires Sound(w) && Contracts.AcceptContract(w, id, seller, tick).Done?
    requires AllSupplied(Contracts.AcceptContract(w, id, seller, tick).world, commands)
    ensures var reached := Run(Contracts.AcceptContract(w, id, seller, tick).world, commands);
            && id in reached.contracts && reached.contracts[id].seller == Some(seller)
            && Contracts.AcceptContract(reached, id, other, later).Thrown?
            && (other != seller ==> Contracts.FulfilContract(reached, id, other, quantity, later, locked).Thrown?)
  {
    var next := Contracts.AcceptContract(w, id, seller, tick).world;
    assert id in next.contracts && next.contracts[id].seller == Some(seller);
    hide Sound, Run, AllSupplied, Follows, Contracts.AcceptContract, Contracts.FulfilContract;
    AcceptCarries(w, id, seller, tick);
    ContractsGoOnInRuns(next, commands, id);
    SoldToOne(Run(next, commands), id, seller, other, quantity, later, locked);
  }

  lemma SoldToOne(w: World, id: Id, seller: Id, other: Id, quantity: int, tick: int, locked: bool)
    requires id in w.contracts && w.contracts[id].seller == Some(seller)
    ensures Contracts.AcceptContract(w, id, other, tick).Thrown?
    ensures other != seller ==> Contracts.FulfilContract(w, id, other, quantity, tick, locked).Thrown?
  {
  }

  // ---------------------------------------------------------------- research

  lemma BegunFacts(w: World, key: NodeKey, id: Id, tick: int)
    requires Research.StartResearch(w, key, id, tick).Done?
    ensures key.node in w.catalogue.nodes && Researchable(w, key.company) && id !in w.researchJobs
    ensures var begun := Research.StartResearch(w, key, id, tick).world;
            && IsRunning(begun.researchJobs, id, key) && begun.researchJobs - {id} == w.researchJobs
            && begun.research == w.research[key := Researching] && Researchable(begun, key.company)
            && begun.companies == w.companies[key.company := w.companies[key.company].(
                                    cash := w.companies[key.company].cash - w.catalogue.nodes[key.node].cost)]
            && begun == w.(companies := begun.companies, research := begun.research, researchJobs := begun.researchJobs,
                           ledger := begun.ledger)
  {
  }

  lemma AbandonedFacts(w: World, key: NodeKey, id: Id, tick: nat)
    requires ResearchSound(w) && IsRunning(w.researchJobs, id, key) && Researchable(w, key.company)
    ensures Research.CancelResearch(w, key, id, tick).Done?
    ensures var back := Research.CancelResearch(w, key, id, tick).world;
            && Research.Listed(back, key) == Available && back.research == w.research[key := Available]
            && back.researchJobs - {id} == w.researchJobs - {id}
            && back == w.(research := back.research, researchJobs := back.researchJobs)
  {
    var back := Research.CancelResearch(w, key, id, tick).world;
    hide ResearchSound, PrerequisitesMet;
    CancelResearchSound(w, key, id, tick);
    assert back.researchJobs - {id} == w.researchJobs - {id};
    StoredStatusIsListed(back, key);
  }

  // Research started and cancelled: the node is AVAILABLE again, the payment is not returned, the rest is as it was.
  lemma StudyThenAbandon(w: World, key: NodeKey, id: Id, tick: int, later: nat)
    requires ResearchSound(w) && Research.StartResearch(w, key, id, tick).Done?
    ensures var begun := Research.StartResearch(w, key, id, tick).world;
            && Research.CancelResearch(begun, key, id, later).Done?
            && var back := Research.CancelResearch(begun, key, id, later).world;
               && back == w.(companies := back.companies, research := back.research, researchJobs := back.researchJobs,
                             ledger := back.ledger)
               && back.companies == w.companies[key.company := w.companies[key.company].(
                                      cash := w.companies[key.company].cash - w.catalogue.nodes[key.node].cost)]
               && back.research == w.research[key := Available] && Research.Listed(back, key) == Available
               && back.researchJobs - {id} == w.researchJobs && back.ledger == begun.ledger
  {
    var begun := Research.StartResearch(w, key, id, tick).world;
    BegunFacts(w, key, id, tick);
    hide ResearchSound, Research.StartResearch, PrerequisitesMet, HasRunningJob;
    StartResearchSound(w, key, id, tick);
    AbandonedFacts(begun, key, id, later);
    var back := Research.CancelResearch(begun, key, id, later).world;
    hide Research.CancelResearch, IsRunning, Listed;
    assert back.researchJobs - {id} == w.researchJobs;
  }

  lemma CompletedInRuns(w: World, commands: seq<Issued>, key: NodeKey)
    requires Sound(w) && AllSupplied(w, commands) && CompletedKey(w, key)
    ensures CompletedKey(Run(w, commands), key) && Unlocks(w.catalogue, key) <= Run(w, commands).unlocked
  {
    Parts(w);
    hide Run, Sound, Audited, GoodsKept, ClosedKept;
    RunContinues(w, commands);
  }

  // Research that ran its time is completed for good: in whatever state a run then reaches, the node is completed, its
  // recipes are unlocked, and it can be neither started nor cancelled.
  lemma StudiedForGood(w: World, key: NodeKey, id: Id, tick: nat, commands: seq<Issued>, other: Id, later: nat)
    requires Sound(w) && IsRunning(w.researchJobs, id, key) && w.researchJobs[id].completes <= tick
    requires AllSupplied(CompleteOne(w, id, tick), commands)
    ensures CompletedKey(Run(CompleteOne(w, id, tick), commands), key)
    ensures Unlocks(w.catalogue, key) <= Run(CompleteOne(w, id, tick), commands).unlocked
    ensures Research.StartResearch(Run(CompleteOne(w, id, tick), commands), key, other, later).Thrown?
    ensures Research.CancelResearch(Run(CompleteOne(w, id, tick), commands), key, other, later).Thrown?
  {
    var next := CompleteOne(w, id, tick);
    var reached := Run(next, commands);
    assert CompletedKey(next, key) && next.catalogue == w.catalogue;
    hide *;
    CompleteOneCarries(w, id, tick);
    Onward(w, next, commands);
    CompletedInRuns(next, commands, key);
    Parts(reached);
    FinishedIsFinal(reached, key, other, later);
  }

  lemma Onward(w: World, next: World, commands: seq<Issued>)
    requires Carries(w, next) && AllSupplied(next, commands)
    ensures Sound(next) && Sound(Run(next, commands))
  {
    hide Sound, Follows, Run;
    RunContinues(next, commands);
  }

  lemma FinishedIsFinal(w: World, key: NodeKey, id: Id, tick: nat)
    requires ResearchSound(w) && CompletedKey(w, key)
    ensures Research.StartResearch(w, key, id, tick).Thrown? && Research.CancelResearch(w, key, id, tick).Thrown?
  {
    if IsRunning(w.researchJobs, id, key) { assert HasRunningJob(w.researchJobs, key); }
  }
}
