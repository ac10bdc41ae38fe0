/** Where the consistency checks that guard the accounting can fail: exactly where reserved cash is not covered. */
module Consistency {
  import opened Rows
  import opened Storage
  import opened Matching
  import opened Market
  import opened Payroll
  import opened Production
  import Estate
  import Logistics
  import Contracts
  import Research
  import opened Pipeline
  import opened Simulation
  import opened Accounting
  import opened Conservation
  import opened MarketBooks
  import opened ProductionBooks
  import opened CompanyBooks
  import opened Health
  import opened Stages
  import opened TickTheory
  import opened Reachable

  ghost predicate Consistent(out: Outcome) { out.Thrown? ==> out.error != Inconsistent }

  lemma PlaceOrderConsistent(w: World, r: OrderRequest, id: Id, tick: int, now: int)
    requires Books(w) && Solvent(w)
    ensures Consistent(PlaceOrder(w, r, id, tick, now))
  {
    if r.company in w.companies {
      assert Consistent(PlaceBuy(w, r, id, tick, now));
      assert Consistent(PlaceSell(w, r, id, tick, now));
    }
  }

  lemma CancelOrderConsistent(w: World, id: Id, tick: int)
    requires Books(w)
    ensures Consistent(CancelOrder(w, id, tick))
  {
    if id in w.orders && tick >= 0 { CancelOrderNeverThrows(w, id, tick); }
  }

  lemma {:induction false} ReservingConsistent(stock: map<RowKey, Stock>, company: Id, region: Id,
      reqs: seq<Ingredient>)
    requires StockRowsOk(stock)
    ensures CheckInputs(Reserve, stock, company, region, reqs) != Some(Inconsistent)
    decreases |reqs|
  {
    if reqs != [] { ReservingConsistent(stock, company, region, reqs[1..]); }
  }

  lemma CreateJobConsistent(w: World, r: JobRequest, id: Id, tick: int)
    requires Books(w)
    ensures Consistent(CreateJob(w, r, id, tick))
  {
    if r.company in w.companies && r.recipe in w.catalogue.recipes {
      ReservingConsistent(w.stock, r.company, w.companies[r.company].region,
                          Requirements(w.catalogue.recipes[r.recipe].inputs, r.runs));
    }
  }

  lemma CancelJobConsistent(w: World, id: Id, tick: int)
    requires Books(w)
    ensures Consistent(CancelJob(w, id, tick))
  {
    if id in w.jobs && tick >= 0 { CancelJobKeepsBooks(w, id, tick); }
  }

  lemma RequestCapacityConsistent(w: World, company: Id, delta: int, id: Id, now: int, g: Config)
    requires Books(w)
    ensures Consistent(RequestCapacity(w, company, delta, id, now, g))
  {
    if company in w.companies {
      if delta < 0 {
        assert Consistent(LayOff(w, company, -delta, g));
      } else {
        assert Consistent(Hire(w, company, delta, id, now, g));
      }
    }
  }

  lemma OthersConsistent(w: World, c: Command, tick: nat)
    requires Books(w) && Solvent(w)
    requires c.Allocate? || c.Build? || c.Reopen? || c.Ship? || c.Recall? || c.Accept? || c.Fulfil? || c.AbandonStudy?
    ensures Consistent(Apply(w, c, tick))
  {
    hide Logistics.CreateShipment, Contracts.FulfilContract;
    match c
    case Allocate(company, a, b, d, e) =>
    case Build(building, id) =>
    case Reopen(buildingId) =>
    case Ship(shipment, id, fees) => ShipConsistent(w, shipment, id, tick, fees);
    case Recall(shipmentId) =>
    case Accept(contractId, seller) =>
    case Fulfil(contractId, seller, quantity, locked) =>
      FulfilConsistent(w, contractId, seller, quantity, tick, locked);
    case AbandonStudy(key, studyId) =>
  }

  lemma ShipConsistent(w: World, r: Logistics.ShipmentRequest, id: Id, tick: int, g: Logistics.FeeConfig)
    requires Books(w)
    ensures Consistent(Logistics.CreateShipment(w, r, id, tick, g))
  {
  }

  lemma FulfilConsistent(w: World, id: Id, seller: Id, quantity: int, tick: int, locked: bool)
    ensures Consistent(Contracts.FulfilContract(w, id, seller, quantity, tick, locked))
  {
  }

  lemma StartResearchConsistent(w: World, key: NodeKey, id: Id, tick: int)
    requires Books(w)
    ensures Consistent(Research.StartResearch(w, key, id, tick))
  {
  }

  // Settlement, production consumption and operating costs, wherever a tick reaches them: the second never fails its
  // consistency checks, and the other two do exactly when the company that pays does not cover its reservations.
  lemma StageStepsConsistent(w: World, m: Match, job: Id, building: Id, tick: int)
    requires Books(w)
    ensures Settles(w, m) ==>
              && w.orders[m.buyOrder].company in w.companies
              && (Consistent(SettleMatch(w, m, tick)) <==>
                    BuyerCovers(m, w.orders[m.buyOrder], w.companies[w.orders[m.buyOrder].company]))
    ensures Consistent(CompleteJob(w, job, tick))
    ensures Consistent(Estate.ChargeBuilding(w, building, tick)) <==> !DueUncovered(w, building, tick)
  {
    hide Books, Settles, SettleMatch, CompleteJob, Estate.ChargeBuilding, BuyerCovers, DueUncovered, Fits;
    if Settles(w, m) { SettleMatchKeepsBooks(w, m, tick); }
    CompleteJobKeepsBooks(w, job, tick);
    ChargeThrows(w, building, tick);
  }

  lemma ReviewConsistent(w: World, company: Id)
    requires Books(w) && Solvent(w)
    ensures Consistent(Review(w, company))
  {
    if company in w.companies { assert CompanyOk(w.companies[company]); }
  }

  lemma RunBotConsistent(w: World, a: BotAction, tick: int)
    requires Books(w) && Solvent(w)
    ensures Consistent(RunBot(w, a, tick))
  {
    hide Books, Solvent, CancelOrder, PlaceOrder, AutoStart;
    match a
    case BotReview(company) => ReviewConsistent(w, company);
    case BotCancel(order) => CancelOrderConsistent(w, order, tick);
    case BotPlace(request, id, now) => PlaceOrderConsistent(w, request, id, tick, now);
    case BotProduce(company, candidates, maxJobs) => AutoStartConsistent(w, company, candidates, maxJobs, tick);
  }

  lemma AutoStartConsistent(w: World, company: Id, candidates: seq<Candidate>, maxJobs: int, tick: int)
    requires Books(w) && Solvent(w)
    ensures AutoStart(w, company, candidates, maxJobs, tick).StartThrown? ==>
              AutoStart(w, company, candidates, maxJobs, tick).error != Inconsistent
  {
    if maxJobs > 0 { StartEachKeepsBooks(w, company, candidates, maxJobs, 0, tick); }
  }

  lemma {:induction false} RunBotsConsistent(w: World, actions: seq<BotAction>, tick: int)
    requires Sound(w) && Solvent(w)
    ensures Consistent(RunBots(w, actions, tick))
    decreases |actions|
  {
    hide Sound, Follows, Solvent, Balanced, RunBot;
    if actions != [] {
      Parts(w);
      RunBotConsistent(w, actions[0], tick);
      if RunBot(w, actions[0], tick).Done? {
        RunBotCarries(w, actions[0], tick);
        RunBotsConsistent(RunBot(w, actions[0], tick).world, actions[1..], tick);
      }
    }
  }

  lemma RunTickConsistent(w: World, s: Schedule, tick: nat)
    requires Sound(w) && Solvent(w) && Configured(s) && Served(w, s, tick)
    ensures Consistent(RunTick(w, s, tick))
  {
    hide Sound, Follows, Solvent, Balanced, RunTick, Configured, Served, RunBots;
    RunBotsConsistent(w, s.bots, tick);
    RunTickCarries(w, s, tick);
    if RunBots(w, s.bots, tick).Thrown? { BotErrorIsTickError(w, s, tick); }
  }

  lemma BotErrorIsTickError(w: World, s: Schedule, tick: int)
    requires RunBots(w, s.bots, tick).Thrown?
    ensures RunTick(w, s, tick).Thrown? && RunTick(w, s, tick).error == RunBots(w, s.bots, tick).error
  {
  }

  // Where cash covers what is reserved, no command and no tick ever trips over its own accounting.
  lemma NeverInconsistent(w: World, c: Command, tick: nat)
    requires Sound(w) && Solvent(w) && Supplied(w, c, tick)
    ensures Consistent(Apply(w, c, tick))
  {
    hide Sound, Books, Solvent, PlaceOrder, CancelOrder, CreateJob, CancelJob, RequestCapacity,
         Research.StartResearch, RunTick, Configured, Served, SetAllocation, Estate.Acquire, Estate.Reactivate,
         Logistics.CreateShipment, Logistics.CancelShipment, Contracts.AcceptContract, Contracts.FulfilContract,
         Research.CancelResearch;
    Parts(w);
    match c
    case Place(order, id, now) => PlaceOrderConsistent(w, order, id, tick, now);
    case Cancel(orderId) => CancelOrderConsistent(w, orderId, tick);
    case Produce(job, id) => CreateJobConsistent(w, job, id, tick);
    case CancelProduction(jobId) => CancelJobConsistent(w, jobId, tick);
    case Resize(company, delta, id, config) => RequestCapacityConsistent(w, company, delta, id, tick, config);
    case Study(key, id) => StartResearchConsistent(w, key, id, tick);
    case AdvanceTick(schedule) => RunTickConsistent(w, schedule, tick);
    case _ => OthersConsistent(w, c, tick);
  }

  // A company that does not cover its reservations trips over them whenever it acquires a building.
  lemma UncoveredThrows(w: World, company: Id, region: Id, id: Id, tick: nat)
    requires company in w.companies && w.companies[company].reserved > w.companies[company].cash
    requires region in w.catalogue.regions
    ensures Apply(w, Build(Estate.BuildingRequest(company, region, Production, 0, 0), id), tick)
         == Thrown(Inconsistent, w)
  {
  }

  // So the checks are silent over all commands and ticks exactly where every company covers its reservations.
  lemma ConsistentIffCovered(w: World)
    requires Sound(w) && w.catalogue.regions != {}
    ensures Solvent(w) <==> forall c, tick: nat :: Supplied(w, c, tick) ==> Consistent(Apply(w, c, tick))
  {
    hide Sound, Apply, Supplied;
    if Solvent(w) {
      hide Consistent;
      forall c, tick: nat | Supplied(w, c, tick) ensures Consistent(Apply(w, c, tick)) {
        NeverInconsistent(w, c, tick);
      }
    } else {
      var company :| company in w.companies && w.companies[company].reserved > w.companies[company].cash;
      var region :| region in w.catalogue.regions;
      var c := Build(Estate.BuildingRequest(company, region, Production, 0, 0), 0);
      UncoveredThrows(w, company, region, 0, 0);
      BuildSupplied(w, c);
      assert !Consistent(Apply(w, c, 0));
    }
  }

  lemma BuildSupplied(w: World, c: Command)
    requires c.Build?
    ensures Supplied(w, c, 0)
  {
  }
}
