/** What one whole tick guarantees, whatever the bots do. */
module TickTheory {
  import opened Rows
  import opened Storage
  import opened Market
  import opened Payroll
  import opened Production
  import Estate
  import Logistics
  import DemandSink
  import Contracts
  import Research
  import opened Pipeline
  import opened Accounting
  import opened Conservation
  import opened MatchingRun
  import opened ProductionBooks
  import opened Health
  import opened DealSteps
  import opened Stages
  import opened StorageTheory
  import opened Delivery

  // The settings pass the checks that the stages make of them.
  ghost predicate Configured(s: Schedule) {
    && ValidConfig(s.workforce)
    && s.contracts.perTick >= 0 && s.contracts.ttl > 0 && s.contracts.bandBps >= 0 && |s.offers| >= s.contracts.perTick
    && (s.market.items != [] && s.market.buyers != [] ==> MarketOk(s.market))
  }

  // The order query of the matching stage lists the orders that are open when it runs.
  ghost predicate Served(w: World, s: Schedule, tick: int) {
    BeforeMatching(w, s, tick).Done? ==> Reads(s.listing, s.groups, BeforeMatching(w, s, tick).world.orders)
  }

  // ---------------------------------------------------------------- health

  lemma BeforeMatchingCarries(w: World, s: Schedule, tick: nat)
    requires Sound(w) && RunBots(w, s.bots, tick).Done?
    ensures var out := BeforeMatching(w, s, tick);
            if out.Done? then Carries(w, out.world) else StopsFor(w, out.error)
  {
    hide Sound, Follows, Solvent, Balanced;
    RunBotsCarries(w, s.bots, tick);
    var acted := RunBots(w, s.bots, tick).world;
    ChargeBuildingsCarries(acted, s.costs, tick);
    if Estate.ApplyOperatingCosts(acted, s.costs, tick).Done? {
      var charged := Estate.ApplyOperatingCosts(acted, s.costs, tick).world;
      CarriesComposes(w, acted, charged);
      CompleteJobsCarries(charged, s.jobs, tick);
      if CompleteJobs(charged, s.jobs, tick).Done? {
        var produced := CompleteJobs(charged, s.jobs, tick).world;
        CarriesComposes(w, charged, produced);
        CompleteEachCarries(produced, s.research, tick);
        CarriesComposes(w, produced, Research.CompleteEach(produced, s.research, tick));
      }
    }
  }

  lemma AfterMatchingCarries(w: World, s: Schedule, tick: nat)
    requires Sound(w) && Configured(s)
    ensures AfterMatching(w, s, tick).Done? ==> Carries(w, AfterMatching(w, s, tick).world)
  {
    hide Sound, Follows, Solvent, Balanced;
    var delivered := Logistics.DeliverAll(w, s.shipments, tick);
    Parts(w);
    ShipmentsDeliver(w, s.shipments, tick);
    DeliverAllCarries(w, s.shipments, tick);
    RunWorkforceCarries(delivered, s.hirings, s.payroll, tick, s.workforce);
    var paid := RunWorkforce(delivered, s.hirings, s.payroll, tick, s.workforce).world;
    CarriesComposes(w, delivered, paid);
    var drained := DemandSink.Drain(paid, s.demands);
    DrainCarries(paid, s.demands);
    CarriesComposes(w, paid, drained);
    var out := Contracts.RunContractLifecycle(drained, s.market, s.offers, tick, s.contracts);
    if out.Done? {
      LifecycleCarries(drained, s.market, s.offers, tick, s.contracts);
      CarriesComposes(w, drained, out.world);
    }
  }

  lemma {:induction false} GenerateThrowsConflict(
    w: World, m: Contracts.Market, tick: nat, sequence: nat, ids: seq<Id>, g: Contracts.ContractConfig)
    requires m.items != [] && m.buyers != []
    ensures Contracts.GenerateFrom(w, m, tick, sequence, ids, g).Thrown? ==>
              Contracts.GenerateFrom(w, m, tick, sequence, ids, g).error == Conflict
    decreases |ids|
  {
    if ids != [] {
      var k := Contracts.OfferAt(m, tick, sequence, g);
      GenerateThrowsConflict(w, m, tick, sequence + 1, ids[1..], g);
      GenerateThrowsConflict(w.(contracts := w.contracts[ids[0] := k]), m, tick, sequence + 1, ids[1..], g);
    }
  }

  lemma AfterMatchingThrows(w: World, s: Schedule, tick: nat)
    requires Sound(w) && Configured(s)
    ensures AfterMatching(w, s, tick).Thrown? ==> AfterMatching(w, s, tick).error == Conflict
  {
    hide Sound, Follows, Solvent, Balanced;
    var delivered := Logistics.DeliverAll(w, s.shipments, tick);
    Parts(w);
    ShipmentsDeliver(w, s.shipments, tick);
    DeliverAllCarries(w, s.shipments, tick);
    RunWorkforceCarries(delivered, s.hirings, s.payroll, tick, s.workforce);
    var paid := RunWorkforce(delivered, s.hirings, s.payroll, tick, s.workforce).world;
    var expired := Contracts.ExpireContracts(DemandSink.Drain(paid, s.demands), tick);
    if s.market.items != [] && s.market.buyers != [] {
      GenerateThrowsConflict(expired, s.market, tick, 0, s.offers[..s.contracts.perTick], s.contracts);
    }
  }

  // ---------------------------------------------------------------- what later stages leave alone

  // Nothing after matching touches an order, a job, a building or research.
  ghost predicate Unmoved(w: World, next: World) {
    && next.orders == w.orders && next.jobs == w.jobs && next.buildings == w.buildings
    && next.researchJobs == w.researchJobs
  }

  lemma {:induction false} DeliverAllLeaves(w: World, due: seq<Id>, tick: int)
    ensures Unmoved(w, Logistics.DeliverAll(w, due, tick))
    decreases |due|
  {
    if due != [] { DeliverAllLeaves(Logistics.DeliverOne(w, due[0], tick), due[1..], tick); }
  }

  lemma {:induction false} ApplyHiringsLeaves(w: World, due: seq<Id>, tick: int)
    requires ApplyHirings(w, due, tick).Done?
    ensures Unmoved(w, ApplyHirings(w, due, tick).world) && ApplyHirings(w, due, tick).world.stock == w.stock
    decreases |due|
  {
    if due != [] { ApplyHiringsLeaves(ApplyHiring(w, due[0], tick).world, due[1..], tick); }
  }

  lemma {:induction false} PaySalariesLeaves(w: World, companies: seq<Id>, tick: int, g: Config)
    requires PaySalaries(w, companies, tick, g).Done?
    ensures Unmoved(w, PaySalaries(w, companies, tick, g).world) &&
            PaySalaries(w, companies, tick, g).world.stock == w.stock
    ensures PaySalaries(w, companies, tick, g).world.hirings == w.hirings
    decreases |companies|
  {
    if companies != [] { PaySalariesLeaves(PaySalary(w, companies[0], tick, g).world, companies[1..], tick, g); }
  }

  lemma TakeRowLeaves(w: World, key: RowKey, demand: int)
    ensures Unmoved(w, DemandSink.TakeRow(w, key, demand)) && DemandSink.TakeRow(w, key, demand).hirings == w.hirings
  {
  }

  lemma {:induction false} TakeRowsLeaves(w: World, company: Id, item: Id, regions: seq<Id>, demand: int)
    ensures Unmoved(w, DemandSink.TakeRows(w, company, item, regions, demand))
    ensures DemandSink.TakeRows(w, company, item, regions, demand).hirings == w.hirings
    decreases |regions|
  {
    if regions != [] && demand > 0 {
      var key := RowKey(company, item, regions[0]);
      TakeRowLeaves(w, key, demand);
      hide DemandSink.TakeRow, DemandSink.TakenFrom;
      TakeRowsLeaves(DemandSink.TakeRow(w, key, demand), company, item, regions[1..],
                     demand - DemandSink.TakenFrom(w, key, demand));
    }
  }

  lemma {:induction false} DrainLeaves(w: World, demands: seq<DemandSink.Demand>)
    ensures Unmoved(w, DemandSink.Drain(w, demands)) && DemandSink.Drain(w, demands).hirings == w.hirings
    decreases |demands|
  {
    if demands != [] {
      var d := demands[0];
      TakeRowsLeaves(w, d.company, d.item, d.regions, d.quantity);
      DrainLeaves(DemandSink.TakeRows(w, d.company, d.item, d.regions, d.quantity), demands[1..]);
    }
  }

  lemma {:induction false} GenerateLeaves(
    w: World, m: Contracts.Market, tick: nat, sequence: nat, ids: seq<Id>, g: Contracts.ContractConfig)
    requires m.items != [] && m.buyers != [] && Contracts.GenerateFrom(w, m, tick, sequence, ids, g).Done?
    ensures var next := Contracts.GenerateFrom(w, m, tick, sequence, ids, g).world;
            Unmoved(w, next) && next.stock == w.stock && next.hirings == w.hirings
    decreases |ids|
  {
    if ids != [] {
      var k := Contracts.OfferAt(m, tick, sequence, g);
      if k.buyer !in w.companies || w.companies[k.buyer].cash < k.price * k.quantity {
        GenerateLeaves(w, m, tick, sequence + 1, ids[1..], g);
      } else {
        GenerateLeaves(w.(contracts := w.contracts[ids[0] := k]), m, tick, sequence + 1, ids[1..], g);
      }
    }
  }

  lemma AfterMatchingLeaves(w: World, s: Schedule, tick: nat)
    requires AfterMatching(w, s, tick).Done?
    ensures Unmoved(w, AfterMatching(w, s, tick).world) && Within(w, AfterMatching(w, s, tick).world)
  {
    var delivered := Logistics.DeliverAll(w, s.shipments, tick);
    DeliveryCompletesIff(w, s.shipments, tick);
    DeliverAllLeaves(w, s.shipments, tick);
    var hired := ApplyHirings(delivered, s.hirings, tick).world;
    ApplyHiringsLeaves(delivered, s.hirings, tick);
    var paid := PaySalaries(hired, s.payroll, tick, s.workforce).world;
    PaySalariesLeaves(hired, s.payroll, tick, s.workforce);
    var drained := DemandSink.Drain(paid, s.demands);
    DrainLeaves(paid, s.demands);
    var expired := Contracts.ExpireContracts(drained, tick);
    if s.market.items != [] && s.market.buyers != [] && s.contracts.perTick != 0 {
      GenerateLeaves(expired, s.market, tick, 0, s.offers[..s.contracts.perTick], s.contracts);
    }
    DeliverAllWithin(w, s.shipments, tick);
    DrainWithin(paid, s.demands);
    SameStockWithin(delivered, paid);
    SameStockWithin(drained, AfterMatching(w, s, tick).world);
    WithinComposes(w, delivered, paid);
    WithinComposes(w, paid, drained);
    WithinComposes(w, drained, AfterMatching(w, s, tick).world);
  }

  lemma SameStockWithin(w: World, next: World)
    requires next.stock == w.stock && next.buildings == w.buildings
    ensures Within(w, next)
  {
  }

  // ---------------------------------------------------------------- what earlier stages leave alone

  // Before production runs, no stored quantity changes.
  ghost predicate SameStores(w: World, next: World) {
    next.stock.Keys == w.stock.Keys && forall k :: k in w.stock ==> next.stock[k].quantity == w.stock[k].quantity
  }

  lemma CreateJobSameStores(w: World, r: JobRequest, id: Id, tick: int)
    requires CreateJob(w, r, id, tick).Done?
    ensures SameStores(w, CreateJob(w, r, id, tick).world)
  {
    var c, recipe := w.companies[r.company], w.catalogue.recipes[r.recipe];
    var reqs := Requirements(recipe.inputs, r.runs);
    CheckedInputsExist(Reserve, w.stock, r.company, c.region, reqs);
    UseInputsEffect(Reserve, w.stock, r.company, c.region, reqs);
  }

  lemma {:induction false} StartEachSameStores(w: World, company: Id, candidates: seq<Candidate>, maxJobs: int,
      started: int, tick: int)
    requires Books(w) && StartEach(w, company, candidates, maxJobs, started, tick).Started?
    ensures SameStores(w, StartEach(w, company, candidates, maxJobs, started, tick).world)
    decreases |candidates|
  {
    hide Books;
    if candidates != [] && started < maxJobs {
      var c := candidates[0];
      var r := JobRequest(company, c.recipe, 1, c.locked);
      CreateJobStarts(w, r, c.job, tick);
      if c.profitable && CreateJob(w, r, c.job, tick).Done? {
        CreateJobSameStores(w, r, c.job, tick);
        StartEachSameStores(CreateJob(w, r, c.job, tick).world, company, candidates[1..], maxJobs, started + 1, tick);
      } else {
        StartEachSameStores(w, company, candidates[1..], maxJobs, started, tick);
      }
    }
  }

  lemma PlaceOrderSameStores(w: World, r: OrderRequest, id: Id, tick: int, now: int)
    requires PlaceOrder(w, r, id, tick, now).Done?
    ensures SameStores(w, PlaceOrder(w, r, id, tick, now).world)
  {
    if r.side.Buy? {
      assert PlaceBuy(w, r, id, tick, now).world.stock == w.stock;
    } else {
      assert PlaceSell(w, r, id, tick, now).Done?;
    }
  }

  lemma CancelOrderSameStores(w: World, id: Id, tick: int)
    requires CancelOrder(w, id, tick).Done?
    ensures SameStores(w, CancelOrder(w, id, tick).world)
  {
    if w.orders[id].status.Open? { assert SameStores(w, Withdraw(w, id, tick)); }
  }

  lemma RunBotSameStores(w: World, a: BotAction, tick: int)
    requires Books(w) && RunBot(w, a, tick).Done?
    ensures SameStores(w, RunBot(w, a, tick).world)
  {
    match a
    case BotReview(_) =>
    case BotCancel(order) => CancelOrderSameStores(w, order, tick);
    case BotPlace(request, id, now) => PlaceOrderSameStores(w, request, id, tick, now);
    case BotProduce(company, candidates, maxJobs) =>
      if StartEach(w, company, candidates, maxJobs, 0, tick).Started? {
        StartEachSameStores(w, company, candidates, maxJobs, 0, tick);
      }
  }

  lemma {:induction false} RunBotsSameStores(w: World, actions: seq<BotAction>, tick: int)
    requires Sound(w) && RunBots(w, actions, tick).Done?
    ensures SameStores(w, RunBots(w, actions, tick).world)
    decreases |actions|
  {
    hide Sound, Follows, Solvent, Balanced, RunBot;
    if actions != [] {
      Parts(w);
      RunBotCarries(w, actions[0], tick);
      RunBotSameStores(w, actions[0], tick);
      RunBotsSameStores(RunBot(w, actions[0], tick).world, actions[1..], tick);
    }
  }

  lemma ChargeBuildingSameStock(w: World, id: Id, tick: int)
    requires Estate.ChargeBuilding(w, id, tick).Done?
    ensures Estate.ChargeBuilding(w, id, tick).world.stock == w.stock
  {
    if id in w.buildings && Estate.CostDue(w.buildings[id], tick) {
      var c := w.companies[w.buildings[id].company];
      if c.cash - c.reserved >= w.buildings[id].weeklyCost {
        assert Estate.PayCost(w, id, tick).stock == w.stock;
      } else {
        assert Estate.ShutDown(w, id, tick).stock == w.stock;
      }
    }
  }

  lemma {:induction false} ChargeBuildingsSameStores(w: World, due: seq<Id>, tick: int)
    requires Estate.ChargeBuildings(w, due, tick).Done?
    ensures SameStores(w, Estate.ChargeBuildings(w, due, tick).world)
    decreases |due|
  {
    hide Estate.ChargeBuilding;
    if due != [] {
      ChargeBuildingSameStock(w, due[0], tick);
      ChargeBuildingsSameStores(Estate.ChargeBuilding(w, due[0], tick).world, due[1..], tick);
    }
  }

  lemma {:induction false} CompleteEachUnmoved(w: World, due: seq<Id>, tick: int)
    ensures var next := Research.CompleteEach(w, due, tick);
            && next.orders == w.orders && next.jobs == w.jobs && next.buildings == w.buildings
            && next.stock == w.stock && next.hirings == w.hirings
    decreases |due|
  {
    if due != [] { CompleteEachUnmoved(Research.CompleteOne(w, due[0], tick), due[1..], tick); }
  }

  // No tick pushes a store above the larger of what it held before the tick and what it may hold after it.
  ghost predicate StoresBounded(w: World, next: World) {
    forall c, r :: Stored(next, c, r) <= Max(Stored(w, c, r), Capacity(next, c, r))
  }

  lemma BeforeMatchingBounded(w: World, s: Schedule, tick: nat)
    requires Sound(w) && BeforeMatching(w, s, tick).Done?
    ensures StoresBounded(w, BeforeMatching(w, s, tick).world)
  {
    hide Sound, Follows, Solvent, Balanced, RunBots;
    var next := BeforeMatching(w, s, tick).world;
    var acted := RunBots(w, s.bots, tick).world;
    RunBotsCarries(w, s.bots, tick);
    RunBotsSameStores(w, s.bots, tick);
    var charged := Estate.ChargeBuildings(acted, s.costs, tick).world;
    ChargeBuildingsCarries(acted, s.costs, tick);
    ChargeBuildingsSameStores(acted, s.costs, tick);
    var produced := CompleteJobs(charged, s.jobs, tick).world;
    CompleteJobsWithin(charged, s.jobs, tick);
    CompleteEachUnmoved(produced, s.research, tick);
    forall c, r ensures Stored(next, c, r) <= Max(Stored(w, c, r), Capacity(next, c, r)) {
      HeldSame(w.stock, charged.stock, c, r);
      assert Stored(produced, c, r) <= Max(Stored(charged, c, r), Capacity(charged, c, r));
    }
  }

  // ---------------------------------------------------------------- the tick

  lemma MatchingWithin(w: World, listing: seq<Id>, groups: seq<Group>, tick: int)
    requires Sound(w) && Reads(listing, groups, w.orders) && RunMatching(w, listing, groups, tick).Done?
    ensures Within(w, RunMatching(w, listing, groups, tick).world)
  {
    assert [] + groups == groups;
    NothingStands(w.orders, listing);
    MatchGroupsWithin(w.orders, listing, w, [], groups, tick, w.companies);
  }

  // One tick from a sound world, with any bot actions. If it completes, the world it ends in is sound and follows from
  // the first, covers and balances are as good as they were, and no buy is left at or above a sell. If it aborts,
  // and every company covered its reservations, then a bot action was refused, a store was full, or the key of a new
  // row was taken.
  lemma RunTickCarries(w: World, s: Schedule, tick: nat)
    requires Sound(w) && Configured(s) && Served(w, s, tick)
    ensures var out := RunTick(w, s, tick);
            if out.Done? then Carries(w, out.world) && !CrossedBook(out.world.orders)
            else RunBots(w, s.bots, tick).Thrown? || StopsFor(w, out.error) || out.error == Conflict
  {
    hide Sound, Follows, Solvent, Balanced, BeforeMatching, AfterMatching, RunMatching, Configured, Reads, CrossedBook;
    if RunBots(w, s.bots, tick).Done? {
      BeforeMatchingCarries(w, s, tick);
      if BeforeMatching(w, s, tick).Done? {
        var ready := BeforeMatching(w, s, tick).world;
        RunMatchingCarries(ready, s.listing, s.groups, tick);
        var matched := RunMatching(ready, s.listing, s.groups, tick);
        if matched.Done? {
          CarriesComposes(w, ready, matched.world);
          AfterMatchingCarries(matched.world, s, tick);
          AfterMatchingThrows(matched.world, s, tick);
          var out := AfterMatching(matched.world, s, tick);
          if out.Done? {
            AfterMatchingLeaves(matched.world, s, tick);
            CarriesComposes(w, matched.world, out.world);
          }
        }
      }
    } else {
      RefusedBotAborts(w, s, tick);
    }
  }

  lemma RefusedBotAborts(w: World, s: Schedule, tick: int)
    requires RunBots(w, s.bots, tick).Thrown?
    ensures BeforeMatching(w, s, tick).Thrown?
  {
  }

  lemma RunTickBoundsStores(w: World, s: Schedule, tick: nat)
    requires Sound(w) && Configured(s) && Served(w, s, tick) && RunTick(w, s, tick).Done?
    ensures StoresBounded(w, RunTick(w, s, tick).world)
  {
    var ready := BeforeMatching(w, s, tick).world;
    var matched := RunMatching(ready, s.listing, s.groups, tick).world;
    var next := AfterMatching(matched, s, tick).world;
    assert next == RunTick(w, s, tick).world;
    ReadyForMatching(w, s, tick);
    BeforeMatchingBounded(w, s, tick);
    MatchingWithin(ready, s.listing, s.groups, tick);
    AfterMatchingLeaves(matched, s, tick);
    WithinComposes(ready, matched, next);
    forall c, r ensures Stored(next, c, r) <= Max(Stored(w, c, r), Capacity(next, c, r)) {
      assert Stored(ready, c, r) <= Max(Stored(w, c, r), Capacity(ready, c, r));
      assert Stored(next, c, r) <= Max(Stored(ready, c, r), Capacity(ready, c, r));
    }
  }

  lemma ReadyForMatching(w: World, s: Schedule, tick: nat)
    requires Sound(w) && BeforeMatching(w, s, tick).Done?
    ensures Sound(BeforeMatching(w, s, tick).world)
  {
    assert RunBots(w, s.bots, tick).Done?;
    hide Sound, Follows, Solvent, Balanced, BeforeMatching;
    BeforeMatchingCarries(w, s, tick);
  }
}
