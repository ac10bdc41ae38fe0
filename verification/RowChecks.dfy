/** The guards of the stages alone keep every row in range: a tick never introduces an invariant issue, whether or
    not the reservations it started from were backed by anything. */
module RowChecks {
  import opened Rows
  import opened Storage
  import opened Matching
  import opened MatchingTheory
  import opened Market
  import opened Payroll
  import opened Production
  import Estate
  import Logistics
  import DemandSink
  import Contracts
  import Research
  import opened Pipeline
  import opened Accounting
  import opened MarketBooks
  import opened MatchingRun
  import opened ProductionBooks
  import opened TickTheory
  import opened Health
  import opened InvariantScan

  ghost predicate PricesOk(orders: map<Id, Order>) {
    forall id :: id in orders && orders[id].status.Open? ==> orders[id].price > 0
  }

  predicate RecipeOk(recipe: Recipe) { DistinctInputs(recipe.inputs) && recipe.outputQuantity >= 0 }

  ghost predicate RecipesOk(w: World) {
    && (forall r :: r in w.catalogue.recipes ==> RecipeOk(w.catalogue.recipes[r]))
    && (forall id :: id in w.jobs ==> RecipeOk(w.jobs[id].recipe))
  }

  // The scan has nothing to report, open orders have positive prices, and recipes are what their table allows. Nothing
  // is asked of any other column, nor of what a reservation is held for.
  ghost predicate InRange(w: World) { NoIssues(w) && PricesOk(w.orders) && RecipesOk(w) }

  // The same, by the clauses the scan's codes stand for.
  ghost predicate Sane(w: World) {
    CompaniesOk(w.companies) && StockRowsOk(w.stock) && Solvent(w) && PricesOk(w.orders) && RecipesOk(w)
  }

  lemma SaneIff(w: World)
    ensures InRange(w) <==> Sane(w)
  {
    NoIssuesIff(w);
  }

  // What a stage that touches none of these tables keeps.
  lemma SaneSame(w: World, next: World)
    requires Sane(w) && next.companies == w.companies && next.stock == w.stock && next.orders == w.orders
    requires next.jobs == w.jobs && next.catalogue == w.catalogue
    ensures Sane(next)
  {
  }

  // ---------------------------------------------------------------- bots

  lemma PlaceOrderSane(w: World, r: OrderRequest, id: Id, tick: int, now: int)
    requires Sane(w) && PlaceOrder(w, r, id, tick, now).Done?
    ensures Sane(PlaceOrder(w, r, id, tick, now).world)
  {
    if r.side.Buy? {
      assert PlaceBuy(w, r, id, tick, now).Done?;
    } else {
      assert PlaceSell(w, r, id, tick, now).Done?;
    }
  }

  lemma WithdrawnRowsSane(w: World, o: Order)
    requires Sane(w) && ReleaseGuard(w, o).None?
    ensures var companies := CashReleased(w.companies, o);
            && companies.Keys == w.companies.Keys && CompaniesOk(companies)
            && forall c :: c in companies ==> companies[c].reserved <= companies[c].cash
    ensures StockRowsOk(StockReleased(w.stock, o))
  {
    if HoldsCash(o) {
      assert StockReleased(w.stock, o) == w.stock;
    } else {
      assert CashReleased(w.companies, o) == w.companies;
    }
  }

  lemma WithdrawSane(w: World, id: Id, tick: int)
    requires Sane(w) && id in w.orders && w.orders[id].status.Open? && ReleaseGuard(w, w.orders[id]).None?
    ensures Sane(Withdraw(w, id, tick))
  {
    WithdrawnRowsSane(w, w.orders[id]);
    hide CashReleased, StockReleased, ReleaseEntries, HoldsCash, HoldsStock, ReleaseGuard;
    assert PricesOk(w.orders[id := Withdrawn(w.orders[id], tick)]);
  }

  lemma CancelOrderSane(w: World, id: Id, tick: int)
    requires Sane(w) && CancelOrder(w, id, tick).Done?
    ensures Sane(CancelOrder(w, id, tick).world)
  {
    if w.orders[id].status.Open? { WithdrawSane(w, id, tick); }
  }

  lemma CreateJobSane(w: World, r: JobRequest, id: Id, tick: int)
    requires Sane(w)
    ensures CreateJob(w, r, id, tick).Done? ==> Sane(CreateJob(w, r, id, tick).world)
    ensures CreateJob(w, r, id, tick).Thrown? && !CreateJob(w, r, id, tick).error.Conflict? ==>
            CreateJob(w, r, id, tick).open == w
  {
    if CreateJob(w, r, id, tick).Done? {
      var job := CreateJob(w, r, id, tick).world.jobs[id];
      NeedsDistinct(job);
      UsedRowsOk(Reserve, w.stock, job.company, job.region, JobNeeds(job));
    }
  }

  lemma {:induction false} StartEachSane(w: World, company: Id, candidates: seq<Candidate>, maxJobs: int,
      started: int, tick: int)
    requires Sane(w) && StartEach(w, company, candidates, maxJobs, started, tick).Started?
    ensures Sane(StartEach(w, company, candidates, maxJobs, started, tick).world)
    decreases |candidates|
  {
    hide Sane, CreateJob;
    if candidates != [] && started < maxJobs {
      var c := candidates[0];
      var r := JobRequest(company, c.recipe, 1, c.locked);
      CreateJobSane(w, r, c.job, tick);
      if c.profitable && CreateJob(w, r, c.job, tick).Done? {
        StartEachSane(CreateJob(w, r, c.job, tick).world, company, candidates[1..], maxJobs, started + 1, tick);
      } else {
        StartEachSane(w, company, candidates[1..], maxJobs, started, tick);
      }
    }
  }

  lemma RunBotSane(w: World, a: BotAction, tick: int)
    requires Sane(w) && RunBot(w, a, tick).Done?
    ensures Sane(RunBot(w, a, tick).world)
  {
    hide Sane, PlaceOrder, CancelOrder, StartEach;
    match a
    case BotReview(_) =>
    case BotCancel(order) => CancelOrderSane(w, order, tick);
    case BotPlace(request, id, now) => PlaceOrderSane(w, request, id, tick, now);
    case BotProduce(company, candidates, maxJobs) =>
      if StartEach(w, company, candidates, maxJobs, 0, tick).Started? {
        StartEachSane(w, company, candidates, maxJobs, 0, tick);
      }
  }

  lemma {:induction false} RunBotsSane(w: World, actions: seq<BotAction>, tick: int)
    requires Sane(w) && RunBots(w, actions, tick).Done?
    ensures Sane(RunBots(w, actions, tick).world)
    decreases |actions|
  {
    hide Sane, RunBot;
    if actions != [] {
      RunBotSane(w, actions[0], tick);
      RunBotsSane(RunBot(w, actions[0], tick).world, actions[1..], tick);
    }
  }

  // ---------------------------------------------------------------- costs, production, research

  lemma PayCostSane(w: World, id: Id, tick: int)
    requires Sane(w) && id in w.buildings && w.buildings[id].company in w.companies
    requires var c := w.companies[w.buildings[id].company]; c.cash - c.reserved >= w.buildings[id].weeklyCost
    ensures Sane(Estate.PayCost(w, id, tick))
  {
    var next := Estate.PayCost(w, id, tick);
    assert CompaniesOk(next.companies) && Solvent(next);
  }

  lemma ChargeBuildingSane(w: World, id: Id, tick: int)
    requires Sane(w) && Estate.ChargeBuilding(w, id, tick).Done?
    ensures Sane(Estate.ChargeBuilding(w, id, tick).world)
  {
    if id in w.buildings && Estate.CostDue(w.buildings[id], tick) {
      var c := w.companies[w.buildings[id].company];
      hide Sane;
      if c.cash - c.reserved >= w.buildings[id].weeklyCost {
        PayCostSane(w, id, tick);
      } else {
        SaneSame(w, Estate.ShutDown(w, id, tick));
      }
    }
  }

  lemma {:induction false} ChargeBuildingsSane(w: World, due: seq<Id>, tick: int)
    requires Sane(w) && Estate.ChargeBuildings(w, due, tick).Done?
    ensures Sane(Estate.ChargeBuildings(w, due, tick).world)
    decreases |due|
  {
    hide Sane, Estate.ChargeBuilding;
    if due != [] {
      ChargeBuildingSane(w, due[0], tick);
      ChargeBuildingsSane(Estate.ChargeBuilding(w, due[0], tick).world, due[1..], tick);
    }
  }

  lemma CompleteJobSane(w: World, id: Id, tick: int)
    requires Sane(w) && CompleteJob(w, id, tick).Done?
    ensures Sane(CompleteJob(w, id, tick).world)
  {
    if id in w.jobs && w.jobs[id].status.InProgress? && w.jobs[id].due <= tick {
      var job := w.jobs[id];
      NeedsDistinct(job);
      UsedRowsOk(Consume, w.stock, job.company, job.region, JobNeeds(job));
      assert job.recipe.outputQuantity * job.runs >= 0;
      CreditKeeps(UseInputs(Consume, w.stock, job.company, job.region, JobNeeds(job)), OutputKey(job),
                  job.recipe.outputQuantity * job.runs);
    }
  }

  lemma {:induction false} CompleteJobsSane(w: World, due: seq<Id>, tick: int)
    requires Sane(w) && CompleteJobs(w, due, tick).Done?
    ensures Sane(CompleteJobs(w, due, tick).world)
    decreases |due|
  {
    hide Sane, CompleteJob;
    if due != [] {
      CompleteJobSane(w, due[0], tick);
      CompleteJobsSane(CompleteJob(w, due[0], tick).world, due[1..], tick);
    }
  }

  lemma {:induction false} CompleteEachSane(w: World, due: seq<Id>, tick: int)
    requires Sane(w)
    ensures Sane(Research.CompleteEach(w, due, tick))
    decreases |due|
  {
    hide Sane;
    if due != [] {
      var next := Research.CompleteOne(w, due[0], tick);
      SaneSame(w, next);
      CompleteEachSane(next, due[1..], tick);
    }
  }

  // ---------------------------------------------------------------- matching

  ghost predicate Priced(ms: seq<Match>) { forall k :: 0 <= k < |ms| ==> ms[k].quantity > 0 && ms[k].price > 0 }

  lemma SettleMatchSane(w: World, m: Match, tick: int)
    requires Sane(w) && m.quantity > 0 && m.price > 0 && SettleMatch(w, m, tick).Done?
    ensures Sane(SettleMatch(w, m, tick).world)
  {
    var buy, sell := w.orders[m.buyOrder], w.orders[m.sellOrder];
    if buy.status.Open? && sell.status.Open? {
      var row := w.stock[KeyOf(sell)];
      assert PartiesCover(m, buy, row, w.companies[buy.company]);
      assert m.quantity * m.price > 0 && m.quantity * buy.price > 0;
      TradedCompaniesOk(w.companies, buy.company, sell.company, m.quantity * buy.price, m.quantity * m.price);
      TradedStockOk(w.stock, KeyOf(sell), KeyOf(buy), m.quantity);
      SettledRows(w, m, tick);
    }
  }

  lemma SettledRows(w: World, m: Match, tick: int)
    requires Sane(w) && m.buyOrder in w.orders && m.sellOrder in w.orders && KeyOf(w.orders[m.sellOrder]) in w.stock
    requires w.orders[m.buyOrder].company in w.companies && w.orders[m.sellOrder].company in w.companies
    requires w.orders[m.buyOrder].status.Open? && w.orders[m.sellOrder].status.Open?
    requires var buy, sell, next := w.orders[m.buyOrder], w.orders[m.sellOrder], Settled(w, m, tick);
             && m.quantity * m.price > 0 && m.quantity * buy.price > 0
             && PartiesCover(m, buy, w.stock[KeyOf(sell)], w.companies[buy.company])
             && CompaniesOk(next.companies) && StockRowsOk(next.stock)
    ensures Sane(Settled(w, m, tick))
  {
    var next := Settled(w, m, tick);
    assert Solvent(next);
    assert PricesOk(next.orders);
  }

  lemma {:induction false} SettleAllSane(w: World, ms: seq<Match>, tick: int)
    requires Sane(w) && Priced(ms) && SettleAll(w, ms, tick).Done?
    ensures Sane(SettleAll(w, ms, tick).world)
    decreases |ms|
  {
    hide Sane, SettleMatch;
    if ms != [] {
      SettleMatchSane(w, ms[0], tick);
      SettleAllSane(SettleMatch(w, ms[0], tick).world, ms[1..], tick);
    }
  }

  lemma GroupPriced(orders: map<Id, Order>, listing: seq<Id>, g: Group)
    requires Lists(listing, orders) && PricesOk(orders)
    ensures PlanGroup(orders, listing, g).Planned? && Priced(PlanGroup(orders, listing, g).matches)
  {
    GroupPlans(orders, listing, g);
    GroupSideMembers(orders, listing, g, Buy);
    GroupSideMembers(orders, listing, g, Sell);
    var buys, sells := GroupSide(orders, listing, g.region, g.item, Buy),
        GroupSide(orders, listing, g.region, g.item, Sell);
    var ms := PlanGroup(orders, listing, g).matches;
    hide GroupSide, Plan;
    forall k | 0 <= k < |ms| ensures ms[k].quantity > 0 && ms[k].price > 0 {
      var b, s := MatchesAreWellFormed(buys, sells, k);
      assert orders[s.id].price > 0;
    }
  }

  lemma {:induction false} MatchGroupsSane(snapshot: map<Id, Order>, listing: seq<Id>, w: World, groups: seq<Group>,
      tick: int)
    requires Sane(w) && Lists(listing, snapshot) && PricesOk(snapshot)
    requires MatchGroups(snapshot, listing, w, groups, tick).Done?
    ensures Sane(MatchGroups(snapshot, listing, w, groups, tick).world)
    decreases |groups|
  {
    hide Sane, Lists, PricesOk, SettleAll, PlanGroup;
    if groups != [] {
      GroupPriced(snapshot, listing, groups[0]);
      var ms := PlanGroup(snapshot, listing, groups[0]).matches;
      SettleAllSane(w, ms, tick);
      MatchGroupsSane(snapshot, listing, SettleAll(w, ms, tick).world, groups[1..], tick);
    }
  }

  // ---------------------------------------------------------------- the stages after matching

  lemma DeliverOneSane(w: World, id: Id, tick: int)
    requires Sane(w) && !Logistics.Undeliverable(w, id, tick)
    ensures Sane(Logistics.DeliverOne(w, id, tick))
  {
    hide Fits;
    if Logistics.Due(w, id, tick) && !Logistics.ArrivalOf(w, w.shipments[id]).StillInTransit? {
      var s := w.shipments[id];
      CreditKeeps(w.stock, Logistics.ArrivalKey(s, Logistics.ArrivalRegion(w, s)), s.quantity);
    } else {
      assert Logistics.DeliverOne(w, id, tick) == w;
    }
  }

  lemma {:induction false} DeliverEachSane(w: World, due: seq<Id>, tick: int)
    requires Sane(w) && Logistics.DeliverEach(w, due, tick).Done?
    ensures Sane(Logistics.DeliverEach(w, due, tick).world)
    decreases |due|
  {
    hide Sane, Logistics.DeliverOne, Logistics.Undeliverable;
    if due != [] {
      DeliverOneSane(w, due[0], tick);
      DeliverEachSane(Logistics.DeliverOne(w, due[0], tick), due[1..], tick);
    }
  }

  lemma ApplyHiringSane(w: World, id: Id, tick: int)
    requires Sane(w) && ApplyHiring(w, id, tick).Done?
    ensures Sane(ApplyHiring(w, id, tick).world)
  {
    if id in w.hirings && w.hirings[id].applied.None? && w.hirings[id].arrives <= tick {
      var next := ApplyHiring(w, id, tick).world;
      assert CompaniesOk(next.companies) && Solvent(next);
    }
  }

  lemma {:induction false} ApplyHiringsSane(w: World, due: seq<Id>, tick: int)
    requires Sane(w) && ApplyHirings(w, due, tick).Done?
    ensures Sane(ApplyHirings(w, due, tick).world)
    decreases |due|
  {
    hide Sane, ApplyHiring;
    if due != [] {
      ApplyHiringSane(w, due[0], tick);
      ApplyHiringsSane(ApplyHiring(w, due[0], tick).world, due[1..], tick);
    }
  }

  lemma PaySalarySane(w: World, company: Id, tick: int, g: Config)
    requires Sane(w) && ValidConfig(g) && PaySalary(w, company, tick, g).Done?
    ensures Sane(PaySalary(w, company, tick, g).world)
  {
    if company in w.companies {
      var next := PaySalary(w, company, tick, g).world;
      assert CompaniesOk(next.companies) && Solvent(next);
    }
  }

  lemma {:induction false} PaySalariesSane(w: World, companies: seq<Id>, tick: int, g: Config)
    requires Sane(w) && ValidConfig(g) && PaySalaries(w, companies, tick, g).Done?
    ensures Sane(PaySalaries(w, companies, tick, g).world)
    decreases |companies|
  {
    hide Sane, PaySalary;
    if companies != [] {
      PaySalarySane(w, companies[0], tick, g);
      PaySalariesSane(PaySalary(w, companies[0], tick, g).world, companies[1..], tick, g);
    }
  }

  lemma TakeRowSane(w: World, key: RowKey, demand: int)
    requires Sane(w)
    ensures Sane(DemandSink.TakeRow(w, key, demand))
  {
    if key in w.stock && DemandSink.TakenFrom(w, key, demand) > 0 {
      assert StockRowsOk(DemandSink.TakeRow(w, key, demand).stock);
    }
  }

  lemma {:induction false} TakeRowsSane(w: World, company: Id, item: Id, regions: seq<Id>, demand: int)
    requires Sane(w)
    ensures Sane(DemandSink.TakeRows(w, company, item, regions, demand))
    decreases |regions|
  {
    hide Sane, DemandSink.TakeRow, DemandSink.TakenFrom;
    if regions != [] && demand > 0 {
      var key := RowKey(company, item, regions[0]);
      TakeRowSane(w, key, demand);
      TakeRowsSane(DemandSink.TakeRow(w, key, demand), company, item, regions[1..],
          demand - DemandSink.TakenFrom(w, key, demand));
    }
  }

  lemma {:induction false} DrainSane(w: World, demands: seq<DemandSink.Demand>)
    requires Sane(w)
    ensures Sane(DemandSink.Drain(w, demands))
    decreases |demands|
  {
    hide Sane, DemandSink.TakeRows;
    if demands != [] {
      var d := demands[0];
      TakeRowsSane(w, d.company, d.item, d.regions, d.quantity);
      DrainSane(DemandSink.TakeRows(w, d.company, d.item, d.regions, d.quantity), demands[1..]);
    }
  }

  lemma {:induction false} GenerateSane(
    w: World, m: Contracts.Market, tick: nat, sequence: nat, ids: seq<Id>, g: Contracts.ContractConfig)
    requires Sane(w) && m.items != [] && m.buyers != [] && Contracts.GenerateFrom(w, m, tick, sequence, ids, g).Done?
    ensures Sane(Contracts.GenerateFrom(w, m, tick, sequence, ids, g).world)
    decreases |ids|
  {
    hide Sane, Contracts.OfferAt;
    if ids != [] {
      var k := Contracts.OfferAt(m, tick, sequence, g);
      if k.buyer !in w.companies || w.companies[k.buyer].cash < k.price * k.quantity {
        GenerateSane(w, m, tick, sequence + 1, ids[1..], g);
      } else {
        var next := w.(contracts := w.contracts[ids[0] := k]);
        SaneSame(w, next);
        GenerateSane(next, m, tick, sequence + 1, ids[1..], g);
      }
    }
  }

  lemma LifecycleSane(w: World, m: Contracts.Market, ids: seq<Id>, tick: int, g: Contracts.ContractConfig)
    requires Sane(w) && Contracts.RunContractLifecycle(w, m, ids, tick, g).Done?
    ensures Sane(Contracts.RunContractLifecycle(w, m, ids, tick, g).world)
  {
    hide Sane;
    SaneSame(w, Contracts.ExpireContracts(w, tick));
    hide Contracts.ExpireContracts;
    if m.items != [] && m.buyers != [] && g.perTick != 0 {
      GenerateSane(Contracts.ExpireContracts(w, tick), m, tick, 0, ids[..g.perTick], g);
    }
  }

  // ---------------------------------------------------------------- the tick

  lemma BeforeMatchingSane(w: World, s: Schedule, tick: nat)
    requires Sane(w) && BeforeMatching(w, s, tick).Done?
    ensures Sane(BeforeMatching(w, s, tick).world)
  {
    hide Sane, RunBots;
    RunBotsSane(w, s.bots, tick);
    var acted := RunBots(w, s.bots, tick).world;
    ChargeBuildingsSane(acted, s.costs, tick);
    var charged := Estate.ChargeBuildings(acted, s.costs, tick).world;
    CompleteJobsSane(charged, s.jobs, tick);
    CompleteEachSane(CompleteJobs(charged, s.jobs, tick).world, s.research, tick);
  }

  lemma AfterMatchingSane(w: World, s: Schedule, tick: nat)
    requires Sane(w) && AfterMatching(w, s, tick).Done?
    ensures Sane(AfterMatching(w, s, tick).world)
  {
    hide Sane;
    DeliverEachSane(w, s.shipments, tick);
    var delivered := Logistics.DeliverDue(w, s.shipments, tick).world;
    ApplyHiringsSane(delivered, s.hirings, tick);
    var hired := ApplyHirings(delivered, s.hirings, tick).world;
    PaySalariesSane(hired, s.payroll, tick, s.workforce);
    var paid := PaySalaries(hired, s.payroll, tick, s.workforce).world;
    DrainSane(paid, s.demands);
    LifecycleSane(DemandSink.Drain(paid, s.demands), s.market, s.offers, tick, s.contracts);
  }

  // From any world without an invariant issue, whose open orders have positive prices and whose recipes are as their
  // table allows, a tick with any bot actions either aborts or ends in such a world.
  lemma TickIntroducesNoIssue(w: World, s: Schedule, tick: nat)
    requires InRange(w) && Served(w, s, tick)
    ensures RunTick(w, s, tick).Done? ==> InRange(RunTick(w, s, tick).world)
  {
    hide BeforeMatching, AfterMatching, InRange;
    SaneIff(w);
    if RunTick(w, s, tick).Done? {
      hide Sane;
      var ready := BeforeMatching(w, s, tick).world;
      BeforeMatchingSane(w, s, tick);
      SanePrices(ready);
      MatchGroupsSane(ready.orders, s.listing, ready, s.groups, tick);
      var matched := RunMatching(ready, s.listing, s.groups, tick).world;
      AfterMatchingSane(matched, s, tick);
      SaneIff(RunTick(w, s, tick).world);
    }
  }

  lemma SanePrices(w: World)
    requires Sane(w)
    ensures PricesOk(w.orders)
  {
  }

  // Every world a run reaches from which no cover was lost is such a world.
  lemma HealthyInRange(w: World)
    requires Sound(w) && Solvent(w)
    ensures InRange(w)
  {
    SaneIff(w);
    assert forall id :: id in w.orders ==> OrderOk(w.orders[id]);
    assert forall id :: id in w.jobs ==> JobOk(w.jobs[id]);
  }
}
