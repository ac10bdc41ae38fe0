/** What a completed tick has done, in the figures of the rows it touches. */
module TickEffects {
  import opened Rows
  import opened Storage
  import opened Matching
  import opened Market
  import opened Payroll
  import opened Production
  import Estate
  import opened Logistics
  import opened DemandSink
  import Contracts
  import Research
  import opened Pipeline
  import opened Accounting
  import opened PriceTime
  import opened Stages
  import opened Delivery
  import opened DemandTheory
  import opened Effects
  import opened CompanyEffects
  import opened TickTheory

  // The world after each stage of a tick.
  datatype Passage = Passage(
    acted: World, charged: World, produced: World, studied: World, matched: World,
    delivered: World, hired: World, paid: World, drained: World)

  // Every stage ran in its turn, on what the one before it left and on the rows listed for it.
  ghost predicate Passes(w: World, s: Schedule, tick: int, p: Passage, next: World) {
    && RunBots(w, s.bots, tick) == Done(p.acted)
    && Estate.ChargeBuildings(p.acted, s.costs, tick) == Done(p.charged)
    && CompleteJobs(p.charged, s.jobs, tick) == Done(p.produced)
    && Research.CompleteEach(p.produced, s.research, tick) == p.studied
    && RunMatching(p.studied, s.listing, s.groups, tick) == Done(p.matched)
    && DeliverDue(p.matched, s.shipments, tick) == Done(p.delivered)
    && ApplyHirings(p.delivered, s.hirings, tick) == Done(p.hired)
    && PaySalaries(p.hired, s.payroll, tick, s.workforce) == Done(p.paid)
    && Drain(p.paid, s.demands) == p.drained
    && Contracts.RunContractLifecycle(p.drained, s.market, s.offers, tick, s.contracts) == Done(next)
  }

  // A completed tick passed through all its stages, in this order.
  lemma TickPasses(w: World, s: Schedule, tick: nat) returns (p: Passage)
    requires RunTick(w, s, tick).Done?
    ensures Passes(w, s, tick, p, RunTick(w, s, tick).world)
  {
    hide RunBots, Estate.ChargeBuildings, CompleteJobs, Research.CompleteEach, RunMatching, DeliverEach, ApplyHirings,
      PaySalaries, Drain, Contracts.RunContractLifecycle;
    var acted := RunBots(w, s.bots, tick).world;
    var charged := Estate.ChargeBuildings(acted, s.costs, tick).world;
    var produced := CompleteJobs(charged, s.jobs, tick).world;
    var studied := Research.CompleteEach(produced, s.research, tick);
    var matched := RunMatching(studied, s.listing, s.groups, tick).world;
    var delivered := DeliverDue(matched, s.shipments, tick).world;
    var hired := ApplyHirings(delivered, s.hirings, tick).world;
    var paid := PaySalaries(hired, s.payroll, tick, s.workforce).world;
    p := Passage(acted, charged, produced, studied, matched, delivered, hired, paid, Drain(paid, s.demands));
  }

  // ---------------------------------------------------------------- what the stages leave alone

  // No contract, shipment or consumption changes, and no entry added is a salary.
  ghost predicate Apart(w: World, next: World) {
    && next.contracts == w.contracts && next.shipments == w.shipments && next.consumed == w.consumed
    && NoSalary(w, next)
  }

  ghost predicate NoSalary(w: World, next: World) {
    w.ledger <= next.ledger && forall j :: |w.ledger| <= j < |next.ledger| ==> !next.ledger[j].kind.Salary?
  }

  lemma ApartComposes(w: World, mid: World, next: World)
    requires Apart(w, mid) && Apart(mid, next)
    ensures Apart(w, next)
  {
    NoSalaryComposes(w, mid, next);
  }

  lemma NoSalaryComposes(w: World, mid: World, next: World)
    requires NoSalary(w, mid) && NoSalary(mid, next)
    ensures NoSalary(w, next)
  {
    forall j | |w.ledger| <= j < |next.ledger| ensures !next.ledger[j].kind.Salary? {
      if j < |mid.ledger| { assert next.ledger[j] == mid.ledger[j]; }
    }
  }

  lemma CreateJobApart(w: World, r: JobRequest, id: Id, tick: int)
    ensures CreateJob(w, r, id, tick).Done? ==> Apart(w, CreateJob(w, r, id, tick).world)
    ensures CreateJob(w, r, id, tick).Thrown? ==> Apart(w, CreateJob(w, r, id, tick).open)
  {
    hide CheckInputs, UseInputs, Requirements, ApplyDuration, ValidWorkforce, HasProductionBuilding;
  }

  lemma {:induction false} StartEachApart(
    w: World, company: Id, candidates: seq<Candidate>, maxJobs: int, started: int, tick: int)
    requires StartEach(w, company, candidates, maxJobs, started, tick).Started?
    ensures Apart(w, StartEach(w, company, candidates, maxJobs, started, tick).world)
    decreases |candidates|
  {
    if candidates != [] && started < maxJobs {
      var c := candidates[0];
      if !c.profitable {
        StartEachApart(w, company, candidates[1..], maxJobs, started, tick);
      } else {
        var out := CreateJob(w, JobRequest(company, c.recipe, 1, c.locked), c.job, tick);
        CreateJobApart(w, JobRequest(company, c.recipe, 1, c.locked), c.job, tick);
        hide CreateJob, NoSalary;
        var mid := if out.Done? then out.world else out.open;
        StartEachApart(mid, company, candidates[1..], maxJobs, if out.Done? then started + 1 else started, tick);
        ApartComposes(w, mid, StartEach(w, company, candidates, maxJobs, started, tick).world);
      }
    }
  }

  lemma CancelApart(w: World, order: Id, tick: int)
    requires CancelOrder(w, order, tick).Done?
    ensures Apart(w, CancelOrder(w, order, tick).world)
  {
    hide CashReleased, StockReleased, Withdrawn;
    if w.orders[order].status.Open? { assert Apart(w, Withdraw(w, order, tick)); }
  }

  lemma PlaceApart(w: World, r: OrderRequest, id: Id, tick: int, now: int)
    requires PlaceOrder(w, r, id, tick, now).Done?
    ensures Apart(w, PlaceOrder(w, r, id, tick, now).world)
  {
    hide NewOrder;
    if r.side.Buy? {
      assert Apart(w, PlaceBuy(w, r, id, tick, now).world);
    } else {
      assert Apart(w, PlaceSell(w, r, id, tick, now).world);
    }
  }

  lemma AutoStartApart(w: World, company: Id, candidates: seq<Candidate>, maxJobs: int, tick: int)
    requires AutoStart(w, company, candidates, maxJobs, tick).Started?
    ensures Apart(w, AutoStart(w, company, candidates, maxJobs, tick).world)
  {
    SelfApart(w);
    hide StartEach, HasActiveJob, Apart;
    if StartEach(w, company, candidates, maxJobs, 0, tick).Started? {
      StartEachApart(w, company, candidates, maxJobs, 0, tick);
    }
  }

  lemma RunBotApart(w: World, a: BotAction, tick: int)
    requires RunBot(w, a, tick).Done?
    ensures Apart(w, RunBot(w, a, tick).world)
  {
    hide CancelOrder, PlaceOrder, AutoStart, Apart;
    match a
    case BotReview(_) => SelfApart(w);
    case BotCancel(order) => CancelApart(w, order, tick);
    case BotPlace(r, id, now) => PlaceApart(w, r, id, tick, now);
    case BotProduce(company, candidates, maxJobs) => AutoStartApart(w, company, candidates, maxJobs, tick);
  }

  lemma {:induction false} RunBotsApart(w: World, actions: seq<BotAction>, tick: int)
    requires RunBots(w, actions, tick).Done?
    ensures Apart(w, RunBots(w, actions, tick).world)
    decreases |actions|
  {
    hide RunBot, NoSalary;
    if actions == [] {
      SelfApart(w);
    } else {
      var mid := RunBot(w, actions[0], tick).world;
      RunBotApart(w, actions[0], tick);
      RunBotsApart(mid, actions[1..], tick);
      ApartComposes(w, mid, RunBots(mid, actions[1..], tick).world);
    }
  }

  lemma SelfApart(w: World)
    ensures Apart(w, w)
  {
  }

  lemma PayCostApart(w: World, id: Id, tick: int)
    requires id in w.buildings && w.buildings[id].company in w.companies
    ensures Apart(w, Estate.PayCost(w, id, tick)) && Apart(w, Estate.ShutDown(w, id, tick))
  {
  }

  lemma ChargeApart(w: World, id: Id, tick: int)
    requires Estate.ChargeBuilding(w, id, tick).Done?
    ensures Apart(w, Estate.ChargeBuilding(w, id, tick).world)
  {
    hide Apart, Estate.PayCost, Estate.ShutDown;
    SelfApart(w);
    if id in w.buildings && w.buildings[id].company in w.companies { PayCostApart(w, id, tick); }
  }

  lemma {:induction false} ChargesApart(w: World, due: seq<Id>, tick: int)
    requires Estate.ChargeBuildings(w, due, tick).Done?
    ensures Apart(w, Estate.ChargeBuildings(w, due, tick).world)
    decreases |due|
  {
    hide Estate.ChargeBuilding, NoSalary;
    if due == [] {
      SelfApart(w);
    } else {
      var mid := Estate.ChargeBuilding(w, due[0], tick).world;
      ChargeApart(w, due[0], tick);
      ChargesApart(mid, due[1..], tick);
      ApartComposes(w, mid, Estate.ChargeBuildings(mid, due[1..], tick).world);
    }
  }

  lemma CompleteJobApart(w: World, id: Id, tick: int)
    requires CompleteJob(w, id, tick).Done?
    ensures Apart(w, CompleteJob(w, id, tick).world)
  {
    hide CheckInputs, UseInputs, Requirements, TotalNeeded, Fits, StockAfterJob;
  }

  lemma {:induction false} CompleteJobsApart(w: World, due: seq<Id>, tick: int)
    requires CompleteJobs(w, due, tick).Done?
    ensures Apart(w, CompleteJobs(w, due, tick).world)
    decreases |due|
  {
    hide CompleteJob, NoSalary;
    if due == [] {
      SelfApart(w);
    } else {
      var mid := CompleteJob(w, due[0], tick).world;
      CompleteJobApart(w, due[0], tick);
      CompleteJobsApart(mid, due[1..], tick);
      ApartComposes(w, mid, CompleteJobs(mid, due[1..], tick).world);
    }
  }

  lemma {:induction false} CompleteEachApart(w: World, due: seq<Id>, tick: int)
    ensures Apart(w, Research.CompleteEach(w, due, tick))
    decreases |due|
  {
    if due == [] {
      SelfApart(w);
    } else {
      var mid := Research.CompleteOne(w, due[0], tick);
      assert Apart(w, mid);
      hide Research.CompleteOne, NoSalary;
      CompleteEachApart(mid, due[1..], tick);
      ApartComposes(w, mid, Research.CompleteEach(mid, due[1..], tick));
    }
  }

  lemma SettleApart(w: World, m: Match, tick: int)
    requires SettleMatch(w, m, tick).Done?
    ensures Apart(w, SettleMatch(w, m, tick).world)
  {
    hide OrdersAgree, PartiesCover, Fits, CashAfterTrade, StockAfterTrade, Reduced;
  }

  lemma {:induction false} SettleAllApart(w: World, ms: seq<Match>, tick: int)
    requires SettleAll(w, ms, tick).Done?
    ensures Apart(w, SettleAll(w, ms, tick).world)
    decreases |ms|
  {
    hide SettleMatch, NoSalary;
    if ms == [] {
      SelfApart(w);
    } else {
      var mid := SettleMatch(w, ms[0], tick).world;
      SettleApart(w, ms[0], tick);
      SettleAllApart(mid, ms[1..], tick);
      ApartComposes(w, mid, SettleAll(mid, ms[1..], tick).world);
    }
  }

  lemma {:induction false} GroupsApart(
    snapshot: map<Id, Order>, listing: seq<Id>, w: World, groups: seq<Group>, tick: int)
    requires MatchGroups(snapshot, listing, w, groups, tick).Done?
    ensures Apart(w, MatchGroups(snapshot, listing, w, groups, tick).world)
    decreases |groups|
  {
    hide PlanGroup, SettleAll, NoSalary;
    if groups == [] {
      SelfApart(w);
    } else {
      var ms := PlanGroup(snapshot, listing, groups[0]).matches;
      var mid := SettleAll(w, ms, tick).world;
      SettleAllApart(w, ms, tick);
      GroupsApart(snapshot, listing, mid, groups[1..], tick);
      ApartComposes(w, mid, MatchGroups(snapshot, listing, mid, groups[1..], tick).world);
    }
  }

  // The five stages before delivery.
  lemma EarlyApart(w: World, s: Schedule, tick: int, p: Passage, next: World)
    requires Passes(w, s, tick, p, next)
    ensures Apart(w, p.matched)
  {
    RunBotsApart(w, s.bots, tick);
    ChargesApart(p.acted, s.costs, tick);
    CompleteJobsApart(p.charged, s.jobs, tick);
    CompleteEachApart(p.produced, s.research, tick);
    GroupsApart(p.studied.orders, s.listing, p.studied, s.groups, tick);
    assert RunMatching(p.studied, s.listing, s.groups, tick)
        == MatchGroups(p.studied.orders, s.listing, p.studied, s.groups, tick);
    hide RunBots, Estate.ChargeBuildings, CompleteJobs, Research.CompleteEach, RunMatching, MatchGroups, DeliverDue,
      ApplyHirings, PaySalaries, Drain, Contracts.RunContractLifecycle, NoSalary, Apart;
    ApartComposes(w, p.acted, p.charged);
    ApartComposes(w, p.charged, p.produced);
    ApartComposes(w, p.produced, p.studied);
    ApartComposes(w, p.studied, p.matched);
  }

  // Delivery and the arrival of staff write no entry, and leave contracts and what was eaten.
  ghost predicate Beside(w: World, next: World) {
    && next.contracts == w.contracts && next.consumed == w.consumed && next.ledger == w.ledger
    && next.companies == w.companies && next.orders == w.orders && next.trades == w.trades
  }

  lemma DeliverOneApart(w: World, id: Id, tick: int)
    ensures Beside(w, DeliverOne(w, id, tick))
  {
    hide Credit, ArrivalOf;
  }

  lemma {:induction false} DeliverAllApart(w: World, due: seq<Id>, tick: int)
    ensures Beside(w, DeliverAll(w, due, tick))
    decreases |due|
  {
    if due != [] {
      DeliverOneApart(w, due[0], tick);
      hide DeliverOne;
      DeliverAllApart(DeliverOne(w, due[0], tick), due[1..], tick);
    }
  }

  lemma {:induction false} HiringsApart(w: World, due: seq<Id>, tick: int)
    requires ApplyHirings(w, due, tick).Done?
    ensures var next := ApplyHirings(w, due, tick).world;
            && next.contracts == w.contracts && next.consumed == w.consumed && next.ledger == w.ledger
            && next.shipments == w.shipments && next.companies.Keys == w.companies.Keys
            && next.orders == w.orders && next.trades == w.trades
    decreases |due|
  {
    if due != [] { HiringsApart(ApplyHiring(w, due[0], tick).world, due[1..], tick); }
  }

  lemma {:induction false} SalariesApart(w: World, companies: seq<Id>, tick: int, g: Config)
    requires PaySalaries(w, companies, tick, g).Done?
    ensures var next := PaySalaries(w, companies, tick, g).world;
            && next.contracts == w.contracts && next.consumed == w.consumed && next.shipments == w.shipments
            && next.stock == w.stock && next.orders == w.orders && next.trades == w.trades
    decreases |companies|
  {
    if companies != [] { SalariesApart(PaySalary(w, companies[0], tick, g).world, companies[1..], tick, g); }
  }

  // The sink writes stock rows and consumption rows only.
  lemma {:induction false} TakeRowsOnly(w: World, company: Id, item: Id, regions: seq<Id>, demand: int)
    ensures var next := TakeRows(w, company, item, regions, demand);
            next == w.(stock := next.stock, consumed := next.consumed)
    decreases |regions|
  {
    if regions != [] && demand > 0 {
      var key := RowKey(company, item, regions[0]);
      var mid, taken := TakeRow(w, key, demand), TakenFrom(w, key, demand);
      assert mid == w.(stock := mid.stock, consumed := mid.consumed);
      hide TakeRow, TakenFrom;
      TakeRowsOnly(mid, company, item, regions[1..], demand - taken);
    }
  }

  lemma {:induction false} DrainOnly(w: World, demands: seq<Demand>)
    ensures var next := Drain(w, demands); next == w.(stock := next.stock, consumed := next.consumed)
    decreases |demands|
  {
    if demands != [] {
      var d := demands[0];
      TakeRowsOnly(w, d.company, d.item, d.regions, d.quantity);
      hide TakeRows;
      DrainOnly(TakeRows(w, d.company, d.item, d.regions, d.quantity), demands[1..]);
    }
  }

  // What the late stages leave of the tables they do not own.
  lemma LateApart(w: World, s: Schedule, tick: nat, p: Passage, next: World)
    requires Passes(w, s, tick, p, next) && AllDifferent(s.offers)
    ensures p.delivered == DeliverAll(p.matched, s.shipments, tick)
    ensures next.shipments == p.delivered.shipments && p.drained.contracts == p.matched.contracts
    ensures next.consumed == p.drained.consumed && next.stock == p.drained.stock
    ensures p.paid.consumed == p.matched.consumed
    ensures p.hired.ledger == p.matched.ledger && next.ledger == p.paid.ledger && next.companies == p.paid.companies
    ensures p.drained.companies == p.paid.companies && p.hired.companies.Keys == p.matched.companies.Keys
    ensures next.orders == p.matched.orders && next.trades == p.matched.trades
  {
    DeliveryCompletesIff(p.matched, s.shipments, tick);
    hide RunBots, Estate.ChargeBuildings, CompleteJobs, Research.CompleteEach, RunMatching, DeliverDue,
      ApplyHirings, PaySalaries, Drain, Contracts.RunContractLifecycle, DeliverAll, AllDifferent;
    DeliverAllApart(p.matched, s.shipments, tick);
    HiringsApart(p.delivered, s.hirings, tick);
    SalariesApart(p.hired, s.payroll, tick, s.workforce);
    DrainOnly(p.paid, s.demands);
    LivedContracts(p.drained, s.market, s.offers, tick, s.contracts);
  }

  // ---------------------------------------------------------------- bots

  // The bots act in turn, each on what the one before it left; the first refusal ends the run.
  lemma {:induction false} BotsActInTurn(w: World, actions: seq<BotAction>, a: BotAction, tick: int)
    ensures var earlier := RunBots(w, actions, tick);
            RunBots(w, actions + [a], tick) == if earlier.Done? then RunBot(earlier.world, a, tick) else earlier
    decreases |actions|
  {
    hide RunBot;
    if actions == [] {
      assert [] + [a] == [a];
    } else {
      assert (actions + [a])[1..] == actions[1..] + [a];
      if RunBot(w, actions[0], tick).Done? {
        BotsActInTurn(RunBot(w, actions[0], tick).world, actions[1..], a, tick);
      }
    }
  }

  lemma {:induction false} StartEachOrders(
    w: World, company: Id, candidates: seq<Candidate>, maxJobs: int, started: int, tick: int)
    requires StartEach(w, company, candidates, maxJobs, started, tick).Started?
    ensures StartEach(w, company, candidates, maxJobs, started, tick).world.orders == w.orders
    decreases |candidates|
  {
    if candidates != [] && started < maxJobs {
      var c := candidates[0];
      if !c.profitable {
        StartEachOrders(w, company, candidates[1..], maxJobs, started, tick);
      } else {
        var out := CreateJob(w, JobRequest(company, c.recipe, 1, c.locked), c.job, tick);
        CreateJobOrders(w, JobRequest(company, c.recipe, 1, c.locked), c.job, tick);
        hide CreateJob;
        var mid := if out.Done? then out.world else out.open;
        StartEachOrders(mid, company, candidates[1..], maxJobs, if out.Done? then started + 1 else started, tick);
      }
    }
  }

  lemma CreateJobOrders(w: World, r: JobRequest, id: Id, tick: int)
    ensures CreateJob(w, r, id, tick).Done? ==> CreateJob(w, r, id, tick).world.orders == w.orders
    ensures CreateJob(w, r, id, tick).Thrown? ==> CreateJob(w, r, id, tick).open.orders == w.orders
  {
    hide CheckInputs, UseInputs, Requirements, ApplyDuration, ValidWorkforce, HasProductionBuilding;
  }

  // The company has unreserved cash and no job, and the k-th recipe is the first that pays and can start.
  ghost predicate MayStart(w: World, company: Id, candidates: seq<Candidate>, k: nat, tick: int) {
    && k < |candidates| && FirstToStart(w, company, candidates, k, tick)
    && company in w.companies && w.companies[company].cash > w.companies[company].reserved
    && forall j :: j in w.jobs && w.jobs[j].company == company ==> !w.jobs[j].status.InProgress?
  }

  lemma BotProduces(w: World, company: Id, candidates: seq<Candidate>, maxJobs: int, tick: int)
    requires Books(w) && AutoStart(w, company, candidates, maxJobs, tick).Started?
    ensures company in w.companies
    ensures var next := AutoStart(w, company, candidates, maxJobs, tick).world;
            && next.orders == w.orders
            && forall k: nat :: MayStart(w, company, candidates, k, tick) ==>
                 candidates[k].job !in w.jobs && candidates[k].job in next.jobs
  {
    if StartEach(w, company, candidates, maxJobs, 0, tick).Started? {
      StartEachOrders(w, company, candidates, maxJobs, 0, tick);
    }
    hide Books, StartEach, FirstToStart;
    forall k: nat | MayStart(w, company, candidates, k, tick)
      ensures candidates[k].job !in w.jobs
      ensures candidates[k].job in AutoStart(w, company, candidates, maxJobs, tick).world.jobs
    {
      AutoStarted(w, company, candidates, maxJobs, k, tick);
    }
  }

  // What a bot does is what the command does: an order placed is open with its terms, one cancelled is closed, and a
  // run of production is the first that pays and can start.
  lemma BotActs(w: World, a: BotAction, tick: int)
    requires Books(w) && RunBot(w, a, tick).Done?
    ensures var next := RunBot(w, a, tick).world;
            match a
            case BotReview(_) => next == w
            case BotPlace(r, id, now) =>
              && id !in w.orders && id in next.orders && next.orders - {id} == w.orders
              && next.orders[id].status.Open? && next.orders[id].company == r.company
              && next.orders[id].item == r.item && next.orders[id].side == r.side
              && next.orders[id].price == r.price && next.orders[id].remaining == r.quantity
              && next.orders[id].tickPlaced == tick && next.orders[id].createdAt == now
            case BotCancel(order) =>
              && order in w.orders && order in next.orders && next.orders - {order} == w.orders - {order}
              && !next.orders[order].status.Open?
            case BotProduce(company, candidates, maxJobs) =>
              company in w.companies && next.orders == w.orders
              && forall k: nat :: MayStart(w, company, candidates, k, tick) ==>
                   candidates[k].job !in w.jobs && candidates[k].job in next.jobs
  {
    match a
    case BotReview(_) =>
    case BotPlace(r, id, now) => PlacedOrder(w, r, id, tick, now);
    case BotCancel(order) => CancelledOrder(w, order, tick);
    case BotProduce(company, candidates, maxJobs) => BotProduces(w, company, candidates, maxJobs, tick);
  }

  // And no stage between the bots and matching touches an order: what the bots placed is matched in the same tick.
  lemma BotsReachTheMarket(w: World, s: Schedule, tick: int, p: Passage, next: World)
    requires Passes(w, s, tick, p, next)
    ensures p.studied.orders == p.acted.orders
  {
    ChargesOrders(p.acted, s.costs, tick);
    CompleteJobsOrders(p.charged, s.jobs, tick);
    hide RunBots, Estate.ChargeBuildings, CompleteJobs, Research.CompleteEach, RunMatching, DeliverDue,
      ApplyHirings, PaySalaries, Drain, Contracts.RunContractLifecycle;
    CompleteEachUnmoved(p.produced, s.research, tick);
  }

  lemma PayCostOrders(w: World, id: Id, tick: int)
    requires id in w.buildings && w.buildings[id].company in w.companies
    ensures Estate.PayCost(w, id, tick).orders == w.orders && Estate.ShutDown(w, id, tick).orders == w.orders
  {
  }

  lemma ChargeOrders(w: World, id: Id, tick: int)
    requires Estate.ChargeBuilding(w, id, tick).Done?
    ensures Estate.ChargeBuilding(w, id, tick).world.orders == w.orders
  {
    hide Estate.PayCost, Estate.ShutDown;
    if id in w.buildings && w.buildings[id].company in w.companies { PayCostOrders(w, id, tick); }
  }

  lemma {:induction false} ChargesOrders(w: World, due: seq<Id>, tick: int)
    requires Estate.ChargeBuildings(w, due, tick).Done?
    ensures Estate.ChargeBuildings(w, due, tick).world.orders == w.orders
    decreases |due|
  {
    if due != [] {
      ChargeOrders(w, due[0], tick);
      hide Estate.ChargeBuilding;
      ChargesOrders(Estate.ChargeBuilding(w, due[0], tick).world, due[1..], tick);
    }
  }

  lemma {:induction false} CompleteJobsOrders(w: World, due: seq<Id>, tick: int)
    requires CompleteJobs(w, due, tick).Done?
    ensures CompleteJobs(w, due, tick).world.orders == w.orders
    decreases |due|
  {
    if due != [] {
      var mid := CompleteJob(w, due[0], tick).world;
      assert mid.orders == w.orders;
      hide CompleteJob;
      CompleteJobsOrders(mid, due[1..], tick);
    }
  }

  // ---------------------------------------------------------------- shipments

  // A shipment that has arrived: it is in transit and its tick has come. The list names each of them once.
  ghost predicate ListsArrivals(shipments: map<Id, Shipment>, listed: seq<Id>, tick: int) {
    && AllDifferent(listed)
    && forall k :: 0 <= k < |listed| ==>
         && listed[k] in shipments && shipments[listed[k]].status.InTransit?
         && shipments[listed[k]].arrives <= tick && shipments[listed[k]].quantity > 0
  }

  // After a tick every shipment on the list is delivered, unless when its turn came its destination and its origin were
  // both too full for it; one that was left was too large for both even when the stage ended. No other shipment
  // changes.
  lemma ShipmentsArrive(w: World, s: Schedule, tick: nat, p: Passage, next: World)
    requires RunTick(w, s, tick) == Done(next) && Passes(w, s, tick, p, next) && AllDifferent(s.offers)
    requires ListsArrivals(w.shipments, s.shipments, tick)
    ensures forall k :: 0 <= k < |s.shipments| ==>
              var x, at := w.shipments[s.shipments[k]], AtTurn(p.matched, s.shipments, tick, k);
              && s.shipments[k] in next.shipments
              && if Stored(at, x.company, x.to) + x.quantity > Capacity(at, x.company, x.to)
                    && Stored(at, x.company, x.from) + x.quantity > Capacity(at, x.company, x.from)
                 then
                   && next.shipments[s.shipments[k]] == x
                   && Stored(p.delivered, x.company, x.to) + x.quantity > Capacity(p.delivered, x.company, x.to)
                   && Stored(p.delivered, x.company, x.from) + x.quantity > Capacity(p.delivered, x.company, x.from)
                 else next.shipments[s.shipments[k]] == x.(status := Delivered, closed := Some(tick))
    ensures forall id :: id !in s.shipments ==>
              && (id in next.shipments <==> id in w.shipments)
              && (id in w.shipments ==> next.shipments[id] == w.shipments[id])
  {
    LateApart(w, s, tick, p, next);
    EarlyApart(w, s, tick, p, next);
    ArrivalsDue(p.matched, s.shipments, tick);
    hide RunTick, Passes, ListsArrivals, AllDifferent, DeliverAll, Stored, Capacity, Fates, NoSalary, AtTurn;
    forall k | 0 <= k < |s.shipments|
      ensures var x, at := w.shipments[s.shipments[k]], AtTurn(p.matched, s.shipments, tick, k);
              && s.shipments[k] in next.shipments
              && if Stored(at, x.company, x.to) + x.quantity > Capacity(at, x.company, x.to)
                    && Stored(at, x.company, x.from) + x.quantity > Capacity(at, x.company, x.from)
                 then
                   && next.shipments[s.shipments[k]] == x
                   && Stored(p.delivered, x.company, x.to) + x.quantity > Capacity(p.delivered, x.company, x.to)
                   && Stored(p.delivered, x.company, x.from) + x.quantity > Capacity(p.delivered, x.company, x.from)
                 else next.shipments[s.shipments[k]] == x.(status := Delivered, closed := Some(tick))
    {
      FateAtItsTurn(p.matched, s.shipments, tick, k);
      EachMeetsItsFate(p.matched, s.shipments, tick, k);
    }
    forall id | id !in s.shipments
      ensures id in next.shipments <==> id in w.shipments
      ensures id in w.shipments ==> next.shipments[id] == w.shipments[id]
    {
      OthersUntouched(p.matched, s.shipments, tick, id);
    }
  }

  lemma ArrivalsDue(w: World, listed: seq<Id>, tick: int)
    requires ListsArrivals(w.shipments, listed, tick)
    ensures DueList(w, listed, tick)
    ensures forall k :: 0 <= k < |listed| ==> listed[k] in w.shipments
  {
  }

  // ---------------------------------------------------------------- salaries

  // The entry of one salary, from the company's row when the staff stage pays it.
  function SalaryEntry(w: World, company: Id, tick: int, g: Config): Entry
    requires company in w.companies
  {
    var c := w.companies[company];
    Entry(company, tick, Salary, -PaidOut(w, c, g), 0, c.cash - PaidOut(w, c, g))
  }

  lemma PayOne(w: World, company: Id, tick: int, g: Config)
    requires company in w.companies && PaySalary(w, company, tick, g).Done?
    ensures PaySalary(w, company, tick, g).world
         == w.(ledger := w.ledger + [SalaryEntry(w, company, tick, g)],
               companies := w.companies[company := RowAfterPay(w, company, tick, g)])
  {
    PaidSalary(w, company, tick, g);
    MovedEfficiency(w, company, tick, g);
  }

  // Each company on the list is paid once, in turn, and what one is paid does not depend on the others.
  ghost predicate AllPaid(w: World, next: World, companies: seq<Id>, tick: int, g: Config)
    requires forall k :: 0 <= k < |companies| ==> companies[k] in w.companies
  {
    && |next.ledger| == |w.ledger| + |companies| && w.ledger <= next.ledger && next.companies.Keys == w.companies.Keys
    && (forall k :: 0 <= k < |companies| ==>
          && next.ledger[|w.ledger| + k] == SalaryEntry(w, companies[k], tick, g)
          && next.companies[companies[k]] == RowAfterPay(w, companies[k], tick, g))
    && forall c :: c in w.companies && c !in companies ==> next.companies[c] == w.companies[c]
  }

  // The other companies' rows and the ledger do not matter.
  lemma PayIsLocal(w: World, mid: World, company: Id, tick: int, g: Config)
    requires company in w.companies && company in mid.companies && mid.companies[company] == w.companies[company]
    requires mid == w.(ledger := mid.ledger, companies := mid.companies)
    ensures SalaryEntry(mid, company, tick, g) == SalaryEntry(w, company, tick, g)
    ensures RowAfterPay(mid, company, tick, g) == RowAfterPay(w, company, tick, g)
  {
  }

  lemma {:induction false} EachPaid(w: World, companies: seq<Id>, tick: int, g: Config)
    requires AllDifferent(companies) && forall k :: 0 <= k < |companies| ==> companies[k] in w.companies
    requires PaySalaries(w, companies, tick, g).Done?
    ensures AllPaid(w, PaySalaries(w, companies, tick, g).world, companies, tick, g)
    decreases |companies|
  {
    if companies != [] {
      var first := companies[0];
      var mid, next := PaySalary(w, first, tick, g).world, PaySalaries(w, companies, tick, g).world;
      PayOne(w, first, tick, g);
      RestDiffers(companies);
      hide PaySalary, AllDifferent, SalaryEntry, RowAfterPay;
      EachPaid(mid, companies[1..], tick, g);
      FirstThenRest(w, mid, next, companies, tick, g);
    }
  }

  lemma FirstThenRest(w: World, mid: World, next: World, companies: seq<Id>, tick: int, g: Config)
    requires companies != [] && companies[0] !in companies[1..]
    requires forall k :: 0 <= k < |companies| ==> companies[k] in w.companies && companies[k] in mid.companies
    requires mid == w.(ledger := w.ledger + [SalaryEntry(w, companies[0], tick, g)],
                       companies := w.companies[companies[0] := RowAfterPay(w, companies[0], tick, g)])
    requires AllPaid(mid, next, companies[1..], tick, g)
    ensures AllPaid(w, next, companies, tick, g)
  {
    hide SalaryEntry, RowAfterPay;
    forall k | 0 <= k < |companies|
      ensures next.ledger[|w.ledger| + k] == SalaryEntry(w, companies[k], tick, g)
      ensures next.companies[companies[k]] == RowAfterPay(w, companies[k], tick, g)
    {
      if k == 0 {
        assert next.ledger[|w.ledger|] == mid.ledger[|w.ledger|];
      } else {
        assert companies[1..][k - 1] == companies[k];
        PayIsLocal(w, mid, companies[k], tick, g);
      }
    }
  }

  // After a tick the ledger holds one salary entry of that tick for each company on the payroll, in turn, and no other
  // new one; each has paid what it owed, or its unreserved cash where that was less, and its efficiency has moved.
  lemma SalariesPaid(w: World, s: Schedule, tick: nat, p: Passage, next: World)
    requires RunTick(w, s, tick) == Done(next) && Passes(w, s, tick, p, next) && AllDifferent(s.offers)
    requires AllDifferent(s.payroll)
    requires forall k :: 0 <= k < |s.payroll| ==> s.payroll[k] in p.hired.companies
    ensures w.ledger <= p.hired.ledger <= next.ledger && |next.ledger| == |p.hired.ledger| + |s.payroll|
    ensures forall j :: |w.ledger| <= j < |p.hired.ledger| ==> !next.ledger[j].kind.Salary?
    ensures forall k :: 0 <= k < |s.payroll| ==>
              var c := p.hired.companies[s.payroll[k]];
              var amount := Min(Owed(p.hired, c, s.workforce), Max(0, c.cash - c.reserved));
              && next.ledger[|p.hired.ledger| + k] == Entry(s.payroll[k], tick, Salary, -amount, 0, c.cash - amount)
              && s.payroll[k] in next.companies
              && next.companies[s.payroll[k]] == RowAfterPay(p.hired, s.payroll[k], tick, s.workforce)
              && next.companies[s.payroll[k]].cash == c.cash - amount
  {
    hide RunTick, Passes, AllDifferent, AllPaid, RowAfterPay, Owed, NoSalary;
    LateApart(w, s, tick, p, next);
    EarlyApart(w, s, tick, p, next);
    PayrollPaid(w, s, tick, p, next);
    NoSalaryAfter(w, p.matched, next);
    AllInFigures(p.hired, p.paid, next, s.payroll, tick, s.workforce);
  }

  lemma PayrollPaid(w: World, s: Schedule, tick: nat, p: Passage, next: World)
    requires Passes(w, s, tick, p, next) && AllDifferent(s.payroll)
    requires forall k :: 0 <= k < |s.payroll| ==> s.payroll[k] in p.hired.companies
    ensures AllPaid(p.hired, p.paid, s.payroll, tick, s.workforce)
    ensures |p.paid.ledger| == |p.hired.ledger| + |s.payroll| && p.hired.ledger <= p.paid.ledger
  {
    assert PaySalaries(p.hired, s.payroll, tick, s.workforce) == Done(p.paid);
    hide Passes, AllDifferent, PaySalaries, SalaryEntry, RowAfterPay;
    EachPaid(p.hired, s.payroll, tick, s.workforce);
  }

  lemma AllInFigures(w: World, paid: World, next: World, companies: seq<Id>, tick: int, g: Config)
    requires forall k :: 0 <= k < |companies| ==> companies[k] in w.companies
    requires AllPaid(w, paid, companies, tick, g) && next.ledger == paid.ledger && next.companies == paid.companies
    ensures forall k :: 0 <= k < |companies| ==>
              var c := w.companies[companies[k]];
              var amount := Min(Owed(w, c, g), Max(0, c.cash - c.reserved));
              && next.ledger[|w.ledger| + k] == Entry(companies[k], tick, Salary, -amount, 0, c.cash - amount)
              && companies[k] in next.companies && next.companies[companies[k]] == RowAfterPay(w, companies[k], tick, g)
              && next.companies[companies[k]].cash == c.cash - amount
  {
    hide SalaryEntry, RowAfterPay, Owed;
    forall k | 0 <= k < |companies|
      ensures var c := w.companies[companies[k]];
              var amount := Min(Owed(w, c, g), Max(0, c.cash - c.reserved));
              && SalaryEntry(w, companies[k], tick, g) == Entry(companies[k], tick, Salary, -amount, 0, c.cash - amount)
              && RowAfterPay(w, companies[k], tick, g).cash == c.cash - amount
    {
      PaidInFigures(w, companies[k], tick, g);
    }
  }

  lemma PaidInFigures(w: World, company: Id, tick: int, g: Config)
    requires company in w.companies
    ensures var c := w.companies[company];
            var amount := Min(Owed(w, c, g), Max(0, c.cash - c.reserved));
            && SalaryEntry(w, company, tick, g) == Entry(company, tick, Salary, -amount, 0, c.cash - amount)
            && RowAfterPay(w, company, tick, g).cash == c.cash - amount
  {
    hide Owed;
  }

  lemma NoSalaryAfter(w: World, mid: World, next: World)
    requires NoSalary(w, mid) && mid.ledger <= next.ledger
    ensures w.ledger <= mid.ledger
    ensures forall j :: |w.ledger| <= j < |mid.ledger| ==> !next.ledger[j].kind.Salary?
  {
    forall j | |w.ledger| <= j < |mid.ledger| ensures !next.ledger[j].kind.Salary? {
      assert next.ledger[j] == mid.ledger[j];
    }
  }

  // ---------------------------------------------------------------- demand

  // After a tick every demand on the list is met: what was eaten grew by the smaller of the quantity asked for and the
  // unreserved stock that the earlier stages left in its regions, taken from the first region first.
  lemma DemandsMet(w: World, s: Schedule, tick: nat, p: Passage, next: World, k: nat)
    requires RunTick(w, s, tick) == Done(next) && Passes(w, s, tick, p, next) && AllDifferent(s.offers)
    requires DistinctDemands(s.demands) && k < |s.demands|
    ensures var d := s.demands[k];
            && Eaten(next.consumed, Of(d.company, d.item))
               == Eaten(w.consumed, Of(d.company, d.item))
                  + Min(Max(0, d.quantity), FreeIn(p.paid, d.company, d.item, d.regions))
            && forall j :: 0 <= j < |d.regions| ==>
                 Gives(p.paid, next, RowKey(d.company, d.item, d.regions[j]),
                       Min(Free(p.paid, RowKey(d.company, d.item, d.regions[j])),
                           Max(0, d.quantity - FreeIn(p.paid, d.company, d.item, d.regions[..j]))))
  {
    LateApart(w, s, tick, p, next);
    EarlyApart(w, s, tick, p, next);
    EachDemandMet(p.paid, s.demands, k);
    assert Drain(p.paid, s.demands) == p.drained;
    hide RunTick, Passes, AllDifferent, Drain, Met, Free, FreeIn, Eaten, HeldAt, NoSalary, DistinctDemands;
    MetInFigures(p.paid, p.drained, next, s.demands[k]);
  }

  lemma MetInFigures(w: World, mid: World, next: World, d: Demand)
    requires Met(w, mid, d) && next.stock == mid.stock && next.consumed == mid.consumed
    ensures Eaten(next.consumed, Of(d.company, d.item))
         == Eaten(w.consumed, Of(d.company, d.item)) + Min(Max(0, d.quantity), FreeIn(w, d.company, d.item, d.regions))
    ensures forall j :: 0 <= j < |d.regions| ==>
              Gives(w, next, RowKey(d.company, d.item, d.regions[j]),
                    Min(Free(w, RowKey(d.company, d.item, d.regions[j])),
                        Max(0, d.quantity - FreeIn(w, d.company, d.item, d.regions[..j]))))
  {
    hide Free, FreeIn, Eaten;
    forall j | 0 <= j < |d.regions|
      ensures Gives(w, next, RowKey(d.company, d.item, d.regions[j]),
                    Share(w, d.company, d.item, d.regions, d.quantity, j))
    {
      assert MetAt(w, mid, d, j);
    }
  }

  // ---------------------------------------------------------------- contracts

  predicate IsOpen(k: Contract) { k.status.Offered? || k.status.Accepted? || k.status.PartlyFulfilled? }

  // A row is as expiry left it, or is new and runs past the tick.
  predicate KeptOrNew(contracts: map<Id, Contract>, next: map<Id, Contract>, id: Id, tick: int) {
    if id in contracts then id in next && next[id] == contracts[id] else id in next ==> next[id].expires > tick
  }

  lemma OfferLasts(m: Contracts.Market, tick: nat, turn: nat, g: Contracts.ContractConfig)
    requires m.items != [] && m.buyers != [] && g.ttl > 0
    ensures OfferOf(m, tick, turn, g).expires > tick
  {
  }

  lemma TurnKept(w: World, next: map<Id, Contract>, id: Id, k: Contract, tick: int)
    requires TurnDone(w, next, id, k) && k.expires > tick
    ensures KeptOrNew(w.contracts, next, id, tick)
  {
  }

  lemma ElsewhereKept(w: World, next: map<Id, Contract>, ids: seq<Id>, id: Id, tick: int)
    requires SameElsewhere(w, next, ids) && id !in ids
    ensures KeptOrNew(w.contracts, next, id, tick)
  {
  }

  lemma SameKept(contracts: map<Id, Contract>, id: Id, tick: int)
    ensures KeptOrNew(contracts, contracts, id, tick)
  {
  }

  lemma EachKeptOrNew(w: World, m: Contracts.Market, ids: seq<Id>, tick: nat, g: Contracts.ContractConfig, id: Id)
    requires AllDifferent(ids) && Contracts.RunContractLifecycle(w, m, ids, tick, g).Done?
    ensures KeptOrNew(Contracts.ExpireContracts(w, tick).contracts,
                      Contracts.RunContractLifecycle(w, m, ids, tick, g).world.contracts, id, tick)
  {
    LivedContracts(w, m, ids, tick, g);
    assert g.ttl > 0 && g.perTick >= 0;
    var expired, next := Contracts.ExpireContracts(w, tick), Contracts.RunContractLifecycle(w, m, ids, tick, g).world;
    hide Contracts.RunContractLifecycle, Contracts.ExpireContracts, AllDifferent, TurnDone, SameElsewhere, KeptOrNew,
      OfferOf;
    if id !in ids[..g.perTick] {
      ElsewhereKept(expired, next.contracts, ids[..g.perTick], id, tick);
    } else {
      var i :| 0 <= i < g.perTick && ids[i] == id;
      if m.items != [] && m.buyers != [] {
        OfferLasts(m, tick, i, g);
        TurnKept(expired, next.contracts, id, OfferOf(m, tick, i, g), tick);
      } else {
        SameKept(next.contracts, id, tick);
      }
    }
  }

  // A contract once the tick has come.
  function Aged(k: Contract, tick: int): Contract {
    if IsOpen(k) && k.expires <= tick then k.(status := Expired, closed := Some(tick)) else k
  }

  lemma AgedIsExpired(w: World, tick: int, id: Id)
    requires id in w.contracts
    ensures id in Contracts.ExpireContracts(w, tick).contracts
    ensures Contracts.ExpireContracts(w, tick).contracts[id] == Aged(w.contracts[id], tick)
    ensures IsOpen(Aged(w.contracts[id], tick)) ==> Aged(w.contracts[id], tick).expires > tick
  {
    ExpiredContracts(w, tick);
  }

  // After a tick every contract that was open and whose expiry tick has come is expired, no other contract changed, and
  // no open contract is past its expiry tick.
  lemma ContractsExpire(w: World, s: Schedule, tick: nat, next: World, id: Id)
    requires RunTick(w, s, tick) == Done(next) && AllDifferent(s.offers)
    ensures id in w.contracts ==> id in next.contracts && next.contracts[id] == Aged(w.contracts[id], tick)
    ensures id in next.contracts && IsOpen(next.contracts[id]) ==> next.contracts[id].expires > tick
  {
    var p := TickPasses(w, s, tick);
    LateApart(w, s, tick, p, next);
    EarlyApart(w, s, tick, p, next);
    EachKeptOrNew(p.drained, s.market, s.offers, tick, s.contracts, id);
    assert Contracts.RunContractLifecycle(p.drained, s.market, s.offers, tick, s.contracts) == Done(next);
    ExpiredContracts(p.drained, tick);
    hide RunTick, Passes, AllDifferent, NoSalary, Contracts.ExpireContracts, Contracts.RunContractLifecycle, IsOpen,
      Aged;
    if id in w.contracts { AgedIsExpired(p.drained, tick, id); }
  }

  // Each turn of the generator whose buyer had the cash added its offer, on a fresh key.
  lemma OffersAdded(w: World, s: Schedule, tick: nat, next: World, turn: nat)
    requires RunTick(w, s, tick) == Done(next) && AllDifferent(s.offers)
    requires s.market.items != [] && s.market.buyers != [] && turn < s.contracts.perTick
    ensures turn < |s.offers|
    ensures Affordable(next, OfferOf(s.market, tick, turn, s.contracts)) ==>
              && s.offers[turn] !in w.contracts && s.offers[turn] in next.contracts
              && next.contracts[s.offers[turn]] == OfferOf(s.market, tick, turn, s.contracts)
  {
    var p := TickPasses(w, s, tick);
    LateApart(w, s, tick, p, next);
    EarlyApart(w, s, tick, p, next);
    LivedContracts(p.drained, s.market, s.offers, tick, s.contracts);
    assert Contracts.RunContractLifecycle(p.drained, s.market, s.offers, tick, s.contracts) == Done(next);
    ExpiredContracts(p.drained, tick);
    hide RunTick, Passes, AllDifferent, NoSalary, OfferOf, Contracts.RunContractLifecycle, Contracts.ExpireContracts;
    assert TurnDone(Contracts.ExpireContracts(p.drained, tick), next.contracts, s.offers[turn],
                    OfferOf(s.market, tick, turn, s.contracts));
  }

  // ---------------------------------------------------------------- orders

  // After a tick, if anything of an order was traded, every order it competed with that was better priced, or as well
  // priced and placed first, is filled; and every trade is at the price of the order placed first.
  lemma OrdersServed(w: World, s: Schedule, tick: nat, p: Passage, next: World)
    requires RunTick(w, s, tick) == Done(next) && Passes(w, s, tick, p, next) && AllDifferent(s.offers)
    requires Books(p.studied) && Reads(s.listing, s.groups, p.studied.orders)
    ensures forall a, b | Compete(p.studied.orders, a, b) && RowFirst(p.studied.orders, a, b) ::
              && a in next.orders && b in next.orders
              && (next.orders[b].remaining < p.studied.orders[b].remaining ==>
                    next.orders[a].remaining == 0 && next.orders[a].status.Filled?)
    ensures p.studied.trades <= next.trades
    ensures forall k :: |p.studied.trades| <= k < |next.trades| ==>
              AtFirstPrice(p.studied.orders, next.trades[k].buyOrder, next.trades[k].sellOrder, next.trades[k].price)
  {
    LateApart(w, s, tick, p, next);
    assert RunMatching(p.studied, s.listing, s.groups, tick) == Done(p.matched);
    hide RunTick, Passes, RunMatching, Books, Compete, RowFirst, AtFirstPrice;
    TradesAtFirstPrice(p.studied, s.listing, s.groups, tick);
    forall a, b | Compete(p.studied.orders, a, b) && RowFirst(p.studied.orders, a, b)
      ensures a in next.orders && b in next.orders
      ensures next.orders[b].remaining < p.studied.orders[b].remaining ==>
                next.orders[a].remaining == 0 && next.orders[a].status.Filled?
    {
      BookIsServedInOrder(p.studied, s.listing, s.groups, tick, a, b);
    }
  }
}
