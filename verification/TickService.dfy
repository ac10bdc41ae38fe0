/** The tick pipeline on the tables, and the transaction around it. */
module TickService {
  import opened Rows
  import opened Market
  import opened Pipeline
  import opened Database
  import opened MarketService
  import opened ProductionService
  import opened CompanyServices
  import opened DealServices
  import opened MatchingRun
  import opened Accounting
  import opened Conservation
  import opened Health
  import opened TickTheory
  import Estate
  import Production
  import Research
  import Payroll
  import Logistics
  import DemandSink
  import Contracts

  method RunBotAction(tx: Tables, a: BotAction, tick: int) returns (error: Option<Error>)
    modifies tx
    ensures Result(error, tx.State()) == RunBot(old(tx.State()), a, tick)
  {
    match a
    case BotReview(company) =>
      if company in tx.companies && !CashOk(tx.companies[company].cash, tx.companies[company].reserved) {
        return Some(Inconsistent);
      }
      error := None;
    case BotCancel(order) => error := CancelMarketOrder(tx, order, tick);
    case BotPlace(request, id, now) => error := PlaceMarketOrder(tx, request, id, tick, now);
    case BotProduce(company, candidates, maxJobs) =>
      var count;
      error, count := StartProfitableProduction(tx, company, candidates, maxJobs, tick);
  }

  method RunBotsForTick(tx: Tables, actions: seq<BotAction>, tick: int) returns (error: Option<Error>)
    modifies tx
    ensures Result(error, tx.State()) == RunBots(old(tx.State()), actions, tick)
  {
    hide RunBot;
    for i := 0 to |actions|
      invariant RunBots(tx.State(), actions[i..], tick) == RunBots(old(tx.State()), actions, tick)
    {
      assert actions[i..][0] == actions[i] && actions[i..][1..] == actions[i + 1..];
      error := RunBotAction(tx, actions[i], tick);
      if error.Some? { return; }
    }
    return None;
  }

  // The stages in their fixed order; the first one that throws ends the tick.
  method RunTickPipeline(tx: Tables, s: Schedule, tick: int) returns (error: Option<Error>)
    modifies tx
    ensures Result(error, tx.State()) == RunTick(old(tx.State()), s, tick)
  {
    error := RunEarlyStages(tx, s, tick);
    if error.Some? { return; }
    hide BeforeMatching, AfterMatching, RunMatching;
    error := RunMarketMatching(tx, s.listing, s.groups, tick);
    if error.Some? { return; }
    error := RunLateStages(tx, s, tick);
  }

  method RunEarlyStages(tx: Tables, s: Schedule, tick: int) returns (error: Option<Error>)
    modifies tx
    ensures Result(error, tx.State()) == BeforeMatching(old(tx.State()), s, tick)
  {
    hide RunBots, Estate.ApplyOperatingCosts, Production.CompleteJobs, Research.CompleteResearch;
    error := RunBotsForTick(tx, s.bots, tick);
    if error.Some? { return; }
    error := ApplyBuildingOperatingCosts(tx, s.costs, tick);
    if error.Some? { return; }
    error := CompleteDueProductionJobs(tx, s.jobs, tick);
    if error.Some? { return; }
    error := CompleteDueResearchJobs(tx, s.research, tick);
  }

  method RunLateStages(tx: Tables, s: Schedule, tick: int) returns (error: Option<Error>)
    modifies tx
    ensures Result(error, tx.State()) == AfterMatching(old(tx.State()), s, tick)
  {
    hide Logistics.DeliverDue, Payroll.RunWorkforce, DemandSink.RunDemandSink, Contracts.RunContractLifecycle;
    var delivered, returned;
    error, delivered, returned := DeliverDueShipments(tx, s.shipments, tick);
    if error.Some? { return; }
    error := RunWorkforceForTick(tx, s.hirings, s.payroll, tick, s.workforce);
    if error.Some? { return; }
    error := RunDemandSinkForTick(tx, s.demands, tick);
    if error.Some? { return; }
    error := RunContractLifecycle(tx, s.market, s.offers, tick, s.contracts);
  }

  // One tick in one transaction: whatever the bots do, sound tables are sound afterwards and follow from what they
  // were, and a tick that throws has changed nothing.
  method AdvanceTick(tx: Tables, s: Schedule, tick: nat) returns (error: Option<Error>)
    requires Sound(tx.State()) && Configured(s) && Served(tx.State(), s, tick)
    modifies tx
    ensures tx.State() == Commit(old(tx.State()), RunTick(old(tx.State()), s, tick))
    ensures error == if RunTick(old(tx.State()), s, tick).Done? then None
                     else Some(RunTick(old(tx.State()), s, tick).error)
    ensures Carries(old(tx.State()), tx.State())
    ensures error.None? ==> !CrossedBook(tx.State().orders) && StoresBounded(old(tx.State()), tx.State())
    ensures error.Some? ==> tx.State() == old(tx.State())
  {
    hide Sound, Follows, Solvent, Balanced, RunTick, Configured, Served, CrossedBook, StoresBounded;
    var before := tx.State();
    RunTickCarries(before, s, tick);
    error := RunTickPipeline(tx, s, tick);
    if error.Some? {
      tx.Restore(before);
      CarriesSelf(before);
    } else {
      RunTickBoundsStores(before, s, tick);
    }
  }
}
