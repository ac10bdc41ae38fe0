/** One tick: bot actions and nine further stages in a fixed order, inside one transaction. */
module Pipeline {
  import opened Rows
  import opened Market
  import opened Payroll
  import opened Production
  import Estate
  import Logistics
  import DemandSink
  import Contracts
  import Research

  // What a bot may do: the strategies themselves are not modelled.
  datatype BotAction =
    | BotReview(company: Id)
    | BotCancel(order: Id)
    | BotPlace(request: OrderRequest, id: Id, now: int)
    | BotProduce(company: Id, candidates: seq<Candidate>, maxJobs: int)

  // The runner reads the available cash of every company it runs.
  function Review(w: World, company: Id): Outcome {
    if company in w.companies && !CashOk(w.companies[company].cash, w.companies[company].reserved)
    then Thrown(Inconsistent, w) else Done(w)
  }

  function RunBot(w: World, a: BotAction, tick: int): Outcome {
    match a
    case BotReview(company) => Review(w, company)
    case BotCancel(order) => CancelOrder(w, order, tick)
    case BotPlace(request, id, now) => PlaceOrder(w, request, id, tick, now)
    case BotProduce(company, candidates, maxJobs) =>
      match AutoStart(w, company, candidates, maxJobs, tick)
      case Started(_, next) => Done(next)
      case StartThrown(e, open) => Thrown(e, open)
  }

  function RunBots(w: World, actions: seq<BotAction>, tick: int): Outcome
    decreases |actions|
  {
    if actions == [] then Done(w)
    else
      match RunBot(w, actions[0], tick)
      case Thrown(e, open) => Thrown(e, open)
      case Done(next) => RunBots(next, actions[1..], tick)
  }

  // What the stages read besides the tables: the rows each stage's query returned, in the order it returned them,
  // the keys of new rows, and the configuration.
  datatype Schedule = Schedule(
    bots: seq<BotAction>,
    costs: seq<Id>, jobs: seq<Id>, research: seq<Id>,
    listing: seq<Id>, groups: seq<Group>,
    shipments: seq<Id>,
    hirings: seq<Id>, payroll: seq<Id>, workforce: Config,
    demands: seq<DemandSink.Demand>,
    market: Contracts.Market, offers: seq<Id>, contracts: Contracts.ContractConfig)

  // Stages 1 to 4: bots, operating costs, production, research.
  ghost function BeforeMatching(w: World, s: Schedule, tick: int): Outcome {
    match RunBots(w, s.bots, tick)
    case Thrown(e, open) => Thrown(e, open)
    case Done(acted) =>
      match Estate.ApplyOperatingCosts(acted, s.costs, tick)
      case Thrown(e, open) => Thrown(e, open)
      case Done(charged) =>
        match CompleteJobs(charged, s.jobs, tick)
        case Thrown(e, open) => Thrown(e, open)
        case Done(produced) => Research.CompleteResearch(produced, s.research, tick)
  }

  // Stages 6 to 9: shipments, workforce, demand, contracts. Stage 10 only derives candles from the trades.
  ghost function AfterMatching(w: World, s: Schedule, tick: int): Outcome {
    match Logistics.DeliverDue(w, s.shipments, tick)
    case Thrown(e, open) => Thrown(e, open)
    case Done(delivered) =>
      match RunWorkforce(delivered, s.hirings, s.payroll, tick, s.workforce)
      case Thrown(e, open) => Thrown(e, open)
      case Done(paid) =>
        match DemandSink.RunDemandSink(paid, s.demands, tick)
        case Thrown(e, open) => Thrown(e, open)
        case Done(drained) => Contracts.RunContractLifecycle(drained, s.market, s.offers, tick, s.contracts)
  }

  ghost function RunTick(w: World, s: Schedule, tick: int): Outcome {
    match BeforeMatching(w, s, tick)
    case Thrown(e, open) => Thrown(e, open)
    case Done(ready) =>
      match RunMatching(ready, s.listing, s.groups, tick)
      case Thrown(e, open) => Thrown(e, open)
      case Done(matched) => AfterMatching(matched, s, tick)
  }
}
