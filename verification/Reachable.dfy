/** What holds in every state a run reaches. */
module Reachable {
  import opened Rows
  import opened Sums
  import opened Market
  import opened Payroll
  import opened Production
  import Estate
  import Logistics
  import Contracts
  import opened Research
  import opened Pipeline
  import opened Simulation
  import opened Accounting
  import opened ProductionBooks
  import opened Conservation
  import opened ResearchTheory
  import opened Health
  import opened Audits
  import opened Solvency
  import opened Steps
  import opened DealSteps
  import opened TickTheory

  // A tick reads the tables it runs on. Nothing else is asked of any command.
  ghost predicate Supplied(w: World, c: Command, tick: nat) {
    c.AdvanceTick? ==> Configured(c.schedule) && Served(w, c.schedule, tick)
  }

  ghost predicate AllSupplied(w: World, commands: seq<Issued>)
    decreases |commands|
  {
    commands == [] ||
    (&& Supplied(w, commands[0].command, commands[0].tick)
     && AllSupplied(Commit(w, Apply(w, commands[0].command, commands[0].tick)), commands[1..]))
  }

  lemma CancelJobKnown(w: World, id: Id, tick: int)
    requires CancelJob(w, id, tick).Done?
    ensures id in w.jobs
  {
  }

  lemma RecallKnown(w: World, id: Id, tick: int)
    requires Logistics.CancelShipment(w, id, tick).Done?
    ensures id in w.shipments
  {
  }

  // Every command but the two that spend total cash.
  lemma ApplyCarries(w: World, c: Command, tick: nat)
    requires Sound(w) && Supplied(w, c, tick) && Apply(w, c, tick).Done? && !c.Fulfil? && !c.Study?
    ensures Carries(w, Apply(w, c, tick).world)
  {
    hide Sound, Carries, PlaceOrder, CancelOrder, CreateJob, CancelJob, SetAllocation, RequestCapacity,
         Estate.Acquire, Estate.Reactivate, Logistics.CreateShipment, Logistics.CancelShipment,
         Contracts.AcceptContract, Research.CancelResearch, RunTick, Configured, Served;
    match c
    case Place(order, id, now) => PlaceOrderCarries(w, order, id, tick, now);
    case Cancel(orderId) => CancelOrderCarries(w, orderId, tick);
    case Produce(job, id) => CreateJobCarries(w, job, id, tick);
    case CancelProduction(jobId) => CancelJobKnown(w, jobId, tick); CancelJobCarries(w, jobId, tick);
    case Allocate(company, a, b, c, d) => SetAllocationCarries(w, company, a, b, c, d);
    case Resize(company, delta, id, config) => RequestCapacityCarries(w, company, delta, id, tick, config);
    case Build(building, id) => AcquireCarries(w, building, id, tick);
    case Reopen(buildingId) => ReactivateCarries(w, buildingId, tick);
    case Ship(shipment, id, fees) => CreateShipmentCarries(w, shipment, id, tick, fees);
    case Recall(shipmentId) => RecallKnown(w, shipmentId, tick); CancelShipmentCarries(w, shipmentId, tick);
    case Accept(contractId, seller) => AcceptCarries(w, contractId, seller, tick);
    case AbandonStudy(key, studyId) => CancelResearchCarries(w, key, studyId, tick);
    case AdvanceTick(schedule) => RunTickCarries(w, schedule, tick);
  }

  lemma ApplyContinues(w: World, c: Command, tick: nat)
    requires Sound(w) && Supplied(w, c, tick) && Apply(w, c, tick).Done?
    ensures Continues(w, Apply(w, c, tick).world)
  {
    hide Sound, Follows, Solvent, Balanced, Supplied, Contracts.FulfilContract, Research.StartResearch;
    match c
    case Fulfil(contractId, seller, quantity, locked) => FulfilContinues(w, contractId, seller, quantity, tick, locked);
    case Study(key, id) => StartResearchContinues(w, key, id, tick);
    case _ => ApplyCarries(w, c, tick);
  }

  // Every run, whatever its commands spend: each state is sound and follows from the state the run began in.
  lemma {:induction false} RunContinues(w: World, commands: seq<Issued>)
    requires Sound(w) && AllSupplied(w, commands)
    ensures Continues(w, Run(w, commands))
    decreases |commands|
  {
    hide Sound, Follows, Solvent, Balanced, Apply, Supplied;
    if commands == [] {
      CarriesSelf(w);
    } else {
      var out := Apply(w, commands[0].command, commands[0].tick);
      var next := Commit(w, out);
      if out.Done? { ApplyContinues(w, commands[0].command, commands[0].tick); } else { CarriesSelf(w); }
      RunContinues(next, commands[1..]);
      ContinuesComposes(w, next, Run(next, commands[1..]));
    }
  }

  // ---------------------------------------------------------------- covers and balances

  // Where cash still covers what is reserved of it afterwards: unreserved cash covers what the command spends.
  ghost predicate KeepsCover(w: World, c: Command) {
    match c
    case Fulfil(id, seller, quantity, _) =>
      id in w.contracts && w.contracts[id].buyer in w.companies &&
      (w.contracts[id].buyer == seller ||
       w.contracts[id].price * quantity
         <= w.companies[w.contracts[id].buyer].cash - w.companies[w.contracts[id].buyer].reserved)
    case Study(key, _) =>
      key.company in w.companies && key.node in w.catalogue.nodes &&
      w.catalogue.nodes[key.node].cost <= w.companies[key.company].cash - w.companies[key.company].reserved
    case _ => true
  }

  // Where every balance recorded afterwards is right: nobody settles a contract with itself.
  ghost predicate KeepsBalances(w: World, c: Command) {
    c.Fulfil? ==> c.contractId in w.contracts && w.contracts[c.contractId].buyer != c.seller
  }

  // Over all commands, cover is lost exactly where the condition on the two fails.
  lemma CoverKeptIff(w: World, c: Command, tick: nat)
    requires Sound(w) && Supplied(w, c, tick) && Apply(w, c, tick).Done? && Solvent(w)
    ensures Solvent(Apply(w, c, tick).world) <==> KeepsCover(w, c)
  {
    Parts(w);
    hide Sound, Books, Follows, Solvent, Balanced, Supplied, Contracts.FulfilContract, Research.StartResearch, RunTick;
    match c
    case Fulfil(id, seller, quantity, locked) =>
      FulfilStays(w, id, seller, quantity, tick, locked);
      FulfilSolventIff(w, id, seller, quantity, tick, locked);
      FulfilNames(w, id, seller, quantity, tick, locked);
    case Study(key, id) =>
      StudyNames(w, key, id, tick);
      StartResearchSolventIff(w, key, id, tick);
    case _ =>
      hide Apply;
      ApplyCarries(w, c, tick);
  }

  lemma FulfilNames(w: World, id: Id, seller: Id, quantity: int, tick: int, locked: bool)
    requires Contracts.FulfilContract(w, id, seller, quantity, tick, locked).Done?
    ensures id in w.contracts && w.contracts[id].buyer in w.companies
  {
  }

  lemma StudyNames(w: World, key: NodeKey, id: Id, tick: int)
    requires Research.StartResearch(w, key, id, tick).Done?
    ensures key.company in w.companies && key.node in w.catalogue.nodes
  {
  }

  // And right balances are lost exactly in a settlement of a company with itself.
  lemma BalancesKeptIff(w: World, c: Command, tick: nat)
    requires Sound(w) && Supplied(w, c, tick) && Apply(w, c, tick).Done? && Balanced(w)
    ensures Balanced(Apply(w, c, tick).world) <==> KeepsBalances(w, c)
  {
    Parts(w);
    hide Sound, Books, Follows, Solvent, Balanced, Supplied, Contracts.FulfilContract, Research.StartResearch, RunTick;
    match c
    case Fulfil(id, seller, quantity, locked) =>
      FulfilStays(w, id, seller, quantity, tick, locked);
      FulfilAudited(w, id, seller, quantity, tick, locked);
      FulfilNames(w, id, seller, quantity, tick, locked);
    case Study(key, id) => StartResearchContinues(w, key, id, tick);
    case _ =>
      hide Apply;
      ApplyCarries(w, c, tick);
  }

  ghost predicate AllKeepCover(w: World, commands: seq<Issued>)
    decreases |commands|
  {
    commands == [] ||
    (&& (Apply(w, commands[0].command, commands[0].tick).Done? ==> KeepsCover(w, commands[0].command))
     && AllKeepCover(Commit(w, Apply(w, commands[0].command, commands[0].tick)), commands[1..]))
  }

  ghost predicate AllKeepBalances(w: World, commands: seq<Issued>)
    decreases |commands|
  {
    commands == [] ||
    (&& (Apply(w, commands[0].command, commands[0].tick).Done? ==> KeepsBalances(w, commands[0].command))
     && AllKeepBalances(Commit(w, Apply(w, commands[0].command, commands[0].tick)), commands[1..]))
  }

  lemma {:induction false} RunStaysCovered(w: World, commands: seq<Issued>)
    requires Sound(w) && AllSupplied(w, commands) && Solvent(w) && AllKeepCover(w, commands)
    ensures Solvent(Run(w, commands))
    decreases |commands|
  {
    hide Sound, Follows, Solvent, Apply, Supplied, KeepsCover;
    if commands != [] {
      var out := Apply(w, commands[0].command, commands[0].tick);
      if out.Done? {
        ApplyContinues(w, commands[0].command, commands[0].tick);
        CoverKeptIff(w, commands[0].command, commands[0].tick);
      }
      RunStaysCovered(Commit(w, out), commands[1..]);
    }
  }

  lemma {:induction false} RunStaysBalanced(w: World, commands: seq<Issued>)
    requires Sound(w) && AllSupplied(w, commands) && Balanced(w) && AllKeepBalances(w, commands)
    ensures Balanced(Run(w, commands))
    decreases |commands|
  {
    hide Sound, Follows, Balanced, Apply, Supplied, KeepsBalances;
    if commands != [] {
      var out := Apply(w, commands[0].command, commands[0].tick);
      if out.Done? {
        ApplyContinues(w, commands[0].command, commands[0].tick);
        BalancesKeptIff(w, commands[0].command, commands[0].tick);
      }
      RunStaysBalanced(Commit(w, out), commands[1..]);
    }
  }

  // A run none of whose completed commands lost cover or balances keeps the whole of health.
  lemma RunStaysHealthy(w: World, commands: seq<Issued>)
    requires Healthy(w) && AllSupplied(w, commands) && AllKeepCover(w, commands) && AllKeepBalances(w, commands)
    ensures Healthy(Run(w, commands)) && Carries(w, Run(w, commands))
  {
    hide Sound, Follows, Solvent, Balanced, Run;
    RunContinues(w, commands);
    RunStaysCovered(w, commands);
    RunStaysBalanced(w, commands);
  }

  // ---------------------------------------------------------------- where runs begin

  // A seeded world before its first order: rows in range, nothing under way, and research rows only for nodes that
  // count as completed from the start.
  ghost predicate Clean(w: World) {
    && RowsOk(w)
    && w.orders == map[] && w.jobs == map[] && w.shipments == map[] && w.contracts == map[] && w.fulfilments == [] &&
        w.trades == []
    && w.researchJobs == map[] && w.ledger == []
    && (forall key :: key in w.research ==>
          w.research[key].Completed? && PrerequisitesMet(w, key) && Unlocks(w.catalogue, key) <= w.unlocked)
    && (forall c :: c in w.companies ==> w.companies[c].reserved == 0)
    && (forall k :: k in w.stock ==> w.stock[k].reserved == 0)
  }

  lemma CleanIsHealthy(w: World)
    requires Clean(w)
    ensures Healthy(w)
  {
    CleanBooks(w);
    CleanResearch(w);
    hide Books, ResearchSound;
  }

  lemma CleanBooks(w: World)
    requires Clean(w)
    ensures Books(w)
  {
    forall c | c in w.companies ensures w.companies[c].reserved == BuyClaims(w.orders, c) {}
    forall k ensures ReservedAt(w.stock, k) == SellClaims(w.orders, k) + JobClaims(w.jobs, k) {}
  }

  lemma CleanResearch(w: World)
    requires Clean(w)
    ensures ResearchSound(w)
  {
    hide RowsOk;
    forall key ensures StoredStatus(w, key).Researching? <==> HasRunningJob(w.researchJobs, key) {}
  }

  // ---------------------------------------------------------------- what a sound world says

  function OpenBuyValue(company: Id): (Id, Order) -> int {
    (id: Id, o: Order) => if o.company == company && o.status.Open? && o.side.Buy? then o.remaining * o.price else 0
  }

  function OpenSellRemainder(key: RowKey): (Id, Order) -> int {
    (id: Id, o: Order) => if KeyOf(o) == key && o.status.Open? && o.side.Sell? then o.remaining else 0
  }

  function RunningInputs(key: RowKey): (Id, Job) -> int {
    (id: Id, job: Job) =>
      if job.company == key.company && job.region == key.region && job.status.InProgress?
      then job.runs * PerRun(job.recipe.inputs, key.item) else 0
  }

  // Reserved cash is remaining times price over the open buys, and reserved stock is the open sells' remainders
  // plus inputs times runs of the running jobs: nothing is reserved twice, and nothing stays reserved for nobody.
  lemma ReservationsAreExact(w: World)
    requires Sound(w)
    ensures forall c :: c in w.companies ==> w.companies[c].reserved == Sum(w.orders, OpenBuyValue(c))
    ensures forall k :: k in w.stock ==>
              w.stock[k].reserved == Sum(w.orders, OpenSellRemainder(k)) + Sum(w.jobs, RunningInputs(k))
  {
    forall c | c in w.companies ensures w.companies[c].reserved == Sum(w.orders, OpenBuyValue(c)) {
      SumCongruent(w.orders, BuyClaim(c), w.orders, OpenBuyValue(c));
    }
    forall k | k in w.stock
      ensures w.stock[k].reserved == Sum(w.orders, OpenSellRemainder(k)) + Sum(w.jobs, RunningInputs(k))
    {
      assert ReservedAt(w.stock, k) == SellClaims(w.orders, k) + JobClaims(w.jobs, k);
      SumCongruent(w.orders, SellClaim(k), w.orders, OpenSellRemainder(k));
      forall id | id in w.jobs ensures JobClaim(k)(id, w.jobs[id]) == RunningInputs(k)(id, w.jobs[id]) {
        NeededIsRunsTimesInput(w.jobs[id].recipe.inputs, w.jobs[id].runs, k.item);
      }
      SumCongruent(w.jobs, JobClaim(k), w.jobs, RunningInputs(k));
    }
  }
}
