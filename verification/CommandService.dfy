/** The commands as the services serve them: one transaction over the tables for each. */
module CommandService {
  import opened Rows
  import opened Market
  import opened Payroll
  import opened Production
  import opened Pipeline
  import opened Simulation
  import opened Database
  import opened MarketService
  import opened ProductionService
  import opened CompanyServices
  import opened DealServices
  import opened TickService
  import opened Accounting
  import opened Conservation
  import opened Health
  import opened Reachable
  import Estate
  import Logistics
  import Contracts
  import Research

  method ServeMarket(tx: Tables, c: Command, tick: int) returns (error: Option<Error>)
    requires c.Place? || c.Cancel? || c.Produce? || c.CancelProduction?
    modifies tx
    ensures Result(error, tx.State()) == Apply(old(tx.State()), c, tick)
  {
    hide PlaceOrder, CancelOrder, CreateJob, CancelJob, Result;
    match c
    case Place(order, id, now) => error := PlaceMarketOrder(tx, order, id, tick, now);
    case Cancel(orderId) => error := CancelMarketOrder(tx, orderId, tick);
    case Produce(job, id) => error := CreateProductionJob(tx, job, id, tick);
    case CancelProduction(jobId) => error := CancelProductionJob(tx, jobId, tick);
  }

  method ServeStaff(tx: Tables, c: Command, tick: int) returns (error: Option<Error>)
    requires c.Allocate? || c.Resize?
    modifies tx
    ensures Result(error, tx.State()) == Apply(old(tx.State()), c, tick)
  {
    hide SetAllocation, RequestCapacity, Result;
    match c
    case Allocate(company, operations, research, logistics, corporate) =>
      error := SetWorkforceAllocation(tx, company, operations, research, logistics, corporate);
    case Resize(company, delta, id, config) => error := RequestWorkforceCapacity(tx, company, delta, id, tick, config);
  }

  method ServeSite(tx: Tables, c: Command, tick: int) returns (error: Option<Error>)
    requires c.Build? || c.Reopen? || c.Ship? || c.Recall?
    modifies tx
    ensures Result(error, tx.State()) == Apply(old(tx.State()), c, tick)
  {
    hide Estate.Acquire, Estate.Reactivate, Logistics.CreateShipment, Logistics.CancelShipment, Result;
    match c
    case Build(building, id) => error := AcquireBuilding(tx, building, id, tick);
    case Reopen(buildingId) => error := ReactivateBuilding(tx, buildingId, tick);
    case Ship(shipment, id, fees) => error := CreateShipment(tx, shipment, id, tick, fees);
    case Recall(shipmentId) => error := CancelShipment(tx, shipmentId, tick);
  }

  method ServeContract(tx: Tables, c: Command, tick: int) returns (error: Option<Error>)
    requires c.Accept? || c.Fulfil?
    modifies tx
    ensures Result(error, tx.State()) == Apply(old(tx.State()), c, tick)
  {
    hide Contracts.AcceptContract, Contracts.FulfilContract, Result;
    match c
    case Accept(contractId, seller) => error := AcceptContract(tx, contractId, seller, tick);
    case Fulfil(contractId, seller, quantity, locked) =>
      error := FulfilContract(tx, contractId, seller, quantity, tick, locked);
  }

  method ServeResearch(tx: Tables, c: Command, tick: int) returns (error: Option<Error>)
    requires c.Study? || c.AbandonStudy?
    modifies tx
    ensures Result(error, tx.State()) == Apply(old(tx.State()), c, tick)
  {
    hide Research.StartResearch, Research.CancelResearch, Result;
    match c
    case Study(key, id) => error := StartResearch(tx, key, id, tick);
    case AbandonStudy(key, studyId) => error := CancelResearch(tx, key, studyId, tick);
  }

  method Serve(tx: Tables, c: Command, tick: int) returns (error: Option<Error>)
    modifies tx
    ensures Result(error, tx.State()) == Apply(old(tx.State()), c, tick)
  {
    if c.AdvanceTick? {
      hide RunTick, Result;
      error := RunTickPipeline(tx, c.schedule, tick);
    } else if c.Place? || c.Cancel? || c.Produce? || c.CancelProduction? {
      error := ServeMarket(tx, c, tick);
    } else if c.Accept? || c.Fulfil? {
      error := ServeContract(tx, c, tick);
    } else if c.Study? || c.AbandonStudy? {
      error := ServeResearch(tx, c, tick);
    } else if c.Allocate? || c.Resize? {
      error := ServeStaff(tx, c, tick);
    } else {
      error := ServeSite(tx, c, tick);
    }
  }

  // One command in one transaction: it commits or leaves the tables as they were. Sound tables stay sound, and unless
  // the command is one of the two that spend total cash, cover and right balances stay too.
  method RunCommand(tx: Tables, c: Command, tick: nat) returns (error: Option<Error>)
    modifies tx
    ensures tx.State() == Commit(old(tx.State()), Apply(old(tx.State()), c, tick))
    ensures error.Some? <==> Apply(old(tx.State()), c, tick).Thrown?
    ensures error.Some? ==> error.value == Apply(old(tx.State()), c, tick).error && tx.State() == old(tx.State())
    ensures Sound(old(tx.State())) && Supplied(old(tx.State()), c, tick) ==>
              && Continues(old(tx.State()), tx.State())
              && (!c.Fulfil? && !c.Study? ==> Carries(old(tx.State()), tx.State()))
  {
    hide Sound, Follows, Solvent, Balanced, Supplied, Apply;
    var before := tx.State();
    error := Serve(tx, c, tick);
    if error.Some? {
      tx.Restore(before);
      if Sound(before) { CarriesSelf(before); }
    } else if Sound(before) && Supplied(before, c, tick) {
      ApplyContinues(before, c, tick);
      if !c.Fulfil? && !c.Study? { ApplyCarries(before, c, tick); }
    }
  }
}
