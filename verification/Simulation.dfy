/** Runs of the simulation: any sequence of commands and ticks, each in its own transaction. */
module Simulation {
  import opened Rows
  import opened Market
  import opened Payroll
  import opened Production
  import Estate
  import Logistics
  import Contracts
  import Research
  import opened Pipeline

  datatype Command =
    | Place(order: OrderRequest, id: Id, now: int)
    | Cancel(orderId: Id)
    | Produce(job: JobRequest, id: Id)
    | CancelProduction(jobId: Id)
    | Allocate(company: Id, operations: int, research: int, logistics: int, corporate: int)
    | Resize(company: Id, delta: int, id: Id, config: Config)
    | Build(building: Estate.BuildingRequest, id: Id)
    | Reopen(buildingId: Id)
    | Ship(shipment: Logistics.ShipmentRequest, id: Id, fees: Logistics.FeeConfig)
    | Recall(shipmentId: Id)
    | Accept(contractId: Id, seller: Id)
    | Fulfil(contractId: Id, seller: Id, quantity: int, locked: bool)
    | Study(key: NodeKey, id: Id)
    | AbandonStudy(key: NodeKey, studyId: Id)
    | AdvanceTick(schedule: Schedule)

  // A command issued when the world is at `tick`; a tick advances to that tick.
  ghost function Apply(w: World, c: Command, tick: int): Outcome {
    match c
    case Place(order, id, now) => PlaceOrder(w, order, id, tick, now)
    case Cancel(orderId) => CancelOrder(w, orderId, tick)
    case Produce(job, id) => CreateJob(w, job, id, tick)
    case CancelProduction(jobId) => CancelJob(w, jobId, tick)
    case Allocate(company, operations, research, logistics, corporate) =>
      SetAllocation(w, company, operations, research, logistics, corporate)
    case Resize(company, delta, id, config) => RequestCapacity(w, company, delta, id, tick, config)
    case Build(building, id) => Estate.Acquire(w, building, id, tick)
    case Reopen(buildingId) => Estate.Reactivate(w, buildingId, tick)
    case Ship(shipment, id, fees) => Logistics.CreateShipment(w, shipment, id, tick, fees)
    case Recall(shipmentId) => Logistics.CancelShipment(w, shipmentId, tick)
    case Accept(contractId, seller) => Contracts.AcceptContract(w, contractId, seller, tick)
    case Fulfil(contractId, seller, quantity, locked) =>
      Contracts.FulfilContract(w, contractId, seller, quantity, tick, locked)
    case Study(key, id) => Research.StartResearch(w, key, id, tick)
    case AbandonStudy(key, studyId) => Research.CancelResearch(w, key, studyId, tick)
    case AdvanceTick(schedule) => RunTick(w, schedule, tick)
  }

  datatype Issued = Issued(command: Command, tick: nat)

  // Each command commits or leaves the world as it was.
  ghost function Run(w: World, commands: seq<Issued>): World
    decreases |commands|
  {
    if commands == [] then w
    else Run(Commit(w, Apply(w, commands[0].command, commands[0].tick)), commands[1..])
  }
}
