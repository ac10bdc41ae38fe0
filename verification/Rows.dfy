/** The rows of the simulation database and the state of one open transaction over them. */
module Rows {
  // Primary keys. Only their identity and their order matter: the order stands for the collation of the
  // string ids, so an id says nothing about when its row was created.
  type Id = nat

  datatype Option<+T> = None | Some(value: T)

  datatype Side = Buy | Sell

  datatype Workforce = Workforce(
    capacity: int, operations: int, research: int, logistics: int, corporate: int, efficiency: int)

  datatype Company = Company(
    region: Id, isPlayer: bool, owned: bool, cash: int, reserved: int, workforce: Workforce)

  datatype RowKey = RowKey(company: Id, item: Id, region: Id)

  datatype Stock = Stock(quantity: int, reserved: int)

  datatype OrderStatus = Open | Filled | Cancelled

  datatype Order = Order(
    company: Id, item: Id, region: Id, side: Side, status: OrderStatus,
    price: int, quantity: int, remaining: int, reservedCash: int, reservedQuantity: int,
    tickPlaced: int, createdAt: int, tickClosed: Option<int>)

  datatype Ingredient = Ingredient(item: Id, quantity: int)

  datatype Recipe = Recipe(inputs: seq<Ingredient>, output: Id, outputQuantity: int, duration: int)

  datatype JobStatus = InProgress | JobCompleted | JobCancelled

  // A job row joined with its recipe and its company's region, neither of which ever changes.
  datatype Job = Job(
    company: Id, region: Id, recipe: Recipe, status: JobStatus, runs: int,
    started: int, due: int, completed: Option<int>)

  datatype ShipmentStatus = InTransit | Delivered | ShipmentCancelled

  datatype Shipment = Shipment(
    company: Id, from: Id, to: Id, item: Id, quantity: int, status: ShipmentStatus,
    created: int, arrives: int, closed: Option<int>)

  datatype ContractStatus = Offered | Accepted | PartlyFulfilled | Fulfilled | Expired

  datatype Contract = Contract(
    buyer: Id, seller: Option<Id>, item: Id, quantity: int, remaining: int, price: int,
    status: ContractStatus, created: int, expires: int, accepted: Option<int>, closed: Option<int>)

  datatype Fulfilment = Fulfilment(contract: Id, seller: Id, item: Id, quantity: int, price: int, tick: int)

  datatype BuildingKind = Production | Warehouse | Corporate

  datatype Building = Building(
    company: Id, region: Id, kind: BuildingKind, active: bool, weeklyCost: int, lastCharged: Option<int>)

  // A capacity increase that was paid for and has not necessarily arrived.
  datatype Hiring = Hiring(company: Id, amount: int, arrives: int, applied: Option<int>)

  datatype EntryKind =
    | OrderReserve | TradeSettlement | ContractSettlement | ProductionCompletion | ShipmentFee
    | BuildingAcquisition | BuildingOperatingCost | Recruitment | Salary | ResearchPayment

  datatype Entry = Entry(
    company: Id, tick: int, kind: EntryKind, deltaCash: int, deltaReserved: int, balanceAfter: int)

  datatype Trade = Trade(
    buyOrder: Id, sellOrder: Id, buyer: Id, seller: Id, item: Id, region: Id,
    quantity: int, price: int, total: int, tick: int)

  // What the demand sink took, in the order it took it.
  datatype Consumption = Consumption(key: RowKey, quantity: int)

  datatype ResearchStatus = Locked | Available | Researching | Completed

  datatype NodeKey = NodeKey(company: Id, node: Id)

  datatype ResearchJobStatus = Running | ResearchDone | ResearchCancelled

  datatype ResearchJob = ResearchJob(key: NodeKey, status: ResearchJobStatus, completes: int)

  datatype Node = Node(cost: int, duration: int, prerequisites: set<Id>, unlocks: set<Id>)

  // The static catalogue. No command of the model changes it.
  datatype Catalogue = Catalogue(
    items: set<Id>, regions: set<Id>, recipes: map<Id, Recipe>, nodes: map<Id, Node>,
    travel: map<(Id, Id), int>, salaryModifier: map<Id, int>)

  datatype World = World(
    catalogue: Catalogue,
    companies: map<Id, Company>,
    stock: map<RowKey, Stock>,
    orders: map<Id, Order>,
    jobs: map<Id, Job>,
    shipments: map<Id, Shipment>,
    contracts: map<Id, Contract>,
    fulfilments: seq<Fulfilment>,
    buildings: map<Id, Building>,
    hirings: map<Id, Hiring>,
    research: map<NodeKey, ResearchStatus>,
    researchJobs: map<Id, ResearchJob>,
    unlocked: set<(Id, Id)>,
    ledger: seq<Entry>,
    trades: seq<Trade>,
    consumed: seq<Consumption>)

  datatype Error =
    | NotFound | BadInput | Forbidden | Refused | InsufficientFunds | InsufficientInventory
    | StorageFull | Inconsistent | Conflict

  // A command either completes or throws. `open` is what the transaction had written when it threw: a caller
  // that catches the error and goes on inside the same transaction sees it, a rollback discards it.
  datatype Outcome = Done(world: World) | Thrown(error: Error, open: World)

  // `prisma.$transaction`: a throw leaves the database as it was.
  function Commit(before: World, out: Outcome): World {
    if out.Done? then out.world else before
  }

  function Min(a: int, b: int): int { if a <= b then a else b }

  function Max(a: int, b: int): int { if a >= b then a else b }
}
