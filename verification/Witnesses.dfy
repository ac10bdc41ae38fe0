/** Concrete runs from healthy worlds that show each failure the theorems characterise. */
module Witnesses {
  import opened Rows
  import opened Sums
  import opened Storage
  import opened Matching
  import opened Market
  import opened Payroll
  import opened Pipeline
  import opened Accounting
  import opened Audits
  import opened Conservation
  import opened Health
  import opened Steps
  import opened DealSteps
  import opened Reachable
  import opened TickTheory
  import opened Overflow
  import opened Refusals
  import Contracts
  import Estate
  import Logistics
  import Research
  import opened Simulation

  const STAFF := Workforce(0, 25, 25, 25, 25, 10000)

  // A player company 0 and a non-player company 1, each with 100 cents, and these stock rows.
  function Seed(stock: map<RowKey, Stock>): World {
    World(
      Catalogue({0}, {0, 1}, map[], map[0 := Node(50, 1, {}, {})], map[(0, 1) := 1], map[]),
      map[0 := Company(0, true, true, 100, 0, STAFF), 1 := Company(0, false, false, 100, 0, STAFF)],
      stock,
      map[], map[], map[], map[], [], map[], map[], map[], map[], {}, [], [], [])
  }

  lemma SeedIsHealthy(stock: map<RowKey, Stock>)
    requires StockRowsOk(stock) && forall k :: k in stock ==> stock[k].reserved == 0
    ensures Healthy(Seed(stock))
  {
    assert Clean(Seed(stock));
    hide *;
    CleanIsHealthy(Seed(stock));
  }

  // Company `c` sets 60 of its 100 cents aside for a buy order.
  lemma Bidding(c: Id) returns (w: World)
    requires c == 0 || c == 1
    ensures Healthy(w) && w.catalogue == Seed(map[]).catalogue && w.stock == map[RowKey(0, 0, 0) := Stock(5, 0)]
    ensures w.companies == Seed(map[]).companies[c := Seed(map[]).companies[c].(reserved := 60)]
    ensures w.contracts == map[] && w.research == map[] && w.researchJobs == map[]
  {
    hide Sound, Follows, Solvent, Balanced, Clean;
    var r := OrderRequest(c, 0, None, Buy, 6, 10, false);
    var seed := Seed(map[RowKey(0, 0, 0) := Stock(5, 0)]);
    SeedIsHealthy(seed.stock);
    PlaceOrderCarries(seed, r, 0, 0, 0);
    w := PlaceOrder(seed, r, 0, 0, 0).world;
  }

  // Company 1 offers to buy two units at 50 cents each, and `seller` accepts.
  function Agreed(w: World, seller: Id): World {
    w.(contracts := map[0 := Contract(1, Some(seller), 0, 2, 2, 50, Accepted, 0, 10, Some(0), None)])
  }

  lemma Agree(w: World, seller: Id)
    requires Healthy(w) && w.contracts == map[] && w.companies.Keys == {0, 1} && Contracts.NpcBuyer(w.companies[1])
    requires seller in w.companies
    ensures Healthy(Agreed(w, seller))
  {
    hide Sound, Follows, Solvent, Balanced;
    var offer := Contract(1, None, 0, 2, 2, 50, Offered, 0, 10, None, None);
    OfferCarries(w, 0, offer);
    var offered := w.(contracts := w.contracts[0 := offer]);
    AcceptCarries(offered, 0, seller, 0);
    assert Contracts.AcceptContract(offered, 0, seller, 0).world == Agreed(w, seller);
  }

  // ---------------------------------------------------------------- cover and balances

  // Research for 50 cents is paid out of the 60 reserved.
  lemma ResearchCanOverdraw() returns (w: World, key: NodeKey)
    ensures Healthy(w) && Research.StartResearch(w, key, 0, 0).Done?
    ensures !Solvent(Research.StartResearch(w, key, 0, 0).world)
  {
    key := NodeKey(0, 0);
    w := Bidding(0);
    hide Sound, Balanced;
    var next := Research.StartResearch(w, key, 0, 0);
    assert !Research.HasRunningJob(w.researchJobs, key);
    assert next.Done?;
    assert next.world.companies[0].cash == 50 && next.world.companies[0].reserved == 60;
  }

  // A delivery for 50 cents is paid out of the buyer's 60 reserved.
  lemma FulfilmentCanOverdraw() returns (w: World)
    ensures Healthy(w) && Contracts.FulfilContract(w, 0, 0, 1, 1, false).Done?
    ensures !Solvent(Contracts.FulfilContract(w, 0, 0, 1, 1, false).world)
  {
    var bidding := Bidding(1);
    hide Sound, Balanced, Sum;
    Agree(bidding, 0);
    w := Agreed(bidding, 0);
    FulfilledIff(w, 0, 0, 1, 1, false);
    var next := Contracts.FulfilContract(w, 0, 0, 1, 1, false);
    assert next.Done?;
    assert next.world.companies[1].cash == 50 && next.world.companies[1].reserved == 60;
  }

  // A non-player company accepts its own offer and fulfils it: the balances recorded for it are wrong.
  lemma SelfSaleCanUnbalance() returns (w: World)
    ensures Healthy(w) && Contracts.FulfilContract(w, 0, 1, 1, 1, false).Done?
    ensures !Balanced(Contracts.FulfilContract(w, 0, 1, 1, 1, false).world)
  {
    var seed := Seed(map[RowKey(1, 0, 0) := Stock(5, 0)]);
    SeedIsHealthy(seed.stock);
    hide Sound, Solvent, Balanced, Sum;
    Agree(seed, 1);
    w := Agreed(seed, 1);
    FulfilledIff(w, 0, 1, 1, 1, false);
    Parts(w);
    hide Contracts.FulfilContract;
    FulfilStays(w, 0, 1, 1, 1, false);
    FulfilAudited(w, 0, 1, 1, 1, false);
  }

  // Company 0 reserves 60 of its 100 cents for six units, offers five, and has a building that costs nothing.
  function Trading(): World {
    var c := Seed(map[]).companies[0].(reserved := 60);
    Seed(map[RowKey(0, 0, 0) := Stock(5, 5)]).(
      companies := Seed(map[]).companies[0 := c],
      orders := map[0 := NewOrder(Bid(), 0, 0, 0), 1 := NewOrder(Ask(), 0, 0, 0)],
      buildings := map[0 := Building(0, 0, Production, true, 0, Some(0))],
      ledger := [Entry(0, 0, OrderReserve, 0, 60, 100), Entry(0, 0, BuildingAcquisition, 0, 0, 100)])
  }

  function Bid(): OrderRequest { OrderRequest(0, 0, None, Buy, 6, 10, false) }

  function Ask(): OrderRequest { OrderRequest(0, 0, None, Sell, 5, 10, false) }

  lemma TradingSteps(w: World, placed: World, asked: World)
    requires w == Seed(map[RowKey(0, 0, 0) := Stock(5, 0)])
    requires placed == w.(companies := Trading().companies, orders := map[0 := NewOrder(Bid(), 0, 0, 0)],
                          ledger := [Entry(0, 0, OrderReserve, 0, 60, 100)])
    requires asked == Trading().(buildings := map[], ledger := [Entry(0, 0, OrderReserve, 0, 60, 100)])
    ensures PlaceOrder(w, Bid(), 0, 0, 0) == Done(placed)
    ensures PlaceOrder(placed, Ask(), 1, 0, 0) == Done(asked)
    ensures Estate.Acquire(asked, Estate.BuildingRequest(0, 0, Production, 0, 0), 0, 0) == Done(Trading())
  {
    BidPlaced(w, placed);
    AskPlaced(placed, asked);
    BuildingAcquired(asked);
  }

  lemma BidPlaced(w: World, placed: World)
    requires w == Seed(map[RowKey(0, 0, 0) := Stock(5, 0)])
    requires placed == w.(companies := Trading().companies, orders := map[0 := NewOrder(Bid(), 0, 0, 0)],
                          ledger := [Entry(0, 0, OrderReserve, 0, 60, 100)])
    ensures PlaceOrder(w, Bid(), 0, 0, 0) == Done(placed)
  {
    var out := PlaceOrder(w, Bid(), 0, 0, 0);
    assert out.Done? && out.world.companies == placed.companies;
    assert out.world.orders == placed.orders && out.world.ledger == placed.ledger;
  }

  lemma AskPlaced(placed: World, asked: World)
    requires placed.companies == Trading().companies && placed.catalogue == Trading().catalogue
    requires placed.stock == map[RowKey(0, 0, 0) := Stock(5, 0)]
    requires placed.orders == map[0 := NewOrder(Bid(), 0, 0, 0)]
    requires asked == placed.(stock := Trading().stock, orders := Trading().orders)
    ensures PlaceOrder(placed, Ask(), 1, 0, 0) == Done(asked)
  {
    var out := PlaceOrder(placed, Ask(), 1, 0, 0);
    assert out.Done? && out.world.stock == asked.stock;
    assert out.world.orders == asked.orders;
  }

  lemma BuildingAcquired(asked: World)
    requires asked == Trading().(buildings := map[], ledger := [Entry(0, 0, OrderReserve, 0, 60, 100)])
    ensures Estate.Acquire(asked, Estate.BuildingRequest(0, 0, Production, 0, 0), 0, 0) == Done(Trading())
  {
    var out := Estate.Acquire(asked, Estate.BuildingRequest(0, 0, Production, 0, 0), 0, 0);
    assert out.Done? && out.world.companies == Trading().companies;
    assert out.world.buildings == Trading().buildings && out.world.ledger == Trading().ledger;
  }

  lemma TradingIsHealthy()
    ensures Healthy(Trading())
  {
    var seed := Seed(map[RowKey(0, 0, 0) := Stock(5, 0)]);
    var placed := seed.(companies := Trading().companies, orders := map[0 := NewOrder(Bid(), 0, 0, 0)],
                        ledger := [Entry(0, 0, OrderReserve, 0, 60, 100)]);
    var asked := Trading().(buildings := map[], ledger := [Entry(0, 0, OrderReserve, 0, 60, 100)]);
    SeedIsHealthy(seed.stock);
    TradingSteps(seed, placed, asked);
    hide *;
    HealthSteps(seed, placed, asked);
  }

  lemma HealthSteps(seed: World, placed: World, asked: World)
    requires Healthy(seed) && PlaceOrder(seed, Bid(), 0, 0, 0) == Done(placed)
    requires PlaceOrder(placed, Ask(), 1, 0, 0) == Done(asked)
    requires Estate.Acquire(asked, Estate.BuildingRequest(0, 0, Production, 0, 0), 0, 0) == Done(Trading())
    ensures Healthy(Trading())
  {
    hide Sound, Follows, Solvent, Balanced, PlaceOrder, Estate.Acquire, Trading;
    PlaceOrderCarries(seed, Bid(), 0, 0, 0);
    PlaceOrderCarries(placed, Ask(), 1, 0, 0);
    AcquireCarries(asked, Estate.BuildingRequest(0, 0, Production, 0, 0), 0, 0);
  }

  // The same after it has started research for 50 cents: reachable, sound, and uncovered.
  lemma Overspent() returns (w: World)
    ensures Research.StartResearch(Trading(), NodeKey(0, 0), 0, 0) == Done(w) && Sound(w) && !Solvent(w)
    ensures w.companies == Trading().companies[0 := Trading().companies[0].(cash := 50)]
    ensures w.orders == Trading().orders && w.stock == Trading().stock && w.buildings == Trading().buildings
    ensures w.jobs == map[] && w.contracts == map[]
  {
    TradingIsHealthy();
    hide Sound, Follows, Balanced;
    assert !Research.HasRunningJob(Trading().researchJobs, NodeKey(0, 0));
    w := Research.StartResearch(Trading(), NodeKey(0, 0), 0, 0).world;
    assert w.companies[0].cash == 50 && w.companies[0].reserved == 60;
    StartResearchContinues(Trading(), NodeKey(0, 0), 0, 0);
  }

  // A tick with nothing to do but these charges and this matching.
  function Quiet(costs: seq<Id>, listing: seq<Id>, groups: seq<Group>): Schedule {
    Schedule(
      [], costs, [], [], listing, groups, [], [], [], Config(1, 1, 1, 1, 1, 0, 1, 0, 0, 0, 0, 0), [],
      Contracts.Market([], [], map[], map[]), [], Contracts.ContractConfig(0, 1, 0))
  }

  // From then on the weekly charge of its building aborts every tick it is due in.
  lemma OverspentChargeAborts() returns (w: World)
    ensures Healthy(Trading()) && Research.StartResearch(Trading(), NodeKey(0, 0), 0, 0) == Done(w)
    ensures RunTick(w, Quiet([0], [], []), 7) == Thrown(Inconsistent, w)
  {
    TradingIsHealthy();
    w := Overspent();
    hide Healthy, Sound, Solvent, RunMatching, AfterMatching, Research.StartResearch;
    var s := Quiet([0], [], []);
    assert Estate.ChargeBuilding(w, 0, 7) == Thrown(Inconsistent, w);
    assert s.costs[0] == 0;
    assert BeforeMatching(w, s, 7) == Thrown(Inconsistent, w);
  }

  lemma TradingQuotes(orders: map<Id, Order>)
    requires orders == Trading().orders
    ensures GroupSide(orders, [0, 1], 0, 0, Buy) == [QuoteOf(0, orders[0])]
    ensures GroupSide(orders, [0, 1], 0, 0, Sell) == [QuoteOf(1, orders[1])]
  {
    assert [0, 1][1..] == [1] && [1][1..] == [];
    assert GroupSide(orders, [1], 0, 0, Buy) == [] && GroupSide(orders, [1], 0, 0, Sell) == [QuoteOf(1, orders[1])];
  }

  // Its bid and its offer match for five units at ten cents.
  lemma TradingCrosses(orders: map<Id, Order>)
    requires orders == Trading().orders
    ensures PlanGroup(orders, [0, 1], Group(0, 0)) == Planned([Match(0, 0, 0, 1, 5, 10)])
  {
    TradingQuotes(orders);
    hide GroupSide;
    var buy, sell := QuoteOf(0, orders[0]), QuoteOf(1, orders[1]);
    OneQuote(Buy, buy);
    OneQuote(Sell, sell);
    assert Cross([buy], [sell]) == [Pairing(buy, sell, 5)] by { assert After([sell], 5) == []; }
    assert AnnounceAll([Pairing(buy, sell, 5)]) == [Match(0, 0, 0, 1, 5, 10)];
  }

  lemma OneQuote(side: Side, q: Quote)
    requires Eligible(side, q)
    ensures OrderBook(side, [q]) == [q] && OneRegion([q])
  {
    assert [q][1..] == [];
    assert Eligibles(side, [q]) == [q] + [] == [q];
    assert Sort(side, [q]) == Insert(side, q, []) == [q] + [] == [q];
  }

  // And so does the crossing of its own bid and offer, every tick.
  lemma OverspentCrossingAborts() returns (w: World)
    ensures Healthy(Trading()) && Research.StartResearch(Trading(), NodeKey(0, 0), 0, 0) == Done(w)
    ensures RunTick(w, Quiet([], [0, 1], [Group(0, 0)]), 1) == Thrown(Inconsistent, w)
  {
    TradingIsHealthy();
    w := Overspent();
    TradingCrosses(w.orders);
    hide Healthy, Sound, Solvent, AfterMatching, Research.StartResearch, PlanGroup;
    var s, ms := Quiet([], [0, 1], [Group(0, 0)]), [Match(0, 0, 0, 1, 5, 10)];
    assert SettleMatch(w, ms[0], 1) == Thrown(Inconsistent, w);
    hide SettleMatch;
    assert SettleAll(w, ms, 1) == Thrown(Inconsistent, w);
    assert s.groups[0] == Group(0, 0);
    assert RunMatching(w, s.listing, s.groups, 1) == Thrown(Inconsistent, w);
    QuietBefore(w, s);
  }

  lemma QuietBefore(w: World, s: Schedule)
    requires s.bots == [] && s.costs == [] && s.jobs == [] && s.research == []
    ensures BeforeMatching(w, s, 1) == Done(w)
  {
  }

  // ---------------------------------------------------------------- stock

  // The seller holds five units in each of two regions: a delivery every check allows is refused.
  lemma TwinRowCanRefuse() returns (w: World)
    ensures Healthy(w) && Deliverable(w, 0, 0, 1, 1, false)
    ensures Contracts.FulfilContract(w, 0, 0, 1, 1, false) == Thrown(Conflict, w)
  {
    var row, twin := RowKey(0, 0, 0), RowKey(0, 0, 1);
    var seed := Seed(map[row := Stock(5, 0), twin := Stock(5, 0)]);
    SeedIsHealthy(seed.stock);
    hide Sound, Solvent, Balanced, Sum;
    Agree(seed, 0);
    w := Agreed(seed, 0);
    assert twin in w.stock && twin != row && w.stock[twin] == w.stock[row];
    TwinRowRefusesIff(w, 0, 0, 1, 1, false);
  }

  lemma FullStore(w: World, other: Stock)
    requires w.stock == map[RowKey(0, 0, 0) := other, RowKey(1, 0, 0) := Stock(1000, 0)] && w.buildings == map[]
    ensures Stored(w, 1, 0) == Capacity(w, 1, 0) == 1000
  {
    var one := map[RowKey(0, 0, 0) := other];
    SumPut(map[], StoredIn(1, 0), RowKey(0, 0, 0), other);
    SumPut(one, StoredIn(1, 0), RowKey(1, 0, 0), Stock(1000, 0));
    assert w.stock == one[RowKey(1, 0, 0) := Stock(1000, 0)] && one == map[][RowKey(0, 0, 0) := other];
  }

  lemma FullBuyer() returns (w: World)
    ensures Healthy(w) && Contracts.FulfilContract(w, 0, 0, 1, 1, false).Done?
    ensures 0 in w.contracts && w.contracts[0].buyer == 1 && 1 in w.companies && w.companies[1].region == 0
    ensures Stored(w, 1, 0) == Capacity(w, 1, 0) == 1000
  {
    var seed := Seed(map[RowKey(0, 0, 0) := Stock(5, 0), RowKey(1, 0, 0) := Stock(1000, 0)]);
    SeedIsHealthy(seed.stock);
    hide Sound, Solvent, Balanced, Sum, Contracts.FulfilContract, Deliverable, HasTwin;
    Agree(seed, 0);
    w := Agreed(seed, 0);
    FullStore(w, Stock(5, 0));
    OnlyRowSells(w);
    FulfilledIff(w, 0, 0, 1, 1, false);
  }

  lemma OnlyRowSells(w: World)
    requires w.companies == Seed(map[]).companies && w.contracts == Agreed(w, 0).contracts
    requires w.stock == map[RowKey(0, 0, 0) := Stock(5, 0), RowKey(1, 0, 0) := Stock(1000, 0)]
    ensures Deliverable(w, 0, 0, 1, 1, false) && !HasTwin(w.stock, RowKey(0, 0, 0))
  {
  }

  // The buyer's store is full, and a delivery of one unit puts it above its capacity.
  lemma FulfilmentCanOverfill() returns (w: World)
    ensures Healthy(w) && Contracts.FulfilContract(w, 0, 0, 1, 1, false).Done?
    ensures Stored(w, 1, 0) == Capacity(w, 1, 0)
    ensures !StoresBounded(w, Contracts.FulfilContract(w, 0, 0, 1, 1, false).world)
  {
    w := FullBuyer();
    hide Healthy, Sum, StoresBounded, Contracts.FulfilContract;
    FulfilmentBoundedIff(w, 0, 0, 1, 1, false);
  }

  // Company 1 has a full store, has shipped a unit out of it, and has agreed to buy.
  function Sent(): World {
    var seed := Seed(map[RowKey(0, 0, 0) := Stock(5, 0), RowKey(1, 0, 0) := Stock(999, 0)]);
    seed.(shipments := map[0 := Shipment(1, 0, 1, 0, 1, InTransit, 0, 1, None)],
          ledger := [Entry(1, 0, ShipmentFee, 0, 0, 100)])
  }

  // Before the unit was shipped.
  function Unsent(): World { Seed(map[RowKey(0, 0, 0) := Stock(5, 0), RowKey(1, 0, 0) := Stock(1000, 0)]) }

  lemma SentIsHealthy()
    ensures Healthy(Agreed(Sent(), 0))
  {
    var r, fees := Logistics.ShipmentRequest(1, 1, 0, 1, false), Logistics.FeeConfig(0, 0);
    SeedIsHealthy(Unsent().stock);
    UnitSent(r, fees);
    SentCarried(r, fees);
    hide Healthy;
    Agree(Sent(), 0);
  }

  lemma SentCarried(r: Logistics.ShipmentRequest, fees: Logistics.FeeConfig)
    requires Healthy(Unsent()) && Logistics.CreateShipment(Unsent(), r, 0, 0, fees) == Done(Sent())
    ensures Healthy(Sent())
  {
    hide Sound, Follows, Solvent, Balanced, Logistics.CreateShipment, Unsent, Sent;
    CreateShipmentCarries(Unsent(), r, 0, 0, fees);
  }

  lemma UnitSent(r: Logistics.ShipmentRequest, fees: Logistics.FeeConfig)
    requires r == Logistics.ShipmentRequest(1, 1, 0, 1, false) && fees == Logistics.FeeConfig(0, 0)
    ensures Logistics.CreateShipment(Unsent(), r, 0, 0, fees) == Done(Sent())
  {
    var out := Logistics.CreateShipment(Unsent(), r, 0, 0, fees);
    assert out.Done? && out.world.stock == Sent().stock && out.world.companies == Sent().companies;
    assert out.world.shipments == Sent().shipments && out.world.ledger == Sent().ledger;
  }

  lemma UnitDelivered() returns (w: World)
    ensures Contracts.FulfilContract(Agreed(Sent(), 0), 0, 0, 1, 0, false) == Done(w)
    ensures w.stock == map[RowKey(0, 0, 0) := Stock(4, 0), RowKey(1, 0, 0) := Stock(1000, 0)]
    ensures w.buildings == map[] && w.shipments == Sent().shipments
  {
    var agreed := Agreed(Sent(), 0);
    hide Sum;
    OneRowSells(agreed);
    FulfilledIff(agreed, 0, 0, 1, 0, false);
    hide HasTwin, Deliverable;
    w := Contracts.FulfilContract(agreed, 0, 0, 1, 0, false).world;
    assert w.stock == map[RowKey(0, 0, 0) := Stock(4, 0), RowKey(1, 0, 0) := Stock(1000, 0)];
  }

  // It is delivered a unit, which fills the room the shipment had left.
  lemma Refilled() returns (w: World)
    ensures Healthy(w) && Contracts.FulfilContract(Agreed(Sent(), 0), 0, 0, 1, 0, false) == Done(w)
    ensures w.stock == map[RowKey(0, 0, 0) := Stock(4, 0), RowKey(1, 0, 0) := Stock(1000, 0)]
    ensures w.buildings == map[] && w.shipments == Sent().shipments
  {
    hide *;
    w := UnitDelivered();
    SentIsHealthy();
    SentCovers(Agreed(Sent(), 0));
    FulfilStaysHealthy(Agreed(Sent(), 0), 0, 0, 1, 0, false);
  }

  lemma SentCovers(w: World)
    requires w == Agreed(Sent(), 0)
    ensures KeepsCover(w, Fulfil(0, 0, 1, false)) && KeepsBalances(w, Fulfil(0, 0, 1, false))
  {
  }

  lemma OneRowSells(w: World)
    requires w == Agreed(Sent(), 0)
    ensures Deliverable(w, 0, 0, 1, 0, false) && !HasTwin(w.stock, RowKey(0, 0, 0))
  {
  }

  // A covered fulfilment between two companies keeps health.
  lemma FulfilStaysHealthy(w: World, id: Id, seller: Id, quantity: int, tick: nat, locked: bool)
    requires Healthy(w) && Contracts.FulfilContract(w, id, seller, quantity, tick, locked).Done?
    requires KeepsCover(w, Fulfil(id, seller, quantity, locked))
    requires KeepsBalances(w, Fulfil(id, seller, quantity, locked))
    ensures Healthy(Contracts.FulfilContract(w, id, seller, quantity, tick, locked).world)
  {
    hide Sound, Solvent, Balanced, Follows, Contracts.FulfilContract, KeepsCover, KeepsBalances;
    var c := Fulfil(id, seller, quantity, locked);
    CoverKeptIff(w, c, tick);
    BalancesKeptIff(w, c, tick);
    FulfilContinues(w, id, seller, quantity, tick, locked);
  }

  // The recall of the shipment puts the store above its capacity.
  lemma RecallCanOverfill() returns (w: World)
    ensures Healthy(w) && Stored(w, 1, 0) == Capacity(w, 1, 0) && Logistics.CancelShipment(w, 0, 0).Done?
    ensures !StoresBounded(w, Logistics.CancelShipment(w, 0, 0).world)
  {
    w := Refilled();
    FullStore(w, Stock(4, 0));
    Parts(w);
    hide Healthy, Sound, Books, Sum, StoresBounded;
    RecallBoundedIff(w, 0, 0);
  }

  // ---------------------------------------------------------------- a refused action

  // One bot bids and is accepted, and then another cancels an order that is not there.
  function OneBadCancel(): Schedule {
    Schedule(
      [BotPlace(OrderRequest(1, 0, None, Buy, 6, 10, false), 0, 0), BotCancel(7)],
      [], [], [], [], [], [], [], [], Config(1, 1, 1, 1, 1, 0, 1, 0, 0, 0, 0, 0), [],
      Contracts.Market([], [], map[], map[]), [], Contracts.ContractConfig(0, 1, 0))
  }

  // The bad cancel undoes the other bot's accepted order.
  lemma RefusedCancelCanUndo() returns (w: World, s: Schedule)
    ensures Healthy(w) && s == OneBadCancel()
    ensures RunBot(w, s.bots[0], 1).Done? && 0 in RunBot(w, s.bots[0], 1).world.orders && 0 !in w.orders
    ensures RunTick(w, s, 1).Thrown? && Commit(w, RunTick(w, s, 1)) == w
  {
    w, s := Seed(map[]), OneBadCancel();
    SeedIsHealthy(map[]);
    hide Sound, Balanced, RunTick;
    assert s.bots[..1] == [s.bots[0]];
    assert RefusedAt(w, s.bots, 1, 1);
    assert AllKeysFresh(w, s.bots, 1);
    RefusalUndoesTheTick(w, s, 1);
  }
}
