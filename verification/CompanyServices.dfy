/** Shipments, buildings, workforce and the demand sink, statement by statement on the tables. */
module CompanyServices {
  import opened Rows
  import opened Sums
  import opened Storage
  import opened Payroll
  import opened Database
  import Logistics
  import Estate
  import DemandSink

  // ---------------------------------------------------------------- shipments

  method CreateShipment(tx: Tables, r: Logistics.ShipmentRequest, id: Id, tick: int, g: Logistics.FeeConfig)
    returns (error: Option<Error>)
    modifies tx
    ensures Result(error, tx.State()) == Logistics.CreateShipment(old(tx.State()), r, id, tick, g)
  {
    if r.quantity <= 0 || tick < 0 || g.base < 0 || g.perUnit < 0 { return Some(BadInput); }
    if r.company !in tx.companies || r.to !in tx.catalogue.regions || r.item !in tx.catalogue.items {
      return Some(NotFound);
    }
    if r.locked { return Some(Refused); }
    var c := tx.companies[r.company];
    if c.region == r.to { return Some(BadInput); }
    if c.region !in tx.catalogue.regions { return Some(NotFound); }
    if (c.region, r.to) !in tx.catalogue.travel { return Some(BadInput); }
    if !ValidWorkforce(c.workforce) { return Some(Inconsistent); }
    var distance := tx.catalogue.travel[(c.region, r.to)];
    if distance < 0 { return Some(BadInput); }
    var travel := ApplyDuration(distance, TravelMultiplier(c.workforce));
    error := Dispatch(tx, r, id, tick, travel, Logistics.Fee(r.quantity, g));
  }

  method Dispatch(tx: Tables, r: Logistics.ShipmentRequest, id: Id, tick: int, travel: int, fee: int)
    returns (error: Option<Error>)
    requires r.company in tx.companies
    modifies tx
    ensures Result(error, tx.State()) == Logistics.Dispatch(old(tx.State()), r, id, tick, travel, fee)
  {
    var c := tx.companies[r.company];
    hide Logistics.Dispatched;
    var from, cash := RowKey(r.company, r.item, c.region), c.cash - fee;
    if from !in tx.stock { return Some(BadInput); }
    var s := tx.stock[from];
    if s.quantity - s.reserved < r.quantity { return Some(InsufficientInventory); }
    if cash < 0 || cash < c.reserved { return Some(InsufficientFunds); }
    if id in tx.shipments { return Some(Conflict); }
    WriteShipment(tx, r, id, tick, travel, fee);
    return None;
  }

  method WriteShipment(tx: Tables, r: Logistics.ShipmentRequest, id: Id, tick: int, travel: int, fee: int)
    requires r.company in tx.companies && RowKey(r.company, r.item, tx.companies[r.company].region) in tx.stock
    modifies tx
    ensures tx.State() == Logistics.Dispatched(old(tx.State()), r, id, tick, travel, fee)
  {
    var c := tx.companies[r.company];
    tx.RemoveStock(RowKey(r.company, r.item, c.region), r.quantity);
    tx.Pay(r.company, fee, ShipmentFee, tick);
    tx.shipments := tx.shipments[id :=
      Shipment(r.company, c.region, r.to, r.item, r.quantity, InTransit, tick, tick + travel, None)];
  }

  method CancelShipment(tx: Tables, id: Id, tick: int) returns (error: Option<Error>)
    modifies tx
    ensures Result(error, tx.State()) == Logistics.CancelShipment(old(tx.State()), id, tick)
  {
    if tick < 0 { return Some(BadInput); }
    if id !in tx.shipments { return Some(NotFound); }
    var s := tx.shipments[id];
    if !s.status.InTransit? { return None; }
    tx.shipments := tx.shipments[id := s.(status := ShipmentCancelled, closed := Some(tick))];
    tx.CreditStock(Logistics.ArrivalKey(s, s.from), s.quantity);
    return None;
  }

  // One due shipment: to its destination, else back to its origin, else left for the next tick.
  method DeliverShipment(tx: Tables, id: Id, tick: int) returns (arrival: Logistics.Arrival)
    requires Logistics.Due(tx.State(), id, tick)
    modifies tx
    ensures tx.State() == Logistics.DeliverOne(old(tx.State()), id, tick)
    ensures arrival == Logistics.ArrivalOf(old(tx.State()), old(tx.shipments)[id])
  {
    hide Fits, Credit;
    var s := tx.shipments[id];
    arrival := Logistics.AtDestination;
    var room := tx.HasRoom(s.company, s.to, s.quantity);
    if !room {
      room := tx.HasRoom(s.company, s.from, s.quantity);
      if !room { return Logistics.StillInTransit; }
      arrival := Logistics.BackAtOrigin;
    }
    tx.shipments := tx.shipments[id := s.(status := Delivered, closed := Some(tick))];
    tx.CreditStock(Logistics.ArrivalKey(s, if arrival.AtDestination? then s.to else s.from), s.quantity);
  }

  method DeliverDueShipments(tx: Tables, due: seq<Id>, tick: int)
    returns (error: Option<Error>, delivered: nat, returned: nat)
    modifies tx
    ensures Result(error, tx.State()) == Logistics.DeliverDue(old(tx.State()), due, tick)
    ensures error.None? ==>
              Logistics.DeliveryCount(delivered, returned)
              == Logistics.CountAll(old(tx.State()), due, tick, Logistics.DeliveryCount(0, 0))
  {
    hide Logistics.DeliverOne, Logistics.ArrivalOf;
    delivered, returned := 0, 0;
    if tick < 0 { return Some(BadInput), 0, 0; }
    for i := 0 to |due|
      invariant Logistics.DeliverEach(tx.State(), due[i..], tick) == Logistics.DeliverEach(old(tx.State()), due, tick)
      invariant Logistics.CountAll(tx.State(), due[i..], tick, Logistics.DeliveryCount(delivered, returned))
             == Logistics.CountAll(old(tx.State()), due, tick, Logistics.DeliveryCount(0, 0))
    {
      assert due[i..][0] == due[i] && due[i..][1..] == due[i + 1..];
      if Logistics.Due(tx.State(), due[i], tick) {
        if tx.shipments[due[i]].quantity < 0 { return Some(BadInput), delivered, returned; }
        var arrival := DeliverShipment(tx, due[i], tick);
        match arrival
        case AtDestination => delivered := delivered + 1;
        case BackAtOrigin => returned := returned + 1;
        case StillInTransit =>
      } else {
        NotDueNotDelivered(tx.State(), due[i], tick);
      }
    }
    error := None;
  }

  lemma NotDueNotDelivered(w: World, id: Id, tick: int)
    requires !Logistics.Due(w, id, tick)
    ensures Logistics.DeliverOne(w, id, tick) == w
  {
  }

  // ---------------------------------------------------------------- buildings

  method AcquireBuilding(tx: Tables, r: Estate.BuildingRequest, id: Id, tick: int) returns (error: Option<Error>)
    modifies tx
    ensures Result(error, tx.State()) == Estate.Acquire(old(tx.State()), r, id, tick)
  {
    if r.cost < 0 || r.weeklyCost < 0 || tick < 0 { return Some(BadInput); }
    if r.company !in tx.companies || r.region !in tx.catalogue.regions { return Some(NotFound); }
    var c := tx.companies[r.company];
    if !(0 <= c.reserved <= c.cash) { return Some(Inconsistent); }
    if c.cash - c.reserved < r.cost { return Some(InsufficientFunds); }
    if id in tx.buildings { return Some(Conflict); }
    tx.Pay(r.company, r.cost, BuildingAcquisition, tick);
    tx.buildings := tx.buildings[id := Building(r.company, r.region, r.kind, true, r.weeklyCost, Some(tick))];
    return None;
  }

  method ChargeOne(tx: Tables, id: Id, tick: int) returns (error: Option<Error>)
    modifies tx
    ensures Result(error, tx.State()) == Estate.ChargeBuilding(old(tx.State()), id, tick)
  {
    if id !in tx.buildings || !Estate.CostDue(tx.buildings[id], tick) { return None; }
    var b := tx.buildings[id];
    if b.company !in tx.companies { return Some(NotFound); }
    var c := tx.companies[b.company];
    if !(0 <= c.reserved <= c.cash) { return Some(Inconsistent); }
    if c.cash - c.reserved >= b.weeklyCost { PayForBuilding(tx, id, tick); } else { DeactivateBuilding(tx, id, tick); }
    return None;
  }

  method PayForBuilding(tx: Tables, id: Id, tick: int)
    requires id in tx.buildings && tx.buildings[id].company in tx.companies
    modifies tx
    ensures tx.State() == Estate.PayCost(old(tx.State()), id, tick)
  {
    var b := tx.buildings[id];
    tx.Pay(b.company, b.weeklyCost, BuildingOperatingCost, tick);
    tx.buildings := tx.buildings[id := b.(lastCharged := Some(tick))];
  }

  method DeactivateBuilding(tx: Tables, id: Id, tick: int)
    requires id in tx.buildings
    modifies tx
    ensures tx.State() == Estate.ShutDown(old(tx.State()), id, tick)
  {
    tx.buildings := tx.buildings[id := tx.buildings[id].(active := false, lastCharged := Some(tick))];
  }

  method ApplyBuildingOperatingCosts(tx: Tables, due: seq<Id>, tick: int) returns (error: Option<Error>)
    modifies tx
    ensures Result(error, tx.State()) == Estate.ApplyOperatingCosts(old(tx.State()), due, tick)
  {
    hide Estate.ChargeBuilding;
    if tick < 0 { return Some(BadInput); }
    for i := 0 to |due|
      invariant Estate.ChargeBuildings(tx.State(), due[i..], tick) == Estate.ChargeBuildings(old(tx.State()), due, tick)
    {
      assert due[i..][0] == due[i] && due[i..][1..] == due[i + 1..];
      error := ChargeOne(tx, due[i], tick);
      if error.Some? { return; }
    }
    return None;
  }

  method ReactivateBuilding(tx: Tables, id: Id, tick: int) returns (error: Option<Error>)
    modifies tx
    ensures Result(error, tx.State()) == Estate.Reactivate(old(tx.State()), id, tick)
  {
    if tick < 0 { return Some(BadInput); }
    if id !in tx.buildings { return Some(NotFound); }
    if tx.buildings[id].active { return Some(Refused); }
    tx.buildings := tx.buildings[id := tx.buildings[id].(active := true, lastCharged := Some(tick))];
    return None;
  }

  // ---------------------------------------------------------------- workforce

  method SetWorkforceAllocation(tx: Tables, company: Id, operations: int, research: int, logistics: int, corporate: int)
    returns (error: Option<Error>)
    modifies tx
    ensures Result(error, tx.State()) ==
            SetAllocation(old(tx.State()), company, operations, research, logistics, corporate)
  {
    if !ValidAllocation(Workforce(0, operations, research, logistics, corporate, 0)) { return Some(BadInput); }
    if company !in tx.companies { return Some(NotFound); }
    var c := tx.companies[company];
    var f := c.workforce.(operations := operations, research := research, logistics := logistics,
        corporate := corporate);
    tx.companies := tx.companies[company := c.(workforce := f)];
    if !ValidWorkforce(f) { return Some(Inconsistent); }
    return None;
  }

  method RequestWorkforceCapacity(tx: Tables, company: Id, delta: int, id: Id, now: int, g: Config)
    returns (error: Option<Error>)
    modifies tx
    ensures Result(error, tx.State()) == RequestCapacity(old(tx.State()), company, delta, id, now, g)
  {
    if delta == 0 || !ValidConfig(g) { return Some(BadInput); }
    if company !in tx.companies { return Some(NotFound); }
    var c := tx.companies[company];
    var f := c.workforce;
    if !ValidWorkforce(f) { return Some(Inconsistent); }
    if Abs(delta) > g.maxDelta { return Some(BadInput); }
    if f.capacity > 0 && Abs(delta) > Max(1, (f.capacity * g.maxRelativeDelta) / 100) { return Some(BadInput); }
    if delta < 0 {
      if -delta > f.capacity { return Some(BadInput); }
      tx.companies := tx.companies[company := c.(workforce :=
        f.(capacity := f.capacity + delta, efficiency := Clamp(f.efficiency - g.layoffPenalty, 0, MAX_BPS)))];
      assert LayOff(old(tx.State()), company, -delta, g) == Done(tx.State());
      return None;
    } else {
      error := PayRecruitment(tx, company, delta, id, now, g);
    }
  }

  method PayRecruitment(tx: Tables, company: Id, heads: int, id: Id, now: int, g: Config) returns (error: Option<Error>)
    requires company in tx.companies
    modifies tx
    ensures Result(error, tx.State()) == Hire(old(tx.State()), company, heads, id, now, g)
  {
    var c, cost := tx.companies[company], heads * g.recruitmentCost;
    if c.cash - c.reserved < cost { return Some(InsufficientFunds); }
    if id in tx.hirings { return Some(Conflict); }
    tx.hirings := tx.hirings[id := Hiring(company, heads, now + g.hiringDelay, None)];
    tx.Pay(company, cost, Recruitment, now);
    return None;
  }

  method ApplyDueHirings(tx: Tables, due: seq<Id>, tick: int) returns (error: Option<Error>)
    modifies tx
    ensures Result(error, tx.State()) == ApplyHirings(old(tx.State()), due, tick)
  {
    hide ApplyHiring;
    for i := 0 to |due|
      invariant ApplyHirings(tx.State(), due[i..], tick) == ApplyHirings(old(tx.State()), due, tick)
    {
      assert due[i..][0] == due[i] && due[i..][1..] == due[i + 1..];
      error := ApplyOneHiring(tx, due[i], tick);
      if error.Some? { return; }
    }
    return None;
  }

  method ApplyOneHiring(tx: Tables, id: Id, tick: int) returns (error: Option<Error>)
    modifies tx
    ensures Result(error, tx.State()) == ApplyHiring(old(tx.State()), id, tick)
  {
    if id !in tx.hirings || tx.hirings[id].applied.Some? || tick < tx.hirings[id].arrives { return None; }
    var h := tx.hirings[id];
    if h.amount <= 0 { return Some(Inconsistent); }
    tx.hirings := tx.hirings[id := h.(applied := Some(tick))];
    if h.company !in tx.companies { return Some(NotFound); }
    var c := tx.companies[h.company];
    var workforce := c.workforce.(capacity := c.workforce.capacity + h.amount);
    tx.companies := tx.companies[h.company := c.(workforce := workforce)];
    return None;
  }

  // The aggregate over a company's recently arrived hirings.
  method RecentHirings(tx: Tables, company: Id, from: int, tick: int) returns (total: int)
    ensures total == Sum(tx.hirings, RecentlyHired(company, from, tick))
  {
    var ids := tx.hirings.Keys;
    ghost var rest := tx.hirings;
    total := 0;
    while ids != {}
      invariant rest.Keys == ids <= tx.hirings.Keys && forall i :: i in ids ==> rest[i] == tx.hirings[i]
      invariant total + Sum(rest, RecentlyHired(company, from, tick)) ==
              Sum(tx.hirings, RecentlyHired(company, from, tick))
      decreases |ids|
    {
      var id :| id in ids;
      SumWithout(rest, RecentlyHired(company, from, tick), id);
      ids, rest := ids - {id}, rest - {id};
      var h := tx.hirings[id];
      if h.company == company && h.amount > 0 && h.applied.Some? && from <= h.applied.value <= tick {
        total := total + h.amount;
      }
    }
  }

  method EfficiencyAfter(tx: Tables, company: Id, paid: int, due: int, tick: int, g: Config) returns (efficiency: int)
    requires company in tx.companies
    ensures efficiency == NextEfficiency(tx.State(), company, paid, due, tick, g)
  {
    var f := tx.companies[company].workforce;
    var recent := RecentHirings(tx, company, Max(0, tick - g.shockDuration + 1), tick);
    var shock := recent * g.shockPerHead;
    var lowCorporate := if f.corporate < g.lowCorporateThreshold then g.lowCorporatePenalty else 0;
    var shortfall := if paid < due then g.shortfallPenalty else 0;
    var recovery := (f.corporate * g.recoveryAt100) / 100;
    efficiency := Clamp(f.efficiency - shock - lowCorporate - shortfall + recovery, 0, MAX_BPS);
  }

  method PayCompanySalary(tx: Tables, company: Id, tick: int, g: Config) returns (error: Option<Error>)
    modifies tx
    ensures Result(error, tx.State()) == PaySalary(old(tx.State()), company, tick, g)
  {
    hide NextEfficiency, SalaryDue;
    if company !in tx.companies { return None; }
    var c := tx.companies[company];
    if !ValidWorkforce(c.workforce) { return Some(Inconsistent); }
    var due := SalaryDue(tx.State(), c, g);
    var paid := Min(due, Max(0, c.cash - c.reserved));
    var efficiency := EfficiencyAfter(tx, company, paid, due, tick, g);
    var workforce := c.workforce.(efficiency := efficiency);
    tx.companies := tx.companies[company := c.(cash := c.cash - paid, workforce := workforce)];
    tx.AppendEntry(Entry(company, tick, Salary, -paid, 0, c.cash - paid));
    return None;
  }

  method RunWorkforceForTick(tx: Tables, due: seq<Id>, companies: seq<Id>, tick: int, g: Config)
    returns (error: Option<Error>)
    modifies tx
    ensures Result(error, tx.State()) == RunWorkforce(old(tx.State()), due, companies, tick, g)
  {
    hide PaySalary;
    if tick < 0 || !ValidConfig(g) { return Some(BadInput); }
    error := ApplyDueHirings(tx, due, tick);
    if error.Some? { return; }
    ghost var hired := tx.State();
    for i := 0 to |companies|
      invariant PaySalaries(tx.State(), companies[i..], tick, g) == PaySalaries(hired, companies, tick, g)
    {
      assert companies[i..][0] == companies[i] && companies[i..][1..] == companies[i + 1..];
      error := PayCompanySalary(tx, companies[i], tick, g);
      if error.Some? { return; }
    }
    return None;
  }

  // ---------------------------------------------------------------- the demand sink

  // The innermost loop: rows in region order, until the demand is met.
  method ConsumeItem(tx: Tables, company: Id, item: Id, regions: seq<Id>, demand: int) returns (consumed: int)
    modifies tx
    ensures tx.State() == DemandSink.TakeRows(old(tx.State()), company, item, regions, demand)
    ensures consumed == DemandSink.TakenTotal(old(tx.State()), company, item, regions, demand)
  {
    var remaining, i := demand, 0;
    consumed := 0;
    while i < |regions| && remaining > 0
      invariant i <= |regions|
      invariant DemandSink.TakeRows(tx.State(), company, item, regions[i..], remaining)
             == DemandSink.TakeRows(old(tx.State()), company, item, regions, demand)
      invariant consumed + DemandSink.TakenTotal(tx.State(), company, item, regions[i..], remaining)
             == DemandSink.TakenTotal(old(tx.State()), company, item, regions, demand)
    {
      hide DemandSink.TakeRow, DemandSink.TakenFrom;
      assert regions[i..][0] == regions[i] && regions[i..][1..] == regions[i + 1..];
      var key := RowKey(company, item, regions[i]);
      var taken := TakeFromRow(tx, key, remaining);
      remaining := remaining - taken;
      consumed := consumed + taken;
      i := i + 1;
    }
  }

  method TakeFromRow(tx: Tables, key: RowKey, demand: int) returns (taken: int)
    modifies tx
    ensures taken == DemandSink.TakenFrom(old(tx.State()), key, demand)
    ensures tx.State() == DemandSink.TakeRow(old(tx.State()), key, demand)
  {
    if key !in tx.stock || demand <= 0 { return 0; }
    var row := tx.stock[key];
    taken := Max(0, Min(row.quantity - row.reserved, demand));
    if taken > 0 {
      tx.stock := tx.stock[key := row.(quantity := row.quantity - taken)];
      tx.consumed := tx.consumed + [Consumption(key, taken)];
      assert tx.State() == DemandSink.Take(old(tx.State()), key, taken);
    }
  }

  method RunDemandSinkForTick(tx: Tables, demands: seq<DemandSink.Demand>, tick: int) returns (error: Option<Error>)
    modifies tx
    ensures Result(error, tx.State()) == DemandSink.RunDemandSink(old(tx.State()), demands, tick)
  {
    hide DemandSink.TakeRows;
    if tick < 0 { return Some(BadInput); }
    for i := 0 to |demands|
      invariant DemandSink.Drain(tx.State(), demands[i..]) == DemandSink.Drain(old(tx.State()), demands)
    {
      assert demands[i..][0] == demands[i] && demands[i..][1..] == demands[i + 1..];
      var d := demands[i];
      var consumed := ConsumeItem(tx, d.company, d.item, d.regions, d.quantity);
    }
    return None;
  }
}
