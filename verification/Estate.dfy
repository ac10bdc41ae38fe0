/** Buildings: acquisition, weekly operating costs, reactivation. */
module Estate {
  import opened Rows

  const BUILDING_OPERATING_COST_INTERVAL_TICKS := 7

  datatype BuildingRequest = BuildingRequest(company: Id, region: Id, kind: BuildingKind, cost: int, weeklyCost: int)

  function Acquire(w: World, r: BuildingRequest, id: Id, tick: int): Outcome {
    if r.cost < 0 || r.weeklyCost < 0 || tick < 0 then Thrown(BadInput, w)
    else if r.company !in w.companies || r.region !in w.catalogue.regions then Thrown(NotFound, w)
    else
      var c := w.companies[r.company];
      if !(0 <= c.reserved <= c.cash) then Thrown(Inconsistent, w)
      else if c.cash - c.reserved < r.cost then Thrown(InsufficientFunds, w)
      else if id in w.buildings then Thrown(Conflict, w)
      else
        Done(w.(companies := w.companies[r.company := c.(cash := c.cash - r.cost)],
                buildings := w.buildings[id := Building(r.company, r.region, r.kind, true, r.weeklyCost, Some(tick))],
                ledger := w.ledger + [Entry(r.company, tick, BuildingAcquisition, -r.cost, 0, c.cash - r.cost)]))
  }

  predicate CostDue(b: Building, tick: int) {
    b.active && (b.lastCharged.None? || b.lastCharged.value <= tick - BUILDING_OPERATING_COST_INTERVAL_TICKS)
  }

  // The body of applyBuildingOperatingCostsWithTx for one building; a building that is not due is skipped.
  function ChargeBuilding(w: World, id: Id, tick: int): Outcome {
    if id !in w.buildings || !CostDue(w.buildings[id], tick) then Done(w)
    else
      var b := w.buildings[id];
      if b.company !in w.companies then Thrown(NotFound, w)
      else
        var c := w.companies[b.company];
        if !(0 <= c.reserved <= c.cash) then Thrown(Inconsistent, w)
        else if c.cash - c.reserved >= b.weeklyCost then Done(PayCost(w, id, tick))
        else Done(ShutDown(w, id, tick))
  }

  function PayCost(w: World, id: Id, tick: int): World
    requires id in w.buildings && w.buildings[id].company in w.companies
  {
    var b := w.buildings[id];
    var c := w.companies[b.company];
    w.(companies := w.companies[b.company := c.(cash := c.cash - b.weeklyCost)],
       buildings := w.buildings[id := b.(lastCharged := Some(tick))],
       ledger := w.ledger + [Entry(b.company, tick, BuildingOperatingCost, -b.weeklyCost, 0, c.cash - b.weeklyCost)])
  }

  function ShutDown(w: World, id: Id, tick: int): World
    requires id in w.buildings
  {
    w.(buildings := w.buildings[id := w.buildings[id].(active := false, lastCharged := Some(tick))])
  }

  function ChargeBuildings(w: World, due: seq<Id>, tick: int): Outcome
    decreases |due|
  {
    if due == [] then Done(w)
    else
      match ChargeBuilding(w, due[0], tick)
      case Thrown(e, open) => Thrown(e, open)
      case Done(next) => ChargeBuildings(next, due[1..], tick)
  }

  function ApplyOperatingCosts(w: World, due: seq<Id>, tick: int): Outcome {
    if tick < 0 then Thrown(BadInput, w) else ChargeBuildings(w, due, tick)
  }

  function Reactivate(w: World, id: Id, tick: int): Outcome {
    if tick < 0 then Thrown(BadInput, w)
    else if id !in w.buildings then Thrown(NotFound, w)
    else if w.buildings[id].active then Thrown(Refused, w)
    else Done(w.(buildings := w.buildings[id := w.buildings[id].(active := true, lastCharged := Some(tick))]))
  }
}
