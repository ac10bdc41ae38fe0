/** Shipments between regions, and what happens to them when a store is full. */
module Logistics {
  import opened Rows
  import opened Storage
  import opened Payroll

  datatype FeeConfig = FeeConfig(base: int, perUnit: int)

  function Fee(quantity: int, g: FeeConfig): int { g.base + g.perUnit * quantity }

  // `locked` is the outcome of the research-tier and specialization checks on a player company.
  datatype ShipmentRequest = ShipmentRequest(company: Id, to: Id, item: Id, quantity: int, locked: bool)

  function CreateShipment(w: World, r: ShipmentRequest, id: Id, tick: int, g: FeeConfig): Outcome {
    if r.quantity <= 0 || tick < 0 || g.base < 0 || g.perUnit < 0 then Thrown(BadInput, w)
    else if r.company !in w.companies || r.to !in w.catalogue.regions || r.item !in w.catalogue.items
    then Thrown(NotFound, w)
    else if r.locked then Thrown(Refused, w)
    else
      var c := w.companies[r.company];
      if c.region == r.to then Thrown(BadInput, w)
      else if c.region !in w.catalogue.regions then Thrown(NotFound, w)
      else if (c.region, r.to) !in w.catalogue.travel then Thrown(BadInput, w)
      else if !ValidWorkforce(c.workforce) then Thrown(Inconsistent, w)
      else if w.catalogue.travel[(c.region, r.to)] < 0 then Thrown(BadInput, w)
      else
        var travel := ApplyDuration(w.catalogue.travel[(c.region, r.to)], TravelMultiplier(c.workforce));
        Dispatch(w, r, id, tick, travel, Fee(r.quantity, g))
  }

  function Dispatch(w: World, r: ShipmentRequest, id: Id, tick: int, travel: int, fee: int): Outcome
    requires r.company in w.companies
  {
    var c := w.companies[r.company];
    var from := RowKey(r.company, r.item, c.region);
    if from !in w.stock then Thrown(BadInput, w)
    else
      var s := w.stock[from];
      if s.quantity - s.reserved < r.quantity then Thrown(InsufficientInventory, w)
      else if c.cash - fee < 0 || c.cash - fee < c.reserved then Thrown(InsufficientFunds, w)
      else if id in w.shipments then Thrown(Conflict, w)
      else Done(Dispatched(w, r, id, tick, travel, fee))
  }

  // The goods leave their row, the fee is paid, and the shipment is on its way.
  function Dispatched(w: World, r: ShipmentRequest, id: Id, tick: int, travel: int, fee: int): World
    requires r.company in w.companies && RowKey(r.company, r.item, w.companies[r.company].region) in w.stock
  {
    var c := w.companies[r.company];
    var from := RowKey(r.company, r.item, c.region);
    w.(stock := w.stock[from := w.stock[from].(quantity := w.stock[from].quantity - r.quantity)],
       companies := w.companies[r.company := c.(cash := c.cash - fee)],
       shipments := w.shipments[id :=
         Shipment(r.company, c.region, r.to, r.item, r.quantity, InTransit, tick, tick + travel, None)],
       ledger := w.ledger + [Entry(r.company, tick, ShipmentFee, -fee, 0, c.cash - fee)])
  }

  function ArrivalKey(s: Shipment, region: Id): RowKey { RowKey(s.company, s.item, region) }

  // Stock goes back to the origin with no storage check.
  function CancelShipment(w: World, id: Id, tick: int): Outcome {
    if tick < 0 then Thrown(BadInput, w)
    else if id !in w.shipments then Thrown(NotFound, w)
    else
      var s := w.shipments[id];
      if !s.status.InTransit? then Done(w)
      else
        Done(w.(shipments := w.shipments[id := s.(status := ShipmentCancelled, closed := Some(tick))],
                stock := Credit(w.stock, ArrivalKey(s, s.from), s.quantity)))
  }

  predicate Due(w: World, id: Id, tick: int) {
    id in w.shipments && w.shipments[id].status.InTransit? && w.shipments[id].arrives <= tick
  }

  datatype Arrival = AtDestination | BackAtOrigin | StillInTransit

  // Where a due shipment ends up: the destination, else back at the origin, else nowhere until the next tick.
  ghost function ArrivalOf(w: World, s: Shipment): Arrival {
    if Fits(w, s.company, s.to, s.quantity) then AtDestination
    else if Fits(w, s.company, s.from, s.quantity) then BackAtOrigin
    else StillInTransit
  }

  ghost function ArrivalRegion(w: World, s: Shipment): Id { if ArrivalOf(w, s).AtDestination? then s.to else s.from }

  // The body of deliverDueShipmentsForTick for one shipment; a shipment that is not due is skipped.
  ghost function DeliverOne(w: World, id: Id, tick: int): World {
    if !Due(w, id, tick) then w
    else
      var s := w.shipments[id];
      if ArrivalOf(w, s).StillInTransit? then w
      else
        w.(shipments := w.shipments[id := s.(status := Delivered, closed := Some(tick))],
           stock := Credit(w.stock, ArrivalKey(s, ArrivalRegion(w, s)), s.quantity))
  }

  datatype DeliveryCount = DeliveryCount(delivered: nat, returned: nat)

  ghost function CountOne(w: World, id: Id, tick: int, n: DeliveryCount): DeliveryCount {
    if !Due(w, id, tick) then n
    else
      match ArrivalOf(w, w.shipments[id])
      case AtDestination => n.(delivered := n.delivered + 1)
      case BackAtOrigin => n.(returned := n.returned + 1)
      case StillInTransit => n
  }

  // The storage check refuses a negative quantity, and that refusal is not the one about capacity that the loop
  // handles: it is thrown on.
  predicate Undeliverable(w: World, id: Id, tick: int) { Due(w, id, tick) && w.shipments[id].quantity < 0 }

  // deliverDueShipmentsForTick
  ghost function DeliverDue(w: World, due: seq<Id>, tick: int): Outcome {
    if tick < 0 then Thrown(BadInput, w) else DeliverEach(w, due, tick)
  }

  ghost function DeliverEach(w: World, due: seq<Id>, tick: int): Outcome
    decreases |due|
  {
    if due == [] then Done(w)
    else if Undeliverable(w, due[0], tick) then Thrown(BadInput, w)
    else DeliverEach(DeliverOne(w, due[0], tick), due[1..], tick)
  }

  // What the loop does to the tables when nothing is thrown.
  ghost function DeliverAll(w: World, due: seq<Id>, tick: int): World
    decreases |due|
  {
    if due == [] then w else DeliverAll(DeliverOne(w, due[0], tick), due[1..], tick)
  }

  ghost function CountAll(w: World, due: seq<Id>, tick: int, n: DeliveryCount): DeliveryCount
    decreases |due|
  {
    if due == [] then n
    else CountAll(DeliverOne(w, due[0], tick), due[1..], tick, CountOne(w, due[0], tick, n))
  }
}
