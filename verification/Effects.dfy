/** What each operation does, in the figures of the rows it touches: cash, stock, ticks and entries. */
module Effects {
  import opened Rows
  import opened Storage
  import opened Matching
  import opened Market
  import opened Production
  import opened ProductionBooks
  import opened Accounting
  import Logistics

  function CashOf(w: World, c: Id): int { if c in w.companies then w.companies[c].cash else 0 }

  function ReservedOf(w: World, c: Id): int { if c in w.companies then w.companies[c].reserved else 0 }

  function HeldAt(w: World, k: RowKey): int { if k in w.stock then w.stock[k].quantity else 0 }

  // ---------------------------------------------------------------- orders

  // A placement adds one open order with the terms asked for.
  lemma PlacedOrder(w: World, r: OrderRequest, id: Id, tick: int, now: int)
    requires PlaceOrder(w, r, id, tick, now).Done?
    ensures id !in w.orders && r.company in w.companies
    ensures id in PlaceOrder(w, r, id, tick, now).world.orders
    ensures PlaceOrder(w, r, id, tick, now).world.orders - {id} == w.orders
    ensures var o := PlaceOrder(w, r, id, tick, now).world.orders[id];
            && o.company == r.company && o.item == r.item && o.region == w.companies[r.company].region
            && o.side == r.side && o.status.Open? && o.price == r.price && o.quantity == o.remaining == r.quantity
            && o.tickPlaced == tick && o.createdAt == now && o.tickClosed.None?
            && o.reservedCash == (if r.side.Buy? then r.quantity * r.price else 0)
            && o.reservedQuantity == (if r.side.Sell? then r.quantity else 0)
  {
    PlacedRow(w, r, id, tick, now);
    hide PlaceOrder;
    assert PlaceOrder(w, r, id, tick, now).world.orders - {id} == w.orders;
  }

  lemma PlacedRow(w: World, r: OrderRequest, id: Id, tick: int, now: int)
    requires PlaceOrder(w, r, id, tick, now).Done?
    ensures id !in w.orders && r.company in w.companies
    ensures PlaceOrder(w, r, id, tick, now).world.orders
         == w.orders[id := NewOrder(r, w.companies[r.company].region, tick, now)]
  {
    hide NewOrder;
    if r.side.Buy? {
      assert PlaceOrder(w, r, id, tick, now) == PlaceBuy(w, r, id, tick, now);
      hide PlaceOrder;
    } else {
      assert PlaceOrder(w, r, id, tick, now) == PlaceSell(w, r, id, tick, now);
      hide PlaceOrder;
    }
  }

  // It reserves what it could need: cash at its limit for a buy, the units themselves for a sell. No cash and no goods
  // move.
  lemma PlacedOrderReserves(w: World, r: OrderRequest, id: Id, tick: int, now: int)
    requires PlaceOrder(w, r, id, tick, now).Done?
    ensures r.company in w.companies
    ensures var next := PlaceOrder(w, r, id, tick, now).world;
            var row := RowKey(r.company, r.item, w.companies[r.company].region);
            && (forall c :: CashOf(next, c) == CashOf(w, c))
            && (forall c :: ReservedOf(next, c)
                         == ReservedOf(w, c) + (if c == r.company && r.side.Buy? then r.quantity * r.price else 0))
            && (forall k :: HeldAt(next, k) == HeldAt(w, k))
            && (forall k :: ReservedAt(next.stock, k)
                         == ReservedAt(w.stock, k) + (if k == row && r.side.Sell? then r.quantity else 0))
  {
    hide NewOrder;
    if r.side.Buy? {
      assert PlaceOrder(w, r, id, tick, now) == PlaceBuy(w, r, id, tick, now);
      hide PlaceOrder;
    } else {
      assert PlaceOrder(w, r, id, tick, now) == PlaceSell(w, r, id, tick, now);
      hide PlaceOrder;
    }
  }

  // A cancellation closes an open order and frees what it still held; no cash and no goods move. A closed order stays
  // as it is.
  lemma CancelledOrder(w: World, id: Id, tick: int)
    requires CancelOrder(w, id, tick).Done?
    ensures id in w.orders && (!w.orders[id].status.Open? ==> CancelOrder(w, id, tick).world == w)
    ensures w.orders[id].status.Open? ==>
              var next, o := CancelOrder(w, id, tick).world, w.orders[id];
              var row := RowKey(o.company, o.item, o.region);
              && next.orders == w.orders[id := o.(status := Cancelled, tickClosed := Some(tick),
                                                  reservedCash := 0, reservedQuantity := 0)]
              && (forall c :: CashOf(next, c) == CashOf(w, c))
              && (forall c :: ReservedOf(next, c) == ReservedOf(w, c)
                           - (if c == o.company && o.side.Buy? then Max(0, o.reservedCash) else 0))
              && (forall k :: HeldAt(next, k) == HeldAt(w, k))
              && (forall k :: ReservedAt(next.stock, k) == ReservedAt(w.stock, k)
                           - (if k == row && o.side.Sell? then Max(0, o.reservedQuantity) else 0))
  {
    if w.orders[id].status.Open? {
      assert CancelOrder(w, id, tick) == Done(Withdraw(w, id, tick));
      hide CancelOrder;
    }
  }

  // ---------------------------------------------------------------- settlement

  // Two open orders settle.
  ghost predicate Completes(w: World, m: Match, tick: int) {
    && m.buyOrder in w.orders && m.sellOrder in w.orders && m.buyOrder != m.sellOrder
    && w.orders[m.buyOrder].status.Open? && w.orders[m.sellOrder].status.Open? && SettleMatch(w, m, tick).Done?
  }

  lemma SettledAs(w: World, m: Match, tick: int)
    requires Completes(w, m, tick)
    ensures w.orders[m.buyOrder].company in w.companies && w.orders[m.sellOrder].company in w.companies
    ensures KeyOf(w.orders[m.sellOrder]) in w.stock && SettleMatch(w, m, tick).world == Settled(w, m, tick)
    ensures w.orders[m.buyOrder].side.Buy? && w.orders[m.sellOrder].side.Sell?
    ensures w.orders[m.buyOrder].item == w.orders[m.sellOrder].item == m.item
    ensures w.orders[m.buyOrder].region == w.orders[m.sellOrder].region == m.region
  {
  }

  // The buyer pays quantity times price to the seller, and nothing when it is the seller; its reservation shrinks by
  // quantity times its own limit. Nobody else's cash moves.
  lemma SettlementMovesCash(w: World, m: Match, tick: int)
    requires Completes(w, m, tick)
    ensures var next := SettleMatch(w, m, tick).world;
            var buyer, seller := w.orders[m.buyOrder].company, w.orders[m.sellOrder].company;
            && next.companies.Keys == w.companies.Keys
            && (forall c :: CashOf(next, c) == CashOf(w, c) + (if c == seller then m.quantity * m.price else 0)
                                                            - (if c == buyer then m.quantity * m.price else 0))
            && (forall c :: ReservedOf(next, c)
                         == ReservedOf(w, c) - (if c == buyer then m.quantity * w.orders[m.buyOrder].price else 0))
  {
    SettledAs(w, m, tick);
    hide SettleMatch;
  }

  // The units leave the seller's row, where they were reserved, for the buyer's; no other row changes.
  lemma SettlementMovesStock(w: World, m: Match, tick: int)
    requires Completes(w, m, tick)
    ensures var next := SettleMatch(w, m, tick).world;
            var from := RowKey(w.orders[m.sellOrder].company, m.item, m.region);
            var to := RowKey(w.orders[m.buyOrder].company, m.item, m.region);
            && (forall k :: HeldAt(next, k) == HeldAt(w, k) + (if k == to then m.quantity else 0)
                                                            - (if k == from then m.quantity else 0))
            && (forall k :: ReservedAt(next.stock, k) == ReservedAt(w.stock, k) - (if k == from then m.quantity else 0))
  {
    SettledAs(w, m, tick);
    hide SettleMatch;
  }

  // One trade, and two entries that carry its total and the balances after it.
  lemma SettlementIsPosted(w: World, m: Match, tick: int)
    requires Completes(w, m, tick)
    ensures var next := SettleMatch(w, m, tick).world;
            var buyer, seller := w.orders[m.buyOrder].company, w.orders[m.sellOrder].company;
            && |next.trades| == |w.trades| + 1 && w.trades <= next.trades
            && |next.ledger| == |w.ledger| + 2 && w.ledger <= next.ledger
            && var t := next.trades[|w.trades|];
               var paid, got := next.ledger[|w.ledger|], next.ledger[|w.ledger| + 1];
               && t.buyOrder == m.buyOrder && t.sellOrder == m.sellOrder && t.buyer == buyer && t.seller == seller
               && t.item == m.item && t.region == m.region && t.tick == tick
               && t.quantity == m.quantity && t.price == m.price && t.total == m.quantity * m.price
               && paid.company == buyer && paid.tick == tick && paid.kind.TradeSettlement?
               && paid.deltaCash == -t.total && paid.deltaReserved == -(m.quantity * w.orders[m.buyOrder].price)
               && got.company == seller && got.tick == tick && got.kind.TradeSettlement?
               && got.deltaCash == t.total && got.deltaReserved == 0
               && (buyer != seller ==>
                     paid.balanceAfter == CashOf(next, buyer) && got.balanceAfter == CashOf(next, seller))
  {
    SettledAs(w, m, tick);
    hide SettleMatch;
  }

  // Both orders shrink by the quantity, and close as filled exactly when nothing is left.
  lemma SettlementShrinksOrders(w: World, m: Match, tick: int)
    requires Completes(w, m, tick)
    ensures var next := SettleMatch(w, m, tick).world.orders;
            && next.Keys == w.orders.Keys
            && (forall id :: id in w.orders && id != m.buyOrder && id != m.sellOrder ==> next[id] == w.orders[id])
            && (forall id :: id == m.buyOrder || id == m.sellOrder ==>
                  && next[id].remaining == w.orders[id].remaining - m.quantity
                  && (next[id].remaining == 0 <==> next[id].status.Filled?)
                  && (next[id].remaining != 0 <==> next[id].status.Open?)
                  && next[id].tickClosed == if next[id].remaining == 0 then Some(tick) else None)
  {
    SettledAs(w, m, tick);
    hide SettleMatch;
  }

  // ---------------------------------------------------------------- durations

  // The bonus in basis points that a share of the staff gives, at most `most`.
  function BonusOf(share: int, f: Workforce, most: int): int {
    if f.capacity <= 0 then 0 else Max(0, Min(most, share * f.efficiency * most / 1000000))
  }

  // The least whole number of ticks that is no less than the duration shortened by the bonus.
  predicate Shortened(ticks: int, duration: int, bonus: int) {
    (ticks - 1) * 10000 < duration * (10000 - bonus) <= ticks * 10000 && (ticks > 0 <==> duration > 0)
  }

  // ---------------------------------------------------------------- production

  // A job runs for its recipe's duration, shortened by the operations staff and rounded up.
  lemma CreatedJob(w: World, r: JobRequest, id: Id, tick: int)
    requires CreateJob(w, r, id, tick).Done?
    ensures id !in w.jobs && r.company in w.companies && r.recipe in w.catalogue.recipes
    ensures var next := CreateJob(w, r, id, tick).world;
            && id in next.jobs && next.jobs - {id} == w.jobs
            && var job, c, recipe := next.jobs[id], w.companies[r.company], w.catalogue.recipes[r.recipe];
               && job.company == r.company && job.region == c.region && job.recipe == recipe && job.runs == r.runs
               && job.status.InProgress? && job.started == tick && job.completed.None?
               && Shortened(job.due - tick, recipe.duration, BonusOf(c.workforce.operations, c.workforce, 1200))
  {
    var next := CreateJob(w, r, id, tick).world;
    assert next.jobs - {id} == w.jobs;
  }

  // It reserves its inputs, each in its quantity times the runs, and takes nothing yet.
  lemma CreatedJobReserves(w: World, r: JobRequest, id: Id, tick: int)
    requires CreateJob(w, r, id, tick).Done?
    ensures r.company in w.companies && r.recipe in w.catalogue.recipes
    ensures var next := CreateJob(w, r, id, tick).world;
            && (forall k :: HeldAt(next, k) == HeldAt(w, k))
            && (forall k :: k in w.stock ==>
                  ReservedAt(next.stock, k) - ReservedAt(w.stock, k)
                  == (if k.company == r.company && k.region == w.companies[r.company].region
                      then r.runs * PerRun(w.catalogue.recipes[r.recipe].inputs, k.item) else 0))
  {
    var c, recipe := w.companies[r.company], w.catalogue.recipes[r.recipe];
    var next, reqs := CreateJob(w, r, id, tick).world, Requirements(recipe.inputs, r.runs);
    CheckedInputsExist(Reserve, w.stock, r.company, c.region, reqs);
    assert next.stock == UseInputs(Reserve, w.stock, r.company, c.region, reqs);
    UseInputsEffect(Reserve, w.stock, r.company, c.region, reqs);
    hide CreateJob, UseInputs;
    forall k | k in w.stock ensures Needed(reqs, k.item) == r.runs * PerRun(recipe.inputs, k.item) {
      NeededIsRunsTimesInput(recipe.inputs, r.runs, k.item);
    }
  }

  // A due job consumes those inputs and yields its output in its own company's store, times the runs.
  lemma CompletedJob(w: World, id: Id, tick: int)
    requires id in w.jobs && w.jobs[id].status.InProgress? && w.jobs[id].due <= tick && CompleteJob(w, id, tick).Done?
    ensures var next, job := CompleteJob(w, id, tick).world, w.jobs[id];
            && next.jobs == w.jobs[id := job.(status := JobCompleted, completed := Some(tick))]
            && (forall k :: HeldAt(next, k) == HeldAt(w, k)
                  + (if k == RowKey(job.company, job.recipe.output, job.region)
                     then job.recipe.outputQuantity * job.runs else 0)
                  - (if k in w.stock && k.company == job.company && k.region == job.region
                     then job.runs * PerRun(job.recipe.inputs, k.item) else 0))
            && (forall k :: ReservedAt(next.stock, k) == ReservedAt(w.stock, k)
                  - (if k in w.stock && k.company == job.company && k.region == job.region
                     then job.runs * PerRun(job.recipe.inputs, k.item) else 0))
            && (forall c :: CashOf(next, c) == CashOf(w, c))
  {
    var job := w.jobs[id];
    var next, reqs := CompleteJob(w, id, tick).world, Requirements(job.recipe.inputs, job.runs);
    CheckedInputsExist(Consume, w.stock, job.company, job.region, reqs);
    assert RowsPresent(w.stock, job.company, job.region, reqs);
    var used := UseInputs(Consume, w.stock, job.company, job.region, reqs);
    assert next.stock
        == Credit(used, RowKey(job.company, job.recipe.output, job.region), job.recipe.outputQuantity * job.runs);
    assert next.companies == w.companies;
    UseInputsEffect(Consume, w.stock, job.company, job.region, reqs);
    hide CompleteJob, UseInputs;
    forall k | k in w.stock ensures Needed(reqs, k.item) == job.runs * PerRun(job.recipe.inputs, k.item) {
      NeededIsRunsTimesInput(job.recipe.inputs, job.runs, k.item);
    }
  }

  // ---------------------------------------------------------------- auto-start

  // The recipes before the one at k start nothing: they do not pay, or cannot start.
  ghost predicate FirstToStart(w: World, company: Id, candidates: seq<Candidate>, k: nat, tick: int)
    requires k < |candidates|
  {
    && (forall i :: 0 <= i <= k ==>
          (Starts(w, company, candidates[i], tick) <==> i == k) && (i < k ==> Skipped(w, company, candidates[i], tick)))
  }

  predicate Starts(w: World, company: Id, c: Candidate, tick: int) {
    c.profitable && CreateJob(w, JobRequest(company, c.recipe, 1, c.locked), c.job, tick).Done?
  }

  predicate Skipped(w: World, company: Id, c: Candidate, tick: int) {
    var out := CreateJob(w, JobRequest(company, c.recipe, 1, c.locked), c.job, tick);
    !c.profitable || (out.Thrown? && !out.error.Conflict?)
  }

  lemma {:induction false} EachStartsFirst(
    w: World, company: Id, candidates: seq<Candidate>, maxJobs: int, started: int, k: nat, tick: int)
    requires Books(w) && k < |candidates| && FirstToStart(w, company, candidates, k, tick) && 0 <= started < maxJobs
    requires StartEach(w, company, candidates, maxJobs, started, tick).Started?
    ensures var run := StartEach(w, company, candidates, maxJobs, started, tick);
            candidates[k].job in run.world.jobs
            && run.world.jobs[candidates[k].job]
               == CreateJob(w, JobRequest(company, candidates[k].recipe, 1, candidates[k].locked),
                            candidates[k].job, tick).world.jobs[candidates[k].job]
    decreases k
  {
    StartEachTurn(w, company, candidates, maxJobs, started, tick);
    hide Books, StartEach, CreateJob;
    if k == 0 {
      var c := candidates[0];
      var r := JobRequest(company, c.recipe, 1, c.locked);
      CreateJobStarts(w, r, c.job, tick);
      CreatedJob(w, r, c.job, tick);
      var next := CreateJob(w, r, c.job, tick).world;
      StartedJobsBooks(w, next, 1);
      StartEachKeepsBooks(next, company, candidates[1..], maxJobs, started + 1, tick);
    } else {
      assert forall i :: 0 <= i < k ==> candidates[1..][i] == candidates[i + 1];
      assert Skipped(w, company, candidates[0], tick);
      EachStartsFirst(w, company, candidates[1..], maxJobs, started, k - 1, tick);
    }
  }

  // A company with unreserved cash and no job in progress starts one run of the first recipe that pays and can start; a
  // company without either starts nothing.
  lemma AutoStarted(w: World, company: Id, candidates: seq<Candidate>, maxJobs: int, k: nat, tick: int)
    requires Books(w) && company in w.companies && AutoStart(w, company, candidates, maxJobs, tick).Started?
    ensures w.companies[company].cash == w.companies[company].reserved
            || (exists j :: j in w.jobs && w.jobs[j].company == company && w.jobs[j].status.InProgress?) ==>
              AutoStart(w, company, candidates, maxJobs, tick) == Started(0, w)
    ensures w.companies[company].cash > w.companies[company].reserved
            && (forall j :: j in w.jobs && w.jobs[j].company == company ==> !w.jobs[j].status.InProgress?)
            && k < |candidates| && FirstToStart(w, company, candidates, k, tick) ==>
              var jobs := AutoStart(w, company, candidates, maxJobs, tick).world.jobs;
              && candidates[k].job !in w.jobs && candidates[k].job in jobs && jobs[candidates[k].job].company == company
              && candidates[k].recipe in w.catalogue.recipes
              && jobs[candidates[k].job].recipe == w.catalogue.recipes[candidates[k].recipe]
              && jobs[candidates[k].job].runs == 1 && jobs[candidates[k].job].started == tick
  {
    hide Books, StartEach, FirstToStart;
    if w.companies[company].cash > w.companies[company].reserved && !HasActiveJob(w, company)
       && k < |candidates| && FirstToStart(w, company, candidates, k, tick) {
      EachStartsFirst(w, company, candidates, maxJobs, 0, k, tick);
      FirstStarts(w, company, candidates, k, tick);
      CreatedJob(w, JobRequest(company, candidates[k].recipe, 1, candidates[k].locked), candidates[k].job, tick);
    }
  }

  lemma FirstStarts(w: World, company: Id, candidates: seq<Candidate>, k: nat, tick: int)
    requires k < |candidates| && FirstToStart(w, company, candidates, k, tick)
    ensures Starts(w, company, candidates[k], tick)
  {
  }

  // ---------------------------------------------------------------- shipments

  // A shipment travels the catalogue's time, shortened by the logistics staff and rounded up.
  lemma SentShipment(w: World, r: Logistics.ShipmentRequest, id: Id, tick: int, g: Logistics.FeeConfig)
    requires Logistics.CreateShipment(w, r, id, tick, g).Done?
    ensures id !in w.shipments && r.company in w.companies
            && (w.companies[r.company].region, r.to) in w.catalogue.travel
    ensures var next, c := Logistics.CreateShipment(w, r, id, tick, g).world, w.companies[r.company];
            && id in next.shipments && next.shipments - {id} == w.shipments
            && next.shipments[id].company == r.company && next.shipments[id].item == r.item
            && next.shipments[id].quantity == r.quantity && next.shipments[id].from == c.region
            && next.shipments[id].to == r.to && next.shipments[id].status.InTransit?
            && next.shipments[id].created == tick && next.shipments[id].closed.None?
            && Shortened(next.shipments[id].arrives - tick, w.catalogue.travel[(c.region, r.to)],
                         BonusOf(c.workforce.logistics, c.workforce, 1100))
  {
    var next := Logistics.CreateShipment(w, r, id, tick, g).world;
    assert next.shipments - {id} == w.shipments;
  }

  // It leaves its company's row in its own region, and costs the base fee and the fee per unit.
  lemma SentShipmentCosts(w: World, r: Logistics.ShipmentRequest, id: Id, tick: int, g: Logistics.FeeConfig)
    requires Logistics.CreateShipment(w, r, id, tick, g).Done?
    ensures r.company in w.companies
    ensures var next, c := Logistics.CreateShipment(w, r, id, tick, g).world, w.companies[r.company];
            && (forall k :: HeldAt(next, k) == HeldAt(w, k)
                              - (if k == RowKey(r.company, r.item, c.region) then r.quantity else 0))
            && (forall k :: ReservedAt(next.stock, k) == ReservedAt(w.stock, k))
            && (forall x :: CashOf(next, x)
                         == CashOf(w, x) - (if x == r.company then g.base + g.perUnit * r.quantity else 0))
            && next.ledger == w.ledger + [Entry(r.company, tick, ShipmentFee, -(g.base + g.perUnit * r.quantity), 0,
                                                c.cash - (g.base + g.perUnit * r.quantity))]
  {
  }

  // A due shipment comes into its company's row at its destination if there is room, else back into the row it left if
  // there is room, and is delivered; else nothing happens.
  lemma ArrivedShipment(w: World, id: Id, tick: int)
    requires id in w.shipments && w.shipments[id].status.InTransit? && w.shipments[id].arrives <= tick
    ensures var next, s := Logistics.DeliverOne(w, id, tick), w.shipments[id];
            var there := Stored(w, s.company, s.to) + s.quantity <= Capacity(w, s.company, s.to);
            var back := Stored(w, s.company, s.from) + s.quantity <= Capacity(w, s.company, s.from);
            if there || back then
              && next.shipments == w.shipments[id := s.(status := Delivered, closed := Some(tick))]
              && (forall k :: HeldAt(next, k) == HeldAt(w, k)
                    + (if k == RowKey(s.company, s.item, if there then s.to else s.from) then s.quantity else 0))
              && (forall k :: ReservedAt(next.stock, k) == ReservedAt(w.stock, k))
            else next == w
  {
    hide Stored, Capacity;
  }
}
