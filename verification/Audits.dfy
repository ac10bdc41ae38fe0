/** Every command posts what it moves. */
module Audits {
  import opened Rows
  import opened Sums
  import opened Matching
  import opened Market
  import opened Payroll
  import opened Production
  import Estate
  import Logistics
  import DemandSink
  import Contracts
  import Research
  import opened Conservation

  // A change that is audited and keeps every recorded balance right.
  ghost predicate BooksEntries(w: World, next: World) { Audited(w, next) && (Balanced(w) ==> Balanced(next)) }

  lemma EntryPosted(w: World, next: World, e: Entry)
    requires Posted(w, next, e) && !Transfer(e.kind) && e.balanceAfter == next.companies[e.company].cash
    ensures BooksEntries(w, next)
  {
    PostedAudits(w, next, e);
    if Balanced(w) { PostedBalances(w, next, e); }
  }

  lemma NothingPosted(w: World, next: World)
    requires Unposted(w, next)
    ensures BooksEntries(w, next)
  {
    UnpostedAudits(w, next);
  }

  lemma SameMoney(w: World, next: World)
    requires next.companies == w.companies && next.ledger == w.ledger
    ensures BooksEntries(w, next)
  {
    NothingPosted(w, next);
  }

  lemma PlaceOrderAudited(w: World, r: OrderRequest, id: Id, tick: int, now: int)
    requires PlaceOrder(w, r, id, tick, now).Done?
    ensures BooksEntries(w, PlaceOrder(w, r, id, tick, now).world)
  {
    if r.side.Buy? {
      PlaceBuyAudited(w, r, id, tick, now);
    } else {
      NothingPosted(w, PlaceSell(w, r, id, tick, now).world);
    }
  }

  lemma PlaceBuyAudited(w: World, r: OrderRequest, id: Id, tick: int, now: int)
    requires r.company in w.companies && PlaceBuy(w, r, id, tick, now).Done?
    ensures BooksEntries(w, PlaceBuy(w, r, id, tick, now).world)
  {
    var next := PlaceBuy(w, r, id, tick, now).world;
    EntryPosted(w, next, next.ledger[|w.ledger|]);
  }

  lemma CancelOrderAudited(w: World, id: Id, tick: int)
    requires CancelOrder(w, id, tick).Done?
    ensures BooksEntries(w, CancelOrder(w, id, tick).world)
  {
    var o := w.orders[id];
    if !o.status.Open? {
      NothingPosted(w, w);
    } else {
      var next := Withdraw(w, id, tick);
      if HoldsCash(o) {
        EntryPosted(w, next, Entry(o.company, tick, OrderReserve, 0, -o.reservedCash, w.companies[o.company].cash));
      } else {
        NothingPosted(w, next);
      }
    }
  }

  // Between the two entries of a settlement: the buyer has paid, the seller has not yet been paid.
  function HalfSettled(w: World, buyer: Id, e: Entry): World
    requires buyer in w.companies
  {
    var b := w.companies[buyer];
    w.(companies := w.companies[buyer := b.(cash := b.cash + e.deltaCash, reserved := b.reserved + e.deltaReserved)],
       ledger := w.ledger + [e])
  }

  // A transfer in two entries is audited: what one company pays the other receives, also when they are the same.
  lemma TransferAudited(w: World, next: World, pay: Entry, receive: Entry)
    requires pay.company in w.companies && receive.company in w.companies
    requires Transfer(pay.kind) && Transfer(receive.kind) && pay.deltaCash == -receive.deltaCash
    requires Posted(HalfSettled(w, pay.company, pay), next, receive)
    ensures Audited(w, next)
    ensures Balanced(w) && pay.balanceAfter == w.companies[pay.company].cash + pay.deltaCash
            && receive.balanceAfter == next.companies[receive.company].cash
            ==> Balanced(next)
  {
    var mid := HalfSettled(w, pay.company, pay);
    assert Posted(w, mid, pay);
    PostedExplains(w, mid, pay);
    PostedExplains(mid, next, receive);
    if Balanced(w) && pay.balanceAfter == w.companies[pay.company].cash + pay.deltaCash
       && receive.balanceAfter == next.companies[receive.company].cash {
      PostedBalances(w, mid, pay);
      PostedBalances(mid, next, receive);
    }
  }

  lemma SettledAudited(w: World, m: Match, tick: int)
    requires m.buyOrder in w.orders && m.sellOrder in w.orders
    requires w.orders[m.buyOrder].company in w.companies && w.orders[m.sellOrder].company in w.companies
    requires KeyOf(w.orders[m.sellOrder]) in w.stock
    ensures BooksEntries(w, Settled(w, m, tick))
  {
    var next := Settled(w, m, tick);
    var pay, receive := next.ledger[|w.ledger|], next.ledger[|w.ledger| + 1];
    assert next.ledger == (w.ledger + [pay]) + [receive];
    TransferAudited(w, next, pay, receive);
  }

  lemma CreateJobAudited(w: World, r: JobRequest, id: Id, tick: int)
    requires CreateJob(w, r, id, tick).Done?
    ensures BooksEntries(w, CreateJob(w, r, id, tick).world)
  {
    NothingPosted(w, CreateJob(w, r, id, tick).world);
  }

  lemma CancelJobAudited(w: World, id: Id, tick: int)
    requires CancelJob(w, id, tick).Done?
    ensures BooksEntries(w, CancelJob(w, id, tick).world)
  {
    if w.jobs[id].status.InProgress? { NothingPosted(w, CancelJob(w, id, tick).world); } else { NothingPosted(w, w); }
  }

  lemma CompleteJobAudited(w: World, id: Id, tick: int)
    requires CompleteJob(w, id, tick).Done?
    ensures BooksEntries(w, CompleteJob(w, id, tick).world)
  {
    var next := CompleteJob(w, id, tick).world;
    if next == w { NothingPosted(w, next); } else { EntryPosted(w, next, next.ledger[|w.ledger|]); }
  }

  lemma SetAllocationAudited(w: World, company: Id, a: int, b: int, c: int, d: int)
    requires SetAllocation(w, company, a, b, c, d).Done?
    ensures BooksEntries(w, SetAllocation(w, company, a, b, c, d).world)
  {
    NothingPosted(w, SetAllocation(w, company, a, b, c, d).world);
  }

  lemma RequestCapacityAudited(w: World, company: Id, delta: int, id: Id, now: int, g: Config)
    requires RequestCapacity(w, company, delta, id, now, g).Done?
    ensures BooksEntries(w, RequestCapacity(w, company, delta, id, now, g).world)
  {
    if delta < 0 {
      NothingPosted(w, LayOff(w, company, -delta, g).world);
    } else {
      HireAudited(w, company, delta, id, now, g);
    }
  }

  lemma HireAudited(w: World, company: Id, heads: int, id: Id, now: int, g: Config)
    requires company in w.companies && Hire(w, company, heads, id, now, g).Done?
    ensures BooksEntries(w, Hire(w, company, heads, id, now, g).world)
  {
    var next := Hire(w, company, heads, id, now, g).world;
    EntryPosted(w, next, next.ledger[|w.ledger|]);
  }

  lemma ApplyHiringAudited(w: World, id: Id, tick: int)
    requires ApplyHiring(w, id, tick).Done?
    ensures BooksEntries(w, ApplyHiring(w, id, tick).world)
  {
    NothingPosted(w, ApplyHiring(w, id, tick).world);
  }

  lemma PaySalaryAudited(w: World, company: Id, tick: int, g: Config)
    requires PaySalary(w, company, tick, g).Done?
    ensures BooksEntries(w, PaySalary(w, company, tick, g).world)
  {
    var next := PaySalary(w, company, tick, g).world;
    if company in w.companies { EntryPosted(w, next, next.ledger[|w.ledger|]); } else { NothingPosted(w, next); }
  }

  lemma AcquireAudited(w: World, r: Estate.BuildingRequest, id: Id, tick: int)
    requires Estate.Acquire(w, r, id, tick).Done?
    ensures BooksEntries(w, Estate.Acquire(w, r, id, tick).world)
  {
    var next := Estate.Acquire(w, r, id, tick).world;
    EntryPosted(w, next, next.ledger[|w.ledger|]);
  }

  lemma PayCostAudited(w: World, id: Id, tick: int)
    requires id in w.buildings && w.buildings[id].company in w.companies
    ensures BooksEntries(w, Estate.PayCost(w, id, tick))
  {
    var next := Estate.PayCost(w, id, tick);
    EntryPosted(w, next, next.ledger[|w.ledger|]);
  }

  lemma ChargeBuildingAudited(w: World, id: Id, tick: int)
    requires Estate.ChargeBuilding(w, id, tick).Done?
    ensures BooksEntries(w, Estate.ChargeBuilding(w, id, tick).world)
  {
    if id !in w.buildings || !Estate.CostDue(w.buildings[id], tick) {
      NothingPosted(w, w);
    } else {
      PayCostAudited(w, id, tick);
      NothingPosted(w, Estate.ShutDown(w, id, tick));
    }
  }

  lemma ReactivateAudited(w: World, id: Id, tick: int)
    requires Estate.Reactivate(w, id, tick).Done?
    ensures BooksEntries(w, Estate.Reactivate(w, id, tick).world)
  {
    NothingPosted(w, Estate.Reactivate(w, id, tick).world);
  }

  lemma CreateShipmentAudited(w: World, r: Logistics.ShipmentRequest, id: Id, tick: int, g: Logistics.FeeConfig)
    requires Logistics.CreateShipment(w, r, id, tick, g).Done?
    ensures BooksEntries(w, Logistics.CreateShipment(w, r, id, tick, g).world)
  {
    var next := Logistics.CreateShipment(w, r, id, tick, g).world;
    EntryPosted(w, next, next.ledger[|w.ledger|]);
  }

  lemma CancelShipmentAudited(w: World, id: Id, tick: int)
    requires Logistics.CancelShipment(w, id, tick).Done?
    ensures BooksEntries(w, Logistics.CancelShipment(w, id, tick).world)
  {
    RecallMovesNoMoney(w, id, tick);
    hide BooksEntries, Logistics.CancelShipment;
    SameMoney(w, Logistics.CancelShipment(w, id, tick).world);
  }

  lemma RecallMovesNoMoney(w: World, id: Id, tick: int)
    requires Logistics.CancelShipment(w, id, tick).Done?
    ensures var next := Logistics.CancelShipment(w, id, tick).world;
            next.companies == w.companies && next.ledger == w.ledger
  {
  }

  lemma DeliverOneAudited(w: World, id: Id, tick: int)
    ensures BooksEntries(w, Logistics.DeliverOne(w, id, tick))
  {
    NothingPosted(w, Logistics.DeliverOne(w, id, tick));
  }

  lemma TakeRowAudited(w: World, key: RowKey, demand: int)
    ensures BooksEntries(w, DemandSink.TakeRow(w, key, demand))
  {
    NothingPosted(w, DemandSink.TakeRow(w, key, demand));
  }

  lemma AcceptAudited(w: World, id: Id, seller: Id, tick: int)
    requires Contracts.AcceptContract(w, id, seller, tick).Done?
    ensures BooksEntries(w, Contracts.AcceptContract(w, id, seller, tick).world)
  {
    NothingPosted(w, Contracts.AcceptContract(w, id, seller, tick).world);
  }

  // A contract settlement is audited. It writes both balances after both updates, so the recorded balances stay
  // right exactly when the buyer is not its own seller.
  lemma FulfilAudited(w: World, id: Id, seller: Id, quantity: int, tick: int, locked: bool)
    requires Contracts.FulfilContract(w, id, seller, quantity, tick, locked).Done? && w.contracts[id].price > 0
    ensures var next := Contracts.FulfilContract(w, id, seller, quantity, tick, locked).world;
            && Audited(w, next)
            && (Balanced(w) ==> (Balanced(next) <==> w.contracts[id].buyer != seller))
  {
    hide Audited, Balanced, Sum;
    var next := Contracts.FulfilContract(w, id, seller, quantity, tick, locked).world;
    var pay, receive := next.ledger[|w.ledger|], next.ledger[|w.ledger| + 1];
    assert next.ledger == (w.ledger + [pay]) + [receive];
    TransferAudited(w, next, pay, receive);
    assert w.contracts[id].price * quantity > 0;
    if Balanced(w) && w.contracts[id].buyer == seller {
      SelfSaleUnbalances(w, next, pay, receive);
    }
  }

  lemma SelfSaleUnbalances(w: World, next: World, pay: Entry, receive: Entry)
    requires pay.company == receive.company && pay.company in w.companies && pay.deltaCash < 0
    requires Posted(HalfSettled(w, pay.company, pay), next, receive)
    requires pay.balanceAfter == w.companies[pay.company].cash && Balanced(w)
    ensures !Balanced(next)
  {
    var mid := HalfSettled(w, pay.company, pay);
    PostedExplains(w, mid, pay);
    PostedExplains(mid, next, receive);
    var n := |w.ledger|;
    LedgerAppend(w.ledger, pay);
    assert next.ledger[..n + 1] == w.ledger + [pay];
    assert next.ledger[n] == pay;
  }

  lemma ExpireAudited(w: World, tick: int)
    ensures BooksEntries(w, Contracts.ExpireContracts(w, tick))
  {
    NothingPosted(w, Contracts.ExpireContracts(w, tick));
  }

  lemma StartResearchAudited(w: World, key: NodeKey, id: Id, tick: int)
    requires Research.StartResearch(w, key, id, tick).Done?
    ensures BooksEntries(w, Research.StartResearch(w, key, id, tick).world)
  {
    var next := Research.StartResearch(w, key, id, tick).world;
    EntryPosted(w, next, next.ledger[|w.ledger|]);
  }

  // ---------------------------------------------------------------- transfers keep the total

  lemma ExternalIgnoresTransfers(ledger: seq<Entry>, a: Entry, b: Entry)
    requires Transfer(a.kind) && Transfer(b.kind)
    ensures ExternalCash(ledger + [a, b]) == ExternalCash(ledger)
  {
    LedgerAppend(ledger, a);
    LedgerAppend(ledger + [a], b);
    assert ledger + [a, b] == ledger + [a] + [b];
  }

  // A trade moves cash between companies and leaves the total as it was, a self-trade included.
  lemma TradeKeepsTotalCash(w: World, m: Match, tick: int)
    requires m.buyOrder in w.orders && m.sellOrder in w.orders
    requires w.orders[m.buyOrder].company in w.companies && w.orders[m.sellOrder].company in w.companies
    requires KeyOf(w.orders[m.sellOrder]) in w.stock
    ensures Treasury(Settled(w, m, tick).companies) == Treasury(w.companies)
  {
    var next := Settled(w, m, tick);
    SettledAudited(w, m, tick);
    var n := |w.ledger|;
    assert next.ledger == w.ledger + [next.ledger[n], next.ledger[n + 1]];
    ExternalIgnoresTransfers(w.ledger, next.ledger[n], next.ledger[n + 1]);
  }

  // So does a contract settlement: the seller receives the price of what it delivered, the buyer pays it.
  lemma FulfilmentKeepsTotalCash(w: World, id: Id, seller: Id, quantity: int, tick: int, locked: bool)
    requires Contracts.FulfilContract(w, id, seller, quantity, tick, locked).Done? && w.contracts[id].price > 0
    ensures var next := Contracts.FulfilContract(w, id, seller, quantity, tick, locked).world;
            && Treasury(next.companies) == Treasury(w.companies)
            && (w.contracts[id].buyer != seller ==>
                  && next.companies[seller].cash == w.companies[seller].cash + w.contracts[id].price * quantity
                  && next.companies[w.contracts[id].buyer].cash
                       == w.companies[w.contracts[id].buyer].cash - w.contracts[id].price * quantity)
  {
    var next := Contracts.FulfilContract(w, id, seller, quantity, tick, locked).world;
    FulfilAudited(w, id, seller, quantity, tick, locked);
    var n := |w.ledger|;
    assert next.ledger == w.ledger + [next.ledger[n], next.ledger[n + 1]];
    ExternalIgnoresTransfers(w.ledger, next.ledger[n], next.ledger[n + 1]);
  }
}
