/** Which commands keep every company's reserved cash covered, and exactly when the other two do. */
module Solvency {
  import opened Rows
  import opened Market
  import opened Payroll
  import opened Accounting
  import Estate
  import Logistics
  import Contracts
  import Research

  // One company's row changes; it is solvent afterwards.
  lemma SolventPut(w: World, next: World, id: Id, c: Company)
    requires Solvent(w) && next.companies == w.companies[id := c] && c.reserved <= c.cash
    ensures Solvent(next)
  {
  }

  lemma PlaceOrderStaysSolvent(w: World, r: OrderRequest, id: Id, tick: int, now: int)
    requires PlaceOrder(w, r, id, tick, now).Done?
    ensures Solvent(w) ==> Solvent(PlaceOrder(w, r, id, tick, now).world)
  {
    if Solvent(w) {
      if r.side.Buy? {
        var next := PlaceBuy(w, r, id, tick, now).world;
        SolventPut(w, next, r.company, next.companies[r.company]);
      } else {
        assert PlaceSell(w, r, id, tick, now).world.companies == w.companies;
      }
    }
  }

  lemma CancelOrderStaysSolvent(w: World, id: Id, tick: int)
    requires CancelOrder(w, id, tick).Done?
    ensures Solvent(w) ==> Solvent(CancelOrder(w, id, tick).world)
  {
    if Solvent(w) {
      var o := w.orders[id];
      if o.status.Open? && HoldsCash(o) {
        var next := Withdraw(w, id, tick);
        SolventPut(w, next, o.company, next.companies[o.company]);
      }
    }
  }

  lemma HireStaysSolvent(w: World, company: Id, heads: int, id: Id, now: int, g: Config)
    requires company in w.companies && Hire(w, company, heads, id, now, g).Done?
    ensures Solvent(w) ==> Solvent(Hire(w, company, heads, id, now, g).world)
  {
    if Solvent(w) {
      var next := Hire(w, company, heads, id, now, g).world;
      SolventPut(w, next, company, next.companies[company]);
    }
  }

  lemma RequestCapacityStaysSolvent(w: World, company: Id, delta: int, id: Id, now: int, g: Config)
    requires RequestCapacity(w, company, delta, id, now, g).Done?
    ensures Solvent(w) ==> Solvent(RequestCapacity(w, company, delta, id, now, g).world)
  {
    if Solvent(w) {
      if delta < 0 {
        var next := LayOff(w, company, -delta, g).world;
        SolventPut(w, next, company, next.companies[company]);
      } else {
        HireStaysSolvent(w, company, delta, id, now, g);
      }
    }
  }

  lemma PaySalaryStaysSolvent(w: World, company: Id, tick: int, g: Config)
    requires PaySalary(w, company, tick, g).Done?
    ensures Solvent(w) ==> Solvent(PaySalary(w, company, tick, g).world)
  {
    if Solvent(w) {
      if company in w.companies {
        var next := PaySalary(w, company, tick, g).world;
        SolventPut(w, next, company, next.companies[company]);
      }
    }
  }

  lemma ApplyHiringStaysSolvent(w: World, id: Id, tick: int)
    requires ApplyHiring(w, id, tick).Done?
    ensures Solvent(w) ==> Solvent(ApplyHiring(w, id, tick).world)
  {
    if Solvent(w) {
      if id in w.hirings && w.hirings[id].applied.None? && w.hirings[id].arrives <= tick {
        var next := ApplyHiring(w, id, tick).world;
        SolventPut(w, next, w.hirings[id].company, next.companies[w.hirings[id].company]);
      }
    }
  }

  lemma AcquireStaysSolvent(w: World, r: Estate.BuildingRequest, id: Id, tick: int)
    requires Estate.Acquire(w, r, id, tick).Done?
    ensures Solvent(w) ==> Solvent(Estate.Acquire(w, r, id, tick).world)
  {
    if Solvent(w) {
      var next := Estate.Acquire(w, r, id, tick).world;
      SolventPut(w, next, r.company, next.companies[r.company]);
    }
  }

  lemma ChargeBuildingStaysSolvent(w: World, id: Id, tick: int)
    requires Estate.ChargeBuilding(w, id, tick).Done?
    ensures Solvent(w) ==> Solvent(Estate.ChargeBuilding(w, id, tick).world)
  {
    if Solvent(w) {
      if id in w.buildings && Estate.CostDue(w.buildings[id], tick) {
        var company := w.buildings[id].company;
        if w.companies[company].cash - w.companies[company].reserved >= w.buildings[id].weeklyCost {
          SolventPut(w, Estate.PayCost(w, id, tick), company, Estate.PayCost(w, id, tick).companies[company]);
        } else {
          assert Estate.ShutDown(w, id, tick).companies == w.companies;
        }
      }
    }
  }

  lemma CreateShipmentStaysSolvent(w: World, r: Logistics.ShipmentRequest, id: Id, tick: int, g: Logistics.FeeConfig)
    requires Logistics.CreateShipment(w, r, id, tick, g).Done?
    ensures Solvent(w) ==> Solvent(Logistics.CreateShipment(w, r, id, tick, g).world)
  {
    if Solvent(w) {
      var next := Logistics.CreateShipment(w, r, id, tick, g).world;
      SolventPut(w, next, r.company, next.companies[r.company]);
    }
  }

  lemma SetAllocationStaysSolvent(w: World, company: Id, a: int, b: int, c: int, d: int)
    requires SetAllocation(w, company, a, b, c, d).Done?
    ensures Solvent(w) ==> Solvent(SetAllocation(w, company, a, b, c, d).world)
  {
    if Solvent(w) {
      var next := SetAllocation(w, company, a, b, c, d).world;
      SolventPut(w, next, company, next.companies[company]);
    }
  }

  // A fulfilment spends the buyer's total cash. It keeps reserved cash covered exactly when the buyer's unreserved
  // cash covers the payment, or the buyer pays itself.
  lemma FulfilSolventIff(w: World, id: Id, seller: Id, quantity: int, tick: int, locked: bool)
    requires Solvent(w) && Contracts.FulfilContract(w, id, seller, quantity, tick, locked).Done?
    requires w.contracts[id].price > 0
    ensures Solvent(Contracts.FulfilContract(w, id, seller, quantity, tick, locked).world)
       <==> w.contracts[id].buyer == seller ||
            w.contracts[id].price * quantity
              <= w.companies[w.contracts[id].buyer].cash - w.companies[w.contracts[id].buyer].reserved
  {
    var next := Contracts.FulfilContract(w, id, seller, quantity, tick, locked).world;
    var k := w.contracts[id];
    CashAfterSaleRows(w.companies, k.buyer, seller, k.price * quantity);
    assert k.price * quantity > 0;
    if k.buyer != seller {
      assert next.companies[k.buyer].reserved == w.companies[k.buyer].reserved;
    }
  }

  lemma CashAfterSaleRows(companies: map<Id, Company>, buyer: Id, seller: Id, notional: int)
    requires buyer in companies && seller in companies
    ensures var after := Contracts.CashAfterSale(companies, buyer, seller, notional);
            && after.Keys == companies.Keys
            && forall c :: c in companies ==>
                 && after[c].reserved == companies[c].reserved
                 && after[c].cash == companies[c].cash +
                     (if c == seller then notional else 0) - (if c == buyer then notional else 0)
  {
  }

  // Likewise for research, which is paid from total cash.
  lemma StartResearchSolventIff(w: World, key: NodeKey, id: Id, tick: int)
    requires Solvent(w) && Research.StartResearch(w, key, id, tick).Done?
    ensures Solvent(Research.StartResearch(w, key, id, tick).world)
       <==> w.catalogue.nodes[key.node].cost <= w.companies[key.company].cash - w.companies[key.company].reserved
  {
    var next := Research.StartResearch(w, key, id, tick).world;
    if w.catalogue.nodes[key.node].cost <= w.companies[key.company].cash - w.companies[key.company].reserved {
      SolventPut(w, next, key.company, next.companies[key.company]);
    } else {
      assert next.companies[key.company].reserved > next.companies[key.company].cash;
    }
  }
}
