/** Payroll, buildings, shipments, the demand sink, contracts and research keep the books. */
module CompanyBooks {
  import opened Rows
  import opened Payroll
  import Estate
  import Logistics
  import DemandSink
  import Contracts
  import opened Accounting

  // The tables besides companies and stock that a command may have changed are in range.
  ghost predicate SideTablesOk(w: World, companies: map<Id, Company>) {
    && HiringsOk(w.hirings, companies) && ShipmentsOk(w.shipments, companies)
    && BuildingsOk(w.buildings, companies) && ContractsOk(w.contracts, companies)
  }

  // A change of one company row that keeps its reserved cash keeps the books.
  lemma CompanyMove(w: World, next: World, id: Id)
    requires Books(w) && id in w.companies && id in next.companies
    requires next.companies == w.companies[id := next.companies[id]]
    requires next.companies[id].reserved == w.companies[id].reserved && CompanyOk(next.companies[id])
    requires next.stock == w.stock && next.orders == w.orders && next.jobs == w.jobs && next.catalogue == w.catalogue
    requires SideTablesOk(next, w.companies)
    ensures Books(next)
  {
    assert next.companies.Keys == w.companies.Keys;
    CashBackedByReserved(w.companies, next.companies, w.orders);
  }

  // So does a change of stock rows that keeps what is reserved.
  lemma StockMove(w: World, next: World)
    requires Books(w) && next.companies == w.companies
    requires StockRowsOk(next.stock) && forall k :: ReservedAt(next.stock, k) == ReservedAt(w.stock, k)
    requires next.orders == w.orders && next.jobs == w.jobs && next.catalogue == w.catalogue
    requires SideTablesOk(next, w.companies)
    ensures Books(next)
  {
    StockBackedByReserved(w.stock, next.stock, w.orders, w.jobs);
  }

  lemma SetAllocationKeepsBooks(w: World, company: Id, a: int, b: int, c: int, d: int)
    requires Books(w)
    ensures SetAllocation(w, company, a, b, c, d).Done? ==> Books(SetAllocation(w, company, a, b, c, d).world)
    ensures SetAllocation(w, company, a, b, c, d).Thrown? ==> SetAllocation(w, company, a, b, c, d).open == w
  {
    if SetAllocation(w, company, a, b, c, d).Done? {
      CompanyMove(w, SetAllocation(w, company, a, b, c, d).world, company);
    }
  }

  lemma LayOffKeepsBooks(w: World, company: Id, heads: int, g: Config)
    requires Books(w) && company in w.companies && LayOff(w, company, heads, g).Done?
    ensures Books(LayOff(w, company, heads, g).world)
  {
    CompanyMove(w, LayOff(w, company, heads, g).world, company);
  }

  lemma HireKeepsBooks(w: World, company: Id, heads: int, id: Id, now: int, g: Config)
    requires Books(w) && company in w.companies && heads > 0 && Hire(w, company, heads, id, now, g).Done?
    ensures Books(Hire(w, company, heads, id, now, g).world)
  {
    CompanyMove(w, Hire(w, company, heads, id, now, g).world, company);
  }

  lemma RequestCapacityKeepsBooks(w: World, company: Id, delta: int, id: Id, now: int, g: Config)
    requires Books(w) && RequestCapacity(w, company, delta, id, now, g).Done?
    ensures Books(RequestCapacity(w, company, delta, id, now, g).world)
  {
    if delta < 0 { LayOffKeepsBooks(w, company, -delta, g); } else { HireKeepsBooks(w, company, delta, id, now, g); }
  }

  lemma ApplyHiringKeepsBooks(w: World, id: Id, tick: int)
    requires Books(w)
    ensures ApplyHiring(w, id, tick).Done? && Books(ApplyHiring(w, id, tick).world)
  {
    if id in w.hirings && w.hirings[id].applied.None? && w.hirings[id].arrives <= tick {
      CompanyMove(w, ApplyHiring(w, id, tick).world, w.hirings[id].company);
    }
  }

  lemma SalaryNonNegative(w: World, c: Company, g: Config)
    requires CatalogueOk(w.catalogue) && ValidConfig(g) && c.workforce.capacity >= 0
    ensures SalaryDue(w, c, g) >= 0
  {
    var modifier := if c.region in w.catalogue.salaryModifier then w.catalogue.salaryModifier[c.region] else MAX_BPS;
    var gross := c.workforce.capacity * g.baseSalary;
    assert gross >= 0;
    assert gross * modifier >= 0;
  }

  lemma PaySalaryKeepsBooks(w: World, company: Id, tick: int, g: Config)
    requires Books(w) && ValidConfig(g)
    ensures PaySalary(w, company, tick, g).Done? && Books(PaySalary(w, company, tick, g).world)
  {
    if company in w.companies {
      SalaryNonNegative(w, w.companies[company], g);
      CompanyMove(w, PaySalary(w, company, tick, g).world, company);
    }
  }

  lemma AcquireKeepsBooks(w: World, r: Estate.BuildingRequest, id: Id, tick: int)
    requires Books(w) && Estate.Acquire(w, r, id, tick).Done?
    ensures Books(Estate.Acquire(w, r, id, tick).world)
  {
    CompanyMove(w, Estate.Acquire(w, r, id, tick).world, r.company);
  }

  // A building that is due for a charge, and whose company has more cash reserved than it has.
  predicate DueUncovered(w: World, id: Id, tick: int) {
    && id in w.buildings && Estate.CostDue(w.buildings[id], tick) && w.buildings[id].company in w.companies
    && w.companies[w.buildings[id].company].reserved > w.companies[w.buildings[id].company].cash
  }

  // A charge throws only on such a building.
  lemma ChargeThrows(w: World, id: Id, tick: int)
    requires Books(w)
    ensures Estate.ChargeBuilding(w, id, tick).Thrown? <==> DueUncovered(w, id, tick)
    ensures Estate.ChargeBuilding(w, id, tick).Thrown? ==> Estate.ChargeBuilding(w, id, tick) == Thrown(Inconsistent, w)
  {
  }

  lemma PaidCovers(w: World, id: Id, tick: int, j: Id)
    requires id in w.buildings && w.buildings[id].company in w.companies
    requires w.companies[w.buildings[id].company].cash - w.companies[w.buildings[id].company].reserved
          >= Max(0, w.buildings[id].weeklyCost)
    ensures DueUncovered(Estate.PayCost(w, id, tick), j, tick) <==> DueUncovered(w, j, tick)
  {
  }

  lemma ShutCovers(w: World, id: Id, tick: int, j: Id)
    requires id in w.buildings && w.buildings[id].company in w.companies
    requires w.companies[w.buildings[id].company].reserved <= w.companies[w.buildings[id].company].cash
    ensures DueUncovered(Estate.ShutDown(w, id, tick), j, tick) <==> DueUncovered(w, j, tick)
  {
  }

  lemma ChargedCovers(w: World, id: Id, tick: int)
    requires Estate.ChargeBuilding(w, id, tick).Done?
    ensures forall j :: DueUncovered(Estate.ChargeBuilding(w, id, tick).world, j, tick) <==> DueUncovered(w, j, tick)
  {
    if id in w.buildings && Estate.CostDue(w.buildings[id], tick) {
      var next, c := Estate.ChargeBuilding(w, id, tick).world, w.companies[w.buildings[id].company];
      var pays := c.cash - c.reserved >= w.buildings[id].weeklyCost;
      assert next == if pays then Estate.PayCost(w, id, tick) else Estate.ShutDown(w, id, tick);
      hide *;
      forall j ensures DueUncovered(next, j, tick) <==> DueUncovered(w, j, tick) {
        if pays { PaidCovers(w, id, tick, j); } else { ShutCovers(w, id, tick, j); }
      }
    }
  }

  // Charging a list of buildings throws exactly when it holds such a building, wherever it stands.
  lemma {:induction false} ChargesThrowIff(w: World, due: seq<Id>, tick: int)
    requires Books(w)
    ensures Estate.ChargeBuildings(w, due, tick).Thrown? <==>
              exists k :: 0 <= k < |due| && DueUncovered(w, due[k], tick)
    ensures Estate.ChargeBuildings(w, due, tick).Thrown? ==> Estate.ChargeBuildings(w, due, tick).error == Inconsistent
    decreases |due|
  {
    hide Books, Estate.ChargeBuilding, DueUncovered;
    if due != [] {
      ChargeThrows(w, due[0], tick);
      if Estate.ChargeBuilding(w, due[0], tick).Done? {
        var mid := Estate.ChargeBuilding(w, due[0], tick).world;
        ChargeBuildingKeepsBooks(w, due[0], tick);
        ChargedCovers(w, due[0], tick);
        ChargesThrowIff(mid, due[1..], tick);
        if k :| 0 <= k < |due| && DueUncovered(w, due[k], tick) {
          assert k > 0 && due[1..][k - 1] == due[k];
        }
        if k :| 0 <= k < |due| - 1 && DueUncovered(mid, due[1..][k], tick) {
          assert due[k + 1] == due[1..][k];
        }
      }
    }
  }

  lemma PayCostKeepsBooks(w: World, id: Id, tick: int)
    requires Books(w) && id in w.buildings
    requires var c := w.companies[w.buildings[id].company]; c.cash - c.reserved >= w.buildings[id].weeklyCost
    ensures Books(Estate.PayCost(w, id, tick))
  {
    CompanyMove(w, Estate.PayCost(w, id, tick), w.buildings[id].company);
  }

  lemma ShutDownKeepsBooks(w: World, id: Id, tick: int)
    requires Books(w) && id in w.buildings
    ensures Books(Estate.ShutDown(w, id, tick))
  {
  }

  lemma ChargeBuildingKeepsBooks(w: World, id: Id, tick: int)
    requires Books(w) && Estate.ChargeBuilding(w, id, tick).Done?
    ensures Books(Estate.ChargeBuilding(w, id, tick).world)
  {
    if id in w.buildings && Estate.CostDue(w.buildings[id], tick) {
      var c := w.companies[w.buildings[id].company];
      if c.cash - c.reserved >= w.buildings[id].weeklyCost {
        PayCostKeepsBooks(w, id, tick);
      } else {
        ShutDownKeepsBooks(w, id, tick);
      }
    }
  }

  lemma ReactivateKeepsBooks(w: World, id: Id, tick: int)
    requires Books(w) && Estate.Reactivate(w, id, tick).Done?
    ensures Books(Estate.Reactivate(w, id, tick).world)
  {
  }

  lemma CreateShipmentKeepsBooks(w: World, r: Logistics.ShipmentRequest, id: Id, tick: int, g: Logistics.FeeConfig)
    requires Books(w) && Logistics.CreateShipment(w, r, id, tick, g).Done?
    ensures Books(Logistics.CreateShipment(w, r, id, tick, g).world)
  {
    var next := Logistics.CreateShipment(w, r, id, tick, g).world;
    var shipped := w.(stock := next.stock, shipments := next.shipments);
    StockMove(w, shipped);
    CompanyMove(shipped, next, r.company);
  }

  lemma CancelShipmentKeepsBooks(w: World, id: Id, tick: nat)
    requires Books(w) && id in w.shipments
    ensures Logistics.CancelShipment(w, id, tick).Done? && Books(Logistics.CancelShipment(w, id, tick).world)
  {
    var s := w.shipments[id];
    CreditKeeps(w.stock, Logistics.ArrivalKey(s, s.from), s.quantity);
    if s.status.InTransit? {
      StockMove(w, Logistics.CancelShipment(w, id, tick).world);
    }
  }

  lemma DeliverOneKeepsBooks(w: World, id: Id, tick: int)
    requires Books(w)
    ensures Books(Logistics.DeliverOne(w, id, tick))
  {
    if Logistics.Due(w, id, tick) && !Logistics.ArrivalOf(w, w.shipments[id]).StillInTransit? {
      var s := w.shipments[id];
      CreditKeeps(w.stock, Logistics.ArrivalKey(s, Logistics.ArrivalRegion(w, s)), s.quantity);
      StockMove(w, Logistics.DeliverOne(w, id, tick));
    }
  }

  lemma TakenIsUnreserved(w: World, key: RowKey, demand: int)
    requires StockRowsOk(w.stock)
    ensures 0 <= DemandSink.TakenFrom(w, key, demand) <= Max(0, demand)
    ensures key in w.stock ==>
              DemandSink.TakenFrom(w, key, demand) <= w.stock[key].quantity - w.stock[key].reserved
  {
  }

  lemma TakeRowKeepsBooks(w: World, key: RowKey, demand: int)
    requires Books(w)
    ensures Books(DemandSink.TakeRow(w, key, demand))
  {
    TakenIsUnreserved(w, key, demand);
    var taken := DemandSink.TakenFrom(w, key, demand);
    if taken > 0 {
      var stock := w.stock[key := w.stock[key].(quantity := w.stock[key].quantity - taken)];
      assert StockRowsOk(stock);
      StockMove(w, DemandSink.TakeRow(w, key, demand));
    }
  }

  lemma AcceptKeepsBooks(w: World, id: Id, seller: Id, tick: int)
    requires Books(w) && Contracts.AcceptContract(w, id, seller, tick).Done?
    ensures Books(Contracts.AcceptContract(w, id, seller, tick).world)
  {
  }

  lemma ExpireKeepsBooks(w: World, tick: int)
    requires Books(w)
    ensures Books(Contracts.ExpireContracts(w, tick))
  {
  }

  // ---------------------------------------------------------------- contracts

  lemma OfferOk(m: Contracts.Market, tick: nat, sequence: nat, g: Contracts.ContractConfig)
    requires m.items != [] && m.buyers != [] && forall i :: i in m.baseQuantity ==> m.baseQuantity[i] > 0
    ensures ContractOk(Contracts.OfferAt(m, tick, sequence, g))
  {
  }

  lemma {:induction false} GenerateKeepsBooks(
    w: World, m: Contracts.Market, tick: nat, sequence: nat, ids: seq<Id>, g: Contracts.ContractConfig)
    requires Books(w) && m.items != [] && m.buyers != [] && forall i :: i in m.baseQuantity ==> m.baseQuantity[i] > 0
    ensures Contracts.GenerateFrom(w, m, tick, sequence, ids, g).Done? ==>
              Books(Contracts.GenerateFrom(w, m, tick, sequence, ids, g).world)
    ensures var out := Contracts.GenerateFrom(w, m, tick, sequence, ids, g);
            out.Done? ==> out.world == w.(contracts := out.world.contracts)
    decreases |ids|
  {
    if ids != [] {
      var k := Contracts.OfferAt(m, tick, sequence, g);
      OfferOk(m, tick, sequence, g);
      if k.buyer !in w.companies || w.companies[k.buyer].cash < k.price * k.quantity {
        GenerateKeepsBooks(w, m, tick, sequence + 1, ids[1..], g);
      } else if ids[0] !in w.contracts {
        GenerateKeepsBooks(w.(contracts := w.contracts[ids[0] := k]), m, tick, sequence + 1, ids[1..], g);
      }
    }
  }

  // A fulfilment that went through.
  ghost predicate Sells(w: World, id: Id, seller: Id, quantity: int, tick: int, locked: bool) {
    Contracts.FulfilContract(w, id, seller, quantity, tick, locked).Done?
  }

  lemma FulfilMovesStock(w: World, id: Id, seller: Id, quantity: int, tick: int, locked: bool)
    requires Books(w) && Sells(w, id, seller, quantity, tick, locked)
    ensures var next := Contracts.FulfilContract(w, id, seller, quantity, tick, locked).world;
            Books(w.(stock := next.stock, contracts := next.contracts, fulfilments := next.fulfilments))
  {
    var next := Contracts.FulfilContract(w, id, seller, quantity, tick, locked).world;
    var row := Contracts.SellerRow(w, id);
    var taken := w.stock[row := w.stock[row].(quantity := w.stock[row].quantity - quantity)];
    CreditKeeps(taken, Contracts.BuyerRow(w, id), quantity);
    assert StockRowsOk(taken);
    assert ContractsOk(next.contracts, w.companies);
    StockMove(w, w.(stock := next.stock, contracts := next.contracts, fulfilments := next.fulfilments));
  }

  lemma FulfilMovesCash(w: World, next: World, buyer: Id, seller: Id, notional: int)
    requires Books(w) && buyer in w.companies && seller in w.companies && 0 < notional <= w.companies[buyer].cash
    requires next == w.(companies := Contracts.CashAfterSale(w.companies, buyer, seller, notional),
            ledger := next.ledger)
    ensures Books(next)
  {
    var paid := w.(companies := w.companies[buyer := w.companies[buyer].(cash := w.companies[buyer].cash - notional)]);
    CompanyMove(w, paid, buyer);
    CompanyMove(paid, next, seller);
  }

  lemma FulfilKeepsBooks(w: World, id: Id, seller: Id, quantity: int, tick: int, locked: bool)
    requires Books(w) && Sells(w, id, seller, quantity, tick, locked)
    ensures Books(Contracts.FulfilContract(w, id, seller, quantity, tick, locked).world)
  {
    var next := Contracts.FulfilContract(w, id, seller, quantity, tick, locked).world;
    FulfilMovesStock(w, id, seller, quantity, tick, locked);
    assert w.contracts[id].price * quantity > 0;
    FulfilMovesCash(w.(stock := next.stock, contracts := next.contracts, fulfilments := next.fulfilments), next,
                    w.contracts[id].buyer, seller, w.contracts[id].price * quantity);
  }
}
