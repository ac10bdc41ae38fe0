/** The tables of one open transaction, updated in place. */
module Database {
  import opened Rows
  import opened Sums
  import opened Storage

  class Tables {
    const catalogue: Catalogue
    var companies: map<Id, Company>
    var stock: map<RowKey, Stock>
    var orders: map<Id, Order>
    var jobs: map<Id, Job>
    var shipments: map<Id, Shipment>
    var contracts: map<Id, Contract>
    var fulfilments: seq<Fulfilment>
    var buildings: map<Id, Building>
    var hirings: map<Id, Hiring>
    var research: map<NodeKey, ResearchStatus>
    var researchJobs: map<Id, ResearchJob>
    var unlocked: set<(Id, Id)>
    var ledger: seq<Entry>
    var trades: seq<Trade>
    var consumed: seq<Consumption>

    function State(): World reads this {
      World(catalogue, companies, stock, orders, jobs, shipments, contracts, fulfilments, buildings, hirings,
            research, researchJobs, unlocked, ledger, trades, consumed)
    }

    constructor (w: World)
      ensures State() == w
    {
      catalogue := w.catalogue;
      companies, stock, orders, jobs := w.companies, w.stock, w.orders, w.jobs;
      shipments, contracts, fulfilments := w.shipments, w.contracts, w.fulfilments;
      buildings, hirings := w.buildings, w.hirings;
      research, researchJobs, unlocked := w.research, w.researchJobs, w.unlocked;
      ledger, trades, consumed := w.ledger, w.trades, w.consumed;
    }

    // Rolling back to an earlier state.
    method Restore(w: World)
      requires w.catalogue == catalogue
      modifies this
      ensures State() == w
    {
      RestoreStores(w);
      companies, orders, contracts, fulfilments := w.companies, w.orders, w.contracts, w.fulfilments;
      research, researchJobs, unlocked, ledger, trades := w.research, w.researchJobs, w.unlocked, w.ledger, w.trades;
    }

    method RestoreStores(w: World)
      modifies this`stock, this`jobs, this`shipments, this`buildings, this`hirings, this`consumed
      ensures stock == w.stock && jobs == w.jobs && shipments == w.shipments
      ensures buildings == w.buildings && hirings == w.hirings && consumed == w.consumed
    {
      stock, jobs, shipments, buildings, hirings, consumed := w.stock, w.jobs, w.shipments, w.buildings, w.hirings,
          w.consumed;
    }

    // inventory.upsert with an increment
    method CreditStock(key: RowKey, quantity: int)
      modifies this`stock
      ensures stock == Credit(old(stock), key, quantity)
    {
      if key in stock {
        stock := stock[key := stock[key].(quantity := stock[key].quantity + quantity)];
      } else {
        stock := stock[key := Stock(quantity, 0)];
      }
    }

    method RemoveStock(key: RowKey, quantity: int)
      requires key in stock
      modifies this`stock
      ensures stock == old(stock)[key := old(stock)[key].(quantity := old(stock)[key].quantity - quantity)]
    {
      stock := stock[key := stock[key].(quantity := stock[key].quantity - quantity)];
    }

    method AppendEntry(e: Entry)
      modifies this`ledger
      ensures ledger == old(ledger) + [e]
    {
      ledger := ledger + [e];
    }

    // A company pays an outside party: its cash and the entry that explains the change.
    method Pay(company: Id, amount: int, kind: EntryKind, tick: int)
      requires company in companies
      modifies this`companies, this`ledger
      ensures companies
           == old(companies)[company := old(companies)[company].(cash := old(companies)[company].cash - amount)]
      ensures ledger == old(ledger) + [Entry(company, tick, kind, -amount, 0, old(companies)[company].cash - amount)]
    {
      var cash := companies[company].cash - amount;
      companies := companies[company := companies[company].(cash := cash)];
      ledger := ledger + [Entry(company, tick, kind, -amount, 0, cash)];
    }

    // The aggregate over a company's rows in a region.
    method StoredQuantity(company: Id, region: Id) returns (total: int)
      ensures total == Stored(State(), company, region)
    {
      var keys := stock.Keys;
      ghost var rest := stock;
      total := 0;
      while keys != {}
        invariant rest.Keys == keys <= stock.Keys && forall k :: k in keys ==> rest[k] == stock[k]
        invariant total + Sum(rest, StoredIn(company, region)) == Stored(State(), company, region)
        decreases |keys|
      {
        var key :| key in keys;
        SumWithout(rest, StoredIn(company, region), key);
        keys, rest := keys - {key}, rest - {key};
        if key.company == company && key.region == region { total := total + stock[key].quantity; }
      }
    }

    method ActiveWarehouses(company: Id, region: Id) returns (count: int)
      ensures count == Warehouses(State(), company, region)
    {
      var ids := buildings.Keys;
      ghost var rest := buildings;
      count := 0;
      while ids != {}
        invariant rest.Keys == ids <= buildings.Keys && forall i :: i in ids ==> rest[i] == buildings[i]
        invariant count + Sum(rest, WarehouseIn(company, region)) == Warehouses(State(), company, region)
        decreases |ids|
      {
        var id :| id in ids;
        SumWithout(rest, WarehouseIn(company, region), id);
        ids, rest := ids - {id}, rest - {id};
        var b := buildings[id];
        if b.company == company && b.region == region && b.kind.Warehouse? && b.active { count := count + 1; }
      }
    }

    // validateStorageCapacity, as whether it does not throw
    method HasRoom(company: Id, region: Id, quantity: int) returns (room: bool)
      ensures room <==> Fits(State(), company, region, quantity)
    {
      var total := StoredQuantity(company, region);
      var warehouses := ActiveWarehouses(company, region);
      room := total + quantity <= RegionalCapacity(warehouses);
    }
  }

  // How a method that may throw ended: the error it threw, if any, and the tables as it left them.
  function Result(error: Option<Error>, w: World): Outcome {
    if error.None? then Done(w) else Thrown(error.value, w)
  }
}
