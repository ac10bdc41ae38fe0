/** Stock rows and the regional storage limit. */
module Storage {
  import opened Rows
  import opened Sums

  const BASE_STORAGE_CAPACITY_PER_REGION := 1000
  const WAREHOUSE_CAPACITY_PER_SLOT := 500

  // inventory.upsert with an increment.
  function Credit(stock: map<RowKey, Stock>, key: RowKey, quantity: int): map<RowKey, Stock> {
    stock[key := if key in stock then stock[key].(quantity := stock[key].quantity + quantity) else Stock(quantity, 0)]
  }

  // Stock of one company in one region, over all items.
  function StoredIn(company: Id, region: Id): (RowKey, Stock) -> int {
    (k: RowKey, s: Stock) => if k.company == company && k.region == region then s.quantity else 0
  }

  function WarehouseIn(company: Id, region: Id): (Id, Building) -> int {
    (id: Id, b: Building) =>
      if b.company == company && b.region == region && b.kind.Warehouse? && b.active then 1 else 0
  }

  ghost function Stored(w: World, company: Id, region: Id): int { Sum(w.stock, StoredIn(company, region)) }

  ghost function Warehouses(w: World, company: Id, region: Id): int { Sum(w.buildings, WarehouseIn(company, region)) }

  function RegionalCapacity(warehouses: int): int {
    BASE_STORAGE_CAPACITY_PER_REGION + warehouses * WAREHOUSE_CAPACITY_PER_SLOT
  }

  ghost function Capacity(w: World, company: Id, region: Id): int { RegionalCapacity(Warehouses(w, company, region)) }

  // validateStorageCapacity does not throw.
  ghost predicate Fits(w: World, company: Id, region: Id, quantity: int) {
    Stored(w, company, region) + quantity <= Capacity(w, company, region)
  }
}
