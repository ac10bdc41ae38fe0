/** The invariant of the books: what every reservation is held for, and that no row is out of range. */
module Accounting {
  import opened Rows
  import opened Sums
  import opened Storage
  import opened Market
  import opened Payroll
  import opened Production

  // ---------------------------------------------------------------- claims on reservations

  function BuyClaim(company: Id): (Id, Order) -> int {
    (id: Id, o: Order) => if o.company == company && o.status.Open? && o.side.Buy? then o.reservedCash else 0
  }

  function SellClaim(key: RowKey): (Id, Order) -> int {
    (id: Id, o: Order) => if KeyOf(o) == key && o.status.Open? && o.side.Sell? then o.remaining else 0
  }

  function JobNeeds(job: Job): seq<Ingredient> { Requirements(job.recipe.inputs, job.runs) }

  function JobClaim(key: RowKey): (Id, Job) -> int {
    (id: Id, job: Job) =>
      if job.company == key.company && job.region == key.region && job.status.InProgress?
      then Needed(JobNeeds(job), key.item) else 0
  }

  ghost function BuyClaims(orders: map<Id, Order>, company: Id): int { Sum(orders, BuyClaim(company)) }

  ghost function SellClaims(orders: map<Id, Order>, key: RowKey): int { Sum(orders, SellClaim(key)) }

  ghost function JobClaims(jobs: map<Id, Job>, key: RowKey): int { Sum(jobs, JobClaim(key)) }

  function ReservedAt(stock: map<RowKey, Stock>, key: RowKey): int { if key in stock then stock[key].reserved else 0 }

  // Reserved cash is exactly what the open buy orders still need.
  ghost predicate CashBacked(companies: map<Id, Company>, orders: map<Id, Order>) {
    forall c :: c in companies ==> companies[c].reserved == BuyClaims(orders, c)
  }

  // Reserved stock is exactly what the open sell orders and the running jobs still need.
  ghost predicate StockBacked(stock: map<RowKey, Stock>, orders: map<Id, Order>, jobs: map<Id, Job>) {
    forall k :: ReservedAt(stock, k) == SellClaims(orders, k) + JobClaims(jobs, k)
  }

  // ---------------------------------------------------------------- rows in range

  predicate OrderOk(o: Order) {
    && o.price > 0
    && (if o.status.Open? then
          && o.remaining > 0
          && o.reservedCash == (if o.side.Buy? then o.remaining * o.price else 0)
          && o.reservedQuantity == (if o.side.Sell? then o.remaining else 0)
        else o.reservedCash == 0 && o.reservedQuantity == 0)
  }

  ghost predicate OrdersOk(orders: map<Id, Order>, companies: map<Id, Company>) {
    forall id :: id in orders ==> OrderOk(orders[id]) && orders[id].company in companies
  }

  predicate JobOk(job: Job) {
    && job.recipe.outputQuantity >= 0 && job.runs > 0
    && Runnable(job.recipe.inputs, job.runs) && DistinctInputs(job.recipe.inputs)
  }

  ghost predicate JobsOk(jobs: map<Id, Job>, companies: map<Id, Company>) {
    forall id :: id in jobs ==> JobOk(jobs[id]) && jobs[id].company in companies
  }

  predicate CompanyOk(c: Company) { 0 <= c.cash && 0 <= c.reserved && ValidWorkforce(c.workforce) }

  ghost predicate CompaniesOk(companies: map<Id, Company>) {
    forall c :: c in companies ==> CompanyOk(companies[c])
  }

  ghost predicate StockRowsOk(stock: map<RowKey, Stock>) { forall k :: k in stock ==> StockOk(stock[k]) }

  ghost predicate HiringsOk(hirings: map<Id, Hiring>, companies: map<Id, Company>) {
    forall id :: id in hirings ==> hirings[id].amount > 0 && hirings[id].company in companies
  }

  ghost predicate ShipmentsOk(shipments: map<Id, Shipment>, companies: map<Id, Company>) {
    forall id :: id in shipments ==> shipments[id].quantity > 0 && shipments[id].company in companies
  }

  ghost predicate BuildingsOk(buildings: map<Id, Building>, companies: map<Id, Company>) {
    forall id :: id in buildings ==> buildings[id].weeklyCost >= 0 && buildings[id].company in companies
  }

  predicate ContractOk(k: Contract) {
    k.price > 0 && 0 <= k.remaining <= k.quantity && (k.status.Fulfilled? <==> k.remaining == 0)
  }

  ghost predicate ContractsOk(contracts: map<Id, Contract>, companies: map<Id, Company>) {
    forall id :: id in contracts ==> ContractOk(contracts[id]) && contracts[id].buyer in companies
  }

  // The static data the catalogue checks guarantee.
  ghost predicate CatalogueOk(g: Catalogue) {
    && (forall r :: r in g.recipes ==> DistinctInputs(g.recipes[r].inputs) && g.recipes[r].outputQuantity >= 0)
    && (forall n :: n in g.nodes ==> g.nodes[n].cost >= 0 && g.nodes[n].duration >= 0)
    && (forall r :: r in g.salaryModifier ==> g.salaryModifier[r] > 0)
  }

  ghost predicate RowsOk(w: World) {
    && CompaniesOk(w.companies) && StockRowsOk(w.stock) && OrdersOk(w.orders, w.companies)
    && JobsOk(w.jobs, w.companies) && HiringsOk(w.hirings, w.companies) && ShipmentsOk(w.shipments, w.companies)
    && BuildingsOk(w.buildings, w.companies) && ContractsOk(w.contracts, w.companies) && CatalogueOk(w.catalogue)
  }

  ghost predicate Books(w: World) {
    RowsOk(w) && CashBacked(w.companies, w.orders) && StockBacked(w.stock, w.orders, w.jobs)
  }

  // Reserved cash does not exceed cash: the one clause a total-cash guard can break.
  ghost predicate Solvent(w: World) {
    forall c :: c in w.companies ==> w.companies[c].reserved <= w.companies[c].cash
  }

  // What stops a settlement or a charge: a full store, or a company whose cash does not cover what is reserved of it.
  ghost predicate StopsFor(w: World, e: Error) { e == StorageFull || (e == Inconsistent && !Solvent(w)) }

  // ---------------------------------------------------------------- claims under updates

  lemma OrderPut(orders: map<Id, Order>, id: Id, o: Order)
    ensures forall c :: BuyClaims(orders[id := o], c)
                     == BuyClaims(orders, c) - At(orders, BuyClaim(c), id) + BuyClaim(c)(id, o)
    ensures forall k :: SellClaims(orders[id := o], k)
                     == SellClaims(orders, k) - At(orders, SellClaim(k), id) + SellClaim(k)(id, o)
  {
    forall c ensures BuyClaims(orders[id := o], c)
                  == BuyClaims(orders, c) - At(orders, BuyClaim(c), id) + BuyClaim(c)(id, o) {
      SumPut(orders, BuyClaim(c), id, o);
    }
    forall k ensures SellClaims(orders[id := o], k)
                  == SellClaims(orders, k) - At(orders, SellClaim(k), id) + SellClaim(k)(id, o) {
      SumPut(orders, SellClaim(k), id, o);
    }
  }

  lemma JobPut(jobs: map<Id, Job>, id: Id, job: Job)
    ensures forall k :: JobClaims(jobs[id := job], k)
                     == JobClaims(jobs, k) - At(jobs, JobClaim(k), id) + JobClaim(k)(id, job)
  {
    forall k ensures JobClaims(jobs[id := job], k)
                  == JobClaims(jobs, k) - At(jobs, JobClaim(k), id) + JobClaim(k)(id, job) {
      SumPut(jobs, JobClaim(k), id, job);
    }
  }

  // One company's reserved cash and one of its orders change together.
  lemma CashBackedPut(companies: map<Id, Company>, orders: map<Id, Order>, c: Company, id: Id, o: Order)
    requires CashBacked(companies, orders) && o.company in companies
    requires id in orders ==> orders[id].company == o.company
    requires c.reserved - companies[o.company].reserved
          == BuyClaim(o.company)(id, o) - At(orders, BuyClaim(o.company), id)
    ensures CashBacked(companies[o.company := c], orders[id := o])
  {
    OrderPut(orders, id, o);
  }

  // An order that holds no cash before or after.
  lemma CashBackedAside(companies: map<Id, Company>, orders: map<Id, Order>, id: Id, o: Order)
    requires CashBacked(companies, orders)
    requires BuyClaim(o.company)(id, o) == 0
    requires id in orders ==> BuyClaim(orders[id].company)(id, orders[id]) == 0
    ensures CashBacked(companies, orders[id := o])
  {
    OrderPut(orders, id, o);
  }

  // One row's reserved stock and one of its orders change together.
  lemma StockBackedPut(stock: map<RowKey, Stock>, orders: map<Id, Order>, jobs: map<Id, Job>, s: Stock, id: Id,
      o: Order)
    requires StockBacked(stock, orders, jobs)
    requires id in orders ==> KeyOf(orders[id]) == KeyOf(o)
    requires s.reserved - ReservedAt(stock, KeyOf(o)) ==
            SellClaim(KeyOf(o))(id, o) - At(orders, SellClaim(KeyOf(o)), id)
    ensures StockBacked(stock[KeyOf(o) := s], orders[id := o], jobs)
  {
    OrderPut(orders, id, o);
    var stock', orders' := stock[KeyOf(o) := s], orders[id := o];
    forall k ensures ReservedAt(stock', k) == SellClaims(orders', k) + JobClaims(jobs, k) {
      assert ReservedAt(stock, k) == SellClaims(orders, k) + JobClaims(jobs, k);
    }
  }

  // An order that holds no stock before or after.
  lemma StockBackedAside(stock: map<RowKey, Stock>, orders: map<Id, Order>, jobs: map<Id, Job>, id: Id, o: Order)
    requires StockBacked(stock, orders, jobs)
    requires SellClaim(KeyOf(o))(id, o) == 0
    requires id in orders ==> SellClaim(KeyOf(orders[id]))(id, orders[id]) == 0
    ensures StockBacked(stock, orders[id := o], jobs)
  {
    OrderPut(orders, id, o);
    var orders' := orders[id := o];
    forall k ensures ReservedAt(stock, k) == SellClaims(orders', k) + JobClaims(jobs, k) {
      assert ReservedAt(stock, k) == SellClaims(orders, k) + JobClaims(jobs, k);
    }
  }

  // Cash alone says nothing about claims.
  lemma CashBackedByReserved(companies: map<Id, Company>, companies': map<Id, Company>, orders: map<Id, Order>)
    requires CashBacked(companies, orders) && companies'.Keys == companies.Keys
    requires forall c :: c in companies ==> companies'[c].reserved == companies[c].reserved
    ensures CashBacked(companies', orders)
  {
  }

  lemma StockBackedByReserved(stock: map<RowKey, Stock>, stock': map<RowKey, Stock>, orders: map<Id, Order>,
      jobs: map<Id, Job>)
    requires StockBacked(stock, orders, jobs)
    requires forall k :: ReservedAt(stock', k) == ReservedAt(stock, k)
    ensures StockBacked(stock', orders, jobs)
  {
    forall k ensures ReservedAt(stock', k) == SellClaims(orders, k) + JobClaims(jobs, k) {
      assert ReservedAt(stock, k) == SellClaims(orders, k) + JobClaims(jobs, k);
    }
  }

  // A credit reserves nothing.
  lemma CreditKeeps(stock: map<RowKey, Stock>, key: RowKey, quantity: int)
    requires quantity >= 0
    ensures forall k :: ReservedAt(Credit(stock, key, quantity), k) == ReservedAt(stock, k)
    ensures StockRowsOk(stock) ==> StockRowsOk(Credit(stock, key, quantity))
  {
  }

  // Every claim is covered by the reservation it is part of.
  lemma OrderCovered(w: World, id: Id)
    requires Books(w) && id in w.orders && w.orders[id].status.Open?
    ensures w.orders[id].side.Buy? ==> w.companies[w.orders[id].company].reserved >= w.orders[id].reservedCash
    ensures w.orders[id].side.Sell? ==>
              KeyOf(w.orders[id]) in w.stock &&
              w.stock[KeyOf(w.orders[id])].reserved >= w.orders[id].reservedQuantity
  {
    var o := w.orders[id];
    if o.side.Buy? {
      SumAtLeast(w.orders, BuyClaim(o.company), id);
    } else {
      var k := KeyOf(o);
      SumAtLeast(w.orders, SellClaim(k), id);
      JobClaimsNonNegative(w.jobs, w.companies, k);
      assert ReservedAt(w.stock, k) == SellClaims(w.orders, k) + JobClaims(w.jobs, k);
    }
  }

  lemma {:induction false} NeededNonNegative(reqs: seq<Ingredient>, item: Id)
    requires forall i :: 0 <= i < |reqs| ==> reqs[i].quantity > 0
    ensures Needed(reqs, item) >= 0
  {
    if reqs != [] { NeededNonNegative(reqs[1..], item); }
  }

  lemma NeedsPositive(job: Job)
    requires JobOk(job)
    ensures forall i :: 0 <= i < |JobNeeds(job)| ==> JobNeeds(job)[i].quantity > 0
  {
    forall i | 0 <= i < |JobNeeds(job)| ensures JobNeeds(job)[i].quantity > 0 {
      assert job.recipe.inputs[i].quantity > 0;
    }
  }

  lemma JobClaimNonNegative(id: Id, job: Job, k: RowKey)
    requires JobOk(job)
    ensures JobClaim(k)(id, job) >= 0
  {
    NeedsPositive(job);
    NeededNonNegative(JobNeeds(job), k.item);
  }

  lemma JobClaimsNonNegative(jobs: map<Id, Job>, companies: map<Id, Company>, k: RowKey)
    requires JobsOk(jobs, companies)
    ensures JobClaims(jobs, k) >= 0
    ensures forall id :: id in jobs ==> JobClaims(jobs, k) >= JobClaim(k)(id, jobs[id]) >= 0
  {
    forall id | id in jobs ensures JobClaim(k)(id, jobs[id]) >= 0 { JobClaimNonNegative(id, jobs[id], k); }
    SumAtLeast(jobs, JobClaim(k), 0);
    forall id | id in jobs ensures JobClaims(jobs, k) >= JobClaim(k)(id, jobs[id]) {
      SumAtLeast(jobs, JobClaim(k), id);
    }
  }

  lemma SellClaimsNonNegative(orders: map<Id, Order>, companies: map<Id, Company>, k: RowKey)
    requires OrdersOk(orders, companies)
    ensures SellClaims(orders, k) >= 0
  {
    SumAtLeast(orders, SellClaim(k), 0);
  }
}
