/** What no run changes: the ledger explains every cent, and goods come only from production. */
module Conservation {
  import opened Rows
  import opened Sums
  import opened Storage
  import opened Production
  import opened Accounting

  // ---------------------------------------------------------------- the ledger

  function LedgerCash(ledger: seq<Entry>, company: Id): int {
    if ledger == [] then 0
    else LedgerCash(ledger[..|ledger| - 1], company)
         + (if ledger[|ledger| - 1].company == company then ledger[|ledger| - 1].deltaCash else 0)
  }

  function LedgerReserved(ledger: seq<Entry>, company: Id): int {
    if ledger == [] then 0
    else LedgerReserved(ledger[..|ledger| - 1], company)
         + (if ledger[|ledger| - 1].company == company then ledger[|ledger| - 1].deltaReserved else 0)
  }

  predicate Transfer(kind: EntryKind) { kind.TradeSettlement? || kind.ContractSettlement? }

  // Cash that entered or left the economy.
  function ExternalCash(ledger: seq<Entry>): int {
    if ledger == [] then 0
    else ExternalCash(ledger[..|ledger| - 1])
         + (if Transfer(ledger[|ledger| - 1].kind) then 0 else ledger[|ledger| - 1].deltaCash)
  }

  function CashOf(): (Id, Company) -> int { (id: Id, c: Company) => c.cash }

  ghost function Treasury(companies: map<Id, Company>): int { Sum(companies, CashOf()) }

  // What a company had before the first ledger entry, if the ledger is right.
  function Opening(w: World, company: Id): int
    requires company in w.companies
  {
    w.companies[company].cash - LedgerCash(w.ledger, company)
  }

  function OpeningReserved(w: World, company: Id): int
    requires company in w.companies
  {
    w.companies[company].reserved - LedgerReserved(w.ledger, company)
  }

  // The entries added between two states account for every change of cash and reserved cash.
  ghost predicate Audited(w: World, next: World) {
    && next.companies.Keys == w.companies.Keys && w.ledger <= next.ledger
    && (forall c :: c in w.companies ==>
        Opening(next, c) == Opening(w, c) && OpeningReserved(next, c) == OpeningReserved(w, c))
    && Treasury(next.companies) - ExternalCash(next.ledger) == Treasury(w.companies) - ExternalCash(w.ledger)
  }

  // Every entry records the balance its company had right after it.
  ghost predicate Balanced(w: World) {
    forall i :: 0 <= i < |w.ledger| ==>
      w.ledger[i].company in w.companies &&
      w.ledger[i].balanceAfter == Opening(w, w.ledger[i].company) + LedgerCash(w.ledger[..i + 1], w.ledger[i].company)
  }

  // One entry, posted together with the change of cash it describes.
  ghost predicate Posted(w: World, next: World, e: Entry) {
    && e.company in w.companies && next.ledger == w.ledger + [e]
    && next.companies.Keys == w.companies.Keys
    && forall c :: c in w.companies ==>
         && next.companies[c].cash == w.companies[c].cash + (if c == e.company then e.deltaCash else 0)
         && next.companies[c].reserved == w.companies[c].reserved + (if c == e.company then e.deltaReserved else 0)
  }

  lemma LedgerAppend(ledger: seq<Entry>, e: Entry)
    ensures forall c ::
              LedgerCash(ledger + [e], c) == LedgerCash(ledger, c) + (if e.company == c then e.deltaCash else 0)
    ensures forall c :: LedgerReserved(ledger + [e], c)
                     == LedgerReserved(ledger, c) + (if e.company == c then e.deltaReserved else 0)
    ensures ExternalCash(ledger + [e]) == ExternalCash(ledger) + (if Transfer(e.kind) then 0 else e.deltaCash)
  {
    assert (ledger + [e])[..|ledger|] == ledger;
  }

  lemma TreasuryPosted(w: World, next: World, e: Entry)
    requires Posted(w, next, e)
    ensures Treasury(next.companies) == Treasury(w.companies) + e.deltaCash
  {
    SumChangesAt(w.companies, CashOf(), next.companies, CashOf(), e.company);
  }

  // Everything but the treasury's share of a single transfer entry.
  lemma PostedExplains(w: World, next: World, e: Entry)
    requires Posted(w, next, e)
    ensures w.ledger <= next.ledger
    ensures forall c :: c in w.companies ==>
            Opening(next, c) == Opening(w, c) && OpeningReserved(next, c) == OpeningReserved(w, c)
    ensures Treasury(next.companies) - ExternalCash(next.ledger)
         == Treasury(w.companies) - ExternalCash(w.ledger) + (if Transfer(e.kind) then e.deltaCash else 0)
  {
    LedgerAppend(w.ledger, e);
    TreasuryPosted(w, next, e);
  }

  lemma PostedAudits(w: World, next: World, e: Entry)
    requires Posted(w, next, e) && !Transfer(e.kind)
    ensures Audited(w, next)
  {
    PostedExplains(w, next, e);
  }

  lemma PostedBalances(w: World, next: World, e: Entry)
    requires Posted(w, next, e) && Balanced(w)
    ensures Balanced(next) <==> e.balanceAfter == next.companies[e.company].cash
  {
    PostedExplains(w, next, e);
    var n := |w.ledger|;
    assert next.ledger[..n + 1] == next.ledger;
    forall i | 0 <= i < n
      ensures next.ledger[i].company in next.companies &&
              next.ledger[i].balanceAfter ==
                  Opening(next, next.ledger[i].company) + LedgerCash(next.ledger[..i + 1], next.ledger[i].company)
    {
      assert next.ledger[..i + 1] == w.ledger[..i + 1];
    }
  }

  // No cash moved and nothing was posted.
  ghost predicate Unposted(w: World, next: World) {
    && next.ledger == w.ledger && next.companies.Keys == w.companies.Keys
    && forall c :: c in w.companies ==>
         next.companies[c].cash == w.companies[c].cash && next.companies[c].reserved == w.companies[c].reserved
  }

  lemma UnpostedAudits(w: World, next: World)
    requires Unposted(w, next)
    ensures Audited(w, next) && (Balanced(w) ==> Balanced(next))
  {
    SumCongruent(w.companies, CashOf(), next.companies, CashOf());
  }

  lemma AuditedComposes(w: World, mid: World, next: World)
    requires Audited(w, mid) && Audited(mid, next)
    ensures Audited(w, next)
  {
  }

  // The ledger explains every cent: between any two audited states, each company's cash and reserved cash changed
  // by exactly the sum of the entries added, and the economy's cash by the entries that are not transfers.
  lemma LedgerExplainsEveryCent(w: World, next: World, company: Id)
    requires Audited(w, next) && company in w.companies
    ensures next.companies[company].cash - w.companies[company].cash
         == LedgerCash(next.ledger, company) - LedgerCash(w.ledger, company)
    ensures next.companies[company].reserved - w.companies[company].reserved
         == LedgerReserved(next.ledger, company) - LedgerReserved(w.ledger, company)
    ensures Treasury(next.companies) - Treasury(w.companies) == ExternalCash(next.ledger) - ExternalCash(w.ledger)
  {
    assert Opening(next, company) == Opening(w, company) &&
        OpeningReserved(next, company) == OpeningReserved(w, company);
  }

  // ---------------------------------------------------------------- goods

  function StockOf(item: Id): (RowKey, Stock) -> int {
    (k: RowKey, s: Stock) => if k.item == item then s.quantity else 0
  }

  function TransitOf(item: Id): (Id, Shipment) -> int {
    (id: Id, s: Shipment) => if s.item == item && s.status.InTransit? then s.quantity else 0
  }

  // What one job makes of an item, net of what it uses.
  function Yield(job: Job, item: Id): int {
    (if job.recipe.output == item then job.recipe.outputQuantity * job.runs else 0) - Needed(JobNeeds(job), item)
  }

  function MadeOf(item: Id): (Id, Job) -> int {
    (id: Id, job: Job) => if job.status.JobCompleted? then Yield(job, item) else 0
  }

  function EatenOf(consumed: seq<Consumption>, item: Id): int {
    if consumed == [] then 0
    else EatenOf(consumed[..|consumed| - 1], item)
         + (if consumed[|consumed| - 1].key.item == item then consumed[|consumed| - 1].quantity else 0)
  }

  ghost function Stocked(stock: map<RowKey, Stock>, item: Id): int { Sum(stock, StockOf(item)) }

  ghost function InTransitOf(shipments: map<Id, Shipment>, item: Id): int { Sum(shipments, TransitOf(item)) }

  ghost function Made(jobs: map<Id, Job>, item: Id): int { Sum(jobs, MadeOf(item)) }

  // Stock everywhere plus goods on the way, less what production made, plus what the sink ate.
  ghost function Goods(w: World, item: Id): int {
    Stocked(w.stock, item) + InTransitOf(w.shipments, item) - Made(w.jobs, item) + EatenOf(w.consumed, item)
  }

  ghost predicate GoodsKept(w: World, next: World) { forall i :: Goods(next, i) == Goods(w, i) }

  // Rows that keep their quantity keep the goods.
  lemma StockedSame(stock: map<RowKey, Stock>, stock': map<RowKey, Stock>)
    requires stock.Keys == stock'.Keys && forall k :: k in stock ==> stock'[k].quantity == stock[k].quantity
    ensures forall i :: Stocked(stock', i) == Stocked(stock, i)
  {
    forall i ensures Stocked(stock', i) == Stocked(stock, i) {
      SumCongruent(stock, StockOf(i), stock', StockOf(i));
    }
  }

  lemma StockedPut(stock: map<RowKey, Stock>, key: RowKey, s: Stock)
    ensures forall i :: Stocked(stock[key := s], i)
                     == Stocked(stock, i) + (if key.item == i
                         then s.quantity - (if key in stock then stock[key].quantity else 0) else 0)
  {
    forall i ensures Stocked(stock[key := s], i)
                  == Stocked(stock, i) + (if key.item == i
                      then s.quantity - (if key in stock then stock[key].quantity else 0) else 0)
    {
      SumPut(stock, StockOf(i), key, s);
    }
  }

  lemma StockedCredit(stock: map<RowKey, Stock>, key: RowKey, quantity: int)
    ensures forall i :: Stocked(Credit(stock, key, quantity), i)
                     == Stocked(stock, i) + (if key.item == i then quantity else 0)
  {
    StockedPut(stock, key, Credit(stock, key, quantity)[key]);
  }

  lemma TransitPut(shipments: map<Id, Shipment>, id: Id, s: Shipment)
    ensures forall i :: InTransitOf(shipments[id := s], i)
                     == InTransitOf(shipments, i) - At(shipments, TransitOf(i), id) + TransitOf(i)(id, s)
  {
    forall i ensures InTransitOf(shipments[id := s], i)
                  == InTransitOf(shipments, i) - At(shipments, TransitOf(i), id) + TransitOf(i)(id, s) {
      SumPut(shipments, TransitOf(i), id, s);
    }
  }

  lemma MadePut(jobs: map<Id, Job>, id: Id, job: Job)
    ensures forall i :: Made(jobs[id := job], i) == Made(jobs, i) - At(jobs, MadeOf(i), id) + MadeOf(i)(id, job)
  {
    forall i ensures Made(jobs[id := job], i) == Made(jobs, i) - At(jobs, MadeOf(i), id) + MadeOf(i)(id, job) {
      SumPut(jobs, MadeOf(i), id, job);
    }
  }

  lemma EatenAppend(consumed: seq<Consumption>, c: Consumption)
    ensures forall i :: EatenOf(consumed + [c], i) == EatenOf(consumed, i) + (if c.key.item == i then c.quantity else 0)
  {
    assert (consumed + [c])[..|consumed|] == consumed;
  }

  // ---------------------------------------------------------------- closed rows

  // Rows are never removed, and a closed order, job, shipment or contract never changes again.
  ghost predicate ClosedKept(w: World, next: World) {
    && OrdersGoOn(w.orders, next.orders) && JobsGoOn(w.jobs, next.jobs)
    && ShipmentsGoOn(w.shipments, next.shipments) && ContractsGoOn(w.contracts, next.contracts)
  }

  ghost predicate OrdersGoOn(orders: map<Id, Order>, next: map<Id, Order>) {
    forall id :: id in orders ==> id in next && OrderGoesOn(orders[id], next[id])
  }

  ghost predicate JobsGoOn(jobs: map<Id, Job>, next: map<Id, Job>) {
    forall id :: id in jobs ==> id in next && JobGoesOn(jobs[id], next[id])
  }

  ghost predicate ShipmentsGoOn(shipments: map<Id, Shipment>, next: map<Id, Shipment>) {
    forall id :: id in shipments ==> id in next && ShipmentGoesOn(shipments[id], next[id])
  }

  // An order's terms never change, what it has left never grows, and a closed order does not change at all.
  predicate OrderGoesOn(o: Order, next: Order) {
    && next == o.(remaining := next.remaining, status := next.status, reservedCash := next.reservedCash,
                  reservedQuantity := next.reservedQuantity, tickClosed := next.tickClosed)
    && next.remaining <= o.remaining
    && (!o.status.Open? ==> next == o)
  }

  predicate JobGoesOn(job: Job, next: Job) {
    && next == job.(status := next.status, completed := next.completed)
    && (!job.status.InProgress? ==> next == job)
  }

  predicate ShipmentGoesOn(s: Shipment, next: Shipment) {
    && next == s.(status := next.status, closed := next.closed)
    && (!s.status.InTransit? ==> next == s)
  }

  ghost predicate ContractsGoOn(contracts: map<Id, Contract>, next: map<Id, Contract>) {
    forall id :: id in contracts ==> id in next && ContractGoesOn(contracts[id], next[id])
  }

  // A contract's terms and, once set, its seller never change; a closed contract does not change at all.
  predicate ContractGoesOn(k: Contract, next: Contract) {
    && next == k.(seller := next.seller, remaining := next.remaining, status := next.status,
                  accepted := next.accepted, closed := next.closed)
    && (k.seller.Some? ==> next.seller == k.seller)
    && (k.status.Fulfilled? || k.status.Expired? ==> next == k)
  }

  // ---------------------------------------------------------------- contracts and their fulfilments

  function FulfilledFor(fulfilments: seq<Fulfilment>, id: Id): int {
    if fulfilments == [] then 0
    else FulfilledFor(fulfilments[..|fulfilments| - 1], id)
         + (if fulfilments[|fulfilments| - 1].contract == id then fulfilments[|fulfilments| - 1].quantity else 0)
  }

  // A recorded delivery is by the contract's seller, at its price, before it expired.
  predicate FulfilmentOk(f: Fulfilment, contracts: map<Id, Contract>) {
    && f.contract in contracts && f.quantity > 0
    && contracts[f.contract].seller == Some(f.seller)
    && f.price == contracts[f.contract].price && f.item == contracts[f.contract].item
    && f.tick < contracts[f.contract].expires
  }

  // What a contract has left plus what was delivered on it is what it was for.
  ghost predicate ContractsBacked(w: World) {
    && (forall id :: id in w.contracts ==>
          w.contracts[id].remaining + FulfilledFor(w.fulfilments, id) == w.contracts[id].quantity)
    && (forall id :: id in w.contracts && w.contracts[id].status.Offered? ==> w.contracts[id].seller.None?)
    && (forall i :: 0 <= i < |w.fulfilments| ==> FulfilmentOk(w.fulfilments[i], w.contracts))
  }

  lemma FulfilledAppend(fulfilments: seq<Fulfilment>, f: Fulfilment)
    ensures forall id :: FulfilledFor(fulfilments + [f], id)
                      == FulfilledFor(fulfilments, id) + (if f.contract == id then f.quantity else 0)
  {
    assert (fulfilments + [f])[..|fulfilments|] == fulfilments;
  }

  lemma {:induction false} NoneFulfilled(fulfilments: seq<Fulfilment>, contracts: map<Id, Contract>, id: Id)
    requires id !in contracts && forall i :: 0 <= i < |fulfilments| ==> FulfilmentOk(fulfilments[i], contracts)
    ensures FulfilledFor(fulfilments, id) == 0
  {
    if fulfilments != [] {
      NoneFulfilled(fulfilments[..|fulfilments| - 1], contracts, id);
    }
  }
}
