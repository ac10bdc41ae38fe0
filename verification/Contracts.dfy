/** Supply contracts: generated, accepted, fulfilled in parts, expired. */
module Contracts {
  import opened Rows
  import opened Sums
  import opened Storage

  // BigInt division truncates toward zero; Dafny's rounds a negative quotient down.
  function Truncate(numerator: int, denominator: int): (q: int)
    requires denominator > 0
    ensures numerator >= 0 ==> q * denominator <= numerator < (q + 1) * denominator
    ensures numerator <= 0 ==> (q - 1) * denominator < numerator <= q * denominator
  {
    if numerator >= 0 then numerator / denominator else -((-numerator) / denominator)
  }

  // resolveContractUnitPriceCents, given the base price it looked up
  function UnitPrice(base: int, bandBps: int, tick: int, sequence: int): int {
    if base <= 0 then 1
    else
      var direction := if (tick + sequence) % 2 == 0 then 1 else -1;
      var price := base + Truncate(base * bandBps * direction, 10000);
      if price > 0 then price else 1
  }

  // The price stays within its band of the base price, rounded toward the base, and is never below one cent.
  lemma UnitPriceInBand(base: int, bandBps: nat, tick: int, sequence: int)
    ensures UnitPrice(base, bandBps, tick, sequence) >= 1
    ensures base > 0 && bandBps < 10000 ==>
              -(base * bandBps) <= (UnitPrice(base, bandBps, tick, sequence) - base) * 10000 <= base * bandBps
    ensures base > 0 && bandBps < 10000 ==>
              if (tick + sequence) % 2 == 0 then UnitPrice(base, bandBps, tick, sequence) >= base
              else UnitPrice(base, bandBps, tick, sequence) <= base
  {
    if base > 0 && bandBps < 10000 {
      var direction := if (tick + sequence) % 2 == 0 then 1 else -1;
      assert base * bandBps >= 0;
      assert base * bandBps < base * 10000;
      var q := Truncate(base * bandBps * direction, 10000);
      assert q * 10000 > -(base * 10000);
    }
  }

  // Exactly: the base price moved by the band's share of it, rounded down, up on even turns and down on odd ones, and
  // one cent at the least.
  lemma UnitPriceExact(base: int, bandBps: nat, tick: int, sequence: int)
    ensures base <= 0 ==> UnitPrice(base, bandBps, tick, sequence) == 1
    ensures base > 0 && (tick + sequence) % 2 == 0 ==>
              UnitPrice(base, bandBps, tick, sequence) == base + base * bandBps / 10000
    ensures base > 0 && (tick + sequence) % 2 != 0 ==>
              UnitPrice(base, bandBps, tick, sequence) == Max(1, base - base * bandBps / 10000)
  {
    if base > 0 {
      assert base * bandBps >= 0;
      assert base * bandBps * 1 == base * bandBps && base * bandBps * -1 == -(base * bandBps);
    }
  }

  predicate NpcBuyer(c: Company) { !c.isPlayer && !c.owned }

  function AcceptContract(w: World, id: Id, seller: Id, tick: int): Outcome {
    if tick < 0 then Thrown(BadInput, w)
    else if id !in w.contracts then Thrown(NotFound, w)
    else
      var k := w.contracts[id];
      if !k.status.Offered? || k.expires <= tick then Thrown(Refused, w)
      else if k.buyer !in w.companies || !NpcBuyer(w.companies[k.buyer]) then Thrown(Refused, w)
      // The conditional update also requires that no seller is set; the seller key must exist.
      else if k.seller.Some? || seller !in w.companies then Thrown(Conflict, w)
      else
        Done(w.(contracts :=
          w.contracts[id := k.(seller := Some(seller), status := Accepted, accepted := Some(tick))]))
  }

  // The rows the conditional stock update of a fulfilment selects: it names no region.
  function RowsLike(company: Id, item: Id, s: Stock): (RowKey, Stock) -> int {
    (k: RowKey, t: Stock) => if k.company == company && k.item == item && t == s then 1 else 0
  }

  function CashAfterSale(companies: map<Id, Company>, buyer: Id, seller: Id, notional: int): map<Id, Company>
    requires buyer in companies && seller in companies
  {
    var paid := companies[buyer := companies[buyer].(cash := companies[buyer].cash - notional)];
    paid[seller := paid[seller].(cash := paid[seller].cash + notional)]
  }

  function Delivered(k: Contract, quantity: int, tick: int): Contract {
    var left := k.remaining - quantity;
    k.(remaining := left,
       status := if left == 0 then Fulfilled else PartlyFulfilled,
       closed := if left == 0 then Some(tick) else None)
  }

  // `locked` is the outcome of the specialization check on a player seller.
  ghost function FulfilContract(w: World, id: Id, seller: Id, quantity: int, tick: int, locked: bool): Outcome {
    if quantity <= 0 || tick < 0 then Thrown(BadInput, w)
    else if id !in w.contracts then Thrown(NotFound, w)
    else
      var k := w.contracts[id];
      if !(k.status.Accepted? || k.status.PartlyFulfilled?) || k.seller != Some(seller) then Thrown(Refused, w)
      else if k.expires <= tick || quantity > k.remaining then Thrown(Refused, w)
      else if k.buyer !in w.companies || !NpcBuyer(w.companies[k.buyer]) then Thrown(Refused, w)
      else if seller !in w.companies then Thrown(NotFound, w)
      else if locked then Thrown(Refused, w)
      else
        var row := RowKey(seller, k.item, w.companies[seller].region);
        if row !in w.stock then Thrown(InsufficientInventory, w)
        else
          var s, notional := w.stock[row], k.price * quantity;
          if s.quantity - s.reserved < quantity then Thrown(InsufficientInventory, w)
          // The guard reads the buyer's total cash, reserved or not.
          else if w.companies[k.buyer].cash < notional then Thrown(InsufficientFunds, w)
          else if Sum(w.stock, RowsLike(seller, k.item, s)) != 1 then Thrown(Conflict, w)
          else Done(Sold(w, id, quantity, tick))
  }

  function Sold(w: World, id: Id, quantity: int, tick: int): World
    requires id in w.contracts && w.contracts[id].seller.Some? && w.contracts[id].buyer in w.companies
    requires w.contracts[id].seller.value in w.companies
    requires SellerRow(w, id) in w.stock
  {
    var k := w.contracts[id];
    var seller, notional := k.seller.value, k.price * quantity;
    var companies := CashAfterSale(w.companies, k.buyer, seller, notional);
    var row := SellerRow(w, id);
    w.(stock := Credit(w.stock[row := w.stock[row].(quantity := w.stock[row].quantity - quantity)],
                       BuyerRow(w, id), quantity),
       companies := companies,
       fulfilments := w.fulfilments + [Fulfilment(id, seller, k.item, quantity, k.price, tick)],
       contracts := w.contracts[id := Delivered(k, quantity, tick)],
       // Both balances are read after both updates.
       ledger := w.ledger +
         [Entry(k.buyer, tick, ContractSettlement, -notional, 0, companies[k.buyer].cash),
          Entry(seller, tick, ContractSettlement, notional, 0, companies[seller].cash)])
  }

  function SellerRow(w: World, id: Id): RowKey
    requires id in w.contracts && w.contracts[id].seller.Some? && w.contracts[id].seller.value in w.companies
  {
    var k := w.contracts[id];
    RowKey(k.seller.value, k.item, w.companies[k.seller.value].region)
  }

  function BuyerRow(w: World, id: Id): RowKey
    requires id in w.contracts && w.contracts[id].buyer in w.companies
  {
    var k := w.contracts[id];
    RowKey(k.buyer, k.item, w.companies[k.buyer].region)
  }

  predicate Expires(k: Contract, tick: int) {
    !k.status.Fulfilled? && !k.status.Expired? && k.expires <= tick
  }

  // One conditional update over the whole table.
  function ExpireContracts(w: World, tick: int): World {
    w.(contracts := map id | id in w.contracts ::
         if Expires(w.contracts[id], tick) then w.contracts[id].(status := Expired, closed := Some(tick))
         else w.contracts[id])
  }

  datatype ContractConfig = ContractConfig(perTick: int, ttl: int, bandBps: int)

  // The items and non-player companies the generator cycles through, and the looked-up base price and quantity
  // of each item.
  datatype Market = Market(items: seq<Id>, buyers: seq<Id>, basePrice: map<Id, int>, baseQuantity: map<Id, nat>)

  function Lookup<T>(m: map<Id, T>, id: Id, default: T): T { if id in m then m[id] else default }

  function OfferAt(m: Market, tick: nat, sequence: nat, g: ContractConfig): Contract
    requires m.items != [] && m.buyers != []
  {
    var item := m.items[(tick + sequence) % |m.items|];
    var buyer := m.buyers[(tick + sequence * 3) % |m.buyers|];
    var quantity := Lookup(m.baseQuantity, item, 5) + (tick + sequence) % 3;
    Contract(buyer, None, item, quantity, quantity,
             UnitPrice(Lookup(m.basePrice, item, 100), g.bandBps, tick, sequence),
             Offered, tick, tick + g.ttl, None, None)
  }

  // The loop of generateContractsForTick: an offer its buyer could not pay for is skipped.
  function GenerateFrom(w: World, m: Market, tick: nat, sequence: nat, ids: seq<Id>, g: ContractConfig): Outcome
    requires m.items != [] && m.buyers != []
    decreases |ids|
  {
    if ids == [] then Done(w)
    else
      var k := OfferAt(m, tick, sequence, g);
      if k.buyer !in w.companies || w.companies[k.buyer].cash < k.price * k.quantity then
        GenerateFrom(w, m, tick, sequence + 1, ids[1..], g)
      else if ids[0] in w.contracts then Thrown(Conflict, w)
      else GenerateFrom(w.(contracts := w.contracts[ids[0] := k]), m, tick, sequence + 1, ids[1..], g)
  }

  // `ids` are the keys the loop's iterations would use, one per iteration.
  function RunContractLifecycle(w: World, m: Market, ids: seq<Id>, tick: int, g: ContractConfig): Outcome {
    if tick < 0 || g.perTick < 0 || g.ttl <= 0 || g.bandBps < 0 || |ids| < g.perTick then Thrown(BadInput, w)
    else
      var expired := ExpireContracts(w, tick);
      if m.items == [] || m.buyers == [] || g.perTick == 0 then Done(expired)
      else GenerateFrom(expired, m, tick, 0, ids[..g.perTick], g)
  }
}
