/** Contracts and research, statement by statement on the tables. */
module DealServices {
  import opened Rows
  import opened Sums
  import opened Storage
  import opened Payroll
  import opened Database
  import Contracts
  import Research

  method AcceptContract(tx: Tables, id: Id, seller: Id, tick: int) returns (error: Option<Error>)
    modifies tx
    ensures Result(error, tx.State()) == Contracts.AcceptContract(old(tx.State()), id, seller, tick)
  {
    if tick < 0 { return Some(BadInput); }
    if id !in tx.contracts { return Some(NotFound); }
    var k := tx.contracts[id];
    if !k.status.Offered? || k.expires <= tick { return Some(Refused); }
    if k.buyer !in tx.companies || !Contracts.NpcBuyer(tx.companies[k.buyer]) { return Some(Refused); }
    if k.seller.Some? || seller !in tx.companies { return Some(Conflict); }
    tx.contracts := tx.contracts[id := k.(seller := Some(seller), status := Accepted, accepted := Some(tick))];
    return None;
  }

  // How many rows a conditional update selects.
  method CountRowsLike(tx: Tables, company: Id, item: Id, s: Stock) returns (count: int)
    ensures count == Sum(tx.stock, Contracts.RowsLike(company, item, s))
  {
    var keys := tx.stock.Keys;
    ghost var rest := tx.stock;
    count := 0;
    while keys != {}
      invariant rest.Keys == keys <= tx.stock.Keys && forall k :: k in keys ==> rest[k] == tx.stock[k]
      invariant count + Sum(rest, Contracts.RowsLike(company, item, s)) ==
              Sum(tx.stock, Contracts.RowsLike(company, item, s))
      decreases |keys|
    {
      var key :| key in keys;
      SumWithout(rest, Contracts.RowsLike(company, item, s), key);
      keys, rest := keys - {key}, rest - {key};
      if key.company == company && key.item == item && tx.stock[key] == s { count := count + 1; }
    }
  }

  method FulfilContract(tx: Tables, id: Id, seller: Id, quantity: int, tick: int, locked: bool)
    returns (error: Option<Error>)
    modifies tx
    ensures Result(error, tx.State()) == Contracts.FulfilContract(old(tx.State()), id, seller, quantity, tick, locked)
  {
    hide Contracts.Sold, Sum;
    if quantity <= 0 || tick < 0 { return Some(BadInput); }
    if id !in tx.contracts { return Some(NotFound); }
    var k := tx.contracts[id];
    if !(k.status.Accepted? || k.status.PartlyFulfilled?) || k.seller != Some(seller) { return Some(Refused); }
    if k.expires <= tick || quantity > k.remaining { return Some(Refused); }
    if k.buyer !in tx.companies || !Contracts.NpcBuyer(tx.companies[k.buyer]) { return Some(Refused); }
    if seller !in tx.companies { return Some(NotFound); }
    if locked { return Some(Refused); }
    var row := RowKey(seller, k.item, tx.companies[seller].region);
    if row !in tx.stock { return Some(InsufficientInventory); }
    var s, notional := tx.stock[row], k.price * quantity;
    if s.quantity - s.reserved < quantity { return Some(InsufficientInventory); }
    if tx.companies[k.buyer].cash < notional { return Some(InsufficientFunds); }
    var selected := CountRowsLike(tx, seller, k.item, s);
    if selected != 1 { return Some(Conflict); }
    WriteFulfilment(tx, id, quantity, tick);
    return None;
  }

  // The writes once every check has passed.
  method WriteFulfilment(tx: Tables, id: Id, quantity: int, tick: int)
    requires id in tx.contracts && tx.contracts[id].seller.Some? && tx.contracts[id].buyer in tx.companies
    requires tx.contracts[id].seller.value in tx.companies && Contracts.SellerRow(tx.State(), id) in tx.stock
    modifies tx
    ensures tx.State() == Contracts.Sold(old(tx.State()), id, quantity, tick)
  {
    var k := tx.contracts[id];
    var seller, notional := k.seller.value, k.price * quantity;
    MoveGoods(tx, Contracts.SellerRow(tx.State(), id), Contracts.BuyerRow(tx.State(), id), quantity);
    MoveCash(tx, k.buyer, seller, notional);
    RecordSale(tx, k, id, seller, quantity, tick);
  }

  method MoveGoods(tx: Tables, from: RowKey, to: RowKey, quantity: int)
    requires from in tx.stock
    modifies tx`stock
    ensures tx.stock
         == Credit(old(tx.stock)[from := old(tx.stock)[from].(quantity := old(tx.stock)[from].quantity - quantity)],
                   to, quantity)
  {
    tx.RemoveStock(from, quantity);
    tx.CreditStock(to, quantity);
  }

  // Both balances are read after both cash updates.
  method RecordSale(tx: Tables, k: Contract, id: Id, seller: Id, quantity: int, tick: int)
    requires k.buyer in tx.companies && seller in tx.companies
    modifies tx`fulfilments, tx`contracts, tx`ledger
    ensures tx.fulfilments == old(tx.fulfilments) + [Fulfilment(id, seller, k.item, quantity, k.price, tick)]
    ensures tx.contracts == old(tx.contracts)[id := Contracts.Delivered(k, quantity, tick)]
    ensures tx.ledger == old(tx.ledger) +
              [Entry(k.buyer, tick, ContractSettlement, -(k.price * quantity), 0, tx.companies[k.buyer].cash),
               Entry(seller, tick, ContractSettlement, k.price * quantity, 0, tx.companies[seller].cash)]
  {
    var notional := k.price * quantity;
    tx.fulfilments := tx.fulfilments + [Fulfilment(id, seller, k.item, quantity, k.price, tick)];
    tx.contracts := tx.contracts[id := Contracts.Delivered(k, quantity, tick)];
    tx.AppendEntry(Entry(k.buyer, tick, ContractSettlement, -notional, 0, tx.companies[k.buyer].cash));
    tx.AppendEntry(Entry(seller, tick, ContractSettlement, notional, 0, tx.companies[seller].cash));
  }

  // A decrement and then an increment: on one and the same row they cancel.
  method MoveCash(tx: Tables, buyer: Id, seller: Id, notional: int)
    requires buyer in tx.companies && seller in tx.companies
    modifies tx`companies
    ensures tx.companies == Contracts.CashAfterSale(old(tx.companies), buyer, seller, notional)
  {
    tx.companies := tx.companies[buyer := tx.companies[buyer].(cash := tx.companies[buyer].cash - notional)];
    tx.companies := tx.companies[seller := tx.companies[seller].(cash := tx.companies[seller].cash + notional)];
  }

  method ExpireContracts(tx: Tables, tick: int)
    modifies tx
    ensures tx.State() == Contracts.ExpireContracts(old(tx.State()), tick)
  {
    tx.contracts := map id | id in tx.contracts ::
      if Contracts.Expires(tx.contracts[id], tick) then tx.contracts[id].(status := Expired, closed := Some(tick))
      else tx.contracts[id];
  }

  method RunContractLifecycle(tx: Tables, m: Contracts.Market, ids: seq<Id>, tick: int, g: Contracts.ContractConfig)
    returns (error: Option<Error>)
    modifies tx
    ensures Result(error, tx.State()) == Contracts.RunContractLifecycle(old(tx.State()), m, ids, tick, g)
  {
    hide Contracts.ExpireContracts, Contracts.OfferAt;
    if tick < 0 || g.perTick < 0 || g.ttl <= 0 || g.bandBps < 0 || |ids| < g.perTick { return Some(BadInput); }
    ExpireContracts(tx, tick);
    ghost var expired := tx.State();
    if m.items == [] || m.buyers == [] || g.perTick == 0 { return None; }
    var keys := ids[..g.perTick];
    for sequence := 0 to |keys|
      invariant Contracts.GenerateFrom(tx.State(), m, tick, sequence, keys[sequence..], g)
             == Contracts.GenerateFrom(expired, m, tick, 0, keys, g)
    {
      assert keys[sequence..][0] == keys[sequence] && keys[sequence..][1..] == keys[sequence + 1..];
      var k := Contracts.OfferAt(m, tick, sequence, g);
      if k.buyer in tx.companies && tx.companies[k.buyer].cash >= k.price * k.quantity {
        if keys[sequence] in tx.contracts { return Some(Conflict); }
        tx.contracts := tx.contracts[keys[sequence] := k];
      }
    }
    return None;
  }

  // ---------------------------------------------------------------- research

  method StartResearch(tx: Tables, key: NodeKey, id: Id, tick: int) returns (error: Option<Error>)
    modifies tx
    ensures Result(error, tx.State()) == Research.StartResearch(old(tx.State()), key, id, tick)
  {
    hide Research.HasRunningJob, Research.PrerequisitesMet;
    if tick < 0 { return Some(BadInput); }
    if key.company !in tx.companies { return Some(NotFound); }
    if !Research.Researchable(tx.State(), key.company) { return Some(Refused); }
    if key.node !in tx.catalogue.nodes { return Some(NotFound); }
    var status := Research.StoredStatus(tx.State(), key);
    if status.Completed? { return Some(Refused); }
    if Research.HasRunningJob(tx.researchJobs, key) || status.Researching? { return Some(Refused); }
    if !Research.PrerequisitesMet(tx.State(), key) { return Some(Refused); }
    error := PayForResearch(tx, key, id, tick);
  }

  method PayForResearch(tx: Tables, key: NodeKey, id: Id, tick: int) returns (error: Option<Error>)
    requires key.company in tx.companies && key.node in tx.catalogue.nodes
    modifies tx
    ensures Result(error, tx.State()) == Research.Enrol(old(tx.State()), key, id, tick)
  {
    var c, node := tx.companies[key.company], tx.catalogue.nodes[key.node];
    if c.cash < node.cost { return Some(InsufficientFunds); }
    if id in tx.researchJobs { return Some(Conflict); }
    tx.companies := tx.companies[key.company := c.(cash := c.cash - node.cost)];
    if !ValidWorkforce(c.workforce) { return Some(Inconsistent); }
    if node.duration < 0 { return Some(BadInput); }
    var completes := tick + ApplyDuration(node.duration, ResearchMultiplier(c.workforce));
    RecordStart(tx, key, id, completes, Entry(key.company, tick, ResearchPayment, -node.cost, 0, c.cash - node.cost));
    return None;
  }

  method RecordStart(tx: Tables, key: NodeKey, id: Id, completes: int, e: Entry)
    modifies tx`researchJobs, tx`research, tx`ledger
    ensures tx.researchJobs == old(tx.researchJobs)[id := ResearchJob(key, Running, completes)]
    ensures tx.research == old(tx.research)[key := Researching] && tx.ledger == old(tx.ledger) + [e]
  {
    tx.researchJobs := tx.researchJobs[id := ResearchJob(key, Running, completes)];
    tx.research := tx.research[key := Researching];
    tx.AppendEntry(e);
  }

  method CancelResearch(tx: Tables, key: NodeKey, job: Id, tick: int) returns (error: Option<Error>)
    modifies tx
    ensures Result(error, tx.State()) == Research.CancelResearch(old(tx.State()), key, job, tick)
  {
    if tick < 0 { return Some(BadInput); }
    if key.company !in tx.companies { return Some(NotFound); }
    if !Research.Researchable(tx.State(), key.company) { return Some(Refused); }
    if !Research.IsRunning(tx.researchJobs, job, key) { return Some(Refused); }
    tx.researchJobs := tx.researchJobs[job := tx.researchJobs[job].(status := ResearchCancelled)];
    var open := Research.PrerequisitesMet(tx.State(), key);
    tx.research := tx.research[key := if open then Available else Locked];
    return None;
  }

  method CompleteDueResearchJobs(tx: Tables, due: seq<Id>, tick: int) returns (error: Option<Error>)
    modifies tx
    ensures Result(error, tx.State()) == Research.CompleteResearch(old(tx.State()), due, tick)
  {
    if tick < 0 { return Some(BadInput); }
    for i := 0 to |due|
      invariant Research.CompleteEach(tx.State(), due[i..], tick) == Research.CompleteEach(old(tx.State()), due, tick)
    {
      assert due[i..][0] == due[i] && due[i..][1..] == due[i + 1..];
      var id := due[i];
      if id in tx.researchJobs && tx.researchJobs[id].status.Running? && tx.researchJobs[id].completes <= tick {
        var job := tx.researchJobs[id];
        tx.researchJobs := tx.researchJobs[id := job.(status := ResearchDone)];
        tx.research := tx.research[job.key := Completed];
        tx.unlocked := tx.unlocked + Research.Unlocks(tx.catalogue, job.key);
      }
    }
    return None;
  }
}
