/** No checked arrival ever takes a store above the larger of what it held and what it may hold. */
module StorageTheory {
  import opened Rows
  import opened Sums
  import opened Storage
  import opened Matching
  import opened Market
  import opened Production
  import opened ProductionBooks
  import opened Accounting
  import opened MarketBooks
  import opened MatchingRun
  import opened Health
  import opened Steps
  import opened Stages
  import Logistics
  import DemandSink

  ghost function Held(stock: map<RowKey, Stock>, company: Id, region: Id): int { Sum(stock, StoredIn(company, region)) }

  // The bound that replaces a capacity invariant: a store may be over its limit, but not pushed further over it.
  ghost predicate Within(w: World, next: World) {
    && next.buildings == w.buildings
    && forall c, r :: Stored(next, c, r) <= Max(Stored(w, c, r), Capacity(w, c, r))
  }

  lemma WithinSelf(w: World)
    ensures Within(w, w)
  {
  }

  lemma WithinComposes(w: World, mid: World, next: World)
    requires Within(w, mid) && Within(mid, next)
    ensures Within(w, next)
  {
    forall c, r ensures Stored(next, c, r) <= Max(Stored(w, c, r), Capacity(w, c, r)) {
      assert Stored(next, c, r) <= Max(Stored(mid, c, r), Capacity(mid, c, r));
    }
  }

  lemma HeldPut(stock: map<RowKey, Stock>, key: RowKey, s: Stock, c: Id, r: Id)
    ensures Held(stock[key := s], c, r)
         == Held(stock, c, r) + (if key.company == c && key.region == r
                                 then s.quantity - (if key in stock then stock[key].quantity else 0) else 0)
  {
    SumPut(stock, StoredIn(c, r), key, s);
  }

  lemma HeldCredit(stock: map<RowKey, Stock>, key: RowKey, quantity: int, c: Id, r: Id)
    ensures Held(Credit(stock, key, quantity), c, r)
         == Held(stock, c, r) + (if key.company == c && key.region == r then quantity else 0)
  {
    HeldPut(stock, key, Credit(stock, key, quantity)[key], c, r);
  }

  lemma HeldSame(stock: map<RowKey, Stock>, stock': map<RowKey, Stock>, c: Id, r: Id)
    requires stock.Keys == stock'.Keys && forall k :: k in stock ==> stock'[k].quantity == stock[k].quantity
    ensures Held(stock', c, r) == Held(stock, c, r)
  {
    SumCongruent(stock, StoredIn(c, r), stock', StoredIn(c, r));
  }

  lemma {:induction false} HeldConsumed(stock: map<RowKey, Stock>, company: Id, region: Id, reqs: seq<Ingredient>,
      c: Id, r: Id)
    requires RowsPresent(stock, company, region, reqs)
    ensures Held(UseInputs(Consume, stock, company, region, reqs), c, r)
         == Held(stock, c, r) - (if company == c && region == r then TotalNeeded(reqs) else 0)
    decreases |reqs|
  {
    if reqs != [] {
      var key := RowKey(company, reqs[0].item, region);
      var next := stock[key := Used(Consume, stock[key], reqs[0].quantity)];
      HeldPut(stock, key, Used(Consume, stock[key], reqs[0].quantity), c, r);
      forall k | 0 <= k < |reqs[1..]| ensures RowKey(company, reqs[1..][k].item, region) in next {
        assert reqs[1..][k] == reqs[k + 1];
      }
      HeldConsumed(next, company, region, reqs[1..], c, r);
    }
  }

  lemma CompleteJobWithin(w: World, id: Id, tick: int)
    requires Books(w) && CompleteJob(w, id, tick).Done?
    ensures Within(w, CompleteJob(w, id, tick).world)
  {
    var next := CompleteJob(w, id, tick).world;
    if id !in w.jobs || !w.jobs[id].status.InProgress? || tick < w.jobs[id].due {
      WithinSelf(w);
    } else {
      var job := w.jobs[id];
      JobReservationsHold(w, id, Consume);
      CompleteJobKeepsBooks(w, id, tick);
      CompletedStock(w, id, tick);
      forall c, r ensures Stored(next, c, r) <= Max(Stored(w, c, r), Capacity(w, c, r)) {
        HeldConsumed(w.stock, job.company, job.region, JobNeeds(job), c, r);
        HeldCredit(UseInputs(Consume, w.stock, job.company, job.region, JobNeeds(job)), OutputKey(job),
                   job.recipe.outputQuantity * job.runs, c, r);
      }
    }
  }

  lemma CompletedStock(w: World, id: Id, tick: int)
    requires Books(w) && CompleteJob(w, id, tick).Done?
    requires id in w.jobs && w.jobs[id].status.InProgress? && w.jobs[id].due <= tick
    ensures forall k :: 0 <= k < |w.jobs[id].recipe.inputs| ==>
              RowKey(w.jobs[id].company, w.jobs[id].recipe.inputs[k].item, w.jobs[id].region) in w.stock
    ensures CompleteJob(w, id, tick).world.stock == StockAfterJob(w.stock, w.jobs[id])
    ensures CompleteJob(w, id, tick).world.buildings == w.buildings
  {
    var job := w.jobs[id];
    JobReservationsHold(w, id, Consume);
    forall k | 0 <= k < |job.recipe.inputs|
      ensures RowKey(job.company, job.recipe.inputs[k].item, job.region) in w.stock
    {
      assert JobNeeds(job)[k].item == job.recipe.inputs[k].item;
    }
  }

  lemma SettledHeld(w: World, m: Match, tick: int, c: Id, r: Id)
    requires Books(w) && Settles(w, m)
    ensures KeyOf(w.orders[m.sellOrder]) in w.stock
    ensures Stored(Settled(w, m, tick), c, r) == Stored(w, c, r)
              + (if w.orders[m.buyOrder].company == c && w.orders[m.buyOrder].region == r then m.quantity else 0)
              - (if w.orders[m.sellOrder].company == c && w.orders[m.sellOrder].region == r then m.quantity else 0)
  {
    var buy, sell := w.orders[m.buyOrder], w.orders[m.sellOrder];
    SettlementFacts(w, m, tick);
    var s := w.stock[KeyOf(sell)];
    var left := Stock(s.quantity - m.quantity, s.reserved - m.quantity);
    HeldPut(w.stock, KeyOf(sell), left, c, r);
    HeldCredit(w.stock[KeyOf(sell) := left], KeyOf(buy), m.quantity, c, r);
  }

  lemma SettleMatchWithin(w: World, m: Match, tick: int)
    requires Books(w) && Settles(w, m) && SettleMatch(w, m, tick).Done?
    ensures Within(w, SettleMatch(w, m, tick).world)
  {
    SettleMatchKeepsBooks(w, m, tick);
    var next := SettleMatch(w, m, tick).world;
    forall c, r ensures Stored(next, c, r) <= Max(Stored(w, c, r), Capacity(w, c, r)) {
      SettledHeld(w, m, tick, c, r);
    }
  }

  lemma DeliverOneWithin(w: World, id: Id, tick: int)
    ensures Within(w, Logistics.DeliverOne(w, id, tick))
  {
    if Logistics.Due(w, id, tick) && !Logistics.ArrivalOf(w, w.shipments[id]).StillInTransit? {
      var s := w.shipments[id];
      var next := Logistics.DeliverOne(w, id, tick);
      forall c, r ensures Stored(next, c, r) <= Max(Stored(w, c, r), Capacity(w, c, r)) {
        HeldCredit(w.stock, Logistics.ArrivalKey(s, Logistics.ArrivalRegion(w, s)), s.quantity, c, r);
      }
    } else {
      WithinSelf(w);
    }
  }

  lemma TakeRowWithin(w: World, key: RowKey, demand: int)
    ensures Within(w, DemandSink.TakeRow(w, key, demand))
  {
    if key in w.stock && DemandSink.TakenFrom(w, key, demand) > 0 {
      var next := DemandSink.TakeRow(w, key, demand);
      forall c, r ensures Stored(next, c, r) <= Max(Stored(w, c, r), Capacity(w, c, r)) {
        HeldPut(w.stock, key, next.stock[key], c, r);
      }
    } else {
      WithinSelf(w);
    }
  }

  // ---------------------------------------------------------------- whole stages

  lemma {:induction false} CompleteJobsWithin(w: World, due: seq<Id>, tick: int)
    requires Sound(w) && CompleteJobs(w, due, tick).Done?
    ensures Within(w, CompleteJobs(w, due, tick).world)
    decreases |due|
  {
    hide Sound, Within;
    Parts(w);
    if due == [] {
      WithinSelf(w);
    } else {
      var mid := CompleteJob(w, due[0], tick).world;
      CompleteJobCarries(w, due[0], tick);
      CompleteJobWithin(w, due[0], tick);
      CompleteJobsWithin(mid, due[1..], tick);
      WithinComposes(w, mid, CompleteJobs(mid, due[1..], tick).world);
    }
  }

  lemma {:induction false} SettleAllWithin(w: World, ms: seq<Match>, tick: int)
    requires Books(w) && Executable(w.orders, ms) && SettleAll(w, ms, tick).Done?
    ensures Within(w, SettleAll(w, ms, tick).world)
    decreases |ms|
  {
    hide Books, Within, Executable, SettleMatch;
    if ms == [] {
      WithinSelf(w);
    } else {
      SettleHead(w, ms, tick);
      HeadSettles(w, ms);
      var mid := SettleMatch(w, ms[0], tick).world;
      SettleMatchWithin(w, ms[0], tick);
      SettleAllWithin(mid, ms[1..], tick);
      WithinComposes(w, mid, SettleAll(mid, ms[1..], tick).world);
    }
  }

  lemma {:induction false} MatchGroupsWithin(
    snapshot: map<Id, Order>, listing: seq<Id>, w: World, done: seq<Group>, groups: seq<Group>, tick: int,
    companies: map<Id, Company>)
    requires Sound(w) && Lists(listing, snapshot) && OrdersOk(snapshot, companies)
    requires DistinctGroups(done + groups) && Stands(snapshot, w.orders, listing, done)
    requires MatchGroups(snapshot, listing, w, groups, tick).Done?
    ensures Within(w, MatchGroups(snapshot, listing, w, groups, tick).world)
    decreases |groups|
  {
    hide Sound, Follows, Stands, Lists, OrdersOk, SettleAll, PlanGroup, Within, Books, Executable, Solvent;
    if groups == [] {
      WithinSelf(w);
    } else {
      var g := groups[0];
      FreshGroup(done, groups);
      Parts(w);
      NextGroupExecutable(snapshot, w.orders, listing, done, g, companies);
      GroupCarries(snapshot, listing, w, done, g, tick, companies);
      var ms := PlanGroup(snapshot, listing, g).matches;
      SettleAllWithin(w, ms, tick);
      var mid := SettleAll(w, ms, tick).world;
      assert done + groups == (done + [g]) + groups[1..];
      MatchGroupsWithin(snapshot, listing, mid, done + [g], groups[1..], tick, companies);
      WithinComposes(w, mid, MatchGroups(snapshot, listing, mid, groups[1..], tick).world);
    }
  }

  lemma {:induction false} DeliverAllWithin(w: World, due: seq<Id>, tick: int)
    ensures Within(w, Logistics.DeliverAll(w, due, tick))
    decreases |due|
  {
    hide Within;
    if due == [] {
      WithinSelf(w);
    } else {
      var mid := Logistics.DeliverOne(w, due[0], tick);
      DeliverOneWithin(w, due[0], tick);
      DeliverAllWithin(mid, due[1..], tick);
      WithinComposes(w, mid, Logistics.DeliverAll(mid, due[1..], tick));
    }
  }

  lemma {:induction false} TakeRowsWithin(w: World, company: Id, item: Id, regions: seq<Id>, demand: int)
    ensures Within(w, DemandSink.TakeRows(w, company, item, regions, demand))
    decreases |regions|
  {
    hide Within;
    if regions == [] || demand <= 0 {
      WithinSelf(w);
    } else {
      var key := RowKey(company, item, regions[0]);
      var mid := DemandSink.TakeRow(w, key, demand);
      var left := demand - DemandSink.TakenFrom(w, key, demand);
      TakeRowWithin(w, key, demand);
      TakeRowsWithin(mid, company, item, regions[1..], left);
      WithinComposes(w, mid, DemandSink.TakeRows(mid, company, item, regions[1..], left));
    }
  }

  lemma {:induction false} DrainWithin(w: World, demands: seq<DemandSink.Demand>)
    ensures Within(w, DemandSink.Drain(w, demands))
    decreases |demands|
  {
    hide Within;
    if demands == [] {
      WithinSelf(w);
    } else {
      var d := demands[0];
      var mid := DemandSink.TakeRows(w, d.company, d.item, d.regions, d.quantity);
      TakeRowsWithin(w, d.company, d.item, d.regions, d.quantity);
      DrainWithin(mid, demands[1..]);
      WithinComposes(w, mid, DemandSink.Drain(mid, demands[1..]));
    }
  }
}
