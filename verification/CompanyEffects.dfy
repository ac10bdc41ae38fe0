/** What research, staff, buildings and contracts do, in the figures of the rows they touch. */
module CompanyEffects {
  import opened Rows
  import opened Sums
  import opened Payroll
  import opened Accounting
  import opened Effects
  import Estate
  import Contracts
  import Research

  // Only this company's cash changes, by this much, and one entry says so.
  ghost predicate Pays(w: World, next: World, company: Id, amount: int, kind: EntryKind, tick: int) {
    && company in w.companies
    && (forall c :: CashOf(next, c) == CashOf(w, c) - (if c == company then amount else 0))
    && (forall c :: ReservedOf(next, c) == ReservedOf(w, c))
    && next.ledger == w.ledger + [Entry(company, tick, kind, -amount, 0, w.companies[company].cash - amount)]
  }

  // ---------------------------------------------------------------- research

  // Starting a node costs what the catalogue asks, marks it RESEARCHING and opens one job, which runs for the node's
  // duration, shortened by the research staff and rounded up.
  lemma StartedResearch(w: World, key: NodeKey, id: Id, tick: int)
    requires Research.StartResearch(w, key, id, tick).Done?
    ensures id !in w.researchJobs && key.node in w.catalogue.nodes && key.company in w.companies
    ensures var next := Research.StartResearch(w, key, id, tick).world;
            var node, f := w.catalogue.nodes[key.node], w.companies[key.company].workforce;
            && Pays(w, next, key.company, node.cost, ResearchPayment, tick)
            && next.research == w.research[key := Researching]
            && id in next.researchJobs && next.researchJobs - {id} == w.researchJobs
            && next.researchJobs[id].key == key && next.researchJobs[id].status.Running?
            && Shortened(next.researchJobs[id].completes - tick, node.duration, BonusOf(f.research, f, 1500))
  {
    hide Research.HasRunningJob, Research.PrerequisitesMet;
    var next := Research.StartResearch(w, key, id, tick).world;
    assert next.researchJobs - {id} == w.researchJobs;
  }

  // A job that has run its time completes its node and unlocks the node's recipes for its company, and nothing else.
  lemma CompletedResearch(w: World, id: Id, tick: int)
    requires id in w.researchJobs && w.researchJobs[id].status.Running? && w.researchJobs[id].completes <= tick
    ensures var next, key := Research.CompleteOne(w, id, tick), w.researchJobs[id].key;
            && next.research == w.research[key := Completed]
            && next.researchJobs == w.researchJobs[id := w.researchJobs[id].(status := ResearchDone)]
            && (forall c, recipe :: (c, recipe) in next.unlocked <==>
                  (c, recipe) in w.unlocked
                  || (c == key.company && key.node in w.catalogue.nodes
                      && recipe in w.catalogue.nodes[key.node].unlocks))
  {
  }

  // ---------------------------------------------------------------- staff

  // An accepted allocation is the one asked for; capacity, efficiency and everything else stay.
  lemma AllocatedStaff(w: World, company: Id, f: Workforce)
    requires SetAllocation(w, company, f.operations, f.research, f.logistics, f.corporate).Done?
    ensures company in w.companies
    ensures var next := SetAllocation(w, company, f.operations, f.research, f.logistics, f.corporate).world;
            && company in next.companies && next.companies - {company} == w.companies - {company}
            && next == w.(companies := next.companies)
            && next.companies[company] == w.companies[company].(workforce := next.companies[company].workforce)
            && next.companies[company].workforce.operations == f.operations
            && next.companies[company].workforce.research == f.research
            && next.companies[company].workforce.logistics == f.logistics
            && next.companies[company].workforce.corporate == f.corporate
            && next.companies[company].workforce.capacity == w.companies[company].workforce.capacity
            && next.companies[company].workforce.efficiency == w.companies[company].workforce.efficiency
  {
    var next := SetAllocation(w, company, f.operations, f.research, f.logistics, f.corporate).world;
    assert next.companies - {company} == w.companies - {company};
  }

  // Hiring pays the recruitment cost of each head and books their arrival after the hiring delay.
  lemma HiredStaff(w: World, company: Id, heads: int, id: Id, now: int, g: Config)
    requires heads > 0 && RequestCapacity(w, company, heads, id, now, g).Done?
    ensures var next := RequestCapacity(w, company, heads, id, now, g).world;
            && Pays(w, next, company, heads * g.recruitmentCost, Recruitment, now)
            && id !in w.hirings && next.hirings == w.hirings[id := Hiring(company, heads, now + g.hiringDelay, None)]
            && forall c :: c in w.companies ==>
                 c in next.companies && next.companies[c].workforce == w.companies[c].workforce
  {
    assert RequestCapacity(w, company, heads, id, now, g) == Hire(w, company, heads, id, now, g);
    hide RequestCapacity;
  }

  // Heads laid off leave at once, and efficiency falls by the penalty, to zero at the least.
  lemma LaidOffStaff(w: World, company: Id, heads: int, id: Id, now: int, g: Config)
    requires heads > 0 && RequestCapacity(w, company, -heads, id, now, g).Done?
    ensures company in w.companies
    ensures var next, f := RequestCapacity(w, company, -heads, id, now, g).world, w.companies[company].workforce;
            && next == w.(companies := next.companies) && next.companies - {company} == w.companies - {company}
            && company in next.companies
            && next.companies[company] == w.companies[company].(workforce :=
                 f.(capacity := f.capacity - heads, efficiency := Max(0, f.efficiency - g.layoffPenalty)))
  {
    var next := RequestCapacity(w, company, -heads, id, now, g).world;
    assert RequestCapacity(w, company, -heads, id, now, g) == LayOff(w, company, heads, g);
    assert ValidWorkforce(w.companies[company].workforce) && ValidConfig(g);
    hide RequestCapacity;
    assert next.companies - {company} == w.companies - {company};
  }

  // What a company owes its staff for a tick: heads times base salary, by its region's modifier in basis points.
  function Owed(w: World, c: Company, g: Config): int {
    c.workforce.capacity * g.baseSalary
      * (if c.region in w.catalogue.salaryModifier then w.catalogue.salaryModifier[c.region] else 10000) / 10000
  }

  // It pays that, or what unreserved cash there is.
  function PaidOut(w: World, c: Company, g: Config): int {
    Min(Owed(w, c, g), Max(0, c.cash - c.reserved))
  }

  lemma PaidSalary(w: World, company: Id, tick: int, g: Config)
    requires company in w.companies && PaySalary(w, company, tick, g).Done?
    ensures Pays(w, PaySalary(w, company, tick, g).world, company, PaidOut(w, w.companies[company], g), Salary, tick)
    ensures PaySalary(w, company, tick, g).world.companies.Keys == w.companies.Keys
  {
  }

  // The heads that arrived at a company in the ticks of the shock window.
  function ArrivedIn(company: Id, from: int, tick: int): (Id, Hiring) -> int {
    (id: Id, h: Hiring) =>
      if h.company == company && h.amount > 0 && h.applied.Some? && from <= h.applied.value && h.applied.value <= tick
      then h.amount else 0
  }

  // A company's row once its staff is paid. Efficiency, in basis points, goes down by the shock of recent arrivals, by
  // a low corporate share and by an unpaid salary, up by the corporate share's recovery, and stays in 0 to 10000.
  ghost function RowAfterPay(w: World, company: Id, tick: int, g: Config): Company
    requires company in w.companies
  {
    var c := w.companies[company];
    var shock := Sum(w.hirings, ArrivedIn(company, Max(0, tick - g.shockDuration + 1), tick)) * g.shockPerHead;
    var low := if c.workforce.corporate < g.lowCorporateThreshold then g.lowCorporatePenalty else 0;
    var unpaid := if PaidOut(w, c, g) < Owed(w, c, g) then g.shortfallPenalty else 0;
    var efficiency := c.workforce.efficiency - shock - low - unpaid + c.workforce.corporate * g.recoveryAt100 / 100;
    c.(cash := c.cash - PaidOut(w, c, g), workforce := c.workforce.(efficiency := Max(0, Min(10000, efficiency))))
  }

  lemma MovedEfficiency(w: World, company: Id, tick: int, g: Config)
    requires company in w.companies && PaySalary(w, company, tick, g).Done?
    ensures PaySalary(w, company, tick, g).world.companies[company] == RowAfterPay(w, company, tick, g)
  {
    var from := Max(0, tick - g.shockDuration + 1);
    SumCongruent(w.hirings, RecentlyHired(company, from, tick), w.hirings, ArrivedIn(company, from, tick));
  }

  // ---------------------------------------------------------------- buildings

  // A building is paid at its price and stands active in its company's name, charged up to now.
  lemma AcquiredBuilding(w: World, r: Estate.BuildingRequest, id: Id, tick: int)
    requires Estate.Acquire(w, r, id, tick).Done?
    ensures var next := Estate.Acquire(w, r, id, tick).world;
            && Pays(w, next, r.company, r.cost, BuildingAcquisition, tick)
            && id !in w.buildings && id in next.buildings && next.buildings - {id} == w.buildings
            && next.buildings[id].company == r.company && next.buildings[id].region == r.region
            && next.buildings[id].kind == r.kind && next.buildings[id].active
            && next.buildings[id].weeklyCost == r.weeklyCost && next.buildings[id].lastCharged == Some(tick)
  {
    assert Estate.Acquire(w, r, id, tick).world.buildings - {id} == w.buildings;
  }

  // A building is charged its weekly cost every seven ticks while it is active, or shut down at no cost where
  // unreserved cash falls short of it.
  lemma ChargedBuilding(w: World, id: Id, tick: int)
    requires id in w.buildings && w.buildings[id].company in w.companies && Estate.ChargeBuilding(w, id, tick).Done?
    ensures var next, b := Estate.ChargeBuilding(w, id, tick).world, w.buildings[id];
            var c := w.companies[b.company];
            if !b.active || (b.lastCharged.Some? && tick - b.lastCharged.value < 7) then next == w
            else if c.cash - c.reserved >= b.weeklyCost then
              && Pays(w, next, b.company, b.weeklyCost, BuildingOperatingCost, tick)
              && next.buildings == w.buildings[id := b.(lastCharged := Some(tick))]
            else next == w.(buildings := w.buildings[id := b.(active := false, lastCharged := Some(tick))])
  {
  }

  // ---------------------------------------------------------------- contracts

  lemma AcceptedContract(w: World, id: Id, seller: Id, tick: int)
    requires Contracts.AcceptContract(w, id, seller, tick).Done?
    ensures id in w.contracts
    ensures var next, k := Contracts.AcceptContract(w, id, seller, tick).world, w.contracts[id];
            && next == w.(contracts := w.contracts[id := next.contracts[id]])
            && next.contracts[id] == k.(seller := Some(seller), status := Accepted, accepted := Some(tick))
  {
  }

  // A fulfilment takes the units from the seller's own row into the buyer's, pays price times quantity, and closes the
  // contract as fulfilled exactly when nothing remains of it.
  lemma FulfilledContract(w: World, id: Id, seller: Id, quantity: int, tick: int, locked: bool)
    requires Contracts.FulfilContract(w, id, seller, quantity, tick, locked).Done?
    ensures id in w.contracts && seller in w.companies && w.contracts[id].buyer in w.companies
    ensures var next, k := Contracts.FulfilContract(w, id, seller, quantity, tick, locked).world, w.contracts[id];
            var from := RowKey(seller, k.item, w.companies[seller].region);
            var to := RowKey(k.buyer, k.item, w.companies[k.buyer].region);
            && (forall x :: HeldAt(next, x) == HeldAt(w, x) + (if x == to then quantity else 0)
                                                            - (if x == from then quantity else 0))
            && (forall x :: ReservedAt(next.stock, x) == ReservedAt(w.stock, x))
            && (forall c :: CashOf(next, c) == CashOf(w, c) + (if c == seller then k.price * quantity else 0)
                                                            - (if c == k.buyer then k.price * quantity else 0))
            && (forall c :: ReservedOf(next, c) == ReservedOf(w, c))
            && next.contracts - {id} == w.contracts - {id} && id in next.contracts
            && next.contracts[id].remaining == k.remaining - quantity
            && (next.contracts[id].remaining == 0 ==>
                  next.contracts[id].status.Fulfilled? && next.contracts[id].closed == Some(tick))
            && (next.contracts[id].remaining != 0 ==>
                  next.contracts[id].status.PartlyFulfilled? && next.contracts[id].closed.None?)
            && next.fulfilments == w.fulfilments + [Fulfilment(id, seller, k.item, quantity, k.price, tick)]
  {
    FulfilledAs(w, id, seller, quantity, tick, locked);
    hide Contracts.FulfilContract;
    var next := Contracts.FulfilContract(w, id, seller, quantity, tick, locked).world;
    assert next.contracts - {id} == w.contracts - {id};
  }

  lemma FulfilledAs(w: World, id: Id, seller: Id, quantity: int, tick: int, locked: bool)
    requires Contracts.FulfilContract(w, id, seller, quantity, tick, locked).Done?
    ensures id in w.contracts && w.contracts[id].seller == Some(seller) && w.contracts[id].buyer in w.companies
    ensures seller in w.companies && Contracts.SellerRow(w, id) in w.stock
    ensures Contracts.FulfilContract(w, id, seller, quantity, tick, locked).world
         == Contracts.Sold(w, id, quantity, tick)
  {
  }

  // A contract that was offered, accepted or partly fulfilled and whose expiry tick has come is closed as expired;
  // every other row is left alone.
  lemma ExpiredContracts(w: World, tick: int)
    ensures var next := Contracts.ExpireContracts(w, tick);
            && next == w.(contracts := next.contracts) && next.contracts.Keys == w.contracts.Keys
            && forall id :: id in w.contracts ==>
                 var k := w.contracts[id];
                 next.contracts[id] == if k.expires <= tick
                                          && (k.status.Offered? || k.status.Accepted? || k.status.PartlyFulfilled?)
                                       then k.(status := Expired, closed := Some(tick)) else k
  {
  }

  predicate AllDifferent(ids: seq<Id>) { forall i, j :: 0 <= i < j < |ids| ==> ids[i] != ids[j] }

  // The offer of turn `turn` of a tick: item and buyer go round their lists, the buyer three times as fast, and the
  // quantity goes round three above its base.
  function OfferOf(m: Contracts.Market, tick: nat, turn: nat, g: Contracts.ContractConfig): Contract
    requires m.items != [] && m.buyers != []
  {
    var item, buyer := m.items[(tick + turn) % |m.items|], m.buyers[(tick + 3 * turn) % |m.buyers|];
    var quantity := (if item in m.baseQuantity then m.baseQuantity[item] else 5) + (tick + turn) % 3;
    var base := if item in m.basePrice then m.basePrice[item] else 100;
    Contract(buyer, None, item, quantity, quantity, Contracts.UnitPrice(base, g.bandBps, tick, turn),
             Offered, tick, tick + g.ttl, None, None)
  }

  predicate Affordable(w: World, k: Contract) {
    k.buyer in w.companies && k.price * k.quantity <= w.companies[k.buyer].cash
  }

  // What a turn leaves at its key: the offer, on a fresh key, or what was there.
  predicate TurnDone(w: World, contracts: map<Id, Contract>, id: Id, k: Contract) {
    if Affordable(w, k) then id !in w.contracts && id in contracts && contracts[id] == k
    else (id in contracts <==> id in w.contracts) && (id in w.contracts ==> contracts[id] == w.contracts[id])
  }

  ghost predicate SameElsewhere(w: World, contracts: map<Id, Contract>, ids: seq<Id>) {
    forall id :: id !in ids ==>
      (id in contracts <==> id in w.contracts) && (id in w.contracts ==> contracts[id] == w.contracts[id])
  }

  lemma {:induction false} GeneratedOffers(
    w: World, m: Contracts.Market, tick: nat, turn: nat, ids: seq<Id>, g: Contracts.ContractConfig)
    requires m.items != [] && m.buyers != [] && AllDifferent(ids)
    requires Contracts.GenerateFrom(w, m, tick, turn, ids, g).Done?
    ensures var next := Contracts.GenerateFrom(w, m, tick, turn, ids, g).world;
            && next == w.(contracts := next.contracts) && SameElsewhere(w, next.contracts, ids)
            && forall i :: 0 <= i < |ids| ==> TurnDone(w, next.contracts, ids[i], OfferOf(m, tick, turn + i, g))
    decreases |ids|
  {
    hide OfferOf, Contracts.OfferAt, TurnDone, SameElsewhere, AllDifferent;
    if ids == [] {
      NothingElsewhere(w);
    } else {
      SameOffer(m, tick, turn, g);
      var k := OfferOf(m, tick, turn, g);
      var mid := if Affordable(w, k) then w.(contracts := w.contracts[ids[0] := k]) else w;
      RestDiffers(ids);
      var next := Contracts.GenerateFrom(w, m, tick, turn, ids, g).world;
      assert next == Contracts.GenerateFrom(mid, m, tick, turn + 1, ids[1..], g).world;
      assert Affordable(w, k) ==> ids[0] !in w.contracts;
      hide Contracts.GenerateFrom;
      GeneratedOffers(mid, m, tick, turn + 1, ids[1..], g);
      FirstTurn(w, mid, next.contracts, ids, k);
      forall i | 0 <= i < |ids| ensures TurnDone(w, next.contracts, ids[i], OfferOf(m, tick, turn + i, g)) {
        if i > 0 {
          var offer := OfferOf(m, tick, turn + i, g);
          assert ids[i] == ids[1..][i - 1] && turn + i == turn + 1 + (i - 1);
          assert TurnDone(mid, next.contracts, ids[i], offer);
          LaterTurn(w, mid, next.contracts, ids[0], ids[i], k, offer);
        }
      }
    }
  }

  lemma NothingElsewhere(w: World)
    ensures SameElsewhere(w, w.contracts, [])
  {
  }

  lemma SameOffer(m: Contracts.Market, tick: nat, turn: nat, g: Contracts.ContractConfig)
    requires m.items != [] && m.buyers != []
    ensures Contracts.OfferAt(m, tick, turn, g) == OfferOf(m, tick, turn, g)
  {
    assert turn * 3 == 3 * turn;
  }

  lemma RestDiffers(ids: seq<Id>)
    requires AllDifferent(ids) && ids != []
    ensures AllDifferent(ids[1..]) && forall i :: 0 < i < |ids| ==> ids[i] != ids[0]
    ensures ids[0] !in ids[1..]
  {
  }

  lemma FirstTurn(w: World, mid: World, contracts: map<Id, Contract>, ids: seq<Id>, k: Contract)
    requires ids != [] && ids[0] !in ids[1..] && SameElsewhere(mid, contracts, ids[1..])
    requires mid == if Affordable(w, k) then w.(contracts := w.contracts[ids[0] := k]) else w
    requires Affordable(w, k) ==> ids[0] !in w.contracts
    ensures TurnDone(w, contracts, ids[0], k) && SameElsewhere(w, contracts, ids)
  {
    forall id | id !in ids ensures id !in ids[1..] && id != ids[0] {}
  }

  lemma LaterTurn(
    w: World, mid: World, contracts: map<Id, Contract>, first: Id, id: Id, k: Contract, offer: Contract)
    requires id != first && TurnDone(mid, contracts, id, offer)
    requires mid == if Affordable(w, k) then w.(contracts := w.contracts[first := k]) else w
    ensures TurnDone(w, contracts, id, offer)
  {
  }

  // The contract stage of a tick: expiry, and one offer for each turn whose buyer has the cash for it.
  lemma LivedContracts(
    w: World, m: Contracts.Market, ids: seq<Id>, tick: nat, g: Contracts.ContractConfig)
    requires AllDifferent(ids) && Contracts.RunContractLifecycle(w, m, ids, tick, g).Done?
    ensures g.perTick <= |ids|
    ensures var next := Contracts.RunContractLifecycle(w, m, ids, tick, g).world;
            && next == w.(contracts := next.contracts)
            && SameElsewhere(Contracts.ExpireContracts(w, tick), next.contracts, ids[..g.perTick])
            && (m.items == [] || m.buyers == [] ==> next == Contracts.ExpireContracts(w, tick))
            && (m.items != [] && m.buyers != [] ==>
                  forall i :: 0 <= i < g.perTick ==>
                    TurnDone(Contracts.ExpireContracts(w, tick), next.contracts, ids[i], OfferOf(m, tick, i, g)))
  {
    hide OfferOf, TurnDone, AllDifferent;
    var expired := Contracts.ExpireContracts(w, tick);
    if m.items != [] && m.buyers != [] && g.perTick != 0 {
      var keys := ids[..g.perTick];
      SomeDiffer(ids, g.perTick);
      GeneratedOffers(expired, m, tick, 0, keys, g);
      forall i | 0 <= i < g.perTick
        ensures TurnDone(expired, Contracts.RunContractLifecycle(w, m, ids, tick, g).world.contracts, ids[i],
                         OfferOf(m, tick, i, g))
      {
        assert keys[i] == ids[i] && 0 + i == i;
      }
    }
  }

  lemma SomeDiffer(ids: seq<Id>, n: nat)
    requires AllDifferent(ids) && n <= |ids|
    ensures AllDifferent(ids[..n])
  {
  }
}
