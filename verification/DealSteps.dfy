/** Contract and research commands, which the generic step argument does not cover. */
module DealSteps {
  import opened Rows
  import opened Contracts
  import opened Research
  import opened Accounting
  import opened CompanyBooks
  import opened Conservation
  import opened Audits
  import opened Goods
  import opened ResearchTheory
  import opened Health
  import opened Records

  // Everything but the contract tables: what a contract command must keep besides them.
  ghost predicate ResearchAside(w: World, next: World) {
    && next.catalogue == w.catalogue && next.research == w.research && next.researchJobs == w.researchJobs
    && next.unlocked == w.unlocked && next.orders == w.orders && next.jobs == w.jobs && next.shipments == w.shipments
  }

  lemma ContractContinues(w: World, next: World)
    requires Sound(w) && ResearchAside(w, next)
    requires Books(next) && Recorded(next) && Audited(w, next) && GoodsKept(w, next)
    requires ContractsGoOn(w.contracts, next.contracts) && ContractsBacked(next)
    ensures Continues(w, next)
  {
    SameTablesGoOn(w, next);
    AsideResearch(w, next);
  }

  lemma EntriesAudited(w: World, next: World)
    requires BooksEntries(w, next)
    ensures Audited(w, next) && (Balanced(w) ==> Balanced(next))
  {
  }

  // A command on contracts that moves no cash.
  lemma ContractCarries(w: World, next: World)
    requires Sound(w) && ResearchAside(w, next) && next.companies == w.companies
    requires Books(next) && Recorded(next) && BooksEntries(w, next) && GoodsKept(w, next)
    requires ContractsGoOn(w.contracts, next.contracts) && ContractsBacked(next)
    ensures Carries(w, next)
  {
    EntriesAudited(w, next);
    SameCompaniesSolvent(w, next);
    ContractContinues(w, next);
  }

  // ---------------------------------------------------------------- accept

  lemma AcceptBacked(w: World, id: Id, seller: Id, tick: int)
    requires ContractsBacked(w) && AcceptContract(w, id, seller, tick).Done?
    ensures ContractsBacked(AcceptContract(w, id, seller, tick).world)
    ensures ContractsGoOn(w.contracts, AcceptContract(w, id, seller, tick).world.contracts)
    ensures ResearchAside(w, AcceptContract(w, id, seller, tick).world)
    ensures StoresStill(w, AcceptContract(w, id, seller, tick).world)
    ensures AcceptContract(w, id, seller, tick).world.companies == w.companies
  {
  }

  lemma AcceptCarries(w: World, id: Id, seller: Id, tick: int)
    requires Sound(w) && AcceptContract(w, id, seller, tick).Done?
    ensures Carries(w, AcceptContract(w, id, seller, tick).world)
  {
    hide *;
    Parts(w);
    AcceptKeepsBooks(w, id, seller, tick);
    AcceptAudited(w, id, seller, tick);
    AcceptBacked(w, id, seller, tick);
    AcceptRecorded(w, id, seller, tick);
    StillKeepsGoods(w, AcceptContract(w, id, seller, tick).world);
    ContractCarries(w, AcceptContract(w, id, seller, tick).world);
  }

  // ---------------------------------------------------------------- fulfil

  lemma FulfilBacked(w: World, id: Id, seller: Id, quantity: int, tick: int, locked: bool)
    requires ContractsBacked(w) && FulfilContract(w, id, seller, quantity, tick, locked).Done?
    ensures ContractsBacked(FulfilContract(w, id, seller, quantity, tick, locked).world)
    ensures ContractsGoOn(w.contracts, FulfilContract(w, id, seller, quantity, tick, locked).world.contracts)
    ensures ResearchAside(w, FulfilContract(w, id, seller, quantity, tick, locked).world)
  {
    var next := FulfilContract(w, id, seller, quantity, tick, locked).world;
    FulfilledAppend(w.fulfilments, next.fulfilments[|w.fulfilments|]);
    forall i | 0 <= i < |next.fulfilments| ensures FulfilmentOk(next.fulfilments[i], next.contracts) {
      if i < |w.fulfilments| { assert FulfilmentOk(w.fulfilments[i], w.contracts); }
    }
  }

  // A fulfilment breaks no reservation, makes no goods and changes no closed row, whatever cash it spends.
  lemma FulfilContinues(w: World, id: Id, seller: Id, quantity: int, tick: int, locked: bool)
    requires Sound(w) && FulfilContract(w, id, seller, quantity, tick, locked).Done?
    ensures Continues(w, FulfilContract(w, id, seller, quantity, tick, locked).world)
  {
    var next := FulfilContract(w, id, seller, quantity, tick, locked).world;
    FulfilStays(w, id, seller, quantity, tick, locked);
    hide *;
    Parts(w);
    FulfilBacked(w, id, seller, quantity, tick, locked);
    FulfilKeepsGoods(w, id, seller, quantity, tick, locked);
    FulfilRecorded(w, id, seller, quantity, tick, locked);
    ContractContinues(w, next);
  }

  lemma FulfilStays(w: World, id: Id, seller: Id, quantity: int, tick: int, locked: bool)
    requires Books(w) && FulfilContract(w, id, seller, quantity, tick, locked).Done?
    ensures w.contracts[id].price > 0
    ensures Books(FulfilContract(w, id, seller, quantity, tick, locked).world)
    ensures Audited(w, FulfilContract(w, id, seller, quantity, tick, locked).world)
  {
    assert Sells(w, id, seller, quantity, tick, locked);
    FulfilKeepsBooks(w, id, seller, quantity, tick, locked);
    FulfilAudited(w, id, seller, quantity, tick, locked);
  }

  // ---------------------------------------------------------------- expire and generate

  lemma ExpireBacked(w: World, tick: int)
    requires ContractsBacked(w)
    ensures ContractsBacked(ExpireContracts(w, tick))
    ensures ContractsGoOn(w.contracts, ExpireContracts(w, tick).contracts)
    ensures ResearchAside(w, ExpireContracts(w, tick)) && StoresStill(w, ExpireContracts(w, tick))
    ensures ExpireContracts(w, tick).companies == w.companies
  {
    var next := ExpireContracts(w, tick);
    forall i | 0 <= i < |next.fulfilments| ensures FulfilmentOk(next.fulfilments[i], next.contracts) {
      assert FulfilmentOk(w.fulfilments[i], w.contracts);
    }
  }

  lemma ExpireCarries(w: World, tick: int)
    requires Sound(w)
    ensures Carries(w, ExpireContracts(w, tick))
  {
    hide *;
    Parts(w);
    ExpireKeepsBooks(w, tick);
    ExpireAudited(w, tick);
    ExpireBacked(w, tick);
    ExpireRecorded(w, tick);
    StillKeepsGoods(w, ExpireContracts(w, tick));
    ContractCarries(w, ExpireContracts(w, tick));
  }

  // The base quantities of the generator's table are positive.
  ghost predicate MarketOk(m: Contracts.Market) {
    m.items != [] && m.buyers != [] && forall i :: i in m.baseQuantity ==> m.baseQuantity[i] > 0
  }

  lemma OfferedBacked(w: World, id: Id, k: Contract)
    requires ContractsBacked(w) && id !in w.contracts && k.status.Offered? && k.seller.None? &&
            k.remaining == k.quantity
    ensures ContractsBacked(w.(contracts := w.contracts[id := k]))
    ensures ContractsGoOn(w.contracts, w.contracts[id := k])
  {
    var next := w.(contracts := w.contracts[id := k]);
    NoneFulfilled(w.fulfilments, w.contracts, id);
    forall i | 0 <= i < |next.fulfilments| ensures FulfilmentOk(next.fulfilments[i], next.contracts) {
      assert FulfilmentOk(w.fulfilments[i], w.contracts);
    }
  }

  lemma OfferKeepsBooks(w: World, id: Id, k: Contract)
    requires Books(w) && ContractOk(k) && k.buyer in w.companies
    ensures Books(w.(contracts := w.contracts[id := k]))
  {
  }

  lemma OfferCarries(w: World, id: Id, k: Contract)
    requires Sound(w) && id !in w.contracts && ContractOk(k) && k.buyer in w.companies
    requires k.status.Offered? && k.seller.None? && k.remaining == k.quantity && ContractStamped(k)
    ensures Carries(w, w.(contracts := w.contracts[id := k]))
  {
    var next := w.(contracts := w.contracts[id := k]);
    assert ResearchAside(w, next) && StoresStill(w, next) && Unposted(w, next);
    assert next.contracts == w.contracts[id := k] && next.companies == w.companies;
    hide *;
    Parts(w);
    OfferedBacked(w, id, k);
    OfferKeepsBooks(w, id, k);
    OfferRecorded(w, id, k);
    NothingPosted(w, next);
    StillKeepsGoods(w, next);
    ContractCarries(w, next);
  }

  lemma {:induction false} GenerateCarries(
    w: World, m: Contracts.Market, tick: nat, sequence: nat, ids: seq<Id>, g: ContractConfig)
    requires Sound(w) && MarketOk(m) && g.ttl > 0 && GenerateFrom(w, m, tick, sequence, ids, g).Done?
    ensures Carries(w, GenerateFrom(w, m, tick, sequence, ids, g).world)
    decreases |ids|
  {
    hide Sound, Follows;
    if ids == [] {
      CarriesSelf(w);
    } else {
      var k := OfferAt(m, tick, sequence, g);
      if k.buyer !in w.companies || w.companies[k.buyer].cash < k.price * k.quantity {
        GenerateCarries(w, m, tick, sequence + 1, ids[1..], g);
      } else {
        var next := w.(contracts := w.contracts[ids[0] := k]);
        OfferOk(m, tick, sequence, g);
        OfferCarries(w, ids[0], k);
        GenerateCarries(next, m, tick, sequence + 1, ids[1..], g);
        CarriesComposes(w, next, GenerateFrom(next, m, tick, sequence + 1, ids[1..], g).world);
      }
    }
  }

  lemma LifecycleCarries(w: World, m: Contracts.Market, ids: seq<Id>, tick: int, g: ContractConfig)
    requires Sound(w) && (m.items != [] && m.buyers != [] ==> MarketOk(m))
    requires RunContractLifecycle(w, m, ids, tick, g).Done?
    ensures Carries(w, RunContractLifecycle(w, m, ids, tick, g).world)
  {
    ExpireCarries(w, tick);
    var expired := ExpireContracts(w, tick);
    if m.items != [] && m.buyers != [] && g.perTick != 0 {
      GenerateCarries(expired, m, tick, 0, ids[..g.perTick], g);
      CarriesComposes(w, expired, RunContractLifecycle(w, m, ids, tick, g).world);
    }
  }

  // ---------------------------------------------------------------- research

  lemma ResearchContinues(w: World, next: World)
    requires Sound(w) && RecordsSame(w, next) && next.fulfilments == w.fulfilments
    requires Books(next) && Audited(w, next) && GoodsKept(w, next)
    requires ResearchGrows(w, next) && ResearchSound(next)
    ensures Continues(w, next)
  {
    RecordsStay(w, next);
    ContractsStay(w, next);
    SameTablesGoOn(w, next);
  }

  lemma SameTablesGoOn(w: World, next: World)
    requires next.orders == w.orders && next.jobs == w.jobs && next.shipments == w.shipments
    ensures OrdersGoOn(w.orders, next.orders) && JobsGoOn(w.jobs, next.jobs) &&
            ShipmentsGoOn(w.shipments, next.shipments)
  {
  }

  lemma StartResearchKeepsBooks(w: World, key: NodeKey, id: Id, tick: int)
    requires Books(w) && StartResearch(w, key, id, tick).Done?
    ensures Books(StartResearch(w, key, id, tick).world)
  {
    CompanyMove(w, StartResearch(w, key, id, tick).world, key.company);
  }

  lemma StartResearchBeside(w: World, key: NodeKey, id: Id, tick: int)
    requires StartResearch(w, key, id, tick).Done?
    ensures var next := StartResearch(w, key, id, tick).world;
            RecordsSame(w, next) && next.fulfilments == w.fulfilments && StoresStill(w, next)
  {
  }

  lemma StartResearchContinues(w: World, key: NodeKey, id: Id, tick: int)
    requires Sound(w) && StartResearch(w, key, id, tick).Done?
    ensures Continues(w, StartResearch(w, key, id, tick).world)
    ensures Balanced(w) ==> Balanced(StartResearch(w, key, id, tick).world)
  {
    var next := StartResearch(w, key, id, tick).world;
    hide *;
    Parts(w);
    StartResearchBeside(w, key, id, tick);
    StartResearchKeepsBooks(w, key, id, tick);
    StartResearchAudited(w, key, id, tick);
    EntriesAudited(w, next);
    StartResearchSound(w, key, id, tick);
    StillKeepsGoods(w, next);
    ResearchContinues(w, next);
  }

  ghost predicate OnlyResearch(w: World, next: World) {
    next == w.(research := next.research, researchJobs := next.researchJobs, unlocked := next.unlocked)
  }

  lemma OnlyResearchCarries(w: World, next: World)
    requires Sound(w) && OnlyResearch(w, next) && ResearchGrows(w, next) && ResearchSound(next)
    ensures Carries(w, next)
  {
    assert Unposted(w, next) && StoresStill(w, next) && RecordsSame(w, next) && next.fulfilments == w.fulfilments;
    assert next.companies == w.companies && Books(next);
    hide OnlyResearch, Books, Sound, Unposted, BooksEntries, ResearchSound, ResearchGrows, StoresStill;
    Parts(w);
    NothingPosted(w, next);
    EntriesAudited(w, next);
    StillKeepsGoods(w, next);
    SameCompaniesSolvent(w, next);
    ResearchContinues(w, next);
  }

  lemma CancelResearchOnly(w: World, key: NodeKey, job: Id, tick: int)
    requires CancelResearch(w, key, job, tick).Done?
    ensures OnlyResearch(w, CancelResearch(w, key, job, tick).world)
  {
  }

  lemma CancelResearchCarries(w: World, key: NodeKey, job: Id, tick: int)
    requires Sound(w) && CancelResearch(w, key, job, tick).Done?
    ensures Carries(w, CancelResearch(w, key, job, tick).world)
  {
    hide *;
    Parts(w);
    CancelResearchSound(w, key, job, tick);
    CancelResearchOnly(w, key, job, tick);
    OnlyResearchCarries(w, CancelResearch(w, key, job, tick).world);
  }

  lemma CompleteOneOnly(w: World, id: Id, tick: int)
    ensures OnlyResearch(w, CompleteOne(w, id, tick))
  {
  }

  lemma CompleteOneCarries(w: World, id: Id, tick: int)
    requires Sound(w)
    ensures Carries(w, CompleteOne(w, id, tick))
  {
    hide *;
    Parts(w);
    CompleteOneSound(w, id, tick);
    CompleteOneOnly(w, id, tick);
    OnlyResearchCarries(w, CompleteOne(w, id, tick));
  }

  lemma {:induction false} CompleteEachCarries(w: World, due: seq<Id>, tick: int)
    requires Sound(w)
    ensures Carries(w, CompleteEach(w, due, tick))
    decreases |due|
  {
    if due == [] {
      CarriesSelf(w);
    } else {
      var mid := CompleteOne(w, due[0], tick);
      CompleteOneCarries(w, due[0], tick);
      CompleteEachCarries(mid, due[1..], tick);
      CarriesComposes(w, mid, CompleteEach(mid, due[1..], tick));
    }
  }
}
