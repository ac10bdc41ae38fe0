/** The whole invariant of the simulation, and what a state carries over from an earlier one. */
module Health {
  import opened Rows
  import opened Accounting
  import opened Conservation
  import opened Audits
  import opened Records
  import opened ResearchTheory
  import opened Research

  // Every state of every run: reservations backed, contracts backed by their fulfilments and orders by their trades,
  // research consistent.
  ghost predicate Sound(w: World) { Books(w) && ContractsBacked(w) && Recorded(w) && ResearchSound(w) }

  // Besides, cash covers what is reserved of it, and every recorded balance is right.
  ghost predicate Healthy(w: World) { Sound(w) && Solvent(w) && Balanced(w) }

  // What holds between any state and a later one.
  ghost predicate Follows(w: World, next: World) {
    && Audited(w, next) && GoodsKept(w, next) && ClosedKept(w, next) && ResearchGrows(w, next)
  }

  ghost predicate Continues(w: World, next: World) { Sound(next) && Follows(w, next) }

  // What all commands but two do: nothing they touch loses its cover or its right balances.
  ghost predicate Carries(w: World, next: World) {
    Continues(w, next) && (Solvent(w) ==> Solvent(next)) && (Balanced(w) ==> Balanced(next))
  }

  lemma ClosedComposes(w: World, mid: World, next: World)
    requires ClosedKept(w, mid) && ClosedKept(mid, next)
    ensures ClosedKept(w, next)
  {
  }

  lemma FollowsComposes(w: World, mid: World, next: World)
    requires Follows(w, mid) && Follows(mid, next)
    ensures Follows(w, next)
  {
    AuditedComposes(w, mid, next);
    ClosedComposes(w, mid, next);
    forall i ensures Goods(next, i) == Goods(w, i) { assert Goods(next, i) == Goods(mid, i); }
  }

  // A command that leaves contracts and research alone.
  ghost predicate Aside(w: World, next: World) {
    && next.catalogue == w.catalogue && next.contracts == w.contracts && next.fulfilments == w.fulfilments
    && next.research == w.research && next.researchJobs == w.researchJobs && next.unlocked == w.unlocked
  }

  lemma AsideResearch(w: World, next: World)
    requires next.catalogue == w.catalogue && next.research == w.research && next.researchJobs == w.researchJobs
    requires next.unlocked == w.unlocked
    ensures ResearchGrows(w, next) && (ResearchSound(w) ==> ResearchSound(next))
  {
    if ResearchSound(w) {
      forall key ensures StoredStatus(next, key).Researching? <==> HasRunningJob(next.researchJobs, key) {
        assert StoredStatus(w, key).Researching? <==> HasRunningJob(w.researchJobs, key);
      }
      forall key | CompletedKey(next, key) ensures Unlocks(next.catalogue, key) <= next.unlocked {
        assert CompletedKey(w, key);
      }
    }
  }

  lemma ContractsStay(w: World, next: World)
    requires next.contracts == w.contracts && next.fulfilments == w.fulfilments
    ensures ContractsGoOn(w.contracts, next.contracts) && (ContractsBacked(w) ==> ContractsBacked(next))
  {
  }

  // A command that touches only open orders, running jobs, shipments in transit, and tables nothing else is said about.
  ghost predicate Beside(w: World, next: World) {
    Aside(w, next) && OrdersGoOn(w.orders, next.orders) && JobsGoOn(w.jobs, next.jobs) &&
        ShipmentsGoOn(w.shipments, next.shipments)
  }

  // A command that leaves every store alone.
  ghost predicate StoresStill(w: World, next: World) {
    next.stock == w.stock && next.shipments == w.shipments && next.jobs == w.jobs && next.consumed == w.consumed
  }

  lemma StillKeepsGoods(w: World, next: World)
    requires StoresStill(w, next)
    ensures GoodsKept(w, next)
  {
  }

  lemma SameCompaniesSolvent(w: World, next: World)
    requires next.companies == w.companies
    ensures Solvent(w) ==> Solvent(next)
  {
  }

  lemma BesideSelf(w: World)
    ensures Beside(w, w) && StoresStill(w, w) && RecordsSame(w, w)
  {
  }

  lemma AsideCarries(w: World, next: World)
    requires Sound(w) && Beside(w, next)
    requires Books(next) && (Solvent(w) ==> Solvent(next)) && Recorded(next) && BooksEntries(w, next) &&
            GoodsKept(w, next)
    ensures Carries(w, next)
  {
    AsideResearch(w, next);
    ContractsStay(w, next);
  }

  lemma Parts(w: World)
    requires Sound(w)
    ensures Books(w) && ContractsBacked(w) && Recorded(w) && ResearchSound(w)
  {
  }

  lemma CarriesSelf(w: World)
    requires Sound(w)
    ensures Carries(w, w)
  {
  }

  lemma ContinuesComposes(w: World, mid: World, next: World)
    requires Continues(w, mid) && Continues(mid, next)
    ensures Continues(w, next)
  {
    FollowsComposes(w, mid, next);
  }

  lemma CarriesComposes(w: World, mid: World, next: World)
    requires Carries(w, mid) && Carries(mid, next)
    ensures Carries(w, next)
  {
    FollowsComposes(w, mid, next);
  }
}
