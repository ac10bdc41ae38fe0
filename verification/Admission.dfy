/** When each command goes through: exactly what it asks of the tables. */
module Admission {
  import opened Rows
  import opened Payroll
  import opened Production
  import opened Accounting
  import opened Market
  import Estate
  import Logistics
  import Contracts
  import Research

  // ---------------------------------------------------------------- production

  lemma {:induction false} ReservableIff(stock: map<RowKey, Stock>, company: Id, region: Id, reqs: seq<Ingredient>)
    requires StockRowsOk(stock)
    ensures CheckInputs(Reserve, stock, company, region, reqs).None? <==>
              forall i :: 0 <= i < |reqs| ==>
                && RowKey(company, reqs[i].item, region) in stock
                && 0 < reqs[i].quantity
                     <= stock[RowKey(company, reqs[i].item, region)].quantity
                        - stock[RowKey(company, reqs[i].item, region)].reserved
    decreases |reqs|
  {
    if reqs != [] {
      ReservableIff(stock, company, region, reqs[1..]);
      var key := RowKey(company, reqs[0].item, region);
      if key in stock { assert StockOk(stock[key]); }
      assert forall i :: 0 < i < |reqs| ==> reqs[i] == reqs[1..][i - 1];
    }
  }

  // A job is created exactly when the company and the recipe exist and nothing locks them, a player company has an
  // active production building, and every input is there, unreserved, for all the runs.
  lemma JobCreatedIff(w: World, r: JobRequest, id: Id, tick: int)
    requires Books(w)
    ensures CreateJob(w, r, id, tick).Done? <==>
              && r.runs > 0 && tick >= 0 && r.company in w.companies && r.recipe in w.catalogue.recipes && !r.locked
              && id !in w.jobs
              && var c, recipe := w.companies[r.company], w.catalogue.recipes[r.recipe];
                 && recipe.duration >= 0
                 && (c.isPlayer ==> exists b :: b in w.buildings && w.buildings[b].company == r.company
                                                && w.buildings[b].kind.Production? && w.buildings[b].active)
                 && forall i :: 0 <= i < |recipe.inputs| ==>
                      && RowKey(r.company, recipe.inputs[i].item, c.region) in w.stock
                      && 0 < recipe.inputs[i].quantity
                      && recipe.inputs[i].quantity * r.runs
                           <= w.stock[RowKey(r.company, recipe.inputs[i].item, c.region)].quantity
                              - w.stock[RowKey(r.company, recipe.inputs[i].item, c.region)].reserved
  {
    if r.runs > 0 && r.company in w.companies && r.recipe in w.catalogue.recipes {
      var c, recipe := w.companies[r.company], w.catalogue.recipes[r.recipe];
      assert CompanyOk(c);
      var reqs := Requirements(recipe.inputs, r.runs);
      ReservableIff(w.stock, r.company, c.region, reqs);
      hide Books, CheckInputs;
      forall i | 0 <= i < |recipe.inputs|
        ensures reqs[i].item == recipe.inputs[i].item && reqs[i].quantity == recipe.inputs[i].quantity * r.runs
        ensures reqs[i].quantity > 0 <==> recipe.inputs[i].quantity > 0
      {
        SignOfProduct(recipe.inputs[i].quantity, r.runs);
      }
    }
  }

  lemma SignOfProduct(quantity: int, runs: int)
    requires runs > 0
    ensures quantity * runs > 0 <==> quantity > 0
  {
  }

  // ---------------------------------------------------------------- shipments

  // A shipment is sent exactly when it goes to another region along a known way, the goods are there, unreserved, and
  // what is left of the cash after the fee still covers what is reserved.
  lemma ShipmentSentIff(w: World, r: Logistics.ShipmentRequest, id: Id, tick: int, g: Logistics.FeeConfig)
    requires Books(w)
    ensures Logistics.CreateShipment(w, r, id, tick, g).Done? <==>
              && r.quantity > 0 && tick >= 0 && g.base >= 0 && g.perUnit >= 0 && r.company in w.companies
              && r.to in w.catalogue.regions && r.item in w.catalogue.items && !r.locked && id !in w.shipments
              && var c := w.companies[r.company];
                 && c.region != r.to && c.region in w.catalogue.regions && (c.region, r.to) in w.catalogue.travel
                 && w.catalogue.travel[(c.region, r.to)] >= 0
                 && RowKey(r.company, r.item, c.region) in w.stock
                 && r.quantity <= w.stock[RowKey(r.company, r.item, c.region)].quantity
                                  - w.stock[RowKey(r.company, r.item, c.region)].reserved
                 && c.reserved + g.base + g.perUnit * r.quantity <= c.cash
  {
    if r.company in w.companies { assert CompanyOk(w.companies[r.company]); }
    hide Books;
  }

  // ---------------------------------------------------------------- staff and buildings

  // A change of staff is accepted exactly within both limits of one request, and for a hire with the unreserved cash
  // for it, for a layoff with the heads for it.
  lemma CapacityRequestedIff(w: World, company: Id, delta: int, id: Id, now: int, g: Config)
    requires Books(w) && ValidConfig(g)
    ensures RequestCapacity(w, company, delta, id, now, g).Done? <==>
              && delta != 0 && company in w.companies
              && var c := w.companies[company];
                 && -g.maxDelta <= delta <= g.maxDelta
                 && (c.workforce.capacity > 0 ==>
                       var most := Max(1, c.workforce.capacity * g.maxRelativeDelta / 100); -most <= delta <= most)
                 && if delta < 0 then -delta <= c.workforce.capacity
                    else delta * g.recruitmentCost <= c.cash - c.reserved && id !in w.hirings
  {
    if company in w.companies { assert CompanyOk(w.companies[company]); }
    hide Books;
  }

  // A building is acquired exactly by a company that exists and covers its reservations, for unreserved cash.
  lemma BuildingAcquiredIff(w: World, r: Estate.BuildingRequest, id: Id, tick: int)
    requires Books(w)
    ensures Estate.Acquire(w, r, id, tick).Done? <==>
              && 0 <= r.cost && 0 <= r.weeklyCost && tick >= 0 && r.region in w.catalogue.regions && id !in w.buildings
              && r.company in w.companies && r.cost <= w.companies[r.company].cash - w.companies[r.company].reserved
  {
    if r.company in w.companies { assert CompanyOk(w.companies[r.company]); }
    hide Books;
  }

  lemma BuildingReactivatedIff(w: World, id: Id, tick: int)
    ensures Estate.Reactivate(w, id, tick).Done? <==> tick >= 0 && id in w.buildings && !w.buildings[id].active
  {
  }

  // ---------------------------------------------------------------- contracts

  // A contract is accepted exactly while it is offered, not expired, its buyer is a company nobody plays or owns, and
  // it has no seller yet.
  lemma ContractAcceptedIff(w: World, id: Id, seller: Id, tick: int)
    ensures Contracts.AcceptContract(w, id, seller, tick).Done? <==>
              && tick >= 0 && id in w.contracts && seller in w.companies
              && w.contracts[id].status.Offered? && tick < w.contracts[id].expires && w.contracts[id].seller.None?
              && w.contracts[id].buyer in w.companies
              && !w.companies[w.contracts[id].buyer].isPlayer && !w.companies[w.contracts[id].buyer].owned
  {
  }

  // ---------------------------------------------------------------- research

  // Research is started exactly by an owned player company, on a node that is neither completed nor under way and whose
  // prerequisites are completed, for the cash it has.
  lemma ResearchStartedIff(w: World, key: NodeKey, id: Id, tick: int)
    requires Books(w)
    ensures Research.StartResearch(w, key, id, tick).Done? <==>
              && tick >= 0 && key.company in w.companies && key.node in w.catalogue.nodes && id !in w.researchJobs
              && w.companies[key.company].isPlayer && w.companies[key.company].owned
              && (key in w.research ==> !w.research[key].Completed? && !w.research[key].Researching?)
              && (forall j :: j in w.researchJobs && w.researchJobs[j].key == key ==>
                    !w.researchJobs[j].status.Running?)
              && (forall n :: n in w.catalogue.nodes[key.node].prerequisites ==>
                    NodeKey(key.company, n) in w.research && w.research[NodeKey(key.company, n)].Completed?)
              && w.catalogue.nodes[key.node].cost <= w.companies[key.company].cash
  {
    if key.company in w.companies && key.node in w.catalogue.nodes {
      assert CompanyOk(w.companies[key.company]) && w.catalogue.nodes[key.node].duration >= 0;
      hide Books;
      PrerequisitesIff(w, key);
      NoneRunningIff(w, key);
      hide Research.PrerequisitesMet, Research.HasRunningJob;
    }
  }

  lemma PrerequisitesIff(w: World, key: NodeKey)
    requires key.node in w.catalogue.nodes
    ensures Research.PrerequisitesMet(w, key) <==>
              forall n :: n in w.catalogue.nodes[key.node].prerequisites ==>
                NodeKey(key.company, n) in w.research && w.research[NodeKey(key.company, n)].Completed?
  {
    var done := Research.CompletedNodes(w.research, key.company);
    forall n ensures n in done <==>
                       NodeKey(key.company, n) in w.research && w.research[NodeKey(key.company, n)].Completed? {
      var k := NodeKey(key.company, n);
      if k in w.research && w.research[k].Completed? { assert k.node in done; }
    }
  }

  lemma NoneRunningIff(w: World, key: NodeKey)
    ensures !Research.HasRunningJob(w.researchJobs, key) <==>
              forall j :: j in w.researchJobs && w.researchJobs[j].key == key ==> !w.researchJobs[j].status.Running?
  {
    if j :| j in w.researchJobs && w.researchJobs[j].key == key && w.researchJobs[j].status.Running? {
      assert Research.IsRunning(w.researchJobs, j, key);
    }
  }

  lemma ResearchCancelledIff(w: World, key: NodeKey, job: Id, tick: int)
    ensures Research.CancelResearch(w, key, job, tick).Done? <==>
              && tick >= 0 && key.company in w.companies
              && w.companies[key.company].isPlayer && w.companies[key.company].owned
              && job in w.researchJobs && w.researchJobs[job].key == key && w.researchJobs[job].status.Running?
  {
    hide Research.PrerequisitesMet;
  }
}
