/** Research nodes: started for cash, cancelled, completed, and the recipes they unlock. */
module Research {
  import opened Rows
  import opened Payroll

  function CompletedNodes(research: map<NodeKey, ResearchStatus>, company: Id): set<Id> {
    set k | k in research && k.company == company && research[k].Completed? :: k.node
  }

  predicate IsRunning(jobs: map<Id, ResearchJob>, id: Id, key: NodeKey) {
    id in jobs && jobs[id].key == key && jobs[id].status.Running?
  }

  predicate HasRunningJob(jobs: map<Id, ResearchJob>, key: NodeKey) {
    exists id :: id in jobs && IsRunning(jobs, id, key)
  }

  predicate PrerequisitesMet(w: World, key: NodeKey) {
    key.node in w.catalogue.nodes &&
        w.catalogue.nodes[key.node].prerequisites <= CompletedNodes(w.research, key.company)
  }

  predicate Researchable(w: World, company: Id) {
    company in w.companies && w.companies[company].isPlayer && w.companies[company].owned
  }

  function StoredStatus(w: World, key: NodeKey): ResearchStatus {
    if key in w.research then w.research[key] else Locked
  }

  function StartResearch(w: World, key: NodeKey, id: Id, tick: int): Outcome {
    if tick < 0 then Thrown(BadInput, w)
    else if key.company !in w.companies then Thrown(NotFound, w)
    else if !Researchable(w, key.company) then Thrown(Refused, w)
    else if key.node !in w.catalogue.nodes then Thrown(NotFound, w)
    else if StoredStatus(w, key).Completed? then Thrown(Refused, w)
    else if HasRunningJob(w.researchJobs, key) || StoredStatus(w, key).Researching? then Thrown(Refused, w)
    else if !PrerequisitesMet(w, key) then Thrown(Refused, w)
    else Enrol(w, key, id, tick)
  }

  function Enrol(w: World, key: NodeKey, id: Id, tick: int): Outcome
    requires key.company in w.companies && key.node in w.catalogue.nodes
  {
    var c, node := w.companies[key.company], w.catalogue.nodes[key.node];
    // The guard reads total cash, reserved or not.
    if c.cash < node.cost then Thrown(InsufficientFunds, w)
    else if id in w.researchJobs then Thrown(Conflict, w)
    else
      var paid := w.(companies := w.companies[key.company := c.(cash := c.cash - node.cost)]);
      // Workforce and duration are checked only after the cash was written.
      if !ValidWorkforce(c.workforce) then Thrown(Inconsistent, paid)
      else if node.duration < 0 then Thrown(BadInput, paid)
      else
        var completes := tick + ApplyDuration(node.duration, ResearchMultiplier(c.workforce));
        Done(paid.(researchJobs := w.researchJobs[id := ResearchJob(key, Running, completes)],
                   research := w.research[key := Researching],
                   ledger := w.ledger + [Entry(key.company, tick, ResearchPayment, -node.cost, 0, c.cash - node.cost)]))
  }

  // `job` is the row findFirst returned; any running job of the node may be that row.
  function CancelResearch(w: World, key: NodeKey, job: Id, tick: int): Outcome {
    if tick < 0 then Thrown(BadInput, w)
    else if key.company !in w.companies then Thrown(NotFound, w)
    else if !Researchable(w, key.company) then Thrown(Refused, w)
    else if !IsRunning(w.researchJobs, job, key) then Thrown(Refused, w)
    else
      Done(w.(researchJobs := w.researchJobs[job := w.researchJobs[job].(status := ResearchCancelled)],
              research := w.research[key := if PrerequisitesMet(w, key) then Available else Locked]))
  }

  // The body of completeDueResearchJobs for one job; a job that is not due is skipped.
  function CompleteOne(w: World, id: Id, tick: int): World {
    if id !in w.researchJobs || !w.researchJobs[id].status.Running? || tick < w.researchJobs[id].completes then w
    else
      var job := w.researchJobs[id];
      w.(researchJobs := w.researchJobs[id := job.(status := ResearchDone)],
         research := w.research[job.key := Completed],
         unlocked := w.unlocked + Unlocks(w.catalogue, job.key))
  }

  function Unlocks(catalogue: Catalogue, key: NodeKey): set<(Id, Id)> {
    if key.node !in catalogue.nodes then {}
    else set recipe | recipe in catalogue.nodes[key.node].unlocks :: (key.company, recipe)
  }

  function CompleteEach(w: World, due: seq<Id>, tick: int): World
    decreases |due|
  {
    if due == [] then w else CompleteEach(CompleteOne(w, due[0], tick), due[1..], tick)
  }

  function CompleteResearch(w: World, due: seq<Id>, tick: int): Outcome {
    if tick < 0 then Thrown(BadInput, w) else Done(CompleteEach(w, due, tick))
  }

  // listResearchForCompany: the status shown for a node.
  function Listed(w: World, key: NodeKey): ResearchStatus {
    if key.node in CompletedNodes(w.research, key.company) then Completed
    else if HasRunningJob(w.researchJobs, key) then Researching
    else if PrerequisitesMet(w, key) then Available
    else Locked
  }
}
