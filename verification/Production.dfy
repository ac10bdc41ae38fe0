/** The life of a production job: reserve its inputs, then release or consume them. */
module Production {
  import opened Rows
  import opened Storage
  import opened Payroll

  // calculateRecipeInputRequirements
  function Requirements(inputs: seq<Ingredient>, runs: int): (r: seq<Ingredient>)
    ensures |r| == |inputs|
    ensures forall k :: 0 <= k < |inputs| ==> r[k] == Ingredient(inputs[k].item, inputs[k].quantity * runs)
  {
    if inputs == [] then []
    else [Ingredient(inputs[0].item, inputs[0].quantity * runs)] + Requirements(inputs[1..], runs)
  }

  // ... which throws unless the runs and every input quantity are positive.
  predicate Runnable(inputs: seq<Ingredient>, runs: int) {
    runs > 0 && forall k :: 0 <= k < |inputs| ==> inputs[k].quantity > 0
  }

  // A recipe lists each input item once: (recipe, item) is a primary key.
  predicate DistinctInputs(inputs: seq<Ingredient>) {
    forall i, j :: 0 <= i < j < |inputs| ==> inputs[i].item != inputs[j].item
  }

  function Needed(reqs: seq<Ingredient>, item: Id): int {
    if reqs == [] then 0
    else (if reqs[0].item == item then reqs[0].quantity else 0) + Needed(reqs[1..], item)
  }

  function TotalNeeded(reqs: seq<Ingredient>): int {
    if reqs == [] then 0 else reqs[0].quantity + TotalNeeded(reqs[1..])
  }

  datatype Use = Reserve | Release | Consume

  // The guards of the three reservation helpers; None when the helper does not throw.
  function Guard(use: Use, s: Stock, quantity: int): Option<Error> {
    if quantity <= 0 then Some(BadInput)
    else if s.quantity < 0 || s.reserved < 0 then Some(Inconsistent)
    else
      match use
      case Reserve => if s.quantity - s.reserved < quantity then Some(InsufficientInventory) else None
      case Release => if s.reserved < quantity then Some(Inconsistent) else None
      case Consume => if s.quantity < quantity || s.reserved < quantity then Some(Inconsistent) else None
  }

  function Used(use: Use, s: Stock, quantity: int): Stock {
    match use
    case Reserve => Stock(s.quantity, s.reserved + quantity)
    case Release => Stock(s.quantity, s.reserved - quantity)
    case Consume => Stock(s.quantity - quantity, s.reserved - quantity)
  }

  // The first loop of create, cancel and complete: every requirement is checked before any row is written.
  function CheckInputs(use: Use, stock: map<RowKey, Stock>, company: Id, region: Id,
      reqs: seq<Ingredient>): (e: Option<Error>)
    ensures e.Some? ==> e.value.BadInput? || e.value.Inconsistent? || e.value.InsufficientInventory?
  {
    if reqs == [] then None
    else
      var key := RowKey(company, reqs[0].item, region);
      if key !in stock then Some(if use.Reserve? then InsufficientInventory else Inconsistent)
      else
        match Guard(use, stock[key], reqs[0].quantity)
        case Some(e) => Some(e)
        case None => CheckInputs(use, stock, company, region, reqs[1..])
  }

  // The second loop: all requirements are applied, one row at a time.
  function UseInputs(use: Use, stock: map<RowKey, Stock>, company: Id, region: Id,
      reqs: seq<Ingredient>): map<RowKey, Stock>
    requires forall k :: 0 <= k < |reqs| ==> RowKey(company, reqs[k].item, region) in stock
    decreases |reqs|
  {
    if reqs == [] then stock
    else
      var key := RowKey(company, reqs[0].item, region);
      UseInputs(use, stock[key := Used(use, stock[key], reqs[0].quantity)], company, region, reqs[1..])
  }

  lemma {:induction false} CheckedInputsExist(use: Use, stock: map<RowKey, Stock>, company: Id, region: Id,
      reqs: seq<Ingredient>)
    requires CheckInputs(use, stock, company, region, reqs).None?
    ensures forall k :: 0 <= k < |reqs| ==>
              RowKey(company, reqs[k].item, region) in stock &&
              Guard(use, stock[RowKey(company, reqs[k].item, region)], reqs[k].quantity).None?
  {
    if reqs != [] {
      CheckedInputsExist(use, stock, company, region, reqs[1..]);
      forall k | 0 <= k < |reqs|
        ensures RowKey(company, reqs[k].item, region) in stock &&
                Guard(use, stock[RowKey(company, reqs[k].item, region)], reqs[k].quantity).None?
      {
        if k > 0 { assert reqs[k] == reqs[1..][k - 1]; }
      }
    }
  }

  // `locked` is the outcome of the research-tier, specialization and recipe-unlock checks.
  datatype JobRequest = JobRequest(company: Id, recipe: Id, runs: int, locked: bool)

  predicate HasProductionBuilding(w: World, company: Id) {
    exists b :: b in w.buildings && w.buildings[b].company == company && w.buildings[b].kind.Production? &&
        w.buildings[b].active
  }

  function CreateJob(w: World, r: JobRequest, id: Id, tick: int): Outcome {
    if r.runs <= 0 || tick < 0 then Thrown(BadInput, w)
    else if r.company !in w.companies || r.recipe !in w.catalogue.recipes then Thrown(NotFound, w)
    else if r.locked then Thrown(Refused, w)
    else
      var c, recipe := w.companies[r.company], w.catalogue.recipes[r.recipe];
      if recipe.duration < 0 then Thrown(BadInput, w)
      else if c.isPlayer && !HasProductionBuilding(w, r.company) then Thrown(Refused, w)
      else if !Runnable(recipe.inputs, r.runs) then Thrown(BadInput, w)
      else
        var reqs := Requirements(recipe.inputs, r.runs);
        match CheckInputs(Reserve, w.stock, r.company, c.region, reqs)
        case Some(e) => Thrown(e, w)
        case None =>
          CheckedInputsExist(Reserve, w.stock, r.company, c.region, reqs);
          var reserved := w.(stock := UseInputs(Reserve, w.stock, r.company, c.region, reqs));
          // The workforce modifiers are resolved only now, after the reservations were written.
          if !ValidWorkforce(c.workforce) then Thrown(Inconsistent, reserved)
          // The insert comes last: a key that is taken is found only here.
          else if id in w.jobs then Thrown(Conflict, reserved)
          else
            var duration := ApplyDuration(recipe.duration, ProductionMultiplier(c.workforce));
            Done(reserved.(jobs := w.jobs[id :=
              Job(r.company, c.region, recipe, InProgress, r.runs, tick, tick + duration, None)]))
  }

  function CancelJob(w: World, id: Id, tick: int): Outcome {
    if tick < 0 then Thrown(BadInput, w)
    else if id !in w.jobs then Thrown(NotFound, w)
    else
      var job := w.jobs[id];
      if !job.status.InProgress? then Done(w)
      else if !Runnable(job.recipe.inputs, job.runs) then Thrown(BadInput, w)
      else
        var reqs := Requirements(job.recipe.inputs, job.runs);
        match CheckInputs(Release, w.stock, job.company, job.region, reqs)
        case Some(e) => Thrown(e, w)
        case None =>
          CheckedInputsExist(Release, w.stock, job.company, job.region, reqs);
          Done(w.(stock := UseInputs(Release, w.stock, job.company, job.region, reqs),
                  jobs := w.jobs[id := job.(status := JobCancelled, completed := Some(tick))]))
  }

  function OutputKey(job: Job): RowKey { RowKey(job.company, job.recipe.output, job.region) }

  // The rows after a job: inputs consumed, output credited.
  function StockAfterJob(stock: map<RowKey, Stock>, job: Job): map<RowKey, Stock>
    requires forall k :: 0 <= k < |job.recipe.inputs| ==>
            RowKey(job.company, job.recipe.inputs[k].item, job.region) in stock
  {
    Credit(UseInputs(Consume, stock, job.company, job.region, Requirements(job.recipe.inputs, job.runs)),
           OutputKey(job), job.recipe.outputQuantity * job.runs)
  }

  // The body of completeDueProductionJobs for one job; a job that is not due is skipped.
  ghost function CompleteJob(w: World, id: Id, tick: int): Outcome {
    if id !in w.jobs || !w.jobs[id].status.InProgress? || tick < w.jobs[id].due then Done(w)
    else
      var job := w.jobs[id];
      if !Runnable(job.recipe.inputs, job.runs) then Thrown(BadInput, w)
      else
        var reqs := Requirements(job.recipe.inputs, job.runs);
        match CheckInputs(Consume, w.stock, job.company, job.region, reqs)
        case Some(e) => Thrown(e, w)
        case None =>
          CheckedInputsExist(Consume, w.stock, job.company, job.region, reqs);
          var net := job.recipe.outputQuantity * job.runs - TotalNeeded(reqs);
          if net > 0 && !Fits(w, job.company, job.region, net) then Thrown(StorageFull, w)
          else
            assert forall k :: 0 <= k < |job.recipe.inputs| ==> reqs[k].item == job.recipe.inputs[k].item;
            FinishJob(w, id, tick)
  }

  // The writes once the checks have passed.
  function FinishJob(w: World, id: Id, tick: int): Outcome
    requires id in w.jobs
    requires forall k :: 0 <= k < |w.jobs[id].recipe.inputs| ==>
               RowKey(w.jobs[id].company, w.jobs[id].recipe.inputs[k].item, w.jobs[id].region) in w.stock
  {
    var job := w.jobs[id];
    var made := w.(stock := StockAfterJob(w.stock, job));
    if job.company !in w.companies then Thrown(NotFound, made)
    else
      Done(made.(jobs := w.jobs[id := job.(status := JobCompleted, completed := Some(tick))],
                 ledger := w.ledger + [Entry(job.company, tick, ProductionCompletion, 0, 0,
                     w.companies[job.company].cash)]))
  }

  ghost function CompleteJobs(w: World, due: seq<Id>, tick: int): Outcome
    decreases |due|
  {
    if due == [] then Done(w)
    else
      match CompleteJob(w, due[0], tick)
      case Thrown(e, open) => Thrown(e, open)
      case Done(next) => CompleteJobs(next, due[1..], tick)
  }

  // ---------------------------------------------------------------- auto-start

  // A recipe in code order, with whether it passes the profit test and the key its job would get.
  datatype Candidate = Candidate(recipe: Id, profitable: bool, locked: bool, job: Id)

  datatype StartResult = Started(count: int, world: World) | StartThrown(error: Error, open: World)

  // The loop of startProfitableProductionForCompanyWithTx: domain errors are swallowed inside the open transaction,
  // so the next recipe starts from whatever the failed one had written. A taken key is no domain error and ends it.
  function StartEach(w: World, company: Id, candidates: seq<Candidate>, maxJobs: int, started: int,
      tick: int): StartResult
    decreases |candidates|
  {
    if candidates == [] || started >= maxJobs then Started(started, w)
    else
      var c := candidates[0];
      if !c.profitable then StartEach(w, company, candidates[1..], maxJobs, started, tick)
      else
        match CreateJob(w, JobRequest(company, c.recipe, 1, c.locked), c.job, tick)
        case Thrown(e, open) =>
          if e.Conflict? then StartThrown(Conflict, open)
          else StartEach(open, company, candidates[1..], maxJobs, started, tick)
        case Done(next) => StartEach(next, company, candidates[1..], maxJobs, started + 1, tick)
  }

  predicate HasActiveJob(w: World, company: Id) {
    exists j :: j in w.jobs && w.jobs[j].company == company && w.jobs[j].status.InProgress?
  }

  function AutoStart(w: World, company: Id, candidates: seq<Candidate>, maxJobs: int, tick: int): StartResult {
    if tick < 0 || maxJobs <= 0 then StartThrown(BadInput, w)
    else if company !in w.companies then StartThrown(NotFound, w)
    else
      var c := w.companies[company];
      if !(0 <= c.reserved <= c.cash) then StartThrown(Inconsistent, w)
      else if c.cash - c.reserved <= 0 || HasActiveJob(w, company) then Started(0, w)
      else StartEach(w, company, candidates, maxJobs, 0, tick)
  }
}
