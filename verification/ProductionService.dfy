/** Production jobs, statement by statement on the tables. */
module ProductionService {
  import opened Rows
  import opened Storage
  import opened Payroll
  import opened Production
  import opened Database

  // The checking loop.
  method CheckRows(tx: Tables, use: Use, company: Id, region: Id, reqs: seq<Ingredient>) returns (error: Option<Error>)
    ensures error == CheckInputs(use, tx.stock, company, region, reqs)
  {
    for i := 0 to |reqs|
      invariant CheckInputs(use, tx.stock, company, region, reqs[i..]) ==
              CheckInputs(use, tx.stock, company, region, reqs)
    {
      assert reqs[i..][0] == reqs[i] && reqs[i..][1..] == reqs[i + 1..];
      var key := RowKey(company, reqs[i].item, region);
      if key !in tx.stock { return Some(if use.Reserve? then InsufficientInventory else Inconsistent); }
      error := Guard(use, tx.stock[key], reqs[i].quantity);
      if error.Some? { return; }
    }
    return None;
  }

  // The writing loop.
  method UseRows(tx: Tables, use: Use, company: Id, region: Id, reqs: seq<Ingredient>)
    requires forall k :: 0 <= k < |reqs| ==> RowKey(company, reqs[k].item, region) in tx.stock
    modifies tx`stock
    ensures tx.stock == UseInputs(use, old(tx.stock), company, region, reqs)
  {
    for i := 0 to |reqs|
      invariant forall k :: 0 <= k < |reqs| ==> RowKey(company, reqs[k].item, region) in tx.stock
      invariant forall k :: 0 <= k < |reqs[i..]| ==> RowKey(company, reqs[i..][k].item, region) in tx.stock
      invariant UseInputs(use, tx.stock, company, region, reqs[i..]) ==
              UseInputs(use, old(tx.stock), company, region, reqs)
    {
      var rest := reqs[i..];
      assert rest[0] == reqs[i] && rest[1..] == reqs[i + 1..];
      var key := RowKey(company, reqs[i].item, region);
      tx.stock := tx.stock[key := Used(use, tx.stock[key], reqs[i].quantity)];
    }
  }

  method CreateProductionJob(tx: Tables, r: JobRequest, id: Id, tick: int) returns (error: Option<Error>)
    modifies tx
    ensures Result(error, tx.State()) == CreateJob(old(tx.State()), r, id, tick)
  {
    if r.runs <= 0 || tick < 0 { return Some(BadInput); }
    if r.company !in tx.companies || r.recipe !in tx.catalogue.recipes { return Some(NotFound); }
    if r.locked { return Some(Refused); }
    var company, recipe := tx.companies[r.company], tx.catalogue.recipes[r.recipe];
    if recipe.duration < 0 { return Some(BadInput); }
    if company.isPlayer && !HasProductionBuilding(tx.State(), r.company) { return Some(Refused); }
    if !Runnable(recipe.inputs, r.runs) { return Some(BadInput); }
    var reqs := Requirements(recipe.inputs, r.runs);
    error := CheckRows(tx, Reserve, r.company, company.region, reqs);
    if error.Some? { return; }
    CheckedInputsExist(Reserve, tx.stock, r.company, company.region, reqs);
    UseRows(tx, Reserve, r.company, company.region, reqs);
    if !ValidWorkforce(company.workforce) { return Some(Inconsistent); }
    if id in tx.jobs { return Some(Conflict); }
    var duration := ApplyDuration(recipe.duration, ProductionMultiplier(company.workforce));
    tx.jobs := tx.jobs[id := Job(r.company, company.region, recipe, InProgress, r.runs, tick, tick + duration, None)];
    return None;
  }

  method CancelProductionJob(tx: Tables, id: Id, tick: int) returns (error: Option<Error>)
    modifies tx
    ensures Result(error, tx.State()) == CancelJob(old(tx.State()), id, tick)
  {
    if tick < 0 { return Some(BadInput); }
    if id !in tx.jobs { return Some(NotFound); }
    var job := tx.jobs[id];
    if !job.status.InProgress? { return None; }
    if !Runnable(job.recipe.inputs, job.runs) { return Some(BadInput); }
    var reqs := Requirements(job.recipe.inputs, job.runs);
    error := CheckRows(tx, Release, job.company, job.region, reqs);
    if error.Some? { return; }
    CheckedInputsExist(Release, tx.stock, job.company, job.region, reqs);
    UseRows(tx, Release, job.company, job.region, reqs);
    tx.jobs := tx.jobs[id := job.(status := JobCancelled, completed := Some(tick))];
    return None;
  }

  method TotalOf(reqs: seq<Ingredient>) returns (total: int)
    ensures total == TotalNeeded(reqs)
  {
    total := 0;
    for i := 0 to |reqs|
      invariant total + TotalNeeded(reqs[i..]) == TotalNeeded(reqs)
    {
      assert reqs[i..][0] == reqs[i] && reqs[i..][1..] == reqs[i + 1..];
      total := total + reqs[i].quantity;
    }
  }

  // Inputs consumed, output credited, the job closed.
  method WriteCompletion(tx: Tables, id: Id, reqs: seq<Ingredient>, tick: int) returns (error: Option<Error>)
    requires id in tx.jobs && reqs == Requirements(tx.jobs[id].recipe.inputs, tx.jobs[id].runs)
    requires forall k :: 0 <= k < |reqs| ==> RowKey(tx.jobs[id].company, reqs[k].item, tx.jobs[id].region) in tx.stock
    modifies tx
    ensures forall k :: 0 <= k < |old(tx.jobs)[id].recipe.inputs| ==>
              RowKey(old(tx.jobs)[id].company, old(tx.jobs)[id].recipe.inputs[k].item,
                  old(tx.jobs)[id].region) in old(tx.stock)
    ensures Result(error, tx.State()) == FinishJob(old(tx.State()), id, tick)
  {
    var job := tx.jobs[id];
    MoveStock(tx, job, reqs);
    hide StockAfterJob;
    if job.company !in tx.companies { return Some(NotFound); }
    tx.jobs := tx.jobs[id := job.(status := JobCompleted, completed := Some(tick))];
    tx.AppendEntry(Entry(job.company, tick, ProductionCompletion, 0, 0, tx.companies[job.company].cash));
    return None;
  }

  method MoveStock(tx: Tables, job: Job, reqs: seq<Ingredient>)
    requires reqs == Requirements(job.recipe.inputs, job.runs)
    requires forall k :: 0 <= k < |reqs| ==> RowKey(job.company, reqs[k].item, job.region) in tx.stock
    modifies tx`stock
    ensures forall k :: 0 <= k < |job.recipe.inputs| ==>
            RowKey(job.company, job.recipe.inputs[k].item, job.region) in old(tx.stock)
    ensures tx.stock == StockAfterJob(old(tx.stock), job)
  {
    assert forall k :: 0 <= k < |job.recipe.inputs| ==> reqs[k].item == job.recipe.inputs[k].item;
    UseRows(tx, Consume, job.company, job.region, reqs);
    tx.CreditStock(OutputKey(job), job.recipe.outputQuantity * job.runs);
  }

  // The loop body of completeDueProductionJobs.
  method CompleteProductionJob(tx: Tables, id: Id, tick: int) returns (error: Option<Error>)
    modifies tx
    ensures Result(error, tx.State()) == CompleteJob(old(tx.State()), id, tick)
  {
    hide FinishJob, Fits, UseInputs, CheckInputs, TotalNeeded, Requirements, OutputKey;
    if id !in tx.jobs || !tx.jobs[id].status.InProgress? || tick < tx.jobs[id].due { return None; }
    var job := tx.jobs[id];
    if !Runnable(job.recipe.inputs, job.runs) { return Some(BadInput); }
    var reqs := Requirements(job.recipe.inputs, job.runs);
    error := CheckRows(tx, Consume, job.company, job.region, reqs);
    if error.Some? { return; }
    CheckedInputsExist(Consume, tx.stock, job.company, job.region, reqs);
    var used := TotalOf(reqs);
    var net := job.recipe.outputQuantity * job.runs - used;
    if net > 0 {
      var room := tx.HasRoom(job.company, job.region, net);
      if !room { return Some(StorageFull); }
    }
    error := WriteCompletion(tx, id, reqs, tick);
  }

  method CompleteDueProductionJobs(tx: Tables, due: seq<Id>, tick: int) returns (error: Option<Error>)
    modifies tx
    ensures Result(error, tx.State()) == CompleteJobs(old(tx.State()), due, tick)
  {
    hide CompleteJob;
    for i := 0 to |due|
      invariant CompleteJobs(tx.State(), due[i..], tick) == CompleteJobs(old(tx.State()), due, tick)
    {
      assert due[i..][0] == due[i] && due[i..][1..] == due[i + 1..];
      error := CompleteProductionJob(tx, due[i], tick);
      if error.Some? { return; }
    }
    return None;
  }

  // startProfitableProductionForCompanyWithTx: a creation that fails for a domain reason is skipped, with whatever it
  // wrote left in place; any other failure is thrown on.
  method StartProfitableProduction(tx: Tables, company: Id, candidates: seq<Candidate>, maxJobs: int, tick: int)
    returns (error: Option<Error>, count: int)
    modifies tx
    ensures var out := AutoStart(old(tx.State()), company, candidates, maxJobs, tick);
            if error.None? then out == Started(count, tx.State()) else out == StartThrown(error.value, tx.State())
  {
    count := 0;
    if tick < 0 || maxJobs <= 0 { return Some(BadInput), 0; }
    if company !in tx.companies { return Some(NotFound), 0; }
    var c := tx.companies[company];
    if !(0 <= c.reserved <= c.cash) { return Some(Inconsistent), 0; }
    if c.cash - c.reserved <= 0 || HasActiveJob(tx.State(), company) { return None, 0; }
    var i := 0;
    hide CreateJob;
    while i < |candidates| && count < maxJobs
      invariant i <= |candidates|
      invariant StartEach(tx.State(), company, candidates[i..], maxJobs, count, tick)
             == StartEach(old(tx.State()), company, candidates, maxJobs, 0, tick)
    {
      assert candidates[i..][0] == candidates[i] && candidates[i..][1..] == candidates[i + 1..];
      var candidate := candidates[i];
      if candidate.profitable {
        var failed := CreateProductionJob(tx, JobRequest(company, candidate.recipe, 1, candidate.locked),
            candidate.job, tick);
        if failed == Some(Conflict) { return failed, count; }
        if failed.None? { count := count + 1; }
      }
      i := i + 1;
    }
    return None, count;
  }
}
