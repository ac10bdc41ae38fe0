/** Production jobs keep the books, and their reservations are always there to release or consume. */
module ProductionBooks {
  import opened Rows
  import opened Sums
  import opened Storage
  import opened Market
  import opened Payroll
  import opened Production
  import opened Accounting

  predicate RowsPresent(stock: map<RowKey, Stock>, company: Id, region: Id, reqs: seq<Ingredient>) {
    forall k :: 0 <= k < |reqs| ==> RowKey(company, reqs[k].item, region) in stock
  }

  predicate Local(k: RowKey, company: Id, region: Id) { k.company == company && k.region == region }

  // Applying the requirements one row at a time changes each row of the region by all that is needed of its item.
  lemma {:induction false} UseInputsEffect(
    use: Use, stock: map<RowKey, Stock>, company: Id, region: Id, reqs: seq<Ingredient>)
    requires RowsPresent(stock, company, region, reqs)
    ensures var after := UseInputs(use, stock, company, region, reqs);
            && after.Keys == stock.Keys
            && forall k :: k in stock ==>
                 after[k] == if Local(k, company, region) then Used(use, stock[k], Needed(reqs, k.item)) else stock[k]
    decreases |reqs|
  {
    if reqs != [] {
      var key := RowKey(company, reqs[0].item, region);
      var mid := stock[key := Used(use, stock[key], reqs[0].quantity)];
      assert RowsPresent(mid, company, region, reqs[1..]) by {
        forall k | 0 <= k < |reqs[1..]| ensures RowKey(company, reqs[1..][k].item, region) in mid {
          assert reqs[1..][k] == reqs[k + 1];
        }
      }
      UseInputsEffect(use, mid, company, region, reqs[1..]);
    }
  }

  lemma {:induction false} NeededOf(reqs: seq<Ingredient>, item: Id)
    requires forall i, j :: 0 <= i < j < |reqs| ==> reqs[i].item != reqs[j].item
    ensures forall i :: 0 <= i < |reqs| && reqs[i].item == item ==> Needed(reqs, item) == reqs[i].quantity
    ensures (forall i :: 0 <= i < |reqs| ==> reqs[i].item != item) ==> Needed(reqs, item) == 0
  {
    if reqs != [] {
      NeededOf(reqs[1..], item);
      forall i | 0 <= i < |reqs| && reqs[i].item == item ensures Needed(reqs, item) == reqs[i].quantity {
        if i == 0 {
          forall j | 0 <= j < |reqs[1..]| ensures reqs[1..][j].item != item { assert reqs[1..][j] == reqs[j + 1]; }
        } else {
          assert reqs[1..][i - 1] == reqs[i];
        }
      }
    }
  }

  // How much of an item one run of a recipe takes.
  function PerRun(inputs: seq<Ingredient>, item: Id): int {
    if inputs == [] then 0 else (if inputs[0].item == item then inputs[0].quantity else 0) + PerRun(inputs[1..], item)
  }

  lemma {:induction false} NeededIsRunsTimesInput(inputs: seq<Ingredient>, runs: int, item: Id)
    ensures Needed(Requirements(inputs, runs), item) == runs * PerRun(inputs, item)
  {
    if inputs != [] { NeededIsRunsTimesInput(inputs[1..], runs, item); }
  }

  predicate DistinctItems(reqs: seq<Ingredient>) {
    forall i, j :: 0 <= i < j < |reqs| ==> reqs[i].item != reqs[j].item
  }

  // Checked requirements on distinct items leave every row in range.
  lemma UsedRowsOk(use: Use, stock: map<RowKey, Stock>, company: Id, region: Id, reqs: seq<Ingredient>)
    requires DistinctItems(reqs) && StockRowsOk(stock) && CheckInputs(use, stock, company, region, reqs).None?
    ensures RowsPresent(stock, company, region, reqs)
    ensures StockRowsOk(UseInputs(use, stock, company, region, reqs))
  {
    CheckedInputsExist(use, stock, company, region, reqs);
    UseInputsEffect(use, stock, company, region, reqs);
    var after := UseInputs(use, stock, company, region, reqs);
    forall k | k in after ensures StockOk(after[k]) {
      NeededOf(reqs, k.item);
      if Local(k, company, region) {
        if i :| 0 <= i < |reqs| && reqs[i].item == k.item {
          assert RowKey(company, reqs[i].item, region) == k;
          assert Guard(use, stock[k], reqs[i].quantity).None?;
        }
      }
    }
  }

  // An item with no row is not among the requirements.
  lemma AbsentNotNeeded(stock: map<RowKey, Stock>, company: Id, region: Id, reqs: seq<Ingredient>, k: RowKey)
    requires DistinctItems(reqs) && RowsPresent(stock, company, region, reqs) && Local(k, company, region) &&
            k !in stock
    ensures Needed(reqs, k.item) == 0
  {
    NeededOf(reqs, k.item);
    forall i | 0 <= i < |reqs| ensures reqs[i].item != k.item {
      assert RowKey(company, reqs[i].item, region) in stock;
    }
  }

  function Sign(use: Use): int { if use.Reserve? then 1 else -1 }

  // What using the requirements does to the reserved stock of any key.
  lemma UsedReserved(use: Use, stock: map<RowKey, Stock>, company: Id, region: Id, reqs: seq<Ingredient>, k: RowKey)
    requires DistinctItems(reqs) && RowsPresent(stock, company, region, reqs)
    ensures ReservedAt(UseInputs(use, stock, company, region, reqs), k)
         == ReservedAt(stock, k) + (if Local(k, company, region) then Sign(use) * Needed(reqs, k.item) else 0)
  {
    UseInputsEffect(use, stock, company, region, reqs);
    if Local(k, company, region) && k !in stock {
      AbsentNotNeeded(stock, company, region, reqs, k);
    }
  }

  // A job row and the reservations behind it change together.
  lemma StockBackedJob(
    stock: map<RowKey, Stock>, orders: map<Id, Order>, jobs: map<Id, Job>, use: Use, id: Id, job: Job)
    requires StockBacked(stock, orders, jobs) && DistinctItems(JobNeeds(job))
    requires RowsPresent(stock, job.company, job.region, JobNeeds(job))
    requires use.Reserve? ==> job.status.InProgress? && id !in jobs
    requires !use.Reserve? ==> id in jobs && jobs[id].status.InProgress? && !job.status.InProgress?
                               && job == jobs[id].(status := job.status, completed := job.completed)
    ensures StockBacked(UseInputs(use, stock, job.company, job.region, JobNeeds(job)), orders, jobs[id := job])
  {
    var after := UseInputs(use, stock, job.company, job.region, JobNeeds(job));
    var jobs' := jobs[id := job];
    JobPut(jobs, id, job);
    forall k ensures ReservedAt(after, k) == SellClaims(orders, k) + JobClaims(jobs', k) {
      UsedReserved(use, stock, job.company, job.region, JobNeeds(job), k);
      assert ReservedAt(stock, k) == SellClaims(orders, k) + JobClaims(jobs, k);
      if use.Reserve? {
        assert At(jobs, JobClaim(k), id) == 0;
      } else {
        assert JobNeeds(job) == JobNeeds(jobs[id]);
      }
    }
  }

  lemma NeedsDistinct(job: Job)
    requires DistinctInputs(job.recipe.inputs)
    ensures DistinctItems(JobNeeds(job))
  {
  }

  // The row behind one input of a running job has at least that input reserved.
  lemma InputCovered(w: World, id: Id, i: nat)
    requires Books(w) && id in w.jobs && w.jobs[id].status.InProgress? && i < |JobNeeds(w.jobs[id])|
    ensures var job, need := w.jobs[id], JobNeeds(w.jobs[id])[i];
            var k := RowKey(job.company, need.item, job.region);
            k in w.stock && 0 < need.quantity <= w.stock[k].reserved <= w.stock[k].quantity
  {
    var job := w.jobs[id];
    var reqs := JobNeeds(job);
    NeedsPositive(job);
    NeedsDistinct(job);
    NeededOf(reqs, reqs[i].item);
    var k := RowKey(job.company, reqs[i].item, job.region);
    JobClaimsNonNegative(w.jobs, w.companies, k);
    SellClaimsNonNegative(w.orders, w.companies, k);
    assert ReservedAt(w.stock, k) == SellClaims(w.orders, k) + JobClaims(w.jobs, k);
    assert JobClaim(k)(id, job) == reqs[i].quantity;
  }

  // The reservations of a running job are there: release and consume pass all their checks.
  lemma {:induction false} InputsCovered(w: World, id: Id, use: Use, from: nat)
    requires Books(w) && id in w.jobs && w.jobs[id].status.InProgress? && !use.Reserve?
    requires from <= |JobNeeds(w.jobs[id])|
    ensures CheckInputs(use, w.stock, w.jobs[id].company, w.jobs[id].region, JobNeeds(w.jobs[id])[from..]).None?
    decreases |JobNeeds(w.jobs[id])| - from
  {
    hide Books, JobNeeds;
    var reqs := JobNeeds(w.jobs[id]);
    if from < |reqs| {
      InputCovered(w, id, from);
      InputsCovered(w, id, use, from + 1);
      assert reqs[from..][1..] == reqs[from + 1..] && reqs[from..][0] == reqs[from];
    }
  }

  lemma JobReservationsHold(w: World, id: Id, use: Use)
    requires Books(w) && id in w.jobs && w.jobs[id].status.InProgress? && !use.Reserve?
    ensures CheckInputs(use, w.stock, w.jobs[id].company, w.jobs[id].region, JobNeeds(w.jobs[id])).None?
    ensures RowsPresent(w.stock, w.jobs[id].company, w.jobs[id].region, JobNeeds(w.jobs[id]))
    ensures DistinctItems(JobNeeds(w.jobs[id]))
  {
    var reqs := JobNeeds(w.jobs[id]);
    InputsCovered(w, id, use, 0);
    assert reqs[0..] == reqs;
    CheckedInputsExist(use, w.stock, w.jobs[id].company, w.jobs[id].region, reqs);
    NeedsDistinct(w.jobs[id]);
  }

  lemma CreateJobKeepsBooks(w: World, r: JobRequest, id: Id, tick: int)
    requires Books(w) && CreateJob(w, r, id, tick).Done?
    ensures Books(CreateJob(w, r, id, tick).world)
  {
    var next := CreateJob(w, r, id, tick).world;
    var job := next.jobs[id];
    NeedsDistinct(job);
    UsedRowsOk(Reserve, w.stock, job.company, job.region, JobNeeds(job));
    StockBackedJob(w.stock, w.orders, w.jobs, Reserve, id, job);
  }

  // A cancel of any existing job goes through and keeps the books.
  lemma CancelJobKeepsBooks(w: World, id: Id, tick: nat)
    requires Books(w) && id in w.jobs
    ensures CancelJob(w, id, tick).Done? && Books(CancelJob(w, id, tick).world)
  {
    var job := w.jobs[id];
    if job.status.InProgress? {
      JobReservationsHold(w, id, Release);
      UsedRowsOk(Release, w.stock, job.company, job.region, JobNeeds(job));
      StockBackedJob(w.stock, w.orders, w.jobs, Release, id, job.(status := JobCancelled, completed := Some(tick)));
    }
  }

  lemma ConsumedStockOk(w: World, id: Id, done: Job)
    requires Books(w) && id in w.jobs && w.jobs[id].status.InProgress?
    requires done == w.jobs[id].(status := JobCompleted, completed := done.completed)
    ensures RowsPresent(w.stock, done.company, done.region, JobNeeds(done))
    ensures forall k :: 0 <= k < |done.recipe.inputs| ==>
            RowKey(done.company, done.recipe.inputs[k].item, done.region) in w.stock
    ensures StockRowsOk(StockAfterJob(w.stock, done))
    ensures StockBacked(StockAfterJob(w.stock, done), w.orders, w.jobs[id := done])
  {
    assert JobNeeds(done) == JobNeeds(w.jobs[id]);
    JobReservationsHold(w, id, Consume);
    forall k | 0 <= k < |done.recipe.inputs|
      ensures RowKey(done.company, done.recipe.inputs[k].item, done.region) in w.stock
    {
      assert JobNeeds(done)[k].item == done.recipe.inputs[k].item;
    }
    UsedRowsOk(Consume, w.stock, done.company, done.region, JobNeeds(done));
    StockBackedJob(w.stock, w.orders, w.jobs, Consume, id, done);
    var mid := UseInputs(Consume, w.stock, done.company, done.region, JobNeeds(done));
    assert done.recipe.outputQuantity * done.runs >= 0;
    CreditKeeps(mid, OutputKey(done), done.recipe.outputQuantity * done.runs);
    StockBackedByReserved(mid, StockAfterJob(w.stock, done), w.orders, w.jobs[id := done]);
  }

  // The net stock a job adds, which is what its storage check is about.
  function NetOutput(job: Job): int { job.recipe.outputQuantity * job.runs - TotalNeeded(JobNeeds(job)) }

  // A due job is completed, or its net output does not fit: no other throw is possible.
  lemma CompleteJobKeepsBooks(w: World, id: Id, tick: int)
    requires Books(w)
    ensures CompleteJob(w, id, tick).Done? ==> Books(CompleteJob(w, id, tick).world)
    ensures CompleteJob(w, id, tick).Thrown? <==>
              id in w.jobs && w.jobs[id].status.InProgress? && w.jobs[id].due <= tick &&
              NetOutput(w.jobs[id]) > 0 && !Fits(w, w.jobs[id].company, w.jobs[id].region, NetOutput(w.jobs[id]))
    ensures CompleteJob(w, id, tick).Thrown? ==> CompleteJob(w, id, tick) == Thrown(StorageFull, w)
  {
    hide Fits, CashBacked, StockBacked, UseInputs, CheckInputs, TotalNeeded;
    if id in w.jobs && w.jobs[id].status.InProgress? && w.jobs[id].due <= tick {
      JobReservationsHold(w, id, Consume);
      ConsumedStockOk(w, id, w.jobs[id].(status := JobCompleted, completed := Some(tick)));
    }
  }

  // ---------------------------------------------------------------- failure atomicity of create and auto-start

  // Every check of createProductionJob up to the first write passes.
  predicate ReachesReservation(w: World, r: JobRequest, tick: int) {
    && r.runs > 0 && tick >= 0 && r.company in w.companies && r.recipe in w.catalogue.recipes && !r.locked
    && var recipe := w.catalogue.recipes[r.recipe];
       && recipe.duration >= 0 && Runnable(recipe.inputs, r.runs)
       && (w.companies[r.company].isPlayer ==> HasProductionBuilding(w, r.company))
       && CheckInputs(Reserve, w.stock, r.company, w.companies[r.company].region,
           Requirements(recipe.inputs, r.runs)).None?
  }

  lemma ReservingChangesStock(stock: map<RowKey, Stock>, company: Id, region: Id, reqs: seq<Ingredient>)
    requires reqs != [] && RowsPresent(stock, company, region, reqs)
    requires forall i :: 0 <= i < |reqs| ==> reqs[i].quantity > 0
    ensures UseInputs(Reserve, stock, company, region, reqs) != stock
  {
    var k := RowKey(company, reqs[0].item, region);
    UseInputsEffect(Reserve, stock, company, region, reqs);
    NeededNonNegative(reqs[1..], k.item);
    assert UseInputs(Reserve, stock, company, region, reqs)[k].reserved > stock[k].reserved;
  }

  // A failed create leaves reservations behind in the open transaction exactly when it got past its last check on
  // the inputs, has inputs to reserve, and the company's workforce state is invalid or its new key is taken.
  lemma CreateJobLeaks(w: World, r: JobRequest, id: Id, tick: int)
    ensures CreateJob(w, r, id, tick).Thrown? && CreateJob(w, r, id, tick).open != w
       <==> ReachesReservation(w, r, tick) && w.catalogue.recipes[r.recipe].inputs != []
            && (!ValidWorkforce(w.companies[r.company].workforce) || id in w.jobs)
  {
    if ReachesReservation(w, r, tick) {
      var region, inputs := w.companies[r.company].region, w.catalogue.recipes[r.recipe].inputs;
      var reqs := Requirements(inputs, r.runs);
      CheckedInputsExist(Reserve, w.stock, r.company, region, reqs);
      if reqs != [] {
        forall i | 0 <= i < |reqs| ensures reqs[i].quantity > 0 { assert inputs[i].quantity > 0; }
        ReservingChangesStock(w.stock, r.company, region, reqs);
      }
    }
  }

  // What a run of auto-start may have done after `count` successes.
  ghost predicate StartedJobs(w: World, next: World, count: int) {
    && Books(next) && next == w.(stock := next.stock, jobs := next.jobs)
    && |next.jobs| == |w.jobs| + count
    && (forall j :: j in w.jobs ==> j in next.jobs && next.jobs[j] == w.jobs[j])
    && (count == 0 ==> next == w)
  }

  lemma CreateJobStarts(w: World, r: JobRequest, id: Id, tick: int)
    requires Books(w)
    ensures CreateJob(w, r, id, tick).Done? ==> StartedJobs(w, CreateJob(w, r, id, tick).world, 1)
    ensures CreateJob(w, r, id, tick).Thrown? && !CreateJob(w, r, id, tick).error.Conflict? ==>
            CreateJob(w, r, id, tick).open == w
    ensures CreateJob(w, r, id, tick).Thrown? && CreateJob(w, r, id, tick).error.Conflict? ==> id in w.jobs
  {
    CreateJobLeaks(w, r, id, tick);
    if CreateJob(w, r, id, tick).Done? { CreateJobKeepsBooks(w, r, id, tick); }
  }

  lemma NothingStarted(w: World)
    requires Books(w)
    ensures StartedJobs(w, w, 0)
  {
  }

  lemma StartedJobsBooks(w: World, next: World, count: int)
    requires StartedJobs(w, next, count)
    ensures Books(next)
  {
  }

  lemma StartedJobsCompose(w: World, mid: World, next: World, count: int)
    requires StartedJobs(w, mid, 1) && StartedJobs(mid, next, count) && count >= 0
    ensures StartedJobs(w, next, count + 1)
  {
  }

  lemma StartEachEnds(w: World, company: Id, candidates: seq<Candidate>, maxJobs: int, started: int, tick: int)
    requires candidates == [] || started >= maxJobs
    ensures StartEach(w, company, candidates, maxJobs, started, tick) == Started(started, w)
  {
  }

  // One turn of the auto-start loop, from books that balance.
  lemma StartEachTurn(w: World, company: Id, candidates: seq<Candidate>, maxJobs: int, started: int, tick: int)
    requires Books(w) && candidates != [] && started < maxJobs
    ensures var c, run := candidates[0], StartEach(w, company, candidates, maxJobs, started, tick);
            var out := CreateJob(w, JobRequest(company, c.recipe, 1, c.locked), c.job, tick);
            if c.profitable && out.Done?
            then run == StartEach(out.world, company, candidates[1..], maxJobs, started + 1, tick)
            else if c.profitable && out.error.Conflict? then run == StartThrown(Conflict, out.open)
            else run == StartEach(w, company, candidates[1..], maxJobs, started, tick)
  {
    hide Books, CreateJob;
    var c := candidates[0];
    CreateJobStarts(w, JobRequest(company, c.recipe, 1, c.locked), c.job, tick);
  }

  // Auto-start swallows domain errors inside the open transaction, yet the books stay exact: the number it reports is
  // the number of jobs it created, at most maxJobs, and nothing is reserved for a recipe it skipped. Only a taken key
  // ends it early.
  lemma {:induction false} StartEachKeepsBooks(w: World, company: Id, candidates: seq<Candidate>, maxJobs: int,
      started: int, tick: int)
    requires Books(w) && started <= maxJobs
    ensures var run := StartEach(w, company, candidates, maxJobs, started, tick);
            if run.Started? then started <= run.count <= maxJobs && StartedJobs(w, run.world, run.count - started)
            else run.error == Conflict
    decreases |candidates|
  {
    hide *;
    if candidates == [] || started >= maxJobs {
      StartEachEnds(w, company, candidates, maxJobs, started, tick);
      NothingStarted(w);
    } else {
      StartEachTurn(w, company, candidates, maxJobs, started, tick);
      var c, r := candidates[0], JobRequest(company, candidates[0].recipe, 1, candidates[0].locked);
      CreateJobStarts(w, r, c.job, tick);
      var out := CreateJob(w, r, c.job, tick);
      if c.profitable && out.Done? {
        StartedJobsBooks(w, out.world, 1);
        StartEachKeepsBooks(out.world, company, candidates[1..], maxJobs, started + 1, tick);
        var rest := StartEach(out.world, company, candidates[1..], maxJobs, started + 1, tick);
        if rest.Started? { StartedJobsCompose(w, out.world, rest.world, rest.count - started - 1); }
      } else {
        StartEachKeepsBooks(w, company, candidates[1..], maxJobs, started, tick);
      }
    }
  }

  lemma AutoStartKeepsBooks(w: World, company: Id, candidates: seq<Candidate>, maxJobs: int, tick: int)
    requires Books(w)
    ensures var out := AutoStart(w, company, candidates, maxJobs, tick);
            if out.Started? then 0 <= out.count <= maxJobs && StartedJobs(w, out.world, out.count)
            else out.open == w || out.error == Conflict
  {
    if company in w.companies && maxJobs > 0 {
      StartEachKeepsBooks(w, company, candidates, maxJobs, 0, tick);
    }
  }
}
