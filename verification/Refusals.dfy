/** When a bot action is refused, and that the first refusal undoes the whole tick. */
module Refusals {
  import opened Rows
  import opened Market
  import opened Production
  import opened Pipeline
  import opened Accounting
  import opened MarketBooks
  import opened ProductionBooks
  import opened Health
  import Conservation
  import opened Stages
  import opened TickTheory

  // Everything a placement checks, in terms of the tables before it.
  predicate PlacementOk(w: World, r: OrderRequest, id: Id, tick: int) {
    && r.quantity > 0 && r.price > 0 && tick >= 0
    && r.company in w.companies && r.item in w.catalogue.items && !r.locked && id !in w.orders
    && var c := w.companies[r.company];
       && (r.region.Some? ==> r.region.value == c.region)
       && if r.side.Buy? then r.quantity * r.price <= c.cash - c.reserved
          else
            var row := RowKey(r.company, r.item, c.region);
            row in w.stock && r.quantity <= w.stock[row].quantity - w.stock[row].reserved
  }

  // What an action asks of the tables: a company's cash must cover what is reserved of it, an order to cancel must
  // exist, a placement must be affordable, an auto-start must name a limit and a company that covers its reservations.
  predicate Allowed(w: World, a: BotAction, tick: int) {
    match a
    case BotReview(company) => company in w.companies ==> w.companies[company].reserved <= w.companies[company].cash
    case BotCancel(order) => tick >= 0 && order in w.orders
    case BotPlace(r, id, _) => PlacementOk(w, r, id, tick)
    case BotProduce(company, _, maxJobs) =>
      && tick >= 0 && maxJobs > 0 && company in w.companies
      && w.companies[company].reserved <= w.companies[company].cash
  }

  // The keys new jobs get are fresh.
  predicate KeysFresh(w: World, candidates: seq<Candidate>) {
    && (forall k :: 0 <= k < |candidates| ==> candidates[k].job !in w.jobs)
    && (forall i, j :: 0 <= i < j < |candidates| ==> candidates[i].job != candidates[j].job)
  }

  predicate ActionKeysFresh(w: World, a: BotAction) { a.BotProduce? ==> KeysFresh(w, a.candidates) }

  lemma PlaceRefusedIff(w: World, r: OrderRequest, id: Id, tick: int, now: int)
    requires Books(w)
    ensures PlaceOrder(w, r, id, tick, now).Done? <==> PlacementOk(w, r, id, tick)
  {
    if r.company in w.companies {
      var c := w.companies[r.company];
      assert CompanyOk(c);
      var row := RowKey(r.company, r.item, c.region);
      if row in w.stock { assert StockOk(w.stock[row]); }
      hide Books;
      if r.side.Buy? {
        assert PlaceBuy(w, r, id, tick, now).Done? <==> ReserveCash(c.cash, c.reserved, r.quantity, r.price).Reserved?;
        if r.quantity > 0 && r.price > 0 { assert r.quantity * r.price > 0; }
      } else if row in w.stock {
        assert PlaceSell(w, r, id, tick, now).Done? <==> ReserveStock(w.stock[row], r.quantity).Reserved?;
      }
    }
  }

  lemma CancelRefusedIff(w: World, id: Id, tick: int)
    requires Books(w)
    ensures CancelOrder(w, id, tick).Done? <==> tick >= 0 && id in w.orders
  {
    if tick >= 0 && id in w.orders { CancelOrderNeverThrows(w, id, tick); }
  }

  lemma CreatedOnly(w: World, r: JobRequest, id: Id, tick: int)
    requires CreateJob(w, r, id, tick).Done?
    ensures CreateJob(w, r, id, tick).world.jobs.Keys == w.jobs.Keys + {id}
  {
  }

  lemma {:induction false} FreshKeysStart(w: World, company: Id, candidates: seq<Candidate>, maxJobs: int,
      started: int, tick: int)
    requires Books(w) && KeysFresh(w, candidates)
    ensures StartEach(w, company, candidates, maxJobs, started, tick).Started?
    decreases |candidates|
  {
    hide Books, CreateJob, StartedJobs;
    if candidates != [] && started < maxJobs {
      var c := candidates[0];
      var r := JobRequest(company, c.recipe, 1, c.locked);
      CreateJobStarts(w, r, c.job, tick);
      if c.profitable && CreateJob(w, r, c.job, tick).Done? {
        var next := CreateJob(w, r, c.job, tick).world;
        StartedJobsBooks(w, next, 1);
        CreatedOnly(w, r, c.job, tick);
        FreshKeysStart(next, company, candidates[1..], maxJobs, started + 1, tick);
      } else {
        FreshKeysStart(w, company, candidates[1..], maxJobs, started, tick);
      }
    }
  }

  lemma StartRefusedIff(w: World, company: Id, candidates: seq<Candidate>, maxJobs: int, tick: int)
    requires Books(w) && KeysFresh(w, candidates)
    ensures AutoStart(w, company, candidates, maxJobs, tick).Started? <==>
              && tick >= 0 && maxJobs > 0 && company in w.companies
              && w.companies[company].reserved <= w.companies[company].cash
  {
    if company in w.companies {
      assert CompanyOk(w.companies[company]);
      FreshKeysStart(w, company, candidates, maxJobs, 0, tick);
    }
  }

  lemma ReviewRefusedIff(w: World, company: Id)
    requires Books(w)
    ensures Review(w, company).Thrown? <==>
              company in w.companies && w.companies[company].reserved > w.companies[company].cash
  {
    if company in w.companies { assert CompanyOk(w.companies[company]); }
  }

  // An action is refused exactly when the tables do not allow it.
  lemma RefusedIff(w: World, a: BotAction, tick: int)
    requires Books(w) && ActionKeysFresh(w, a)
    ensures RunBot(w, a, tick).Thrown? <==> !Allowed(w, a, tick)
  {
    hide Books, Review, PlaceOrder, CancelOrder, AutoStart, PlacementOk;
    match a
    case BotReview(company) => ReviewRefusedIff(w, company);
    case BotCancel(order) => CancelRefusedIff(w, order, tick);
    case BotPlace(request, id, now) => PlaceRefusedIff(w, request, id, tick, now);
    case BotProduce(company, candidates, maxJobs) => StartRefusedIff(w, company, candidates, maxJobs, tick);
  }

  // ---------------------------------------------------------------- a list of actions

  // The tables when the actions before the one at k have been carried out.
  function At(w: World, actions: seq<BotAction>, tick: int, k: nat): Outcome
    requires k <= |actions|
  {
    RunBots(w, actions[..k], tick)
  }

  // The action at k is reached and refused.
  predicate RefusedAt(w: World, actions: seq<BotAction>, tick: int, k: nat)
    requires k < |actions|
  {
    At(w, actions, tick, k).Done? && !Allowed(At(w, actions, tick, k).world, actions[k], tick)
  }

  ghost predicate AllKeysFresh(w: World, actions: seq<BotAction>, tick: int)
    decreases |actions|
  {
    actions == [] ||
    (&& ActionKeysFresh(w, actions[0])
     && (RunBot(w, actions[0], tick).Done? ==> AllKeysFresh(RunBot(w, actions[0], tick).world, actions[1..], tick)))
  }

  lemma LaterTurn(w: World, actions: seq<BotAction>, tick: int, k: nat)
    requires k < |actions| - 1 && RunBot(w, actions[0], tick).Done?
    ensures RefusedAt(w, actions, tick, k + 1) <==> RefusedAt(RunBot(w, actions[0], tick).world, actions[1..], tick, k)
  {
    assert actions[..k + 1][0] == actions[0] && actions[..k + 1][1..] == actions[1..][..k];
    hide RunBot, Allowed;
  }

  lemma {:induction false} BotsThrowIff(w: World, actions: seq<BotAction>, tick: int)
    requires Sound(w) && AllKeysFresh(w, actions, tick)
    ensures RunBots(w, actions, tick).Thrown? <==> exists k :: 0 <= k < |actions| && RefusedAt(w, actions, tick, k)
    decreases |actions|
  {
    hide Sound, Solvent, Conservation.Balanced, Follows, RunBot, Allowed, ActionKeysFresh;
    if actions != [] {
      Parts(w);
      RefusedIff(w, actions[0], tick);
      FirstTurn(w, actions, tick);
      if RunBot(w, actions[0], tick).Done? {
        var mid := RunBot(w, actions[0], tick).world;
        RunBotCarries(w, actions[0], tick);
        BotsThrowIff(mid, actions[1..], tick);
        if k :| 0 <= k < |actions| - 1 && RefusedAt(mid, actions[1..], tick, k) {
          LaterTurn(w, actions, tick, k);
          assert RefusedAt(w, actions, tick, k + 1);
        }
        if k :| 0 <= k < |actions| && RefusedAt(w, actions, tick, k) {
          if k > 0 { LaterTurn(w, actions, tick, k - 1); }
        }
      } else {
        assert RefusedAt(w, actions, tick, 0);
      }
    }
  }

  lemma FirstTurn(w: World, actions: seq<BotAction>, tick: int)
    requires actions != []
    ensures RefusedAt(w, actions, tick, 0) <==> !Allowed(w, actions[0], tick)
  {
    assert actions[..0] == [];
  }

  // A refused action undoes the tick, whatever the actions before it had achieved.
  lemma RefusalUndoesTheTick(w: World, s: Schedule, tick: nat)
    requires Sound(w) && AllKeysFresh(w, s.bots, tick)
    requires exists k :: 0 <= k < |s.bots| && RefusedAt(w, s.bots, tick, k)
    ensures RunTick(w, s, tick).Thrown? && Commit(w, RunTick(w, s, tick)) == w
  {
    BotsThrowIff(w, s.bots, tick);
    RefusedBotAborts(w, s, tick);
  }

  // One tick from any sound world, its settings in order, with fresh keys: it completes, or an action was refused at
  // its turn, a store was full, the key of a new row was taken, or some company did not cover its reservations.
  lemma TickAbortsOnlyFor(w: World, s: Schedule, tick: nat)
    requires Sound(w) && Configured(s) && Served(w, s, tick) && AllKeysFresh(w, s.bots, tick)
    ensures RunTick(w, s, tick).Thrown? ==>
              || (exists k :: 0 <= k < |s.bots| && RefusedAt(w, s.bots, tick, k))
              || StopsFor(w, RunTick(w, s, tick).error) || RunTick(w, s, tick).error == Conflict
  {
    hide Sound, Follows, Solvent, RunTick, Configured, Served, RunBots, RefusedAt, AllKeysFresh;
    BotsThrowIff(w, s.bots, tick);
    RunTickCarries(w, s, tick);
  }
}
