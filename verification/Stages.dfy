/** Every stage of the tick carries health along, and only a full store can stop most of them. */
module Stages {
  import opened Rows
  import opened Matching
  import opened Market
  import opened Payroll
  import opened Production
  import Estate
  import Logistics
  import DemandSink
  import opened Pipeline
  import opened Accounting
  import opened MatchingRun
  import opened ProductionBooks
  import opened CompanyBooks
  import opened Conservation
  import opened Health
  import opened Steps

  // ---------------------------------------------------------------- bots

  lemma {:induction false} StartEachCarries(w: World, company: Id, candidates: seq<Candidate>, maxJobs: int,
      started: int, tick: int)
    requires Sound(w) && StartEach(w, company, candidates, maxJobs, started, tick).Started?
    ensures Carries(w, StartEach(w, company, candidates, maxJobs, started, tick).world)
    decreases |candidates|
  {
    hide Sound, Follows, Solvent, Balanced, CreateJob;
    if candidates == [] || started >= maxJobs {
      CarriesSelf(w);
    } else {
      var c := candidates[0];
      var r := JobRequest(company, c.recipe, 1, c.locked);
      Parts(w);
      CreateJobStarts(w, r, c.job, tick);
      if c.profitable && CreateJob(w, r, c.job, tick).Done? {
        var next := CreateJob(w, r, c.job, tick).world;
        CreateJobCarries(w, r, c.job, tick);
        StartEachCarries(next, company, candidates[1..], maxJobs, started + 1, tick);
        CarriesComposes(w, next, StartEach(next, company, candidates[1..], maxJobs, started + 1, tick).world);
      } else {
        StartEachCarries(w, company, candidates[1..], maxJobs, started, tick);
      }
    }
  }

  lemma RunBotCarries(w: World, a: BotAction, tick: int)
    requires Sound(w) && RunBot(w, a, tick).Done?
    ensures Carries(w, RunBot(w, a, tick).world)
  {
    hide Sound, Follows, Solvent, Balanced, CancelOrder, PlaceOrder, StartEach;
    match a
    case BotReview(_) => CarriesSelf(w);
    case BotCancel(order) => CancelOrderCarries(w, order, tick);
    case BotPlace(request, id, now) => PlaceOrderCarries(w, request, id, tick, now);
    case BotProduce(company, candidates, maxJobs) =>
      CarriesSelf(w);
      if StartEach(w, company, candidates, maxJobs, 0, tick).Started? {
        StartEachCarries(w, company, candidates, maxJobs, 0, tick);
      }
  }

  lemma {:induction false} RunBotsCarries(w: World, actions: seq<BotAction>, tick: int)
    requires Sound(w) && RunBots(w, actions, tick).Done?
    ensures Carries(w, RunBots(w, actions, tick).world)
    decreases |actions|
  {
    if actions == [] {
      CarriesSelf(w);
    } else {
      var mid := RunBot(w, actions[0], tick).world;
      RunBotCarries(w, actions[0], tick);
      RunBotsCarries(mid, actions[1..], tick);
      CarriesComposes(w, mid, RunBots(mid, actions[1..], tick).world);
    }
  }

  // ---------------------------------------------------------------- operating costs and production

  lemma ChargeStops(w: World, id: Id, tick: int)
    requires Books(w)
    ensures Estate.ChargeBuilding(w, id, tick).Thrown? ==> StopsFor(w, Estate.ChargeBuilding(w, id, tick).error)
  {
    ChargeThrows(w, id, tick);
  }

  lemma {:induction false} ChargeBuildingsCarries(w: World, due: seq<Id>, tick: int)
    requires Sound(w)
    ensures Estate.ChargeBuildings(w, due, tick).Done? ==> Carries(w, Estate.ChargeBuildings(w, due, tick).world)
    ensures Estate.ChargeBuildings(w, due, tick).Thrown? ==> StopsFor(w, Estate.ChargeBuildings(w, due, tick).error)
    decreases |due|
  {
    hide Sound, Follows, Solvent, Balanced, Estate.ChargeBuilding;
    if due == [] {
      CarriesSelf(w);
    } else {
      Parts(w);
      ChargeStops(w, due[0], tick);
      if Estate.ChargeBuilding(w, due[0], tick).Done? {
        ChargeBuildingCarries(w, due[0], tick);
        var mid := Estate.ChargeBuilding(w, due[0], tick).world;
        ChargeBuildingsCarries(mid, due[1..], tick);
        if Estate.ChargeBuildings(mid, due[1..], tick).Done? {
          CarriesComposes(w, mid, Estate.ChargeBuildings(mid, due[1..], tick).world);
        }
      }
    }
  }

  lemma {:induction false} CompleteJobsCarries(w: World, due: seq<Id>, tick: int)
    requires Sound(w)
    ensures CompleteJobs(w, due, tick).Done? ==> Carries(w, CompleteJobs(w, due, tick).world)
    ensures CompleteJobs(w, due, tick).Thrown? ==> CompleteJobs(w, due, tick).error == StorageFull
    decreases |due|
  {
    if due == [] {
      CarriesSelf(w);
    } else {
      CompleteJobKeepsBooks(w, due[0], tick);
      if CompleteJob(w, due[0], tick).Done? {
        var mid := CompleteJob(w, due[0], tick).world;
        CompleteJobCarries(w, due[0], tick);
        CompleteJobsCarries(mid, due[1..], tick);
        if CompleteJobs(mid, due[1..], tick).Done? {
          CarriesComposes(w, mid, CompleteJobs(mid, due[1..], tick).world);
        }
      }
    }
  }

  // ---------------------------------------------------------------- matching

  lemma {:induction false} SettleAllCarries(w: World, ms: seq<Match>, tick: int)
    requires Sound(w) && Executable(w.orders, ms)
    ensures SettleAll(w, ms, tick).Done? ==> Carries(w, SettleAll(w, ms, tick).world)
    decreases |ms|
  {
    if ms == [] {
      CarriesSelf(w);
    } else {
      SettleHead(w, ms, tick);
      HeadSettles(w, ms);
      if SettleMatch(w, ms[0], tick).Done? {
        var mid := SettleMatch(w, ms[0], tick).world;
        SettledCarries(w, ms[0], tick);
        SettleAllCarries(mid, ms[1..], tick);
        if SettleAll(mid, ms[1..], tick).Done? {
          CarriesComposes(w, mid, SettleAll(mid, ms[1..], tick).world);
        }
      }
    }
  }

  // The group settled next, and where the book stands afterwards.
  lemma GroupCarries(
    snapshot: map<Id, Order>, listing: seq<Id>, w: World, done: seq<Group>, g: Group, tick: int,
    companies: map<Id, Company>)
    requires Sound(w) && Lists(listing, snapshot) && OrdersOk(snapshot, companies)
    requires Stands(snapshot, w.orders, listing, done) && g !in done
    ensures PlanGroup(snapshot, listing, g).Planned?
    ensures var out := SettleAll(w, PlanGroup(snapshot, listing, g).matches, tick);
            out.Done? ==> Carries(w, out.world) && Stands(snapshot, out.world.orders, listing, done + [g])
  {
    hide *;
    Parts(w);
    NextGroupSettles(snapshot, listing, w, done, g, tick, companies);
    SettleAllCarries(w, PlanGroup(snapshot, listing, g).matches, tick);
  }

  lemma {:induction false} MatchGroupsCarries(
    snapshot: map<Id, Order>, listing: seq<Id>, w: World, done: seq<Group>, groups: seq<Group>, tick: int,
    companies: map<Id, Company>)
    requires Sound(w) && Lists(listing, snapshot) && OrdersOk(snapshot, companies)
    requires DistinctGroups(done + groups) && Stands(snapshot, w.orders, listing, done)
    ensures var out := MatchGroups(snapshot, listing, w, groups, tick);
            out.Done? ==> Carries(w, out.world)
    decreases |groups|
  {
    hide Sound, Follows, Solvent, Balanced, Stands, Lists, OrdersOk, SettleAll, PlanGroup;
    if groups == [] {
      CarriesSelf(w);
    } else {
      var g := groups[0];
      FreshGroup(done, groups);
      GroupCarries(snapshot, listing, w, done, g, tick, companies);
      var settled := SettleAll(w, PlanGroup(snapshot, listing, g).matches, tick);
      if settled.Done? {
        assert done + groups == (done + [g]) + groups[1..];
        MatchGroupsCarries(snapshot, listing, settled.world, done + [g], groups[1..], tick, companies);
        var rest := MatchGroups(snapshot, listing, settled.world, groups[1..], tick);
        if rest.Done? { CarriesComposes(w, settled.world, rest.world); }
      }
    }
  }

  ghost predicate Reads(listing: seq<Id>, groups: seq<Group>, orders: map<Id, Order>) {
    Lists(listing, orders) && DistinctGroups(groups) && Covers(groups, orders)
  }

  lemma RunMatchingCarries(w: World, listing: seq<Id>, groups: seq<Group>, tick: int)
    requires Sound(w) && Reads(listing, groups, w.orders)
    ensures var out := RunMatching(w, listing, groups, tick);
            if out.Done? then Carries(w, out.world) && !CrossedBook(out.world.orders)
            else StopsFor(w, out.error)
  {
    MatchingSettlesEveryPlan(w, listing, groups, tick);
    assert [] + groups == groups;
    NothingStands(w.orders, listing);
    MatchGroupsCarries(w.orders, listing, w, [], groups, tick, w.companies);
  }

  // ---------------------------------------------------------------- the stages after matching

  lemma {:induction false} DeliverAllCarries(w: World, due: seq<Id>, tick: int)
    requires Sound(w)
    ensures Carries(w, Logistics.DeliverAll(w, due, tick))
    decreases |due|
  {
    if due == [] {
      CarriesSelf(w);
    } else {
      var mid := Logistics.DeliverOne(w, due[0], tick);
      DeliverOneCarries(w, due[0], tick);
      DeliverAllCarries(mid, due[1..], tick);
      CarriesComposes(w, mid, Logistics.DeliverAll(mid, due[1..], tick));
    }
  }

  lemma {:induction false} ApplyHiringsCarries(w: World, due: seq<Id>, tick: int)
    requires Sound(w)
    ensures ApplyHirings(w, due, tick).Done? && Carries(w, ApplyHirings(w, due, tick).world)
    decreases |due|
  {
    if due == [] {
      CarriesSelf(w);
    } else {
      ApplyHiringCarries(w, due[0], tick);
      var mid := ApplyHiring(w, due[0], tick).world;
      ApplyHiringsCarries(mid, due[1..], tick);
      CarriesComposes(w, mid, ApplyHirings(mid, due[1..], tick).world);
    }
  }

  lemma {:induction false} PaySalariesCarries(w: World, companies: seq<Id>, tick: int, g: Config)
    requires Sound(w) && ValidConfig(g)
    ensures PaySalaries(w, companies, tick, g).Done? && Carries(w, PaySalaries(w, companies, tick, g).world)
    decreases |companies|
  {
    if companies == [] {
      CarriesSelf(w);
    } else {
      PaySalaryCarries(w, companies[0], tick, g);
      var mid := PaySalary(w, companies[0], tick, g).world;
      PaySalariesCarries(mid, companies[1..], tick, g);
      CarriesComposes(w, mid, PaySalaries(mid, companies[1..], tick, g).world);
    }
  }

  lemma RunWorkforceCarries(w: World, due: seq<Id>, companies: seq<Id>, tick: nat, g: Config)
    requires Sound(w) && ValidConfig(g)
    ensures RunWorkforce(w, due, companies, tick, g).Done? && Carries(w, RunWorkforce(w, due, companies, tick, g).world)
  {
    ApplyHiringsCarries(w, due, tick);
    var mid := ApplyHirings(w, due, tick).world;
    PaySalariesCarries(mid, companies, tick, g);
    CarriesComposes(w, mid, PaySalaries(mid, companies, tick, g).world);
  }

  lemma {:induction false} TakeRowsCarries(w: World, company: Id, item: Id, regions: seq<Id>, demand: int)
    requires Sound(w)
    ensures Carries(w, DemandSink.TakeRows(w, company, item, regions, demand))
    decreases |regions|
  {
    hide Sound, Follows, Solvent, Balanced;
    if regions == [] || demand <= 0 {
      CarriesSelf(w);
    } else {
      var key := RowKey(company, item, regions[0]);
      var mid := DemandSink.TakeRow(w, key, demand);
      var left := demand - DemandSink.TakenFrom(w, key, demand);
      TakeRowCarries(w, key, demand);
      TakeRowsCarries(mid, company, item, regions[1..], left);
      CarriesComposes(w, mid, DemandSink.TakeRows(mid, company, item, regions[1..], left));
    }
  }

  lemma {:induction false} DrainCarries(w: World, demands: seq<DemandSink.Demand>)
    requires Sound(w)
    ensures Carries(w, DemandSink.Drain(w, demands))
    decreases |demands|
  {
    if demands == [] {
      CarriesSelf(w);
    } else {
      var d := demands[0];
      var mid := DemandSink.TakeRows(w, d.company, d.item, d.regions, d.quantity);
      TakeRowsCarries(w, d.company, d.item, d.regions, d.quantity);
      DrainCarries(mid, demands[1..]);
      CarriesComposes(w, mid, DemandSink.Drain(mid, demands[1..]));
    }
  }
}
