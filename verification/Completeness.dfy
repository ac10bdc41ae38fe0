/** Nothing that was due when its stage began is still due when a tick has completed. */
module Completeness {
  import opened Rows
  import opened Matching
  import opened Market
  import opened Payroll
  import opened Production
  import Estate
  import Logistics
  import DemandSink
  import Contracts
  import Research
  import opened Pipeline
  import opened Delivery
  import opened TickTheory

  predicate ChargeDue(w: World, id: Id, tick: int) { id in w.buildings && Estate.CostDue(w.buildings[id], tick) }

  predicate JobDue(w: World, id: Id, tick: int) {
    id in w.jobs && w.jobs[id].status.InProgress? && w.jobs[id].due <= tick
  }

  predicate StudyDue(w: World, id: Id, tick: int) {
    id in w.researchJobs && w.researchJobs[id].status.Running? && w.researchJobs[id].completes <= tick
  }

  predicate HiringDue(w: World, id: Id, tick: int) {
    id in w.hirings && w.hirings[id].applied.None? && w.hirings[id].arrives <= tick
  }

  // ---------------------------------------------------------------- one stage

  // What is due after a stage is what was due before it and not on its list.

  lemma {:induction false} ChargesLeft(w: World, due: seq<Id>, tick: int)
    requires Estate.ChargeBuildings(w, due, tick).Done?
    ensures forall id :: ChargeDue(Estate.ChargeBuildings(w, due, tick).world, id, tick)
                    <==> ChargeDue(w, id, tick) && id !in due
    decreases |due|
  {
    if due != [] {
      ChargeLeft(w, due[0], tick);
      hide Estate.ChargeBuilding, ChargeDue;
      ChargesLeft(Estate.ChargeBuilding(w, due[0], tick).world, due[1..], tick);
    }
  }

  lemma ChargeLeft(w: World, id: Id, tick: int)
    requires Estate.ChargeBuilding(w, id, tick).Done?
    ensures forall j :: ChargeDue(Estate.ChargeBuilding(w, id, tick).world, j, tick)
                   <==> ChargeDue(w, j, tick) && j != id
  {
    ChargedBuildings(w, id, tick);
    hide Estate.ChargeBuilding;
  }

  lemma ChargedBuildings(w: World, id: Id, tick: int)
    requires Estate.ChargeBuilding(w, id, tick).Done?
    ensures var next := Estate.ChargeBuilding(w, id, tick).world.buildings;
            if ChargeDue(w, id, tick)
            then id in next && next == w.buildings[id := next[id]] && next[id].lastCharged == Some(tick)
            else next == w.buildings
  {
    if ChargeDue(w, id, tick) {
      ChargeOutcome(w, id, tick);
      hide Estate.ChargeBuilding;
    }
  }

  lemma ChargeOutcome(w: World, id: Id, tick: int)
    requires ChargeDue(w, id, tick) && Estate.ChargeBuilding(w, id, tick).Done?
    ensures w.buildings[id].company in w.companies
    ensures var next := Estate.ChargeBuilding(w, id, tick).world;
            next == Estate.PayCost(w, id, tick) || next == Estate.ShutDown(w, id, tick)
  {
    hide Estate.PayCost, Estate.ShutDown;
  }

  lemma {:induction false} JobsLeft(w: World, due: seq<Id>, tick: int)
    requires CompleteJobs(w, due, tick).Done?
    ensures forall id :: JobDue(CompleteJobs(w, due, tick).world, id, tick) <==> JobDue(w, id, tick) && id !in due
    ensures CompleteJobs(w, due, tick).world.buildings == w.buildings
    decreases |due|
  {
    if due != [] {
      JobLeft(w, due[0], tick);
      hide CompleteJob, JobDue;
      JobsLeft(CompleteJob(w, due[0], tick).world, due[1..], tick);
    }
  }

  lemma JobLeft(w: World, id: Id, tick: int)
    requires CompleteJob(w, id, tick).Done?
    ensures forall j :: JobDue(CompleteJob(w, id, tick).world, j, tick) <==> JobDue(w, j, tick) && j != id
    ensures CompleteJob(w, id, tick).world.buildings == w.buildings
  {
  }

  lemma {:induction false} StudiesLeft(w: World, due: seq<Id>, tick: int)
    ensures forall id :: StudyDue(Research.CompleteEach(w, due, tick), id, tick)
                    <==> StudyDue(w, id, tick) && id !in due
    decreases |due|
  {
    if due != [] {
      StudyLeft(w, due[0], tick);
      hide Research.CompleteOne, StudyDue;
      StudiesLeft(Research.CompleteOne(w, due[0], tick), due[1..], tick);
    }
  }

  lemma StudyLeft(w: World, id: Id, tick: int)
    ensures forall j :: StudyDue(Research.CompleteOne(w, id, tick), j, tick) <==> StudyDue(w, j, tick) && j != id
  {
    var next := Research.CompleteOne(w, id, tick).researchJobs;
    assert next == if StudyDue(w, id, tick) then w.researchJobs[id := w.researchJobs[id].(status := ResearchDone)]
                   else w.researchJobs;
    hide Research.CompleteOne;
  }

  lemma {:induction false} HiringsLeft(w: World, due: seq<Id>, tick: int)
    requires ApplyHirings(w, due, tick).Done?
    ensures forall id :: HiringDue(ApplyHirings(w, due, tick).world, id, tick) <==> HiringDue(w, id, tick) && id !in due
    decreases |due|
  {
    if due != [] {
      HiringLeft(w, due[0], tick);
      hide ApplyHiring, HiringDue;
      HiringsLeft(ApplyHiring(w, due[0], tick).world, due[1..], tick);
    }
  }

  lemma HiringLeft(w: World, id: Id, tick: int)
    requires ApplyHiring(w, id, tick).Done?
    ensures forall j :: HiringDue(ApplyHiring(w, id, tick).world, j, tick) <==> HiringDue(w, j, tick) && j != id
  {
  }

  // ---------------------------------------------------------------- the tick

  // Each stage's query returned every row that was due when the stage began.
  ghost predicate ListsAll(w: World, s: Schedule, tick: int) {
    var acted := RunBots(w, s.bots, tick);
    acted.Done? ==>
      && (forall id :: ChargeDue(acted.world, id, tick) ==> id in s.costs)
      && var charged := Estate.ChargeBuildings(acted.world, s.costs, tick);
         charged.Done? ==>
           && (forall id :: JobDue(charged.world, id, tick) ==> id in s.jobs)
           && var produced := CompleteJobs(charged.world, s.jobs, tick);
              produced.Done? ==>
                && (forall id :: StudyDue(produced.world, id, tick) ==> id in s.research)
                && (forall id :: HiringDue(produced.world, id, tick) ==> id in s.hirings)
  }

  ghost predicate NothingDue(w: World, tick: int) {
    forall id :: !ChargeDue(w, id, tick) && !JobDue(w, id, tick) && !StudyDue(w, id, tick)
  }

  lemma NothingDueBeforeMatching(w: World, s: Schedule, tick: nat)
    requires ListsAll(w, s, tick) && BeforeMatching(w, s, tick).Done?
    ensures NothingDue(BeforeMatching(w, s, tick).world, tick)
    ensures forall id :: HiringDue(BeforeMatching(w, s, tick).world, id, tick) ==> id in s.hirings
  {
    hide RunBots, Estate.ChargeBuildings, CompleteJobs, Research.CompleteEach, ChargeDue, JobDue, StudyDue, HiringDue;
    var acted := RunBots(w, s.bots, tick).world;
    var charged := Estate.ChargeBuildings(acted, s.costs, tick).world;
    var produced := CompleteJobs(charged, s.jobs, tick).world;
    var next := Research.CompleteEach(produced, s.research, tick);
    ChargesLeft(acted, s.costs, tick);
    JobsLeft(charged, s.jobs, tick);
    StudiesLeft(produced, s.research, tick);
    CompleteEachUnmoved(produced, s.research, tick);
    SameBuildingsDue(charged, next, tick);
    SameJobsDue(produced, next, tick);
    SameHiringsDue(produced, next, tick);
  }

  lemma SameBuildingsDue(w: World, next: World, tick: int)
    requires next.buildings == w.buildings
    ensures forall id :: ChargeDue(next, id, tick) <==> ChargeDue(w, id, tick)
  {
  }

  lemma SameJobsDue(w: World, next: World, tick: int)
    requires next.jobs == w.jobs
    ensures forall id :: JobDue(next, id, tick) <==> JobDue(w, id, tick)
  {
  }

  lemma SameStudiesDue(w: World, next: World, tick: int)
    requires next.researchJobs == w.researchJobs
    ensures forall id :: StudyDue(next, id, tick) <==> StudyDue(w, id, tick)
  {
  }

  lemma SameHiringsDue(w: World, next: World, tick: int)
    requires next.hirings == w.hirings
    ensures forall id :: HiringDue(next, id, tick) <==> HiringDue(w, id, tick)
  {
  }

  // Matching and what follows it leave these tables alone, hirings apart.
  ghost predicate SameDue(w: World, next: World) {
    && next.buildings == w.buildings && next.jobs == w.jobs
    && next.researchJobs == w.researchJobs && next.hirings == w.hirings
  }

  lemma {:induction false} SettleAllLeaves(w: World, ms: seq<Match>, tick: int)
    requires SettleAll(w, ms, tick).Done?
    ensures SameDue(w, SettleAll(w, ms, tick).world)
    decreases |ms|
  {
    if ms != [] {
      SettleLeaves(w, ms[0], tick);
      hide SettleMatch;
      SettleAllLeaves(SettleMatch(w, ms[0], tick).world, ms[1..], tick);
    }
  }

  lemma SettleLeaves(w: World, m: Match, tick: int)
    requires SettleMatch(w, m, tick).Done?
    ensures SameDue(w, SettleMatch(w, m, tick).world)
  {
  }

  lemma {:induction false} MatchGroupsLeave(
    snapshot: map<Id, Order>, listing: seq<Id>, w: World, groups: seq<Group>, tick: int)
    requires MatchGroups(snapshot, listing, w, groups, tick).Done?
    ensures SameDue(w, MatchGroups(snapshot, listing, w, groups, tick).world)
    decreases |groups|
  {
    hide PlanGroup, SettleAll;
    if groups != [] {
      var ms := PlanGroup(snapshot, listing, groups[0]).matches;
      SettleAllLeaves(w, ms, tick);
      MatchGroupsLeave(snapshot, listing, SettleAll(w, ms, tick).world, groups[1..], tick);
    }
  }

  lemma {:induction false} DeliverAllLeavesHirings(w: World, due: seq<Id>, tick: int)
    ensures Logistics.DeliverAll(w, due, tick).hirings == w.hirings
    decreases |due|
  {
    if due != [] { DeliverAllLeavesHirings(Logistics.DeliverOne(w, due[0], tick), due[1..], tick); }
  }

  lemma HiringsDoneAfterMatching(w: World, s: Schedule, tick: nat)
    requires AfterMatching(w, s, tick).Done? && forall id :: HiringDue(w, id, tick) ==> id in s.hirings
    ensures forall id :: !HiringDue(AfterMatching(w, s, tick).world, id, tick)
  {
    hide HiringDue;
    var delivered := Logistics.DeliverAll(w, s.shipments, tick);
    DeliveryCompletesIff(w, s.shipments, tick);
    DeliverAllLeavesHirings(w, s.shipments, tick);
    SameHiringsDue(w, delivered, tick);
    var hired := ApplyHirings(delivered, s.hirings, tick).world;
    HiringsLeft(delivered, s.hirings, tick);
    var paid := PaySalaries(hired, s.payroll, tick, s.workforce).world;
    PaySalariesLeaves(hired, s.payroll, tick, s.workforce);
    var drained := DemandSink.Drain(paid, s.demands);
    DrainLeaves(paid, s.demands);
    var expired := Contracts.ExpireContracts(drained, tick);
    if s.market.items != [] && s.market.buyers != [] && s.contracts.perTick != 0 {
      GenerateLeaves(expired, s.market, tick, 0, s.offers[..s.contracts.perTick], s.contracts);
    }
    SameHiringsDue(hired, AfterMatching(w, s, tick).world, tick);
  }

  // If each stage was given every row that was due, then after the tick no building is due for a charge, no job and no
  // research for its completion, and no hiring for its arrival.
  lemma TickLeavesNothingDue(w: World, s: Schedule, tick: nat)
    requires ListsAll(w, s, tick) && RunTick(w, s, tick).Done?
    ensures NothingDue(RunTick(w, s, tick).world, tick)
    ensures forall id :: !HiringDue(RunTick(w, s, tick).world, id, tick)
  {
    hide ListsAll, BeforeMatching, AfterMatching, MatchGroups, ChargeDue, JobDue, StudyDue, HiringDue;
    var ready := BeforeMatching(w, s, tick).world;
    NothingDueBeforeMatching(w, s, tick);
    var matched := RunMatching(ready, s.listing, s.groups, tick).world;
    MatchGroupsLeave(ready.orders, s.listing, ready, s.groups, tick);
    SameHiringsDue(ready, matched, tick);
    AfterMatchingLeaves(matched, s, tick);
    HiringsDoneAfterMatching(matched, s, tick);
    var next := AfterMatching(matched, s, tick).world;
    SameBuildingsDue(ready, next, tick);
    SameJobsDue(ready, next, tick);
    SameStudiesDue(ready, next, tick);
  }
}
