/** Workers and users at the same tables: any interleaving has the outcome of one command after another. */
module Concurrency {
  import opened Rows
  import opened Pipeline
  import opened Simulation
  import opened Accounting
  import opened Health
  import opened TickTheory
  import opened Reachable
  import Protocol = TickProtocol

  // The world row with its executions and open transactions, the other tables, and the commands committed so far.
  datatype Shared = Shared(protocol: Protocol.State, world: World, served: seq<Issued>)

  // A worker's step before its pipeline, a cleanup, a worker's pipeline and commit, or a user's command.
  datatype Action =
    | Prepare(move: Protocol.Move)
    | Work(process: Id, schedule: Schedule)
    | Serve(command: Command, tick: nat)

  // The pipeline of an open transaction computes the tick after the one it read. What it writes is kept only if its
  // execution key is free, it does not throw, and the lock version is the one it read.
  ghost function WorkStep(s: Shared, p: Id, schedule: Schedule): Shared {
    if p !in s.protocol.attempts || !s.protocol.attempts[p].claimed then s
    else
      var a := s.protocol.attempts[p];
      var out := RunTick(s.world, schedule, a.tick + 1);
      if a.key.Some? && a.key.value in s.protocol.executions then s.(protocol := Protocol.FinishStep(s.protocol, p))
      else if out.Thrown? then s.(protocol := Protocol.WithAnswer(s.protocol, p, a.key, Protocol.Failed))
      else if s.protocol.version != a.version then s.(protocol := Protocol.FinishStep(s.protocol, p))
      else Shared(Protocol.FinishStep(s.protocol, p), out.world, s.served + [Issued(AdvanceTick(schedule), a.tick + 1)])
  }

  ghost function Act(s: Shared, a: Action, retention: nat): Shared {
    match a
    case Prepare(m) => if m.Finish? then s else s.(protocol := Protocol.Step(s.protocol, m, retention))
    case Work(p, schedule) => WorkStep(s, p, schedule)
    case Serve(c, tick) =>
      if c.AdvanceTick? then s
      else s.(world := Commit(s.world, Apply(s.world, c, tick)), served := s.served + [Issued(c, tick)])
  }

  ghost function Interleaved(s: Shared, actions: seq<Action>, retention: nat): Shared
    decreases |actions|
  {
    if actions == [] then s else Interleaved(Act(s, actions[0], retention), actions[1..], retention)
  }

  // ---------------------------------------------------------------- one command after another

  function TicksIn(served: seq<Issued>): nat {
    if served == [] then 0
    else TicksIn(served[..|served| - 1]) + (if served[|served| - 1].command.AdvanceTick? then 1 else 0)
  }

  // The ticks run are numbered on from `tick`, none left out and none run twice.
  ghost predicate Consecutive(served: seq<Issued>, tick: nat) {
    forall i :: 0 <= i < |served| && served[i].command.AdvanceTick? ==>
        served[i].tick == tick + TicksIn(served[..i]) + 1
  }

  ghost predicate Serialised(s: Shared, start: World, tick: nat, version: nat, retention: nat) {
    && Protocol.Serial(s.protocol, tick, version, retention)
    && s.world == Run(start, s.served) && Consecutive(s.served, tick) && s.protocol.tick == tick + TicksIn(s.served)
  }

  lemma {:induction false} RunAppend(w: World, served: seq<Issued>, c: Issued)
    ensures Run(w, served + [c]) == Commit(Run(w, served), Apply(Run(w, served), c.command, c.tick))
    decreases |served|
  {
    hide Apply;
    if served == [] {
      assert [c][1..] == [];
      assert served + [c] == [c];
    } else {
      assert (served + [c])[0] == served[0] && (served + [c])[1..] == served[1..] + [c];
      RunAppend(Commit(w, Apply(w, served[0].command, served[0].tick)), served[1..], c);
    }
  }

  lemma ConsecutiveAppend(served: seq<Issued>, c: Issued, tick: nat)
    requires Consecutive(served, tick) && (c.command.AdvanceTick? ==> c.tick == tick + TicksIn(served) + 1)
    ensures Consecutive(served + [c], tick)
    ensures TicksIn(served + [c]) == TicksIn(served) + (if c.command.AdvanceTick? then 1 else 0)
  {
    var all := served + [c];
    assert all[..|served|] == served;
    forall i | 0 <= i < |all| && all[i].command.AdvanceTick? ensures all[i].tick == tick + TicksIn(all[..i]) + 1 {
      assert all[..i] == served[..i];
    }
  }

  lemma ServedAppend(s: Shared, start: World, c: Issued, tick: nat)
    requires s.world == Run(start, s.served) && Consecutive(s.served, tick)
    requires c.command.AdvanceTick? ==> c.tick == tick + TicksIn(s.served) + 1
    ensures Commit(s.world, Apply(s.world, c.command, c.tick)) == Run(start, s.served + [c])
    ensures Consecutive(s.served + [c], tick)
    ensures TicksIn(s.served + [c]) == TicksIn(s.served) + (if c.command.AdvanceTick? then 1 else 0)
  {
    hide Apply, Run, Consecutive, TicksIn;
    RunAppend(start, s.served, c);
    ConsecutiveAppend(s.served, c, tick);
  }

  // ---------------------------------------------------------------- every step

  // A step of the protocol other than a commit leaves the world row alone.
  lemma OthersKeepTick(s: Protocol.State, m: Protocol.Move, retention: nat)
    requires !m.Finish?
    ensures Protocol.Step(s, m, retention).tick == s.tick
  {
  }

  lemma FinishFacts(s: Protocol.State, p: Id, tick: nat, version: nat, retention: nat)
    requires Protocol.Serial(s, tick, version, retention) && p in s.attempts && s.attempts[p].claimed
    ensures var a, next := s.attempts[p], Protocol.FinishStep(s, p);
            if (a.key.Some? && a.key.value in s.executions) || s.version != a.version then next.tick == s.tick
            else a.tick == s.tick && next.tick == s.tick + 1
  {
  }

  lemma WorkSerialised(s: Shared, p: Id, schedule: Schedule, start: World, tick: nat, version: nat, retention: nat)
    requires Serialised(s, start, tick, version, retention)
    ensures Serialised(WorkStep(s, p, schedule), start, tick, version, retention)
  {
    hide Protocol.Serial, Protocol.FinishStep, RunTick, Run, Consecutive, TicksIn;
    if p in s.protocol.attempts && s.protocol.attempts[p].claimed {
      var a := s.protocol.attempts[p];
      Protocol.FinishSerial(s.protocol, p, tick, version, retention);
      Protocol.ReplySerial(s.protocol, p, a.key, Protocol.Failed, tick, version, retention);
      FinishFacts(s.protocol, p, tick, version, retention);
      if s.protocol.version == a.version && !(a.key.Some? && a.key.value in s.protocol.executions) {
        ServedAppend(s, start, Issued(AdvanceTick(schedule), a.tick + 1), tick);
      }
    }
  }

  lemma ActSerialised(s: Shared, a: Action, start: World, tick: nat, version: nat, retention: nat)
    requires Serialised(s, start, tick, version, retention)
    ensures Serialised(Act(s, a, retention), start, tick, version, retention)
  {
    hide Protocol.Serial, Protocol.Step, Run, Consecutive, TicksIn, Apply, WorkStep;
    match a
    case Prepare(m) =>
      if !m.Finish? {
        Protocol.StepSerial(s.protocol, m, tick, version, retention);
        OthersKeepTick(s.protocol, m, retention);
      }
    case Work(p, schedule) => WorkSerialised(s, p, schedule, start, tick, version, retention);
    case Serve(c, t) => if !c.AdvanceTick? { ServedAppend(s, start, Issued(c, t), tick); }
  }

  // ---------------------------------------------------------------- every interleaving

  lemma {:induction false} ActionsSerialised(
    s: Shared, actions: seq<Action>, start: World, tick: nat, version: nat, retention: nat)
    requires Serialised(s, start, tick, version, retention)
    ensures Serialised(Interleaved(s, actions, retention), start, tick, version, retention)
    decreases |actions|
  {
    hide Serialised, Act;
    if actions != [] {
      ActSerialised(s, actions[0], start, tick, version, retention);
      ActionsSerialised(Act(s, actions[0], retention), actions[1..], start, tick, version, retention);
    }
  }

  function Initially(start: World, tick: nat, version: nat): Shared { Shared(Protocol.Fresh(tick, version), start, []) }

  // However the steps of workers and users interleave, the tables are those of the committed commands run one after
  // another, with the ticks among them numbered on without a gap or a repeat: a worker that loses a race, whose key is
  // taken or whose pipeline throws leaves no trace in them. And a job whose keys are retried in time makes at most `n`
  // of those ticks with its batch of `n`, and exactly `n` once each key was executed.
  lemma InterleavingsAreSerial(
    start: World, actions: seq<Action>, tick: nat, version: nat, retention: nat, job: Id, n: nat)
    ensures var s := Interleaved(Initially(start, tick, version), actions, retention);
            && s.world == Run(start, s.served) && Consecutive(s.served, tick)
            && s.protocol.tick == tick + TicksIn(s.served) && s.protocol.version == version + TicksIn(s.served)
            && (Protocol.BatchInTime(s.protocol, job, n, retention) ==>
                  && Protocol.BatchCount(s.protocol.log, job, n) <= n
                  && (Protocol.BatchExecuted(s.protocol.log, job, n) ==>
                        Protocol.BatchCount(s.protocol.log, job, n) == n))
  {
    Protocol.FreshSerial(tick, version, retention);
    assert Serialised(Initially(start, tick, version), start, tick, version, retention);
    ActionsSerialised(Initially(start, tick, version), actions, start, tick, version, retention);
    var s := Interleaved(Initially(start, tick, version), actions, retention);
    if Protocol.BatchInTime(s.protocol, job, n, retention) {
      Protocol.BatchExactlyOnce(s.protocol, tick, version, retention, job, n);
    }
  }

  // What the stages of each pipeline read is what the tables hold when it commits.
  ghost predicate Fed(s: Shared, a: Action) {
    a.Work? && a.process in s.protocol.attempts ==>
      Configured(a.schedule) && Served(s.world, a.schedule, s.protocol.attempts[a.process].tick + 1)
  }

  ghost predicate AllFed(s: Shared, actions: seq<Action>, retention: nat)
    decreases |actions|
  {
    actions == [] || (Fed(s, actions[0]) && AllFed(Act(s, actions[0], retention), actions[1..], retention))
  }

  lemma ActContinues(s: Shared, a: Action, retention: nat)
    requires Sound(s.world) && Fed(s, a)
    ensures Continues(s.world, Act(s, a, retention).world)
  {
    hide Sound, Follows, Solvent, Apply, Configured, Served, Protocol.FinishStep, Protocol.Step;
    CarriesSelf(s.world);
    match a
    case Prepare(m) =>
    case Work(p, schedule) =>
      if p in s.protocol.attempts {
        var t := s.protocol.attempts[p].tick + 1;
        if RunTick(s.world, schedule, t).Done? { RunTickCarries(s.world, schedule, t); }
      }
    case Serve(c, tick) =>
      if !c.AdvanceTick? && Apply(s.world, c, tick).Done? { ApplyContinues(s.world, c, tick); }
  }

  // And they are sound, with everything that follows between an earlier state of a run and a later one.
  lemma {:induction false} InterleavingsContinue(s: Shared, actions: seq<Action>, retention: nat)
    requires Sound(s.world) && AllFed(s, actions, retention)
    ensures Continues(s.world, Interleaved(s, actions, retention).world)
    decreases |actions|
  {
    hide Sound, Follows, Act, Fed;
    if actions == [] {
      CarriesSelf(s.world);
    } else {
      var mid := Act(s, actions[0], retention);
      ActContinues(s, actions[0], retention);
      InterleavingsContinue(mid, actions[1..], retention);
      ContinuesComposes(s.world, mid.world, Interleaved(mid, actions[1..], retention).world);
    }
  }
}
