/** One worker iteration against tables that other workers change between any two of its steps. */
module WorkerLoop {
  import opened Rows
  import opened TickProtocol
  import Lease

  // resolveTickBatchSize; a request that is not a positive integer counts as one tick
  function ResolveTickBatchSize(requested: int, maxTicks: nat): (n: nat)
    ensures n <= maxTicks && (requested > 0 ==> n <= requested) && (requested <= 0 ==> n <= 1)
    ensures n == maxTicks || n == requested || (requested <= 0 && n == 1)
  {
    Min(if requested > 0 then requested else 1, maxTicks)
  }

  // shouldCleanupTickExecutionRows
  predicate ShouldCleanup(tickAfter: nat, retention: nat, every: nat) {
    retention > 0 && every > 0 && tickAfter % every == 0
  }

  // A move of somebody else.
  predicate Foreign(m: Move, p: Id) {
    match m
    case Begin(q, _, _) => q != p
    case Claim(q) => q != p
    case Finish(q) => q != p
    case Abort(q) => q != p
    case Clean(_) => true
  }

  predicate AllForeign(moves: seq<Move>, p: Id) { forall k :: 0 <= k < |moves| ==> Foreign(moves[k], p) }

  // What others do around the steps of one advance, and whether its pipeline throws.
  datatype Interference = Interference(before: seq<Move>, mid: seq<Move>, late: seq<Move>, fails: bool)

  // Nobody else moves meanwhile.
  predicate Alone(i: Interference) { i.before == [] && i.mid == [] && i.late == [] }

  // Nobody else moves, and the pipeline does not throw.
  predicate Quiet(i: Interference) { Alone(i) && !i.fails }

  predicate Untried(executions: map<Key, Execution>, key: Option<Key>) { key.Some? ==> key.value !in executions }

  // One advance more, and its key remembered; or nothing new.
  predicate OneMore(s: State, t: State, key: Option<Key>) {
    && t.tick == s.tick + 1 && t.version == s.version + 1 && t.log == s.log + [Advanced(key, s.tick, s.version)]
    && t.executions == (if key.Some? then s.executions[key.value := Execution(s.tick, s.tick + 1)] else s.executions)
  }

  predicate NothingNew(s: State, t: State) {
    t.tick == s.tick && t.version == s.version && t.log == s.log && t.executions == s.executions
  }

  predicate ForeignTo(i: Interference, p: Id) {
    AllForeign(i.before, p) && AllForeign(i.mid, p) && AllForeign(i.late, p)
  }

  // History only grows, and the process's own transaction is where it was.
  predicate Onward(s: State, t: State) { s.log <= t.log && s.tick <= t.tick }

  ghost predicate OwnKept(s: State, t: State, p: Id) {
    (p in t.attempts <==> p in s.attempts) && (p in s.attempts ==> t.attempts[p] == s.attempts[p])
  }

  lemma OnwardStep(s: State, m: Move, tick: nat, version: nat, retention: nat)
    requires Serial(s, tick, version, retention)
    ensures Onward(s, Step(s, m, retention))
  {
    var t := Step(s, m, retention);
    assert s.log <= t.log && s.tick <= t.tick;
    LongerLogExecuted(s.log, t.log);
  }

  lemma LongerLogExecuted(log: seq<Event>, longer: seq<Event>)
    requires log <= longer
    ensures forall k :: Executed(log, k) ==> Executed(longer, k)
  {
    forall k | Executed(log, k) ensures Executed(longer, k) {
      var i :| 0 <= i < |log| && AdvancedBy(log[i], k);
      assert longer[i] == log[i];
    }
  }

  lemma {:induction false} OthersLeaveOwn(s: State, moves: seq<Move>, p: Id, tick: nat, version: nat, retention: nat)
    requires Serial(s, tick, version, retention) && AllForeign(moves, p)
    ensures Serial(Steps(s, moves, retention), tick, version, retention)
    ensures Onward(s, Steps(s, moves, retention)) && OwnKept(s, Steps(s, moves, retention), p)
    decreases |moves|
  {
    hide Serial;
    if moves != [] {
      var mid := Step(s, moves[0], retention);
      StepSerial(s, moves[0], tick, version, retention);
      OnwardStep(s, moves[0], tick, version, retention);
      assert Foreign(moves[0], p);
      OthersLeaveOwn(mid, moves[1..], p, tick, version, retention);
    }
  }

  // Between two states of one history the version moves as the tick does.
  lemma VersionFollowsTick(s: State, t: State, tick: nat, version: nat, retention: nat)
    requires Serial(s, tick, version, retention) && Serial(t, tick, version, retention)
    ensures t.version - s.version == t.tick - s.tick
  {
  }

  lemma AttemptsAreCurrent(s: State, tick: nat, version: nat, retention: nat)
    requires Serial(s, tick, version, retention)
    ensures AttemptsCurrent(s)
  {
  }

  // Without anybody else, the answer is known in advance.
  lemma AloneAnswers(s: State, p: Id, key: Option<Key>, expected: Option<nat>, retention: nat)
    requires p !in s.attempts
    ensures var t := Step(s, Begin(p, key, expected), retention);
            && NothingNew(s, t) && (p in t.attempts <==> expected.None? || expected.value == s.version)
            && (p in t.attempts ==> ClaimsAlone(s, t, p, key, retention))
  {
  }

  ghost predicate ClaimsAlone(s: State, t: State, p: Id, key: Option<Key>, retention: nat) {
    var u := Step(t, Claim(p), retention);
    && NothingNew(s, u) && (p in u.attempts <==> Untried(s.executions, key))
    && (p in u.attempts ==> FinishesAlone(s, u, p, key, retention))
  }

  ghost predicate FinishesAlone(s: State, u: State, p: Id, key: Option<Key>, retention: nat) {
    && NothingNew(s, Step(u, Abort(p), retention))
    && OneMore(s, Step(u, Finish(p), retention), key)
    && |Step(u, Finish(p), retention).answers| == |u.answers| + 1
    && Step(u, Finish(p), retention).answers[|u.answers|].reply.Moved?
  }

  // Why a tick of a batch throws: its pipeline did, or others advanced more often than it may retry.
  ghost predicate Stopped(others: (nat, nat) -> Interference, ticks: nat, maxRetries: nat, before: nat, now: nat) {
    now > before + maxRetries || exists n, m :: 0 <= n < ticks && 0 <= m <= maxRetries && others(n, m).fails
  }

  function KeyOfTick(job: Option<Id>, index: nat): Option<Key> {
    if job.Some? then Some(Key(job.value, index)) else None
  }

  predicate NeverPaused(paused: nat -> bool, ticks: nat) { forall k :: 0 <= k < ticks ==> !paused(k) }

  // The first try of each tick meets nobody else.
  predicate AllQuiet(others: (nat, nat) -> Interference, ticks: nat) {
    forall n :: 0 <= n < ticks ==> Quiet(others(n, 0))
  }

  predicate KeysFresh(executions: map<Key, Execution>, job: Option<Id>, ticks: nat) {
    job.Some? ==> forall k :: 0 <= k < ticks ==> Key(job.value, k) !in executions
  }

  // So many ticks later, with the keys of the rest still unused.
  ghost predicate InStep(s: State, t: State, job: Option<Id>, done: nat, ticks: nat) {
    && t.tick == s.tick + done && t.version == s.version + done
    && (job.Some? ==> forall k :: done <= k < ticks ==> Key(job.value, k) !in t.executions)
    && (forall k :: k in s.executions ==> k in t.executions && t.executions[k] == s.executions[k])
  }

  lemma InStepSelf(s: State, job: Option<Id>, ticks: nat)
    ensures KeysFresh(s.executions, job, ticks) ==> InStep(s, s, job, 0, ticks)
  {
  }

  lemma InStepMore(s: State, mid: State, t: State, job: Option<Id>, done: nat, ticks: nat)
    ensures InStep(s, mid, job, done, ticks) && done < ticks ==>
              && Untried(mid.executions, KeyOfTick(job, done))
              && (OneMore(mid, t, KeyOfTick(job, done)) ==> InStep(s, t, job, done + 1, ticks))
  {
  }

  lemma StoppedBy(
    others: (nat, nat) -> Interference, ticks: nat, maxRetries: nat, n: nat, m: nat, before: nat, turn: nat, now: nat)
    requires n < ticks && m <= maxRetries && before <= turn <= now
    ensures others(n, m).fails || now > turn + maxRetries ==> Stopped(others, ticks, maxRetries, before, now)
  {
  }

  // What the process is told by its last step, and what that means.
  lemma FinishAnswers(s: State, p: Id, tick: nat, version: nat, retention: nat)
    requires Serial(s, tick, version, retention) && p in s.attempts && s.attempts[p].claimed
    ensures var t := Step(s, Finish(p), retention);
            && p !in t.attempts && |t.answers| == |s.answers| + 1
            && var reply := t.answers[|s.answers|].reply;
               && (reply.Skipped? ==> s.attempts[p].key.Some?)
               && (s.attempts[p].key.Some? && (reply.Moved? || reply.Skipped?) ==>
                   Executed(t.log, s.attempts[p].key.value))
  {
    FinishSerial(s, p, tick, version, retention);
    var t := Step(s, Finish(p), retention);
    assert t.answers[|s.answers|].key == s.attempts[p].key;
  }

  // It moves exactly from the version it read, and is stale only when somebody else has moved since.
  lemma FinishMoves(s: State, p: Id, tick: nat, version: nat, retention: nat)
    requires Serial(s, tick, version, retention) && p in s.attempts && s.attempts[p].claimed
    ensures var t := Step(s, Finish(p), retention);
            && |t.answers| == |s.answers| + 1
            && var reply := t.answers[|s.answers|].reply;
               && !reply.Failed? && (reply.Stale? ==> s.version > s.attempts[p].version)
               && (reply.Moved? ==>
                     && s.version == s.attempts[p].version && t.tick == s.tick + 1 && t.version == s.version + 1
                     && t.log == s.log + [Advanced(s.attempts[p].key, s.tick, s.version)])
  {
    AttemptsAreCurrent(s, tick, version, retention);
    hide Serial;
  }

  // Claiming keeps the transaction open, unless its key was executed before.
  lemma ClaimAnswers(s: State, p: Id, tick: nat, version: nat, retention: nat)
    requires Serial(s, tick, version, retention) && p in s.attempts
    ensures var t := Step(s, Claim(p), retention);
            && (p in t.attempts ==> t.attempts[p] == s.attempts[p].(claimed := true))
            && (p !in t.attempts ==> s.attempts[p].key.Some? && Executed(t.log, s.attempts[p].key.value))
  {
    var a := s.attempts[p];
    if !a.claimed && a.key.Some? && a.key.value in s.executions { RowExecuted(s, a.key.value); }
  }

  lemma CleanKeepsOwn(s: State, below: nat, retention: nat)
    ensures Step(s, Clean(below), retention).attempts == s.attempts
  {
  }

  lemma AbortCloses(s: State, p: Id, retention: nat)
    ensures p !in Step(s, Abort(p), retention).attempts
  {
  }

  // Beginning opens a transaction, unless the caller expected another version.
  lemma BeginOpens(s: State, p: Id, key: Option<Key>, expected: Option<nat>, retention: nat)
    requires p !in s.attempts
    ensures var t := Step(s, Begin(p, key, expected), retention);
            if expected.Some? && expected.value != s.version then p !in t.attempts
            else p in t.attempts && t.attempts[p].key == key && t.attempts[p].version == s.version
  {
  }

  // The tables the workers share. `tick0` and `version0` are where its history began.
  class Tables {
    var state: State
    const retention: nat
    ghost const tick0: nat
    ghost const version0: nat

    ghost predicate Valid() reads this { Serial(state, tick0, version0, retention) }

    constructor (tick: nat, version: nat, retention: nat)
      ensures Valid() && state == Fresh(tick, version)
      ensures this.retention == retention && tick0 == tick && version0 == version
    {
      state := Fresh(tick, version);
      this.retention := retention;
      tick0 := tick;
      version0 := version;
      new;
      FreshSerial(tick, version, retention);
    }

    method Others(moves: seq<Move>, p: Id)
      requires Valid() && AllForeign(moves, p)
      modifies this
      ensures Valid() && Onward(old(state), state) && OwnKept(old(state), state, p)
      ensures state == Steps(old(state), moves, retention)
    {
      OthersLeaveOwn(state, moves, p, tick0, version0, retention);
      state := Steps(state, moves, retention);
    }

    method Take(m: Move)
      requires Valid()
      modifies this
      ensures Valid() && Onward(old(state), state) && state == Step(old(state), m, retention)
    {
      StepSerial(state, m, tick0, version0, retention);
      OnwardStep(state, m, tick0, version0, retention);
      state := Step(state, m, retention);
    }

    // advanceSimulationTick, with other transactions running between its steps. With nobody else about, the answer
    // follows from the tables: stale, skipped, failed, or one tick and one version more and the key remembered. In
    // any case it fails only with the pipeline, and is stale only for a version nobody expected or for somebody
    // else's advance.
    method AdvanceSimulationTick(p: Id, key: Option<Key>, expected: Option<nat>, i: Interference) returns (reply: Reply)
      requires Valid() && p !in state.attempts && ForeignTo(i, p)
      modifies this
      ensures Valid() && Onward(old(state), state) && p !in state.attempts
      ensures reply.Moved? ==> state.tick > old(state.tick)
      ensures reply.Moved? ==>
                state.log != [] && state.log[|state.log| - 1] == Advanced(key, state.tick - 1, state.version - 1)
      ensures reply.Moved? && expected.Some? ==> state.version == expected.value + 1
      ensures reply.Skipped? ==> key.Some?
      ensures key.Some? && (reply.Moved? || reply.Skipped?) ==> Executed(state.log, key.value)
      ensures reply.Failed? ==> i.fails
      ensures i.fails ==> !reply.Moved?
      ensures reply.Stale? ==>
                state.tick > old(state.tick) || (expected.Some? && expected.value != old(state.version))
      ensures Alone(i) ==>
                if expected.Some? && expected.value != old(state.version) then reply.Stale?
                else if key.Some? && key.value in old(state.executions) then reply.Skipped?
                else if i.fails then reply.Failed?
                else reply.Moved?
      ensures Alone(i) && reply.Moved? ==> OneMore(old(state), state, key)
      ensures Alone(i) && !reply.Moved? ==> NothingNew(old(state), state)
    {
      hide Serial, Step, Executed, NothingNew, OneMore;
      AloneAnswers(state, p, key, expected, retention);
      Others(i.before, p);
      BeginOpens(state, p, key, expected, retention);
      ghost var begun := state;
      VersionFollowsTick(old(state), begun, tick0, version0, retention);
      Take(Begin(p, key, expected));
      if p !in state.attempts { return Stale; }
      Others(i.mid, p);
      ClaimAnswers(state, p, tick0, version0, retention);
      Take(Claim(p));
      if p !in state.attempts {
        return Skipped;
      }
      Others(i.late, p);
      if i.fails {
        AbortCloses(state, p, retention);
        Take(Abort(p));
        return Failed;
      }
      VersionFollowsTick(begun, state, tick0, version0, retention);
      FinishMoves(state, p, tick0, version0, retention);
      FinishAnswers(state, p, tick0, version0, retention);
      Take(Finish(p));
      reply := state.answers[|state.answers| - 1].reply;
    }

    // runSingleTickWithRetries: only a stale version is retried, and every retry is due to somebody else's advance. It
    // throws only for the pipeline, or once others have advanced more often than it may retry.
    method RunSingleTickWithRetries(p: Id, key: Option<Key>, maxRetries: nat, others: nat -> Interference)
      returns (advanced: bool, retries: nat, thrown: bool)
      requires Valid() && p !in state.attempts && forall n :: ForeignTo(others(n), p)
      modifies this
      ensures Valid() && Onward(old(state), state) && p !in state.attempts
      ensures advanced ==> state.tick > old(state.tick) && !thrown
      ensures key.Some? && !thrown ==> Executed(state.log, key.value)
      ensures retries <= maxRetries
      ensures old(state.tick) + retries + (if advanced then 1 else 0) <= state.tick
      ensures thrown ==> others(retries).fails || (retries == maxRetries && state.tick > old(state.tick) + maxRetries)
      ensures !thrown && !advanced ==> key.Some?
      ensures Quiet(others(0)) ==>
                && retries == 0 && !thrown && (advanced <==> Untried(old(state.executions), key))
                && (if advanced then OneMore(old(state), state, key) else NothingNew(old(state), state))
    {
      hide Serial, Executed, OneMore, NothingNew;
      advanced, retries, thrown := false, 0, false;
      var attempt := 0;
      while attempt <= maxRetries
        invariant Valid() && Onward(old(state), state) && p !in state.attempts && attempt <= maxRetries
        invariant old(state.tick) + attempt <= state.tick
        invariant attempt == 0 ==> state == old(state)
        invariant attempt > 0 ==> !Quiet(others(0))
        decreases maxRetries + 1 - attempt
      {
        var reply := AdvanceSimulationTick(p, key, None, others(attempt));
        if reply.Moved? || reply.Skipped? {
          return reply.Moved?, attempt, false;
        }
        if !reply.Stale? || attempt >= maxRetries {
          return false, attempt, true;
        }
        attempt := attempt + 1;
      }
    }

    // advanceSimulationTicks: one advance after the other, the expected version checked by the first only; the first
    // one that does not advance ends the loop, and what was committed before it stays.
    method AdvanceSimulationTicks(p: Id, ticks: int, expected: Option<nat>, others: nat -> Interference)
      returns (advanced: nat, thrown: bool)
      requires Valid() && p !in state.attempts && forall n :: ForeignTo(others(n), p)
      modifies this
      ensures Valid() && Onward(old(state), state) && p !in state.attempts
      ensures advanced <= state.tick - old(state.tick)
      ensures thrown <==> ticks <= 0 || advanced < ticks
      ensures !thrown ==> advanced == ticks
      ensures ticks > 0 && thrown ==>
                || others(advanced).fails || state.tick > old(state.tick) + advanced
                || (expected.Some? && expected.value != old(state.version))
      ensures ticks > 0 && (expected.None? || expected.value == old(state.version))
              && (forall n :: Quiet(others(n))) ==>
                !thrown && state.tick == old(state.tick) + ticks && state.version == old(state.version) + ticks
    {
      hide Serial, Executed, NothingNew;
      advanced, thrown := 0, false;
      if ticks <= 0 { return 0, true; }
      while advanced < ticks
        invariant 0 <= advanced <= ticks && Valid() && Onward(old(state), state) && p !in state.attempts
        invariant advanced <= state.tick - old(state.tick)
        invariant advanced == 0 ==> state == old(state)
        invariant (forall n :: Quiet(others(n))) ==>
                    state.tick == old(state.tick) + advanced && state.version == old(state.version) + advanced
      {
        var reply := AdvanceSimulationTick(p, None, if advanced == 0 then expected else None, others(advanced));
        if !reply.Moved? { return advanced, true; }
        advanced := advanced + 1;
      }
    }

    // The cleanup after the loop, from the tick the worker has read; `lately` runs in between. When it is due it
    // deletes the execution rows of ticks that are a retention period old, and no others.
    method CleanExecutions(p: Id, tickAfter: nat, every: nat, lately: seq<Move>)
      requires Valid() && AllForeign(lately, p) && p !in state.attempts && tickAfter <= state.tick
      modifies this
      ensures Valid() && Onward(old(state), state) && p !in state.attempts
      ensures state.tick == Steps(old(state), lately, retention).tick
      ensures state.version == Steps(old(state), lately, retention).version
      ensures var found := Steps(old(state), lately, retention).executions;
              && (forall k :: k in state.executions <==>
                    k in found && (retention > 0 && every > 0 && tickAfter % every == 0 ==>
                                     found[k].after > tickAfter - retention))
              && (forall k :: k in state.executions ==> state.executions[k] == found[k])
    {
      hide Serial;
      Others(lately, p);
      if ShouldCleanup(tickAfter, retention, every) {
        CleanKeepsOwn(state, Max(0, tickAfter - retention + 1), retention);
        Take(Clean(Max(0, tickAfter - retention + 1)));
      }
    }

    // The loop of runWorkerIteration. `paused` answers the maintenance checks, and `during(k)` is what others do to the
    // lease around the k-th tick. A pause or an error leaves the loop.
    method RunTicks(p: Id, job: Option<Id>, ticks: nat, maxRetries: nat, paused: nat -> bool,
                    others: (nat, nat) -> Interference,
                    leases: Lease.LeaseTable, name: Id, owner: Id, during: nat -> seq<Lease.Move>)
      returns (ticksAdvanced: nat, retries: nat, broke: bool, thrown: bool)
      requires Valid() && p !in state.attempts && forall n, m :: ForeignTo(others(n, m), p)
      requires leases.Valid() && forall n :: Lease.AllForeign(during(n), name, owner)
      requires name in leases.state.leases && leases.state.leases[name].owner == owner
      modifies this, leases
      ensures leases.Valid() && old(leases.state.log) <= leases.state.log
      ensures old(leases.state.clock) <= leases.state.clock
      ensures Lease.Kept(old(leases.state), leases.state, name)
      ensures Valid() && Onward(old(state), state) && p !in state.attempts
      ensures ticksAdvanced <= ticks && old(state.tick) + ticksAdvanced + retries <= state.tick
      ensures broke ==> exists k :: 0 <= k < ticks && paused(k)
      ensures forall k :: 0 <= k < ticks && paused(k) ==> (broke || thrown) && ticksAdvanced <= k
      ensures thrown ==> Stopped(others, ticks, maxRetries, old(state.tick), state.tick)
      ensures job.Some? && !broke && !thrown ==> BatchExecuted(state.log, job.value, ticks)
      ensures NeverPaused(paused, ticks) && AllQuiet(others, ticks) && KeysFresh(old(state.executions), job, ticks) ==>
                && !broke && !thrown && ticksAdvanced == ticks && retries == 0
                && InStep(old(state), state, job, ticks, ticks)
    {
      hide Serial, Executed, Lease.Kept, Lease.Sound, Stopped, InStep, KeysFresh, OneMore, NothingNew;
      InStepSelf(state, job, ticks);
      ticksAdvanced, retries, broke, thrown := 0, 0, false, false;
      var tickIndex := 0;
      KeptSelf(leases.state, name);
      while tickIndex < ticks && !broke && !thrown
        invariant tickIndex <= ticks && Valid() && Onward(old(state), state) && p !in state.attempts
        invariant ticksAdvanced <= tickIndex && ticksAdvanced + retries <= state.tick - old(state.tick)
        invariant forall k :: 0 <= k < tickIndex ==> !paused(k)
        invariant broke ==> tickIndex < ticks && paused(tickIndex)
        invariant thrown ==> tickIndex < ticks && Stopped(others, ticks, maxRetries, old(state.tick), state.tick)
        invariant job.Some? ==> forall k :: 0 <= k < tickIndex ==> Executed(state.log, Key(job.value, k))
        invariant AllQuiet(others, ticks) && KeysFresh(old(state.executions), job, ticks) ==>
                    && InStep(old(state), state, job, tickIndex, ticks)
                    && ticksAdvanced == tickIndex && retries == 0 && !thrown
        invariant leases.Valid() && old(leases.state.log) <= leases.state.log
        invariant old(leases.state.clock) <= leases.state.clock && Lease.Kept(old(leases.state), leases.state, name)
        decreases ticks - tickIndex, !broke, !thrown
      {
        OthersAtLease(leases, old(leases.state), name, owner, during(tickIndex));
        if paused(tickIndex) {
          broke := true;
        } else {
          var key := KeyOfTick(job, tickIndex);
          var round := tickIndex;
          ghost var turn := state;
          var advanced, tries, failed := RunSingleTickWithRetries(p, key, maxRetries, (n: nat) => others(round, n));
          LongerLogExecuted(turn.log, state.log);
          InStepMore(old(state), turn, state, job, round, ticks);
          StoppedBy(others, ticks, maxRetries, round, tries, old(state.tick), turn.tick, state.tick);
          retries := retries + tries;
          if advanced {
            ticksAdvanced := ticksAdvanced + 1;
          }
          if failed {
            thrown := true;
          } else {
            tickIndex := tickIndex + 1;
          }
        }
      }
    }

    // The loop and the cleanup after it, which a pause does not prevent and an error does. `lately` runs between
    // reading the tick and deleting. With nobody else about, no pause and unused keys, the batch is done to the last
    // tick.
    method RunBatch(p: Id, job: Option<Id>, ticks: nat, maxRetries: nat, paused: nat -> bool,
                    others: (nat, nat) -> Interference, lately: seq<Move>, every: nat,
                    leases: Lease.LeaseTable, name: Id, owner: Id, during: nat -> seq<Lease.Move>)
      returns (ticksAdvanced: nat, retries: nat, tickAfter: nat, broke: bool, thrown: bool)
      requires Valid() && p !in state.attempts && AllForeign(lately, p) && forall n, m :: ForeignTo(others(n, m), p)
      requires leases.Valid() && forall n :: Lease.AllForeign(during(n), name, owner)
      requires name in leases.state.leases && leases.state.leases[name].owner == owner
      modifies this, leases
      ensures leases.Valid() && old(leases.state.log) <= leases.state.log
      ensures old(leases.state.clock) <= leases.state.clock
      ensures Lease.Kept(old(leases.state), leases.state, name)
      ensures Valid() && Onward(old(state), state) && p !in state.attempts
      ensures ticksAdvanced <= ticks && old(state.tick) + ticksAdvanced + retries <= tickAfter <= state.tick
      ensures broke ==> exists k :: 0 <= k < ticks && paused(k)
      ensures forall k :: 0 <= k < ticks && paused(k) ==> (broke || thrown) && ticksAdvanced <= k
      ensures thrown ==> Stopped(others, ticks, maxRetries, old(state.tick), state.tick)
      ensures !thrown && retention > 0 && every > 0 && tickAfter % every == 0 ==>
                forall k :: k in state.executions ==> state.executions[k].after > tickAfter - retention
      ensures NeverPaused(paused, ticks) && AllQuiet(others, ticks) && KeysFresh(old(state.executions), job, ticks) ==>
                && !broke && !thrown && ticksAdvanced == ticks && retries == 0
                && tickAfter == old(state.tick) + ticks
                && (lately == [] ==>
                      && state.tick == tickAfter && state.version == old(state.version) + ticks
                      && forall k :: k in old(state.executions) ==>
                           if retention > 0 && every > 0 && tickAfter % every == 0
                              && old(state.executions)[k].after <= tickAfter - retention
                           then k !in state.executions
                           else k in state.executions && state.executions[k] == old(state.executions)[k])
      ensures job.Some? && !broke && !thrown ==> BatchExecuted(state.log, job.value, ticks)
      ensures job.Some? && BatchInTime(state, job.value, ticks, retention) ==>
                && BatchCount(state.log, job.value, ticks) <= ticks
                && (!broke && !thrown ==> BatchCount(state.log, job.value, ticks) == ticks)
    {
      hide Serial, Executed, BatchInTime, BatchCount, Lease.Kept, Lease.Sound, Stopped, KeysFresh;
      ticksAdvanced, retries, broke, thrown :=
        RunTicks(p, job, ticks, maxRetries, paused, others, leases, name, owner, during);
      tickAfter := state.tick;
      if !thrown {
        ghost var ended := state;
        CleanExecutions(p, tickAfter, every, lately);
        LongerLogExecuted(ended.log, state.log);
      }
      if job.Some? && BatchInTime(state, job.value, ticks, retention) { BatchDone(job.value, ticks); }
    }

    // All attempts at a job together leave its keys with at most the batch, and a finished one with exactly the batch,
    // if each key was retried in time.
    lemma BatchDone(job: Id, ticks: nat)
      requires Valid() && BatchInTime(state, job, ticks, retention)
      ensures BatchCount(state.log, job, ticks) <= ticks
      ensures BatchExecuted(state.log, job, ticks) ==> BatchCount(state.log, job, ticks) == ticks
    {
      BatchExactlyOnce(state, tick0, version0, retention, job, ticks);
    }
  }

  // How an iteration ended: another worker held the lease, a tick threw, or it ran through. `broke` says that a pause
  // cut the batch short.
  datatype Iteration =
    | LeaseHeld
    | Errored(ticksAdvanced: nat)
    | Ended(ticksAdvanced: nat, tickBefore: nat, tickAfter: nat, retries: nat, broke: bool)

  lemma KeptSelf(s: Lease.State, name: Id)
    requires name in s.leases
    ensures Lease.Kept(s, s, name)
  {
  }

  // The owner was granted the name, and until it released it nothing else happened to the name.
  ghost predicate AloneSince(log: seq<Lease.Event>, from: nat, name: Id, owner: Id) {
    exists i :: from <= i < |log| && Grant(log[i], name, owner)
      && forall j :: i < j < |log| && log[j].name == name ==> j == |log| - 1 && log[j] == Lease.Released(name, owner)
  }

  predicate Grant(e: Lease.Event, name: Id, owner: Id) { e.Acquired? && e.name == name && e.owner == owner }

  lemma ReleasedAlone(granted: Lease.State, s: Lease.State, name: Id, owner: Id, from: nat)
    requires name in granted.leases && granted.log <= s.log && Lease.Kept(granted, s, name)
    requires from < |granted.log| && Grant(granted.log[|granted.log| - 1], name, owner)
    ensures s.clock < granted.leases[name].expires ==>
              AloneSince(Lease.Step(s, Lease.Release(name, owner)).log, from, name, owner)
  {
    if s.clock < granted.leases[name].expires {
      var log := Lease.Step(s, Lease.Release(name, owner)).log;
      var i := |granted.log| - 1;
      assert s.log[i] == granted.log[i];
      assert Grant(log[i], name, owner);
    }
  }

  // Other workers at the lease, while its owner is at its batch.
  method OthersAtLease(leases: Lease.LeaseTable, ghost since: Lease.State, name: Id, owner: Id, moves: seq<Lease.Move>)
    requires leases.Valid() && name in since.leases && since.leases[name].owner == owner
    requires since.log <= leases.state.log && since.clock <= leases.state.clock && Lease.Kept(since, leases.state, name)
    requires Lease.AllForeign(moves, name, owner)
    modifies leases
    ensures leases.Valid() && since.log <= leases.state.log && since.clock <= leases.state.clock
    ensures Lease.Kept(since, leases.state, name)
  {
    ghost var mid := leases.state;
    leases.Others(moves);
    if mid.clock < since.leases[name].expires {
      Lease.OthersKeepLease(mid, moves, name, owner);
      Lease.KeptComposes(since, mid, leases.state, name);
    }
  }

  // runWorkerIteration: a batch under the lease, which is given up however the batch ends. `paused(0)` answers the
  // check before the loop and `paused(k + 1)` the one before the k-th tick. `before`, `mid` and `during(k)` are what
  // other workers do to the lease around the acquire and around the k-th tick.
  method RunWorkerIteration(
    tables: Tables, leases: Lease.LeaseTable, name: Id, owner: Id, ttl: nat, p: Id, job: Option<Id>, requested: int,
    maxTicks: nat, maxRetries: nat, paused: nat -> bool, others: (nat, nat) -> Interference, lately: seq<Move>,
    every: nat, before: seq<Lease.Move>, mid: seq<Lease.Move>, during: nat -> seq<Lease.Move>)
    returns (r: Iteration)
    requires tables.Valid() && leases.Valid() && ttl > 0 && p !in tables.state.attempts
    requires AllForeign(lately, p) && forall n, m :: ForeignTo(others(n, m), p)
    requires forall n :: Lease.AllForeign(during(n), name, owner)
    modifies tables, leases
    ensures tables.Valid() && leases.Valid() && p !in tables.state.attempts && Onward(old(tables.state), tables.state)
    ensures r.LeaseHeld? ==> tables.state == old(tables.state) && name in leases.state.leases
    ensures r.LeaseHeld? <==>
              var found := Lease.Steps(old(leases.state), before);
              && (name in found.leases ==> found.leases[name].expires > old(leases.state.clock))
              && name in Lease.Steps(found, mid).leases
    ensures r.Errored? ==> Stopped(others, ResolveTickBatchSize(requested, maxTicks), maxRetries,
                                   old(tables.state.tick), tables.state.tick)
    ensures r.Ended? && r.broke ==> exists k :: 0 <= k <= ResolveTickBatchSize(requested, maxTicks) && paused(k)
    ensures !r.LeaseHeld? && NeverPaused(paused, ResolveTickBatchSize(requested, maxTicks) + 1)
            && AllQuiet(others, ResolveTickBatchSize(requested, maxTicks))
            && KeysFresh(old(tables.state.executions), job, ResolveTickBatchSize(requested, maxTicks)) ==>
              var ticks := ResolveTickBatchSize(requested, maxTicks);
              r == Ended(ticks, old(tables.state.tick), old(tables.state.tick) + ticks, 0, false)
    ensures !r.LeaseHeld? ==> (name in leases.state.leases ==> leases.state.leases[name].owner != owner)
    ensures !r.LeaseHeld? && paused(0) ==>
              && tables.state == old(tables.state)
              && r == Ended(0, old(tables.state.tick), old(tables.state.tick), 0, true)
    ensures r.Ended? ==>
              && r.tickBefore == old(tables.state.tick)
              && r.ticksAdvanced <= ResolveTickBatchSize(requested, maxTicks)
              && r.tickBefore + r.ticksAdvanced + r.retries <= r.tickAfter <= tables.state.tick
    ensures r.Ended? && !r.broke && job.Some? ==>
              BatchExecuted(tables.state.log, job.value, ResolveTickBatchSize(requested, maxTicks))
    ensures r.Ended? && !r.broke && job.Some?
            && BatchInTime(tables.state, job.value, ResolveTickBatchSize(requested, maxTicks), tables.retention) ==>
              BatchCount(tables.state.log, job.value, ResolveTickBatchSize(requested, maxTicks))
              == ResolveTickBatchSize(requested, maxTicks)
    ensures !r.LeaseHeld? && leases.state.clock < old(leases.state.clock) + ttl ==>
              AloneSince(leases.state.log, |old(leases.state.log)|, name, owner)
  {
    hide Serial, BatchExecuted, BatchInTime, BatchCount, Lease.Kept, Lease.Sound, AloneSince, ResolveTickBatchSize;
    var ticks := ResolveTickBatchSize(requested, maxTicks);
    var acquired := leases.Acquire(name, owner, ttl, false, before, mid);
    if !acquired { return LeaseHeld; }
    ghost var granted := leases.state;
    KeptSelf(granted, name);
    var tickBefore := tables.state.tick;
    if paused(0) {
      r := Ended(0, tickBefore, tickBefore, 0, true);
    } else {
      var advanced, retries, tickAfter, broke, thrown :=
        tables.RunBatch(p, job, ticks, maxRetries, (k: nat) => paused(k + 1), others, lately, every,
                        leases, name, owner, during);
      r := if thrown then Errored(advanced) else Ended(advanced, tickBefore, tickAfter, retries, broke);
    }
    ReleasedAlone(granted, leases.state, name, owner, |old(leases.state.log)|);
    leases.ReleaseLease(name, owner);
  }
}
