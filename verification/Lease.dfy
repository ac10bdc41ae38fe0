/** The lease row that lets one worker at a time process ticks. */
module Lease {
  import opened Rows

  datatype Row = Row(owner: Id, expires: int)

  // A successful acquire: `at` is the time it read when it began, `done` the time its write took effect.
  datatype Event =
    | Acquired(name: Id, owner: Id, expires: int, at: int, done: int, reentry: bool)
    | Released(name: Id, owner: Id)

  datatype State = State(clock: int, leases: map<Id, Row>, log: seq<Event>)

  // The database statements, each atomic, in any order and from any worker. An acquire is an update and, if that
  // changed no row, a create.
  datatype Move =
    | Wait(duration: nat)
    | Update(name: Id, owner: Id, at: int, ttl: nat, reentry: bool)
    | Create(name: Id, owner: Id, at: int, ttl: nat)
    | Release(name: Id, owner: Id)

  predicate Matches(leases: map<Id, Row>, name: Id, owner: Id, at: int, reentry: bool) {
    name in leases && (leases[name].expires <= at || (reentry && leases[name].owner == owner))
  }

  function Granted(s: State, name: Id, owner: Id, at: int, ttl: nat, reentry: bool): State {
    s.(leases := s.leases[name := Row(owner, at + ttl)],
       log := s.log + [Acquired(name, owner, at + ttl, at, s.clock, reentry)])
  }

  // A worker cannot read a time that has not come.
  function Step(s: State, m: Move): State {
    match m
    case Wait(duration) => s.(clock := s.clock + duration)
    case Update(name, owner, at, ttl, reentry) =>
      if at <= s.clock && Matches(s.leases, name, owner, at, reentry)
          then Granted(s, name, owner, at, ttl, reentry) else s
    case Create(name, owner, at, ttl) =>
      if at <= s.clock && name !in s.leases then Granted(s, name, owner, at, ttl, false) else s
    case Release(name, owner) =>
      if name in s.leases && s.leases[name].owner == owner
      then s.(leases := s.leases - {name}, log := s.log + [Released(name, owner)])
      else s
  }

  function Steps(s: State, moves: seq<Move>): State
    decreases |moves|
  {
    if moves == [] then s else Steps(Step(s, moves[0]), moves[1..])
  }

  // ---------------------------------------------------------------- the invariant

  // The row a history leaves behind.
  function Holder(log: seq<Event>, name: Id): Option<Row> {
    if log == [] then None
    else
      match log[|log| - 1]
      case Acquired(n, owner, expires, _, _, _) =>
        if n == name then Some(Row(owner, expires)) else Holder(log[..|log| - 1], name)
      case Released(n, owner) => if n == name then None else Holder(log[..|log| - 1], name)
  }

  // An acquire finds no row, or an expired one, or takes up its owner's own.
  predicate GrantedLegally(h: Option<Row>, e: Event)
    requires e.Acquired?
  {
    h.None? || h.value.expires <= e.at || (e.reentry && h.value.owner == e.owner)
  }

  ghost predicate Legal(log: seq<Event>, clock: int) {
    forall j :: 0 <= j < |log| ==>
      if log[j].Acquired? then GrantedLegally(Holder(log[..j], log[j].name), log[j]) &&
          log[j].at <= log[j].done <= clock
      else Holder(log[..j], log[j].name).Some? && Holder(log[..j], log[j].name).value.owner == log[j].owner
  }

  ghost predicate InOrder(log: seq<Event>) {
    forall i, j :: 0 <= i < j < |log| && log[i].Acquired? && log[j].Acquired? ==> log[i].done <= log[j].done
  }

  ghost predicate Sound(s: State) {
    && Legal(s.log, s.clock) && InOrder(s.log)
    && forall name :: Holder(s.log, name) == if name in s.leases then Some(s.leases[name]) else None
  }

  lemma AppendLegal(log: seq<Event>, clock: int, e: Event)
    requires Legal(log, clock) && InOrder(log)
    requires if e.Acquired? then GrantedLegally(Holder(log, e.name), e) && e.at <= e.done == clock
             else Holder(log, e.name).Some? && Holder(log, e.name).value.owner == e.owner
    ensures Legal(log + [e], clock) && InOrder(log + [e])
  {
    var all := log + [e];
    assert all[..|log|] == log;
    forall j | 0 <= j < |log| ensures all[..j] == log[..j] {}
  }

  lemma HolderAppend(log: seq<Event>, e: Event)
    ensures forall name :: Holder(log + [e], name) ==
              if e.name != name then Holder(log, name) else if e.Acquired? then Some(Row(e.owner, e.expires)) else None
  {
    assert (log + [e])[..|log|] == log;
  }

  lemma GrantedSound(s: State, name: Id, owner: Id, at: int, ttl: nat, reentry: bool)
    requires Sound(s) && at <= s.clock && (name in s.leases ==> Matches(s.leases, name, owner, at, reentry))
    ensures Sound(Granted(s, name, owner, at, ttl, reentry))
  {
    var e := Acquired(name, owner, at + ttl, at, s.clock, reentry);
    assert Holder(s.log, name) == if name in s.leases then Some(s.leases[name]) else None;
    hide Holder, Legal, InOrder;
    HolderAppend(s.log, e);
    AppendLegal(s.log, s.clock, e);
  }

  lemma ReleasedSound(s: State, name: Id, owner: Id)
    requires Sound(s) && name in s.leases && s.leases[name].owner == owner
    ensures Sound(Step(s, Release(name, owner)))
  {
    var e := Released(name, owner);
    assert Holder(s.log, name) == Some(s.leases[name]);
    hide Holder, Legal, InOrder;
    HolderAppend(s.log, e);
    AppendLegal(s.log, s.clock, e);
  }

  lemma WaitSound(s: State, duration: nat)
    requires Sound(s)
    ensures Sound(Step(s, Wait(duration)))
  {
    hide Holder;
  }

  lemma StepSound(s: State, m: Move)
    requires Sound(s)
    ensures Sound(Step(s, m))
  {
    hide Sound, Granted;
    match m
    case Wait(duration) => WaitSound(s, duration);
    case Update(name, owner, at, ttl, reentry) =>
      if at <= s.clock && Matches(s.leases, name, owner, at, reentry) {
        GrantedSound(s, name, owner, at, ttl, reentry);
      }
    case Create(name, owner, at, ttl) =>
      if at <= s.clock && name !in s.leases { GrantedSound(s, name, owner, at, ttl, false); }
    case Release(name, owner) =>
      if name in s.leases && s.leases[name].owner == owner { ReleasedSound(s, name, owner); }
  }

  lemma {:induction false} RunsAreSound(s: State, moves: seq<Move>)
    requires Sound(s)
    ensures Sound(Steps(s, moves)) && s.log <= Steps(s, moves).log && s.clock <= Steps(s, moves).clock
    decreases |moves|
  {
    if moves != [] {
      StepSound(s, moves[0]);
      RunsAreSound(Step(s, moves[0]), moves[1..]);
    }
  }

  // ---------------------------------------------------------------- exclusion

  // Between i and j the holder neither released nor took up its lease again.
  ghost predicate Undisturbed(log: seq<Event>, i: nat, j: nat)
    requires i < |log| && log[i].Acquired?
  {
    forall m :: i < m <= j && m < |log| ==>
      && log[m] != Released(log[i].name, log[i].owner)
      && !(log[m].Acquired? && log[m].name == log[i].name && log[m].reentry && log[m].owner == log[i].owner)
  }

  // Until somebody else is granted the name, the row stays the holder's: others' releases do not match it.
  lemma {:induction false} HeldUntil(log: seq<Event>, clock: int, i: nat, j: nat)
    requires Legal(log, clock) && i < j <= |log| && log[i].Acquired? && Undisturbed(log, i, j)
    requires forall m :: i < m < j && log[m].Acquired? ==> log[m].name != log[i].name
    ensures Holder(log[..j], log[i].name) == Some(Row(log[i].owner, log[i].expires))
    decreases j
  {
    assert log[..j][..j - 1] == log[..j - 1];
    if j > i + 1 {
      HeldUntil(log, clock, i, j - 1);
      assert log[j - 1] != Released(log[i].name, log[i].owner);
    }
  }

  // The first later grant of the name, if there is one.
  lemma {:induction false} FirstGrant(log: seq<Event>, i: nat, j: nat) returns (m: nat)
    requires i < j < |log| && log[i].Acquired? && log[j].Acquired? && log[j].name == log[i].name
    ensures i < m <= j && log[m].Acquired? && log[m].name == log[i].name
    ensures forall k :: i < k < m && log[k].Acquired? ==> log[k].name != log[i].name
    decreases j
  {
    m := j;
    if k :| i < k < j && log[k].Acquired? && log[k].name == log[i].name {
      m := FirstGrant(log, i, k);
    }
  }

  // A successful acquire excludes every other one of its name until it expires or its owner releases it, however
  // the statements of all workers interleave.
  lemma LeaseExcludes(s: State, i: nat, j: nat)
    requires Sound(s) && i < j < |s.log|
    requires s.log[i].Acquired? && s.log[j].Acquired? && s.log[j].name == s.log[i].name
    requires Undisturbed(s.log, i, j)
    ensures s.log[j].done >= s.log[i].expires
  {
    var m := FirstGrant(s.log, i, j);
    HeldUntil(s.log, s.clock, i, m);
    assert GrantedLegally(Holder(s.log[..m], s.log[m].name), s.log[m]);
    assert s.log[m].at <= s.log[m].done;
  }

  // The next grant of the name has even read a time past the expiry.
  lemma NextGrantReadsExpiry(s: State, i: nat, j: nat)
    requires Sound(s) && i < j < |s.log|
    requires s.log[i].Acquired? && s.log[j].Acquired? && s.log[j].name == s.log[i].name
    requires Undisturbed(s.log, i, j) && forall m :: i < m < j && s.log[m].Acquired? ==> s.log[m].name != s.log[i].name
    ensures s.log[j].at >= s.log[i].expires
  {
    HeldUntil(s.log, s.clock, i, j);
    assert GrantedLegally(Holder(s.log[..j], s.log[j].name), s.log[j]);
  }

  // A grant after that may have read its time before the expiry: worker 3 reads 5, worker 1's lease expires at 10,
  // worker 2 takes it and releases it, and only then does worker 3 insert.
  lemma LaterGrantMayReadEarlier() returns (s: State)
    ensures Sound(s) && |s.log| == 4 && s.log[0].Acquired? && s.log[3].Acquired? && Undisturbed(s.log, 0, 3)
    ensures s.log[3].name == s.log[0].name && s.log[3].at < s.log[0].expires <= s.log[3].done
  {
    var s0 := State(0, map[], []);
    var s1 := Step(s0, Create(0, 1, 0, 10));
    var s2 := Step(s1, Wait(10));
    var s3 := Step(s2, Update(0, 2, 10, 10, false));
    var s4 := Step(s3, Release(0, 2));
    s := Step(s4, Create(0, 3, 5, 10));
    assert Sound(s0);
    hide Sound, Holder, Legal, InOrder;
    StepSound(s0, Create(0, 1, 0, 10));
    StepSound(s1, Wait(10));
    StepSound(s2, Update(0, 2, 10, 10, false));
    StepSound(s3, Release(0, 2));
    StepSound(s4, Create(0, 3, 5, 10));
  }

  // Statements of anybody but this owner.
  predicate Foreign(m: Move, name: Id, owner: Id) {
    match m
    case Wait(_) => true
    case Update(n, o, _, _, _) => n != name || o != owner
    case Create(n, o, _, _) => n != name || o != owner
    case Release(n, o) => n != name || o != owner
  }

  predicate AllForeign(moves: seq<Move>, name: Id, owner: Id) {
    forall k :: 0 <= k < |moves| ==> Foreign(moves[k], name, owner)
  }

  // Up to its expiry the row stays, and nobody is granted the name or releases it.
  predicate Kept(s: State, t: State, name: Id)
    requires name in s.leases
  {
    t.clock < s.leases[name].expires ==>
      && name in t.leases && t.leases[name] == s.leases[name]
      && forall j :: |s.log| <= j < |t.log| ==> t.log[j].name != name
  }

  lemma KeptComposes(s: State, mid: State, t: State, name: Id)
    requires name in s.leases && mid.clock <= t.clock && s.log <= mid.log <= t.log
    requires Kept(s, mid, name) && (name in mid.leases ==> Kept(mid, t, name))
    ensures Kept(s, t, name)
  {
    if t.clock < s.leases[name].expires {
      forall j | |s.log| <= j < |t.log| ensures t.log[j].name != name {
        if j < |mid.log| { assert t.log[j] == mid.log[j]; }
      }
    }
  }

  lemma {:induction false} OthersKeepLease(s: State, moves: seq<Move>, name: Id, owner: Id)
    requires name in s.leases && s.leases[name].owner == owner && AllForeign(moves, name, owner)
    ensures s.clock <= Steps(s, moves).clock && s.log <= Steps(s, moves).log && Kept(s, Steps(s, moves), name)
    decreases |moves|
  {
    if moves != [] {
      var mid := Step(s, moves[0]);
      assert Foreign(moves[0], name, owner);
      assert s.clock <= mid.clock && s.log <= mid.log && Kept(s, mid, name);
      if name in mid.leases && mid.leases[name].owner == owner {
        OthersKeepLease(mid, moves[1..], name, owner);
        KeptComposes(s, mid, Steps(s, moves), name);
      } else {
        LaterAndLonger(mid, moves[1..]);
      }
    }
  }

  lemma {:induction false} LaterAndLonger(s: State, moves: seq<Move>)
    ensures s.clock <= Steps(s, moves).clock && s.log <= Steps(s, moves).log
    decreases |moves|
  {
    if moves != [] { LaterAndLonger(Step(s, moves[0]), moves[1..]); }
  }

  // A release removes the row of its owner and no other.
  lemma LateReleaseIsHarmless(s: State, name: Id, owner: Id)
    ensures var t := Step(s, Release(name, owner));
            && (forall n :: n != name && n in s.leases ==> n in t.leases && t.leases[n] == s.leases[n])
            && (name in s.leases && s.leases[name].owner != owner ==> t == s)
  {
  }

  // ---------------------------------------------------------------- the table

  class LeaseTable {
    var state: State

    ghost predicate Valid() reads this { Sound(state) }

    constructor (clock: int)
      ensures Valid() && state == State(clock, map[], [])
    {
      state := State(clock, map[], []);
    }

    method Others(moves: seq<Move>)
      requires Valid()
      modifies this
      ensures Valid() && state == Steps(old(state), moves) && old(state).log <= state.log &&
              old(state).clock <= state.clock
    {
      RunsAreSound(state, moves);
      state := Steps(state, moves);
    }

    // acquireSimulationLease: `before` runs between reading the time and the update, `mid` between update and create.
    // It succeeds exactly when one of its two statements writes a row, and then the row is the caller's.
    method Acquire(name: Id, owner: Id, ttl: nat, allowReentry: bool, before: seq<Move>, mid: seq<Move>)
      returns (acquired: bool)
      requires Valid() && ttl > 0
      modifies this
      ensures Valid() && old(state).log <= state.log
      ensures acquired <==>
                var found := Steps(old(state), before);
                || (name in found.leases
                    && (found.leases[name].expires <= old(state).clock
                        || (allowReentry && found.leases[name].owner == owner)))
                || name !in Steps(found, mid).leases
      ensures acquired ==> name in state.leases && state.leases[name] == Row(owner, old(state).clock + ttl)
      ensures acquired ==> |old(state).log| < |state.log| && var e := state.log[|state.log| - 1];
                e.Acquired? && (e.reentry ==> allowReentry) &&
                    e == Acquired(name, owner, old(state).clock + ttl, old(state).clock, state.clock, e.reentry)
      ensures !acquired ==> name in state.leases
      ensures !acquired ==> state == Steps(Steps(old(state), before), mid)
    {
      hide Sound;
      var now := state.clock;
      Others(before);
      if Matches(state.leases, name, owner, now, allowReentry) {
        StepSound(state, Update(name, owner, now, ttl, allowReentry));
        state := Step(state, Update(name, owner, now, ttl, allowReentry));
        return true;
      }
      Others(mid);
      acquired := name !in state.leases;
      StepSound(state, Create(name, owner, now, ttl));
      state := Step(state, Create(name, owner, now, ttl));
    }

    // releaseSimulationLease
    method ReleaseLease(name: Id, owner: Id)
      requires Valid()
      modifies this
      ensures Valid() && state == Step(old(state), Release(name, owner))
      ensures forall n :: n in state.leases <==>
                n in old(state).leases && !(n == name && old(state).leases[n].owner == owner)
      ensures forall n :: n in state.leases ==> state.leases[n] == old(state).leases[n]
    {
      hide Sound;
      StepSound(state, Release(name, owner));
      state := Step(state, Release(name, owner));
    }
  }
}
