/** Concurrent advances of the world row, guarded by its lock version and by execution keys. */
module TickProtocol {
  import opened Rows

  // `key:tick:index`; the text determines both parts.
  datatype Key = Key(job: Id, index: nat)

  datatype Execution = Execution(before: nat, after: nat)

  // One open transaction: the world row it read, and whether its execution row is written (nobody else sees it yet).
  datatype Attempt = Attempt(key: Option<Key>, tick: nat, version: nat, claimed: bool)

  // What was committed, in order. `version` is the lock version the advance replaced.
  datatype Event = Advanced(key: Option<Key>, before: nat, version: nat) | Cleaned(below: nat)

  datatype Reply = Moved | Skipped | Stale | Failed

  datatype Answer = Answer(process: Id, key: Option<Key>, reply: Reply)

  // A try of a key: the tick its transaction read, and how much of the log was there then.
  datatype Try = Try(key: Key, tick: nat, logged: nat)

  datatype State = State(
    tick: nat, version: nat, executions: map<Key, Execution>, attempts: map<Id, Attempt>,
    log: seq<Event>, answers: seq<Answer>, tries: seq<Try>)

  datatype Move =
    | Begin(process: Id, key: Option<Key>, expected: Option<nat>)
    | Claim(process: Id)
    | Finish(process: Id)
    | Abort(process: Id)
    | Clean(below: nat)

  function WithAnswer(s: State, p: Id, key: Option<Key>, reply: Reply): State {
    s.(attempts := s.attempts - {p}, answers := s.answers + [Answer(p, key, reply)])
  }

  // Reading the world row, with the optional check of the expected version.
  function BeginStep(s: State, p: Id, key: Option<Key>, expected: Option<nat>): State {
    if p in s.attempts then s
    else if expected.Some? && expected.value != s.version then WithAnswer(s, p, key, Stale)
    else
      s.(attempts := s.attempts[p := Attempt(key, s.tick, s.version, key.None?)],
         tries := s.tries + (if key.Some? then [Try(key.value, s.tick, |s.log|)] else []))
  }

  // Looking for the execution row and, if there is none, creating it.
  function ClaimStep(s: State, p: Id): State {
    if p !in s.attempts || s.attempts[p].claimed then s
    else
      var a := s.attempts[p];
      if a.key.Some? && a.key.value in s.executions then WithAnswer(s, p, a.key, Skipped)
      else s.(attempts := s.attempts[p := a.(claimed := true)])
  }

  // The tick and the version advance together, and the execution row records the step.
  function Committed(s: State, a: Attempt): State {
    s.(tick := a.tick + 1, version := s.version + 1, log := s.log + [Advanced(a.key, a.tick, a.version)],
       executions := if a.key.Some? then s.executions[a.key.value := Execution(a.tick, a.tick + 1)] else s.executions)
  }

  // The conditional update and the commit. A key committed meanwhile by another transaction is a unique-key
  // conflict, which counts as already executed; a changed version rolls everything back.
  function FinishStep(s: State, p: Id): State {
    if p !in s.attempts || !s.attempts[p].claimed then s
    else
      var a := s.attempts[p];
      if a.key.Some? && a.key.value in s.executions then WithAnswer(s, p, a.key, Skipped)
      else if s.version != a.version then WithAnswer(s, p, a.key, Stale)
      else
        WithAnswer(Committed(s, a), p, a.key, Moved)
  }

  // Deleting old execution rows. A worker computes the bound from a tick it read earlier.
  function CleanStep(s: State, below: nat, retention: nat): State {
    if below > Max(0, s.tick - retention + 1) then s
    else s.(executions := map k | k in s.executions && s.executions[k].after >= below :: s.executions[k],
            log := s.log + [Cleaned(below)])
  }

  function Step(s: State, m: Move, retention: nat): State {
    match m
    case Begin(p, key, expected) => BeginStep(s, p, key, expected)
    case Claim(p) => ClaimStep(s, p)
    case Finish(p) => FinishStep(s, p)
    case Abort(p) => if p in s.attempts then WithAnswer(s, p, s.attempts[p].key, Failed) else s
    case Clean(below) => CleanStep(s, below, retention)
  }

  function Steps(s: State, moves: seq<Move>, retention: nat): State
    decreases |moves|
  {
    if moves == [] then s else Steps(Step(s, moves[0], retention), moves[1..], retention)
  }

  function Fresh(tick: nat, version: nat): State { State(tick, version, map[], map[], [], [], []) }

  // ---------------------------------------------------------------- the invariant

  function Commits(log: seq<Event>): nat {
    if log == [] then 0 else Commits(log[..|log| - 1]) + (if log[|log| - 1].Advanced? then 1 else 0)
  }

  // Each advance starts where the one before it ended, in tick and in version.
  ghost predicate Chained(log: seq<Event>, tick: nat, version: nat) {
    forall i :: 0 <= i < |log| && log[i].Advanced? ==>
      log[i].before == tick + Commits(log[..i]) && log[i].version == version + Commits(log[..i])
  }

  predicate AdvancedBy(e: Event, k: Key) { e.Advanced? && e.key == Some(k) }

  ghost predicate CleanedBetween(log: seq<Event>, i: nat, j: nat, after: nat) {
    exists m :: i < m < j <= |log| && log[m].Cleaned? && log[m].below > after
  }

  // A committed key keeps its row until a cleanup takes it.
  ghost predicate KeysRemembered(s: State) {
    forall i, k :: 0 <= i < |s.log| && AdvancedBy(s.log[i], k) ==>
      (k in s.executions && s.executions[k].after >= s.log[i].before + 1)
      || CleanedBetween(s.log, i, |s.log|, s.log[i].before + 1)
  }

  // Every row was earned by an advance.
  ghost predicate KeysEarned(s: State) {
    forall k :: k in s.executions ==> Earned(s.log, k, s.executions[k].after)
  }

  ghost predicate Earned(log: seq<Event>, k: Key, after: nat) {
    exists i :: 0 <= i < |log| && AdvancedBy(log[i], k) && log[i].before + 1 == after
  }

  // Cleanups stay a retention period behind the tick.
  ghost predicate CleanedLate(log: seq<Event>, tick: nat, retention: nat) {
    forall m :: 0 <= m < |log| && log[m].Cleaned? && log[m].below > 0 ==>
      log[m].below + retention <= tick + Commits(log[..m]) + 1
  }

  ghost predicate RepeatsCleaned(log: seq<Event>) {
    forall i, j, k :: 0 <= i < j < |log| && AdvancedBy(log[i], k) && AdvancedBy(log[j], k) ==>
      CleanedBetween(log, i, j, log[i].before + 1)
  }

  ghost predicate AttemptsCurrent(s: State) {
    forall p :: p in s.attempts ==>
      s.attempts[p].version <= s.version && (s.attempts[p].version == s.version ==> s.attempts[p].tick == s.tick)
  }

  // An answer that does not report a failure means that the key was executed.
  ghost predicate AnswersTrue(s: State) {
    forall i, k :: 0 <= i < |s.answers| && s.answers[i].key == Some(k) &&
        (s.answers[i].reply.Moved? || s.answers[i].reply.Skipped?)
      ==> Executed(s.log, k)
  }

  // The try behind an advance of a key, which nothing overtook.
  predicate Opens(t: Try, log: seq<Event>, upto: nat, k: Key, tick: nat)
    requires upto <= |log|
  {
    t.key == k && t.tick == tick && t.logged <= upto && forall m :: t.logged <= m < upto ==> !log[m].Advanced?
  }

  ghost predicate Opened(tries: seq<Try>, log: seq<Event>, upto: nat, k: Key, tick: nat)
    requires upto <= |log|
  {
    exists n :: 0 <= n < |tries| && Opens(tries[n], log, upto, k, tick)
  }

  // Every advance of a key, and every open attempt at one that can still commit, began with a try at its tick.
  ghost predicate Tried(s: State) {
    && (forall n :: 0 <= n < |s.tries| ==> s.tries[n].logged <= |s.log|)
    && (forall j, k :: 0 <= j < |s.log| && AdvancedBy(s.log[j], k) ==> Opened(s.tries, s.log, j, k, s.log[j].before))
    && (forall p :: p in s.attempts && s.attempts[p].key.Some? && s.attempts[p].version == s.version ==>
          Opened(s.tries, s.log, |s.log|, s.attempts[p].key.value, s.attempts[p].tick))
  }

  ghost predicate Executed(log: seq<Event>, k: Key) { exists i :: 0 <= i < |log| && AdvancedBy(log[i], k) }

  ghost predicate Serial(s: State, tick: nat, version: nat, retention: nat) {
    && s.tick == tick + Commits(s.log) && s.version == version + Commits(s.log)
    && Chained(s.log, tick, version) && CleanedLate(s.log, tick, retention)
    && AttemptsCurrent(s) && KeysRemembered(s) && KeysEarned(s) && RepeatsCleaned(s.log) && AnswersTrue(s) && Tried(s)
  }

  // ---------------------------------------------------------------- appending to the log

  lemma CommitsAppend(log: seq<Event>, e: Event)
    ensures Commits(log + [e]) == Commits(log) + (if e.Advanced? then 1 else 0)
    ensures forall i :: 0 <= i <= |log| ==> (log + [e])[..i] == log[..i]
  {
    assert (log + [e])[..|log|] == log;
  }

  lemma ChainedAppend(log: seq<Event>, e: Event, tick: nat, version: nat, retention: nat)
    requires Chained(log, tick, version) && CleanedLate(log, tick, retention)
    requires e.Advanced? ==> e.before == tick + Commits(log) && e.version == version + Commits(log)
    requires e.Cleaned? && e.below > 0 ==> e.below + retention <= tick + Commits(log) + 1
    ensures Chained(log + [e], tick, version) && CleanedLate(log + [e], tick, retention)
  {
    CommitsAppend(log, e);
    assert log[..|log|] == log;
  }

  lemma CleanedStays(log: seq<Event>, e: Event, i: nat, j: nat, after: nat)
    requires CleanedBetween(log, i, j, after)
    ensures CleanedBetween(log + [e], i, j, after) && CleanedBetween(log + [e], i, |log| + 1, after)
  {
    var m :| i < m < j <= |log| && log[m].Cleaned? && log[m].below > after;
    assert (log + [e])[m] == log[m];
  }

  lemma RepeatsAppend(log: seq<Event>, e: Event)
    requires RepeatsCleaned(log)
    requires forall i, k :: 0 <= i < |log| && AdvancedBy(log[i], k) && AdvancedBy(e, k) ==>
               CleanedBetween(log, i, |log|, log[i].before + 1)
    ensures RepeatsCleaned(log + [e])
  {
    var all := log + [e];
    forall i, j, k | 0 <= i < j < |all| && AdvancedBy(all[i], k) && AdvancedBy(all[j], k)
      ensures CleanedBetween(all, i, j, all[i].before + 1)
    {
      if j < |log| {
        assert AdvancedBy(log[j], k);
      }
      CleanedStays(log, e, i, if j < |log| then j else |log|, log[i].before + 1);
    }
  }

  lemma ExecutedStays(log: seq<Event>, e: Event)
    ensures forall k :: Executed(log, k) ==> Executed(log + [e], k)
    ensures forall k, after :: Earned(log, k, after) ==> Earned(log + [e], k, after)
  {
    forall k | Executed(log, k) ensures Executed(log + [e], k) {
      var i :| 0 <= i < |log| && AdvancedBy(log[i], k);
      assert (log + [e])[i] == log[i];
    }
    forall k, after | Earned(log, k, after) ensures Earned(log + [e], k, after) {
      var i :| 0 <= i < |log| && AdvancedBy(log[i], k) && log[i].before + 1 == after;
      assert (log + [e])[i] == log[i];
    }
  }

  lemma OpenedStays(tries: seq<Try>, more: seq<Try>, log: seq<Event>, longer: seq<Event>, upto: nat, k: Key, tick: nat)
    requires tries <= more && log <= longer && upto <= |log| && Opened(tries, log, upto, k, tick)
    ensures Opened(more, longer, upto, k, tick)
  {
    var n :| 0 <= n < |tries| && Opens(tries[n], log, upto, k, tick);
    assert more[n] == tries[n];
    assert forall m :: 0 <= m < |log| ==> longer[m] == log[m];
    assert Opens(more[n], longer, upto, k, tick);
  }

  lemma OpenedPastCleanup(tries: seq<Try>, log: seq<Event>, e: Event, k: Key, tick: nat)
    requires Opened(tries, log, |log|, k, tick) && e.Cleaned?
    ensures Opened(tries, log + [e], |log| + 1, k, tick)
  {
    var n :| 0 <= n < |tries| && Opens(tries[n], log, |log|, k, tick);
    assert Opens(tries[n], log + [e], |log| + 1, k, tick);
  }

  lemma LoggedTried(s: State, t: State)
    requires Tried(s) && s.tries <= t.tries && s.log <= t.log
    ensures forall j, k :: 0 <= j < |s.log| && AdvancedBy(s.log[j], k) ==> Opened(t.tries, t.log, j, k, s.log[j].before)
  {
    forall j, k | 0 <= j < |s.log| && AdvancedBy(s.log[j], k) ensures Opened(t.tries, t.log, j, k, s.log[j].before) {
      OpenedStays(s.tries, t.tries, s.log, t.log, j, k, s.log[j].before);
    }
  }

  // ---------------------------------------------------------------- the steps keep it

  lemma BeginTried(s: State, p: Id, key: Option<Key>)
    requires Tried(s) && p !in s.attempts
    ensures Tried(BeginStep(s, p, key, None))
  {
    var t := BeginStep(s, p, key, None);
    LoggedTried(s, t);
    hide Opened;
    forall q | q in t.attempts && t.attempts[q].key.Some? && t.attempts[q].version == t.version
      ensures Opened(t.tries, t.log, |t.log|, t.attempts[q].key.value, t.attempts[q].tick)
    {
      if q == p {
        LastTryOpens(t.tries, t.log, key.value, s.tick);
      } else {
        OpenedStays(s.tries, t.tries, s.log, t.log, |s.log|, s.attempts[q].key.value, s.attempts[q].tick);
      }
    }
  }

  lemma LastTryOpens(tries: seq<Try>, log: seq<Event>, k: Key, tick: nat)
    requires tries != [] && tries[|tries| - 1] == Try(k, tick, |log|)
    ensures Opened(tries, log, |log|, k, tick)
  {
    assert Opens(tries[|tries| - 1], log, |log|, k, tick);
  }

  lemma CommitTried(s: State, a: Attempt)
    requires Tried(s) && AttemptsCurrent(s) && a.version == s.version
    requires a.key.Some? ==> Opened(s.tries, s.log, |s.log|, a.key.value, a.tick)
    ensures Tried(Committed(s, a))
  {
    var t := Committed(s, a);
    LoggedTried(s, t);
    hide Opened;
    forall j, k | 0 <= j < |t.log| && AdvancedBy(t.log[j], k) ensures Opened(t.tries, t.log, j, k, t.log[j].before) {
      if j == |s.log| { OpenedStays(s.tries, t.tries, s.log, t.log, j, k, a.tick); }
    }
  }

  lemma CleanTried(s: State, below: nat, retention: nat)
    requires Tried(s)
    ensures Tried(CleanStep(s, below, retention))
  {
    var t := CleanStep(s, below, retention);
    LoggedTried(s, t);
    hide Opened;
    if below <= Max(0, s.tick - retention + 1) {
      forall q | q in t.attempts && t.attempts[q].key.Some? && t.attempts[q].version == t.version
        ensures Opened(t.tries, t.log, |t.log|, t.attempts[q].key.value, t.attempts[q].tick)
      {
        OpenedPastCleanup(s.tries, s.log, Cleaned(below), s.attempts[q].key.value, s.attempts[q].tick);
      }
    }
  }

  lemma ReplySerial(s: State, p: Id, key: Option<Key>, reply: Reply, tick: nat, version: nat, retention: nat)
    requires Serial(s, tick, version, retention)
    requires key.Some? && (reply.Moved? || reply.Skipped?) ==> Executed(s.log, key.value)
    ensures Serial(WithAnswer(s, p, key, reply), tick, version, retention)
  {
  }

  lemma RowExecuted(s: State, k: Key)
    requires KeysEarned(s) && k in s.executions
    ensures Executed(s.log, k)
  {
    assert Earned(s.log, k, s.executions[k].after);
  }

  lemma CommitSerial(s: State, a: Attempt, tick: nat, version: nat, retention: nat)
    requires Serial(s, tick, version, retention)
    requires a.version == s.version && a.tick == s.tick && (a.key.Some? ==> a.key.value !in s.executions)
    requires a.key.Some? ==> Opened(s.tries, s.log, |s.log|, a.key.value, a.tick)
    ensures Serial(Committed(s, a), tick, version, retention)
    ensures a.key.Some? ==> Executed(Committed(s, a).log, a.key.value)
  {
    hide Chained, CleanedLate, KeysRemembered, KeysEarned, RepeatsCleaned, Executed, Commits, CleanedBetween, Tried,
         Opened;
    var e := Advanced(a.key, a.tick, a.version);
    CommitsAppend(s.log, e);
    ChainedAppend(s.log, e, tick, version, retention);
    ExecutedStays(s.log, e);
    ForgottenWasCleaned(s, e);
    RepeatsAppend(s.log, e);
    CommitKeys(s, a);
    CommitTried(s, a);
    if a.key.Some? { LastExecuted(s.log, e, a.key.value); }
  }

  lemma LastExecuted(log: seq<Event>, e: Event, k: Key)
    requires AdvancedBy(e, k)
    ensures Executed(log + [e], k)
  {
    assert (log + [e])[|log|] == e;
  }

  // A key without a row that advanced before was cleaned since.
  lemma ForgottenWasCleaned(s: State, e: Event)
    requires KeysRemembered(s) && forall k :: AdvancedBy(e, k) ==> k !in s.executions
    ensures forall i, k :: 0 <= i < |s.log| && AdvancedBy(s.log[i], k) && AdvancedBy(e, k) ==>
              CleanedBetween(s.log, i, |s.log|, s.log[i].before + 1)
  {
  }

  lemma CommitKeys(s: State, a: Attempt)
    requires KeysRemembered(s) && KeysEarned(s) && (a.key.Some? ==> a.key.value !in s.executions)
    ensures KeysRemembered(Committed(s, a)) && KeysEarned(Committed(s, a))
  {
    var e := Advanced(a.key, a.tick, a.version);
    var t := Committed(s, a);
    ExecutedStays(s.log, e);
    assert t.log[|s.log|] == e;
    forall i, k | 0 <= i < |t.log| && AdvancedBy(t.log[i], k)
      ensures (k in t.executions && t.executions[k].after >= t.log[i].before + 1)
              || CleanedBetween(t.log, i, |t.log|, t.log[i].before + 1)
    {
      if i < |s.log| {
        assert AdvancedBy(s.log[i], k);
        if CleanedBetween(s.log, i, |s.log|, s.log[i].before + 1) {
          CleanedStays(s.log, e, i, |s.log|, s.log[i].before + 1);
        }
      }
    }
    forall k | k in t.executions ensures Earned(t.log, k, t.executions[k].after) {
      if a.key == Some(k) {
        assert AdvancedBy(t.log[|s.log|], k);
      } else {
        assert Earned(s.log, k, s.executions[k].after);
      }
    }
  }

  lemma CleanRemembers(s: State, below: nat, retention: nat)
    requires KeysRemembered(s) && below <= Max(0, s.tick - retention + 1)
    ensures KeysRemembered(CleanStep(s, below, retention))
  {
    var e := Cleaned(below);
    var t := CleanStep(s, below, retention);
    assert t.log == s.log + [e] && t.log[|s.log|] == e;
    forall i, k | 0 <= i < |t.log| && AdvancedBy(t.log[i], k)
      ensures (k in t.executions && t.executions[k].after >= t.log[i].before + 1)
              || CleanedBetween(t.log, i, |t.log|, t.log[i].before + 1)
    {
      assert AdvancedBy(s.log[i], k);
      if CleanedBetween(s.log, i, |s.log|, s.log[i].before + 1) {
        CleanedStays(s.log, e, i, |s.log|, s.log[i].before + 1);
      } else if k !in t.executions {
        assert s.executions[k].after < below;
      }
    }
  }

  lemma CleanEarns(s: State, below: nat, retention: nat)
    requires KeysEarned(s) && below <= Max(0, s.tick - retention + 1)
    ensures KeysEarned(CleanStep(s, below, retention))
  {
    var t := CleanStep(s, below, retention);
    ExecutedStays(s.log, Cleaned(below));
    hide Earned, Executed;
    forall k | k in t.executions ensures Earned(t.log, k, t.executions[k].after) {
      assert Earned(s.log, k, s.executions[k].after);
    }
  }

  lemma CleanSerial(s: State, below: nat, tick: nat, version: nat, retention: nat)
    requires Serial(s, tick, version, retention)
    ensures Serial(CleanStep(s, below, retention), tick, version, retention)
  {
    hide Chained, CleanedLate, KeysRemembered, KeysEarned, RepeatsCleaned, Executed, Commits, CleanedBetween;
    if below <= Max(0, s.tick - retention + 1) {
      var e := Cleaned(below);
      CommitsAppend(s.log, e);
      ChainedAppend(s.log, e, tick, version, retention);
      ExecutedStays(s.log, e);
      RepeatsAppend(s.log, e);
      CleanRemembers(s, below, retention);
      CleanEarns(s, below, retention);
      CleanTried(s, below, retention);
    }
  }

  lemma BeginSerial(
    s: State, p: Id, key: Option<Key>, expected: Option<nat>, tick: nat, version: nat, retention: nat)
    requires Serial(s, tick, version, retention)
    ensures Serial(BeginStep(s, p, key, expected), tick, version, retention)
  {
    hide Chained, CleanedLate, RepeatsCleaned, Executed, Commits, CleanedBetween, Earned, Opened;
    if p !in s.attempts {
      if expected.Some? && expected.value != s.version {
        ReplySerial(s, p, key, Stale, tick, version, retention);
      } else {
        BeginTried(s, p, key);
        hide Tried;
      }
    }
  }

  lemma StepSerial(s: State, m: Move, tick: nat, version: nat, retention: nat)
    requires Serial(s, tick, version, retention)
    ensures Serial(Step(s, m, retention), tick, version, retention)
  {
    hide Serial;
    match m
    case Begin(p, key, expected) => BeginSerial(s, p, key, expected, tick, version, retention);
    case Claim(p) => ClaimSerial(s, p, tick, version, retention);
    case Finish(p) => FinishSerial(s, p, tick, version, retention);
    case Abort(p) => if p in s.attempts { ReplySerial(s, p, s.attempts[p].key, Failed, tick, version, retention); }
    case Clean(below) => CleanSerial(s, below, tick, version, retention);
  }

  lemma ClaimSerial(s: State, p: Id, tick: nat, version: nat, retention: nat)
    requires Serial(s, tick, version, retention)
    ensures Serial(ClaimStep(s, p), tick, version, retention)
  {
    hide Chained, CleanedLate, RepeatsCleaned, Executed, Commits, CleanedBetween, Earned;
    if p in s.attempts && !s.attempts[p].claimed {
      var a := s.attempts[p];
      if a.key.Some? && a.key.value in s.executions {
        RowExecuted(s, a.key.value);
        ReplySerial(s, p, a.key, Skipped, tick, version, retention);
      } else {
        assert ClaimStep(s, p) == s.(attempts := s.attempts[p := a.(claimed := true)]);
      }
    }
  }

  lemma FinishSerial(s: State, p: Id, tick: nat, version: nat, retention: nat)
    requires Serial(s, tick, version, retention)
    ensures Serial(FinishStep(s, p), tick, version, retention)
  {
    if p in s.attempts && s.attempts[p].claimed {
      var a := s.attempts[p];
      if a.key.Some? && a.key.value in s.executions {
        RowExecuted(s, a.key.value);
        ReplySerial(s, p, a.key, Skipped, tick, version, retention);
      } else if s.version != a.version {
        ReplySerial(s, p, a.key, Stale, tick, version, retention);
      } else {
        assert a.tick == s.tick;
        hide Serial, Committed, WithAnswer;
        CommitSerial(s, a, tick, version, retention);
        ReplySerial(Committed(s, a), p, a.key, Moved, tick, version, retention);
      }
    }
  }

  // ---------------------------------------------------------------- every run

  // Whatever the interleaving, the commits form one chain.
  lemma {:induction false} RunsAreSerial(s: State, moves: seq<Move>, tick: nat, version: nat, retention: nat)
    requires Serial(s, tick, version, retention)
    ensures Serial(Steps(s, moves, retention), tick, version, retention)
    decreases |moves|
  {
    if moves != [] {
      StepSerial(s, moves[0], tick, version, retention);
      RunsAreSerial(Step(s, moves[0], retention), moves[1..], tick, version, retention);
    }
  }

  lemma FreshSerial(tick: nat, version: nat, retention: nat)
    ensures Serial(Fresh(tick, version), tick, version, retention)
  {
  }

  // A step either leaves the world row as it was or raises tick and version by one together; and a transaction that
  // read an older version writes nothing.
  lemma OneStepOneTick(s: State, m: Move, tick: nat, version: nat, retention: nat)
    requires Serial(s, tick, version, retention)
    ensures var t := Step(s, m, retention);
            || (t.tick == s.tick && t.version == s.version)
            || (t.tick == s.tick + 1 && t.version == s.version + 1 && m.Finish? && m.process in s.attempts
                && s.attempts[m.process].version == s.version && s.attempts[m.process].tick == s.tick)
    ensures m.Finish? && m.process in s.attempts && s.attempts[m.process].version != s.version ==>
              var t := Step(s, m, retention);
              t.tick == s.tick && t.version == s.version && t.executions == s.executions && t.log == s.log
  {
  }

  // A key that advances the world again does so at least a retention period after it did before.
  lemma RepeatsAreLate(s: State, tick: nat, version: nat, retention: nat, i: nat, j: nat, k: Key)
    requires Serial(s, tick, version, retention)
    requires i < j < |s.log| && AdvancedBy(s.log[i], k) && AdvancedBy(s.log[j], k)
    ensures s.tick > s.log[j].before >= s.log[i].before + 1 + retention
  {
    var m :| i < m < j && s.log[m].Cleaned? && s.log[m].below > s.log[i].before + 1;
    hide KeysRemembered, KeysEarned, RepeatsCleaned, AnswersTrue, AttemptsCurrent, Commits;
    CommitsMonotone(s.log, m, j);
    AdvancedIsPast(s.log, tick, version, j);
  }

  lemma AdvancedIsPast(log: seq<Event>, tick: nat, version: nat, j: nat)
    requires Chained(log, tick, version) && j < |log| && log[j].Advanced?
    ensures tick + Commits(log) > log[j].before
  {
    CommitsMonotone(log, j + 1, |log|);
    assert log[..j + 1][..j] == log[..j];
    assert log[..|log|] == log;
  }

  lemma {:induction false} CommitsMonotone(log: seq<Event>, m: nat, j: nat)
    requires m <= j <= |log|
    ensures Commits(log[..m]) <= Commits(log[..j])
    decreases j
  {
    if m < j {
      assert log[..j][..j - 1] == log[..j - 1];
      CommitsMonotone(log, m, j - 1);
    }
  }

  // An advance that nobody disturbs.
  function Undisturbed(p: Id, key: Option<Key>): seq<Move> { [Begin(p, key, None), Claim(p), Finish(p)] }

  lemma UndisturbedAdvances(s: State, p: Id, key: Option<Key>, retention: nat)
    requires s.attempts == map[] && (key.Some? ==> key.value !in s.executions)
    ensures var t := Steps(s, Undisturbed(p, key), retention);
            && t.tick == s.tick + 1 && t.version == s.version + 1 && t.attempts == map[]
            && t.log == s.log + [Advanced(key, s.tick, s.version)]
            && t.executions == if key.Some? then s.executions[key.value := Execution(s.tick, s.tick + 1)]
                else s.executions
  {
    var a := Attempt(key, s.tick, s.version, true);
    var begun := Step(s, Begin(p, key, None), retention);
    var claimed := Step(begun, Claim(p), retention);
    assert claimed == begun.(attempts := map[p := a]);
    var t := Step(claimed, Finish(p), retention);
    assert t == WithAnswer(Committed(claimed, a), p, key, Moved);
    assert t.attempts == map[];
    assert Undisturbed(p, key)[1..] == [Claim(p), Finish(p)] && [Claim(p), Finish(p)][1..] == [Finish(p)];
    assert [Finish(p)][1..] == [];
    assert Steps(t, [], retention) == t;
    assert Steps(claimed, [Finish(p)], retention) == t;
    assert Steps(begun, [Claim(p), Finish(p)], retention) == t;
  }

  lemma {:induction false} StepsAppend(s: State, a: seq<Move>, b: seq<Move>, retention: nat)
    ensures Steps(s, a + b, retention) == Steps(Steps(s, a, retention), b, retention)
    decreases |a|
  {
    hide Step;
    if a == [] {
      assert a + b == b;
    } else {
      assert (a + b)[0] == a[0] && (a + b)[1..] == a[1..] + b;
      StepsAppend(Step(s, a[0], retention), a[1..], b, retention);
    }
  }

  function Idle(p: Id, n: nat): seq<Move> { if n == 0 then [] else Idle(p, n - 1) + Undisturbed(p, None) }

  lemma {:induction false} IdleAdvances(s: State, p: Id, n: nat, retention: nat)
    requires s.attempts == map[]
    ensures var t := Steps(s, Idle(p, n), retention);
            && t.tick == s.tick + n && t.attempts == map[] && t.executions == s.executions
            && |t.log| == |s.log| + n && s.log <= t.log
  {
    hide Undisturbed, Step;
    if n > 0 {
      IdleAdvances(s, p, n - 1, retention);
      StepsAppend(s, Idle(p, n - 1), Undisturbed(p, None), retention);
      UndisturbedAdvances(Steps(s, Idle(p, n - 1), retention), p, None, retention);
    }
  }

  // Once the tick is a retention period past an execution, a cleanup forgets the key.
  lemma ForgottenAtRetention(s: State, k: Key, retention: nat)
    requires k in s.executions && s.tick == s.executions[k].after + retention
    ensures k !in Step(s, Clean(s.executions[k].after + 1), retention).executions
    ensures var t := Step(s, Clean(s.executions[k].after + 1), retention);
            t.tick == s.tick && t.attempts == s.attempts && t.log == s.log + [Cleaned(s.executions[k].after + 1)]
  {
  }

  // An execution, a retention period of other ticks, a cleanup, and the execution again.
  function Repeat(tick: nat, p: Id, k: Key, retention: nat): seq<Move> {
    Undisturbed(p, Some(k)) + Idle(p, retention) + [Clean(tick + 2)] + Undisturbed(p, Some(k))
  }

  // That bound is sharp: for every retention period there is a run in which a key advances the world a second time
  // exactly when RepeatsAreLate first allows it.
  lemma RepeatAtTheBound(tick: nat, version: nat, p: Id, k: Key, retention: nat)
    ensures var log := Steps(Fresh(tick, version), Repeat(tick, p, k, retention), retention).log;
            && |log| == retention + 3 && AdvancedBy(log[0], k) && AdvancedBy(log[retention + 2], k)
            && log[retention + 2].before == log[0].before + 1 + retention
  {
    hide Step, Undisturbed, Idle;
    var s0 := Fresh(tick, version);
    var once, wait, again := Undisturbed(p, Some(k)), Idle(p, retention), Undisturbed(p, Some(k));
    UndisturbedAdvances(s0, p, Some(k), retention);
    var s1 := Steps(s0, once, retention);
    IdleAdvances(s1, p, retention, retention);
    var s2 := Steps(s1, wait, retention);
    ForgottenAtRetention(s2, k, retention);
    var s3 := Step(s2, Clean(tick + 2), retention);
    UndisturbedAdvances(s3, p, Some(k), retention);
    RepeatSteps(s0, once, wait, Clean(tick + 2), again, retention);
  }

  lemma RepeatSteps(s: State, a: seq<Move>, b: seq<Move>, m: Move, c: seq<Move>, retention: nat)
    ensures Steps(s, a + b + [m] + c, retention)
         == Steps(Step(Steps(Steps(s, a, retention), b, retention), m, retention), c, retention)
  {
    hide Step;
    StepsAppend(s, a + b + [m], c, retention);
    StepsAppend(s, a + b, [m], retention);
    StepsAppend(s, a, b, retention);
    assert [m][1..] == [];
  }

  function CountFor(log: seq<Event>, k: Key): nat {
    if log == [] then 0 else CountFor(log[..|log| - 1], k) + (if AdvancedBy(log[|log| - 1], k) then 1 else 0)
  }

  lemma {:induction false} CountedIsThere(log: seq<Event>, k: Key) returns (i: nat)
    requires CountFor(log, k) > 0
    ensures i < |log| && AdvancedBy(log[i], k)
  {
    if AdvancedBy(log[|log| - 1], k) { i := |log| - 1; } else { i := CountedIsThere(log[..|log| - 1], k); }
  }

  lemma {:induction false} ThereIsCounted(log: seq<Event>, k: Key, i: nat)
    requires i < |log| && AdvancedBy(log[i], k)
    ensures CountFor(log, k) >= 1
  {
    if i < |log| - 1 { ThereIsCounted(log[..|log| - 1], k, i); }
  }

  lemma {:induction false} TwiceIsTwoPlaces(log: seq<Event>, k: Key) returns (i: nat, j: nat)
    requires CountFor(log, k) >= 2
    ensures i < j < |log| && AdvancedBy(log[i], k) && AdvancedBy(log[j], k)
  {
    if AdvancedBy(log[|log| - 1], k) {
      j := |log| - 1;
      i := CountedIsThere(log[..|log| - 1], k);
    } else {
      i, j := TwiceIsTwoPlaces(log[..|log| - 1], k);
    }
  }

  // The tick is still before that of an advance of the key plus a retention period, for each of its advances so far.
  ghost predicate InTime(s: State, k: Key, upto: nat, tick: nat, retention: nat) {
    forall i :: 0 <= i < upto && i < |s.log| && AdvancedBy(s.log[i], k) ==> tick < s.log[i].before + 1 + retention
  }

  // Whenever the key was tried, it was tried in time. Nothing is asked of the tick since.
  ghost predicate TriedInTime(s: State, k: Key, retention: nat) {
    forall n :: 0 <= n < |s.tries| && s.tries[n].key == k ==>
      InTime(s, k, s.tries[n].logged, s.tries[n].tick, retention)
  }

  // A caller can keep to it: only a step that tries the key can break it, and does exactly when it comes too late.
  lemma TriedInTimeIff(s: State, m: Move, tick: nat, version: nat, retention: nat, k: Key)
    requires Serial(s, tick, version, retention)
    ensures TriedInTime(Step(s, m, retention), k, retention)
       <==> TriedInTime(s, k, retention) && (Tries(s, m, k) ==> InTime(s, k, |s.log|, s.tick, retention))
  {
    var t := Step(s, m, retention);
    hide Chained, CleanedLate, KeysRemembered, KeysEarned, RepeatsCleaned, AnswersTrue, AttemptsCurrent, Commits;
    StepTries(s, m, k, retention);
    forall n | 0 <= n < |s.tries|
      ensures InTime(t, k, s.tries[n].logged, s.tries[n].tick, retention)
         <==> InTime(s, k, s.tries[n].logged, s.tries[n].tick, retention)
    {
      SameInTime(s, t, k, s.tries[n].logged, s.tries[n].tick, retention);
    }
    SameInTime(s, t, k, |s.log|, s.tick, retention);
    hide Step, InTime;
    forall n | 0 <= n < |s.tries| ensures t.tries[n] == s.tries[n] {}
    if Tries(s, m, k) { assert t.tries[|s.tries|] == Try(k, s.tick, |s.log|); }
  }

  predicate Tries(s: State, m: Move, k: Key) {
    m.Begin? && m.key == Some(k) && m.process !in s.attempts && (m.expected.Some? ==> m.expected.value == s.version)
  }

  lemma StepTries(s: State, m: Move, k: Key, retention: nat)
    ensures var t := Step(s, m, retention);
            && s.log <= t.log && s.tries <= t.tries
            && if Tries(s, m, k) then t.tries == s.tries + [Try(k, s.tick, |s.log|)]
               else forall n :: |s.tries| <= n < |t.tries| ==> t.tries[n].key != k
  {
  }

  lemma SameInTime(s: State, t: State, k: Key, upto: nat, tick: nat, retention: nat)
    requires s.log <= t.log && upto <= |s.log|
    ensures InTime(t, k, upto, tick, retention) <==> InTime(s, k, upto, tick, retention)
  {
    assert forall i :: 0 <= i < |s.log| ==> t.log[i] == s.log[i];
  }

  // Along a run, each try of the key comes in time.
  ghost predicate TriesInTime(s: State, moves: seq<Move>, k: Key, retention: nat)
    decreases |moves|
  {
    moves == [] ||
    (&& (Tries(s, moves[0], k) ==> InTime(s, k, |s.log|, s.tick, retention))
     && TriesInTime(Step(s, moves[0], retention), moves[1..], k, retention))
  }

  lemma {:induction false} RunTriedInTimeIff(
    s: State, moves: seq<Move>, tick: nat, version: nat, retention: nat, k: Key)
    requires Serial(s, tick, version, retention)
    ensures TriedInTime(Steps(s, moves, retention), k, retention)
       <==> TriedInTime(s, k, retention) && TriesInTime(s, moves, k, retention)
    decreases |moves|
  {
    hide Serial, Step, TriedInTime, InTime, Tries;
    if moves != [] {
      StepSerial(s, moves[0], tick, version, retention);
      TriedInTimeIff(s, moves[0], tick, version, retention, k);
      RunTriedInTimeIff(Step(s, moves[0], retention), moves[1..], tick, version, retention, k);
    }
  }

  // Behind a repeat is a try that came too late.
  lemma RepeatWasTriedLate(s: State, tick: nat, version: nat, retention: nat, i: nat, j: nat, k: Key)
    requires Serial(s, tick, version, retention)
    requires i < j < |s.log| && AdvancedBy(s.log[i], k) && AdvancedBy(s.log[j], k)
    ensures !TriedInTime(s, k, retention)
  {
    RepeatsAreLate(s, tick, version, retention, i, j, k);
    hide Chained, CleanedLate, KeysRemembered, KeysEarned, RepeatsCleaned, AnswersTrue, AttemptsCurrent, Commits;
    var n :| 0 <= n < |s.tries| && Opens(s.tries[n], s.log, j, k, s.log[j].before);
    assert !InTime(s, k, s.tries[n].logged, s.tries[n].tick, retention) by {
      assert i < s.tries[n].logged && s.tries[n].tick >= s.log[i].before + 1 + retention;
    }
  }

  // A key that was always tried in time has advanced the world at most once, wherever the tick is now, and exactly
  // once if it was executed at all.
  lemma AtMostOnce(s: State, tick: nat, version: nat, retention: nat, k: Key)
    requires Serial(s, tick, version, retention) && TriedInTime(s, k, retention)
    ensures CountFor(s.log, k) <= 1
    ensures Executed(s.log, k) ==> CountFor(s.log, k) == 1
  {
    if CountFor(s.log, k) >= 2 {
      var i, j := TwiceIsTwoPlaces(s.log, k);
      RepeatWasTriedLate(s, tick, version, retention, i, j, k);
    }
    if Executed(s.log, k) {
      var i :| 0 <= i < |s.log| && AdvancedBy(s.log[i], k);
      ThereIsCounted(s.log, k, i);
    }
  }

  // What all keys of one job with a batch of `n` ticks did together.
  function BatchCount(log: seq<Event>, job: Id, n: nat): nat {
    if n == 0 then 0 else BatchCount(log, job, n - 1) + CountFor(log, Key(job, n - 1))
  }

  ghost predicate BatchInTime(s: State, job: Id, n: nat, retention: nat) {
    forall i :: 0 <= i < n ==> TriedInTime(s, Key(job, i), retention)
  }

  ghost predicate BatchExecuted(log: seq<Event>, job: Id, n: nat) {
    forall i :: 0 <= i < n ==> Executed(log, Key(job, i))
  }

  // However often and wherever a job is run again, if each of its keys is retried in time, its keys advance the world
  // at most `n` times in all, and exactly `n` times once each of them has been answered without a failure.
  lemma {:induction false} BatchExactlyOnce(s: State, tick: nat, version: nat, retention: nat, job: Id, n: nat)
    requires Serial(s, tick, version, retention) && BatchInTime(s, job, n, retention)
    ensures BatchCount(s.log, job, n) <= n
    ensures BatchExecuted(s.log, job, n) ==> BatchCount(s.log, job, n) == n
    decreases n
  {
    if n > 0 {
      AtMostOnce(s, tick, version, retention, Key(job, n - 1));
      BatchExactlyOnce(s, tick, version, retention, job, n - 1);
    }
  }
}
