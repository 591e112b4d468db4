// Concurrent calls on one circuit breaker: which calls are in flight, and why a HALF_OPEN breaker
// never waits for nobody as long as no attempt is cancelled.

module BreakerProtocol {
  import opened Common
  import opened CircuitBreakers

  // A call that has been admitted: awaiting its function, or backing off before the next attempt.
  datatype Call = Trying(left: nat) | Sleeping(left: nat)

  // `probes` are the calls whose running attempt was started in the current HALF_OPEN episode,
  // `opener` the call whose admission opened it; neither exists in the program. `log` is what
  // happened to the breaker so far.
  datatype State = State(breaker: Breaker, calls: map<nat, Call>, log: seq<Event>, probes: set<nat>, opener: nat)

  datatype Step =
    | Arrive(id: nat, now: real, maxAttempts: int)
    | Finish(id: nat, ok: bool, now: real)
    | Wake(id: nat)
    | Cancel(id: nat)

  const START := State(INITIAL, map[], [], {}, 0)

  predicate Enabled(c: Config, s: State, step: Step) {
    match step
    case Arrive(id, _, _) => id !in s.calls
    case Finish(id, _, _) => id in s.calls && s.calls[id].Trying?
    case Wake(id) => id in s.calls && s.calls[id].Sleeping?
    case Cancel(id) => id in s.calls
  }

  // The set of probes after `id` starts an attempt while the breaker is at `b`.
  function Joined(b: Breaker, probes: set<nat>, id: nat): set<nat> {
    if b.phase.HalfOpen? then probes + {id} else probes
  }

  function Next(c: Config, s: State, step: Step): (s': State)
    requires s.breaker.Valid() && Enabled(c, s, step)
    ensures s'.breaker.Valid()
  {
    match step
    case Arrive(id, now, maxAttempts) =>
      var e := Enter(now, maxAttempts >= 1);
      var b := AfterCheck(c, s.breaker, now);
      var opens := s.breaker.phase.Open? && b.phase.HalfOpen?;
      var probes := if opens then {} else s.probes;
      var opener := if opens then id else s.opener;
      if Admits(c, s.breaker, now) && maxAttempts >= 1 then
        State(Apply(c, s.breaker, e), s.calls[id := Trying(maxAttempts - 1)], s.log + [e], Joined(b, probes, id), opener)
      else
        State(Apply(c, s.breaker, e), s.calls, s.log + [e], probes, opener)
    case Finish(id, ok, now) =>
      var e := if ok then Success else Failure(now);
      var left := s.calls[id].left;
      var calls := if ok || left == 0 then s.calls - {id} else s.calls[id := Sleeping(left)];
      State(Apply(c, s.breaker, e), calls, s.log + [e], {}, s.opener)
    case Wake(id) =>
      var left := s.calls[id].left;
      State(Apply(c, s.breaker, Retry), s.calls[id := Trying(if left == 0 then 0 else left - 1)], s.log + [Retry],
            Joined(s.breaker, s.probes, id), s.opener)
    case Cancel(id) =>
      s.(calls := s.calls - {id}, probes := s.probes - {id})
  }

  // The steps lead from one state to the other, each enabled where it is taken.
  ghost predicate Leads(c: Config, from: State, steps: seq<Step>, s: State)
    decreases |steps|
  {
    if steps == [] then s == from
    else
      var n := |steps| - 1;
      exists t: State :: Leads(c, from, steps[..n], t) && t.breaker.Valid() && Enabled(c, t, steps[n]) && s == Next(c, t, steps[n])
  }

  ghost predicate Reaches(c: Config, steps: seq<Step>, s: State) {
    Leads(c, START, steps, s)
  }

  lemma LeadsPush(c: Config, from: State, steps: seq<Step>, t: State, step: Step)
    requires Leads(c, from, steps, t) && t.breaker.Valid() && Enabled(c, t, step)
    ensures Leads(c, from, steps + [step], Next(c, t, step))
  {
    assert (steps + [step])[..|steps|] == steps;
  }

  lemma StepKeepsReplay(c: Config, t: State, step: Step)
    requires t.breaker.Valid() && Enabled(c, t, step) && t.breaker == Replay(c, INITIAL, t.log)
    ensures Next(c, t, step).breaker == Replay(c, INITIAL, Next(c, t, step).log)
  {
    match step {
      case Arrive(_, now, maxAttempts) => ReplayPush(c, INITIAL, t.log, Enter(now, maxAttempts >= 1));
      case Finish(_, ok, now) => ReplayPush(c, INITIAL, t.log, if ok then Success else Failure(now));
      case Wake(_) => ReplayPush(c, INITIAL, t.log, Retry);
      case Cancel(_) =>
    }
  }

  // The history theorems about event sequences hold in every reachable state.
  lemma {:induction false} BreakerIsReplayOfLog(c: Config, steps: seq<Step>, s: State)
    requires Reaches(c, steps, s)
    ensures s.breaker.Valid() && s.breaker == Replay(c, INITIAL, s.log)
  {
    if steps != [] {
      var n := |steps| - 1;
      var t: State :| Leads(c, START, steps[..n], t) && t.breaker.Valid() && Enabled(c, t, steps[n]) && s == Next(c, t, steps[n]);
      BreakerIsReplayOfLog(c, steps[..n], t);
      StepKeepsReplay(c, t, steps[n]);
    }
  }

  lemma {:induction false} StateIsHistory(c: Config, steps: seq<Step>, s: State)
    requires c.failureThreshold >= 1 && Reaches(c, steps, s)
    ensures s.breaker.failureCount == TrailingFailures(s.log)
    ensures s.breaker.phase.Closed? <==> TrailingFailures(s.log) < c.failureThreshold
  {
    BreakerIsReplayOfLog(c, steps, s);
    StateTracksHistory(c, s.log);
  }

  // ---- The clock ----

  // Steps that read the clock: a success does not.
  predicate ReadsClock(step: Step) {
    step.Arrive? || (step.Finish? && !step.ok)
  }

  // Clock readings never go back.
  ghost predicate ClockGoesForward(steps: seq<Step>) {
    forall i, j :: 0 <= i < j < |steps| && ReadsClock(steps[i]) && ReadsClock(steps[j]) ==> steps[i].now <= steps[j].now
  }

  ghost predicate ReadUpTo(steps: seq<Step>, now: real) {
    forall i :: 0 <= i < |steps| && ReadsClock(steps[i]) ==> steps[i].now <= now
  }

  ghost predicate LoggedUpTo(log: seq<Event>, now: real) {
    forall i :: 0 <= i < |log| && Reads(log[i]) ==> log[i].now <= now
  }

  lemma ChronologicalPush(log: seq<Event>, e: Event)
    requires Chronological(log) && (Reads(e) ==> LoggedUpTo(log, e.now))
    ensures Chronological(log + [e])
  {}

  // Then the log is chronological in every interleaving.
  lemma {:induction false} LogIsChronological(c: Config, steps: seq<Step>, s: State, now: real)
    requires Reaches(c, steps, s) && ClockGoesForward(steps) && ReadUpTo(steps, now)
    ensures Chronological(s.log) && LoggedUpTo(s.log, now)
  {
    if steps != [] {
      var n := |steps| - 1;
      var step := steps[n];
      var t: State :| Leads(c, START, steps[..n], t) && t.breaker.Valid() && Enabled(c, t, step) && s == Next(c, t, step);
      LogIsChronological(c, steps[..n], t, if ReadsClock(step) then step.now else now);
      if s.log != t.log {
        ChronologicalPush(t.log, s.log[|t.log|]);
      }
    }
  }

  // In every interleaving with a clock that goes forward: while the last outcomes are failures, up to
  // the threshold, a fresh call is admitted only when the latest failure is as old as the recovery timeout.
  lemma {:induction false} FreshCallWaitsForRecovery(c: Config, steps: seq<Step>, s: State, now: real)
    requires c.failureThreshold >= 1 && Reaches(c, steps, s) && ClockGoesForward(steps) && ReadUpTo(steps, now)
    requires TrailingFailures(s.log) >= c.failureThreshold && s.breaker.Valid() && Admits(c, s.breaker, now)
    ensures LastFailure(s.log).Some? && now - LastFailure(s.log).value >= c.recoveryTimeout
  {
    BreakerIsReplayOfLog(c, steps, s);
    LogIsChronological(c, steps, s, now);
    ChronologicalPush(s.log, Enter(now, true));
    AdmissionWaitsForRecovery(c, s.log, now);
  }

  // And between two recorded outcomes of a failing breaker, the fresh calls that get an attempt are
  // bounded by the half-open maximum.
  lemma {:induction false} FreshCallsAreBounded(c: Config, steps: seq<Step>, s: State)
    requires c.failureThreshold >= 1 && Reaches(c, steps, s) && TrailingFailures(s.log) >= c.failureThreshold
    ensures FreshSinceOutcome(c, s.log) <= ProbeLimit(c)
  {
    FreshProbesAreBounded(c, s.log);
  }

  // ---- One call as a run ----

  // Nothing else happens while the call runs.
  ghost predicate Undisturbed(w: World) {
    forall i: nat :: w.during(i) == [] && w.asleep(i) == []
  }

  // What the call does from the end of attempt i on.
  function CallSteps(w: World, maxAttempts: int, id: nat, i: nat): seq<Step>
    decreases maxAttempts - i
  {
    if w.reply(i) then [Finish(id, true, w.clock(i))]
    else if i + 1 >= maxAttempts then [Finish(id, false, w.clock(i))]
    else [Finish(id, false, w.clock(i))] + [Wake(id)] + CallSteps(w, maxAttempts, id, i + 1)
  }

  lemma LastAttemptRuns(c: Config, w: World, maxAttempts: int, id: nat, from: State, before: seq<Step>, s: State, i: nat) returns (s': State)
    requires Undisturbed(w) && i < maxAttempts && Leads(c, from, before, s) && s.breaker.Valid()
    requires id in s.calls && s.calls[id] == Trying(maxAttempts - 1 - i) && (w.reply(i) || i + 1 == maxAttempts)
    ensures Leads(c, from, before + CallSteps(w, maxAttempts, id, i), s') && s'.calls == s.calls - {id}
    ensures s'.breaker == Replay(c, s.breaker, Remaining(w, maxAttempts, i)) && s'.log == s.log + Remaining(w, maxAttempts, i)
  {
    var finish := Finish(id, w.reply(i), w.clock(i));
    RemainingStep(c, w, maxAttempts, i, s.breaker);
    LeadsPush(c, from, before, s, finish);
    s' := Next(c, s, finish);
    assert w.during(i) == [];
    assert Remaining(w, maxAttempts, i) == [if w.reply(i) then Success else Failure(w.clock(i))];
  }

  lemma RetriedAttempt(c: Config, w: World, maxAttempts: int, i: nat, b: Breaker)
    requires Undisturbed(w) && b.Valid() && !w.reply(i) && i + 1 < maxAttempts
    ensures Replay(c, b, Remaining(w, maxAttempts, i)) == Replay(c, AfterStart(AfterFailure(c, b, w.clock(i))), Remaining(w, maxAttempts, i + 1))
    ensures Remaining(w, maxAttempts, i) == [Failure(w.clock(i))] + [Retry] + Remaining(w, maxAttempts, i + 1)
  {
    RemainingStep(c, w, maxAttempts, i, b);
    assert w.during(i) == [] && w.asleep(i) == [];
    var fail := [Failure(w.clock(i))];
    assert [] + fail + [] + [Retry] == fail + [Retry];
  }

  // A failed attempt and the start of the next.
  lemma RetryRuns(c: Config, from: State, before: seq<Step>, s: State, id: nat, now: real) returns (t: State)
    requires Leads(c, from, before, s) && s.breaker.Valid() && id in s.calls && s.calls[id].Trying? && s.calls[id].left >= 1
    ensures Leads(c, from, before + [Finish(id, false, now)] + [Wake(id)], t)
    ensures t.breaker.Valid() && t.breaker == AfterStart(AfterFailure(c, s.breaker, now))
    ensures t.log == s.log + [Failure(now)] + [Retry] && t.calls == s.calls[id := Trying(s.calls[id].left - 1)]
  {
    var s1 := Next(c, s, Finish(id, false, now));
    LeadsPush(c, from, before, s, Finish(id, false, now));
    LeadsPush(c, from, before + [Finish(id, false, now)], s1, Wake(id));
    t := Next(c, s1, Wake(id));
  }

  lemma RegroupTwo<T>(a: seq<T>, b: seq<T>, c: seq<T>, d: seq<T>)
    ensures a + b + c + d == a + (b + c + d)
  {}

  lemma {:induction false} AttemptsRun(c: Config, w: World, maxAttempts: int, id: nat, from: State, before: seq<Step>, s: State, i: nat) returns (s': State)
    requires Undisturbed(w) && i < maxAttempts && Leads(c, from, before, s) && s.breaker.Valid()
    requires id in s.calls && s.calls[id] == Trying(maxAttempts - 1 - i)
    ensures Leads(c, from, before + CallSteps(w, maxAttempts, id, i), s') && s'.calls == s.calls - {id}
    ensures s'.breaker == Replay(c, s.breaker, Remaining(w, maxAttempts, i)) && s'.log == s.log + Remaining(w, maxAttempts, i)
    decreases maxAttempts - i
  {
    if w.reply(i) || i + 1 == maxAttempts {
      s' := LastAttemptRuns(c, w, maxAttempts, id, from, before, s, i);
    } else {
      var now := w.clock(i);
      var t := RetryRuns(c, from, before, s, id, now);
      RetriedAttempt(c, w, maxAttempts, i, s.breaker);
      s' := AttemptsRun(c, w, maxAttempts, id, from, before + [Finish(id, false, now)] + [Wake(id)], t, i + 1);
      RegroupTwo(before, [Finish(id, false, now)], [Wake(id)], CallSteps(w, maxAttempts, id, i + 1));
      RegroupTwo(s.log, [Failure(now)], [Retry], Remaining(w, maxAttempts, i + 1));
    }
  }

  // A call that arrives and is admitted.
  lemma ArrivalRuns(c: Config, from: State, id: nat, now: real, maxAttempts: int) returns (t: State)
    requires from.breaker.Valid() && id !in from.calls && Admits(c, from.breaker, now) && maxAttempts >= 1
    ensures Leads(c, from, [Arrive(id, now, maxAttempts)], t)
    ensures t.breaker.Valid() && t.breaker == AfterStart(AfterCheck(c, from.breaker, now))
    ensures t.log == from.log + [Enter(now, true)] && t.calls == from.calls[id := Trying(maxAttempts - 1)]
  {
    LeadsOne(c, from, Arrive(id, now, maxAttempts));
    t := Next(c, from, Arrive(id, now, maxAttempts));
  }

  lemma PutAndTaken<K, V>(m: map<K, V>, k: K, v: V)
    requires k !in m
    ensures m[k := v] - {k} == m
  {}

  // An undisturbed call that is admitted is a run of the protocol: it arrives, every attempt ends with one
  // outcome and every further attempt is begun by one waking up. Breaker and log are those of its trace.
  lemma {:induction false} CallIsRun(c: Config, w: World, maxAttempts: int, id: nat, now: real, from: State) returns (s': State)
    requires Undisturbed(w) && maxAttempts >= 1 && from.breaker.Valid() && id !in from.calls && Admits(c, from.breaker, now)
    ensures Leads(c, from, [Arrive(id, now, maxAttempts)] + CallSteps(w, maxAttempts, id, 0), s') && s'.calls == from.calls
    ensures s'.breaker == Replay(c, from.breaker, CallTrace(w, maxAttempts, now)) && s'.log == from.log + CallTrace(w, maxAttempts, now)
  {
    var t := ArrivalRuns(c, from, id, now, maxAttempts);
    CallTraceHead(c, w, maxAttempts, now, from.breaker);
    s' := AttemptsRun(c, w, maxAttempts, id, from, [Arrive(id, now, maxAttempts)], t, 0);
    PutAndTaken(from.calls, id, Trying(maxAttempts - 1));
    Regroup(from.log, [Enter(now, true)], Remaining(w, maxAttempts, 0));
  }

  predicate NoCancel(steps: seq<Step>) {
    forall k :: 0 <= k < |steps| ==> !steps[k].Cancel?
  }

  predicate EveryCallAttempts(steps: seq<Step>) {
    forall k :: 0 <= k < |steps| && steps[k].Arrive? ==> steps[k].maxAttempts >= 1
  }

  predicate InFlight(s: State, id: nat) {
    id in s.calls && s.calls[id].Trying?
  }

  // Every attempt the half-open counter counts is still running, and is counted once.
  ghost predicate ProbesRun(s: State) {
    s.breaker.phase.HalfOpen? ==>
      && (forall id :: id in s.probes ==> InFlight(s, id))
      && |s.probes| == s.breaker.halfOpenCalls
  }

  lemma ArriveKeepsProbes(c: Config, t: State, id: nat, now: real, maxAttempts: int)
    requires t.breaker.Valid() && id !in t.calls && ProbesRun(t)
    ensures ProbesRun(Next(c, t, Arrive(id, now, maxAttempts)))
  {
    var b := AfterCheck(c, t.breaker, now);
    if t.breaker.phase.HalfOpen? {
      assert id !in t.probes;
    } else if b.phase.HalfOpen? {
      assert |{id}| == 1;
    }
  }

  lemma WakeKeepsProbes(c: Config, t: State, id: nat)
    requires t.breaker.Valid() && Enabled(c, t, Wake(id)) && ProbesRun(t)
    ensures ProbesRun(Next(c, t, Wake(id)))
  {
    if t.breaker.phase.HalfOpen? {
      assert id !in t.probes;
    }
  }

  lemma StepKeepsProbes(c: Config, t: State, step: Step)
    requires t.breaker.Valid() && Enabled(c, t, step) && !step.Cancel? && ProbesRun(t)
    ensures ProbesRun(Next(c, t, step))
  {
    match step {
      case Arrive(id, now, maxAttempts) => ArriveKeepsProbes(c, t, id, now, maxAttempts);
      case Finish(id, ok, now) =>
      case Wake(id) => WakeKeepsProbes(c, t, id);
      case Cancel(id) =>
    }
  }

  lemma StepKeepsOpener(c: Config, t: State, step: Step)
    requires t.breaker.Valid() && Enabled(c, t, step) && !step.Cancel?
    requires step.Arrive? ==> step.maxAttempts >= 1
    requires t.breaker.phase.HalfOpen? ==> t.opener in t.probes
    ensures Next(c, t, step).breaker.phase.HalfOpen? ==> Next(c, t, step).opener in Next(c, t, step).probes
  {}

  lemma {:induction false} ProbesAreRunning(c: Config, steps: seq<Step>, s: State)
    requires Reaches(c, steps, s) && NoCancel(steps)
    ensures ProbesRun(s)
    ensures EveryCallAttempts(steps) && s.breaker.phase.HalfOpen? ==> s.opener in s.probes
  {
    if steps != [] {
      var n := |steps| - 1;
      var t: State :| Reaches(c, steps[..n], t) && t.breaker.Valid() && Enabled(c, t, steps[n]) && s == Next(c, t, steps[n]);
      ProbesAreRunning(c, steps[..n], t);
      StepKeepsProbes(c, t, steps[n]);
      if EveryCallAttempts(steps) {
        assert EveryCallAttempts(steps[..n]);
        StepKeepsOpener(c, t, steps[n]);
      }
    }
  }

  // No half-open deadlock: when a HALF_OPEN breaker turns a fresh call away, some attempt of this
  // episode is still running, and whatever its outcome, recording it leaves HALF_OPEN.
  lemma {:induction false} NoHalfOpenDeadlock(c: Config, steps: seq<Step>, s: State, now: real)
    requires c.halfOpenMaxCalls >= 1 && Reaches(c, steps, s) && NoCancel(steps)
    requires s.breaker.phase.HalfOpen? && !Admits(c, s.breaker, now)
    ensures exists id :: id in s.probes && InFlight(s, id)
    ensures forall id, ok, later: real :: InFlight(s, id) ==> !Next(c, s, Finish(id, ok, later)).breaker.phase.HalfOpen?
  {
    ProbesAreRunning(c, steps, s);
    assert s.probes != {};
    var id :| id in s.probes;
    assert InFlight(s, id);
  }

  // The attempt of the call that opened the episode is among the running ones, when calls make attempts.
  lemma {:induction false} OpenerIsRunning(c: Config, steps: seq<Step>, s: State)
    requires Reaches(c, steps, s) && NoCancel(steps) && EveryCallAttempts(steps)
    requires s.breaker.phase.HalfOpen?
    ensures InFlight(s, s.opener)
  {
    ProbesAreRunning(c, steps, s);
  }

  // ---- How long an episode lasts ----

  // A step and the time at which it happens.
  datatype TimedStep = TimedStep(step: Step, at: real)

  // `due` says when the running attempt of a call times out, `began` when the current episode began.
  datatype TimedState = TimedState(s: State, now: real, due: map<nat, real>, began: real)

  // Time goes forward, and nothing happens while an attempt has outlived its timeout.
  ghost predicate Punctual(w: TimedState, at: real) {
    w.now <= at && forall id :: InFlight(w.s, id) && id in w.due ==> at <= w.due[id]
  }

  // `timeout(id)` is the timeout of every attempt of call `id`.
  function NextTimed(c: Config, timeout: nat -> real, w: TimedState, t: TimedStep): TimedState
    requires w.s.breaker.Valid() && Enabled(c, w.s, t.step)
  {
    var s' := Next(c, w.s, t.step);
    var due := if t.step.Arrive? || t.step.Wake? then w.due[t.step.id := t.at + timeout(t.step.id)] else w.due;
    TimedState(s', t.at, due, if w.s.breaker.phase.Open? && s'.breaker.phase.HalfOpen? then t.at else w.began)
  }

  // Runs without cancellation whose calls make attempts.
  ghost predicate ReachesInTime(c: Config, timeout: nat -> real, steps: seq<TimedStep>, w: TimedState)
    decreases |steps|
  {
    if steps == [] then w.s == START
    else
      var n := |steps| - 1;
      var step := steps[n].step;
      !step.Cancel? && (step.Arrive? ==> step.maxAttempts >= 1) &&
      exists v: TimedState :: ReachesInTime(c, timeout, steps[..n], v) && v.s.breaker.Valid() && Enabled(c, v.s, step)
        && Punctual(v, steps[n].at) && w == NextTimed(c, timeout, v, steps[n])
  }

  // The opener's attempt is the one that it made when the episode began.
  ghost predicate OpenerIsDue(timeout: nat -> real, w: TimedState) {
    w.s.breaker.phase.HalfOpen? ==>
      && w.s.opener in w.s.probes && InFlight(w.s, w.s.opener)
      && w.s.opener in w.due && w.due[w.s.opener] == w.began + timeout(w.s.opener)
      && w.now <= w.began + timeout(w.s.opener)
  }

  // A step between two moments of one episode leaves the opener's attempt alone.
  lemma StepKeepsDue(c: Config, timeout: nat -> real, v: TimedState, t: TimedStep)
    requires v.s.breaker.Valid() && Enabled(c, v.s, t.step) && !t.step.Cancel? && (t.step.Arrive? ==> t.step.maxAttempts >= 1)
    requires OpenerIsDue(timeout, v) && Punctual(v, t.at) && timeout(NextTimed(c, timeout, v, t).s.opener) >= 0.0
    ensures OpenerIsDue(timeout, NextTimed(c, timeout, v, t))
  {
    var w := NextTimed(c, timeout, v, t);
    if w.s.breaker.phase.HalfOpen? {
      if v.s.breaker.phase.HalfOpen? {
        assert InFlight(v.s, v.s.opener) && w.s.opener == v.s.opener && t.step.id != v.s.opener;
      } else {
        assert t.step.Arrive? && w.s.opener == t.step.id;
      }
    }
  }

  // Every episode ends within the timeout of the attempt that opened it.
  lemma {:induction false} EpisodeEndsInTime(c: Config, timeout: nat -> real, steps: seq<TimedStep>, w: TimedState)
    requires ReachesInTime(c, timeout, steps, w) && forall id :: timeout(id) >= 0.0
    ensures OpenerIsDue(timeout, w)
  {
    if steps != [] {
      var n := |steps| - 1;
      var step := steps[n].step;
      var v: TimedState :| ReachesInTime(c, timeout, steps[..n], v) && v.s.breaker.Valid() && Enabled(c, v.s, step)
        && Punctual(v, steps[n].at) && w == NextTimed(c, timeout, v, steps[n]);
      EpisodeEndsInTime(c, timeout, steps[..n], v);
      StepKeepsDue(c, timeout, v, steps[n]);
    }
  }

  // ---- Cancellation ----

  // Nobody is in flight, and the half-open budget is used up.
  predicate Stuck(c: Config, s: State) {
    s.breaker.phase.HalfOpen? && s.breaker.halfOpenCalls >= c.halfOpenMaxCalls && s.calls == map[]
  }

  // However the run goes on, a stuck breaker stays as it is.
  lemma {:induction false} StuckForever(c: Config, s: State, more: seq<Step>, s': State)
    requires s.breaker.Valid() && Stuck(c, s) && Leads(c, s, more, s')
    ensures Stuck(c, s') && s'.breaker == s.breaker
    decreases |more|
  {
    if more != [] {
      var n := |more| - 1;
      var t: State :| Leads(c, s, more[..n], t) && t.breaker.Valid() && Enabled(c, t, more[n]) && s' == Next(c, t, more[n]);
      StuckForever(c, s, more[..n], t);
    }
  }

  // Some continuation leads to a breaker that admits a call at some time.
  ghost predicate AdmitsAgain(c: Config, s: State) {
    exists more, s': State, now: real :: Leads(c, s, more, s') && s'.breaker.Valid() && Admits(c, s'.breaker, now)
  }

  lemma LeadsOne(c: Config, s: State, step: Step)
    requires s.breaker.Valid() && Enabled(c, s, step)
    ensures Leads(c, s, [step], Next(c, s, step))
  {
    LeadsPush(c, s, [], s, step);
    assert [] + [step] == [step];
  }

  // If the breaker is not stuck, the outcome of any one call is enough.
  lemma {:induction false} Recovers(c: Config, s: State) returns (more: seq<Step>, s': State, now: real)
    requires s.breaker.Valid() && !Stuck(c, s)
    ensures |more| <= 2 && NoCancel(more) && Leads(c, s, more, s') && s'.breaker.Valid() && Admits(c, s'.breaker, now)
  {
    now := if s.breaker.phase.Open? then s.breaker.openedAt.value + c.recoveryTimeout else 0.0;
    if Admits(c, s.breaker, now) {
      return [], s, now;
    }
    assert s.calls.Keys != {};
    var id :| id in s.calls;
    var wake, finish := Wake(id), Finish(id, true, now);
    if s.calls[id].Trying? {
      LeadsOne(c, s, finish);
      return [finish], Next(c, s, finish), now;
    }
    var awake := Next(c, s, wake);
    assert InFlight(awake, id);
    LeadsOne(c, s, wake);
    LeadsPush(c, s, [wake], awake, finish);
    return [wake] + [finish], Next(c, awake, finish), now;
  }

  // Being stuck is exactly refusing every call from now on.
  lemma {:induction false} StuckIffNeverAdmits(c: Config, s: State)
    requires s.breaker.Valid()
    ensures Stuck(c, s) <==> !AdmitsAgain(c, s)
  {
    if Stuck(c, s) {
      forall more, s': State, now: real | Leads(c, s, more, s') && s'.breaker.Valid() ensures !Admits(c, s'.breaker, now) {
        StuckForever(c, s, more, s');
      }
    } else {
      var more, s', now := Recovers(c, s);
    }
  }

  // A cancelled attempt records nothing. A cancellation makes the breaker refuse every later call
  // exactly when it takes the last call, running or asleep, from a half-open breaker whose budget is
  // used up.
  lemma CancelStrandsIff(c: Config, s: State, id: nat)
    requires s.breaker.Valid() && id in s.calls
    ensures !AdmitsAgain(c, Next(c, s, Cancel(id)))
       <==> s.calls.Keys == {id} && s.breaker.phase.HalfOpen? && s.breaker.halfOpenCalls >= c.halfOpenMaxCalls
  {
    StuckIffNeverAdmits(c, Next(c, s, Cancel(id)));
    var rest := s.calls - {id};
    assert rest.Keys == s.calls.Keys - {id};
    if rest == map[] {
      assert s.calls.Keys - {id} == {};
    }
  }

  // Such a state is reachable when one probe is allowed: trip the breaker, probe, cancel the probe.
  lemma CancelCanDeadlock(recovery: real) returns (steps: seq<Step>, s: State)
    requires recovery >= 0.0
    ensures Reaches(Config(1, recovery, 1), steps, s) && !AdmitsAgain(Config(1, recovery, 1), s)
  {
    var c := Config(1, recovery, 1);
    var a, f, p, x := Arrive(0, 0.0, 1), Finish(0, false, 0.0), Arrive(1, recovery, 1), Cancel(1);
    var s1 := Next(c, START, a);
    var s2 := Next(c, s1, f);
    var s3 := Next(c, s2, p);
    s := Next(c, s3, x);
    LeadsPush(c, START, [], START, a);
    LeadsPush(c, START, [] + [a], s1, f);
    LeadsPush(c, START, [] + [a] + [f], s2, p);
    LeadsPush(c, START, [] + [a] + [f] + [p], s3, x);
    steps := [] + [a] + [f] + [p] + [x];
    assert s.calls == map[];
    StuckIffNeverAdmits(c, s);
  }
}
