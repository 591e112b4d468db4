// The auto-repair trigger of core/monitoring/alerting.py: one repair at a time, and a cooldown
// between triggers, under a lock that any number of threads compete for.

module Alerting {
  import opened Common

  // The module globals the lock protects. `lastTrigger` starts at 0.
  datatype Guard = Guard(inProgress: bool, lastTrigger: real)

  const IDLE := Guard(false, 0.0)

  datatype Verdict = AlreadyRunning | Cooldown(remaining: real) | Started

  // The decision taken inside the lock, for a clock reading taken before it.
  function Decide(g: Guard, now: real, cooldown: real): Verdict {
    var elapsed := now - g.lastTrigger;
    if g.inProgress then AlreadyRunning
    else if g.lastTrigger > 0.0 && elapsed < cooldown then
      Cooldown(if cooldown - elapsed > 0.0 then cooldown - elapsed else 0.0)
    else Started
  }

  // The remaining cooldown is exact: a trigger is accepted that much later, and not before.
  lemma RemainingIsExact(g: Guard, now: real, cooldown: real)
    requires Decide(g, now, cooldown).Cooldown?
    ensures var remaining := Decide(g, now, cooldown).remaining;
      && remaining > 0.0 && Decide(g, now + remaining, cooldown).Started?
      && forall later: real :: now <= later < now + remaining ==> !Decide(g, later, cooldown).Started?
  {
    var remaining := Decide(g, now, cooldown).remaining;
    assert now + remaining == g.lastTrigger + cooldown;
  }

  class AlertState {
    var inProgress: bool
    var lastTrigger: real

    function Value(): Guard
      reads this
    {
      Guard(inProgress, lastTrigger)
    }

    constructor ()
      ensures Value() == IDLE
    {
      inProgress, lastTrigger := false, 0.0;
    }

    // The locked section of `trigger_auto_repair`, up to the start of the worker.
    method TriggerAutoRepair(now: real, cooldown: real) returns (v: Verdict)
      modifies this
      ensures v == Decide(old(Value()), now, cooldown)
      ensures Value() == if v.Started? then Guard(true, now) else old(Value())
    {
      if inProgress {
        return AlreadyRunning;
      }
      var elapsed := now - lastTrigger;
      if lastTrigger > 0.0 && elapsed < cooldown {
        var remaining := cooldown - elapsed;
        return Cooldown(if remaining > 0.0 then remaining else 0.0);
      }
      inProgress := true;
      lastTrigger := now;
      return Started;
    }

    // The `finally` of the worker.
    method CompleteTask()
      modifies this`inProgress
      ensures Value() == Guard(false, old(lastTrigger))
    {
      inProgress := false;
    }
  }

  // ---- Interleavings ----

  // A thread that has read the clock and not yet entered the lock.
  datatype Caller = Caller(now: real, cooldown: real)

  // An accepted trigger.
  datatype Trigger = Trigger(time: real, cooldown: real)

  // `workers` counts the repair threads that have not finished; `accepted` are the triggers so far.
  datatype State = State(guard: Guard, waiting: map<nat, Caller>, workers: nat, accepted: seq<Trigger>)

  datatype Step =
    | ReadClock(thread: nat, now: real, cooldown: real)
    | Enter(thread: nat, spawns: bool)   // the worker thread may fail to start
    | WorkerDone

  predicate Enabled(s: State, step: Step) {
    match step
    case ReadClock(thread, _, _) => thread !in s.waiting
    case Enter(thread, _) => thread in s.waiting
    case WorkerDone => s.workers > 0
  }

  function Next(s: State, step: Step): State
    requires Enabled(s, step)
  {
    match step
    case ReadClock(thread, now, cooldown) => s.(waiting := s.waiting[thread := Caller(now, cooldown)])
    case Enter(thread, spawns) =>
      var c := s.waiting[thread];
      if Decide(s.guard, c.now, c.cooldown).Started? then
        State(Guard(true, c.now), s.waiting - {thread}, if spawns then s.workers + 1 else s.workers, s.accepted + [Trigger(c.now, c.cooldown)])
      else
        s.(waiting := s.waiting - {thread})
    case WorkerDone => s.(guard := s.guard.(inProgress := false), workers := s.workers - 1)
  }

  ghost predicate Reaches(steps: seq<Step>, s: State)
    decreases |steps|
  {
    if steps == [] then s == State(IDLE, map[], 0, [])
    else
      var n := |steps| - 1;
      exists t: State :: Reaches(steps[..n], t) && Enabled(t, steps[n]) && s == Next(t, steps[n])
  }

  // Successive accepted triggers are at least the later one's cooldown apart, in the order they
  // were accepted, although the clock was read before the lock was taken.
  ghost predicate Spaced(accepted: seq<Trigger>) {
    forall i :: 0 < i < |accepted| && accepted[i - 1].time > 0.0 ==> accepted[i].time - accepted[i - 1].time >= accepted[i].cooldown
  }

  ghost predicate Inv(s: State) {
    && s.workers <= 1
    && (s.workers == 1 ==> s.guard.inProgress)
    && s.guard.lastTrigger == (if s.accepted == [] then 0.0 else s.accepted[|s.accepted| - 1].time)
    && Spaced(s.accepted)
  }

  // At most one repair runs, and the accepted triggers keep their distance, in every interleaving.
  lemma {:induction false} SingleFlightAndSpacing(steps: seq<Step>, s: State)
    requires Reaches(steps, s)
    ensures Inv(s)
  {
    if steps != [] {
      var n := |steps| - 1;
      var t: State :| Reaches(steps[..n], t) && Enabled(t, steps[n]) && s == Next(t, steps[n]);
      SingleFlightAndSpacing(steps[..n], t);
      if s.accepted != t.accepted {
        SpacedPush(t.accepted, s.accepted[|t.accepted|]);
      }
    }
  }

  lemma SpacedPush(accepted: seq<Trigger>, t: Trigger)
    requires Spaced(accepted)
    requires accepted != [] && accepted[|accepted| - 1].time > 0.0 ==> t.time - accepted[|accepted| - 1].time >= t.cooldown
    ensures Spaced(accepted + [t])
  {}

  // With a common cooldown, k + 1 successive triggers take at least k cooldowns.
  lemma {:induction false} TriggersSpread(accepted: seq<Trigger>, cooldown: real, i: nat, j: nat)
    requires Spaced(accepted) && i <= j < |accepted| && cooldown >= 0.0
    requires forall k :: 0 <= k < |accepted| ==> accepted[k].cooldown == cooldown && accepted[k].time > 0.0
    ensures accepted[j].time - accepted[i].time >= (j - i) as real * cooldown
  {
    if i < j {
      TriggersSpread(accepted, cooldown, i, j - 1);
      assert (j - i) as real * cooldown == (j - 1 - i) as real * cooldown + cooldown;
    }
  }

  // A span that holds n + 1 triggers lasts at least n cooldowns.
  lemma {:induction false} SpanBound(steps: seq<Step>, s: State, cooldown: real, span: real, i: nat, j: nat)
    requires Reaches(steps, s) && cooldown >= 0.0 && i <= j < |s.accepted|
    requires forall k :: 0 <= k < |s.accepted| ==> s.accepted[k].cooldown == cooldown && s.accepted[k].time > 0.0
    requires s.accepted[j].time - s.accepted[i].time <= span
    ensures (j - i) as real * cooldown <= span
  {
    SingleFlightAndSpacing(steps, s);
    TriggersSpread(s.accepted, cooldown, i, j);
  }

  // ---- Worker threads that fail to start ----

  predicate StartsRepair(s: State, step: Step) {
    step.Enter? && Enabled(s, step) && Decide(s.guard, s.waiting[step.thread].now, s.waiting[step.thread].cooldown).Started?
  }

  // In the run `steps`, the worker of some accepted trigger did not start.
  ghost predicate SpawnFailed(steps: seq<Step>) {
    exists k, t: State :: 0 <= k < |steps| && Reaches(steps[..k], t) && StartsRepair(t, steps[k]) && !steps[k].spawns
  }

  predicate Blocked(s: State) {
    s.guard.inProgress && s.workers == 0
  }

  lemma {:induction false} ReachesIsFunctional(steps: seq<Step>, s: State, t: State)
    requires Reaches(steps, s) && Reaches(steps, t)
    ensures s == t
  {
    if steps != [] {
      var n := |steps| - 1;
      var s0: State :| Reaches(steps[..n], s0) && Enabled(s0, steps[n]) && s == Next(s0, steps[n]);
      var t0: State :| Reaches(steps[..n], t0) && Enabled(t0, steps[n]) && t == Next(t0, steps[n]);
      ReachesIsFunctional(steps[..n], s0, t0);
    }
  }

  lemma SpawnFailedPush(steps: seq<Step>, t: State)
    requires steps != [] && Reaches(steps[..|steps| - 1], t)
    ensures SpawnFailed(steps) <==>
      SpawnFailed(steps[..|steps| - 1]) || (StartsRepair(t, steps[|steps| - 1]) && !steps[|steps| - 1].spawns)
  {
    var n := |steps| - 1;
    var front := steps[..n];
    if SpawnFailed(steps) {
      var k, u: State :| 0 <= k < |steps| && Reaches(steps[..k], u) && StartsRepair(u, steps[k]) && !steps[k].spawns;
      if k < n {
        assert front[..k] == steps[..k];
      } else {
        ReachesIsFunctional(front, t, u);
      }
    }
    if SpawnFailed(front) {
      var k, u: State :| 0 <= k < |front| && Reaches(front[..k], u) && StartsRepair(u, front[k]) && !front[k].spawns;
      assert front[..k] == steps[..k];
    }
  }

  // The flag stands without a worker exactly when a worker of this run failed to start.
  lemma {:induction false} BlockedIffSpawnFailed(steps: seq<Step>, s: State)
    requires Reaches(steps, s)
    ensures Blocked(s) <==> SpawnFailed(steps)
  {
    if steps != [] {
      var n := |steps| - 1;
      var t: State :| Reaches(steps[..n], t) && Enabled(t, steps[n]) && s == Next(t, steps[n]);
      BlockedIffSpawnFailed(steps[..n], t);
      SingleFlightAndSpacing(steps[..n], t);
      SpawnFailedPush(steps, t);
    }
  }

  // From then on no trigger is accepted.
  lemma {:induction false} FailedSpawnBlocksForever(steps: seq<Step>, s: State, more: seq<Step>, s': State)
    requires Reaches(steps, s) && SpawnFailed(steps) && Reaches(steps + more, s')
    ensures s'.accepted == s.accepted && s'.guard == s.guard && Blocked(s')
    decreases |more|
  {
    BlockedIffSpawnFailed(steps, s);
    if more == [] {
      assert steps + more == steps;
      ReachesIsFunctional(steps, s, s');
    } else {
      var n := |steps + more| - 1;
      var t: State :| Reaches((steps + more)[..n], t) && Enabled(t, (steps + more)[n]) && s' == Next(t, (steps + more)[n]);
      assert (steps + more)[..n] == steps + more[..|more| - 1];
      FailedSpawnBlocksForever(steps, s, more[..|more| - 1], t);
    }
  }

  lemma ReachesPush(steps: seq<Step>, t: State, step: Step)
    requires Reaches(steps, t) && Enabled(t, step)
    ensures Reaches(steps + [step], Next(t, step))
  {
    assert (steps + [step])[..|steps|] == steps;
  }

  // Unless a worker failed to start, any reading that is one cooldown behind the last trigger can
  // be accepted within three more steps.
  lemma TriggerStaysUsable(steps: seq<Step>, s: State, now: real, cooldown: real) returns (more: seq<Step>, s': State)
    requires Reaches(steps, s) && !SpawnFailed(steps) && now - s.guard.lastTrigger >= cooldown
    ensures Reaches(steps + more, s') && |more| <= 3 && s'.accepted == s.accepted + [Trigger(now, cooldown)]
  {
    BlockedIffSpawnFailed(steps, s);
    SingleFlightAndSpacing(steps, s);
    var thread := FreshNat(s.waiting.Keys);
    var read, enter := ReadClock(thread, now, cooldown), Enter(thread, true);
    var idle := s;
    more := [];
    if s.guard.inProgress {
      idle := Next(s, WorkerDone);
      ReachesPush(steps, s, WorkerDone);
      more := [WorkerDone];
    }
    assert steps + [] == steps;
    var s1 := Next(idle, read);
    s' := Next(s1, enter);
    ReachesPush(steps + more, idle, read);
    ReachesPush(steps + more + [read], s1, enter);
    assert steps + more + [read] + [enter] == steps + (more + [read] + [enter]);
    more := more + [read] + [enter];
  }

  ghost predicate CanTriggerAgain(steps: seq<Step>, s: State) {
    exists more, s': State :: Reaches(steps + more, s') && |s'.accepted| > |s.accepted|
  }

  // A repair can be triggered again, some time, exactly when no worker of the run failed to start.
  lemma {:induction false} TriggerUsableIff(steps: seq<Step>, s: State)
    requires Reaches(steps, s)
    ensures CanTriggerAgain(steps, s) <==> !SpawnFailed(steps)
  {
    if SpawnFailed(steps) {
      forall more, s': State | Reaches(steps + more, s') ensures |s'.accepted| == |s.accepted| {
        FailedSpawnBlocksForever(steps, s, more, s');
      }
    } else {
      var more, s' := TriggerStaysUsable(steps, s, s.guard.lastTrigger, 0.0);
    }
  }

  // Such a run: the first trigger is accepted and its worker does not start.
  lemma SpawnCanFail(now: real, cooldown: real) returns (steps: seq<Step>, s: State)
    ensures Reaches(steps, s) && SpawnFailed(steps) && Blocked(s) && s.accepted == [Trigger(now, cooldown)]
  {
    var read, enter := ReadClock(0, now, cooldown), Enter(0, false);
    var s0 := State(IDLE, map[], 0, []);
    var s1 := Next(s0, read);
    s := Next(s1, enter);
    assert Reaches([], s0);
    ReachesPush([], s0, read);
    ReachesPush([] + [read], s1, enter);
    steps := [] + [read] + [enter];
    BlockedIffSpawnFailed(steps, s);
  }
}
