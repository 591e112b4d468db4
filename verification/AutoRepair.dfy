// The auto-repair loop of core/monitoring/auto_repair.py: which planned actions run, how often, and
// when the loop stops.

module AutoRepair {
  import opened Common
  import opened Policies

  const MAX_ATTEMPTS_PER_ACTION := 2

  // What the loop reads off a health snapshot: its score, and whether `analyze_health` finds a
  // critical issue in it.
  datatype Health = Health(score: int, critical: bool)

  // What happens at the k-th execution: the action or its verification raises, or a snapshot is taken.
  datatype Probe = Seen(health: Health) | ActionRaised | VerifyRaised

  datatype Attempt = Attempt(action: string, number: nat)

  predicate Fixed(h: Health, minScore: int) {
    h.score >= minScore && !h.critical
  }

  predicate Stops(p: Probe, minScore: int) {
    p.Seen? ==> Fixed(p.health, minScore)
  }

  function Distance(a: int, b: int): int {
    if a < b then b - a else a - b
  }

  // The allowed number of attempts that is nearest to the requested one.
  function Cap(maxAttempts: int): (cap: nat)
    ensures 1 <= cap <= MAX_ATTEMPTS_PER_ACTION
    ensures forall n :: 1 <= n <= MAX_ATTEMPTS_PER_ACTION ==> Distance(cap, maxAttempts) <= Distance(n, maxAttempts)
  {
    if maxAttempts < 1 then 1 else if maxAttempts < MAX_ATTEMPTS_PER_ACTION then maxAttempts else MAX_ATTEMPTS_PER_ACTION
  }

  // ---- The flat form: one list of attempts, taken until the first stop ----

  function Attempts(action: string, n: nat): (s: seq<Attempt>)
    ensures |s| == n && forall i :: 0 <= i < n ==> s[i] == Attempt(action, i + 1)
  {
    if n == 0 then [] else Attempts(action, n - 1) + [Attempt(action, n)]
  }

  function Schedule(plan: seq<string>, cap: nat): seq<Attempt> {
    if plan == [] then [] else Schedule(plan[..|plan| - 1], cap) + Attempts(plan[|plan| - 1], cap)
  }

  // The first execution among the first n that stops the loop; n when there is none.
  function FirstStop(world: nat -> Probe, minScore: int, n: nat): (k: nat)
    ensures k <= n && (k < n ==> Stops(world(k), minScore))
    ensures NoStopBefore(world, minScore, k)
  {
    if n == 0 then 0
    else
      var k := FirstStop(world, minScore, n - 1);
      if k < n - 1 || Stops(world(n - 1), minScore) then k else n
  }

  ghost predicate NoStopBefore(world: nat -> Probe, minScore: int, n: nat) {
    forall j: nat :: j < n ==> !Stops(world(j), minScore)
  }

  lemma {:induction false} FirstStopIs(world: nat -> Probe, minScore: int, n: nat, k: nat)
    requires k <= n && (k < n ==> Stops(world(k), minScore)) && NoStopBefore(world, minScore, k)
    ensures FirstStop(world, minScore, n) == k
  {
    var f := FirstStop(world, minScore, n);
    assert f < n ==> Stops(world(f), minScore);
    assert k < n ==> Stops(world(k), minScore);
  }

  // The snapshot the loop ends with.
  function LastSeen(world: nat -> Probe, initial: Health, n: nat): Health {
    if n == 0 then initial
    else if world(n - 1).Seen? then world(n - 1).health
    else LastSeen(world, initial, n - 1)
  }

  lemma {:induction false} SchedulePrefix(plan: seq<string>, cap: nat, i: nat)
    requires i <= |plan|
    ensures Schedule(plan[..i], cap) <= Schedule(plan, cap)
    decreases |plan| - i
  {
    if i == |plan| {
      assert plan[..i] == plan;
    } else {
      SchedulePrefix(plan, cap, i + 1);
      assert plan[..i + 1][..i] == plan[..i];
    }
  }

  // Attempts of action i sit right behind those of the actions before it.
  lemma ScheduleStep(plan: seq<string>, cap: nat, i: nat, n: nat)
    requires i < |plan| && n <= cap
    ensures Schedule(plan[..i], cap) + Attempts(plan[i], n) <= Schedule(plan, cap)
    ensures Schedule(plan[..i], cap) + Attempts(plan[i], cap) == Schedule(plan[..i + 1], cap)
  {
    SchedulePrefix(plan, cap, i + 1);
    assert plan[..i + 1][..i] == plan[..i];
    assert Attempts(plan[i], n) <= Attempts(plan[i], cap);
  }

  // ---- Counting attempts ----

  // The sum of `counts` over the plan.
  function Total(plan: seq<string>, counts: map<string, nat>): nat {
    if plan == [] then 0
    else
      var a := plan[|plan| - 1];
      Total(plan[..|plan| - 1], counts) + (if a in counts then counts[a] else 0)
  }

  lemma {:induction false} TotalUnaffected(plan: seq<string>, counts: map<string, nat>, a: string, n: nat)
    requires a !in plan
    ensures Total(plan, counts[a := n]) == Total(plan, counts)
  {
    if plan != [] {
      assert plan[|plan| - 1] in plan;
      TotalUnaffected(plan[..|plan| - 1], counts, a, n);
    }
  }

  // Exactly the first i actions of the plan have been tried.
  ghost predicate Tried(plan: seq<string>, i: nat, counts: map<string, nat>)
    requires i <= |plan|
  {
    forall a :: a in counts <==> a in plan[..i]
  }

  lemma {:induction false} TotalOfUntried(plan: seq<string>, i: nat, counts: map<string, nat>)
    requires i <= |plan| && NoDuplicates(plan) && Tried(plan, i, counts)
    ensures Total(plan, counts) == Total(plan[..i], counts)
    decreases |plan| - i
  {
    if i == |plan| {
      assert plan[..i] == plan;
    } else {
      var n := |plan| - 1;
      assert plan[n] !in plan[..i];
      assert plan[..n][..i] == plan[..i];
      TotalOfUntried(plan[..n], i, counts);
    }
  }

  // Trying action i for the first time, n times.
  lemma CountsAfter(plan: seq<string>, i: nat, counts: map<string, nat>, n: nat)
    requires i < |plan| && Tried(plan, i, counts)
    ensures Tried(plan, i + 1, counts[plan[i] := n])
    ensures NoDuplicates(plan) ==>
      Total(plan, counts[plan[i] := n]) == Total(plan[..i + 1], counts[plan[i] := n]) == Total(plan[..i], counts) + n
  {
    assert plan[..i + 1] == plan[..i] + [plan[i]];
    if NoDuplicates(plan) {
      TotalUnaffected(plan[..i], counts, plan[i], n);
      assert plan[..i + 1][..i] == plan[..i];
      TotalOfUntried(plan, i + 1, counts[plan[i] := n]);
    }
  }

  ghost predicate AtMost(cap: nat, counts: map<string, nat>) {
    forall a :: a in counts ==> counts[a] <= cap
  }

  lemma {:induction false} TotalAtMost(plan: seq<string>, cap: nat, counts: map<string, nat>)
    requires AtMost(cap, counts)
    ensures Total(plan, counts) <= |plan| * cap
  {
    if plan != [] {
      TotalAtMost(plan[..|plan| - 1], cap, counts);
      assert |plan| * cap == (|plan| - 1) * cap + cap;
    }
  }

  // The whole budget is spent only if every action has spent its own.
  lemma {:induction false} SpentInFull(plan: seq<string>, cap: nat, counts: map<string, nat>)
    requires AtMost(cap, counts) && cap >= 1 && Total(plan, counts) == |plan| * cap
    ensures forall a :: a in plan ==> a in counts && counts[a] == cap
  {
    if plan != [] {
      var n := |plan| - 1;
      assert |plan| * cap == n * cap + cap && plan == plan[..n] + [plan[n]];
      TotalAtMost(plan[..n], cap, counts);
      SpentInFull(plan[..n], cap, counts);
    }
  }

  // ---- The nested loops ----

  datatype Ending = Completed | Failed

  // `made` attempts of an action whose first attempt is execution number `start`: up to the first
  // that stops the loop, or all.
  ghost predicate Retried(action: string, cap: nat, minScore: int, world: nat -> Probe, initial: Health, start: nat,
                          log: seq<Attempt>, counts: map<string, nat>,
                          ending: Ending, log': seq<Attempt>, counts': map<string, nat>, health': Health, made: nat) {
    && 1 <= made <= cap && NoStopBefore(world, minScore, start + made - 1)
    && (made < cap ==> Stops(world(start + made - 1), minScore))
    && (ending.Failed? <==> !world(start + made - 1).Seen?)
    && log' == log + Attempts(action, if world(start + made - 1).ActionRaised? then made - 1 else made)
    && counts' == counts[action := made]
    && health' == LastSeen(world, initial, start + made)
  }

  // The inner loop.
  method RetryAction(action: string, cap: nat, minScore: int, world: nat -> Probe, start: nat, ghost initial: Health,
                     log: seq<Attempt>, counts: map<string, nat>, health: Health)
    returns (ending: Ending, log': seq<Attempt>, counts': map<string, nat>, health': Health, made: nat)
    requires cap >= 1 && NoStopBefore(world, minScore, start) && health == LastSeen(world, initial, start)
    ensures Retried(action, cap, minScore, world, initial, start, log, counts, ending, log', counts', health', made)
  {
    ending, log', counts', health', made := Completed, log, counts, health, 0;
    while made < cap
      invariant made <= cap && ending.Completed?
      invariant log' == log + Attempts(action, made)
      invariant counts' == if made == 0 then counts else counts[action := made]
      invariant health' == LastSeen(world, initial, start + made)
      invariant NoStopBefore(world, minScore, start + made)
    {
      made := made + 1;
      counts' := counts'[action := made];
      var probe := world(start + made - 1);
      if probe.ActionRaised? {
        ending := Failed;
        return;
      }
      log' := log' + [Attempt(action, made)];
      if probe.VerifyRaised? {
        ending := Failed;
        return;
      }
      health' := probe.health;
      if Fixed(health', minScore) {
        return;
      }
    }
  }

  // The flat schedule has run up to its first stop.
  ghost predicate RanUpToStop(plan: seq<string>, cap: nat, minScore: int, world: nat -> Probe, initial: Health,
                              ending: Ending, log: seq<Attempt>, counts: map<string, nat>, health: Health) {
    var n := |Schedule(plan, cap)|;
    var k := FirstStop(world, minScore, n);
    var made := if k < n then k + 1 else n;
    && log == Schedule(plan, cap)[..if k < n && world(k).ActionRaised? then k else made]
    && (ending.Failed? <==> k < n && !world(k).Seen?)
    && health == LastSeen(world, initial, made)
    && (NoDuplicates(plan) ==> Total(plan, counts) == made)
    && AtMost(cap, counts)
  }

  // The first i actions have used up all their attempts.
  ghost predicate Progress(plan: seq<string>, cap: nat, minScore: int, world: nat -> Probe, initial: Health, i: nat,
                           log: seq<Attempt>, counts: map<string, nat>, health: Health)
    requires i <= |plan|
  {
    && log == Schedule(plan[..i], cap)
    && NoStopBefore(world, minScore, |log|) && health == LastSeen(world, initial, |log|)
    && Tried(plan, i, counts)
    && (NoDuplicates(plan) ==> Total(plan[..i], counts) == |log|)
    && AtMost(cap, counts)
  }

  lemma RetriedGoesOn(plan: seq<string>, cap: nat, minScore: int, world: nat -> Probe, initial: Health, i: nat,
                      log: seq<Attempt>, counts: map<string, nat>, health: Health,
                      ending: Ending, log': seq<Attempt>, counts': map<string, nat>, health': Health, made: nat)
    requires i < |plan| && Progress(plan, cap, minScore, world, initial, i, log, counts, health)
    requires Retried(plan[i], cap, minScore, world, initial, |log|, log, counts, ending, log', counts', health', made)
    requires ending.Completed? && !Fixed(health', minScore)
    ensures Progress(plan, cap, minScore, world, initial, i + 1, log', counts', health')
  {
    assert !Stops(world(|log| + made - 1), minScore);
    CountsAfter(plan, i, counts, made);
    ScheduleStep(plan, cap, i, made);
  }

  lemma RetriedStops(plan: seq<string>, cap: nat, minScore: int, world: nat -> Probe, initial: Health, i: nat,
                     log: seq<Attempt>, counts: map<string, nat>, health: Health,
                     ending: Ending, log': seq<Attempt>, counts': map<string, nat>, health': Health, made: nat)
    requires i < |plan| && Progress(plan, cap, minScore, world, initial, i, log, counts, health)
    requires Retried(plan[i], cap, minScore, world, initial, |log|, log, counts, ending, log', counts', health', made)
    requires ending.Failed? || Fixed(health', minScore)
    ensures RanUpToStop(plan, cap, minScore, world, initial, ending, log', counts', health')
  {
    assert Stops(world(|log| + made - 1), minScore);
    CountsAfter(plan, i, counts, made);
    StopsAt(plan, cap, minScore, world, i, made);
  }

  lemma AllActionsTried(plan: seq<string>, cap: nat, minScore: int, world: nat -> Probe, initial: Health,
                        log: seq<Attempt>, counts: map<string, nat>, health: Health)
    requires Progress(plan, cap, minScore, world, initial, |plan|, log, counts, health)
    ensures RanUpToStop(plan, cap, minScore, world, initial, Completed, log, counts, health)
  {
    assert plan[..|plan|] == plan;
    FirstStopIs(world, minScore, |Schedule(plan, cap)|, |Schedule(plan, cap)|);
  }

  // The two nested loops with their two breaks run the flat schedule up to its first stop.
  method RunActions(plan: seq<string>, cap: nat, minScore: int, world: nat -> Probe, initial: Health)
    returns (ending: Ending, log: seq<Attempt>, counts: map<string, nat>, health: Health)
    requires cap >= 1
    ensures RanUpToStop(plan, cap, minScore, world, initial, ending, log, counts, health)
  {
    ending, log, counts, health := Completed, [], map[], initial;
    for i := 0 to |plan|
      invariant ending.Completed?
      invariant Progress(plan, cap, minScore, world, initial, i, log, counts, health)
    {
      ghost var l, c, h := log, counts, health;
      var made: nat;
      ending, log, counts, health, made := RetryAction(plan[i], cap, minScore, world, |log|, initial, log, counts, health);
      if ending.Failed? || Fixed(health, minScore) {
        RetriedStops(plan, cap, minScore, world, initial, i, l, c, h, ending, log, counts, health, made);
        return;
      }
      RetriedGoesOn(plan, cap, minScore, world, initial, i, l, c, h, ending, log, counts, health, made);
    }
    AllActionsTried(plan, cap, minScore, world, initial, log, counts, health);
  }

  // The last of `made` attempts of action i stops the loop.
  lemma StopsAt(plan: seq<string>, cap: nat, minScore: int, world: nat -> Probe, i: nat, made: nat)
    requires i < |plan| && 1 <= made <= cap
    requires NoStopBefore(world, minScore, |Schedule(plan[..i], cap)| + made - 1)
    requires Stops(world(|Schedule(plan[..i], cap)| + made - 1), minScore)
    ensures |Schedule(plan[..i], cap)| + made <= |Schedule(plan, cap)|
    ensures FirstStop(world, minScore, |Schedule(plan, cap)|) == |Schedule(plan[..i], cap)| + made - 1
    ensures Schedule(plan, cap)[..|Schedule(plan[..i], cap)| + made] == Schedule(plan[..i], cap) + Attempts(plan[i], made)
    ensures Schedule(plan, cap)[..|Schedule(plan[..i], cap)| + made - 1] == Schedule(plan[..i], cap) + Attempts(plan[i], made - 1)
  {
    ScheduleStep(plan, cap, i, made);
    ScheduleStep(plan, cap, i, made - 1);
    FirstStopIs(world, minScore, |Schedule(plan, cap)|, |Schedule(plan[..i], cap)| + made - 1);
  }

  // ---- What the flat form says ----

  // The schedule is `cap` attempts per planned action.
  lemma {:induction false} ScheduleLength(plan: seq<string>, cap: nat)
    ensures |Schedule(plan, cap)| == |plan| * cap
  {
    if plan != [] {
      ScheduleLength(plan[..|plan| - 1], cap);
      assert |plan| * cap == (|plan| - 1) * cap + cap;
    }
  }

  // In the order of the plan: the attempts of the i-th action, one to `cap`, begin at place i * cap.
  lemma {:induction false} ScheduleAt(plan: seq<string>, cap: nat, i: nat, number: nat)
    requires i < |plan| && 1 <= number <= cap
    ensures 0 <= i * cap + number - 1 < |Schedule(plan, cap)| && Schedule(plan, cap)[i * cap + number - 1] == Attempt(plan[i], number)
  {
    var n := |plan| - 1;
    ScheduleLength(plan[..n], cap);
    if i < n {
      ScheduleAt(plan[..n], cap, i, number);
    } else {
      assert Attempts(plan[n], cap)[number - 1] == Attempt(plan[n], number);
    }
  }

  // Every planned action is scheduled from attempt one to attempt `cap`, and nothing else is.
  lemma {:induction false} ScheduleMembers(plan: seq<string>, cap: nat, x: Attempt)
    ensures x in Schedule(plan, cap) <==> x.action in plan && 1 <= x.number <= cap
  {
    if plan != [] {
      var n := |plan| - 1;
      var last := Attempts(plan[n], cap);
      ScheduleMembers(plan[..n], cap, x);
      assert plan == plan[..n] + [plan[n]];
      if x.action == plan[n] && 1 <= x.number <= cap { assert last[x.number - 1] == x; }
    }
  }

  // Every verification but the last one finds the system broken, so nothing runs after the first
  // that finds it fixed; a completed run that does not end fixed has run the whole schedule; and
  // `repaired` agrees with the last snapshot.
  lemma {:induction false} RepairLogMeaning(plan: seq<string>, cap: nat, minScore: int, world: nat -> Probe, initial: Health,
                         ending: Ending, log: seq<Attempt>, counts: map<string, nat>, health: Health)
    requires RanUpToStop(plan, cap, minScore, world, initial, ending, log, counts, health)
    requires plan != [] && cap >= 1
    ensures forall j: nat :: j + 1 < |log| ==> world(j).Seen? && (world(j).health.score < minScore || world(j).health.critical)
    ensures ending.Completed? ==> log != [] && world(|log| - 1) == Seen(health)
    ensures ending.Completed? && (health.score < minScore || health.critical) ==> log == Schedule(plan, cap)
    ensures ending.Completed? && NoDuplicates(plan) ==> Total(plan, counts) == |log|
    ensures ending.Completed? && NoDuplicates(plan) && (health.score < minScore || health.critical) ==> UsedUp(plan, cap, log, counts)
    ensures ending.Failed? ==> FailedAt(plan, cap, minScore, world, log)
  {
    var n := |Schedule(plan, cap)|;
    ScheduleLength(plan, cap);
    assert |plan| * cap >= 1 by { ScheduleMembers(plan, cap, Attempt(plan[0], 1)); }
    var k := FirstStop(world, minScore, n);
    forall j: nat | j + 1 < |log| ensures world(j).Seen? && !Fixed(world(j).health, minScore) {
      assert !Stops(world(j), minScore);
    }
    forall j: nat | j < k ensures world(j).Seen? && (world(j).health.score < minScore || world(j).health.critical) {
      assert !Stops(world(j), minScore);
    }
    if k == n {
      assert !Stops(world(n - 1), minScore);
      assert Schedule(plan, cap)[..n] == Schedule(plan, cap);
      if NoDuplicates(plan) {
        SpentInFull(plan, cap, counts);
      }
    }
  }

  // Some execution raised. All before it found the system broken; the log ends with it, or just before it
  // if the action itself raised.
  ghost predicate FailedAt(plan: seq<string>, cap: nat, minScore: int, world: nat -> Probe, log: seq<Attempt>) {
    exists k: nat ::
      && k < |Schedule(plan, cap)| && !world(k).Seen?
      && (forall j: nat :: j < k ==> world(j).Seen? && (world(j).health.score < minScore || world(j).health.critical))
      && log == Schedule(plan, cap)[..if world(k).ActionRaised? then k else k + 1]
  }

  // Every planned action ran exactly `cap` times.
  ghost predicate UsedUp(plan: seq<string>, cap: nat, log: seq<Attempt>, counts: map<string, nat>) {
    |log| == |plan| * cap && forall a :: a in plan ==> a in counts && counts[a] == cap
  }

  // ---- The whole run ----

  datatype Mode = Run | DryRun | ApprovalRequired

  // The parts of the policy report the loop uses.
  datatype Report = Report(recommended: seq<string>, shouldRepair: bool)

  datatype Status = SkippedByPolicy | Disabled | AwaitingApproval | Ran(ending: Ending, repaired: bool)

  // Requested actions select among the recommended ones; none requested selects all.
  function Planned(recommended: seq<string>, requested: seq<string>): seq<string> {
    var names := Normalised(requested);
    if names == [] then recommended else Selected(recommended, names)
  }

  function Selected(recommended: seq<string>, names: seq<string>): seq<string> {
    if recommended == [] then []
    else
      var n := |recommended| - 1;
      if recommended[n] in names then Selected(recommended[..n], names) + [recommended[n]] else Selected(recommended[..n], names)
  }

  // Selecting keeps the order, and with it the absence of duplicates.
  lemma {:induction false} SelectedIsSubplan(recommended: seq<string>, names: seq<string>)
    requires NoDuplicates(recommended)
    ensures NoDuplicates(Selected(recommended, names))
    ensures forall a :: a in Selected(recommended, names) <==> a in recommended && a in names
  {
    if recommended != [] {
      var n := |recommended| - 1;
      SelectedIsSubplan(recommended[..n], names);
      assert recommended == recommended[..n] + [recommended[n]];
      assert recommended[n] !in recommended[..n];
      var front := Selected(recommended[..n], names);
      assert forall i :: 0 <= i < |front| ==> front[i] in front;
    }
  }

  predicate IsRequested(requested: seq<string>, action: string) {
    exists r :: r in requested && Strip(r) == action && !AllSpace(r)
  }

  predicate NothingRequested(requested: seq<string>) {
    forall r :: r in requested ==> AllSpace(r)
  }

  lemma {:induction false} NormalisedMeaning(requested: seq<string>)
    ensures forall a :: a in Normalised(requested) <==> IsRequested(requested, a)
    ensures Normalised(requested) == [] <==> NothingRequested(requested)
  {
    if requested != [] {
      var n := |requested| - 1;
      NormalisedMeaning(requested[..n]);
      StripEmptyIffBlank(requested[n]);
      assert requested == requested[..n] + [requested[n]];
      forall a ensures a in Normalised(requested) <==> IsRequested(requested, a) {
        assert IsRequested(requested[..n], a) ==> IsRequested(requested, a);
        if IsRequested(requested, a) && !IsRequested(requested[..n], a) {
          var r :| r in requested && Strip(r) == a && !AllSpace(r);
          assert r == requested[n];
        }
      }
    }
  }

  // The plan takes the recommended actions at the positions `idx`, in order: all of them if nothing is
  // requested, else exactly the requested ones.
  ghost predicate Takes(recommended: seq<string>, requested: seq<string>, plan: seq<string>, idx: seq<nat>) {
    && |plan| == |idx|
    && (forall a, b :: 0 <= a < b < |idx| ==> idx[a] < idx[b])
    && (forall a :: 0 <= a < |idx| ==> idx[a] < |recommended| && plan[a] == recommended[idx[a]])
    && (forall i: nat :: i < |recommended| ==> (i in idx <==> NothingRequested(requested) || IsRequested(requested, recommended[i])))
  }

  // The positions of the named actions.
  function Positions(recommended: seq<string>, names: seq<string>): (idx: seq<nat>)
    ensures forall a, b :: 0 <= a < b < |idx| ==> idx[a] < idx[b]
    ensures forall a :: 0 <= a < |idx| ==> idx[a] < |recommended|
    ensures forall i: nat :: i < |recommended| ==> (i in idx <==> recommended[i] in names)
  {
    if recommended == [] then []
    else
      var n := |recommended| - 1;
      var front := Positions(recommended[..n], names);
      assert forall i: nat :: i < n ==> recommended[..n][i] == recommended[i];
      assert n !in front;
      if recommended[n] in names then front + [n] else front
  }

  lemma {:induction false} SelectedAreNamed(recommended: seq<string>, names: seq<string>)
    ensures |Selected(recommended, names)| == |Positions(recommended, names)|
    ensures forall a :: 0 <= a < |Selected(recommended, names)| ==> Selected(recommended, names)[a] == recommended[Positions(recommended, names)[a]]
  {
    if recommended != [] {
      SelectedAreNamed(recommended[..|recommended| - 1], names);
    }
  }

  // For every recommendation and request.
  lemma {:induction false} PlannedTakes(recommended: seq<string>, requested: seq<string>) returns (idx: seq<nat>)
    ensures Takes(recommended, requested, Planned(recommended, requested), idx)
  {
    NormalisedMeaning(requested);
    if NothingRequested(requested) {
      idx := seq(|recommended|, i requires 0 <= i => i);
      forall i: nat | i < |recommended| ensures i in idx {
        assert idx[i] == i;
      }
    } else {
      idx := Positions(recommended, Normalised(requested));
      SelectedAreNamed(recommended, Normalised(requested));
    }
  }

  // `run_auto_repair_loop` behind the first snapshot and the policy report.
  method RunAutoRepairLoop(report: Report, requested: seq<string>, enabled: bool, mode: Mode, maxAttempts: int,
                           minScore: int, world: nat -> Probe, initial: Health)
    returns (status: Status, log: seq<Attempt>, counts: map<string, nat>)
    ensures status.SkippedByPolicy? <==> !report.shouldRepair || Planned(report.recommended, requested) == []
    ensures status.Disabled? <==> !status.SkippedByPolicy? && !enabled
    ensures status.AwaitingApproval? <==> !status.SkippedByPolicy? && enabled && mode.ApprovalRequired?
    ensures !status.Ran? ==> log == [] && counts == map[]
    ensures status.Ran? ==> exists health ::
      && RanUpToStop(Planned(report.recommended, requested), Cap(maxAttempts), minScore, world, initial, status.ending, log, counts, health)
      && (status.repaired <==> status.ending.Completed? && health.score >= minScore && !health.critical)
  {
    log, counts := [], map[];
    var plan := Planned(report.recommended, requested);
    if !report.shouldRepair || plan == [] {
      return SkippedByPolicy, log, counts;
    }
    if !enabled {
      return Disabled, log, counts;
    }
    if mode.ApprovalRequired? {
      return AwaitingApproval, log, counts;
    }
    var ending: Ending, health: Health;
    ending, log, counts, health := RunActions(plan, Cap(maxAttempts), minScore, world, initial);
    status := Ran(ending, ending.Completed? && Fixed(health, minScore));
  }

  // The plan of a run is free of duplicates, so its attempt counts add up to the log.
  lemma PlannedIsSubplan(recommended: seq<string>, requested: seq<string>)
    requires NoDuplicates(recommended)
    ensures NoDuplicates(Planned(recommended, requested))
    ensures forall a :: a in Planned(recommended, requested) ==> a in recommended
  {
    SelectedIsSubplan(recommended, Normalised(requested));
  }

  // From the issues to the repair log: the planner's list goes through the policy report, which
  // normalises it, and through the selection into the loop. A completed run's attempt counts add up
  // to its log, and if it is not repaired, every planned action ran exactly as often as allowed.
  method RepairIssues(issues: seq<Issue>, rules: Rules, shouldRepair: bool, requested: seq<string>, enabled: bool, mode: Mode,
                      maxAttempts: int, minScore: int, world: nat -> Probe, initial: Health)
    returns (actions: seq<string>, status: Status, log: seq<Attempt>, counts: map<string, nat>)
    ensures IsPlan(ActionsFor(rules, issues), Ranks(issues), actions)
    ensures NoDuplicates(Planned(actions, requested)) && forall a :: a in Planned(actions, requested) ==> a in actions
    ensures status.SkippedByPolicy? <==> !shouldRepair || Planned(actions, requested) == []
    ensures status.Ran? && status.ending.Completed? ==> Total(Planned(actions, requested), counts) == |log| >= 1
    ensures status.Ran? && status.ending.Completed? ==> 
      var last := world(|log| - 1); status.repaired <==> last.Seen? && last.health.score >= minScore && !last.health.critical
    ensures status.Ran? && status.ending.Completed? && !status.repaired ==> UsedUp(Planned(actions, requested), Cap(maxAttempts), log, counts)
  {
    actions := DecideActions(issues, rules);
    NormalisedPlan(actions);
    PlannedIsSubplan(actions, requested);
    status, log, counts := RunAutoRepairLoop(Report(Normalised(actions), shouldRepair), requested, enabled, mode, maxAttempts, minScore, world, initial);
    if status.Ran? {
      var plan, cap := Planned(actions, requested), Cap(maxAttempts);
      ghost var health :| RanUpToStop(plan, cap, minScore, world, initial, status.ending, log, counts, health)
        && (status.repaired <==> status.ending.Completed? && health.score >= minScore && !health.critical);
      RepairLogMeaning(plan, cap, minScore, world, initial, status.ending, log, counts, health);
    }
  }
}
