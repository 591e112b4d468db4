// The circuit breaker of core/utils/circuit_breaker.py.
//
// `Breaker` is the value of the breaker's four mutable fields, and the functions on it say what
// each method does. The class below updates the fields in place, as the source does, and every
// method is proved against the function of the same name. The clock is an input (`now`).

module CircuitBreakers {
  import opened Common

  datatype Phase = Closed | Open | HalfOpen

  datatype Config = Config(failureThreshold: int, recoveryTimeout: real, halfOpenMaxCalls: int)

  datatype Breaker = Breaker(phase: Phase, failureCount: nat, openedAt: Option<real>, halfOpenCalls: nat) {
    // What the assertion at the head of the OPEN branch relies on.
    predicate Valid() {
      phase.Open? ==> openedAt.Some?
    }
  }

  const INITIAL := Breaker(Closed, 0, None, 0)

  function ToOpen(b: Breaker, now: real): Breaker {
    b.(phase := Open, openedAt := Some(now), halfOpenCalls := 0)
  }

  function ToHalfOpen(b: Breaker): Breaker {
    b.(phase := HalfOpen, halfOpenCalls := 0)
  }

  // Is a fresh call let through?
  predicate Admits(c: Config, b: Breaker, now: real)
    requires b.Valid()
  {
    match b.phase
    case Closed => true
    case Open => now - b.openedAt.value >= c.recoveryTimeout
    case HalfOpen => b.halfOpenCalls < c.halfOpenMaxCalls
  }

  // The admission check moves an OPEN breaker whose recovery time has passed to HALF_OPEN.
  function AfterCheck(c: Config, b: Breaker, now: real): Breaker
    requires b.Valid()
  {
    if b.phase.Open? && Admits(c, b, now) then ToHalfOpen(b) else b
  }

  // Starting an attempt counts it when the breaker is HALF_OPEN, whoever starts it.
  function AfterStart(b: Breaker): Breaker {
    if b.phase.HalfOpen? then b.(halfOpenCalls := b.halfOpenCalls + 1) else b
  }

  function AfterSuccess(b: Breaker): Breaker {
    if b.phase.Closed? then b.(failureCount := 0) else INITIAL
  }

  function AfterFailure(c: Config, b: Breaker, now: real): Breaker {
    var b' := b.(failureCount := b.failureCount + 1);
    if b.phase.HalfOpen? || b'.failureCount >= c.failureThreshold then ToOpen(b', now) else b'
  }

  // One atomic section of `call_async`, cut at its two awaits. `Enter` is the admission check
  // together with the start of the first attempt (absent when max_attempts < 1); `Retry` starts
  // a later attempt and does not check admission again.
  datatype Event =
    | Enter(now: real, attempts: bool)
    | Retry
    | Success
    | Failure(now: real)

  function Apply(c: Config, b: Breaker, e: Event): (b': Breaker)
    requires b.Valid()
    ensures b'.Valid()
  {
    match e
    case Enter(now, attempts) =>
      var b' := AfterCheck(c, b, now);
      if Admits(c, b, now) && attempts then AfterStart(b') else b'
    case Retry => AfterStart(b)
    case Success => AfterSuccess(b)
    case Failure(now) => AfterFailure(c, b, now)
  }

  function Replay(c: Config, b: Breaker, es: seq<Event>): (b': Breaker)
    requires b.Valid()
    ensures b'.Valid()
  {
    if es == [] then b else Apply(c, Replay(c, b, es[..|es| - 1]), es[|es| - 1])
  }

  lemma ReplayPush(c: Config, b: Breaker, es: seq<Event>, e: Event)
    requires b.Valid()
    ensures Replay(c, b, es + [e]) == Apply(c, Replay(c, b, es), e)
  {
    assert (es + [e])[..|es|] == es;
  }

  lemma {:induction false} ReplayConcat(c: Config, b: Breaker, es: seq<Event>, fs: seq<Event>)
    requires b.Valid()
    ensures Replay(c, b, es + fs) == Replay(c, Replay(c, b, es), fs)
    decreases |fs|
  {
    if fs == [] {
      assert es + fs == es;
    } else {
      var n := |fs| - 1;
      ReplayConcat(c, b, es, fs[..n]);
      assert (es + fs)[..|es + fs| - 1] == es + fs[..n];
    }
  }

  // ---- The history of recorded outcomes ----

  // Recorded failures since the last recorded success.
  function TrailingFailures(es: seq<Event>): nat {
    if es == [] then 0 else
      var rest := TrailingFailures(es[..|es| - 1]);
      match es[|es| - 1]
      case Failure(_) => rest + 1
      case Success => 0
      case _ => rest
  }

  function LastFailure(es: seq<Event>): Option<real> {
    if es == [] then None
    else if es[|es| - 1].Failure? then Some(es[|es| - 1].now)
    else LastFailure(es[..|es| - 1])
  }

  // Fresh calls admitted, with an attempt of their own, since the last recorded outcome.
  function FreshSinceOutcome(c: Config, es: seq<Event>): nat {
    if es == [] then 0 else
      var before := es[..|es| - 1];
      match es[|es| - 1]
      case Enter(now, attempts) =>
        FreshSinceOutcome(c, before) + (if attempts && Admits(c, Replay(c, INITIAL, before), now) then 1 else 0)
      case Retry => FreshSinceOutcome(c, before)
      case _ => 0
  }

  predicate Reads(e: Event) {
    e.Enter? || e.Failure?
  }

  // Clock readings never go back.
  ghost predicate Chronological(es: seq<Event>) {
    forall i, j :: 0 <= i < j < |es| && Reads(es[i]) && Reads(es[j]) ==> es[i].now <= es[j].now
  }

  // The breaker's state is a function of the recorded outcomes alone, up to OPEN/HALF_OPEN.
  ghost predicate TracksHistory(c: Config, es: seq<Event>) {
    var b := Replay(c, INITIAL, es);
    && b.failureCount == TrailingFailures(es)
    && (b.phase.Closed? <==> TrailingFailures(es) < c.failureThreshold)
    && (!b.phase.Closed? ==> b.openedAt.Some? && b.openedAt == LastFailure(es))
  }

  // In every interleaving: any order of admission checks, attempt starts and recorded outcomes.
  lemma {:induction false} StateTracksHistory(c: Config, es: seq<Event>)
    requires c.failureThreshold >= 1
    ensures TracksHistory(c, es)
  {
    if es != [] {
      StateTracksHistory(c, es[..|es| - 1]);
    }
  }

  // A threshold below one is outside the guarantee: the breaker starts CLOSED all the same.
  lemma TracksHistoryIffThresholdPositive(c: Config)
    ensures (forall es :: TracksHistory(c, es)) <==> c.failureThreshold >= 1
  {
    if c.failureThreshold >= 1 {
      forall es ensures TracksHistory(c, es) {
        StateTracksHistory(c, es);
      }
    } else {
      assert !TracksHistory(c, []);
    }
  }

  // The current half-open episode as the history tells it: None outside one, otherwise the number
  // of attempts started since the admission that opened it.
  function Episode(c: Config, es: seq<Event>): Option<nat>
    decreases |es|, 0
  {
    if es == [] then None
    else
      var before := es[..|es| - 1];
      match es[|es| - 1]
      case Enter(now, attempts) =>
        if AdmitsByHistory(c, before, now) && TrailingFailures(before) >= c.failureThreshold
        then Some(Starts(Episode(c, before)) + if attempts then 1 else 0)
        else Episode(c, before)
      case Retry => if Episode(c, before).Some? then Some(Starts(Episode(c, before)) + 1) else None
      case _ => None
  }

  function Starts(episode: Option<nat>): nat {
    if episode.Some? then episode.value else 0
  }

  // The admission rule without the breaker's fields.
  predicate AdmitsByHistory(c: Config, es: seq<Event>, now: real)
    decreases |es|, 1
  {
    TrailingFailures(es) >= c.failureThreshold ==>
      match Episode(c, es)
      case Some(n) => n < c.halfOpenMaxCalls
      case None => LastFailure(es).Some? && now - LastFailure(es).value >= c.recoveryTimeout
  }

  lemma {:induction false} PhaseTracksEpisode(c: Config, es: seq<Event>)
    requires c.failureThreshold >= 1
    ensures var b := Replay(c, INITIAL, es);
      (b.phase.HalfOpen? <==> Episode(c, es).Some?) && (b.phase.HalfOpen? ==> Episode(c, es) == Some(b.halfOpenCalls))
  {
    if es != [] {
      var before := es[..|es| - 1];
      PhaseTracksEpisode(c, before);
      StateTracksHistory(c, before);
      StateTracksHistory(c, es);
    }
  }

  // Whether a fresh call is admitted depends on the recorded history alone, in every interleaving.
  lemma AdmissionIsByHistory(c: Config, es: seq<Event>, now: real)
    requires c.failureThreshold >= 1
    ensures Admits(c, Replay(c, INITIAL, es), now) <==> AdmitsByHistory(c, es, now)
  {
    StateTracksHistory(c, es);
    PhaseTracksEpisode(c, es);
  }

  // A HALF_OPEN breaker got there by an admission at least `recoveryTimeout` after the last failure.
  lemma {:induction false} HalfOpenIsLate(c: Config, es: seq<Event>, now: real)
    requires c.failureThreshold >= 1 && Chronological(es + [Enter(now, true)])
    requires Replay(c, INITIAL, es).phase.HalfOpen?
    ensures LastFailure(es).Some? && now - LastFailure(es).value >= c.recoveryTimeout
  {
    assert es != [];
    var before, last := es[..|es| - 1], es[|es| - 1];
    StateTracksHistory(c, before);
    StateTracksHistory(c, es);
    var whole := es + [Enter(now, true)];
    assert Chronological(before + [Enter(now, true)]) by {
      assert forall i :: 0 <= i < |before| ==> whole[i] == before[i];
      assert whole[|es|] == Enter(now, true);
    }
    if Replay(c, INITIAL, before).phase.HalfOpen? {
      HalfOpenIsLate(c, before, now);
    } else {
      assert last.Enter? && whole[|es| - 1] == last && whole[|es|].now == now;
    }
  }

  // While the last `failureThreshold` outcomes are all failures, a fresh call is let through only
  // once the latest failure is `recoveryTimeout` old.
  lemma AdmissionWaitsForRecovery(c: Config, es: seq<Event>, now: real)
    requires c.failureThreshold >= 1 && Chronological(es + [Enter(now, true)])
    requires TrailingFailures(es) >= c.failureThreshold
    requires Admits(c, Replay(c, INITIAL, es), now)
    ensures LastFailure(es).Some? && now - LastFailure(es).value >= c.recoveryTimeout
  {
    StateTracksHistory(c, es);
    if Replay(c, INITIAL, es).phase.HalfOpen? {
      HalfOpenIsLate(c, es, now);
    }
  }

  function ProbeLimit(c: Config): nat {
    if c.halfOpenMaxCalls < 1 then 1 else c.halfOpenMaxCalls
  }

  lemma {:induction false} FreshInvariant(c: Config, es: seq<Event>)
    requires c.failureThreshold >= 1
    ensures var b := Replay(c, INITIAL, es);
            && (b.phase.Open? ==> FreshSinceOutcome(c, es) == 0)
            && (b.phase.HalfOpen? ==> FreshSinceOutcome(c, es) <= b.halfOpenCalls)
            && (b.phase.HalfOpen? ==> FreshSinceOutcome(c, es) <= ProbeLimit(c))
  {
    if es != [] {
      FreshInvariant(c, es[..|es| - 1]);
    }
  }

  // Between two recorded outcomes of a failing breaker at most `halfOpenMaxCalls` fresh calls get
  // an attempt (one, when that setting is below one), although retries bump the same counter.
  lemma FreshProbesAreBounded(c: Config, es: seq<Event>)
    requires c.failureThreshold >= 1
    requires TrailingFailures(es) >= c.failureThreshold
    ensures FreshSinceOutcome(c, es) <= ProbeLimit(c)
  {
    StateTracksHistory(c, es);
    FreshInvariant(c, es);
  }

  // ---- One call, with whatever other tasks do at its awaits ----

  // `reply(i)` says whether attempt i succeeds, `clock(i)` is read if it fails; `during(i)` and
  // `asleep(i)` are the events of other tasks while it runs and during the back-off after it.
  datatype World = World(reply: nat -> bool, clock: nat -> real, during: nat -> seq<Event>, asleep: nat -> seq<Event>)

  datatype CallResult = CircuitOpen | Returned(attempt: nat) | RaisedLast | RaisedWithoutAttempt

  predicate NoneSucceeds(w: World, n: nat) {
    forall j: nat :: j < n ==> !w.reply(j)
  }

  lemma NoneSucceedsPush(w: World, n: nat)
    requires NoneSucceeds(w, n) && !w.reply(n)
    ensures NoneSucceeds(w, n + 1)
  {}

  // The events from the start of attempt i, which is under way, to the end of the call.
  function Remaining(w: World, maxAttempts: int, i: nat): seq<Event>
    decreases maxAttempts - i
  {
    if w.reply(i) then w.during(i) + [Success]
    else if i + 1 >= maxAttempts then w.during(i) + [Failure(w.clock(i))]
    else w.during(i) + [Failure(w.clock(i))] + w.asleep(i) + [Retry] + Remaining(w, maxAttempts, i + 1)
  }

  function CallTrace(w: World, maxAttempts: int, now: real): seq<Event> {
    if maxAttempts < 1 then [Enter(now, false)] else [Enter(now, true)] + Remaining(w, maxAttempts, 0)
  }

  // An admitted call replays its trace from the front: first the check and the first start ...
  lemma CallTraceHead(c: Config, w: World, maxAttempts: int, now: real, b: Breaker)
    requires b.Valid() && Admits(c, b, now)
    ensures Replay(c, b, CallTrace(w, maxAttempts, now))
         == if maxAttempts < 1 then AfterCheck(c, b, now)
            else Replay(c, AfterStart(AfterCheck(c, b, now)), Remaining(w, maxAttempts, 0))
  {
    var first := Enter(now, maxAttempts >= 1);
    ReplayPush(c, b, [], first);
    assert [] + [first] == [first];
    if maxAttempts >= 1 {
      ReplayConcat(c, b, [first], Remaining(w, maxAttempts, 0));
    }
  }

  // What is left of the call once attempt i has an outcome, with the breaker at `d`.
  function AfterAttempt(c: Config, w: World, maxAttempts: int, i: nat, d: Breaker): Breaker
    requires d.Valid()
  {
    if w.reply(i) then AfterSuccess(d)
    else
      var failed := AfterFailure(c, d, w.clock(i));
      if i + 1 >= maxAttempts then failed
      else Replay(c, AfterStart(Replay(c, failed, w.asleep(i))), Remaining(w, maxAttempts, i + 1))
  }

  // ... then one attempt after another.
  lemma RemainingStep(c: Config, w: World, maxAttempts: int, i: nat, b: Breaker)
    requires b.Valid()
    ensures Replay(c, b, Remaining(w, maxAttempts, i)) == AfterAttempt(c, w, maxAttempts, i, Replay(c, b, w.during(i)))
  {
    var failed := w.during(i) + [Failure(w.clock(i))];
    ReplayPush(c, b, w.during(i), Success);
    ReplayPush(c, b, w.during(i), Failure(w.clock(i)));
    ReplayConcat(c, b, failed, w.asleep(i));
    ReplayPush(c, b, failed + w.asleep(i), Retry);
    if !w.reply(i) && i + 1 < maxAttempts {
      ReplayConcat(c, b, failed + w.asleep(i) + [Retry], Remaining(w, maxAttempts, i + 1));
    }
  }

  class CircuitBreaker {
    const config: Config
    var phase: Phase
    var failureCount: nat
    var openedAt: Option<real>
    var halfOpenCalls: nat

    function Value(): Breaker
      reads this
    {
      Breaker(phase, failureCount, openedAt, halfOpenCalls)
    }

    constructor (config: Config)
      ensures this.config == config && Value() == INITIAL
    {
      this.config := config;
      phase, failureCount, openedAt, halfOpenCalls := Closed, 0, None, 0;
    }

    method TransitionToOpen(now: real)
      modifies this
      ensures Value() == ToOpen(old(Value()), now)
    {
      phase := Open;
      openedAt := Some(now);
      halfOpenCalls := 0;
    }

    method TransitionToHalfOpen()
      modifies this
      ensures Value() == ToHalfOpen(old(Value()))
    {
      phase := HalfOpen;
      halfOpenCalls := 0;
    }

    method TransitionToClosed()
      modifies this
      ensures Value() == INITIAL
    {
      phase := Closed;
      failureCount := 0;
      openedAt := None;
      halfOpenCalls := 0;
    }

    method CanAttempt(now: real) returns (ok: bool)
      requires Value().Valid()
      modifies this
      ensures ok == Admits(config, old(Value()), now)
      ensures Value() == AfterCheck(config, old(Value()), now)
    {
      if phase.Open? {
        if now - openedAt.value >= config.recoveryTimeout {
          TransitionToHalfOpen();
          return true;
        }
        return false;
      }
      if phase.HalfOpen? {
        return halfOpenCalls < config.halfOpenMaxCalls;
      }
      return true;
    }

    method RecordSuccess()
      modifies this
      ensures Value() == AfterSuccess(old(Value()))
    {
      if phase.Open? || phase.HalfOpen? {
        TransitionToClosed();
      } else {
        failureCount := 0;
      }
    }

    method RecordFailure(now: real)
      modifies this
      ensures Value() == AfterFailure(config, old(Value()), now)
    {
      failureCount := failureCount + 1;
      if phase.HalfOpen? || failureCount >= config.failureThreshold {
        TransitionToOpen(now);
      }
    }

    method CountAttempt()
      modifies this
      ensures Value() == AfterStart(old(Value()))
    {
      if phase.HalfOpen? {
        halfOpenCalls := halfOpenCalls + 1;
      }
    }

    // What other tasks do to the shared breaker while this one is suspended.
    method Suspend(others: seq<Event>)
      requires Value().Valid()
      modifies this
      ensures Value() == Replay(config, old(Value()), others)
    {
      for k := 0 to |others|
        invariant Value() == Replay(config, old(Value()), others[..k])
      {
        match others[k] {
          case Enter(now, attempts) =>
            var ok := CanAttempt(now);
            if ok && attempts { CountAttempt(); }
          case Retry => CountAttempt();
          case Success => RecordSuccess();
          case Failure(now) => RecordFailure(now);
        }
        assert others[..k + 1][..k] == others[..k];
      }
      assert others[..|others|] == others;
    }

    // A refused call leaves the breaker as it was. An admitted one replays exactly `CallTrace`, and
    // stops at the first attempt that succeeds.
    method CallAsync(w: World, maxAttempts: int, now: real) returns (r: CallResult)
      requires Value().Valid()
      modifies this
      ensures r.CircuitOpen? <==> !old(Admits(config, Value(), now))
      ensures r.CircuitOpen? ==> Value() == old(Value())
      ensures !r.CircuitOpen? ==> Value() == Replay(config, old(Value()), CallTrace(w, maxAttempts, now))
      ensures r.Returned? ==> r.attempt < maxAttempts && w.reply(r.attempt) && NoneSucceeds(w, r.attempt)
      ensures r.RaisedLast? ==> maxAttempts >= 1 && NoneSucceeds(w, maxAttempts)
      ensures r.RaisedWithoutAttempt? ==> maxAttempts < 1
    {
      ghost var b0 := Value();
      ghost var end := Replay(config, b0, CallTrace(w, maxAttempts, now));
      var admitted := CanAttempt(now);
      if !admitted {
        return CircuitOpen;
      }
      CallTraceHead(config, w, maxAttempts, now, b0);

      var attempt := 0;
      while attempt < maxAttempts
        invariant 0 <= attempt && (maxAttempts >= 1 ==> attempt < maxAttempts)
        invariant NoneSucceeds(w, attempt)
        invariant Value().Valid()
        invariant maxAttempts < 1 ==> Value() == end
        invariant maxAttempts >= 1 ==> Replay(config, AfterStart(Value()), Remaining(w, maxAttempts, attempt)) == end
      {
        CountAttempt();
        RemainingStep(config, w, maxAttempts, attempt, Value());
        Suspend(w.during(attempt));
        if w.reply(attempt) {
          RecordSuccess();
          return Returned(attempt);
        }
        RecordFailure(w.clock(attempt));
        NoneSucceedsPush(w, attempt);
        if attempt + 1 >= maxAttempts {
          return RaisedLast;
        }
        Suspend(w.asleep(attempt));
        attempt := attempt + 1;
      }
      return RaisedWithoutAttempt;
    }
  }
}
