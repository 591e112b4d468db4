// The global rate limiter of api/middleware/security.py: one Redis counter per identity and clock
// bucket, given a time to live by the request that creates it.

module FixedBuckets {
  import opened Common

  // `segyr:ratelimit:{identity}:{bucket}`
  datatype Key = Key(identity: string, bucket: int)

  // A counter and the moment it expires; None when it has no time to live.
  datatype Counter = Counter(count: nat, expires: Option<real>)

  predicate Live(c: Counter, now: real) {
    c.expires.Some? ==> now < c.expires.value
  }

  function Count(keys: map<Key, Counter>, k: Key, now: real): nat {
    if k in keys && Live(keys[k], now) then keys[k].count else 0
  }

  // INCR: a missing or expired key starts again at one, without a time to live.
  function AfterIncr(keys: map<Key, Counter>, k: Key, now: real): map<Key, Counter> {
    if k in keys && Live(keys[k], now) then keys[k := keys[k].(count := keys[k].count + 1)]
    else keys[k := Counter(1, None)]
  }

  // EXPIRE: nothing happens to a missing or expired key.
  function AfterExpire(keys: map<Key, Counter>, k: Key, seconds: int, now: real): map<Key, Counter> {
    if k in keys && Live(keys[k], now) then keys[k := keys[k].(expires := Some(now + seconds as real))] else keys
  }

  function Bucket(window: int, read: real): int
    requires window >= 1
  {
    read.Floor / window
  }

  function Max(a: int, b: int): (m: int)
    ensures m >= a && m >= b && (m == a || m == b)
  {
    if a < b then b else a
  }

  class Redis {
    var keys: map<Key, Counter>

    constructor ()
      ensures keys == map[]
    {
      keys := map[];
    }

    method Incr(k: Key, now: real) returns (count: nat)
      modifies this
      ensures keys == AfterIncr(old(keys), k, now) && count == old(Count(keys, k, now)) + 1
    {
      if k in keys && Live(keys[k], now) {
        count := keys[k].count + 1;
        keys := keys[k := keys[k].(count := count)];
      } else {
        count := 1;
        keys := keys[k := Counter(1, None)];
      }
    }

    method Expire(k: Key, seconds: int, now: real)
      modifies this
      ensures keys == AfterExpire(old(keys), k, seconds, now)
    {
      if k in keys && Live(keys[k], now) {
        keys := keys[k := keys[k].(expires := Some(now + seconds as real))];
      }
    }
  }

  // `_increment_rate_limit` when its two commands reach Redis at `at` and `later` with no other in
  // between. `read` is the clock reading that picks the bucket.
  method IncrementRateLimit(redis: Redis, windowSetting: int, identity: string, read: real, at: real, later: real) returns (current: nat)
    modifies redis
    ensures var window := Max(1, windowSetting);
      var k := Key(identity, Bucket(window, read));
      current == old(Count(redis.keys, k, at)) + 1
      && redis.keys == if current == 1 then AfterExpire(AfterIncr(old(redis.keys), k, at), k, window + 2, later) else AfterIncr(old(redis.keys), k, at)
  {
    var window := Max(1, windowSetting);
    var k := Key(identity, Bucket(window, read));
    current := redis.Incr(k, at);
    if current == 1 {
      redis.Expire(k, window + 2, later);
    }
  }

  // The decision on a counted request.
  predicate Accepts(limitSetting: int, count: nat) {
    count <= Max(1, limitSetting)
  }

  // ---- Interleaved requests ----

  // One INCR as a request saw it.
  datatype Hit = Hit(key: Key, read: real, count: nat)

  // `owed` are the keys whose creator has not yet sent its EXPIRE.
  datatype State = State(now: real, keys: map<Key, Counter>, owed: set<Key>, hits: seq<Hit>)

  // `SendIncr` is a request that read the clock at `read` and whose INCR arrives at `at`.
  datatype Step = SendIncr(identity: string, read: real, at: real) | SendExpire(key: Key, at: real)

  predicate Enabled(s: State, step: Step) {
    match step
    case SendIncr(_, read, at) => s.now <= at && read <= at
    case SendExpire(key, at) => s.now <= at && key in s.owed
  }

  function Next(window: int, s: State, step: Step): State
    requires window >= 1
  {
    match step
    case SendIncr(identity, read, at) =>
      var k := Key(identity, Bucket(window, read));
      var count := Count(s.keys, k, at) + 1;
      State(at, AfterIncr(s.keys, k, at), if count == 1 then s.owed + {k} else s.owed, s.hits + [Hit(k, read, count)])
    case SendExpire(key, at) =>
      State(at, AfterExpire(s.keys, key, window + 2, at), s.owed - {key}, s.hits)
  }

  // Every increment reaches Redis at most `delay` seconds after its clock reading.
  ghost predicate WithinDelay(steps: seq<Step>, delay: real) {
    forall i :: 0 <= i < |steps| && steps[i].SendIncr? ==> steps[i].at <= steps[i].read + delay
  }

  ghost predicate Reaches(window: int, steps: seq<Step>, s: State)
    requires window >= 1
    decreases |steps|
  {
    if steps == [] then s.keys == map[] && s.owed == {} && s.hits == []
    else
      var n := |steps| - 1;
      exists t: State :: Reaches(window, steps[..n], t) && Enabled(t, steps[n]) && s == Next(window, t, steps[n])
  }

  // Hits on the key k so far.
  function HitsOn(hits: seq<Hit>, k: Key): nat {
    if hits == [] then 0 else HitsOn(hits[..|hits| - 1], k) + (if hits[|hits| - 1].key == k then 1 else 0)
  }

  lemma HitsOnPush(hits: seq<Hit>, h: Hit, k: Key)
    ensures HitsOn(hits + [h], k) == HitsOn(hits, k) + if h.key == k then 1 else 0
  {
    assert (hits + [h])[..|hits|] == hits;
  }

  function StartOf(window: int, bucket: int): real {
    (bucket * window) as real
  }

  lemma BucketBounds(window: int, read: real)
    requires window >= 1
    ensures StartOf(window, Bucket(window, read)) <= read < StartOf(window, Bucket(window, read)) + window as real
  {
    var f := read.Floor;
    assert f == f / window * window + f % window;
  }

  // No counter expires while requests of its bucket can still arrive in time.
  ghost predicate CountersLast(window: int, s: State) {
    && (forall k :: k in s.keys ==>
      && s.keys[k].count == HitsOn(s.hits, k)
      && StartOf(window, k.bucket) <= s.now
      && (s.keys[k].expires.Some? ==> s.keys[k].expires.value >= StartOf(window, k.bucket) + window as real + 2.0))
    && (forall k :: k !in s.keys ==> HitsOn(s.hits, k) == 0)
    && (forall k :: k in s.owed ==> k in s.keys)
  }

  // The i-th hit on a key saw the count i.
  ghost predicate CountsAreOrdinals(hits: seq<Hit>) {
    forall i :: 0 <= i < |hits| ==> hits[i].count == HitsOn(hits[..i], hits[i].key) + 1
  }

  lemma IncrKeepsCounters(window: int, s: State, identity: string, read: real, at: real)
    requires window >= 1 && CountersLast(window, s) && s.now <= at && read <= at <= read + 2.0
    ensures CountersLast(window, Next(window, s, SendIncr(identity, read, at)))
    ensures Count(s.keys, Key(identity, Bucket(window, read)), at) == HitsOn(s.hits, Key(identity, Bucket(window, read)))
  {
    var k := Key(identity, Bucket(window, read));
    BucketBounds(window, read);
    var s' := Next(window, s, SendIncr(identity, read, at));
    var h := s'.hits[|s.hits|];
    assert k in s.keys ==> Live(s.keys[k], at);
    forall j: Key ensures HitsOn(s'.hits, j) == HitsOn(s.hits, j) + if j == k then 1 else 0 {
      HitsOnPush(s.hits, h, j);
    }
  }

  lemma ExpireKeepsCounters(window: int, s: State, key: Key, at: real)
    requires window >= 1 && CountersLast(window, s) && s.now <= at && key in s.owed
    ensures CountersLast(window, Next(window, s, SendExpire(key, at)))
  {}

  lemma OrdinalsPush(hits: seq<Hit>, h: Hit)
    requires CountsAreOrdinals(hits) && h.count == HitsOn(hits, h.key) + 1
    ensures CountsAreOrdinals(hits + [h])
  {
    var all := hits + [h];
    forall i | 0 <= i < |all| ensures all[i].count == HitsOn(all[..i], all[i].key) + 1 {
      if i < |hits| {
        assert all[..i] == hits[..i];
      } else {
        assert all[..i] == hits;
      }
    }
  }

  // In every interleaving of timely requests each bucket's counter counts on without a restart.
  lemma {:induction false} EveryHitIsCounted(window: int, steps: seq<Step>, s: State)
    requires window >= 1 && Reaches(window, steps, s) && WithinDelay(steps, 2.0)
    ensures CountersLast(window, s) && CountsAreOrdinals(s.hits)
  {
    if steps != [] {
      var n := |steps| - 1;
      var t: State :| Reaches(window, steps[..n], t) && Enabled(t, steps[n]) && s == Next(window, t, steps[n]);
      EveryHitIsCounted(window, steps[..n], t);
      match steps[n] {
        case SendIncr(identity, read, at) =>
          IncrKeepsCounters(window, t, identity, read, at);
          OrdinalsPush(t.hits, s.hits[|t.hits|]);
        case SendExpire(key, at) => ExpireKeepsCounters(window, t, key, at);
      }
    }
  }

  // ---- Bounds on the accepted requests ----

  ghost predicate Increasing(idx: seq<nat>, n: nat) {
    (forall a, b :: 0 <= a < b < |idx| ==> idx[a] < idx[b]) && forall a :: 0 <= a < |idx| ==> idx[a] < n
  }

  // k increasing hits on one key are among the first HitsOn hits on it.
  lemma {:induction false} SelectionFits(hits: seq<Hit>, k: Key, idx: seq<nat>, n: nat)
    requires n <= |hits| && Increasing(idx, n) && forall a :: 0 <= a < |idx| ==> hits[idx[a]].key == k
    ensures |idx| <= HitsOn(hits[..n], k)
    decreases n
  {
    if idx != [] {
      var last := idx[|idx| - 1];
      assert hits[..n][..n - 1] == hits[..n - 1];
      if last == n - 1 {
        var front := idx[..|idx| - 1];
        forall a | 0 <= a < |front| ensures front[a] < n - 1 { assert idx[a] < idx[|idx| - 1]; }
        SelectionFits(hits, k, front, n - 1);
      } else {
        forall a | 0 <= a < |idx| ensures idx[a] < n - 1 { if a < |idx| - 1 { assert idx[a] < idx[|idx| - 1]; } }
        SelectionFits(hits, k, idx, n - 1);
      }
    }
  }

  ghost predicate AllAccepted(hits: seq<Hit>, limit: int, idx: seq<nat>)
    requires Increasing(idx, |hits|)
  {
    forall a :: 0 <= a < |idx| ==> Accepts(limit, hits[idx[a]].count)
  }

  // Each bucket accepts at most `limit` requests of an identity.
  lemma BucketBound(hits: seq<Hit>, limit: int, k: Key, idx: seq<nat>)
    requires CountsAreOrdinals(hits) && Increasing(idx, |hits|) && AllAccepted(hits, limit, idx)
    requires forall a :: 0 <= a < |idx| ==> hits[idx[a]].key == k
    ensures |idx| <= Max(1, limit)
  {
    if idx != [] {
      var last := idx[|idx| - 1];
      var front := idx[..|idx| - 1];
      forall a | 0 <= a < |front| ensures front[a] < last { assert idx[a] < idx[|idx| - 1]; }
      SelectionFits(hits, k, front, last);
    }
  }

  // The indices of `idx` whose hit is in the given bucket, in order.
  function InBucket(hits: seq<Hit>, idx: seq<nat>, bucket: int): (part: seq<nat>)
    requires forall a :: 0 <= a < |idx| ==> idx[a] < |hits|
    ensures forall x :: x in part ==> x in idx && hits[x].key.bucket == bucket
  {
    if idx == [] then []
    else
      var n := |idx| - 1;
      var part := InBucket(hits, idx[..n], bucket);
      if hits[idx[n]].key.bucket == bucket then part + [idx[n]] else part
  }

  lemma {:induction false} InBucketIncreasing(hits: seq<Hit>, idx: seq<nat>, bucket: int)
    requires Increasing(idx, |hits|)
    ensures Increasing(InBucket(hits, idx, bucket), |hits|)
  {
    if idx != [] {
      var n := |idx| - 1;
      InBucketIncreasing(hits, idx[..n], bucket);
      var part := InBucket(hits, idx[..n], bucket);
      forall a | 0 <= a < |part| ensures part[a] < idx[n] {
        assert part[a] in idx[..n];
      }
    }
  }

  lemma {:induction false} TwoBucketsSplit(hits: seq<Hit>, idx: seq<nat>, bucket: int)
    requires forall a :: 0 <= a < |idx| ==> idx[a] < |hits|
    requires forall a :: 0 <= a < |idx| ==> bucket <= hits[idx[a]].key.bucket <= bucket + 1
    ensures |idx| == |InBucket(hits, idx, bucket)| + |InBucket(hits, idx, bucket + 1)|
  {
    if idx != [] {
      TwoBucketsSplit(hits, idx[..|idx| - 1], bucket);
    }
  }

  lemma LessByFactor(a: int, b: int, w: int)
    requires w >= 1 && a * w < b * w + w
    ensures a <= b
  {
    var d := a - b - 1;
    assert d * w == a * w - b * w - w;
    assert d >= 0 ==> d * w >= 0;
  }

  lemma DivOrder(x: int, y: int, w: int)
    requires w >= 1 && x <= y <= x + w
    ensures x / w <= y / w <= x / w + 1
  {
    var a, b := x / w, y / w;
    assert x == a * w + x % w && y == b * w + y % w;
    LessByFactor(a, b, w);
    assert (a + 1) * w == a * w + w;
    LessByFactor(b, a + 1, w);
  }

  // Clock readings within one window length fall into two adjacent buckets.
  lemma SpanMeetsTwoBuckets(window: int, from: real, read: real)
    requires window >= 1 && from <= read <= from + window as real
    ensures Bucket(window, from) <= Bucket(window, read) <= Bucket(window, from) + 1
  {
    assert read.Floor <= from.Floor + window;
    DivOrder(from.Floor, read.Floor, window);
  }

  ghost predicate BucketsMatchReads(window: int, hits: seq<Hit>)
    requires window >= 1
  {
    forall i :: 0 <= i < |hits| ==> hits[i].key.bucket == Bucket(window, hits[i].read)
  }

  lemma {:induction false} ReadsPickBuckets(window: int, steps: seq<Step>, s: State)
    requires window >= 1 && Reaches(window, steps, s)
    ensures BucketsMatchReads(window, s.hits)
  {
    if steps != [] {
      var n := |steps| - 1;
      var t: State :| Reaches(window, steps[..n], t) && Enabled(t, steps[n]) && s == Next(window, t, steps[n]);
      ReadsPickBuckets(window, steps[..n], t);
    }
  }

  lemma PartBound(hits: seq<Hit>, limit: int, identity: string, idx: seq<nat>, bucket: int)
    requires CountsAreOrdinals(hits) && Increasing(idx, |hits|) && AllAccepted(hits, limit, idx)
    requires forall a :: 0 <= a < |idx| ==> hits[idx[a]].key.identity == identity
    ensures |InBucket(hits, idx, bucket)| <= Max(1, limit)
  {
    var part := InBucket(hits, idx, bucket);
    InBucketIncreasing(hits, idx, bucket);
    forall a | 0 <= a < |part| ensures Accepts(limit, hits[part[a]].count) && hits[part[a]].key == Key(identity, bucket) {
      assert part[a] in part;
      assert part[a] in idx;
    }
    BucketBound(hits, limit, Key(identity, bucket), part);
  }

  lemma SpanBoundOnHits(window: int, limit: int, hits: seq<Hit>, identity: string, from: real, idx: seq<nat>)
    requires window >= 1 && CountsAreOrdinals(hits) && BucketsMatchReads(window, hits)
    requires Increasing(idx, |hits|) && AllAccepted(hits, limit, idx)
    requires forall a :: 0 <= a < |idx| ==> hits[idx[a]].key.identity == identity
    requires forall a :: 0 <= a < |idx| ==> from <= hits[idx[a]].read <= from + window as real
    ensures |idx| <= 2 * Max(1, limit)
  {
    var b := Bucket(window, from);
    forall a | 0 <= a < |idx| ensures b <= hits[idx[a]].key.bucket <= b + 1 {
      SpanMeetsTwoBuckets(window, from, hits[idx[a]].read);
    }
    TwoBucketsSplit(hits, idx, b);
    PartBound(hits, limit, identity, idx, b);
    PartBound(hits, limit, identity, idx, b + 1);
  }

  // Main result. Of the requests of one identity whose clock readings lie within one window length,
  // at most twice the limit are accepted, however the requests of all identities interleave, as
  // long as each reaches Redis within two seconds.
  lemma {:induction false} SpanBound(window: int, limit: int, steps: seq<Step>, s: State, identity: string, from: real, idx: seq<nat>)
    requires window >= 1 && Reaches(window, steps, s) && WithinDelay(steps, 2.0)
    requires Increasing(idx, |s.hits|) && AllAccepted(s.hits, limit, idx)
    requires forall a :: 0 <= a < |idx| ==> s.hits[idx[a]].key.identity == identity
    requires forall a :: 0 <= a < |idx| ==> from <= s.hits[idx[a]].read <= from + window as real
    ensures |idx| <= 2 * Max(1, limit)
  {
    EveryHitIsCounted(window, steps, s);
    ReadsPickBuckets(window, steps, s);
    SpanBoundOnHits(window, limit, s.hits, identity, from, idx);
  }

  // ---- Exactly which delays are harmless ----

  ghost predicate AlwaysCounts(window: int, delay: real)
    requires window >= 1
  {
    forall steps, s :: Reaches(window, steps, s) && WithinDelay(steps, delay) ==> CountsAreOrdinals(s.hits)
  }

  // Accepted hits of one identity, all in one bucket.
  ghost predicate InOneBucket(hits: seq<Hit>, limit: int, k: Key, idx: seq<nat>) {
    Increasing(idx, |hits|) && AllAccepted(hits, limit, idx) && forall a :: 0 <= a < |idx| ==> hits[idx[a]].key == k
  }

  // Accepted hits of one identity, read within one window length.
  ghost predicate InOneSpan(window: int, hits: seq<Hit>, limit: int, identity: string, from: real, idx: seq<nat>) {
    && Increasing(idx, |hits|) && AllAccepted(hits, limit, idx)
    && forall a :: 0 <= a < |idx| ==> hits[idx[a]].key.identity == identity && from <= hits[idx[a]].read <= from + window as real
  }

  ghost predicate AlwaysInQuota(window: int, limit: int, delay: real)
    requires window >= 1
  {
    forall steps, s, k, idx :: Reaches(window, steps, s) && WithinDelay(steps, delay) && InOneBucket(s.hits, limit, k, idx) ==> |idx| <= Max(1, limit)
  }

  ghost predicate AlwaysInSpanQuota(window: int, limit: int, delay: real)
    requires window >= 1
  {
    forall steps, s, identity, from, idx ::
      Reaches(window, steps, s) && WithinDelay(steps, delay) && InOneSpan(window, s.hits, limit, identity, from, idx) ==> |idx| <= 2 * Max(1, limit)
  }

  // For every window and limit, the counters count on, the quota per bucket holds and the quota per
  // span holds, in every interleaving, if and only if no increment takes longer than two seconds.
  lemma DelayBoundIff(window: int, limit: int, delay: real)
    requires window >= 1 && delay >= 0.0
    ensures AlwaysCounts(window, delay) <==> delay <= 2.0
    ensures AlwaysInQuota(window, limit, delay) <==> delay <= 2.0
    ensures AlwaysInSpanQuota(window, limit, delay) <==> delay <= 2.0
  {
    if delay <= 2.0 {
      ShortDelayIsHarmless(window, limit, delay);
    } else {
      var steps, s := LateRequestIsAcceptedAgain(window, limit, delay);
      var m := Max(1, limit);
      var idx := UpTo(2 * m + 1);
      assert InOneBucket(s.hits, limit, Key("ip", 0), UpTo(m + 1));
      assert InOneSpan(window, s.hits, limit, "ip", 0.0, idx);
    }
  }

  lemma ShortDelayIsHarmless(window: int, limit: int, delay: real)
    requires window >= 1 && delay <= 2.0
    ensures AlwaysCounts(window, delay) && AlwaysInQuota(window, limit, delay) && AlwaysInSpanQuota(window, limit, delay)
  {
    forall steps, s | Reaches(window, steps, s) && WithinDelay(steps, delay) ensures CountsAreOrdinals(s.hits) {
      EveryHitIsCounted(window, steps, s);
    }
    forall steps, s, k, idx | Reaches(window, steps, s) && WithinDelay(steps, delay) && InOneBucket(s.hits, limit, k, idx)
      ensures |idx| <= Max(1, limit)
    {
      BucketBound(s.hits, limit, k, idx);
    }
    forall steps, s, identity, from, idx | Reaches(window, steps, s) && WithinDelay(steps, delay) && InOneSpan(window, s.hits, limit, identity, from, idx)
      ensures |idx| <= 2 * Max(1, limit)
    {
      SpanBound(window, limit, steps, s, identity, from, idx);
    }
  }

  lemma ReachesPush(window: int, steps: seq<Step>, t: State, step: Step)
    requires window >= 1 && Reaches(window, steps, t) && Enabled(t, step)
    ensures Reaches(window, steps + [step], Next(window, t, step))
  {
    assert (steps + [step])[..|steps|] == steps;
  }

  function UpTo(n: nat): (idx: seq<nat>)
    ensures |idx| == n && forall a :: 0 <= a < n ==> idx[a] == a
  {
    seq(n, a requires 0 <= a => a)
  }

  // `s` is `s0` after n hits on a key that had no counter yet: they saw the counts from 1 to n.
  ghost predicate AfterBurst(s0: State, s: State, k: Key, read: real, at: real, ttl: int, n: nat) {
    && s.now == at && s.keys == s0.keys[k := Counter(n, Some(at + ttl as real))]
    && |s.hits| == |s0.hits| + n && s.hits[..|s0.hits|] == s0.hits
    && forall i :: |s0.hits| <= i < |s.hits| ==> s.hits[i] == Hit(k, read, i - |s0.hits| + 1)
  }

  // A run within the delay, one step longer.
  lemma DelayedPush(window: int, delay: real, steps: seq<Step>, t: State, step: Step)
    requires window >= 1 && Reaches(window, steps, t) && WithinDelay(steps, delay) && Enabled(t, step)
    requires step.SendIncr? ==> step.at <= step.read + delay
    ensures Reaches(window, steps + [step], Next(window, t, step)) && WithinDelay(steps + [step], delay)
  {
    ReachesPush(window, steps, t, step);
  }

  lemma BurstBegins(window: int, s0: State, k: Key, read: real, at: real)
    requires window >= 1 && k == Key(k.identity, Bucket(window, read)) && k !in s0.keys && s0.now <= at && read <= at
    ensures var s1 := Next(window, s0, SendIncr(k.identity, read, at));
      Enabled(s1, SendExpire(k, at)) && AfterBurst(s0, Next(window, s1, SendExpire(k, at)), k, read, at, window + 2, 1)
  {}

  lemma BurstGoesOn(window: int, s0: State, t: State, k: Key, read: real, at: real, n: nat)
    requires window >= 1 && k == Key(k.identity, Bucket(window, read)) && AfterBurst(s0, t, k, read, at, window + 2, n) && read <= at
    ensures AfterBurst(s0, Next(window, t, SendIncr(k.identity, read, at)), k, read, at, window + 2, n + 1)
  {
    var s := Next(window, t, SendIncr(k.identity, read, at));
    assert s.hits[..|t.hits|] == t.hits;
    assert s.hits[..|s0.hits|] == t.hits[..|s0.hits|];
  }

  // n requests read at `read` arrive at `at`.
  lemma {:induction false} Burst(window: int, delay: real, before: seq<Step>, s0: State, k: Key, read: real, at: real, n: nat) returns (steps: seq<Step>, s: State)
    requires window >= 1 && n >= 1 && Reaches(window, before, s0) && WithinDelay(before, delay)
    requires s0.now <= at && read <= at <= read + delay && k == Key(k.identity, Bucket(window, read)) && k !in s0.keys
    ensures Reaches(window, steps, s) && WithinDelay(steps, delay) && AfterBurst(s0, s, k, read, at, window + 2, n)
  {
    var incr, expire := SendIncr(k.identity, read, at), SendExpire(k, at);
    if n == 1 {
      BurstBegins(window, s0, k, read, at);
      var s1 := Next(window, s0, incr);
      s := Next(window, s1, expire);
      DelayedPush(window, delay, before, s0, incr);
      DelayedPush(window, delay, before + [incr], s1, expire);
      steps := before + [incr] + [expire];
    } else {
      var t: State;
      steps, t := Burst(window, delay, before, s0, k, read, at, n - 1);
      BurstGoesOn(window, s0, t, k, read, at, n - 1);
      s := Next(window, t, incr);
      DelayedPush(window, delay, steps, t, incr);
      steps := steps + [incr];
    }
  }

  // A clock reading shortly before the end of the first bucket.
  lemma LateRead(window: int, delay: real) returns (read: real)
    requires window >= 1 && delay > 2.0
    ensures 0.0 <= read < window as real && (window + 2) as real <= read + delay
    ensures Bucket(window, 0.0) == Bucket(window, read) == 0 && Bucket(window, window as real) == 1
  {
    var short := if delay - 2.0 < 0.5 then delay - 2.0 else 0.5;
    read := window as real - short;
    assert 0 <= read.Floor < window;
    DivOrder(0, read.Floor, window);
    assert window / window == 1;
  }

  // A full quota read at the start of the first bucket, one late request of the same bucket and a
  // full quota of the next bucket: all accepted, read within one window length.
  ghost predicate Overrun(window: int, limit: int, s: State) {
    var m := Max(1, limit);
    && |s.hits| == 2 * m + 1
    && (forall i :: 0 <= i < |s.hits| ==> Accepts(limit, s.hits[i].count) && s.hits[i].key.identity == "ip" && 0.0 <= s.hits[i].read <= window as real)
    && (forall i :: 0 <= i <= m ==> s.hits[i].key == Key("ip", 0))
  }

  lemma OverrunMiscounts(window: int, limit: int, s: State)
    requires Overrun(window, limit, s) && s.hits[Max(1, limit)].count == 1
    ensures !CountsAreOrdinals(s.hits)
  {
    var m := Max(1, limit);
    assert s.hits[..m][m - 1].key == s.hits[m].key;
  }

  // A burst of m, one late hit, and a burst of m on the next bucket overrun the quotas.
  lemma BurstsOverrun(window: int, limit: int, s0: State, s1: State, s2: State, s: State, read: real)
    requires window >= 1 && s0.hits == [] && 0.0 <= read <= window as real
    requires AfterBurst(s0, s1, Key("ip", 0), 0.0, 0.0, window + 2, Max(1, limit))
    requires s2.hits == s1.hits + [Hit(Key("ip", 0), read, 1)]
    requires AfterBurst(s2, s, Key("ip", 1), window as real, (window + 2) as real, window + 2, Max(1, limit))
    ensures Overrun(window, limit, s) && s.hits[Max(1, limit)].count == 1
  {
    var m := Max(1, limit);
    forall i | 0 <= i <= m ensures s.hits[i] == Hit(Key("ip", 0), if i < m then 0.0 else read, if i < m then i + 1 else 1) {
      assert s.hits[i] == s.hits[..m + 1][i] == s2.hits[i];
    }
  }

  // With any longer delay a request can find its counter expired, and restarts it.
  lemma {:induction false} LateRequestIsAcceptedAgain(window: int, limit: int, delay: real) returns (steps: seq<Step>, s: State)
    requires window >= 1 && delay > 2.0
    ensures Reaches(window, steps, s) && WithinDelay(steps, delay) && Overrun(window, limit, s) && !CountsAreOrdinals(s.hits)
  {
    var m := Max(1, limit);
    var at := (window + 2) as real;
    var read := LateRead(window, delay);
    var s0 := State(0.0, map[], {}, []);
    var first, s1 := Burst(window, delay, [], s0, Key("ip", 0), 0.0, 0.0, m);
    var late := SendIncr("ip", read, at);
    var s2 := Next(window, s1, late);
    assert s2.hits == s1.hits + [Hit(Key("ip", 0), read, 1)] && Key("ip", 1) !in s2.keys;
    DelayedPush(window, delay, first, s1, late);
    steps, s := Burst(window, delay, first + [late], s2, Key("ip", 1), window as real, at, m);
    BurstsOverrun(window, limit, s0, s1, s2, s, read);
    OverrunMiscounts(window, limit, s);
  }
}
