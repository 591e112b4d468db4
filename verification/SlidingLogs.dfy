// Two sliding-window limiters: core/utils/rate_limit.py logs every request, accepted or not;
// segyr_bot/gateway.py logs the accepted ones only.

module SlidingLogs {
  import opened Common

  ghost predicate Sorted(ts: seq<real>) {
    forall i, j :: 0 <= i <= j < |ts| ==> ts[i] <= ts[j]
  }

  // The entries not older than `cutoff`.
  function Recent(bucket: seq<real>, cutoff: real): seq<real> {
    if bucket == [] then []
    else
      var n := |bucket| - 1;
      var earlier := Recent(bucket[..n], cutoff);
      if bucket[n] >= cutoff then earlier + [bucket[n]] else earlier
  }

  lemma {:induction false} RecentOfEarly(bucket: seq<real>, cutoff: real)
    requires forall k :: 0 <= k < |bucket| ==> bucket[k] < cutoff
    ensures Recent(bucket, cutoff) == []
  {
    if bucket != [] {
      RecentOfEarly(bucket[..|bucket| - 1], cutoff);
    }
  }

  // A log of times up to `now`, in the order they were read.
  ghost predicate IsLogUpTo(ts: seq<real>, now: real) {
    Sorted(ts) && forall k :: 0 <= k < |ts| ==> ts[k] <= now
  }

  lemma LogPush(ts: seq<real>, now: real)
    requires IsLogUpTo(ts, now)
    ensures IsLogUpTo(ts + [now], now)
  {}

  lemma {:induction false} RecentIsLog(bucket: seq<real>, cutoff: real, now: real)
    requires IsLogUpTo(bucket, now)
    ensures IsLogUpTo(Recent(bucket, cutoff), now)
  {
    if bucket != [] {
      var n := |bucket| - 1;
      RecentIsLog(bucket[..n], cutoff, bucket[n]);
      LogPush(Recent(bucket[..n], cutoff), bucket[n]);
    }
  }

  // In a sorted log the early entries are a prefix.
  lemma {:induction false} RecentIsSuffix(all: seq<real>, cutoff: real, n: nat)
    requires Sorted(all) && n <= |all|
    requires forall k :: 0 <= k < n ==> all[k] < cutoff
    requires n < |all| ==> all[n] >= cutoff
    ensures Recent(all, cutoff) == all[n..]
  {
    if n == |all| {
      RecentOfEarly(all, cutoff);
    } else {
      var m := |all| - 1;
      assert all[n] <= all[m];
      RecentIsSuffix(all[..m], cutoff, n);
      assert all[n..] == all[..m][n..] + [all[m]];
    }
  }

  // ---- core/utils/rate_limit.py, local bucket path ----

  class RateLimiter {
    const maxRequests: int
    const windowSeconds: int
    var buckets: map<string, seq<real>>

    constructor (maxRequests: int, windowSeconds: int)
      ensures this.maxRequests == maxRequests && this.windowSeconds == windowSeconds && buckets == map[]
    {
      this.maxRequests, this.windowSeconds := maxRequests, windowSeconds;
      buckets := map[];
    }

    function Bucket(identity: string): seq<real>
      reads this
    {
      if identity in buckets then buckets[identity] else []
    }

    method Allow(identity: string, now: real) returns (ok: bool)
      modifies this
      ensures buckets == old(buckets)[identity := Recent(old(Bucket(identity)), now - windowSeconds as real) + [now]]
      ensures ok == (|Bucket(identity)| <= maxRequests)
    {
      var windowStart := now - windowSeconds as real;
      var old_ := Bucket(identity);
      var bucket := [];
      for k := 0 to |old_|
        invariant bucket == Recent(old_[..k], windowStart)
      {
        assert old_[..k + 1][..k] == old_[..k];
        if old_[k] >= windowStart {
          bucket := bucket + [old_[k]];
        }
      }
      assert old_[..|old_|] == old_;
      bucket := bucket + [now];
      buckets := buckets[identity := bucket];
      ok := |bucket| <= maxRequests;
    }
  }

  // ---- segyr_bot/gateway.py ----

  class Gateway {
    const maxPerIp: nat      // 0: unlimited
    const maxPerMinute: nat  // 0: unlimited
    var recent: map<string, seq<real>>
    var connections: map<string, nat>
    var rejected: map<string, nat>
    var rejectedTotal: nat

    constructor (maxPerIp: nat, maxPerMinute: nat)
      ensures this.maxPerIp == maxPerIp && this.maxPerMinute == maxPerMinute
      ensures recent == map[] && connections == map[] && rejected == map[] && rejectedTotal == 0
    {
      this.maxPerIp, this.maxPerMinute := maxPerIp, maxPerMinute;
      recent, connections, rejected, rejectedTotal := map[], map[], map[], 0;
    }

    function Log(ip: string): seq<real>
      reads this
    {
      if ip in recent then recent[ip] else []
    }

    function Open(ip: string): nat
      reads this
    {
      if ip in connections then connections[ip] else 0
    }

    function Rejections(ip: string): nat
      reads this
    {
      if ip in rejected then rejected[ip] else 0
    }

    // Popping from the front is the same as filtering, because the log stays sorted.
    method PruneRecent(ip: string, now: real)
      requires Sorted(Log(ip))
      modifies this`recent
      ensures recent == old(recent)[ip := Recent(old(Log(ip)), now - 60.0)]
    {
      var all := Log(ip);
      var bucket := all;
      var cutoff := now - 60.0;
      ghost var popped := 0;
      while bucket != [] && bucket[0] < cutoff
        invariant popped <= |all| && bucket == all[popped..]
        invariant forall k :: 0 <= k < popped ==> all[k] < cutoff
        decreases |bucket|
      {
        bucket := bucket[1..];
        popped := popped + 1;
      }
      RecentIsSuffix(all, cutoff, popped);
      recent := recent[ip := bucket];
    }

    method Reject(ip: string)
      modifies `rejected, `rejectedTotal
      ensures rejected == old(rejected)[ip := old(Rejections(ip)) + 1] && rejectedTotal == old(rejectedTotal) + 1
    {
      rejected := rejected[ip := Rejections(ip) + 1];
      rejectedTotal := rejectedTotal + 1;
    }

    // An accepted connection is logged and counted; a rejected one is only counted as rejected.
    method AllowIp(ip: string, now: real) returns (ok: bool)
      requires IsLogUpTo(Log(ip), now)
      modifies this
      ensures ok == ((maxPerMinute == 0 || |Recent(old(Log(ip)), now - 60.0)| < maxPerMinute) && (maxPerIp == 0 || old(Open(ip)) < maxPerIp))
      ensures IsLogUpTo(Log(ip), now)
      ensures var kept := Recent(old(Log(ip)), now - 60.0);
        recent == old(recent)[ip := if ok then kept + [now] else kept]
      ensures ok ==> connections == old(connections)[ip := old(Open(ip)) + 1]
      ensures ok ==> rejected == old(rejected) && rejectedTotal == old(rejectedTotal)
      ensures !ok ==> connections == old(connections)
      ensures !ok ==> rejected == old(rejected)[ip := old(Rejections(ip)) + 1] && rejectedTotal == old(rejectedTotal) + 1
    {
      RecentIsLog(Log(ip), now - 60.0, now);
      PruneRecent(ip, now);
      if maxPerMinute != 0 && |recent[ip]| >= maxPerMinute {
        Reject(ip);
        return false;
      }
      if maxPerIp != 0 && Open(ip) >= maxPerIp {
        Reject(ip);
        return false;
      }
      LogPush(recent[ip], now);
      recent := recent[ip := recent[ip] + [now]];
      connections := connections[ip := Open(ip) + 1];
      return true;
    }
  }

  // ---- Request streams of one identity ----

  // A request, and whether the gateway has a free connection slot for it.
  datatype Request = Request(time: real, slotFree: bool)

  ghost predicate Chronological(rs: seq<Request>) {
    forall i, j :: 0 <= i <= j < |rs| ==> rs[i].time <= rs[j].time
  }

  // The bucket of the limiter that logs everything, after the first n requests.
  function FullLog(rs: seq<Request>, window: real, n: nat): seq<real>
    requires n <= |rs|
  {
    if n == 0 then []
    else Recent(FullLog(rs, window, n - 1), rs[n - 1].time - window) + [rs[n - 1].time]
  }

  predicate FullAccepts(rs: seq<Request>, window: real, max: int, i: nat)
    requires i < |rs|
  {
    |FullLog(rs, window, i + 1)| <= max
  }

  // The log of the limiter that records acceptances only.
  function AcceptLog(rs: seq<Request>, window: real, max: nat, n: nat): seq<real>
    requires n <= |rs|
    decreases n, 0
  {
    if n == 0 then []
    else
      var kept := Recent(AcceptLog(rs, window, max, n - 1), rs[n - 1].time - window);
      if LogAccepts(rs, window, max, n - 1) then kept + [rs[n - 1].time] else kept
  }

  predicate LogAccepts(rs: seq<Request>, window: real, max: nat, i: nat)
    requires i < |rs|
    decreases i, 1
  {
    (max == 0 || |Recent(AcceptLog(rs, window, max, i), rs[i].time - window)| < max) && rs[i].slotFree
  }

  // Requests among the first n that are not older than `cutoff` and that `counts` selects.
  function CountSince(rs: seq<Request>, counts: nat -> bool, cutoff: real, n: nat): nat
    requires n <= |rs|
  {
    if n == 0 then 0
    else CountSince(rs, counts, cutoff, n - 1) + (if counts(n - 1) && rs[n - 1].time >= cutoff then 1 else 0)
  }

  const ALL: nat -> bool := i => true

  function AcceptedBy(rs: seq<Request>, window: real, max: nat): nat -> bool {
    (i: nat) => i < |rs| && LogAccepts(rs, window, max, i)
  }

  // Filtering by an earlier cutoff first changes nothing.
  lemma {:induction false} RecentTwice(bucket: seq<real>, early: real, late: real)
    requires early <= late
    ensures Recent(Recent(bucket, early), late) == Recent(bucket, late)
  {
    if bucket != [] {
      var n := |bucket| - 1;
      RecentTwice(bucket[..n], early, late);
      if bucket[n] >= early {
        RecentPush(Recent(bucket[..n], early), bucket[n], late);
      }
    }
  }

  lemma RecentPush(bucket: seq<real>, t: real, cutoff: real)
    ensures Recent(bucket + [t], cutoff) == if t >= cutoff then Recent(bucket, cutoff) + [t] else Recent(bucket, cutoff)
  {
    assert (bucket + [t])[..|bucket|] == bucket;
  }

  // However often the full log was pruned, its recent part is all recent requests.
  lemma {:induction false} FullLogCounts(rs: seq<Request>, window: real, n: nat, cutoff: real)
    requires Chronological(rs) && n <= |rs|
    requires n > 0 ==> cutoff >= rs[n - 1].time - window
    ensures |Recent(FullLog(rs, window, n), cutoff)| == CountSince(rs, ALL, cutoff, n)
  {
    if n > 0 {
      var now := rs[n - 1].time;
      var before := FullLog(rs, window, n - 1);
      if n > 1 { assert rs[n - 2].time <= now; }
      FullLogCounts(rs, window, n - 1, cutoff);
      RecentTwice(before, now - window, cutoff);
      RecentPush(Recent(before, now - window), now, cutoff);
    }
  }

  lemma {:induction false} AcceptLogCounts(rs: seq<Request>, window: real, max: nat, n: nat, cutoff: real)
    requires Chronological(rs) && n <= |rs|
    requires n > 0 ==> cutoff >= rs[n - 1].time - window
    ensures |Recent(AcceptLog(rs, window, max, n), cutoff)| == CountSince(rs, AcceptedBy(rs, window, max), cutoff, n)
  {
    if n > 0 {
      var now := rs[n - 1].time;
      var before := AcceptLog(rs, window, max, n - 1);
      var kept := Recent(before, now - window);
      if n > 1 { assert rs[n - 2].time <= now; }
      AcceptLogCounts(rs, window, max, n - 1, cutoff);
      RecentTwice(before, now - window, cutoff);
      RecentPush(kept, now, cutoff);
      assert AcceptedBy(rs, window, max)(n - 1) == LogAccepts(rs, window, max, n - 1);
    }
  }

  // Exactly: a request is accepted iff at most `max` requests, itself and rejected ones included,
  // fall into the closed window that ends with it.
  lemma FullAcceptsIff(rs: seq<Request>, window: real, max: int, i: nat)
    requires Chronological(rs) && window >= 0.0 && i < |rs|
    ensures FullAccepts(rs, window, max, i) <==> CountSince(rs, ALL, rs[i].time - window, i + 1) <= max
  {
    var now := rs[i].time;
    if i > 0 { assert rs[i - 1].time <= now; }
    FullLogCounts(rs, window, i, now - window);
  }

  // Exactly: a request is accepted iff a slot is free and fewer than `max` accepted requests fall
  // into the closed window that ends with it.
  lemma LogAcceptsIff(rs: seq<Request>, window: real, max: nat, i: nat)
    requires Chronological(rs) && i < |rs|
    ensures LogAccepts(rs, window, max, i)
       <==> rs[i].slotFree && (max == 0 || CountSince(rs, AcceptedBy(rs, window, max), rs[i].time - window, i) < max)
  {
    if i > 0 { assert rs[i - 1].time <= rs[i].time; }
    AcceptLogCounts(rs, window, max, i, rs[i].time - window);
  }

  // ---- Window bounds ----

  // Strictly increasing indices of requests that `counts` selects, none older than `cutoff`.
  ghost predicate Selection(rs: seq<Request>, counts: nat -> bool, cutoff: real, idx: seq<nat>, n: nat)
    requires n <= |rs|
  {
    && (forall a, b :: 0 <= a < b < |idx| ==> idx[a] < idx[b])
    && (forall a :: 0 <= a < |idx| ==> idx[a] < n && counts(idx[a]) && rs[idx[a]].time >= cutoff)
  }

  lemma {:induction false} SelectionFits(rs: seq<Request>, counts: nat -> bool, cutoff: real, idx: seq<nat>, n: nat)
    requires n <= |rs| && Selection(rs, counts, cutoff, idx, n)
    ensures |idx| <= CountSince(rs, counts, cutoff, n)
  {
    if idx == [] {
    } else if idx[|idx| - 1] == n - 1 {
      SelectionFits(rs, counts, cutoff, idx[..|idx| - 1], n - 1);
    } else {
      forall a | 0 <= a < |idx| ensures idx[a] < n - 1 {
        if a < |idx| - 1 { assert idx[a] < idx[|idx| - 1]; }
      }
      SelectionFits(rs, counts, cutoff, idx, n - 1);
    }
  }

  lemma {:induction false} CountMonotone(rs: seq<Request>, few: nat -> bool, many: nat -> bool, cutoff: real, n: nat)
    requires n <= |rs| && forall i: nat :: i < n && few(i) ==> many(i)
    ensures CountSince(rs, few, cutoff, n) <= CountSince(rs, many, cutoff, n)
  {
    if n > 0 {
      CountMonotone(rs, few, many, cutoff, n - 1);
    }
  }

  // Any k requests the full log accepts within a closed window satisfy k <= max.
  lemma FullWindowBound(rs: seq<Request>, window: real, max: int, idx: seq<nat>)
    requires Chronological(rs) && window >= 0.0 && idx != []
    requires forall a, b :: 0 <= a < b < |idx| ==> idx[a] < idx[b]
    requires forall a :: 0 <= a < |idx| ==> idx[a] < |rs| && FullAccepts(rs, window, max, idx[a])
    requires rs[idx[|idx| - 1]].time - rs[idx[0]].time <= window
    ensures |idx| <= max
  {
    var last := idx[|idx| - 1];
    var cutoff := rs[last].time - window;
    forall a | 0 <= a < |idx| ensures idx[a] < last + 1 && rs[idx[a]].time >= cutoff {
      assert rs[idx[0]].time <= rs[idx[a]].time;
    }
    SelectionFits(rs, ALL, cutoff, idx, last + 1);
    FullAcceptsIff(rs, window, max, last);
  }

  // The same for the log of acceptances, unless it is switched off by max == 0.
  lemma LogWindowBound(rs: seq<Request>, window: real, max: nat, idx: seq<nat>)
    requires Chronological(rs) && window >= 0.0 && max > 0 && idx != []
    requires forall a, b :: 0 <= a < b < |idx| ==> idx[a] < idx[b]
    requires forall a :: 0 <= a < |idx| ==> idx[a] < |rs| && LogAccepts(rs, window, max, idx[a])
    requires rs[idx[|idx| - 1]].time - rs[idx[0]].time <= window
    ensures |idx| <= max
  {
    var last := idx[|idx| - 1];
    var cutoff := rs[last].time - window;
    var front := idx[..|idx| - 1];
    forall a | 0 <= a < |front| ensures front[a] < last && rs[front[a]].time >= cutoff && AcceptedBy(rs, window, max)(front[a]) {
      assert rs[idx[0]].time <= rs[idx[a]].time;
      assert idx[a] < idx[|idx| - 1];
    }
    SelectionFits(rs, AcceptedBy(rs, window, max), cutoff, front, last);
    LogAcceptsIff(rs, window, max, last);
  }

  // With the same window and limit, and a slot free, everything the full log accepts is accepted
  // by the log of acceptances too.
  lemma FullRefinesLog(rs: seq<Request>, window: real, max: nat, i: nat)
    requires Chronological(rs) && window >= 0.0 && i < |rs|
    requires FullAccepts(rs, window, max, i) && rs[i].slotFree
    ensures LogAccepts(rs, window, max, i)
  {
    var cutoff := rs[i].time - window;
    FullAcceptsIff(rs, window, max, i);
    LogAcceptsIff(rs, window, max, i);
    CountMonotone(rs, AcceptedBy(rs, window, max), ALL, cutoff, i);
  }

  // The converse fails: a rejected request still occupies the full log.
  lemma LogDoesNotRefineFull()
    ensures var rs := [Request(0.0, true), Request(5.0, true), Request(11.0, true)];
      LogAccepts(rs, 10.0, 1, 2) && !FullAccepts(rs, 10.0, 1, 2)
  {
    var rs := [Request(0.0, true), Request(5.0, true), Request(11.0, true)];
    FullAcceptsIff(rs, 10.0, 1, 2);
    LogAcceptsIff(rs, 10.0, 1, 0);
    LogAcceptsIff(rs, 10.0, 1, 1);
    LogAcceptsIff(rs, 10.0, 1, 2);
    var acc := AcceptedBy(rs, 10.0, 1);
    assert CountSince(rs, ALL, 1.0, 0) == 0;
    assert CountSince(rs, ALL, 1.0, 1) == 0;
    assert CountSince(rs, ALL, 1.0, 2) == 1;
    assert CountSince(rs, acc, -5.0, 0) == 0;
    assert acc(0) && CountSince(rs, acc, -5.0, 1) == 1;
    assert !acc(1);
    assert CountSince(rs, acc, 1.0, 0) == 0;
    assert CountSince(rs, acc, 1.0, 1) == 0;
    assert CountSince(rs, acc, 1.0, 2) == 0;
  }

  // ---- When the two agree ----

  // Fewer than `max` earlier requests, accepted or not, lie in the window that ends with request i.
  predicate Calm(rs: seq<Request>, window: real, max: nat, i: nat)
    requires i < |rs|
  {
    CountSince(rs, ALL, rs[i].time - window, i) < max
  }

  function CalmOnes(rs: seq<Request>, window: real, max: nat): nat -> bool {
    (i: nat) => i < |rs| && Calm(rs, window, max, i)
  }

  // A calm request has a free slot; one that is not calm has none, or sees `max` calm ones in its
  // window. This speaks of times and slots only.
  predicate Agreeable(rs: seq<Request>, window: real, max: nat, i: nat)
    requires i < |rs|
  {
    if Calm(rs, window, max, i) then rs[i].slotFree
    else rs[i].slotFree ==> max > 0 && CountSince(rs, CalmOnes(rs, window, max), rs[i].time - window, i) >= max
  }

  predicate AgreeAt(rs: seq<Request>, window: real, max: nat, i: nat)
    requires i < |rs|
  {
    FullAccepts(rs, window, max, i) <==> LogAccepts(rs, window, max, i)
  }

  lemma FullAcceptsCalm(rs: seq<Request>, window: real, max: nat, i: nat)
    requires Chronological(rs) && window >= 0.0 && i < |rs|
    ensures FullAccepts(rs, window, max, i) <==> Calm(rs, window, max, i)
  {
    FullAcceptsIff(rs, window, max, i);
  }

  // If the limiters agreed so far, the accepted requests are the calm ones.
  lemma {:induction false} AcceptedAreCalm(rs: seq<Request>, window: real, max: nat, i: nat, cutoff: real)
    requires Chronological(rs) && window >= 0.0 && i <= |rs|
    requires forall j: nat :: j < i ==> AgreeAt(rs, window, max, j)
    ensures CountSince(rs, AcceptedBy(rs, window, max), cutoff, i) == CountSince(rs, CalmOnes(rs, window, max), cutoff, i)
  {
    var calm, accepted := CalmOnes(rs, window, max), AcceptedBy(rs, window, max);
    forall j: nat | j < i ensures calm(j) <==> accepted(j) {
      assert AgreeAt(rs, window, max, j);
      FullAcceptsCalm(rs, window, max, j);
    }
    CountMonotone(rs, calm, accepted, cutoff, i);
    CountMonotone(rs, accepted, calm, cutoff, i);
  }

  // Then the next request decides by itself.
  lemma {:induction false} NextAgreesIff(rs: seq<Request>, window: real, max: nat, i: nat)
    requires Chronological(rs) && window >= 0.0 && i < |rs|
    requires forall j: nat :: j < i ==> AgreeAt(rs, window, max, j)
    ensures AgreeAt(rs, window, max, i) <==> Agreeable(rs, window, max, i)
  {
    var cutoff := rs[i].time - window;
    AcceptedAreCalm(rs, window, max, i, cutoff);
    CountMonotone(rs, AcceptedBy(rs, window, max), ALL, cutoff, i);
    FullAcceptsCalm(rs, window, max, i);
    LogAcceptsIff(rs, window, max, i);
  }

  lemma {:induction false} AgreeableAgree(rs: seq<Request>, window: real, max: nat, n: nat)
    requires Chronological(rs) && window >= 0.0 && n <= |rs|
    requires forall i: nat :: i < n ==> Agreeable(rs, window, max, i)
    ensures forall i: nat :: i < n ==> AgreeAt(rs, window, max, i)
  {
    if n > 0 {
      AgreeableAgree(rs, window, max, n - 1);
      NextAgreesIff(rs, window, max, n - 1);
    }
  }

  // With the same window and limit, the two limiters accept the same requests of a stream if and
  // only if every request of it is agreeable.
  lemma {:induction false} LimitersAgreeIff(rs: seq<Request>, window: real, max: nat)
    requires Chronological(rs) && window >= 0.0
    ensures (forall i: nat :: i < |rs| ==> AgreeAt(rs, window, max, i)) <==> forall i: nat :: i < |rs| ==> Agreeable(rs, window, max, i)
  {
    if forall i: nat :: i < |rs| ==> AgreeAt(rs, window, max, i) {
      forall i: nat | i < |rs| ensures Agreeable(rs, window, max, i) {
        NextAgreesIff(rs, window, max, i);
      }
    } else {
      if forall i: nat :: i < |rs| ==> Agreeable(rs, window, max, i) {
        AgreeableAgree(rs, window, max, |rs|);
      }
    }
  }

  // ---- The limiters on a whole stream of one identity ----

  method ServeNext(limiter: RateLimiter, identity: string, rs: seq<Request>, i: nat) returns (ok: bool)
    requires i < |rs| && limiter.Bucket(identity) == FullLog(rs, limiter.windowSeconds as real, i)
    modifies limiter
    ensures limiter.Bucket(identity) == FullLog(rs, limiter.windowSeconds as real, i + 1)
    ensures ok == FullAccepts(rs, limiter.windowSeconds as real, limiter.maxRequests, i)
  {
    ok := limiter.Allow(identity, rs[i].time);
  }

  // A new limiter decides every request of a stream as `FullAccepts` says.
  method ServeAll(limiter: RateLimiter, identity: string, rs: seq<Request>) returns (accepted: seq<bool>)
    requires identity !in limiter.buckets
    modifies limiter
    ensures |accepted| == |rs|
    ensures forall i: nat :: i < |rs| ==> accepted[i] == FullAccepts(rs, limiter.windowSeconds as real, limiter.maxRequests, i)
  {
    accepted := [];
    for i := 0 to |rs|
      invariant |accepted| == i
      invariant limiter.Bucket(identity) == FullLog(rs, limiter.windowSeconds as real, i)
      invariant forall j: nat :: j < i ==> accepted[j] == FullAccepts(rs, limiter.windowSeconds as real, limiter.maxRequests, j)
    {
      var ok := ServeNext(limiter, identity, rs, i);
      accepted := accepted + [ok];
    }
  }

  // The requests as the gateway meets them: `open[i]` connections of the address are open when
  // request i comes.
  function Met(g: Gateway, times: seq<real>, open: seq<nat>): (rs: seq<Request>)
    requires |times| == |open|
    ensures |rs| == |times| && forall i :: 0 <= i < |rs| ==> rs[i] == Request(times[i], g.maxPerIp == 0 || open[i] < g.maxPerIp)
  {
    seq(|times|, i requires 0 <= i < |times| => Request(times[i], g.maxPerIp == 0 || open[i] < g.maxPerIp))
  }

  method ServeNextConnection(g: Gateway, ip: string, ghost rs: seq<Request>, ghost i: nat, time: real, open: nat) returns (ok: bool)
    requires i < |rs| && g.Log(ip) == AcceptLog(rs, 60.0, g.maxPerMinute, i) && IsLogUpTo(g.Log(ip), time)
    requires rs[i] == Request(time, g.maxPerIp == 0 || open < g.maxPerIp)
    modifies g
    ensures g.Log(ip) == AcceptLog(rs, 60.0, g.maxPerMinute, i + 1) && IsLogUpTo(g.Log(ip), time)
    ensures ok == LogAccepts(rs, 60.0, g.maxPerMinute, i)
  {
    g.connections := g.connections[ip := open];
    ok := g.AllowIp(ip, time);
  }

  // A new gateway decides every request of a stream as `LogAccepts` says. In between, connections
  // close as they like.
  method ServeAllConnections(g: Gateway, ip: string, times: seq<real>, open: seq<nat>) returns (accepted: seq<bool>)
    requires ip !in g.recent && |times| == |open| && forall i, j :: 0 <= i <= j < |times| ==> times[i] <= times[j]
    modifies g
    ensures |accepted| == |times|
    ensures forall i: nat :: i < |times| ==> accepted[i] == LogAccepts(Met(g, times, open), 60.0, g.maxPerMinute, i)
  {
    accepted := [];
    ghost var rs := Met(g, times, open);
    for i := 0 to |times|
      invariant |accepted| == i
      invariant g.Log(ip) == AcceptLog(rs, 60.0, g.maxPerMinute, i)
      invariant i < |times| ==> IsLogUpTo(g.Log(ip), times[i])
      invariant forall j: nat :: j < i ==> accepted[j] == LogAccepts(rs, 60.0, g.maxPerMinute, j)
    {
      var ok := ServeNextConnection(g, ip, rs, i, times[i], open[i]);
      accepted := accepted + [ok];
    }
  }
}
