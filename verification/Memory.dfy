// Archiving a conversation: the memory store and the token-driven consolidation policy of
// core/agent/memory.py.

module Memories {
  import opened Common
  import opened Sessions

  const MAX_FAILURES_BEFORE_RAW_ARCHIVE := 3
  const MAX_CONSOLIDATION_ROUNDS := 5

  // What the model sends back: an exception, no tool call, arguments without the two required
  // keys, or a proper save.
  datatype Body = Raised | NoToolCall | BadArguments | Save(entry: string, update: string)

  datatype Reply = Reply(isError: bool, body: Body)

  // A reply marked as an error is asked for once more.
  datatype Exchange = Exchange(first: Reply, second: Reply)

  function Answer(x: Exchange): Body {
    if x.first.body.Raised? then Raised else if x.first.isError then x.second.body else x.first.body
  }

  predicate Usable(x: Exchange) {
    Answer(x).Save? && Strip(Answer(x).entry) != ""
  }

  // A line of the history file: the model's summary, or the messages themselves.
  datatype HistoryEntry = Summary(text: string) | Raw(messages: seq<Message>)

  // What a successful try writes.
  function NewEntry(messages: seq<Message>, x: Exchange): HistoryEntry {
    if Usable(x) then Summary(Strip(Answer(x).entry)) else Raw(messages)
  }

  // Read off the two replies: the first is taken unless it is marked as an error, and then, if it did
  // not raise, the second.
  ghost predicate Saves(r: Reply) {
    r.body.Save? && !AllSpace(r.body.entry)
  }

  // What a try on a non-empty list does to the files when the reply `r` is a proper save: its entry,
  // without the whitespace around it, goes to the history and its update to the memory.
  ghost predicate Wrote(r: Reply, history: seq<HistoryEntry>, history': seq<HistoryEntry>, longTerm': string)
    requires Saves(r)
  {
    exists t :: IsStripped(r.body.entry, t) && history' == history + [Summary(t)] && longTerm' == r.body.update
  }

  // And without one: the memory stays, and at most the messages themselves go to the history.
  ghost predicate WroteRawAtMost(messages: seq<Message>, history: seq<HistoryEntry>, history': seq<HistoryEntry>, longTerm: string, longTerm': string) {
    longTerm' == longTerm && (history' == history || history' == history + [Raw(messages)])
  }

  // The failure counter and the verdict after one try on a non-empty list.
  function AfterTry(failures: nat, usable: bool): (nat, bool) {
    if usable then (0, true)
    else if failures + 1 < MAX_FAILURES_BEFORE_RAW_ARCHIVE then (failures + 1, false)
    else (0, true)
  }

  class MemoryStore {
    var consecutiveFailures: nat
    var history: seq<HistoryEntry>
    var longTerm: string
    ghost var archived: seq<seq<Message>> // the chunk behind every history entry

    ghost predicate Valid()
      reads this
    {
      && consecutiveFailures < MAX_FAILURES_BEFORE_RAW_ARCHIVE
      && |archived| == |history|
      && forall k :: 0 <= k < |history| && history[k].Raw? ==> history[k].messages == archived[k]
    }

    constructor (longTerm: string)
      ensures Valid() && archived == [] && this.longTerm == longTerm
    {
      consecutiveFailures, history, this.longTerm := 0, [], longTerm;
      archived := [];
    }

    method FailOrRawArchive(messages: seq<Message>) returns (ok: bool)
      requires Valid()
      modifies this
      ensures Valid() && longTerm == old(longTerm)
      ensures (consecutiveFailures, ok) == AfterTry(old(consecutiveFailures), false)
      ensures ok ==> history == old(history) + [Raw(messages)] && archived == old(archived) + [messages]
      ensures !ok ==> history == old(history) && archived == old(archived)
    {
      if consecutiveFailures + 1 < MAX_FAILURES_BEFORE_RAW_ARCHIVE {
        consecutiveFailures := consecutiveFailures + 1;
        return false;
      }
      history := history + [Raw(messages)];
      archived := archived + [messages];
      consecutiveFailures := 0;
      return true;
    }

    // True means that the list is in the history, exactly once more than before; an empty list
    // needs no entry.
    method Consolidate(messages: seq<Message>, x: Exchange) returns (ok: bool)
      requires Valid()
      modifies this
      ensures Valid()
      ensures messages == [] ==> ok && consecutiveFailures == old(consecutiveFailures)
      ensures messages != [] ==> (consecutiveFailures, ok) == AfterTry(old(consecutiveFailures), Usable(x))
      ensures archived == if ok && messages != [] then old(archived) + [messages] else old(archived)
      ensures history == if ok && messages != [] then old(history) + [NewEntry(messages, x)] else old(history)
      ensures longTerm == if messages != [] && Usable(x) then Answer(x).update else old(longTerm)
      ensures messages != [] && !x.first.isError && Saves(x.first) ==> ok && Wrote(x.first, old(history), history, longTerm)
      ensures messages != [] && x.first.isError && !x.first.body.Raised? && Saves(x.second) ==> ok && Wrote(x.second, old(history), history, longTerm)
      ensures messages == [] || (if x.first.isError then x.first.body.Raised? || !Saves(x.second) else !Saves(x.first)) ==>
        WroteRawAtMost(messages, old(history), history, old(longTerm), longTerm)
    {
      if messages == [] {
        return true;
      }
      var body := x.first.body;
      if !body.Raised? && x.first.isError {
        body := x.second.body;
      }
      if !body.Save? {
        ok := FailOrRawArchive(messages);
        return;
      }
      var entry := Strip(body.entry);
      StripEmptyIffBlank(body.entry);
      if entry == "" {
        ok := FailOrRawArchive(messages);
        return;
      }
      StripMeaning(body.entry);
      history := history + [Summary(entry)];
      archived := archived + [messages];
      if body.update != longTerm {
        longTerm := body.update;
      }
      consecutiveFailures := 0;
      return true;
    }

    // Uninterrupted, three tries always archive the list, once.
    method ArchiveMessages(messages: seq<Message>, exchange: nat -> Exchange) returns (ok: bool)
      requires Valid()
      modifies this
      ensures Valid() && ok
      ensures archived == if messages == [] then old(archived) else old(archived) + [messages]
    {
      if messages == [] {
        return true;
      }
      for i := 0 to MAX_FAILURES_BEFORE_RAW_ARCHIVE
        invariant Valid() && archived == old(archived)
        invariant consecutiveFailures == old(consecutiveFailures) + i
      {
        var done := Consolidate(messages, exchange(i));
        if done {
          return true;
        }
      }
      return true;
    }
  }

  // ---- The failure counter over a whole run ----

  // The counter before the k-th try of a run that starts at `failures`.
  function CounterAt(failures: nat, usable: seq<bool>, k: nat): nat
    requires k <= |usable|
  {
    if k == 0 then failures else AfterTry(CounterAt(failures, usable, k - 1), usable[k - 1]).0
  }

  predicate Accepted(failures: nat, usable: seq<bool>, k: nat)
    requires k < |usable|
  {
    AfterTry(CounterAt(failures, usable, k), usable[k]).1
  }

  lemma {:induction false} CounterBelowLimit(failures: nat, usable: seq<bool>, k: nat)
    requires failures < MAX_FAILURES_BEFORE_RAW_ARCHIVE && k <= |usable|
    ensures CounterAt(failures, usable, k) < MAX_FAILURES_BEFORE_RAW_ARCHIVE
  {
    if k > 0 {
      CounterBelowLimit(failures, usable, k - 1);
    }
  }

  // Later tries do not matter to earlier ones.
  lemma {:induction false} CounterPrefix(failures: nat, usable: seq<bool>, later: bool, k: nat)
    requires k <= |usable|
    ensures CounterAt(failures, usable + [later], k) == CounterAt(failures, usable, k)
    ensures k < |usable| ==> (Accepted(failures, usable + [later], k) <==> Accepted(failures, usable, k))
  {
    if k > 0 {
      CounterPrefix(failures, usable, later, k - 1);
    }
  }

  // Whatever the model answers, no three tries in a row are refused.
  lemma {:induction false} NeverThreeRefusals(failures: nat, usable: seq<bool>, k: nat)
    requires failures < MAX_FAILURES_BEFORE_RAW_ARCHIVE && k + 3 <= |usable|
    ensures Accepted(failures, usable, k) || Accepted(failures, usable, k + 1) || Accepted(failures, usable, k + 2)
  {
    CounterBelowLimit(failures, usable, k);
  }

  // As long as every try is refused, the counter goes up by one with each.
  lemma {:induction false} RefusalsAddUp(failures: nat, usable: seq<bool>, lo: nat, hi: nat)
    requires lo <= hi <= |usable| && forall t: nat :: lo <= t < hi ==> !Accepted(failures, usable, t)
    ensures CounterAt(failures, usable, hi) == CounterAt(failures, usable, lo) + (hi - lo)
    decreases hi
  {
    if lo < hi {
      RefusalsAddUp(failures, usable, lo, hi - 1);
      assert !Accepted(failures, usable, hi - 1);
    }
  }

  // Some try strictly between two others, not counting `except`, was accepted.
  ghost predicate AcceptedBetween(failures: nat, usable: seq<bool>, lo: nat, hi: nat, except: nat)
    requires hi <= |usable|
  {
    exists t: nat :: lo < t < hi && t != except && Accepted(failures, usable, t)
  }

  // A list whose three tries are all refused was overtaken: between them another list was accepted.
  lemma {:induction false} RefusedMeansOvertaken(failures: nat, usable: seq<bool>, i: nat, j: nat, k: nat)
    requires i < j < k < |usable|
    requires !Accepted(failures, usable, i) && !Accepted(failures, usable, j) && !Accepted(failures, usable, k)
    ensures AcceptedBetween(failures, usable, i, k, j)
  {
    if !AcceptedBetween(failures, usable, i, k, j) {
      forall t: nat | i <= t < k ensures !Accepted(failures, usable, t) {}
      RefusalsAddUp(failures, usable, i, k);
      assert false;
    }
  }

  // Tries number i, j and k archive their list whatever the model answers in any try of anybody.
  ghost predicate AlwaysSuffice(i: nat, j: nat, k: nat)
    requires i < j < k
  {
    forall failures: nat, usable: seq<bool> | failures < MAX_FAILURES_BEFORE_RAW_ARCHIVE && k < |usable| ::
      Accepted(failures, usable, i) || Accepted(failures, usable, j) || Accepted(failures, usable, k)
  }

  // The answers are usable in every try but those of one list.
  function AllButOwn(i: nat, j: nat, k: nat): (usable: seq<bool>)
    ensures |usable| == k + 1 && forall t :: 0 <= t <= k ==> usable[t] == (t != i && t != j && t != k)
  {
    seq(k + 1, t requires 0 <= t => t != i && t != j && t != k)
  }

  lemma AfterUsable(failures: nat, usable: seq<bool>, t: nat)
    requires t <= |usable| && (t > 0 ==> usable[t - 1])
    ensures CounterAt(failures, usable, t) == if t == 0 then failures else 0
  {}

  // Two lists archived concurrently share the counter. Exactly which schedules keep the promise of
  // three tries: those in which no try of another list comes in between.
  lemma {:induction false} ThreeTriesSufficeIff(i: nat, j: nat, k: nat)
    requires i < j < k
    ensures AlwaysSuffice(i, j, k) <==> j == i + 1 && k == j + 1
  {
    if j == i + 1 && k == j + 1 {
      forall failures: nat, usable: seq<bool> | failures < MAX_FAILURES_BEFORE_RAW_ARCHIVE && k < |usable|
        ensures Accepted(failures, usable, i) || Accepted(failures, usable, j) || Accepted(failures, usable, k)
      {
        NeverThreeRefusals(failures, usable, i);
      }
    } else {
      OvertakenCanLose(i, j, k);
    }
  }

  lemma {:induction false} OvertakenCanLose(i: nat, j: nat, k: nat)
    requires i < j < k && (j > i + 1 || k > j + 1)
    ensures var usable := AllButOwn(i, j, k);
      !Accepted(0, usable, i) && !Accepted(0, usable, j) && !Accepted(0, usable, k)
  {
    var usable := AllButOwn(i, j, k);
    AfterUsable(0, usable, i);
    assert CounterAt(0, usable, i + 1) == 1;
    if j > i + 1 { AfterUsable(0, usable, j); }
    assert CounterAt(0, usable, j) <= 1;
    assert CounterAt(0, usable, j + 1) == CounterAt(0, usable, j) + 1;
    if k > j + 1 { AfterUsable(0, usable, k); }
  }

  // For instance tries 0, 1 and 3 of one list, with try 2 of another.
  lemma {:induction false} InterleavedArchivingCanLose()
    ensures var usable := [false, false, true, false];
      !Accepted(0, usable, 0) && !Accepted(0, usable, 1) && Accepted(0, usable, 2) && !Accepted(0, usable, 3)
  {
    var usable := AllButOwn(0, 1, 3);
    OvertakenCanLose(0, 1, 3);
    assert usable == [false, false, true, false];
  }

  // ---- Choosing where to cut ----

  // Tokens freed by archiving ms[lo..hi].
  function Freed(est: Message -> nat, ms: seq<Message>, lo: nat, hi: nat): nat
    requires lo <= hi <= |ms|
  {
    if lo == hi then 0 else Freed(est, ms, lo, hi - 1) + est(ms[hi - 1])
  }

  predicate IsCut(ms: seq<Message>, start: nat, k: int) {
    start < k < |ms| && IsUser(ms[k])
  }

  // The shortest user-aligned prefix that frees enough, or else the longest user-aligned prefix.
  ghost predicate IsBoundary(est: Message -> nat, ms: seq<Message>, start: nat, tokens: int, end: int) {
    && IsCut(ms, start, end)
    && (forall k :: IsCut(ms, start, k) && k < end ==> Freed(est, ms, start, k) < tokens)
    && (Freed(est, ms, start, end) >= tokens || forall k :: IsCut(ms, start, k) ==> k <= end)
  }

  method FindBoundary(est: Message -> nat, messages: seq<Message>, start: nat, tokens: int) returns (end: Option<nat>)
    ensures end.None? <==> forall k :: !IsCut(messages, start, k)
    ensures end.Some? ==> IsBoundary(est, messages, start, tokens, end.value)
  {
    end := None;
    var removed := 0;
    var idx := start;
    while idx < |messages|
      invariant start <= idx && (start <= |messages| ==> idx <= |messages|)
      invariant start <= |messages| ==> removed == Freed(est, messages, start, idx)
      invariant forall k :: IsCut(messages, start, k) && k < idx ==> Freed(est, messages, start, k) < tokens
      invariant end.None? ==> forall k :: IsCut(messages, start, k) ==> k >= idx
      invariant end.Some? ==> IsCut(messages, start, end.value) && end.value < idx
      invariant end.Some? ==> forall k :: IsCut(messages, start, k) && k < idx ==> k <= end.value
    {
      var message := messages[idx];
      if idx > start && IsUser(message) {
        assert IsCut(messages, start, idx);
        end := Some(idx);
        if removed >= tokens {
          break;
        }
      }
      removed := removed + est(message);
      idx := idx + 1;
    }
  }

  // At most one place meets the policy, so the policy determines the cut.
  lemma BoundaryIsUnique(est: Message -> nat, ms: seq<Message>, start: nat, tokens: int, a: int, b: int)
    requires IsBoundary(est, ms, start, tokens, a) && IsBoundary(est, ms, start, tokens, b)
    ensures a == b
  {}

  // ---- The consolidation rounds ----

  // Tokens round `i` has to free, given the estimate before it.
  function TokensToRemove(window: int, estimate: nat -> int, i: nat): int {
    var excess := estimate(i) - window / 2;
    if excess < 1 then 1 else excess
  }

  // The offset after rounds that moved it to `ends`, one after the other.
  function Offset(start: nat, ends: seq<nat>): nat {
    if ends == [] then start else ends[|ends| - 1]
  }

  // Every round starts above the target and cuts at the boundary of its own estimate.
  ghost predicate FollowsPolicy(est: Message -> nat, ms: seq<Message>, window: int, estimate: nat -> int, start: nat, ends: seq<nat>) {
    ends != [] ==>
      var n := |ends| - 1;
      && FollowsPolicy(est, ms, window, estimate, start, ends[..n])
      && estimate(n) > window / 2
      && IsBoundary(est, ms, Offset(start, ends[..n]), TokensToRemove(window, estimate, n), ends[n])
  }

  // ms[lo..hi], as tolerant of its bounds as the source language.
  function Slice(ms: seq<Message>, lo: nat, hi: nat): seq<Message> {
    if lo <= hi <= |ms| then ms[lo..hi] else []
  }

  // The chunks the rounds archive.
  function Chunks(ms: seq<Message>, start: nat, ends: seq<nat>): seq<seq<Message>> {
    if ends == [] then []
    else
      var front := ends[..|ends| - 1];
      Chunks(ms, start, front) + [Slice(ms, Offset(start, front), ends[|ends| - 1])]
  }

  // The round's try on its chunk fails: no usable answer, and no third failure in a row.
  predicate Refused(failures: nat, x: Exchange) {
    !AfterTry(failures, Usable(x)).1
  }

  // The failure counter before round n: a round that archives its chunk resets it.
  function FailuresBefore(failures: nat, n: nat): nat {
    if n == 0 then failures else 0
  }

  // Why there is no further round: five were made, the target is reached, there is no user message
  // to cut at, or the chunk was refused.
  ghost predicate NoFurtherRound(ms: seq<Message>, window: int, estimate: nat -> int, exchange: nat -> Exchange, failures: nat, start: nat, ends: seq<nat>) {
    var n := |ends|;
    || n == MAX_CONSOLIDATION_ROUNDS
    || estimate(n) <= window / 2
    || (forall k :: !IsCut(ms, Offset(start, ends), k))
    || Refused(FailuresBefore(failures, n), exchange(n))
  }

  // The rounds that moved the offset to `ends` have left it at `offset`, have archived `archived`
  // where it was `archived0`, and the counter is at `failures` where it was `failures0`.
  ghost predicate RoundsMade(est: Message -> nat, ms: seq<Message>, window: int, estimate: nat -> int, start: nat, ends: seq<nat>, offset: nat,
                             archived0: seq<seq<Message>>, archived: seq<seq<Message>>, failures0: nat, failures: nat) {
    && FollowsPolicy(est, ms, window, estimate, start, ends)
    && offset == Offset(start, ends)
    && archived == archived0 + Chunks(ms, start, ends)
    && failures == FailuresBefore(failures0, |ends|)
  }

  // Every round frees what the estimate exceeds half of the window by, or else everything up to the last
  // user message, and no earlier user message would have been enough.
  ghost predicate FreesExcess(est: Message -> nat, ms: seq<Message>, window: int, estimate: nat -> int, from: nat, end: nat, n: nat) {
    && from < end < |ms| && ms[end].role == User
    && (Freed(est, ms, from, end) >= estimate(n) - window / 2 || forall k :: end < k < |ms| ==> ms[k].role != User)
    && (forall k :: from < k < end && ms[k].role == User ==> Freed(est, ms, from, k) < estimate(n) - window / 2)
  }

  // The n-th round starts where the one before it ended.
  function StartOfRound(start: nat, ends: seq<nat>, n: nat): nat
    requires n <= |ends|
  {
    if n == 0 then start else ends[n - 1]
  }

  ghost predicate EveryRoundFrees(est: Message -> nat, ms: seq<Message>, window: int, estimate: nat -> int, start: nat, ends: seq<nat>) {
    forall n: nat :: n < |ends| ==> FreesExcess(est, ms, window, estimate, StartOfRound(start, ends, n), ends[n], n)
  }

  lemma LastRound(est: Message -> nat, ms: seq<Message>, window: int, estimate: nat -> int, start: nat, ends: seq<nat>)
    requires FollowsPolicy(est, ms, window, estimate, start, ends) && ends != []
    ensures var n := |ends| - 1;
      && FollowsPolicy(est, ms, window, estimate, start, ends[..n]) && estimate(n) > window / 2
      && IsBoundary(est, ms, StartOfRound(start, ends, n), TokensToRemove(window, estimate, n), ends[n])
  {
    assert Offset(start, ends[..|ends| - 1]) == StartOfRound(start, ends, |ends| - 1);
  }

  lemma {:induction false} RoundFrees(est: Message -> nat, ms: seq<Message>, window: int, estimate: nat -> int, start: nat, ends: seq<nat>, n: nat)
    requires FollowsPolicy(est, ms, window, estimate, start, ends) && n < |ends|
    ensures FreesExcess(est, ms, window, estimate, StartOfRound(start, ends, n), ends[n], n)
    decreases |ends|
  {
    var last := |ends| - 1;
    LastRound(est, ms, window, estimate, start, ends);
    if n == last {
      BoundaryFrees(est, ms, window, estimate, StartOfRound(start, ends, n), ends[n], n);
    } else {
      RoundFrees(est, ms, window, estimate, start, ends[..last], n);
      assert StartOfRound(start, ends[..last], n) == StartOfRound(start, ends, n) && ends[..last][n] == ends[n];
    }
  }

  lemma {:induction false} PolicyFrees(est: Message -> nat, ms: seq<Message>, window: int, estimate: nat -> int, start: nat, ends: seq<nat>)
    requires FollowsPolicy(est, ms, window, estimate, start, ends)
    ensures EveryRoundFrees(est, ms, window, estimate, start, ends)
  {
    forall n: nat | n < |ends| ensures FreesExcess(est, ms, window, estimate, StartOfRound(start, ends, n), ends[n], n) {
      RoundFrees(est, ms, window, estimate, start, ends, n);
    }
  }

  lemma BoundaryFrees(est: Message -> nat, ms: seq<Message>, window: int, estimate: nat -> int, from: nat, end: nat, n: nat)
    requires estimate(n) > window / 2 && IsBoundary(est, ms, from, TokensToRemove(window, estimate, n), end)
    ensures FreesExcess(est, ms, window, estimate, from, end, n)
  {
    forall k | from < k < |ms| ensures ms[k].role == User <==> IsCut(ms, from, k) {}
  }

  // Tokens add up, one estimate per message.
  lemma {:induction false} FreedAddsUp(est: Message -> nat, ms: seq<Message>, lo: nat, mid: nat, hi: nat)
    requires lo <= mid <= hi <= |ms|
    ensures Freed(est, ms, lo, hi) == Freed(est, ms, lo, mid) + Freed(est, ms, mid, hi)
    ensures lo < |ms| ==> Freed(est, ms, lo, lo + 1) == est(ms[lo])
  {
    if mid < hi {
      FreedAddsUp(est, ms, lo, mid, hi - 1);
    }
  }

  lemma RoundPushed(est: Message -> nat, ms: seq<Message>, window: int, estimate: nat -> int, start: nat, ends: seq<nat>, offset: nat,
                    archived0: seq<seq<Message>>, archived: seq<seq<Message>>, failures0: nat, failures: nat, end: nat)
    requires RoundsMade(est, ms, window, estimate, start, ends, offset, archived0, archived, failures0, failures)
    requires estimate(|ends|) > window / 2 && IsBoundary(est, ms, offset, TokensToRemove(window, estimate, |ends|), end)
    ensures RoundsMade(est, ms, window, estimate, start, ends + [end], end, archived0, archived + [Slice(ms, offset, end)], failures0, 0)
  {
    assert (ends + [end])[..|ends|] == ends;
    assert archived + [Slice(ms, offset, end)] == archived0 + (Chunks(ms, start, ends) + [Slice(ms, offset, end)]);
  }

  // Policy-conforming rounds move the offset forward, stay inside the list, and archive exactly the
  // messages the offset moved over.
  lemma {:induction false} ChunksJoin(est: Message -> nat, ms: seq<Message>, window: int, estimate: nat -> int, start: nat, ends: seq<nat>)
    requires start <= |ms| && FollowsPolicy(est, ms, window, estimate, start, ends)
    ensures start + |ends| <= Offset(start, ends) <= |ms|
    ensures Concat(Chunks(ms, start, ends)) == ms[start..Offset(start, ends)]
  {
    if ends != [] {
      var n := |ends| - 1;
      var front := ends[..n];
      ChunksJoin(est, ms, window, estimate, start, front);
      var mid := Offset(start, front);
      ConcatPush(Chunks(ms, start, front), Slice(ms, mid, ends[n]));
      assert ms[start..mid] + ms[mid..ends[n]] == ms[start..ends[n]];
    }
  }

  class MemoryConsolidator {
    const contextWindowTokens: int
    const store: MemoryStore

    constructor (contextWindowTokens: int, store: MemoryStore)
      ensures this.contextWindowTokens == contextWindowTokens && this.store == store
    {
      this.contextWindowTokens, this.store := contextWindowTokens, store;
    }

    // The body of one round: cut, archive, and only then move the offset.
    method ConsolidateRound(session: Session, est: Message -> nat, tokensToRemove: int, x: Exchange) returns (end: Option<nat>)
      requires store.Valid()
      modifies session`lastConsolidated, store
      ensures store.Valid()
      ensures end.None? ==> session.lastConsolidated == old(session.lastConsolidated) && store.archived == old(store.archived)
      ensures end.None? <==> (forall k :: !IsCut(session.messages, old(session.lastConsolidated), k)) || Refused(old(store.consecutiveFailures), x)
      ensures end.Some? ==> session.lastConsolidated == end.value && store.consecutiveFailures == 0
      ensures end.Some? ==> IsBoundary(est, session.messages, old(session.lastConsolidated), tokensToRemove, end.value)
      ensures end.Some? ==> store.archived == old(store.archived) + [Slice(session.messages, old(session.lastConsolidated), end.value)]
    {
      end := FindBoundary(est, session.messages, session.lastConsolidated, tokensToRemove);
      if end.None? {
        return;
      }
      var chunk := session.messages[session.lastConsolidated..end.value];
      if chunk == [] {
        return None;
      }
      var ok := store.Consolidate(chunk, x);
      assert ok <==> !Refused(old(store.consecutiveFailures), x);
      if !ok {
        return None;
      }
      session.lastConsolidated := end.value;
      assert IsCut(session.messages, old(session.lastConsolidated), end.value);
    }

    // `estimate(i)` is the prompt size before round i, `exchange(i)` the model's answer in it, and
    // `ends` are the offsets after each round.
    method MaybeConsolidateByTokens(session: Session, est: Message -> nat, estimate: nat -> int, exchange: nat -> Exchange)
      returns (ghost ends: seq<nat>)
      requires store.Valid()
      modifies session`lastConsolidated, store
      ensures store.Valid() && |ends| <= MAX_CONSOLIDATION_ROUNDS
      ensures FollowsPolicy(est, session.messages, contextWindowTokens, estimate, old(session.lastConsolidated), ends)
      ensures session.lastConsolidated == Offset(old(session.lastConsolidated), ends)
      ensures store.archived == old(store.archived) + Chunks(session.messages, old(session.lastConsolidated), ends)
      ensures EveryRoundFrees(est, session.messages, contextWindowTokens, estimate, old(session.lastConsolidated), ends)
      ensures ends != [] ==> contextWindowTokens > 0 && estimate(0) >= contextWindowTokens
      ensures session.messages != [] && contextWindowTokens > 0 && estimate(0) >= contextWindowTokens ==>
        NoFurtherRound(session.messages, contextWindowTokens, estimate, exchange, old(store.consecutiveFailures), old(session.lastConsolidated), ends)
    {
      ends := [];
      if session.messages == [] || contextWindowTokens <= 0 {
        return;
      }
      var estimated := estimate(0);
      if estimated <= 0 || estimated < contextWindowTokens {
        return;
      }
      ends := ConsolidateRounds(session, est, estimate, exchange);
      PolicyFrees(est, session.messages, contextWindowTokens, estimate, old(session.lastConsolidated), ends);
    }

    // The loop over the rounds.
    method ConsolidateRounds(session: Session, est: Message -> nat, estimate: nat -> int, exchange: nat -> Exchange)
      returns (ghost ends: seq<nat>)
      requires store.Valid() && contextWindowTokens > 0
      modifies session`lastConsolidated, store
      ensures store.Valid() && |ends| <= MAX_CONSOLIDATION_ROUNDS
      ensures FollowsPolicy(est, session.messages, contextWindowTokens, estimate, old(session.lastConsolidated), ends)
      ensures session.lastConsolidated == Offset(old(session.lastConsolidated), ends)
      ensures store.archived == old(store.archived) + Chunks(session.messages, old(session.lastConsolidated), ends)
      ensures NoFurtherRound(session.messages, contextWindowTokens, estimate, exchange, old(store.consecutiveFailures), old(session.lastConsolidated), ends)
    {
      ends := [];
      ghost var ms, start, failures, archived := session.messages, session.lastConsolidated, store.consecutiveFailures, store.archived;
      var estimated := estimate(0);
      for round := 0 to MAX_CONSOLIDATION_ROUNDS
        invariant store.Valid() && estimated == estimate(round) && |ends| == round
        invariant RoundsMade(est, ms, contextWindowTokens, estimate, start, ends, session.lastConsolidated, archived, store.archived, failures, store.consecutiveFailures)
      {
        if estimated <= contextWindowTokens / 2 {
          return;
        }
        ghost var offset, archivedBefore, failuresBefore := session.lastConsolidated, store.archived, store.consecutiveFailures;
        var end := ConsolidateRound(session, est, TokensToRemove(contextWindowTokens, estimate, round), exchange(round));
        if end.None? {
          return;
        }
        RoundPushed(est, ms, contextWindowTokens, estimate, start, ends, offset, archived, archivedBefore, failures, failuresBefore, end.value);
        ends := ends + [end.value];
        estimated := estimate(round + 1);
        if estimated <= 0 {
          return;
        }
      }
    }
  }
}
