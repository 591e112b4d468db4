// The conversation session of core/session/manager.py: a growing message list and the offset of
// its first unconsolidated message.

module Sessions {
  datatype Role = User | Assistant | Tool | Other(name: string)

  // `message["content"]`: absent or null, a string, or a list of parts.
  datatype Content = Null | Text(text: string) | Parts(count: nat)

  // The keys the protocol depends on. An empty id stands for a missing one, as the source's
  // truth tests do.
  datatype Message = Message(role: Role, content: Content, toolCalls: seq<string>, toolCallId: string)

  predicate IsUser(m: Message) {
    m.role.User?
  }

  predicate IsToolResult(m: Message) {
    m.role.Tool? && m.toolCallId != ""
  }

  predicate Declares(m: Message, id: string) {
    m.role.Assistant? && id != "" && id in m.toolCalls
  }

  // An assistant message in ms[lo..hi] declares the tool call `id`.
  ghost predicate DeclaredIn(ms: seq<Message>, lo: nat, hi: nat, id: string)
    requires hi <= |ms|
  {
    exists i :: lo <= i < hi && Declares(ms[i], id)
  }

  // The tool-call protocol on ms[lo..]: every tool result follows its call within that suffix.
  ghost predicate LegalFrom(ms: seq<Message>, lo: nat) {
    forall j :: lo <= j < |ms| && IsToolResult(ms[j]) ==> DeclaredIn(ms, lo, j, ms[j].toolCallId)
  }

  // The least start from which the protocol holds.
  ghost function LeastLegal(ms: seq<Message>, lo: nat): (start: nat)
    requires lo <= |ms|
    ensures lo <= start <= |ms| && LegalFrom(ms, start)
    ensures forall s :: lo <= s < start ==> !LegalFrom(ms, s)
    decreases |ms| - lo
  {
    if LegalFrom(ms, lo) then lo else LeastLegal(ms, lo + 1)
  }

  ghost function LegalStart(ms: seq<Message>): nat {
    LeastLegal(ms, 0)
  }

  // `ms[n..]` with the source language's tolerance for an offset beyond the end.
  function Drop(ms: seq<Message>, n: nat): seq<Message> {
    if n <= |ms| then ms[n..] else []
  }

  // `ms[-n..]`: the last n messages; 0 means no limit, and a negative n drops messages in front.
  function Window(ms: seq<Message>, n: int): (w: seq<Message>)
    ensures |w| <= |ms| && w == ms[|ms| - |w|..]
    ensures n > 0 ==> |w| == if n < |ms| then n else |ms|
    ensures n <= 0 ==> |w| == if -n < |ms| then |ms| + n else 0
  {
    if n < 0 then Drop(ms, -n) else if n == 0 || |ms| <= n then ms else ms[|ms| - n..]
  }

  // Index of the first user message; 0 when there is none.
  function FirstUser(ms: seq<Message>): (u: nat)
    ensures u <= |ms|
    ensures u > 0 ==> u < |ms| && IsUser(ms[u])
    ensures (exists k :: 0 <= k < |ms| && IsUser(ms[k])) ==> u < |ms| && IsUser(ms[u])
    ensures forall k :: 0 <= k < u ==> !IsUser(ms[k])
  {
    FirstUserFrom(ms, 0)
  }

  function FirstUserFrom(ms: seq<Message>, i: nat): (u: nat)
    requires i <= |ms|
    requires forall k :: 0 <= k < i ==> !IsUser(ms[k])
    ensures u == 0 || (u < |ms| && IsUser(ms[u]))
    ensures forall k :: 0 <= k < u ==> !IsUser(ms[k])
    ensures (u < |ms| && IsUser(ms[u])) || forall k :: 0 <= k < |ms| ==> !IsUser(ms[k])
    decreases |ms| - i
  {
    if i == |ms| then 0 else if IsUser(ms[i]) then i else FirstUserFrom(ms, i + 1)
  }

  // What `get_history` returns for the window `w`.
  ghost function Repaired(w: seq<Message>): seq<Message> {
    var s := w[FirstUser(w)..];
    s[LegalStart(s)..]
  }

  // Legality of a suffix is legality of the slice.
  lemma {:induction false} LegalSlice(ms: seq<Message>, n: nat, lo: nat)
    requires n <= |ms|
    ensures LegalFrom(ms[n..], lo) <==> LegalFrom(ms, n + lo)
  {
    var s := ms[n..];
    assert forall i :: 0 <= i < |s| ==> s[i] == ms[n + i];
    if LegalFrom(s, lo) {
      forall j | n + lo <= j < |ms| && IsToolResult(ms[j]) ensures DeclaredIn(ms, n + lo, j, ms[j].toolCallId) {
        assert s[j - n] == ms[j];
        var i :| lo <= i < j - n && Declares(s[i], s[j - n].toolCallId);
        assert Declares(ms[n + i], ms[j].toolCallId);
      }
    }
    if LegalFrom(ms, n + lo) {
      forall j | lo <= j < |s| && IsToolResult(s[j]) ensures DeclaredIn(s, lo, j, s[j].toolCallId) {
        assert s[j] == ms[n + j];
        var i :| n + lo <= i < n + j && Declares(ms[i], ms[n + j].toolCallId);
        assert Declares(s[i - n], s[j].toolCallId);
      }
    }
  }

  // Whatever the window cuts off, no tool result in the history is orphaned.
  lemma {:induction false} HistoryIsLegal(w: seq<Message>)
    ensures LegalFrom(Repaired(w), 0)
  {
    var s := w[FirstUser(w)..];
    LegalSlice(s, LegalStart(s), 0);
  }

  // When cutting at a user message leaves the protocol intact, only messages before the first user
  // message of the window are dropped.
  lemma {:induction false} HistoryKeepsFromFirstUser(w: seq<Message>)
    requires LegalFrom(w, FirstUser(w))
    ensures Repaired(w) == w[FirstUser(w)..]
  {
    var u := FirstUser(w);
    LegalSlice(w, u, 0);
    assert w[u..][0..] == w[u..];
  }

  // Finds the start in one pass: an orphaned tool result restarts the search behind itself.
  method FindLegalStart(messages: seq<Message>) returns (start: nat)
    ensures start <= |messages| && LegalFrom(messages, start)
    ensures forall s :: 0 <= s < start ==> !LegalFrom(messages, s)
    ensures start == LegalStart(messages)
  {
    var declared: set<string> := {};
    start := 0;
    for i := 0 to |messages|
      invariant start <= i
      invariant forall id :: id in declared <==> DeclaredIn(messages, start, i, id)
      invariant forall j :: start <= j < i && IsToolResult(messages[j]) ==> DeclaredIn(messages, start, j, messages[j].toolCallId)
      invariant forall s :: 0 <= s < start ==> !LegalFrom(messages, s)
    {
      var msg := messages[i];
      ghost var before := declared;
      if msg.role.Assistant? {
        for t := 0 to |msg.toolCalls|
          invariant forall id :: id in declared <==> id in before || (id != "" && id in msg.toolCalls[..t])
        {
          if msg.toolCalls[t] != "" {
            declared := declared + {msg.toolCalls[t]};
          }
        }
        assert msg.toolCalls[..|msg.toolCalls|] == msg.toolCalls;
        assert forall id :: id in declared <==> id in before || Declares(messages[i], id);
      } else if msg.role.Tool? {
        var tid := msg.toolCallId;
        if tid != "" && tid !in declared {
          OrphanRejects(messages, start, i);
          start := i + 1;
          // The source then collects the calls declared in messages[start..i + 1], which is empty.
          declared := {};
        }
      }
    }
    LeastIsUnique(messages, start);
  }

  // An orphan rules out every start up to its own index.
  lemma OrphanRejects(ms: seq<Message>, start: nat, i: nat)
    requires start <= i < |ms| && IsToolResult(ms[i]) && !DeclaredIn(ms, start, i, ms[i].toolCallId)
    ensures forall s :: start <= s <= i ==> !LegalFrom(ms, s)
  {
    forall s | start <= s <= i ensures !LegalFrom(ms, s) {
      assert !DeclaredIn(ms, s, i, ms[i].toolCallId);
    }
  }

  lemma LeastIsUnique(ms: seq<Message>, start: nat)
    requires start <= |ms| && LegalFrom(ms, start)
    requires forall s :: 0 <= s < start ==> !LegalFrom(ms, s)
    ensures start == LegalStart(ms)
  {}

  // What a session file holds.
  datatype Record = Record(messages: seq<Message>, lastConsolidated: nat)

  class Session {
    const key: string
    var messages: seq<Message>
    var lastConsolidated: nat

    function Value(): Record
      reads this
    {
      Record(messages, lastConsolidated)
    }

    constructor (key: string, r: Record)
      ensures this.key == key && Value() == r
    {
      this.key := key;
      messages, lastConsolidated := r.messages, r.lastConsolidated;
    }

    method AddMessage(role: Role, content: Content)
      modifies this`messages
      ensures messages == old(messages) + [Message(role, content, [], "")]
    {
      messages := messages + [Message(role, content, [], "")];
    }

    // Drops what precedes the first user message, if there is one.
    method FromFirstUser(w: seq<Message>) returns (sliced: seq<Message>)
      ensures sliced == w[FirstUser(w)..]
    {
      for i := 0 to |w|
        invariant forall k :: 0 <= k < i ==> !IsUser(w[k])
      {
        if IsUser(w[i]) {
          return w[i..];
        }
      }
      return w;
    }

    method GetHistory(maxMessages: int) returns (history: seq<Message>)
      ensures history == Repaired(Window(Drop(messages, lastConsolidated), maxMessages))
      ensures LegalFrom(history, 0)
    {
      var unconsolidated := Drop(messages, lastConsolidated);
      ghost var w := Window(unconsolidated, maxMessages);
      var sliced := FromFirstUser(Window(unconsolidated, maxMessages));
      var start := FindLegalStart(sliced);
      if start > 0 {
        sliced := sliced[start..];
      }
      history := sliced;
      HistoryIsLegal(w);
    }

    method Clear()
      modifies this
      ensures messages == [] && lastConsolidated == 0
    {
      messages := [];
      lastConsolidated := 0;
    }
  }

  // Sessions in memory by key, and the files behind them. Two handles on one key can be different
  // objects: `Invalidate` forgets an object that somebody may still hold.
  class SessionManager {
    var cache: map<string, Session>
    var files: map<string, Record>

    ghost predicate Valid()
      reads this, cache.Values
    {
      forall k :: k in cache ==> cache[k].key == k
    }

    constructor (files: map<string, Record>)
      ensures Valid() && cache == map[] && this.files == files
    {
      cache, this.files := map[], files;
    }

    method GetOrCreate(key: string) returns (s: Session)
      requires Valid()
      modifies this`cache
      ensures Valid() && s.key == key && cache == old(cache)[key := s]
      ensures key in old(cache) ==> s == old(cache)[key]
      ensures key !in old(cache) ==> fresh(s) && s.Value() == if key in files then files[key] else Record([], 0)
    {
      if key in cache {
        s := cache[key];
        assert cache == cache[key := s];
        return;
      }
      s := new Session(key, if key in files then files[key] else Record([], 0));
      cache := cache[key := s];
    }

    // Saving an object also makes it the one that the key finds.
    method Save(session: Session)
      requires Valid()
      modifies this
      ensures Valid()
      ensures files == old(files)[session.key := session.Value()] && cache == old(cache)[session.key := session]
    {
      files := files[session.key := session.Value()];
      cache := cache[session.key := session];
    }

    method Invalidate(key: string)
      requires Valid()
      modifies this`cache
      ensures Valid() && cache == old(cache) - {key}
    {
      cache := cache - {key};
    }

    // `/new` on the object `session`; what was not consolidated is returned for archiving.
    method StartOver(session: Session) returns (snapshot: seq<Message>)
      requires Valid()
      modifies this, session
      ensures Valid() && snapshot == Drop(old(session.messages), old(session.lastConsolidated))
      ensures session.Value() == Record([], 0)
      ensures files == old(files)[session.key := Record([], 0)] && cache == old(cache) - {session.key}
    {
      snapshot := Drop(session.messages, session.lastConsolidated);
      session.Clear();
      Save(session);
      Invalidate(session.key);
      assert cache == old(cache) - {session.key};
    }

    // The end of a consolidation round on the object it started with.
    method FinishRound(session: Session, end: nat)
      requires Valid()
      modifies this, session`lastConsolidated
      ensures Valid() && session.lastConsolidated == end
      ensures files == old(files)[session.key := session.Value()] && cache == old(cache)[session.key := session]
    {
      session.lastConsolidated := end;
      Save(session);
    }

    // A round that `/new` and a turn overtake: the round ends on the cleared object, which becomes the
    // session again, and the turn is neither in memory nor in the file.
    method OvertakenRound(key: string, end: nat, turn: seq<Message>) returns (found: Session, before: Session)
      requires Valid()
      modifies this, cache.Values
      ensures Valid() && found == before && found.key == key
      ensures found.Value() == Record([], end) && key in files && files[key] == Record([], end)
    {
      before := GetOrCreate(key);
      var snapshot := StartOver(before);
      var next := GetOrCreate(key);
      next.messages := next.messages + turn;
      Save(next);
      FinishRound(before, end);
      found := GetOrCreate(key);
    }

    // A turn that `/new` and another turn overtake: no round is waiting, and yet the first turn ends on
    // the cleared object, which becomes the session again, and the other turn is gone.
    method OvertakenTurn(key: string, early: seq<Message>, late: seq<Message>) returns (found: Session, before: Session)
      requires Valid()
      modifies this, cache.Values
      ensures Valid() && found == before && found.key == key
      ensures found.Value() == Record(early, 0) && key in files && files[key] == Record(early, 0)
    {
      before := GetOrCreate(key);
      var snapshot := StartOver(before);
      var next := GetOrCreate(key);
      next.messages := next.messages + late;
      Save(next);
      before.messages := before.messages + early;
      Save(before);
      found := GetOrCreate(key);
    }
  }
}
