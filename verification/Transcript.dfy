// The life of one conversation: turns that wait for skills and models, consolidation rounds that wait
// for the model, `/new`, and the archiving of what `/new` hands over, all overlapping. One state machine
// over what the agent loop, the session manager and the memory store do (core/agent/loop.py,
// core/agent/memory.py, core/session/manager.py).

module Transcripts {
  import opened Common
  import opened Sessions
  import opened AgentLoops
  import opened Memories

  const EMPTY := Record([], 0)

  // A round waiting for the model: the session object it works on, the chunk it sent off and the
  // offset it will write. The consolidation lock of the session key allows one at a time.
  datatype Round = Round(handle: nat, chunk: seq<Message>, end: nat)

  // What has become of a list handed over for archiving. Refused tries are given by their positions
  // in the log of tries; a list refused three times is given up.
  datatype Fate = Archived | Pending(refused: seq<nat>) | Lost(refused: seq<nat>)

  datatype Handed = Handed(list: seq<Message>, fate: Fate)

  // Whose list a try of the memory store was about: the waiting round's, the j-th handed-over one,
  // or one of another conversation. They share one failure counter.
  datatype Owner = OwnRound | OwnJob(index: nat) | Elsewhere

  datatype Tried = Tried(owner: Owner, usable: bool)

  // `objects` are the session objects ever made for the conversation's key and `cached` is the one
  // that the key finds; `turns` are the turns in progress and the object each holds.
  //
  // `out` are the lists handed over for archiving, oldest first, of which those from `current` on
  // belong to the present conversation. `archive` are the entries of the history file, `others` the
  // lists of other conversations among them. `said` is every message ever saved and `tries` every
  // try so far. `overwritten` says that some save took messages away.
  datatype State = State(objects: seq<Record>, cached: Option<nat>, file: Record, turns: map<nat, nat>, round: Option<Round>,
                         out: seq<Handed>, said: seq<Message>, current: nat,
                         archive: seq<seq<Message>>, others: seq<seq<Message>>, failures: nat, tries: seq<Tried>, overwritten: bool)

  const START := State([], None, EMPTY, map[], None, [], [], 0, [], [], 0, [], false)

  // How a turn ends: a skill ran or a cached answer was found, or the model answered.
  datatype Turn =
    | Short(user: string, answer: Content)
    | Llm(p: Provider, maxIterations: int, context: string, text: string)

  datatype Step =
    | BeginTurn(id: nat)                           // finds the session, then waits
    | EndTurn(id: nat, turn: Turn)                 // appends to the object it holds and saves it
    | LeaveTurn(id: nat)                           // raised, or cancelled by `/stop`
    | BeginRound(handle: nat, end: nat)
    | EndRound(usable: bool)                       // the model's answer to the waiting round
    | DropRound                                    // cancelled by `/stop` together with its turn
    | New
    | Try(index: nat, usable: bool)                // the model's answer to a pending list
    | OtherTry(list: seq<Message>, usable: bool)   // and to another conversation's list

  // What the key finds has been saved, and whoever holds an object holds a real one.
  ghost predicate Sound(s: State) {
    && (s.cached.Some? ==> s.cached.value < |s.objects| && s.objects[s.cached.value] == s.file)
    && (forall id :: id in s.turns ==> s.turns[id] < |s.objects|)
    && (s.round.Some? ==> s.round.value.handle < |s.objects|)
  }

  ghost predicate Enabled(s: State, step: Step)
    requires Sound(s)
  {
    match step
    case BeginTurn(id) => id !in s.turns
    case EndTurn(id, _) => id in s.turns
    case LeaveTurn(id) => id in s.turns
    case BeginRound(o, end) => s.round.None? && o < |s.objects| && IsCut(s.objects[o].messages, s.objects[o].lastConsolidated, end)
    case EndRound(_) => s.round.Some?
    case DropRound => s.round.Some?
    case Try(j, _) => j < |s.out| && s.out[j].fate.Pending?
    case OtherTry(list, _) => list != []
    case New => true
  }

  function Saved(f: Format, turn: Turn): seq<Message> {
    match turn
    case Short(user, answer) => [Message(User, Text(user), [], ""), Message(Assistant, answer, [], "")]
    case Llm(p, maxIterations, context, text) => SavedTurn(f, p, maxIterations, context, text)
  }

  // `get_or_create`: an object that the key does not find is loaded from the file.
  ghost function Find(s: State): (s': State)
    requires Sound(s)
    ensures Sound(s') && (s.overwritten ==> s'.overwritten) && s'.cached.Some? && (s.cached.Some? ==> s' == s)
  {
    if s.cached.Some? then s else s.(objects := s.objects + [s.file], cached := Some(|s.objects|))
  }

  ghost function Begun(s: State, id: nat): (s': State)
    requires Sound(s)
    ensures Sound(s') && (s.overwritten ==> s'.overwritten)
  {
    var t := Find(s);
    t.(turns := t.turns[id := t.cached.value])
  }

  ghost function RoundBegun(s: State, o: nat, end: nat): (s': State)
    requires Sound(s) && o < |s.objects|
    ensures Sound(s') && (s.overwritten ==> s'.overwritten)
  {
    s.(round := Some(Round(o, Slice(s.objects[o].messages, s.objects[o].lastConsolidated, end), end)))
  }

  // Object `o` gets a new value and is saved: file and key have it from now on.
  ghost function WriteBack(s: State, o: nat, r: Record): (s': State)
    requires Sound(s) && o < |s.objects|
    ensures Sound(s') && (s.overwritten ==> s'.overwritten)
  {
    s.(objects := s.objects[o := r], cached := Some(o), file := r)
  }

  // Saving `o` takes away messages that are in another object only.
  predicate Overwrites(s: State, o: nat) {
    s.cached != Some(o) && s.file.messages != []
  }

  ghost function Finished(f: Format, s: State, id: nat, turn: Turn): (s': State)
    requires Sound(s) && id in s.turns
    ensures Sound(s') && (s.overwritten ==> s'.overwritten)
  {
    var o, b := s.turns[id], Saved(f, turn);
    var r := s.objects[o];
    WriteBack(s, o, r.(messages := r.messages + b)).(turns := s.turns - {id}, said := s.said + b, overwritten := s.overwritten || Overwrites(s, o))
  }

  // `/new` clears the session object, saves it and drops it from the cache; what was not consolidated
  // is handed over for archiving. Turns and rounds keep their hold on the cleared object.
  ghost function Restart(s: State): (s': State)
    requires Sound(s)
    ensures Sound(s') && (s.overwritten ==> s'.overwritten)
  {
    var t := Find(s);
    var o := t.cached.value;
    var snapshot := Drop(t.objects[o].messages, t.objects[o].lastConsolidated);
    var out := if snapshot == [] then s.out else s.out + [Handed(snapshot, Pending([]))];
    t.(objects := t.objects[o := EMPTY], cached := None, file := EMPTY, out := out, current := |out|)
  }

  predicate TakesList(s: State, usable: bool) {
    AfterTry(s.failures, usable).1
  }

  predicate SameSessions(s: State, s': State) {
    s'.objects == s.objects && s'.cached == s.cached && s'.file == s.file && s'.turns == s.turns && s'.round == s.round
  }

  // Every try moves the shared counter.
  function Count(s: State, owner: Owner, usable: bool): State {
    s.(failures := AfterTry(s.failures, usable).0, tries := s.tries + [Tried(owner, usable)])
  }

  // The round's object still has its chunk behind the offset.
  ghost predicate ChunkInPlace(s: State) {
    s.round.Some? && var r, ms, n := s.round.value, s.file.messages, s.file.lastConsolidated;
      s.cached == Some(r.handle) && n <= r.end < |ms| && ms[n..r.end] == r.chunk && LegalFrom(ms, r.end)
  }

  // The end of a round. A refused chunk changes nothing else. Otherwise the round's own object gets
  // the new offset and is saved.
  ghost function Ended(s: State, usable: bool): (s': State)
    requires Sound(s) && s.round.Some?
    ensures Sound(s') && (s.overwritten ==> s'.overwritten)
  {
    var r, counted := s.round.value, Count(s, OwnRound, usable).(round := None);
    if !TakesList(s, usable) then counted
    else WriteBack(counted, r.handle, s.objects[r.handle].(lastConsolidated := r.end))
      .(out := s.out + [Handed(r.chunk, Archived)], archive := s.archive + [r.chunk], overwritten := s.overwritten || !ChunkInPlace(s))
  }

  function Judged(fate: Fate, position: nat, taken: bool): Fate
    requires fate.Pending?
  {
    var refused := fate.refused + [position];
    if taken then Archived else if |refused| < MAX_FAILURES_BEFORE_RAW_ARCHIVE then Pending(refused) else Lost(refused)
  }

  // One try of `archive_messages` on a pending list.
  function TryList(s: State, j: nat, usable: bool): (s': State)
    requires j < |s.out| && s.out[j].fate.Pending?
    ensures SameSessions(s, s') && s'.overwritten == s.overwritten
  {
    var h, taken := s.out[j], TakesList(s, usable);
    Count(s, OwnJob(j), usable).(out := s.out[j := h.(fate := Judged(h.fate, |s.tries|, taken))],
                                 archive := if taken then s.archive + [h.list] else s.archive)
  }

  function TryOther(s: State, list: seq<Message>, usable: bool): (s': State)
    ensures SameSessions(s, s') && s'.overwritten == s.overwritten
  {
    var counted := Count(s, Elsewhere, usable);
    if TakesList(s, usable) then counted.(archive := s.archive + [list], others := s.others + [list]) else counted
  }

  ghost function Next(f: Format, s: State, step: Step): (s': State)
    requires Sound(s) && Enabled(s, step)
    ensures Sound(s') && (s.overwritten ==> s'.overwritten)
  {
    match step
    case BeginTurn(id) => Begun(s, id)
    case EndTurn(id, turn) => Finished(f, s, id, turn)
    case LeaveTurn(id) => s.(turns := s.turns - {id})
    case BeginRound(o, end) => RoundBegun(s, o, end)
    case EndRound(usable) => Ended(s, usable)
    case DropRound => s.(round := None)
    case New => Restart(s)
    case Try(j, usable) => TryList(s, j, usable)
    case OtherTry(list, usable) => TryOther(s, list, usable)
  }

  // No turn in progress, no round waiting.
  predicate Idle(s: State) {
    s.turns == map[] && s.round.None?
  }

  // The steps lead from one state to the other; in a quiet run `/new` comes only when nothing else is
  // in progress.
  ghost predicate Leads(f: Format, from: State, steps: seq<Step>, s: State, quiet: bool)
    decreases |steps|
  {
    if steps == [] then s == from
    else
      var n := |steps| - 1;
      exists t: State :: Leads(f, from, steps[..n], t, quiet) && Sound(t) && Enabled(t, steps[n])
        && (quiet && steps[n].New? ==> Idle(t)) && s == Next(f, t, steps[n])
  }

  ghost predicate Reaches(f: Format, steps: seq<Step>, s: State) {
    Leads(f, START, steps, s, false)
  }

  lemma LeadsPush(f: Format, from: State, steps: seq<Step>, t: State, quiet: bool, step: Step)
    requires Leads(f, from, steps, t, quiet) && Sound(t) && Enabled(t, step) && (quiet && step.New? ==> Idle(t))
    ensures Leads(f, from, steps + [step], Next(f, t, step), quiet)
  {
    assert (steps + [step])[..|steps|] == steps;
  }

  // Quiet runs are runs.
  lemma {:induction false} QuietRunIsRun(f: Format, from: State, steps: seq<Step>, s: State)
    requires Leads(f, from, steps, s, true)
    ensures Leads(f, from, steps, s, false)
  {
    if steps != [] {
      var n := |steps| - 1;
      var t: State :| Leads(f, from, steps[..n], t, true) && Sound(t) && Enabled(t, steps[n]) && s == Next(f, t, steps[n]);
      QuietRunIsRun(f, from, steps[..n], t);
    }
  }

  function Lists(out: seq<Handed>): (ls: seq<seq<Message>>)
    ensures |ls| == |out| && forall i :: 0 <= i < |ls| ==> ls[i] == out[i].list
  {
    seq(|out|, i requires 0 <= i < |out| => out[i].list)
  }

  // ---- The messages: nothing lost, nothing twice, every suffix legal ----

  // Cutting the list at a user message leaves the tool-call protocol intact.
  ghost predicate UserCutsAreLegal(ms: seq<Message>) {
    forall u :: 0 <= u < |ms| && IsUser(ms[u]) ==> LegalFrom(ms, u)
  }

  ghost predicate Legal(r: Record) {
    && (r.lastConsolidated == 0 || r.lastConsolidated < |r.messages|)
    && LegalFrom(r.messages, r.lastConsolidated) && UserCutsAreLegal(r.messages)
  }

  // Every message is in exactly one list handed over or still unconsolidated, and what lies before
  // the offset is archived.
  ghost predicate Conserved(s: State) {
    var ms, n := s.file.messages, s.file.lastConsolidated;
    && n <= |ms|
    && s.said == Concat(Lists(s.out)) + ms[n..]
    && s.current <= |s.out|
    && Concat(Lists(s.out[s.current..])) == ms[..n]
    && forall i :: s.current <= i < |s.out| ==> s.out[i].fate.Archived?
  }

  // Objects that the key does not find hold nothing.
  ghost predicate OthersEmpty(s: State) {
    forall o: nat :: o < |s.objects| && s.cached != Some(o) ==> s.objects[o] == EMPTY
  }

  ghost predicate Inv(s: State) {
    && Legal(s.file) && Conserved(s) && OthersEmpty(s)
    && (s.round.Some? ==> s.round.value.end > 0 && s.round.value.chunk != [])
  }

  lemma AppendKeepsUserCuts(ms: seq<Message>, b: seq<Message>)
    requires UserCutsAreLegal(ms) && IsBlock(b)
    ensures UserCutsAreLegal(ms + b)
  {
    var all := ms + b;
    forall u | 0 <= u < |all| && IsUser(all[u]) ensures LegalFrom(all, u) {
      if u < |ms| {
        assert LegalFrom(ms, u) by { assert IsUser(ms[u]); }
        LegalAppend(ms, u, b);
      } else {
        assert all[u] == b[u - |ms|];
        assert all[u..] == b;
        LegalSlice(all, u, 0);
      }
    }
  }

  lemma SavedIsBlock(f: Format, turn: Turn)
    ensures IsBlock(Saved(f, turn))
  {
    if turn.Llm? {
      SavedTurnIsBlock(f, turn.p, turn.maxIterations, turn.context, turn.text);
    }
  }

  // A skill's or a cached answer is saved behind the user's text, on the object that the turn holds.
  lemma ShortTurnIsSaved(f: Format, s: State, id: nat, user: string, answer: Content)
    requires Sound(s) && id in s.turns
    ensures var s', o := Finished(f, s, id, Short(user, answer)), s.turns[id];
      && s'.cached == Some(o) && s'.file == s'.objects[o] && s'.file.lastConsolidated == s.objects[o].lastConsolidated
      && s'.file.messages == s.objects[o].messages + [Message(User, Text(user), [], ""), Message(Assistant, answer, [], "")]
  {}

  lemma AppendKeepsLegal(r: Record, b: seq<Message>)
    requires Legal(r) && IsBlock(b)
    ensures Legal(r.(messages := r.messages + b))
  {
    AppendKeepsUserCuts(r.messages, b);
    LegalAppend(r.messages, r.lastConsolidated, b);
  }

  // A block is appended behind the messages, or begins a new list when there are none.
  lemma AppendKeepsConserved(s: State, s': State, b: seq<Message>)
    requires Conserved(s) && s'.out == s.out && s'.current == s.current && s'.said == s.said + b
    requires s'.file == s.file.(messages := s.file.messages + b)
    ensures Conserved(s')
  {
    var ms, n := s.file.messages, s.file.lastConsolidated;
    assert (ms + b)[n..] == ms[n..] + b && (ms + b)[..n] == ms[..n];
    Regroup(Concat(Lists(s.out)), ms[n..], b);
  }

  // The end of a turn keeps the invariant exactly when the key still finds the turn's object, or
  // finds nothing that has not been handed over.
  lemma {:induction false} TurnEndIsSafeIff(f: Format, s: State, id: nat, turn: Turn)
    requires Sound(s) && Inv(s) && id in s.turns
    ensures Inv(Finished(f, s, id, turn)) <==> s.cached == Some(s.turns[id]) || s.file.messages == []
  {
    var o, b, s' := s.turns[id], Saved(f, turn), Finished(f, s, id, turn);
    if s.cached == Some(o) || s.file.messages == [] {
      assert s.objects[o] == s.file;
      SavedIsBlock(f, turn);
      AppendKeepsLegal(s.file, b);
      AppendKeepsConserved(s, s', b);
    } else {
      assert s'.file == Record(b, 0) by { assert [] + b == b; }
      assert b[0..] == b;
      assert |s'.said| > |Concat(Lists(s.out)) + b|;
    }
  }

  lemma ListsPush(out: seq<Handed>, h: Handed)
    ensures Lists(out + [h]) == Lists(out) + [h.list]
    ensures Concat(Lists(out + [h])) == Concat(Lists(out)) + h.list
  {
    assert Lists(out + [h]) == Lists(out) + [h.list];
    ConcatPush(Lists(out), h.list);
  }

  // After `/new` everything ever saved has been handed over, in order.
  lemma {:induction false} RestartHandsOverAll(s: State)
    requires Sound(s) && Conserved(s)
    ensures Concat(Lists(Restart(s).out)) == s.said
  {
    var rest := s.file.messages[s.file.lastConsolidated..];
    assert Find(s).objects[Find(s).cached.value] == s.file;
    if rest == [] {
      assert Concat(Lists(s.out)) + rest == Concat(Lists(s.out));
    } else {
      ListsPush(s.out, Handed(rest, Pending([])));
    }
  }

  lemma RestartKeepsInv(s: State)
    requires Sound(s) && Inv(s)
    ensures Inv(Restart(s))
  {
    RestartHandsOverAll(s);
    var s' := Restart(s);
    assert s'.file.messages[0..] == [] && s'.file.messages[..0] == [];
    assert Lists(s'.out[|s'.out|..]) == [];
    assert Concat(Lists(s'.out)) + [] == Concat(Lists(s'.out));
  }

  lemma CutOut(ms: seq<Message>, n: nat, end: nat)
    requires n <= end <= |ms|
    ensures ms[n..] == ms[n..end] + ms[end..] && ms[..end] == ms[..n] + ms[n..end]
  {}

  lemma TailListsPush(out: seq<Handed>, from: nat, h: Handed)
    requires from <= |out|
    ensures Concat(Lists((out + [h])[from..])) == Concat(Lists(out[from..])) + h.list
  {
    ListsPush(out[from..], h);
    assert (out + [h])[from..] == out[from..] + [h];
  }

  // The next chunk behind the offset is archived.
  lemma ChunkKeepsConserved(s: State, end: nat, s': State)
    requires Conserved(s) && s.file.lastConsolidated <= end <= |s.file.messages|
    requires s'.file == s.file.(lastConsolidated := end) && s'.said == s.said && s'.current == s.current
    requires s'.out == s.out + [Handed(s.file.messages[s.file.lastConsolidated..end], Archived)]
    ensures Conserved(s')
  {
    var ms, n := s.file.messages, s.file.lastConsolidated;
    var h := Handed(ms[n..end], Archived);
    ListsPush(s.out, h);
    TailListsPush(s.out, s.current, h);
    CutOut(ms, n, end);
    Regroup(Concat(Lists(s.out)), h.list, ms[end..]);
  }

  // If the messages are conserved behind a new offset, the chunk was in place.
  lemma ConservedMeansInPlace(a: seq<Message>, ms: seq<Message>, n: nat, chunk: seq<Message>, end: nat)
    requires n <= |ms| && end <= |ms| && a + ms[n..] == a + chunk + ms[end..]
    ensures n <= end && ms[n..end] == chunk
  {
    var l, r := a + ms[n..], a + chunk + ms[end..];
    assert l[|a|..] == ms[n..] && r[|a|..] == chunk + ms[end..];
    assert |chunk| == end - n;
    assert ms[n..end] == ms[n..][..|chunk|] == (chunk + ms[end..])[..|chunk|] == chunk;
  }

  lemma ChunkInPlaceIsSafe(s: State)
    requires Sound(s) && Inv(s) && ChunkInPlace(s)
    ensures Inv(Ended(s, true))
  {
    ChunkKeepsConserved(s, s.round.value.end, Ended(s, true));
  }

  lemma SafeMeansInPlace(s: State)
    requires Sound(s) && Inv(s) && s.round.Some? && Inv(Ended(s, true))
    ensures ChunkInPlace(s)
  {
    var r, s' := s.round.value, Ended(s, true);
    if s.cached == Some(r.handle) {
      ListsPush(s.out, Handed(r.chunk, Archived));
      ConservedMeansInPlace(Concat(Lists(s.out)), s.file.messages, s.file.lastConsolidated, r.chunk, r.end);
    }
  }

  lemma TakenAlike(s: State, usable: bool)
    requires Sound(s) && s.round.Some? && TakesList(s, usable)
    ensures Inv(Ended(s, usable)) <==> Inv(Ended(s, true))
  {
    assert SameMessages(Ended(s, true), Ended(s, usable));
  }

  // The end of a round keeps the invariant exactly when its chunk is still in place or is refused.
  lemma {:induction false} RoundEndIsSafeIff(s: State, usable: bool)
    requires Sound(s) && Inv(s) && s.round.Some?
    ensures Inv(Ended(s, usable)) <==> ChunkInPlace(s) || !TakesList(s, usable)
  {
    if !TakesList(s, usable) {
      SameMessagesKeepInv(s, Ended(s, usable));
    } else {
      TakenAlike(s, usable);
      if ChunkInPlace(s) {
        ChunkInPlaceIsSafe(s);
      } else if Inv(Ended(s, true)) {
        SafeMeansInPlace(s);
      }
    }
  }

  // What the invariant depends on.
  predicate SameMessages(s: State, s': State) {
    s'.file == s.file && s'.said == s.said && s'.out == s.out && s'.current == s.current
  }

  lemma SameMessagesKeepInv(s: State, s': State)
    requires Inv(s) && SameMessages(s, s') && OthersEmpty(s')
    requires s'.round == s.round || s'.round.None?
    ensures Inv(s')
  {}

  lemma BeginTurnKeepsInv(s: State, id: nat)
    requires Sound(s) && Inv(s)
    ensures Inv(Begun(s, id))
  {
    SameMessagesKeepInv(s, Begun(s, id));
  }

  lemma BeginRoundKeepsInv(s: State, o: nat, end: nat)
    requires Sound(s) && Inv(s) && o < |s.objects| && IsCut(s.objects[o].messages, s.objects[o].lastConsolidated, end)
    ensures Inv(RoundBegun(s, o, end))
  {
    assert OthersEmpty(RoundBegun(s, o, end)) && SameMessages(s, RoundBegun(s, o, end));
  }

  lemma TryKeepsInv(s: State, j: nat, usable: bool)
    requires Inv(s) && j < |s.out| && s.out[j].fate.Pending?
    ensures Inv(TryList(s, j, usable))
  {
    var s' := TryList(s, j, usable);
    assert Lists(s'.out) == Lists(s.out);
    assert j < s.current;
    assert Lists(s'.out[s.current..]) == Lists(s.out[s.current..]);
  }

  // A try of a handed-over list, here or elsewhere.
  lemma TryStepKeepsInv(f: Format, s: State, step: Step)
    requires Sound(s) && Inv(s) && Enabled(s, step) && (step.Try? || step.OtherTry?)
    ensures Inv(Next(f, s, step))
  {
    if step.Try? {
      TryKeepsInv(s, step.index, step.usable);
    } else {
      SameMessagesKeepInv(s, TryOther(s, step.list, step.usable));
    }
  }

  // A step that saves no session object of this conversation, or starts over.
  lemma OtherStepKeepsInv(f: Format, s: State, step: Step)
    requires Sound(s) && Inv(s) && Enabled(s, step) && !step.EndTurn? && !step.EndRound?
    ensures Inv(Next(f, s, step))
  {
    if step.BeginTurn? {
      BeginTurnKeepsInv(s, step.id);
    } else if step.LeaveTurn? {
      SameMessagesKeepInv(s, s.(turns := s.turns - {step.id}));
    } else if step.BeginRound? {
      BeginRoundKeepsInv(s, step.handle, step.end);
    } else if step.DropRound? {
      SameMessagesKeepInv(s, s.(round := None));
    } else if step.New? {
      RestartKeepsInv(s);
    } else {
      TryStepKeepsInv(f, s, step);
    }
  }

  // Every step keeps the invariant, unless it is a save that takes messages away.
  lemma StepKeepsInv(f: Format, s: State, step: Step)
    requires Sound(s) && Inv(s) && Enabled(s, step) && !Next(f, s, step).overwritten
    ensures Inv(Next(f, s, step))
  {
    match step {
      case EndTurn(id, turn) => TurnEndIsSafeIff(f, s, id, turn);
      case EndRound(usable) => RoundEndIsSafeIff(s, usable);
      case _ => OtherStepKeepsInv(f, s, step);
    }
  }

  lemma {:induction false} ReachableInv(f: Format, steps: seq<Step>, s: State)
    requires Reaches(f, steps, s) && !s.overwritten
    ensures Sound(s) && Inv(s)
  {
    if steps == [] {
      assert Lists([]) == [];
    } else {
      var n := |steps| - 1;
      var t: State :| Leads(f, START, steps[..n], t, false) && Sound(t) && Enabled(t, steps[n]) && s == Next(f, t, steps[n]);
      ReachableInv(f, steps[..n], t);
      StepKeepsInv(f, t, steps[n]);
    }
  }

  // Main result. In every run of overlapping turns, rounds and `/new` in which no save took messages
  // away, the unconsolidated suffix obeys the tool-call protocol, the history handed to the model
  // leaves out only what precedes its first user message, and every message ever saved is either
  // unconsolidated or in exactly one of the lists handed over; those before the offset are archived.
  lemma {:induction false} EveryRunKeepsTranscript(f: Format, steps: seq<Step>, s: State)
    requires Reaches(f, steps, s) && !s.overwritten
    ensures s.cached.Some? ==> s.cached.value < |s.objects| && s.objects[s.cached.value] == s.file
    ensures s.file.lastConsolidated <= |s.file.messages|
    ensures LegalFrom(s.file.messages[s.file.lastConsolidated..], 0)
    ensures var w := s.file.messages[s.file.lastConsolidated..]; Repaired(w) == w[FirstUser(w)..]
    ensures s.said == Concat(Lists(s.out)) + s.file.messages[s.file.lastConsolidated..]
    ensures s.current <= |s.out| && Concat(Lists(s.out[s.current..])) == s.file.messages[..s.file.lastConsolidated]
    ensures forall i :: s.current <= i < |s.out| ==> s.out[i].fate.Archived?
  {
    ReachableInv(f, steps, s);
    LegalSlice(s.file.messages, s.file.lastConsolidated, 0);
    WindowKeepsFromFirstUser(s.file.messages, s.file.lastConsolidated);
  }

  // The same for every window that contains a user message, however it was limited.
  lemma {:induction false} WindowKeepsFromFirstUser(ms: seq<Message>, n: nat)
    requires n <= |ms| && UserCutsAreLegal(ms)
    requires LegalFrom(ms, n) || exists k :: n <= k < |ms| && IsUser(ms[k])
    ensures Repaired(ms[n..]) == ms[n..][FirstUser(ms[n..])..]
  {
    var w := ms[n..];
    var u := FirstUser(w);
    if exists k :: n <= k < |ms| && IsUser(ms[k]) {
      var k :| n <= k < |ms| && IsUser(ms[k]);
      assert IsUser(w[k - n]);
      assert ms[n + u] == w[u];
      assert LegalFrom(ms, n + u);
    } else {
      assert u < |w| ==> w[u] == ms[n + u];
    }
    LegalSlice(ms, n, u);
    HistoryKeepsFromFirstUser(w);
  }

  // ---- When `/new` is safe ----

  // Every turn holds the object that the key finds, and the round's chunk is in place.
  ghost predicate Attached(s: State) {
    (forall id :: id in s.turns ==> s.cached == Some(s.turns[id])) && (s.round.Some? ==> ChunkInPlace(s))
  }

  lemma BegunIsAttached(s: State, id: nat)
    requires Sound(s) && Attached(s)
    ensures Attached(Begun(s, id))
  {}

  lemma FinishedIsAttached(f: Format, s: State, id: nat, turn: Turn)
    requires Sound(s) && Attached(s) && id in s.turns
    ensures Attached(Finished(f, s, id, turn)) && Finished(f, s, id, turn).overwritten == s.overwritten
  {
    if s.round.Some? {
      var ms, n, b, end := s.file.messages, s.file.lastConsolidated, Saved(f, turn), s.round.value.end;
      SavedIsBlock(f, turn);
      LegalAppend(ms, end, b);
      assert (ms + b)[n..end] == ms[n..end];
    }
  }

  lemma RoundBegunIsAttached(s: State, o: nat, end: nat)
    requires Sound(s) && Inv(s) && Attached(s) && o < |s.objects| && IsCut(s.objects[o].messages, s.objects[o].lastConsolidated, end)
    ensures Attached(RoundBegun(s, o, end))
  {
    assert s.cached == Some(o);
  }

  lemma EndedIsAttached(s: State, usable: bool)
    requires Sound(s) && Attached(s) && s.round.Some?
    ensures Attached(Ended(s, usable)) && Ended(s, usable).overwritten == s.overwritten
  {}

  lemma RestartedIsAttached(s: State)
    requires Sound(s) && Idle(s)
    ensures Attached(Restart(s)) && Restart(s).overwritten == s.overwritten
  {}

  lemma FewerAreAttached(s: State, s': State)
    requires Attached(s) && s'.cached == s.cached && s'.file == s.file
    requires forall id :: id in s'.turns ==> id in s.turns && s'.turns[id] == s.turns[id]
    requires s'.round == s.round || s'.round.None?
    ensures Attached(s')
  {}

  // If everybody is attached, no step but a `/new` in between can take messages away.
  lemma StepKeepsAttached(f: Format, s: State, step: Step)
    requires Sound(s) && Inv(s) && Attached(s) && Enabled(s, step) && (step.New? ==> Idle(s))
    ensures Attached(Next(f, s, step)) && Next(f, s, step).overwritten == s.overwritten
  {
    match step {
      case BeginTurn(id) => BegunIsAttached(s, id);
      case EndTurn(id, turn) => FinishedIsAttached(f, s, id, turn);
      case LeaveTurn(_) => FewerAreAttached(s, Next(f, s, step));
      case BeginRound(o, end) => RoundBegunIsAttached(s, o, end);
      case EndRound(usable) => EndedIsAttached(s, usable);
      case DropRound => FewerAreAttached(s, Next(f, s, step));
      case New => RestartedIsAttached(s);
      case Try(_, _) => FewerAreAttached(s, Next(f, s, step));
      case OtherTry(_, _) => FewerAreAttached(s, Next(f, s, step));
    }
  }

  // Then the invariant does not depend on the flag.
  lemma AttachedStepKeepsInv(f: Format, s: State, step: Step)
    requires Sound(s) && Inv(s) && Attached(s) && Enabled(s, step) && (step.New? ==> Idle(s))
    ensures Inv(Next(f, s, step))
  {
    match step {
      case EndTurn(id, turn) => TurnEndIsSafeIff(f, s, id, turn);
      case EndRound(usable) => RoundEndIsSafeIff(s, usable);
      case _ => OtherStepKeepsInv(f, s, step);
    }
  }

  lemma {:induction false} QuietRunKeepsAttached(f: Format, from: State, steps: seq<Step>, s: State)
    requires Sound(from) && Inv(from) && Attached(from) && Leads(f, from, steps, s, true)
    ensures Sound(s) && Inv(s) && Attached(s) && s.overwritten == from.overwritten
  {
    if steps != [] {
      var n := |steps| - 1;
      var t: State :| Leads(f, from, steps[..n], t, true) && Sound(t) && Enabled(t, steps[n])
        && (steps[n].New? ==> Idle(t)) && s == Next(f, t, steps[n]);
      QuietRunKeepsAttached(f, from, steps[..n], t);
      AttachedStepKeepsInv(f, t, steps[n]);
      StepKeepsAttached(f, t, steps[n]);
    }
  }

  // A condition on the run alone: if `/new` comes only when no turn is in progress and no round is
  // waiting, nothing is ever taken away.
  lemma {:induction false} QuietRunIsSafe(f: Format, steps: seq<Step>, s: State)
    requires Leads(f, START, steps, s, true)
    ensures Reaches(f, steps, s) && !s.overwritten
  {
    QuietRunIsRun(f, START, steps, s);
    assert Lists([]) == [];
    QuietRunKeepsAttached(f, START, steps, s);
  }

  // However a run goes on after `/new`, as long as every later `/new` is quiet, nothing is lost.
  ghost predicate SafeFromNow(f: Format, s: State) {
    forall more, s': State :: Leads(f, s, more, s', true) ==> Inv(s')
  }

  // A whole turn with nothing in between.
  ghost function WholeTurn(f: Format, s: State, id: nat, turn: Turn): (s': State)
    requires Sound(s) && id !in s.turns
    ensures Sound(s') && s'.cached == Find(s).cached && |s'.objects| == |Find(s).objects|
    ensures s.cached.None? ==> s'.objects[..|s.objects|] == s.objects
    ensures s'.turns == s.turns && s'.round == s.round && s'.out == s.out && s'.archive == s.archive && s'.others == s.others
    ensures s'.file == s.file.(messages := s.file.messages + Saved(f, turn)) && s'.said == s.said + Saved(f, turn)
    ensures s'.overwritten == s.overwritten && s'.failures == s.failures && s'.tries == s.tries && s'.current == s.current
  {
    var s' := Finished(f, Begun(s, id), id, turn);
    assert s'.turns == s.turns;
    s'
  }

  lemma WholeTurnIsRun(f: Format, from: State, steps: seq<Step>, s: State, quiet: bool, id: nat, turn: Turn)
    requires Leads(f, from, steps, s, quiet) && Sound(s) && id !in s.turns
    ensures Leads(f, from, steps + [BeginTurn(id)] + [EndTurn(id, turn)], WholeTurn(f, s, id, turn), quiet)
  {
    LeadsPush(f, from, steps, s, quiet, BeginTurn(id));
    LeadsPush(f, from, steps + [BeginTurn(id)], Begun(s, id), quiet, EndTurn(id, turn));
  }

  lemma WholeTurnKeepsInv(f: Format, s: State, id: nat, turn: Turn)
    requires Sound(s) && Inv(s) && id !in s.turns
    ensures Inv(WholeTurn(f, s, id, turn))
  {
    BeginTurnKeepsInv(s, id);
    TurnEndIsSafeIff(f, Begun(s, id), id, turn);
  }

  // A turn that began before `/new` ends behind another one.
  lemma LateTurnOverwrites(f: Format, s: State, id: nat) returns (more: seq<Step>, s': State)
    requires Sound(s) && Inv(s) && s.cached.None? && id in s.turns
    ensures Leads(f, s, more, s', true) && !Inv(s')
  {
    var other := FreshNat(s.turns.Keys);
    var turn := Short("", Null);
    var t := WholeTurn(f, s, other, turn);
    WholeTurnIsRun(f, s, [], s, true, other, turn);
    WholeTurnKeepsInv(f, s, other, turn);
    TurnEndIsSafeIff(f, t, id, turn);
    more := [] + [BeginTurn(other)] + [EndTurn(other, turn)];
    LeadsPush(f, s, more, t, true, EndTurn(id, turn));
    more, s' := more + [EndTurn(id, turn)], Finished(f, t, id, turn);
  }

  lemma NewWhenBusyIsUnsafe(f: Format, s: State)
    requires Sound(s) && Inv(s) && s.cached.None? && !Idle(s)
    ensures !SafeFromNow(f, s)
  {
    if s.round.Some? {
      RoundEndIsSafeIff(s, true);
      LeadsPush(f, s, [], s, true, EndRound(true));
    } else {
      assert s.turns.Keys != {};
      var id :| id in s.turns;
      var more, s' := LateTurnOverwrites(f, s, id);
    }
  }

  // `/new` is safe exactly when no turn is in progress and no round is waiting.
  lemma {:induction false} NewIsSafeIff(f: Format, s: State)
    requires Sound(s) && Inv(s)
    ensures SafeFromNow(f, Restart(s)) <==> Idle(s)
  {
    var s' := Restart(s);
    RestartKeepsInv(s);
    if Idle(s) {
      RestartedIsAttached(s);
      forall more, s'': State | Leads(f, s', more, s'', true) ensures Inv(s'') {
        QuietRunKeepsAttached(f, s', more, s'');
      }
    } else {
      assert Idle(s') <==> Idle(s);
      NewWhenBusyIsUnsafe(f, s');
    }
  }

  // What an overtaken turn takes away: the messages that were saved in between and not yet handed
  // over are in no list and no longer in the session.
  lemma {:induction false} LateTurnTakesAway(f: Format, s: State, id: nat, turn: Turn)
    requires Sound(s) && Inv(s) && id in s.turns && Overwrites(s, s.turns[id])
    ensures var after := Finished(f, s, id, turn);
      && after.overwritten && after.file == Record(Saved(f, turn), 0)
      && after.said == s.said + Saved(f, turn) && after.out == s.out
      && s.said == Concat(Lists(s.out)) + s.file.messages[s.file.lastConsolidated..]
      && s.file.messages[s.file.lastConsolidated..] != []
  {
    assert [] + Saved(f, turn) == Saved(f, turn);
  }

  // What an overtaken round takes away: the same, while its chunk is handed over again.
  lemma {:induction false} LateRoundTakesAway(s: State)
    requires Sound(s) && Inv(s) && s.round.Some? && s.cached != Some(s.round.value.handle)
    ensures var after := Ended(s, true);
      && after.overwritten && after.file.messages == [] && after.said == s.said
      && Lists(after.out) == Lists(s.out) + [s.round.value.chunk]
      && s.said == Concat(Lists(s.out)) + s.file.messages[s.file.lastConsolidated..]
      && s.round.value.chunk != []
  {
    ListsPush(s.out, Handed(s.round.value.chunk, Archived));
  }

  // ---- Losing runs from the start ----

  lemma ShortTurnIsHere(f: Format, user: string, before: seq<Message>, behind: seq<Message>)
    ensures Message(User, Text(user), [], "") in before + Saved(f, Short(user, Null)) + behind
  {
    assert (before + Saved(f, Short(user, Null)) + behind)[|before|] == Message(User, Text(user), [], "");
  }

  // `/new` while turn 0 is waiting for its model.
  lemma NewDuringTurn(f: Format) returns (steps: seq<Step>, s: State)
    ensures Reaches(f, steps, s) && Sound(s) && s.objects == [EMPTY] && s.cached.None? && s.turns == map[0 := 0]
    ensures s.file == EMPTY && s.out == [] && s.said == [] && !s.overwritten
  {
    var s1 := Begun(START, 0);
    s := Restart(s1);
    LeadsPush(f, START, [], START, false, BeginTurn(0));
    LeadsPush(f, START, [] + [BeginTurn(0)], s1, false, New);
    steps := [] + [BeginTurn(0)] + [New];
  }

  // A turn waits for its model, `/new` comes, another turn runs, the first ends: the second is
  // nowhere. No round is involved.
  lemma TurnCanLoseTurns(f: Format, early: string, late: string) returns (steps: seq<Step>, s: State)
    requires early != late
    ensures Reaches(f, steps, s) && s.overwritten && s.out == []
    ensures var m := Message(User, Text(late), [], ""); m in s.said && m !in s.file.messages
  {
    var before, t := NewDuringTurn(f);
    steps, s := TurnLostByTurn(f, before, t, Short(early, Null), Short(late, Null));
    ShortTurnIsHere(f, late, [], Saved(f, Short(early, Null)));
    assert [] + Saved(f, Short(late, Null)) == Saved(f, Short(late, Null));
  }

  lemma TurnLostByTurn(f: Format, before: seq<Step>, t: State, a: Turn, b: Turn) returns (steps: seq<Step>, s: State)
    requires Reaches(f, before, t) && Sound(t) && !t.overwritten && t.cached.None? && t.turns == map[0 := 0] && t.file == EMPTY
    requires Saved(f, b) != []
    ensures Reaches(f, steps, s) && s.overwritten && s.out == t.out
    ensures s.said == t.said + Saved(f, b) + Saved(f, a) && s.file.messages == Saved(f, a)
  {
    ReachableInv(f, before, t);
    WholeTurnKeepsInv(f, t, 1, b);
    var u := WholeTurn(f, t, 1, b);
    LateTurnTakesAway(f, u, 0, a);
    s := Finished(f, u, 0, a);
    steps := before + [BeginTurn(1)] + [EndTurn(1, b)] + [EndTurn(0, a)];
    WholeTurnIsRun(f, START, before, t, false, 1, b);
    LeadsPush(f, START, before + [BeginTurn(1)] + [EndTurn(1, b)], u, false, EndTurn(0, a));
  }

  // Two equal turns.
  ghost function Twice(f: Format, a: Turn): (s: State)
    ensures Sound(s) && !s.overwritten && s.turns == map[] && s.round.None? && s.out == []
    ensures s.said == s.file.messages == Saved(f, a) + Saved(f, a) && s.file.lastConsolidated == 0
    ensures s.objects == [s.file] && s.cached == Some(0)
  {
    WholeTurn(f, WholeTurn(f, START, 0, a), 0, a)
  }

  lemma TwiceIsRun(f: Format, a: Turn) returns (steps: seq<Step>)
    ensures Reaches(f, steps, Twice(f, a))
  {
    WholeTurnIsRun(f, START, [], START, false, 0, a);
    WholeTurnIsRun(f, START, [] + [BeginTurn(0)] + [EndTurn(0, a)], WholeTurn(f, START, 0, a), false, 0, a);
    steps := [] + [BeginTurn(0)] + [EndTurn(0, a)] + [BeginTurn(0)] + [EndTurn(0, a)];
  }

  // A round about to archive the first.
  lemma RoundOnFirst(f: Format, before: seq<Step>, t: State, b: seq<Message>) returns (s: State)
    requires Reaches(f, before, t) && Sound(t) && t.turns == map[] && t.round.None? && t.out == []
    requires t.said == t.file.messages == b + b && t.file.lastConsolidated == 0 && t.objects == [t.file] && t.cached == Some(0)
    requires |b| == 2 && IsUser(b[0])
    ensures Reaches(f, before + [BeginRound(0, 2)], s) && Sound(s) && s.turns == map[] && s.overwritten == t.overwritten && s.out == []
    ensures s.said == s.file.messages == b + b && s.file.lastConsolidated == 0 && s.cached == Some(0) && |s.objects| == 1
    ensures s.round == Some(Round(0, b, 2))
  {
    assert (b + b)[2] == b[0] && (b + b)[0..2] == b;
    LeadsPush(f, START, before, t, false, BeginRound(0, 2));
    s := RoundBegun(t, 0, 2);
  }

  // And `/new`.
  lemma NewDuringRound(f: Format, before: seq<Step>, t: State, b: seq<Message>) returns (s: State)
    requires Reaches(f, before, t) && Sound(t) && t.turns == map[] && t.out == [] && t.round == Some(Round(0, b, 2))
    requires t.said == t.file.messages == b + b && t.file.lastConsolidated == 0 && t.cached == Some(0) && b != []
    ensures Reaches(f, before + [New], s) && Sound(s) && s.cached.None? && s.turns == map[] && s.overwritten == t.overwritten
    ensures s.said == b + b && Lists(s.out) == [b + b] && s.round == t.round
  {
    assert (b + b)[0..] == b + b;
    LeadsPush(f, START, before, t, false, New);
    s := Restart(t);
  }

  lemma TurnLostByRound(f: Format, before: seq<Step>, t: State, turn: Turn) returns (steps: seq<Step>, s: State)
    requires Reaches(f, before, t) && Sound(t) && !t.overwritten && t.cached.None? && t.turns == map[]
    requires t.round.Some? && t.round.value.handle < |t.objects|
    ensures Reaches(f, steps, s) && s.overwritten && s.file.messages == []
    ensures s.said == t.said + Saved(f, turn) && Lists(s.out) == Lists(t.out) + [t.round.value.chunk]
  {
    ReachableInv(f, before, t);
    WholeTurnKeepsInv(f, t, 0, turn);
    var u := WholeTurn(f, t, 0, turn);
    LateRoundTakesAway(u);
    s := Ended(u, true);
    steps := before + [BeginTurn(0)] + [EndTurn(0, turn)] + [EndRound(true)];
    WholeTurnIsRun(f, START, before, t, false, 0, turn);
    LeadsPush(f, START, before + [BeginTurn(0)] + [EndTurn(0, turn)], u, false, EndRound(true));
  }

  // Two turns, a round on the first of them, `/new` while it waits, another turn, and the end of the
  // round: the late turn is nowhere.
  lemma RoundCanLoseTurns(f: Format, early: string, late: string) returns (steps: seq<Step>, s: State)
    requires early != late
    ensures Reaches(f, steps, s) && s.overwritten && s.file.messages == []
    ensures var m := Message(User, Text(late), [], ""); m in s.said && m !in Concat(Lists(s.out))
  {
    var b := Saved(f, Short(early, Null));
    var twice := TwiceIsRun(f, Short(early, Null));
    var waiting := RoundOnFirst(f, twice, Twice(f, Short(early, Null)), b);
    var t := NewDuringRound(f, twice + [BeginRound(0, 2)], waiting, b);
    var before := twice + [BeginRound(0, 2)] + [New];
    steps, s := TurnLostByRound(f, before, t, Short(late, Null));
    assert [b + b] + [b] == [b + b, b];
    LateTurnIsNowhere(b + b, b, Message(User, Text(late), [], ""));
    ShortTurnIsHere(f, late, b + b, []);
    assert b + b + Saved(f, Short(late, Null)) + [] == b + b + Saved(f, Short(late, Null));
  }

  lemma LateTurnIsNowhere(all: seq<Message>, chunk: seq<Message>, m: Message)
    requires m !in all && chunk <= all
    ensures m !in Concat([all, chunk])
  {
    assert [] + [all] == [all] && [all] + [chunk] == [all, chunk];
    ConcatPush([], all);
    ConcatPush([all], chunk);
  }

  // ---- The lists: archived once, pending or lost ----

  // The lists whose fate is Archived.
  function ArchivedLists(out: seq<Handed>): multiset<seq<Message>> {
    if out == [] then multiset{}
    else
      var h := out[|out| - 1];
      ArchivedLists(out[..|out| - 1]) + if h.fate.Archived? then multiset{h.list} else multiset{}
  }

  lemma ArchivedPush(out: seq<Handed>, h: Handed)
    ensures ArchivedLists(out + [h]) == ArchivedLists(out) + if h.fate.Archived? then multiset{h.list} else multiset{}
  {
    assert (out + [h])[..|out|] == out;
  }

  lemma {:induction false} ArchivedUpdate(out: seq<Handed>, j: nat, h: Handed)
    requires j < |out| && !out[j].fate.Archived? && h.list == out[j].list
    ensures ArchivedLists(out[j := h]) == ArchivedLists(out) + if h.fate.Archived? then multiset{h.list} else multiset{}
  {
    var n := |out| - 1;
    if j == n {
      assert out[j := h][..n] == out[..n];
    } else {
      ArchivedUpdate(out[..n], j, h);
      assert out[j := h][..n] == out[..n][j := h];
    }
  }

  function Usables(tries: seq<Tried>): (us: seq<bool>)
    ensures |us| == |tries| && forall t :: 0 <= t < |us| ==> us[t] == tries[t].usable
  {
    seq(|tries|, t requires 0 <= t < |tries| => tries[t].usable)
  }

  // `refused` are the tries of the j-th list, in order, and none of them was accepted.
  ghost predicate RefusedAt(tries: seq<Tried>, j: nat, refused: seq<nat>) {
    && (forall a, b :: 0 <= a < b < |refused| ==> refused[a] < refused[b])
    && (forall a :: 0 <= a < |refused| ==> refused[a] < |tries| && tries[refused[a]].owner == OwnJob(j) && !Accepted(0, Usables(tries), refused[a]))
    && (forall t: nat :: t < |tries| && tries[t].owner == OwnJob(j) ==> t in refused)
  }

  ghost predicate FateIsDue(tries: seq<Tried>, j: nat, fate: Fate) {
    match fate
    case Archived => true
    case Pending(refused) => |refused| < MAX_FAILURES_BEFORE_RAW_ARCHIVE && RefusedAt(tries, j, refused)
    case Lost(refused) => |refused| == MAX_FAILURES_BEFORE_RAW_ARCHIVE && RefusedAt(tries, j, refused)
  }

  // The history file holds exactly the archived lists, each once, besides those of other conversations.
  ghost predicate Filed(out: seq<Handed>, archive: seq<seq<Message>>, others: seq<seq<Message>>) {
    multiset(archive) == ArchivedLists(out) + multiset(others)
  }

  // The counter is that of the log of tries, and every list that is not archived has been refused in
  // every try so far, three if it is lost.
  ghost predicate TriesKept(out: seq<Handed>, tries: seq<Tried>, failures: nat) {
    && failures == CounterAt(0, Usables(tries), |tries|)
    && (forall t :: 0 <= t < |tries| && tries[t].owner.OwnJob? ==> tries[t].owner.index < |out|)
    && (forall j: nat :: j < |out| ==> FateIsDue(tries, j, out[j].fate))
  }

  ghost predicate Books(s: State) {
    Filed(s.out, s.archive, s.others) && TriesKept(s.out, s.tries, s.failures)
  }

  lemma UsablesPush(tries: seq<Tried>, t: Tried)
    ensures Usables(tries + [t]) == Usables(tries) + [t.usable]
  {}

  // One more try, on another list.
  lemma OthersTryKeepsFate(tries: seq<Tried>, t: Tried, j: nat, fate: Fate)
    requires FateIsDue(tries, j, fate) && t.owner != OwnJob(j)
    ensures FateIsDue(tries + [t], j, fate)
  {
    UsablesPush(tries, t);
    if !fate.Archived? {
      forall a | 0 <= a < |fate.refused| ensures !Accepted(0, Usables(tries + [t]), fate.refused[a]) {
        CounterPrefix(0, Usables(tries), t.usable, fate.refused[a]);
      }
    }
  }

  lemma CounterGoesOn(s: State, owner: Owner, usable: bool)
    requires s.failures == CounterAt(0, Usables(s.tries), |s.tries|)
    ensures var s' := Count(s, owner, usable);
      && s'.failures == CounterAt(0, Usables(s'.tries), |s'.tries|)
      && (Accepted(0, Usables(s'.tries), |s.tries|) <==> TakesList(s, usable))
  {
    UsablesPush(s.tries, Tried(owner, usable));
    CounterPrefix(0, Usables(s.tries), usable, |s.tries|);
  }

  // Its own next try.
  lemma OwnTryJudges(s: State, j: nat, usable: bool)
    requires Books(s) && j < |s.out| && s.out[j].fate.Pending?
    ensures FateIsDue(TryList(s, j, usable).tries, j, TryList(s, j, usable).out[j].fate)
  {
    var t, refused := Tried(OwnJob(j), usable), s.out[j].fate.refused;
    var tries := s.tries + [t];
    CounterGoesOn(s, OwnJob(j), usable);
    UsablesPush(s.tries, t);
    assert FateIsDue(s.tries, j, s.out[j].fate);
    if !TakesList(s, usable) {
      var now := refused + [|s.tries|];
      forall a | 0 <= a < |refused| ensures !Accepted(0, Usables(tries), refused[a]) {
        CounterPrefix(0, Usables(s.tries), usable, refused[a]);
      }
      forall i: nat | i < |tries| && tries[i].owner == OwnJob(j) ensures i in now {
        if i < |s.tries| { assert i in refused; } else { assert now[|refused|] == i; }
      }
      assert RefusedAt(tries, j, now);
    }
  }

  lemma TryKeepsFiled(s: State, j: nat, usable: bool)
    requires Filed(s.out, s.archive, s.others) && j < |s.out| && s.out[j].fate.Pending?
    ensures var s' := TryList(s, j, usable); Filed(s'.out, s'.archive, s'.others)
  {
    ArchivedUpdate(s.out, j, TryList(s, j, usable).out[j]);
  }

  lemma TryKeepsTries(s: State, j: nat, usable: bool)
    requires Books(s) && j < |s.out| && s.out[j].fate.Pending?
    ensures var s' := TryList(s, j, usable); TriesKept(s'.out, s'.tries, s'.failures)
  {
    var s', t := TryList(s, j, usable), Tried(OwnJob(j), usable);
    CounterGoesOn(s, OwnJob(j), usable);
    OwnTryJudges(s, j, usable);
    forall i: nat | i < |s'.out| ensures FateIsDue(s'.tries, i, s'.out[i].fate) {
      if i != j { OthersTryKeepsFate(s.tries, t, i, s.out[i].fate); }
    }
  }

  lemma TryKeepsBooks(s: State, j: nat, usable: bool)
    requires Books(s) && j < |s.out| && s.out[j].fate.Pending?
    ensures Books(TryList(s, j, usable))
  {
    TryKeepsFiled(s, j, usable);
    TryKeepsTries(s, j, usable);
  }

  // A try on the waiting round's chunk or in another conversation.
  lemma CountKeepsBooks(s: State, owner: Owner, usable: bool)
    requires Books(s) && !owner.OwnJob?
    ensures Books(Count(s, owner, usable))
  {
    CounterGoesOn(s, owner, usable);
    forall j: nat | j < |s.out| ensures FateIsDue(s.tries + [Tried(owner, usable)], j, s.out[j].fate) {
      OthersTryKeepsFate(s.tries, Tried(owner, usable), j, s.out[j].fate);
    }
  }

  // A list that is handed over now, archived or yet to be tried.
  lemma HandOverKeepsTries(out: seq<Handed>, h: Handed, tries: seq<Tried>, failures: nat)
    requires TriesKept(out, tries, failures) && (h.fate.Archived? || h.fate == Pending([]))
    ensures TriesKept(out + [h], tries, failures)
  {
    forall j: nat | j < |out + [h]| ensures FateIsDue(tries, j, (out + [h])[j].fate) {
      if j < |out| { assert FateIsDue(tries, j, out[j].fate); }
    }
  }

  lemma HandOverKeepsFiled(out: seq<Handed>, h: Handed, archive: seq<seq<Message>>, others: seq<seq<Message>>)
    requires Filed(out, archive, others)
    ensures Filed(out + [h], if h.fate.Archived? then archive + [h.list] else archive, others)
  {
    ArchivedPush(out, h);
  }

  lemma EndedKeepsBooks(s: State, usable: bool)
    requires Sound(s) && Books(s) && s.round.Some?
    ensures Books(Ended(s, usable))
  {
    var counted, h := Count(s, OwnRound, usable), Handed(s.round.value.chunk, Archived);
    CountKeepsBooks(s, OwnRound, usable);
    HandOverKeepsTries(s.out, h, counted.tries, counted.failures);
    HandOverKeepsFiled(s.out, h, s.archive, s.others);
  }

  lemma RestartKeepsBooks(s: State)
    requires Sound(s) && Books(s)
    ensures Books(Restart(s))
  {
    var h := Handed(Drop(s.file.messages, s.file.lastConsolidated), Pending([]));
    assert Find(s).objects[Find(s).cached.value] == s.file;
    HandOverKeepsTries(s.out, h, s.tries, s.failures);
    HandOverKeepsFiled(s.out, h, s.archive, s.others);
  }

  lemma SameBooks(s: State, s': State)
    requires Books(s) && s'.out == s.out && s'.archive == s.archive && s'.others == s.others && s'.failures == s.failures && s'.tries == s.tries
    ensures Books(s')
  {}

  lemma TryOtherKeepsBooks(s: State, list: seq<Message>, usable: bool)
    requires Books(s)
    ensures Books(TryOther(s, list, usable))
  {
    CountKeepsBooks(s, Elsewhere, usable);
  }

  lemma StepKeepsBooks(f: Format, s: State, step: Step)
    requires Sound(s) && Books(s) && Enabled(s, step)
    ensures Books(Next(f, s, step))
  {
    match step {
      case EndRound(usable) => EndedKeepsBooks(s, usable);
      case New => RestartKeepsBooks(s);
      case Try(j, usable) => TryKeepsBooks(s, j, usable);
      case OtherTry(list, usable) => TryOtherKeepsBooks(s, list, usable);
      case _ => SameBooks(s, Next(f, s, step));
    }
  }

  // In every run, whether or not a save took messages away.
  lemma {:induction false} EveryRunKeepsBooks(f: Format, steps: seq<Step>, s: State)
    requires Reaches(f, steps, s)
    ensures Books(s)
  {
    if steps != [] {
      var n := |steps| - 1;
      var t: State :| Leads(f, START, steps[..n], t, false) && Sound(t) && Enabled(t, steps[n]) && s == Next(f, t, steps[n]);
      EveryRunKeepsBooks(f, steps[..n], t);
      StepKeepsBooks(f, t, steps[n]);
    }
  }

  // What `/new` handed over is lost only if, between its three tries, the memory store took a list
  // of somebody else.
  lemma {:induction false} LostOnlyIfOvertaken(f: Format, steps: seq<Step>, s: State, j: nat)
    requires Reaches(f, steps, s) && j < |s.out| && s.out[j].fate.Lost?
    ensures var refused := s.out[j].fate.refused;
      && |refused| == 3
      && exists t: nat :: refused[0] < t < refused[2] && t < |s.tries| && s.tries[t].owner != OwnJob(j) && Accepted(0, Usables(s.tries), t)
  {
    EveryRunKeepsBooks(f, steps, s);
    assert FateIsDue(s.tries, j, s.out[j].fate);
    var r, us := s.out[j].fate.refused, Usables(s.tries);
    assert r[0] < r[1] < r[2];
    RefusedMeansOvertaken(0, us, r[0], r[1], r[2]);
    var t: nat :| r[0] < t < r[2] && t != r[1] && Accepted(0, us, t);
    assert t !in r;
  }


  // A refused try of the only pending list, then one of another conversation's list.
  lemma TriesAlternate(s: State, h: seq<Message>, list: seq<Message>)
    requires s.out == [Handed(h, Pending([]))] && s.failures == 0 && s.tries == []
    ensures var t := TryOther(TryList(s, 0, false), list, true);
      t.out == [Handed(h, Pending([0]))] && t.failures == 0 && |t.tries| == 2 && t.archive == s.archive + [list] && t.others == s.others + [list]
  {
    assert s.out[0].fate.refused + [0] == [0];
  }

  // Two more refused tries.
  lemma TriesFail(s: State, h: seq<Message>)
    requires s.out == [Handed(h, Pending([0]))] && s.failures == 0 && |s.tries| == 2
    ensures var t := TryList(s, 0, false);
      t.out == [Handed(h, Pending([0, 2]))] && TryList(t, 0, false).out == [Handed(h, Lost([0, 2, 3]))] && TryList(t, 0, false).archive == s.archive
  {
    assert s.out[0].fate.refused + [2] == [0, 2];
    assert [0, 2] + [3] == [0, 2, 3];
  }

  lemma TriesAreRun(f: Format, before: seq<Step>, s: State, list: seq<Message>)
    requires Reaches(f, before, s) && Sound(s) && |s.out| == 1 && s.out[0].fate.Pending?
    requires TryList(s, 0, false).out[0].fate.Pending? && list != []
    ensures Reaches(f, before + [Try(0, false)] + [OtherTry(list, true)], TryOther(TryList(s, 0, false), list, true))
  {
    LeadsPush(f, START, before, s, false, Try(0, false));
    LeadsPush(f, START, before + [Try(0, false)], TryList(s, 0, false), false, OtherTry(list, true));
  }

  // Such a run: one turn, `/new`, and a try of another conversation behind the first of its own.
  lemma HandedOverCanBeLost(f: Format, user: string, list: seq<Message>) returns (steps: seq<Step>, s: State)
    requires list != []
    ensures Reaches(f, steps, s) && !s.overwritten && s.archive == [list] && s.others == [list]
    ensures |s.out| == 1 && s.out[0].fate.Lost? && s.out[0].list == Saved(f, Short(user, Null))
  {
    var before, t := OneTurnHandedOver(f, user);
    var h := Saved(f, Short(user, Null));
    TriesAlternate(t, h, list);
    TriesAreRun(f, before, t, list);
    before, t := before + [Try(0, false)] + [OtherTry(list, true)], TryOther(TryList(t, 0, false), list, true);
    TriesFail(t, h);
    s := TryList(TryList(t, 0, false), 0, false);
    steps := before + [Try(0, false)] + [Try(0, false)];
    LeadsPush(f, START, before, t, false, Try(0, false));
    LeadsPush(f, START, before + [Try(0, false)], TryList(t, 0, false), false, Try(0, false));
  }

  lemma OneTurnHandedOver(f: Format, user: string) returns (steps: seq<Step>, s: State)
    ensures Reaches(f, steps, s) && Sound(s) && s.archive == [] && s.others == [] && s.failures == 0 && s.tries == [] && !s.overwritten
    ensures s.out == [Handed(Saved(f, Short(user, Null)), Pending([]))]
  {
    var a := Short(user, Null);
    var b, s1 := Saved(f, a), WholeTurn(f, START, 0, a);
    WholeTurnIsRun(f, START, [], START, false, 0, a);
    s := Restart(s1);
    LeadsPush(f, START, [] + [BeginTurn(0)] + [EndTurn(0, a)], s1, false, New);
    steps := [] + [BeginTurn(0)] + [EndTurn(0, a)] + [New];
    assert [] + b == b && b[0..] == b && [] + [Handed(b, Pending([]))] == [Handed(b, Pending([]))];
  }
}
