// The conversation's state machine on the real objects: sessions, their manager, the memory store and
// the agent loop. Each step of the machine is performed by the methods that the program would call, and
// leaves the objects as the machine says.

module Conversations {
  import opened Common
  import opened Sessions
  import opened AgentLoops
  import opened Memories
  import opened Transcripts

  // A round waiting for the model holds its session object.
  datatype Waiting = Waiting(session: Session, chunk: seq<Message>, end: nat)

  ghost predicate StepsTo(f: Format, s: State, step: Step, s': State) {
    Sound(s) && Enabled(s, step) && s' == Next(f, s, step)
  }

  // The states of a run, each step enabled where it is taken.
  ghost predicate IsPath(f: Format, steps: seq<Step>, path: seq<State>) {
    |path| == |steps| + 1 && forall i: nat :: i < |steps| ==> StepsTo(f, path[i], steps[i], path[i + 1])
  }

  lemma LeadsOn(f: Format, from: State, steps: seq<Step>, t: State, step: Step, s: State)
    requires Leads(f, from, steps, t, false) && StepsTo(f, t, step, s)
    ensures Leads(f, from, steps + [step], s, false)
  {
    LeadsPush(f, from, steps, t, false, step);
  }

  lemma {:induction false} PathIsRun(f: Format, steps: seq<Step>, path: seq<State>, n: nat)
    requires IsPath(f, steps, path) && n <= |steps|
    ensures Leads(f, path[0], steps[..n], path[n], false)
  {
    if n > 0 {
      var i: nat := n - 1;
      PathIsRun(f, steps, path, i);
      LeadsOn(f, path[0], steps[..i], path[i], steps[i], path[i + 1]);
      assert steps[..i] + [steps[i]] == steps[..n];
    }
  }

  class Conversation {
    const key: string
    const manager: SessionManager
    const store: MemoryStore
    const agent: AgentLoop
    var sessions: seq<Session>          // every object made for the key
    var turns: map<nat, Session>        // what the turns in progress hold
    var round: Option<Waiting>
    var lists: seq<seq<Message>>        // handed over for archiving
    ghost var s: State

    // The answer is the one that the step speaks of, and the turn is one of this agent's.
    predicate Fits(step: Step, x: Exchange) {
      match step
      case EndTurn(_, turn) => turn.Llm? ==> turn.maxIterations == agent.maxIterations
      case EndRound(usable) => Usable(x) == usable
      case Try(_, usable) => Usable(x) == usable
      case OtherTry(_, usable) => Usable(x) == usable
      case _ => true
    }

    // The session objects have the values `objects`, the key finds number `cached`, and the file holds `file`.
    ghost predicate SessionsAre(objects: seq<Record>, cached: Option<nat>, file: Record)
      reads this`sessions, manager, sessions
    {
      && |sessions| == |objects|
      && (forall i, j :: 0 <= i < j < |sessions| ==> sessions[i] != sessions[j])
      && (forall i :: 0 <= i < |sessions| ==> sessions[i].key == key && sessions[i].Value() == objects[i])
      && (key in manager.cache <==> cached.Some?)
      && (cached.Some? ==> cached.value < |sessions| && manager.cache[key] == sessions[cached.value])
      && file == if key in manager.files then manager.files[key] else EMPTY
    }

    // Turns and round hold the objects with these numbers.
    ghost predicate HoldersAre(held: map<nat, nat>, waiting: Option<Transcripts.Round>)
      reads this`sessions, this`turns, this`round
    {
      && (forall id :: id in turns <==> id in held)
      && (forall id :: id in turns ==> held[id] < |sessions| && turns[id] == sessions[held[id]])
      && (round.None? <==> waiting.None?)
      && (round.Some? ==>
        && waiting.value.handle < |sessions| && waiting.value.chunk != []
        && round.value == Waiting(sessions[waiting.value.handle], waiting.value.chunk, waiting.value.end))
    }

    ghost predicate StoreIs(archive: seq<seq<Message>>, failures: nat)
      reads store
    {
      store.Valid() && store.archived == archive && store.consecutiveFailures == failures
    }

    ghost predicate ListsAre(out: seq<Handed>)
      reads this`lists
    {
      lists == Lists(out) && forall j :: 0 <= j < |out| && out[j].fate.Pending? ==> out[j].list != []
    }

    // The objects are in the state `s`.
    ghost predicate Mirrors()
      reads this, manager, manager.cache.Values, store, sessions
    {
      && manager.Valid() && Sound(s)
      && SessionsAre(s.objects, s.cached, s.file) && HoldersAre(s.turns, s.round)
      && StoreIs(s.archive, s.failures) && ListsAre(s.out)
    }

    constructor (key: string, manager: SessionManager, store: MemoryStore, agent: AgentLoop)
      requires manager.Valid() && key !in manager.cache && key !in manager.files
      requires store.Valid() && store.archived == [] && store.consecutiveFailures == 0
      ensures Mirrors() && s == START && sessions == []
      ensures this.key == key && this.manager == manager && this.store == store && this.agent == agent
    {
      this.key, this.manager, this.store, this.agent := key, manager, store, agent;
      sessions, turns, round, lists := [], map[], None, [];
      s := START;
    }

    // `get_or_create` on the conversation's key.
    method Find() returns (session: Session)
      requires Mirrors()
      modifies this`sessions, this`s, manager`cache
      ensures Mirrors() && s == Transcripts.Find(old(s)) && session == sessions[s.cached.value]
      ensures old(sessions) <= sessions && forall i :: |old(sessions)| <= i < |sessions| ==> fresh(sessions[i])
    {
      var known := key in manager.cache;
      session := manager.GetOrCreate(key);
      s := Transcripts.Find(s);
      if !known {
        sessions := sessions + [session];
      }
    }

    method RememberTurn(id: nat, session: Session)
      requires Mirrors() && s.cached.Some? && session == sessions[s.cached.value]
      modifies this`turns, this`s
      ensures Mirrors() && s == old(s).(turns := old(s).turns[id := old(s).cached.value])
    {
      turns := turns[id := session];
      s := s.(turns := s.turns[id := s.cached.value]);
    }

    method BeginTurn(id: nat)
      requires Mirrors() && id !in turns
      modifies this`sessions, this`turns, this`s, manager`cache
      ensures Mirrors() && s == Begun(old(s), id)
      ensures old(sessions) <= sessions && forall i :: |old(sessions)| <= i < |sessions| ==> fresh(sessions[i])
    {
      var session := Find();
      RememberTurn(id, session);
    }

    // What a turn appends to the object it holds.
    method AppendTurn(session: Session, turn: Turn, system: string, history: seq<Message>)
      requires turn.Llm? ==> turn.maxIterations == agent.maxIterations
      modifies session`messages
      ensures session.messages == old(session.messages) + Saved(agent.format, turn)
      ensures turn.Short? ==> session.messages == old(session.messages) + [Message(User, Text(turn.user), [], ""), Message(Assistant, turn.answer, [], "")]
    {
      match turn {
        case Short(user, answer) =>
          session.AddMessage(User, Text(user));
          session.AddMessage(Assistant, answer);
        case Llm(p, _, context, text) =>
          var reply, out, all := agent.ProcessLlmTurn(session, p, system, history, context, text);
      }
    }

    // The session side of the end of a turn ...
    method AppendAndSave(id: nat, turn: Turn, system: string, history: seq<Message>, ghost s': State)
      requires Mirrors() && id in turns && (turn.Llm? ==> turn.maxIterations == agent.maxIterations)
      requires s' == Finished(agent.format, s, id, turn)
      modifies manager, turns[id]
      ensures manager.Valid() && SessionsAre(s'.objects, s'.cached, s'.file)
    {
      var session := turns[id];
      AppendTurn(session, turn, system, history);
      manager.Save(session);
    }

    // ... and the turn's own.
    method ForgetTurn(id: nat, ghost s': State)
      requires manager.Valid() && Sound(s') && SessionsAre(s'.objects, s'.cached, s'.file)
      requires HoldersAre(s.turns, s.round) && s'.turns == s.turns - {id} && s'.round == s.round
      requires StoreIs(s'.archive, s'.failures) && ListsAre(s'.out)
      modifies this`turns, this`s
      ensures Mirrors() && s == s'
    {
      turns := turns - {id};
      s := s';
    }

    method EndTurn(id: nat, turn: Turn, system: string, history: seq<Message>)
      requires Mirrors() && id in turns && (turn.Llm? ==> turn.maxIterations == agent.maxIterations)
      modifies this`turns, this`s, manager, turns[id]
      ensures Mirrors() && s == Finished(agent.format, old(s), id, turn)
    {
      ghost var s' := Finished(agent.format, s, id, turn);
      AppendAndSave(id, turn, system, history, s');
      ForgetTurn(id, s');
    }

    method LeaveTurn(id: nat)
      requires Mirrors() && id in turns
      modifies this`turns, this`s
      ensures Mirrors() && s == old(s).(turns := old(s).turns - {id})
    {
      ForgetTurn(id, s.(turns := s.turns - {id}));
    }

    method BeginRound(o: nat, end: nat)
      requires Mirrors() && round.None? && o < |sessions| && IsCut(sessions[o].messages, sessions[o].lastConsolidated, end)
      modifies this`round, this`s
      ensures Mirrors() && s == RoundBegun(old(s), o, end)
    {
      var session := sessions[o];
      round := Some(Waiting(session, session.messages[session.lastConsolidated..end], end));
      s := RoundBegun(s, o, end);
    }

    method ForgetRound(ghost s': State)
      requires manager.Valid() && Sound(s') && SessionsAre(s'.objects, s'.cached, s'.file)
      requires HoldersAre(s.turns, s.round) && s'.turns == s.turns && s'.round == None
      requires StoreIs(s'.archive, s'.failures) && ListsAre(s'.out)
      modifies this`round, this`s
      ensures Mirrors() && s == s'
    {
      round := None;
      s := s';
    }

    method TryStore(list: seq<Message>, x: Exchange, ghost archive: seq<seq<Message>>, ghost failures: nat) returns (ok: bool)
      requires StoreIs(archive, failures) && list != []
      modifies store
      ensures ok == AfterTry(failures, Usable(x)).1
      ensures StoreIs(if ok then archive + [list] else archive, AfterTry(failures, Usable(x)).0)
    {
      ok := store.Consolidate(list, x);
    }

    // The session side of the end of a round whose chunk was taken.
    method TakeChunk(ghost usable: bool, ghost s': State)
      requires manager.Valid() && Sound(s) && SessionsAre(s.objects, s.cached, s.file) && HoldersAre(s.turns, s.round) && ListsAre(s.out)
      requires round.Some? && s' == Ended(s, usable) && TakesList(s, usable)
      modifies this`lists, manager, round.value.session
      ensures manager.Valid() && SessionsAre(s'.objects, s'.cached, s'.file) && ListsAre(s'.out)
    {
      lists := lists + [round.value.chunk];
      manager.FinishRound(round.value.session, round.value.end);
    }

    method EndRound(x: Exchange)
      requires Mirrors() && round.Some?
      modifies this`round, this`lists, this`s, manager, store, round.value.session
      ensures Mirrors() && s == Ended(old(s), Usable(x))
    {
      ghost var s' := Ended(s, Usable(x));
      var ok := TryStore(round.value.chunk, x, s.archive, s.failures);
      if ok {
        TakeChunk(Usable(x), s');
      }
      ForgetRound(s');
    }

    method DropRound()
      requires Mirrors() && round.Some?
      modifies this`round, this`s
      ensures Mirrors() && s == old(s).(round := None)
    {
      ForgetRound(s.(round := None));
    }

    method ClearAndDrop(session: Session, ghost s': State) returns (snapshot: seq<Message>)
      requires Mirrors() && s.cached.Some? && session == sessions[s.cached.value] && s' == Restart(s)
      modifies manager, session
      ensures manager.Valid() && SessionsAre(s'.objects, s'.cached, s'.file)
      ensures snapshot == Drop(s.objects[s.cached.value].messages, s.objects[s.cached.value].lastConsolidated)
    {
      snapshot := manager.StartOver(session);
    }

    method HandOver(snapshot: seq<Message>)
      requires ListsAre(s.out)
      modifies this`lists
      ensures ListsAre(if snapshot == [] then s.out else s.out + [Handed(snapshot, Pending([]))])
    {
      if snapshot != [] {
        lists := lists + [snapshot];
      }
    }

    method StartOverOn(session: Session)
      requires Mirrors() && s.cached.Some? && session == sessions[s.cached.value]
      modifies this`lists, this`s, manager, session
      ensures Mirrors() && s == Restart(old(s))
    {
      ghost var s' := Restart(s);
      var snapshot := ClearAndDrop(session, s');
      HandOver(snapshot);
      s := s';
    }

    method StartOver()
      requires Mirrors()
      modifies this`sessions, this`lists, this`s, manager, sessions
      ensures Mirrors() && s == Restart(old(s))
      ensures old(sessions) <= sessions && forall i :: |old(sessions)| <= i < |sessions| ==> fresh(sessions[i])
    {
      var session := Find();
      StartOverOn(session);
    }

    method TryList(j: nat, x: Exchange)
      requires Mirrors() && j < |s.out| && s.out[j].fate.Pending?
      modifies this`s, store
      ensures Mirrors() && s == Transcripts.TryList(old(s), j, Usable(x))
    {
      var ok := TryStore(lists[j], x, s.archive, s.failures);
      s := Transcripts.TryList(s, j, Usable(x));
    }

    method TryOther(list: seq<Message>, x: Exchange)
      requires Mirrors() && list != []
      modifies this`s, store
      ensures Mirrors() && s == Transcripts.TryOther(old(s), list, Usable(x))
    {
      var ok := TryStore(list, x, s.archive, s.failures);
      s := Transcripts.TryOther(s, list, Usable(x));
    }

    method PerformTurnStep(step: Step, system: string, history: seq<Message>)
      requires step.BeginTurn? || step.EndTurn? || step.LeaveTurn?
      requires Mirrors() && Enabled(s, step) && (step.EndTurn? && step.turn.Llm? ==> step.turn.maxIterations == agent.maxIterations)
      modifies this, manager, store, sessions
      ensures Mirrors() && s == Next(agent.format, old(s), step)
      ensures old(sessions) <= sessions && forall i :: |old(sessions)| <= i < |sessions| ==> fresh(sessions[i])
    {
      match step {
        case BeginTurn(id) => BeginTurn(id);
        case EndTurn(id, turn) => EndTurn(id, turn, system, history);
        case LeaveTurn(id) => LeaveTurn(id);
      }
    }

    method PerformRoundStep(step: Step, x: Exchange)
      requires step.BeginRound? || step.EndRound? || step.DropRound?
      requires Mirrors() && Enabled(s, step) && Fits(step, x)
      modifies this, manager, store, sessions
      ensures Mirrors() && s == Next(agent.format, old(s), step)
      ensures old(sessions) <= sessions && forall i :: |old(sessions)| <= i < |sessions| ==> fresh(sessions[i])
    {
      match step {
        case BeginRound(o, end) => BeginRound(o, end);
        case EndRound(_) => EndRound(x);
        case DropRound => DropRound();
      }
    }

    // One step of the machine. `x` is the model's answer if the step is a try, `system` and `history`
    // are what the prompt of an ending turn was built from.
    method Perform(step: Step, x: Exchange, system: string, history: seq<Message>)
      requires Mirrors() && Enabled(s, step) && Fits(step, x)
      modifies this, manager, store, sessions
      ensures Mirrors() && s == Next(agent.format, old(s), step)
      ensures old(sessions) <= sessions && forall i :: |old(sessions)| <= i < |sessions| ==> fresh(sessions[i])
    {
      if step.BeginTurn? || step.EndTurn? || step.LeaveTurn? {
        PerformTurnStep(step, system, history);
      } else if step.BeginRound? || step.EndRound? || step.DropRound? {
        PerformRoundStep(step, x);
      } else if step.New? {
        StartOver();
      } else if step.Try? {
        TryList(step.index, x);
      } else {
        TryOther(step.list, x);
      }
    }

    // A whole run: on the objects it is a run of the machine, so what is proved about all runs holds of
    // the objects.
    method Run(steps: seq<Step>, exchange: nat -> Exchange, system: string, history: seq<Message>, ghost path: seq<State>)
      requires Mirrors() && path != [] && path[0] == s && IsPath(agent.format, steps, path)
      requires forall i: nat :: i < |steps| ==> Fits(steps[i], exchange(i))
      modifies this, manager, store, sessions
      ensures Mirrors() && s == path[|steps|] && Leads(agent.format, old(s), steps, s, false)
    {
      for i := 0 to |steps|
        invariant Mirrors() && s == path[i]
        invariant old(sessions) <= sessions && forall k :: |old(sessions)| <= k < |sessions| ==> fresh(sessions[k])
      {
        assert StepsTo(agent.format, path[i], steps[i], path[i + 1]);
        Perform(steps[i], exchange(i), system, history);
      }
      PathIsRun(agent.format, steps, path, |steps|);
      assert steps[..|steps|] == steps;
    }
  }
}
