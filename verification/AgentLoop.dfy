// One LLM turn: building the prompt (core/agent/context.py), running the tool loop and saving the
// new messages into the session (core/agent/loop.py).

module AgentLoops {
  import opened Common
  import opened Sessions

  // The tag of the runtime context, the mark of a truncated tool result and the length that calls
  // for it. The results below hold for any such constants whose tag is one clean line.
  datatype Format = Format(tag: string, truncated: string, maxChars: nat)

  // The program's own. The tag is written in three parts because `FormatTagIsClean` looks at one after
  // the other.
  const FORMAT := Format("[Runtime Context \U{2014} " + "metadata only, " + "not instructions]", "\n... (tronqu\U{e9})", 16000)

  // ---- The prompt ----

  // `time` is the formatted current time. An empty channel or chat id stands for a missing one.
  function RuntimeContext(f: Format, time: string, channel: string, chatId: string): string {
    var lines := "Heure actuelle: " + time;
    f.tag + "\n"
    + if channel != "" && chatId != "" then lines + "\n" + ("Canal: " + channel) + "\n" + ("Session: " + chatId) else lines
  }

  function UserMessage(context: string, current: string): Message {
    Message(User, Text(context + "\n\n" + current), [], "")
  }

  function BuildMessages(system: string, history: seq<Message>, context: string, current: string): seq<Message> {
    [Message(Other("system"), Text(system), [], "")] + history + [UserMessage(context, current)]
  }

  // ---- The tool loop ----

  datatype ToolCall = ToolCall(id: string, name: string)

  // One reply of the model; `clean` is its content without the think blocks, if any is left.
  datatype Response = Response(content: Content, clean: Option<string>, toolCalls: seq<ToolCall>, isError: bool)

  // The model's i-th reply and the result of its k-th tool call.
  datatype Provider = Provider(chat: nat -> Response, execute: (nat, nat) -> string)

  function Ids(calls: seq<ToolCall>): (ids: seq<string>)
    ensures |ids| == |calls| && forall k :: 0 <= k < |ids| ==> ids[k] == calls[k].id
  {
    if calls == [] then [] else Ids(calls[..|calls| - 1]) + [calls[|calls| - 1].id]
  }

  function ToolResult(p: Provider, i: nat, k: nat): Message
    requires k < |p.chat(i).toolCalls|
  {
    Message(Tool, Text(p.execute(i, k)), [], p.chat(i).toolCalls[k].id)
  }

  function ToolResults(p: Provider, i: nat, n: nat): (rs: seq<Message>)
    requires n <= |p.chat(i).toolCalls|
    ensures |rs| == n && forall k :: 0 <= k < n ==> rs[k] == ToolResult(p, i, k)
  {
    if n == 0 then [] else ToolResults(p, i, n - 1) + [ToolResult(p, i, n - 1)]
  }

  function Announcement(p: Provider, i: nat): Message {
    Message(Assistant, p.chat(i).content, Ids(p.chat(i).toolCalls), "")
  }

  function OptionalText(t: Option<string>): Content {
    if t.Some? then Text(t.value) else Null
  }

  // One announcing assistant message and one result per call.
  function Round(p: Provider, i: nat): seq<Message> {
    [Announcement(p, i)] + ToolResults(p, i, |p.chat(i).toolCalls|)
  }

  // The messages appended from iteration i on: rounds of one announcing assistant message and one
  // result per call, then the answer. A model error appends nothing.
  function Rounds(p: Provider, maxIterations: int, i: nat): seq<Message>
    decreases maxIterations - i
  {
    if i >= maxIterations then []
    else
      var r := p.chat(i);
      if r.toolCalls != [] then Round(p, i) + Rounds(p, maxIterations, i + 1)
      else if r.isError then []
      else [Message(Assistant, OptionalText(r.clean), [], "")]
  }

  lemma RoundSplits(p: Provider, maxIterations: int, i: nat, before: seq<Message>)
    requires i < maxIterations && p.chat(i).toolCalls != []
    ensures before + Rounds(p, maxIterations, i) == before + Round(p, i) + Rounds(p, maxIterations, i + 1)
  {
    Regroup(before, Round(p, i), Rounds(p, maxIterations, i + 1));
  }

  const MODEL_ERROR := "D\U{e9}sol\U{e9}, une erreur s'est produite avec le mod\U{e8}le IA."

  // How the loop ends: with the answer of the first reply without tool calls, or none in time.
  datatype Ending = Answered(text: Option<string>) | Exhausted

  function EndingFrom(p: Provider, maxIterations: int, i: nat): Ending
    decreases maxIterations - i
  {
    if i >= maxIterations then Exhausted
    else
      var r := p.chat(i);
      if r.toolCalls != [] then EndingFrom(p, maxIterations, i + 1)
      else if r.isError then Answered(Some(if r.clean.Some? && r.clean.value != "" then r.clean.value else MODEL_ERROR))
      else Answered(r.clean)
  }

  // Each of the first n replies calls tools.
  predicate CallsTools(p: Provider, n: int) {
    forall i: nat :: i < n ==> p.chat(i).toolCalls != []
  }

  // The reply ends the loop with a text.
  predicate HasText(r: Response) {
    r.toolCalls == [] && (r.isError || r.clean.Some?)
  }

  // The prompt: the system's text, the history, the user's text behind the runtime context.
  lemma PromptParts(system: string, history: seq<Message>, context: string, current: string, more: seq<Message>)
    ensures var all := BuildMessages(system, history, context, current) + more;
      && |all| == 2 + |history| + |more| && all[0] == Message(Other("system"), Text(system), [], "") && all[1..1 + |history|] == history
      && all[1 + |history|] == Message(User, Text(context + "\n\n" + current), [], "")
  {}

  // ---- What the loop appends, place by place ----

  // Where round i begins, if all replies before it call tools: each of them takes one place and one
  // more for every call.
  function At(p: Provider, base: nat, i: nat): nat {
    if i == 0 then base else At(p, base, i - 1) + 1 + |p.chat(i - 1).toolCalls|
  }

  // Round i stands at its place: the announcement with the reply's content and the ids of its calls,
  // then the result of each call under the call's id.
  ghost predicate RoundStands(p: Provider, base: nat, ms: seq<Message>, i: nat) {
    var a, calls := At(p, base, i), p.chat(i).toolCalls;
    && a + |calls| < |ms|
    && ms[a].role == Assistant && ms[a].content == p.chat(i).content && ms[a].toolCallId == ""
    && |ms[a].toolCalls| == |calls| && (forall k :: 0 <= k < |calls| ==> ms[a].toolCalls[k] == calls[k].id)
    && forall j :: a < j <= a + |calls| ==> ms[j] == Message(Tool, Text(p.execute(i, j - a - 1)), [], calls[j - a - 1].id)
  }

  // Reply i, which calls no tools, ends the list: with its text without the think blocks, or with
  // nothing if it is an error. `text` is that text, or for an error something to show.
  ghost predicate AnswerStands(p: Provider, base: nat, ms: seq<Message>, text: Option<string>, i: nat) {
    var a, r := At(p, base, i), p.chat(i);
    if r.isError then
      |ms| == a && text == Some(if r.clean != None && r.clean != Some("") then r.clean.value else MODEL_ERROR)
    else
      |ms| == a + 1 && ms[a] == Message(Assistant, if r.clean == None then Null else Text(r.clean.value), [], "") && text == r.clean
  }

  // Every round and the answer stand in their places.
  ghost predicate Records(p: Provider, maxIterations: int, base: nat, ms: seq<Message>, text: Option<string>) {
    && (forall i: nat :: i < maxIterations && CallsTools(p, i + 1) ==> RoundStands(p, base, ms, i))
    && (forall i: nat :: i < maxIterations && CallsTools(p, i) && p.chat(i).toolCalls == [] ==> AnswerStands(p, base, ms, text, i))
    && (CallsTools(p, maxIterations) ==> |ms| == At(p, base, if maxIterations < 0 then 0 else maxIterations))
  }

  lemma RoundMeaning(p: Provider, i: nat)
    ensures var round, calls := Round(p, i), p.chat(i).toolCalls;
      && |round| == 1 + |calls| && round[0] == Announcement(p, i)
      && forall j :: 1 <= j <= |calls| ==> round[j] == ToolResult(p, i, j - 1)
  {}

  lemma FirstRoundStands(p: Provider, base: nat, i: nat, before: seq<Message>, behind: seq<Message>)
    requires |before| == At(p, base, i)
    ensures RoundStands(p, base, before + Round(p, i) + behind, i)
  {
    var round, a := Round(p, i), |before|;
    var all := before + round + behind;
    RoundMeaning(p, i);
    Inside(before, round, behind, 0);
    forall j | a < j <= a + |p.chat(i).toolCalls| ensures all[j] == ToolResult(p, i, j - a - 1) {
      Inside(before, round, behind, j - a);
    }
  }

  // What the loop appends from iteration `from` on puts every later round in its place.
  lemma {:induction false} RoundsStand(p: Provider, maxIterations: int, base: nat, from: nat, before: seq<Message>, i: nat)
    requires |before| == At(p, base, from) && from <= i < maxIterations && CallsTools(p, i + 1)
    ensures RoundStands(p, base, before + Rounds(p, maxIterations, from), i)
    decreases i - from
  {
    RoundSplits(p, maxIterations, from, before);
    if from == i {
      FirstRoundStands(p, base, i, before, Rounds(p, maxIterations, i + 1));
    } else {
      RoundsStand(p, maxIterations, base, from + 1, before + Round(p, from), i);
    }
  }

  lemma AnswerEndsHere(p: Provider, maxIterations: int, base: nat, before: seq<Message>, i: nat, text: Option<string>)
    requires |before| == At(p, base, i) && i < maxIterations && p.chat(i).toolCalls == []
    requires EndingFrom(p, maxIterations, i) == Answered(text)
    ensures AnswerStands(p, base, before + Rounds(p, maxIterations, i), text, i)
  {}

  lemma {:induction false} AnswerEnds(p: Provider, maxIterations: int, base: nat, from: nat, before: seq<Message>, i: nat, text: Option<string>)
    requires |before| == At(p, base, from) && from <= i < maxIterations && CallsTools(p, i) && p.chat(i).toolCalls == []
    requires EndingFrom(p, maxIterations, from) == Answered(text)
    ensures AnswerStands(p, base, before + Rounds(p, maxIterations, from), text, i)
    decreases i - from
  {
    if from == i {
      AnswerEndsHere(p, maxIterations, base, before, i, text);
    } else {
      RoundSplits(p, maxIterations, from, before);
      AnswerEnds(p, maxIterations, base, from + 1, before + Round(p, from), i, text);
    }
  }

  lemma {:induction false} RoundsOnly(p: Provider, maxIterations: int, base: nat, from: nat)
    requires from <= maxIterations && CallsTools(p, maxIterations)
    ensures At(p, base, from) + |Rounds(p, maxIterations, from)| == At(p, base, maxIterations)
    decreases maxIterations - from
  {
    if from < maxIterations {
      RoundsOnly(p, maxIterations, base, from + 1);
    }
  }

  // ---- Saving the turn ----

  predicate BlankAt(s: string, k: int) {
    0 <= k < |s| - 1 && s[k] == '\n' && s[k + 1] == '\n'
  }

  // Index of the first blank line, i.e. of the first of two adjacent newlines.
  function FindBlankLine(s: string, from: nat): (i: Option<nat>)
    ensures i.Some? ==> from <= i.value && BlankAt(s, i.value)
    ensures forall k :: from <= k && BlankAt(s, k) ==> i.Some? && i.value <= k
    decreases |s| - from
  {
    if from >= |s| - 1 then None
    else if BlankAt(s, from) then Some(from)
    else FindBlankLine(s, from + 1)
  }

  // `text.split("\n\n", 1)[1]`, unless it is missing or blank.
  function BehindBlankLine(text: string): Option<string> {
    var blank := FindBlankLine(text, 0);
    if blank.Some? && Strip(text[blank.value + 2..]) != "" then Some(text[blank.value + 2..]) else None
  }

  // What is kept of a user message: all of it, unless it carries a runtime context.
  function UserPart(f: Format, text: string): Option<string> {
    if f.tag <= text then BehindBlankLine(text) else Some(text)
  }

  function Truncated(f: Format, content: Content): Content {
    if content.Text? && |content.text| > f.maxChars
    then Text(content.text[..f.maxChars] + f.truncated)
    else content
  }

  predicate IsEmptyAnswer(m: Message) {
    m.role.Assistant? && m.toolCalls == [] && (m.content == Null || m.content == Text("") || m.content == Parts(0))
  }

  // What is stored for the message `m`, if anything.
  function Stored(f: Format, m: Message): Option<Message> {
    if IsEmptyAnswer(m) then None
    else if m.role.Tool? then Some(m.(content := Truncated(f, m.content)))
    else if m.role.User? && m.content.Text? then
      match UserPart(f, m.content.text) {
        case Some(text) => Some(m.(content := Text(text)))
        case None => None
      }
    else Some(m)
  }

  function StoredAll(f: Format, ms: seq<Message>): seq<Message> {
    if ms == [] then []
    else StoredAll(f, ms[..|ms| - 1]) + (match Stored(f, ms[|ms| - 1]) case Some(m) => [m] case None => [])
  }

  lemma {:induction false} StoredAllConcat(f: Format, a: seq<Message>, b: seq<Message>)
    ensures StoredAll(f, a + b) == StoredAll(f, a) + StoredAll(f, b)
    decreases |b|
  {
    if b == [] {
      assert a + b == a;
    } else {
      StoredAllConcat(f, a, b[..|b| - 1]);
      assert (a + b)[..|a + b| - 1] == a + b[..|b| - 1];
    }
  }

  // The three together, for the whole loop.
  lemma RoundsStandAll(p: Provider, maxIterations: int, initial: seq<Message>, messages: seq<Message>, text: Option<string>)
    requires messages == initial + Rounds(p, maxIterations, 0)
    requires EndingFrom(p, maxIterations, 0) == if CallsTools(p, maxIterations) then Exhausted else Answered(text)
    ensures Records(p, maxIterations, |initial|, messages, text)
  {
    forall i: nat | i < maxIterations && CallsTools(p, i + 1) ensures RoundStands(p, |initial|, messages, i) {
      RoundsStand(p, maxIterations, |initial|, 0, initial, i);
    }
    forall i: nat | i < maxIterations && CallsTools(p, i) && p.chat(i).toolCalls == []
      ensures AnswerStands(p, |initial|, messages, text, i)
    {
      AnswerEnds(p, maxIterations, |initial|, 0, initial, i, text);
    }
    if CallsTools(p, maxIterations) && maxIterations >= 0 {
      RoundsOnly(p, maxIterations, |initial|, 0);
    }
  }

  // ---- What is stored, message by message ----

  // The first two adjacent newlines of `text` are at n.
  ghost predicate FirstBlankAt(text: string, n: nat) {
    n + 1 < |text| && text[n] == '\n' && text[n + 1] == '\n' && forall j :: 0 <= j < n && text[j] == '\n' ==> text[j + 1] != '\n'
  }

  // `rest` is what follows the first blank line of `text`.
  ghost predicate FollowsFirstBlank(text: string, rest: string) {
    exists n: nat :: FirstBlankAt(text, n) && rest == text[n + 2..]
  }

  // `k` is the stored form of `m`: itself, but for a long tool result, which is cut and marked, and for
  // a user's text behind a runtime context, which loses the context.
  ghost predicate StoredAs(f: Format, m: Message, k: Message) {
    && k.role == m.role && k.toolCalls == m.toolCalls && k.toolCallId == m.toolCallId
    && (m.role.Assistant? ==> k.content == m.content && (m.toolCalls != [] || (m.content != Null && m.content != Text("") && m.content != Parts(0))))
    && (m.role.Tool? ==>
      if m.content.Text? && |m.content.text| > f.maxChars then
        k.content.Text? && k.content.text == m.content.text[..f.maxChars] + f.truncated
      else
        k.content == m.content)
    && (m.role.User? ==>
      if m.content.Text? && f.tag <= m.content.text then
        k.content.Text? && FollowsFirstBlank(m.content.text, k.content.text) && !AllSpace(k.content.text)
      else
        k.content == m.content)
    && (m.role.Other? ==> k.content == m.content)
  }

  // `m` is not stored: an assistant message without calls and content, or a user's text that consists
  // of a runtime context only.
  ghost predicate LeftOut(f: Format, m: Message) {
    || (m.role.Assistant? && m.toolCalls == [] && (m.content == Null || m.content == Text("") || m.content == Parts(0)))
    || (m.role.User? && m.content.Text? && f.tag <= m.content.text
        && forall rest :: FollowsFirstBlank(m.content.text, rest) ==> AllSpace(rest))
  }

  // `kept` are the messages of `turn` at the positions `idx`, in order, each in its stored form; the
  // others are left out.
  ghost predicate Picks(f: Format, turn: seq<Message>, kept: seq<Message>, idx: seq<nat>) {
    && |kept| == |idx|
    && (forall a, b :: 0 <= a < b < |idx| ==> idx[a] < idx[b])
    && (forall a :: 0 <= a < |idx| ==> idx[a] < |turn| && StoredAs(f, turn[idx[a]], kept[a]))
    && (forall i: nat :: i < |turn| && i !in idx ==> LeftOut(f, turn[i]))
  }

  ghost predicate Keeps(f: Format, turn: seq<Message>, kept: seq<Message>) {
    exists idx :: Picks(f, turn, kept, idx)
  }

  lemma FirstBlankFollows(text: string, rest: string)
    ensures FollowsFirstBlank(text, rest) <==> FindBlankLine(text, 0).Some? && rest == text[FindBlankLine(text, 0).value + 2..]
  {
    var b := FindBlankLine(text, 0);
    if b.Some? {
      assert BlankAt(text, b.value);
      forall j | 0 <= j < b.value && text[j] == '\n' ensures text[j + 1] != '\n' {
        assert !BlankAt(text, j);
      }
      assert FirstBlankAt(text, b.value);
    }
    if FollowsFirstBlank(text, rest) {
      var n: nat :| FirstBlankAt(text, n) && rest == text[n + 2..];
      assert BlankAt(text, n);
      assert b.value == n;
    }
  }

  lemma BehindBlankLineMeaning(text: string)
    ensures match BehindBlankLine(text) {
      case Some(rest) => FollowsFirstBlank(text, rest) && !AllSpace(rest)
      case None => forall rest :: FollowsFirstBlank(text, rest) ==> AllSpace(rest)
    }
  {
    var b := FindBlankLine(text, 0);
    if b.Some? {
      FirstBlankFollows(text, text[b.value + 2..]);
      StripEmptyIffBlank(text[b.value + 2..]);
    }
    forall rest | FollowsFirstBlank(text, rest) ensures b.Some? && rest == text[b.value + 2..] {
      FirstBlankFollows(text, rest);
    }
  }

  lemma StoredMeaning(f: Format, m: Message)
    ensures match Stored(f, m) { case Some(k) => StoredAs(f, m, k) case None => LeftOut(f, m) }
  {
    if m.role.User? && m.content.Text? {
      BehindBlankLineMeaning(m.content.text);
    }
  }

  lemma {:induction false} StoredAllPicks(f: Format, ms: seq<Message>) returns (idx: seq<nat>)
    ensures Picks(f, ms, StoredAll(f, ms), idx)
  {
    idx := [];
    if ms != [] {
      var n := |ms| - 1;
      idx := StoredAllPicks(f, ms[..n]);
      StoredMeaning(f, ms[n]);
      var front := idx;
      if Stored(f, ms[n]).Some? {
        idx := idx + [n];
        assert idx[|front|] == n;
      }
      forall i: nat | i < |ms| && i !in idx ensures LeftOut(f, ms[i]) {
        if i < n {
          assert i !in front;
          assert ms[..n][i] == ms[i];
        }
      }
    }
  }

  // The reply answers with a text that is left without the think blocks.
  predicate GivesAnswer(r: Response) {
    r.toolCalls == [] && !r.isError && r.clean.Some? && r.clean.value != ""
  }

  predicate EndsWith(ms: seq<Message>, m: Message) {
    ms != [] && ms[|ms| - 1] == m
  }

  // An answer of the model that is neither empty nor an error is the result, and the last message of `ms`.
  ghost predicate SavesAnswer(p: Provider, maxIterations: int, text: Option<string>, ms: seq<Message>) {
    forall i: nat :: i < maxIterations && CallsTools(p, i) && GivesAnswer(p.chat(i)) ==>
      text == p.chat(i).clean && EndsWith(ms, Message(Assistant, Text(p.chat(i).clean.value), [], ""))
  }

  // The last position of increasing ones is that of the last element, if that is among them.
  lemma LastPosition(idx: seq<nat>, n: nat)
    requires n in idx && forall a, b :: 0 <= a < b < |idx| ==> idx[a] < idx[b]
    requires forall a :: 0 <= a < |idx| ==> idx[a] <= n
    ensures idx[|idx| - 1] == n
  {
    var a :| 0 <= a < |idx| && idx[a] == n;
    assert idx[|idx| - 1] <= n;
  }

  lemma LastIsPicked(f: Format, turn: seq<Message>, kept: seq<Message>, idx: seq<nat>)
    requires Picks(f, turn, kept, idx) && turn != [] && !LeftOut(f, turn[|turn| - 1])
    ensures kept != [] && StoredAs(f, turn[|turn| - 1], kept[|kept| - 1])
  {
    var n: nat := |turn| - 1;
    assert n in idx;
    LastPosition(idx, n);
    assert StoredAs(f, turn[idx[|idx| - 1]], kept[|idx| - 1]);
  }

  // If the last message of the turn is an assistant message with content, it is the last one stored.
  lemma LastIsKept(f: Format, turn: seq<Message>, kept: seq<Message>, m: Message)
    requires Keeps(f, turn, kept) && EndsWith(turn, m)
    requires m.role.Assistant? && m.content.Text? && m.content.text != ""
    ensures EndsWith(kept, m)
  {
    var idx :| Picks(f, turn, kept, idx);
    LastIsPicked(f, turn, kept, idx);
  }

  lemma TurnEndsWithAnswer(p: Provider, base: nat, all: seq<Message>, text: Option<string>, skip: nat, i: nat)
    requires AnswerStands(p, base, all, text, i) && skip < base && GivesAnswer(p.chat(i))
    ensures text == p.chat(i).clean && skip < |all| && EndsWith(all[skip..], Message(Assistant, Text(p.chat(i).clean.value), [], ""))
  {
    PlacesGrow(p, base, i);
  }

  lemma AnswerIsSaved(f: Format, p: Provider, maxIterations: int, base: nat, all: seq<Message>, text: Option<string>, skip: nat, before: seq<Message>, kept: seq<Message>)
    requires Records(p, maxIterations, base, all, text) && skip < base <= |all| && Keeps(f, all[skip..], kept)
    ensures SavesAnswer(p, maxIterations, text, before + kept)
  {
    forall i: nat | i < maxIterations && CallsTools(p, i) && GivesAnswer(p.chat(i))
      ensures text == p.chat(i).clean && EndsWith(before + kept, Message(Assistant, Text(p.chat(i).clean.value), [], ""))
    {
      TurnEndsWithAnswer(p, base, all, text, skip, i);
      LastIsKept(f, all[skip..], kept, Message(Assistant, Text(p.chat(i).clean.value), [], ""));
    }
  }

  lemma {:induction false} PlacesGrow(p: Provider, base: nat, i: nat)
    ensures At(p, base, i) >= base
  {
    if i > 0 {
      PlacesGrow(p, base, i - 1);
    }
  }

  class AgentLoop {
    const format: Format
    const maxIterations: int

    constructor (format: Format, maxIterations: int)
      ensures this.format == format && this.maxIterations == maxIterations
    {
      this.format, this.maxIterations := format, maxIterations;
    }

    // Announces the calls of a reply and appends their results.
    method RunTools(p: Provider, i: nat, before: seq<Message>) returns (messages: seq<Message>)
      ensures messages == before + Round(p, i)
    {
      var response := p.chat(i);
      messages := before + [Message(Assistant, response.content, Ids(response.toolCalls), "")];
      for k := 0 to |response.toolCalls|
        invariant messages == before + [Announcement(p, i)] + ToolResults(p, i, k)
      {
        messages := messages + [Message(Tool, Text(p.execute(i, k)), [], response.toolCalls[k].id)];
      }
      Regroup(before, [Announcement(p, i)], ToolResults(p, i, |response.toolCalls|));
    }

    // The loop appends exactly `Rounds` to the prompt. It reports exhaustion when only the last
    // iteration could still have brought a text and did not: the final test cannot tell an answer
    // without text from none.
    method RunAgentLoop(p: Provider, initial: seq<Message>) returns (text: Option<string>, outOfIterations: bool, messages: seq<Message>)
      ensures messages == initial + Rounds(p, maxIterations, 0)
      ensures EndingFrom(p, maxIterations, 0) == if CallsTools(p, maxIterations) then Exhausted else Answered(text)
      ensures CallsTools(p, maxIterations) ==> text == None
      ensures outOfIterations <==> CallsTools(p, maxIterations - 1) && (maxIterations >= 1 ==> !HasText(p.chat(maxIterations - 1)))
      ensures initial <= messages
      ensures Records(p, maxIterations, |initial|, messages, text)
    {
      messages := initial;
      text := None;
      var iteration := 0;
      ghost var all := initial + Rounds(p, maxIterations, 0);
      ghost var ended := false;
      while iteration < maxIterations
        invariant 0 <= iteration && (maxIterations >= 0 ==> iteration <= maxIterations)
        invariant !ended && text == None
        invariant messages + Rounds(p, maxIterations, iteration) == all
        invariant EndingFrom(p, maxIterations, iteration) == EndingFrom(p, maxIterations, 0)
        invariant CallsTools(p, iteration)
      {
        ghost var i := iteration;
        iteration := iteration + 1;
        var response := p.chat(iteration - 1);
        if response.toolCalls != [] {
          RoundSplits(p, maxIterations, i, messages);
          messages := RunTools(p, iteration - 1, messages);
        } else {
          ended := true;
          if response.isError {
            text := Some(if response.clean.Some? && response.clean.value != "" then response.clean.value else MODEL_ERROR);
            assert messages + [] == messages;
          } else {
            messages := messages + [Message(Assistant, OptionalText(response.clean), [], "")];
            text := response.clean;
          }
          break;
        }
      }
      if !ended {
        assert messages + [] == messages;
      }
      outOfIterations := text == None && iteration >= maxIterations;
      RoundsStandAll(p, maxIterations, initial, messages, text);
    }

    // The body of the loop in `_save_turn`, up to the append.
    method PrepareEntry(m: Message) returns (keep: bool, entry: Message)
      ensures Stored(format, m) == if keep then Some(entry) else None
    {
      keep, entry := true, m;
      if m.role.Assistant? && (m.content == Null || m.content == Text("") || m.content == Parts(0)) && m.toolCalls == [] {
        keep := false;
      } else if m.role.Tool? && m.content.Text? && |m.content.text| > format.maxChars {
        entry := entry.(content := Text(m.content.text[..format.maxChars] + format.truncated));
      } else if m.role.User? {
        if m.content.Text? && format.tag <= m.content.text {
          match BehindBlankLine(m.content.text) {
            case Some(rest) => entry := entry.(content := Text(rest));
            case None => keep := false;
          }
        }
      }
    }

    method SaveTurn(session: Session, messages: seq<Message>, skip: nat)
      modifies session`messages
      ensures session.messages == old(session.messages) + StoredAll(format, Drop(messages, skip))
      ensures Keeps(format, Drop(messages, skip), session.messages[|old(session.messages)|..])
    {
      var turn := Drop(messages, skip);
      for k := 0 to |turn|
        invariant session.messages == old(session.messages) + StoredAll(format, turn[..k])
      {
        var m := turn[k];
        var keep, entry := PrepareEntry(m);
        assert turn[..k + 1][..k] == turn[..k];
        assert turn[..k + 1][|turn[..k + 1]| - 1] == m;
        if keep {
          session.messages := session.messages + [entry];
        }
      }
      assert turn[..|turn|] == turn;
      assert session.messages[|old(session.messages)|..] == StoredAll(format, turn);
      ghost var idx := StoredAllPicks(format, turn);
    }

    // The LLM branch of `_process_message`, from the prompt to the saved turn. `history` is what the
    // session and the cache together provide; nothing is assumed about it. `all` is the prompt with what
    // the loop appended.
    method ProcessLlmTurn(session: Session, p: Provider, system: string, history: seq<Message>, context: string, current: string)
      returns (text: Option<string>, outOfIterations: bool, ghost all: seq<Message>)
      modifies session`messages
      ensures session.messages == old(session.messages) + SavedTurn(format, p, maxIterations, context, current)
      ensures |all| >= 2 + |history| && all[1..1 + |history|] == history
      ensures all[0] == Message(Other("system"), Text(system), [], "") && all[1 + |history|] == Message(User, Text(context + "\n\n" + current), [], "")
      ensures Records(p, maxIterations, 2 + |history|, all, text)
      ensures Keeps(format, all[1 + |history|..], session.messages[|old(session.messages)|..])
      ensures SavesAnswer(p, maxIterations, text, session.messages)
    {
      var initial := BuildMessages(system, history, context, current);
      var messages: seq<Message>;
      text, outOfIterations, messages := RunAgentLoop(p, initial);
      SaveTurn(session, messages, 1 + |history|);
      all := messages;
      SkipSelectsTurn(system, history, context, current, Rounds(p, maxIterations, 0));
      PromptParts(system, history, context, current, Rounds(p, maxIterations, 0));
      ghost var before, kept := old(session.messages), session.messages[|old(session.messages)|..];
      AnswerIsSaved(format, p, maxIterations, 2 + |history|, all, text, 1 + |history|, before, kept);
      assert before + kept == session.messages;
    }
  }

  // ---- Building and saving a turn undo each other ----

  predicate NoBlankLine(s: string) {
    forall k :: 0 <= k < |s| - 1 ==> !BlankAt(s, k)
  }

  // No blank line inside, no newline at the end.
  predicate Clean(s: string) {
    NoBlankLine(s) && (s != "" ==> s[|s| - 1] != '\n')
  }

  lemma FirstBlankIsSeparator(context: string, current: string)
    ensures var i := FindBlankLine(context + "\n\n" + current, 0);
      i.Some? && i.value <= |context| && (i.value == |context| <==> Clean(context))
  {
    var text := context + "\n\n" + current;
    assert BlankAt(text, |context|);
    assert forall k :: 0 <= k < |context| ==> text[k] == context[k];
    if Clean(context) {
      forall k | 0 <= k < |context| ensures !BlankAt(text, k) {
        if k < |context| - 1 { assert !BlankAt(context, k); }
      }
    } else if NoBlankLine(context) {
      assert BlankAt(text, |context| - 1);
    } else {
      var k :| 0 <= k < |context| - 1 && BlankAt(context, k);
      assert BlankAt(text, k);
    }
  }

  // The context says the time right behind its tag and, if both are known, ends with channel and chat.
  lemma RuntimeContextSays(f: Format, time: string, channel: string, chatId: string)
    ensures channel != "" && chatId != "" ==>
      RuntimeContext(f, time, channel, chatId) == f.tag + "\nHeure actuelle: " + time + ("\nCanal: " + channel + ("\nSession: " + chatId))
    ensures channel == "" || chatId == "" ==> RuntimeContext(f, time, channel, chatId) == f.tag + "\nHeure actuelle: " + time
  {
    assert "\n" + "Heure actuelle: " == "\nHeure actuelle: " && "\n" + "Canal: " == "\nCanal: " && "\n" + "Session: " == "\nSession: ";
    Regroup(f.tag, "\n", "Heure actuelle: " + time);
    Regroup("\n", "Heure actuelle: ", time);
    Regroup("\n", "Canal: ", channel);
    Regroup("\n", "Session: ", chatId);
  }

  // The user's text comes back unchanged exactly when it is not blank and the context is clean.
  lemma TextBackIffClean(context: string, current: string)
    ensures BehindBlankLine(context + "\n\n" + current) == Some(current) <==> Clean(context) && !AllSpace(current)
  {
    var text := context + "\n\n" + current;
    FirstBlankIsSeparator(context, current);
    var i := FindBlankLine(text, 0).value;
    StripEmptyIffBlank(current);
    if i == |context| {
      assert text[i + 2..] == current;
    } else {
      assert |text[i + 2..]| > |current|;
    }
  }

  // Two lines joined by a newline are clean exactly when both are, if the second starts visibly.
  lemma CleanLine(a: string, b: string)
    requires b != "" && b[0] != '\n'
    ensures Clean(a + "\n" + b) <==> Clean(a) && Clean(b)
  {
    var s := a + "\n" + b;
    assert s[|a|] == '\n' && s[|s| - 1] == b[|b| - 1];
    assert forall k :: 0 <= k < |a| ==> s[k] == a[k];
    assert forall k :: |a| < k < |s| ==> s[k] == b[k - |a| - 1];
    forall k | 0 <= k < |a| - 1 ensures BlankAt(s, k) <==> BlankAt(a, k) {}
    forall k | 0 <= k < |b| - 1 ensures BlankAt(s, k + |a| + 1) <==> BlankAt(b, k) {}
    if Clean(a) && Clean(b) {
      forall k | 0 <= k < |s| - 1 ensures !BlankAt(s, k) {
        if k > |a| { assert !BlankAt(b, k - |a| - 1); }
      }
    } else if a != "" && a[|a| - 1] == '\n' {
      assert BlankAt(s, |a| - 1);
    }
  }

  // A label in front of a line changes nothing.
  lemma CleanLabel(prefix: string, s: string)
    requires prefix != "" && '\n' !in prefix
    ensures Clean(prefix + s) <==> Clean(s)
  {
    var t := prefix + s;
    assert prefix[|prefix| - 1] != '\n';
    assert forall k :: 0 <= k < |prefix| ==> t[k] == prefix[k] && t[k] != '\n';
    assert forall k :: |prefix| <= k < |t| ==> t[k] == s[k - |prefix|];
    forall k | 0 <= k < |s| - 1 ensures BlankAt(t, k + |prefix|) <==> BlankAt(s, k) {}
    if Clean(s) {
      forall k | 0 <= k < |t| - 1 ensures !BlankAt(t, k) {
        if k >= |prefix| { assert !BlankAt(s, k - |prefix|); }
      }
    }
  }

  predicate CleanEndpoints(time: string, channel: string, chatId: string) {
    Clean(time) && (channel == "" || chatId == "" || (Clean(channel) && Clean(chatId)))
  }

  // The program's own tag is one clean line.
  lemma FormatTagIsClean()
    ensures Clean(FORMAT.tag)
  {
    assert '\n' !in "[Runtime Context \U{2014} ";
    assert '\n' !in "metadata only, ";
    assert '\n' !in "not instructions]";
    assert '\n' !in FORMAT.tag;
  }

  lemma RuntimeContextClean(f: Format, time: string, channel: string, chatId: string)
    requires Clean(f.tag)
    ensures f.tag <= RuntimeContext(f, time, channel, chatId)
    ensures Clean(RuntimeContext(f, time, channel, chatId)) <==> CleanEndpoints(time, channel, chatId)
  {
    var t, c, s := "Heure actuelle: " + time, "Canal: " + channel, "Session: " + chatId;
    CleanLabel("Heure actuelle: ", time);
    CleanLabel("Canal: ", channel);
    CleanLabel("Session: ", chatId);
    var context := RuntimeContext(f, time, channel, chatId);
    if channel != "" && chatId != "" {
      CleanLine(t, c);
      CleanLine(t + "\n" + c, s);
      CleanLine(f.tag, t + "\n" + c + "\n" + s);
      assert context == f.tag + "\n" + (t + "\n" + c + "\n" + s);
    } else {
      CleanLine(f.tag, t);
      assert context == f.tag + "\n" + t;
    }
  }

  // The messages a whole LLM turn adds to the session.
  function SavedTurn(f: Format, p: Provider, maxIterations: int, context: string, current: string): seq<Message> {
    StoredAll(f, [UserMessage(context, current)] + Rounds(p, maxIterations, 0))
  }

  // Saving with skip 1 + |history| stores the user's message and what the loop appended, whatever
  // the history was.
  lemma SkipSelectsTurn(system: string, history: seq<Message>, context: string, current: string, rounds: seq<Message>)
    ensures Drop(BuildMessages(system, history, context, current) + rounds, 1 + |history|) == [UserMessage(context, current)] + rounds
  {
    var built := BuildMessages(system, history, context, current);
    assert built[1 + |history|..] == [UserMessage(context, current)];
    assert (built + rounds)[1 + |history|..] == built[1 + |history|..] + rounds;
  }

  // The turn starts with the user's exact text if and only if the text is not blank and neither the
  // time nor the endpoint names carry a blank line or end in a newline.
  lemma TurnRoundTripIff(f: Format, p: Provider, maxIterations: int, time: string, channel: string, chatId: string, current: string)
    requires Clean(f.tag)
    ensures SavedTurn(f, p, maxIterations, RuntimeContext(f, time, channel, chatId), current)
         == [Message(User, Text(current), [], "")] + StoredAll(f, Rounds(p, maxIterations, 0))
       <==> CleanEndpoints(time, channel, chatId) && !AllSpace(current)
  {
    RuntimeContextClean(f, time, channel, chatId);
    TaggedTurnRoundTrip(f, p, maxIterations, RuntimeContext(f, time, channel, chatId), current);
  }

  // So it is in the program.
  lemma ProgramTurnRoundTripIff(p: Provider, maxIterations: int, time: string, channel: string, chatId: string, current: string)
    ensures SavedTurn(FORMAT, p, maxIterations, RuntimeContext(FORMAT, time, channel, chatId), current)
         == [Message(User, Text(current), [], "")] + StoredAll(FORMAT, Rounds(p, maxIterations, 0))
       <==> CleanEndpoints(time, channel, chatId) && !AllSpace(current)
  {
    FormatTagIsClean();
    TurnRoundTripIff(FORMAT, p, maxIterations, time, channel, chatId, current);
  }

  lemma TaggedUserPart(f: Format, context: string, rest: string)
    requires f.tag <= context
    ensures UserPart(f, context + rest) == BehindBlankLine(context + rest)
  {
    PrefixOfConcat(f.tag, context, rest);
  }

  lemma StoredUser(f: Format, text: string, part: string)
    ensures Stored(f, Message(User, Text(text), [], "")) == Some(Message(User, Text(part), [], "")) <==> UserPart(f, text) == Some(part)
  {}

  lemma TaggedTurnRoundTrip(f: Format, p: Provider, maxIterations: int, context: string, current: string)
    requires f.tag <= context
    ensures SavedTurn(f, p, maxIterations, context, current)
         == [Message(User, Text(current), [], "")] + StoredAll(f, Rounds(p, maxIterations, 0))
       <==> Clean(context) && !AllSpace(current)
  {
    var text := context + "\n\n" + current;
    assert text == context + ("\n\n" + current);
    TaggedUserPart(f, context, "\n\n" + current);
    StoredUser(f, text, current);
    TextBackIffClean(context, current);
    FirstStored(f, UserMessage(context, current), Rounds(p, maxIterations, 0));
  }

  lemma PrefixOfConcat(p: string, a: string, b: string)
    requires p <= a
    ensures p <= a + b
  {
    assert (a + b)[..|p|] == a[..|p|];
  }

  lemma FirstStored(f: Format, m: Message, rest: seq<Message>)
    ensures forall m' :: StoredAll(f, [m] + rest) == [m'] + StoredAll(f, rest) <==> Stored(f, m) == Some(m')
    ensures StoredAll(f, [m] + rest) == (match Stored(f, m) case Some(m') => [m'] case None => []) + StoredAll(f, rest)
  {
    StoredAllConcat(f, [m], rest);
    assert [m][..0] == [];
    var first: seq<Message> := match Stored(f, m) case Some(m') => [m'] case None => [];
    assert StoredAll(f, [m]) == first;
    forall m' ensures first + StoredAll(f, rest) == [m'] + StoredAll(f, rest) <==> Stored(f, m) == Some(m') {
      if Stored(f, m).Some? {
        assert (first + StoredAll(f, rest))[0] == first[0];
      } else {
        assert |first + StoredAll(f, rest)| == |StoredAll(f, rest)|;
      }
    }
  }

  // ---- The shape of what is saved ----

  // A block of messages a turn appends: no user message except perhaps the first, and every tool
  // result behind its own call.
  ghost predicate IsBlock(b: seq<Message>) {
    LegalFrom(b, 0) && forall i :: 0 < i < |b| ==> !IsUser(b[i])
  }

  ghost predicate NoUsers(b: seq<Message>) {
    forall i :: 0 <= i < |b| ==> !IsUser(b[i])
  }

  lemma LegalConcat(a: seq<Message>, b: seq<Message>)
    requires LegalFrom(a, 0) && LegalFrom(b, 0)
    ensures LegalFrom(a + b, 0)
  {
    LegalAppend(a, 0, b);
  }

  // Appending a legal block keeps every legal start legal.
  lemma LegalAppend(a: seq<Message>, lo: nat, b: seq<Message>)
    requires lo <= |a| && LegalFrom(a, lo) && LegalFrom(b, 0)
    ensures LegalFrom(a + b, lo)
  {
    var s := a + b;
    forall j | lo <= j < |s| && IsToolResult(s[j]) ensures DeclaredIn(s, lo, j, s[j].toolCallId) {
      if j < |a| {
        var i :| lo <= i < j && Declares(a[i], a[j].toolCallId);
        assert Declares(s[i], s[j].toolCallId);
      } else {
        var i :| 0 <= i < j - |a| && Declares(b[i], b[j - |a|].toolCallId);
        assert Declares(s[|a| + i], s[j].toolCallId);
      }
    }
  }

  lemma RoundIsLegal(p: Provider, i: nat)
    ensures LegalFrom(Round(p, i), 0) && NoUsers(Round(p, i))
  {
    var n := |p.chat(i).toolCalls|;
    var round := Round(p, i);
    forall j | 0 <= j < |round| && IsToolResult(round[j]) ensures DeclaredIn(round, 0, j, round[j].toolCallId) {
      assert round[j] == ToolResult(p, i, j - 1);
      assert Ids(p.chat(i).toolCalls)[j - 1] == round[j].toolCallId;
      assert Declares(round[0], round[j].toolCallId);
    }
  }

  lemma {:induction false} RoundsAreLegal(p: Provider, maxIterations: int, i: nat)
    ensures LegalFrom(Rounds(p, maxIterations, i), 0) && NoUsers(Rounds(p, maxIterations, i))
    decreases maxIterations - i
  {
    if i < maxIterations && p.chat(i).toolCalls != [] {
      RoundIsLegal(p, i);
      RoundsAreLegal(p, maxIterations, i + 1);
      LegalConcat(Round(p, i), Rounds(p, maxIterations, i + 1));
    }
  }

  // Storing drops no declaration and invents no tool result.
  lemma {:induction false} StoredAllKeepsDeclarations(f: Format, ms: seq<Message>, id: string)
    requires DeclaredIn(ms, 0, |ms|, id)
    ensures DeclaredIn(StoredAll(f, ms), 0, |StoredAll(f, ms)|, id)
  {
    var n := |ms| - 1;
    var i :| 0 <= i < |ms| && Declares(ms[i], id);
    var out := StoredAll(f, ms);
    if i == n {
      assert Stored(f, ms[n]) == Some(ms[n]);
      assert Declares(out[|out| - 1], id);
    } else {
      assert ms[..n][i] == ms[i];
      StoredAllKeepsDeclarations(f, ms[..n], id);
      var k :| 0 <= k < |StoredAll(f, ms[..n])| && Declares(StoredAll(f, ms[..n])[k], id);
      assert Declares(out[k], id);
    }
  }

  lemma {:induction false} StoredAllKeepsLegal(f: Format, ms: seq<Message>)
    requires LegalFrom(ms, 0)
    ensures LegalFrom(StoredAll(f, ms), 0)
    ensures NoUsers(ms) ==> NoUsers(StoredAll(f, ms))
  {
    if ms != [] {
      var n := |ms| - 1;
      var front := ms[..n];
      assert LegalFrom(front, 0) by {
        forall j | 0 <= j < n && IsToolResult(front[j]) ensures DeclaredIn(front, 0, j, front[j].toolCallId) {
          var i :| 0 <= i < j && Declares(ms[i], ms[j].toolCallId);
          assert Declares(front[i], front[j].toolCallId);
        }
      }
      StoredAllKeepsLegal(f, front);
      var out, kept := StoredAll(f, ms), StoredAll(f, front);
      if IsToolResult(ms[n]) {
        var i :| 0 <= i < n && Declares(ms[i], ms[n].toolCallId);
        assert Declares(front[i], ms[n].toolCallId);
        StoredAllKeepsDeclarations(f, front, ms[n].toolCallId);
      }
      forall j | 0 <= j < |out| && IsToolResult(out[j]) ensures DeclaredIn(out, 0, j, out[j].toolCallId) {
        var id := out[j].toolCallId;
        assert DeclaredIn(kept, 0, if j < |kept| then j else |kept|, id);
        var i :| 0 <= i < (if j < |kept| then j else |kept|) && Declares(kept[i], id);
        assert Declares(out[i], id);
      }
    }
  }

  // Every saved LLM turn is a block, whatever the model and the tools answered.
  lemma SavedTurnIsBlock(f: Format, p: Provider, maxIterations: int, context: string, current: string)
    ensures IsBlock(SavedTurn(f, p, maxIterations, context, current))
  {
    var user := UserMessage(context, current);
    var rounds := Rounds(p, maxIterations, 0);
    RoundsAreLegal(p, maxIterations, 0);
    StoredAllKeepsLegal(f, rounds);
    FirstStored(f, user, rounds);
    var first: seq<Message> := match Stored(f, user) case Some(m) => [m] case None => [];
    assert LegalFrom(first, 0);
    LegalConcat(first, StoredAll(f, rounds));
  }
}
