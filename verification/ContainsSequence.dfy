// `_contains_sequence` of run_redis_e2e.py: a greedy search for messages in order.

module ContainsSequences {
  import opened Common

  datatype Entry = Entry(role: string, content: string)

  // A fragment of None matches any content that is not blank.
  datatype Expected = Expected(role: string, fragment: Option<string>)

  predicate OccursAt(fragment: string, s: string, i: nat) {
    i + |fragment| <= |s| && s[i..i + |fragment|] == fragment
  }

  predicate Occurs(fragment: string, s: string) {
    exists i: nat :: i <= |s| && OccursAt(fragment, s, i)
  }

  // `lower` is the case folding of the platform, whatever it is.
  predicate Matches(lower: string -> string, x: Expected, e: Entry) {
    && e.role == x.role
    && Strip(e.content) != ""
    && (x.fragment.Some? ==> Occurs(lower(x.fragment.value), lower(Strip(e.content))))
  }

  // Positions of entries that match the expected messages, one for each and in the same order.
  ghost predicate Embeds(lower: string -> string, entries: seq<Entry>, expected: seq<Expected>, at: seq<nat>) {
    && |at| == |expected|
    && (forall k :: 0 <= k < |at| ==> at[k] < |entries| && Matches(lower, expected[k], entries[at[k]]))
    && (forall j, k :: 0 <= j < k < |at| ==> at[j] < at[k])
  }

  ghost predicate Embeddable(lower: string -> string, entries: seq<Entry>, expected: seq<Expected>) {
    exists at: seq<nat> :: Embeds(lower, entries, expected, at)
  }

  // No embedding of the first k expected messages ends before position `idx`.
  ghost predicate NoneEndsBefore(lower: string -> string, entries: seq<Entry>, expected: seq<Expected>, k: nat, idx: nat)
    requires k <= |expected|
  {
    forall at: seq<nat> :: Embeds(lower, entries, expected[..k], at) && k > 0 ==> at[k - 1] + 1 >= idx
  }

  // Exchange argument: an embedding of one message more cannot end before the next match behind `idx`.
  lemma NextEndsLater(lower: string -> string, entries: seq<Entry>, expected: seq<Expected>, k: nat, idx: nat, next: nat, at: seq<nat>)
    requires k < |expected| && NoneEndsBefore(lower, entries, expected, k, idx) && (k == 0 ==> idx == 0)
    requires idx <= next && forall j :: idx <= j < next && j < |entries| ==> !Matches(lower, expected[k], entries[j])
    requires Embeds(lower, entries, expected[..k + 1], at)
    ensures at[k] >= next
  {
    var front := at[..k];
    assert expected[..k + 1][..k] == expected[..k] && expected[..k + 1][k] == expected[k];
    assert Embeds(lower, entries, expected[..k], front) by {
      assert forall j :: 0 <= j < k ==> expected[..k + 1][j] == expected[..k][j];
    }
    if k > 0 {
      assert at[k - 1] < at[k];
      assert front[k - 1] == at[k - 1];
    }
    assert at[k] >= idx;
  }

  ghost predicate EndsAtOrAfter(lower: string -> string, entries: seq<Entry>, expected: seq<Expected>, k: nat, next: nat)
    requires k < |expected|
  {
    forall at: seq<nat> :: Embeds(lower, entries, expected[..k + 1], at) ==> at[k] >= next
  }

  lemma NoneBehindTheEnd(lower: string -> string, entries: seq<Entry>, expected: seq<Expected>, k: nat)
    requires k < |expected| && EndsAtOrAfter(lower, entries, expected, k, |entries|)
    ensures !Embeddable(lower, entries, expected)
  {
    forall at: seq<nat> | |at| == |expected| ensures !Embeds(lower, entries, expected, at) {
      EmbedsPrefix(lower, entries, expected, at, k + 1);
      assert Embeds(lower, entries, expected[..k + 1], at[..k + 1]) ==> at[..k + 1][k] >= |entries|;
    }
  }

  lemma EmbedsPrefix(lower: string -> string, entries: seq<Entry>, expected: seq<Expected>, at: seq<nat>, k: nat)
    requires |at| == |expected| && k <= |expected|
    ensures Embeds(lower, entries, expected, at) ==> Embeds(lower, entries, expected[..k], at[..k])
  {}

  // Sound and complete: greedy matching succeeds exactly when some embedding exists.
  method ContainsSequence(lower: string -> string, entries: seq<Entry>, expected: seq<Expected>) returns (ok: bool)
    ensures ok <==> Embeddable(lower, entries, expected)
  {
    var idx := 0;
    ghost var at: seq<nat> := [];
    for k := 0 to |expected|
      invariant idx <= |entries| && (k == 0 ==> idx == 0)
      invariant Embeds(lower, entries, expected[..k], at)
      invariant k > 0 ==> at[k - 1] + 1 == idx
      invariant NoneEndsBefore(lower, entries, expected, k, idx)
    {
      var found := false;
      ghost var start := idx;
      while idx < |entries|
        invariant start <= idx <= |entries| && !found
        invariant forall j :: start <= j < idx ==> !Matches(lower, expected[k], entries[j])
      {
        var cur := entries[idx];
        idx := idx + 1;
        if cur.role != expected[k].role {
          continue;
        }
        var content := Strip(cur.content);
        if content == "" {
          continue;
        }
        if expected[k].fragment.None? || Occurs(lower(expected[k].fragment.value), lower(content)) {
          found := true;
          break;
        }
      }
      var reached := if found then idx - 1 else idx;
      forall other: seq<nat> | Embeds(lower, entries, expected[..k + 1], other) ensures other[k] >= reached {
        NextEndsLater(lower, entries, expected, k, start, reached, other);
      }
      if !found {
        NoneBehindTheEnd(lower, entries, expected, k);
        return false;
      }
      Extended(lower, entries, expected, k, at, reached);
      at := at + [reached];
    }
    assert expected[..|expected|] == expected;
    return true;
  }

  lemma Extended(lower: string -> string, entries: seq<Entry>, expected: seq<Expected>, k: nat, at: seq<nat>, i: nat)
    requires k < |expected| && Embeds(lower, entries, expected[..k], at)
    requires (k > 0 ==> at[k - 1] < i) && i < |entries| && Matches(lower, expected[k], entries[i])
    ensures Embeds(lower, entries, expected[..k + 1], at + [i])
  {
    var all := at + [i];
    forall j | 0 <= j < k + 1 ensures all[j] < |entries| && Matches(lower, expected[..k + 1][j], entries[all[j]]) {
      if j < k { assert expected[..k + 1][j] == expected[..k][j]; }
    }
    forall j | 0 <= j < k ensures all[j] < i {
      if j < k - 1 { assert at[j] < at[k - 1]; }
    }
  }
}
