// Choosing repair actions: rule merging and the action planner of core/monitoring/policy_engine.py.

module Policies {
  import opened Common

  // ---- Rules ----

  // A configuration value: a dictionary, or anything else.
  datatype Value<T> = Leaf(value: T) | Node(entries: map<string, Value<T>>)

  // `_deep_merge_dict`
  function Merge<T>(base: Value<T>, over: Value<T>): Value<T>
    requires base.Node? && over.Node?
    decreases over
  {
    Node(map k | k in base.entries.Keys + over.entries.Keys ::
      if k !in over.entries then base.entries[k]
      else if k in base.entries && base.entries[k].Node? && over.entries[k].Node? then Merge(base.entries[k], over.entries[k])
      else over.entries[k])
  }

  function Lookup<T>(v: Value<T>, path: seq<string>): Option<Value<T>> {
    if path == [] then Some(v)
    else if v.Node? && path[0] in v.entries then Lookup(v.entries[path[0]], path[1..])
    else None
  }

  // The override has a leaf on the way to `path`, or at its end.
  predicate LeafOnPath<T>(v: Value<T>, path: seq<string>) {
    v.Leaf? || (path != [] && path[0] in v.entries && LeafOnPath(v.entries[path[0]], path[1..]))
  }

  // What a path leads to after the merge, for every path: a leaf of the override cuts off the
  // base, a path the override does not mention leads where it led in the base, and two
  // dictionaries are merged.
  lemma {:induction false} MergeLookup<T>(base: Value<T>, over: Value<T>, path: seq<string>)
    requires base.Node? && over.Node?
    ensures Lookup(Merge(base, over), path)
         == if LeafOnPath(over, path) then Lookup(over, path)
            else if Lookup(over, path).None? then Lookup(base, path)
            else match (Lookup(base, path), Lookup(over, path))
              case (Some(Node(m)), Some(Node(n))) => Some(Merge(Node(m), Node(n)))
              case _ => Lookup(over, path)
    decreases |path|
  {
    if path != [] {
      var k, rest := path[0], path[1..];
      if k in over.entries {
        if k in base.entries && base.entries[k].Node? && over.entries[k].Node? {
          MergeLookup(base.entries[k], over.entries[k], rest);
        } else if k in base.entries && base.entries[k].Leaf? && rest != [] {
          assert Lookup(base, path).None?;
        }
      }
    }
  }

  lemma {:induction false} MergeSelf<T>(v: Value<T>)
    requires v.Node?
    ensures Merge(v, v) == v
    decreases v
  {
    forall k | k in v.entries && v.entries[k].Node? ensures Merge(v.entries[k], v.entries[k]) == v.entries[k] {
      MergeSelf(v.entries[k]);
    }
    assert Merge(v, v).entries == v.entries;
  }

  // Merging the same override a second time changes nothing.
  lemma {:induction false} MergeTwice<T>(base: Value<T>, over: Value<T>)
    requires base.Node? && over.Node?
    ensures Merge(Merge(base, over), over) == Merge(base, over)
    decreases over
  {
    var once := Merge(base, over);
    forall k | k in over.entries ensures Merge(once, over).entries[k] == once.entries[k] {
      if over.entries[k].Node? {
        if k in base.entries && base.entries[k].Node? {
          MergeTwice(base.entries[k], over.entries[k]);
        } else {
          MergeSelf(over.entries[k]);
        }
      }
    }
    assert Merge(once, over).entries == once.entries;
  }

  // `evaluate_policy` hands its resolved rules to `decide_actions`, which resolves them once more:
  // resolving resolved rules against the same defaults changes nothing.
  lemma {:induction false} ResolveTwice<T>(base: Value<T>, over: Value<T>)
    requires base.Node? && over.Node?
    ensures Merge(base, Merge(base, over)) == Merge(base, over)
    decreases over, base
  {
    var once := Merge(base, over);
    forall k | k in once.entries ensures Merge(base, once).entries[k] == once.entries[k] {
      if k in base.entries && base.entries[k].Node? {
        if k !in over.entries {
          MergeSelf(base.entries[k]);
        } else if over.entries[k].Node? {
          ResolveTwice(base.entries[k], over.entries[k]);
        }
      }
    }
    assert Merge(base, once).entries == once.entries;
  }

  // ---- Planning ----

  // An empty severity stands for a missing one.
  datatype Issue = Issue(code: string, severity: string)

  datatype Rules = Rules(issueActionMap: map<string, string>, allowedActions: seq<string>, allowPurgeCache: bool)

  // `lower()` as far as it matters for comparing with the ASCII severity names.
  function Lower(s: string): string {
    seq(|s|, i requires 0 <= i < |s| => if 'A' <= s[i] <= 'Z' then (s[i] as int + 32) as char else s[i])
  }

  function Rank(issue: Issue): nat {
    var severity := if issue.severity == "" then "warning" else Lower(issue.severity);
    if severity == "critical" then 0
    else if severity == "degraded" then 1
    else if severity == "warning" then 2
    else if severity == "info" then 3
    else 99
  }

  // The action an issue leads to: what the rules map its code to, if they permit that; otherwise "".
  function ActionFor(rules: Rules, issue: Issue): string {
    var code := Strip(issue.code);
    var action := if code != "" && code in rules.issueActionMap then Strip(rules.issueActionMap[code]) else "";
    if action == "" then ""
    else if (exists a :: a in rules.allowedActions && Strip(a) != "") && action !in rules.allowedActions then ""
    else if action == "purge_cache" && !rules.allowPurgeCache then ""
    else action
  }

  function ActionsFor(rules: Rules, issues: seq<Issue>): (asked: seq<string>)
    ensures |asked| == |issues| && forall p :: 0 <= p < |issues| ==> asked[p] == ActionFor(rules, issues[p])
  {
    seq(|issues|, p requires 0 <= p < |issues| => ActionFor(rules, issues[p]))
  }

  function Ranks(issues: seq<Issue>): (ranks: seq<nat>)
    ensures |ranks| == |issues| && forall p :: 0 <= p < |issues| ==> ranks[p] == Rank(issues[p])
  {
    seq(|issues|, p requires 0 <= p < |issues| => Rank(issues[p]))
  }

  // Issue p precedes issue q: more severe, or as severe and reported earlier.
  predicate Precedes(ranks: seq<nat>, p: nat, q: nat)
    requires p < |ranks| && q < |ranks|
  {
    ranks[p] < ranks[q] || (ranks[p] == ranks[q] && p < q)
  }

  ghost predicate Ordered(ranks: seq<nat>, order: seq<nat>) {
    && (forall i :: 0 <= i < |order| ==> order[i] < |ranks|)
    && (forall i, j :: 0 <= i < j < |order| ==> Precedes(ranks, order[i], order[j]))
  }

  // `sorted` by rank, one element after the other, each in front of the first that it precedes.
  function Insert(ranks: seq<nat>, p: nat, order: seq<nat>): seq<nat>
    requires p < |ranks| && forall i :: 0 <= i < |order| ==> order[i] < |ranks|
  {
    if order == [] || Precedes(ranks, p, order[0]) then [p] + order
    else [order[0]] + Insert(ranks, p, order[1..])
  }

  lemma {:induction false} InsertMembers(ranks: seq<nat>, p: nat, order: seq<nat>)
    requires p < |ranks| && forall i :: 0 <= i < |order| ==> order[i] < |ranks|
    ensures forall q :: q in Insert(ranks, p, order) <==> q == p || q in order
  {
    if order != [] && !Precedes(ranks, p, order[0]) {
      InsertMembers(ranks, p, order[1..]);
      assert order == [order[0]] + order[1..];
    }
  }

  lemma OrderedCons(ranks: seq<nat>, p: nat, order: seq<nat>)
    requires Ordered(ranks, order) && p < |ranks| && forall q :: q in order ==> Precedes(ranks, p, q)
    ensures Ordered(ranks, [p] + order)
  {
    assert forall j :: 0 <= j < |order| ==> order[j] in order;
  }

  lemma {:induction false} InsertOrders(ranks: seq<nat>, p: nat, order: seq<nat>)
    requires Ordered(ranks, order) && p < |ranks| && p !in order
    ensures Ordered(ranks, Insert(ranks, p, order))
  {
    if order == [] {
    } else if Precedes(ranks, p, order[0]) {
      forall q | q in order ensures Precedes(ranks, p, q) {
        var j :| 0 <= j < |order| && order[j] == q;
        if j > 0 { assert Precedes(ranks, order[0], order[j]); }
      }
      OrderedCons(ranks, p, order);
    } else {
      var tail := order[1..];
      assert order[0] in order;
      InsertOrders(ranks, p, tail);
      InsertMembers(ranks, p, tail);
      forall q | q in Insert(ranks, p, tail) ensures Precedes(ranks, order[0], q) {
        if q != p {
          var j :| 0 <= j < |tail| && tail[j] == q;
          assert Precedes(ranks, order[0], order[j + 1]);
        }
      }
      OrderedCons(ranks, order[0], Insert(ranks, p, tail));
    }
  }

  // The order in which the stable sort visits the first n issues: all of them, by severity and then
  // by position.
  function Sorted(ranks: seq<nat>, n: nat): (order: seq<nat>)
    requires n <= |ranks|
    ensures Ordered(ranks, order) && forall q: nat :: q in order <==> q < n
  {
    if n == 0 then []
    else
      InsertOrders(ranks, n - 1, Sorted(ranks, n - 1));
      InsertMembers(ranks, n - 1, Sorted(ranks, n - 1));
      Insert(ranks, n - 1, Sorted(ranks, n - 1))
  }

  ghost predicate NoDuplicates<T>(s: seq<T>) {
    forall i, j :: 0 <= i < j < |s| ==> s[i] != s[j]
  }

  predicate Asks(asked: seq<string>, p: nat, action: string) {
    p < |asked| && action != "" && asked[p] == action
  }

  // Some issue asks for `a` and precedes every issue that asks for `b`.
  ghost predicate AskedBefore(asked: seq<string>, ranks: seq<nat>, a: string, b: string)
    requires |asked| == |ranks|
  {
    exists p: nat :: Asks(asked, p, a) && forall q: nat :: Asks(asked, q, b) ==> Precedes(ranks, p, q)
  }

  // `actions` lists exactly the actions asked for, each once, ordered by the most severe issue
  // behind each, the earlier report first between equally severe ones.
  ghost predicate IsPlan(asked: seq<string>, ranks: seq<nat>, actions: seq<string>)
    requires |asked| == |ranks|
  {
    && NoDuplicates(actions)
    && (forall a :: a in actions <==> exists p: nat :: Asks(asked, p, a))
    && (forall i, j :: 0 <= i < j < |actions| ==> AskedBefore(asked, ranks, actions[i], actions[j]))
  }

  // The actions kept from the first k visits, and the visit that brought each.
  ghost predicate Collected(asked: seq<string>, order: seq<nat>, k: nat, actions: seq<string>, visit: seq<nat>)
    requires k <= |order|
  {
    && |visit| == |actions|
    && (forall i :: 0 <= i < |actions| ==> visit[i] < k && Asks(asked, order[visit[i]], actions[i]))
    && (forall i, t :: 0 <= i < |actions| && 0 <= t < visit[i] ==> !Asks(asked, order[t], actions[i]))
    && (forall i, j :: 0 <= i < j < |actions| ==> visit[i] < visit[j])
    && (forall t :: 0 <= t < k && AskedAt(asked, order[t]) != "" ==> AskedAt(asked, order[t]) in actions)
  }

  function AskedAt(asked: seq<string>, p: nat): string {
    if p < |asked| then asked[p] else ""
  }

  lemma CollectedSkip(asked: seq<string>, order: seq<nat>, k: nat, actions: seq<string>, visit: seq<nat>)
    requires k < |order| && Collected(asked, order, k, actions, visit)
    requires AskedAt(asked, order[k]) == "" || AskedAt(asked, order[k]) in actions
    ensures Collected(asked, order, k + 1, actions, visit)
  {}

  lemma CollectedPush(asked: seq<string>, order: seq<nat>, k: nat, actions: seq<string>, visit: seq<nat>, action: string)
    requires k < |order| && Collected(asked, order, k, actions, visit)
    requires Asks(asked, order[k], action) && action !in actions
    ensures Collected(asked, order, k + 1, actions + [action], visit + [k])
  {
    forall t | 0 <= t < k ensures !Asks(asked, order[t], action) {
      assert AskedAt(asked, order[t]) != "" ==> AskedAt(asked, order[t]) in actions;
    }
  }

  lemma CollectedIsPlan(asked: seq<string>, ranks: seq<nat>, order: seq<nat>, actions: seq<string>, visit: seq<nat>)
    requires |asked| == |ranks| && Ordered(ranks, order) && forall q: nat :: q in order <==> q < |ranks|
    requires Collected(asked, order, |order|, actions, visit)
    ensures IsPlan(asked, ranks, actions)
  {
    forall a | a in actions ensures exists p: nat :: Asks(asked, p, a) {
      var i :| 0 <= i < |actions| && actions[i] == a;
      assert Asks(asked, order[visit[i]], a);
    }
    forall p: nat, a | Asks(asked, p, a) ensures a in actions {
      assert p in order;
      var t :| 0 <= t < |order| && order[t] == p;
      assert AskedAt(asked, order[t]) != "" ==> AskedAt(asked, order[t]) in actions;
    }
    forall i, j | 0 <= i < j < |actions| ensures AskedBefore(asked, ranks, actions[i], actions[j]) {
      CollectedAskedBefore(asked, ranks, order, actions, visit, i, j);
    }
    forall i, j | 0 <= i < j < |actions| ensures actions[i] != actions[j] {
      assert !Asks(asked, order[visit[i]], actions[j]);
    }
  }

  lemma CollectedAskedBefore(asked: seq<string>, ranks: seq<nat>, order: seq<nat>, actions: seq<string>, visit: seq<nat>, i: nat, j: nat)
    requires |asked| == |ranks| && Ordered(ranks, order) && forall q: nat :: q in order <==> q < |ranks|
    requires Collected(asked, order, |order|, actions, visit) && i < j < |actions|
    ensures AskedBefore(asked, ranks, actions[i], actions[j])
  {
    var p := order[visit[i]];
    assert Asks(asked, p, actions[i]);
    forall q: nat | Asks(asked, q, actions[j]) ensures Precedes(ranks, p, q) {
      assert q in order;
      var t :| 0 <= t < |order| && order[t] == q;
      assert t >= visit[j] > visit[i];
    }
  }

  // ---- What the plan means, in terms of issues and rules ----

  const SEVERITIES := ["critical", "degraded", "warning", "info"]

  // The same but for upper case in `s`.
  predicate SameButForCase(s: string, lower: string) {
    |s| == |lower| && forall i :: 0 <= i < |s| ==> s[i] == lower[i] || ('A' <= s[i] <= 'Z' && s[i] as int + 32 == lower[i] as int)
  }

  // The issue has the k-th severity; the fourth place is that of all unknown ones. A missing severity
  // is a warning.
  predicate HasSeverity(issue: Issue, k: nat) {
    if k == 4 then forall j: nat :: j < 4 ==> !HasName(issue, j) else k < 4 && HasName(issue, k)
  }

  predicate HasName(issue: Issue, k: nat)
    requires k < 4
  {
    if issue.severity == "" then SEVERITIES[k] == "warning" else SameButForCase(issue.severity, SEVERITIES[k])
  }

  // The rules map the issue's code to `action` and permit it: an empty list of allowed actions permits
  // every action, and purging the cache needs a permission of its own.
  ghost predicate LeadsTo(rules: Rules, issue: Issue, action: string) {
    && action != "" && Strip(issue.code) != "" && Strip(issue.code) in rules.issueActionMap
    && action == Strip(rules.issueActionMap[Strip(issue.code)])
    && (action in rules.allowedActions || forall a :: a in rules.allowedActions ==> AllSpace(a))
    && (action != "purge_cache" || rules.allowPurgeCache)
  }

  // Some issue of severity k, at position p, leads to `a`, and every issue that leads to `b` is less
  // severe, or as severe and reported later.
  ghost predicate MoreUrgent(rules: Rules, issues: seq<Issue>, a: string, b: string, p: nat, k: nat) {
    && p < |issues| && LeadsTo(rules, issues[p], a) && HasSeverity(issues[p], k)
    && forall q: nat, j: nat :: q < |issues| && LeadsTo(rules, issues[q], b) && HasSeverity(issues[q], j) ==> k < j || (k == j && p < q)
  }

  ghost predicate StandsBefore(actions: seq<string>, a: string, b: string) {
    exists i, j :: 0 <= i < j < |actions| && actions[i] == a && actions[j] == b
  }

  lemma LowerMeaning(s: string, lower: string)
    requires forall i :: 0 <= i < |lower| ==> !('A' <= lower[i] <= 'Z')
    ensures Lower(s) == lower <==> SameButForCase(s, lower)
  {
    if SameButForCase(s, lower) {
      assert forall i :: 0 <= i < |s| ==> Lower(s)[i] == lower[i];
    }
    if Lower(s) == lower {
      assert forall i :: 0 <= i < |s| ==> Lower(s)[i] == lower[i];
    }
  }

  // Ranks order the severities.
  lemma RankMeaning(issue: Issue)
    ensures exists k: nat :: HasSeverity(issue, k)
    ensures forall k: nat :: HasSeverity(issue, k) ==> k <= 4 && Rank(issue) == if k == 4 then 99 else k
  {
    forall k: nat | k < 4 ensures Lower(issue.severity) == SEVERITIES[k] <==> SameButForCase(issue.severity, SEVERITIES[k]) {
      LowerMeaning(issue.severity, SEVERITIES[k]);
    }
    assert SEVERITIES[0] == "critical" && SEVERITIES[1] == "degraded" && SEVERITIES[2] == "warning" && SEVERITIES[3] == "info";
    var r := Rank(issue);
    if r == 99 {
      assert HasSeverity(issue, 4);
    } else {
      assert HasSeverity(issue, r);
    }
  }

  lemma ActionMeaning(rules: Rules, issue: Issue, action: string)
    requires action != ""
    ensures ActionFor(rules, issue) == action <==> LeadsTo(rules, issue, action)
  {
    forall a: string ensures Strip(a) == "" <==> AllSpace(a) {
      StripEmptyIffBlank(a);
    }
  }

  // The plan holds exactly the actions that some issue leads to ...
  lemma PlanHoldsWhatIssuesAskFor(issues: seq<Issue>, rules: Rules, actions: seq<string>, a: string)
    requires IsPlan(ActionsFor(rules, issues), Ranks(issues), actions)
    ensures a in actions <==> exists p: nat :: p < |issues| && LeadsTo(rules, issues[p], a)
  {
    var asked := ActionsFor(rules, issues);
    forall p: nat | p < |issues| ensures Asks(asked, p, a) <==> LeadsTo(rules, issues[p], a) {
      if a != "" { ActionMeaning(rules, issues[p], a); }
    }
  }

  lemma UrgencyMeansPrecedence(issues: seq<Issue>, rules: Rules, a: string, b: string, p: nat, k: nat, q: nat)
    requires MoreUrgent(rules, issues, a, b, p, k) && q < |issues| && LeadsTo(rules, issues[q], b)
    ensures Precedes(Ranks(issues), p, q)
  {
    RankMeaning(issues[p]);
    RankMeaning(issues[q]);
    var l: nat :| HasSeverity(issues[q], l);
    assert k < l || (k == l && p < q);
  }

  lemma UrgentIsAskedBefore(issues: seq<Issue>, rules: Rules, a: string, b: string, p: nat, k: nat)
    requires MoreUrgent(rules, issues, a, b, p, k)
    ensures AskedBefore(ActionsFor(rules, issues), Ranks(issues), a, b)
  {
    var asked, ranks := ActionsFor(rules, issues), Ranks(issues);
    ActionMeaning(rules, issues[p], a);
    assert Asks(asked, p, a);
    forall q: nat | Asks(asked, q, b) ensures Precedes(ranks, p, q) {
      ActionMeaning(rules, issues[q], b);
      UrgencyMeansPrecedence(issues, rules, a, b, p, k, q);
    }
  }

  // ... the more urgent one first.
  lemma MoreUrgentFirst(issues: seq<Issue>, rules: Rules, actions: seq<string>, a: string, b: string, p: nat, k: nat)
    requires IsPlan(ActionsFor(rules, issues), Ranks(issues), actions)
    requires MoreUrgent(rules, issues, a, b, p, k) && b in actions
    ensures StandsBefore(actions, a, b)
  {
    UrgentIsAskedBefore(issues, rules, a, b, p, k);
    AskedBeforeIsStrict(ActionsFor(rules, issues), Ranks(issues), a, b);
    PlanHoldsWhatIssuesAskFor(issues, rules, actions, a);
    var i :| 0 <= i < |actions| && actions[i] == a;
    var j :| 0 <= j < |actions| && actions[j] == b;
    assert i != j;
    assert !(j < i);
  }

  // `decide_actions` on a list of issues.
  method DecideActions(issues: seq<Issue>, rules: Rules) returns (actions: seq<string>)
    ensures IsPlan(ActionsFor(rules, issues), Ranks(issues), actions)
    ensures NoDuplicates(actions)
    ensures forall a :: a in actions <==> exists p: nat :: p < |issues| && LeadsTo(rules, issues[p], a)
    ensures forall a, b, p, k :: MoreUrgent(rules, issues, a, b, p, k) && b in actions ==> StandsBefore(actions, a, b)
    ensures forall a :: a in actions ==> a != "" && Strip(a) == a
  {
    ghost var asked := ActionsFor(rules, issues);
    var order := Sorted(Ranks(issues), |issues|);
    actions := [];
    var seen: set<string> := {};
    ghost var visit: seq<nat> := [];
    for k := 0 to |order|
      invariant Collected(asked, order, k, actions, visit)
      invariant forall a :: a in seen <==> a in actions
      invariant forall a :: a in actions ==> a != "" && Strip(a) == a
    {
      assert order[k] in order;
      var action := ActionFor(rules, issues[order[k]]);
      if action == "" || action in seen {
        CollectedSkip(asked, order, k, actions, visit);
        continue;
      }
      ActionIsStripped(rules, issues[order[k]]);
      CollectedPush(asked, order, k, actions, visit, action);
      actions := actions + [action];
      seen := seen + {action};
      visit := visit + [k];
    }
    CollectedIsPlan(asked, Ranks(issues), order, actions, visit);
    forall a ensures a in actions <==> exists p: nat :: p < |issues| && LeadsTo(rules, issues[p], a) {
      PlanHoldsWhatIssuesAskFor(issues, rules, actions, a);
    }
    forall a, b, p, k | MoreUrgent(rules, issues, a, b, p, k) && b in actions ensures StandsBefore(actions, a, b) {
      MoreUrgentFirst(issues, rules, actions, a, b, p, k);
    }
  }

  lemma ActionIsStripped(rules: Rules, issue: Issue)
    ensures Strip(ActionFor(rules, issue)) == ActionFor(rules, issue)
  {
    var code := Strip(issue.code);
    if code in rules.issueActionMap {
      StripTwice(rules.issueActionMap[code]);
    }
  }

  lemma AskedBeforeIsStrict(asked: seq<string>, ranks: seq<nat>, a: string, b: string)
    requires |asked| == |ranks| && AskedBefore(asked, ranks, a, b)
    ensures !AskedBefore(asked, ranks, b, a)
  {
    var p: nat :| Asks(asked, p, a) && forall q: nat :: Asks(asked, q, b) ==> Precedes(ranks, p, q);
    forall q: nat | Asks(asked, q, b) ensures !Precedes(ranks, q, p) {
      assert Precedes(ranks, p, q);
    }
  }

  lemma SameMembers(asked: seq<string>, ranks: seq<nat>, a: seq<string>, b: seq<string>)
    requires |asked| == |ranks| && IsPlan(asked, ranks, a) && IsPlan(asked, ranks, b)
    ensures forall x :: x in a <==> x in b
  {
    forall x ensures x in a <==> x in b {
      assert x in a <==> exists p: nat :: Asks(asked, p, x);
      assert x in b <==> exists p: nat :: Asks(asked, p, x);
    }
  }

  lemma NextAgrees(asked: seq<string>, ranks: seq<nat>, a: seq<string>, b: seq<string>, k: nat)
    requires |asked| == |ranks| && IsPlan(asked, ranks, a) && IsPlan(asked, ranks, b)
    requires k < |a| && k < |b| && forall t :: 0 <= t < k ==> a[t] == b[t]
    ensures a[k] == b[k]
  {
    SameMembers(asked, ranks, a, b);
    assert a[k] in a && b[k] in b;
    var i :| 0 <= i < |b| && b[i] == a[k];
    var j :| 0 <= j < |a| && a[j] == b[k];
    assert i >= k && j >= k;
    if i > k && j > k {
      AskedBeforeIsStrict(asked, ranks, a[k], a[j]);
    }
  }

  lemma NoLongerPlan(asked: seq<string>, ranks: seq<nat>, a: seq<string>, b: seq<string>, k: nat)
    requires |asked| == |ranks| && IsPlan(asked, ranks, a) && IsPlan(asked, ranks, b)
    requires k < |a| && forall t :: 0 <= t < k && t < |b| ==> a[t] == b[t]
    ensures k < |b|
  {
    SameMembers(asked, ranks, a, b);
    assert a[k] in a;
    var i :| 0 <= i < |b| && b[i] == a[k];
    assert i >= k;
  }

  // The issues and the rules leave no choice: the plan is unique.
  lemma {:induction false} PlanIsUnique(asked: seq<string>, ranks: seq<nat>, a: seq<string>, b: seq<string>, k: nat)
    requires |asked| == |ranks| && IsPlan(asked, ranks, a) && IsPlan(asked, ranks, b)
    requires k <= |a| && k <= |b| && forall t :: 0 <= t < k ==> a[t] == b[t]
    ensures a == b
    decreases |a| - k
  {
    if k < |a| && k < |b| {
      NextAgrees(asked, ranks, a, b, k);
      PlanIsUnique(asked, ranks, a, b, k + 1);
    } else if k < |a| {
      NoLongerPlan(asked, ranks, a, b, k);
    } else if k < |b| {
      NoLongerPlan(asked, ranks, b, a, k);
    }
  }

  // The non-blank names of a list, stripped.
  function Normalised(names: seq<string>): seq<string> {
    if names == [] then []
    else
      var n := |names| - 1;
      if Strip(names[n]) == "" then Normalised(names[..n]) else Normalised(names[..n]) + [Strip(names[n])]
  }

  // `decide_actions` on a report normalises the actions in it, which leaves its own plan alone.
  lemma {:induction false} NormalisedPlan(actions: seq<string>)
    requires forall a :: a in actions ==> a != "" && Strip(a) == a
    ensures Normalised(actions) == actions
  {
    if actions != [] {
      var n := |actions| - 1;
      assert actions[n] in actions;
      assert forall a :: a in actions[..n] ==> a in actions;
      NormalisedPlan(actions[..n]);
    }
  }
}
