// Shared datatypes, and the string operations of the source language that several components use.

module Common {
  datatype Option<+T> = None | Some(value: T)

  // The characters `str.isspace` accepts.
  predicate IsSpace(c: char) {
    var n := c as int;
    || 0x09 <= n <= 0x0d || 0x1c <= n <= 0x20 || n == 0x85 || n == 0xa0 || n == 0x1680
    || 0x2000 <= n <= 0x200a || n == 0x2028 || n == 0x2029 || n == 0x202f || n == 0x205f || n == 0x3000
  }

  predicate AllSpace(s: string) {
    forall i :: 0 <= i < |s| ==> IsSpace(s[i])
  }

  // `s.lstrip()`
  function LStrip(s: string): string {
    if s != "" && IsSpace(s[0]) then LStrip(s[1..]) else s
  }

  function RStrip(s: string): string {
    if s != "" && IsSpace(s[|s| - 1]) then RStrip(s[..|s| - 1]) else s
  }

  // `s.strip()`
  function Strip(s: string): string {
    RStrip(LStrip(s))
  }

  // `LStrip` drops the longest all-whitespace prefix, and nothing else.
  lemma {:induction false} LStripDropsSpace(s: string)
    ensures |LStrip(s)| <= |s| && LStrip(s) == s[|s| - |LStrip(s)|..] && AllSpace(s[..|s| - |LStrip(s)|])
    ensures LStrip(s) != "" ==> !IsSpace(LStrip(s)[0])
  {
    if s != "" && IsSpace(s[0]) {
      var r := LStrip(s[1..]);
      LStripDropsSpace(s[1..]);
      assert s[..|s| - |r|] == [s[0]] + s[1..][..|s| - 1 - |r|];
    }
  }

  lemma {:induction false} RStripDropsSpace(s: string)
    ensures RStrip(s) <= s && AllSpace(s[|RStrip(s)|..])
    ensures RStrip(s) != "" ==> !IsSpace(RStrip(s)[|RStrip(s)| - 1])
  {
    if s != "" && IsSpace(s[|s| - 1]) {
      var r := RStrip(s[..|s| - 1]);
      RStripDropsSpace(s[..|s| - 1]);
      assert s[|r|..] == s[..|s| - 1][|r|..] + [s[|s| - 1]];
    }
  }

  lemma StripTwice(s: string)
    ensures Strip(Strip(s)) == Strip(s)
  {
    var l := LStrip(s);
    LStripDropsSpace(s);
    RStripDropsSpace(l);
    if Strip(s) != "" {
      assert Strip(s)[0] == l[0];
    }
  }

  lemma {:induction false} RStripKeepsHead(s: string)
    requires s != "" && !IsSpace(s[0])
    ensures RStrip(s) != ""
  {
    if IsSpace(s[|s| - 1]) {
      RStripKeepsHead(s[..|s| - 1]);
    }
  }

  lemma StripEmptyIffBlank(s: string)
    ensures Strip(s) == "" <==> AllSpace(s)
  {
    var l := LStrip(s);
    LStripDropsSpace(s);
    if l == "" {
      assert s[..|s| - |l|] == s;
    } else {
      assert s[|s| - |l|] == l[0];
      RStripKeepsHead(l);
    }
  }

  // `t` is `s` without the whitespace around it.
  ghost predicate IsStripped(s: string, t: string) {
    && (exists n, m :: 0 <= n <= m <= |s| && t == s[n..m] && AllSpace(s[..n]) && AllSpace(s[m..]))
    && t != "" && !IsSpace(t[0]) && !IsSpace(t[|t| - 1])
  }

  lemma StripMeaning(s: string)
    requires !AllSpace(s)
    ensures IsStripped(s, Strip(s))
  {
    var l := LStrip(s);
    LStripDropsSpace(s);
    RStripDropsSpace(l);
    StripEmptyIffBlank(s);
    StrippedIs(s, |s| - |l|, |RStrip(l)|);
  }

  lemma StrippedIs(s: string, n: nat, k: nat)
    requires n + k <= |s| && AllSpace(s[..n]) && AllSpace(s[n..][k..])
    requires s[n..][..k] != "" && !IsSpace(s[n..][..k][0]) && !IsSpace(s[n..][..k][k - 1])
    ensures IsStripped(s, s[n..][..k])
  {
    assert s[n..][..k] == s[n..n + k] && s[n..][k..] == s[n + k..];
  }

  lemma Regroup<T>(a: seq<T>, b: seq<T>, c: seq<T>)
    ensures a + b + c == a + (b + c)
  {}

  lemma Inside<T>(a: seq<T>, b: seq<T>, c: seq<T>, k: nat)
    requires k < |b|
    ensures (a + b + c)[|a| + k] == b[k]
  {}

  function Concat<T>(ss: seq<seq<T>>): seq<T> {
    if ss == [] then [] else Concat(ss[..|ss| - 1]) + ss[|ss| - 1]
  }

  lemma ConcatPush<T>(ss: seq<seq<T>>, s: seq<T>)
    ensures Concat(ss + [s]) == Concat(ss) + s
  {
    assert (ss + [s])[..|ss|] == ss;
  }

  // A number that is not in the set.
  lemma {:induction false} FreshNat(s: set<nat>) returns (n: nat)
    ensures n !in s
  {
    n := UpperBound(s);
  }

  lemma {:induction false} UpperBound(s: set<nat>) returns (n: nat)
    ensures forall x :: x in s ==> x < n
  {
    n := 0;
    if s != {} {
      var x :| x in s;
      n := UpperBound(s - {x});
      if n <= x { n := x + 1; }
      assert forall y :: y in s ==> y == x || y in s - {x};
    }
  }
}
