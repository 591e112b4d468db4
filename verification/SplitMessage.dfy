// `split_message` of core/utils/helpers.py: cutting a text into chunks of bounded length.

module SplitMessages {
  import opened Common

  // `s[:n].rfind(c)`, at least 0 by the way it is used: the last index below n of the character c.
  function LastIndex(s: string, c: char, n: nat): (i: int)
    requires n <= |s|
    ensures -1 <= i < n && (i >= 0 ==> s[i] == c)
    ensures forall k :: i < k < n ==> s[k] != c
  {
    if n == 0 then -1 else if s[n - 1] == c then n - 1 else LastIndex(s, c, n - 1)
  }

  // Where a text longer than maxLen is cut: at the last newline behind its first character, or
  // else at the last such space, or else at maxLen.
  ghost predicate IsCut(s: string, maxLen: nat, pos: nat)
    requires maxLen < |s|
  {
    var newline := exists k :: 0 < k < maxLen && s[k] == '\n';
    var space := exists k :: 0 < k < maxLen && s[k] == ' ';
    && 1 <= pos <= maxLen
    && (newline ==> pos < maxLen && s[pos] == '\n' && forall k :: pos < k < maxLen ==> s[k] != '\n')
    && (!newline && space ==> pos < maxLen && s[pos] == ' ' && forall k :: pos < k < maxLen ==> s[k] != ' ')
    && (!newline && !space ==> pos == maxLen)
  }

  // A piece of a split: the chunk that is kept and the blank stretch dropped behind it.
  datatype Piece = Piece(chunk: string, gap: string)

  function Chunks(ps: seq<Piece>): seq<string> {
    if ps == [] then [] else Chunks(ps[..|ps| - 1]) + [ps[|ps| - 1].chunk]
  }

  lemma ChunksPush(ps: seq<Piece>, p: Piece)
    ensures Chunks(ps + [p]) == Chunks(ps) + [p.chunk]
  {
    assert (ps + [p])[..|ps|] == ps;
  }

  // The text the pieces were cut from.
  function Text(ps: seq<Piece>): string {
    if ps == [] then "" else Text(ps[..|ps| - 1]) + ps[|ps| - 1].chunk + ps[|ps| - 1].gap
  }

  // Taking the piece p off the front of r leaves r'. What fits is taken whole; otherwise the chunk
  // ends where the policy says and the gap reaches up to the next visible character.
  ghost predicate IsPiece(r: string, maxLen: nat, p: Piece, r': string) {
    && r != "" && r == p.chunk + p.gap + r'
    && if |r| <= maxLen then p == Piece(r, "") && r' == ""
       else IsCut(r, maxLen, |p.chunk|) && AllSpace(p.gap) && (r' != "" ==> !IsSpace(r'[0]))
  }

  // Taking off the pieces one after the other leaves `rest`.
  ghost predicate SplitsTo(content: string, maxLen: nat, ps: seq<Piece>, rest: string)
    decreases |ps|
  {
    if ps == [] then rest == content
    else
      var p := ps[|ps| - 1];
      var before := p.chunk + p.gap + rest;
      SplitsTo(content, maxLen, ps[..|ps| - 1], before) && IsPiece(before, maxLen, p, rest)
  }

  lemma SplitsToPush(content: string, maxLen: nat, ps: seq<Piece>, rest: string, p: Piece, rest': string)
    requires SplitsTo(content, maxLen, ps, rest) && IsPiece(rest, maxLen, p, rest')
    ensures SplitsTo(content, maxLen, ps + [p], rest')
  {
    assert (ps + [p])[..|ps|] == ps;
  }

  // What the pieces mean: chunks of length 1 to maxLen whose text, with only whitespace between and
  // behind them, is the original.
  lemma {:induction false} SplitMeaning(content: string, maxLen: nat, ps: seq<Piece>, rest: string)
    requires SplitsTo(content, maxLen, ps, rest)
    ensures Text(ps) + rest == content
    ensures forall i :: 0 <= i < |ps| ==> 1 <= |ps[i].chunk| <= maxLen && AllSpace(ps[i].gap)
    decreases |ps|
  {
    if ps != [] {
      var p := ps[|ps| - 1];
      SplitMeaning(content, maxLen, ps[..|ps| - 1], p.chunk + p.gap + rest);
      assert Text(ps[..|ps| - 1]) + (p.chunk + p.gap + rest) == Text(ps) + rest;
    }
  }

  lemma PieceIsUnique(r: string, maxLen: nat, p: Piece, q: Piece, q': string, r': string)
    requires IsPiece(r, maxLen, p, r') && IsPiece(r, maxLen, q, q')
    ensures p == q && r' == q'
  {
    if |r| > maxLen {
      CutIsUnique(r, maxLen, |p.chunk|, |q.chunk|);
      assert p.chunk == r[..|p.chunk|] && q.chunk == r[..|q.chunk|];
      var tail := r[|p.chunk|..];
      assert tail == p.gap + r' && tail == q.gap + q';
      GapIsUnique(tail, p.gap, r', q.gap, q');
    }
  }

  lemma CutIsUnique(s: string, maxLen: nat, a: nat, b: nat)
    requires maxLen < |s| && IsCut(s, maxLen, a) && IsCut(s, maxLen, b)
    ensures a == b
  {}

  lemma GapIsUnique(tail: string, g: string, r: string, h: string, q: string)
    requires tail == g + r && tail == h + q && AllSpace(g) && AllSpace(h)
    requires (r != "" ==> !IsSpace(r[0])) && (q != "" ==> !IsSpace(q[0]))
    ensures g == h && r == q
  {
    assert r != "" ==> tail[|g|] == r[0];
    assert q != "" ==> tail[|h|] == q[0];
    assert forall i :: 0 <= i < |g| ==> tail[i] == g[i];
    assert forall i :: 0 <= i < |h| ==> tail[i] == h[i];
    assert |g| == |h|;
    assert g == tail[..|g|] && h == tail[..|h|] && r == tail[|g|..] && q == tail[|h|..];
  }

  lemma {:induction false} SplitsToPrefix(content: string, maxLen: nat, ps: seq<Piece>, rest: string, n: nat) returns (mid: string)
    requires SplitsTo(content, maxLen, ps, rest) && n < |ps|
    ensures SplitsTo(content, maxLen, ps[..n], mid) && mid != ""
    decreases |ps|
  {
    var last := |ps| - 1;
    mid := ps[last].chunk + ps[last].gap + rest;
    if n < last {
      mid := SplitsToPrefix(content, maxLen, ps[..last], mid, n);
      assert ps[..last][..n] == ps[..n];
    }
  }

  // The text and the length leave no choice: there is one complete split.
  lemma CompleteSplitIsUnique(content: string, maxLen: nat, ps: seq<Piece>, qs: seq<Piece>)
    requires SplitsTo(content, maxLen, ps, "") && SplitsTo(content, maxLen, qs, "")
    ensures ps == qs
  {
    var n := if |ps| < |qs| then |ps| else |qs|;
    var p := "";
    var q := "";
    if n < |ps| { p := SplitsToPrefix(content, maxLen, ps, "", n); }
    if n < |qs| { q := SplitsToPrefix(content, maxLen, qs, "", n); }
    assert ps[..|ps|] == ps && qs[..|qs|] == qs;
    SplitIsUnique(content, maxLen, ps[..n], p, qs[..n], q);
  }

  // Splits into equally many pieces agree.
  lemma {:induction false} SplitIsUnique(content: string, maxLen: nat, ps: seq<Piece>, rest: string, qs: seq<Piece>, rest': string)
    requires SplitsTo(content, maxLen, ps, rest) && SplitsTo(content, maxLen, qs, rest') && |ps| == |qs|
    ensures ps == qs && rest == rest'
    decreases |ps|
  {
    if ps != [] {
      var n := |ps| - 1;
      var p, q := ps[n], qs[n];
      SplitIsUnique(content, maxLen, ps[..n], p.chunk + p.gap + rest, qs[..n], q.chunk + q.gap + rest');
      PieceIsUnique(p.chunk + p.gap + rest, maxLen, p, q, rest', rest);
      assert ps == ps[..n] + [p] && qs == qs[..n] + [q];
    }
  }

  // Where the loop cuts a text that is too long.
  function CutAt(s: string, maxLen: nat): (pos: nat)
    requires maxLen < |s|
    ensures maxLen >= 1 ==> IsCut(s, maxLen, pos)
  {
    var newline, space := LastIndex(s, '\n', maxLen), LastIndex(s, ' ', maxLen);
    if newline > 0 then newline else if space > 0 then space else maxLen
  }

  // What is left of a text after one round of the loop.
  function AfterRound(rest: string, maxLen: nat): string {
    if |rest| <= maxLen then "" else LStrip(rest[CutAt(rest, maxLen)..])
  }

  // The chunks of the complete split.
  ghost predicate AreChunksOf(content: string, maxLen: nat, chunks: seq<string>) {
    exists ps :: SplitsTo(content, maxLen, ps, "") && chunks == Chunks(ps)
  }

  method SplitMessage(content: string, maxLen: nat) returns (chunks: seq<string>)
    requires maxLen >= 1
    ensures AreChunksOf(content, maxLen, chunks)
  {
    if content == "" {
      assert SplitsTo(content, maxLen, [], "");
      return [];
    }
    ghost var pieces: seq<Piece> := [];
    if |content| <= maxLen {
      SplitsToPush(content, maxLen, [], content, Piece(content, ""), "");
      ChunksPush([], Piece(content, ""));
      return [] + [content];
    }
    chunks := [];
    var rest := content;
    while rest != ""
      invariant chunks == Chunks(pieces)
      invariant SplitsTo(content, maxLen, pieces, rest)
      decreases |rest|
    {
      if |rest| <= maxLen {
        chunks := chunks + [rest];
        SplitsToPush(content, maxLen, pieces, rest, Piece(rest, ""), "");
        ChunksPush(pieces, Piece(rest, ""));
        pieces := pieces + [Piece(rest, "")];
        return;
      }
      var pos := LastIndex(rest, '\n', maxLen);
      if pos <= 0 {
        pos := LastIndex(rest, ' ', maxLen);
      }
      if pos <= 0 {
        pos := maxLen;
      }
      assert pos == CutAt(rest, maxLen) && LStrip(rest[pos..]) == AfterRound(rest, maxLen);
      ghost var piece := PieceAt(rest, maxLen, pos);
      ChunksPush(pieces, piece);
      SplitsToPush(content, maxLen, pieces, rest, piece, LStrip(rest[pos..]));
      chunks := chunks + [rest[..pos]];
      pieces := pieces + [piece];
      rest := LStrip(rest[pos..]);
    }
  }

  // The piece that ends at a cut.
  ghost function PieceAt(r: string, maxLen: nat, pos: nat): (p: Piece)
    requires maxLen < |r| && IsCut(r, maxLen, pos)
    ensures p.chunk == r[..pos] && IsPiece(r, maxLen, p, LStrip(r[pos..]))
    ensures |LStrip(r[pos..])| < |r|
  {
    var tail := r[pos..];
    LStripDropsSpace(tail);
    var gap := tail[..|tail| - |LStrip(tail)|];
    assert tail == gap + LStrip(tail);
    assert r == r[..pos] + gap + LStrip(tail);
    Piece(r[..pos], gap)
  }

  // What the result means: chunks of length 1 to maxLen, in order, which only whitespace separates in
  // the text.
  lemma ChunksMeaning(content: string, maxLen: nat, chunks: seq<string>)
    requires AreChunksOf(content, maxLen, chunks)
    ensures forall i :: 0 <= i < |chunks| ==> 1 <= |chunks[i]| <= maxLen
    ensures exists gaps: seq<string> :: |gaps| == |chunks| && Interleaved(chunks, gaps) == content && AllSpace(Concat(gaps))
  {
    var ps :| SplitsTo(content, maxLen, ps, "") && chunks == Chunks(ps);
    SplitMeaning(content, maxLen, ps, "");
    assert Text(ps) + "" == Text(ps);
    ColumnLengths(ps);
    TextIsInterleaved(ps);
    GapsAreSpace(ps);
  }

  // Each chunk followed by its gap.
  function Interleaved(chunks: seq<string>, gaps: seq<string>): string
    requires |chunks| == |gaps|
  {
    if chunks == [] then ""
    else
      var n := |chunks| - 1;
      Interleaved(chunks[..n], gaps[..n]) + chunks[n] + gaps[n]
  }

  function Gaps(ps: seq<Piece>): seq<string> {
    if ps == [] then [] else Gaps(ps[..|ps| - 1]) + [ps[|ps| - 1].gap]
  }

  lemma {:induction false} ColumnLengths(ps: seq<Piece>)
    ensures |Chunks(ps)| == |Gaps(ps)| == |ps|
    ensures forall i :: 0 <= i < |ps| ==> Chunks(ps)[i] == ps[i].chunk
  {
    if ps != [] {
      ColumnLengths(ps[..|ps| - 1]);
    }
  }

  lemma {:induction false} TextIsInterleaved(ps: seq<Piece>)
    ensures |Chunks(ps)| == |Gaps(ps)| && Interleaved(Chunks(ps), Gaps(ps)) == Text(ps)
  {
    ColumnLengths(ps);
    if ps != [] {
      var n := |ps| - 1;
      ColumnLengths(ps[..n]);
      TextIsInterleaved(ps[..n]);
      assert Chunks(ps)[..n] == Chunks(ps[..n]) && Gaps(ps)[..n] == Gaps(ps[..n]);
    }
  }

  lemma {:induction false} GapsAreSpace(ps: seq<Piece>)
    requires forall i :: 0 <= i < |ps| ==> AllSpace(ps[i].gap)
    ensures AllSpace(Concat(Gaps(ps)))
  {
    if ps != [] {
      var n := |ps| - 1;
      GapsAreSpace(ps[..n]);
      ConcatPush(Gaps(ps[..n]), ps[n].gap);
    }
  }

  // ---- When the loop ends ----

  // What is left of it after n rounds.
  function AfterRounds(rest: string, maxLen: nat, n: nat): string
    decreases n
  {
    if n == 0 then rest else AfterRounds(AfterRound(rest, maxLen), maxLen, n - 1)
  }

  ghost predicate Ends(content: string, maxLen: nat) {
    exists n: nat :: AfterRounds(content, maxLen, n) == ""
  }

  lemma {:induction false} PositiveLengthEnds(rest: string, maxLen: nat) returns (n: nat)
    requires maxLen >= 1
    ensures AfterRounds(rest, maxLen, n) == ""
    decreases |rest|
  {
    n := 0;
    if rest != "" {
      var next := AfterRound(rest, maxLen);
      if |rest| > maxLen {
        LStripDropsSpace(rest[CutAt(rest, maxLen)..]);
      }
      n := PositiveLengthEnds(next, maxLen);
      n := n + 1;
    }
  }

  // With length 0 every round only strips, and a visible first character stays.
  lemma {:induction false} ZeroLengthStalls(rest: string, n: nat)
    requires rest != "" && !IsSpace(rest[0])
    ensures AfterRounds(rest, 0, n) == rest
  {
    if n > 0 {
      assert CutAt(rest, 0) == 0 && rest[0..] == rest;
      ZeroLengthStalls(rest, n - 1);
    }
  }

  // The loop ends if and only if the length is positive or the text is blank.
  lemma {:induction false} LoopEndsIff(content: string, maxLen: nat)
    ensures Ends(content, maxLen) <==> maxLen >= 1 || AllSpace(content)
  {
    if maxLen >= 1 {
      var n := PositiveLengthEnds(content, maxLen);
    } else if content == "" {
      assert AfterRounds(content, 0, 0) == "";
    } else {
      var left := LStrip(content);
      LStripDropsSpace(content);
      assert CutAt(content, 0) == 0 && content[0..] == content;
      assert AfterRound(content, 0) == left;
      if left == "" {
        assert content[..|content|] == content;
        assert AfterRounds(content, 0, 1) == "";
      } else {
        assert content[|content| - |left|] == left[0];
        forall n: nat ensures AfterRounds(content, 0, n) != "" {
          if n > 0 { ZeroLengthStalls(left, n - 1); }
        }
      }
    }
  }
}
