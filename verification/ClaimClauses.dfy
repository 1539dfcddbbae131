/** Clause separators, and what the segments in front of one can do to the clause behind it. */
module ClaimClauses {
  import opened Prelude
  import opened ClaimText
  import opened ClaimScope
  import opened ClaimScan

  /** Dashes between two white-space characters. */
  predicate IsDash(sep: string) {
    && 3 <= |sep| && IsSpace(sep[0]) && IsSpace(sep[|sep| - 1])
    && forall k :: 0 < k < |sep| - 1 ==> sep[k] == '-'
  }

  /** What `_CLAUSE_BREAK` matches. */
  predicate IsSeparator(sep: string) {
    (|sep| == 1 && sep[0] in {',', ';', ':'}) || IsDash(sep)
  }

  /** White space at `k` and then only dashes: half of a dash separator. */
  predicate HalfDashAt(e: string, k: nat) {
    k + 1 < |e| && IsSpace(e[k]) && forall i :: k < i < |e| ==> e[i] == '-'
  }

  predicate EndsInHalfDash(e: string) {
    exists k :: 0 <= k < |e| && HalfDashAt(e, k)
  }

  function LastOf(parts: seq<string>): string
    requires parts != []
  {
    parts[|parts| - 1]
  }

  /** `s` begins with `e`. */
  predicate BeginsWith(s: string, e: string) {
    |e| <= |s| && forall k :: 0 <= k < |e| ==> s[k] == e[k]
  }

  // ----- separators at the end of a text -----

  lemma {:induction false} DashRunIs(s: string, i: nat, n: nat)
    requires i + n <= |s| && (forall k :: i <= k < i + n ==> s[k] == '-') && (i + n < |s| ==> s[i + n] != '-')
    ensures DashRun(s, i) == n
    decreases n
  {
    if n > 0 { DashRunIs(s, i + 1, n - 1); }
  }

  lemma {:induction false} DashRunStops(s: string, i: nat)
    requires i <= |s|
    ensures i + DashRun(s, i) < |s| ==> s[i + DashRun(s, i)] != '-'
    decreases |s| - i
  {
    if i < |s| { DashRunStops(s, i + 1); }
  }

  /** The separator at `k` of a text, if white space follows the text or if something else does. */
  function BreakBefore(e: string, k: nat, space: bool): nat
    requires k < |e|
  {
    if HalfDashAt(e, k) && space then |e| - k + 1 else BreakLen(Clauses, e, k)
  }

  /** What follows a text changes the separators in it only by completing half a dash. */
  lemma BreakInFront(e: string, rest: string, k: nat)
    requires k < |e| && rest != [] && rest[0] != '-'
    ensures BreakLen(Clauses, e + rest, k) == BreakBefore(e, k, IsSpace(rest[0]))
  {
    var t := e + rest;
    var d := DashRun(e, k + 1);
    assert t[|e|] == rest[0] && forall m :: 0 <= m < |e| ==> t[m] == e[m];
    DashRunStops(e, k + 1);
    DashRunIs(t, k + 1, d);
    if HalfDashAt(e, k) { DashRunIs(e, k + 1, |e| - k - 1); }
  }

  lemma SeparatorBreak(e: string, sep: string, r: string)
    requires IsSeparator(sep)
    ensures BreakLen(Clauses, e + (sep + r), |e|) == |sep|
  {
    BreakShift(Clauses, e, sep + r, 0);
    if IsDash(sep) {
      assert forall k :: 0 <= k < |sep| ==> (sep + r)[k] == sep[k];
      DashRunIs(sep + r, 1, |sep| - 2);
    }
  }

  // ----- two scans side by side -----

  /** Where the last piece begins. */
  function LastStart(s: string, breaks: Breaks, i: nat, start: nat): (x: nat)
    requires Fits(s, breaks) && start <= i <= |s|
    ensures start <= x <= |s|
    ensures forall k :: i <= k && x <= k < |s| ==> breaks[k] == 0
    decreases |s| - i
  {
    if i == |s| then start
    else if breaks[i] > 0 then LastStart(s, breaks, i + breaks[i], i + breaks[i])
    else LastStart(s, breaks, i + 1, start)
  }

  /** No separator from `i` on. */
  ghost predicate NoneFrom(s: string, breaks: Breaks, i: nat)
    requires Fits(s, breaks)
  {
    forall k :: i <= k < |s| ==> breaks[k] == 0
  }

  lemma {:induction false} LastStartIsStart(s: string, breaks: Breaks, i: nat, start: nat)
    requires Fits(s, breaks) && start <= i <= |s| && NoneFrom(s, breaks, i)
    ensures LastStart(s, breaks, i, start) == start
    decreases |s| - i
  {
    if i < |s| { LastStartIsStart(s, breaks, i + 1, start); }
  }

  lemma {:induction false} LastPiece(s: string, breaks: Breaks, i: nat, start: nat)
    requires Fits(s, breaks) && start <= i <= |s|
    ensures LastOf(Pieces(s, breaks, i, start)) == s[LastStart(s, breaks, i, start)..]
    decreases |s| - i
  {
    if i < |s| {
      if breaks[i] > 0 {
        LastPiece(s, breaks, i + breaks[i], i + breaks[i]);
      } else {
        LastPiece(s, breaks, i + 1, start);
      }
    }
  }

  /** Wherever the scan of `e` comes by, a scan of a longer text finds the same separator. */
  ghost predicate Agree(bs: Breaks, e: string, be: Breaks, i: nat)
    requires Fits(e, be) && |e| <= |bs| && i <= |e|
    decreases |e| - i
  {
    i < |e| ==> bs[i] == be[i] && Agree(bs, e, be, if be[i] > 0 then i + be[i] else i + 1)
  }

  lemma SameSlice(s: string, e: string, a: nat, b: nat)
    requires BeginsWith(s, e) && a <= b <= |e|
    ensures s[a..b] == e[a..b]
  {
    assert forall k :: 0 <= k < b - a ==> s[a..b][k] == s[a + k] == e[a + k] == e[a..b][k];
  }

  lemma PiecesStop(s: string, breaks: Breaks, i: nat, start: nat, early: seq<string>, rest: seq<string>)
    requires Fits(s, breaks) && start <= i < |s| && breaks[i] > 0
    requires Pieces(s, breaks, i + breaks[i], i + breaks[i]) == early + rest
    ensures Pieces(s, breaks, i, start) == [s[start..i]] + early + rest
  {
    ConsAppend(s[start..i], early, rest);
  }

  /** Two scans that agree cut the same pieces up to the last one of the shorter text. */
  lemma {:induction false} ScanTogether(s: string, bs: Breaks, e: string, be: Breaks, i: nat, start: nat)
      returns (early: seq<string>)
    requires Fits(s, bs) && Fits(e, be) && BeginsWith(s, e) && start <= i <= |e| && Agree(bs, e, be, i)
    ensures var x := LastStart(e, be, i, start);
      && Pieces(s, bs, i, start) == early + Pieces(s, bs, |e|, x)
      && Pieces(e, be, i, start) == early + [e[x..]]
    decreases |e| - i
  {
    if i == |e| {
      early := [];
    } else if be[i] > 0 {
      early := ScanTogether(s, bs, e, be, i + be[i], i + be[i]);
      var x := LastStart(e, be, i, start);
      SameSlice(s, e, start, i);
      PiecesStop(s, bs, i, start, early, Pieces(s, bs, |e|, x));
      PiecesStop(e, be, i, start, early, [e[x..]]);
      early := [e[start..i]] + early;
    } else {
      early := ScanTogether(s, bs, e, be, i + 1, start);
    }
  }

  // ----- a separator in the clear -----

  /** Nothing in front of the separator runs into it. */
  predicate StandsClear(e: string, sep: string)
    requires IsSeparator(sep)
  {
    IsDash(sep) ==> !EndsInHalfDash(LastOf(Split(Clauses, e)))
  }

  lemma {:induction false} AgreeInTheClear(bs: Breaks, e: string, be: Breaks, i: nat, start: nat)
    requires Fits(e, be) && |e| <= |bs| && start <= i <= |e|
    requires forall k :: 0 <= k < |e| && bs[k] != be[k] ==> HalfDashAt(e, k) && NoneFrom(e, be, k)
    requires !EndsInHalfDash(e[LastStart(e, be, i, start)..])
    ensures Agree(bs, e, be, i)
    decreases |e| - i
  {
    if i < |e| {
      if bs[i] != be[i] { HalfDashIsLast(e, be, i, start); }
      if be[i] > 0 {
        AgreeInTheClear(bs, e, be, i + be[i], i + be[i]);
      } else {
        AgreeInTheClear(bs, e, be, i + 1, start);
      }
    }
  }

  /** Once the scan has come to half a dash, all that is left is one piece. */
  lemma HalfDashIsLast(e: string, be: Breaks, k: nat, start: nat)
    requires Fits(e, be) && start <= k && HalfDashAt(e, k) && NoneFrom(e, be, k)
    ensures LastStart(e, be, k, start) == start && EndsInHalfDash(e[start..])
  {
    LastStartIsStart(e, be, k, start);
    assert HalfDashAt(e[start..], k - start);
  }

  lemma HalfDashIsNoBreak(e: string, k: nat)
    requires HalfDashAt(e, k)
    ensures NoneFrom(e, BreaksOf(Clauses, e), k)
  {
    DashRunIs(e, k + 1, |e| - k - 1);
  }

  lemma {:induction false} AgreeIfSame(bs: Breaks, e: string, be: Breaks, i: nat)
    requires Fits(e, be) && |e| <= |bs| && i <= |e| && forall k :: 0 <= k < |e| ==> bs[k] == be[k]
    ensures Agree(bs, e, be, i)
    decreases |e| - i
  {
    if i < |e| { AgreeIfSame(bs, e, be, if be[i] > 0 then i + be[i] else i + 1); }
  }

  /** `e` is followed by `sep`, and what follows that is of no concern. */
  predicate Followed(s: string, e: string, sep: string) {
    |e| + |sep| <= |s| && s[..|e|] == e && s[|e|..|e| + |sep|] == sep
  }

  /** The scans of `s` and of its beginning `e` agree up to a separator of length `n` behind `e`. */
  ghost predicate ScansApart(s: string, bs: Breaks, e: string, be: Breaks, n: nat) {
    && Fits(s, bs) && Fits(e, be) && BeginsWith(s, e) && Agree(bs, e, be, 0)
    && |e| < |s| && 0 < n == bs[|e|]
  }

  lemma ClearScan(s: string, e: string, sep: string)
    requires IsSeparator(sep) && StandsClear(e, sep) && Followed(s, e, sep)
    ensures ScansApart(s, BreaksOf(Clauses, s), e, BreaksOf(Clauses, e), |sep|)
  {
    var bs, be := BreaksOf(Clauses, s), BreaksOf(Clauses, e);
    FollowedBreaks(s, e, sep);
    if IsDash(sep) {
      forall k | 0 <= k < |e| && bs[k] != be[k] ensures HalfDashAt(e, k) && NoneFrom(e, be, k) {
        HalfDashIsNoBreak(e, k);
      }
      LastPiece(e, be, 0, 0);
      AgreeInTheClear(bs, e, be, 0, 0);
    } else {
      AgreeIfSame(bs, e, be, 0);
    }
  }

  lemma FollowedBreaks(s: string, e: string, sep: string)
    requires IsSeparator(sep) && Followed(s, e, sep)
    ensures BeginsWith(s, e) && BreakLen(Clauses, s, |e|) == |sep|
    ensures forall k :: 0 <= k < |e| ==> BreakLen(Clauses, s, k) == BreakBefore(e, k, IsDash(sep))
  {
    assert s == e + (sep + s[|e| + |sep|..]);
    SeparatorBreak(e, sep, s[|e| + |sep|..]);
    forall k | 0 <= k < |e| ensures BreakLen(Clauses, s, k) == BreakBefore(e, k, IsDash(sep)) {
      BreakInFront(e, sep + s[|e| + |sep|..], k);
    }
  }

  lemma SplitWhenClear(s: string, e: string, sep: string, r: string)
    requires IsSeparator(sep) && StandsClear(e, sep) && Followed(s, e, sep) && s[|e| + |sep|..] == r
    ensures Split(Clauses, s) == Split(Clauses, e) + Split(Clauses, r)
  {
    ClearScan(s, e, sep);
    SplitApart(s, e, |sep|, r);
  }

  lemma SplitApart(s: string, e: string, n: nat, r: string)
    requires ScansApart(s, BreaksOf(Clauses, s), e, BreaksOf(Clauses, e), n) && s[|e| + n..] == r
    ensures Split(Clauses, s) == Split(Clauses, e) + Split(Clauses, r)
  {
    BreaksShift(s, |e| + n, r);
    PiecesApart(s, BreaksOf(Clauses, s), e, BreaksOf(Clauses, e), n, r, BreaksOf(Clauses, r));
  }

  lemma PiecesApart(s: string, bs: Breaks, e: string, be: Breaks, n: nat, r: string, br: Breaks)
    requires ScansApart(s, bs, e, be, n) && IsTail(s, bs, |e| + n, r, br)
    ensures Pieces(s, bs, 0, 0) == Pieces(e, be, 0, 0) + Pieces(r, br, 0, 0)
  {
    var early := ScanTogether(s, bs, e, be, 0, 0);
    PiecesAtEnd(s, bs, e, 0, 0, LastStart(e, be, 0, 0), early);
    SamePieces(s, bs, |e| + n, r, br, 0, 0);
  }

  lemma AppendCons<T>(a: seq<T>, x: T, b: seq<T>)
    ensures a + ([x] + b) == (a + [x]) + b
  {
  }

  /** The scan of `s` has come to the separator behind `e`. */
  lemma PiecesAtEnd(s: string, bs: Breaks, e: string, i: nat, start: nat, x: nat, early: seq<string>)
    requires Fits(s, bs) && start <= i <= |s| && x <= |e| < |s| && BeginsWith(s, e) && bs[|e|] > 0
    requires Pieces(s, bs, i, start) == early + Pieces(s, bs, |e|, x)
    ensures Pieces(s, bs, i, start) == early + [e[x..]] + Pieces(s, bs, |e| + bs[|e|], |e| + bs[|e|])
  {
    SameSlice(s, e, x, |e|);
    assert e[x..|e|] == e[x..];
    AppendCons(early, e[x..], Pieces(s, bs, |e| + bs[|e|], |e| + bs[|e|]));
  }

  // ----- a separator behind half a dash -----

  lemma {:induction false} LastStartStays(s: string, breaks: Breaks, i: nat, start: nat)
    requires Fits(s, breaks) && start <= i <= |s| && LastStart(s, breaks, i, start) <= i
    ensures LastStart(s, breaks, i, start) == start
    decreases |s| - i
  {
    if i < |s| { LastStartStays(s, breaks, i + 1, start); }
  }

  /** The scan of a text, up to the half dash at `j` in its last piece, is that of what is in front. */
  lemma {:induction false} AgreeUpToHalfDash(be: Breaks, e: string, front: string, bf: Breaks, i: nat, start: nat)
    requires Fits(e, be) && Fits(front, bf) && start <= i <= |front| < |e|
    requires LastStart(e, be, i, start) <= |front|
    requires forall k :: 0 <= k < |front| && be[k] != bf[k] ==> k + be[k] > |front|
    ensures Agree(be, front, bf, i) && LastStart(front, bf, i, start) == LastStart(e, be, i, start)
    decreases |front| - i
  {
    if i == |front| {
      LastStartStays(e, be, i, start);
    } else if be[i] > 0 {
      AgreeUpToHalfDash(be, e, front, bf, i + be[i], i + be[i]);
    } else {
      AgreeUpToHalfDash(be, e, front, bf, i + 1, start);
    }
  }
  /** A text with half a dash in its last piece splits like what is in front of that, but for the dash. */
  lemma HalfDashSplit(e: string, j: nat) returns (early: seq<string>)
    requires HalfDashAt(e, j) && LastStart(e, BreaksOf(Clauses, e), 0, 0) <= j
    ensures var x := LastStart(e, BreaksOf(Clauses, e), 0, 0);
      && Split(Clauses, e) == early + [e[x..]]
      && Split(Clauses, e[..j]) == early + [e[x..j]]
      && !EndsInHalfDash(e[x..j])
  {
    var front := e[..j];
    var be, bf := BreaksOf(Clauses, e), BreaksOf(Clauses, front);
    var x := LastStart(e, be, 0, 0);
    FrontBreaks(e, j);
    AgreeUpToHalfDash(be, e, front, bf, 0, 0);
    early := ScanTogether(e, be, front, bf, 0, 0);
    PiecesSkip(e, be, j, |e|, x);
    assert front[x..] == e[x..j];
    OneHalfDash(e, j, x);
  }

  lemma OneHalfDash(e: string, j: nat, x: nat)
    requires HalfDashAt(e, j) && x <= j && forall k :: x <= k < j ==> BreakLen(Clauses, e, k) == 0
    ensures !EndsInHalfDash(e[x..j])
  {
    FrontBreaks(e, j);
    assert e[..j][x..] == e[x..j];
    forall k | 0 <= k < j - x ensures !HalfDashAt(e[x..j], k) {
      assert BreakLen(Clauses, e, x + k) == 0;
      if HalfDashAt(e[x..j], k) { HalfDashMoves(e[..j], x, k); }
    }
  }

  lemma HalfDashMoves(s: string, x: nat, k: nat)
    requires x <= |s| && HalfDashAt(s[x..], k)
    ensures HalfDashAt(s, x + k)
  {
    assert forall i :: x + k <= i < |s| ==> s[i] == s[x..][i - x];
  }

  lemma FrontBreaks(e: string, j: nat)
    requires HalfDashAt(e, j)
    ensures forall k :: 0 <= k < j ==> BreakLen(Clauses, e, k) == BreakBefore(e[..j], k, true)
  {
    assert e == e[..j] + e[j..];
    forall k | 0 <= k < j ensures BreakLen(Clauses, e, k) == BreakBefore(e[..j], k, true) {
      BreakInFront(e[..j], e[j..], k);
    }
  }

  /** How a text splits around any separator: half a dash at the end of `e` takes the separator's white
      space for its own, so the segment in front loses its filler and the one behind gains some. */
  lemma SeparatorShape(e: string, sep: string, r: string)
      returns (early: seq<string>, head: string, filler: string, dash: string)
    requires IsSeparator(sep)
    ensures Split(Clauses, e) == early + [head + filler]
    ensures Split(Clauses, e + sep + r) == early + [head] + Split(Clauses, dash + r)
    ensures AllFiller(filler) && AllFiller(dash)
    ensures if StandsClear(e, sep) then filler == "" && dash == "" else filler != ""
  {
    if StandsClear(e, sep) {
      early, head, filler, dash := ClearShape(e, sep, r);
    } else {
      var j;
      early, j := HalfDashShape(e, sep, r);
      var x := LastStart(e, BreaksOf(Clauses, e), 0, 0);
      head, filler, dash := e[x..j], e[j..], sep[1..];
      assert head + filler == e[x..];
    }
  }

  lemma ClearShape(e: string, sep: string, r: string)
      returns (early: seq<string>, head: string, filler: string, dash: string)
    requires IsSeparator(sep) && StandsClear(e, sep)
    ensures Split(Clauses, e) == early + [head + filler]
    ensures Split(Clauses, e + sep + r) == early + [head] + Split(Clauses, dash + r)
    ensures filler == "" && dash == ""
  {
    var segments, s := Split(Clauses, e), e + sep + r;
    early, head, filler, dash := segments[..|segments| - 1], LastOf(segments), "", "";
    assert s[..|e|] == e && s[|e|..|e| + |sep|] == sep && s[|e| + |sep|..] == r;
    SplitWhenClear(s, e, sep, r);
    assert early + [head] == segments && head + filler == head && dash + r == r;
  }

  lemma HalfDashShape(e: string, sep: string, r: string) returns (early: seq<string>, j: nat)
    requires IsSeparator(sep) && !StandsClear(e, sep)
    ensures HalfDashAt(e, j)
    ensures var x := LastStart(e, BreaksOf(Clauses, e), 0, 0);
      && x <= j
      && Split(Clauses, e) == early + [e[x..]]
      && Split(Clauses, e + sep + r) == early + [e[x..j]] + Split(Clauses, sep[1..] + r)
  {
    var x := LastStart(e, BreaksOf(Clauses, e), 0, 0);
    LastPiece(e, BreaksOf(Clauses, e), 0, 0);
    var k :| 0 <= k < |e[x..]| && HalfDashAt(e[x..], k);
    HalfDashMoves(e, x, k);
    j := x + k;
    early := HalfDashSplit(e, j);
    SplitAtHalfDash(e, sep, r, j, early, e[x..j]);
  }

  lemma SplitAtHalfDash(e: string, sep: string, r: string, j: nat, early: seq<string>, head: string)
    requires IsDash(sep) && HalfDashAt(e, j) && !EndsInHalfDash(head)
    requires Split(Clauses, e[..j]) == early + [head]
    ensures Split(Clauses, e + sep + r) == early + [head] + Split(Clauses, sep[1..] + r)
  {
    var whole, s := e[j..] + sep[..1], e + sep + r;
    assert IsDash(whole);
    assert LastOf(early + [head]) == head;
    assert s[..j] == e[..j] && s[j..j + |whole|] == whole && s[j + |whole|..] == sep[1..] + r;
    SplitWhenClear(s, e[..j], whole, sep[1..] + r);
  }

  /** A separator splits a text into the segments of its two sides if and only if no half dash in front
      of a dash runs into it. */
  lemma SplitAtSeparator(e: string, sep: string, r: string)
    requires IsSeparator(sep)
    ensures Split(Clauses, e + sep + r) == Split(Clauses, e) + Split(Clauses, r) <==> StandsClear(e, sep)
  {
    var early, head, filler, dash := SeparatorShape(e, sep, r);
    if StandsClear(e, sep) {
      assert head + filler == head && dash + r == r;
    } else {
      assert (early + [head] + Split(Clauses, dash + r))[|early|] == head;
      assert (early + [head + filler] + Split(Clauses, r))[|early|] == head + filler;
    }
  }

  // ----- filler around a segment -----

  /** Filler behind a text makes and hides no literal in it. */
  lemma LiteralAhead(lex: Lexis, h: string, filler: string, i: nat, p: Literal)
    requires Sound(lex) && Plain(p) && AllFiller(filler)
    ensures LiteralAt(lex.word, h + filler, i, p) <==> LiteralAt(lex.word, h, i, p)
    ensures TailAt(lex, h + filler, i, p) <==> TailAt(lex, h, i, p)
  {
    var s := h + filler;
    TextAhead(h, filler, i, p);
    if TextAt(h, i, p.text) {
      BoundaryAhead(lex, h, filler, i);
      BoundaryAhead(lex, h, filler, i + |p.text|);
      assert forall k :: 0 <= k < |h| ==> s[k] == h[k];
      assert forall k :: |h| <= k < |s| ==> s[k] == filler[k - |h|];
    }
  }

  lemma TextAhead(h: string, filler: string, i: nat, p: Literal)
    requires Plain(p) && AllFiller(filler)
    ensures TextAt(h + filler, i, p.text) <==> TextAt(h, i, p.text)
  {
    var s, end := h + filler, i + |p.text|;
    if end <= |h| {
      assert s[i..end] == h[i..end];
    } else if end <= |s| {
      assert s[end - 1] == filler[end - 1 - |h|];
      if TextAt(s, i, p.text) { TextIsLetters(s, i, p); }
    }
  }

  lemma BoundaryAhead(lex: Lexis, h: string, filler: string, k: nat)
    requires Sound(lex) && AllFiller(filler) && k <= |h|
    ensures Boundary(lex.word, h + filler, k) <==> Boundary(lex.word, h, k)
  {
    var s := h + filler;
    if k > 0 { assert s[k - 1] == h[k - 1]; }
    if k < |h| { assert s[k] == h[k]; } else if filler != [] { assert s[k] == filler[0]; }
  }

  lemma BlocksAhead(lex: Lexis, h: string, filler: string)
    requires Sound(lex) && AllFiller(filler)
    ensures Blocks(lex, h + filler) <==> Blocks(lex, h)
  {
    var s := h + filler;
    if Blocks(lex, s) {
      var i :| 0 <= i <= |s| && BlockedAt(lex, s, i);
      var p :| p in lex.blockers && LiteralAt(lex.word, s, i, p);
      LiteralAhead(lex, h, filler, i, p);
      assert BlockedAt(lex, h, i);
    }
    if Blocks(lex, h) {
      var i :| 0 <= i <= |h| && BlockedAt(lex, h, i);
      var p :| p in lex.blockers && LiteralAt(lex.word, h, i, p);
      LiteralAhead(lex, h, filler, i, p);
      assert BlockedAt(lex, s, i);
    }
  }

  lemma DanglesAhead(lex: Lexis, h: string, filler: string)
    requires Sound(lex) && AllFiller(filler)
    ensures Dangles(lex, h + filler) <==> Dangles(lex, h)
  {
    var s := h + filler;
    if Dangles(lex, s) {
      var i :| 0 <= i <= |s| && DanglesAt(lex, s, i);
      var p :| p in lex.dangling && TailAt(lex, s, i, p);
      LiteralAhead(lex, h, filler, i, p);
      assert DanglesAt(lex, h, i);
    }
    if Dangles(lex, h) {
      var i :| 0 <= i <= |h| && DanglesAt(lex, h, i);
      var p :| p in lex.dangling && TailAt(lex, h, i, p);
      LiteralAhead(lex, h, filler, i, p);
      assert DanglesAt(lex, s, i);
    }
  }

  lemma {:induction false} WordsMoved(s: string, o: nat, h: string, i: nat, start: nat)
    requires start <= i <= |h| && |s| == o + |h| && forall k :: 0 <= k < |h| ==> s[o + k] == h[k]
    ensures WordsFrom(s, o + i, o + start) == WordsFrom(h, i, start)
    decreases |h| - i
  {
    if i < |h| && InWord(h[i]) {
      WordsMoved(s, o, h, i + 1, start);
    } else {
      assert s[o + start..o + i] == h[start..i];
      if i < |h| { WordsMoved(s, o, h, i + 1, i + 1); }
    }
  }

  lemma {:induction false} NoWordsInFiller(s: string, i: nat, o: nat)
    requires i <= o <= |s| && forall k :: i <= k < o ==> Filler(s[k])
    ensures WordsFrom(s, i, i) == WordsFrom(s, o, o)
    decreases o - i
  {
    if i < o { NoWordsInFiller(s, i + 1, o); }
  }

  lemma SameSubject(lex: Lexis, f: string, h: string)
    requires AllFiller(f)
    ensures LacksSubject(lex, f + h) <==> LacksSubject(lex, h)
  {
    NoWordsInFiller(f + h, 0, |f|);
    WordsMoved(f + h, |f|, h, 0, 0);
  }

  /** Filler in front of a text changes neither what its segments block nor the subject of its last clause. */
  lemma FillerInFront(lex: Lexis, f: string, r: string)
    requires Sound(lex) && AllFiller(f)
    ensures ScopeBlocks(lex, Split(Clauses, f + r)) <==> ScopeBlocks(lex, Split(Clauses, r))
    ensures LacksSubject(lex, LastOf(Split(Clauses, f + r))) <==> LacksSubject(lex, LastOf(Split(Clauses, r)))
  {
    assert (f + r)[..|f|] == f && (f + r)[|f|..] == r;
    var early, front, early', front', tail := CutSplits(f + r, |f|, r);
    FillerNeutral(lex, early, front, early', front', tail);
    FillerNeutral(lex, early', front', early, front, tail);
    SameSubject(lex, front, tail[0]);
    SameSubject(lex, front', tail[0]);
    LastAfter(early, front + tail[0], tail[1..]);
    LastAfter(early', front' + tail[0], tail[1..]);
  }

  lemma LastAfter(early: seq<string>, first: string, rest: seq<string>)
    ensures LastOf(early + [first] + rest) == if rest == [] then first else LastOf(rest)
  {
  }

  lemma FillerNeutral(lex: Lexis, early: seq<string>, front: string, early': seq<string>, front': string,
      tail: seq<string>)
    requires Sound(lex) && tail != [] && AllFiller(front) && AllFiller(front')
    requires forall e :: e in early' ==> AllFiller(e)
    ensures ScopeBlocks(lex, early' + [front' + tail[0]] + tail[1..]) ==>
      ScopeBlocks(lex, early + [front + tail[0]] + tail[1..])
  {
    FillerOpens(lex, front);
    BlocksBehind(lex, front', front, tail[0]);
    DanglesBehind(lex, front', front, tail[0]);
    ScopeBlocksMonotone(lex, early, front + tail[0], early', front' + tail[0], tail[1..]);
  }

  // ----- what earlier segments do -----

  predicate Closed(lex: Lexis, e: string) {
    var segments := Split(Clauses, e);
    forall k :: 0 <= k < |segments| ==> !Dangles(lex, segments[k])
  }

  lemma InertSegments(lex: Lexis, first: seq<string>, second: seq<string>)
    requires second != [] && !LacksSubject(lex, LastOf(second))
    requires forall k :: 0 <= k < |first| ==> !Dangles(lex, first[k])
    ensures ScopeBlocks(lex, first + second) <==> ScopeBlocks(lex, second)
  {
    var all := first + second;
    assert LastOf(all) == LastOf(second);
    assert forall k :: 0 <= k < |first| ==> all[k] == first[k];
    if ScopeBlocks(lex, all) {
      var i :| 0 <= i < |all| && Blocks(lex, all[i]) && InScope(lex, all, i);
      assert Blocks(lex, second[i - |first|]) && InScope(lex, second, i - |first|);
    }
    if ScopeBlocks(lex, second) {
      var i :| 0 <= i < |second| && Blocks(lex, second[i]) && InScope(lex, second, i);
      assert Blocks(lex, all[|first| + i]) && InScope(lex, all, |first| + i);
    }
  }

  /** Within the bound, an earlier text that leaves nothing dangling never affects a clause that
      has a subject of its own: "No problem, " and "Not a problem - " neither block nor unblock what
      follows. */
  lemma ClosedSegmentIsInert(lex: Lexis, e: string, sep: string, r: string)
    requires Sound(lex) && IsSeparator(sep) && |e| + |sep| + |r| <= SCAN_CHARS
    requires Closed(lex, e) && !LacksSubject(lex, LastOf(Split(Clauses, r)))
    ensures LeavesClaimStanding(lex, e + sep + r) <==> LeavesClaimStanding(lex, r)
  {
    var early, head, filler, dash := SeparatorShape(e, sep, r);
    var first, second := early + [head], Split(Clauses, dash + r);
    DanglesAhead(lex, head, filler);
    EarlierStayClosed(lex, Split(Clauses, e), early, head, filler);
    FillerInFront(lex, dash, r);
    InertSegments(lex, first, second);
    WindowBlocks(lex, first + second);
    WindowBlocks(lex, Split(Clauses, r));
  }

  lemma EarlierStayClosed(lex: Lexis, segments: seq<string>, early: seq<string>, head: string, filler: string)
    requires segments == early + [head + filler] && (Dangles(lex, head + filler) <==> Dangles(lex, head))
    requires forall k :: 0 <= k < |segments| ==> !Dangles(lex, segments[k])
    ensures forall k :: 0 <= k < |early| + 1 ==> !Dangles(lex, (early + [head])[k])
  {
    assert forall k :: 0 <= k < |early| ==> segments[k] == early[k];
    assert segments[|early|] == head + filler;
  }

  /** Some segment of an earlier text denies and is left open, like "I have not" in front of a
      parenthesis. */
  predicate OpenDenial(lex: Lexis, e: string) {
    var segments := Split(Clauses, e);
    exists k :: 0 <= k < |segments| && Blocks(lex, segments[k]) && Dangles(lex, segments[k])
  }

  /** The other way round, an open denial reaches over any separator to the clauses behind it. */
  lemma OpenDenialReaches(lex: Lexis, e: string, sep: string, r: string)
    requires Sound(lex) && IsSeparator(sep) && |e| + |sep| + |r| <= SCAN_CHARS
    requires OpenDenial(lex, e)
    ensures !LeavesClaimStanding(lex, e + sep + r)
  {
    var segments := Split(Clauses, e);
    var k :| 0 <= k < |segments| && Blocks(lex, segments[k]) && Dangles(lex, segments[k]);
    var early, head, filler, dash := SeparatorShape(e, sep, r);
    var all := early + [head] + Split(Clauses, dash + r);
    BlocksAhead(lex, head, filler);
    DanglesAhead(lex, head, filler);
    assert all[k] == if k < |early| then segments[k] else head;
    assert Blocks(lex, all[k]) && InScope(lex, all, k);
    WindowBlocks(lex, all);
  }
}
