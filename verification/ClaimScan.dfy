/** The bound on the scan: cutting the front of a long prefix off is conservative. */
module ClaimScan {
  import opened Prelude
  import opened ClaimText
  import opened ClaimScope

  /** What a clause dash is made of. */
  predicate Filler(c: char) { IsSpace(c) || c == '-' }

  predicate AllFiller(s: string) {
    forall i :: 0 <= i < |s| ==> Filler(s[i])
  }

  // ----- filler is neutral -----

  lemma FillerIsNeutral(lex: Lexis, s: string)
    requires Sound(lex) && AllFiller(s)
    ensures !Blocks(lex, s) && !Dangles(lex, s)
  {
    forall i, p | 0 <= i <= |s| && Plain(p) ensures !TextAt(s, i, p.text) {
      NoTextInFiller(s, i, p);
    }
  }

  lemma NoTextInFiller(s: string, i: nat, p: Literal)
    requires AllFiller(s) && Plain(p)
    ensures !TextAt(s, i, p.text)
  {
    if i + |p.text| <= |s| {
      assert s[i..i + |p.text|][0] == s[i];
    }
  }

  /** A text with something in front that cannot be part of a word. */
  predicate Opens(lex: Lexis, front: string) {
    front == [] || !lex.word(front[|front| - 1])
  }

  /** Behind anything that cannot be part of a word, a text has the same word boundaries. */
  lemma BoundaryBehind(lex: Lexis, a: string, b: string, h: string, k: nat)
    requires Opens(lex, a) && Opens(lex, b) && k <= |h|
    ensures Boundary(lex.word, a + h, |a| + k) <==> Boundary(lex.word, b + h, |b| + k)
  {
    var s, s' := a + h, b + h;
    if k > 0 { assert s[|a| + k - 1] == h[k - 1] == s'[|b| + k - 1]; }
    if k < |h| { assert s[|a| + k] == h[k] == s'[|b| + k]; }
    if k == 0 && a != [] { assert s[|a| - 1] == a[|a| - 1]; }
    if k == 0 && b != [] { assert s'[|b| - 1] == b[|b| - 1]; }
  }

  lemma TextBehind(filler: string, front: string, h: string, i: nat, p: Literal)
    requires Plain(p) && AllFiller(filler) && TextAt(filler + h, i, p.text)
    ensures i >= |filler|
    ensures TextAt(front + h, |front| + (i - |filler|), p.text)
  {
    var s := filler + h;
    var e := i + |p.text|;
    assert s[i] == s[i..e][0] == p.text[0];
    assert forall k :: 0 <= k < |filler| ==> s[k] == filler[k];
    assert s[i..e] == h[i - |filler|..e - |filler|];
    assert (front + h)[|front| + (i - |filler|)..|front| + (e - |filler|)] == h[i - |filler|..e - |filler|];
  }

  lemma FillerOpens(lex: Lexis, filler: string)
    requires Sound(lex) && AllFiller(filler)
    ensures Opens(lex, filler)
  {
  }

  /** A literal that matches behind filler also matches behind any such front. */
  lemma LiteralBehind(lex: Lexis, filler: string, front: string, h: string, i: nat, p: Literal)
    requires Sound(lex) && Plain(p) && AllFiller(filler) && Opens(lex, front)
    requires TextAt(filler + h, i, p.text) && (p.bound ==> Boundary(lex.word, filler + h, i))
    ensures i >= |filler|
    ensures TextAt(front + h, |front| + (i - |filler|), p.text)
    ensures p.bound ==> Boundary(lex.word, front + h, |front| + (i - |filler|))
    ensures Boundary(lex.word, filler + h, i + |p.text|) ==>
      Boundary(lex.word, front + h, |front| + (i - |filler|) + |p.text|)
  {
    FillerOpens(lex, filler);
    TextBehind(filler, front, h, i, p);
    BoundaryBehind(lex, filler, front, h, i - |filler|);
    BoundaryBehind(lex, filler, front, h, i - |filler| + |p.text|);
  }

  lemma BlocksBehind(lex: Lexis, filler: string, front: string, h: string)
    requires Sound(lex) && AllFiller(filler) && Opens(lex, front)
    ensures Blocks(lex, filler + h) ==> Blocks(lex, front + h)
  {
    var s := filler + h;
    if Blocks(lex, s) {
      var i :| 0 <= i <= |s| && BlockedAt(lex, s, i);
      var p :| p in lex.blockers && LiteralAt(lex.word, s, i, p);
      LiteralBehind(lex, filler, front, h, i, p);
      assert BlockedAt(lex, front + h, |front| + (i - |filler|));
    }
  }

  lemma TailBehind(lex: Lexis, filler: string, front: string, h: string, i: nat, p: Literal)
    requires Sound(lex) && Plain(p) && AllFiller(filler) && Opens(lex, front)
    requires TailAt(lex, filler + h, i, p)
    ensures i >= |filler| && TailAt(lex, front + h, |front| + (i - |filler|), p)
  {
    LiteralBehind(lex, filler, front, h, i, p);
    var s, s' := filler + h, front + h;
    var j := |front| + (i - |filler|);
    assert forall k :: j + |p.text| <= k < |s'| ==> s'[k] == h[k - |front|] == s[k - |front| + |filler|];
  }

  lemma DanglesBehind(lex: Lexis, filler: string, front: string, h: string)
    requires Sound(lex) && AllFiller(filler) && Opens(lex, front)
    ensures Dangles(lex, filler + h) ==> Dangles(lex, front + h)
  {
    var s := filler + h;
    if Dangles(lex, s) {
      var i :| 0 <= i <= |s| && DanglesAt(lex, s, i);
      var p :| p in lex.dangling && TailAt(lex, s, i, p);
      TailBehind(lex, filler, front, h, i, p);
      assert DanglesAt(lex, front + h, |front| + (i - |filler|));
    }
  }

  // ----- scanning from two places -----

  /** The scan of clauses stops exactly at `q`. */
  ghost predicate StopsAt(breaks: Breaks, i: nat, q: nat)
    requires q <= |breaks|
  {
    forall k :: i <= k < q ==> k + breaks[k] <= q
  }

  lemma {:induction false} PiecesUpTo(s: string, breaks: Breaks, i: nat, start: nat, q: nat)
      returns (early: seq<string>, start': nat)
    requires Fits(s, breaks) && start <= i <= q <= |s| && StopsAt(breaks, i, q)
    ensures start <= start' <= q
    ensures Pieces(s, breaks, i, start) == early + Pieces(s, breaks, q, start')
    ensures AllFiller(s[start..q]) ==> forall e :: e in early ==> AllFiller(e)
    decreases q - i
  {
    if i == q {
      early, start' := [], start;
    } else if breaks[i] > 0 {
      var rest;
      rest, start' := PiecesUpTo(s, breaks, i + breaks[i], i + breaks[i], q);
      early := [s[start..i]] + rest;
      if AllFiller(s[start..q]) {
        FillerParts(s, start, i, i + breaks[i], q);
      }
    } else {
      early, start' := PiecesUpTo(s, breaks, i + 1, start, q);
    }
  }

  lemma FillerParts(s: string, a: nat, b: nat, c: nat, d: nat)
    requires a <= b <= c <= d <= |s| && AllFiller(s[a..d])
    ensures AllFiller(s[a..b]) && AllFiller(s[c..d])
  {
    assert forall k :: a <= k < d ==> s[k] == s[a..d][k - a];
  }

  /** A clause separator never reaches over a character that is no filler. */
  lemma BreaksStopAtSolid(s: string, i: nat, q: nat)
    requires i <= q <= |s| && (q < |s| ==> !Filler(s[q]))
    ensures StopsAt(BreaksOf(Clauses, s), i, q)
  {
    forall k | i <= k < q ensures k + BreaksOf(Clauses, s)[k] <= q {
      assert BreaksOf(Clauses, s)[k] == BreakLen(Clauses, s, k);
      var d := DashRun(s, k + 1);
    }
  }

  function FirstSolid(s: string, i: nat): (q: nat)
    requires i <= |s|
    ensures i <= q <= |s| && (q < |s| ==> !Filler(s[q]))
    ensures forall k :: i <= k < q ==> Filler(s[k])
    decreases |s| - i
  {
    if i < |s| && Filler(s[i]) then FirstSolid(s, i + 1) else i
  }

  lemma BreakInTail(s: string, p: nat, k: nat)
    requires p <= k < |s|
    ensures BreakLen(Clauses, s, k) == BreakLen(Clauses, s[p..], k - p)
  {
    assert s == s[..p] + s[p..];
    BreakShift(Clauses, s[..p], s[p..], k - p);
  }

  /** A scan of `r` sees what a scan of `s` sees from `p` on. */
  predicate IsTail(s: string, bs: Breaks, p: nat, r: string, br: Breaks) {
    && Fits(s, bs) && Fits(r, br) && p <= |s| && s[p..] == r
    && forall k :: p <= k < |s| ==> bs[k] == br[k - p]
  }

  lemma BreaksShift(s: string, p: nat, r: string)
    requires p <= |s| && s[p..] == r
    ensures IsTail(s, BreaksOf(Clauses, s), p, r, BreaksOf(Clauses, r))
  {
    forall k | p <= k < |s| ensures BreakLen(Clauses, s, k) == BreakLen(Clauses, r, k - p) {
      BreakInTail(s, p, k);
    }
  }

  /** A text and its tail split alike from any place in the tail on. */
  lemma SameTail(s: string, p: nat, r: string, q: nat) returns (tail: seq<string>)
    requires p <= |s| && s[p..] == r && q <= |r|
    ensures tail == Pieces(s, BreaksOf(Clauses, s), p + q, p + q) && tail == Pieces(r, BreaksOf(Clauses, r), q, q)
  {
    BreaksShift(s, p, r);
    tail := TailPieces(s, BreaksOf(Clauses, s), p, r, BreaksOf(Clauses, r), q);
  }

  lemma TailPieces(s: string, bs: Breaks, p: nat, r: string, br: Breaks, q: nat) returns (tail: seq<string>)
    requires IsTail(s, bs, p, r, br) && q <= |r|
    ensures tail == Pieces(s, bs, p + q, p + q) && tail == Pieces(r, br, q, q)
  {
    tail := Pieces(r, br, q, q);
    SamePieces(s, bs, p, r, br, q, q);
  }

  /** Fewer words in the first segment, and only filler before it, block no more. */
  lemma ScopeBlocksMonotone(lex: Lexis, early: seq<string>, first: string, early': seq<string>, first': string,
      rest: seq<string>)
    requires Sound(lex)
    requires forall e :: e in early' ==> AllFiller(e)
    requires Blocks(lex, first') ==> Blocks(lex, first)
    requires Dangles(lex, first') ==> Dangles(lex, first)
    ensures ScopeBlocks(lex, early' + [first'] + rest) ==> ScopeBlocks(lex, early + [first] + rest)
  {
    var cut, full := early' + [first'] + rest, early + [first] + rest;
    if ScopeBlocks(lex, cut) {
      var i :| 0 <= i < |cut| && Blocks(lex, cut[i]) && InScope(lex, cut, i);
      if i < |early'| {
        assert cut[i] in early';
        FillerIsNeutral(lex, cut[i]);
      } else {
        var j := i - |early'| + |early|;
        if i > |early'| { assert full[j] == rest[i - |early'| - 1] == cut[i]; }
        if rest != [] { assert full[|full| - 1] == cut[|cut| - 1]; }
        assert Blocks(lex, full[j]) && InScope(lex, full, j);
      }
    }
  }

  /** The segments are `early`, and then `tail` with `front` before its first piece. */
  predicate SplitsAs(segments: seq<string>, early: seq<string>, front: string, tail: seq<string>) {
    tail != [] && segments == early + [front + tail[0]] + tail[1..]
  }

  predicate OnlyFiller(early: seq<string>, front: string) {
    AllFiller(front) && forall e :: e in early ==> AllFiller(e)
  }

  predicate EndsInFiller(front: string) { front == [] || Filler(front[|front| - 1]) }

  /** Splitting a text around a place where the scan stops: `front` is what the first piece behind
      it already holds. */
  lemma SplitAround(s: string, q: nat, tail: seq<string>) returns (early: seq<string>, front: string)
    requires q <= |s| && (q < |s| ==> !Filler(s[q]))
    requires tail == Pieces(s, BreaksOf(Clauses, s), q, q)
    ensures SplitsAs(Split(Clauses, s), early, front, tail)
    ensures front == [] || (q > 0 && front[|front| - 1] == s[q - 1])
    ensures AllFiller(s[..q]) ==> OnlyFiller(early, front)
  {
    BreaksStopAtSolid(s, 0, q);
    early, front := PiecesAround(s, BreaksOf(Clauses, s), q, tail);
  }

  lemma PiecesAround(s: string, breaks: Breaks, q: nat, tail: seq<string>)
      returns (early: seq<string>, front: string)
    requires Fits(s, breaks) && q <= |s| && StopsAt(breaks, 0, q) && tail == Pieces(s, breaks, q, q)
    ensures SplitsAs(Pieces(s, breaks, 0, 0), early, front, tail)
    ensures front == [] || (q > 0 && front[|front| - 1] == s[q - 1])
    ensures AllFiller(s[..q]) ==> OnlyFiller(early, front)
  {
    var start;
    early, start := PiecesUpTo(s, breaks, 0, 0, q);
    PiecesFromEarlier(s, breaks, q, start, q);
    front := s[start..q];
    assert s[0..q] == s[..q];
    if AllFiller(s[..q]) { FillerParts(s, 0, 0, start, q); }
  }

  /** A text and what is left of it behind `p` split alike from the first solid character on. In front of
      that the rest has only filler, and so has the text itself if it has only filler in front of `p`. */
  lemma CutSplits(s: string, p: nat, r: string)
      returns (early: seq<string>, front: string, early': seq<string>, front': string, tail: seq<string>)
    requires p <= |s| && s[p..] == r
    ensures SplitsAs(Split(Clauses, s), early, front, tail)
    ensures SplitsAs(Split(Clauses, r), early', front', tail)
    ensures p > 0 && Filler(s[p - 1]) ==> EndsInFiller(front)
    ensures AllFiller(s[..p]) ==> OnlyFiller(early, front)
    ensures OnlyFiller(early', front')
  {
    tail := CommonTail(s, p, r);
    early, front := CutAhead(s, p, r, tail);
    early', front' := SplitAtSolid(r, tail);
  }

  /** What both texts split into behind the first solid character. */
  predicate TailOf(s: string, p: nat, r: string, tail: seq<string>) {
    var q := FirstSolid(r, 0);
    p + q <= |s| && tail == Pieces(s, BreaksOf(Clauses, s), p + q, p + q)
  }

  lemma CommonTail(s: string, p: nat, r: string) returns (tail: seq<string>)
    requires p <= |s| && s[p..] == r
    ensures TailOf(s, p, r, tail) && TailOf(r, 0, r, tail)
  {
    tail := SameTail(s, p, r, FirstSolid(r, 0));
  }

  lemma CutAhead(s: string, p: nat, r: string, tail: seq<string>) returns (early: seq<string>, front: string)
    requires p <= |s| && s[p..] == r && TailOf(s, p, r, tail)
    ensures SplitsAs(Split(Clauses, s), early, front, tail)
    ensures p > 0 && Filler(s[p - 1]) ==> EndsInFiller(front)
    ensures AllFiller(s[..p]) ==> OnlyFiller(early, front)
  {
    SolidBehind(s, p, r);
    early, front := SplitAhead(s, p, p + FirstSolid(r, 0), tail);
  }

  /** The rest itself, split around its first solid character. */
  lemma SplitAtSolid(r: string, tail: seq<string>) returns (early: seq<string>, front: string)
    requires TailOf(r, 0, r, tail)
    ensures SplitsAs(Split(Clauses, r), early, front, tail) && OnlyFiller(early, front)
  {
    var q := FirstSolid(r, 0);
    assert AllFiller(r[..q]);
    early, front := SplitAround(r, q, tail);
  }

  /** The whole text, split around that place. */
  lemma SplitAhead(s: string, p: nat, q: nat, tail: seq<string>) returns (early: seq<string>, front: string)
    requires p <= q <= |s| && OpensSolid(s, p, q) && tail == Pieces(s, BreaksOf(Clauses, s), q, q)
    ensures SplitsAs(Split(Clauses, s), early, front, tail)
    ensures p > 0 && Filler(s[p - 1]) ==> EndsInFiller(front)
    ensures AllFiller(s[..p]) ==> OnlyFiller(early, front)
  {
    early, front := SplitAround(s, q, tail);
    if AllFiller(s[..p]) { FillerGoesOn(s, p, q); }
  }

  lemma FillerGoesOn(s: string, p: nat, q: nat)
    requires p <= q <= |s| && OpensSolid(s, p, q) && AllFiller(s[..p])
    ensures AllFiller(s[..q])
  {
    assert forall k :: 0 <= k < p ==> s[..p][k] == s[k];
  }

  /** Only filler from `p` to `q`, and something solid there unless the text ends. */
  predicate OpensSolid(s: string, p: nat, q: nat)
    requires p <= q <= |s|
  {
    (q < |s| ==> !Filler(s[q])) && forall k :: p <= k < q ==> Filler(s[k])
  }

  lemma SolidBehind(s: string, p: nat, r: string)
    requires p <= |s| && s[p..] == r
    ensures p + FirstSolid(r, 0) <= |s| && OpensSolid(s, p, p + FirstSolid(r, 0))
  {
    assert forall k :: 0 <= k < |r| ==> s[p + k] == r[k];
    forall k | p <= k < p + FirstSolid(r, 0) ensures Filler(s[k]) {
      assert Filler(r[k - p]);
    }
  }

  /** Cutting text off in front of a blank can only lose blockers. */
  lemma CutKeepsStanding(lex: Lexis, s: string, p: nat)
    requires Sound(lex) && 0 < p <= |s| && s[p - 1] == ' '
    ensures StandsAfter(lex, s) ==> StandsAfter(lex, s[p..])
  {
    var early, front, early', filler, tail := CutSplits(s, p, s[p..]);
    BlocksBehind(lex, filler, front, tail[0]);
    DanglesBehind(lex, filler, front, tail[0]);
    ScopeBlocksMonotone(lex, early, front + tail[0], early', filler + tail[0], tail[1..]);
    StandsUnlessScopeBlocks(lex, s);
    StandsUnlessScopeBlocks(lex, s[p..]);
  }

  lemma StandsUnlessScopeBlocks(lex: Lexis, s: string)
    requires Sound(lex)
    ensures StandsAfter(lex, s) <==> !ScopeBlocks(lex, Split(Clauses, s))
  {
    WindowBlocks(lex, Split(Clauses, s));
  }

  lemma {:induction false} AfterFirstBlankCuts(s: string)
    ensures AfterFirstBlank(s) == [] || exists p :: 0 < p <= |s| && s[p - 1] == ' ' && AfterFirstBlank(s) == s[p..]
  {
    if s != [] && s[0] != ' ' {
      AfterFirstBlankCuts(s[1..]);
      if AfterFirstBlank(s) != [] {
        var p :| 0 < p <= |s[1..]| && s[1..][p - 1] == ' ' && AfterFirstBlank(s[1..]) == s[1..][p..];
        assert s[p + 1 - 1] == ' ' && AfterFirstBlank(s) == s[p + 1..];
      }
    }
  }

  lemma NothingBlocksNothing(lex: Lexis)
    requires Sound(lex)
    ensures StandsAfter(lex, "")
  {
    assert Split(Clauses, "") == [""];
    WindowBlocks(lex, [""]);
    FillerIsNeutral(lex, "");
  }

  /** The 400-character bound is conservative: a verb blocked on the truncated prefix is blocked
      on the full one, so truncation can only leave a claim standing, never hide one. */
  lemma BoundIsConservative(lex: Lexis, prefix: string)
    requires Sound(lex) && !LeavesClaimStanding(lex, prefix)
    ensures !StandsAfter(lex, prefix)
  {
    if |prefix| > SCAN_CHARS {
      var tail := prefix[|prefix| - SCAN_CHARS..];
      AfterFirstBlankCuts(tail);
      NothingBlocksNothing(lex);
      var p :| 0 < p <= |tail| && tail[p - 1] == ' ' && AfterFirstBlank(tail) == tail[p..];
      CutOfTail(prefix, |prefix| - SCAN_CHARS, p);
      if StandsAfter(lex, prefix) { CutKeepsStanding(lex, prefix, |prefix| - SCAN_CHARS + p); }
    }
  }

  /** Behind 400 characters the text further back does not matter at all. */
  lemma OnlyTheLastMatter(lex: Lexis, a: string, b: string)
    requires |a| > 400 && |b| > 400 && a[|a| - 400..] == b[|b| - 400..]
    ensures LeavesClaimStanding(lex, a) <==> LeavesClaimStanding(lex, b)
  {
  }

  lemma CutOfTail(s: string, a: nat, p: nat)
    requires a + p <= |s| && 0 < p
    ensures s[a..][p - 1] == s[a + p - 1] && s[a..][p..] == s[a + p..]
  {
  }
}
