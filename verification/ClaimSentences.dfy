/** The guard looks at each sentence alone: where a text falls into sentences and clauses, and what that means for
    claims. */
module ClaimSentences {
  import opened Prelude
  import opened ClaimText
  import opened ClaimClauses
  import opened ClaimScan
  import opened ClaimGuard
  import opened ClaimSafety

  predicate AllNewline(s: string) {
    forall i :: 0 <= i < |s| ==> s[i] == '\r' || s[i] == '\n'
  }

  /** A gap between two sentences: white space behind a closing mark, or line breaks behind anything visible. */
  predicate SentenceGap(a: string, gap: string, b: string) {
    && a != [] && !IsSpace(a[|a| - 1])
    && gap != [] && AllSpace(gap) && (a[|a| - 1] in {'.', '!', '?', ';'} || AllNewline(gap))
    && (b != [] ==> !IsSpace(b[0]))
  }

  // ----- texts in one piece -----

  lemma {:induction false} OnePiece(s: string, breaks: Breaks, i: nat, start: nat)
    requires Fits(s, breaks) && start <= i <= |s|
    ensures |Pieces(s, breaks, i, start)| == 1 <==> forall k :: i <= k < |s| ==> breaks[k] == 0
    decreases |s| - i
  {
    if i < |s| && breaks[i] == 0 { OnePiece(s, breaks, i + 1, start); }
  }

  /** A text is split into sentences if and only if it has a line break, or white space behind a closing mark. */
  lemma SplitsIntoSentences(s: string)
    ensures |Split(Sentences, s)| > 1 <==> exists i :: 0 <= i < |s| && SentenceEndsAt(s, i)
  {
    OnePiece(s, BreaksOf(Sentences, s), 0, 0);
    forall i | 0 <= i < |s| ensures BreakLen(Sentences, s, i) > 0 <==> SentenceEndsAt(s, i) {}
  }

  predicate SentenceEndsAt(s: string, i: nat)
    requires i < |s|
  {
    s[i] == '\r' || s[i] == '\n' || (i > 0 && s[i - 1] in {'.', '!', '?', ';'} && IsSpace(s[i]))
  }

  /** And into clauses if and only if it has a separator in it. */
  lemma SplitsIntoClauses(s: string)
    ensures |Split(Clauses, s)| > 1 <==> exists i :: 0 <= i < |s| && SeparatorAt(s, i)
  {
    OnePiece(s, BreaksOf(Clauses, s), 0, 0);
    forall i | 0 <= i < |s| ensures BreakLen(Clauses, s, i) > 0 <==> SeparatorAt(s, i) {
      ClauseEndsAt(s, i);
    }
  }

  ghost predicate SeparatorAt(s: string, i: nat)
    requires i < |s|
  {
    exists n :: i <= n <= |s| && IsSeparator(s[i..n])
  }

  lemma ClauseEndsAt(s: string, i: nat)
    requires i < |s|
    ensures BreakLen(Clauses, s, i) > 0 <==> SeparatorAt(s, i)
  {
    if BreakLen(Clauses, s, i) > 0 {
      var n := i + BreakLen(Clauses, s, i);
      assert IsSeparator(s[i..n]);
    }
    forall n | i <= n <= |s| && IsSeparator(s[i..n]) ensures BreakLen(Clauses, s, i) > 0 {
      SeparatorEnds(s, i, n);
    }
  }

  lemma SeparatorEnds(s: string, i: nat, n: nat)
    requires i <= n <= |s| && IsSeparator(s[i..n])
    ensures i < |s| && BreakLen(Clauses, s, i) > 0
  {
    var sep := s[i..n];
    assert forall k :: 0 <= k < |sep| ==> sep[k] == s[i + k];
    if IsDash(sep) {
      assert s[n - 1] == sep[|sep| - 1];
      DashRunIs(s, i + 1, n - i - 2);
    }
  }

  // ----- texts of several sentences -----

  lemma {:induction false} RunsStop(a: string, rest: string, i: nat)
    requires i <= |a| && a != [] && !IsSpace(a[|a| - 1]) && i < |a|
    ensures SpaceRun(a + rest, i) == SpaceRun(a, i) && NewlineRun(a + rest, i) == NewlineRun(a, i)
    decreases |a| - i
  {
    assert (a + rest)[i] == a[i];
    if i + 1 < |a| { RunsStop(a, rest, i + 1); }
  }

  lemma SentenceBreakInFront(a: string, rest: string, k: nat)
    requires k < |a| && !IsSpace(a[|a| - 1])
    ensures BreakLen(Sentences, a + rest, k) == BreakLen(Sentences, a, k)
  {
    RunsStop(a, rest, k);
    assert (a + rest)[k] == a[k];
    if k > 0 { assert (a + rest)[k - 1] == a[k - 1]; }
  }

  lemma {:induction false} RunsAre(gap: string, b: string, i: nat)
    requires i <= |gap| && AllSpace(gap) && (b != [] ==> !IsSpace(b[0]))
    ensures SpaceRun(gap + b, i) == |gap| - i
    ensures AllNewline(gap) ==> NewlineRun(gap + b, i) == |gap| - i
    decreases |gap| - i
  {
    var s := gap + b;
    if i < |gap| {
      assert s[i] == gap[i];
      RunsAre(gap, b, i + 1);
    } else if b != [] {
      assert s[i] == b[0];
    }
  }

  /** `t` is `a`, the gap, and then `b`. */
  predicate Composed(t: string, a: string, gap: string, b: string) {
    |t| == |a| + |gap| + |b| && t[..|a|] == a && t[|a|..|a| + |gap|] == gap && t[|a| + |gap|..] == b
  }

  lemma GapIsBreak(t: string, a: string, gap: string, b: string)
    requires SentenceGap(a, gap, b) && Composed(t, a, gap, b)
    ensures BreakLen(Sentences, t, |a|) == |gap|
  {
    assert t == a + (gap + b);
    RunsShift(a, gap + b, 0);
    RunsAre(gap, b, 0);
    assert t[|a| - 1] == a[|a| - 1] && t[|a|] == gap[0];
  }

  /** A gap splits a text into the sentences of its two sides. */
  lemma SplitAtGap(a: string, gap: string, b: string)
    requires SentenceGap(a, gap, b)
    ensures Split(Sentences, a + gap + b) == Split(Sentences, a) + Split(Sentences, b)
  {
    SplitText(a + gap + b, a, gap, b);
  }

  lemma SplitText(t: string, a: string, gap: string, b: string)
    requires SentenceGap(a, gap, b) && Composed(t, a, gap, b)
    ensures Split(Sentences, t) == Split(Sentences, a) + Split(Sentences, b)
  {
    GapScan(t, a, gap, b);
    GapTail(t, a, gap, b);
    SplitsApart(t, a, |gap|, b);
  }

  lemma SplitsApart(t: string, a: string, n: nat, b: string)
    requires ScansApart(t, BreaksOf(Sentences, t), a, BreaksOf(Sentences, a), n)
    requires IsTail(t, BreaksOf(Sentences, t), |a| + n, b, BreaksOf(Sentences, b))
    ensures Split(Sentences, t) == Split(Sentences, a) + Split(Sentences, b)
  {
    PiecesApart(t, BreaksOf(Sentences, t), a, BreaksOf(Sentences, a), n, b, BreaksOf(Sentences, b));
  }

  lemma GapScan(t: string, a: string, gap: string, b: string)
    requires SentenceGap(a, gap, b) && Composed(t, a, gap, b)
    ensures ScansApart(t, BreaksOf(Sentences, t), a, BreaksOf(Sentences, a), |gap|)
  {
    GapIsBreak(t, a, gap, b);
    assert t == a + t[|a|..];
    forall k | 0 <= k < |a| ensures BreakLen(Sentences, t, k) == BreakLen(Sentences, a, k) {
      SentenceBreakInFront(a, t[|a|..], k);
    }
    AgreeIfSame(BreaksOf(Sentences, t), a, BreaksOf(Sentences, a), 0);
  }

  lemma GapTail(t: string, a: string, gap: string, b: string)
    requires SentenceGap(a, gap, b) && Composed(t, a, gap, b)
    ensures IsTail(t, BreaksOf(Sentences, t), |a| + |gap|, b, BreaksOf(Sentences, b))
  {
    assert t[|a|..|a| + |gap|][|gap| - 1] == t[|a| + |gap| - 1];
    TailAfter(t, |a| + |gap|, b);
  }

  lemma TailAfter(t: string, p: nat, b: string)
    requires 0 < p <= |t| && t[p..] == b && !EndsSentence(t[p - 1])
    ensures IsTail(t, BreaksOf(Sentences, t), p, b, BreaksOf(Sentences, b))
  {
    forall k | p <= k < |t| ensures BreakLen(Sentences, t, k) == BreakLen(Sentences, b, k - p) {
      SentenceBreakInTail(t, p, k);
    }
  }

  lemma SentenceBreakInTail(t: string, p: nat, k: nat)
    requires 0 < p <= k < |t| && !EndsSentence(t[p - 1])
    ensures BreakLen(Sentences, t, k) == BreakLen(Sentences, t[p..], k - p)
  {
    assert t == t[..p] + t[p..];
    BreakShift(Sentences, t[..p], t[p..], k - p);
  }

  lemma AnyOfAppend(x: seq<string>, y: seq<string>, test: string -> bool)
    ensures AnyOf(x + y, test) <==> AnyOf(x, test) || AnyOf(y, test)
  {
    var all := x + y;
    if AnyOf(x, test) {
      var k :| 0 <= k < |x| && test(x[k]);
      assert test(all[k]);
    }
    if AnyOf(y, test) {
      var k :| 0 <= k < |y| && test(y[k]);
      assert test(all[|x| + k]);
    }
  }

  /** A visible ASCII character keeps its place under normalisation. */
  predicate VisibleAscii(c: char) { IsAscii(c) && !IsSpace(c) }

  lemma NormalisedEnd(pt: Patterns, a: string)
    requires Faithful(pt) && a != [] && VisibleAscii(a[|a| - 1])
    ensures var n := Normalise(pt, a); n != [] && n[|n| - 1] == Lower(a[|a| - 1])
  {
    var front, c := a[..|a| - 1], a[|a| - 1];
    assert a == front + [c];
    NormaliseAppend(pt, front, [c]);
    NormaliseOwnChar(pt, c);
  }

  lemma NormalisedStart(pt: Patterns, b: string)
    requires Faithful(pt) && (b != [] ==> VisibleAscii(b[0]))
    ensures var n := Normalise(pt, b); if b == [] then n == [] else n != [] && n[0] == Lower(b[0])
  {
    if b == [] {
      NormaliseOwn(pt, b);
    } else {
      assert b == [b[0]] + b[1..];
      NormaliseAppend(pt, [b[0]], b[1..]);
      NormaliseOwnChar(pt, b[0]);
    }
  }

  lemma NormalisedGap(pt: Patterns, gap: string)
    requires Faithful(pt) && AllSpace(gap) && forall i :: 0 <= i < |gap| ==> IsAscii(gap[i])
    ensures Normalise(pt, gap) == gap
  {
    NormaliseOwn(pt, gap);
  }

  lemma NormalisedSides(pt: Patterns, a: string, gap: string, b: string)
    requires Faithful(pt) && SentenceGap(a, gap, b) && VisibleAscii(a[|a| - 1]) && (b != [] ==> VisibleAscii(b[0]))
    requires forall i :: 0 <= i < |gap| ==> IsAscii(gap[i])
    ensures Normalise(pt, a + gap + b) == Normalise(pt, a) + gap + Normalise(pt, b)
    ensures SentenceGap(Normalise(pt, a), gap, Normalise(pt, b))
  {
    NormaliseAppend(pt, a + gap, b);
    NormaliseAppend(pt, a, gap);
    NormalisedGap(pt, gap);
    NormalisedEnd(pt, a);
    NormalisedStart(pt, b);
  }

  /** A text claims a mutation if and only if one of the two sides of a gap does: nothing a sentence says excuses
      another. */
  lemma ClaimsSentenceBySentence(pt: Patterns, intent: Intent, a: string, gap: string, b: string)
    requires Faithful(pt) && SentenceGap(a, gap, b) && VisibleAscii(a[|a| - 1]) && (b != [] ==> VisibleAscii(b[0]))
    requires forall i :: 0 <= i < |gap| ==> IsAscii(gap[i])
    ensures ClaimsMutation(pt, intent, a + gap + b) <==> ClaimsMutation(pt, intent, a) || ClaimsMutation(pt, intent, b)
  {
    var na, nb := Normalise(pt, a), Normalise(pt, b);
    NormalisedSides(pt, a, gap, b);
    SplitAtGap(na, gap, nb);
    AnyOfAppend(Split(Sentences, na), Split(Sentences, nb), ClaimTest(pt, intent));
  }
}
