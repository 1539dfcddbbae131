/** What the guard and the policy node together put into the spoken text. */
module ClaimSafety {
  import opened ClaimText
  import opened ClaimScope
  import opened ClaimWords
  import opened ClaimGuard
  import opened Policy

  // ----- normalisation, character by character -----

  lemma {:induction false} ReplaceAppend(a: string, b: string, c: char, r: string)
    ensures Replace(a + b, c, r) == Replace(a, c, r) + Replace(b, c, r)
  {
    if a == [] {
      assert a + b == b;
    } else {
      assert (a + b)[1..] == a[1..] + b;
      ReplaceAppend(a[1..], b, c, r);
    }
  }

  lemma {:induction false} ReplaceAllAppend(a: string, b: string, folds: seq<(char, string)>)
    ensures ReplaceAll(a + b, folds) == ReplaceAll(a, folds) + ReplaceAll(b, folds)
    decreases |folds|
  {
    if folds != [] {
      ReplaceAppend(a, b, folds[0].0, folds[0].1);
      ReplaceAllAppend(Replace(a, folds[0].0, folds[0].1), Replace(b, folds[0].0, folds[0].1), folds[1..]);
    }
  }

  lemma {:induction false} CasefoldAppend(fold: char -> string, a: string, b: string)
    ensures Casefold(fold, a + b) == Casefold(fold, a) + Casefold(fold, b)
  {
    if a == [] {
      assert a + b == b;
    } else {
      assert (a + b)[1..] == a[1..] + b;
      CasefoldAppend(fold, a[1..], b);
    }
  }

  lemma NormaliseAppend(pt: Patterns, a: string, b: string)
    ensures Normalise(pt, a + b) == Normalise(pt, a) + Normalise(pt, b)
  {
    ReplaceAllAppend(a, b, FOLDS);
    CasefoldAppend(pt.fold, ReplaceAll(a, FOLDS), ReplaceAll(b, FOLDS));
  }

  /** The characters of the program's own replies and prefixes. */
  predicate OwnChar(c: char) { IsAscii(c) || c == '\U{2019}' }

  function OwnFold(c: char): char { if c == '\U{2019}' then '\'' else Lower(c) }

  predicate OwnText(s: string) {
    forall i :: 0 <= i < |s| ==> OwnChar(s[i])
  }

  /** The four folds, on one character. */
  function FoldChar(c: char): string {
    if c == '\U{2019}' || c == '\U{2018}' then "'"
    else if c == '\U{2014}' || c == '\U{2013}' then " - "
    else [c]
  }

  lemma ReplaceOne(c: char, x: char, r: string)
    ensures Replace([c], x, r) == if c == x then r else [c]
  {
    assert [c][1..] == [];
  }

  lemma {:induction false} ReplaceAbsent(s: string, x: char, r: string)
    requires x !in s
    ensures Replace(s, x, r) == s
  {
    if s != [] { ReplaceAbsent(s[1..], x, r); }
  }

  lemma FoldsOnChar(c: char)
    ensures ReplaceAll([c], FOLDS) == FoldChar(c)
  {
    var f1, f2, f3: seq<(char, string)> :=
      [('\U{2018}', "'"), ('\U{2014}', " - "), ('\U{2013}', " - ")], [('\U{2014}', " - "), ('\U{2013}', " - ")],
        [('\U{2013}', " - ")];
    assert FOLDS[1..] == f1 && f1[1..] == f2 && f2[1..] == f3 && f3[1..] == [];
    ReplaceOne(c, '\U{2019}', "'");
    ReplaceOne(c, '\U{2018}', "'");
    ReplaceOne(c, '\U{2014}', " - ");
    ReplaceOne(c, '\U{2013}', " - ");
    ReplaceAbsent("'", '\U{2018}', "'");
    ReplaceAbsent("'", '\U{2014}', " - ");
    ReplaceAbsent("'", '\U{2013}', " - ");
    ReplaceAbsent(" - ", '\U{2013}', " - ");
    assert ReplaceAll([c], FOLDS) == ReplaceAll(Replace([c], '\U{2019}', "'"), f1);
  }

  lemma CasefoldOne(fold: char -> string, c: char)
    ensures Casefold(fold, [c]) == fold(c)
  {
    assert [c][1..] == [];
  }

  lemma NormaliseIsFolds(pt: Patterns, c: char)
    ensures Normalise(pt, [c]) == Casefold(pt.fold, FoldChar(c))
  {
    FoldsOnChar(c);
  }

  lemma NormaliseDash(pt: Patterns)
    requires Faithful(pt)
    ensures Casefold(pt.fold, " - ") == " - "
  {
    CasefoldAppend(pt.fold, " ", "- ");
    CasefoldAppend(pt.fold, "-", " ");
    CasefoldOne(pt.fold, ' ');
    CasefoldOne(pt.fold, '-');
    assert " - " == " " + "- " && "- " == "-" + " ";
  }

  lemma NormaliseOwnChar(pt: Patterns, c: char)
    requires Faithful(pt) && OwnChar(c)
    ensures Normalise(pt, [c]) == [OwnFold(c)]
  {
    NormaliseIsFolds(pt, c);
    CasefoldOne(pt.fold, c);
    CasefoldOne(pt.fold, '\'');
  }

  lemma NormaliseVisible(pt: Patterns, c: char)
    requires Faithful(pt) && !IsSpace(c)
    ensures LeadsWell(Normalise(pt, [c]))
  {
    NormaliseIsFolds(pt, c);
    NormaliseDash(pt);
    CasefoldOne(pt.fold, c);
    CasefoldOne(pt.fold, '\'');
  }

  /** A text begins with a visible character, after at most one blank. */
  predicate LeadsWell(s: string) {
    s != [] && (!IsSpace(s[0]) || (s[0] == ' ' && |s| > 1 && !IsSpace(s[1])))
  }

  lemma {:induction false} NormaliseOwn(pt: Patterns, s: string)
    requires Faithful(pt) && OwnText(s)
    ensures var n := Normalise(pt, s);
      |n| == |s| && forall i :: 0 <= i < |s| ==> n[i] == OwnFold(s[i])
  {
    if s == [] {
      assert Normalise(pt, []) == [];
    } else {
      assert s == [s[0]] + s[1..];
      NormaliseAppend(pt, [s[0]], s[1..]);
      NormaliseOwnChar(pt, s[0]);
      NormaliseOwn(pt, s[1..]);
    }
  }

  // ----- splitting the prefix off -----

  lemma SpaceRunOfLead(d: string)
    requires LeadsWell(d)
    ensures SpaceRun(d, 0) == if IsSpace(d[0]) then 1 else 0
  {
    if IsSpace(d[0]) { assert SpaceRun(d, 1) == 0; }
  }

  lemma BreakBehindBlank(d: string, lead: nat, k: nat)
    requires lead <= 1 && lead <= k < |d| && (lead == 1 ==> d[0] == ' ')
    ensures BreakLen(Sentences, d, k) == BreakLen(Sentences, d[lead..], k - lead)
  {
    var a, b := d[..lead], d[lead..];
    assert a + b == d && |a| == lead;
    assert a == [] || a[|a| - 1] == ' ';
    BreakShift(Sentences, a, b, k - lead);
  }

  /** Splitting a text whose only leading whitespace is a blank: that blank stays on the first sentence. */
  lemma SplitBehindBlank(d: string, lead: nat)
    requires LeadsWell(d) && lead == if IsSpace(d[0]) then 1 else 0
    ensures var p := Split(Sentences, d[lead..]);
      Split(Sentences, d) == [d[..lead] + p[0]] + p[1..]
  {
    var bd, bb := BreaksOf(Sentences, d), BreaksOf(Sentences, d[lead..]);
    forall k | lead <= k < |d| ensures bd[k] == bb[k - lead] {
      BreakBehindBlank(d, lead, k);
    }
    SkipLead(d, bd, lead, d[lead..], bb);
  }

  lemma SkipLead(d: string, bd: Breaks, lead: nat, b: string, bb: Breaks)
    requires lead <= 1 && lead <= |d| && b == d[lead..] && Fits(d, bd) && Fits(b, bb)
    requires lead == 1 ==> bd[0] == 0
    requires forall k :: lead <= k < |d| ==> bd[k] == bb[k - lead]
    ensures var p := Pieces(b, bb, 0, 0);
      Pieces(d, bd, 0, 0) == [d[..lead] + p[0]] + p[1..]
  {
    PiecesSkip(d, bd, 0, lead, 0);
    PiecesFromEarlier(d, bd, lead, 0, lead);
    SamePieces(d, bd, lead, b, bb, 0, 0);
    assert d[0..lead] == d[..lead];
  }

  /** One sentence, closed by its only full stop. */
  predicate OneSentence(s: string) {
    && s != [] && s[|s| - 1] == '.'
    && (forall i :: 0 <= i < |s| - 1 ==> !EndsSentence(s[i]))
    && (forall i :: 0 <= i < |s| ==> !IsNewline(s[i]))
  }

  lemma NoBreakInside(p: string, r: string, i: nat)
    requires OneSentence(p) && i < |p|
    ensures BreakLen(Sentences, p + r, i) == 0
  {
    var t := p + r;
    assert t[i] == p[i];
    if i > 0 { assert t[i - 1] == p[i - 1]; }
  }

  lemma BreakAfterPrefix(p: string, d: string, lead: nat)
    requires OneSentence(p) && LeadsWell(d) && lead == SpaceRun(d, 0)
    ensures BreakLen(Sentences, p + " " + d, |p|) == 1 + lead
  {
    var t := p + " " + d;
    assert t == p + (" " + d);
    RunsShift(p, " " + d, 0);
    RunsShift(" ", d, 0);
    assert t[|p|] == ' ' && t[|p| - 1] == p[|p| - 1];
    assert SpaceRun(" " + d, 0) == 1 + SpaceRun(" " + d, 1);
  }

  /** The separator behind `o` of a text whose character before `o` is a blank. */
  lemma BreakInDraft(t: string, o: nat, k: nat)
    requires 0 < o <= k < |t| && t[o - 1] == ' '
    ensures BreakLen(Sentences, t, k) == BreakLen(Sentences, t[o..], k - o)
  {
    assert t == t[..o] + t[o..];
    BreakShift(Sentences, t[..o], t[o..], k - o);
  }

  /** Splitting prefix, blank and draft gives the prefix and then the sentences of the draft. */
  lemma SplitOffPrefix(p: string, d: string, lead: nat)
    requires OneSentence(p) && LeadsWell(d) && lead == if IsSpace(d[0]) then 1 else 0
    ensures Split(Sentences, p + " " + d) == [p] + Split(Sentences, d[lead..])
  {
    var t := p + " " + d;
    var o := |p| + 1 + lead;
    var b := d[lead..];
    var bt, bb := BreaksOf(Sentences, t), BreaksOf(Sentences, b);
    assert t[..|p|] == p && t[o..] == b && t[o - 1] == ' ';
    forall k | 0 <= k < |p| ensures bt[k] == 0 {
      BreakInPrefix(p, d, k);
    }
    assert bt[|p|] == 1 + lead by {
      SpaceRunOfLead(d);
      BreakAfterPrefix(p, d, lead);
    }
    forall k | o <= k < |t| ensures bt[k] == bb[k - o] {
      BreakInDraft(t, o, k);
    }
    PiecesOffPrefix(t, bt, |p|, o, b, bb);
  }

  lemma BreakInPrefix(p: string, d: string, i: nat)
    requires OneSentence(p) && i < |p|
    ensures BreakLen(Sentences, p + " " + d, i) == 0
  {
    assert p + " " + d == p + (" " + d);
    NoBreakInside(p, " " + d, i);
  }

  lemma PiecesOffPrefix(t: string, bt: Breaks, n: nat, o: nat, b: string, bb: Breaks)
    requires n < o <= |t| && b == t[o..] && Fits(t, bt) && Fits(b, bb)
    requires forall k :: 0 <= k < n ==> bt[k] == 0
    requires bt[n] == o - n
    requires forall k :: o <= k < |t| ==> bt[k] == bb[k - o]
    ensures Pieces(t, bt, 0, 0) == [t[..n]] + Pieces(b, bb, 0, 0)
  {
    PiecesSkip(t, bt, 0, n, 0);
    SamePieces(t, bt, o, b, bb, 0, 0);
    assert t[0..n] == t[..n];
  }

  // ----- the program's own sentences -----

  /** The characters inside the program's own sentences. */
  predicate CalmChar(c: char) {
    'a' <= c <= 'z' || c == ' ' || c == ',' || c == '-' || c == '\U{2019}' || c == 'I' || c == 'L' || c == 'T'
  }

  /** A run of the program's own words: nothing ends a sentence, and "ed" never occurs. */
  predicate Calm(s: string) {
    && (forall i :: 0 <= i < |s| ==> CalmChar(s[i]))
    && (forall i :: 0 < i < |s| && s[i] == 'd' ==> s[i - 1] != 'e')
  }

  lemma CalmAppend(a: string, b: string)
    requires Calm(a) && Calm(b) && b != [] && b[0] == ' '
    ensures Calm(a + b)
  {
    var s := a + b;
    assert forall i :: 0 <= i < |s| ==> s[i] == if i < |a| then a[i] else b[i - |a|];
  }

  lemma ObjectIsCalm(intent: Intent)
    ensures Calm(SafeObject(intent)) && SafeObject(intent)[0] == ' '
  {
  }

  lemma TaskOffersAreCalm()
    ensures Calm(SafeOffer(AddTask)) && Calm(SafeOffer(RescheduleTask))
  {
  }

  lemma ReminderOffersAreCalm()
    ensures Calm(SafeOffer(SnoozeReminder)) && Calm(SafeOffer(DismissReminder))
  {
  }

  lemma OfferIsCalm(intent: Intent)
    ensures Calm(SafeOffer(intent)) && SafeOffer(intent)[0] == ' '
  {
    TaskOffersAreCalm();
    ReminderOffersAreCalm();
  }

  lemma ButICanIsCalm()
    ensures Calm(BUT_I_CAN) && BUT_I_CAN[0] == ' '
  {
  }

  lemma IfYouLikeIsCalm()
    ensures Calm(IF_YOU_LIKE) && IF_YOU_LIKE[0] == ' '
  {
  }

  lemma RestIsCalm(intent: Intent)
    ensures Calm(SafeRest(intent)) && SafeRest(intent)[0] == ' '
  {
    ObjectIsCalm(intent);
    ButICanIsCalm();
    OfferIsCalm(intent);
    IfYouLikeIsCalm();
    CalmChain(SafeObject(intent), BUT_I_CAN, SafeOffer(intent), IF_YOU_LIKE);
  }

  lemma CalmChain(a: string, b: string, c: string, d: string)
    requires Calm(a) && Calm(b) && Calm(c) && Calm(d)
    requires a != [] && b != [] && b[0] == ' ' && c != [] && c[0] == ' ' && d != [] && d[0] == ' '
    ensures Calm(a + b + c + d) && (a + b + c + d)[0] == a[0]
  {
    CalmAppend(a, b);
    CalmAppend(a + b, c);
    CalmAppend(a + b + c, d);
  }

  lemma MoreTimeIsCalm()
    ensures Calm(PrefixWords(R2)) && PrefixWords(R2)[0] != ' '
  {
  }

  lemma SensitiveIsCalm()
    ensures Calm(PrefixWords(R3)) && PrefixWords(R3)[0] != ' '
  {
  }

  lemma GentleIsCalm()
    ensures Calm(PrefixWords(R4)) && PrefixWords(R4)[0] != ' '
  {
  }

  lemma FocusIsCalm()
    ensures Calm(PrefixWords(R5)) && PrefixWords(R5)[0] != ' '
  {
  }

  lemma PrefixIsCalm(rule: PolicyRule)
    requires PrefixWords(rule) != ""
    ensures Calm(PrefixWords(rule)) && PrefixWords(rule)[0] != ' '
  {
    match rule
    case R2 => MoreTimeIsCalm();
    case R3 => SensitiveIsCalm();
    case R4 => GentleIsCalm();
    case R5 => FocusIsCalm();
    case _ =>
  }

  /** What normalisation makes of calm text. */
  predicate CalmLower(s: string) {
    (forall i :: 0 <= i < |s| ==> !EndsSentence(s[i]) && !IsNewline(s[i])) && NoEd(s)
  }

  predicate NoEd(s: string) {
    forall i :: 0 < i < |s| && s[i] == 'd' ==> s[i - 1] != 'e'
  }

  lemma NormaliseCalm(pt: Patterns, s: string)
    requires Faithful(pt) && Calm(s)
    ensures CalmLower(Normalise(pt, s)) && |Normalise(pt, s)| == |s|
    ensures s != [] ==> Normalise(pt, s)[0] == OwnFold(s[0])
  {
    NormaliseOwn(pt, s);
  }

  // ----- verbs -----

  /** A lower-case word that ends in "ed". */
  predicate VerbForm(v: string) {
    && |v| >= 2 && v[|v| - 2] == 'e' && v[|v| - 1] == 'd'
    && (forall i :: 0 <= i < |v| ==> IsLower(v[i]))
  }

  lemma TaskVerbs()
    ensures forall v :: v in VerbsOf(AddTask) ==> VerbForm(v)
    ensures forall v :: v in VerbsOf(RescheduleTask) ==> VerbForm(v)
  {
  }

  lemma ReminderVerbs()
    ensures forall v :: v in VerbsOf(SnoozeReminder) ==> VerbForm(v)
    ensures forall v :: v in VerbsOf(DismissReminder) ==> VerbForm(v)
  {
  }

  lemma VerbsAreForms(intent: Intent)
    ensures forall v :: v in VerbsOf(intent) ==> VerbForm(v)
  {
    TaskVerbs();
    ReminderVerbs();
  }

  lemma TextIsThere(s: string, i: nat, v: string)
    requires TextAt(s, i, v)
    ensures i + |v| <= |s| && forall k :: i <= k < i + |v| ==> s[k] == v[k - i]
  {
    assert forall k :: i <= k < i + |v| ==> s[k] == s[i..i + |v|][k - i];
  }

  lemma FormEndsAt(word: char -> bool, s: string, i: nat, v: string)
    requires VerbForm(v) && LiteralAt(word, s, i, Literal(v, true))
    ensures i + 2 <= i + |v| <= |s| && s[i + |v| - 2] == 'e' && s[i + |v| - 1] == 'd'
    ensures forall k :: i <= k < i + |v| ==> IsLower(s[k])
    ensures Boundary(word, s, i) && Boundary(word, s, i + |v|)
  {
    TextIsThere(s, i, v);
  }

  lemma FormEnds(word: char -> bool, forms: seq<string>, s: string, i: nat) returns (e: nat)
    requires FormAt(word, forms, s, i) && forall v :: v in forms ==> VerbForm(v)
    ensures i + 2 <= e <= |s| && s[e - 2] == 'e' && s[e - 1] == 'd'
    ensures forall k :: i <= k < e ==> IsLower(s[k])
    ensures Boundary(word, s, i) && Boundary(word, s, e)
  {
    var v :| v in forms && LiteralAt(word, s, i, Literal(v, true));
    FormEndsAt(word, s, i, v);
    e := i + |v|;
  }

  lemma VerbEnds(pt: Patterns, intent: Intent, s: string, i: nat) returns (e: nat)
    requires VerbAt(pt, intent, s, i)
    ensures i + 2 <= e <= |s| && s[e - 2] == 'e' && s[e - 1] == 'd'
    ensures forall k :: i <= k < e ==> IsLower(s[k])
    ensures Boundary(pt.word, s, i) && Boundary(pt.word, s, e)
  {
    VerbsAreForms(intent);
    e := FormEnds(pt.word, VerbsOf(intent), s, i);
  }

  lemma NoVerbWithoutEd(pt: Patterns, intent: Intent, s: string)
    requires NoEd(s)
    ensures !HasVerb(pt, intent, s)
  {
    if HasVerb(pt, intent, s) {
      var i :| 0 <= i <= |s| && VerbAt(pt, intent, s, i);
      var e := VerbEnds(pt, intent, s, i);
      assert false;
    }
  }

  /** Between calm words, "ed" ends only in the word that stands there. */
  lemma EdOnlyThere(h: string, v: string, r: string, e: nat)
    requires NoEd(h) && NoEd(r) && r != [] && r[0] == ' '
    requires 2 <= e <= |h + v + r|
    requires (h + v + r)[e - 2] == 'e' && (h + v + r)[e - 1] == 'd'
    ensures |h| < e <= |h| + |v|
  {
    var s := h + v + r;
    var n := |h| + |v|;
    assert forall k :: 0 < k < |h| ==> !(s[k - 1] == 'e' && s[k] == 'd');
    assert forall k :: n <= k < |s| ==> s[k] == r[k - n];
    assert s[n] == ' ';
  }

  lemma MiddleIs(h: string, v: string, r: string)
    requires h != []
    ensures (h + v + r)[|h| - 1] == h[|h| - 1]
    ensures forall k :: |h| <= k < |h| + |v| ==> (h + v + r)[k] == v[k - |h|]
  {
  }

  /** Between calm words, a verb can only match where a word stands. */
  lemma VerbOnlyThere(pt: Patterns, intent: Intent, h: string, v: string, r: string, i: nat)
    requires Faithful(pt) && NoEd(h) && NoEd(r)
    requires h != [] && h[|h| - 1] == ' ' && r != [] && r[0] == ' '
    requires v != [] && forall k :: 0 <= k < |v| ==> IsLower(v[k])
    requires VerbAt(pt, intent, h + v + r, i)
    ensures i == |h|
  {
    var s := h + v + r;
    var e := VerbEnds(pt, intent, s, i);
    EdOnlyThere(h, v, r, e);
    MiddleIs(h, v, r);
    WordsWithin(pt, s, |h|, |h| + |v|, i, e);
  }

  lemma WordsWithin(pt: Patterns, s: string, a: nat, b: nat, i: nat, e: nat)
    requires Faithful(pt) && 0 < a < b < |s| && s[a - 1] == ' '
    requires forall k :: a <= k < b ==> IsLower(s[k])
    requires i < e && a < e <= b && Boundary(pt.word, s, i) && Boundary(pt.word, s, e)
    requires forall k :: i <= k < e ==> IsLower(s[k])
    ensures i == a
  {
    assert forall k :: a <= k < b ==> IsAscii(s[k]) && pt.word(s[k]);
  }

  // ----- one sentence, whole -----

  lemma SplitOneSentence(s: string)
    requires OneSentence(s)
    ensures Split(Sentences, s) == [s]
  {
    var breaks := BreaksOf(Sentences, s);
    forall k | 0 <= k < |s| ensures breaks[k] == 0 {
      assert s + [] == s;
      NoBreakInside(s, [], k);
    }
    WholePiece(s, breaks);
  }

  lemma WholePiece(s: string, breaks: Breaks)
    requires Fits(s, breaks) && forall k :: 0 <= k < |s| ==> breaks[k] == 0
    ensures Pieces(s, breaks, 0, 0) == [s]
  {
    PiecesSkip(s, breaks, 0, |s|, 0);
    assert s[0..] == s;
  }

  lemma SplitOneClause(s: string)
    requires forall k :: 0 <= k < |s| ==> !IsClausePunctuation(s[k]) && s[k] != '-'
    ensures Split(Clauses, s) == [s]
  {
    var breaks := BreaksOf(Clauses, s);
    forall k | 0 <= k < |s| ensures breaks[k] == 0 {
      assert breaks[k] == BreakLen(Clauses, s, k);
      assert DashRun(s, k + 1) == 0;
    }
    WholePiece(s, breaks);
  }

  lemma NotIsThere(pt: Patterns, h: string)
    requires Faithful(pt) && (h == "i have not" || h == "i have not ")
    ensures LiteralAt(pt.word, h, 7, Literal("not", true)) && Blocks(pt.Lex(), h)
  {
    assert h[7..10] == "not";
    assert h[6] == ' ' && h[7] == 'n' && h[9] == 't';
    NotIsABlocker(pt.word);
    assert BlockedAt(pt.Lex(), h, 7);
  }

  /** Behind "i have not " no claim is left standing. */
  lemma DenialBlocks(pt: Patterns, h: string)
    requires Faithful(pt) && h == "i have not "
    ensures !LeavesClaimStanding(pt.Lex(), h)
  {
    SplitOneClause(h);
    EnglishIsSound(pt.word);
    NotIsThere(pt, h);
    WindowBlocks(pt.Lex(), [h]);
    assert InScope(pt.Lex(), [h], 0) && Blocks(pt.Lex(), [h][0]);
  }

  // ----- the safe replies -----

  lemma NormaliseParts(pt: Patterns, a: string, b: string, c: string)
    requires Faithful(pt)
    ensures Normalise(pt, a + b + c + ".") == Normalise(pt, a) + Normalise(pt, b) + Normalise(pt, c) + "."
  {
    NormaliseAppend(pt, a + b + c, ".");
    NormaliseAppend(pt, a + b, c);
    NormaliseAppend(pt, a, b);
    NormaliseOwnChar(pt, '.');
  }

  /** A safe reply after normalisation: the denial, a verb, a calm remainder, a full stop. */
  lemma NormalisedReply(pt: Patterns, intent: Intent) returns (h: string, v: string, r: string)
    requires Faithful(pt) && intent != OtherIntent
    ensures Normalise(pt, SafeReply(intent)) == h + v + r + "."
    ensures h == "i have not " && CalmLower(r) && r != [] && r[0] == ' '
    ensures v != [] && forall k :: 0 <= k < |v| ==> IsLower(v[k])
  {
    var verb, rest := SafeVerb(intent), SafeRest(intent);
    NormaliseParts(pt, DENIAL, verb, rest);
    h, v, r := Normalise(pt, DENIAL), Normalise(pt, verb), Normalise(pt, rest);
    RestIsCalm(intent);
    NormaliseCalm(pt, rest);
    NormaliseDenial(pt);
    NormaliseVerb(pt, intent);
  }

  lemma NormaliseDenial(pt: Patterns)
    requires Faithful(pt)
    ensures Normalise(pt, DENIAL) == "i have not "
  {
    NormaliseOwn(pt, DENIAL);
    FoldedDenial(Normalise(pt, DENIAL));
  }

  lemma FoldedDenial(n: string)
    requires |n| == |DENIAL| && forall i :: 0 <= i < |n| ==> n[i] == OwnFold(DENIAL[i])
    ensures n == "i have not "
  {
    var lower := "i have not ";
    assert OwnFold('I') == 'i';
    assert forall i :: 1 <= i < |n| ==> DENIAL[i] == lower[i] && OwnFold(DENIAL[i]) == DENIAL[i];
    assert n[0] == lower[0];
  }

  lemma NormaliseVerb(pt: Patterns, intent: Intent)
    requires Faithful(pt)
    ensures var v := Normalise(pt, SafeVerb(intent));
      v != [] && forall k :: 0 <= k < |v| ==> IsLower(v[k])
  {
    var verb := SafeVerb(intent);
    assert forall k :: 0 <= k < |verb| ==> IsLower(verb[k]);
    NormaliseOwn(pt, verb);
  }

  lemma ReplyIsOneSentence(h: string, v: string, r: string)
    requires h == "i have not " && CalmLower(r)
    requires forall k :: 0 <= k < |v| ==> IsLower(v[k])
    ensures OneSentence(h + v + r + ".")
    ensures CalmLower(h) && Strip(h + v + r + ".") == h + v + r + "."
  {
    var s := h + v + r + ".";
    assert CalmLower(h);
    assert forall k :: 0 <= k < |s| - 1 ==>
      s[k] == if k < |h| then h[k] else if k < |h| + |v| then v[k - |h|] else r[k - |h| - |v|];
  }

  /** No verb is left standing in a safe reply. */
  lemma ReplyStandsNowhere(pt: Patterns, intent: Intent, h: string, v: string, r: string)
    requires Faithful(pt) && h == "i have not " && CalmLower(r) && r != [] && r[0] == ' '
    requires v != [] && forall k :: 0 <= k < |v| ==> IsLower(v[k])
    ensures !HasStandingVerb(pt, intent, h + v + r + ".")
  {
    var s := h + v + (r + ".");
    assert s == h + v + r + ".";
    assert CalmLower(h);
    forall i | 0 <= i <= |s| ensures !StandingVerbAt(pt, intent, s, i) {
      if StandingVerbAt(pt, intent, s, i) {
        BehindDenial(pt, intent, h, v, r, i);
      }
    }
  }

  lemma BehindDenial(pt: Patterns, intent: Intent, h: string, v: string, r: string, i: nat)
    requires Faithful(pt) && h == "i have not " && CalmLower(h) && CalmLower(r) && r != [] && r[0] == ' '
    requires v != [] && forall k :: 0 <= k < |v| ==> IsLower(v[k])
    requires i <= |h + v + (r + ".")| && VerbAt(pt, intent, h + v + (r + "."), i)
    ensures !LeavesClaimStanding(pt.Lex(), (h + v + (r + "."))[..i])
  {
    VerbBehindHead(pt, intent, h, v, r, i);
    assert (h + v + (r + "."))[..i] == h;
    DenialBlocks(pt, h);
  }

  /** `VerbOnlyThere`, with the full stop at the end. */
  lemma VerbBehindHead(pt: Patterns, intent: Intent, h: string, v: string, r: string, i: nat)
    requires Faithful(pt) && CalmLower(h) && CalmLower(r) && r != [] && r[0] == ' '
    requires h != [] && h[|h| - 1] == ' ' && v != [] && forall k :: 0 <= k < |v| ==> IsLower(v[k])
    requires VerbAt(pt, intent, h + v + (r + "."), i)
    ensures i == |h|
  {
    VerbOnlyThere(pt, intent, h, v, r + ".", i);
  }

  /** A safe reply is never a claim: guarding it again changes nothing. */
  lemma ReplyMakesNoClaim(pt: Patterns, intent: Intent)
    requires Faithful(pt) && intent != OtherIntent
    ensures !ClaimsMutation(pt, intent, SafeReply(intent))
  {
    var h, v, r := NormalisedReply(pt, intent);
    var s := h + v + r + ".";
    ReplyIsOneSentence(h, v, r);
    SplitOneSentence(s);
    ReplyStandsNowhere(pt, intent, h, v, r);
    assert !ClaimTest(pt, intent)(s);
  }

  /** How each reply reads. */
  lemma RepliesRead()
    ensures SafeReply(AddTask) ==
      "I have not " + "added" + (" that" + " yet, but I can" + " add it to your list" + " if you would like") + "."
    ensures SafeReply(RescheduleTask) ==
      "I have not " + "moved"
      + (" anything" + " yet, but I can" + " request that new time" + " if you would like") + "."
    ensures SafeReply(SnoozeReminder) ==
      "I have not " + "snoozed" + (" that reminder" + " yet, but I can" + " snooze it" + " if you would like") + "."
    ensures SafeReply(DismissReminder) ==
      "I have not " + "dismissed" + (" that reminder" + " yet, but I can" + " dismiss it" + " if you would like") + "."
  {
  }

  // ----- the guard -----

  /** However often a draft claims a mutation, what the guard returns never does. */
  lemma GuardLeavesNoClaim(pt: Patterns, intent: Intent, text: string)
    requires Faithful(pt)
    ensures !ClaimsMutation(pt, intent, Guarded(pt, intent, text))
  {
    if intent != OtherIntent {
      ReplyMakesNoClaim(pt, intent);
    } else {
      forall piece ensures !ClaimTest(pt, intent)(piece) {
        NothingToClaim(pt, Strip(piece));
      }
    }
  }

  lemma NothingToClaim(pt: Patterns, sentence: string)
    ensures !ClaimsCompletedMutation(pt, OtherIntent, sentence)
  {
  }

  /** The guard is idempotent, and it returns a draft unchanged exactly when the draft makes no claim. */
  lemma GuardIsIdempotent(pt: Patterns, intent: Intent, text: string)
    requires Faithful(pt)
    ensures Guarded(pt, intent, Guarded(pt, intent, text)) == Guarded(pt, intent, text)
    ensures Guarded(pt, intent, text) == text <==> !ClaimsMutation(pt, intent, text)
  {
    GuardLeavesNoClaim(pt, intent, text);
  }

  // ----- the prefixes -----

  lemma {:induction false} StripRightIsPrefix(s: string)
    ensures |StripRight(s)| <= |s| && StripRight(s) == s[..|StripRight(s)|]
  {
    if s != [] && IsSpace(s[|s| - 1]) { StripRightIsPrefix(s[..|s| - 1]); }
  }

  lemma {:induction false} StripLeftIsSuffix(s: string)
    ensures |StripLeft(s)| <= |s| && StripLeft(s) == s[|s| - |StripLeft(s)|..]
  {
    if s != [] && IsSpace(s[0]) { StripLeftIsSuffix(s[1..]); }
  }

  lemma StripNoEd(s: string)
    requires NoEd(s)
    ensures NoEd(Strip(s))
  {
    var t := StripLeft(s);
    StripLeftIsSuffix(s);
    NoEdSlice(s, |s| - |t|, |s|);
    StripRightIsPrefix(t);
    NoEdSlice(t, 0, |StripRight(t)|);
  }

  lemma NoEdSlice(s: string, a: nat, b: nat)
    requires NoEd(s) && a <= b <= |s|
    ensures NoEd(s[a..b])
  {
    assert forall i :: 0 <= i < b - a ==> s[a..b][i] == s[a + i];
  }

  lemma {:induction false} PiecesNoEd(s: string, breaks: Breaks, i: nat, start: nat)
    requires NoEd(s) && Fits(s, breaks) && start <= i <= |s|
    ensures forall p :: p in Pieces(s, breaks, i, start) ==> NoEd(p)
    decreases |s| - i
  {
    NoEdSlice(s, start, i);
    if i == |s| {
    } else if breaks[i] > 0 {
      PiecesNoEd(s, breaks, i + breaks[i], i + breaks[i]);
    } else {
      PiecesNoEd(s, breaks, i + 1, start);
    }
  }

  /** Without "ed" there is no verb form, and so no claim. */
  lemma NoEdNoClaim(pt: Patterns, intent: Intent, text: string)
    requires NoEd(Normalise(pt, text))
    ensures !ClaimsMutation(pt, intent, text)
  {
    var n := Normalise(pt, text);
    var pieces := Split(Sentences, n);
    PiecesNoEd(n, BreaksOf(Sentences, n), 0, 0);
    forall k | 0 <= k < |pieces| ensures !ClaimTest(pt, intent)(pieces[k]) {
      StripNoEd(pieces[k]);
      NoVerbWithoutEd(pt, intent, Strip(pieces[k]));
    }
  }

  /** The clarification reply goes out unguarded; it makes no claim either. */
  lemma ClarificationMakesNoClaim(pt: Patterns, intent: Intent)
    requires Faithful(pt)
    ensures !ClaimsMutation(pt, intent, CLARIFICATION)
  {
    ClarificationIsMild();
    NormaliseMild(pt, CLARIFICATION);
    NoEdNoClaim(pt, intent, CLARIFICATION);
  }

  predicate Mild(s: string) {
    (forall i :: 0 <= i < |s| ==> IsAscii(s[i]) && s[i] != 'D' && s[i] != 'E') && NoEd(s)
  }

  lemma NormaliseMild(pt: Patterns, s: string)
    requires Faithful(pt) && Mild(s)
    ensures NoEd(Normalise(pt, s))
  {
    NormaliseOwn(pt, s);
  }

  lemma MildAppend(a: string, b: string)
    requires Mild(a) && Mild(b) && b != [] && b[0] != 'd'
    ensures Mild(a + b)
  {
    var s := a + b;
    assert forall i :: 0 <= i < |s| ==> s[i] == if i < |a| then a[i] else b[i - |a|];
  }

  // The five pieces of the clarification.

  lemma Clarification1()
    ensures Mild("I'm not confident")
  {
  }

  lemma Clarification2()
    ensures Mild(" I understood that")
  {
  }

  lemma Clarification3()
    ensures Mild(". Could you")
  {
  }

  lemma Clarification4()
    ensures Mild(" please say it")
  {
  }

  lemma Clarification5()
    ensures Mild(" another way?")
  {
  }

  lemma ClarificationIsMild()
    ensures Mild(CLARIFICATION)
  {
    Clarification1();
    Clarification2();
    Clarification3();
    Clarification4();
    Clarification5();
    MildAppend(" please say it", " another way?");
    MildAppend(". Could you", " please say it" + " another way?");
    MildAppend(" I understood that", ". Could you" + (" please say it" + " another way?"));
    MildAppend("I'm not confident", " I understood that" + (". Could you" + (" please say it" + " another way?")));
  }

  /** A draft behind a prefix has the draft's claims, no more and no fewer. */
  lemma PrefixAddsNoClaim(pt: Patterns, intent: Intent, rule: PolicyRule, draft: string)
    requires Faithful(pt) && draft != [] && !IsSpace(draft[0])
    ensures ClaimsMutation(pt, intent, FinalResponse(rule, draft)) <==> ClaimsMutation(pt, intent, draft)
  {
    if PrefixWords(rule) != "" {
      var p, d := Normalise(pt, PrefixWords(rule) + "."), Normalise(pt, draft);
      NormalisedPrefix(pt, rule);
      NormalisedDraft(pt, draft);
      NormalisedFinal(pt, rule, draft);
      ClaimsBehind(pt, intent, p, d);
    }
  }

  lemma NormalisedPrefix(pt: Patterns, rule: PolicyRule)
    requires Faithful(pt) && PrefixWords(rule) != ""
    ensures var p := Normalise(pt, PrefixWords(rule) + ".");
      OneSentence(p) && NoEd(p)
  {
    var words := PrefixWords(rule);
    PrefixIsCalm(rule);
    NormaliseCalm(pt, words);
    NormaliseAppend(pt, words, ".");
    NormaliseOwnChar(pt, '.');
    ClosedCalm(Normalise(pt, words));
  }

  lemma ClosedCalm(s: string)
    requires CalmLower(s)
    ensures OneSentence(s + ".") && NoEd(s + ".")
  {
  }

  lemma NormalisedDraft(pt: Patterns, draft: string)
    requires Faithful(pt) && draft != [] && !IsSpace(draft[0])
    ensures LeadsWell(Normalise(pt, draft))
  {
    assert draft == [draft[0]] + draft[1..];
    NormaliseAppend(pt, [draft[0]], draft[1..]);
    NormaliseVisible(pt, draft[0]);
  }

  lemma NormalisedFinal(pt: Patterns, rule: PolicyRule, draft: string)
    requires Faithful(pt) && PrefixWords(rule) != ""
    ensures Normalise(pt, FinalResponse(rule, draft)) == Normalise(pt, PrefixWords(rule) + ".") + " "
      + Normalise(pt, draft)
  {
    var p := PrefixWords(rule) + ".";
    NormaliseAppend(pt, p + " ", draft);
    NormaliseAppend(pt, p, " ");
    NormaliseOwnChar(pt, ' ');
  }

  /** Claims in front of which a sentence without verbs has been put. */
  lemma ClaimsBehind(pt: Patterns, intent: Intent, p: string, d: string)
    requires OneSentence(p) && NoEd(p) && LeadsWell(d)
    ensures AnyOf(Split(Sentences, p + " " + d), ClaimTest(pt, intent))
      <==> AnyOf(Split(Sentences, d), ClaimTest(pt, intent))
  {
    var lead := if IsSpace(d[0]) then 1 else 0;
    var rest := Split(Sentences, d[lead..]);
    SplitOffPrefix(p, d, lead);
    SplitBehindBlank(d, lead);
    StripNoEd(p);
    NoVerbWithoutEd(pt, intent, Strip(p));
    StripLeftSkips(d[..lead], rest[0]);
    SameClaims(ClaimTest(pt, intent), p, rest, d[..lead] + rest[0]);
  }

  lemma AnyOfCons(x: string, rest: seq<string>, test: string -> bool)
    ensures AnyOf([x] + rest, test) <==> test(x) || AnyOf(rest, test)
  {
    var all := [x] + rest;
    assert all[0] == x && forall k :: 0 <= k < |rest| ==> all[k + 1] == rest[k];
    if k :| 0 <= k < |all| && test(all[k]) { assert k > 0 ==> test(rest[k - 1]); }
  }

  lemma SameClaims(test: string -> bool, p: string, rest: seq<string>, first: string)
    requires rest != [] && !test(p) && test(first) == test(rest[0])
    ensures AnyOf([p] + rest, test) <==> AnyOf([first] + rest[1..], test)
  {
    AnyOfCons(p, rest, test);
    AnyOfCons(first, rest[1..], test);
    AnyOfCons(rest[0], rest[1..], test);
    assert [rest[0]] + rest[1..] == rest;
  }

  // ----- what is spoken -----

  lemma StripKeeps(s: string)
    requires Stripped(s)
    ensures Strip(s) == s
  {
  }

  lemma GuardKeepsStripped(pt: Patterns, intent: Intent, text: string)
    requires Stripped(text) && text != ""
    ensures Stripped(Guarded(pt, intent, text)) && Guarded(pt, intent, text) != ""
  {
    ReplyIsStripped(intent);
  }

  lemma ClarificationIsStripped()
    ensures Stripped(CLARIFICATION) && CLARIFICATION != ""
  {
  }

  lemma ReplyIsStripped(intent: Intent)
    ensures Stripped(SafeReply(intent)) && SafeReply(intent) != ""
  {
  }

  /** The text the policy node makes of a model answer, for every rule and intent: the guard's work
      survives the prefix, so nothing spoken asserts a mutation nobody executed. */
  lemma SpokenTextIsSafe(pt: Patterns, intent: Intent, rule: PolicyRule, raw: string)
    requires Faithful(pt) && Strip(raw) != ""
    ensures !ClaimsMutation(pt, intent, FinalResponse(rule, Strip(Guarded(pt, intent, Strip(raw)))))
  {
    var draft := Guarded(pt, intent, Strip(raw));
    StripIsStripped(raw);
    GuardKeepsStripped(pt, intent, Strip(raw));
    StripKeeps(draft);
    GuardLeavesNoClaim(pt, intent, Strip(raw));
    PrefixAddsNoClaim(pt, intent, rule, draft);
  }
}
