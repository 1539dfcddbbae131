/** What the mutation-claim guard catches and what it lets pass, in terms of a sentence's segments. */
module ClaimCriterion {
  import opened ClaimText
  import opened ClaimScope
  import opened ClaimScan
  import opened ClaimClauses
  import opened ClaimWords
  import opened ClaimGuard
  import opened ClaimSafety

  /** In a sentence within the scan bound, a verb stands exactly when no segment in its scope blocks. */
  predicate VerbUnblocked(pt: Patterns, intent: Intent, s: string, i: nat) {
    i <= |s| && VerbAt(pt, intent, s, i) && !SomeInScopeBlocks(pt, Split(Clauses, s[..i]))
  }

  predicate SomeInScopeBlocks(pt: Patterns, segments: seq<string>)
    requires segments != []
  {
    exists k :: 0 <= k < |segments| && InScope(pt.Lex(), segments, k) && Blocks(pt.Lex(), segments[k])
  }

  /** The claim criterion, sentence by sentence: a completed verb form that no segment in scope denies
      or defers, in a sentence that is no question, speaks of no other time or person, and has the
      shape of a claim. */
  lemma ClaimCriterion(pt: Patterns, intent: Intent, s: string)
    requires Faithful(pt) && |s| <= 400
    ensures ClaimsCompletedMutation(pt, intent, s) <==>
      && !(s != [] && s[|s| - 1] == '?') && !pt.interrogative(s) && !pt.distancing(s)
      && (pt.completion(s) || pt.shape(intent, s))
      && exists i :: 0 <= i <= |s| && VerbUnblocked(pt, intent, s, i)
  {
    forall i | 0 <= i <= |s| ensures VerbUnblocked(pt, intent, s, i) <==> StandingVerbAt(pt, intent, s, i) {
      UnblockedMeansStanding(pt, intent, s, i);
    }
    assert HasStandingVerb(pt, intent, s) ==> HasVerb(pt, intent, s);
  }

  lemma UnblockedMeansStanding(pt: Patterns, intent: Intent, s: string, i: nat)
    requires Faithful(pt) && i <= |s| <= 400
    ensures VerbUnblocked(pt, intent, s, i) <==> StandingVerbAt(pt, intent, s, i)
  {
    EnglishIsSound(pt.word);
    WindowBlocks(pt.Lex(), Split(Clauses, s[..i]));
  }

  // ----- the subject of a clause, in words -----

  /** What leaves a claim standing, in terms of words: no segment denies or defers it but an earlier one that is
      left closed, and that only if the clause has a word besides the auxiliaries or has no word at all. */
  lemma StandsByWords(pt: Patterns, prefix: string)
    requires Faithful(pt) && |prefix| <= 400
    ensures LeavesClaimStanding(pt.Lex(), prefix) <==> NothingInScope(pt.Lex(), Split(Clauses, prefix))
  {
    EnglishIsSound(pt.word);
    WindowBlocks(pt.Lex(), Split(Clauses, prefix));
    ScopeByWords(pt.word, Split(Clauses, prefix));
  }

  /** No segment blocks but a closed one in front of a clause with a subject of its own. */
  ghost predicate NothingInScope(lex: Lexis, segments: seq<string>)
    requires segments != []
  {
    var last := |segments| - 1;
    forall k :: 0 <= k <= last && Blocks(lex, segments[k]) ==>
      k < last && !Dangles(lex, segments[k]) && !OnlyAuxiliaries(segments[last])
  }

  lemma ScopeByWords(word: char -> bool, segments: seq<string>)
    requires segments != []
    ensures ScopeBlocks(English(word), segments) <==> !NothingInScope(English(word), segments)
  {
    SubjectByWords(word, segments[|segments| - 1]);
  }

  /** If the clause holds a word that is none of the auxiliaries, a closed earlier text, set off by any separator,
      neither blocks nor unblocks it. */
  lemma OwnSubjectStands(pt: Patterns, e: string, sep: string, r: string, a: int, n: int)
    requires Faithful(pt) && IsSeparator(sep) && |e| + |sep| + |r| <= 400 && Closed(pt.Lex(), e)
    requires var clause := LastOf(Split(Clauses, r)); WordAt(clause, a, n) && !IsAuxiliary(clause[a..a + n])
    ensures LeavesClaimStanding(pt.Lex(), e + sep + r) <==> LeavesClaimStanding(pt.Lex(), r)
  {
    EnglishIsSound(pt.word);
    SubjectByWords(pt.word, LastOf(Split(Clauses, r)));
    ClosedSegmentIsInert(pt.Lex(), e, sep, r);
  }

  /** If the clause has words and all of them are auxiliaries, any earlier segment that denies or defers reaches
      it over any separator. */
  lemma BorrowedSubjectIsDenied(pt: Patterns, e: string, sep: string, r: string, k: nat)
    requires Faithful(pt) && IsSeparator(sep) && |e| + |sep| + |r| <= 400
    requires OnlyAuxiliaries(LastOf(Split(Clauses, r)))
    requires k < |Split(Clauses, e)| && Blocks(pt.Lex(), Split(Clauses, e)[k])
    ensures !LeavesClaimStanding(pt.Lex(), e + sep + r)
  {
    EnglishIsSound(pt.word);
    SubjectByWords(pt.word, LastOf(Split(Clauses, r)));
    SubjectlessReaches(pt.Lex(), e, sep, r, k);
  }

  lemma SubjectlessReaches(lex: Lexis, e: string, sep: string, r: string, k: nat)
    requires Sound(lex) && IsSeparator(sep) && |e| + |sep| + |r| <= 400
    requires LacksSubject(lex, LastOf(Split(Clauses, r)))
    requires k < |Split(Clauses, e)| && Blocks(lex, Split(Clauses, e)[k])
    ensures !LeavesClaimStanding(lex, e + sep + r)
  {
    var early, head, filler, dash := SeparatorShape(e, sep, r);
    var second := Split(Clauses, dash + r);
    var all := early + [head] + second;
    BlocksAhead(lex, head, filler);
    FillerInFront(lex, dash, r);
    assert LastOf(all) == LastOf(second);
    assert all[k] == if k < |early| then Split(Clauses, e)[k] else head;
    assert Blocks(lex, all[k]) && InScope(lex, all, k);
    WindowBlocks(lex, all);
  }

  // ----- a claim behind a closed denial -----

  /** A literal that ends a text of letters and blanks is a whole word of it. */
  lemma TailIsLastWord(pt: Patterns, e: string, i: nat, p: Literal)
    requires Faithful(pt) && e == "not a problem" && i <= |e| && Plain(p) && TailAt(pt.Lex(), e, i, p)
    ensures p.bound ==> p.text == "problem"
    ensures p.text[|p.text| - 1] == 'm'
  {
    TextIsLetters(e, i, p);
    var end := i + |p.text|;
    assert e[12] == 'm' && InWord(e[12]) && e[5] == ' ' && !InWord(e[5]);
    assert end == 13 && e[i..end][|p.text| - 1] == e[12];
    if p.bound {
      assert forall k :: 6 <= k < 13 ==> IsAscii(e[k]) && AsciiWord(e[k]);
      assert i == 6;
      assert e == "not a " + "problem";
      assert ("not a " + "problem")[6..13] == "problem";
    }
  }

  lemma ProblemIsClosed(pt: Patterns)
    requires Faithful(pt)
    ensures Closed(pt.Lex(), "not a problem")
  {
    SplitOneClause("not a problem");
    ProblemIsNoTail(pt, "not a problem");
  }

  lemma ProblemIsNoTail(pt: Patterns, e: string)
    requires Faithful(pt) && e == "not a problem"
    ensures !Dangles(pt.Lex(), e)
  {
    EnglishIsSound(pt.word);
    forall i, p | 0 <= i <= |e| && p in pt.Lex().dangling ensures !TailAt(pt.Lex(), e, i, p) {
      ProblemDoesNotDangle(pt, e, i, p);
    }
  }

  lemma ProblemDoesNotDangle(pt: Patterns, e: string, i: nat, p: Literal)
    requires Faithful(pt) && e == "not a problem" && i <= |e| && Plain(p) && p in pt.Lex().dangling
    ensures !TailAt(pt.Lex(), e, i, p)
  {
    DanglerIs(pt.word, p);
    ProblemIsNotListed();
    if TailAt(pt.Lex(), e, i, p) { TailIsLastWord(pt, e, i, p); }
  }

  lemma ProblemIsNotListed()
    ensures "problem" !in DANGLING_VERBS && "problem" !in DANGLING_MODALS
    ensures "problem" !in DANGLING_LINKS && "problem" !in DANGLING_REST
  {
  }

  lemma WordsOfIHave(pt: Patterns, i: nat, p: Literal)
    requires Faithful(pt) && i <= 8 && Plain(p) && LiteralAt(pt.word, " i have ", i, p)
    ensures p.bound ==> p.text == "i" || p.text == "have"
    ensures '\'' !in p.text
  {
    var s := " i have ";
    var end := i + |p.text|;
    TextIsLetters(s, i, p);
    assert s[0] == s[2] == s[7] == ' ' && s[1] == 'i' && s[3] == 'h' && s[4] == 'a' && s[5] == 'v' && s[6] == 'e';
    assert forall k :: 0 <= k < 8 ==> IsAscii(s[k]) && s[k] != '\'';
    assert forall k :: 0 <= k < |p.text| ==> p.text[k] == s[i..end][k] == s[i + k];
    if p.bound {
      assert (i == 1 && end == 2) || (i == 3 && end == 7);
      assert s[1..2] == "i" && s[3..7] == "have";
    }
  }

  lemma IHaveBlocksNothing(pt: Patterns)
    requires Faithful(pt)
    ensures !Blocks(pt.Lex(), " i have ")
  {
    var s := " i have ";
    EnglishIsSound(pt.word);
    forall i, p | 0 <= i <= |s| && p in pt.Lex().blockers ensures !LiteralAt(pt.word, s, i, p) {
      if LiteralAt(pt.word, s, i, p) {
        WordsOfIHave(pt, i, p);
        NoBlockerInIHave(pt, p);
      }
    }
  }

  lemma NoBlockerInIHave(pt: Patterns, p: Literal)
    requires '\'' !in p.text && (p.bound ==> p.text == "i" || p.text == "have")
    ensures p !in pt.Lex().blockers
  {
    BlockerIs(pt.word, p);
    assert "n't"[1] == '\'' && "'ll"[0] == '\'';
  }

  /** The denial in "Not a problem, I have ..." is closed and the clause has its own subject, so a claim made
      there stands. */
  lemma ClaimBehindClosedDenialStands(pt: Patterns)
    requires Faithful(pt)
    ensures LeavesClaimStanding(pt.Lex(), "not a problem" + "," + " i have ")
  {
    IHaveStands(pt, " i have ");
    IIsASubject(" i have ");
    ProblemIsClosed(pt);
    OwnSubjectStands(pt, "not a problem", ",", " i have ", 1, 1);
  }

  lemma IHaveStands(pt: Patterns, r: string)
    requires Faithful(pt) && r == " i have "
    ensures LeavesClaimStanding(pt.Lex(), r) && LastOf(Split(Clauses, r)) == r
  {
    SplitOneClause(r);
    IHaveBlocksNothing(pt);
    StandsByWords(pt, r);
  }

  lemma IIsASubject(r: string)
    requires r == " i have "
    ensures WordAt(r, 1, 1) && !IsAuxiliary(r[1..2])
  {
    assert r[1..2] == "i";
  }

  /** The forms of each intent's verbs. */
  predicate IsVerbOf(intent: Intent, v: string) {
    match intent
    case AddTask => v in {"added", "created", "saved", "scheduled", "logged"}
    case RescheduleTask => v in {"rescheduled", "moved", "shifted", "updated", "changed"}
    case SnoozeReminder => v in {"snoozed", "postponed", "delayed", "deferred", "pushed"}
    case DismissReminder => v in {"dismissed", "cleared", "cancelled", "canceled", "removed", "deleted", "closed"}
    case OtherIntent => false
  }

  lemma VerbsAreListed(intent: Intent, v: string)
    ensures v in VerbsOf(intent) <==> IsVerbOf(intent, v)
  {
  }

  lemma VerbsEndInEd(intent: Intent, v: string)
    requires v in VerbsOf(intent)
    ensures VerbForm(v)
  {
    TaskVerbs();
    ReminderVerbs();
  }

  /** A sentence that goes on, behind a text that leaves the claim standing, with a form of the intent's verb is a
      claim, if it is no question, is not distanced and has the shape of a claim. */
  lemma StandingVerbIsClaim(pt: Patterns, intent: Intent, front: string, v: string, rest: string, s: string)
    requires Faithful(pt) && IsVerbOf(intent, v) && s == front + v + rest
    requires front != [] && front[|front| - 1] == ' ' && LeavesClaimStanding(pt.Lex(), front)
    requires rest != [] && rest[0] == ' ' && rest[|rest| - 1] != '?'
    requires !pt.interrogative(s) && !pt.distancing(s) && (pt.completion(s) || pt.shape(intent, s))
    ensures ClaimsCompletedMutation(pt, intent, s)
  {
    VerbIsThere(pt, intent, front, v, rest, s);
    assert s[..|front|] == front && s[|s| - 1] == rest[|rest| - 1];
    assert StandingVerbAt(pt, intent, s, |front|);
  }

  lemma VerbIsThere(pt: Patterns, intent: Intent, front: string, v: string, rest: string, s: string)
    requires Faithful(pt) && IsVerbOf(intent, v) && front != [] && front[|front| - 1] == ' ' && s == front + v + rest
    requires rest != [] && rest[0] == ' '
    ensures VerbAt(pt, intent, s, |front|)
  {
    VerbsAreListed(intent, v);
    VerbsEndInEd(intent, v);
    WordIsThere(pt, front, v, rest, s);
  }

  lemma WordIsThere(pt: Patterns, front: string, v: string, rest: string, s: string)
    requires Faithful(pt) && VerbForm(v) && front != [] && front[|front| - 1] == ' ' && s == front + v + rest
    requires rest != [] && rest[0] == ' '
    ensures LiteralAt(pt.word, s, |front|, Literal(v, true))
  {
    var i := |front|;
    assert s[i..i + |v|] == v;
    assert s[i - 1] == ' ' && s[i] == v[0] && s[i + |v| - 1] == v[|v| - 1] && s[i + |v|] == ' ';
    assert IsAscii(v[0]) && IsAscii(v[|v| - 1]) && IsSpace(' ');
  }

  lemma NormaliseTo(pt: Patterns, s: string, lower: string)
    requires Faithful(pt) && OwnText(s) && |s| == |lower| && forall i :: 0 <= i < |s| ==> OwnFold(s[i]) == lower[i]
    ensures Normalise(pt, s) == lower
  {
    NormaliseOwn(pt, s);
  }

  lemma NormaliseProblem(pt: Patterns)
    requires Faithful(pt)
    ensures Normalise(pt, "Not a problem") == "not a problem"
  {
    var upper, lower := "Not a problem", "not a problem";
    assert OwnFold('N') == 'n' && forall i :: 1 <= i < |upper| ==> upper[i] == lower[i];
    NormaliseTo(pt, upper, lower);
  }

  lemma NormaliseIHave(pt: Patterns)
    requires Faithful(pt)
    ensures Normalise(pt, ",") == "," && Normalise(pt, " I have ") == " i have "
  {
    NormaliseTo(pt, ",", ",");
    var upper, lower := " I have ", " i have ";
    assert OwnFold('I') == 'i' && forall i :: 2 <= i < |upper| ==> upper[i] == lower[i];
    NormaliseTo(pt, upper, lower);
  }

  lemma NormaliseDismissed(pt: Patterns, v: string, r: string)
    requires Faithful(pt) && v == "dismissed" && r == " that reminder."
    ensures Normalise(pt, v) == v && Normalise(pt, r) == r
  {
    NormalisePlain(pt, v);
    NormalisePlain(pt, r);
  }

  lemma NormalisePlain(pt: Patterns, s: string)
    requires Faithful(pt) && forall i :: 0 <= i < |s| ==> IsLower(s[i]) || s[i] == ' ' || s[i] == '.'
    ensures Normalise(pt, s) == s
  {
    NormaliseTo(pt, s, s);
  }

  lemma NormaliseClaim(pt: Patterns)
    requires Faithful(pt)
    ensures Normalise(pt, "Not a problem" + "," + " I have " + "dismissed" + " that reminder.") ==
      "not a problem" + "," + " i have " + "dismissed" + " that reminder."
  {
    var a, b, c, v, r := "Not a problem", ",", " I have ", "dismissed", " that reminder.";
    NormaliseProblem(pt);
    NormaliseIHave(pt);
    NormaliseDismissed(pt, v, r);
    NormaliseAppend(pt, a + b + c + v, r);
    NormaliseAppend(pt, a + b + c, v);
    NormaliseAppend(pt, a + b, c);
    NormaliseAppend(pt, a, b);
  }

  lemma ClaimIsOneSentence(s: string)
    requires s == "not a problem" + "," + " i have " + "dismissed" + " that reminder."
    ensures Split(Sentences, s) == [s] && Strip(s) == s
  {
    SplitOneSentence(s);
  }

  /** The guard replaces "Not a problem, I have dismissed that reminder.", however the larger patterns are
      written, as long as they take it for a claim. */
  lemma ClaimIsReplaced(pt: Patterns)
    requires var s := "not a problem" + "," + " i have " + "dismissed" + " that reminder.";
      Faithful(pt) && !pt.interrogative(s) && !pt.distancing(s) && pt.shape(DismissReminder, s)
    ensures Guarded(pt, DismissReminder, "Not a problem" + "," + " I have " + "dismissed" + " that reminder.") ==
      SafeReply(DismissReminder)
  {
    var front := "not a problem" + "," + " i have ";
    var s := front + "dismissed" + " that reminder.";
    NormaliseClaim(pt);
    ClaimIsOneSentence(s);
    ClaimBehindClosedDenialStands(pt);
    StandingVerbIsClaim(pt, DismissReminder, front, "dismissed", " that reminder.", s);
    assert ClaimTest(pt, DismissReminder)([s][0]);
  }

  lemma NotIsOpen(pt: Patterns, e: string)
    requires e == "i have not" && LiteralAt(pt.word, e, 7, Literal("not", true))
    ensures Dangles(pt.Lex(), e)
  {
    NotDangles(pt.word);
    assert TailAt(pt.Lex(), e, 7, Literal("not", true));
    assert DanglesAt(pt.Lex(), e, 7);
  }

  lemma HaveNotIsOpen(pt: Patterns, e: string)
    requires Faithful(pt) && e == "i have not"
    ensures OpenDenial(pt.Lex(), e)
  {
    SplitOneClause(e);
    NotIsThere(pt, e);
    NotIsOpen(pt, e);
    assert Split(Clauses, e)[0] == e;
  }

  /** "I have not, however, dismissed that reminder." is a denial: the open "I have not" reaches over
      the parenthesis. */
  lemma HoweverDenialHolds(pt: Patterns)
    requires Faithful(pt)
    ensures !LeavesClaimStanding(pt.Lex(), "i have not" + "," + " however, ")
  {
    EnglishIsSound(pt.word);
    HaveNotIsOpen(pt, "i have not");
    OpenDenialReaches(pt.Lex(), "i have not", ",", " however, ");
  }

  /** The assumptions on case folding and word characters can be met: plain ASCII meets them. */
  lemma AsciiIsFaithful(no: string -> bool, shape: (Intent, string) -> bool)
    ensures Faithful(Patterns(AsciiWord, c => [Lower(c)], no, no, no, shape))
  {
  }
}
