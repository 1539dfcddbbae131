/** The word lists of the mutation-claim guard (pipeline/nodes/llm.py), and the words of a text. */
module ClaimWords {
  import opened ClaimText
  import opened ClaimScope

  const NEGATION: seq<string> := [
    "not", "never", "no", "none", "nothing", "nobody", "neither", "nor", "cannot", "without"]

  const PROSPECTIVE: seq<string> := [
    "can", "could", "may", "might", "will", "would", "shall", "should", "must", "let", "going", "about", "plan",
    "planning", "intend", "want", "wants", "prefer", "if", "whether", "unless", "once"]

  const DANGLING_VERBS: seq<string> := [
    "am", "is", "are", "was", "were", "be", "been", "being", "has", "have", "had", "do", "does", "did"]

  const DANGLING_MODALS: seq<string> := [
    "can", "could", "may", "might", "will", "would", "shall", "should", "must"]

  const DANGLING_LINKS: seq<string> := [
    "not", "never", "no", "nor", "neither", "and", "but", "or", "so", "yet", "plus", "then", "to", "of", "for",
    "with", "by", "from", "as", "at"]

  const DANGLING_REST: seq<string> := [
    "in", "on", "than", "that", "which", "because", "while", "since", "though", "although", "if", "whether",
    "unless", "until"]

  const SUBJECTLESS: set<string> := {
    "am", "is", "are", "was", "were", "be", "been", "being", "has", "have", "had", "do", "does", "did"}

  function Literals(words: seq<string>): (r: seq<Literal>)
    ensures |r| == |words| && forall k :: 0 <= k < |r| ==> r[k] == Literal(words[k], true)
  {
    seq(|words|, k requires 0 <= k < |words| => Literal(words[k], true))
  }

  /** The lists as the patterns use them: whole words, and the unbound endings "n't" and "'ll". */
  function English(word: char -> bool): Lexis {
    Lexis(
      word,
      Literals(NEGATION) + Literals(PROSPECTIVE) + [Literal("n't", false), Literal("'ll", false)],
      Literals(DANGLING_VERBS) + Literals(DANGLING_MODALS) + Literals(DANGLING_LINKS) + Literals(DANGLING_REST)
      + [Literal("n't", false)],
      SUBJECTLESS)
  }

  predicate Lettered(w: string) {
    w != [] && forall i :: 0 <= i < |w| ==> IsLower(w[i])
  }

  lemma NegationIsLettered()
    ensures forall w :: w in NEGATION ==> Lettered(w)
  {
  }

  lemma ProspectiveIsLettered()
    ensures forall w :: w in PROSPECTIVE ==> Lettered(w)
  {
  }

  lemma DanglingIsLettered()
    ensures forall w :: w in DANGLING_VERBS ==> Lettered(w)
  {
  }

  lemma ModalsAreLettered()
    ensures forall w :: w in DANGLING_MODALS ==> Lettered(w)
  {
  }

  lemma LinksAreLettered()
    ensures forall w :: w in DANGLING_LINKS ==> Lettered(w)
  {
  }

  lemma RestIsLettered()
    ensures forall w :: w in DANGLING_REST ==> Lettered(w)
  {
  }

  lemma LiteralsAre(words: seq<string>, p: Literal)
    ensures p in Literals(words) <==> p.bound && p.text in words
  {
    if p in Literals(words) {
      var k :| 0 <= k < |words| && Literals(words)[k] == p;
    }
    if p.bound && p.text in words {
      var k :| 0 <= k < |words| && words[k] == p.text;
      assert Literals(words)[k] == p;
    }
  }

  /** A blocker is a listed word of letters or one of the two endings. */
  lemma BlockerIs(word: char -> bool, p: Literal)
    ensures p in English(word).blockers <==>
      || (p.bound && (p.text in NEGATION || p.text in PROSPECTIVE))
      || p == Literal("n't", false) || p == Literal("'ll", false)
    ensures p in English(word).blockers && p.bound ==> Lettered(p.text)
  {
    LiteralsAre(NEGATION, p);
    LiteralsAre(PROSPECTIVE, p);
    NegationIsLettered();
    ProspectiveIsLettered();
  }

  lemma DanglerIs(word: char -> bool, p: Literal)
    ensures p in English(word).dangling <==>
      || (p.bound && (p.text in DANGLING_VERBS || p.text in DANGLING_MODALS || p.text in DANGLING_LINKS
            || p.text in DANGLING_REST))
      || p == Literal("n't", false)
    ensures p in English(word).dangling && p.bound ==> Lettered(p.text)
  {
    LiteralsAre(DANGLING_VERBS, p);
    LiteralsAre(DANGLING_MODALS, p);
    LiteralsAre(DANGLING_LINKS, p);
    LiteralsAre(DANGLING_REST, p);
    DanglingIsLettered();
    ModalsAreLettered();
    LinksAreLettered();
    RestIsLettered();
  }

  /** Every listed word is made of letters and apostrophes only. */
  lemma EnglishIsSound(word: char -> bool)
    requires forall c :: IsSpace(c) || c == '-' || IsClausePunctuation(c) ==> !word(c)
    ensures Sound(English(word))
  {
    assert Plain(Literal("n't", false)) && Plain(Literal("'ll", false));
    forall p | p in English(word).blockers ensures Plain(p) {
      BlockerIs(word, p);
    }
    forall p | p in English(word).dangling ensures Plain(p) {
      DanglerIs(word, p);
    }
  }

  lemma NotIsABlocker(word: char -> bool)
    ensures Literal("not", true) in English(word).blockers
  {
    assert NEGATION[0] == "not";
    BlockerIs(word, Literal("not", true));
  }

  lemma NotDangles(word: char -> bool)
    ensures Literal("not", true) in English(word).dangling
  {
    assert DANGLING_LINKS[0] == "not";
    DanglerIs(word, Literal("not", true));
  }

  // ----- the words of a text -----

  predicate IsLetter(c: char) { 'a' <= c <= 'z' || c == '\'' }

  /** The `n` characters at `i` are a longest run of letters and apostrophes. */
  predicate WordAt(s: string, i: int, n: int) {
    && 0 <= i && 0 < n && i + n <= |s|
    && (forall k :: i <= k < i + n ==> IsLetter(s[k]))
    && (i > 0 ==> !IsLetter(s[i - 1])) && (i + n < |s| ==> !IsLetter(s[i + n]))
  }

  lemma {:induction false} WordsAreRuns(s: string, i: nat, start: nat, w: string)
    requires start <= i <= |s| && (forall k :: start <= k < i ==> IsLetter(s[k]))
    requires start > 0 ==> !IsLetter(s[start - 1])
    ensures w in WordsFrom(s, i, start) <==> exists a, n :: start <= a && WordAt(s, a, n) && s[a..a + n] == w
    decreases |s| - i
  {
    if i == |s| {
      if start < i { LastRun(s, start, w); }
    } else if InWord(s[i]) {
      WordsAreRuns(s, i + 1, start, w);
    } else {
      WordsAreRuns(s, i + 1, i + 1, w);
      FirstRun(s, i, start);
    }
  }

  /** A text that ends in letters ends in a word. */
  lemma LastRun(s: string, start: nat, w: string)
    requires start < |s| && (forall k :: start <= k < |s| ==> IsLetter(s[k]))
    requires start > 0 ==> !IsLetter(s[start - 1])
    ensures WordAt(s, start, |s| - start)
    ensures forall a, n :: start <= a && WordAt(s, a, n) ==> a == start && n == |s| - start
  {
  }

  /** The words from `start` on are the one that ends at `i`, if any, and those behind `i`. */
  lemma FirstRun(s: string, i: nat, start: nat)
    requires start <= i < |s| && (forall k :: start <= k < i ==> IsLetter(s[k])) && !IsLetter(s[i])
    requires start > 0 ==> !IsLetter(s[start - 1])
    ensures start < i ==> WordAt(s, start, i - start)
    ensures forall a, n :: start <= a && WordAt(s, a, n) ==> (a == start && n == i - start) || i + 1 <= a
  {
  }

  /** A clause borrows its subject if and only if it has a word and every word is one of these auxiliaries. */
  ghost predicate OnlyAuxiliaries(clause: string) {
    && (exists a, n :: WordAt(clause, a, n))
    && forall a, n :: WordAt(clause, a, n) ==> IsAuxiliary(clause[a..a + n])
  }

  predicate IsAuxiliary(w: string) {
    w in {"am", "is", "are", "was", "were", "be", "been", "being", "has", "have", "had", "do", "does", "did"}
  }

  lemma WordsAre(s: string, w: string)
    ensures w in Words(s) <==> exists a, n :: WordAt(s, a, n) && s[a..a + n] == w
  {
    WordsAreRuns(s, 0, 0, w);
  }

  lemma AuxiliariesLackSubject(word: char -> bool, clause: string)
    requires OnlyAuxiliaries(clause)
    ensures LacksSubject(English(word), clause)
  {
    var words := Words(clause);
    var a, n :| WordAt(clause, a, n);
    WordsAre(clause, clause[a..a + n]);
    forall i | 0 <= i < |words| ensures words[i] in SUBJECTLESS {
      WordsAre(clause, words[i]);
      var b, m :| WordAt(clause, b, m) && clause[b..b + m] == words[i];
      assert IsAuxiliary(clause[b..b + m]);
    }
  }

  lemma SubjectlessHasAuxiliaries(word: char -> bool, clause: string)
    requires LacksSubject(English(word), clause)
    ensures OnlyAuxiliaries(clause)
  {
    var words := Words(clause);
    forall a, n | WordAt(clause, a, n) ensures IsAuxiliary(clause[a..a + n]) {
      WordsAre(clause, clause[a..a + n]);
      var i :| 0 <= i < |words| && words[i] == clause[a..a + n];
      assert words[i] in SUBJECTLESS;
    }
    WordsAre(clause, words[0]);
  }

  lemma SubjectByWords(word: char -> bool, clause: string)
    ensures LacksSubject(English(word), clause) <==> OnlyAuxiliaries(clause)
  {
    if OnlyAuxiliaries(clause) {
      AuxiliariesLackSubject(word, clause);
    } else if LacksSubject(English(word), clause) {
      SubjectlessHasAuxiliaries(word, clause);
    }
  }

  // ----- blockers and openers, in words -----

  predicate IsDenial(w: string) {
    w in {"not", "never", "no", "none", "nothing", "nobody", "neither", "nor", "cannot", "without"}
  }

  predicate IsProspect(w: string) {
    || w in {"can", "could", "may", "might", "will", "would", "shall", "should", "must", "let", "going", "about"}
    || w in {"plan", "planning", "intend", "want", "wants", "prefer", "if", "whether", "unless", "once"}
  }

  predicate IsModal(w: string) {
    w in {"can", "could", "may", "might", "will", "would", "shall", "should", "must"}
  }

  /** Denials, conjunctions, prepositions and the like, which leave open what follows. */
  predicate IsLink(w: string) {
    || w in {"not", "never", "no", "nor", "neither", "and", "but", "or", "so", "yet", "plus", "then", "to", "of"}
    || w in {"for", "with", "by", "from", "as", "at", "in", "on", "than", "that", "which", "because", "while"}
    || w in {"since", "though", "although", "if", "whether", "unless", "until"}
  }

  lemma DenialsAre(w: string)
    ensures w in NEGATION <==> IsDenial(w)
  {
  }

  lemma ProspectsAre(w: string)
    ensures w in PROSPECTIVE <==> IsProspect(w)
  {
  }

  lemma OpenersAre(w: string)
    ensures w in DANGLING_VERBS <==> IsAuxiliary(w)
    ensures w in DANGLING_MODALS <==> IsModal(w)
  {
  }

  lemma LinksAre(w: string)
    ensures w in DANGLING_LINKS || w in DANGLING_REST <==> IsLink(w)
  {
  }

  /** A text blocks a claim if and only if one of the denials or prospective words stands in it as a whole word,
      or one of the two endings closes a word. */
  lemma BlocksByWords(word: char -> bool, s: string)
    ensures Blocks(English(word), s) <==> exists i :: 0 <= i <= |s| && BlockingWordAt(word, s, i)
  {
    forall i | 0 <= i <= |s| ensures BlockedAt(English(word), s, i) <==> BlockingWordAt(word, s, i) {
      BlockedByWord(word, s, i);
    }
  }

  ghost predicate BlockingWordAt(word: char -> bool, s: string, i: nat) {
    || (exists w :: (IsDenial(w) || IsProspect(w)) && LiteralAt(word, s, i, Literal(w, true)))
    || LiteralAt(word, s, i, Literal("n't", false)) || LiteralAt(word, s, i, Literal("'ll", false))
  }

  lemma BlockedByWord(word: char -> bool, s: string, i: nat)
    ensures BlockedAt(English(word), s, i) <==> BlockingWordAt(word, s, i)
  {
    if BlockedAt(English(word), s, i) {
      var p :| p in English(word).blockers && LiteralAt(word, s, i, p);
      BlockerIs(word, p);
      DenialsAre(p.text);
      ProspectsAre(p.text);
      assert p.bound ==> p == Literal(p.text, true);
    }
    if BlockingWordAt(word, s, i) {
      BlockerIs(word, Literal("n't", false));
      BlockerIs(word, Literal("'ll", false));
      forall w | IsDenial(w) || IsProspect(w) ensures Literal(w, true) in English(word).blockers {
        DenialsAre(w);
        ProspectsAre(w);
        BlockerIs(word, Literal(w, true));
      }
    }
  }

  // ----- what dangles -----

  /** A character the tail of a dangling segment may not hold. */
  predicate InTail(c: char) { 'a' <= c <= 'z' || '0' <= c <= '9' || c == '\'' }

  /** The last letter, digit or apostrophe of the text stands in front of `q`. */
  predicate EndsAt(e: string, q: int) {
    0 <= q <= |e| && (q > 0 ==> InTail(e[q - 1])) && forall j :: q <= j < |e| ==> !InTail(e[j])
  }

  /** A whole word that leaves open what follows, or "n't", ends at `q`. */
  ghost predicate OpenEnd(word: char -> bool, e: string, q: int)
    requires 0 <= q <= |e|
  {
    || (exists i :: 0 <= i < q && (i == 0 || !word(e[i - 1])) && IsOpener(e[i..q]))
    || (q >= 3 && e[q - 3..q] == "n't")
  }

  predicate IsOpener(w: string) { IsAuxiliary(w) || IsModal(w) || IsLink(w) }

  /** A segment is left dangling if and only if its last word, apart from white space and marks behind it, is one
      of the openers or ends in "n't". */
  lemma DanglesByLastWord(word: char -> bool, e: string, q: int)
    requires (forall c :: 'a' <= c <= 'z' ==> word(c)) && EndsAt(e, q)
    ensures Dangles(English(word), e) <==> OpenEnd(word, e, q)
  {
    if Dangles(English(word), e) {
      var i :| 0 <= i <= |e| && DanglesAt(English(word), e, i);
      var p :| p in English(word).dangling && TailAt(English(word), e, i, p);
      TailEndsOpen(word, e, q, i, p);
    } else if OpenEnd(word, e, q) {
      OpenEndDangles(word, e, q);
    }
  }

  lemma OpenerIs(word: char -> bool, w: string)
    ensures Literal(w, true) in English(word).dangling <==> IsOpener(w)
    ensures IsOpener(w) ==> Lettered(w)
  {
    DanglerIs(word, Literal(w, true));
    OpenersAre(w);
    LinksAre(w);
  }

  lemma TailEndsOpen(word: char -> bool, e: string, q: int, i: nat, p: Literal)
    requires (forall c :: 'a' <= c <= 'z' ==> word(c)) && EndsAt(e, q)
    requires p in English(word).dangling && TailAt(English(word), e, i, p)
    ensures OpenEnd(word, e, q)
  {
    DanglerIs(word, p);
    OpenerIs(word, p.text);
    if p.bound {
      assert p == Literal(p.text, true);
      WordEnds(e, q, i, p.text);
      assert e[i] == e[i..q][0];
    } else {
      assert p.text[2] == 't';
      WordEnds(e, q, i, p.text);
    }
  }

  lemma WordEnds(e: string, q: int, i: nat, w: string)
    requires EndsAt(e, q) && w != [] && InTail(w[|w| - 1]) && TextAt(e, i, w)
    requires forall j :: i + |w| <= j < |e| ==> !InTail(e[j])
    ensures q == i + |w| && e[i..q] == w
  {
    assert e[i..i + |w|][|w| - 1] == e[i + |w| - 1];
  }

  lemma OpenEndDangles(word: char -> bool, e: string, q: int)
    requires (forall c :: 'a' <= c <= 'z' ==> word(c)) && EndsAt(e, q) && OpenEnd(word, e, q)
    ensures Dangles(English(word), e)
  {
    if q >= 3 && e[q - 3..q] == "n't" {
      DanglerIs(word, Literal("n't", false));
      TailDangles(English(word), e, q - 3, q, Literal("n't", false));
    } else {
      var i :| 0 <= i < q && (i == 0 || !word(e[i - 1])) && IsOpener(e[i..q]);
      OpenerIs(word, e[i..q]);
      assert e[i] == e[i..q][0];
      TailDangles(English(word), e, i, q, Literal(e[i..q], true));
    }
  }

  lemma TailDangles(lex: Lexis, e: string, i: nat, q: int, p: Literal)
    requires EndsAt(e, q) && i <= q && e[i..q] == p.text && p in lex.dangling
    requires p.bound ==> Boundary(lex.word, e, i)
    ensures Dangles(lex, e)
  {
    assert TailAt(lex, e, i, p);
    assert DanglesAt(lex, e, i);
  }
}
