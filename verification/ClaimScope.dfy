/** Blocker scope in the mutation-claim guard: which part of the text before a verb can deny or
    defer the claim the verb makes (`_leaves_claim_standing` in pipeline/nodes/llm.py). */
module ClaimScope {
  import opened ClaimText

  const SCAN_CHARS := 400

  /** The word lists the rules work with, and `\w` beyond ASCII. */
  datatype Lexis = Lexis(
    word: char -> bool, blockers: seq<Literal>, dangling: seq<Literal>, subjectless: set<string>)

  /** `_NEGATION` or `_PROSPECTIVE` matches somewhere. */
  predicate Blocks(lex: Lexis, s: string) {
    exists i :: 0 <= i <= |s| && BlockedAt(lex, s, i)
  }

  predicate BlockedAt(lex: Lexis, s: string, i: nat) {
    exists p :: p in lex.blockers && LiteralAt(lex.word, s, i, p)
  }

  /** `_DANGLING_TAIL` matches: one of its literals, then nothing of `[a-z0-9']` to the end. */
  predicate Dangles(lex: Lexis, s: string) {
    exists i :: 0 <= i <= |s| && DanglesAt(lex, s, i)
  }

  predicate DanglesAt(lex: Lexis, s: string, i: nat) {
    exists p :: p in lex.dangling && TailAt(lex, s, i, p)
  }

  predicate TailAt(lex: Lexis, s: string, i: nat, p: Literal) {
    && TextAt(s, i, p.text)
    && (p.bound ==> Boundary(lex.word, s, i))
    && (forall j :: i + |p.text| <= j < |s| ==> !InWord(s[j]) && !IsDigit(s[j]))
  }

  /** The clause borrows its subject from before the break. */
  predicate LacksSubject(lex: Lexis, clause: string) {
    var words := Words(clause);
    words != [] && forall i :: 0 <= i < |words| ==> words[i] in lex.subjectless
  }

  function KeepDangling(lex: Lexis, segments: seq<string>): seq<string> {
    if segments == [] then []
    else (if Dangles(lex, segments[0]) then [segments[0]] else []) + KeepDangling(lex, segments[1..])
  }

  function ScopeOf(lex: Lexis, segments: seq<string>): (scope: seq<string>)
    requires segments != []
    ensures scope != []
  {
    var earlier, clause := segments[..|segments| - 1], segments[|segments| - 1];
    (if LacksSubject(lex, clause) then earlier else KeepDangling(lex, earlier)) + [clause]
  }

  function Join(parts: seq<string>): string {
    if parts == [] then "" else if |parts| == 1 then parts[0] else parts[0] + " " + Join(parts[1..])
  }

  /** `str.partition(" ")[2]`. */
  function AfterFirstBlank(s: string): string {
    if s == [] then s else if s[0] == ' ' then s[1..] else AfterFirstBlank(s[1..])
  }

  function Scanned(prefix: string): string {
    if |prefix| > SCAN_CHARS then AfterFirstBlank(prefix[|prefix| - SCAN_CHARS..]) else prefix
  }

  /** The verdict on a text scanned in full. */
  predicate StandsAfter(lex: Lexis, scanned: string) {
    !Blocks(lex, Join(ScopeOf(lex, Split(Clauses, scanned))))
  }

  /** `_leaves_claim_standing`. */
  predicate LeavesClaimStanding(lex: Lexis, prefix: string) {
    StandsAfter(lex, Scanned(prefix))
  }

  /** The literals are made of letters and apostrophes; separators are no word characters. */
  predicate Plain(p: Literal) {
    p.text != [] && forall i :: 0 <= i < |p.text| ==> InWord(p.text[i])
  }

  ghost predicate Sound(lex: Lexis) {
    && (forall c :: IsSpace(c) || c == '-' || IsClausePunctuation(c) ==> !lex.word(c))
    && (forall p :: p in lex.blockers ==> Plain(p))
    && (forall p :: p in lex.dangling ==> Plain(p))
  }

  // ----- joining segments neither makes nor hides a blocker -----

  lemma BlocksOneSide(lex: Lexis, a: string, b: string)
    requires Sound(lex) && Blocks(lex, a + " " + b)
    ensures Blocks(lex, a) || Blocks(lex, b)
  {
    var s := a + " " + b;
    var i :| 0 <= i <= |s| && BlockedAt(lex, s, i);
    var p :| p in lex.blockers && LiteralAt(lex.word, s, i, p);
    LiteralOnOneSide(lex, a, b, i, p);
    if i + |p.text| <= |a| { assert BlockedAt(lex, a, i); } else { assert BlockedAt(lex, b, i - |a| - 1); }
  }

  lemma BlocksKept(lex: Lexis, a: string, b: string)
    requires Sound(lex) && Blocks(lex, a)
    ensures Blocks(lex, a + " " + b)
  {
    var i :| 0 <= i <= |a| && BlockedAt(lex, a, i);
    var p :| p in lex.blockers && LiteralAt(lex.word, a, i, p);
    LiteralKept(lex, a, b, i, p);
    assert BlockedAt(lex, a + " " + b, i);
  }

  lemma BlocksMoved(lex: Lexis, a: string, b: string)
    requires Sound(lex) && Blocks(lex, b)
    ensures Blocks(lex, a + " " + b)
  {
    var i :| 0 <= i <= |b| && BlockedAt(lex, b, i);
    var p :| p in lex.blockers && LiteralAt(lex.word, b, i, p);
    LiteralMoved(lex, a + " ", b, i, p);
    assert BlockedAt(lex, a + " " + b, |a| + 1 + i);
  }

  lemma BlocksEither(lex: Lexis, a: string, b: string)
    requires Sound(lex)
    ensures Blocks(lex, a + " " + b) <==> Blocks(lex, a) || Blocks(lex, b)
  {
    if Blocks(lex, a + " " + b) { BlocksOneSide(lex, a, b); }
    if Blocks(lex, a) { BlocksKept(lex, a, b); }
    if Blocks(lex, b) { BlocksMoved(lex, a, b); }
  }

  lemma LiteralKept(lex: Lexis, a: string, b: string, i: nat, p: Literal)
    requires Sound(lex) && LiteralAt(lex.word, a, i, p)
    ensures LiteralAt(lex.word, a + " " + b, i, p)
  {
    var s := a + " " + b;
    assert s[i..i + |p.text|] == a[i..i + |p.text|];
  }

  /** In front of a blank or after one, a literal matches as it does alone. */
  lemma LiteralMoved(lex: Lexis, a: string, b: string, i: nat, p: Literal)
    requires LiteralAt(lex.word, b, i, p)
    requires a != [] && !lex.word(a[|a| - 1])
    ensures LiteralAt(lex.word, a + b, |a| + i, p)
  {
    assert (a + b)[|a| + i..|a| + i + |p.text|] == b[i..i + |p.text|];
  }

  lemma TextIsLetters(s: string, i: nat, p: Literal)
    requires Plain(p) && TextAt(s, i, p.text)
    ensures forall k :: i <= k < i + |p.text| ==> InWord(s[k])
  {
    assert forall k :: i <= k < i + |p.text| ==> s[k] == s[i..i + |p.text|][k - i];
  }

  lemma LiteralOnOneSide(lex: Lexis, a: string, b: string, i: nat, p: Literal)
    requires Sound(lex) && Plain(p) && LiteralAt(lex.word, a + " " + b, i, p)
    ensures i + |p.text| <= |a| ==> LiteralAt(lex.word, a, i, p)
    ensures i + |p.text| > |a| ==> i > |a| && LiteralAt(lex.word, b, i - |a| - 1, p)
  {
    var s := a + " " + b;
    var e := i + |p.text|;
    if e <= |a| {
      assert s[i..e] == a[i..e];
    } else {
      TextIsLetters(s, i, p);
      assert s[|a|] == ' ';
      assert s[i..e] == b[i - |a| - 1..e - |a| - 1];
    }
  }

  ghost predicate AnyBlocks(lex: Lexis, parts: seq<string>) {
    exists i :: 0 <= i < |parts| && Blocks(lex, parts[i])
  }

  lemma {:induction false} BlocksJoin(lex: Lexis, parts: seq<string>)
    requires Sound(lex) && parts != []
    ensures Blocks(lex, Join(parts)) <==> AnyBlocks(lex, parts)
  {
    if |parts| > 1 {
      BlocksJoin(lex, parts[1..]);
      BlocksEither(lex, parts[0], Join(parts[1..]));
      if AnyBlocks(lex, parts) {
        var i :| 0 <= i < |parts| && Blocks(lex, parts[i]);
        if i > 0 { assert parts[1..][i - 1] == parts[i]; }
      }
      if AnyBlocks(lex, parts[1..]) {
        var i :| 0 <= i < |parts[1..]| && Blocks(lex, parts[1..][i]);
        assert parts[i + 1] == parts[1..][i];
      }
    }
  }

  /** Some segment in scope blocks: the clause itself, a dangling earlier one, or any earlier one
      when the clause has no subject of its own. */
  ghost predicate ScopeBlocks(lex: Lexis, segments: seq<string>)
    requires segments != []
  {
    exists i :: 0 <= i < |segments| && Blocks(lex, segments[i]) && InScope(lex, segments, i)
  }

  predicate InScope(lex: Lexis, segments: seq<string>, i: nat)
    requires i < |segments|
  {
    i == |segments| - 1 || LacksSubject(lex, segments[|segments| - 1]) || Dangles(lex, segments[i])
  }

  lemma {:induction false} KeepDanglingBlocks(lex: Lexis, segments: seq<string>)
    ensures AnyBlocks(lex, KeepDangling(lex, segments)) <==>
      exists i :: 0 <= i < |segments| && Blocks(lex, segments[i]) && Dangles(lex, segments[i])
  {
    if segments != [] {
      var rest := segments[1..];
      var kept, keptRest := KeepDangling(lex, segments), KeepDangling(lex, rest);
      KeepDanglingBlocks(lex, rest);
      if AnyBlocks(lex, kept) {
        var i :| 0 <= i < |kept| && Blocks(lex, kept[i]);
        if Dangles(lex, segments[0]) {
          if i > 0 { assert kept[i] == keptRest[i - 1]; }
        } else {
          assert kept == keptRest;
        }
      }
      if i :| 0 <= i < |segments| && Blocks(lex, segments[i]) && Dangles(lex, segments[i]) {
        if i == 0 {
          assert kept[0] == segments[0];
        } else {
          assert rest[i - 1] == segments[i];
          var j :| 0 <= j < |keptRest| && Blocks(lex, keptRest[j]);
          assert kept[if Dangles(lex, segments[0]) then j + 1 else j] == keptRest[j];
        }
      }
    }
  }

  /** What the clause does and what the kept segments in front of it do. */
  lemma ScopeBlocksEither(lex: Lexis, front: seq<string>, clause: string)
    ensures AnyBlocks(lex, front + [clause]) <==> AnyBlocks(lex, front) || Blocks(lex, clause)
  {
    var scope := front + [clause];
    if AnyBlocks(lex, front) {
      var i :| 0 <= i < |front| && Blocks(lex, front[i]);
      assert scope[i] == front[i];
    }
    if Blocks(lex, clause) { assert scope[|front|] == clause; }
  }

  /** The window blocks exactly when a segment in scope does. */
  lemma WindowBlocks(lex: Lexis, segments: seq<string>)
    requires Sound(lex) && segments != []
    ensures Blocks(lex, Join(ScopeOf(lex, segments))) <==> ScopeBlocks(lex, segments)
  {
    var last := |segments| - 1;
    var earlier, clause := segments[..last], segments[last];
    var scope := ScopeOf(lex, segments);
    var front := scope[..|scope| - 1];
    BlocksJoin(lex, scope);
    KeepDanglingBlocks(lex, earlier);
    assert scope == front + [clause];
    ScopeBlocksEither(lex, front, clause);
    if AnyBlocks(lex, front) {
      if LacksSubject(lex, clause) {
        var i :| 0 <= i < |front| && Blocks(lex, front[i]);
        assert segments[i] == front[i];
      } else {
        var i :| 0 <= i < |earlier| && Blocks(lex, earlier[i]) && Dangles(lex, earlier[i]);
        assert segments[i] == earlier[i];
      }
    }
    if i :| 0 <= i < last && Blocks(lex, segments[i]) && InScope(lex, segments, i) {
      assert earlier[i] == segments[i];
    }
  }
}
