/** Text machinery of the mutation-claim guard (pipeline/nodes/llm.py): whitespace, the sentence
    and clause splitters, and word matching, as its regular expressions define them. */
module ClaimText {

  /** The characters `str.strip` removes and `\s` matches. */
  predicate IsSpace(c: char) {
    var n := c as int;
    9 <= n <= 13 || 28 <= n <= 32 || n == 0x85 || n == 0xA0 || n == 0x1680 || 0x2000 <= n <= 0x200A
    || n == 0x2028 || n == 0x2029 || n == 0x202F || n == 0x205F || n == 0x3000
  }

  predicate IsLower(c: char) { 'a' <= c <= 'z' }

  predicate IsDigit(c: char) { '0' <= c <= '9' }

  // ----- strip -----

  function StripLeft(s: string): string {
    if s != [] && IsSpace(s[0]) then StripLeft(s[1..]) else s
  }

  function StripRight(s: string): string {
    if s != [] && IsSpace(s[|s| - 1]) then StripRight(s[..|s| - 1]) else s
  }

  function Strip(s: string): string { StripRight(StripLeft(s)) }

  predicate AllSpace(s: string) {
    forall i :: 0 <= i < |s| ==> IsSpace(s[i])
  }

  predicate Stripped(s: string) {
    s != [] ==> !IsSpace(s[0]) && !IsSpace(s[|s| - 1])
  }

  lemma {:induction false} StripLeftSkips(w: string, s: string)
    requires AllSpace(w)
    ensures StripLeft(w + s) == StripLeft(s)
  {
    if w == [] {
      assert w + s == s;
    } else {
      assert (w + s)[0] == w[0] && (w + s)[1..] == w[1..] + s;
      StripLeftSkips(w[1..], s);
    }
  }

  lemma {:induction false} StripRightKeepsHead(s: string)
    ensures StripRight(s) != [] ==> |s| > 0 && StripRight(s)[0] == s[0]
    ensures StripRight(s) != [] ==> !IsSpace(StripRight(s)[|StripRight(s)| - 1])
    ensures s != [] && !IsSpace(s[0]) ==> StripRight(s) != []
  {
    if s != [] && IsSpace(s[|s| - 1]) { StripRightKeepsHead(s[..|s| - 1]); }
  }

  lemma {:induction false} StripLeftHead(s: string)
    ensures StripLeft(s) != [] ==> !IsSpace(StripLeft(s)[0])
  {
    if s != [] && IsSpace(s[0]) { StripLeftHead(s[1..]); }
  }

  lemma StripIsStripped(s: string)
    ensures Stripped(Strip(s))
  {
    StripLeftHead(s);
    StripRightKeepsHead(StripLeft(s));
  }

  /** Stripping takes white space off both ends, and nothing else. */
  lemma StripTakesSpace(s: string) returns (a: string, b: string)
    ensures s == a + Strip(s) + b && AllSpace(a) && AllSpace(b) && Stripped(Strip(s))
  {
    StripIsStripped(s);
    a := LeadingSpace(s);
    b := TrailingSpace(StripLeft(s));
  }

  lemma {:induction false} LeadingSpace(s: string) returns (a: string)
    ensures s == a + StripLeft(s) && AllSpace(a)
  {
    a := [];
    if s != [] && IsSpace(s[0]) {
      a := LeadingSpace(s[1..]);
      assert s == [s[0]] + s[1..];
      a := [s[0]] + a;
    }
  }

  lemma {:induction false} TrailingSpace(s: string) returns (b: string)
    ensures s == StripRight(s) + b && AllSpace(b)
  {
    b := [];
    if s != [] && IsSpace(s[|s| - 1]) {
      b := TrailingSpace(s[..|s| - 1]);
      assert s == s[..|s| - 1] + [s[|s| - 1]];
      b := b + [s[|s| - 1]];
    }
  }

  // ----- splitting -----

  datatype Splitter = Sentences | Clauses

  predicate EndsSentence(c: char) { c == '.' || c == '!' || c == '?' || c == ';' }

  predicate IsNewline(c: char) { c == '\r' || c == '\n' }

  predicate IsClausePunctuation(c: char) { c == ',' || c == ';' || c == ':' }

  function SpaceRun(s: string, i: nat): (n: nat)
    ensures i + n <= |s| || n == 0
    ensures forall j :: i <= j < i + n ==> IsSpace(s[j])
    decreases |s| - i
  {
    if i < |s| && IsSpace(s[i]) then 1 + SpaceRun(s, i + 1) else 0
  }

  function NewlineRun(s: string, i: nat): (n: nat)
    ensures i + n <= |s| || n == 0
    decreases |s| - i
  {
    if i < |s| && IsNewline(s[i]) then 1 + NewlineRun(s, i + 1) else 0
  }

  function DashRun(s: string, i: nat): (n: nat)
    ensures i + n <= |s| || n == 0
    ensures forall j :: i <= j < i + n ==> s[j] == '-'
    decreases |s| - i
  {
    if i < |s| && s[i] == '-' then 1 + DashRun(s, i + 1) else 0
  }

  /** Length of the separator matched at `i`, 0 if none: `(?<=[.!?;])\s+|[\r\n]+` between
      sentences, `[,;:]|\s-+\s` between clauses. */
  function BreakLen(kind: Splitter, s: string, i: nat): (n: nat)
    requires i < |s|
    ensures i + n <= |s|
  {
    match kind
    case Sentences =>
      if i > 0 && EndsSentence(s[i - 1]) && IsSpace(s[i]) then SpaceRun(s, i) else NewlineRun(s, i)
    case Clauses =>
      if IsClausePunctuation(s[i]) then 1
      else
        var d := DashRun(s, i + 1);
        if IsSpace(s[i]) && d > 0 && i + 1 + d < |s| && IsSpace(s[i + 1 + d]) then d + 2 else 0
  }

  /** The separator length at every position of a text. */
  type Breaks = seq<nat>

  predicate Fits(s: string, breaks: Breaks) {
    |breaks| == |s| && forall i :: 0 <= i < |s| ==> i + breaks[i] <= |s|
  }

  function BreaksOf(kind: Splitter, s: string): (breaks: Breaks)
    ensures Fits(s, breaks)
    ensures forall i :: 0 <= i < |s| ==> breaks[i] == BreakLen(kind, s, i)
  {
    seq(|s|, i requires 0 <= i < |s| => BreakLen(kind, s, i))
  }

  /** `re.split`: the pieces from `start` on, once scanning has reached `i`. */
  function Pieces(s: string, breaks: Breaks, i: nat, start: nat): (r: seq<string>)
    requires Fits(s, breaks) && start <= i <= |s|
    ensures r != []
    decreases |s| - i
  {
    if i == |s| then [s[start..]]
    else if breaks[i] > 0 then [s[start..i]] + Pieces(s, breaks, i + breaks[i], i + breaks[i])
    else Pieces(s, breaks, i + 1, start)
  }

  function Split(kind: Splitter, s: string): (r: seq<string>)
    ensures r != []
  {
    Pieces(s, BreaksOf(kind, s), 0, 0)
  }

  // ----- facts about the splitters -----

  lemma {:induction false} RunsShift(a: string, b: string, i: nat)
    requires i <= |b|
    ensures SpaceRun(a + b, |a| + i) == SpaceRun(b, i)
    ensures NewlineRun(a + b, |a| + i) == NewlineRun(b, i)
    ensures DashRun(a + b, |a| + i) == DashRun(b, i)
    decreases |b| - i
  {
    if i < |b| {
      assert (a + b)[|a| + i] == b[i];
      RunsShift(a, b, i + 1);
    }
  }

  /** Text in front does not matter to a separator, except that a sentence may end just before it. */
  lemma BreakShift(kind: Splitter, a: string, b: string, i: nat)
    requires i < |b|
    requires kind == Clauses || i > 0 || a == [] || !EndsSentence(a[|a| - 1])
    ensures BreakLen(kind, a + b, |a| + i) == BreakLen(kind, b, i)
  {
    if kind == Clauses {
      ClauseBreakShift(a, b, i);
    } else {
      RunsShift(a, b, i);
      assert (a + b)[|a| + i] == b[i];
      if i > 0 { assert (a + b)[|a| + i - 1] == b[i - 1]; }
    }
  }

  lemma ClauseBreakShift(a: string, b: string, i: nat)
    requires i < |b|
    ensures BreakLen(Clauses, a + b, |a| + i) == BreakLen(Clauses, b, i)
  {
    assert (a + b)[|a| + i] == b[i];
    RunsShift(a, b, i + 1);
    var d := DashRun(b, i + 1);
    assert |a| + i + 1 == |a| + (i + 1);
    if i + 1 + d < |b| { assert (a + b)[|a| + (i + 1 + d)] == b[i + 1 + d]; }
  }

  /** Equal separators in equal text give equal pieces. */
  lemma {:induction false} SamePieces(s: string, breaks: Breaks, o: nat, b: string, breaks': Breaks, i: nat, start: nat)
    requires Fits(s, breaks) && Fits(b, breaks') && start <= i <= |b|
    requires |s| == o + |b| && s[o..] == b
    requires forall k :: o + i <= k < |s| ==> breaks[k] == breaks'[k - o]
    ensures Pieces(s, breaks, o + i, o + start) == Pieces(b, breaks', i, start)
    decreases |b| - i
  {
    if i == |b| {
      assert s[o + start..] == b[start..];
    } else if breaks'[i] > 0 {
      SamePieces(s, breaks, o, b, breaks', i + breaks'[i], i + breaks'[i]);
      assert s[o + start..o + i] == b[start..i];
    } else {
      SamePieces(s, breaks, o, b, breaks', i + 1, start);
    }
  }

  /** Moving the start back only lengthens the first piece. */
  lemma {:induction false} PiecesFromEarlier(s: string, breaks: Breaks, i: nat, start: nat, start': nat)
    requires Fits(s, breaks) && start <= start' <= i <= |s|
    ensures var p, p' := Pieces(s, breaks, i, start), Pieces(s, breaks, i, start');
      p == [s[start..start'] + p'[0]] + p'[1..]
    decreases |s| - i
  {
    if i == |s| {
      assert s[start..] == s[start..start'] + s[start'..];
    } else if breaks[i] > 0 {
      assert s[start..i] == s[start..start'] + s[start'..i];
    } else {
      PiecesFromEarlier(s, breaks, i + 1, start, start');
    }
  }

  /** Where nothing matches, the scan just moves on. */
  lemma {:induction false} PiecesSkip(s: string, breaks: Breaks, i: nat, j: nat, start: nat)
    requires Fits(s, breaks) && start <= i <= j <= |s|
    requires forall k :: i <= k < j ==> breaks[k] == 0
    ensures Pieces(s, breaks, i, start) == Pieces(s, breaks, j, start)
    decreases j - i
  {
    if i < j { PiecesSkip(s, breaks, i + 1, j, start); }
  }

  // ----- words -----

  /** `\b`, for a given `\w`. */
  predicate Boundary(word: char -> bool, s: string, i: nat)
    requires i <= |s|
  {
    (i > 0 && word(s[i - 1])) != (i < |s| && word(s[i]))
  }

  predicate TextAt(s: string, i: nat, w: string) {
    i + |w| <= |s| && s[i..i + |w|] == w
  }

  /** A literal of an alternation, with or without `\b` in front. */
  datatype Literal = Literal(text: string, bound: bool)

  /** `\b(?:...)\b`, or `...\b` for an unbound literal, matches at `i`. */
  predicate LiteralAt(word: char -> bool, s: string, i: nat, p: Literal) {
    TextAt(s, i, p.text) && (p.bound ==> Boundary(word, s, i)) && Boundary(word, s, i + |p.text|)
  }

  /** `_WORD.findall`: the maximal runs of `[a-z']`. */
  function Words(s: string): seq<string> {
    WordsFrom(s, 0, 0)
  }

  predicate InWord(c: char) { IsLower(c) || c == '\'' }

  function WordsFrom(s: string, i: nat, start: nat): seq<string>
    requires start <= i <= |s|
    decreases |s| - i
  {
    if i == |s| then (if start < i then [s[start..i]] else [])
    else if InWord(s[i]) then WordsFrom(s, i + 1, start)
    else (if start < i then [s[start..i]] else []) + WordsFrom(s, i + 1, i + 1)
  }
}
