/** The mutation-claim guard of pipeline/nodes/llm.py and its meeting with the policy prefixes of
    pipeline/nodes/policy.py: what is spoken never asserts a mutation nobody executed. */
module ClaimGuard {
  import opened ClaimText
  import opened ClaimScope
  import opened ClaimWords

  datatype Intent = AddTask | RescheduleTask | SnoozeReminder | DismissReminder | OtherIntent

  function VerbsOf(intent: Intent): seq<string> {
    match intent
    case AddTask => ["added", "created", "saved", "scheduled", "logged"]
    case RescheduleTask => ["rescheduled", "moved", "shifted", "updated", "changed"]
    case SnoozeReminder => ["snoozed", "postponed", "delayed", "deferred", "pushed"]
    case DismissReminder => ["dismissed", "cleared", "cancelled", "canceled", "removed", "deleted", "closed"]
    case OtherIntent => []
  }

  const DENIAL := "I have not "

  /** `_SAFE_REPLIES`: the verb denied, its object, and the offer. */
  function SafeVerb(intent: Intent): string {
    match intent
    case AddTask => "added"
    case RescheduleTask => "moved"
    case SnoozeReminder => "snoozed"
    case _ => "dismissed"
  }

  function SafeObject(intent: Intent): string {
    match intent
    case AddTask => " that"
    case RescheduleTask => " anything"
    case _ => " that reminder"
  }

  function SafeOffer(intent: Intent): string {
    match intent
    case AddTask => " add it to your list"
    case RescheduleTask => " request that new time"
    case SnoozeReminder => " snooze it"
    case _ => " dismiss it"
  }

  const BUT_I_CAN := " yet, but I can"

  const IF_YOU_LIKE := " if you would like"

  function SafeRest(intent: Intent): string {
    SafeObject(intent) + BUT_I_CAN + SafeOffer(intent) + IF_YOU_LIKE
  }

  function SafeReply(intent: Intent): string {
    DENIAL + SafeVerb(intent) + SafeRest(intent) + "."
  }

  /** The clarification reply of pipeline/nodes/intent.py, which never passes the guard. */
  const CLARIFICATION :=
    "I'm not confident" + (" I understood that" + (". Could you" + (" please say it" + " another way?")))

  /** What the guard takes as given: case folding and `\w`, and the larger patterns of the claim
      rules, each as a predicate on a whole sentence. */
  datatype Patterns = Patterns(
    word: char -> bool,
    fold: char -> string,
    interrogative: string -> bool,
    distancing: string -> bool,
    completion: string -> bool,
    shape: (Intent, string) -> bool)
  {
    function Lex(): Lexis { English(word) }
  }

  predicate IsAscii(c: char) { c as int < 128 }

  function Lower(c: char): char {
    if 'A' <= c <= 'Z' then (c as int + 32) as char else c
  }

  predicate AsciiWord(c: char) {
    IsLower(c) || 'A' <= c <= 'Z' || IsDigit(c) || c == '_'
  }

  /** `casefold` and `\w` behave on ASCII as they do in Python; folding never turns anything else
      into whitespace, and whitespace is never part of a word. */
  ghost predicate Faithful(pt: Patterns) {
    && (forall c :: IsAscii(c) ==> pt.fold(c) == [Lower(c)])
    && (forall c :: pt.fold(c) != [])
    && (forall c, i :: !IsAscii(c) && !IsSpace(c) && 0 <= i < |pt.fold(c)| ==> !IsSpace(pt.fold(c)[i]))
    && (forall c :: IsAscii(c) ==> (pt.word(c) <==> AsciiWord(c)))
    && (forall c :: IsSpace(c) ==> !pt.word(c))
  }

  // ----- normalisation -----

  const FOLDS: seq<(char, string)> := [
    ('\U{2019}', "'"), ('\U{2018}', "'"), ('\U{2014}', " - "), ('\U{2013}', " - ")]

  /** `str.replace` of one character. */
  function Replace(s: string, c: char, replacement: string): string {
    if s == [] then [] else (if s[0] == c then replacement else [s[0]]) + Replace(s[1..], c, replacement)
  }

  function ReplaceAll(s: string, folds: seq<(char, string)>): string
    decreases |folds|
  {
    if folds == [] then s else ReplaceAll(Replace(s, folds[0].0, folds[0].1), folds[1..])
  }

  function Casefold(fold: char -> string, s: string): string {
    if s == [] then [] else fold(s[0]) + Casefold(fold, s[1..])
  }

  function Normalise(pt: Patterns, s: string): string {
    Casefold(pt.fold, ReplaceAll(s, FOLDS))
  }

  // ----- the guard -----

  /** `\b(?:...)\b` over a list of verb forms matches at `i`. */
  predicate FormAt(word: char -> bool, forms: seq<string>, s: string, i: nat) {
    exists v :: v in forms && LiteralAt(word, s, i, Literal(v, true))
  }

  predicate VerbAt(pt: Patterns, intent: Intent, s: string, i: nat) {
    FormAt(pt.word, VerbsOf(intent), s, i)
  }

  predicate StandingVerbAt(pt: Patterns, intent: Intent, s: string, i: nat) {
    i <= |s| && VerbAt(pt, intent, s, i) && LeavesClaimStanding(pt.Lex(), s[..i])
  }

  predicate HasVerb(pt: Patterns, intent: Intent, s: string) {
    exists i :: 0 <= i <= |s| && VerbAt(pt, intent, s, i)
  }

  predicate HasStandingVerb(pt: Patterns, intent: Intent, s: string) {
    exists i :: 0 <= i <= |s| && StandingVerbAt(pt, intent, s, i)
  }

  /** `_claims_completed_mutation`. */
  predicate ClaimsCompletedMutation(pt: Patterns, intent: Intent, sentence: string) {
    if !HasVerb(pt, intent, sentence) then false
    else if (sentence != [] && sentence[|sentence| - 1] == '?') || pt.interrogative(sentence) then false
    else if pt.distancing(sentence) then false
    else if !HasStandingVerb(pt, intent, sentence) then false
    else pt.completion(sentence) || pt.shape(intent, sentence)
  }

  predicate ClaimIn(pt: Patterns, intent: Intent, piece: string) {
    Strip(piece) != [] && ClaimsCompletedMutation(pt, intent, Strip(piece))
  }

  predicate AnyOf(pieces: seq<string>, test: string -> bool) {
    exists k :: 0 <= k < |pieces| && test(pieces[k])
  }

  function ClaimTest(pt: Patterns, intent: Intent): string -> bool {
    piece => ClaimIn(pt, intent, piece)
  }

  /** Some sentence of the text claims a completed mutation of the intent. */
  predicate ClaimsMutation(pt: Patterns, intent: Intent, text: string) {
    AnyOf(Split(Sentences, Normalise(pt, text)), ClaimTest(pt, intent))
  }

  function Guarded(pt: Patterns, intent: Intent, text: string): string {
    if intent != OtherIntent && ClaimsMutation(pt, intent, text) then SafeReply(intent) else text
  }

  /** The loop over the typographic folds. */
  method FoldPunctuation(text: string, folds: seq<(char, string)>) returns (normalized: string)
    ensures normalized == ReplaceAll(text, folds)
  {
    normalized := text;
    var i := 0;
    while i < |folds|
      invariant 0 <= i <= |folds|
      invariant ReplaceAll(text, folds) == ReplaceAll(normalized, folds[i..])
    {
      assert folds[i..][1..] == folds[i + 1..];
      normalized := Replace(normalized, folds[i].0, folds[i].1);
      i := i + 1;
    }
  }

  /** `_reject_unexecuted_mutation_claim`. */
  method RejectUnexecutedMutationClaim(pt: Patterns, intent: Intent, text: string) returns (r: string)
    ensures r == Guarded(pt, intent, text)
  {
    if intent == OtherIntent {
      return text;
    }
    var folded := FoldPunctuation(text, FOLDS);
    var pieces := Split(Sentences, Casefold(pt.fold, folded));
    var claimed := FirstOf(pieces, ClaimTest(pt, intent));
    assert claimed == ClaimsMutation(pt, intent, text);
    if claimed {
      return SafeReply(intent);
    }
    r := text;
  }

  /** The loop over the sentences, up to the first that passes the test. */
  method FirstOf(pieces: seq<string>, test: string -> bool) returns (found: bool)
    ensures found == AnyOf(pieces, test)
  {
    var k := 0;
    while k < |pieces|
      invariant 0 <= k <= |pieces|
      invariant forall j :: 0 <= j < k ==> !test(pieces[j])
    {
      if test(pieces[k]) {
        return true;
      }
      k := k + 1;
    }
    found := false;
  }
}
