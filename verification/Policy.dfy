/** The affect-to-action policy (pipeline/nodes/policy.py). */
module Policy {
  import opened Prelude

  datatype AffectLevel = Low | Moderate | High

  datatype Proximity = Imminent | NotImminent | NoDeadline

  datatype PolicyRule = R1 | R2 | R3 | R4 | R5 | NoRule

  datatype ActionTaken = Deliver | Defer | Soften | BreakPrompt | Suppress

  datatype ReminderOutcome = PendingReminder | NoReminder

  /** `validate_policy_domain`: a rule goes with a deadline and no rule with none. */
  predicate InPolicyDomain(rule: PolicyRule, proximity: Proximity) {
    rule == NoRule <==> proximity == NoDeadline
  }

  /** `apply_policy` on levels and proximities it accepts. */
  function RuleFor(affect: AffectLevel, proximity: Proximity): PolicyRule {
    if proximity == NoDeadline then NoRule
    else match affect
         case Low => R1
         case Moderate => if proximity == Imminent then R3 else R2
         case High => if proximity == Imminent then R5 else R4
  }

  function ActionFor(rule: PolicyRule): ActionTaken {
    match rule
    case R2 => Defer
    case R3 => Soften
    case R4 => BreakPrompt
    case _ => Deliver
  }

  /** The words of the sentence a rule puts in front of the draft. */
  function PrefixWords(rule: PolicyRule): string {
    match rule
    case R2 => "I\U{2019}ll give you" + " a little more time"
    case R3 => "This is" + " time-sensitive"
    case R4 => "Let\U{2019}s take" + " this gently"
    case R5 => "Let\U{2019}s focus on the most" + " important item first"
    case _ => ""
  }

  /** The text that is spoken. */
  function FinalResponse(rule: PolicyRule, draft: string): string {
    if PrefixWords(rule) == "" then draft else PrefixWords(rule) + "." + " " + draft
  }

  function ClampLeadTime(minutes: real, lo: real, hi: real): real {
    var raised := if minutes < lo then lo else minutes;
    if hi < raised then hi else raised
  }

  /** The policy, spelled out: rule and action by affect level and deadline. */
  predicate IsPolicy(affect: AffectLevel, near: Proximity, rule: PolicyRule, action: ActionTaken) {
    match (affect, near)
    case (_, NoDeadline) => rule == NoRule && action == Deliver
    case (Low, _) => rule == R1 && action == Deliver
    case (Moderate, NotImminent) => rule == R2 && action == Defer
    case (Moderate, Imminent) => rule == R3 && action == Soften
    case (High, NotImminent) => rule == R4 && action == BreakPrompt
    case (High, Imminent) => rule == R5 && action == Deliver
  }

  function Distance(a: real, b: real): real { if a < b then b - a else a - b }

  /** Clamping picks the point of the range nearest to the stored lead time. */
  lemma ClampIsNearest(minutes: real, lo: real, hi: real, other: real)
    requires lo <= other <= hi
    ensures var r := ClampLeadTime(minutes, lo, hi);
      lo <= r <= hi && Distance(minutes, r) <= Distance(minutes, other)
  {
  }
}
