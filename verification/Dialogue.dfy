/** The dialogue graph (pipeline/graph.py and pipeline/nodes): nodes as functions from the shared state
    to an update, with the affect branch running beside the dialogue branch. */
module Dialogue {
  import opened Prelude
  import opened Session
  import opened Policy
  import opened ClaimText
  import opened ClaimGuard
  import opened ClaimSafety

  datatype Result<+T> = Ok(value: T) | Raised(failure: Failure)

  datatype Stage = SttStage | IntentStage | ContextStage | LlmStage | AffectStage | PolicyStage | OutputStage

  datatype Request = Request(session: string, user: string, audio: seq<real>, rate: nat)

  /** The keys nodes write; `None` where a key is absent. */
  datatype Keys = Keys(
    transcript: Option<string>, intent: Option<Intent>, confidence: Option<real>, contextIds: Option<seq<string>>,
    proximity: Option<Proximity>, draft: Option<string>, clarify: Option<bool>, finalResponse: Option<string>,
    affect: Option<AffectLevel>, degraded: Option<bool>, rule: Option<PolicyRule>, action: Option<ActionTaken>,
    leadTime: Option<real>, outcome: Option<ReminderOutcome>, timings: map<Stage, real>)

  const NOTHING := Keys(None, None, None, None, None, None, None, None, None, None, None, None, None, None, map[])

  function Later<T>(old_: Option<T>, new_: Option<T>): Option<T> {
    if new_.Some? then new_ else old_
  }

  /** Last write wins, except that timings are merged (`merge_stage_timings`). */
  function Merge(a: Keys, b: Keys): Keys {
    Keys(
      Later(a.transcript, b.transcript), Later(a.intent, b.intent), Later(a.confidence, b.confidence),
      Later(a.contextIds, b.contextIds), Later(a.proximity, b.proximity), Later(a.draft, b.draft),
      Later(a.clarify, b.clarify), Later(a.finalResponse, b.finalResponse), Later(a.affect, b.affect),
      Later(a.degraded, b.degraded), Later(a.rule, b.rule), Later(a.action, b.action),
      Later(a.leadTime, b.leadTime), Later(a.outcome, b.outcome), a.timings + b.timings)
  }

  /** Everything outside the graph: adapters and store, each of which may raise, configuration, and
      how long each stage takes. */
  datatype Services = Services(
    pt: Patterns,
    transcribe: (seq<real>, nat) -> Result<string>,
    classify: string -> Result<(Intent, real)>,
    retrieve: string -> Result<(seq<string>, bool)>,
    generate: (string, Intent, seq<string>) -> Result<string>,
    detect: (seq<real>, nat) -> Result<AffectLevel>,
    storedLeadTime: string -> Result<real>,
    took: Stage -> real,
    threshold: real, fallback: AffectLevel, leadMin: real, leadMax: real)

  // ----- the nodes -----

  function Timed(sv: Services, stage: Stage, r: Result<Keys>): Result<Keys> {
    match r
    case Ok(update) => Ok(update.(timings := map[stage := sv.took(stage)]))
    case Raised(f) => Raised(f)
  }

  function SttNode(sv: Services, rq: Request, keys: Keys): Result<Keys> {
    match sv.transcribe(rq.audio, rq.rate)
    case Raised(f) => Raised(f)
    case Ok(text) => if Strip(text) == "" then Raised(ValueFault) else Ok(NOTHING.(transcript := Some(Strip(text))))
  }

  function IntentNode(sv: Services, rq: Request, keys: Keys): Result<Keys> {
    if keys.transcript.None? then Raised(RuntimeFault)
    else
      match sv.classify(keys.transcript.value)
      case Raised(f) => Raised(f)
      case Ok((intent, confidence)) =>
        var update := NOTHING.(intent := Some(intent), confidence := Some(confidence));
        Ok(if confidence < sv.threshold
           then update.(finalResponse := Some(CLARIFICATION), clarify := Some(true)) else update)
  }

  function ContextNode(sv: Services, rq: Request, keys: Keys): Result<Keys> {
    if keys.clarify == Some(true) then Ok(NOTHING.(contextIds := Some([]), proximity := Some(NoDeadline)))
    else
      match sv.retrieve(rq.user)
      case Raised(f) => Raised(f)
      case Ok((ids, imminent)) =>
        Ok(NOTHING.(contextIds := Some(ids), proximity := Some(if imminent then Imminent else NotImminent)))
  }

  function LlmNode(sv: Services, rq: Request, keys: Keys): Result<Keys> {
    if keys.clarify == Some(true) then
      if keys.finalResponse.None? then Raised(RuntimeFault)
      else Ok(NOTHING.(draft := keys.finalResponse, clarify := Some(true)))
    else if keys.intent.None? || keys.confidence.None? || keys.transcript.None? then Raised(RuntimeFault)
    else
      var ids := if keys.contextIds.Some? then keys.contextIds.value else [];
      match sv.generate(keys.transcript.value, keys.intent.value, ids)
      case Raised(f) => Raised(f)
      case Ok(raw) =>
        if Strip(raw) == "" then Raised(ValueFault)
        else Ok(NOTHING.(draft := Some(Guarded(sv.pt, keys.intent.value, Strip(raw)))))
  }

  /** Whatever the detector does, the node writes a level. */
  function AffectNode(sv: Services, rq: Request, keys: Keys): Result<Keys> {
    match sv.detect(rq.audio, rq.rate)
    case Ok(level) => Ok(NOTHING.(affect := Some(level), degraded := Some(false)))
    case Raised(_) => Ok(NOTHING.(affect := Some(sv.fallback), degraded := Some(true)))
  }

  predicate Governed(intent: Intent) { intent == DismissReminder || intent == SnoozeReminder }

  function PolicyNode(sv: Services, rq: Request, keys: Keys): Result<Keys> {
    if keys.intent.None? || keys.affect.None? then Raised(RuntimeFault)
    else
      var governed := Governed(keys.intent.value);
      var near := if governed && keys.proximity.Some? then keys.proximity.value else NoDeadline;
      var rule := if governed then RuleFor(keys.affect.value, near) else NoRule;
      var text := if keys.draft.Some? then keys.draft.value
                  else if keys.finalResponse.Some? then keys.finalResponse.value else "";
      if Strip(text) == "" then Raised(RuntimeFault)
      else if rule == R5 && rq.user == "" then Raised(ValueFault) // the suppression refuses it
      else
        match sv.storedLeadTime(rq.user)
        case Raised(f) => Raised(f)
        case Ok(minutes) =>
          Ok(NOTHING.(
            finalResponse := Some(FinalResponse(rule, Strip(text))), proximity := Some(near), rule := Some(rule),
            action := Some(ActionFor(rule)), leadTime := Some(ClampLeadTime(minutes, sv.leadMin, sv.leadMax)),
            outcome := Some(if governed then PendingReminder else NoReminder)))
  }

  // ----- two branches and their join -----

  const CHAIN := 4

  /** The dialogue branch: transcription, intent, context, reasoning. */
  function ChainNode(sv: Services, rq: Request, k: nat, keys: Keys): Result<Keys>
    requires k < CHAIN
  {
    if k == 0 then Timed(sv, SttStage, SttNode(sv, rq, keys))
    else if k == 1 then Timed(sv, IntentStage, IntentNode(sv, rq, keys))
    else if k == 2 then Timed(sv, ContextStage, ContextNode(sv, rq, keys))
    else Timed(sv, LlmStage, LlmNode(sv, rq, keys))
  }

  function AffectUpdate(sv: Services, rq: Request): Keys {
    Timed(sv, AffectStage, AffectNode(sv, rq, NOTHING)).value
  }

  function After(keys: Keys, r: Result<Keys>): Result<Keys> {
    match r
    case Ok(update) => Ok(Merge(keys, update))
    case Raised(f) => Raised(f)
  }

  /** The first `k` nodes of the dialogue branch, alone. */
  function ChainAlone(sv: Services, rq: Request, k: nat): Result<Keys>
    requires k <= CHAIN
  {
    if k == 0 then Ok(NOTHING)
    else
      match ChainAlone(sv, rq, k - 1)
      case Ok(keys) => After(keys, ChainNode(sv, rq, k - 1, keys))
      case Raised(f) => Raised(f)
  }

  /** What reaches the policy node: the dialogue branch to its end, then the affect branch. */
  function Join(sv: Services, rq: Request): Result<Keys> {
    match ChainAlone(sv, rq, CHAIN)
    case Ok(keys) => Ok(Merge(keys, AffectUpdate(sv, rq)))
    case Raised(f) => Raised(f)
  }

  datatype ChainPc = At(k: nat) | Within(k: nat, update: Keys)

  datatype AffectPc = Idle | Running(update: Keys) | Done

  /** A run of the two branches in progress; a raising node ends it. */
  datatype Progress = Progress(keys: Keys, chain: ChainPc, affect: AffectPc, failure: Option<Failure>)

  /** A node reads the state when it begins; its update lands when it ends. */
  datatype Event = BeginChain | EndChain | BeginAffect | EndAffect

  predicate Enabled(p: Progress, e: Event) {
    && p.failure.None?
    && match e
       case BeginChain => p.chain.At? && p.chain.k < CHAIN
       case EndChain => p.chain.Within?
       case BeginAffect => p.affect.Idle?
       case EndAffect => p.affect.Running?
  }

  function Advance(sv: Services, rq: Request, p: Progress, e: Event): Progress
    requires Enabled(p, e)
  {
    match e
    case BeginChain =>
      (match ChainNode(sv, rq, p.chain.k, p.keys)
       case Ok(update) => p.(chain := Within(p.chain.k, update))
       case Raised(f) => p.(failure := Some(f)))
    case EndChain => p.(keys := Merge(p.keys, p.chain.update), chain := At(p.chain.k + 1))
    case BeginAffect =>
      (match Timed(sv, AffectStage, AffectNode(sv, rq, p.keys))
       case Ok(update) => p.(affect := Running(update))
       case Raised(f) => p.(failure := Some(f)))
    case EndAffect => p.(keys := Merge(p.keys, p.affect.update), affect := Done)
  }

  const START := Progress(NOTHING, At(0), Idle, None)

  /** `p` can be reached from the start by the schedule. */
  ghost predicate Reaches(sv: Services, rq: Request, schedule: seq<Event>, p: Progress) {
    if schedule == [] then p == START
    else
      var n := |schedule| - 1;
      exists q :: Reaches(sv, rq, schedule[..n], q) && Enabled(q, schedule[n]) && p == Advance(sv, rq, q, schedule[n])
  }

  predicate Finished(p: Progress) {
    p.failure.Some? || (p.affect == Done && p.chain == At(CHAIN))
  }

  /** The state without the keys of the affect branch. */
  function ChainView(keys: Keys): Keys {
    keys.(affect := None, degraded := None, timings := map[])
  }

  lemma ChainIgnoresAffect(sv: Services, rq: Request, k: nat, a: Keys, b: Keys)
    requires k < CHAIN && ChainView(a) == ChainView(b)
    ensures ChainNode(sv, rq, k, a) == ChainNode(sv, rq, k, b)
  {
  }

  predicate ChainOwns(update: Keys) {
    update.affect.None? && update.degraded.None? && AffectStage !in update.timings
  }

  lemma ChainWritesItsOwn(sv: Services, rq: Request, k: nat, keys: Keys)
    requires k < CHAIN && ChainNode(sv, rq, k, keys).Ok?
    ensures ChainOwns(ChainNode(sv, rq, k, keys).value)
  {
  }

  lemma MergeAnyOrder(sv: Services, rq: Request, keys: Keys, update: Keys)
    requires ChainOwns(update)
    ensures var a := AffectUpdate(sv, rq);
      Merge(Merge(keys, a), update) == Merge(Merge(keys, update), a)
  {
    var a := AffectUpdate(sv, rq);
    assert keys.timings + a.timings + update.timings == keys.timings + update.timings + a.timings;
  }

  ghost predicate OnTrack(sv: Services, rq: Request, p: Progress) {
    match p.failure
    case Some(f) => ChainAlone(sv, rq, CHAIN) == Raised(f)
    case None =>
      && p.chain.k <= CHAIN && (p.affect.Running? ==> p.affect.update == AffectUpdate(sv, rq))
      && ChainAlone(sv, rq, p.chain.k).Ok?
      && var alone := ChainAlone(sv, rq, p.chain.k).value;
         && p.keys == (if p.affect.Done? then Merge(alone, AffectUpdate(sv, rq)) else alone)
         && (p.chain.Within? ==> p.chain.k < CHAIN && ChainNode(sv, rq, p.chain.k, alone) == Ok(p.chain.update))
  }

  lemma {:induction false} FailureLasts(sv: Services, rq: Request, k: nat, n: nat)
    requires k <= n <= CHAIN && ChainAlone(sv, rq, k).Raised?
    ensures ChainAlone(sv, rq, n) == ChainAlone(sv, rq, k)
  {
    if k < n { FailureLasts(sv, rq, k, n - 1); }
  }

  lemma ChainOneMore(sv: Services, rq: Request, k: nat)
    requires k < CHAIN && ChainAlone(sv, rq, k).Ok?
    ensures ChainAlone(sv, rq, k + 1) ==
      After(ChainAlone(sv, rq, k).value, ChainNode(sv, rq, k, ChainAlone(sv, rq, k).value))
  {
  }

  lemma AffectKeepsChainView(sv: Services, rq: Request, keys: Keys)
    ensures ChainView(Merge(keys, AffectUpdate(sv, rq))) == ChainView(keys)
  {
  }

  lemma BeginStaysOnTrack(sv: Services, rq: Request, p: Progress)
    requires Enabled(p, BeginChain) && OnTrack(sv, rq, p)
    ensures OnTrack(sv, rq, Advance(sv, rq, p, BeginChain))
  {
    var k := p.chain.k;
    var alone := ChainAlone(sv, rq, k).value;
    AffectKeepsChainView(sv, rq, alone);
    ChainIgnoresAffect(sv, rq, k, p.keys, alone);
    if ChainNode(sv, rq, k, alone).Raised? {
      ChainOneMore(sv, rq, k);
      FailureLasts(sv, rq, k + 1, CHAIN);
    }
  }

  lemma EndStaysOnTrack(sv: Services, rq: Request, p: Progress)
    requires Enabled(p, EndChain) && OnTrack(sv, rq, p)
    ensures OnTrack(sv, rq, Advance(sv, rq, p, EndChain))
  {
    var k := p.chain.k;
    var alone := ChainAlone(sv, rq, k).value;
    ChainOneMore(sv, rq, k);
    ChainWritesItsOwn(sv, rq, k, alone);
    MergeAnyOrder(sv, rq, alone, p.chain.update);
  }

  lemma AffectStaysOnTrack(sv: Services, rq: Request, p: Progress, e: Event)
    requires e == BeginAffect || e == EndAffect
    requires Enabled(p, e) && OnTrack(sv, rq, p)
    ensures OnTrack(sv, rq, Advance(sv, rq, p, e))
  {
  }

  lemma AdvanceStaysOnTrack(sv: Services, rq: Request, p: Progress, e: Event)
    requires Enabled(p, e) && OnTrack(sv, rq, p)
    ensures OnTrack(sv, rq, Advance(sv, rq, p, e))
  {
    match e
    case BeginChain => BeginStaysOnTrack(sv, rq, p);
    case EndChain => EndStaysOnTrack(sv, rq, p);
    case _ => AffectStaysOnTrack(sv, rq, p, e);
  }

  lemma {:induction false} ReachableIsOnTrack(sv: Services, rq: Request, schedule: seq<Event>, p: Progress)
    requires Reaches(sv, rq, schedule, p)
    ensures OnTrack(sv, rq, p)
  {
    if schedule != [] {
      var n := |schedule| - 1;
      var q :| Reaches(sv, rq, schedule[..n], q) && Enabled(q, schedule[n]) && p == Advance(sv, rq, q, schedule[n]);
      ReachableIsOnTrack(sv, rq, schedule[..n], q);
      AdvanceStaysOnTrack(sv, rq, q, schedule[n]);
    }
  }

  /** Order independence: every schedule of the two branches brings the same state, or the same
      failure, to the policy node. */
  lemma ScheduleDoesNotMatter(sv: Services, rq: Request, schedule: seq<Event>, p: Progress)
    requires Reaches(sv, rq, schedule, p) && Finished(p)
    ensures Join(sv, rq) == if p.failure.Some? then Raised(p.failure.value) else Ok(p.keys)
  {
    ReachableIsOnTrack(sv, rq, schedule, p);
  }

  /** And no schedule gets stuck before the join. */
  lemma NeverStuck(sv: Services, rq: Request, schedule: seq<Event>, p: Progress)
    requires Reaches(sv, rq, schedule, p) && !Finished(p)
    ensures exists e :: Enabled(p, e)
  {
    ReachableIsOnTrack(sv, rq, schedule, p);
    assert Enabled(p, BeginChain) || Enabled(p, EndChain) || Enabled(p, BeginAffect) || Enabled(p, EndAffect);
  }

  // ----- policy and output -----

  datatype StateTag = Speaking | BreakPrompting | Deferred

  datatype Payload = Payload(text: string, tag: StateTag, rule: PolicyRule, leadTime: real)

  datatype Trace = Trace(
    intent: Intent, confidence: real, contextIds: seq<string>, affect: AffectLevel, proximity: Proximity,
    rule: PolicyRule, action: ActionTaken, leadTime: real, outcome: ReminderOutcome, degraded: bool)

  datatype Reply = Reply(payload: Payload, trace: Trace)

  function OutputNode(rq: Request, keys: Keys): Result<Reply> {
    if keys.finalResponse.None? || keys.intent.None? || keys.confidence.None? then Raised(RuntimeFault)
    else if keys.finalResponse.value == "" then Raised(OtherFault)
    else if keys.affect.None? then Raised(ValueFault)
    else
      var rule := if keys.rule.Some? then keys.rule.value else NoRule;
      var near := if keys.proximity.Some? && rule != NoRule then keys.proximity.value else NoDeadline;
      var action := if keys.action.Some? then keys.action.value else Deliver;
      var leadTime := if keys.leadTime.Some? then keys.leadTime.value else 15.0;
      var tag := match action case BreakPrompt => BreakPrompting case Defer => Deferred case _ => Speaking;
      Ok(Reply(
        Payload(keys.finalResponse.value, tag, rule, leadTime),
        Trace(
          keys.intent.value, keys.confidence.value,
          if keys.contextIds.Some? then keys.contextIds.value else [], keys.affect.value, near, rule, action, leadTime,
          if keys.outcome.Some? then keys.outcome.value else NoReminder, keys.degraded == Some(true))))
  }

  /** The graph from request to reply. */
  function Respond(sv: Services, rq: Request): Result<Reply> {
    match Join(sv, rq)
    case Raised(f) => Raised(f)
    case Ok(keys) =>
      match After(keys, Timed(sv, PolicyStage, PolicyNode(sv, rq, keys)))
      case Raised(f) => Raised(f)
      case Ok(decided) => OutputNode(rq, decided)
  }

  // ----- what every reply satisfies -----

  /** The draft is the clarification, or something the guard returned. */
  ghost predicate GuardedDraft(pt: Patterns, intent: Intent, draft: string) {
    draft == CLARIFICATION || exists raw :: Strip(raw) != "" && draft == Guarded(pt, intent, Strip(raw))
  }

  /** The clarification flag says that the confidence is below the threshold. */
  predicate Classified(sv: Services, keys: Keys) {
    && keys.intent.Some? && keys.confidence.Some?
    && (keys.clarify == Some(true) <==> keys.confidence.value < sv.threshold)
    && (keys.clarify == Some(true) ==> keys.finalResponse == Some(CLARIFICATION))
  }

  predicate Retrieved(keys: Keys) {
    && keys.proximity.Some? && keys.contextIds.Some?
    && (keys.clarify == Some(true) ==> keys.proximity.value == NoDeadline && keys.contextIds.value == [])
  }

  ghost predicate Drafted(sv: Services, keys: Keys)
    requires keys.intent.Some?
  {
    && keys.draft.Some? && GuardedDraft(sv.pt, keys.intent.value, keys.draft.value)
    && (keys.clarify == Some(true) ==> keys.draft.value == CLARIFICATION)
  }

  /** What the first `k` nodes of the dialogue branch have written. */
  ghost predicate ChainWrote(sv: Services, k: nat, keys: Keys) {
    && keys.affect.None? && keys.degraded.None?
    && (k < 2 ==> keys.clarify.None?)
    && (k >= 2 ==> Classified(sv, keys))
    && (k >= 3 ==> Retrieved(keys))
    && (k >= 4 ==> Drafted(sv, keys))
  }

  lemma FirstNodesWrite(sv: Services, rq: Request, k: nat, keys: Keys)
    requires k < 2 && ChainWrote(sv, k, keys) && ChainNode(sv, rq, k, keys).Ok?
    ensures ChainWrote(sv, k + 1, Merge(keys, ChainNode(sv, rq, k, keys).value))
  {
  }

  lemma ContextNodeWrites(sv: Services, rq: Request, keys: Keys)
    requires ChainWrote(sv, 2, keys) && ChainNode(sv, rq, 2, keys).Ok?
    ensures ChainWrote(sv, 3, Merge(keys, ChainNode(sv, rq, 2, keys).value))
  {
  }

  lemma LlmNodeWrites(sv: Services, rq: Request, keys: Keys)
    requires ChainWrote(sv, 3, keys) && ChainNode(sv, rq, 3, keys).Ok?
    ensures ChainWrote(sv, 4, Merge(keys, ChainNode(sv, rq, 3, keys).value))
  {
  }

  lemma NodeWrites(sv: Services, rq: Request, k: nat, keys: Keys)
    requires k < CHAIN && ChainWrote(sv, k, keys) && ChainNode(sv, rq, k, keys).Ok?
    ensures ChainWrote(sv, k + 1, Merge(keys, ChainNode(sv, rq, k, keys).value))
  {
    if k < 2 {
      FirstNodesWrite(sv, rq, k, keys);
    } else if k == 2 {
      ContextNodeWrites(sv, rq, keys);
    } else {
      LlmNodeWrites(sv, rq, keys);
    }
  }

  lemma {:induction false} ChainKeys(sv: Services, rq: Request, k: nat)
    requires k <= CHAIN && ChainAlone(sv, rq, k).Ok?
    ensures ChainWrote(sv, k, ChainAlone(sv, rq, k).value)
  {
    if k > 0 {
      ChainKeys(sv, rq, k - 1);
      ChainOneMore(sv, rq, k - 1);
      NodeWrites(sv, rq, k - 1, ChainAlone(sv, rq, k - 1).value);
    }
  }

  /** The keys at the join. */
  ghost predicate Joined(sv: Services, rq: Request, keys: Keys) {
    && keys.intent.Some? && keys.confidence.Some? && keys.proximity.Some? && keys.contextIds.Some?
    && keys.draft.Some? && keys.affect.Some?
    && GuardedDraft(sv.pt, keys.intent.value, keys.draft.value)
    && (keys.confidence.value < sv.threshold ==>
        keys.draft.value == CLARIFICATION && keys.proximity.value == NoDeadline && keys.contextIds.value == [])
    && keys.degraded == Some(sv.detect(rq.audio, rq.rate).Raised?)
  }

  lemma JoinKeys(sv: Services, rq: Request)
    requires Join(sv, rq).Ok?
    ensures Joined(sv, rq, Join(sv, rq).value)
  {
    ChainKeys(sv, rq, CHAIN);
  }

  /** The policy domain, as the trace record validates it: only reminder intents are governed, and a
      rule goes with a deadline. */
  predicate PolicyApplied(t: Trace) {
    && InPolicyDomain(t.rule, t.proximity)
    && (t.outcome == PendingReminder <==> Governed(t.intent))
    && (t.rule != NoRule ==> Governed(t.intent) && t.rule == RuleFor(t.affect, t.proximity))
    && t.action == ActionFor(t.rule)
  }

  lemma DecidedKeys(sv: Services, rq: Request, keys: Keys)
    requires keys.intent.Some? && keys.affect.Some? && keys.draft.Some? && PolicyNode(sv, rq, keys).Ok?
    ensures var d := Merge(keys, Timed(sv, PolicyStage, PolicyNode(sv, rq, keys)).value);
      && d.finalResponse.Some? && d.rule.Some? && d.proximity.Some? && d.action.Some? && d.leadTime.Some?
      && d.outcome.Some?
      && d.intent == keys.intent && d.confidence == keys.confidence && d.contextIds == keys.contextIds
      && d.affect == keys.affect && d.degraded == keys.degraded
      && (d.rule.value == NoRule <==> d.proximity.value == NoDeadline)
      && (d.outcome.value == PendingReminder <==> Governed(keys.intent.value))
      && (d.rule.value != NoRule ==>
        Governed(keys.intent.value) && d.rule.value == RuleFor(keys.affect.value, d.proximity.value))
      && (d.rule.value != NoRule ==> d.proximity == keys.proximity)
      && d.action.value == ActionFor(d.rule.value)
      && Strip(keys.draft.value) != ""
      && d.finalResponse.value == FinalResponse(d.rule.value, Strip(keys.draft.value))
      && (sv.leadMin <= sv.leadMax ==> sv.leadMin <= d.leadTime.value <= sv.leadMax)
  {
  }

  /** A reply comes from the policy node's update. */
  lemma ReplyFromKeys(sv: Services, rq: Request) returns (keys: Keys, d: Keys)
    requires Respond(sv, rq).Ok?
    ensures Join(sv, rq) == Ok(keys) && PolicyNode(sv, rq, keys).Ok?
    ensures d == Merge(keys, Timed(sv, PolicyStage, PolicyNode(sv, rq, keys)).value)
    ensures OutputNode(rq, d) == Respond(sv, rq)
  {
    keys := Join(sv, rq).value;
    d := Merge(keys, Timed(sv, PolicyStage, PolicyNode(sv, rq, keys)).value);
  }

  lemma OutputCopies(rq: Request, d: Keys)
    requires OutputNode(rq, d).Ok?
    requires d.rule.Some? && d.proximity.Some? && d.action.Some? && d.leadTime.Some? && d.outcome.Some?
      && d.contextIds.Some?
    requires d.rule.value == NoRule ==> d.proximity.value == NoDeadline
    ensures var r := OutputNode(rq, d).value;
      && d.intent == Some(r.trace.intent) && d.affect == Some(r.trace.affect)
      && d.confidence == Some(r.trace.confidence)
      && r.trace.proximity == d.proximity.value && r.trace.rule == d.rule.value && r.trace.action == d.action.value
      && r.trace.leadTime == d.leadTime.value && r.trace.outcome == d.outcome.value
      && r.trace.contextIds == d.contextIds.value && (r.trace.degraded <==> d.degraded == Some(true))
      && d.finalResponse == Some(r.payload.text) && r.payload.text != ""
      && r.payload.rule == r.trace.rule && r.payload.leadTime == r.trace.leadTime
  {
  }

  /** For every request and every behaviour of the adapters and the store: a reply's trace lies in the
      policy domain, its lead time within the configured bounds, and payload and trace agree. */
  lemma RepliesAreConsistent(sv: Services, rq: Request)
    requires Respond(sv, rq).Ok?
    ensures var r := Respond(sv, rq).value;
      && PolicyApplied(r.trace)
      && (sv.leadMin <= sv.leadMax ==> sv.leadMin <= r.trace.leadTime <= sv.leadMax)
      && r.payload.text != "" && r.payload.rule == r.trace.rule && r.payload.leadTime == r.trace.leadTime
      && (r.trace.degraded <==> sv.detect(rq.audio, rq.rate).Raised?)
  {
    var keys, d := ReplyFromKeys(sv, rq);
    JoinKeys(sv, rq);
    DecidedKeys(sv, rq, keys);
    OutputCopies(rq, d);
  }

  /** And no reply claims, for its own intent, a mutation that nobody executed. */
  lemma RepliesMakeNoClaim(sv: Services, rq: Request)
    requires Respond(sv, rq).Ok? && Faithful(sv.pt)
    ensures var r := Respond(sv, rq).value;
      !ClaimsMutation(sv.pt, r.trace.intent, r.payload.text)
  {
    var keys, d := ReplyFromKeys(sv, rq);
    JoinKeys(sv, rq);
    DecidedKeys(sv, rq, keys);
    OutputCopies(rq, d);
    DraftStaysSafe(sv.pt, keys.intent.value, keys.draft.value, d.rule.value);
  }

  lemma DraftStaysSafe(pt: Patterns, intent: Intent, draft: string, rule: PolicyRule)
    requires Faithful(pt) && GuardedDraft(pt, intent, draft)
    ensures !ClaimsMutation(pt, intent, FinalResponse(rule, Strip(draft)))
  {
    if draft == CLARIFICATION {
      ClarificationIsStripped();
      StripKeeps(draft);
      ClarificationMakesNoClaim(pt, intent);
      PrefixAddsNoClaim(pt, intent, rule, draft);
    } else {
      var raw :| Strip(raw) != "" && draft == Guarded(pt, intent, Strip(raw));
      SpokenTextIsSafe(pt, intent, rule, raw);
    }
  }

  /** A low-confidence turn asks back: no rule, no context, the clarification as spoken text. */
  lemma LowConfidenceAsksBack(sv: Services, rq: Request)
    requires Respond(sv, rq).Ok? && Respond(sv, rq).value.trace.confidence < sv.threshold
    ensures var r := Respond(sv, rq).value;
      r.payload.text == CLARIFICATION && r.trace.rule == NoRule && r.trace.contextIds == []
  {
    var keys, d := ReplyFromKeys(sv, rq);
    JoinKeys(sv, rq);
    DecidedKeys(sv, rq, keys);
    OutputCopies(rq, d);
    ClarificationIsStripped();
    StripKeeps(CLARIFICATION);
  }

  // ----- the dialogue in one piece -----

  datatype Draft = Draft(intent: Intent, confidence: real, ids: seq<string>, near: Proximity, text: string)

  /** A turn told without a graph: the adapters called one after the other, the first failure ending it. */
  function Straight(sv: Services, rq: Request): Result<Reply> {
    match Think(sv, rq)
    case Raised(f) => Raised(f)
    case Ok(d) => Speak(sv, rq, d)
  }

  function Think(sv: Services, rq: Request): Result<Draft> {
    match sv.transcribe(rq.audio, rq.rate)
    case Raised(f) => Raised(f)
    case Ok(text) =>
      if Strip(text) == "" then Raised(ValueFault)
      else
        match sv.classify(Strip(text))
        case Raised(f) => Raised(f)
        case Ok((intent, confidence)) =>
          if confidence < sv.threshold then Ok(Draft(intent, confidence, [], NoDeadline, CLARIFICATION))
          else
            match sv.retrieve(rq.user)
            case Raised(f) => Raised(f)
            case Ok((ids, imminent)) =>
              match sv.generate(Strip(text), intent, ids)
              case Raised(f) => Raised(f)
              case Ok(raw) =>
                if Strip(raw) == "" then Raised(ValueFault)
                else
                  var near := if imminent then Imminent else NotImminent;
                  Ok(Draft(intent, confidence, ids, near, Guarded(sv.pt, intent, Strip(raw))))
  }

  function LevelOf(sv: Services, rq: Request): AffectLevel {
    match sv.detect(rq.audio, rq.rate)
    case Ok(level) => level
    case Raised(_) => sv.fallback
  }

  function Speak(sv: Services, rq: Request, d: Draft): Result<Reply> {
    var level := LevelOf(sv, rq);
    var governed := Governed(d.intent);
    var rule := if governed then RuleFor(level, d.near) else NoRule;
    var tag := if rule == R2 then Deferred else if rule == R4 then BreakPrompting else Speaking;
    if rule == R5 && rq.user == "" then Raised(ValueFault)
    else
      match sv.storedLeadTime(rq.user)
      case Raised(f) => Raised(f)
      case Ok(minutes) =>
        var lead := ClampLeadTime(minutes, sv.leadMin, sv.leadMax);
        Ok(Reply(
          Payload(FinalResponse(rule, d.text), tag, rule, lead),
          Trace(d.intent, d.confidence, d.ids, level, if governed then d.near else NoDeadline,
                rule, ActionFor(rule), lead, if governed then PendingReminder else NoReminder,
                sv.detect(rq.audio, rq.rate).Raised?)))
  }

  /** The keys of the dialogue branch amount to the draft. */
  predicate Amounts(keys: Keys, d: Draft) {
    && keys.intent == Some(d.intent) && keys.confidence == Some(d.confidence) && keys.contextIds == Some(d.ids)
    && keys.proximity == Some(d.near) && keys.draft == Some(d.text)
  }

  /** What the transcription leaves. */
  predicate Heard(sv: Services, rq: Request, r: Result<Keys>) {
    match sv.transcribe(rq.audio, rq.rate)
    case Raised(f) => r == Raised(f)
    case Ok(text) =>
      if Strip(text) == "" then r == Raised(ValueFault)
      else r.Ok? && r.value.transcript == Some(Strip(text)) && r.value.clarify.None?
  }

  lemma ChainHears(sv: Services, rq: Request)
    ensures Heard(sv, rq, ChainAlone(sv, rq, 1))
  {
    ChainOneMore(sv, rq, 0);
  }

  /** What the last three nodes make of a transcript. */
  function FromTranscript(sv: Services, rq: Request, keys: Keys): Result<Keys> {
    match After(keys, ChainNode(sv, rq, 1, keys))
    case Raised(f) => Raised(f)
    case Ok(known) =>
      match After(known, ChainNode(sv, rq, 2, known))
      case Raised(f) => Raised(f)
      case Ok(recalled) => After(recalled, ChainNode(sv, rq, 3, recalled))
  }

  lemma ChainFromTranscript(sv: Services, rq: Request)
    ensures var heard := ChainAlone(sv, rq, 1);
      ChainAlone(sv, rq, CHAIN) == if heard.Ok? then FromTranscript(sv, rq, heard.value) else heard
  {
    if ChainAlone(sv, rq, 1).Raised? {
      FailureLasts(sv, rq, 1, CHAIN);
    } else {
      ChainOneMore(sv, rq, 1);
      if ChainAlone(sv, rq, 2).Raised? {
        FailureLasts(sv, rq, 2, CHAIN);
      } else {
        ChainOneMore(sv, rq, 2);
        if ChainAlone(sv, rq, 3).Raised? {
          FailureLasts(sv, rq, 3, CHAIN);
        } else {
          ChainOneMore(sv, rq, 3);
        }
      }
    }
  }

  predicate Thought(r: Result<Keys>, d: Result<Draft>) {
    match r
    case Raised(f) => d == Raised(f)
    case Ok(keys) => d.Ok? && Amounts(keys, d.value)
  }

  lemma TranscriptThinks(sv: Services, rq: Request, keys: Keys)
    requires Heard(sv, rq, Ok(keys))
    ensures Thought(FromTranscript(sv, rq, keys), Think(sv, rq))
  {
  }

  lemma ChainThinks(sv: Services, rq: Request)
    ensures Thought(ChainAlone(sv, rq, CHAIN), Think(sv, rq))
  {
    ChainHears(sv, rq);
    ChainFromTranscript(sv, rq);
    if ChainAlone(sv, rq, 1).Ok? { TranscriptThinks(sv, rq, ChainAlone(sv, rq, 1).value); }
  }

  /** The keys at the join. */
  predicate AtJoin(sv: Services, rq: Request, keys: Keys, d: Draft) {
    && Amounts(keys, d) && keys.affect == Some(LevelOf(sv, rq))
    && keys.degraded == Some(sv.detect(rq.audio, rq.rate).Raised?)
  }

  /** What the policy node's result amounts to. */
  predicate Decides(r: Result<Keys>, said: Result<Reply>) {
    match r
    case Raised(f) => said == Raised(f)
    case Ok(u) =>
      && said.Ok? && u.finalResponse == Some(said.value.payload.text) && u.proximity == Some(said.value.trace.proximity)
      && u.rule == Some(said.value.trace.rule) && u.action == Some(said.value.trace.action)
      && u.leadTime == Some(said.value.trace.leadTime) && u.outcome == Some(said.value.trace.outcome)
      && u.intent.None? && u.confidence.None? && u.contextIds.None? && u.affect.None? && u.degraded.None?
  }

  lemma PolicyDecides(sv: Services, rq: Request, keys: Keys, d: Draft)
    requires AtJoin(sv, rq, keys, d) && Strip(d.text) == d.text != ""
    ensures Decides(PolicyNode(sv, rq, keys), Speak(sv, rq, d))
  {
  }

  lemma OutputSpeaks(sv: Services, rq: Request, keys: Keys, d: Draft, update: Keys)
    requires AtJoin(sv, rq, keys, d) && d.text != "" && Decides(Ok(update), Speak(sv, rq, d))
    ensures OutputNode(rq, Merge(keys, update)) == Speak(sv, rq, d)
  {
  }

  /** Policy and output node say what `Speak` says. */
  lemma PolicySpeaks(sv: Services, rq: Request, chain: Keys, d: Draft)
    requires Amounts(chain, d) && Strip(d.text) == d.text != ""
    ensures var keys := Merge(chain, AffectUpdate(sv, rq));
      match After(keys, Timed(sv, PolicyStage, PolicyNode(sv, rq, keys)))
      case Raised(f) => Speak(sv, rq, d) == Raised(f)
      case Ok(decided) => OutputNode(rq, decided) == Speak(sv, rq, d)
  {
    var keys := Merge(chain, AffectUpdate(sv, rq));
    PolicyDecides(sv, rq, keys, d);
    var r := Timed(sv, PolicyStage, PolicyNode(sv, rq, keys));
    if r.Ok? { OutputSpeaks(sv, rq, keys, d, r.value); }
  }

  lemma DraftsAreStripped(sv: Services, rq: Request)
    requires Think(sv, rq).Ok?
    ensures var text := Think(sv, rq).value.text; Strip(text) == text != ""
  {
    var d := Think(sv, rq).value;
    if d.text == CLARIFICATION {
      ClarificationIsStripped();
    } else {
      var raw := sv.generate(Strip(sv.transcribe(rq.audio, rq.rate).value), d.intent, d.ids).value;
      StripIsStripped(raw);
      GuardKeepsStripped(sv.pt, d.intent, Strip(raw));
    }
    StripKeeps(d.text);
  }

  /** The graph with its shared state, its two branches and its reducer says neither more nor less
      than the straight telling: the same reply, or the same first failure. */
  lemma GraphIsStraight(sv: Services, rq: Request)
    ensures Respond(sv, rq) == Straight(sv, rq)
  {
    ChainThinks(sv, rq);
    if Think(sv, rq).Ok? {
      DraftsAreStripped(sv, rq);
      PolicySpeaks(sv, rq, ChainAlone(sv, rq, CHAIN).value, Think(sv, rq).value);
    }
  }

  /** A turn is answered if and only if everything it needs answers: a nonblank transcript, the classifier, the
      stored lead time, and, above the threshold, the context and a nonblank draft; and the empty user is refused
      where others' reminders would be suppressed. The detector is not needed. */
  lemma AnsweredIffServed(sv: Services, rq: Request)
    ensures Respond(sv, rq).Ok? <==>
      CanThink(sv, rq) && sv.storedLeadTime(rq.user).Ok? && !(rq.user == "" && SuppressesOthers(sv, rq))
  {
    GraphIsStraight(sv, rq);
    ThinksIfServed(sv, rq);
    if CanThink(sv, rq) { SuppressionIsR5(sv, rq); }
  }

  predicate CanThink(sv: Services, rq: Request) {
    && sv.transcribe(rq.audio, rq.rate).Ok?
    && var text := Strip(sv.transcribe(rq.audio, rq.rate).value);
       && text != "" && sv.classify(text).Ok?
       && var (intent, confidence) := sv.classify(text).value;
          confidence < sv.threshold
          || (sv.retrieve(rq.user).Ok?
              && var (ids, imminent) := sv.retrieve(rq.user).value;
                 sv.generate(text, intent, ids).Ok? && Strip(sv.generate(text, intent, ids).value) != "")
  }

  /** High affect meets a deadline close by, on a reminder intent above the threshold. */
  predicate SuppressesOthers(sv: Services, rq: Request)
    requires CanThink(sv, rq)
  {
    var (intent, confidence) := sv.classify(Strip(sv.transcribe(rq.audio, rq.rate).value)).value;
    && confidence >= sv.threshold && sv.retrieve(rq.user).value.1
    && (intent == DismissReminder || intent == SnoozeReminder)
    && (match sv.detect(rq.audio, rq.rate) case Ok(level) => level case Raised(_) => sv.fallback) == High
  }

  lemma ThinksIfServed(sv: Services, rq: Request)
    ensures Think(sv, rq).Ok? <==> CanThink(sv, rq)
  {
  }

  lemma DraftSays(sv: Services, rq: Request)
    requires CanThink(sv, rq) && Think(sv, rq).Ok?
    ensures var d := Think(sv, rq).value;
            var (intent, confidence) := sv.classify(Strip(sv.transcribe(rq.audio, rq.rate).value)).value;
      && d.intent == intent
      && (d.near == Imminent <==> confidence >= sv.threshold && sv.retrieve(rq.user).value.1)
  {
  }

  lemma OnlyR5Suppresses(level: AffectLevel, near: Proximity)
    ensures RuleFor(level, near) == R5 <==> level == High && near == Imminent
  {
  }

  lemma SuppressionIsR5(sv: Services, rq: Request)
    requires CanThink(sv, rq) && Think(sv, rq).Ok?
    ensures var d := Think(sv, rq).value;
      SuppressesOthers(sv, rq) <==> Governed(d.intent) && RuleFor(LevelOf(sv, rq), d.near) == R5
  {
    DraftSays(sv, rq);
    OnlyR5Suppresses(LevelOf(sv, rq), Think(sv, rq).value.near);
  }

  /** Display state and opening words go with the rule. `draft` is what follows the opening words. */
  predicate SpokenAs(rule: PolicyRule, tag: StateTag, text: string, draft: string) {
    match rule
    case R2 => tag == Deferred && text == "I\U{2019}ll give you" + " a little more time" + ". " + draft
    case R3 => tag == Speaking && text == "This is" + " time-sensitive" + ". " + draft
    case R4 => tag == BreakPrompting && text == "Let\U{2019}s take" + " this gently" + ". " + draft
    case R5 => tag == Speaking && text == "Let\U{2019}s focus on the most" + " important item first" + ". " + draft
    case _ => tag == Speaking && text == draft
  }

  /** Which deadline counts: none for an intent outside the policy or a low confidence, else what the context
      says. */
  predicate DeadlineCounts(sv: Services, rq: Request, intent: Intent, confidence: real, near: Proximity) {
    if (intent != DismissReminder && intent != SnoozeReminder) || confidence < sv.threshold then near == NoDeadline
    else
      sv.retrieve(rq.user).Ok? && near == if sv.retrieve(rq.user).value.1 then Imminent else NotImminent
  }

  /** The stored lead time, moved into the configured range if it lies outside; an empty range gives its upper
      bound. */
  predicate LeadTimeFits(sv: Services, rq: Request, leadTime: real) {
    && sv.storedLeadTime(rq.user).Ok?
    && var minutes := sv.storedLeadTime(rq.user).value;
       leadTime ==
         if minutes > sv.leadMax || sv.leadMin > sv.leadMax then sv.leadMax
         else if minutes < sv.leadMin then sv.leadMin
         else minutes
  }

  /** Every reply of the graph follows the policy. */
  lemma RepliesFollowPolicy(sv: Services, rq: Request)
    requires Respond(sv, rq).Ok?
    ensures var r := Respond(sv, rq).value;
      && Think(sv, rq).Ok?
      && IsPolicy(r.trace.affect, r.trace.proximity, r.trace.rule, r.trace.action)
      && SpokenAs(r.trace.rule, r.payload.tag, r.payload.text, Think(sv, rq).value.text)
      && DeadlineCounts(sv, rq, r.trace.intent, r.trace.confidence, r.trace.proximity)
      && LeadTimeFits(sv, rq, r.trace.leadTime)
      && (r.trace.outcome == PendingReminder <==> r.trace.intent == DismissReminder || r.trace.intent == SnoozeReminder)
  {
    GraphIsStraight(sv, rq);
    ThoughtDeadline(sv, rq);
    SpeechFollowsPolicy(sv, rq, Think(sv, rq).value);
  }

  /** A reply reports what the adapters and the store said about the transcript: the classification, the rows
      retrieved unless the confidence was low, and the affect level. Its draft is the clarification or what the
      guard leaves of the model's answer. */
  lemma RepliesReportServices(sv: Services, rq: Request)
    requires Respond(sv, rq).Ok?
    ensures var t := Respond(sv, rq).value.trace;
      && sv.transcribe(rq.audio, rq.rate).Ok? && Think(sv, rq).Ok?
      && var said := Strip(sv.transcribe(rq.audio, rq.rate).value);
         && said != "" && sv.classify(said) == Ok((t.intent, t.confidence))
         && (match sv.detect(rq.audio, rq.rate)
             case Ok(level) => t.affect == level && !t.degraded
             case Raised(_) => t.affect == sv.fallback && t.degraded)
         && (if t.confidence < sv.threshold then t.contextIds == [] && Think(sv, rq).value.text == CLARIFICATION
             else
               && sv.retrieve(rq.user).Ok? && t.contextIds == sv.retrieve(rq.user).value.0
               && sv.generate(said, t.intent, t.contextIds).Ok?
               && Think(sv, rq).value.text ==
                    Guarded(sv.pt, t.intent, Strip(sv.generate(said, t.intent, t.contextIds).value)))
  {
    GraphIsStraight(sv, rq);
  }

  lemma ThoughtDeadline(sv: Services, rq: Request)
    requires Think(sv, rq).Ok?
    ensures var d := Think(sv, rq).value;
      if d.confidence < sv.threshold then d.near == NoDeadline
      else sv.retrieve(rq.user).Ok? && d.near == if sv.retrieve(rq.user).value.1 then Imminent else NotImminent
  {
  }

  lemma SpeechFollowsPolicy(sv: Services, rq: Request, d: Draft)
    requires Speak(sv, rq, d).Ok?
    ensures var r := Speak(sv, rq, d).value;
      && IsPolicy(r.trace.affect, r.trace.proximity, r.trace.rule, r.trace.action)
      && SpokenAs(r.trace.rule, r.payload.tag, r.payload.text, d.text)
      && LeadTimeFits(sv, rq, r.trace.leadTime)
      && r.trace.intent == d.intent && r.trace.confidence == d.confidence
      && r.trace.proximity == (if d.intent == DismissReminder || d.intent == SnoozeReminder then d.near else NoDeadline)
      && (r.trace.outcome == PendingReminder <==> d.intent == DismissReminder || d.intent == SnoozeReminder)
  {
    RuleFollowsPolicy(LevelOf(sv, rq), if Governed(d.intent) then d.near else NoDeadline, d.text);
  }

  lemma OpeningWords(rule: PolicyRule, draft: string)
    requires PrefixWords(rule) != ""
    ensures FinalResponse(rule, draft) == PrefixWords(rule) + ". " + draft
  {
    var words := PrefixWords(rule);
    assert words + "." + " " == words + ". ";
  }

  lemma RuleFollowsPolicy(affect: AffectLevel, near: Proximity, draft: string)
    ensures var rule := RuleFor(affect, near);
            var tag := if rule == R2 then Deferred else if rule == R4 then BreakPrompting else Speaking;
      IsPolicy(affect, near, rule, ActionFor(rule)) && SpokenAs(rule, tag, FinalResponse(rule, draft), draft)
  {
    var rule := RuleFor(affect, near);
    if PrefixWords(rule) != "" { OpeningWords(rule, draft); }
  }

  // ----- detector failures -----

  /** Replies that differ at most in the mark of a degraded detector. */
  predicate SameButDegraded(a: Result<Reply>, b: Result<Reply>) {
    match (a, b)
    case (Ok(x), Ok(y)) => x.payload == y.payload && x.trace.(degraded := false) == y.trace.(degraded := false)
    case (Raised(f), Raised(g)) => f == g
    case _ => false
  }

  lemma NodeIgnoresDetector(sv: Services, rq: Request, k: nat, keys: Keys,
      other: (seq<real>, nat) -> Result<AffectLevel>)
    requires k < CHAIN
    ensures ChainNode(sv.(detect := other), rq, k, keys) == ChainNode(sv, rq, k, keys)
  {
  }

  lemma {:induction false} ChainIgnoresDetector(sv: Services, rq: Request, k: nat,
      other: (seq<real>, nat) -> Result<AffectLevel>)
    requires k <= CHAIN
    ensures ChainAlone(sv.(detect := other), rq, k) == ChainAlone(sv, rq, k)
  {
    if k > 0 {
      ChainIgnoresDetector(sv, rq, k - 1, other);
      if ChainAlone(sv, rq, k - 1).Ok? {
        ChainOneMore(sv, rq, k - 1);
        ChainOneMore(sv.(detect := other), rq, k - 1);
        NodeIgnoresDetector(sv, rq, k - 1, ChainAlone(sv, rq, k - 1).value, other);
      }
    }
  }

  /** A failing detector fails nothing: the turn goes as if the detector had answered with the
      fallback level, and only the trace says otherwise. */
  lemma DetectorFailureIsSurvived(sv: Services, rq: Request)
    requires sv.detect(rq.audio, rq.rate).Raised?
    ensures var calm := sv.(detect := (audio, rate) => Ok(sv.fallback));
      SameButDegraded(Respond(sv, rq), Respond(calm, rq))
  {
    var calm := sv.(detect := (audio, rate) => Ok(sv.fallback));
    ChainIgnoresDetector(sv, rq, CHAIN, calm.detect);
    if Join(sv, rq).Ok? {
      var a, b := Join(sv, rq).value, Join(calm, rq).value;
      assert a.(degraded := None) == b.(degraded := None);
      SameDecision(sv, calm.detect, rq, a, b);
    }
  }

  lemma SameDecision(sv: Services, other: (seq<real>, nat) -> Result<AffectLevel>, rq: Request, a: Keys, b: Keys)
    requires a.(degraded := None) == b.(degraded := None)
    ensures PolicyNode(sv, rq, a) == PolicyNode(sv.(detect := other), rq, b)
    ensures forall u :: SameButDegraded(OutputNode(rq, Merge(a, u)), OutputNode(rq, Merge(b, u)))
  {
  }
}
