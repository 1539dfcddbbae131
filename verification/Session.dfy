/** The values that travel between the transport, the worker queue and the runner. */
module Session {
  import opened Prelude

  /** Identifies one accepted `start_audio`, however often its session id is reused. The program
      has no such number; the model adds it so that histories can name a session. */
  type Ticket = nat

  /** `pipeline.interaction.SessionContext`. */
  datatype SessionContext = SessionContext(
    session: string, user: string, started: real, wakeWord: int, clockOffset: Option<real>, ticket: Ticket)

  datatype WireCode = SessionCollision | MalformedAudio | QueueOverflow | SessionTimeout | PipelineFailure

  /** What the transport uses of an `InteractionResult`. */
  datatype InteractionResult = InteractionResult(payload: string, ttsAudio: seq<Int16>)

  /** Failures reaching the runner's boundary, in the order its failure table tests them. */
  datatype Failure = SttError | IntentError | LlmError | TtsError | ValueFault | RuntimeFault | OtherFault

  /** How one call of `InteractionRunner.run` ends: a result, an `InteractionError`, or anything else
      that passes the runner's boundary, such as a `BaseException` or the error of the store that
      refuses the degraded row as well. */
  datatype Outcome = Answered(result: InteractionResult) | Failed(cause: Failure) | Escaped

  /** `_classify_failure`: the wire code of a failure. */
  function WireCodeOf(failure: Failure): WireCode {
    if failure == SttError then MalformedAudio else PipelineFailure
  }

  datatype TraceKind = Full | Degraded(reason: string)

  /** One `decision_trace` row, reduced to what ties it to its session. */
  datatype TraceRow = TraceRow(session: string, user: string, kind: TraceKind, ticket: Ticket)

  /** The guard of `ensure_user`, in front of every row the host writes. */
  predicate StoreAccepts(user: string) { user != "" }

  /** Without an acceptable user neither the full nor the degraded row can be written, so the run can
      only escape. */
  predicate RunMayEnd(ctx: SessionContext, outcome: Outcome) {
    StoreAccepts(ctx.user) || outcome.Escaped?
  }

  /** The rows `persist_transport_degraded_trace` writes: none if the store refuses the user. */
  function TransportRows(ctx: SessionContext, reason: string): seq<TraceRow> {
    if StoreAccepts(ctx.user) then [DegradedRow(ctx, reason)] else []
  }

  function DegradedRow(ctx: SessionContext, reason: string): TraceRow {
    TraceRow(ctx.session, ctx.user, Degraded(reason), ctx.ticket)
  }

  /** The rows one run writes: the full trace, or the degraded one before `InteractionError`. */
  function RowsOfRun(ctx: SessionContext, outcome: Outcome): seq<TraceRow> {
    match outcome
    case Answered(_) => [TraceRow(ctx.session, ctx.user, Full, ctx.ticket)]
    case Failed(_) => [DegradedRow(ctx, "pipeline_failure")]
    case Escaped => []
  }
}
