/** The `/v1/stream` protocol (api/ws/stream.py with session_registry.py and connection.py) as a
    labelled transition system. Any number of connections share one registry and one worker. On
    each connection a receive task and a reaper task interleave; one step is the code a task runs
    between two `await`s. */
module Stream {
  import opened Prelude
  import opened Session
  import Pcm
  import W = Worker

  type ConnId = nat

  type EvenBytes = b: seq<Byte> | |b| % 2 == 0

  type Registry = map<string, ConnId>

  // ----- object state and the code between awaits -----

  /** `_InFlightSession`. */
  datatype InFlight = InFlight(
    session: string, user: string, wakeWord: int, started: real, lastActivity: real,
    buffer: EvenBytes, frameCount: nat, submitted: bool, ticket: Ticket)

  /** The fields of one `Connection` (`current`, `clockOffset`) and its `_StreamSession`. */
  datatype Local = Local(current: Option<string>, inFlight: Option<InFlight>, clockOffset: Option<real>)

  const IDLE := Local(None, None, None)

  /** `_release_session`. */
  function Release(reg: Registry, l: Local): (Registry, Local) {
    if l.inFlight.None? then (reg, l)
    else
      var s := l.inFlight.value.session;
      (reg - {s}, l.(current := if l.current == Some(s) then None else l.current, inFlight := None))
  }

  /** Whether `_release_session` would run into the `ValueError` it swallows. */
  predicate ReleaseRaises(l: Local) {
    l.inFlight.Some? && l.current != Some(l.inFlight.value.session)
  }

  /** `_handle_start_audio` up to its first await; the flag says whether the session was opened. */
  function Start(reg: Registry, c: ConnId, l: Local, session: string, user: string, wakeWord: int, now: real,
                 ticket: Ticket):
    (Registry, Local, bool)
  {
    if session in reg then (reg, l, false)
    else if l.current.Some? then (reg[session := c] - {session}, l, false)
    else
      (reg[session := c],
       l.(current := Some(session),
         inFlight := Some(InFlight(session, user, wakeWord, now, now, [], 0, false, ticket))),
       true)
  }

  /** The accepting branch of `handle_binary`. */
  function Buffer(l: Local, data: EvenBytes, now: real): Local
    requires l.inFlight.Some?
  {
    var f := l.inFlight.value;
    l.(inFlight := Some(f.(buffer := f.buffer + data, frameCount := f.frameCount + 1, lastActivity := now)))
  }

  /** The runner's view of the in-flight session. */
  function ContextOf(l: Local): SessionContext
    requires l.inFlight.Some?
  {
    var f := l.inFlight.value;
    SessionContext(f.session, f.user, f.started, f.wakeWord, l.clockOffset, f.ticket)
  }

  function MarkSubmitted(l: Local): Local
    requires l.inFlight.Some?
  {
    l.(inFlight := Some(l.inFlight.value.(submitted := true)))
  }

  /** The test of `_reclaim_if_stale`. */
  predicate Stale(l: Local, now: real, timeout: real) {
    l.inFlight.Some? && !l.inFlight.value.submitted && now - l.inFlight.value.lastActivity >= timeout
  }

  /** `Connection.record_clock_sync`: the offset is fixed by the first handshake. */
  function RecordClockSync(l: Local, edgeSend: int, hostRecv: int, hostSend: int): (Local, bool) {
    if l.clockOffset.Some? then (l, false)
    else (l.(clockOffset := Some(((hostRecv - edgeSend) + (hostSend - edgeSend)) as real / 2.0)), true)
  }

  // ----- tasks, histories and the whole host -----

  /** Where the receive task is suspended. */
  datatype RecvPc =
    | Receiving
    | SendCollision(session: string)
    | SendReady(session: string, ticket: Ticket)
    | SendClock
    | SendMalformed(session: string, ticket: Ticket)
    | SendOverflow(ctx: SessionContext)
    | AwaitFuture(ctx: SessionContext, future: nat)
    | SendFailure(ctx: SessionContext, cause: Failure)
    | SendResponse(ctx: SessionContext, result: InteractionResult)
    | SendAudio(ctx: SessionContext, result: InteractionResult, next: nat)
    | SendTtsEnd(ctx: SessionContext, result: InteractionResult)
    | AwaitReaper   // teardown: the reaper is cancelled, its end awaited
    | Closed        // teardown completed
    | Aborted       // teardown cut short by the CancelledError of a reaper that never started

  datatype ReaperPc = Unentered | Sleeping | SendTimeout(ctx: SessionContext) | Finished

  /** What the receive task has taken off the wire, and what the edge has been sent. Tickets are
      the model's own annotation. */
  datatype Uplink = Opened(ticket: Ticket) | Binary(data: seq<Byte>) | Ended(ticket: Ticket) | Other

  datatype Downlink =
    | Ready(session: string, ticket: Ticket)
    | Collision(session: string)
    | Error(session: string, code: WireCode, ticket: Ticket)
    | Response(session: string, payload: string, ticket: Ticket)
    | Audio(frame: seq<Byte>, ticket: Ticket)
    | TtsEnd(session: string, frameCount: nat, ticket: Ticket)
    | ClockReply

  datatype Conn = Conn(local: Local, pc: RecvPc, reaper: ReaperPc, uplink: seq<Uplink>, sent: seq<Downlink>)

  /** What has become of an opened session. */
  datatype Stage =
    | Open
    | TimedOut              // reclaimed by the reaper
    | Malformed             // released after an odd-length frame
    | Dropped               // released by teardown before submission
    | Refused               // submitted to a stopped worker
    | OverflowPending       // rejected by a full queue, the error frame not sent yet
    | Overflowed            // the error frame was sent, and the row written if the store accepts the user
    | OverflowUnreported    // the error frame could not be sent
    | Queued(future: nat)
    | Running(future: nat)
    | Ran(future: nat, outcome: Outcome)

  /** History record of one opened session; its ticket is its index. `openedAt` is the position of
      its `Opened` entry in the connection's uplink, `endedAt` that of its `Ended` entry. */
  datatype Record = Record(conn: ConnId, session: string, user: string, openedAt: nat, endedAt: nat, stage: Stage)

  datatype Host = Host(
    registry: Registry, conns: map<ConnId, Conn>, worker: W.State, now: real,
    traces: seq<TraceRow>, records: seq<Record>)

  datatype Config = Config(timeout: real, maxQueue: nat, rate: int)

  const BOOT := Host(map[], map[], W.FRESH, 0.0, [], [])

  datatype Action =
    | Accept(c: ConnId)
    | ReaperEnters(c: ConnId)
    | ClientGone(c: ConnId)
    | GetStart(c: ConnId, session: string, user: string, wakeWord: int)
    | GetBinary(c: ConnId, data: seq<Byte>)
    | GetEnd(c: ConnId, session: string)
    | GetClockSync(c: ConnId, edgeSend: int, hostRecv: int, hostSend: int)
    | GetOther(c: ConnId)
    | SendDone(c: ConnId)
    | SendFails(c: ConnId)
    | FutureDone(c: ConnId)
    | TeardownDone(c: ConnId)
    | ReaperPolls(c: ConnId)
    | ReaperSendEnds(c: ConnId, delivered: bool)
    | WorkerMoves(step: W.Step)
    | TimePasses(elapsed: real)

  /** The receive task takes something off the wire. */
  predicate Incoming(a: Action) {
    a.ClientGone? || a.GetStart? || a.GetBinary? || a.GetEnd? || a.GetClockSync? || a.GetOther?
  }

  /** The receive task resumes after another await. */
  predicate Resuming(a: Action) {
    a.SendDone? || a.SendFails? || a.FutureDone? || a.TeardownDone?
  }

  predicate Sending(pc: RecvPc) {
    !pc.Receiving? && !pc.AwaitFuture? && !TearingDown(pc)
  }

  predicate TearingDown(pc: RecvPc) {
    pc.AwaitReaper? || pc.Closed? || pc.Aborted?
  }

  predicate FutureReady(w: W.State, f: nat) {
    f < |w.futures| && w.futures[f].Resolved?
  }

  /** Steps of the worker and of `stop`; submission belongs to `GetEnd`, and nobody cancels. */
  predicate WorkerStep(step: W.Step) {
    step.StopStep? || step.SentinelStep? || step.TakeStep? || step.FinishStep?
  }

  predicate Enabled(cfg: Config, h: Host, a: Action) {
    match a
    case Accept(c) => c !in h.conns
    case ReaperEnters(c) => c in h.conns && h.conns[c].reaper.Unentered?
    case ClientGone(c) => c in h.conns && h.conns[c].pc.Receiving?
    case GetStart(c, _, _, _) => c in h.conns && h.conns[c].pc.Receiving?
    case GetBinary(c, _) => c in h.conns && h.conns[c].pc.Receiving?
    case GetEnd(c, _) => c in h.conns && h.conns[c].pc.Receiving?
    case GetClockSync(c, _, _, _) => c in h.conns && h.conns[c].pc.Receiving?
    case GetOther(c) => c in h.conns && h.conns[c].pc.Receiving?
    case SendDone(c) => c in h.conns && Sending(h.conns[c].pc)
    case SendFails(c) => c in h.conns && Sending(h.conns[c].pc)
    case FutureDone(c) => c in h.conns && h.conns[c].pc.AwaitFuture? && FutureReady(h.worker, h.conns[c].pc.future)
    case TeardownDone(c) => c in h.conns && h.conns[c].pc.AwaitReaper?
    case ReaperPolls(c) => c in h.conns && h.conns[c].reaper.Sleeping?
    case ReaperSendEnds(c, _) => c in h.conns && h.conns[c].reaper.SendTimeout?
    case WorkerMoves(step) =>
      WorkerStep(step) && W.Enabled(h.worker, cfg.maxQueue, step)
      && (step.FinishStep? ==> RunMayEnd(h.worker.held.value.ctx, step.outcome))
    case TimePasses(elapsed) => 0.0 <= elapsed
  }

  function Put(h: Host, c: ConnId, cn: Conn): Host {
    h.(conns := h.conns[c := cn])
  }

  function SetStage(h: Host, k: Ticket, stage: Stage): Host {
    if k < |h.records| then h.(records := h.records[k := h.records[k].(stage := stage)]) else h
  }

  /** Release by whoever resumes on connection `c`, recording why if a session was there. */
  function ReleaseAs(h: Host, c: ConnId, cn: Conn, stage: Stage): Host {
    var (reg, l) := Release(h.registry, cn.local);
    var h1 := Put(h.(registry := reg), c, cn.(local := l));
    if cn.local.inFlight.Some? && !cn.local.inFlight.value.submitted
    then SetStage(h1, cn.local.inFlight.value.ticket, stage)
    else h1
  }

  /** `finally` of `stream_endpoint` up to its await. Cancelling a reaper that has not entered its
      loop makes that await raise, so the cleanup behind it never runs. */
  function BeginTeardown(cn: Conn): Conn {
    cn.(pc := if cn.reaper.Unentered? then Aborted else AwaitReaper, reaper := Finished)
  }

  function Log(cn: Conn, e: Uplink): Conn {
    cn.(uplink := cn.uplink + [e])
  }

  function Sent(cn: Conn, d: Downlink, pc: RecvPc): Conn {
    cn.(sent := cn.sent + [d], pc := pc)
  }

  // ----- one function per step -----

  function DoStart(h: Host, c: ConnId, cn: Conn, session: string, user: string, wakeWord: int): Host {
    var k := |h.records|;
    var (reg, l, ok) := Start(h.registry, c, cn.local, session, user, wakeWord, h.now, k);
    if ok then
      Put(h.(registry := reg, records := h.records + [Record(c, session, user, |cn.uplink|, 0, Open)]),
          c, Log(cn, Opened(k)).(local := l, pc := SendReady(session, k)))
    else
      Put(h.(registry := reg), c, Log(cn, Other).(local := l, pc := SendCollision(session)))
  }

  function DoBinary(h: Host, c: ConnId, cn: Conn, data: seq<Byte>): Host {
    var logged := Log(cn, Binary(data));
    if cn.local.inFlight.None? then Put(h, c, logged)
    else if |data| % 2 != 0 then
      Put(h, c, logged.(pc := SendMalformed(cn.local.inFlight.value.session, cn.local.inFlight.value.ticket)))
    else
      Put(h, c, logged.(local := Buffer(cn.local, data, h.now)))
  }

  function DoEnd(cfg: Config, h: Host, c: ConnId, cn: Conn, session: string): Host {
    if cn.local.inFlight.None? || cn.local.inFlight.value.session != session then Put(h, c, Log(cn, Other))
    else HandOver(cfg, h, c, cn)
  }

  /** The session in flight is marked submitted and goes to the worker. */
  function HandOver(cfg: Config, h: Host, c: ConnId, cn: Conn): Host
    requires cn.local.inFlight.Some?
  {
    var f := cn.local.inFlight.value;
    var ctx := ContextOf(cn.local);
    var cn1 := Log(cn, Ended(f.ticket)).(local := MarkSubmitted(cn.local));
    var (w, s) := W.Submit(h.worker, cfg.maxQueue, ctx, Pcm.DecodeUplink(f.buffer), cfg.rate);
    var h1 := MarkEnd(h.(worker := w), f.ticket, |cn.uplink|);
    match s
    case Accepted(future) => SetStage(Put(h1, c, cn1.(pc := AwaitFuture(ctx, future))), f.ticket, Queued(future))
    case QueueFull => SetStage(Put(h1, c, cn1.(pc := SendOverflow(ctx))), f.ticket, OverflowPending)
    case Stopped => SetStage(Put(h1, c, BeginTeardown(cn1)), f.ticket, Refused)
  }

  /** What handing over does apart from the worker and the stage. */
  lemma HandOverShape(cfg: Config, h: Host, c: ConnId, cn: Conn)
    requires cn.local.inFlight.Some?
    ensures var h' := HandOver(cfg, h, c, cn);
            var t := cn.local.inFlight.value.ticket;
      && c in h'.conns && h'.conns == h.conns[c := h'.conns[c]]
      && h'.conns[c].local == MarkSubmitted(cn.local) && h'.conns[c].sent == cn.sent
      && h'.conns[c].uplink == cn.uplink + [Ended(t)]
      && h'.registry == h.registry && h'.traces == h.traces && h'.now == h.now
      && |h'.records| == |h.records| && forall k :: 0 <= k < |h.records| && k != t ==> h'.records[k] == h.records[k]
  {
  }

  function DoClockSync(h: Host, c: ConnId, cn: Conn, edgeSend: int, hostRecv: int, hostSend: int): Host {
    var (l, ok) := RecordClockSync(cn.local, edgeSend, hostRecv, hostSend);
    Put(h, c, Log(cn, Other).(local := l, pc := if ok then SendClock else Receiving))
  }

  function MarkEnd(h: Host, k: Ticket, at: nat): Host {
    if k < |h.records| then h.(records := h.records[k := h.records[k].(endedAt := at)]) else h
  }

  function AfterFrames(ctx: SessionContext, result: InteractionResult, next: nat): RecvPc {
    if next < |Pcm.Chunk100ms(result.ttsAudio)| then SendAudio(ctx, result, next) else SendTtsEnd(ctx, result)
  }

  /** Behind the error frame the degraded row is written. For an empty user the store raises, which ends
      the receive loop. */
  function DoOverflowSent(h: Host, c: ConnId, cn: Conn): Host
    requires cn.pc.SendOverflow?
  {
    var ctx := cn.pc.ctx;
    var sent := Sent(cn, Error(ctx.session, QueueOverflow, ctx.ticket), Receiving);
    var h1 := h.(traces := h.traces + TransportRows(ctx, "queue_overflow"));
    var h2 := if StoreAccepts(ctx.user) then ReleaseAs(h1, c, sent, Dropped) else Put(h1, c, BeginTeardown(sent));
    SetStage(h2, ctx.ticket, Overflowed)
  }

  function DoSendDone(h: Host, c: ConnId, cn: Conn): Host {
    match cn.pc
    case SendCollision(s) => Put(h, c, Sent(cn, Collision(s), Receiving))
    case SendReady(s, k) => Put(h, c, Sent(cn, Ready(s, k), Receiving))
    case SendClock => Put(h, c, Sent(cn, ClockReply, Receiving))
    case SendMalformed(s, k) => ReleaseAs(h, c, Sent(cn, Error(s, MalformedAudio, k), Receiving), Malformed)
    case SendOverflow(ctx) => DoOverflowSent(h, c, cn)
    case SendFailure(ctx, cause) =>
      ReleaseAs(h, c, Sent(cn, Error(ctx.session, WireCodeOf(cause), ctx.ticket), Receiving), Dropped)
    case SendResponse(ctx, r) =>
      Put(h, c, Sent(cn, Response(ctx.session, r.payload, ctx.ticket), AfterFrames(ctx, r, 0)))
    case SendAudio(ctx, r, i) =>
      var frames := Pcm.Chunk100ms(r.ttsAudio);
      Put(h, c, Sent(cn, Audio(if i < |frames| then frames[i] else [], ctx.ticket), AfterFrames(ctx, r, i + 1)))
    case SendTtsEnd(ctx, r) =>
      ReleaseAs(h, c, Sent(cn, TtsEnd(ctx.session, |Pcm.Chunk100ms(r.ttsAudio)|, ctx.ticket), Receiving), Dropped)
    case _ => h
  }

  function DoSendFails(h: Host, c: ConnId, cn: Conn): Host {
    var h1 := Put(h, c, BeginTeardown(cn));
    if cn.pc.SendOverflow? then SetStage(h1, cn.pc.ctx.ticket, OverflowUnreported) else h1
  }

  function DoFutureDone(h: Host, c: ConnId, cn: Conn): Host
    requires cn.pc.AwaitFuture? && FutureReady(h.worker, cn.pc.future)
  {
    match h.worker.futures[cn.pc.future].outcome
    case Answered(r) => Put(h, c, cn.(pc := SendResponse(cn.pc.ctx, r)))
    case Failed(cause) => Put(h, c, cn.(pc := SendFailure(cn.pc.ctx, cause)))
    case Escaped => Put(h, c, BeginTeardown(cn))
  }

  /** After a reclaim the reaper sends its error frame; if the store refuses the row it logs the error
      and goes on polling instead. */
  function AfterReclaim(reaper: ReaperPc, ctx: SessionContext): ReaperPc {
    if StoreAccepts(ctx.user) then SendTimeout(ctx) else reaper
  }

  function DoPoll(cfg: Config, h: Host, c: ConnId, cn: Conn): Host {
    if !Stale(cn.local, h.now, cfg.timeout) then h
    else
      var ctx := ContextOf(cn.local);
      ReleaseAs(h.(traces := h.traces + TransportRows(ctx, "session_timeout")), c,
                cn.(reaper := AfterReclaim(cn.reaper, ctx)), TimedOut)
  }

  function DoReaperSent(h: Host, c: ConnId, cn: Conn, delivered: bool): Host
    requires cn.reaper.SendTimeout?
  {
    var ctx := cn.reaper.ctx;
    var frames := if delivered then [Error(ctx.session, SessionTimeout, ctx.ticket)] else [];
    Put(h, c, cn.(reaper := Sleeping, sent := cn.sent + frames))
  }

  function DoWorker(cfg: Config, h: Host, step: W.Step): Host
    requires W.Enabled(h.worker, cfg.maxQueue, step)
  {
    var w := W.Apply(h.worker, cfg.maxQueue, step);
    var h1 := h.(worker := w);
    match step
    case TakeStep =>
      if w.held.Some? then SetStage(h1, w.held.value.ctx.ticket, Running(w.held.value.future)) else h1
    case FinishStep(outcome) =>
      var item := h.worker.held.value;
      SetStage(h1.(traces := h.traces + RowsOfRun(item.ctx, outcome)), item.ctx.ticket, Ran(item.future, outcome))
    case _ => h1
  }

  function Apply(cfg: Config, h: Host, a: Action): Host
    requires Enabled(cfg, h, a)
  {
    match a
    case Accept(c) => Put(h, c, Conn(IDLE, Receiving, Unentered, [], []))
    case ReaperEnters(c) => Put(h, c, h.conns[c].(reaper := Sleeping))
    case ClientGone(c) => Put(h, c, BeginTeardown(h.conns[c]))
    case GetStart(c, session, user, wakeWord) => DoStart(h, c, h.conns[c], session, user, wakeWord)
    case GetBinary(c, data) => DoBinary(h, c, h.conns[c], data)
    case GetEnd(c, session) => DoEnd(cfg, h, c, h.conns[c], session)
    case GetClockSync(c, e, r, s) => DoClockSync(h, c, h.conns[c], e, r, s)
    case GetOther(c) => Put(h, c, Log(h.conns[c], Other))
    case SendDone(c) => DoSendDone(h, c, h.conns[c])
    case SendFails(c) => DoSendFails(h, c, h.conns[c])
    case FutureDone(c) => DoFutureDone(h, c, h.conns[c])
    case TeardownDone(c) => ReleaseAs(h, c, h.conns[c].(pc := Closed), Dropped)
    case ReaperPolls(c) => DoPoll(cfg, h, c, h.conns[c])
    case ReaperSendEnds(c, delivered) => DoReaperSent(h, c, h.conns[c], delivered)
    case WorkerMoves(step) => DoWorker(cfg, h, step)
    case TimePasses(elapsed) => h.(now := h.now + elapsed)
  }

  // ----- runs -----

  ghost predicate Possible(cfg: Config, h: Host, run: seq<Action>)
    decreases |run|
  {
    run != [] ==> Enabled(cfg, h, run[0]) && Possible(cfg, Apply(cfg, h, run[0]), run[1..])
  }

  ghost function After(cfg: Config, h: Host, run: seq<Action>): Host
    requires Possible(cfg, h, run)
    decreases |run|
  {
    if run == [] then h else After(cfg, Apply(cfg, h, run[0]), run[1..])
  }
}
