/** Trace conservation: how many decision-trace rows each session leaves behind. */
module StreamTraces {
  import opened Prelude
  import opened Session
  import opened Stream
  import opened StreamControl
  import W = Worker

  function ForTicket(k: Ticket): TraceRow -> bool {
    (row: TraceRow) => row.ticket == k
  }

  /** The rows of one session, in the order they were written. */
  function RowsOf(traces: seq<TraceRow>, k: Ticket): seq<TraceRow> {
    Filter(traces, ForTicket(k))
  }

  function KindsFor(stage: Stage): seq<TraceKind> {
    match stage
    case TimedOut => [Degraded("session_timeout")]
    case Overflowed => [Degraded("queue_overflow")]
    case Ran(_, Answered(_)) => [Full]
    case Ran(_, Failed(_)) => [Degraded("pipeline_failure")]
    case _ => []
  }

  /** The kinds of row a session has: none at all if the store refuses its user. */
  function KindsOf(r: Record): seq<TraceKind> {
    if StoreAccepts(r.user) then KindsFor(r.stage) else []
  }

  function RowsFor(r: Record, k: Ticket): seq<TraceRow> {
    var kinds := KindsOf(r);
    seq(|kinds|, i requires 0 <= i < |kinds| => TraceRow(r.session, r.user, kinds[i], k))
  }

  /** Every session has exactly the rows its fate calls for, and every row has a session. */
  ghost predicate Conserved(h: Host) {
    && (forall k :: 0 <= k < |h.records| ==> RowsOf(h.traces, k) == RowsFor(h.records[k], k))
    && (forall i :: 0 <= i < |h.traces| ==> h.traces[i].ticket < |h.records|)
  }

  lemma RowsOfAppend(a: seq<TraceRow>, b: seq<TraceRow>, k: Ticket)
    requires |b| <= 1
    ensures RowsOf(a + b, k) == RowsOf(a, k) + if b != [] && b[0].ticket == k then b else []
  {
    FilterAppend(a, b, ForTicket(k));
    if b != [] {
      assert b == [b[0]];
      FilterOne(b[0], ForTicket(k));
    }
  }

  lemma NoRows(traces: seq<TraceRow>, k: Ticket)
    requires forall i :: 0 <= i < |traces| ==> traces[i].ticket != k
    ensures RowsOf(traces, k) == []
  {
    FilterNone(traces, ForTicket(k));
  }

  function RowKinds(traces: seq<TraceRow>, k: Ticket): seq<TraceKind> {
    var rows := RowsOf(traces, k);
    seq(|rows|, i requires 0 <= i < |rows| => rows[i].kind)
  }

  /** The kinds of a session's rows are those of its fate. */
  lemma KindsFitStage(h: Host, k: Ticket)
    requires Conserved(h) && k < |h.records|
    ensures RowKinds(h.traces, k) == KindsOf(h.records[k])
  {
    assert RowsOf(h.traces, k) == RowsFor(h.records[k], k);
  }

  /** A step that writes `rows`, at most one and for ticket `t`. */
  lemma WriteStep(h: Host, h': Host, t: Ticket, rows: seq<TraceRow>)
    requires Conserved(h) && h'.traces == h.traces + rows
    requires |h.records| <= |h'.records|
    requires |rows| <= 1 && (rows != [] ==> rows[0].ticket == t < |h.records|)
    requires forall k :: 0 <= k < |h.records| ==>
      RowsFor(h'.records[k], k) == RowsFor(h.records[k], k) + if k == t then rows else []
    requires forall k :: |h.records| <= k < |h'.records| ==> KindsFor(h'.records[k].stage) == []
    ensures Conserved(h')
  {
    forall k | 0 <= k < |h'.records| ensures RowsOf(h'.traces, k) == RowsFor(h'.records[k], k) {
      RowsOfAppend(h.traces, rows, k);
      if k >= |h.records| { NoRows(h.traces, k); }
    }
  }

  /** A step that writes nothing. */
  lemma QuietStep(h: Host, h': Host)
    requires Conserved(h) && h'.traces == h.traces
    requires |h.records| <= |h'.records|
    requires forall k :: 0 <= k < |h.records| ==>
      RowsFor(h'.records[k], k) == RowsFor(h.records[k], k)
    requires forall k :: |h.records| <= k < |h'.records| ==> KindsFor(h'.records[k].stage) == []
    ensures Conserved(h')
  {
    WriteStep(h, h', 0, []);
  }

  lemma ResumingConserves(cfg: Config, h: Host, a: Action)
    requires Control(cfg, h) && Conserved(h) && Enabled(cfg, h, a) && Resuming(a)
    ensures Conserved(Apply(cfg, h, a))
  {
    match a {
      case SendDone(c) => SendDoneConserves(cfg, h, c);
      case SendFails(c) => SendFailsConserves(cfg, h, c);
      case FutureDone(c) => FutureDoneConserves(h, c);
      case TeardownDone(c) => TeardownConserves(cfg, h, c);
    }
  }

  lemma FutureDoneConserves(h: Host, c: ConnId)
    requires Conserved(h) && c in h.conns && h.conns[c].pc.AwaitFuture? && FutureReady(h.worker, h.conns[c].pc.future)
    ensures Conserved(DoFutureDone(h, c, h.conns[c]))
  {
    assert DoFutureDone(h, c, h.conns[c]).records == h.records;
  }

  lemma IncomingConserves(cfg: Config, h: Host, a: Action)
    requires Control(cfg, h) && Conserved(h) && Enabled(cfg, h, a) && Incoming(a)
    ensures Conserved(Apply(cfg, h, a))
  {
    match a {
      case ClientGone(c) => PutConserves(h, c, BeginTeardown(h.conns[c]));
      case GetStart(c, session, user, wakeWord) => StartConserves(h, c, session, user, wakeWord);
      case GetBinary(c, data) => BinaryConserves(h, c, data);
      case GetEnd(c, session) => EndConserves(cfg, h, c, session);
      case GetClockSync(c, e, r, s) => ClockSyncConserves(h, c, e, r, s);
      case GetOther(c) => PutConserves(h, c, Log(h.conns[c], Other));
    }
  }

  lemma BackgroundConserves(cfg: Config, h: Host, a: Action)
    requires Control(cfg, h) && Conserved(h) && Enabled(cfg, h, a) && !Incoming(a) && !Resuming(a)
    ensures Conserved(Apply(cfg, h, a))
  {
    match a {
      case ReaperPolls(c) => PollConserves(cfg, h, c);
      case WorkerMoves(step) => WorkerConserves(cfg, h, step);
      case Accept(c) => PutConserves(h, c, Conn(IDLE, Receiving, Unentered, [], []));
      case ReaperEnters(c) => PutConserves(h, c, h.conns[c].(reaper := Sleeping));
      case ReaperSendEnds(c, delivered) => PutConserves(h, c, DoReaperSent(h, c, h.conns[c], delivered).conns[c]);
      case TimePasses(_) =>
    }
  }

  lemma StepConserves(cfg: Config, h: Host, a: Action)
    requires Control(cfg, h) && Conserved(h) && Enabled(cfg, h, a)
    ensures Conserved(Apply(cfg, h, a))
  {
    if Incoming(a) {
      IncomingConserves(cfg, h, a);
    } else if Resuming(a) {
      ResumingConserves(cfg, h, a);
    } else {
      BackgroundConserves(cfg, h, a);
    }
  }

  lemma TeardownConserves(cfg: Config, h: Host, c: ConnId)
    requires Control(cfg, h) && Conserved(h) && c in h.conns
    ensures Conserved(ReleaseAs(h, c, h.conns[c].(pc := Closed), Dropped))
  {
    assert ConnOk(h.records, h.worker.accepted, c, h.conns[c]);
    QuietStep(h, ReleaseAs(h, c, h.conns[c].(pc := Closed), Dropped));
  }

  lemma StartConserves(h: Host, c: ConnId, session: string, user: string, wakeWord: int)
    requires Conserved(h) && c in h.conns
    ensures Conserved(DoStart(h, c, h.conns[c], session, user, wakeWord))
  {
    QuietStep(h, DoStart(h, c, h.conns[c], session, user, wakeWord));
  }

  lemma BinaryConserves(h: Host, c: ConnId, data: seq<Byte>)
    requires Conserved(h) && c in h.conns
    ensures Conserved(DoBinary(h, c, h.conns[c], data))
  {
    PutConserves(h, c, DoBinary(h, c, h.conns[c], data).conns[c]);
  }

  lemma ClockSyncConserves(h: Host, c: ConnId, e: int, r: int, s: int)
    requires Conserved(h) && c in h.conns
    ensures Conserved(DoClockSync(h, c, h.conns[c], e, r, s))
  {
    PutConserves(h, c, DoClockSync(h, c, h.conns[c], e, r, s).conns[c]);
  }

  lemma PutConserves(h: Host, c: ConnId, cn: Conn)
    requires Conserved(h)
    ensures Conserved(Put(h, c, cn))
  {
  }

  lemma SendDoneConserves(cfg: Config, h: Host, c: ConnId)
    requires Control(cfg, h) && Conserved(h) && c in h.conns && Sending(h.conns[c].pc)
    ensures Conserved(DoSendDone(h, c, h.conns[c]))
  {
    if h.conns[c].pc.SendOverflow? {
      OverflowConserves(cfg, h, c);
    } else {
      OtherSendConserves(cfg, h, c);
    }
  }

  lemma OverflowConserves(cfg: Config, h: Host, c: ConnId)
    requires Control(cfg, h) && Conserved(h) && c in h.conns && h.conns[c].pc.SendOverflow?
    ensures Conserved(DoOverflowSent(h, c, h.conns[c]))
  {
    var cn := h.conns[c];
    assert ConnOk(h.records, h.worker.accepted, c, cn);
    WriteStep(h, DoOverflowSent(h, c, cn), cn.pc.ctx.ticket, TransportRows(cn.pc.ctx, "queue_overflow"));
  }

  lemma OtherSendConserves(cfg: Config, h: Host, c: ConnId)
    requires Control(cfg, h) && Conserved(h) && c in h.conns && Sending(h.conns[c].pc) && !h.conns[c].pc.SendOverflow?
    ensures Conserved(DoSendDone(h, c, h.conns[c]))
  {
    assert ConnOk(h.records, h.worker.accepted, c, h.conns[c]);
    QuietStep(h, DoSendDone(h, c, h.conns[c]));
  }

  lemma SendFailsConserves(cfg: Config, h: Host, c: ConnId)
    requires Control(cfg, h) && Conserved(h) && c in h.conns && Sending(h.conns[c].pc)
    ensures Conserved(DoSendFails(h, c, h.conns[c]))
  {
    assert ConnOk(h.records, h.worker.accepted, c, h.conns[c]);
    QuietStep(h, DoSendFails(h, c, h.conns[c]));
  }

  lemma PollConserves(cfg: Config, h: Host, c: ConnId)
    requires Control(cfg, h) && Conserved(h) && c in h.conns
    ensures Conserved(DoPoll(cfg, h, c, h.conns[c]))
  {
    var cn := h.conns[c];
    assert ConnOk(h.records, h.worker.accepted, c, cn);
    if Stale(cn.local, h.now, cfg.timeout) {
      var ctx := ContextOf(cn.local);
      WriteStep(h, DoPoll(cfg, h, c, cn), ctx.ticket, TransportRows(ctx, "session_timeout"));
    }
  }

  lemma HandOverWritesNothing(cfg: Config, h: Host, c: ConnId)
    requires c in h.conns && h.conns[c].local.inFlight.Some?
    requires var t := h.conns[c].local.inFlight.value.ticket; t < |h.records| && h.records[t].stage == Open
    ensures var h' := HandOver(cfg, h, c, h.conns[c]);
            var t := h.conns[c].local.inFlight.value.ticket;
      |h'.records| == |h.records| && KindsFor(h'.records[t].stage) == []
  {
  }

  lemma EndConserves(cfg: Config, h: Host, c: ConnId, session: string)
    requires Control(cfg, h) && Conserved(h) && c in h.conns && h.conns[c].pc.Receiving?
    ensures Conserved(DoEnd(cfg, h, c, h.conns[c], session))
  {
    var cn := h.conns[c];
    assert ConnOk(h.records, h.worker.accepted, c, cn);
    if cn.local.inFlight.None? || cn.local.inFlight.value.session != session {
      QuietStep(h, Put(h, c, Log(cn, Other)));
    } else {
      HandOverShape(cfg, h, c, cn);
      HandOverWritesNothing(cfg, h, c);
      QuietStep(h, HandOver(cfg, h, c, cn));
    }
  }

  lemma WorkerConserves(cfg: Config, h: Host, step: W.Step)
    requires Control(cfg, h) && Conserved(h) && Enabled(cfg, h, WorkerMoves(step))
    ensures Conserved(DoWorker(cfg, h, step))
  {
    if step.TakeStep? {
      TakeConserves(cfg, h);
    } else if step.FinishStep? {
      FinishConserves(cfg, h, step.outcome);
    }
  }

  lemma TakeConserves(cfg: Config, h: Host)
    requires Control(cfg, h) && Conserved(h) && W.Enabled(h.worker, cfg.maxQueue, W.TakeStep)
    ensures Conserved(DoWorker(cfg, h, W.TakeStep))
  {
    var w := h.worker;
    if w.queue[0].Work? {
      W.TakeWork(w);
      assert w.accepted[w.queue[0].item.future] == w.queue[0].item;
      assert ItemOk(h.records, w, w.queue[0].item.future);
    }
    QuietStep(h, DoWorker(cfg, h, W.TakeStep));
  }

  lemma FinishConserves(cfg: Config, h: Host, outcome: Outcome)
    requires Control(cfg, h) && Conserved(h) && h.worker.held.Some?
    requires RunMayEnd(h.worker.held.value.ctx, outcome)
    ensures Conserved(DoWorker(cfg, h, W.FinishStep(outcome)))
  {
    var w := h.worker;
    assert w.accepted[|w.finished|] == w.held.value;
    assert ItemOk(h.records, w, |w.finished|);
    WriteStep(h, DoWorker(cfg, h, W.FinishStep(outcome)), w.held.value.ctx.ticket,
      RowsOfRun(w.held.value.ctx, outcome));
  }
}
