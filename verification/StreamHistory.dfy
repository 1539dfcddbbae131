/** Histories only grow, and a settled session stays settled. */
module StreamHistory {
  import opened Session
  import opened Stream
  import opened StreamControl
  import Pcm
  import W = Worker

  /** Stages no step leaves. */
  predicate Settled(stage: Stage) {
    !stage.Open? && !stage.OverflowPending? && !stage.Queued? && !stage.Running?
  }

  predicate RecordEvolves(r: Record, r': Record) {
    && r'.conn == r.conn && r'.session == r.session && r'.user == r.user && r'.openedAt == r.openedAt
    && (Settled(r.stage) ==> r'.stage == r.stage)
    && (r.stage != Open ==> r'.stage != Open && r'.endedAt == r.endedAt)
    && (r.stage != Open && r'.stage == TimedOut ==> r.stage == TimedOut)
  }

  ghost predicate RecordsEvolve(records: seq<Record>, records': seq<Record>) {
    && |records| <= |records'|
    && forall k :: 0 <= k < |records| ==> RecordEvolves(records[k], records'[k])
  }

  predicate ConnEvolves(cn: Conn, cn': Conn) {
    cn.uplink <= cn'.uplink && cn.sent <= cn'.sent
      && (cn.local.clockOffset.Some? ==> cn'.local.clockOffset == cn.local.clockOffset)
  }

  ghost predicate Evolves(h: Host, h': Host) {
    && RecordsEvolve(h.records, h'.records)
    && (forall c :: c in h.conns ==> c in h'.conns && ConnEvolves(h.conns[c], h'.conns[c]))
    && h.traces <= h'.traces
    && h.worker.accepted <= h'.worker.accepted
    && h.now <= h'.now
  }

  /** A step of one connection that changes at most one record, and no settled one. */
  lemma ConnEvolution(h: Host, h': Host, c: ConnId, k: Ticket)
    requires c in h.conns && c in h'.conns && h'.conns == h.conns[c := h'.conns[c]]
    requires ConnEvolves(h.conns[c], h'.conns[c])
    requires h.traces <= h'.traces && h.worker.accepted <= h'.worker.accepted && h.now == h'.now
    requires h'.records == h.records
      || (k < |h.records| == |h'.records| && h'.records == h.records[k := h'.records[k]]
        && RecordEvolves(h.records[k], h'.records[k]))
    ensures Evolves(h, h')
  {
  }

  lemma HandOverEvolves(cfg: Config, h: Host, c: ConnId)
    requires c in h.conns && h.conns[c].local.inFlight.Some?
    requires var t := h.conns[c].local.inFlight.value.ticket; t < |h.records| && h.records[t].stage == Open
    ensures Evolves(h, HandOver(cfg, h, c, h.conns[c]))
  {
    HandOverShape(cfg, h, c, h.conns[c]);
    ConnEvolution(h, HandOver(cfg, h, c, h.conns[c]), c, h.conns[c].local.inFlight.value.ticket);
  }

  lemma EndEvolves(cfg: Config, h: Host, c: ConnId, session: string)
    requires Control(cfg, h) && c in h.conns && h.conns[c].pc.Receiving?
    ensures Evolves(h, DoEnd(cfg, h, c, h.conns[c], session))
  {
    var cn := h.conns[c];
    assert ConnOk(h.records, h.worker.accepted, c, cn);
    if cn.local.inFlight.None? || cn.local.inFlight.value.session != session {
      ConnEvolution(h, Put(h, c, Log(cn, Other)), c, 0);
    } else {
      HandOverEvolves(cfg, h, c);
    }
  }

  /** Release on connection `c`, whatever else the step rewrote there. */
  lemma ReleaseEvolves(cfg: Config, h: Host, c: ConnId, cn: Conn, stage: Stage)
    requires Control(cfg, h) && c in h.conns && cn.local == h.conns[c].local
    requires ConnEvolves(h.conns[c], cn) && stage != Open
    ensures Evolves(h, ReleaseAs(h, c, cn, stage))
  {
    assert ConnOk(h.records, h.worker.accepted, c, h.conns[c]);
    var f := cn.local.inFlight;
    ConnEvolution(h, ReleaseAs(h, c, cn, stage), c, if f.Some? then f.value.ticket else 0);
  }

  lemma OverflowEvolves(cfg: Config, h: Host, c: ConnId)
    requires Control(cfg, h) && c in h.conns && h.conns[c].pc.SendOverflow?
    ensures Evolves(h, DoOverflowSent(h, c, h.conns[c]))
  {
    assert ConnOk(h.records, h.worker.accepted, c, h.conns[c]);
    ConnEvolution(h, DoOverflowSent(h, c, h.conns[c]), c, h.conns[c].pc.ctx.ticket);
  }

  lemma SendDoneEvolves(cfg: Config, h: Host, c: ConnId)
    requires Control(cfg, h) && c in h.conns && Sending(h.conns[c].pc)
    ensures Evolves(h, DoSendDone(h, c, h.conns[c]))
  {
    var cn := h.conns[c];
    var anyTicket: Ticket := 0;
    assert ConnOk(h.records, h.worker.accepted, c, cn);
    match cn.pc {
      case SendMalformed(s, k) =>
        ReleaseEvolves(cfg, h, c, Sent(cn, Error(s, MalformedAudio, k), Receiving), Malformed);
      case SendOverflow(_) => OverflowEvolves(cfg, h, c);
      case SendFailure(ctx, cause) => ReleaseEvolves(cfg, h, c,
        Sent(cn, Error(ctx.session, WireCodeOf(cause), ctx.ticket), Receiving), Dropped);
      case SendTtsEnd(ctx, r) =>
        ReleaseEvolves(cfg, h, c, Sent(cn, TtsEnd(ctx.session, |Pcm.Chunk100ms(r.ttsAudio)|, ctx.ticket), Receiving),
          Dropped);
      case _ => ConnEvolution(h, DoSendDone(h, c, cn), c, anyTicket);
    }
  }

  /** A release takes nothing off the wire and leaves nothing in flight. */
  lemma ReleaseShape(h: Host, c: ConnId, cn: Conn, stage: Stage)
    ensures var h' := ReleaseAs(h, c, cn, stage);
      && c in h'.conns && h'.conns == h.conns[c := h'.conns[c]] && h'.worker == h.worker
      && h'.conns[c] == cn.(local := h'.conns[c].local) && h'.conns[c].local.inFlight.None?
  {
  }

  /** A send that completes takes nothing off the wire and leaves the handler holding what it held, or nothing. */
  lemma SendDoneShape(h: Host, c: ConnId)
    requires c in h.conns && Sending(h.conns[c].pc)
    ensures var h' := DoSendDone(h, c, h.conns[c]);
      && c in h'.conns && h'.conns == h.conns[c := h'.conns[c]] && h'.worker == h.worker
      && h'.conns[c].uplink == h.conns[c].uplink
      && (h'.conns[c].local.inFlight.None?
          || (h'.conns[c].local.inFlight == h.conns[c].local.inFlight && !h.conns[c].pc.SendMalformed?))
  {
    var cn := h.conns[c];
    match cn.pc {
      case SendMalformed(s, k) => ReleaseShape(h, c, Sent(cn, Error(s, MalformedAudio, k), Receiving), Malformed);
      case SendOverflow(ctx) =>
        ReleaseShape(h.(traces := h.traces + TransportRows(ctx, "queue_overflow")), c,
                     Sent(cn, Error(ctx.session, QueueOverflow, ctx.ticket), Receiving), Dropped);
      case SendFailure(ctx, cause) =>
        ReleaseShape(h, c, Sent(cn, Error(ctx.session, WireCodeOf(cause), ctx.ticket), Receiving), Dropped);
      case SendTtsEnd(ctx, r) =>
        ReleaseShape(h, c, Sent(cn, TtsEnd(ctx.session, |Pcm.Chunk100ms(r.ttsAudio)|, ctx.ticket), Receiving), Dropped);
      case _ =>
    }
  }

  lemma SendFailsEvolves(cfg: Config, h: Host, c: ConnId)
    requires Control(cfg, h) && c in h.conns && Sending(h.conns[c].pc)
    ensures Evolves(h, DoSendFails(h, c, h.conns[c]))
  {
    var pc := h.conns[c].pc;
    assert ConnOk(h.records, h.worker.accepted, c, h.conns[c]);
    ConnEvolution(h, DoSendFails(h, c, h.conns[c]), c, if pc.SendOverflow? then pc.ctx.ticket else 0);
  }

  lemma PollEvolves(cfg: Config, h: Host, c: ConnId)
    requires Control(cfg, h) && c in h.conns
    ensures Evolves(h, DoPoll(cfg, h, c, h.conns[c]))
  {
    var cn := h.conns[c];
    if Stale(cn.local, h.now, cfg.timeout) {
      assert ConnOk(h.records, h.worker.accepted, c, cn);
      ConnEvolution(h, DoPoll(cfg, h, c, cn), c, cn.local.inFlight.value.ticket);
    }
  }

  lemma TakeEvolves(cfg: Config, h: Host)
    requires Control(cfg, h) && Enabled(cfg, h, WorkerMoves(W.TakeStep))
    ensures Evolves(h, DoWorker(cfg, h, W.TakeStep))
  {
    var w := h.worker;
    if w.queue[0].Work? {
      W.TakeWork(w);
      assert w.accepted[w.queue[0].item.future] == w.queue[0].item;
      assert ItemOk(h.records, w, w.queue[0].item.future);
    }
  }

  lemma FinishEvolves(cfg: Config, h: Host, outcome: Outcome)
    requires Control(cfg, h) && Enabled(cfg, h, WorkerMoves(W.FinishStep(outcome)))
    ensures Evolves(h, DoWorker(cfg, h, W.FinishStep(outcome)))
  {
    var w := h.worker;
    assert w.accepted[|w.finished|] == w.held.value;
    assert ItemOk(h.records, w, |w.finished|);
  }

  lemma WorkerEvolves(cfg: Config, h: Host, step: W.Step)
    requires Control(cfg, h) && Enabled(cfg, h, WorkerMoves(step))
    ensures Evolves(h, DoWorker(cfg, h, step))
  {
    match step {
      case TakeStep => TakeEvolves(cfg, h);
      case FinishStep(outcome) => FinishEvolves(cfg, h, outcome);
      case _ =>
    }
  }

  lemma StartEvolves(h: Host, c: ConnId, session: string, user: string, wakeWord: int)
    requires c in h.conns
    ensures Evolves(h, DoStart(h, c, h.conns[c], session, user, wakeWord))
  {
  }

  lemma QuietEvolves(cfg: Config, h: Host, a: Action)
    requires Enabled(cfg, h, a)
    requires a.ReaperEnters? || a.ClientGone? || a.GetBinary? || a.GetClockSync? || a.GetOther? || a.FutureDone?
      || a.ReaperSendEnds?
    ensures Evolves(h, Apply(cfg, h, a))
  {
    ConnEvolution(h, Apply(cfg, h, a), a.c, 0);
  }

  lemma IncomingEvolves(cfg: Config, h: Host, a: Action)
    requires Control(cfg, h) && Enabled(cfg, h, a) && Incoming(a)
    ensures Evolves(h, Apply(cfg, h, a))
  {
    match a {
      case GetStart(c, session, user, wakeWord) => StartEvolves(h, c, session, user, wakeWord);
      case GetEnd(c, session) => EndEvolves(cfg, h, c, session);
      case _ => QuietEvolves(cfg, h, a);
    }
  }

  lemma ResumingEvolves(cfg: Config, h: Host, a: Action)
    requires Control(cfg, h) && Enabled(cfg, h, a) && Resuming(a)
    ensures Evolves(h, Apply(cfg, h, a))
  {
    match a {
      case SendDone(c) => SendDoneEvolves(cfg, h, c);
      case SendFails(c) => SendFailsEvolves(cfg, h, c);
      case FutureDone(c) => QuietEvolves(cfg, h, a);
      case TeardownDone(c) => ReleaseEvolves(cfg, h, c, h.conns[c].(pc := Closed), Dropped);
    }
  }

  lemma BackgroundEvolves(cfg: Config, h: Host, a: Action)
    requires Control(cfg, h) && Enabled(cfg, h, a) && !Incoming(a) && !Resuming(a)
    ensures Evolves(h, Apply(cfg, h, a))
  {
    match a {
      case Accept(c) =>
      case ReaperEnters(c) => QuietEvolves(cfg, h, a);
      case ReaperPolls(c) => PollEvolves(cfg, h, c);
      case ReaperSendEnds(c, _) => QuietEvolves(cfg, h, a);
      case WorkerMoves(step) => WorkerEvolves(cfg, h, step);
      case TimePasses(_) =>
    }
  }

  lemma StepEvolves(cfg: Config, h: Host, a: Action)
    requires Control(cfg, h) && Enabled(cfg, h, a)
    ensures Evolves(h, Apply(cfg, h, a))
  {
    if Incoming(a) {
      IncomingEvolves(cfg, h, a);
    } else if Resuming(a) {
      ResumingEvolves(cfg, h, a);
    } else {
      BackgroundEvolves(cfg, h, a);
    }
  }
}
