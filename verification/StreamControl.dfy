/** Every program counter agrees with the fate of the session it works for. */
module StreamControl {
  import opened Prelude
  import opened Session
  import opened Stream
  import Pcm
  import W = Worker

  predicate InFlightOk(records: seq<Record>, c: ConnId, f: InFlight) {
    && f.ticket < |records|
    && records[f.ticket].conn == c && records[f.ticket].session == f.session && records[f.ticket].user == f.user
    && (f.submitted <==> records[f.ticket].stage != Open)
  }

  predicate Unsubmitted(l: Local) {
    l.inFlight.Some? ==> !l.inFlight.value.submitted
  }

  /** The handler still holds the session it opened, or the reaper has reclaimed it meanwhile. */
  predicate HoldsOrTimedOut(records: seq<Record>, c: ConnId, l: Local, s: string, k: Ticket) {
    && k < |records| && records[k].conn == c && records[k].session == s
    && (if l.inFlight.None? then records[k].stage == TimedOut
        else l.inFlight.value.ticket == k && !l.inFlight.value.submitted)
  }

  predicate HoldsSubmitted(l: Local, ctx: SessionContext) {
    l.inFlight.Some? && l.inFlight.value.submitted && ctx == ContextOf(l)
  }

  predicate AtFuture(stage: Stage, f: nat) {
    stage == Queued(f) || stage == Running(f) || (stage.Ran? && stage.future == f)
  }

  predicate RanWith(records: seq<Record>, k: Ticket, outcome: Outcome) {
    k < |records| && records[k].stage.Ran? && records[k].stage.outcome == outcome
  }

  predicate PcOk(records: seq<Record>, accepted: seq<W.WorkItem>, c: ConnId, l: Local, pc: RecvPc) {
    match pc
    case Receiving => Unsubmitted(l)
    case SendCollision(_) => Unsubmitted(l)
    case SendClock => Unsubmitted(l)
    case SendReady(s, k) => HoldsOrTimedOut(records, c, l, s, k)
    case SendMalformed(s, k) => HoldsOrTimedOut(records, c, l, s, k)
    case SendOverflow(ctx) =>
      HoldsSubmitted(l, ctx) && ctx.ticket < |records| && records[ctx.ticket].stage == OverflowPending
    case AwaitFuture(ctx, f) =>
      && HoldsSubmitted(l, ctx) && ctx.ticket < |records| && AtFuture(records[ctx.ticket].stage, f)
      && f < |accepted| && accepted[f].ctx == ctx
    case SendFailure(ctx, cause) => HoldsSubmitted(l, ctx) && RanWith(records, ctx.ticket, Failed(cause))
    case SendResponse(ctx, r) => HoldsSubmitted(l, ctx) && RanWith(records, ctx.ticket, Answered(r))
    case SendAudio(ctx, r, i) =>
      HoldsSubmitted(l, ctx) && RanWith(records, ctx.ticket, Answered(r)) && i < |Pcm.Chunk100ms(r.ttsAudio)|
    case SendTtsEnd(ctx, r) => HoldsSubmitted(l, ctx) && RanWith(records, ctx.ticket, Answered(r))
    case AwaitReaper => true
    case Closed => l.inFlight.None?
    case Aborted => true
  }

  predicate ReaperOk(records: seq<Record>, c: ConnId, cn: Conn) {
    && (cn.reaper.Finished? <==> TearingDown(cn.pc))
    && (cn.reaper.SendTimeout? ==>
          var k := cn.reaper.ctx.ticket;
          k < |records| && records[k].conn == c && records[k].session == cn.reaper.ctx.session
          && records[k].stage == TimedOut && StoreAccepts(records[k].user))
  }

  predicate ConnOk(records: seq<Record>, accepted: seq<W.WorkItem>, c: ConnId, cn: Conn) {
    && (cn.local.inFlight.Some? ==> InFlightOk(records, c, cn.local.inFlight.value))
    && PcOk(records, accepted, c, cn.local, cn.pc)
    && ReaperOk(records, c, cn)
  }

  function StageAt(i: nat, f: W.FutureState): Stage {
    match f
    case Pending => Queued(i)
    case Running => Running(i)
    case Resolved(outcome) => Ran(i, outcome)
    case Cancelled => Dropped
  }

  /** Each accepted work item belongs to one record, whose stage follows the item's future. */
  predicate ItemOk(records: seq<Record>, w: W.State, i: nat)
    requires i < |w.accepted| && |w.futures| == |w.accepted|
  {
    var ctx := w.accepted[i].ctx;
    && ctx.ticket < |records|
    && !w.futures[i].Cancelled?
    && records[ctx.ticket].stage == StageAt(i, w.futures[i])
    && records[ctx.ticket].session == ctx.session && records[ctx.ticket].user == ctx.user
  }

  predicate IsItemStage(stage: Stage) {
    stage.Queued? || stage.Running? || stage.Ran?
  }

  /** A session whose user the store refuses never ends with a result or a recorded failure. */
  predicate RanOk(r: Record) {
    r.stage.Ran? ==> StoreAccepts(r.user) || r.stage.outcome.Escaped?
  }

  /** A session still open is the one its connection holds; one in the worker's hands has an item. */
  predicate RecordOk(conns: map<ConnId, Conn>, accepted: seq<W.WorkItem>, r: Record, k: Ticket) {
    && r.conn in conns
    && (r.stage == Open ==>
          var l := conns[r.conn].local; l.inFlight.Some? && l.inFlight.value.ticket == k)
    && (IsItemStage(r.stage) ==> r.stage.future < |accepted| && accepted[r.stage.future].ctx.ticket == k)
    && RanOk(r)
  }

  ghost predicate Control(cfg: Config, h: Host) {
    && W.Inv(h.worker, cfg.maxQueue)
    && (forall c :: c in h.conns ==> ConnOk(h.records, h.worker.accepted, c, h.conns[c]))
    && (forall i :: 0 <= i < |h.worker.accepted| ==> ItemOk(h.records, h.worker, i))
    && (forall k :: 0 <= k < |h.records| ==> RecordOk(h.conns, h.worker.accepted, h.records[k], k))
  }

  // ----- frame -----

  /** Records changed at most for tickets of connection `c` that the worker does not have. */
  predicate OnlyTicketsOf(c: ConnId, records: seq<Record>, records': seq<Record>) {
    && |records| <= |records'|
    && forall k :: 0 <= k < |records| && (records[k].conn != c || IsItemStage(records[k].stage)) ==>
      records'[k] == records[k]
  }

  /** A step of connection `c` that leaves its tickets' connections alone and touches no item. */
  lemma ConnStep(cfg: Config, h: Host, h': Host, c: ConnId)
    requires Control(cfg, h) && c in h'.conns
    requires h'.worker == h.worker
    requires h'.conns == h.conns[c := h'.conns[c]]
    requires OnlyTicketsOf(c, h.records, h'.records)
    requires ConnOk(h'.records, h'.worker.accepted, c, h'.conns[c])
    requires forall k :: 0 <= k < |h'.records| && (k >= |h.records| || h.records[k].conn == c) ==>
      RecordOk(h'.conns, h'.worker.accepted, h'.records[k], k)
    ensures Control(cfg, h')
  {
    forall c' | c' in h'.conns ensures ConnOk(h'.records, h'.worker.accepted, c', h'.conns[c']) {
      if c' != c {
        assert ConnOk(h.records, h.worker.accepted, c', h.conns[c']);
        OtherConn(h.records, h'.records, h.worker.accepted, c, c', h.conns[c']);
      }
    }
    forall i | 0 <= i < |h.worker.accepted| ensures ItemOk(h'.records, h'.worker, i) {
      assert ItemOk(h.records, h.worker, i);
    }
  }

  lemma OtherConn(records: seq<Record>, records': seq<Record>, accepted: seq<W.WorkItem>, c: ConnId, c': ConnId,
      cn: Conn)
    requires c' != c && OnlyTicketsOf(c, records, records') && ConnOk(records, accepted, c', cn)
    ensures ConnOk(records', accepted, c', cn)
  {
  }

  predicate SameHolding(l: Local, l': Local) {
    && (l.inFlight.Some? <==> l'.inFlight.Some?)
    && (l.inFlight.Some? ==> l.inFlight.value.ticket == l'.inFlight.value.ticket)
  }

  /** A step that rewrites one connection only, holding what it held. */
  lemma PutOk(cfg: Config, h: Host, c: ConnId, cn: Conn)
    requires Control(cfg, h)
    requires c in h.conns ==> SameHolding(h.conns[c].local, cn.local)
    requires ConnOk(h.records, h.worker.accepted, c, cn)
    ensures Control(cfg, Put(h, c, cn))
  {
    ConnStep(cfg, h, Put(h, c, cn), c);
  }

  /** A stage change of a session that is not in the worker's hands. */
  lemma SetStageOk(cfg: Config, h: Host, c: ConnId, cn: Conn, k: Ticket, stage: Stage)
    requires Control(cfg, h) && c in h.conns && SameHolding(h.conns[c].local, cn.local)
    requires k < |h.records| && h.records[k].conn == c && h.records[k].stage != Open && !IsItemStage(h.records[k].stage)
    requires stage != Open && !IsItemStage(stage)
    requires ConnOk(SetStage(h, k, stage).records, h.worker.accepted, c, cn)
    ensures Control(cfg, SetStage(Put(h, c, cn), k, stage))
  {
    ConnStep(cfg, h, SetStage(Put(h, c, cn), k, stage), c);
  }

  /** Release, whoever resumes: the connection ends up idle and the record says why. */
  lemma ReleaseOk(cfg: Config, h: Host, c: ConnId, cn: Conn, stage: Stage)
    requires Control(cfg, h) && c in h.conns && cn.local == h.conns[c].local
    requires stage != Open && !IsItemStage(stage)
    requires var h' := ReleaseAs(h, c, cn, stage); ConnOk(h'.records, h.worker.accepted, c, h'.conns[c])
    ensures Control(cfg, ReleaseAs(h, c, cn, stage))
  {
    var h' := ReleaseAs(h, c, cn, stage);
    assert h'.conns == h.conns[c := h'.conns[c]] && h'.worker == h.worker;
    assert ConnOk(h.records, h.worker.accepted, c, h.conns[c]);
    ConnStep(cfg, h, h', c);
  }

  // ----- steps -----

  lemma StartKeepsControl(cfg: Config, h: Host, c: ConnId, session: string, user: string, wakeWord: int)
    requires Control(cfg, h) && c in h.conns && h.conns[c].pc.Receiving?
    requires h.conns[c].local.current.None? ==> h.conns[c].local.inFlight.None?
    ensures Control(cfg, DoStart(h, c, h.conns[c], session, user, wakeWord))
  {
    var cn := h.conns[c];
    assert ConnOk(h.records, h.worker.accepted, c, cn);
    ConnStep(cfg, h, DoStart(h, c, cn, session, user, wakeWord), c);
  }

  lemma BinaryKeepsControl(cfg: Config, h: Host, c: ConnId, data: seq<Byte>)
    requires Control(cfg, h) && c in h.conns && h.conns[c].pc.Receiving?
    ensures Control(cfg, DoBinary(h, c, h.conns[c], data))
  {
    assert ConnOk(h.records, h.worker.accepted, c, h.conns[c]);
    PutOk(cfg, h, c, DoBinary(h, c, h.conns[c], data).conns[c]);
  }

  lemma SendDoneKeepsControl(cfg: Config, h: Host, c: ConnId)
    requires Control(cfg, h) && c in h.conns && Sending(h.conns[c].pc)
    ensures Control(cfg, DoSendDone(h, c, h.conns[c]))
  {
    match h.conns[c].pc {
      case SendOverflow(_) => OverflowKeepsControl(cfg, h, c);
      case SendMalformed(_, _) => LastSendKeepsControl(cfg, h, c);
      case SendFailure(_, _) => LastSendKeepsControl(cfg, h, c);
      case SendTtsEnd(_, _) => LastSendKeepsControl(cfg, h, c);
      case _ => PlainSendKeepsControl(cfg, h, c);
    }
  }

  lemma PlainSendKeepsControl(cfg: Config, h: Host, c: ConnId)
    requires Control(cfg, h) && c in h.conns
    requires var pc := h.conns[c].pc;
      pc.SendCollision? || pc.SendReady? || pc.SendClock? || pc.SendResponse? || pc.SendAudio?
    ensures Control(cfg, DoSendDone(h, c, h.conns[c]))
  {
    assert ConnOk(h.records, h.worker.accepted, c, h.conns[c]);
    PutOk(cfg, h, c, DoSendDone(h, c, h.conns[c]).conns[c]);
  }

  /** A send after which the handler releases its session. */
  lemma LastSendKeepsControl(cfg: Config, h: Host, c: ConnId)
    requires Control(cfg, h) && c in h.conns
    requires var pc := h.conns[c].pc; pc.SendMalformed? || pc.SendFailure? || pc.SendTtsEnd?
    ensures Control(cfg, DoSendDone(h, c, h.conns[c]))
  {
    var cn := h.conns[c];
    assert ConnOk(h.records, h.worker.accepted, c, cn);
    var d := if cn.pc.SendMalformed? then Error(cn.pc.session, MalformedAudio, cn.pc.ticket)
             else if cn.pc.SendFailure? then Error(cn.pc.ctx.session, WireCodeOf(cn.pc.cause), cn.pc.ctx.ticket)
             else TtsEnd(cn.pc.ctx.session, |Pcm.Chunk100ms(cn.pc.result.ttsAudio)|, cn.pc.ctx.ticket);
    ReleaseOk(cfg, h, c, Sent(cn, d, Receiving), if cn.pc.SendMalformed? then Malformed else Dropped);
  }

  lemma OverflowKeepsControl(cfg: Config, h: Host, c: ConnId)
    requires Control(cfg, h) && c in h.conns && h.conns[c].pc.SendOverflow?
    ensures Control(cfg, DoOverflowSent(h, c, h.conns[c]))
  {
    var cn := h.conns[c];
    var ctx := cn.pc.ctx;
    var sent := Sent(cn, Error(ctx.session, QueueOverflow, ctx.ticket), Receiving);
    var h1 := h.(traces := h.traces + TransportRows(ctx, "queue_overflow"));
    if StoreAccepts(ctx.user) {
      OverflowReleases(cfg, h1, c);
      OverflowMarks(cfg, ReleaseAs(h1, c, sent, Dropped), c, ctx.ticket);
    } else {
      assert ConnOk(h.records, h.worker.accepted, c, cn);
      SetStageOk(cfg, h1, c, BeginTeardown(sent), ctx.ticket, Overflowed);
    }
  }

  lemma OverflowMarks(cfg: Config, h: Host, c: ConnId, t: Ticket)
    requires Control(cfg, h) && c in h.conns && h.conns[c].local.inFlight.None? && t < |h.records|
    requires h.records[t].conn == c && h.records[t].stage == OverflowPending
    requires h.conns[c].pc == Receiving && ConnOk(h.records, h.worker.accepted, c, h.conns[c])
    ensures Control(cfg, SetStage(h, t, Overflowed))
  {
    SetStageOk(cfg, h, c, h.conns[c], t, Overflowed);
    assert Put(h, c, h.conns[c]) == h;
  }

  lemma OverflowReleases(cfg: Config, h: Host, c: ConnId)
    requires Control(cfg, h) && c in h.conns && h.conns[c].pc.SendOverflow?
    ensures var cn := h.conns[c];
            var ctx := cn.pc.ctx;
            var h2 := ReleaseAs(h, c, Sent(cn, Error(ctx.session, QueueOverflow, ctx.ticket), Receiving), Dropped);
      && Control(cfg, h2) && c in h2.conns && h2.conns[c].local.inFlight.None? && ctx.ticket < |h2.records|
      && h2.conns[c].pc == Receiving
      && h2.records[ctx.ticket].conn == c && h2.records[ctx.ticket].stage == OverflowPending
      && ConnOk(h2.records, h2.worker.accepted, c, h2.conns[c])
  {
    var cn := h.conns[c];
    assert ConnOk(h.records, h.worker.accepted, c, cn);
    ReleaseOk(cfg, h, c, Sent(cn, Error(cn.pc.ctx.session, QueueOverflow, cn.pc.ctx.ticket), Receiving), Dropped);
  }

  lemma SendFailsKeepsControl(cfg: Config, h: Host, c: ConnId)
    requires Control(cfg, h) && c in h.conns && Sending(h.conns[c].pc)
    ensures Control(cfg, DoSendFails(h, c, h.conns[c]))
  {
    var cn := h.conns[c];
    assert ConnOk(h.records, h.worker.accepted, c, cn);
    if cn.pc.SendOverflow? {
      SetStageOk(cfg, h, c, BeginTeardown(cn), cn.pc.ctx.ticket, OverflowUnreported);
    } else {
      PutOk(cfg, h, c, BeginTeardown(cn));
    }
  }

  lemma FutureDoneKeepsControl(cfg: Config, h: Host, c: ConnId)
    requires Control(cfg, h) && Enabled(cfg, h, FutureDone(c))
    ensures Control(cfg, DoFutureDone(h, c, h.conns[c]))
  {
    var cn := h.conns[c];
    assert ConnOk(h.records, h.worker.accepted, c, cn);
    assert ItemOk(h.records, h.worker, cn.pc.future);
    match h.worker.futures[cn.pc.future].outcome {
      case Answered(r) => PutOk(cfg, h, c, cn.(pc := SendResponse(cn.pc.ctx, r)));
      case Failed(cause) => PutOk(cfg, h, c, cn.(pc := SendFailure(cn.pc.ctx, cause)));
      case Escaped => PutOk(cfg, h, c, BeginTeardown(cn));
    }
  }

  lemma PollKeepsControl(cfg: Config, h: Host, c: ConnId)
    requires Control(cfg, h) && c in h.conns && h.conns[c].reaper.Sleeping?
    ensures Control(cfg, DoPoll(cfg, h, c, h.conns[c]))
  {
    var cn := h.conns[c];
    assert ConnOk(h.records, h.worker.accepted, c, cn);
    if Stale(cn.local, h.now, cfg.timeout) {
      var ctx := ContextOf(cn.local);
      ReleaseOk(cfg, h.(traces := h.traces + TransportRows(ctx, "session_timeout")), c,
        cn.(reaper := AfterReclaim(cn.reaper, ctx)), TimedOut);
    }
  }

  lemma TeardownDoneKeepsControl(cfg: Config, h: Host, c: ConnId)
    requires Control(cfg, h) && c in h.conns && h.conns[c].pc.AwaitReaper?
    ensures Control(cfg, ReleaseAs(h, c, h.conns[c].(pc := Closed), Dropped))
  {
    assert ConnOk(h.records, h.worker.accepted, c, h.conns[c]);
    ReleaseOk(cfg, h, c, h.conns[c].(pc := Closed), Dropped);
  }

  // ----- steps that involve the worker -----

  lemma EndKeepsControl(cfg: Config, h: Host, c: ConnId, session: string)
    requires Control(cfg, h) && c in h.conns && h.conns[c].pc.Receiving?
    ensures Control(cfg, DoEnd(cfg, h, c, h.conns[c], session))
  {
    var cn := h.conns[c];
    assert ConnOk(h.records, h.worker.accepted, c, cn);
    if cn.local.inFlight.None? || cn.local.inFlight.value.session != session {
      PutOk(cfg, h, c, Log(cn, Other));
    } else {
      EndOfUtterance(cfg, h, c, session);
    }
  }

  function Submission(cfg: Config, h: Host, l: Local): W.Submission
    requires l.inFlight.Some?
  {
    W.Submit(h.worker, cfg.maxQueue, ContextOf(l), Pcm.DecodeUplink(l.inFlight.value.buffer), cfg.rate).1
  }

  lemma EndOfUtterance(cfg: Config, h: Host, c: ConnId, session: string)
    requires Control(cfg, h) && c in h.conns && h.conns[c].pc.Receiving?
    requires var l := h.conns[c].local; l.inFlight.Some? && l.inFlight.value.session == session
    requires ConnOk(h.records, h.worker.accepted, c, h.conns[c])
    ensures Control(cfg, DoEnd(cfg, h, c, h.conns[c], session))
  {
    var l := h.conns[c].local;
    W.SubmitKeepsInv(h.worker, cfg.maxQueue, ContextOf(l), Pcm.DecodeUplink(l.inFlight.value.buffer), cfg.rate);
    if Submission(cfg, h, l).Accepted? {
      AcceptedKeepsControl(cfg, h, DoEnd(cfg, h, c, h.conns[c], session), c, l.inFlight.value.ticket, ContextOf(l));
    } else {
      RejectedKeepsControl(cfg, h, c, session);
    }
  }

  lemma RejectedKeepsControl(cfg: Config, h: Host, c: ConnId, session: string)
    requires Control(cfg, h) && c in h.conns && h.conns[c].pc.Receiving?
    requires var l := h.conns[c].local; l.inFlight.Some? && l.inFlight.value.session == session
    requires ConnOk(h.records, h.worker.accepted, c, h.conns[c])
    requires !Submission(cfg, h, h.conns[c].local).Accepted?
    ensures Control(cfg, DoEnd(cfg, h, c, h.conns[c], session))
  {
    HandOverShape(cfg, h, c, h.conns[c]);
    RejectedConn(cfg, h, c);
    ConnStep(cfg, h, HandOver(cfg, h, c, h.conns[c]), c);
  }

  lemma RejectedConn(cfg: Config, h: Host, c: ConnId)
    requires c in h.conns && h.conns[c].pc.Receiving? && h.conns[c].local.inFlight.Some?
    requires ConnOk(h.records, h.worker.accepted, c, h.conns[c])
    requires !Submission(cfg, h, h.conns[c].local).Accepted?
    ensures var h' := HandOver(cfg, h, c, h.conns[c]);
            var t := h.conns[c].local.inFlight.value.ticket;
      && h'.worker == h.worker && ConnOk(h'.records, h.worker.accepted, c, h'.conns[c])
      && t < |h'.records| && h'.records[t].conn == h.records[t].conn
      && h'.records[t].stage != Open && !IsItemStage(h'.records[t].stage)
  {
    HandOverShape(cfg, h, c, h.conns[c]);
  }

  /** What accepting an utterance does to the host. */
  ghost predicate Accepting(cfg: Config, h: Host, h': Host, c: ConnId, t: Ticket, ctx: SessionContext) {
    && W.Inv(h'.worker, cfg.maxQueue)
    && t == ctx.ticket < |h.records| && h.records[t].conn == c && h.records[t].stage == Open
    && ctx.session == h.records[t].session && ctx.user == h.records[t].user
    && c in h'.conns && h'.conns == h.conns[c := h'.conns[c]]
    && |h'.worker.accepted| == |h.worker.accepted| + 1 && h'.worker.accepted[..|h.worker.accepted|] == h.worker.accepted
    && h'.worker.accepted[|h.worker.accepted|].ctx == ctx
    && h'.worker.futures == h.worker.futures + [W.Pending]
    && |h'.records| == |h.records|
      && h'.records[t] == h.records[t].(endedAt := h'.records[t].endedAt, stage := Queued(|h.worker.accepted|))
    && (forall k :: 0 <= k < |h.records| && k != t ==> h'.records[k] == h.records[k])
  }

  lemma AcceptedKeepsControl(cfg: Config, h: Host, h': Host, c: ConnId, t: Ticket, ctx: SessionContext)
    requires Control(cfg, h) && c in h.conns && ConnOk(h.records, h.worker.accepted, c, h.conns[c])
    requires Accepting(cfg, h, h', c, t, ctx)
    requires HoldsSubmitted(h'.conns[c].local, ctx) && h'.conns[c].pc == AwaitFuture(ctx, |h.worker.accepted|)
    requires h'.conns[c].reaper == h.conns[c].reaper && !h.conns[c].reaper.Finished?
    requires InFlightOk(h'.records, c, h'.conns[c].local.inFlight.value)
    ensures Control(cfg, h')
  {
    forall c' | c' in h'.conns ensures ConnOk(h'.records, h'.worker.accepted, c', h'.conns[c']) {
      if c' != c { AcceptedOtherConn(cfg, h, h', c, t, ctx, c'); }
    }
    AcceptedItems(cfg, h, h', c, t, ctx);
  }

  lemma AcceptedOtherConn(cfg: Config, h: Host, h': Host, c: ConnId, t: Ticket, ctx: SessionContext, c': ConnId)
    requires Control(cfg, h) && c in h.conns && Accepting(cfg, h, h', c, t, ctx)
    requires c' in h.conns && c' != c
    ensures ConnOk(h'.records, h'.worker.accepted, c', h'.conns[c'])
  {
    assert ConnOk(h.records, h.worker.accepted, c', h.conns[c']);
    OtherConn(h.records, h'.records, h.worker.accepted, c, c', h.conns[c']);
    MoreAccepted(h'.records, h.worker.accepted, h'.worker.accepted, c', h'.conns[c']);
  }

  lemma AcceptedItems(cfg: Config, h: Host, h': Host, c: ConnId, t: Ticket, ctx: SessionContext)
    requires Control(cfg, h) && c in h.conns && Accepting(cfg, h, h', c, t, ctx)
    ensures forall i :: 0 <= i < |h'.worker.accepted| ==> ItemOk(h'.records, h'.worker, i)
    ensures forall k :: 0 <= k < |h'.records| ==> RecordOk(h'.conns, h'.worker.accepted, h'.records[k], k)
  {
    forall i | 0 <= i < |h'.worker.accepted| ensures ItemOk(h'.records, h'.worker, i) {
      if i < |h.worker.accepted| { assert ItemOk(h.records, h.worker, i); }
    }
    forall k | 0 <= k < |h'.records| ensures RecordOk(h'.conns, h'.worker.accepted, h'.records[k], k) {
      assert RecordOk(h.conns, h.worker.accepted, h.records[k], k);
    }
  }

  lemma MoreAccepted(records: seq<Record>, accepted: seq<W.WorkItem>, accepted': seq<W.WorkItem>, c: ConnId, cn: Conn)
    requires ConnOk(records, accepted, c, cn) && accepted <= accepted'
    ensures ConnOk(records, accepted', c, cn)
  {
  }

  /** The worker moves the future of one item on, and its record follows. */
  lemma AdvanceOk(cfg: Config, h: Host, w': W.State, i: nat, fs: W.FutureState)
    requires Control(cfg, h) && W.Inv(w', cfg.maxQueue)
    requires i < |h.worker.accepted| && w'.accepted == h.worker.accepted
    requires w'.futures == h.worker.futures[i := fs] && !fs.Cancelled?
    requires fs.Running? ==> h.worker.futures[i].Pending?
    requires fs.Resolved? ==> h.worker.futures[i].Running?
    requires fs.Pending? ==> h.worker.futures[i].Pending?
    requires fs.Resolved? ==> RunMayEnd(h.worker.accepted[i].ctx, fs.outcome)
    ensures Control(cfg, SetStage(h.(worker := w'), h.worker.accepted[i].ctx.ticket, StageAt(i, fs)))
  {
    var t := h.worker.accepted[i].ctx.ticket;
    assert ItemOk(h.records, h.worker, i);
    var h' := SetStage(h.(worker := w'), t, StageAt(i, fs));
    forall c | c in h'.conns ensures ConnOk(h'.records, h'.worker.accepted, c, h'.conns[c]) {
      assert ConnOk(h.records, h.worker.accepted, c, h.conns[c]);
      AdvancedConn(h.records, h'.records, h.worker.accepted, t, i, c, h.conns[c]);
    }
    forall j | 0 <= j < |h'.worker.accepted| ensures ItemOk(h'.records, h'.worker, j) {
      assert ItemOk(h.records, h.worker, j);
    }
  }

  lemma AdvancedConn(records: seq<Record>, records': seq<Record>, accepted: seq<W.WorkItem>, t: Ticket, i: nat,
      c: ConnId, cn: Conn)
    requires ConnOk(records, accepted, c, cn)
    requires t < |records| && AtFuture(records[t].stage, i) && !records[t].stage.Ran?
    requires exists stage :: AtFuture(stage, i) && records' == records[t := records[t].(stage := stage)]
    ensures ConnOk(records', accepted, c, cn)
  {
  }

  lemma WorkerKeepsControl(cfg: Config, h: Host, step: W.Step)
    requires Control(cfg, h) && Enabled(cfg, h, WorkerMoves(step))
    ensures Control(cfg, DoWorker(cfg, h, step))
  {
    var w := h.worker;
    var w' := W.Apply(w, cfg.maxQueue, step);
    W.StepKeepsInv(w, cfg.maxQueue, step);
    if step.TakeStep? && w.queue[0].Work? {
      W.TakeWork(w);
      var i := w.queue[0].item.future;
      assert w.accepted[i] == w.queue[0].item;
      assert ItemOk(h.records, w, i);
      AdvanceOk(cfg, h, w', i, W.Running);
    } else if step.FinishStep? {
      var i := w.held.value.future;
      assert w.accepted[|w.finished|] == w.held.value;
      AdvanceOk(cfg, h.(traces := h.traces + RowsOfRun(w.held.value.ctx, step.outcome)), w', i,
        W.Resolved(step.outcome));
    } else {
      assert w'.futures == w.futures && w'.accepted == w.accepted;
      IdleWorkerStep(cfg, h, w');
    }
  }

  lemma IdleWorkerStep(cfg: Config, h: Host, w': W.State)
    requires Control(cfg, h) && W.Inv(w', cfg.maxQueue)
    requires w'.futures == h.worker.futures && w'.accepted == h.worker.accepted
    ensures Control(cfg, h.(worker := w'))
  {
    forall i | 0 <= i < |w'.accepted| ensures ItemOk(h.records, w', i) {
      assert ItemOk(h.records, h.worker, i);
    }
  }
}
