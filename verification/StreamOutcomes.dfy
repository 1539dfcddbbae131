/** What a run leaves behind: trace rows, answers and audio, session by session. */
module StreamOutcomes {
  import opened Prelude
  import opened Session
  import opened Stream
  import opened StreamControl
  import opened StreamHistory
  import opened StreamTraces
  import opened StreamWire
  import opened StreamRouting
  import opened StreamSafety
  import Pcm
  import W = Worker

  lemma Reachable(cfg: Config, run: seq<Action>)
    requires Possible(cfg, BOOT, run)
    ensures Inv(cfg, After(cfg, BOOT, run))
  {
    BootIsSafe(cfg);
    RunKeepsInv(cfg, BOOT, run);
  }

  // ----- trace rows -----

  /** No session ever has two rows. One whose runner answered has exactly its full row, one whose
      runner failed or that timed out exactly its degraded row, one released by a malformed frame
      or dropped before submission none. One whose user the store refuses has none whatever became of
      it, and no run for it ends with an answer or a failure. */
  lemma TraceConservation(cfg: Config, run: seq<Action>, k: Ticket)
    requires Possible(cfg, BOOT, run) && k < |After(cfg, BOOT, run).records|
    ensures var h := After(cfg, BOOT, run);
            var rows, r := RowsOf(h.traces, k), h.records[k];
      && |rows| <= 1
      && (rows != [] ==> rows[0].session == r.session && rows[0].user == r.user && rows[0].ticket == k)
      && (!StoreAccepts(r.user) ==> rows == [] && (r.stage.Ran? ==> r.stage.outcome.Escaped?))
      && (StoreAccepts(r.user) ==>
            match r.stage
            case TimedOut => |rows| == 1 && rows[0].kind == Degraded("session_timeout")
            case Ran(_, Answered(_)) => |rows| == 1 && rows[0].kind == Full
            case Ran(_, Failed(_)) => |rows| == 1 && rows[0].kind == Degraded("pipeline_failure")
            case Overflowed => |rows| == 1 && rows[0].kind == Degraded("queue_overflow")
            case _ => rows == [])
  {
    Reachable(cfg, run);
    var h := After(cfg, BOOT, run);
    assert RowsOf(h.traces, k) == RowsFor(h.records[k], k);
    assert RecordOk(h.conns, h.worker.accepted, h.records[k], k);
  }

  predicate RejectedByQueue(stage: Stage) {
    stage.OverflowPending? || stage.Overflowed? || stage.OverflowUnreported?
  }

  /** A session the queue rejected has its degraded row if and only if the `queue_overflow` error
      frame went out, for the handler writes the row only after that send has returned, and its user
      id is one the store accepts. */
  lemma OverflowRowIffErrorSent(cfg: Config, run: seq<Action>, k: Ticket)
    requires Possible(cfg, BOOT, run) && k < |After(cfg, BOOT, run).records|
    requires RejectedByQueue(After(cfg, BOOT, run).records[k].stage)
    ensures var h := After(cfg, BOOT, run);
      |RowsOf(h.traces, k)| == 1 <==> ToldOverflow(h, k) && StoreAccepts(h.records[k].user)
  {
    Reachable(cfg, run);
    TraceConservation(cfg, run, k);
    var h := After(cfg, BOOT, run);
    var r := h.records[k];
    assert RecordOk(h.conns, h.worker.accepted, r, k);
    if ToldOverflow(h, k) {
      var i :| 0 <= i < |h.conns[r.conn].sent| && h.conns[r.conn].sent[i] == Error(r.session, QueueOverflow, k);
      assert FrameOk(h.records, r.conn, h.conns[r.conn].sent[i]);
    }
  }

  /** The trace kinds that go with a frame for a session of `user`. */
  predicate KindsFitFrame(d: Downlink, user: string, kinds: seq<TraceKind>) {
    match d
    case Response(_, _, _) => kinds == [Full]
    case Audio(_, _) => kinds == [Full]
    case TtsEnd(_, _, _) => kinds == [Full]
    case Error(_, SessionTimeout, _) => kinds == [Degraded("session_timeout")]
    case Error(_, QueueOverflow, _) => kinds == if StoreAccepts(user) then [Degraded("queue_overflow")] else []
    case Error(_, PipelineFailure, _) => kinds == [Degraded("pipeline_failure")]
    case Error(_, MalformedAudio, _) =>
      kinds == [] || kinds == [Degraded("session_timeout")] || kinds == [Degraded("pipeline_failure")]
    case _ => true
  }

  lemma ErrorKinds(d: Downlink, r: Record)
    requires d.Error? && ErrorFits(d.code, r.stage) && (d.code == SessionTimeout ==> StoreAccepts(r.user)) && RanOk(r)
    ensures KindsFitFrame(d, r.user, KindsOf(r))
  {
  }

  lemma FrameFitsRows(cfg: Config, h: Host, c: ConnId, d: Downlink)
    requires Control(cfg, h) && Conserved(h) && Wire(h) && c in h.conns && d in h.conns[c].sent && TicketOf(d).Some?
    ensures d.ticket < |h.records|
    ensures KindsFitFrame(d, h.records[d.ticket].user, RowKinds(h.traces, d.ticket))
  {
    SentFrameFits(h.records, c, h.conns[c], d);
    KindsFitStage(h, d.ticket);
    assert RecordOk(h.conns, h.worker.accepted, h.records[d.ticket], d.ticket);
    if d.Error? { ErrorKinds(d, h.records[d.ticket]); }
  }

  /** What the edge was told fits what was recorded. A `malformed_audio` error goes with no row when a
      frame had an odd length, with the timeout's row when the reaper was faster, and with the
      failure's row when transcription failed; a `queue_overflow` error goes with no row when the store
      refuses the user. */
  lemma FramesMatchRows(cfg: Config, run: seq<Action>, c: ConnId, d: Downlink)
    requires Possible(cfg, BOOT, run)
    requires c in After(cfg, BOOT, run).conns && d in After(cfg, BOOT, run).conns[c].sent && TicketOf(d).Some?
    ensures var h := After(cfg, BOOT, run);
      d.ticket < |h.records| && KindsFitFrame(d, h.records[d.ticket].user, RowKinds(h.traces, d.ticket))
  {
    Reachable(cfg, run);
    FrameFitsRows(cfg, After(cfg, BOOT, run), c, d);
  }

  /** All the edge ever hears of a session whose user the store refuses is `ready`, that its audio was
      malformed or that the queue was full: never an answer, a pipeline failure or a timeout. */
  lemma RefusedUserHearsLittle(cfg: Config, run: seq<Action>, c: ConnId, d: Downlink)
    requires Possible(cfg, BOOT, run)
    requires c in After(cfg, BOOT, run).conns && d in After(cfg, BOOT, run).conns[c].sent && TicketOf(d).Some?
    requires var h := After(cfg, BOOT, run); d.ticket < |h.records| ==> !StoreAccepts(h.records[d.ticket].user)
    ensures d.Ready? || (d.Error? && (d.code == MalformedAudio || d.code == QueueOverflow))
  {
    Reachable(cfg, run);
    FrameFitsRows(cfg, After(cfg, BOOT, run), c, d);
    SentFrameFits(After(cfg, BOOT, run).records, c, After(cfg, BOOT, run).conns[c], d);
    KindsFitStage(After(cfg, BOOT, run), d.ticket);
  }

  lemma SentFrameFits(records: seq<Record>, c: ConnId, cn: Conn, d: Downlink)
    requires WireOk(records, c, cn) && d in cn.sent
    ensures FrameOk(records, c, d)
  {
    var i :| 0 <= i < |cn.sent| && cn.sent[i] == d;
    assert FrameOk(records, c, cn.sent[i]);
  }

  // ----- answers -----

  /** The item handed to the runner as future `f` holds session `k`'s own utterance: the decoded
      payload of what connection `c` took off the wire between opening and ending it. */
  predicate IsUtteranceOf(cfg: Config, h: Host, f: nat, k: Ticket, c: ConnId) {
    && f < |h.worker.accepted| && k < |h.records| && c in h.conns && h.records[k].conn == c
    && var item, uplink := h.worker.accepted[f], h.conns[c].uplink;
       var o, e := h.records[k].openedAt, h.records[k].endedAt;
       && item.ctx.ticket == k && item.ctx.session == h.records[k].session
       && o < e < |uplink| && uplink[o] == Opened(k) && uplink[e] == Ended(k)
       && Clean(uplink[o + 1..e])
       && |Payload(uplink[o + 1..e])| % 2 == 0
       && item.audio == Pcm.DecodeUplink(Payload(uplink[o + 1..e])) && item.rate == cfg.rate
  }

  /** End-to-end routing: a `response` on connection `c` for session `s` is what the runner
      returned for `s` and exactly the audio `c` accepted for it, whatever the other connections,
      the queue and the reapers did meanwhile. */
  lemma ResponseIsRouted(cfg: Config, run: seq<Action>, c: ConnId, d: Downlink)
    requires Possible(cfg, BOOT, run)
    requires c in After(cfg, BOOT, run).conns && d in After(cfg, BOOT, run).conns[c].sent && d.Response?
    ensures var h := After(cfg, BOOT, run);
      && d.ticket < |h.records| && h.records[d.ticket].session == d.session && h.records[d.ticket].stage.Ran?
      && var f := h.records[d.ticket].stage.future;
         && IsUtteranceOf(cfg, h, f, d.ticket, c)
         && f < |h.worker.futures|
         && h.worker.futures[f].Resolved? && h.worker.futures[f].outcome.Answered?
         && h.worker.futures[f].outcome.result.payload == d.payload
  {
    Reachable(cfg, run);
    var h := After(cfg, BOOT, run);
    var i :| 0 <= i < |h.conns[c].sent| && h.conns[c].sent[i] == d;
    assert WireOk(h.records, c, h.conns[c]);
    assert FrameOk(h.records, c, h.conns[c].sent[i]);
    StageHasItem(cfg, run, d.ticket);
  }

  /** A session in the worker's hands is there as exactly one accepted item, faithful to its utterance. */
  lemma StageHasItem(cfg: Config, run: seq<Action>, k: Ticket)
    requires Possible(cfg, BOOT, run)
    requires k < |After(cfg, BOOT, run).records| && After(cfg, BOOT, run).records[k].stage.Ran?
    ensures var h := After(cfg, BOOT, run);
            var f := h.records[k].stage.future;
      && IsUtteranceOf(cfg, h, f, k, h.records[k].conn)
      && f < |h.worker.futures| && h.worker.futures[f] == W.Resolved(h.records[k].stage.outcome)
  {
    Reachable(cfg, run);
    var h := After(cfg, BOOT, run);
    var f := h.records[k].stage.future;
    assert RecordOk(h.conns, h.worker.accepted, h.records[k], k);
    assert ItemOk(h.records, h.worker, f);
    assert Faithful(cfg, h.records, h.conns, h.worker.accepted[f]);
  }

  /** Once `tts_audio_end` is out, the edge has seen for that session exactly `ready`, the
      response, every audio frame in order and the end with their number; and the frames carry
      the runner's clip. */
  lemma AnswerIsComplete(cfg: Config, run: seq<Action>, c: ConnId, d: Downlink)
    requires Possible(cfg, BOOT, run)
    requires c in After(cfg, BOOT, run).conns && d in After(cfg, BOOT, run).conns[c].sent && d.TtsEnd?
    ensures var h := After(cfg, BOOT, run);
      && d.ticket < |h.records| && h.records[d.ticket].stage.Ran? && h.records[d.ticket].stage.outcome.Answered?
      && var r := h.records[d.ticket].stage.outcome.result;
         var frames := Pcm.Chunk100ms(r.ttsAudio);
         && Sequel(h.conns[c].sent, d.ticket) == Conversation(d.session, r, d.ticket)
         && d.frameCount == |frames|
         && |Flatten(frames)| % 2 == 0 && Pcm.DecodePcm(Flatten(frames)) == r.ttsAudio
  {
    Reachable(cfg, run);
    var h := After(cfg, BOOT, run);
    var i :| 0 <= i < |h.conns[c].sent| && h.conns[c].sent[i] == d;
    assert WireOk(h.records, c, h.conns[c]);
    assert FrameOk(h.records, c, d) && EndedWell(h.records, h.conns[c].sent, h.conns[c].sent[i]);
    var r := h.records[d.ticket].stage.outcome.result;
    SequelHas(h.conns[c].sent, i, d.ticket);
    OneEnd(h.records[d.ticket].session, r, d.ticket, d);
    Pcm.DownlinkFraming(r.ttsAudio);
  }

  lemma OneEnd(s: string, r: InteractionResult, k: Ticket, d: Downlink)
    requires d.TtsEnd? && d in Conversation(s, r, k)
    ensures d == TtsEnd(s, |Pcm.Chunk100ms(r.ttsAudio)|, k)
  {
  }

  // ----- the reaper -----

  /** The step turns session `k` into a timed-out one. */
  predicate Reclaims(cfg: Config, h: Host, a: Action, k: Ticket) {
    && k < |h.records| && h.records[k].stage != TimedOut
    && Enabled(cfg, h, a) && k < |Apply(cfg, h, a).records| && Apply(cfg, h, a).records[k].stage == TimedOut
  }

  /** Connection `c` holds session `k`, open and idle for at least the timeout. */
  predicate HoldsIdle(cfg: Config, h: Host, c: ConnId, k: Ticket) {
    && k < |h.records| && h.records[k].conn == c && h.records[k].stage == Open
    && c in h.conns && h.conns[c].local.inFlight.Some? && h.conns[c].local.inFlight.value.ticket == k
    && !h.conns[c].local.inFlight.value.submitted
    && h.now - h.conns[c].local.inFlight.value.lastActivity >= cfg.timeout
  }

  /** Only the reaper reclaims, and only a session idle for the whole timeout and not yet submitted. */
  lemma ReclaimedOnlyWhenIdle(cfg: Config, run: seq<Action>, a: Action, k: Ticket)
    requires Possible(cfg, BOOT, run) && Reclaims(cfg, After(cfg, BOOT, run), a, k)
    ensures a.ReaperPolls? && HoldsIdle(cfg, After(cfg, BOOT, run), a.c, k)
  {
    Reachable(cfg, run);
    ReclaimerHoldsIdle(cfg, After(cfg, BOOT, run), a, k);
  }

  lemma ReclaimerHoldsIdle(cfg: Config, h: Host, a: Action, k: Ticket)
    requires Control(cfg, h) && Reclaims(cfg, h, a, k)
    ensures a.ReaperPolls? && HoldsIdle(cfg, h, a.c, k)
  {
    OnlyPollReclaims(cfg, h, a, k);
    assert ConnOk(h.records, h.worker.accepted, a.c, h.conns[a.c]);
  }

  lemma OnlyPollReclaims(cfg: Config, h: Host, a: Action, k: Ticket)
    requires Reclaims(cfg, h, a, k)
    ensures a.ReaperPolls? && Stale(h.conns[a.c].local, h.now, cfg.timeout)
      && h.conns[a.c].local.inFlight.value.ticket == k
  {
    if a.SendDone? {
      SendReclaimsNothing(h, a.c, k);
    } else if a.GetEnd? {
      EndReclaimsNothing(cfg, h, a.c, a.session, k);
    } else if Incoming(a) || Resuming(a) {
      ReceivingReclaimsNothing(cfg, h, a, k);
    }
  }

  lemma ReceivingReclaimsNothing(cfg: Config, h: Host, a: Action, k: Ticket)
    requires Enabled(cfg, h, a) && (Incoming(a) || Resuming(a)) && !a.SendDone? && !a.GetEnd?
    requires k < |h.records| && h.records[k].stage != TimedOut
    ensures k < |Apply(cfg, h, a).records| && Apply(cfg, h, a).records[k].stage != TimedOut
  {
  }

  lemma ReleaseReclaimsNothing(h: Host, c: ConnId, cn: Conn, stage: Stage, k: Ticket)
    requires k < |h.records| && h.records[k].stage != TimedOut && stage != TimedOut
    ensures k < |ReleaseAs(h, c, cn, stage).records| && ReleaseAs(h, c, cn, stage).records[k].stage != TimedOut
  {
  }

  lemma SendReclaimsNothing(h: Host, c: ConnId, k: Ticket)
    requires c in h.conns && k < |h.records| && h.records[k].stage != TimedOut
    ensures k < |DoSendDone(h, c, h.conns[c]).records| && DoSendDone(h, c, h.conns[c]).records[k].stage != TimedOut
  {
    var cn := h.conns[c];
    match cn.pc {
      case SendMalformed(s, t) =>
        ReleaseReclaimsNothing(h, c, Sent(cn, Error(s, MalformedAudio, t), Receiving), Malformed, k);
      case SendFailure(ctx, cause) =>
        ReleaseReclaimsNothing(h, c, Sent(cn, Error(ctx.session, WireCodeOf(cause), ctx.ticket), Receiving), Dropped,
          k);
      case _ =>
    }
  }

  lemma EndReclaimsNothing(cfg: Config, h: Host, c: ConnId, session: string, k: Ticket)
    requires c in h.conns && k < |h.records| && h.records[k].stage != TimedOut
    ensures var h' := DoEnd(cfg, h, c, h.conns[c], session);
      k < |h'.records| && h'.records[k].stage != TimedOut
  {
  }

  /** Once `end_audio` was handled the reaper never reclaims the session, however long the queue,
      the runner or the downlink take. */
  lemma SubmittedNeverReclaimed(cfg: Config, run: seq<Action>, later: seq<Action>, k: Ticket)
    requires Possible(cfg, BOOT, run) && Possible(cfg, After(cfg, BOOT, run), later)
    requires k < |After(cfg, BOOT, run).records|
    requires After(cfg, BOOT, run).records[k].stage != Open && After(cfg, BOOT, run).records[k].stage != TimedOut
    ensures k < |After(cfg, After(cfg, BOOT, run), later).records|
    ensures After(cfg, After(cfg, BOOT, run), later).records[k].stage != TimedOut
  {
    Reachable(cfg, run);
    RunKeepsInv(cfg, After(cfg, BOOT, run), later);
    assert RecordEvolves(After(cfg, BOOT, run).records[k], After(cfg, After(cfg, BOOT, run), later).records[k]);
  }

  // ----- an overflow that leaves no row -----

  /** With a queue of one, a second utterance that arrives while the first one waits is rejected,
      and if the error frame then cannot be sent the rejection is recorded nowhere. */
  lemma OverflowCanGoUnrecorded(cfg: Config)
    requires cfg.maxQueue == 1
    ensures exists run :: Possible(cfg, BOOT, run) && UnrecordedOverflow(After(cfg, BOOT, run), 1)
  {
    var run := QueueOne(cfg);
    var run1 := OpenSession(cfg, run, 1, "b", "u");
    Extend(cfg, run1, GetEnd(1, "b"));
    SecondUtteranceRejected(cfg, After(cfg, BOOT, run1));
    FailedReport(cfg, run1 + [GetEnd(1, "b")]);
  }

  predicate UnrecordedOverflow(h: Host, k: Ticket) {
    k < |h.records| && h.records[k].stage == OverflowUnreported && RowsOf(h.traces, k) == []
  }

  lemma QueueOne(cfg: Config) returns (run: seq<Action>)
    requires cfg.maxQueue == 1
    ensures Possible(cfg, BOOT, run)
    ensures var h := After(cfg, BOOT, run);
      1 !in h.conns && "b" !in h.registry && |h.worker.queue| == 1 && h.worker.accepting && |h.records| == 1
  {
    var run0 := OpenSession(cfg, [], 0, "a", "u");
    Extend(cfg, run0, GetEnd(0, "a"));
    run := run0 + [GetEnd(0, "a")];
  }

  lemma SecondUtteranceRejected(cfg: Config, h: Host)
    requires cfg.maxQueue == 1 && 1 in h.conns && h.conns[1].pc == Receiving
    requires |h.worker.queue| == 1 && h.worker.accepting && |h.records| == 2
    requires h.conns[1].local.inFlight.Some? && h.conns[1].local.inFlight.value.session == "b"
    requires h.conns[1].local.inFlight.value.ticket == 1
    ensures var h' := Apply(cfg, h, GetEnd(1, "b"));
      && 1 in h'.conns && h'.conns[1].pc.SendOverflow? && h'.conns[1].pc.ctx.ticket == 1
      && |h'.records| == 2 && h'.records[1].user == h.records[1].user
  {
  }

  lemma FailedReport(cfg: Config, run: seq<Action>)
    requires Possible(cfg, BOOT, run)
    requires var h := After(cfg, BOOT, run);
      1 in h.conns && h.conns[1].pc.SendOverflow? && h.conns[1].pc.ctx.ticket == 1 && |h.records| == 2
    ensures exists run' :: Possible(cfg, BOOT, run') && UnrecordedOverflow(After(cfg, BOOT, run'), 1)
  {
    Extend(cfg, run, SendFails(1));
    TraceConservation(cfg, run + [SendFails(1)], 1);
    assert UnrecordedOverflow(After(cfg, BOOT, run + [SendFails(1)]), 1);
  }

  // ----- an overflow the store refuses to record -----

  /** If the rejected session has no user id, its error frame goes out all the same and no row follows. */
  lemma OverflowCanBeRefused(cfg: Config)
    requires cfg.maxQueue == 1
    ensures exists run :: Possible(cfg, BOOT, run) && RefusedOverflow(After(cfg, BOOT, run), 1)
  {
    var run := QueueOne(cfg);
    var run1 := OpenSession(cfg, run, 1, "b", "");
    Extend(cfg, run1, GetEnd(1, "b"));
    SecondUtteranceRejected(cfg, After(cfg, BOOT, run1));
    RefusedReport(cfg, run1 + [GetEnd(1, "b")]);
  }

  predicate RefusedOverflow(h: Host, k: Ticket) {
    k < |h.records| && h.records[k].stage == Overflowed && ToldOverflow(h, k) && RowsOf(h.traces, k) == []
  }

  lemma RefusedReport(cfg: Config, run: seq<Action>)
    requires Possible(cfg, BOOT, run)
    requires var h := After(cfg, BOOT, run);
      1 in h.conns && h.conns[1].pc.SendOverflow? && h.conns[1].pc.ctx.ticket == 1
      && |h.records| == 2 && h.records[1].user == ""
    ensures exists run' :: Possible(cfg, BOOT, run') && RefusedOverflow(After(cfg, BOOT, run'), 1)
  {
    Extend(cfg, run, SendDone(1));
    Reachable(cfg, run);
    RefusalIsTold(cfg, After(cfg, BOOT, run));
    TraceConservation(cfg, run + [SendDone(1)], 1);
    assert RefusedOverflow(After(cfg, BOOT, run + [SendDone(1)]), 1);
  }

  lemma RefusalIsTold(cfg: Config, h: Host)
    requires Control(cfg, h) && 1 in h.conns && h.conns[1].pc.SendOverflow? && h.conns[1].pc.ctx.ticket == 1
    ensures var h' := Apply(cfg, h, SendDone(1));
      && 1 < |h.records| == |h'.records| && h'.records[1].user == h.records[1].user
      && h'.records[1].stage == Overflowed && ToldOverflow(h', 1)
  {
    OverflowIsMarked(cfg, h, 1, 1);
    OverflowIsTold(cfg, h, 1, 1);
  }

  lemma OverflowIsMarked(cfg: Config, h: Host, c: ConnId, k: Ticket)
    requires Control(cfg, h) && c in h.conns && h.conns[c].pc.SendOverflow? && h.conns[c].pc.ctx.ticket == k
    ensures var h' := DoOverflowSent(h, c, h.conns[c]);
      && k < |h.records| == |h'.records| && h.records[k].stage != Overflowed
      && h'.records[k].stage == Overflowed && h'.records[k].user == h.records[k].user
  {
    assert ConnOk(h.records, h.worker.accepted, c, h.conns[c]);
  }
}
