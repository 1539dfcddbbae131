/** What the edge sees of a session: which frames may be sent, and in what order. */
module StreamWire {
  import opened Prelude
  import opened Session
  import opened Stream
  import opened StreamControl
  import opened StreamHistory
  import Pcm
  import W = Worker

  function TicketOf(d: Downlink): Option<Ticket> {
    match d
    case Collision(_) => None
    case ClockReply => None
    case _ => Some(d.ticket)
  }

  /** A frame matches the fate of the session it was sent for. */
  predicate FrameOk(records: seq<Record>, c: ConnId, d: Downlink) {
    TicketOf(d).None?
    || (d.ticket < |records|
        && var r := records[d.ticket];
           r.conn == c
           && match d
              case Ready(s, _) => s == r.session
              case Error(s, code, _) =>
                s == r.session && ErrorFits(code, r.stage) && (code == SessionTimeout ==> StoreAccepts(r.user))
              case Response(s, payload, _) => s == r.session && r.stage.Ran? && r.stage.outcome.Answered?
                && r.stage.outcome.result.payload == payload
              case Audio(_, _) => r.stage.Ran? && r.stage.outcome.Answered?
              case TtsEnd(s, _, _) => s == r.session && r.stage.Ran? && r.stage.outcome.Answered?
              case _ => true)
  }

  predicate ErrorFits(code: WireCode, stage: Stage) {
    match code
    case SessionCollision => false
    case SessionTimeout => stage.TimedOut?
    case QueueOverflow => stage.Overflowed?
    case PipelineFailure => FailedAs(stage, code)
    case MalformedAudio => stage.Malformed? || stage.TimedOut? || FailedAs(stage, code)
  }

  predicate FailedAs(stage: Stage, code: WireCode) {
    stage.Ran? && stage.outcome.Failed? && WireCodeOf(stage.outcome.cause) == code
  }

  /** The frames sent for one session, in order. */
  function Sequel(sent: seq<Downlink>, k: Ticket): seq<Downlink> {
    if sent == [] then []
    else Sequel(sent[..|sent| - 1], k) + (if TicketOf(sent[|sent| - 1]) == Some(k) then [sent[|sent| - 1]] else [])
  }

  /** `ready`, the response, and the first `n` audio frames. */
  function Spoken(s: string, r: InteractionResult, k: Ticket, n: nat): seq<Downlink>
    requires n <= |Pcm.Chunk100ms(r.ttsAudio)|
  {
    var frames := Pcm.Chunk100ms(r.ttsAudio);
    [Ready(s, k), Response(s, r.payload, k)] + seq(n, i requires 0 <= i < n => Audio(frames[i], k))
  }

  /** The whole exchange of a session that was answered. */
  function Conversation(s: string, r: InteractionResult, k: Ticket): seq<Downlink> {
    var n := |Pcm.Chunk100ms(r.ttsAudio)|;
    Spoken(s, r, k, n) + [TtsEnd(s, n, k)]
  }

  /** What has been sent so far for the session a connection holds. */
  predicate SaidSoFar(cn: Conn, f: InFlight) {
    var said := Sequel(cn.sent, f.ticket);
    match cn.pc
    case SendReady(_, _) => said == []
    case SendAudio(_, r, i) => i < |Pcm.Chunk100ms(r.ttsAudio)| && said == Spoken(f.session, r, f.ticket, i)
    case SendTtsEnd(_, r) => said == Spoken(f.session, r, f.ticket, |Pcm.Chunk100ms(r.ttsAudio)|)
    case AwaitReaper => true
    case Aborted => true
    case _ => said == [Ready(f.session, f.ticket)]
  }

  predicate EndedWell(records: seq<Record>, sent: seq<Downlink>, d: Downlink) {
    d.TtsEnd? ==>
      d.ticket < |records| && records[d.ticket].stage.Ran? && records[d.ticket].stage.outcome.Answered?
      && Sequel(sent, d.ticket) ==
        Conversation(records[d.ticket].session, records[d.ticket].stage.outcome.result, d.ticket)
  }

  ghost predicate WireOk(records: seq<Record>, c: ConnId, cn: Conn) {
    && (forall i :: 0 <= i < |cn.sent| ==> FrameOk(records, c, cn.sent[i]))
    && (forall i :: 0 <= i < |cn.sent| ==> EndedWell(records, cn.sent, cn.sent[i]))
    && (cn.local.inFlight.Some? ==> SaidSoFar(cn, cn.local.inFlight.value))
  }

  ghost predicate Wire(h: Host) {
    forall c :: c in h.conns ==> WireOk(h.records, c, h.conns[c])
  }

  lemma {:induction false} SequelHas(sent: seq<Downlink>, i: nat, k: Ticket)
    requires i < |sent| && TicketOf(sent[i]) == Some(k)
    ensures sent[i] in Sequel(sent, k)
  {
    if i < |sent| - 1 { SequelHas(sent[..|sent| - 1], i, k); }
  }

  lemma {:induction false} SequelOf(sent: seq<Downlink>, k: Ticket)
    ensures forall d :: d in Sequel(sent, k) ==> d in sent && TicketOf(d) == Some(k)
  {
    if sent != [] { SequelOf(sent[..|sent| - 1], k); }
  }

  /** Records may evolve under frames already sent. */
  lemma EvolvedRecords(records: seq<Record>, records': seq<Record>, c: ConnId, cn: Conn)
    requires WireOk(records, c, cn) && RecordsEvolve(records, records')
    ensures WireOk(records', c, cn)
  {
    forall i | 0 <= i < |cn.sent| ensures FrameOk(records', c, cn.sent[i]) && EndedWell(records', cn.sent, cn.sent[i]) {
      assert FrameOk(records, c, cn.sent[i]) && EndedWell(records, cn.sent, cn.sent[i]);
    }
  }

  /** The connection sends one more frame, for a session not yet brought to its end. */
  lemma OneMoreFrame(records: seq<Record>, c: ConnId, cn: Conn, cn': Conn, d: Downlink)
    requires WireOk(records, c, cn) && cn'.sent == cn.sent + [d] && FrameOk(records, c, d)
    requires forall i :: 0 <= i < |cn.sent| && cn.sent[i].TtsEnd? ==> TicketOf(d) != Some(cn.sent[i].ticket)
    requires EndedWell(records, cn'.sent, d)
    requires cn'.local.inFlight.Some? ==> SaidSoFar(cn', cn'.local.inFlight.value)
    ensures WireOk(records, c, cn')
  {
    assert cn'.sent[..|cn'.sent| - 1] == cn.sent;
    forall i | 0 <= i < |cn'.sent|
      ensures FrameOk(records, c, cn'.sent[i]) && EndedWell(records, cn'.sent, cn'.sent[i])
    {
      if i < |cn.sent| {
        assert cn'.sent[i] == cn.sent[i];
        assert FrameOk(records, c, cn.sent[i]) && EndedWell(records, cn.sent, cn.sent[i]);
      }
    }
  }

  /** No session still in flight has been sent its last frame. */
  lemma HeldHasNoEnd(records: seq<Record>, c: ConnId, cn: Conn, i: nat)
    requires WireOk(records, c, cn) && cn.local.inFlight.Some? && !TearingDown(cn.pc)
    requires i < |cn.sent| && cn.sent[i].TtsEnd?
    ensures cn.sent[i].ticket != cn.local.inFlight.value.ticket
  {
    if cn.sent[i].ticket == cn.local.inFlight.value.ticket {
      SequelHas(cn.sent, i, cn.sent[i].ticket);
    }
  }

  lemma {:induction false} NothingSaid(sent: seq<Downlink>, k: Ticket)
    requires forall i :: 0 <= i < |sent| ==> TicketOf(sent[i]) != Some(k)
    ensures Sequel(sent, k) == []
  {
    if sent != [] { NothingSaid(sent[..|sent| - 1], k); }
  }

  // ----- steps -----

  /** A step that rewrites one connection without sending anything on it. */
  lemma SilentStep(h: Host, h': Host, c: ConnId)
    requires Wire(h) && RecordsEvolve(h.records, h'.records)
    requires c in h.conns && c in h'.conns && h'.conns == h.conns[c := h'.conns[c]]
    requires h'.conns[c].sent == h.conns[c].sent
    requires h'.conns[c].local.inFlight.Some? ==> SaidSoFar(h'.conns[c], h'.conns[c].local.inFlight.value)
    ensures Wire(h')
  {
    forall c' | c' in h'.conns ensures WireOk(h'.records, c', h'.conns[c']) {
      EvolvedRecords(h.records, h'.records, c', h.conns[c']);
    }
  }

  /** What has to hold of one more frame `d` on connection `c`. */
  ghost predicate FrameFits(h: Host, h': Host, c: ConnId, d: Downlink)
    requires c in h.conns && c in h'.conns
  {
    && h'.conns[c].sent == h.conns[c].sent + [d] && FrameOk(h'.records, c, d)
    && (forall i :: 0 <= i < |h.conns[c].sent| && h.conns[c].sent[i].TtsEnd? ==>
      TicketOf(d) != Some(h.conns[c].sent[i].ticket))
    && EndedWell(h'.records, h'.conns[c].sent, d)
    && (h'.conns[c].local.inFlight.Some? ==> SaidSoFar(h'.conns[c], h'.conns[c].local.inFlight.value))
  }

  lemma SenderStep(h: Host, h': Host, c: ConnId, d: Downlink)
    requires Wire(h) && RecordsEvolve(h.records, h'.records)
    requires c in h.conns && c in h'.conns && FrameFits(h, h', c, d)
    ensures WireOk(h'.records, c, h'.conns[c])
  {
    EvolvedRecords(h.records, h'.records, c, h.conns[c]);
    OneMoreFrame(h'.records, c, h.conns[c], h'.conns[c], d);
  }

  /** A step in which one connection gets one more frame through. */
  lemma SendStep(h: Host, h': Host, c: ConnId, d: Downlink)
    requires Wire(h) && RecordsEvolve(h.records, h'.records)
    requires c in h.conns && c in h'.conns && h'.conns == h.conns[c := h'.conns[c]]
    requires FrameFits(h, h', c, d)
    ensures Wire(h')
  {
    SenderStep(h, h', c, d);
    forall c' | c' in h'.conns && c' != c ensures WireOk(h'.records, c', h'.conns[c']) {
      EvolvedRecords(h.records, h'.records, c', h.conns[c']);
    }
  }

  /** A frame for the session in flight, or for one the reaper has taken away, may still follow. */
  lemma MayFollow(h: Host, c: ConnId, k: Ticket)
    requires Wire(h) && c in h.conns
    requires var l := h.conns[c].local;
      (l.inFlight.Some? && l.inFlight.value.ticket == k && !TearingDown(h.conns[c].pc))
      || (k < |h.records| && !h.records[k].stage.Ran?)
    ensures forall i :: 0 <= i < |h.conns[c].sent| && h.conns[c].sent[i].TtsEnd? ==> h.conns[c].sent[i].ticket != k
  {
    var cn := h.conns[c];
    forall i | 0 <= i < |cn.sent| && cn.sent[i].TtsEnd? ensures cn.sent[i].ticket != k {
      assert FrameOk(h.records, c, cn.sent[i]);
      if cn.local.inFlight.Some? && !TearingDown(cn.pc) {
        HeldHasNoEnd(h.records, c, cn, i);
      }
    }
  }

  lemma StartKeepsWire(cfg: Config, h: Host, c: ConnId, session: string, user: string, wakeWord: int)
    requires Control(cfg, h) && Wire(h) && c in h.conns && h.conns[c].pc.Receiving?
    ensures Wire(DoStart(h, c, h.conns[c], session, user, wakeWord))
  {
    var cn := h.conns[c];
    forall i | 0 <= i < |cn.sent| ensures TicketOf(cn.sent[i]) != Some(|h.records|) {
      assert FrameOk(h.records, c, cn.sent[i]);
    }
    NothingSaid(cn.sent, |h.records|);
    SilentStep(h, DoStart(h, c, cn, session, user, wakeWord), c);
  }

  lemma EndKeepsWire(cfg: Config, h: Host, c: ConnId, session: string)
    requires Control(cfg, h) && Wire(h) && c in h.conns && h.conns[c].pc.Receiving?
    ensures Wire(DoEnd(cfg, h, c, h.conns[c], session))
  {
    var cn := h.conns[c];
    assert WireOk(h.records, c, cn);
    if cn.local.inFlight.None? || cn.local.inFlight.value.session != session {
      PutKeepsWire(h, c, Log(cn, Other));
    } else {
      HandOverKeepsWire(cfg, h, c, session);
    }
  }

  lemma HandOverKeepsWire(cfg: Config, h: Host, c: ConnId, session: string)
    requires Control(cfg, h) && Wire(h) && c in h.conns && h.conns[c].pc.Receiving?
    requires var l := h.conns[c].local; l.inFlight.Some? && l.inFlight.value.session == session
    ensures Wire(HandOver(cfg, h, c, h.conns[c]))
  {
    EndEvolves(cfg, h, c, session);
    HandOverShape(cfg, h, c, h.conns[c]);
    HandOverSays(cfg, h, c);
    SilentStep(h, HandOver(cfg, h, c, h.conns[c]), c);
  }

  lemma HandOverSays(cfg: Config, h: Host, c: ConnId)
    requires c in h.conns && h.conns[c].pc.Receiving? && WireOk(h.records, c, h.conns[c])
      && h.conns[c].local.inFlight.Some?
    ensures var h' := HandOver(cfg, h, c, h.conns[c]);
      SaidSoFar(h'.conns[c], h.conns[c].local.inFlight.value.(submitted := true))
  {
    HandOverShape(cfg, h, c, h.conns[c]);
  }

  lemma PollKeepsWire(cfg: Config, h: Host, c: ConnId)
    requires Control(cfg, h) && Wire(h) && c in h.conns
    ensures Wire(DoPoll(cfg, h, c, h.conns[c]))
  {
    if Stale(h.conns[c].local, h.now, cfg.timeout) {
      PollEvolves(cfg, h, c);
      SilentStep(h, DoPoll(cfg, h, c, h.conns[c]), c);
    }
  }

  /** The connection changes, but neither its frames nor any record. */
  lemma PutKeepsWire(h: Host, c: ConnId, cn: Conn)
    requires Wire(h) && c in h.conns && cn.sent == h.conns[c].sent
    requires cn.local.inFlight.Some? ==> SaidSoFar(cn, cn.local.inFlight.value)
    ensures Wire(Put(h, c, cn))
  {
    SilentStep(h, Put(h, c, cn), c);
  }

  lemma QuietKeepsWire(cfg: Config, h: Host, a: Action)
    requires Wire(h) && Enabled(cfg, h, a)
    requires Incoming(a) && !a.GetStart? && !a.GetEnd?
    ensures Wire(Apply(cfg, h, a))
  {
    var cn := h.conns[a.c];
    assert WireOk(h.records, a.c, cn);
    match a {
      case ClientGone(c) => PutKeepsWire(h, c, BeginTeardown(cn));
      case GetBinary(c, data) => PutKeepsWire(h, c, DoBinary(h, c, cn, data).conns[c]);
      case GetClockSync(c, e, r, s) => PutKeepsWire(h, c, DoClockSync(h, c, cn, e, r, s).conns[c]);
      case GetOther(c) => PutKeepsWire(h, c, Log(cn, Other));
    }
  }

  lemma FutureDoneKeepsWire(cfg: Config, h: Host, c: ConnId)
    requires Wire(h) && Enabled(cfg, h, FutureDone(c))
    ensures Wire(DoFutureDone(h, c, h.conns[c]))
  {
    assert WireOk(h.records, c, h.conns[c]);
    PutKeepsWire(h, c, DoFutureDone(h, c, h.conns[c]).conns[c]);
  }

  lemma SendFailsKeepsWire(cfg: Config, h: Host, c: ConnId)
    requires Control(cfg, h) && Wire(h) && c in h.conns && Sending(h.conns[c].pc)
    ensures Wire(DoSendFails(h, c, h.conns[c]))
  {
    SendFailsEvolves(cfg, h, c);
    SilentStep(h, DoSendFails(h, c, h.conns[c]), c);
  }

  lemma TeardownKeepsWire(cfg: Config, h: Host, c: ConnId)
    requires Control(cfg, h) && Wire(h) && c in h.conns
    ensures Wire(ReleaseAs(h, c, h.conns[c].(pc := Closed), Dropped))
  {
    ReleaseEvolves(cfg, h, c, h.conns[c].(pc := Closed), Dropped);
    ReleaseShape(h, c, h.conns[c].(pc := Closed), Dropped);
    SilentStep(h, ReleaseAs(h, c, h.conns[c].(pc := Closed), Dropped), c);
  }

  lemma ReaperSentKeepsWire(cfg: Config, h: Host, c: ConnId, delivered: bool)
    requires Control(cfg, h) && Wire(h) && c in h.conns && h.conns[c].reaper.SendTimeout?
    ensures Wire(DoReaperSent(h, c, h.conns[c], delivered))
  {
    var cn := h.conns[c];
    var ctx := cn.reaper.ctx;
    var h' := DoReaperSent(h, c, cn, delivered);
    assert ConnOk(h.records, h.worker.accepted, c, cn);
    if delivered {
      MayFollow(h, c, ctx.ticket);
      assert h'.conns[c].sent[..|cn.sent|] == cn.sent;
      SendStep(h, h', c, Error(ctx.session, SessionTimeout, ctx.ticket));
    } else {
      SilentStep(h, h', c);
    }
  }

  /** The frame a pending send of the receive task puts on the wire. */
  function PendingFrame(pc: RecvPc): Downlink
    requires Sending(pc)
  {
    match pc
    case SendCollision(s) => Collision(s)
    case SendReady(s, k) => Ready(s, k)
    case SendMalformed(s, k) => Error(s, MalformedAudio, k)
    case SendOverflow(ctx) => Error(ctx.session, QueueOverflow, ctx.ticket)
    case SendFailure(ctx, cause) => Error(ctx.session, WireCodeOf(cause), ctx.ticket)
    case SendResponse(ctx, r) => Response(ctx.session, r.payload, ctx.ticket)
    case SendAudio(ctx, r, i) =>
      var frames := Pcm.Chunk100ms(r.ttsAudio);
      Audio(if i < |frames| then frames[i] else [], ctx.ticket)
    case SendTtsEnd(ctx, r) => TtsEnd(ctx.session, |Pcm.Chunk100ms(r.ttsAudio)|, ctx.ticket)
    case _ => ClockReply
  }

  lemma SendDoneSends(h: Host, c: ConnId)
    requires c in h.conns && Sending(h.conns[c].pc)
    ensures var h' := DoSendDone(h, c, h.conns[c]);
      c in h'.conns && h'.conns == h.conns[c := h'.conns[c]]
        && h'.conns[c].sent == h.conns[c].sent + [PendingFrame(h.conns[c].pc)]
  {
    if h.conns[c].pc.SendOverflow? { OverflowSends(h, c); }
  }

  lemma OverflowSends(h: Host, c: ConnId)
    requires c in h.conns && h.conns[c].pc.SendOverflow?
    ensures var h' := DoOverflowSent(h, c, h.conns[c]);
      c in h'.conns && h'.conns == h.conns[c := h'.conns[c]]
        && h'.conns[c].sent == h.conns[c].sent + [PendingFrame(h.conns[c].pc)]
  {
  }

  lemma OverflowFrameFits(cfg: Config, h: Host, c: ConnId)
    requires Control(cfg, h) && c in h.conns && h.conns[c].pc.SendOverflow?
    ensures FrameOk(DoOverflowSent(h, c, h.conns[c]).records, c, PendingFrame(h.conns[c].pc))
  {
    assert ConnOk(h.records, h.worker.accepted, c, h.conns[c]);
  }

  /** The frame fits the record as it stands once the send is over. */
  lemma PendingFrameFits(cfg: Config, h: Host, c: ConnId)
    requires Control(cfg, h) && c in h.conns && Sending(h.conns[c].pc)
    ensures FrameOk(DoSendDone(h, c, h.conns[c]).records, c, PendingFrame(h.conns[c].pc))
  {
    assert ConnOk(h.records, h.worker.accepted, c, h.conns[c]);
    if h.conns[c].pc.SendOverflow? { OverflowFrameFits(cfg, h, c); }
  }

  lemma SpokenNext(s: string, r: InteractionResult, k: Ticket, n: nat)
    requires n < |Pcm.Chunk100ms(r.ttsAudio)|
    ensures Spoken(s, r, k, n) + [Audio(Pcm.Chunk100ms(r.ttsAudio)[n], k)] == Spoken(s, r, k, n + 1)
  {
  }

  /** After the send, what the session has been told fits the handler's next program counter. */
  lemma SaidAfterSend(cfg: Config, h: Host, c: ConnId)
    requires Control(cfg, h) && Wire(h) && c in h.conns && Sending(h.conns[c].pc)
    ensures var cn' := DoSendDone(h, c, h.conns[c]).conns[c];
      cn'.local.inFlight.Some? ==> SaidSoFar(cn', cn'.local.inFlight.value)
  {
    var cn := h.conns[c];
    assert ConnOk(h.records, h.worker.accepted, c, cn) && WireOk(h.records, c, cn);
    assert (cn.sent + [PendingFrame(cn.pc)])[..|cn.sent|] == cn.sent;
    if cn.pc.SendAudio? || cn.pc.SendResponse? {
      SaidAfterAudio(h, c, cn);
    } else {
      SaidAfterOther(h, c, cn);
    }
  }

  lemma SaidAfterAudio(h: Host, c: ConnId, cn: Conn)
    requires cn.pc.SendAudio? || cn.pc.SendResponse?
    requires cn.local.inFlight.Some? && SaidSoFar(cn, cn.local.inFlight.value)
    requires cn.pc.ctx.ticket == cn.local.inFlight.value.ticket && cn.pc.ctx.session == cn.local.inFlight.value.session
    ensures SaidSoFar(DoSendDone(h, c, cn).conns[c], cn.local.inFlight.value)
  {
    var f := cn.local.inFlight.value;
    assert (cn.sent + [PendingFrame(cn.pc)])[..|cn.sent|] == cn.sent;
    if cn.pc.SendAudio? {
      SpokenNext(f.session, cn.pc.result, f.ticket, cn.pc.next);
    } else {
      assert Spoken(f.session, cn.pc.result, f.ticket, 0) == [Ready(f.session, f.ticket), PendingFrame(cn.pc)];
    }
  }

  lemma SaidAfterOther(h: Host, c: ConnId, cn: Conn)
    requires Sending(cn.pc) && !cn.pc.SendAudio? && !cn.pc.SendResponse?
    requires cn.local.inFlight.Some? ==> SaidSoFar(cn, cn.local.inFlight.value)
    requires cn.pc.SendReady? && cn.local.inFlight.Some? ==>
      cn.pc.ticket == cn.local.inFlight.value.ticket && cn.pc.session == cn.local.inFlight.value.session
    ensures var cn' := DoSendDone(h, c, cn).conns[c];
      cn'.local.inFlight.Some? ==> SaidSoFar(cn', cn'.local.inFlight.value)
  {
    if cn.pc.SendReady? || cn.pc.SendCollision? || cn.pc.SendClock? {
      if cn.local.inFlight.Some? {
        SequelStep(cn.sent, PendingFrame(cn.pc), cn.local.inFlight.value.ticket);
      }
    } else {
      NothingAfterRelease(h, c, cn);
    }
  }

  lemma NothingAfterRelease(h: Host, c: ConnId, cn: Conn)
    requires cn.pc.SendMalformed? || cn.pc.SendOverflow? || cn.pc.SendFailure? || cn.pc.SendTtsEnd?
    ensures var cn' := DoSendDone(h, c, cn).conns[c];
      cn'.local.inFlight.None? || cn'.pc.AwaitReaper? || cn'.pc.Aborted?
  {
  }

  lemma SequelStep(sent: seq<Downlink>, d: Downlink, k: Ticket)
    ensures Sequel(sent + [d], k) == Sequel(sent, k) + if TicketOf(d) == Some(k) then [d] else []
  {
    assert (sent + [d])[..|sent|] == sent;
  }

  /** The last frame completes the conversation. */
  lemma EndAfterSend(cfg: Config, h: Host, c: ConnId)
    requires Control(cfg, h) && Wire(h) && c in h.conns && Sending(h.conns[c].pc)
    ensures var h' := DoSendDone(h, c, h.conns[c]);
      EndedWell(h'.records, h'.conns[c].sent, PendingFrame(h.conns[c].pc))
  {
    var cn := h.conns[c];
    var h' := DoSendDone(h, c, cn);
    if cn.pc.SendTtsEnd? {
      assert ConnOk(h.records, h.worker.accepted, c, cn) && WireOk(h.records, c, cn);
      SendDoneSends(h, c);
      assert h'.conns[c].sent[..|cn.sent|] == cn.sent;
      assert h'.records == h.records;
    }
  }

  lemma SendMayFollow(cfg: Config, h: Host, c: ConnId)
    requires Control(cfg, h) && Wire(h) && c in h.conns && Sending(h.conns[c].pc)
    requires TicketOf(PendingFrame(h.conns[c].pc)).Some?
    ensures forall i :: 0 <= i < |h.conns[c].sent| && h.conns[c].sent[i].TtsEnd? ==>
      h.conns[c].sent[i].ticket != PendingFrame(h.conns[c].pc).ticket
  {
    assert ConnOk(h.records, h.worker.accepted, c, h.conns[c]);
    MayFollow(h, c, PendingFrame(h.conns[c].pc).ticket);
  }

  lemma SendDoneKeepsWire(cfg: Config, h: Host, c: ConnId)
    requires Control(cfg, h) && Wire(h) && c in h.conns && Sending(h.conns[c].pc)
    ensures Wire(DoSendDone(h, c, h.conns[c]))
  {
    var d := PendingFrame(h.conns[c].pc);
    SendDoneSends(h, c);
    SendDoneEvolves(cfg, h, c);
    PendingFrameFits(cfg, h, c);
    SaidAfterSend(cfg, h, c);
    EndAfterSend(cfg, h, c);
    if TicketOf(d).Some? { SendMayFollow(cfg, h, c); }
    SendStep(h, DoSendDone(h, c, h.conns[c]), c, d);
  }

  lemma IncomingKeepsWire(cfg: Config, h: Host, a: Action)
    requires Control(cfg, h) && Wire(h) && Enabled(cfg, h, a) && Incoming(a)
    ensures Wire(Apply(cfg, h, a))
  {
    match a {
      case GetStart(c, session, user, wakeWord) => StartKeepsWire(cfg, h, c, session, user, wakeWord);
      case GetEnd(c, session) => EndKeepsWire(cfg, h, c, session);
      case _ => QuietKeepsWire(cfg, h, a);
    }
  }

  lemma ResumingKeepsWire(cfg: Config, h: Host, a: Action)
    requires Control(cfg, h) && Wire(h) && Enabled(cfg, h, a) && Resuming(a)
    ensures Wire(Apply(cfg, h, a))
  {
    match a {
      case SendDone(c) => SendDoneKeepsWire(cfg, h, c);
      case SendFails(c) => SendFailsKeepsWire(cfg, h, c);
      case FutureDone(c) => FutureDoneKeepsWire(cfg, h, c);
      case TeardownDone(c) => TeardownKeepsWire(cfg, h, c);
    }
  }

  lemma BackgroundKeepsWire(cfg: Config, h: Host, a: Action)
    requires Control(cfg, h) && Wire(h) && Enabled(cfg, h, a) && !Incoming(a) && !Resuming(a)
    ensures Wire(Apply(cfg, h, a))
  {
    match a {
      case Accept(c) =>
      case ReaperEnters(c) => PutKeepsWire(h, c, h.conns[c].(reaper := Sleeping));
      case ReaperPolls(c) => PollKeepsWire(cfg, h, c);
      case ReaperSendEnds(c, delivered) => ReaperSentKeepsWire(cfg, h, c, delivered);
      case WorkerMoves(step) => WorkerKeepsWire(cfg, h, step);
      case TimePasses(_) =>
    }
  }

  lemma StepKeepsWire(cfg: Config, h: Host, a: Action)
    requires Control(cfg, h) && Wire(h) && Enabled(cfg, h, a)
    ensures Wire(Apply(cfg, h, a))
  {
    if Incoming(a) {
      IncomingKeepsWire(cfg, h, a);
    } else if Resuming(a) {
      ResumingKeepsWire(cfg, h, a);
    } else {
      BackgroundKeepsWire(cfg, h, a);
    }
  }

  lemma WorkerKeepsWire(cfg: Config, h: Host, step: W.Step)
    requires Control(cfg, h) && Wire(h) && Enabled(cfg, h, WorkerMoves(step))
    ensures Wire(DoWorker(cfg, h, step))
  {
    WorkerEvolves(cfg, h, step);
    forall c | c in h.conns ensures WireOk(DoWorker(cfg, h, step).records, c, h.conns[c]) {
      EvolvedRecords(h.records, DoWorker(cfg, h, step).records, c, h.conns[c]);
    }
  }
}
