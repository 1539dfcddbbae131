/** Which audio reaches the runner: for each session, exactly what its connection accepted. */
module StreamRouting {
  import opened Prelude
  import opened Stream
  import opened StreamControl
  import opened StreamHistory
  import Pcm
  import W = Worker

  /** The bytes of the audio frames in a stretch of uplink, in order. */
  function Payload(log: seq<Uplink>): seq<Byte> {
    if log == [] then []
    else Payload(log[..|log| - 1]) + (if log[|log| - 1].Binary? then log[|log| - 1].data else [])
  }

  /** A stretch without session boundaries in which every audio frame has even length. */
  predicate Clean(log: seq<Uplink>) {
    forall i :: 0 <= i < |log| ==> log[i].Other? || (log[i].Binary? && |log[i].data| % 2 == 0)
  }

  lemma {:induction false} CleanIsEven(log: seq<Uplink>)
    requires Clean(log)
    ensures |Payload(log)| % 2 == 0
  {
    if log != [] { CleanIsEven(log[..|log| - 1]); }
  }

  lemma PayloadAppend(log: seq<Uplink>, e: Uplink)
    ensures Payload(log + [e]) == Payload(log) + (if e.Binary? then e.data else [])
  {
    assert (log + [e])[..|log|] == log;
  }

  /** The utterance buffered so far is what the uplink holds since the session was opened. */
  predicate Buffering(records: seq<Record>, cn: Conn) {
    cn.local.inFlight.Some? && !cn.local.inFlight.value.submitted && !cn.pc.SendMalformed? && !TearingDown(cn.pc) ==>
      var f := cn.local.inFlight.value;
      f.ticket < |records|
      && var o := records[f.ticket].openedAt;
         o < |cn.uplink| && cn.uplink[o] == Opened(f.ticket)
         && Clean(cn.uplink[o + 1..]) && f.buffer == Payload(cn.uplink[o + 1..])
  }

  /** The work item holds the decoded payload between the two boundaries of its session. */
  predicate Faithful(cfg: Config, records: seq<Record>, conns: map<ConnId, Conn>, item: W.WorkItem) {
    var k := item.ctx.ticket;
    && k < |records| && records[k].stage != Open
    && records[k].conn in conns
    && var uplink, o, e := conns[records[k].conn].uplink, records[k].openedAt, records[k].endedAt;
       o < e < |uplink|
       && uplink[o] == Opened(k) && uplink[e] == Ended(k)
       && Clean(uplink[o + 1..e])
       && |Payload(uplink[o + 1..e])| % 2 == 0
       && item.audio == Pcm.DecodeUplink(Payload(uplink[o + 1..e]))
       && item.rate == cfg.rate
  }

  ghost predicate Routed(cfg: Config, h: Host) {
    && (forall c :: c in h.conns ==> Buffering(h.records, h.conns[c]))
    && (forall i :: 0 <= i < |h.worker.accepted| ==> Faithful(cfg, h.records, h.conns, h.worker.accepted[i]))
  }

  /** A longer log reads the same where the shorter one reaches. */
  lemma SamePrefix<T>(u: seq<T>, u': seq<T>, o: nat, e: nat)
    requires u <= u' && o < e < |u|
    ensures u'[o] == u[o] && u'[e] == u[e] && u'[o + 1..e] == u[o + 1..e]
  {
    assert forall i :: 0 <= i < |u| ==> u'[i] == u[i];
  }

  /** Accepted items stay faithful as histories grow. */
  lemma StaysFaithful(cfg: Config, h: Host, h': Host, item: W.WorkItem)
    requires Faithful(cfg, h.records, h.conns, item) && Evolves(h, h')
    ensures Faithful(cfg, h'.records, h'.conns, item)
  {
    var k := item.ctx.ticket;
    var c := h.records[k].conn;
    assert RecordEvolves(h.records[k], h'.records[k]);
    assert ConnEvolves(h.conns[c], h'.conns[c]);
    var u, u' := h.conns[c].uplink, h'.conns[c].uplink;
    var o, e := h.records[k].openedAt, h.records[k].endedAt;
    SamePrefix(u, u', o, e);
  }

  /** A step that changes one connection and accepts no work. */
  lemma ConnRouted(cfg: Config, h: Host, h': Host, c: ConnId)
    requires Routed(cfg, h) && Evolves(h, h') && h'.worker.accepted == h.worker.accepted
    requires c in h'.conns && h'.conns == h.conns[c := h'.conns[c]]
    requires Buffering(h'.records, h'.conns[c])
    ensures Routed(cfg, h')
  {
    forall i | 0 <= i < |h.worker.accepted| ensures Faithful(cfg, h'.records, h'.conns, h.worker.accepted[i]) {
      StaysFaithful(cfg, h, h', h.worker.accepted[i]);
    }
    OthersBuffer(h, h', c);
  }

  lemma OthersBuffer(h: Host, h': Host, c: ConnId)
    requires forall c' :: c' in h.conns ==> Buffering(h.records, h.conns[c'])
    requires RecordsEvolve(h.records, h'.records)
    requires c in h'.conns && h'.conns == h.conns[c := h'.conns[c]]
    ensures forall c' :: c' in h'.conns && c' != c ==> Buffering(h'.records, h'.conns[c'])
  {
    forall c' | c' in h'.conns && c' != c ensures Buffering(h'.records, h'.conns[c']) {
      StillBuffering(h.records, h'.records, h.conns[c'], h.conns[c']);
    }
  }

  /** Nothing more was buffered or logged, and no new doubt about the session arose. */
  lemma StillBuffering(records: seq<Record>, records': seq<Record>, cn: Conn, cn': Conn)
    requires Buffering(records, cn) && RecordsEvolve(records, records')
    requires cn'.uplink == cn.uplink
    requires cn'.local.inFlight == cn.local.inFlight
    requires cn.pc.SendMalformed? || TearingDown(cn.pc) ==>
      cn'.pc.SendMalformed? || TearingDown(cn'.pc) || cn'.local.inFlight.None?
    ensures Buffering(records', cn')
  {
    if cn.local.inFlight.Some? && cn.local.inFlight.value.ticket < |records| {
      assert RecordEvolves(records[cn.local.inFlight.value.ticket], records'[cn.local.inFlight.value.ticket]);
    }
  }

  /** One more uplink entry is logged, and buffered if it is an audio frame. */
  lemma BufferingGrows(records: seq<Record>, cn: Conn, cn': Conn, e: Uplink)
    requires Buffering(records, cn) && cn'.uplink == cn.uplink + [e] && Clean([e])
    requires cn.local.inFlight.Some? && cn'.local.inFlight.Some? && !cn.pc.SendMalformed? && !TearingDown(cn.pc)
    requires var f, f' := cn.local.inFlight.value, cn'.local.inFlight.value;
      f'.ticket == f.ticket && f'.submitted == f.submitted && f'.buffer == f.buffer + (if e.Binary? then e.data else [])
    ensures Buffering(records, cn')
  {
    var f := cn.local.inFlight.value;
    if !f.submitted {
      var o := records[f.ticket].openedAt;
      assert cn'.uplink[o + 1..] == cn.uplink[o + 1..] + [e];
      PayloadAppend(cn.uplink[o + 1..], e);
    }
  }

  // ----- steps -----

  lemma StartRouted(cfg: Config, h: Host, c: ConnId, session: string, user: string, wakeWord: int)
    requires Routed(cfg, h) && c in h.conns && h.conns[c].pc.Receiving?
    ensures Routed(cfg, DoStart(h, c, h.conns[c], session, user, wakeWord))
  {
    var cn := h.conns[c];
    var h' := DoStart(h, c, cn, session, user, wakeWord);
    StartEvolves(h, c, session, user, wakeWord);
    if session !in h.registry && cn.local.current.None? {
      assert h'.conns[c].uplink[|cn.uplink| + 1..] == [];
    } else if cn.local.inFlight.Some? {
      BufferingGrows(h.records, cn, h'.conns[c], Other);
    }
    ConnRouted(cfg, h, h', c);
  }

  lemma BinaryRouted(cfg: Config, h: Host, c: ConnId, data: seq<Byte>)
    requires Routed(cfg, h) && c in h.conns && h.conns[c].pc.Receiving?
    ensures Routed(cfg, DoBinary(h, c, h.conns[c], data))
  {
    var cn := h.conns[c];
    var h' := DoBinary(h, c, cn, data);
    QuietEvolves(Config(0.0, 0, 0), h, GetBinary(c, data));
    if cn.local.inFlight.Some? && |data| % 2 == 0 {
      BufferingGrows(h.records, cn, h'.conns[c], Binary(data));
    }
    ConnRouted(cfg, h, h', c);
  }

  lemma OtherRouted(cfg: Config, h: Host, c: ConnId, cn': Conn)
    requires Routed(cfg, h) && c in h.conns && h.conns[c].pc.Receiving?
    requires ConnEvolves(h.conns[c], cn') && cn'.uplink == h.conns[c].uplink + [Other]
    requires cn'.local.inFlight == h.conns[c].local.inFlight
    ensures Routed(cfg, Put(h, c, cn'))
  {
    if cn'.local.inFlight.Some? {
      BufferingGrows(h.records, h.conns[c], cn', Other);
    }
    ConnEvolution(h, Put(h, c, cn'), c, 0);
    ConnRouted(cfg, h, Put(h, c, cn'), c);
  }

  /** A step that takes nothing off the wire. */
  lemma DryRouted(cfg: Config, h: Host, h': Host, c: ConnId)
    requires Routed(cfg, h) && Evolves(h, h') && h'.worker.accepted == h.worker.accepted
    requires c in h.conns && c in h'.conns && h'.conns == h.conns[c := h'.conns[c]]
    requires h'.conns[c].uplink == h.conns[c].uplink
    requires h'.conns[c].local.inFlight.None?
      || (h'.conns[c].local.inFlight == h.conns[c].local.inFlight && !h.conns[c].pc.SendMalformed?
        && !TearingDown(h.conns[c].pc))
      || TearingDown(h'.conns[c].pc)
      || (h'.conns[c].pc == h.conns[c].pc && h'.conns[c].local == h.conns[c].local)
    ensures Routed(cfg, h')
  {
    if h'.conns[c].local.inFlight == h.conns[c].local.inFlight {
      StillBuffering(h.records, h'.records, h.conns[c], h'.conns[c]);
    }
    ConnRouted(cfg, h, h', c);
  }

  lemma EndRouted(cfg: Config, h: Host, c: ConnId, session: string)
    requires Control(cfg, h) && Routed(cfg, h) && c in h.conns && h.conns[c].pc.Receiving?
    ensures Routed(cfg, DoEnd(cfg, h, c, h.conns[c], session))
  {
    var cn := h.conns[c];
    if cn.local.inFlight.None? || cn.local.inFlight.value.session != session {
      OtherRouted(cfg, h, c, Log(cn, Other));
    } else {
      HandOverRouted(cfg, h, c, session);
    }
  }

  lemma HandOverRouted(cfg: Config, h: Host, c: ConnId, session: string)
    requires Control(cfg, h) && Routed(cfg, h) && c in h.conns && h.conns[c].pc.Receiving?
    requires var l := h.conns[c].local; l.inFlight.Some? && l.inFlight.value.session == session
    ensures Routed(cfg, HandOver(cfg, h, c, h.conns[c]))
  {
    EndEvolves(cfg, h, c, session);
    HandOverShape(cfg, h, c, h.conns[c]);
    OthersBuffer(h, HandOver(cfg, h, c, h.conns[c]), c);
    EndItems(cfg, h, c, session);
  }

  /** What the worker has accepted once an utterance has been handed over. */
  lemma HandOverAccepts(cfg: Config, h: Host, c: ConnId)
    requires c in h.conns && h.conns[c].local.inFlight.Some?
    ensures var l := h.conns[c].local;
            var accepted := HandOver(cfg, h, c, h.conns[c]).worker.accepted;
      || accepted == h.worker.accepted
      || (accepted == h.worker.accepted + [accepted[|h.worker.accepted|]]
          && accepted[|h.worker.accepted|].ctx == ContextOf(l)
          && accepted[|h.worker.accepted|].audio == Pcm.DecodeUplink(l.inFlight.value.buffer)
          && accepted[|h.worker.accepted|].rate == cfg.rate)
  {
  }

  lemma EndItems(cfg: Config, h: Host, c: ConnId, session: string)
    requires Control(cfg, h) && Routed(cfg, h) && c in h.conns && h.conns[c].pc.Receiving?
    requires var l := h.conns[c].local; l.inFlight.Some? && l.inFlight.value.session == session
    requires Evolves(h, HandOver(cfg, h, c, h.conns[c]))
    ensures var h' := HandOver(cfg, h, c, h.conns[c]);
      forall i :: 0 <= i < |h'.worker.accepted| ==> Faithful(cfg, h'.records, h'.conns, h'.worker.accepted[i])
  {
    var h' := HandOver(cfg, h, c, h.conns[c]);
    HandOverAccepts(cfg, h, c);
    forall i | 0 <= i < |h'.worker.accepted| ensures Faithful(cfg, h'.records, h'.conns, h'.worker.accepted[i]) {
      if i < |h.worker.accepted| {
        StaysFaithful(cfg, h, h', h.worker.accepted[i]);
      } else {
        UtteranceFaithful(cfg, h, c, h'.worker.accepted[i]);
      }
    }
  }

  lemma HandOverEnds(cfg: Config, h: Host, c: ConnId)
    requires c in h.conns && h.conns[c].local.inFlight.Some? && h.conns[c].local.inFlight.value.ticket < |h.records|
    ensures var h' := HandOver(cfg, h, c, h.conns[c]);
            var t := h.conns[c].local.inFlight.value.ticket;
      && |h'.records| == |h.records|
      && h'.records[t] == h.records[t].(endedAt := |h.conns[c].uplink|, stage := h'.records[t].stage)
      && h'.records[t].stage != Open
  {
  }

  /** What `Faithful` asks of an item, read off the log the session ended in. */
  lemma FaithfulFromLog(cfg: Config, records: seq<Record>, conns: map<ConnId, Conn>, item: W.WorkItem, u: seq<Uplink>)
    requires var t := item.ctx.ticket;
      t < |records| && records[t].stage != Open && records[t].conn in conns && records[t].endedAt == |u|
      && conns[records[t].conn].uplink == u + [Ended(t)]
      && var o := records[t].openedAt;
         o < |u| && u[o] == Opened(t) && Clean(u[o + 1..])
         && |Payload(u[o + 1..])| % 2 == 0 && item.audio == Pcm.DecodeUplink(Payload(u[o + 1..]))
    requires item.rate == cfg.rate
    ensures Faithful(cfg, records, conns, item)
  {
    LogPrefix(u, Ended(item.ctx.ticket), records[item.ctx.ticket].openedAt);
  }

  /** The log of a receiving connection that holds an open session. */
  lemma OpenLog(cfg: Config, h: Host, c: ConnId)
    requires Control(cfg, h) && Routed(cfg, h) && c in h.conns && h.conns[c].pc.Receiving?
    requires h.conns[c].local.inFlight.Some?
    ensures var f, u := h.conns[c].local.inFlight.value, h.conns[c].uplink;
      && f.ticket < |h.records| && h.records[f.ticket].conn == c
      && var o := h.records[f.ticket].openedAt;
         o < |u| && u[o] == Opened(f.ticket) && Clean(u[o + 1..]) && f.buffer == Payload(u[o + 1..])
  {
    assert ConnOk(h.records, h.worker.accepted, c, h.conns[c]) && Buffering(h.records, h.conns[c]);
  }

  /** The item just accepted carries the utterance just ended. */
  lemma UtteranceFaithful(cfg: Config, h: Host, c: ConnId, item: W.WorkItem)
    requires Control(cfg, h) && Routed(cfg, h) && c in h.conns && h.conns[c].pc.Receiving?
    requires h.conns[c].local.inFlight.Some? && item.ctx == ContextOf(h.conns[c].local)
    requires item.audio == Pcm.DecodeUplink(h.conns[c].local.inFlight.value.buffer) && item.rate == cfg.rate
    ensures var h' := HandOver(cfg, h, c, h.conns[c]);
      Faithful(cfg, h'.records, h'.conns, item)
  {
    OpenLog(cfg, h, c);
    HandedOverFaithful(cfg, h, c, item);
  }

  lemma HandedOverFaithful(cfg: Config, h: Host, c: ConnId, item: W.WorkItem)
    requires c in h.conns && h.conns[c].local.inFlight.Some?
    requires var f, u := h.conns[c].local.inFlight.value, h.conns[c].uplink;
      && f.ticket < |h.records| && h.records[f.ticket].conn == c
      && var o := h.records[f.ticket].openedAt;
         o < |u| && u[o] == Opened(f.ticket) && Clean(u[o + 1..]) && f.buffer == Payload(u[o + 1..])
    requires item.ctx.ticket == h.conns[c].local.inFlight.value.ticket && item.rate == cfg.rate
    requires item.audio == Pcm.DecodeUplink(h.conns[c].local.inFlight.value.buffer)
    ensures var h' := HandOver(cfg, h, c, h.conns[c]);
      Faithful(cfg, h'.records, h'.conns, item)
  {
    var cn := h.conns[c];
    var h' := HandOver(cfg, h, c, cn);
    HandOverShape(cfg, h, c, cn);
    HandOverEnds(cfg, h, c);
    FaithfulFromLog(cfg, h'.records, h'.conns, item, cn.uplink);
  }

  lemma LogPrefix(u: seq<Uplink>, e: Uplink, o: nat)
    requires o < |u|
    ensures (u + [e])[o + 1..|u|] == u[o + 1..] && (u + [e])[o] == u[o] && (u + [e])[|u|] == e
  {
  }

  lemma ConnsStayBuffering(h: Host, h': Host)
    requires forall c :: c in h.conns ==> Buffering(h.records, h.conns[c])
    requires h'.conns == h.conns && RecordsEvolve(h.records, h'.records)
    ensures forall c :: c in h'.conns ==> Buffering(h'.records, h'.conns[c])
  {
    forall c | c in h.conns ensures Buffering(h'.records, h.conns[c]) {
      StillBuffering(h.records, h'.records, h.conns[c], h.conns[c]);
    }
  }

  lemma WorkerRouted(cfg: Config, h: Host, step: W.Step)
    requires Control(cfg, h) && Routed(cfg, h) && Enabled(cfg, h, WorkerMoves(step))
    ensures Routed(cfg, DoWorker(cfg, h, step))
  {
    var h' := DoWorker(cfg, h, step);
    WorkerEvolves(cfg, h, step);
    WorkerAcceptsNothing(cfg, h, step);
    ConnsStayBuffering(h, h');
    forall i | 0 <= i < |h.worker.accepted| ensures Faithful(cfg, h'.records, h'.conns, h.worker.accepted[i]) {
      StaysFaithful(cfg, h, h', h.worker.accepted[i]);
    }
  }

  lemma WorkerAcceptsNothing(cfg: Config, h: Host, step: W.Step)
    requires Enabled(cfg, h, WorkerMoves(step))
    ensures var h' := DoWorker(cfg, h, step); h'.conns == h.conns && h'.worker.accepted == h.worker.accepted
  {
  }

  lemma SendDoneRouted(cfg: Config, h: Host, c: ConnId)
    requires Control(cfg, h) && Routed(cfg, h) && c in h.conns && Sending(h.conns[c].pc)
    ensures Routed(cfg, DoSendDone(h, c, h.conns[c]))
  {
    SendDoneEvolves(cfg, h, c);
    SendDoneShape(h, c);
    DryRouted(cfg, h, DoSendDone(h, c, h.conns[c]), c);
  }

  lemma PollRouted(cfg: Config, h: Host, c: ConnId)
    requires Control(cfg, h) && Routed(cfg, h) && c in h.conns
    ensures Routed(cfg, DoPoll(cfg, h, c, h.conns[c]))
  {
    PollEvolves(cfg, h, c);
    DryRouted(cfg, h, DoPoll(cfg, h, c, h.conns[c]), c);
  }

  lemma SendFailsRouted(cfg: Config, h: Host, c: ConnId)
    requires Control(cfg, h) && Routed(cfg, h) && c in h.conns && Sending(h.conns[c].pc)
    ensures Routed(cfg, DoSendFails(h, c, h.conns[c]))
  {
    SendFailsEvolves(cfg, h, c);
    DryRouted(cfg, h, DoSendFails(h, c, h.conns[c]), c);
  }

  lemma TeardownRouted(cfg: Config, h: Host, c: ConnId)
    requires Control(cfg, h) && Routed(cfg, h) && c in h.conns
    ensures Routed(cfg, ReleaseAs(h, c, h.conns[c].(pc := Closed), Dropped))
  {
    ReleaseEvolves(cfg, h, c, h.conns[c].(pc := Closed), Dropped);
    DryRouted(cfg, h, ReleaseAs(h, c, h.conns[c].(pc := Closed), Dropped), c);
  }

  lemma PutRouted(cfg: Config, h: Host, c: ConnId, cn: Conn)
    requires Routed(cfg, h) && c in h.conns && ConnEvolves(h.conns[c], cn)
    requires cn.uplink == h.conns[c].uplink && cn.local == h.conns[c].local
    requires cn.pc == h.conns[c].pc || TearingDown(cn.pc) || h.conns[c].pc.AwaitFuture?
    ensures Routed(cfg, Put(h, c, cn))
  {
    ConnEvolution(h, Put(h, c, cn), c, 0);
    DryRouted(cfg, h, Put(h, c, cn), c);
  }

  lemma FutureDoneRouted(cfg: Config, h: Host, c: ConnId)
    requires Routed(cfg, h) && Enabled(cfg, h, FutureDone(c))
    ensures Routed(cfg, DoFutureDone(h, c, h.conns[c]))
  {
    PutRouted(cfg, h, c, DoFutureDone(h, c, h.conns[c]).conns[c]);
  }

  lemma ReaperSentRouted(cfg: Config, h: Host, c: ConnId, delivered: bool)
    requires Routed(cfg, h) && c in h.conns && h.conns[c].reaper.SendTimeout?
    ensures Routed(cfg, DoReaperSent(h, c, h.conns[c], delivered))
  {
    PutRouted(cfg, h, c, DoReaperSent(h, c, h.conns[c], delivered).conns[c]);
  }

  lemma IncomingRouted(cfg: Config, h: Host, a: Action)
    requires Control(cfg, h) && Routed(cfg, h) && Enabled(cfg, h, a) && Incoming(a)
    ensures Routed(cfg, Apply(cfg, h, a))
  {
    match a {
      case ClientGone(c) => PutRouted(cfg, h, c, BeginTeardown(h.conns[c]));
      case GetStart(c, session, user, wakeWord) => StartRouted(cfg, h, c, session, user, wakeWord);
      case GetBinary(c, data) => BinaryRouted(cfg, h, c, data);
      case GetEnd(c, session) => EndRouted(cfg, h, c, session);
      case GetClockSync(c, e, r, s) => OtherRouted(cfg, h, c, DoClockSync(h, c, h.conns[c], e, r, s).conns[c]);
      case GetOther(c) => OtherRouted(cfg, h, c, Log(h.conns[c], Other));
    }
  }

  lemma ResumingRouted(cfg: Config, h: Host, a: Action)
    requires Control(cfg, h) && Routed(cfg, h) && Enabled(cfg, h, a) && Resuming(a)
    ensures Routed(cfg, Apply(cfg, h, a))
  {
    match a {
      case SendDone(c) => SendDoneRouted(cfg, h, c);
      case SendFails(c) => SendFailsRouted(cfg, h, c);
      case FutureDone(c) => FutureDoneRouted(cfg, h, c);
      case TeardownDone(c) => TeardownRouted(cfg, h, c);
    }
  }

  lemma BackgroundRouted(cfg: Config, h: Host, a: Action)
    requires Control(cfg, h) && Routed(cfg, h) && Enabled(cfg, h, a) && !Incoming(a) && !Resuming(a)
    ensures Routed(cfg, Apply(cfg, h, a))
  {
    match a {
      case Accept(c) => AcceptRouted(cfg, h, c);
      case ReaperEnters(c) => PutRouted(cfg, h, c, h.conns[c].(reaper := Sleeping));
      case ReaperPolls(c) => PollRouted(cfg, h, c);
      case ReaperSendEnds(c, delivered) => ReaperSentRouted(cfg, h, c, delivered);
      case WorkerMoves(step) => WorkerRouted(cfg, h, step);
      case TimePasses(_) =>
    }
  }

  lemma StepRouted(cfg: Config, h: Host, a: Action)
    requires Control(cfg, h) && Routed(cfg, h) && Enabled(cfg, h, a)
    ensures Routed(cfg, Apply(cfg, h, a))
  {
    if Incoming(a) {
      IncomingRouted(cfg, h, a);
    } else if Resuming(a) {
      ResumingRouted(cfg, h, a);
    } else {
      BackgroundRouted(cfg, h, a);
    }
  }

  lemma AcceptRouted(cfg: Config, h: Host, c: ConnId)
    requires Routed(cfg, h) && c !in h.conns
    ensures Routed(cfg, Put(h, c, Conn(IDLE, Receiving, Unentered, [], [])))
  {
    ConnRouted(cfg, h, Put(h, c, Conn(IDLE, Receiving, Unentered, [], [])), c);
  }
}
