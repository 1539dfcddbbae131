/** Who owns a session id: registry, connection and stream session always agree. */
module StreamOwnership {
  import opened Prelude
  import opened Session
  import opened Stream

  predicate Coherent(reg: Registry, c: ConnId, l: Local) {
    match l.inFlight
    case None => l.current.None?
    case Some(f) => l.current == Some(f.session) && f.session in reg && reg[f.session] == c
  }

  predicate Owns(h: Host, c: ConnId, s: string) {
    c in h.conns && h.conns[c].local.current == Some(s)
  }

  ghost predicate Ownership(h: Host) {
    && (forall c :: c in h.conns ==> Coherent(h.registry, c, h.conns[c].local))
    && (forall s :: s in h.registry ==> Owns(h, h.registry[s], s))
  }

  /** The connection a step acts for, if any. */
  function ActorOf(a: Action): Option<ConnId> {
    if a.WorkerMoves? || a.TimePasses? then None else Some(a.c)
  }

  lemma PutKeepsOwnership(h: Host, c: ConnId, cn: Conn)
    requires Ownership(h) && Coherent(h.registry, c, cn.local)
    requires c in h.conns ==> h.conns[c].local.current == cn.local.current
    ensures Ownership(Put(h, c, cn))
  {
  }

  lemma ReleaseKeepsOwnership(h: Host, c: ConnId, cn: Conn, stage: Stage)
    requires Ownership(h) && c in h.conns && cn.local == h.conns[c].local
    ensures Ownership(ReleaseAs(h, c, cn, stage))
  {
    var (reg, l) := Release(h.registry, cn.local);
    var h' := ReleaseAs(h, c, cn, stage);
    assert h'.registry == reg && h'.conns == h.conns[c := cn.(local := l)];
    if cn.local.inFlight.None? {
      PutKeepsOwnership(h, c, cn);
    } else {
      forall s | s in reg ensures Owns(h', reg[s], s) {
        assert Owns(h, h.registry[s], s);
      }
    }
  }

  lemma StartKeepsOwnership(h: Host, c: ConnId, cn: Conn, session: string, user: string, wakeWord: int)
    requires Ownership(h) && c in h.conns && cn == h.conns[c]
    ensures Ownership(DoStart(h, c, cn, session, user, wakeWord))
  {
    var (reg, l, ok) := Start(h.registry, c, cn.local, session, user, wakeWord, h.now, |h.records|);
    if !ok {
      assert reg == h.registry;
    }
  }

  lemma IncomingKeepsOwnership(cfg: Config, h: Host, a: Action)
    requires Ownership(h) && Enabled(cfg, h, a) && Incoming(a)
    ensures Ownership(Apply(cfg, h, a))
  {
    match a {
      case ClientGone(c) => PutKeepsOwnership(h, c, BeginTeardown(h.conns[c]));
      case GetStart(c, session, user, wakeWord) => StartKeepsOwnership(h, c, h.conns[c], session, user, wakeWord);
      case GetBinary(c, data) => PutKeepsOwnership(h, c, DoBinary(h, c, h.conns[c], data).conns[c]);
      case GetEnd(c, session) => EndKeepsOwnership(cfg, h, c, session);
      case GetClockSync(c, e, r, s) => PutKeepsOwnership(h, c, DoClockSync(h, c, h.conns[c], e, r, s).conns[c]);
      case GetOther(c) => PutKeepsOwnership(h, c, Log(h.conns[c], Other));
    }
  }

  lemma ResumingKeepsOwnership(cfg: Config, h: Host, a: Action)
    requires Ownership(h) && Enabled(cfg, h, a) && Resuming(a)
    ensures Ownership(Apply(cfg, h, a))
  {
    match a {
      case SendDone(c) => SendDoneKeepsOwnership(h, c, h.conns[c]);
      case SendFails(c) => PutKeepsOwnership(h, c, BeginTeardown(h.conns[c]));
      case FutureDone(c) => PutKeepsOwnership(h, c, DoFutureDone(h, c, h.conns[c]).conns[c]);
      case TeardownDone(c) => ReleaseKeepsOwnership(h, c, h.conns[c].(pc := Closed), Dropped);
    }
  }

  lemma BackgroundKeepsOwnership(cfg: Config, h: Host, a: Action)
    requires Ownership(h) && Enabled(cfg, h, a) && !Incoming(a) && !Resuming(a)
    ensures Ownership(Apply(cfg, h, a))
  {
    match a {
      case Accept(c) => PutKeepsOwnership(h, c, Conn(IDLE, Receiving, Unentered, [], []));
      case ReaperEnters(c) => PutKeepsOwnership(h, c, h.conns[c].(reaper := Sleeping));
      case ReaperPolls(c) => PollKeepsOwnership(cfg, h, c);
      case ReaperSendEnds(c, delivered) => PutKeepsOwnership(h, c, DoReaperSent(h, c, h.conns[c], delivered).conns[c]);
      case WorkerMoves(_) =>
      case TimePasses(_) =>
    }
  }

  lemma StepKeepsOwnership(cfg: Config, h: Host, a: Action)
    requires Ownership(h) && Enabled(cfg, h, a)
    ensures Ownership(Apply(cfg, h, a))
  {
    if Incoming(a) {
      IncomingKeepsOwnership(cfg, h, a);
    } else if Resuming(a) {
      ResumingKeepsOwnership(cfg, h, a);
    } else {
      BackgroundKeepsOwnership(cfg, h, a);
    }
  }

  lemma EndKeepsOwnership(cfg: Config, h: Host, c: ConnId, session: string)
    requires Ownership(h) && c in h.conns
    ensures Ownership(DoEnd(cfg, h, c, h.conns[c], session))
  {
    var cn := h.conns[c];
    if cn.local.inFlight.None? || cn.local.inFlight.value.session != session {
      PutKeepsOwnership(h, c, Log(cn, Other));
    } else {
      HandOverShape(cfg, h, c, cn);
      SameRegistry(h, HandOver(cfg, h, c, cn), c);
    }
  }

  lemma SameRegistry(h: Host, h': Host, c: ConnId)
    requires Ownership(h) && c in h.conns && c in h'.conns && h'.conns == h.conns[c := h'.conns[c]]
    requires h'.registry == h.registry && Coherent(h.registry, c, h'.conns[c].local)
    requires h'.conns[c].local.current == h.conns[c].local.current
    ensures Ownership(h')
  {
    forall s | s in h'.registry ensures Owns(h', h'.registry[s], s) {
      assert Owns(h, h.registry[s], s);
    }
  }

  lemma OverflowKeepsOwnership(h: Host, c: ConnId, cn: Conn)
    requires Ownership(h) && c in h.conns && cn == h.conns[c] && cn.pc.SendOverflow?
    ensures Ownership(DoOverflowSent(h, c, cn))
  {
    var ctx := cn.pc.ctx;
    var sent := Sent(cn, Error(ctx.session, QueueOverflow, ctx.ticket), Receiving);
    var h1 := h.(traces := h.traces + TransportRows(ctx, "queue_overflow"));
    if StoreAccepts(ctx.user) {
      ReleaseKeepsOwnership(h1, c, sent, Dropped);
    } else {
      PutKeepsOwnership(h1, c, BeginTeardown(sent));
    }
  }

  lemma SendDoneKeepsOwnership(h: Host, c: ConnId, cn: Conn)
    requires Ownership(h) && c in h.conns && cn == h.conns[c]
    ensures Ownership(DoSendDone(h, c, cn))
  {
    var h' := DoSendDone(h, c, cn);
    match cn.pc {
      case SendMalformed(s, k) =>
        ReleaseKeepsOwnership(h, c, Sent(cn, Error(s, MalformedAudio, k), Receiving), Malformed);
      case SendOverflow(_) => OverflowKeepsOwnership(h, c, cn);
      case SendFailure(ctx, cause) =>
        ReleaseKeepsOwnership(h, c, Sent(cn, Error(ctx.session, WireCodeOf(cause), ctx.ticket), Receiving), Dropped);
      case SendTtsEnd(ctx, r) => ReleaseKeepsOwnership(h, c, h'.conns[c].(local := cn.local), Dropped);
      case _ => PutKeepsOwnership(h, c, h'.conns[c]);
    }
  }

  lemma PollKeepsOwnership(cfg: Config, h: Host, c: ConnId)
    requires Ownership(h) && c in h.conns
    ensures Ownership(DoPoll(cfg, h, c, h.conns[c]))
  {
    if Stale(h.conns[c].local, h.now, cfg.timeout) {
      var ctx := ContextOf(h.conns[c].local);
      ReleaseKeepsOwnership(h.(traces := h.traces + TransportRows(ctx, "session_timeout")), c,
                            h.conns[c].(reaper := AfterReclaim(h.conns[c].reaper, ctx)), TimedOut);
    }
  }
}
