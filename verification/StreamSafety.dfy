/** The protocol's guarantees over whole runs, from an empty host, under any interleaving of
    receive tasks, reapers, the worker thread and `stop`. */
module StreamSafety {
  import opened Prelude
  import opened Session
  import opened Stream
  import opened StreamOwnership
  import opened StreamControl
  import opened StreamHistory
  import opened StreamTraces
  import opened StreamWire
  import opened StreamRouting

  ghost predicate Inv(cfg: Config, h: Host) {
    Ownership(h) && Control(cfg, h) && Conserved(h) && Wire(h) && Routed(cfg, h) && Reported(h)
  }

  // ----- overflow errors that got through -----

  predicate ToldOverflow(h: Host, k: Ticket) {
    && k < |h.records| && h.records[k].conn in h.conns
    && Error(h.records[k].session, QueueOverflow, k) in h.conns[h.records[k].conn].sent
  }

  ghost predicate Reported(h: Host) {
    forall k :: 0 <= k < |h.records| && h.records[k].stage == Overflowed ==> ToldOverflow(h, k)
  }

  lemma StaysReported(h: Host, h': Host, k: Ticket)
    requires ToldOverflow(h, k) && Evolves(h, h')
    ensures ToldOverflow(h', k)
  {
    assert RecordEvolves(h.records[k], h'.records[k]);
    var c := h.records[k].conn;
    assert ConnEvolves(h.conns[c], h'.conns[c]);
    assert h'.conns[c].sent == h.conns[c].sent + h'.conns[c].sent[|h.conns[c].sent|..];
  }

  lemma StepReports(cfg: Config, h: Host, a: Action)
    requires Control(cfg, h) && Reported(h) && Enabled(cfg, h, a)
    ensures Reported(Apply(cfg, h, a))
  {
    var h' := Apply(cfg, h, a);
    StepEvolves(cfg, h, a);
    forall k | 0 <= k < |h'.records| && h'.records[k].stage == Overflowed ensures ToldOverflow(h', k) {
      if k < |h.records| && h.records[k].stage == Overflowed {
        StaysReported(h, h', k);
      } else {
        NewlyOverflowed(cfg, h, a, k);
      }
    }
  }

  lemma NewlyOverflowed(cfg: Config, h: Host, a: Action, k: Ticket)
    requires Control(cfg, h) && Enabled(cfg, h, a)
    requires k < |Apply(cfg, h, a).records| && Apply(cfg, h, a).records[k].stage == Overflowed
    requires k < |h.records| ==> h.records[k].stage != Overflowed
    ensures ToldOverflow(Apply(cfg, h, a), k)
  {
    if a.SendDone? && h.conns[a.c].pc.SendOverflow? {
      SendKeepsCount(h, a.c);
      OverflowIsTold(cfg, h, a.c, k);
    } else if a.SendDone? {
      OtherSendsMarkNothing(h, a.c, k);
    } else {
      NoOtherOverflow(cfg, h, a, k);
    }
  }

  lemma OverflowIsTold(cfg: Config, h: Host, c: ConnId, k: Ticket)
    requires Control(cfg, h) && c in h.conns && h.conns[c].pc.SendOverflow?
    requires var h' := DoOverflowSent(h, c, h.conns[c]);
      k < |h'.records| == |h.records| && h'.records[k].stage == Overflowed && h.records[k].stage != Overflowed
    ensures ToldOverflow(DoOverflowSent(h, c, h.conns[c]), k)
  {
    assert ConnOk(h.records, h.worker.accepted, c, h.conns[c]);
    OverflowSends(h, c);
  }

  lemma OtherSendsMarkNothing(h: Host, c: ConnId, k: Ticket)
    requires c in h.conns && Sending(h.conns[c].pc) && !h.conns[c].pc.SendOverflow?
    requires var h' := DoSendDone(h, c, h.conns[c]); k < |h'.records| && h'.records[k].stage == Overflowed
    ensures k < |h.records| && h.records[k].stage == Overflowed
  {
  }

  lemma SendKeepsCount(h: Host, c: ConnId)
    requires c in h.conns && h.conns[c].pc.SendOverflow?
    ensures |DoOverflowSent(h, c, h.conns[c]).records| == |h.records|
  {
  }

  lemma NoOtherOverflow(cfg: Config, h: Host, a: Action, k: Ticket)
    requires Enabled(cfg, h, a) && !a.SendDone?
    requires k < |Apply(cfg, h, a).records| && Apply(cfg, h, a).records[k].stage == Overflowed
    ensures k < |h.records| && h.records[k].stage == Overflowed
  {
    if Incoming(a) {
      IncomingOverflow(cfg, h, a, k);
    } else if !Resuming(a) {
      BackgroundOverflow(cfg, h, a, k);
    }
  }

  lemma IncomingOverflow(cfg: Config, h: Host, a: Action, k: Ticket)
    requires Enabled(cfg, h, a) && Incoming(a)
    requires k < |Apply(cfg, h, a).records| && Apply(cfg, h, a).records[k].stage == Overflowed
    ensures k < |h.records| && h.records[k].stage == Overflowed
  {
  }

  lemma BackgroundOverflow(cfg: Config, h: Host, a: Action, k: Ticket)
    requires Enabled(cfg, h, a) && !Incoming(a) && !Resuming(a)
    requires k < |Apply(cfg, h, a).records| && Apply(cfg, h, a).records[k].stage == Overflowed
    ensures k < |h.records| && h.records[k].stage == Overflowed
  {
  }

  // ----- every reachable state -----

  lemma BootIsSafe(cfg: Config)
    ensures Inv(cfg, BOOT)
  {
  }

  lemma StepKeepsInv(cfg: Config, h: Host, a: Action)
    requires Inv(cfg, h) && Enabled(cfg, h, a)
    ensures Inv(cfg, Apply(cfg, h, a))
  {
    StepKeepsOwnership(cfg, h, a);
    StepKeepsControl(cfg, h, a);
    StepConserves(cfg, h, a);
    StepKeepsWire(cfg, h, a);
    StepRouted(cfg, h, a);
    StepReports(cfg, h, a);
  }

  lemma IncomingKeepsControl(cfg: Config, h: Host, a: Action)
    requires Ownership(h) && Control(cfg, h) && Enabled(cfg, h, a) && Incoming(a)
    ensures Control(cfg, Apply(cfg, h, a))
  {
    match a {
      case ClientGone(c) => TeardownBeginsOk(cfg, h, c);
      case GetStart(c, session, user, wakeWord) =>
        assert Coherent(h.registry, c, h.conns[c].local);
        StartKeepsControl(cfg, h, c, session, user, wakeWord);
      case GetBinary(c, data) => BinaryKeepsControl(cfg, h, c, data);
      case GetEnd(c, session) => EndKeepsControl(cfg, h, c, session);
      case GetClockSync(c, e, r, s) => ClockSyncKeepsControl(cfg, h, c, e, r, s);
      case GetOther(c) => LogKeepsControl(cfg, h, c);
    }
  }

  lemma ResumingKeepsControl(cfg: Config, h: Host, a: Action)
    requires Ownership(h) && Control(cfg, h) && Enabled(cfg, h, a) && Resuming(a)
    ensures Control(cfg, Apply(cfg, h, a))
  {
    match a {
      case SendDone(c) => SendDoneKeepsControl(cfg, h, c);
      case SendFails(c) => SendFailsKeepsControl(cfg, h, c);
      case FutureDone(c) => FutureDoneKeepsControl(cfg, h, c);
      case TeardownDone(c) => TeardownDoneKeepsControl(cfg, h, c);
    }
  }

  lemma BackgroundKeepsControl(cfg: Config, h: Host, a: Action)
    requires Ownership(h) && Control(cfg, h) && Enabled(cfg, h, a) && !Incoming(a) && !Resuming(a)
    ensures Control(cfg, Apply(cfg, h, a))
  {
    match a {
      case Accept(c) => PutOk(cfg, h, c, Conn(IDLE, Receiving, Unentered, [], []));
      case ReaperEnters(c) => ReaperEntersOk(cfg, h, c);
      case ReaperPolls(c) => PollKeepsControl(cfg, h, c);
      case ReaperSendEnds(c, delivered) => ReaperSentKeepsControl(cfg, h, c, delivered);
      case WorkerMoves(step) => WorkerKeepsControl(cfg, h, step);
      case TimePasses(_) =>
    }
  }

  lemma StepKeepsControl(cfg: Config, h: Host, a: Action)
    requires Ownership(h) && Control(cfg, h) && Enabled(cfg, h, a)
    ensures Control(cfg, Apply(cfg, h, a))
  {
    if Incoming(a) {
      IncomingKeepsControl(cfg, h, a);
    } else if Resuming(a) {
      ResumingKeepsControl(cfg, h, a);
    } else {
      BackgroundKeepsControl(cfg, h, a);
    }
  }

  lemma TeardownBeginsOk(cfg: Config, h: Host, c: ConnId)
    requires Control(cfg, h) && c in h.conns && h.conns[c].pc.Receiving?
    ensures Control(cfg, Put(h, c, BeginTeardown(h.conns[c])))
  {
    assert ConnOk(h.records, h.worker.accepted, c, h.conns[c]);
    PutOk(cfg, h, c, BeginTeardown(h.conns[c]));
  }

  lemma ReaperEntersOk(cfg: Config, h: Host, c: ConnId)
    requires Control(cfg, h) && c in h.conns && h.conns[c].reaper.Unentered?
    ensures Control(cfg, Put(h, c, h.conns[c].(reaper := Sleeping)))
  {
    assert ConnOk(h.records, h.worker.accepted, c, h.conns[c]);
    PutOk(cfg, h, c, h.conns[c].(reaper := Sleeping));
  }

  lemma ClockSyncKeepsControl(cfg: Config, h: Host, c: ConnId, e: int, r: int, s: int)
    requires Control(cfg, h) && c in h.conns && h.conns[c].pc.Receiving?
    ensures Control(cfg, DoClockSync(h, c, h.conns[c], e, r, s))
  {
    assert ConnOk(h.records, h.worker.accepted, c, h.conns[c]);
    PutOk(cfg, h, c, DoClockSync(h, c, h.conns[c], e, r, s).conns[c]);
  }

  lemma LogKeepsControl(cfg: Config, h: Host, c: ConnId)
    requires Control(cfg, h) && c in h.conns && h.conns[c].pc.Receiving?
    ensures Control(cfg, Put(h, c, Log(h.conns[c], Other)))
  {
    assert ConnOk(h.records, h.worker.accepted, c, h.conns[c]);
    PutOk(cfg, h, c, Log(h.conns[c], Other));
  }

  lemma ReaperSentKeepsControl(cfg: Config, h: Host, c: ConnId, delivered: bool)
    requires Control(cfg, h) && c in h.conns && h.conns[c].reaper.SendTimeout?
    ensures Control(cfg, DoReaperSent(h, c, h.conns[c], delivered))
  {
    assert ConnOk(h.records, h.worker.accepted, c, h.conns[c]);
    PutOk(cfg, h, c, DoReaperSent(h, c, h.conns[c], delivered).conns[c]);
  }

  /** The invariant holds after every possible run, and no run rewrites history. */
  lemma {:induction false} RunKeepsInv(cfg: Config, h: Host, run: seq<Action>)
    requires Inv(cfg, h) && Possible(cfg, h, run)
    ensures Inv(cfg, After(cfg, h, run)) && Evolves(h, After(cfg, h, run))
    decreases |run|
  {
    if run != [] {
      var h1 := Apply(cfg, h, run[0]);
      StepKeepsInv(cfg, h, run[0]);
      StepEvolves(cfg, h, run[0]);
      RunKeepsInv(cfg, h1, run[1..]);
      EvolvesIsTransitive(h, h1, After(cfg, h1, run[1..]));
    }
  }

  lemma EvolvesIsTransitive(h0: Host, h1: Host, h2: Host)
    requires Evolves(h0, h1) && Evolves(h1, h2)
    ensures Evolves(h0, h2)
  {
    forall k | 0 <= k < |h0.records| ensures RecordEvolves(h0.records[k], h2.records[k]) {
      assert RecordEvolves(h0.records[k], h1.records[k]) && RecordEvolves(h1.records[k], h2.records[k]);
    }
    forall c | c in h0.conns ensures c in h2.conns && ConnEvolves(h0.conns[c], h2.conns[c]) {
      assert ConnEvolves(h0.conns[c], h1.conns[c]) && ConnEvolves(h1.conns[c], h2.conns[c]);
    }
  }

  // ----- session ids -----

  /** In every reachable state the registry maps `s` to `c` exactly when `c` has `s` in flight, in
      its `Connection` and in its `_StreamSession` alike; and the `ValueError` that
      `_release_session` tolerates cannot be raised. */
  lemma SessionIdsAreExclusive(cfg: Config, run: seq<Action>, s: string, c: ConnId)
    requires Possible(cfg, BOOT, run) && c in After(cfg, BOOT, run).conns
    ensures var h := After(cfg, BOOT, run);
            var l := h.conns[c].local;
      && (s in h.registry && h.registry[s] == c <==> l.current == Some(s))
      && (l.current == Some(s) <==> l.inFlight.Some? && l.inFlight.value.session == s)
      && !ReleaseRaises(l)
  {
    BootIsSafe(cfg);
    RunKeepsInv(cfg, BOOT, run);
    var h := After(cfg, BOOT, run);
    assert Coherent(h.registry, c, h.conns[c].local);
    if s in h.registry { assert Owns(h, h.registry[s], s); }
  }

  /** Whatever a connection's tasks do, however late they resume, no other connection loses the
      id it holds. */
  lemma OthersKeepTheirIds(cfg: Config, run: seq<Action>, a: Action, s: string, c: ConnId)
    requires Possible(cfg, BOOT, run) && Enabled(cfg, After(cfg, BOOT, run), a)
    requires ActorOf(a) != Some(c) && Owns(After(cfg, BOOT, run), c, s)
    ensures var h' := Apply(cfg, After(cfg, BOOT, run), a);
      Owns(h', c, s) && s in h'.registry && h'.registry[s] == c
  {
    BootIsSafe(cfg);
    RunKeepsInv(cfg, BOOT, run);
    var h := After(cfg, BOOT, run);
    StepKeepsInv(cfg, h, a);
    OtherConnStays(cfg, h, a, c);
    assert Coherent(Apply(cfg, h, a).registry, c, h.conns[c].local);
  }

  lemma OtherConnStays(cfg: Config, h: Host, a: Action, c: ConnId)
    requires Enabled(cfg, h, a) && c in h.conns && ActorOf(a) != Some(c)
    ensures c in Apply(cfg, h, a).conns && Apply(cfg, h, a).conns[c] == h.conns[c]
  {
    if Incoming(a) {
      IncomingLeavesOthers(cfg, h, a, c);
    } else if a.SendDone? {
      SendDoneShape(h, a.c);
    } else {
      RestLeavesOthers(cfg, h, a, c);
    }
  }

  lemma EndLeavesOthers(cfg: Config, h: Host, c': ConnId, session: string, c: ConnId)
    requires c in h.conns && c' in h.conns && c' != c
    ensures var h' := DoEnd(cfg, h, c', h.conns[c'], session);
      c in h'.conns && h'.conns[c] == h.conns[c]
  {
    var cn := h.conns[c'];
    if cn.local.inFlight.Some? { HandOverShape(cfg, h, c', cn); }
  }

  lemma IncomingLeavesOthers(cfg: Config, h: Host, a: Action, c: ConnId)
    requires Enabled(cfg, h, a) && Incoming(a) && c in h.conns && ActorOf(a) != Some(c)
    ensures c in Apply(cfg, h, a).conns && Apply(cfg, h, a).conns[c] == h.conns[c]
  {
    if a.GetEnd? { EndLeavesOthers(cfg, h, a.c, a.session, c); }
  }

  lemma RestLeavesOthers(cfg: Config, h: Host, a: Action, c: ConnId)
    requires Enabled(cfg, h, a) && !Incoming(a) && !a.SendDone? && c in h.conns && ActorOf(a) != Some(c)
    ensures c in Apply(cfg, h, a).conns && Apply(cfg, h, a).conns[c] == h.conns[c]
  {
  }

  // ----- teardown -----

  /** A connection whose teardown completed holds nothing. */
  lemma ClosedHoldsNothing(cfg: Config, run: seq<Action>, c: ConnId)
    requires Possible(cfg, BOOT, run)
    requires c in After(cfg, BOOT, run).conns && After(cfg, BOOT, run).conns[c].pc.Closed?
    ensures var h := After(cfg, BOOT, run);
      h.conns[c].local.inFlight.None? && forall s :: s in h.registry ==> h.registry[s] != c
  {
    BootIsSafe(cfg);
    RunKeepsInv(cfg, BOOT, run);
    var h := After(cfg, BOOT, run);
    assert ConnOk(h.records, h.worker.accepted, c, h.conns[c]);
    ClosedIsCompleted(cfg, h, c);
  }

  lemma AbortedStays(cfg: Config, h: Host, a: Action, c: ConnId)
    requires Control(cfg, h) && Enabled(cfg, h, a) && c in h.conns && h.conns[c].pc.Aborted?
    ensures c in Apply(cfg, h, a).conns && Apply(cfg, h, a).conns[c] == h.conns[c]
  {
    assert ConnOk(h.records, h.worker.accepted, c, h.conns[c]);
    OtherConnStays(cfg, h, a, c);
  }

  /** A connection whose teardown was cut short never acts again and keeps its id for good. */
  lemma {:induction false} AbortedForever(cfg: Config, h: Host, run: seq<Action>, c: ConnId)
    requires Inv(cfg, h) && Possible(cfg, h, run)
    requires c in h.conns && h.conns[c].pc.Aborted?
    ensures c in After(cfg, h, run).conns && After(cfg, h, run).conns[c] == h.conns[c]
    ensures var l := h.conns[c].local; l.current.Some? ==>
      l.current.value in After(cfg, h, run).registry && After(cfg, h, run).registry[l.current.value] == c
    decreases |run|
  {
    assert Coherent(h.registry, c, h.conns[c].local);
    if run != [] {
      StepKeepsInv(cfg, h, run[0]);
      AbortedStays(cfg, h, run[0], c);
      AbortedForever(cfg, Apply(cfg, h, run[0]), run[1..], c);
    }
  }

  /** The step ends connection `c`'s receive loop: the client is gone, a send fails, the worker refuses
      new work, the store refuses an overflow's row, or a run of the runner escapes its boundary. */
  predicate StartsTeardown(cfg: Config, h: Host, a: Action, c: ConnId)
    requires Enabled(cfg, h, a)
  {
    && c in h.conns && !TearingDown(h.conns[c].pc)
    && c in Apply(cfg, h, a).conns && TearingDown(Apply(cfg, h, a).conns[c].pc)
  }

  /** A teardown that began is cut short exactly when the reaper had not entered its loop, and has
      released nothing yet. */
  predicate TeardownBegun(cn: Conn, cn': Conn) {
    && (if cn.reaper.Unentered? then cn'.pc.Aborted? else cn'.pc.AwaitReaper?)
    && cn'.local.current == cn.local.current
  }

  /** A send that completes ends the loop only if it was the error frame of an overflow whose row the
      store refuses. */
  lemma SendTeardownShape(h: Host, c: ConnId)
    requires c in h.conns && Sending(h.conns[c].pc)
    ensures c in DoSendDone(h, c, h.conns[c]).conns
    ensures var cn, cn' := h.conns[c], DoSendDone(h, c, h.conns[c]).conns[c];
      if cn.pc.SendOverflow? && !StoreAccepts(cn.pc.ctx.user) then TeardownBegun(cn, cn') else !TearingDown(cn'.pc)
  {
    if h.conns[c].pc.SendOverflow? { OverflowTeardownShape(h, c); }
  }

  lemma OverflowTeardownShape(h: Host, c: ConnId)
    requires c in h.conns && h.conns[c].pc.SendOverflow?
    ensures c in DoOverflowSent(h, c, h.conns[c]).conns
    ensures var cn, cn' := h.conns[c], DoOverflowSent(h, c, h.conns[c]).conns[c];
      if StoreAccepts(cn.pc.ctx.user) then cn'.pc.Receiving? else TeardownBegun(cn, cn')
  {
  }

  lemma EndTeardownShape(cfg: Config, h: Host, c: ConnId, session: string)
    requires c in h.conns && h.conns[c].pc.Receiving?
    ensures var cn' := DoEnd(cfg, h, c, h.conns[c], session).conns[c];
      TearingDown(cn'.pc) ==> TeardownBegun(h.conns[c], cn')
  {
  }

  /** Whatever starts it, a teardown is cut short exactly when the reaper has not entered its loop. */
  lemma TeardownShape(cfg: Config, h: Host, a: Action, c: ConnId)
    requires Enabled(cfg, h, a) && StartsTeardown(cfg, h, a, c)
    ensures TeardownBegun(h.conns[c], Apply(cfg, h, a).conns[c])
  {
    if ActorOf(a) != Some(c) {
      OtherConnStays(cfg, h, a, c);
    } else {
      match a {
        case SendDone(_) => SendTeardownShape(h, c);
        case GetEnd(_, session) => EndTeardownShape(cfg, h, c, session);
        case _ => OtherTeardownShape(cfg, h, a, c);
      }
    }
  }

  lemma OtherTeardownShape(cfg: Config, h: Host, a: Action, c: ConnId)
    requires Enabled(cfg, h, a) && StartsTeardown(cfg, h, a, c) && ActorOf(a) == Some(c)
    requires !a.SendDone? && !a.GetEnd?
    ensures TeardownBegun(h.conns[c], Apply(cfg, h, a).conns[c])
  {
  }

  /** The teardown of `c` is still to be completed, which only waits for the event loop, or it is
      completed and `c` holds nothing. */
  ghost predicate Completing(cfg: Config, h: Host, c: ConnId) {
    && c in h.conns
    && if h.conns[c].pc.AwaitReaper? then
         Enabled(cfg, h, TeardownDone(c)) && Releases(h, Apply(cfg, h, TeardownDone(c)), c)
       else
         h.conns[c].pc.Closed? && forall s :: s in h.registry ==> h.registry[s] != c
  }

  predicate Releases(h: Host, h': Host, c: ConnId) {
    c in h.conns && (h.conns[c].local.current.Some? ==> h.conns[c].local.current.value !in h'.registry)
  }

  lemma TeardownGoesOn(cfg: Config, h: Host, a: Action, c: ConnId)
    requires Enabled(cfg, h, a) && c in h.conns && h.conns[c].reaper.Finished?
    requires h.conns[c].pc.AwaitReaper? || h.conns[c].pc.Closed?
    ensures c in Apply(cfg, h, a).conns
    ensures Apply(cfg, h, a).conns[c].pc.AwaitReaper? || Apply(cfg, h, a).conns[c].pc.Closed?
  {
    if ActorOf(a) != Some(c) {
      OtherConnStays(cfg, h, a, c);
    } else {
      assert a == TeardownDone(c);
    }
  }

  lemma {:induction false} TeardownCompletes(cfg: Config, h: Host, run: seq<Action>, c: ConnId)
    requires Inv(cfg, h) && Possible(cfg, h, run)
    requires c in h.conns && (h.conns[c].pc.AwaitReaper? || h.conns[c].pc.Closed?)
    ensures Completing(cfg, After(cfg, h, run), c)
    decreases |run|
  {
    if run == [] {
      NothingHeld(cfg, h, c);
    } else {
      assert ConnOk(h.records, h.worker.accepted, c, h.conns[c]);
      StepKeepsInv(cfg, h, run[0]);
      TeardownGoesOn(cfg, h, run[0], c);
      TeardownCompletes(cfg, Apply(cfg, h, run[0]), run[1..], c);
    }
  }

  lemma ClosedIsCompleted(cfg: Config, h: Host, c: ConnId)
    requires Inv(cfg, h) && c in h.conns && h.conns[c].pc.Closed?
    ensures forall s :: s in h.registry ==> h.registry[s] != c
  {
    assert ConnOk(h.records, h.worker.accepted, c, h.conns[c]) && Coherent(h.registry, c, h.conns[c].local);
    forall s | s in h.registry ensures h.registry[s] != c {
      assert Owns(h, h.registry[s], s);
    }
  }

  lemma NothingHeld(cfg: Config, h: Host, c: ConnId)
    requires Inv(cfg, h) && c in h.conns && (h.conns[c].pc.AwaitReaper? || h.conns[c].pc.Closed?)
    ensures Completing(cfg, h, c)
  {
    if h.conns[c].pc.AwaitReaper? {
      TeardownFreesId(cfg, h, c);
    } else {
      ClosedIsCompleted(cfg, h, c);
    }
  }

  /** However a connection's receive loop ends, its id becomes free if and only if the reaper task had
      entered its loop. If it had, the cleanup stays possible in every continuation until it has been
      done, and then nothing is held; if not, cancelling the reaper aborts the cleanup and the id
      stays taken in every continuation. */
  lemma DropFreesIdIffReaperEntered(cfg: Config, run: seq<Action>, a: Action, c: ConnId, later: seq<Action>)
    requires Possible(cfg, BOOT, run) && Enabled(cfg, After(cfg, BOOT, run), a)
    requires StartsTeardown(cfg, After(cfg, BOOT, run), a, c)
    requires Possible(cfg, Apply(cfg, After(cfg, BOOT, run), a), later)
    ensures var h := After(cfg, BOOT, run);
            var h2 := After(cfg, Apply(cfg, h, a), later);
            var held := h.conns[c].local.current;
      if h.conns[c].reaper.Unentered?
      then held.Some? ==> held.value in h2.registry && h2.registry[held.value] == c
      else Completing(cfg, h2, c)
  {
    BootIsSafe(cfg);
    RunKeepsInv(cfg, BOOT, run);
    var h := After(cfg, BOOT, run);
    StepKeepsInv(cfg, h, a);
    TeardownShape(cfg, h, a, c);
    if h.conns[c].reaper.Unentered? {
      AbortedForever(cfg, Apply(cfg, h, a), later, c);
    } else {
      TeardownCompletes(cfg, Apply(cfg, h, a), later, c);
    }
  }

  lemma TeardownFreesId(cfg: Config, h: Host, c: ConnId)
    requires Ownership(h) && c in h.conns && h.conns[c].pc.AwaitReaper?
    ensures var held := h.conns[c].local.current;
      held.Some? ==> held.value !in Apply(cfg, h, TeardownDone(c)).registry
  {
    assert Coherent(h.registry, c, h.conns[c].local);
  }

  lemma Extend(cfg: Config, run: seq<Action>, a: Action)
    requires Possible(cfg, BOOT, run) && Enabled(cfg, After(cfg, BOOT, run), a)
    ensures Possible(cfg, BOOT, run + [a])
    ensures After(cfg, BOOT, run + [a]) == Apply(cfg, After(cfg, BOOT, run), a)
  {
    ExtendFrom(cfg, BOOT, run, a);
  }

  lemma {:induction false} ExtendFrom(cfg: Config, h: Host, run: seq<Action>, a: Action)
    requires Possible(cfg, h, run) && Enabled(cfg, After(cfg, h, run), a)
    ensures Possible(cfg, h, run + [a])
    ensures After(cfg, h, run + [a]) == Apply(cfg, After(cfg, h, run), a)
    decreases |run|
  {
    if run == [] {
      assert run + [a] == [a] && [a][1..] == [];
    } else {
      assert (run + [a])[0] == run[0] && (run + [a])[1..] == run[1..] + [a];
      ExtendFrom(cfg, Apply(cfg, h, run[0]), run[1..], a);
    }
  }

  /** A host in which a new client `c` has opened session `s` of `user` and its receive task is at `pc`. */
  predicate SessionOpened(h: Host, h': Host, c: ConnId, s: string, user: string, pc: RecvPc) {
    var k := |h.records|;
    && c in h'.conns && h'.conns == h.conns[c := h'.conns[c]]
    && h'.conns[c].pc == pc && h'.conns[c].reaper == Unentered
    && h'.conns[c].local == Local(Some(s), Some(InFlight(s, user, 0, h.now, h.now, [], 0, false, k)), None)
    && h'.registry == h.registry[s := c] && h'.worker == h.worker && h'.traces == h.traces && h'.now == h.now
    && h'.records == h.records + [Record(c, s, user, 0, 0, Open)]
  }

  lemma StartOpens(h: Host, c: ConnId, s: string, user: string)
    requires c !in h.conns && s !in h.registry
    ensures var h1 := Put(h, c, Conn(IDLE, Receiving, Unentered, [], []));
      SessionOpened(h, DoStart(h1, c, h1.conns[c], s, user, 0), c, s, user, SendReady(s, |h.records|))
  {
  }

  lemma ReadyOpens(h: Host, h': Host, c: ConnId, s: string, user: string)
    requires SessionOpened(h, h', c, s, user, SendReady(s, |h.records|))
    ensures SessionOpened(h, DoSendDone(h', c, h'.conns[c]), c, s, user, Receiving)
  {
  }

  /** Any new client can open a session under a free id before its reaper task first runs. */
  lemma OpenSession(cfg: Config, run: seq<Action>, c: ConnId, s: string, user: string) returns (run': seq<Action>)
    requires Possible(cfg, BOOT, run)
    requires c !in After(cfg, BOOT, run).conns && s !in After(cfg, BOOT, run).registry
    ensures Possible(cfg, BOOT, run')
    ensures SessionOpened(After(cfg, BOOT, run), After(cfg, BOOT, run'), c, s, user, Receiving)
  {
    var h := After(cfg, BOOT, run);
    var run1 := OpenAccept(cfg, run, c);
    var run2 := run1 + [GetStart(c, s, user, 0)];
    StartOpens(h, c, s, user);
    Extend(cfg, run1, GetStart(c, s, user, 0));
    ReadyOpens(h, After(cfg, BOOT, run2), c, s, user);
    Extend(cfg, run2, SendDone(c));
    run' := run2 + [SendDone(c)];
  }

  lemma OpenAccept(cfg: Config, run: seq<Action>, c: ConnId) returns (run': seq<Action>)
    requires Possible(cfg, BOOT, run) && c !in After(cfg, BOOT, run).conns
    ensures Possible(cfg, BOOT, run')
    ensures After(cfg, BOOT, run') == Put(After(cfg, BOOT, run), c, Conn(IDLE, Receiving, Unentered, [], []))
  {
    Extend(cfg, run, Accept(c));
    run' := run + [Accept(c)];
  }

  /** Such a leak is reachable. */
  lemma LeakIsReachable(cfg: Config)
    ensures exists run :: Possible(cfg, BOOT, run) && LeakedBy(After(cfg, BOOT, run), 0, "s")
  {
    var run := OpenSession(cfg, [], 0, "s", "u");
    Extend(cfg, run, ClientGone(0));
    assert LeakedBy(After(cfg, BOOT, run + [ClientGone(0)]), 0, "s");
  }

  predicate LeakedBy(h: Host, c: ConnId, s: string) {
    c in h.conns && h.conns[c].pc.Aborted? && s in h.registry && h.registry[s] == c
  }
}
