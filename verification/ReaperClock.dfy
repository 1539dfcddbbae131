/** The session-timeout reaper in time (api/ws/stream.py, `run_reaper` and `_reclaim_if_stale`): when a
    session can be reclaimed in any run, and by when it is in a run whose reaper sleeps on time. */
module ReaperClock {
  import opened Prelude
  import opened Session
  import opened Stream
  import opened StreamControl
  import opened StreamHistory
  import opened StreamOwnership
  import opened StreamSafety
  import opened StreamOutcomes

  function PollInterval(timeout: real): (p: real)
    ensures 0.0 < p
    ensures 0.05 <= timeout <= 25.0 ==> p == timeout / 5.0
  {
    var fifth := if timeout / 5.0 < 5.0 then timeout / 5.0 else 5.0;
    if fifth < 0.01 then 0.01 else fifth
  }

  function InFlightOf(h: Host, c: ConnId): Option<InFlight> {
    if c in h.conns then h.conns[c].local.inFlight else None
  }

  // ----- what a step does to the session in flight -----

  /** Nothing is left, or a session just opened, or the one there was, its activity kept or renewed. */
  predicate Moves(before: Option<InFlight>, after: Option<InFlight>, now: real, newest: Ticket) {
    after.Some? ==>
      || (after.value.ticket == newest && after.value.lastActivity == now)
      || (before.Some? && after.value.ticket == before.value.ticket
          && (after.value.lastActivity == before.value.lastActivity || after.value.lastActivity == now)
          && (before.value.submitted ==> after.value.submitted))
  }

  /** Only the reaper's own steps and teardown change where the reaper is. */
  predicate ReaperMoves(a: Action, before: ReaperPc, after: ReaperPc) {
    after == before || after.Finished? || a.ReaperEnters? || a.ReaperPolls? || a.ReaperSendEnds?
  }

  lemma OverflowMoves(h: Host, c: ConnId)
    requires c in h.conns && h.conns[c].pc.SendOverflow?
    ensures var h' := DoOverflowSent(h, c, h.conns[c]);
      c in h'.conns && Moves(InFlightOf(h, c), InFlightOf(h', c), h.now, |h.records|)
        && (h'.conns[c].reaper == h.conns[c].reaper || h'.conns[c].reaper.Finished?)
  {
  }

  lemma SendMoves(h: Host, c: ConnId)
    requires c in h.conns && Sending(h.conns[c].pc)
    ensures var h' := DoSendDone(h, c, h.conns[c]);
      c in h'.conns && Moves(InFlightOf(h, c), InFlightOf(h', c), h.now, |h.records|)
        && (h'.conns[c].reaper == h.conns[c].reaper || h'.conns[c].reaper.Finished?)
  {
    if h.conns[c].pc.SendOverflow? { OverflowMoves(h, c); }
  }

  lemma EndMoves(cfg: Config, h: Host, c: ConnId, session: string)
    requires c in h.conns && h.conns[c].pc.Receiving?
    ensures var h' := DoEnd(cfg, h, c, h.conns[c], session);
      && c in h'.conns && Moves(InFlightOf(h, c), InFlightOf(h', c), h.now, |h.records|)
      && (h'.conns[c].reaper == h.conns[c].reaper || h'.conns[c].reaper.Finished?)
  {
  }

  lemma ActorMoves(cfg: Config, h: Host, a: Action, c: ConnId)
    requires Enabled(cfg, h, a) && ActorOf(a) == Some(c) && c in h.conns
    ensures var h' := Apply(cfg, h, a);
      && c in h'.conns && Moves(InFlightOf(h, c), InFlightOf(h', c), h.now, |h.records|)
      && ReaperMoves(a, h.conns[c].reaper, h'.conns[c].reaper)
  {
    if a.SendDone? {
      SendMoves(h, c);
    } else if a.GetEnd? {
      EndMoves(cfg, h, c, a.session);
    } else if Incoming(a) {
      IncomingMoves(cfg, h, a, c);
    } else {
      RestMoves(cfg, h, a, c);
    }
  }

  lemma IncomingMoves(cfg: Config, h: Host, a: Action, c: ConnId)
    requires Enabled(cfg, h, a) && ActorOf(a) == Some(c) && c in h.conns && Incoming(a) && !a.GetEnd?
    ensures var h' := Apply(cfg, h, a);
      && c in h'.conns && Moves(InFlightOf(h, c), InFlightOf(h', c), h.now, |h.records|)
      && ReaperMoves(a, h.conns[c].reaper, h'.conns[c].reaper)
  {
  }

  lemma RestMoves(cfg: Config, h: Host, a: Action, c: ConnId)
    requires Enabled(cfg, h, a) && ActorOf(a) == Some(c) && c in h.conns && !Incoming(a) && !a.SendDone?
    ensures var h' := Apply(cfg, h, a);
      && c in h'.conns && Moves(InFlightOf(h, c), InFlightOf(h', c), h.now, |h.records|)
      && ReaperMoves(a, h.conns[c].reaper, h'.conns[c].reaper)
  {
  }

  lemma StepKeepsNow(cfg: Config, h: Host, a: Action)
    requires Enabled(cfg, h, a) && !a.TimePasses?
    ensures Apply(cfg, h, a).now == h.now
  {
    match a {
      case SendDone(c) => SendKeepsNow(h, c);
      case _ =>
    }
  }

  lemma SendKeepsNow(h: Host, c: ConnId)
    requires c in h.conns && Sending(h.conns[c].pc)
    ensures DoSendDone(h, c, h.conns[c]).now == h.now
  {
  }

  // ----- never too early -----

  /** If connection `c` still holds session `k`, its last activity is no older than `since`. */
  predicate ActiveSince(h: Host, c: ConnId, k: Ticket, since: real) {
    var f := InFlightOf(h, c);
    c in h.conns && (f.Some? && f.value.ticket == k ==> f.value.lastActivity >= since)
  }

  lemma StepKeepsActive(cfg: Config, h: Host, a: Action, c: ConnId, k: Ticket, since: real)
    requires Enabled(cfg, h, a) && ActiveSince(h, c, k, since) && since <= h.now && k < |h.records|
    ensures ActiveSince(Apply(cfg, h, a), c, k, since)
  {
    if ActorOf(a) == Some(c) {
      ActorMoves(cfg, h, a, c);
    } else {
      OtherConnStays(cfg, h, a, c);
    }
  }

  /** Session `k` of connection `c`, active at `since`, is not reclaimed in any continuation shorter
      than the timeout. */
  lemma {:induction false} ActiveSessionIsKept(cfg: Config, h: Host, later: seq<Action>, c: ConnId, k: Ticket,
      since: real)
    requires Inv(cfg, h) && Possible(cfg, h, later)
    requires k < |h.records| && h.records[k].conn == c && h.records[k].stage != TimedOut
    requires ActiveSince(h, c, k, since) && since <= h.now
    requires After(cfg, h, later).now - since < cfg.timeout
    ensures k < |After(cfg, h, later).records| && After(cfg, h, later).records[k].stage != TimedOut
    decreases |later|
  {
    if later != [] {
      var a, h1 := later[0], Apply(cfg, h, later[0]);
      StepKeepsInv(cfg, h, a);
      StepEvolves(cfg, h, a);
      RunKeepsInv(cfg, h1, later[1..]);
      assert RecordEvolves(h.records[k], h1.records[k]);
      if h1.records[k].stage == TimedOut {
        ReclaimIsLate(cfg, h, a, c, k, since);
        assert false;
      }
      StepKeepsActive(cfg, h, a, c, k, since);
      ActiveSessionIsKept(cfg, h1, later[1..], c, k, since);
    }
  }

  /** A step that reclaims `k` comes at least the timeout after its last activity. */
  lemma ReclaimIsLate(cfg: Config, h: Host, a: Action, c: ConnId, k: Ticket, since: real)
    requires Control(cfg, h)
    requires Reclaims(cfg, h, a, k) && h.records[k].conn == c
    requires ActiveSince(h, c, k, since)
    ensures Apply(cfg, h, a).now - since >= cfg.timeout
  {
    ReclaimerHoldsIdle(cfg, h, a, k);
    StepKeepsNow(cfg, h, a);
  }

  /** `start_audio` opens a session, or an even-length frame arrives for it. */
  predicate Activity(h: Host, a: Action, c: ConnId) {
    && c in h.conns
    && ((a.GetStart? && a.c == c && a.session !in h.registry && h.conns[c].local.current.None?)
        || (a.GetBinary? && a.c == c && |a.data| % 2 == 0 && h.conns[c].local.inFlight.Some?))
  }

  /** While start and accepted frames of a session leave no gap as long as the timeout, the session
      is not reclaimed, whatever else happens. */
  lemma NoGapNoReclaim(cfg: Config, run: seq<Action>, a: Action, c: ConnId, later: seq<Action>)
    requires Possible(cfg, BOOT, run) && Enabled(cfg, After(cfg, BOOT, run), a) && Activity(After(cfg, BOOT, run), a, c)
    requires var h1 := Apply(cfg, After(cfg, BOOT, run), a);
      Possible(cfg, h1, later) && After(cfg, h1, later).now - h1.now < cfg.timeout
    ensures var h1 := Apply(cfg, After(cfg, BOOT, run), a);
      && InFlightOf(h1, c).Some?
      && var k := InFlightOf(h1, c).value.ticket;
         k < |After(cfg, h1, later).records| && After(cfg, h1, later).records[k].stage != TimedOut
  {
    Reachable(cfg, run);
    var h := After(cfg, BOOT, run);
    StepKeepsInv(cfg, h, a);
    StepKeepsNow(cfg, h, a);
    var h1 := Apply(cfg, h, a);
    var f := InFlightOf(h1, c).value;
    assert f.lastActivity == h1.now;
    assert ConnOk(h1.records, h1.worker.accepted, c, h1.conns[c]);
    ActiveSessionIsKept(cfg, h1, later, c, f.ticket, h1.now);
  }

  // ----- never too late -----

  /** Connection `c`'s reaper enters at once, wakes exactly when its sleep is over, at `due`, and its
      sends take no time. */
  predicate OnTime(c: ConnId, h: Host, due: real, a: Action) {
    match a
    case TimePasses(elapsed) =>
      c in h.conns ==>
        (match h.conns[c].reaper
         case Sleeping => h.now + elapsed <= due
         case Finished => true
         case _ => elapsed == 0.0)
    case ReaperPolls(c') => c' == c ==> h.now == due
    case _ => true
  }

  function NextDue(cfg: Config, c: ConnId, h: Host, due: real, a: Action): real {
    if a == ReaperEnters(c) || a == ReaperPolls(c) then h.now + PollInterval(cfg.timeout) else due
  }

  ghost predicate Punctual(cfg: Config, c: ConnId, h: Host, due: real, run: seq<Action>)
    decreases |run|
  {
    run != [] ==>
      && Enabled(cfg, h, run[0]) && OnTime(c, h, due, run[0])
      && Punctual(cfg, c, Apply(cfg, h, run[0]), NextDue(cfg, c, h, due, run[0]), run[1..])
  }

  lemma {:induction false} PunctualIsPossible(cfg: Config, c: ConnId, h: Host, due: real, run: seq<Action>)
    requires Punctual(cfg, c, h, due, run)
    ensures Possible(cfg, h, run)
    decreases |run|
  {
    if run != [] {
      PunctualIsPossible(cfg, c, Apply(cfg, h, run[0]), NextDue(cfg, c, h, due, run[0]), run[1..]);
    }
  }

  ghost function DueAfter(cfg: Config, c: ConnId, h: Host, due: real, run: seq<Action>): real
    requires Punctual(cfg, c, h, due, run)
    decreases |run|
  {
    if run == [] then due
    else DueAfter(cfg, c, Apply(cfg, h, run[0]), NextDue(cfg, c, h, due, run[0]), run[1..])
  }

  /** The next poll of a live reaper finds the session in flight idle for at most the timeout and one
      poll interval. */
  predicate Timely(cfg: Config, c: ConnId, h: Host, due: real) {
    c in h.conns && !h.conns[c].reaper.Finished? ==>
      var f := h.conns[c].local.inFlight;
      && (!h.conns[c].reaper.Unentered? ==> h.now <= due <= h.now + PollInterval(cfg.timeout))
      && (f.Some? && !f.value.submitted ==>
          if h.conns[c].reaper.Unentered? then f.value.lastActivity == h.now
          else due - f.value.lastActivity <= cfg.timeout + PollInterval(cfg.timeout))
  }

  lemma StepKeepsTimely(cfg: Config, c: ConnId, h: Host, due: real, a: Action)
    requires 0.0 <= cfg.timeout
    requires Enabled(cfg, h, a) && OnTime(c, h, due, a) && Timely(cfg, c, h, due)
    ensures Timely(cfg, c, Apply(cfg, h, a), NextDue(cfg, c, h, due, a))
  {
    if ActorOf(a) != Some(c) {
      if c in h.conns { OtherConnStays(cfg, h, a, c); }
      if !a.TimePasses? { StepKeepsNow(cfg, h, a); }
      if c !in h.conns { NobodyElseAccepts(cfg, h, a, c); }
    } else if c in h.conns {
      ActorMoves(cfg, h, a, c);
      StepKeepsNow(cfg, h, a);
    }
  }

  lemma NobodyElseAccepts(cfg: Config, h: Host, a: Action, c: ConnId)
    requires Enabled(cfg, h, a) && ActorOf(a) != Some(c) && c !in h.conns
    ensures c !in Apply(cfg, h, a).conns
  {
    match a {
      case SendDone(c') => SendDoneShape(h, c');
      case _ =>
    }
  }

  lemma {:induction false} RunKeepsTimely(cfg: Config, c: ConnId, h: Host, due: real, run: seq<Action>)
    requires 0.0 <= cfg.timeout && Timely(cfg, c, h, due) && Punctual(cfg, c, h, due, run) && Possible(cfg, h, run)
    ensures Timely(cfg, c, After(cfg, h, run), DueAfter(cfg, c, h, due, run))
    decreases |run|
  {
    if run != [] {
      StepKeepsTimely(cfg, c, h, due, run[0]);
      RunKeepsTimely(cfg, c, Apply(cfg, h, run[0]), NextDue(cfg, c, h, due, run[0]), run[1..]);
    }
  }

  /** With a punctual reaper no session waits for `end_audio` idle longer than the timeout and one
      poll interval: by then it has been reclaimed. */
  lemma IdleIsBounded(cfg: Config, c: ConnId, due: real, run: seq<Action>)
    requires 0.0 <= cfg.timeout && Punctual(cfg, c, BOOT, due, run) && Possible(cfg, BOOT, run)
    ensures var h := After(cfg, BOOT, run);
            var f := InFlightOf(h, c);
      f.Some? && !f.value.submitted && !h.conns[c].reaper.Finished? ==>
        h.now - f.value.lastActivity <= cfg.timeout + PollInterval(cfg.timeout)
  {
    RunKeepsTimely(cfg, c, BOOT, due, run);
  }

  // ----- an abandoned session -----

  /** Nothing comes from the edge of `c`: only its reaper acts for it. */
  predicate Silent(c: ConnId, run: seq<Action>) {
    run != [] ==> SilentAction(c, run[0]) && Silent(c, run[1..])
  }

  predicate SilentAction(c: ConnId, a: Action) {
    ActorOf(a) == Some(c) ==> a.ReaperPolls? || a.ReaperSendEnds?
  }

  /** Session `k` still waits untouched, or the reaper has reclaimed it. */
  predicate WaitsOrReclaimed(h: Host, c: ConnId, k: Ticket, last: real) {
    && c in h.conns && !h.conns[c].reaper.Finished? && k < |h.records|
    && (h.records[k].stage == TimedOut
        || (InFlightOf(h, c).Some? && InFlightOf(h, c).value.ticket == k && !InFlightOf(h, c).value.submitted
            && InFlightOf(h, c).value.lastActivity == last))
  }

  lemma PollWaits(cfg: Config, h: Host, c: ConnId, k: Ticket, last: real)
    requires Enabled(cfg, h, ReaperPolls(c)) && WaitsOrReclaimed(h, c, k, last) && h.records[k].stage != TimedOut
    ensures WaitsOrReclaimed(DoPoll(cfg, h, c, h.conns[c]), c, k, last)
  {
  }

  lemma SendEndWaits(cfg: Config, h: Host, c: ConnId, delivered: bool, k: Ticket, last: real)
    requires Enabled(cfg, h, ReaperSendEnds(c, delivered)) && WaitsOrReclaimed(h, c, k, last)
    ensures WaitsOrReclaimed(DoReaperSent(h, c, h.conns[c], delivered), c, k, last)
  {
  }

  lemma OthersWait(cfg: Config, h: Host, a: Action, c: ConnId, k: Ticket, last: real)
    requires Enabled(cfg, h, a) && ActorOf(a) != Some(c) && WaitsOrReclaimed(h, c, k, last)
    requires k < |Apply(cfg, h, a).records| && RecordEvolves(h.records[k], Apply(cfg, h, a).records[k])
    ensures WaitsOrReclaimed(Apply(cfg, h, a), c, k, last)
  {
    OtherConnStays(cfg, h, a, c);
  }

  lemma SilentStep(cfg: Config, h: Host, a: Action, c: ConnId, k: Ticket, last: real)
    requires Inv(cfg, h) && Enabled(cfg, h, a) && WaitsOrReclaimed(h, c, k, last)
    requires SilentAction(c, a)
    ensures WaitsOrReclaimed(Apply(cfg, h, a), c, k, last)
  {
    StepEvolves(cfg, h, a);
    assert RecordEvolves(h.records[k], Apply(cfg, h, a).records[k]);
    if ActorOf(a) != Some(c) {
      OthersWait(cfg, h, a, c, k, last);
    } else if a.ReaperSendEnds? {
      SendEndWaits(cfg, h, c, a.delivered, k, last);
    } else if h.records[k].stage != TimedOut {
      PollWaits(cfg, h, c, k, last);
    } else {
      StaysTimedOut(cfg, h, c, k, last);
    }
  }

  lemma StaysTimedOut(cfg: Config, h: Host, c: ConnId, k: Ticket, last: real)
    requires Enabled(cfg, h, ReaperPolls(c)) && WaitsOrReclaimed(h, c, k, last) && h.records[k].stage == TimedOut
    requires RecordEvolves(h.records[k], Apply(cfg, h, ReaperPolls(c)).records[k])
    ensures WaitsOrReclaimed(Apply(cfg, h, ReaperPolls(c)), c, k, last)
  {
  }

  lemma {:induction false} SilentRun(cfg: Config, h: Host, run: seq<Action>, c: ConnId, k: Ticket, last: real)
    requires Inv(cfg, h) && Possible(cfg, h, run) && Silent(c, run) && WaitsOrReclaimed(h, c, k, last)
    ensures WaitsOrReclaimed(After(cfg, h, run), c, k, last)
    decreases |run|
  {
    if run != [] {
      SilentStep(cfg, h, run[0], c, k, last);
      StepKeepsInv(cfg, h, run[0]);
      SilentRun(cfg, Apply(cfg, h, run[0]), run[1..], c, k, last);
    }
  }

  /** An abandoned session is reclaimed within one poll interval after the timeout. */
  lemma AbandonedIsReclaimed(cfg: Config, c: ConnId, due: real, run: seq<Action>, later: seq<Action>)
    requires 0.0 <= cfg.timeout && Punctual(cfg, c, BOOT, due, run) && Possible(cfg, BOOT, run)
    requires var h := After(cfg, BOOT, run);
             var f := InFlightOf(h, c);
      && f.Some? && !f.value.submitted && !h.conns[c].reaper.Finished?
      && Punctual(cfg, c, h, DueAfter(cfg, c, BOOT, due, run), later) && Possible(cfg, h, later) && Silent(c, later)
      && After(cfg, h, later).now - f.value.lastActivity > cfg.timeout + PollInterval(cfg.timeout)
    ensures var h := After(cfg, BOOT, run);
            var k := InFlightOf(h, c).value.ticket;
      k < |After(cfg, h, later).records| && After(cfg, h, later).records[k].stage == TimedOut
  {
    Reachable(cfg, run);
    var h := After(cfg, BOOT, run);
    var f := InFlightOf(h, c).value;
    var dueNow := DueAfter(cfg, c, BOOT, due, run);
    RunKeepsTimely(cfg, c, BOOT, due, run);
    RunKeepsTimely(cfg, c, h, dueNow, later);
    assert ConnOk(h.records, h.worker.accepted, c, h.conns[c]);
    SilentRun(cfg, h, later, c, f.ticket, f.lastActivity);
  }
}
