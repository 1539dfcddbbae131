/** What a handler goes on to do: from each place where it waits, what its next steps send and release. */
module StreamProgress {
  import opened Prelude
  import opened Session
  import opened Stream
  import opened StreamOwnership
  import opened StreamControl
  import opened StreamHistory
  import opened StreamWire
  import opened StreamSafety
  import opened StreamOutcomes
  import opened ReaperClock
  import Pcm
  import W = Worker

  /** The steps of `c`'s receive task. Every other task, `c`'s reaper included, may act in between. */
  function ReceiverOf(c: ConnId): Action -> bool {
    (a: Action) => (Incoming(a) || Resuming(a)) && a.c == c
  }

  function Received(run: seq<Action>, c: ConnId): seq<Action> {
    Filter(run, ReceiverOf(c))
  }

  /** `m` sends that complete. */
  function Sends(c: ConnId, m: nat): seq<Action> {
    seq(m, i => SendDone(c))
  }

  ghost predicate IsReachable(cfg: Config, h: Host) {
    exists run :: Possible(cfg, BOOT, run) && After(cfg, BOOT, run) == h
  }

  lemma ReachableIsSafe(cfg: Config, h: Host)
    requires IsReachable(cfg, h)
    ensures Inv(cfg, h)
  {
    var run :| Possible(cfg, BOOT, run) && After(cfg, BOOT, run) == h;
    Reachable(cfg, run);
  }

  lemma ReachableIsSane(cfg: Config, h: Host)
    requires IsReachable(cfg, h)
    ensures Sane(cfg, h)
  {
    ReachableIsSafe(cfg, h);
  }

  ghost predicate Sane(cfg: Config, h: Host) { Ownership(h) && Control(cfg, h) }

  lemma StepKeepsSane(cfg: Config, h: Host, a: Action)
    requires Sane(cfg, h) && Enabled(cfg, h, a)
    ensures Sane(cfg, Apply(cfg, h, a))
  {
    StepKeepsOwnership(cfg, h, a);
    StepKeepsControl(cfg, h, a);
  }

  lemma {:induction false} RunKeepsSane(cfg: Config, h: Host, run: seq<Action>)
    requires Sane(cfg, h) && Possible(cfg, h, run)
    ensures Sane(cfg, After(cfg, h, run))
    decreases |run|
  {
    if run != [] {
      StepKeepsSane(cfg, h, run[0]);
      RunKeepsSane(cfg, Apply(cfg, h, run[0]), run[1..]);
    }
  }

  // ----- meanwhile -----

  /** What the other tasks leave as it is while the receive task of a connection waits. */
  predicate Undisturbed(cn: Conn, cn': Conn) {
    && cn'.pc == cn.pc && cn'.uplink == cn.uplink
    && (cn.local.inFlight.None? ==> cn'.local.inFlight.None?)
    && (cn.local.inFlight.Some? && cn.local.inFlight.value.submitted ==> cn'.local == cn.local)
    && (cn.local.inFlight.Some? ==> cn'.local.inFlight == cn.local.inFlight || cn'.local.inFlight.None?)
  }

  lemma OtherStep(cfg: Config, h: Host, a: Action, c: ConnId)
    requires Enabled(cfg, h, a) && c in h.conns && !ReceiverOf(c)(a)
    ensures c in Apply(cfg, h, a).conns && Undisturbed(h.conns[c], Apply(cfg, h, a).conns[c])
  {
    if ActorOf(a) != Some(c) {
      OtherConnStays(cfg, h, a, c);
    }
  }

  // ----- an answer -----

  function Frames(r: InteractionResult): nat {
    |Pcm.Chunk100ms(r.ttsAudio)|
  }

  /** Where the handler is when it has sent `m` frames of the answer `r` and more are to come. */
  function AnswerPc(ctx: SessionContext, r: InteractionResult, m: nat): RecvPc {
    if m == 0 then SendResponse(ctx, r) else if m <= Frames(r) then SendAudio(ctx, r, m - 1) else SendTtsEnd(ctx, r)
  }

  ghost predicate Answering(h: Host, c: ConnId, ctx: SessionContext, r: InteractionResult, m: nat) {
    c in h.conns && m <= Frames(r) + 1 && h.conns[c].pc == AnswerPc(ctx, r, m)
  }

  lemma AnswerMoves(h: Host, c: ConnId, ctx: SessionContext, r: InteractionResult, m: nat)
    requires Answering(h, c, ctx, r, m) && m <= Frames(r)
    ensures Answering(DoSendDone(h, c, h.conns[c]), c, ctx, r, m + 1)
  {
  }

  lemma SendsFirst(c: ConnId, m: nat)
    requires m > 0
    ensures Sends(c, m) == [SendDone(c)] + Sends(c, m - 1)
  {
  }

  lemma ReceivedFirst(run: seq<Action>, c: ConnId)
    requires run != []
    ensures Received(run, c) ==
      (if ReceiverOf(c)(run[0]) then [run[0]] else []) + Received(run[1..], c)
  {
  }

  /** The first step of a run whose receive steps are `m` sends. */
  lemma NextSend(run: seq<Action>, c: ConnId, m: nat)
    requires run != [] && Received(run, c) == Sends(c, m)
    ensures if ReceiverOf(c)(run[0])
            then m > 0 && run[0] == SendDone(c) && Received(run[1..], c) == Sends(c, m - 1)
            else Received(run[1..], c) == Sends(c, m)
  {
    ReceivedFirst(run, c);
    if ReceiverOf(c)(run[0]) {
      SendsFirst(c, m);
      assert Received(run, c)[0] == run[0] && Received(run, c)[1..] == Received(run[1..], c);
    }
  }

  /** `m` more completed sends bring the answer `m` frames further, whatever the other tasks do in between. */
  lemma {:induction false} AnswerGoesOn(cfg: Config, h: Host, later: seq<Action>, c: ConnId, ctx: SessionContext,
      r: InteractionResult, sent: nat, m: nat)
    requires Possible(cfg, h, later) && Received(later, c) == Sends(c, m)
    requires Answering(h, c, ctx, r, sent) && sent + m <= Frames(r) + 1
    ensures Answering(After(cfg, h, later), c, ctx, r, sent + m)
    decreases |later|
  {
    if later != [] {
      var a := later[0];
      NextSend(later, c, m);
      if ReceiverOf(c)(a) {
        AnswerMoves(h, c, ctx, r, sent);
        AnswerGoesOn(cfg, Apply(cfg, h, a), later[1..], c, ctx, r, sent + 1, m - 1);
      } else {
        OtherStep(cfg, h, a, c);
        AnswerGoesOn(cfg, Apply(cfg, h, a), later[1..], c, ctx, r, sent, m);
      }
    }
  }

  /** The runner's outcome for `ctx` stands, and `c` waits to hear of it as future `f`. */
  ghost predicate WaitsFor(h: Host, c: ConnId, ctx: SessionContext, f: nat, outcome: Outcome) {
    c in h.conns && h.conns[c].pc == AwaitFuture(ctx, f) && RanWith(h.records, ctx.ticket, outcome)
  }

  lemma KeepsWaiting(cfg: Config, h: Host, a: Action, c: ConnId, ctx: SessionContext, f: nat, outcome: Outcome)
    requires Sane(cfg, h) && Enabled(cfg, h, a) && !ReceiverOf(c)(a) && WaitsFor(h, c, ctx, f, outcome)
    ensures WaitsFor(Apply(cfg, h, a), c, ctx, f, outcome)
  {
    OtherStep(cfg, h, a, c);
    StepEvolves(cfg, h, a);
    OutcomeStays(h.records, Apply(cfg, h, a).records, ctx.ticket, outcome);
  }

  lemma OutcomeStays(records: seq<Record>, records': seq<Record>, k: Ticket, outcome: Outcome)
    requires RecordsEvolve(records, records') && RanWith(records, k, outcome)
    ensures RanWith(records', k, outcome)
  {
    assert RecordEvolves(records[k], records'[k]);
  }

  lemma WakesUp(cfg: Config, h: Host, c: ConnId, ctx: SessionContext, f: nat, outcome: Outcome)
    requires Sane(cfg, h) && WaitsFor(h, c, ctx, f, outcome)
    ensures Enabled(cfg, h, FutureDone(c))
    ensures var h' := Apply(cfg, h, FutureDone(c));
      && c in h'.conns
      && match outcome
         case Answered(r) => h'.conns[c].pc == SendResponse(ctx, r)
         case Failed(cause) => h'.conns[c].pc == SendFailure(ctx, cause)
         case Escaped => TeardownBegun(h.conns[c], h'.conns[c])
  {
    assert ConnOk(h.records, h.worker.accepted, c, h.conns[c]);
    assert ItemOk(h.records, h.worker, f);
  }

  lemma {:induction false} AnswerFromFuture(cfg: Config, h: Host, later: seq<Action>, c: ConnId, ctx: SessionContext,
      f: nat, r: InteractionResult, m: nat)
    requires Sane(cfg, h) && Possible(cfg, h, later) && WaitsFor(h, c, ctx, f, Answered(r))
    requires Received(later, c) == [FutureDone(c)] + Sends(c, m) && m <= Frames(r) + 1
    ensures Answering(After(cfg, h, later), c, ctx, r, m)
    decreases |later|
  {
    var a, rest := later[0], later[1..];
    FirstReceived(later, c, FutureDone(c), Sends(c, m));
    if ReceiverOf(c)(a) {
      WakesUp(cfg, h, c, ctx, f, Answered(r));
      AnswerGoesOn(cfg, Apply(cfg, h, a), rest, c, ctx, r, 0, m);
    } else {
      StepKeepsSane(cfg, h, a);
      KeepsWaiting(cfg, h, a, c, ctx, f, Answered(r));
      AnswerFromFuture(cfg, Apply(cfg, h, a), rest, c, ctx, f, r, m);
    }
  }

  /** The first step of a run whose receive steps are `first` and `others`. */
  lemma FirstReceived(run: seq<Action>, c: ConnId, first: Action, others: seq<Action>)
    requires Received(run, c) == [first] + others
    ensures run != []
    ensures if ReceiverOf(c)(run[0]) then run[0] == first && Received(run[1..], c) == others
            else Received(run[1..], c) == [first] + others
  {
    ReceivedFirst(run, c);
    if ReceiverOf(c)(run[0]) {
      assert Received(run, c)[0] == run[0] && Received(run, c)[1..] == Received(run[1..], c);
      assert ([first] + others)[1..] == others;
    }
  }

  lemma {:induction false} FailureFromFuture(cfg: Config, h: Host, later: seq<Action>, c: ConnId, ctx: SessionContext,
      f: nat, cause: Failure)
    requires Sane(cfg, h) && Possible(cfg, h, later) && WaitsFor(h, c, ctx, f, Failed(cause))
    requires Received(later, c) == [FutureDone(c)]
    ensures var h' := After(cfg, h, later); c in h'.conns && h'.conns[c].pc == SendFailure(ctx, cause)
    decreases |later|
  {
    var a, rest := later[0], later[1..];
    FirstReceived(later, c, FutureDone(c), []);
    if ReceiverOf(c)(a) {
      WakesUp(cfg, h, c, ctx, f, Failed(cause));
      Waits(cfg, Apply(cfg, h, a), rest, c);
    } else {
      StepKeepsSane(cfg, h, a);
      KeepsWaiting(cfg, h, a, c, ctx, f, Failed(cause));
      assert [FutureDone(c)] + [] == [FutureDone(c)];
      FailureFromFuture(cfg, Apply(cfg, h, a), rest, c, ctx, f, cause);
    }
  }

  /** A connection whose receive task does not act stays where it waits. */
  lemma {:induction false} Waits(cfg: Config, h: Host, later: seq<Action>, c: ConnId)
    requires Possible(cfg, h, later) && c in h.conns && Received(later, c) == []
    ensures c in After(cfg, h, later).conns && Undisturbed(h.conns[c], After(cfg, h, later).conns[c])
    decreases |later|
  {
    if later != [] {
      ReceivedFirst(later, c);
      OtherStep(cfg, h, later[0], c);
      Waits(cfg, Apply(cfg, h, later[0]), later[1..], c);
    }
  }

  // ----- what the client of an awaited session gets -----

  /** `c` awaits future `f`, which the worker has resolved. */
  predicate AwaitsDone(h: Host, c: ConnId, f: nat, outcome: Outcome) {
    && c in h.conns && h.conns[c].pc.AwaitFuture? && h.conns[c].pc.future == f
    && f < |h.worker.futures| && h.worker.futures[f] == W.Resolved(outcome)
  }

  lemma AwaitedHasRun(cfg: Config, h: Host, c: ConnId, f: nat, outcome: Outcome)
    requires Sane(cfg, h) && AwaitsDone(h, c, f, outcome)
    ensures WaitsFor(h, c, h.conns[c].pc.ctx, f, outcome)
  {
    assert ConnOk(h.records, h.worker.accepted, c, h.conns[c]);
    assert ItemOk(h.records, h.worker, f);
  }

  /** While an answer is on its way, its frames so far have been sent and the next send is possible. */
  lemma SoFar(cfg: Config, h: Host, c: ConnId, ctx: SessionContext, r: InteractionResult, m: nat)
    requires Control(cfg, h) && Wire(h) && Answering(h, c, ctx, r, m)
    ensures Sequel(h.conns[c].sent, ctx.ticket) == Conversation(ctx.session, r, ctx.ticket)[..m + 1]
    ensures Enabled(cfg, h, SendDone(c))
  {
    HoldsWhileSending(cfg, h, c, ctx);
    assert WireOk(h.records, c, h.conns[c]);
    ConversationSoFar(ctx.session, r, ctx.ticket, m);
  }

  lemma ConversationSoFar(s: string, r: InteractionResult, k: Ticket, m: nat)
    requires m <= Frames(r) + 1
    ensures Conversation(s, r, k)[..m + 1] == if m == 0 then [Ready(s, k)] else Spoken(s, r, k, m - 1)
  {
  }

  /** Whoever sends an answer or a failure holds the session it is for. */
  lemma HoldsWhileSending(cfg: Config, h: Host, c: ConnId, ctx: SessionContext)
    requires Control(cfg, h) && c in h.conns
    requires var pc := h.conns[c].pc;
      (pc.SendResponse? || pc.SendAudio? || pc.SendTtsEnd? || pc.SendFailure?) && pc.ctx == ctx
    ensures var f := h.conns[c].local.inFlight;
      f.Some? && f.value.session == ctx.session && f.value.ticket == ctx.ticket
  {
    assert ConnOk(h.records, h.worker.accepted, c, h.conns[c]);
  }

  /** From any reachable state in which `c` awaits a future that the worker has answered: the wake-up is
      possible, and once it has happened, each completed send puts the next frame of the answer on the wire
      and another send is possible, whatever all other tasks do in between. */
  lemma AnswerProgresses(cfg: Config, h: Host, c: ConnId, f: nat, r: InteractionResult, later: seq<Action>, m: nat)
    requires IsReachable(cfg, h) && AwaitsDone(h, c, f, Answered(r))
    requires Possible(cfg, h, later) && m <= |Pcm.Chunk100ms(r.ttsAudio)| + 1
    requires Received(later, c) == [FutureDone(c)] + Sends(c, m)
    ensures Enabled(cfg, h, FutureDone(c))
    ensures var ctx, h' := h.conns[c].pc.ctx, After(cfg, h, later);
      && c in h'.conns && Enabled(cfg, h', SendDone(c))
      && Sequel(h'.conns[c].sent, ctx.ticket) == Conversation(ctx.session, r, ctx.ticket)[..m + 1]
  {
    ReachableIsSafe(cfg, h);
    var ctx := h.conns[c].pc.ctx;
    AwaitedHasRun(cfg, h, c, f, Answered(r));
    WakesUp(cfg, h, c, ctx, f, Answered(r));
    AnswerFromFuture(cfg, h, later, c, ctx, f, r, m);
    RunKeepsInv(cfg, h, later);
    SoFar(cfg, After(cfg, h, later), c, ctx, r, m);
  }

  /** And the last send completes the exchange, frees the id and has the task receive again. */
  lemma AnswerIsDelivered(cfg: Config, h: Host, c: ConnId, f: nat, r: InteractionResult, later: seq<Action>)
    requires IsReachable(cfg, h) && AwaitsDone(h, c, f, Answered(r)) && Possible(cfg, h, later)
    requires Received(later, c) == [FutureDone(c)] + Sends(c, |Pcm.Chunk100ms(r.ttsAudio)| + 1)
    ensures Enabled(cfg, After(cfg, h, later), SendDone(c))
    ensures var ctx, h' := h.conns[c].pc.ctx, Apply(cfg, After(cfg, h, later), SendDone(c));
      Settles(h', c, ctx.session) && Sequel(h'.conns[c].sent, ctx.ticket) == Conversation(ctx.session, r, ctx.ticket)
  {
    ReachableIsSafe(cfg, h);
    AwaitedHasRun(cfg, h, c, f, Answered(r));
    AnswerFromFuture(cfg, h, later, c, h.conns[c].pc.ctx, f, r, Frames(r) + 1);
    ReadyForLast(cfg, h, later, c, h.conns[c].pc.ctx, r);
  }

  lemma ReadyForLast(cfg: Config, h: Host, later: seq<Action>, c: ConnId, ctx: SessionContext, r: InteractionResult)
    requires Inv(cfg, h) && Possible(cfg, h, later) && Answering(After(cfg, h, later), c, ctx, r, Frames(r) + 1)
    ensures Enabled(cfg, After(cfg, h, later), SendDone(c))
    ensures var h' := Apply(cfg, After(cfg, h, later), SendDone(c));
      Settles(h', c, ctx.session) && Sequel(h'.conns[c].sent, ctx.ticket) == Conversation(ctx.session, r, ctx.ticket)
  {
    RunKeepsInv(cfg, h, later);
    LastFrame(cfg, After(cfg, h, later), c, ctx, r);
  }

  /** The task receives again, and holds nothing. */
  predicate Settles(h: Host, c: ConnId, s: string) {
    c in h.conns && h.conns[c].pc == Receiving && h.conns[c].local.inFlight.None? && s !in h.registry
  }

  lemma LastFrame(cfg: Config, h: Host, c: ConnId, ctx: SessionContext, r: InteractionResult)
    requires Control(cfg, h) && Wire(h) && c in h.conns && h.conns[c].pc == SendTtsEnd(ctx, r)
    ensures var h' := Apply(cfg, h, SendDone(c));
      Settles(h', c, ctx.session) && Sequel(h'.conns[c].sent, ctx.ticket) == Conversation(ctx.session, r, ctx.ticket)
  {
    HoldsWhileSending(cfg, h, c, ctx);
    assert WireOk(h.records, c, h.conns[c]);
    SaysNext(h, c, ctx.ticket);
    SendFrees(h, c);
  }

  /** A completed send adds its frame to what has been said. */
  lemma SaysNext(h: Host, c: ConnId, k: Ticket)
    requires c in h.conns && Sending(h.conns[c].pc) && TicketOf(PendingFrame(h.conns[c].pc)) == Some(k)
    ensures var h' := DoSendDone(h, c, h.conns[c]);
      c in h'.conns && Sequel(h'.conns[c].sent, k) == Sequel(h.conns[c].sent, k) + [PendingFrame(h.conns[c].pc)]
  {
    SendDoneSends(h, c);
    SequelStep(h.conns[c].sent, PendingFrame(h.conns[c].pc), k);
  }

  /** Behind its last frame the handler lets the session go. */
  lemma SendFrees(h: Host, c: ConnId)
    requires c in h.conns && (h.conns[c].pc.SendFailure? || h.conns[c].pc.SendTtsEnd?)
    requires h.conns[c].local.inFlight.Some?
    ensures Settles(DoSendDone(h, c, h.conns[c]), c, h.conns[c].local.inFlight.value.session)
  {
  }

  /** Nothing else is needed: the wake-up and the sends of the handler alone are possible to the end. */
  lemma {:induction false} AnswerNeedsNoOthers(cfg: Config, h: Host, c: ConnId, f: nat, r: InteractionResult, m: nat)
    requires IsReachable(cfg, h) && AwaitsDone(h, c, f, Answered(r)) && m <= |Pcm.Chunk100ms(r.ttsAudio)| + 2
    ensures Possible(cfg, h, [FutureDone(c)] + Sends(c, m))
  {
    if m == 0 {
      ReachableIsSane(cfg, h);
      AwaitedHasRun(cfg, h, c, f, Answered(r));
      WakesUp(cfg, h, c, h.conns[c].pc.ctx, f, Answered(r));
      OnlyStep(cfg, h, FutureDone(c));
      assert [FutureDone(c)] + Sends(c, 0) == [FutureDone(c)];
    } else {
      var before := [FutureDone(c)] + Sends(c, m - 1);
      AnswerNeedsNoOthers(cfg, h, c, f, r, m - 1);
      AllReceived(before, c);
      NextIsPossible(cfg, h, c, f, r, before, m - 1);
      ExtendFrom(cfg, h, before, SendDone(c));
      assert before + [SendDone(c)] == [FutureDone(c)] + Sends(c, m);
    }
  }

  lemma NextIsPossible(cfg: Config, h: Host, c: ConnId, f: nat, r: InteractionResult, later: seq<Action>, m: nat)
    requires IsReachable(cfg, h) && AwaitsDone(h, c, f, Answered(r))
    requires Possible(cfg, h, later) && m <= |Pcm.Chunk100ms(r.ttsAudio)| + 1
    requires Received(later, c) == [FutureDone(c)] + Sends(c, m)
    ensures Enabled(cfg, After(cfg, h, later), SendDone(c))
  {
    AnswerProgresses(cfg, h, c, f, r, later, m);
  }

  lemma OnlyStep(cfg: Config, h: Host, a: Action)
    requires Enabled(cfg, h, a)
    ensures Possible(cfg, h, [a])
  {
    assert [a][1..] == [];
  }

  lemma AllReceived(run: seq<Action>, c: ConnId)
    requires forall a :: a in run ==> ReceiverOf(c)(a)
    ensures Received(run, c) == run
  {
    FilterAll(run, ReceiverOf(c));
  }

  /** A failed run: one completed send behind the wake-up reports it, as malformed audio exactly if
      transcription failed, and frees the id. */
  lemma FailureIsReported(cfg: Config, h: Host, c: ConnId, f: nat, cause: Failure, later: seq<Action>)
    requires IsReachable(cfg, h) && AwaitsDone(h, c, f, Failed(cause))
    requires Possible(cfg, h, later) && Received(later, c) == [FutureDone(c)]
    ensures Enabled(cfg, After(cfg, h, later), SendDone(c))
    ensures var ctx, h' := h.conns[c].pc.ctx, Apply(cfg, After(cfg, h, later), SendDone(c));
            var code := if cause == SttError then MalformedAudio else PipelineFailure;
      && Settles(h', c, ctx.session)
      && Sequel(h'.conns[c].sent, ctx.ticket) ==
           [Ready(ctx.session, ctx.ticket), Error(ctx.session, code, ctx.ticket)]
  {
    ReachableIsSafe(cfg, h);
    AwaitedHasRun(cfg, h, c, f, Failed(cause));
    FailureFromFuture(cfg, h, later, c, h.conns[c].pc.ctx, f, cause);
    ReadyForFailure(cfg, h, later, c, h.conns[c].pc.ctx, cause);
  }

  lemma ReadyForFailure(cfg: Config, h: Host, later: seq<Action>, c: ConnId, ctx: SessionContext, cause: Failure)
    requires Inv(cfg, h) && Possible(cfg, h, later)
    requires c in After(cfg, h, later).conns && After(cfg, h, later).conns[c].pc == SendFailure(ctx, cause)
    ensures Enabled(cfg, After(cfg, h, later), SendDone(c))
    ensures var h' := Apply(cfg, After(cfg, h, later), SendDone(c));
            var code := if cause == SttError then MalformedAudio else PipelineFailure;
      && Settles(h', c, ctx.session)
      && Sequel(h'.conns[c].sent, ctx.ticket) ==
           [Ready(ctx.session, ctx.ticket), Error(ctx.session, code, ctx.ticket)]
  {
    RunKeepsInv(cfg, h, later);
    FailureFrame(cfg, After(cfg, h, later), c, ctx, cause);
  }

  lemma FailureFrame(cfg: Config, h: Host, c: ConnId, ctx: SessionContext, cause: Failure)
    requires Control(cfg, h) && Wire(h) && c in h.conns && h.conns[c].pc == SendFailure(ctx, cause)
    ensures var h' := Apply(cfg, h, SendDone(c));
            var code := if cause == SttError then MalformedAudio else PipelineFailure;
      && Settles(h', c, ctx.session)
      && Sequel(h'.conns[c].sent, ctx.ticket) ==
           [Ready(ctx.session, ctx.ticket), Error(ctx.session, code, ctx.ticket)]
  {
    HoldsWhileSending(cfg, h, c, ctx);
    assert WireOk(h.records, c, h.conns[c]);
    FailureSays(h, c, ctx, cause);
    SendFrees(h, c);
  }

  lemma FailureSays(h: Host, c: ConnId, ctx: SessionContext, cause: Failure)
    requires c in h.conns && h.conns[c].pc == SendFailure(ctx, cause)
    requires Sequel(h.conns[c].sent, ctx.ticket) == [Ready(ctx.session, ctx.ticket)]
    ensures var h' := DoSendDone(h, c, h.conns[c]);
            var code := if cause == SttError then MalformedAudio else PipelineFailure;
      && c in h'.conns
      && Sequel(h'.conns[c].sent, ctx.ticket) == [Ready(ctx.session, ctx.ticket), Error(ctx.session, code, ctx.ticket)]
  {
    SaysNext(h, c, ctx.ticket);
  }

  /** An outcome that escaped ends the receive loop at the wake-up. */
  lemma EscapeEndsLoop(cfg: Config, h: Host, c: ConnId, f: nat)
    requires IsReachable(cfg, h) && AwaitsDone(h, c, f, Escaped)
    ensures Enabled(cfg, h, FutureDone(c)) && StartsTeardown(cfg, h, FutureDone(c), c)
  {
    ReachableIsSane(cfg, h);
    AwaitedHasRun(cfg, h, c, f, Escaped);
    WakesUp(cfg, h, c, h.conns[c].pc.ctx, f, Escaped);
  }

  // ----- what the client gets for everything else it sends -----

  function LastSent(h: Host, c: ConnId): Option<Downlink> {
    if c in h.conns && h.conns[c].sent != [] then Some(h.conns[c].sent[|h.conns[c].sent| - 1]) else None
  }

  lemma SendIsLast(h: Host, c: ConnId)
    requires c in h.conns && Sending(h.conns[c].pc)
    ensures LastSent(DoSendDone(h, c, h.conns[c]), c) == Some(PendingFrame(h.conns[c].pc))
  {
    SendDoneSends(h, c);
  }

  /** The state in which `c` is about to send, the other tasks having acted since step `a`. */
  ghost predicate AboutToSend(cfg: Config, h: Host, a: Action, later: seq<Action>, c: ConnId) {
    && Enabled(cfg, h, a) && Possible(cfg, Apply(cfg, h, a), later)
    && Enabled(cfg, After(cfg, Apply(cfg, h, a), later), SendDone(c))
  }

  /** What `c` is sent next. */
  ghost function Reply(cfg: Config, h: Host, a: Action, later: seq<Action>, c: ConnId): Option<Downlink>
    requires AboutToSend(cfg, h, a, later, c)
  {
    LastSent(Apply(cfg, After(cfg, Apply(cfg, h, a), later), SendDone(c)), c)
  }

  lemma RepliesWith(cfg: Config, h: Host, a: Action, later: seq<Action>, c: ConnId)
    requires Enabled(cfg, h, a) && Possible(cfg, Apply(cfg, h, a), later) && Received(later, c) == []
    requires c in Apply(cfg, h, a).conns && Sending(Apply(cfg, h, a).conns[c].pc)
    ensures AboutToSend(cfg, h, a, later, c)
    ensures Reply(cfg, h, a, later, c) == Some(PendingFrame(Apply(cfg, h, a).conns[c].pc))
  {
    Waits(cfg, Apply(cfg, h, a), later, c);
    SendIsLast(After(cfg, Apply(cfg, h, a), later), c);
  }

  /** Session `s` is registered to `c` and opened as the newest session. */
  predicate OpensAs(h: Host, h1: Host, c: ConnId, s: string, user: string, wakeWord: int)
    requires c in h.conns
  {
    && h1.registry == h.registry[s := c]
    && h1.records == h.records + [Record(c, s, user, |h.conns[c].uplink|, 0, Open)]
    && c in h1.conns && h1.conns[c].local.current == Some(s)
    && h1.conns[c].local.inFlight == Some(InFlight(s, user, wakeWord, h.now, h.now, [], 0, false, |h.records|))
  }

  /** A free id on a connection without a session is opened and answered with `ready`; any other `start_audio`
      changes no session and is answered with a collision. */
  lemma StartIsAnswered(cfg: Config, h: Host, c: ConnId, s: string, user: string, wakeWord: int, later: seq<Action>)
    requires var a := GetStart(c, s, user, wakeWord);
      && IsReachable(cfg, h) && Enabled(cfg, h, a) && Possible(cfg, Apply(cfg, h, a), later)
      && Received(later, c) == []
    ensures var a := GetStart(c, s, user, wakeWord);
      AboutToSend(cfg, h, a, later, c)
      && (if s !in h.registry && h.conns[c].local.current.None?
          then OpensAs(h, Apply(cfg, h, a), c, s, user, wakeWord)
            && Reply(cfg, h, a, later, c) == Some(Ready(s, |h.records|))
          else SameSessions(h, Apply(cfg, h, a), c) && Reply(cfg, h, a, later, c) == Some(Collision(s)))
  {
    ReachableIsSane(cfg, h);
    StartShape(h, c, s, user, wakeWord);
    RepliesWith(cfg, h, GetStart(c, s, user, wakeWord), later, c);
  }

  predicate SameSessions(h: Host, h1: Host, c: ConnId)
    requires c in h.conns
  {
    && h1.registry == h.registry && h1.records == h.records && h1.worker == h.worker && h1.traces == h.traces
    && c in h1.conns && h1.conns[c].local == h.conns[c].local
  }

  lemma StartShape(h: Host, c: ConnId, s: string, user: string, wakeWord: int)
    requires Ownership(h) && c in h.conns
    ensures var h1 := DoStart(h, c, h.conns[c], s, user, wakeWord);
      if s !in h.registry && h.conns[c].local.current.None?
      then OpensAs(h, h1, c, s, user, wakeWord) && h1.conns[c].pc == SendReady(s, |h.records|)
      else SameSessions(h, h1, c) && h1.conns[c].pc == SendCollision(s)
  {
    if s !in h.registry && h.conns[c].local.current.Some? {
      assert h.registry[s := c] - {s} == h.registry;
    }
  }

  /** The frame was appended and renews the activity. */
  predicate Appends(h: Host, h1: Host, c: ConnId, data: seq<Byte>)
    requires c in h.conns && h.conns[c].local.inFlight.Some? && |data| % 2 == 0
  {
    var f := h.conns[c].local.inFlight.value;
    && h1.registry == h.registry && h1.records == h.records && c in h1.conns && h1.conns[c].pc == Receiving
    && h1.conns[c].local.inFlight ==
         Some(f.(buffer := f.buffer + data, frameCount := f.frameCount + 1, lastActivity := h.now))
  }

  /** An audio frame of even length is appended; one of odd length ends the session with an error; outside a
      session a frame is dropped. */
  lemma FrameIsTaken(cfg: Config, h: Host, c: ConnId, data: seq<Byte>, later: seq<Action>)
    requires IsReachable(cfg, h) && Enabled(cfg, h, GetBinary(c, data))
    requires Possible(cfg, Apply(cfg, h, GetBinary(c, data)), later) && Received(later, c) == []
    ensures var l, h1 := h.conns[c].local, Apply(cfg, h, GetBinary(c, data));
      if l.inFlight.None? then SameSessions(h, h1, c) && h1.conns[c].pc == Receiving
      else if |data| % 2 == 0 then Appends(h, h1, c, data)
      else
        && AboutToSend(cfg, h, GetBinary(c, data), later, c)
        && MalformedAnswer(cfg, After(cfg, h1, later), c, l.inFlight.value)
  {
    ReachableIsSane(cfg, h);
    if h.conns[c].local.inFlight.Some? && |data| % 2 != 0 {
      OddFrame(cfg, h, c, data, later);
    }
  }

  lemma OddFrame(cfg: Config, h: Host, c: ConnId, data: seq<Byte>, later: seq<Action>)
    requires Sane(cfg, h) && Enabled(cfg, h, GetBinary(c, data)) && h.conns[c].local.inFlight.Some? && |data| % 2 != 0
    requires Possible(cfg, Apply(cfg, h, GetBinary(c, data)), later) && Received(later, c) == []
    ensures AboutToSend(cfg, h, GetBinary(c, data), later, c)
    ensures MalformedAnswer(cfg, After(cfg, Apply(cfg, h, GetBinary(c, data)), later), c,
              h.conns[c].local.inFlight.value)
  {
    StepKeepsSane(cfg, h, GetBinary(c, data));
    MalformedLater(cfg, Apply(cfg, h, GetBinary(c, data)), c, h.conns[c].local.inFlight.value, later);
  }

  lemma MalformedLater(cfg: Config, h: Host, c: ConnId, f: InFlight, later: seq<Action>)
    requires Sane(cfg, h) && Possible(cfg, h, later) && Received(later, c) == []
    requires c in h.conns && h.conns[c].pc == SendMalformed(f.session, f.ticket) && h.conns[c].local.inFlight == Some(f)
    ensures Enabled(cfg, After(cfg, h, later), SendDone(c)) && MalformedAnswer(cfg, After(cfg, h, later), c, f)
  {
    RunKeepsSane(cfg, h, later);
    Waits(cfg, h, later, c);
    MalformedReleases(cfg, After(cfg, h, later), c, f);
  }

  /** The error frame goes out and the connection holds nothing any more; if the reaper was not faster, the id
      becomes free now and the session ends as malformed. */
  ghost predicate MalformedAnswer(cfg: Config, h: Host, c: ConnId, f: InFlight)
    requires Enabled(cfg, h, SendDone(c))
  {
    var h' := Apply(cfg, h, SendDone(c));
    && LastSent(h', c) == Some(Error(f.session, MalformedAudio, f.ticket))
    && c in h'.conns && h'.conns[c].pc == Receiving && h'.conns[c].local.inFlight.None?
    && (h.conns[c].local.inFlight.Some? ==>
          f.session !in h'.registry && f.ticket < |h'.records| && h'.records[f.ticket].stage == Malformed)
  }

  lemma MalformedReleases(cfg: Config, h: Host, c: ConnId, f: InFlight)
    requires Sane(cfg, h) && c in h.conns && h.conns[c].pc == SendMalformed(f.session, f.ticket)
    requires h.conns[c].local.inFlight.Some? ==> h.conns[c].local.inFlight == Some(f)
    ensures MalformedAnswer(cfg, h, c, f)
  {
    assert ConnOk(h.records, h.worker.accepted, c, h.conns[c]);
    SendIsLast(h, c);
  }

  /** `end_audio` for the session in flight hands it over: it is queued if and only if the worker accepts work
      and has room, and otherwise rejected or refused. Any other one is ignored. */
  lemma EndIsHandedOver(cfg: Config, h: Host, c: ConnId, s: string)
    requires IsReachable(cfg, h) && Enabled(cfg, h, GetEnd(c, s))
    ensures var h1, l := Apply(cfg, h, GetEnd(c, s)), h.conns[c].local;
      && c in h1.conns
      && (if l.inFlight.Some? && l.inFlight.value.session == s then HandedOver(cfg, h, h1, c, l.inFlight.value)
          else SameSessions(h, h1, c) && h1.conns[c].pc == Receiving)
  {
    ReachableIsSane(cfg, h);
    assert ConnOk(h.records, h.worker.accepted, c, h.conns[c]);
    if h.conns[c].local.inFlight.Some? && h.conns[c].local.inFlight.value.session == s {
      HandOverFits(cfg, h, c);
    }
  }

  /** What has become of the session `f` that was handed over. */
  predicate HandedOver(cfg: Config, h: Host, h1: Host, c: ConnId, f: InFlight)
    requires c in h.conns && c in h1.conns
  {
    var cn, w := h1.conns[c], h.worker;
    && f.ticket < |h1.records| && cn.local.inFlight == Some(f.(submitted := true))
    && if !w.accepting then
         h1.records[f.ticket].stage == Refused && TeardownBegun(h.conns[c], cn) && h1.worker == w
       else if |w.queue| < cfg.maxQueue then
         h1.records[f.ticket].stage == Queued(|w.accepted|) && cn.pc.AwaitFuture? && cn.pc.future == |w.accepted|
         && |h1.worker.queue| == |w.queue| + 1 && |h1.worker.accepted| == |w.accepted| + 1
         && h1.worker.accepted[|w.accepted|].audio == Pcm.DecodeUplink(f.buffer)
         && h1.worker.accepted[|w.accepted|].rate == cfg.rate
         && h1.worker.accepted[|w.accepted|].ctx == cn.pc.ctx == SessionContext(
              f.session, f.user, f.started, f.wakeWord, h.conns[c].local.clockOffset, f.ticket)
       else
         |w.queue| == cfg.maxQueue && h1.records[f.ticket].stage == OverflowPending && cn.pc.SendOverflow?
         && h1.worker == w
  }

  lemma HandOverFits(cfg: Config, h: Host, c: ConnId)
    requires Control(cfg, h) && c in h.conns && h.conns[c].local.inFlight.Some?
    requires h.conns[c].local.inFlight.value.ticket < |h.records|
    ensures var h1 := HandOver(cfg, h, c, h.conns[c]);
      c in h1.conns && HandedOver(cfg, h, h1, c, h.conns[c].local.inFlight.value)
  {
    var f := h.conns[c].local.inFlight.value;
    W.SubmissionIsExact(h.worker, cfg.maxQueue, ContextOf(h.conns[c].local), Pcm.DecodeUplink(f.buffer), cfg.rate);
  }

  /** The step rejects session `k` for want of room. */
  predicate Rejects(cfg: Config, h: Host, a: Action, k: Ticket) {
    && k < |h.records| && h.records[k].stage != OverflowPending
    && Enabled(cfg, h, a) && k < |Apply(cfg, h, a).records| && Apply(cfg, h, a).records[k].stage == OverflowPending
  }

  /** A session is rejected only while the worker's queue is full. */
  lemma RejectedOnlyWhenFull(cfg: Config, h: Host, a: Action, k: Ticket)
    requires IsReachable(cfg, h) && Rejects(cfg, h, a, k)
    ensures a.GetEnd? && h.worker.accepting && |h.worker.queue| == cfg.maxQueue
  {
    OnlyEndRejects(cfg, h, a, k);
    EndIsHandedOver(cfg, h, a.c, a.session);
    HandOverShape(cfg, h, a.c, h.conns[a.c]);
  }

  lemma OnlyEndRejects(cfg: Config, h: Host, a: Action, k: Ticket)
    requires Rejects(cfg, h, a, k)
    ensures a.GetEnd? && h.conns[a.c].local.inFlight.Some? && h.conns[a.c].local.inFlight.value.session == a.session
  {
    if a.SendDone? {
      SendRejectsNothing(h, a.c, k);
    } else if !a.GetEnd? && (Incoming(a) || Resuming(a)) {
      ReceivingRejectsNothing(cfg, h, a, k);
    } else if !a.GetEnd? {
      BackgroundRejectsNothing(cfg, h, a, k);
    }
  }

  lemma SendRejectsNothing(h: Host, c: ConnId, k: Ticket)
    requires c in h.conns && k < |h.records| && h.records[k].stage != OverflowPending
    ensures k < |DoSendDone(h, c, h.conns[c]).records|
    ensures DoSendDone(h, c, h.conns[c]).records[k].stage != OverflowPending
  {
    if h.conns[c].pc.SendOverflow? {
      OverflowRejectsNothing(h, c, k);
    } else {
      forall cn: Conn, stage: Stage | stage != OverflowPending
        ensures var h' := ReleaseAs(h, c, cn, stage);
          k < |h'.records| && h'.records[k].stage != OverflowPending
      {
        ReleaseRejectsNothing(h, c, cn, stage, k);
      }
    }
  }

  lemma ReleaseRejectsNothing(h: Host, c: ConnId, cn: Conn, stage: Stage, k: Ticket)
    requires k < |h.records| && h.records[k].stage != OverflowPending && stage != OverflowPending
    ensures var h' := ReleaseAs(h, c, cn, stage);
      k < |h'.records| && h'.records[k].stage != OverflowPending
  {
  }

  lemma OverflowRejectsNothing(h: Host, c: ConnId, k: Ticket)
    requires c in h.conns && h.conns[c].pc.SendOverflow? && k < |h.records| && h.records[k].stage != OverflowPending
    ensures k < |DoOverflowSent(h, c, h.conns[c]).records|
    ensures DoOverflowSent(h, c, h.conns[c]).records[k].stage != OverflowPending
  {
  }

  lemma ReceivingRejectsNothing(cfg: Config, h: Host, a: Action, k: Ticket)
    requires Enabled(cfg, h, a) && (Incoming(a) || Resuming(a)) && !a.SendDone? && !a.GetEnd?
    requires k < |h.records| && h.records[k].stage != OverflowPending
    ensures k < |Apply(cfg, h, a).records| && Apply(cfg, h, a).records[k].stage != OverflowPending
  {
  }

  lemma BackgroundRejectsNothing(cfg: Config, h: Host, a: Action, k: Ticket)
    requires Enabled(cfg, h, a) && !Incoming(a) && !Resuming(a)
    requires k < |h.records| && h.records[k].stage != OverflowPending
    ensures k < |Apply(cfg, h, a).records| && Apply(cfg, h, a).records[k].stage != OverflowPending
  {
  }

  /** A rejected session's error frame is followed by its row and the release of its id, or, if the store refuses
      the row, by the end of the receive loop. */
  lemma OverflowIsReported(cfg: Config, h: Host, c: ConnId, later: seq<Action>)
    requires IsReachable(cfg, h) && c in h.conns && h.conns[c].pc.SendOverflow?
    requires Possible(cfg, h, later) && Received(later, c) == []
    ensures var h1 := After(cfg, h, later);
      Enabled(cfg, h1, SendDone(c)) && OverflowTold(h1, Apply(cfg, h1, SendDone(c)), c, h.conns[c].pc.ctx)
  {
    ReachableIsSane(cfg, h);
    RunKeepsSane(cfg, h, later);
    Waits(cfg, h, later, c);
    OverflowSettles(cfg, After(cfg, h, later), c);
  }

  predicate OverflowTold(h: Host, h': Host, c: ConnId, ctx: SessionContext)
    requires c in h.conns
  {
    && LastSent(h', c) == Some(Error(ctx.session, QueueOverflow, ctx.ticket))
    && (if ctx.user != ""
        then Settles(h', c, ctx.session)
          && h'.traces == h.traces + [TraceRow(ctx.session, ctx.user, Degraded("queue_overflow"), ctx.ticket)]
        else h'.traces == h.traces && c in h'.conns && TeardownBegun(h.conns[c], h'.conns[c]))
  }

  lemma OverflowSettles(cfg: Config, h: Host, c: ConnId)
    requires Sane(cfg, h) && c in h.conns && h.conns[c].pc.SendOverflow?
    ensures OverflowTold(h, DoOverflowSent(h, c, h.conns[c]), c, h.conns[c].pc.ctx)
  {
    assert ConnOk(h.records, h.worker.accepted, c, h.conns[c]);
  }

  /** The first handshake of a connection fixes its offset, which puts the edge's instant halfway between the
      host's two, and is answered; later ones are ignored. */
  lemma ClockIsSynced(cfg: Config, h: Host, c: ConnId, edgeSend: int, hostRecv: int, hostSend: int, later: seq<Action>)
    requires var a := GetClockSync(c, edgeSend, hostRecv, hostSend);
      Enabled(cfg, h, a) && Possible(cfg, Apply(cfg, h, a), later) && Received(later, c) == []
    ensures var a := GetClockSync(c, edgeSend, hostRecv, hostSend);
            var h1, l := Apply(cfg, h, a), h.conns[c].local;
            var l1 := h1.conns[c].local;
      if l.clockOffset.Some? then SameSessions(h, h1, c) && h1.conns[c].pc == Receiving
      else
        && l1 == l.(clockOffset := l1.clockOffset) && l1.clockOffset.Some?
        && edgeSend as real + l1.clockOffset.value == (hostRecv as real + hostSend as real) / 2.0
        && AboutToSend(cfg, h, a, later, c) && Reply(cfg, h, a, later, c) == Some(ClockReply)
  {
    var a := GetClockSync(c, edgeSend, hostRecv, hostSend);
    if h.conns[c].local.clockOffset.None? { RepliesWith(cfg, h, a, later, c); }
  }

  /** Any other message is taken off the wire and changes nothing. */
  lemma OtherMessageIsIgnored(cfg: Config, h: Host, c: ConnId)
    requires Enabled(cfg, h, GetOther(c))
    ensures var h1 := Apply(cfg, h, GetOther(c));
      SameSessions(h, h1, c) && h1.conns[c].pc == Receiving && h1.conns[c].sent == h.conns[c].sent
      && h1.conns[c].reaper == h.conns[c].reaper
  {
  }

  // ----- the reaper's error, and the end of the loop -----

  /** A poll that finds the session idle for the timeout reclaims it; if the store accepts the user its row is
      written and the reaper sends the error, which a completed send puts on the wire, whatever happens in
      between. */
  lemma TimeoutIsReported(cfg: Config, h: Host, c: ConnId, later: seq<Action>)
    requires IsReachable(cfg, h) && Enabled(cfg, h, ReaperPolls(c)) && h.conns[c].local.inFlight.Some?
    requires var f := h.conns[c].local.inFlight.value;
      !f.submitted && h.now - f.lastActivity >= cfg.timeout && f.user != ""
    requires Possible(cfg, Apply(cfg, h, ReaperPolls(c)), later) && LeavesReaper(later, c)
    ensures var f, h1 := h.conns[c].local.inFlight.value, Apply(cfg, h, ReaperPolls(c));
      Reclaimed(h, h1, c, f) && ErrorFollows(cfg, After(cfg, h1, later), c, f)
  {
    ReachableIsSane(cfg, h);
    PollReclaims(cfg, h, c);
    PollIsFollowed(cfg, Apply(cfg, h, ReaperPolls(c)), later, c, ContextOf(h.conns[c].local),
      h.conns[c].local.inFlight.value);
  }

  lemma PollIsFollowed(cfg: Config, h: Host, later: seq<Action>, c: ConnId, ctx: SessionContext, f: InFlight)
    requires Possible(cfg, h, later) && LeavesReaper(later, c)
    requires c in h.conns && h.conns[c].reaper == SendTimeout(ctx) && ctx.session == f.session && ctx.ticket == f.ticket
    ensures ErrorFollows(cfg, After(cfg, h, later), c, f)
  {
    KeepsReporting(cfg, h, later, c, ctx);
    if !After(cfg, h, later).conns[c].reaper.Finished? { SendTellsTimeout(cfg, After(cfg, h, later), c, ctx); }
  }

  lemma SendTellsTimeout(cfg: Config, h: Host, c: ConnId, ctx: SessionContext)
    requires c in h.conns && h.conns[c].reaper == SendTimeout(ctx)
    ensures Enabled(cfg, h, ReaperSendEnds(c, true))
    ensures LastSent(Apply(cfg, h, ReaperSendEnds(c, true)), c) == Some(Error(ctx.session, SessionTimeout, ctx.ticket))
  {
  }

  /** Session `f` of `c` has been released as timed out, with its row. */
  predicate Reclaimed(h: Host, h1: Host, c: ConnId, f: InFlight) {
    && c in h1.conns && h1.conns[c].local.inFlight.None? && f.session !in h1.registry
    && h1.traces == h.traces + [TraceRow(f.session, f.user, Degraded("session_timeout"), f.ticket)]
    && f.ticket < |h1.records| && h1.records[f.ticket].stage == TimedOut
  }

  /** Unless the connection is torn down, the reaper's pending send tells the client. */
  ghost predicate ErrorFollows(cfg: Config, h: Host, c: ConnId, f: InFlight) {
    && c in h.conns
    && (!h.conns[c].reaper.Finished? ==>
          && Enabled(cfg, h, ReaperSendEnds(c, true))
          && LastSent(Apply(cfg, h, ReaperSendEnds(c, true)), c) == Some(Error(f.session, SessionTimeout, f.ticket)))
  }

  lemma PollReclaims(cfg: Config, h: Host, c: ConnId)
    requires Sane(cfg, h) && Enabled(cfg, h, ReaperPolls(c)) && h.conns[c].local.inFlight.Some?
    requires var f := h.conns[c].local.inFlight.value;
      !f.submitted && h.now - f.lastActivity >= cfg.timeout && f.user != ""
    ensures var h1 := Apply(cfg, h, ReaperPolls(c));
      Reclaimed(h, h1, c, h.conns[c].local.inFlight.value)
      && h1.conns[c].reaper == SendTimeout(ContextOf(h.conns[c].local))
  {
    assert ConnOk(h.records, h.worker.accepted, c, h.conns[c]);
  }

  /** No step of the reaper of `c`. */
  ghost predicate LeavesReaper(run: seq<Action>, c: ConnId) {
    forall a :: a in run ==> !(a.ReaperSendEnds? && a.c == c)
  }

  lemma {:induction false} KeepsReporting(cfg: Config, h: Host, later: seq<Action>, c: ConnId, ctx: SessionContext)
    requires Possible(cfg, h, later) && LeavesReaper(later, c)
    requires c in h.conns && (h.conns[c].reaper == SendTimeout(ctx) || h.conns[c].reaper.Finished?)
    ensures var h' := After(cfg, h, later);
      c in h'.conns && (h'.conns[c].reaper == SendTimeout(ctx) || h'.conns[c].reaper.Finished?)
    decreases |later|
  {
    if later != [] {
      assert later[0] in later && forall a :: a in later[1..] ==> a in later;
      ReaperKeepsSending(cfg, h, later[0], c, ctx);
      KeepsReporting(cfg, Apply(cfg, h, later[0]), later[1..], c, ctx);
    }
  }

  lemma ReaperKeepsSending(cfg: Config, h: Host, a: Action, c: ConnId, ctx: SessionContext)
    requires Enabled(cfg, h, a) && !(a.ReaperSendEnds? && a.c == c)
    requires c in h.conns && (h.conns[c].reaper == SendTimeout(ctx) || h.conns[c].reaper.Finished?)
    ensures var h' := Apply(cfg, h, a);
      c in h'.conns && (h'.conns[c].reaper == SendTimeout(ctx) || h'.conns[c].reaper.Finished?)
  {
    if ActorOf(a) != Some(c) {
      OtherConnStays(cfg, h, a, c);
    } else {
      ActorMoves(cfg, h, a, c);
    }
  }

  /** A client that goes away and a send that fails end the receive loop, wherever it is. */
  lemma LoopEnds(cfg: Config, h: Host, c: ConnId, a: Action)
    requires (a == ClientGone(c) || a == SendFails(c)) && Enabled(cfg, h, a)
    ensures StartsTeardown(cfg, h, a, c)
  {
  }

  /** No connection is ever stuck: its receive task can act, or waits for a future the worker thread is on its
      way to, or has ended; and its reaper can act until it has ended. */
  lemma NoTaskIsStuck(cfg: Config, h: Host, c: ConnId)
    requires IsReachable(cfg, h) && c in h.conns
    ensures ReceiverCanAct(cfg, h, c) && ReaperCanAct(cfg, h, c)
  {
    ReachableIsSane(cfg, h);
    if h.conns[c].pc.AwaitFuture? {
      AwaiterCanAct(cfg, h, c);
    } else {
      OtherCanAct(cfg, h, c);
    }
    ReaperActs(cfg, h, c);
  }

  lemma OtherCanAct(cfg: Config, h: Host, c: ConnId)
    requires c in h.conns && !h.conns[c].pc.AwaitFuture?
    ensures ReceiverCanAct(cfg, h, c)
  {
  }

  lemma ReaperActs(cfg: Config, h: Host, c: ConnId)
    requires Control(cfg, h) && c in h.conns
    ensures ReaperCanAct(cfg, h, c)
  {
    assert ConnOk(h.records, h.worker.accepted, c, h.conns[c]);
  }

  lemma AwaiterCanAct(cfg: Config, h: Host, c: ConnId)
    requires Control(cfg, h) && c in h.conns && h.conns[c].pc.AwaitFuture?
    ensures ReceiverCanAct(cfg, h, c)
  {
    assert ConnOk(h.records, h.worker.accepted, c, h.conns[c]);
    var f := h.conns[c].pc.future;
    if !FutureReady(h.worker, f) { FutureIsOnItsWay(cfg, h, f); }
  }

  ghost predicate ReceiverCanAct(cfg: Config, h: Host, c: ConnId)
    requires c in h.conns
  {
    match h.conns[c].pc
    case Receiving => forall a :: Incoming(a) && a.c == c ==> Enabled(cfg, h, a)
    case AwaitFuture(_, f) =>
      || (f < |h.worker.futures| && h.worker.futures[f].Resolved? && Enabled(cfg, h, FutureDone(c)))
      || Enabled(cfg, h, WorkerMoves(W.TakeStep)) || Enabled(cfg, h, WorkerMoves(W.FinishStep(Escaped)))
    case AwaitReaper => Enabled(cfg, h, TeardownDone(c))
    case Closed => true
    case Aborted => true
    case _ => Enabled(cfg, h, SendDone(c)) && Enabled(cfg, h, SendFails(c))
  }

  ghost predicate ReaperCanAct(cfg: Config, h: Host, c: ConnId)
    requires c in h.conns
  {
    match h.conns[c].reaper
    case Unentered => Enabled(cfg, h, ReaperEnters(c))
    case Sleeping => Enabled(cfg, h, ReaperPolls(c))
    case SendTimeout(_) => Enabled(cfg, h, ReaperSendEnds(c, true)) && Enabled(cfg, h, ReaperSendEnds(c, false))
    case Finished => h.conns[c].pc.AwaitReaper? || h.conns[c].pc.Closed? || h.conns[c].pc.Aborted?
  }

  lemma FutureIsOnItsWay(cfg: Config, h: Host, f: nat)
    requires Control(cfg, h) && f < |h.worker.accepted| && !FutureReady(h.worker, f)
    ensures Enabled(cfg, h, WorkerMoves(W.TakeStep)) || Enabled(cfg, h, WorkerMoves(W.FinishStep(Escaped)))
  {
    assert ItemOk(h.records, h.worker, f);
    W.WorkerGoesOn(h.worker, cfg.maxQueue, W.TakeStep, f);
  }
}
