/** The single-flight synthesis of pipeline/interaction.py: any number of callers, one executor
    thread, a timeout that abandons a synthesis without being able to stop it. */
module Tts {
  import opened Prelude

  type CallerId = nat

  datatype Speech = Speech(samples: seq<real>, rate: int)

  /** How `tts.synthesize` ends. Its own `TimeoutError` is caught like the timeout of the wait. */
  datatype SynthEnd = Spoke(speech: Speech) | Raised | RaisedTimeout

  datatype FutureState = Pending | Running | Done(end: SynthEnd) | Cancelled

  /** One submitted job, with the call it was submitted for. */
  datatype Job = Job(caller: CallerId, text: string, state: FutureState)

  /** What a call of `_synthesize` gives back; `TextOnly` is its `None`. */
  datatype Reply = Heard(speech: Speech) | TextOnly | Failed

  datatype CallPc = Waiting(job: nat) | Leaving(job: nat, reply: Reply) | Returned(reply: Reply)

  datatype Call = Call(text: string, pc: CallPc)

  /** `backlog` and `running` are the executor's queue and thread, `tracked` is `_tts_future`. */
  datatype State = State(
    jobs: seq<Job>, backlog: seq<nat>, running: Option<nat>, tracked: Option<nat>, closed: bool,
    calls: map<CallerId, Call>)

  const FRESH := State([], [], None, None, false, map[])

  predicate Finished(s: State, f: nat) {
    f < |s.jobs| ==> s.jobs[f].state.Done? || s.jobs[f].state.Cancelled?
  }

  datatype Step =
    | Enter(c: CallerId, text: string)
    | Pick                        // the executor thread takes a job
    | End(end: SynthEnd)          // the job it runs ends
    | Result(c: CallerId)         // future.result returns or raises
    | Timeout(c: CallerId)        // future.result gives up
    | Leave(c: CallerId)          // the finally block
    | Close

  predicate Enabled(s: State, step: Step) {
    match step
    case Enter(c, _) => c !in s.calls
    case Pick => s.running.None? && s.backlog != []
    case End(_) => s.running.Some?
    case Result(c) => c in s.calls && s.calls[c].pc.Waiting? && Finished(s, s.calls[c].pc.job)
    case Timeout(c) => c in s.calls && s.calls[c].pc.Waiting? && !Finished(s, s.calls[c].pc.job)
    case Leave(c) => c in s.calls && s.calls[c].pc.Leaving?
    case Close => !s.closed
  }

  function SetJob(s: State, f: nat, state: FutureState): State {
    if f < |s.jobs| then s.(jobs := s.jobs[f := s.jobs[f].(state := state)]) else s
  }

  function SetCall(s: State, c: CallerId, call: Call): State {
    s.(calls := s.calls[c := call])
  }

  /** The locked region at the start of `_synthesize`. Without an executor its assertion fails. */
  function DoEnter(s: State, c: CallerId, text: string): State {
    if s.closed then SetCall(s, c, Call(text, Returned(Failed)))
    else if s.tracked.Some? && !Finished(s, s.tracked.value) then SetCall(s, c, Call(text, Returned(TextOnly)))
    else
      var f := |s.jobs|;
      SetCall(s.(jobs := s.jobs + [Job(c, text, Pending)], backlog := s.backlog + [f], tracked := Some(f)), c,
        Call(text, Waiting(f)))
  }

  function ReplyOf(state: FutureState): Reply {
    match state
    case Done(Spoke(speech)) => Heard(speech)
    case Done(RaisedTimeout) => TextOnly
    case _ => Failed
  }

  /** The locked region of the `finally` block. */
  function DoLeave(s: State, c: CallerId, call: Call): State
    requires call.pc.Leaving?
  {
    var f := call.pc.job;
    var kept := if s.tracked == Some(f) && Finished(s, f) then None else s.tracked;
    SetCall(s.(tracked := kept), c, call.(pc := Returned(call.pc.reply)))
  }

  /** `shutdown(wait=False, cancel_futures=True)`. */
  function DoClose(s: State): State {
    s.(closed := true, backlog := [],
       jobs := seq(|s.jobs|, i requires 0 <= i < |s.jobs| =>
                 if s.jobs[i].state.Pending? then s.jobs[i].(state := Cancelled) else s.jobs[i]))
  }

  function Apply(s: State, step: Step): State
    requires Enabled(s, step)
  {
    match step
    case Enter(c, text) => DoEnter(s, c, text)
    case Pick => SetJob(s.(running := Some(s.backlog[0]), backlog := s.backlog[1..]), s.backlog[0], Running)
    case End(end) => SetJob(s.(running := None), s.running.value, Done(end))
    case Result(c) =>
      var f := s.calls[c].pc.job;
      SetCall(s, c, s.calls[c].(pc := Leaving(f, if f < |s.jobs| then ReplyOf(s.jobs[f].state) else Failed)))
    case Timeout(c) => SetCall(s, c, s.calls[c].(pc := Leaving(s.calls[c].pc.job, TextOnly)))
    case Leave(c) => DoLeave(s, c, s.calls[c])
    case Close => DoClose(s)
  }

  // ----- what holds in every reachable state -----

  /** A reply with speech is the end of the caller's own job. */
  ghost predicate OwnReply(s: State, c: CallerId, text: string, reply: Reply) {
    reply.Heard? ==> exists f :: SpokeFor(s, f, c, text, reply.speech)
  }

  predicate SpokeFor(s: State, f: nat, c: CallerId, text: string, speech: Speech) {
    f < |s.jobs| && s.jobs[f] == Job(c, text, Done(Spoke(speech)))
  }

  ghost predicate CallOk(s: State, c: CallerId, call: Call) {
    match call.pc
    case Waiting(f) => f < |s.jobs| && s.jobs[f].caller == c && s.jobs[f].text == call.text
    case Leaving(f, reply) => f < |s.jobs| && s.jobs[f].caller == c && OwnReply(s, c, call.text, reply)
    case Returned(reply) => OwnReply(s, c, call.text, reply)
  }

  ghost predicate Inv(s: State) {
    ExecutorOk(s) && forall c :: c in s.calls ==> CallOk(s, c, s.calls[c])
  }

  /** Every unfinished job is the tracked one, and the executor knows it. */
  ghost predicate ExecutorOk(s: State) {
    && (forall f :: 0 <= f < |s.jobs| && !Finished(s, f) ==> s.tracked == Some(f))
    && (s.tracked.Some? ==> s.tracked.value < |s.jobs|)
    && (forall f :: 0 <= f < |s.jobs| && s.jobs[f].state.Pending? ==> |s.backlog| == 1 && s.backlog[0] == f)
    && (forall f :: 0 <= f < |s.jobs| && s.jobs[f].state.Running? ==> s.running == Some(f))
    && |s.backlog| <= 1
    && (s.backlog != [] ==> s.backlog[0] < |s.jobs| && s.jobs[s.backlog[0]].state.Pending? && s.running.None?)
    && (s.running.Some? ==> s.running.value < |s.jobs| && s.jobs[s.running.value].state.Running?)
  }

  /** Jobs only move forward; a finished one keeps its end. */
  ghost predicate JobsEvolve(s: State, s': State) {
    && |s.jobs| <= |s'.jobs|
    && forall f :: 0 <= f < |s.jobs| ==>
      s'.jobs[f].caller == s.jobs[f].caller && s'.jobs[f].text == s.jobs[f].text
      && (Finished(s, f) ==> s'.jobs[f] == s.jobs[f])
  }

  lemma CallStaysOk(s: State, s': State, c: CallerId, call: Call)
    requires JobsEvolve(s, s') && CallOk(s, c, call)
    ensures CallOk(s', c, call)
  {
    if call.pc.Leaving? || call.pc.Returned? {
      if call.pc.reply.Heard? {
        var f :| SpokeFor(s, f, c, call.text, call.pc.reply.speech);
        assert SpokeFor(s', f, c, call.text, call.pc.reply.speech);
      }
    }
  }

  lemma StepKeepsJobs(s: State, step: Step)
    requires Inv(s) && Enabled(s, step)
    ensures JobsEvolve(s, Apply(s, step))
  {
  }

  lemma EnterKeepsExecutorOk(s: State, c: CallerId, text: string)
    requires Inv(s)
    ensures ExecutorOk(DoEnter(s, c, text))
  {
    assert s.backlog != [] ==> !Finished(s, s.backlog[0]);
    assert s.running.Some? ==> !Finished(s, s.running.value);
  }

  lemma StepKeepsExecutorOk(s: State, step: Step)
    requires Inv(s) && Enabled(s, step)
    ensures ExecutorOk(Apply(s, step))
  {
    if step.Enter? {
      EnterKeepsExecutorOk(s, step.c, step.text);
    } else {
      assert s.backlog != [] ==> !Finished(s, s.backlog[0]);
    }
  }

  lemma StepKeepsCallOk(s: State, step: Step, c: CallerId)
    requires Inv(s) && Enabled(s, step) && JobsEvolve(s, Apply(s, step)) && c in Apply(s, step).calls
    ensures CallOk(Apply(s, step), c, Apply(s, step).calls[c])
  {
    var s' := Apply(s, step);
    if c in s.calls {
      assert CallOk(s, c, s.calls[c]);
      CallStaysOk(s, s', c, s.calls[c]);
      if step == Result(c) {
        var f := s.calls[c].pc.job;
        if s.jobs[f].state.Done? && s.jobs[f].state.end.Spoke? {
          assert SpokeFor(s', f, c, s.calls[c].text, s.jobs[f].state.end.speech);
        }
      }
    }
  }

  lemma StepKeepsInv(s: State, step: Step)
    requires Inv(s) && Enabled(s, step)
    ensures Inv(Apply(s, step))
  {
    StepKeepsJobs(s, step);
    StepKeepsExecutorOk(s, step);
    forall c | c in Apply(s, step).calls ensures CallOk(Apply(s, step), c, Apply(s, step).calls[c]) {
      StepKeepsCallOk(s, step, c);
    }
  }

  // ----- whole runs -----

  ghost predicate Possible(s: State, steps: seq<Step>)
    decreases |steps|
  {
    steps != [] ==> Enabled(s, steps[0]) && Possible(Apply(s, steps[0]), steps[1..])
  }

  ghost function After(s: State, steps: seq<Step>): State
    requires Possible(s, steps)
    decreases |steps|
  {
    if steps == [] then s else After(Apply(s, steps[0]), steps[1..])
  }

  lemma {:induction false} RunKeepsInv(s: State, steps: seq<Step>)
    requires Inv(s) && Possible(s, steps)
    ensures Inv(After(s, steps))
    decreases |steps|
  {
    if steps != [] {
      StepKeepsInv(s, steps[0]);
      RunKeepsInv(Apply(s, steps[0]), steps[1..]);
    }
  }

  /** Single flight: in every reachable state at most one synthesis is unfinished, it is the
      tracked one, and none is queued behind it. */
  lemma SingleFlight(steps: seq<Step>, f: nat, g: nat)
    requires Possible(FRESH, steps)
    ensures var s := After(FRESH, steps);
      && (f < |s.jobs| && !Finished(s, f) ==> s.tracked == Some(f))
      && (f < |s.jobs| && g < |s.jobs| && !Finished(s, f) && !Finished(s, g) ==> f == g)
      && (s.running.Some? ==> s.backlog == [])
  {
    RunKeepsInv(FRESH, steps);
  }

  /** A call submits a job if and only if nothing is unfinished; otherwise it falls back to text. */
  lemma CallSubmitsIffIdle(steps: seq<Step>, c: CallerId, text: string)
    requires Possible(FRESH, steps) && Enabled(After(FRESH, steps), Enter(c, text)) && !After(FRESH, steps).closed
    ensures var s := After(FRESH, steps);
            var s' := Apply(s, Enter(c, text));
      if forall f :: 0 <= f < |s.jobs| ==> Finished(s, f)
      then s'.jobs == s.jobs + [Job(c, text, Pending)] && s'.calls[c].pc == Waiting(|s.jobs|)
      else s'.jobs == s.jobs && s'.calls[c].pc == Returned(TextOnly)
  {
    RunKeepsInv(FRESH, steps);
  }

  /** A caller that hears speech hears what its own text was turned into, never a predecessor's. */
  lemma HearsOwnText(steps: seq<Step>, c: CallerId)
    requires Possible(FRESH, steps)
    requires var s := After(FRESH, steps); c in s.calls && s.calls[c].pc.Returned? && s.calls[c].pc.reply.Heard?
    ensures var s := After(FRESH, steps);
      exists f :: SpokeFor(s, f, c, s.calls[c].text, s.calls[c].pc.reply.speech)
  {
    RunKeepsInv(FRESH, steps);
    var s := After(FRESH, steps);
    assert CallOk(s, c, s.calls[c]);
  }

  // ----- what a call gives back -----

  /** The reply that goes with the way a job ended. */
  ghost predicate Fits(reply: Reply, end: FutureState) {
    && (forall speech :: reply == Heard(speech) <==> end == Done(Spoke(speech)))
    && (reply == TextOnly <==> end == Done(RaisedTimeout))
    && (reply == Failed <==> end == Done(Raised) || end == Cancelled)
  }

  /** A call on its way out keeps its reply. */
  lemma {:induction false} LeavesWith(s: State, steps: seq<Step>, c: CallerId, reply: Reply)
    requires Possible(s, steps) && c in s.calls
    requires var pc := s.calls[c].pc; (pc.Leaving? || pc.Returned?) && pc.reply == reply
    ensures Result(c) !in steps && Timeout(c) !in steps
    ensures var s' := After(s, steps);
      c in s'.calls && (s'.calls[c].pc.Leaving? || s'.calls[c].pc.Returned?) && s'.calls[c].pc.reply == reply
    decreases |steps|
  {
    if steps != [] {
      assert steps == [steps[0]] + steps[1..];
      LeavesWith(Apply(s, steps[0]), steps[1..], c, reply);
    }
  }

  /** What has become of a call that waited for job `own`. */
  ghost predicate WaitEnded(s: State, steps: seq<Step>, c: CallerId, own: nat) {
    && c in s.calls && own < |s.jobs|
    && match s.calls[c].pc
       case Waiting(f) => f == own && Result(c) !in steps && Timeout(c) !in steps
       case Leaving(_, reply) => ReplyFits(s, steps, c, own, reply)
       case Returned(reply) => ReplyFits(s, steps, c, own, reply)
  }

  ghost predicate ReplyFits(s: State, steps: seq<Step>, c: CallerId, own: nat, reply: Reply)
    requires own < |s.jobs|
  {
    if Result(c) in steps then Fits(reply, s.jobs[own].state) else Timeout(c) in steps && reply == TextOnly
  }

  lemma {:induction false} JobStaysFinished(s: State, steps: seq<Step>, f: nat)
    requires Inv(s) && Possible(s, steps) && f < |s.jobs|
    ensures f < |After(s, steps).jobs|
    ensures After(s, steps).jobs[f].caller == s.jobs[f].caller && After(s, steps).jobs[f].text == s.jobs[f].text
    ensures Finished(s, f) ==> After(s, steps).jobs[f] == s.jobs[f]
    decreases |steps|
  {
    if steps != [] {
      StepKeepsInv(s, steps[0]);
      StepKeepsJobs(s, steps[0]);
      JobStaysFinished(Apply(s, steps[0]), steps[1..], f);
    }
  }

  /** The wait of `c` ends with the first step. */
  lemma WaitEnds(s: State, steps: seq<Step>, c: CallerId, own: nat)
    requires Inv(s) && Possible(s, steps) && c in s.calls && s.calls[c].pc == Waiting(own)
    requires steps != [] && (steps[0] == Result(c) || steps[0] == Timeout(c))
    ensures WaitEnded(After(s, steps), steps, c, own)
  {
    var s1 := Apply(s, steps[0]);
    assert CallOk(s, c, s.calls[c]);
    StepKeepsInv(s, steps[0]);
    LeavesWith(s1, steps[1..], c, s1.calls[c].pc.reply);
    JobStaysFinished(s1, steps[1..], own);
    assert steps == [steps[0]] + steps[1..];
  }

  lemma {:induction false} WaitsForOwn(s: State, steps: seq<Step>, c: CallerId, own: nat)
    requires Inv(s) && Possible(s, steps) && c in s.calls && s.calls[c].pc == Waiting(own)
    ensures WaitEnded(After(s, steps), steps, c, own)
    decreases |steps|
  {
    assert CallOk(s, c, s.calls[c]);
    if steps != [] {
      if steps[0] == Result(c) || steps[0] == Timeout(c) {
        WaitEnds(s, steps, c, own);
      } else {
        StepKeepsInv(s, steps[0]);
        WaitsForOwn(Apply(s, steps[0]), steps[1..], c, own);
        assert steps == [steps[0]] + steps[1..];
      }
    }
  }

  /** The fate of every call. Without an executor it fails; with a synthesis unfinished it falls back to text at
      once; otherwise it submits a job of its own, and what it gives back is what that job came to if it took
      the result, and text if it gave up waiting. */
  lemma CallGivesBack(before: seq<Step>, c: CallerId, text: string, later: seq<Step>)
    requires Possible(FRESH, before) && Enabled(After(FRESH, before), Enter(c, text))
    requires Possible(Apply(After(FRESH, before), Enter(c, text)), later)
    ensures var s := After(FRESH, before);
            var s' := After(Apply(s, Enter(c, text)), later);
      if s.closed then c in s'.calls && s'.calls[c].pc == Returned(Failed)
      else if exists f :: 0 <= f < |s.jobs| && !Finished(s, f) then
        c in s'.calls && s'.calls[c].pc == Returned(TextOnly)
      else
        && WaitEnded(s', later, c, |s.jobs|)
        && s'.jobs[|s.jobs|].caller == c && s'.jobs[|s.jobs|].text == text
  {
    RunKeepsInv(FRESH, before);
    var s := After(FRESH, before);
    var s1 := Apply(s, Enter(c, text));
    StepKeepsInv(s, Enter(c, text));
    if s1.calls[c].pc.Returned? {
      StaysReturned(s1, later, c);
    } else {
      WaitsForOwn(s1, later, c, |s.jobs|);
      JobStaysFinished(s1, later, |s.jobs|);
    }
  }

  lemma {:induction false} StaysReturned(s: State, steps: seq<Step>, c: CallerId)
    requires Possible(s, steps) && c in s.calls && s.calls[c].pc.Returned?
    ensures c in After(s, steps).calls && After(s, steps).calls[c] == s.calls[c]
    decreases |steps|
  {
    if steps != [] {
      StaysReturned(Apply(s, steps[0]), steps[1..], c);
    }
  }

  /** Closing cancels the job that waits for the thread, leaves the one it runs, and fails later calls. */
  lemma CloseCancels(s: State, c: CallerId, text: string)
    requires Inv(s) && Enabled(s, Close)
    ensures var s' := Apply(s, Close);
      && |s'.jobs| == |s.jobs| && s'.running == s.running && s'.backlog == []
      && (forall f :: 0 <= f < |s.jobs| ==>
            s'.jobs[f] == if s.jobs[f].state == Pending then s.jobs[f].(state := Cancelled) else s.jobs[f])
      && (Enabled(s', Enter(c, text)) ==> Apply(s', Enter(c, text)).calls[c].pc == Returned(Failed))
  {
  }

  /** No caller waits for ever: its job can be picked up or ended while it is unfinished, the wait can always be
      given up, and the result can be taken once it is there. */
  lemma NobodyIsStuck(steps: seq<Step>, c: CallerId)
    requires Possible(FRESH, steps) && c in After(FRESH, steps).calls
    ensures var s := After(FRESH, steps);
      match s.calls[c].pc
      case Waiting(f) =>
        if f < |s.jobs| && !s.jobs[f].state.Done? && !s.jobs[f].state.Cancelled?
        then Enabled(s, Timeout(c)) && (Enabled(s, Pick) || forall end :: Enabled(s, End(end)))
        else Enabled(s, Result(c))
      case Leaving(_, _) => Enabled(s, Leave(c))
      case Returned(_) => true
  {
    RunKeepsInv(FRESH, steps);
  }

  /** However late a `finally` block runs, it clears nothing but its own caller's job, and that only
      once it is finished: any other tracked future stays tracked, finished or not. */
  lemma LateFinallyKeepsNewer(steps: seq<Step>, c: CallerId, f: nat)
    requires Possible(FRESH, steps) && Enabled(After(FRESH, steps), Leave(c))
    ensures var s := After(FRESH, steps);
            var s' := Apply(s, Leave(c));
            var own := s.calls[c].pc.job;
      && own < |s.jobs| && s.jobs[own].caller == c
      && (s.tracked == Some(f) && f != own ==> s'.tracked == Some(f))
      && (f < |s.jobs| && !Finished(s, f) ==> s'.tracked == Some(f))
      && (Finished(s, own) ==> s'.tracked != Some(own))
  {
    RunKeepsInv(FRESH, steps);
    var s := After(FRESH, steps);
    assert CallOk(s, c, s.calls[c]);
  }

  // ----- the object -----

  /** The synthesis fields of `InteractionRunner`; the two locked regions of `_synthesize`. */
  class SynthesisGate {
    var jobs: seq<Job>
    var backlog: seq<nat>
    var running: Option<nat>
    var tracked: Option<nat>
    var closed: bool
    var calls: map<CallerId, Call>

    ghost function View(): State
      reads this
    {
      State(jobs, backlog, running, tracked, closed, calls)
    }

    constructor ()
      ensures View() == FRESH
    {
      jobs, backlog, running, tracked, closed, calls := [], [], None, None, false, map[];
    }

    method BeginSynthesis(c: CallerId, text: string)
      requires Enabled(View(), Enter(c, text))
      modifies this
      ensures View() == Apply(old(View()), Enter(c, text))
    {
      if closed {
        calls := calls[c := Call(text, Returned(Failed))];
        return;
      }
      if tracked.Some? {
        var f := tracked.value;
        if f < |jobs| && !jobs[f].state.Done? && !jobs[f].state.Cancelled? {
          calls := calls[c := Call(text, Returned(TextOnly))];
          return;
        }
        tracked := None;
      }
      jobs, backlog, tracked, calls :=
        jobs + [Job(c, text, Pending)], backlog + [|jobs|], Some(|jobs|), calls[c := Call(text, Waiting(|jobs|))];
    }

    method FinishSynthesis(c: CallerId)
      requires Enabled(View(), Leave(c))
      modifies this
      ensures View() == Apply(old(View()), Leave(c))
    {
      var call := calls[c];
      var f := call.pc.job;
      if tracked == Some(f) && (f >= |jobs| || jobs[f].state.Done? || jobs[f].state.Cancelled?) {
        tracked := None;
      }
      calls := calls[c := call.(pc := Returned(call.pc.reply))];
    }
  }
}
