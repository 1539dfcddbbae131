/** pipeline/worker.py: a bounded FIFO queue drained by one thread, as a transition system. */
module Worker {
  import opened Prelude
  import opened Session

  datatype WorkItem = WorkItem(ctx: SessionContext, audio: seq<real>, rate: int, future: nat)

  datatype Slot = Work(item: WorkItem) | Sentinel

  datatype FutureState = Pending | Cancelled | Running | Resolved(outcome: Outcome)

  /** `held` is the item the thread has taken and not yet resolved; `futures[i]` is the future of
      the i-th accepted item. `accepted` and `finished` are histories. */
  datatype State = State(
    queue: seq<Slot>, held: Option<WorkItem>, accepting: bool, stopping: bool, exited: bool,
    futures: seq<FutureState>, accepted: seq<WorkItem>, finished: seq<WorkItem>)

  const FRESH := State([], None, true, false, false, [], [], [])

  datatype Submission = Accepted(future: nat) | QueueFull | Stopped

  // ----- steps -----

  /** `submit`: never blocks. */
  function Submit(w: State, maxsize: nat, ctx: SessionContext, audio: seq<real>, rate: int): (State, Submission) {
    if !w.accepting then (w, Stopped)
    else if |w.queue| >= maxsize then (w, QueueFull)
    else
      var item := WorkItem(ctx, audio, rate, |w.futures|);
      (w.(queue := w.queue + [Work(item)], futures := w.futures + [Pending], accepted := w.accepted + [item]),
       Accepted(item.future))
  }

  datatype Step =
    | SubmitStep(ctx: SessionContext, audio: seq<real>, rate: int)
    | StopStep              // stop(): no new work from here on
    | SentinelStep          // its blocking put finds room
    | CancelStep(future: nat)
    | TakeStep              // the thread takes the next queue entry
    | FinishStep(outcome: Outcome)

  /** Whether the step can happen now. The thread's `get` blocks on an empty queue, and `put` of
      the sentinel on a full one; only a future not yet running can be cancelled. */
  predicate Enabled(w: State, maxsize: nat, step: Step) {
    match step
    case SubmitStep(_, _, _) => true
    case StopStep => w.accepting
    case SentinelStep => !w.accepting && !w.stopping && |w.queue| < maxsize
    case CancelStep(f) => f < |w.futures| && w.futures[f] == Pending
    case TakeStep => !w.exited && w.held.None? && w.queue != []
    case FinishStep(_) => w.held.Some?
  }

  /** `_run` up to the call of the runner: the sentinel ends the loop, a cancelled item is skipped. */
  function Take(w: State): State
    requires w.queue != []
  {
    var rest := w.(queue := w.queue[1..]);
    match w.queue[0]
    case Sentinel => rest.(exited := true)
    case Work(item) =>
      if item.future < |w.futures| && w.futures[item.future] == Pending
      then rest.(held := Some(item), futures := w.futures[item.future := Running])
      else rest.(finished := w.finished + [item])
  }

  /** The runner returned or raised; either way the future is resolved and the loop goes on. */
  function Finish(w: State, outcome: Outcome): State
    requires w.held.Some?
  {
    var f := w.held.value.future;
    w.(held := None, finished := w.finished + [w.held.value],
       futures := if f < |w.futures| then w.futures[f := Resolved(outcome)] else w.futures)
  }

  function Apply(w: State, maxsize: nat, step: Step): State
    requires Enabled(w, maxsize, step)
  {
    match step
    case SubmitStep(ctx, audio, rate) => Submit(w, maxsize, ctx, audio, rate).0
    case StopStep => w.(accepting := false)
    case SentinelStep => w.(queue := w.queue + [Sentinel], stopping := true)
    case CancelStep(f) => w.(futures := w.futures[f := Cancelled])
    case TakeStep => Take(w)
    case FinishStep(outcome) => Finish(w, outcome)
  }

  // ----- what holds in every reachable state -----

  /** The work entries of the queue, in order. */
  function Waiting(queue: seq<Slot>): seq<WorkItem> {
    if queue == [] then []
    else (if queue[0].Work? then [queue[0].item] else []) + Waiting(queue[1..])
  }

  function HeldItems(w: State): seq<WorkItem> {
    if w.held.Some? then [w.held.value] else []
  }

  predicate Done(f: FutureState) { f.Resolved? || f.Cancelled? }

  /** Nothing is lost, duplicated or reordered: the accepted items are the finished ones, then the
      one in progress, then the waiting ones. Futures are done up to `finished`, running for the
      item in progress, and pending or cancelled behind it. */
  ghost predicate Ledger(w: State) {
    && w.accepted == w.finished + HeldItems(w) + Waiting(w.queue)
    && |w.futures| == |w.accepted|
    && (forall i :: 0 <= i < |w.accepted| ==> w.accepted[i].future == i)
    && (forall i :: 0 <= i < |w.finished| ==> Done(w.futures[i]))
    && (w.held.Some? ==> w.futures[|w.finished|] == Running)
    && (forall i :: |w.finished| + |HeldItems(w)| <= i < |w.futures| ==>
      w.futures[i].Pending? || w.futures[i].Cancelled?)
  }

  /** The queue stays within bounds; the sentinel, once put, is its only last entry. */
  ghost predicate Orderly(w: State, maxsize: nat) {
    && |w.queue| <= maxsize
    && (w.stopping ==> !w.accepting)
    && (w.exited ==> w.queue == [] && w.held.None? && w.stopping)
    && (forall i :: 0 <= i < |w.queue| ==> (w.queue[i] == Sentinel <==> w.stopping && !w.exited && i == |w.queue| - 1))
    && (w.stopping && !w.exited ==> w.queue != [])
  }

  ghost predicate Inv(w: State, maxsize: nat) {
    Ledger(w) && Orderly(w, maxsize)
  }

  lemma {:induction false} WaitingAppend(queue: seq<Slot>, s: Slot)
    ensures Waiting(queue + [s]) == Waiting(queue) + (if s.Work? then [s.item] else [])
  {
    if queue != [] {
      assert (queue + [s])[1..] == queue[1..] + [s];
      WaitingAppend(queue[1..], s);
    }
  }

  lemma InvHoldsInitially(maxsize: nat)
    ensures Inv(FRESH, maxsize)
  {
  }

  lemma SubmitKeepsInv(w: State, maxsize: nat, ctx: SessionContext, audio: seq<real>, rate: int)
    requires Inv(w, maxsize)
    ensures Inv(Submit(w, maxsize, ctx, audio, rate).0, maxsize)
  {
    WaitingAppend(w.queue, Work(WorkItem(ctx, audio, rate, |w.futures|)));
  }

  lemma TakeKeepsInv(w: State, maxsize: nat)
    requires Inv(w, maxsize) && Enabled(w, maxsize, TakeStep)
    ensures Inv(Take(w), maxsize)
  {
    if w.queue[0].Work? {
      TakeWork(w);
    }
  }

  lemma TakeWork(w: State)
    requires Ledger(w) && w.held.None? && w.queue != [] && w.queue[0].Work?
    ensures Ledger(Take(w))
    ensures w.queue[0].item.future == |w.finished| < |w.futures|
  {
    var item := w.queue[0].item;
    assert Waiting(w.queue) == [item] + Waiting(w.queue[1..]);
    assert w.accepted == w.finished + [item] + Waiting(w.queue[1..]);
    assert w.accepted[|w.finished|] == item;
  }

  lemma FinishKeepsInv(w: State, maxsize: nat, outcome: Outcome)
    requires Inv(w, maxsize) && w.held.Some?
    ensures Inv(Finish(w, outcome), maxsize)
  {
    assert w.accepted[|w.finished|] == w.held.value;
  }

  /** Every step of the submitting thread, the stopping thread and the worker keeps the invariant. */
  lemma StepKeepsInv(w: State, maxsize: nat, step: Step)
    requires Inv(w, maxsize) && Enabled(w, maxsize, step)
    ensures Inv(Apply(w, maxsize, step), maxsize)
  {
    match step {
      case SubmitStep(ctx, audio, rate) => SubmitKeepsInv(w, maxsize, ctx, audio, rate);
      case SentinelStep => WaitingAppend(w.queue, Sentinel);
      case TakeStep => TakeKeepsInv(w, maxsize);
      case FinishStep(outcome) => FinishKeepsInv(w, maxsize, outcome);
      case _ =>
    }
  }

  // ----- whole runs -----

  ghost predicate Possible(w: State, maxsize: nat, steps: seq<Step>)
    decreases |steps|
  {
    steps != [] ==> Enabled(w, maxsize, steps[0]) && Possible(Apply(w, maxsize, steps[0]), maxsize, steps[1..])
  }

  ghost function After(w: State, maxsize: nat, steps: seq<Step>): State
    requires Possible(w, maxsize, steps)
    decreases |steps|
  {
    if steps == [] then w else After(Apply(w, maxsize, steps[0]), maxsize, steps[1..])
  }

  /** Conservation over whole runs, for any interleaving. Futures once done stay as they are, so
      each is resolved exactly once. */
  lemma {:induction false} RunConserves(w: State, maxsize: nat, steps: seq<Step>)
    requires Inv(w, maxsize) && Possible(w, maxsize, steps)
    ensures var w' := After(w, maxsize, steps);
      && Inv(w', maxsize)
      && w.accepted <= w'.accepted && w.finished <= w'.finished
      && (forall i :: 0 <= i < |w.futures| && Done(w.futures[i]) ==> w'.futures[i] == w.futures[i])
      && (!w.accepting ==> !w'.accepting && w'.accepted == w.accepted)
      && (w.stopping ==> w'.stopping)
    decreases |steps|
  {
    if steps != [] {
      StepKeepsInv(w, maxsize, steps[0]);
      StepIsMonotone(w, maxsize, steps[0]);
      RunConserves(Apply(w, maxsize, steps[0]), maxsize, steps[1..]);
    }
  }

  lemma StepIsMonotone(w: State, maxsize: nat, step: Step)
    requires Inv(w, maxsize) && Enabled(w, maxsize, step)
    ensures var w' := Apply(w, maxsize, step);
      && w.accepted <= w'.accepted && w.finished <= w'.finished
      && |w.futures| <= |w'.futures|
      && (forall i :: 0 <= i < |w.futures| && Done(w.futures[i]) ==> w'.futures[i] == w.futures[i])
      && (!w.accepting ==> !w'.accepting && w'.accepted == w.accepted)
      && (w.stopping ==> w'.stopping)
  {
    if step.TakeStep? && w.queue[0].Work? {
      assert w.accepted[|w.finished|] == w.queue[0].item;
    }
    if step.FinishStep? {
      assert w.accepted[|w.finished|] == w.held.value;
    }
  }

  /** From an empty worker on, every run keeps the ledger. */
  lemma EveryRunConserves(maxsize: nat, steps: seq<Step>)
    requires Possible(FRESH, maxsize, steps)
    ensures var w := After(FRESH, maxsize, steps);
      && w.accepted == w.finished + HeldItems(w) + Waiting(w.queue) && |w.queue| <= maxsize
      && |w.futures| == |w.accepted|
      && (forall i :: 0 <= i < |w.futures| ==> (Done(w.futures[i]) <==> i < |w.finished| || w.futures[i].Cancelled?))
  {
    InvHoldsInitially(maxsize);
    RunConserves(FRESH, maxsize, steps);
  }

  // ----- acceptance and progress -----

  /** What a submission does, told by the state alone: it is accepted if and only if there is room, and then
      it is the last entry of the queue with a pending future of its own; otherwise nothing changes. */
  lemma SubmissionIsExact(w: State, maxsize: nat, ctx: SessionContext, audio: seq<real>, rate: int)
    requires Inv(w, maxsize)
    ensures var (w', s) := Submit(w, maxsize, ctx, audio, rate);
            var item := WorkItem(ctx, audio, rate, |w.accepted|);
      && (s.Accepted? <==> w.accepting && |w.queue| < maxsize)
      && (s.QueueFull? <==> w.accepting && |w.queue| == maxsize)
      && (s.Stopped? <==> !w.accepting)
      && (s.Accepted? ==> s.future == |w.accepted|)
      && w' == if s.Accepted?
               then w.(queue := w.queue + [Work(item)], accepted := w.accepted + [item],
                       futures := w.futures + [Pending])
               else w
  {
  }

  /** What one pass of the loop does, told the same way: the sentinel ends the loop, a cancelled item is
      skipped, and any other item's future gets the outcome of its run. */
  lemma PassIsExact(w: State, maxsize: nat, outcome: Outcome)
    requires Inv(w, maxsize) && w.held.None? && w.queue != []
    ensures var taken, n := Take(w), |w.finished|;
            var w' := if taken.held.Some? then Finish(taken, outcome) else taken;
      if w.queue[0] == Sentinel then w' == w.(queue := [], exited := true)
      else
        n < |w.accepted| && w.queue[0] == Work(w.accepted[n]) && (w.futures[n] == Pending || w.futures[n] == Cancelled)
        && w' == w.(queue := w.queue[1..], finished := w.finished + [w.accepted[n]],
                    futures := if w.futures[n] == Pending then w.futures[n := Resolved(outcome)] else w.futures)
  {
    if w.queue[0].Work? {
      TakeWork(w);
      assert w.accepted[|w.finished|] == w.queue[0].item;
    }
  }

  /** A step of the worker thread. */
  predicate IsThreadStep(step: Step) { step.TakeStep? || step.FinishStep? }

  /** How many thread steps are left at most until item `i` is finished: two for each item in front of it and
      for itself, one less for the item in progress. */
  ghost function Ahead(w: State, i: nat): nat
    requires Ledger(w)
  {
    if i < |w.finished| then 0 else 2 * (i + 1 - |w.finished|) - |HeldItems(w)|
  }

  lemma FirstWaiting(w: State)
    requires Ledger(w) && |w.finished| + |HeldItems(w)| < |w.accepted|
    ensures w.queue != []
  {
  }

  lemma OneWaiting(queue: seq<Slot>)
    requires |queue| == 1
    ensures Waiting(queue) == if queue[0].Work? then [queue[0].item] else []
  {
    assert queue[1..] == [];
  }

  lemma QueueStartsWithWork(w: State, maxsize: nat)
    requires Inv(w, maxsize) && |w.finished| + |HeldItems(w)| < |w.accepted|
    ensures w.queue != [] && w.queue[0].Work? && !w.exited
  {
    FirstWaiting(w);
    if |w.queue| == 1 { OneWaiting(w.queue); }
  }

  /** While an accepted item is unfinished the thread can move, each of its steps brings the item nearer to its
      end, and no other step delays it. */
  lemma WorkerGoesOn(w: State, maxsize: nat, step: Step, i: nat)
    requires Inv(w, maxsize) && |w.finished| <= i < |w.accepted|
    ensures Enabled(w, maxsize, TakeStep) || forall outcome :: Enabled(w, maxsize, FinishStep(outcome))
    ensures Enabled(w, maxsize, step) ==>
      var w' := Apply(w, maxsize, step);
      Ledger(w') && if IsThreadStep(step) then Ahead(w', i) < Ahead(w, i) else Ahead(w', i) == Ahead(w, i)
  {
    if w.held.None? { QueueStartsWithWork(w, maxsize); }
    if Enabled(w, maxsize, step) {
      StepKeepsInv(w, maxsize, step);
      ThreadStepCounts(w, maxsize, step);
    }
  }

  lemma ThreadStepCounts(w: State, maxsize: nat, step: Step)
    requires Inv(w, maxsize) && Enabled(w, maxsize, step) && |w.finished| < |w.accepted|
    ensures var w' := Apply(w, maxsize, step);
            var before, after := 2 * |w.finished| + |HeldItems(w)|, 2 * |w'.finished| + |HeldItems(w')|;
      if IsThreadStep(step) then after > before else after == before && |w'.finished| == |w.finished|
  {
    if step.TakeStep? { QueueStartsWithWork(w, maxsize); }
  }

  function ThreadSteps(steps: seq<Step>): nat {
    if steps == [] then 0 else (if IsThreadStep(steps[0]) then 1 else 0) + ThreadSteps(steps[1..])
  }

  /** So any run with that many thread steps has finished the item, whoever else submits, cancels or stops. */
  lemma {:induction false} AcceptedIsFinished(w: State, maxsize: nat, steps: seq<Step>, i: nat)
    requires Inv(w, maxsize) && i < |w.accepted| && Possible(w, maxsize, steps) && Ahead(w, i) <= ThreadSteps(steps)
    ensures var w' := After(w, maxsize, steps);
      i < |w'.finished| && w'.finished[i] == w.accepted[i] && i < |w'.futures| && Done(w'.futures[i])
    decreases |steps|
  {
    RunConserves(w, maxsize, steps);
    if i < |w.finished| {
      assert w.accepted[i] == w.finished[i];
    } else if steps != [] {
      WorkerGoesOn(w, maxsize, steps[0], i);
      StepKeepsInv(w, maxsize, steps[0]);
      StepIsMonotone(w, maxsize, steps[0]);
      AcceptedIsFinished(Apply(w, maxsize, steps[0]), maxsize, steps[1..], i);
    }
  }

  // ----- shutdown -----

  /** Work left before the thread leaves its loop: two steps for an entry of the queue, one for the
      item in progress, and the sentinel still to be put. */
  ghost function Remaining(w: State): nat {
    2 * |w.queue| + |HeldItems(w)| + if w.stopping then 0 else 3
  }

  /** The steps of `stop` and of the thread that bring the exit closer. */
  predicate IsDrainStep(step: Step) { step.SentinelStep? || step.TakeStep? || step.FinishStep? }

  /** From the moment `stop` refuses new work, its `put` of the sentinel perhaps still waiting for
      room and the thread perhaps in the middle of an item: until the exit there is always a draining
      step, each lowers the measure, nobody else moves it, and at the exit every accepted item is
      finished. */
  lemma StoppedWorkerDrains(w: State, maxsize: nat, step: Step)
    requires Inv(w, maxsize) && !w.accepting && 1 <= maxsize
    ensures w.exited <==> Remaining(w) == 0
    ensures w.exited ==> w.finished == w.accepted && forall i :: 0 <= i < |w.futures| ==> Done(w.futures[i])
    ensures !w.exited ==>
      || Enabled(w, maxsize, SentinelStep) || Enabled(w, maxsize, TakeStep)
      || forall outcome :: Enabled(w, maxsize, FinishStep(outcome))
    ensures Enabled(w, maxsize, step) ==>
      var w' := Apply(w, maxsize, step);
      if IsDrainStep(step) then Remaining(w') < Remaining(w) else Remaining(w') == Remaining(w)
  {
  }

  function DrainSteps(steps: seq<Step>): nat {
    if steps == [] then 0 else (if IsDrainStep(steps[0]) then 1 else 0) + DrainSteps(steps[1..])
  }

  /** So any run of a stopped worker holds at most `Remaining` draining steps, and one that has used
      them up has exited with everything resolved. */
  lemma {:induction false} StoppedWorkerExits(w: State, maxsize: nat, steps: seq<Step>)
    requires Inv(w, maxsize) && !w.accepting && 1 <= maxsize && Possible(w, maxsize, steps)
    ensures var w' := After(w, maxsize, steps);
      && DrainSteps(steps) + Remaining(w') <= Remaining(w)
      && (DrainSteps(steps) == Remaining(w) ==>
          w'.exited && w'.finished == w.accepted && forall i :: 0 <= i < |w'.futures| ==> Done(w'.futures[i]))
    decreases |steps|
  {
    StoppedWorkerDrains(w, maxsize, StopStep);
    if steps != [] {
      StoppedWorkerDrains(w, maxsize, steps[0]);
      StepKeepsInv(w, maxsize, steps[0]);
      StepIsMonotone(w, maxsize, steps[0]);
      StoppedWorkerExits(Apply(w, maxsize, steps[0]), maxsize, steps[1..]);
    }
  }
}
