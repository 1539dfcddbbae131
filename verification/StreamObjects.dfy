/** The stateful objects of the transport and the worker, in the form the program has them. Each
    method is proved to compute the step function of `Stream` or `Worker` it stands for, so what
    is proved of runs there holds of these objects. */
module StreamObjects {
  import opened Prelude
  import opened Session
  import S = Stream
  import W = Worker
  import Pcm

  /** api/ws/session_registry.py, generic in what identifies a connection. */
  class SessionRegistry<T> {
    var sessions: map<string, T>

    constructor ()
      ensures sessions == map[]
    {
      sessions := map[];
    }

    /** False where the program raises `GlobalSessionCollisionError`. */
    method Start(sessionId: string, connection: T) returns (ok: bool)
      modifies this
      ensures ok <==> sessionId !in old(sessions)
      ensures sessions == if ok then old(sessions)[sessionId := connection] else old(sessions)
    {
      ok := sessionId !in sessions;
      if ok {
        sessions := sessions[sessionId := connection];
      }
    }

    method End(sessionId: string)
      modifies this
      ensures sessions == old(sessions) - {sessionId}
    {
      sessions := sessions - {sessionId};
    }

    method Owner(sessionId: string) returns (owner: Option<T>)
      ensures owner == if sessionId in sessions then Some(sessions[sessionId]) else None
    {
      owner := if sessionId in sessions then Some(sessions[sessionId]) else None;
    }
  }

  datatype DeviceIdentity = DeviceIdentity(deviceId: string, userId: string)

  /** api/ws/connection.py. Methods return false where the program raises. */
  class Connection {
    var identity: Option<DeviceIdentity>
    var clockOffset: Option<real>
    var current: Option<string>

    constructor ()
      ensures identity.None? && clockOffset.None? && current.None?
    {
      identity, clockOffset, current := None, None, None;
    }

    /** `resolved` is what the injected callable returns, `None` if it raises. Authentication
        succeeds at most once; a failed attempt may be repeated. */
    method Authenticate(resolved: Option<DeviceIdentity>) returns (ok: bool)
      modifies this`identity
      ensures ok <==> old(identity).None? && resolved.Some?
      ensures identity == if ok then resolved else old(identity)
    {
      ok := identity.None? && resolved.Some?;
      if ok {
        identity := resolved;
      }
    }

    method RecordClockSync(edgeSend: int, hostRecv: int, hostSend: int) returns (ok: bool)
      modifies this`clockOffset
      ensures var (l, done) := S.RecordClockSync(S.Local(None, None, old(clockOffset)), edgeSend, hostRecv, hostSend);
        clockOffset == l.clockOffset && ok == done
    {
      ok := clockOffset.None?;
      if ok {
        clockOffset := Some(((hostRecv - edgeSend) + (hostSend - edgeSend)) as real / 2.0);
      }
    }

    method StartSession(sessionId: string) returns (ok: bool)
      modifies this`current
      ensures ok <==> old(current).None?
      ensures current == if ok then Some(sessionId) else old(current)
    {
      ok := current.None?;
      if ok {
        current := Some(sessionId);
      }
    }

    method EndSession(sessionId: string) returns (ok: bool)
      modifies this`current
      ensures ok <==> old(current) == Some(sessionId)
      ensures current == if ok then None else old(current)
    {
      ok := current == Some(sessionId);
      if ok {
        current := None;
      }
    }
  }

  /** pipeline/worker.py. `held` is the local variable of the thread's loop. */
  class InteractionWorker {
    const maxsize: nat
    var queue: seq<W.Slot>
    var held: Option<W.WorkItem>
    var accepting: bool
    var stopping: bool
    var exited: bool
    var futures: seq<W.FutureState>
    ghost var accepted: seq<W.WorkItem>
    ghost var finished: seq<W.WorkItem>

    ghost function View(): W.State
      reads this
    {
      W.State(queue, held, accepting, stopping, exited, futures, accepted, finished)
    }

    ghost predicate Valid()
      reads this
    {
      1 <= maxsize && W.Inv(View(), maxsize)
    }

    constructor (maxsize: nat)
      requires 1 <= maxsize
      ensures Valid() && View() == W.FRESH && this.maxsize == maxsize
    {
      this.maxsize := maxsize;
      queue, held, accepting, stopping, exited, futures := [], None, true, false, false, [];
      accepted, finished := [], [];
    }

    method Submit(ctx: SessionContext, audio: seq<real>, rate: int) returns (s: W.Submission)
      requires Valid()
      modifies this
      ensures Valid()
      ensures (View(), s) == W.Submit(old(View()), maxsize, ctx, audio, rate)
      ensures if !old(accepting) then s == W.Stopped
              else if |old(queue)| == maxsize then s == W.QueueFull
              else s == W.Accepted(|old(futures)|)
      ensures queue == old(queue) + if s.Accepted? then [W.Work(W.WorkItem(ctx, audio, rate, s.future))] else []
      ensures futures == old(futures) + if s.Accepted? then [W.Pending] else []
    {
      W.SubmitKeepsInv(View(), maxsize, ctx, audio, rate);
      if !accepting {
        return W.Stopped;
      }
      if |queue| >= maxsize {
        return W.QueueFull;
      }
      var item := W.WorkItem(ctx, audio, rate, |futures|);
      queue := queue + [W.Work(item)];
      futures := futures + [W.Pending];
      accepted := accepted + [item];
      s := W.Accepted(item.future);
    }

    /** The end of the pass over the item in progress. */
    method FinishHeld(outcome: Outcome)
      requires Valid() && held.Some?
      modifies this
      ensures Valid() && View() == W.Finish(old(View()), outcome)
      ensures forall i :: 0 <= i < |futures| && W.Done(old(futures[i])) ==> futures[i] == old(futures[i])
    {
      W.FinishKeepsInv(View(), maxsize, outcome);
      assert accepted[|finished|] == held.value;
      var work := held.value;
      futures := if work.future < |futures| then futures[work.future := W.Resolved(outcome)] else futures;
      finished := finished + [work];
      held := None;
    }

    /** One pass of the thread's loop over a queue entry; `outcome` is what the runner does with
        it. The out-parameter says whether the loop ends. */
    method RunOnce(outcome: Outcome) returns (exits: bool)
      requires Valid() && held.None? && queue != []
      modifies this
      ensures Valid() && held.None?
      ensures exits == (old(queue)[0] == W.Sentinel)
      ensures var taken := W.Take(old(View()));
        View() == if taken.held.Some? then W.Finish(taken, outcome) else taken
      ensures accepted == old(accepted) && |futures| == old(|futures|) && |queue| == |old(queue)| - 1
      ensures accepting == old(accepting) && stopping == old(stopping)
      ensures forall i :: 0 <= i < |futures| && W.Done(old(futures[i])) ==> futures[i] == old(futures[i])
    {
      W.TakeKeepsInv(View(), maxsize);
      var entry := queue[0];
      queue := queue[1..];
      if entry == W.Sentinel {
        exited := true;
        return true;
      }
      var work := entry.item;
      if work.future < |futures| && futures[work.future] == W.Pending {
        futures := futures[work.future := W.Running];
        held := Some(work);
        assert View() == W.Take(old(View()));
        FinishHeld(outcome);
      } else {
        finished := finished + [work];
      }
      exits := false;
    }

    /** `_run` once the sentinel is queued, from wherever the thread is: every accepted item is dealt
        with in order, whatever each run of the runner does, and the loop ends. */
    method RunToExit()
      requires Valid() && stopping && !exited
      modifies this
      ensures Valid() && exited && !accepting && accepted == old(accepted) && finished == accepted
      ensures |futures| == old(|futures|)
      ensures forall i :: 0 <= i < |futures| ==> W.Done(futures[i])
      ensures forall i :: 0 <= i < |futures| && W.Done(old(futures[i])) ==> futures[i] == old(futures[i])
    {
      if held.Some? {
        var outcome: Outcome := *;
        FinishHeld(outcome);
      }
      while !exited
        invariant Valid() && held.None? && stopping
        invariant accepted == old(accepted) && |futures| == old(|futures|)
        invariant forall i :: 0 <= i < |futures| && W.Done(old(futures[i])) ==> futures[i] == old(futures[i])
        decreases |queue|
      {
        var outcome: Outcome := *;
        var exits := RunOnce(outcome);
      }
    }

    /** `stop` without a timeout, whatever the thread is doing. Its `put` waits while the queue is
        full, which only the thread can change, after the item it may have in progress; its `join`
        waits for the thread to leave the loop. */
    method Stop()
      requires Valid() && accepting
      modifies this
      ensures Valid() && exited && !accepting
      ensures finished == accepted == old(accepted)
      ensures |futures| == old(|futures|) && forall i :: 0 <= i < |futures| ==> W.Done(futures[i])
      ensures forall i :: 0 <= i < |futures| && W.Done(old(futures[i])) ==> futures[i] == old(futures[i])
    {
      accepting := false;
      if |queue| == maxsize {
        if held.Some? {
          var outcome: Outcome := *;
          FinishHeld(outcome);
        }
        var outcome: Outcome := *;
        var exits := RunOnce(outcome);
      }
      W.StepKeepsInv(View(), maxsize, W.SentinelStep);
      queue := queue + [W.Sentinel];
      stopping := true;
      RunToExit();
    }
  }

  datatype BinaryReply = Ignored | OddLength(session: string) | Buffered

  datatype EndReply = NotMine | Submitted(ctx: SessionContext, submission: W.Submission)

  /** `_StreamSession` of api/ws/stream.py: the code of each handler between two awaits. */
  class StreamSession {
    const id: S.ConnId
    const registry: SessionRegistry<S.ConnId>
    const connection: Connection
    var inFlight: Option<S.InFlight>

    ghost function View(): S.Local
      reads this, connection
    {
      S.Local(connection.current, inFlight, connection.clockOffset)
    }

    constructor (id: S.ConnId, registry: SessionRegistry<S.ConnId>, connection: Connection)
      ensures this.id == id && this.registry == registry && this.connection == connection
      ensures inFlight.None?
    {
      this.id, this.registry, this.connection, inFlight := id, registry, connection, None;
    }

    /** `_release_session`, `handle_disconnect` and the tail of several handlers. */
    method ReleaseSession()
      modifies this, registry, connection`current
      ensures (registry.sessions, View()) == S.Release(old(registry.sessions), old(View()))
    {
      if inFlight.None? {
        return;
      }
      registry.End(inFlight.value.session);
      var tolerated := connection.EndSession(inFlight.value.session);
      inFlight := None;
    }

    /** `_handle_start_audio` up to the frame it sends; true means `ready`, false a collision. */
    method StartAudio(session: string, user: string, wakeWord: int, now: real, ticket: Ticket) returns (ready: bool)
      modifies this, registry, connection`current
      ensures (registry.sessions, View(), ready) ==
        S.Start(old(registry.sessions), id, old(View()), session, user, wakeWord, now, ticket)
    {
      var free := registry.Start(session, id);
      if !free {
        return false;
      }
      var started := connection.StartSession(session);
      if !started {
        registry.End(session);
        return false;
      }
      inFlight := Some(S.InFlight(session, user, wakeWord, now, now, [], 0, false, ticket));
      ready := true;
    }

    /** `handle_binary` up to the error frame of a malformed one. */
    method Binary(data: seq<Byte>, now: real) returns (reply: BinaryReply)
      modifies this
      ensures View() == if old(inFlight).Some? && |data| % 2 == 0 then S.Buffer(old(View()), data, now) else old(View())
      ensures reply ==
        if old(inFlight).None? then Ignored
        else if |data| % 2 != 0 then OddLength(old(inFlight).value.session) else Buffered
    {
      if inFlight.None? {
        return Ignored;
      }
      var f := inFlight.value;
      if |data| % 2 != 0 {
        return OddLength(f.session);
      }
      inFlight := Some(f.(buffer := f.buffer + data, frameCount := f.frameCount + 1, lastActivity := now));
      reply := Buffered;
    }

    /** `_handle_end_audio` up to its first await. */
    method EndAudio(session: string, worker: InteractionWorker, rate: int) returns (reply: EndReply)
      requires worker.Valid()
      modifies this, worker
      ensures worker.Valid()
      ensures reply.NotMine? <==> old(inFlight).None? || old(inFlight).value.session != session
      ensures reply.NotMine? ==> View() == old(View()) && worker.View() == old(worker.View())
      ensures reply.Submitted? ==>
        && View() == S.MarkSubmitted(old(View()))
        && reply.ctx == S.ContextOf(old(View()))
        && (worker.View(), reply.submission) ==
           W.Submit(old(worker.View()), worker.maxsize, reply.ctx, Pcm.DecodeUplink(old(inFlight).value.buffer), rate)
    {
      if inFlight.None? || inFlight.value.session != session {
        return NotMine;
      }
      var f := inFlight.value;
      var audio := Pcm.DecodeUplink(f.buffer);
      var ctx := SessionContext(f.session, f.user, f.started, f.wakeWord, connection.clockOffset, f.ticket);
      inFlight := Some(f.(submitted := true));
      var submission := worker.Submit(ctx, audio, rate);
      reply := Submitted(ctx, submission);
    }

    /** `_reclaim_if_stale` up to the trace it writes; the context is the one of that trace. */
    method ReclaimIfStale(now: real, timeout: real) returns (reclaimed: Option<SessionContext>)
      modifies this, registry, connection`current
      ensures reclaimed == if S.Stale(old(View()), now, timeout) then Some(S.ContextOf(old(View()))) else None
      ensures (registry.sessions, View()) ==
        if reclaimed.Some? then S.Release(old(registry.sessions), old(View()))
        else (old(registry.sessions), old(View()))
    {
      if inFlight.None? || inFlight.value.submitted {
        return None;
      }
      var f := inFlight.value;
      if now - f.lastActivity < timeout {
        return None;
      }
      reclaimed := Some(SessionContext(f.session, f.user, f.started, f.wakeWord, connection.clockOffset, f.ticket));
      ReleaseSession();
    }
  }
}
