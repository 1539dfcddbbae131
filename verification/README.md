# SYNCRO host: verified model

This project models the host side of a voice assistant and proves properties of the model with
Dafny 4.11. `dafny verify dfyconfig.toml` checks everything.

The host accepts WebSocket connections from edge devices. On each connection one spoken interaction at
a time is opened, its audio frames are collected, the utterance is handed to a single worker thread
through a bounded queue, a dialogue graph turns it into a reply, a synthesiser turns the reply into
audio, and the audio goes back in 100 ms frames. Every interaction leaves at most one row in the
decision-trace table. A lexical guard keeps the spoken text from claiming that a task or reminder was
changed, because nothing in the host can change one.

## How the model is laid out

| file | models |
|---|---|
| `Prelude.dfy`, `Session.dfy` | shared types: bytes, int16, session contexts, failures, trace rows |
| `Stream.dfy` | the `/v1/stream` protocol as a labelled transition system |
| `StreamOwnership.dfy`, `StreamControl.dfy`, `StreamTraces.dfy`, `StreamHistory.dfy`, `StreamWire.dfy`, `StreamRouting.dfy` | one invariant each: session ids, program counters, trace rows, monotone histories, sent frames, utterances |
| `StreamSafety.dfy`, `StreamOutcomes.dfy`, `StreamProgress.dfy`, `ReaperClock.dfy` | the theorems about whole runs, about what a waiting task goes on to send, and about time |
| `Worker.dfy`, `Tts.dfy` | the worker queue and the single-flight synthesis, as transition systems |
| `StreamObjects.dfy` | registry, connection, worker and stream session as classes, proved to compute the steps of the transition systems |
| `ClaimText.dfy`, `ClaimWords.dfy`, `ClaimScope.dfy`, `ClaimScan.dfy`, `ClaimClauses.dfy`, `ClaimGuard.dfy`, `ClaimSafety.dfy`, `ClaimSentences.dfy`, `ClaimCriterion.dfy` | the mutation-claim guard: splitters, word lists, blocker scope, the bounded scan, clause separators, the guard, the spoken text, texts of several sentences, what is caught |
| `Policy.dfy`, `Dialogue.dfy` | the policy table and the dialogue graph with its two concurrent branches |
| `Pcm.dfy`, `Resample.dfy` | PCM coding, framing and both resamplers, over exact reals |
| `Context.dfy`, `Ingress.dfy`, `Traces.dfy` | bounded context queries, task ingress, suppression of reminder rows over runs |

In the stream model one step is the code a task runs between two `await`s. Any number of connections
share the registry and the worker; on each a receive task and a reaper task interleave freely with the
worker thread and with time. A *ticket* numbers each accepted `start_audio`; the program has no such
number, it only lets histories name a session whose id is reused later.

Assumptions of the stream model: `submit` and `stop` happen on the event-loop thread as atomic steps; a
failed send ends the receive task; store calls succeed but for the guard against an empty user id, which
is modelled; nobody cancels a worker future.

## What the proofs brought to light

- **An overflow row depends on the error frame.** When the queue is full the handler sends the
  `queue_overflow` error first and writes the degraded row afterwards (`api/ws/stream.py:422-428`). If
  that send fails, no row is ever written; nor is one if the session has no user id, see below.
  `StreamOutcomes.OverflowRowIffErrorSent` gives the exact condition,
  `StreamOutcomes.OverflowCanGoUnrecorded` and `StreamOutcomes.OverflowCanBeRefused` a run each.
- **An empty user id leaves no trace.** `start_audio` accepts one (`api/ws/messages.py:63`), but every
  row is written behind `ensure_user`, which refuses it (`storage/sqlite_store.py:39-40`). Such a session
  has no row whatever becomes of it, and what happens differs by writer: an overflow's error frame goes
  out and the error then ends the receive loop; a timeout is swallowed by the reaper and the edge hears
  nothing; a run of the pipeline escapes its own boundary. `StreamOutcomes.TraceConservation` and
  `StreamOutcomes.RefusedUserHearsLittle` say so for every run.
- **A teardown can leak a session id.** If a connection's receive loop ends before its reaper task
  first runs, cancelling that task makes `await reaper_task` raise, and `handle_disconnect` behind it
  is skipped (`api/ws/stream.py:486-489`). An id held at that moment then stays taken in every
  continuation. This needs a `start_audio` to be handled before the event loop schedules the reaper;
  the loop may then end by a disconnect, a failed send, a refused submission, a refused row or an
  escaped outcome.
  `StreamSafety.DropFreesIdIffReaperEntered` gives the exact condition for all of them,
  `StreamSafety.LeakIsReachable` a run.
- **A context limit of zero blinds the imminence flag** (`storage/context.py:67`): the flag is the
  unbounded one for every other limit, negative ones included.
- **A row marked `overdue` ahead of its deadline** would make the bounded overdue list differ from the
  bounded list of past-due tasks. `Context.OverdueIsExact` gives the condition row by row,
  `Context.EarlyMarkIsListed` such a row. Nothing in the host writes one: only the seed script sets the
  mark, and only on past deadlines (`scripts/seed_wp103.py:25`).
- **Re-encoding uplink audio is not exact above half scale**: decoding divides by 32768 and encoding
  multiplies by 32767, which moves a sample by one step exactly when its magnitude exceeds 16384.

## Model

| member | source | states |
|---|---|---|
| StreamSafety.SessionIdsAreExclusive | api/ws/stream.py:186-346 | in every reachable state of any interleaving the registry maps an id to a connection exactly when that connection and its stream session hold it; the tolerated `ValueError` cannot occur |
| StreamSafety.OthersKeepTheirIds | api/ws/stream.py:186-244 | no step of one connection, however late it resumes, takes an id from another connection |
| StreamSafety.ClosedHoldsNothing | api/ws/stream.py:486-489 | a connection whose teardown completed owns no id |
| StreamSafety.DropFreesIdIffReaperEntered | api/ws/stream.py:471-489 | however a receive loop ends (client gone, failed send, refused submission, refused overflow row, escaped outcome), the id is freed if and only if the reaper task had entered its loop: then the cleanup stays possible until done and leaves nothing held, otherwise the id stays taken in every continuation |
| StreamSafety.LeakIsReachable | api/ws/stream.py:473-489 | such a leak is reachable |
| StreamSafety.RunKeepsInv | api/ws/stream.py:186-450 | the conjunction of all invariants survives every run, and histories only grow |
| StreamOutcomes.TraceConservation | api/ws/stream.py:239-291 | no session ever has two trace rows; with a user id the store accepts, completed, failed, overflowed and timed-out sessions have exactly the row of their kind, malformed and dropped ones none; with an empty one there is never a row and a run can only escape |
| StreamOutcomes.RefusedUserHearsLittle | storage/sqlite_store.py:39-40 | all the edge hears of a session with an empty user id is ready, malformed audio or a full queue: no answer, no failure, no timeout |
| StreamOutcomes.OverflowRowIffErrorSent | api/ws/stream.py:422-430 | a rejected session has its row if and only if the overflow error frame was sent and its user id is not empty |
| StreamOutcomes.OverflowCanGoUnrecorded | api/ws/stream.py:422-430 | a run in which an overflow is recorded nowhere because its frame could not be sent |
| StreamOutcomes.OverflowCanBeRefused | storage/sqlite_store.py:39-40 | a run in which the overflow frame goes out and the row is refused |
| StreamOutcomes.FramesMatchRows | api/ws/stream.py:239-450 | a response, audio, end or error frame goes with exactly the trace row of its kind; an overflow error of a session without user id with no row; a malformed-audio error with no row (odd frame), the timeout row (the reaper was faster) or the failure row (transcription failed) |
| StreamOutcomes.ResponseIsRouted | api/ws/stream.py:388-450 | a response on connection c for session s is the runner's result for s, run on the decoded concatenation, in order, of the frames c accepted for s |
| StreamOutcomes.AnswerIsComplete | api/ws/stream.py:439-450 | once `tts_audio_end` is out the edge has seen ready, response, all audio frames in order and their count, and the frames decode to the clip |
| StreamOutcomes.ReclaimedOnlyWhenIdle | api/ws/stream.py:210-244 | only the reaper of the holding connection reclaims, only an open unsubmitted session, only after the timeout |
| StreamOutcomes.SubmittedNeverReclaimed | api/ws/stream.py:213-224 | a submitted session is never reclaimed in any continuation |
| StreamProgress.AnswerProgresses | api/ws/stream.py:430-450 | from any reachable state in which a handler awaits an answered future: the wake-up is possible, and behind it each completed send, with any steps of all other tasks in between, puts the next frame of ready, response, audio frames and end on the wire and leaves another send possible |
| StreamProgress.AnswerIsDelivered | api/ws/stream.py:439-450 | the last of those sends completes the exchange, frees the id and has the task receive again |
| StreamProgress.AnswerNeedsNoOthers | api/ws/stream.py:430-450 | the wake-up and the sends of the handler alone are a possible run to the end of the answer |
| StreamProgress.FailureIsReported | api/ws/stream.py:430-438 | behind a failed run one completed send puts out the error frame, malformed audio exactly if transcription failed and pipeline failure otherwise, and frees the id |
| StreamProgress.EscapeEndsLoop | api/ws/stream.py:430-432 | an outcome that is no `InteractionError` ends the receive loop at the wake-up |
| StreamProgress.StartIsAnswered | api/ws/stream.py:319-346 | in every reachable state a free id on a connection without a session is registered, opened with empty buffer and current time, and answered with `ready`; any other `start_audio` changes no session and is answered with a collision |
| StreamProgress.FrameIsTaken | api/ws/stream.py:278-294 | in every reachable state a frame of even length is appended and renews the activity, one of odd length is answered with malformed audio and the session released, one outside a session dropped |
| StreamProgress.EndIsHandedOver | api/ws/stream.py:388-430 | in every reachable state `end_audio` for the session in flight puts its decoded frames with the fields of that session last in the queue if and only if the worker accepts work and has room; a full queue rejects it, a stopped worker ends the loop; any other `end_audio` changes no session |
| StreamProgress.OtherMessageIsIgnored | api/ws/stream.py:296-386 | any other message is taken off the wire and changes nothing |
| StreamProgress.RejectedOnlyWhenFull | pipeline/worker.py:143-149 | a session becomes rejected only at an `end_audio` that meets exactly `maxQueue` waiting entries of a worker that accepts work |
| StreamProgress.OverflowIsReported | api/ws/stream.py:422-428 | a completed send puts out the overflow error, and then the row is written and the id freed, or, for a user id the store refuses, the loop ends without a row |
| StreamProgress.ClockIsSynced | api/ws/connection.py:152-180 | the first handshake fixes the offset that puts the edge's instant halfway between the host's two and is answered; later ones change nothing and get no answer |
| StreamProgress.TimeoutIsReported | api/ws/stream.py:222-244 | a poll that finds the session idle for the timeout releases it and writes its row, and the reaper's next completed send tells the client, whatever happens in between |
| StreamProgress.LoopEnds | api/ws/stream.py:471-489 | a client that goes away and a failed send end the receive loop from wherever it is |
| StreamProgress.NoTaskIsStuck | api/ws/stream.py:246-276 | in every reachable state each receive task can act, waits for a future the worker thread is on its way to, or has ended; and the reaper can act until teardown |
| ReaperClock.NoGapNoReclaim | api/ws/stream.py:222-294 | in any run, while start and accepted frames leave no gap as long as the timeout the session is not reclaimed |
| ReaperClock.IdleIsBounded | api/ws/stream.py:246-265 | with a punctual reaper no unsubmitted session is ever idle longer than the timeout and one poll interval |
| ReaperClock.AbandonedIsReclaimed | api/ws/stream.py:246-265 | an abandoned session is reclaimed within one poll interval after the timeout |
| StreamObjects.SessionRegistry.Start | api/ws/session_registry.py:63-79 | refuses a held id and changes nothing, else registers it |
| StreamObjects.SessionRegistry.End | api/ws/session_registry.py:81-91 | frees the id and nothing else |
| StreamObjects.Connection.Authenticate | api/ws/connection.py:126-150 | succeeds at most once; a failure leaves the identity unset |
| StreamObjects.Connection.RecordClockSync | api/ws/connection.py:152-180 | fixes the offset at the first handshake and refuses later ones |
| StreamObjects.Connection.StartSession | api/ws/connection.py:182-193 | refuses a second local session |
| StreamObjects.Connection.EndSession | api/ws/connection.py:195-208 | clears exactly the session that is current |
| StreamObjects.StreamSession.ReleaseSession | api/ws/stream.py:186-196 | the new registry and session state are the release step |
| StreamObjects.StreamSession.StartAudio | api/ws/stream.py:319-346 | registry, connection and session change by the start step, with rollback on a local collision |
| StreamObjects.StreamSession.Binary | api/ws/stream.py:278-294 | an accepted frame is buffered and renews the activity; an odd one changes nothing before its error frame |
| StreamObjects.StreamSession.EndAudio | api/ws/stream.py:388-425 | only the session in flight is submitted, marked first, with its decoded buffer and context |
| StreamObjects.StreamSession.ReclaimIfStale | api/ws/stream.py:210-244 | releases exactly a stale unsubmitted session, before any await, and returns the context its trace needs |
| StreamObjects.InteractionWorker.Submit | pipeline/worker.py:129-150 | accepted if and only if the worker accepts work and holds fewer than `maxsize` entries, full if and only if it accepts work and holds `maxsize`, stopped if and only if it does not; on acceptance the queue is the old one and that item with a pending future, otherwise nothing changes |
| StreamObjects.InteractionWorker.RunOnce | pipeline/worker.py:167-199 | one pass of the loop is the take step and, for an item, the finish step with any outcome |
| StreamObjects.InteractionWorker.FinishHeld | pipeline/worker.py:192-199 | the end of a run, however it ends, is the finish step |
| StreamObjects.InteractionWorker.RunToExit | pipeline/worker.py:167-178 | once the sentinel is queued the loop ends with every accepted item finished and every future done |
| StreamObjects.InteractionWorker.Stop | pipeline/worker.py:152-165 | stopping, whatever the thread is doing and however full the queue, finishes exactly the items accepted before and resolves every future |
| Worker.StepKeepsInv | pipeline/worker.py:129-199 | every step keeps: accepted = finished ++ in progress ++ queued in order, bounded queue, sentinel last, futures in matching states |
| Worker.RunConserves | pipeline/worker.py:129-199 | over any run, whatever the runner raises, items are neither lost nor reordered, each future is resolved once, and nothing is accepted after a stop |
| Worker.EveryRunConserves | pipeline/worker.py:129-199 | after every run of a new worker, accepted = finished ++ in progress ++ queued, within the bound, and a future is done exactly if its item is finished or was cancelled |
| Worker.StoppedWorkerDrains | pipeline/worker.py:152-178 | from the moment new work is refused, with the sentinel perhaps still waiting for room and an item perhaps in progress, there is always a draining step until the exit, each lowers a measure, nothing raises it |
| Worker.StoppedWorkerExits | pipeline/worker.py:152-178 | from there a stopped worker exits within that many draining steps with everything resolved |
| Worker.SubmissionIsExact | pipeline/worker.py:129-150 | in every state of the invariants: when a submission is accepted, rejected and refused, and what the queue, the futures and the rest are afterwards |
| Worker.PassIsExact | pipeline/worker.py:167-199 | one pass takes the first entry; an item whose future is still pending is run and its future resolved with the outcome of that run, a cancelled one is skipped, the sentinel ends the thread |
| Worker.WorkerGoesOn | pipeline/worker.py:167-199 | while an accepted item is unfinished the thread can take the next entry or finish the one it holds, and every such step brings the item nearer |
| Worker.AcceptedIsFinished | pipeline/worker.py:129-199 | so from every state of the invariants each accepted item is finished after at most a known number of thread steps |
| Tts.SingleFlight | pipeline/interaction.py:171-200 | any unfinished synthesis is the tracked one, so at most one runs and none waits behind it |
| Tts.CallSubmitsIffIdle | pipeline/interaction.py:184-191 | a call submits a job if and only if none is unfinished, else it falls back to text |
| Tts.HearsOwnText | pipeline/interaction.py:193-196 | a caller that gets audio gets the audio of its own text |
| Tts.CallGivesBack | pipeline/interaction.py:171-200 | over every run: what a call gives back is failure on a closed gate, text only if a synthesis was unfinished when it entered, and otherwise exactly the end of its own job, text only if the wait ran out |
| Tts.NobodyIsStuck | pipeline/interaction.py:184-200 | in every reachable state a waiting call can give up while its job is unfinished, and then the thread can pick up or end a job; it can take the result once the job is finished; and a call on its way out can leave |
| Tts.CloseCancels | pipeline/interaction.py:202-207 | closing cancels exactly the jobs not started and leaves the running one to end |
| Tts.LateFinallyKeepsNewer | pipeline/interaction.py:197-200 | a late `finally` clears nothing but its own finished job: any other tracked future stays tracked, finished or not |
| Tts.SynthesisGate.BeginSynthesis | pipeline/interaction.py:184-191 | the first locked region is the enter step |
| Tts.SynthesisGate.FinishSynthesis | pipeline/interaction.py:197-200 | the second locked region is the leave step |
| ClaimScope.BlocksJoin | pipeline/nodes/llm.py:427-428 | joining segments with blanks neither makes nor hides a blocker |
| ClaimScope.WindowBlocks | pipeline/nodes/llm.py:413-428 | the window blocks exactly when the clause does, a dangling earlier segment does, or any earlier one does while the clause has no subject |
| ClaimScan.CutKeepsStanding | pipeline/nodes/llm.py:411-413 | cutting a text behind a blank can only lose blockers |
| ClaimScan.BoundIsConservative | pipeline/nodes/llm.py:293-413 | a verb blocked on the truncated prefix is blocked on the full one |
| ClaimScan.OnlyTheLastMatter | pipeline/nodes/llm.py:411-413 | behind 400 characters nothing further back has a say |
| ClaimClauses.SplitAtSeparator | pipeline/nodes/llm.py:294 | a clause separator, punctuation or spaced dash, splits a text into the segments of its two sides; for a dash if and only if the last segment in front does not itself end in white space and dashes |
| ClaimClauses.ClosedSegmentIsInert | pipeline/nodes/llm.py:298-428 | within the bound, an earlier text that leaves nothing dangling, set off by any separator, never affects a clause with its own subject |
| ClaimClauses.OpenDenialReaches | pipeline/nodes/llm.py:298-428 | within the bound, an earlier segment that denies and is left dangling reaches every clause behind any separator |
| ClaimWords.EnglishIsSound | pipeline/nodes/llm.py:251-312 | the program's own word lists satisfy what the scope results ask of word lists |
| ClaimWords.SubjectByWords | pipeline/nodes/llm.py:277-420 | a clause borrows its subject if and only if it has a run of letters and apostrophes and each such run is one of the fourteen auxiliaries, written out |
| ClaimWords.BlocksByWords | pipeline/nodes/llm.py:251-259 | a text blocks if and only if one of the denials or prospective words, written out, stands in it as a whole word, or "n't" or "'ll" closes a word |
| ClaimWords.DanglesByLastWord | pipeline/nodes/llm.py:296-304 | a segment dangles if and only if its last word, with nothing of letters, digits and apostrophes behind it, is one of the openers, written out, or ends in "n't" |
| ClaimCriterion.StandsByWords | pipeline/nodes/llm.py:409-428 | within the bound the verb is left standing if and only if the clause has no blocker, no dangling segment has one, and, where the clause is auxiliaries only, no segment at all has one |
| ClaimCriterion.OwnSubjectStands | pipeline/nodes/llm.py:306-420 | an earlier text that dangles nothing does not affect a clause with a word other than the auxiliaries |
| ClaimCriterion.BorrowedSubjectIsDenied | pipeline/nodes/llm.py:306-420 | a denial in any earlier segment reaches a clause that holds auxiliaries only |
| ClaimGuard.FoldPunctuation | pipeline/nodes/llm.py:374-376 | the replacement loop applies the folds in order |
| ClaimGuard.FirstOf | pipeline/nodes/llm.py:378-383 | the sentence loop finds a claim exactly when some sentence is one |
| ClaimGuard.RejectUnexecutedMutationClaim | pipeline/nodes/llm.py:358-384 | returns the safe reply of the intent exactly when some sentence claims a mutation, else the text itself |
| ClaimCriterion.ClaimCriterion | pipeline/nodes/llm.py:387-428 | within the scan bound a sentence is a claim exactly when some verb form has no blocking segment in scope, it is no question, not distanced, and shaped like a claim |
| ClaimCriterion.HoweverDenialHolds | pipeline/nodes/llm.py:296-308 | illustration of `OpenDenialReaches`: the program's own lists read "I have not, however, ..." as a denial of the verb that follows |
| ClaimCriterion.ClaimBehindClosedDenialStands | pipeline/nodes/llm.py:409-428 | illustration: in "Not a problem, I have dismissed that reminder." the verb stands |
| ClaimCriterion.StandingVerbIsClaim | pipeline/nodes/llm.py:387-406 | any form of the intent's verb, written out, behind a text that leaves the claim standing makes the sentence a claim, wherever the claim patterns match it and no question or distancing pattern does |
| ClaimCriterion.ClaimIsReplaced | pipeline/nodes/llm.py:358-384 | and the guard gives back the safe reply of the intent |
| ClaimCriterion.AsciiIsFaithful | pipeline/nodes/llm.py:377 | the assumptions on case folding and word characters can be met |
| ClaimSafety.SplitOffPrefix | pipeline/nodes/llm.py:276 | splitting prefix, blank and draft gives the prefix and then the sentences of the draft |
| ClaimSentences.SplitAtGap | pipeline/nodes/llm.py:276 | two texts joined by white space behind an end mark, or by line breaks, split into the sentences of both |
| ClaimSentences.SplitsIntoSentences | pipeline/nodes/llm.py:276 | a text is split if and only if it has a line break, or white space behind one of the four closing marks |
| ClaimSentences.SplitsIntoClauses | pipeline/nodes/llm.py:294 | a text is split into clauses if and only if a comma, semicolon, colon or a run of dashes between white space occurs in it |
| ClaimSentences.ClaimsSentenceBySentence | pipeline/nodes/llm.py:374-383 | so a text of two parts makes a claim exactly if one of its parts does |
| ClaimSafety.ReplyMakesNoClaim | pipeline/nodes/llm.py:318-335 | no safe reply is a claim for its own intent |
| ClaimSafety.NormaliseIsFolds | pipeline/nodes/llm.py:282-377 | typographic quotes count as apostrophes and typographic dashes as spaced hyphens; everything else is only case folded |
| ClaimSafety.GuardLeavesNoClaim | pipeline/nodes/llm.py:358-384 | for every intent and text the guard's result contains no claim |
| ClaimSafety.GuardIsIdempotent | pipeline/nodes/llm.py:314-317 | guarding twice is guarding once, and a text comes back unchanged exactly when it makes no claim |
| ClaimSafety.PrefixAddsNoClaim | pipeline/nodes/policy.py:80-102 | behind any policy prefix a draft has the claims it had, no more and no fewer |
| ClaimSafety.ClarificationMakesNoClaim | pipeline/nodes/intent.py:18 | the clarification, which never passes the guard, makes no claim for any intent |
| ClaimSafety.SpokenTextIsSafe | pipeline/nodes/policy.py:72-102 | guard, strip and prefix together: no sentence of the spoken text is a claim, for every draft, intent and rule |
| Policy.ClampIsNearest | pipeline/nodes/policy.py:28-34 | the clamped lead time is the point of the range nearest to the stored one |
| Dialogue.RepliesFollowPolicy | pipeline/nodes/policy.py:7-105 | every reply of the graph: rule and action by affect level and deadline as the policy table has them, display state and opening words by rule, which deadline counts, the lead time moved into its bounds, a pending outcome exactly for the two reminder intents |
| Dialogue.RepliesReportServices | pipeline/nodes/output.py:125-141 | a reply reports the classification of the stripped transcript, the rows retrieved unless the confidence was low, and the affect level or its fallback; its draft is the clarification or what the guard leaves of the model's answer |
| Dialogue.AnsweredIffServed | pipeline/graph.py:98-111 | a turn is answered if and only if transcript, classification, lead time and, above the threshold, context and draft are there and no empty user would suppress reminders |
| Dialogue.MergeAnyOrder | pipeline/state.py:8-15 | the affect update commutes with every update of the dialogue branch, timings included |
| Dialogue.ScheduleDoesNotMatter | pipeline/graph.py:98-109 | every schedule of the affect branch against the dialogue branch brings the same state or the same failure to the policy node |
| Dialogue.NeverStuck | pipeline/graph.py:98-109 | no schedule gets stuck before the join |
| Dialogue.GraphIsStraight | pipeline/graph.py:98-111 | the graph over shared optional keys equals the turn told as plain sequential calls: same reply or same first failure |
| Dialogue.RepliesAreConsistent | pipeline/nodes/output.py:62-141 | rule n/a exactly when proximity n/a, only reminder intents governed, lead time in bounds when the bounds are ordered, payload and trace agree |
| Dialogue.RepliesMakeNoClaim | pipeline/nodes/llm.py:66-69 | no reply of the whole graph claims a mutation for its own intent |
| Dialogue.LowConfidenceAsksBack | pipeline/nodes/intent.py:17-19 | below the threshold the spoken text is the clarification, with no rule and no context |
| Dialogue.DetectorFailureIsSurvived | pipeline/nodes/affect.py:31-49 | a failing detector gives the reply the fallback level would have given, apart from the degradation mark |
| Pcm.DecodeEncode | audio/resample.py:102-103 | little-endian decoding inverts encoding |
| Pcm.UplinkIsLittleEndian | api/ws/stream.py:131-139 | sample i of a decoded frame is (low byte + 256 * high byte as a signed number) / 32768, at bytes 2i and 2i + 1 |
| Pcm.DownlinkIsLittleEndian | audio/resample.py:102-107 | bytes 2i and 2i + 1 of the frames are the low and high byte of sample i |
| Pcm.QuantiseIsNearest | audio/resample.py:79-80 | a quantised sample is the clipped value at full scale 32767, rounded to nearest, ties to even |
| Pcm.RequantiseSample | audio/resample.py:79-80 | one decoded and re-encoded sample moves by at most one step towards zero, not at all exactly when its magnitude is at most 16384 |
| Pcm.FlattenChunks | audio/resample.py:104-107 | the frames concatenate to the encoding |
| Pcm.DownlinkFraming | audio/resample.py:83-107 | the frames are ceil(n/1600) whole-sample frames, all full but a nonempty last, and decode to the clip |
| Resample.UplinkEcho | api/ws/stream.py:131-139 | a decoded uplink buffer re-encoded at 16 kHz is within one step everywhere and exact exactly up to half scale |
| Resample.ResamplersReadTogether | ml/affect/features.py:61-64 | sample j of either resampler is the interpolated source at that resampler's instant; the two instants lie less than half an output period apart, and coincide for j = 0 and exactly for whole ratios otherwise |
| Resample.ResamplersStayClose | ml/affect/features.py:61-64 | so two corresponding samples differ by at most the steepest slope of the source over half an output period |
| Resample.ResamplersAgree | ml/affect/features.py:54-64 | when n*16000/rate is whole both resamplers produce the same samples before quantisation |
| Resample.DownlinkStaysInRange | audio/resample.py:70-79 | resampled values stay within the range of the source, so clipping never acts on input in [-1, 1] |
| Resample.DownlinkKeepsOrder | audio/resample.py:70-80 | a nondecreasing source gives nondecreasing int16 output |
| Resample.DownlinkKeepsDuration | audio/resample.py:73-74 | the duration is kept to 1/32000 s unless the length was forced to one sample, which happens exactly up to that duration |
| Context.ImminenceIsExact | storage/context.py:53-120 | for every table, every arrangement of ties and every limit but zero the flag from the truncated rows is the unbounded definition |
| Context.ZeroLimitFlag | storage/context.py:46-120 | what the flag is for a limit of zero |
| Context.ZeroLimitMisses | storage/context.py:46-120 | a table on which a limit of zero misses a task due now |
| Context.OverdueIsExact | storage/context.py:80-104 | the bounded overdue list is the first k past-due rows exactly when every row of the cut marked overdue is past its deadline |
| Context.EarlyMarkIsListed | storage/context.py:103 | illustration: a row marked overdue ahead of its deadline is listed although nothing is past due |
| Context.PastDueIsArranged | storage/context.py:80-91 | the past-due rows of the answer are all the user's open past-due tasks in query order |
| Context.AnswerIdsAreDistinct | storage/context.py:53-67 | no truncated answer lists a task twice |
| Context.Ids | storage/context.py:20-30 | upcoming ids first, then unseen overdue ids, then the routine entry; duplicate free and covering both lists |
| Context.CollectOverdue | storage/context.py:93-104 | the loop keeps exactly the late rows, in order |
| Context.FindImminent | storage/context.py:106-120 | the loop with its break finds whether any row is in the window |
| Context.Retrieve | storage/context.py:40-127 | every task of either list is the user's, in the table and not completed; the upcoming ones are not past, the overdue ones late or marked; for a nonzero limit the flag says exactly whether some uncompleted task of the user falls due within the hours; the overdue list is the first past-due rows when no row is marked early |
| Context.TasksAreFirst | storage/context.py:53-67 | the upcoming tasks are the first k in query order of all the user's uncompleted ones not past due |
| Context.OthersDoNotMatter | storage/context.py:57-84 | adding, changing or removing rows of other users changes no query: what an answer may be depends on the user's own rows alone |
| Ingress.HistoryIsDedup | storage/ingress.py:41-72 | over any calls with new random ids: the tasks are the earlier ones and one row per new key, with user, title, deadline, priority and creation time of its first call of allowed priority, and the log has one event per call of allowed priority |
| Ingress.AcceptedIff | storage/ingress.py:42-71 | exactly which calls are rolled back: a priority other than low, normal and high, a used event id, or a used task id under a new key |
| Ingress.AnswerFits | storage/ingress.py:60-72 | an answered call returns a row with its own key, new exactly if the key was, and the fields of the call if so |
| Ingress.AcceptedAreTheAllowed | storage/ingress.py:42-71 | with new random ids exactly the calls of allowed priority are accepted, whatever the others do |
| Ingress.TasksAreFirstOccurrences | storage/ingress.py:41-64 | after any history the tasks are the earlier ones and one row per new key, with the fields of its first accepted call |
| Ingress.LogIsHistory | storage/ingress.py:65-72 | one event per accepted call in order, "created" exactly at first occurrences, each naming the row that holds its key |
| Ingress.RunKeepsSound | storage/ingress.py:48-59 | keys and task ids stay unique over any history |
| Ingress.RepeatChangesNothing | storage/ingress.py:24-40 | repeating a key changes no task and answers with the first row |
| Ingress.IngressRepository.IngestTask | storage/ingress.py:24-72 | the statements of the transaction with rollback compute the ingest step |
| Traces.LiveSinceLastDecision | storage/decision_trace.py:57-72 | over any run from any table a user's unsuppressed pending rows are exactly those saved since that user's last R5 decision, behind the table's own if there was none |
| Traces.OnlyTriggerStaysLive | pipeline/nodes/policy.py:92-100 | right after a finished R5 turn, on any table, only the triggering row remains |
| Traces.OtherUsersUntouched | storage/decision_trace.py:61-71 | a turn leaves the rows of other users as they are; only rows the transport itself writes for them are added |
| Traces.TracesFollowPolicy | pipeline/contracts.py:115-127 | every assembled full trace passes the policy-domain validation and has the rule and action the policy table gives |
| Traces.DecisionTraceRepository.Save | storage/decision_trace.py:28-40 | appends a valid record, refuses an invalid one without writing |
| Traces.DecisionTraceRepository.SaveDegraded | storage/decision_trace.py:42-54 | appends a degraded record |
| Traces.DecisionTraceRepository.SuppressPending | storage/decision_trace.py:57-72 | changes the action of exactly the user's live rows and returns their number; refuses an empty user |
| Traces.UserTable.Ensure | storage/sqlite_store.py:32-57 | refuses an empty id, else the user is known |
| Traces.PersistDegraded | pipeline/interaction.py:329-349 | the degraded row is appended unless the store refuses the user; rows only ever name known users |
| Traces.TransportWrites | pipeline/interaction.py:303-327 | degraded records of the event-loop thread are appended in order |
| Traces.PlayTurn | pipeline/interaction.py:263-301 | the order of suppression, full row and degraded row in one turn, with the transport's rows in between; an empty user id gets no row |

## Left out

- Adapters, prompts and the extraction of JSON from model output: parameters that may fail; one failing `generate` stands for the adapter, the parser and a missing response text.
- The interrogative, distancing, completion and sentence-shape patterns of the guard: arbitrary predicates on a sentence, so the results hold for any version of them. Splitters, strip, word boundaries, verb lists, blocker lists, dangling tails, replies and prefixes are concrete.
- Case folding and word characters beyond ASCII: parameters, assumed to agree with Python on ASCII, to fold nothing into whitespace and to count no whitespace as part of a word.
- ClaimSafety.SpokenTextIsSafe: speaks of what the lexical rule calls a claim, not of what English readers do; the gaps documented for the rule (cross-clause negation, verbs outside the lists) remain.
- Floating-point rounding in interpolation and scaling: samples, instants and lead times are exact reals. Multi-channel input of the feature resampler is left out.
- Resample.ResamplersStayClose: compares samples before quantisation, not filtered audio.
- ReaperClock.IdleIsBounded: assumes that the reaper enters at once, wakes exactly on time and that its own sends take no time.
- Authentication policy and HTTP routing: `StreamObjects.Connection.Authenticate` takes the resolved identity as a parameter, and connections of the transition system are authenticated ones.
- The frame-count mismatch of `end_audio` and condition reports: logged only, so an `end_audio` carries no count in the model.
- `_compute_latency` and the latency fields of a trace; the `tts_timeout` mark of a full trace.
- A run of the runner is one step of the worker thread: its trace row and the resolution of its future appear together.
- Stopping a worker that was never started or a second time, and submissions that race `stop` from another thread.
- SQLite itself: a `with connection()` block is one atomic step, an error undoes all of it; deadlines are integers, so malformed deadline strings do not occur.
- Context.Retrieve: takes the database's arrangement of tied rows as a parameter, any arrangement in query order.
- `list_for_user`, `list_tasks` and `list_events`: plain reads.
- Settings, health, scripts, training and evaluation code: no behaviour the results depend on.
