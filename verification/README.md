# Verified models of the voice agent's stateful core

A voice agent's host process keeps a handful of small, hard state machines: who may approve what and until when,
which audio is played and in what order, which event happens next, which frame goes to which socket, which delegate
may still be launched. This project models them in Dafny and proves what they promise.

Most parts have two layers. The first is a state machine on values, one function per operation, with the invariants
that every step and every run keeps. The second is a class with the program's own fields and methods, whose contracts
say that each method does exactly what the state machine's step does, and what that means for its caller. What happens
between two awaits is one step, so a run of steps is one interleaving.

What a step means is told a second time, without the function that takes it: as a relation between the state before and
the state after that says who is admitted, who leaves, what is answered and what stays (`ApprovalMeaning`,
`OutboundMeaning`, `PlaybackSignals`, `DecodeTalk`), or as what the history of a run says the tables must hold
(`PlaybackCounts`, `ReplayTrace`). The functions are proved to be in these relations, and the methods promise them.

| files | part of the program |
|---|---|
| ApprovalFifo, ApprovalRuns, ApprovalMeaning, PendingDecision, HostApproval | the approval line, its deadline object, and the two together |
| VoiceAttempts, VoiceHost | the spoken attempts of one approval, and the host's approvals that share one turn isolation |
| PlaybackModel, PlaybackRuns, PlaybackSignals, PlaybackTables, PlaybackWorld, PlaybackCounts, PlaybackQueue, NearSilence | the playback queue and its near-silence statistic |
| EventQueue, VirtualClock, ReplayTrace, FixtureReplay | event heap, virtual clock, deterministic replay |
| OutboundModel, OutboundRuns, OutboundMeaning, OutboundWriter | the desktop server's single outbound writer |
| CameraRegistry, CameraServer | the desktop server's camera requests |
| LaunchFence, LaunchRuntime | admission, cancellation and launch of executor work |
| MailPaging | the resumable mailbox scan |
| MediaStore | the byte-bounded image store |
| DecodeProtocol, DecodeTalk, DecodeStream | the streaming speech decoder: its connections, and its decode loop as one coroutine |
| ContextWindow | which rows a context view shows |
| Common | the option type and two facts about concatenation |

Where the code does not do what one would expect of it, the code is modelled as it is, a lemma gives a concrete run,
and an if-and-only-if says when the expectation holds:

- Near silence: `leading` keeps growing on later runs, so it always equals `longest`. The reported maximum lies between
  the true longest run and twice that (`PeakIsSandwiched`), it can be twice (`PeakCanDouble`), and it is exact if and
  only if no append that carries a run into a frame whose longest run is not at its start adds up to more than some true
  run (`PeakIsExactIff`; `PeakStaysExactIff` for one append). Stopping `leading` at the first loud sample makes it exact
  (`CorrectedPeakIsExact`).
- Spoken attempts: a retirement that resumes while an exhaustion of attempt one is suspended does not stop that
  exhaustion from beginning attempt two (`AttemptAfterRetirement`). Voice that was given up stays so if and only if the
  authority is cleared or no exhaustion of attempt one is suspended (`GivenUpForGoodIff`). A retirement of an earlier
  authority also takes the isolation from the present one (`RetireResumed`), which, its context settled, then begins an
  attempt again if and only if such an exhaustion is suspended (`DisarmedIff`).
- Launch: a task that ends leaves its check, its user turn and its capability in their tables if and only if it did not
  end at its launch check (`EndsLeavingIff`). A binding that fails does so (`FailedBindingLeavesCapability`), and so does
  a shutdown that comes before the task's turn (`ShutdownLeavesCapability`). They stay until the next clear or the end of
  the shutdown (`LeftUntilClear`).
- Replay: a list of stimuli is replayed to its end if and only if none asks the clock to go back (`Replay`, in terms of
  `Timeline`). A list in order of time can still do so, with an `advance_clock` beyond a later stimulus
  (`EarlierStimulusIsRefused`).

## Model

| member | source | states |
|---|---|---|
| ApprovalRuns.StepKeepsInv | runtime/src/core/approval.ts:107-284 | every operation, abort listener and timer keeps: offer order and capacity, distinct works, only the head answered or parked, a pending head held exactly if a hold is set or it awaits presentation, a project hold only with a head, each admitted offer pending or settled exactly once |
| ApprovalRuns.RunKeepsInv | runtime/src/core/approval.ts:149-284 | the same over every run from an empty line |
| ApprovalRuns.DropKeepsInv | runtime/src/core/approval.ts:271-284 | dropping any entry keeps the invariant, and declines it only if nothing had settled it |
| ApprovalRuns.RunOrigins | runtime/src/core/approval.ts:149-188 | whatever is in line after a run was in line before it as the same offer, or was admitted during it |
| ApprovalRuns.HeadsInOfferOrder | runtime/src/core/approval.ts:265-284 | the head never moves back: later heads were offered no earlier |
| ApprovalRuns.NonDeclineNeedsAnswer | runtime/src/core/approval.ts:191-214 | an offer is settled with other than a decline if and only if some step of the run answered it by name while it was the unaborted head, held or unexpired |
| ApprovalRuns.SpentOnlyAtHead | runtime/src/core/approval.ts:216-231 | a resolution is spent with other than a decline if and only if some step consumed it while its entry was the responding, unaborted head |
| ApprovalRuns.NeverSpendableAgain | runtime/src/core/approval.ts:216-231 | once an entry has left the line or its signal is aborted, consuming its resolution gives a decline after every further run, also when that happened between accept and consume |
| ApprovalRuns.InvalidateWorkExact | runtime/src/core/approval.ts:242-249 | invalidating a work removes exactly its entries and keeps the order of the rest |
| ApprovalRuns.AtMostOneOwned | runtime/src/core/approval.ts:242-249 | because admission keeps works distinct, the loop over a work's entries drops at most one |
| ApprovalRuns.ProjectHoldEndsWithHead | runtime/src/core/approval.ts:107-124 | as long as a project hold stays in force the head is the same one: no later head inherits it, whatever else happens |
| ApprovalRuns.HeadKeepsItsTime | runtime/src/core/approval.ts:256-263 | through any offers, consumptions, holds, releases, aborts and timers, a pending head that is parked or has until some time stays the pending head while the clock reads less |
| ApprovalMeaning.ReleaseMeans | runtime/src/core/approval.ts:126-138 | exactly the reason given goes; a release succeeds exactly if that reason or, for a background release, the gate of the head was there; the gate opens exactly for a background release that awaits no presentation; a parked pending head runs again, with sixty seconds from now, exactly if no reason and no gate is left; everything else stays |
| ApprovalMeaning.BackgroundEnds | runtime/src/core/approval.ts:126-138 | with the background the only reason, an ordinary background release presents the pending head, runs it and gives it sixty seconds |
| ApprovalMeaning.OfferMeans | runtime/src/core/approval.ts:149-188 | an offer is aborted, refused for a full line or a work that is in line already, turned down for its id, or admitted: then it joins at the back as it was offered, gated exactly under a background hold, and alone it is promoted with its full time |
| ApprovalMeaning.HoldMeans | runtime/src/core/approval.ts:107-124 | a hold succeeds exactly if its reason is not in force and, for a project, a head is left once an overdue one is dropped; then the pending head is parked and all others stay as they were, gated under a background hold |
| ApprovalMeaning.AcceptMeans | runtime/src/core/approval.ts:191-214 | an answer is taken exactly for the head by name, pending, in time or parked, not aborted, and with a decision it allows; then only the phase of the head and the record of its settlement change |
| ApprovalMeaning.ConsumeMeans | runtime/src/core/approval.ts:216-231 | the decision handed out is the one put on record as spent; a resolution that may not be spent is answered with a decline and changes nothing |
| ApprovalMeaning.LeavesExactly | runtime/src/core/approval.ts:191-284 | every step takes out of the line exactly the entry it should: the head that is consumed, invalidated, overdue or found aborted, the entry of an invalidated work, the entry whose abort listener runs; every other one stays |
| ApprovalMeaning.NewHeadHasItsTime | runtime/src/core/approval.ts:256-284 | whoever becomes head in a step is pending, has sixty seconds from then, and is parked exactly if a reason or its gate is there |
| ApprovalMeaning.TimeTakesOut | runtime/src/core/approval.ts:256-284 | a pending head that nothing parks leaves with its timer exactly once the clock has come to its time |
| ApprovalMeaning.AbortTakesOut | runtime/src/core/approval.ts:182-183 | whoever's signal is aborted leaves with its abort listener, wherever it stands in the line |
| PendingDecisions.PendingDecision.Wake | runtime/src/core/pending-decision.ts:53-67 | a wake-up expires the current payload exactly if its own sleep is the live one and the current deadline has come; otherwise it sleeps on or ends, and changes nothing else |
| PendingDecisions.PendingDecision.Hold | runtime/src/core/pending-decision.ts:27-33 | a hold succeeds exactly for the current payload that is not held, and stops its timer |
| PendingDecisions.PendingDecision.Release | runtime/src/core/pending-decision.ts:35-43 | a release succeeds exactly for the held current payload and starts a new timer for the new deadline |
| PendingDecisions.PendingDecision.Offer | runtime/src/core/pending-decision.ts:18-25 | an offer displaces and returns the current payload and starts a timer of its own for the new deadline |
| PendingDecisions.PendingDecision.Consume | runtime/src/core/pending-decision.ts:45-51 | consuming succeeds exactly for the current payload and leaves none |
| PendingDecisions.PendingDecision.Reject | runtime/src/core/pending-decision.ts:61-67 | an aborted sleep ends and changes nothing else |
| HostApproval.HostApprovalController.Offer | runtime/src/core/approval.ts:149-188 | with the deadline object in step before and after: which offers are admitted and what joins the line (`OfferMeans`) |
| HostApproval.HostApprovalController.AcceptDecision | runtime/src/core/approval.ts:191-214 | an answer is taken exactly from the live head by name (`AcceptMeans`); an overdue or aborted head is dropped instead |
| HostApproval.HostApprovalController.Consume | runtime/src/core/approval.ts:216-231 | what is handed out is what is spent (`ConsumeMeans`), and the next head is promoted with its own deadline |
| HostApproval.HostApprovalController.Hold | runtime/src/core/approval.ts:107-124 | whether it succeeds and what it parks (`HoldMeans`); the call on itself after dropping an overdue head ends |
| HostApproval.HostApprovalController.Release | runtime/src/core/approval.ts:126-138 | which reason goes, when the gate opens, when the head runs again and until when, and the result (`ReleaseMeans`), with the deadline object restarted |
| HostApproval.HostApprovalController.Drop | runtime/src/core/approval.ts:271-284 | dropping an entry found in the head or in the queue does what the line's drop at its place does |
| HostApproval.HostApprovalController.Invalidate | runtime/src/core/approval.ts:233-240 | it returns true exactly if there is a head, which leaves the line |
| HostApproval.HostApprovalController.InvalidateWork | runtime/src/core/approval.ts:242-249 | the loop over the owned entries drops each of them where it stands, also one that was promoted meanwhile, as the line's loop does; it says whether there was one |
| HostApproval.HostApprovalController.DropSerial | runtime/src/core/approval.ts:271-284 | an entry object that has left the line is not dropped again |
| HostApproval.HostApprovalController.RunAbortListener | runtime/src/core/approval.ts:182-183 | an entry's abort listener drops it exactly if it is still in line and its signal is aborted |
| HostApproval.HostApprovalController.TimerWakes | runtime/src/core/pending-decision.ts:61-67 | a timer left from before a hold, release or displacement changes nothing; the live one expires the head exactly when its deadline has come |
| HostApproval.HostApprovalController.RunningHeadHasTimer | runtime/src/core/approval.ts:256-263 | a pending head that is not held always has a live, unaborted sleep due at its deadline |
| VoiceAttempts.StepKeeps | runtime/src/core/approval.ts:598-704 | every step at an await point keeps: attempts begin as 1, 2, or 1 then 2, and at most one exhaustion of attempt one is suspended, under no isolation |
| VoiceAttempts.AttemptsInOrder | runtime/src/core/approval.ts:672-704 | over every run each attempt begins at most once and at most one clarification is queued |
| VoiceAttempts.ClarifiesIff | runtime/src/core/approval.ts:608-704 | a step queues the one clarification if and only if it begins attempt two and is not a newer turn of the user |
| VoiceAttempts.ClarifiedUnlessTurned | runtime/src/core/approval.ts:608-704 | in every run without a newer turn a clarification is queued if and only if attempt two has begun |
| VoiceAttempts.AttemptAfterRetirement | runtime/src/core/approval.ts:933-963 | a run in which attempt two begins after a retirement has finished |
| VoiceAttempts.BeginsAgainIff | runtime/src/core/approval.ts:1168-1186 | after voice was given up a step begins an attempt if and only if it resumes a suspended exhaustion of attempt one while current |
| VoiceAttempts.AnotherAttemptIff | runtime/src/core/approval.ts:598-704 | some run of steps begins another attempt if and only if the authority is not cleared and its context is not settled yet, or an exhaustion of attempt one is suspended, or attempt one is on under its isolation |
| VoiceAttempts.GivenUpForGoodIff | runtime/src/core/approval.ts:933-963 | voice that was given up begins no attempt in any run if and only if it is cleared or no exhaustion of attempt one is suspended |
| VoiceAttempts.DisarmedIff | runtime/src/core/approval.ts:1181-1186 | a prepared authority whose isolation was taken away begins another attempt if and only if an exhaustion of attempt one is suspended |
| VoiceAttempts.ExhaustionDecides | runtime/src/core/approval.ts:949-962 | an exhaustion that resumes while current begins attempt two under the isolation if it began at attempt one, and otherwise gives voice up |
| VoiceAttempts.RetirementEnds | runtime/src/core/approval.ts:1181-1186 | a retirement that is over has given voice up and holds no isolation; another attempt may come exactly if the authority is not cleared and an exhaustion of attempt one is suspended |
| VoiceAttempts.ClearedIsSilent | runtime/src/core/approval.ts:793-809 | after a clear, and after a context that could not be confirmed, no run begins an attempt |
| VoiceHost.ApprovalVoice.ExhaustResumed | runtime/src/core/approval.ts:949-962 | it begins attempt two exactly if it began at attempt one and its record, not any later one, is still current; no clarification can have been queued meanwhile, and no other record changes |
| VoiceHost.ApprovalVoice.ContextSettled | runtime/src/core/approval.ts:608-643 | on the record that waited for its context, which may not be current any more: its first attempt begins exactly if it is current and the context was confirmed, as attempt two if the user spoke first; a current record whose context was not confirmed is cleared |
| VoiceHost.ApprovalVoice.NoteOnsetBeforeContext | runtime/src/core/approval.ts:706-709 | speech before the context is ready counts for the current record only, whose first attempt will then be attempt two alone |
| VoiceHost.ApprovalVoice.RotateAttempt | runtime/src/core/approval.ts:919-930 | the record that holds the isolation goes from attempt one to attempt two exactly if it is current, which makes one and two the attempts it ever had; no other record changes |
| VoiceHost.ApprovalVoice.ExhaustAttempt | runtime/src/core/approval.ts:933-948 | up to the wait: the isolation is gone, the call remembers the attempt it began at, and the record may begin another attempt if and only if that was attempt one |
| VoiceHost.ApprovalVoice.RetireVoice | runtime/src/core/approval.ts:1168-1180 | up to the wait nothing is given up: no record has been given up by it, and which of them may begin an attempt is as before |
| VoiceHost.ApprovalVoice.RetireResumed | runtime/src/core/approval.ts:1181-1186 | the record that was being retired is given up, and whichever record holds the isolation by now loses it |
| VoiceHost.ApprovalVoice.ClearVoiceState | runtime/src/core/approval.ts:793-809 | the current record is given up together with the isolation it may hold; after it no record at all can begin an attempt any more, in any run |
| VoiceHost.ApprovalVoice.Arm | runtime/src/core/approval.ts:544-581 | a new approval becomes the current record, the one before it is cleared, and none holds the isolation: of all records only the new one may ever begin an attempt |
| NearSilence.MeasureRun | clients/desktop/native/playback_queue.swift:79-100 | the loop's trailing and longest run and its full-frame flag are exact, and `leading` equals the longest run |
| NearSilence.NoRunIsLonger | clients/desktop/native/playback_queue.swift:79-100 | no quiet run is longer than what the specification calls the longest |
| NearSilence.JoinLongest | clients/desktop/native/playback_queue.swift:161-174 | the longest run of a joined stream from the parts' longest runs and the run across the seam |
| NearSilence.PeakIsSandwiched | clients/desktop/native/playback_queue.swift:161-174 | over any frames the carried run is exact and the reported maximum is between the true longest run and twice it |
| NearSilence.PeakCanDouble | clients/desktop/native/playback_queue.swift:88 | frames for which the reported maximum is twice the true longest run |
| NearSilence.PeakStaysExactIff | clients/desktop/native/playback_queue.swift:161-174 | from an exact state a frame leaves the maximum exact if and only if nothing is carried in, or the frame's longest run leads it, or the sum is within the maximum |
| NearSilence.PeakIsExactIff | clients/desktop/native/playback_queue.swift:161-174 | the maximum over all frames is exact if and only if no append that carries a run into a frame whose longest run is not at its start adds up to more than the true longest run |
| NearSilence.CorrectedPeakIsExact | clients/desktop/native/playback_queue.swift:79-100 | with a `leading` that stops at the first loud sample both statistics are exact for the whole stream |
| PlaybackRuns.RenderPlaysPrefix | clients/desktop/native/playback_queue.swift:245-334 | a callback consumes a prefix of the pending audio, leaves the rest, and stops short only for an empty queue or a terminal whose identity it has just played |
| PlaybackRuns.RenderTakesFront | clients/desktop/native/playback_queue.swift:245-334 | samples and terminals form one line of which a callback takes the front: a terminal is popped only when everything queued before it has been played or popped |
| PlaybackRuns.TerminalsWait | clients/desktop/native/playback_queue.swift:254-269 | no terminal is popped in a callback that had consumed samples of its identity |
| PlaybackRuns.RenderedCountsAreExact | clients/desktop/native/playback_queue.swift:254-301 | per identity, what was already counted plus what is consumed is what is counted and reported afterwards |
| PlaybackTables.ClearedPending | clients/desktop/native/playback_queue.swift:187-243 | clearing one identity takes exactly its pending samples and keeps the order of the others |
| PlaybackTables.DriveKeeps | clients/desktop/native/playback_queue.swift:254-301 | through a callback the tables agree with their order lists, without duplicates, at most 32 long, and no telemetry count exceeds the samples still queued |
| PlaybackTables.TrimKeepsNewest | clients/desktop/native/playback_queue.swift:158-160 | a bounded table keeps its newest 32 keys and drops the older ones |
| PlaybackSignals.RenderReports | clients/desktop/native/playback_queue.swift:321-331 | a generation is done in a callback if and only if the callback takes its terminal and its counters are known: each once, in the order of the terminals, with the count its terminal was popped with; exactly these leave the counters |
| PlaybackSignals.RenderAnnounces | clients/desktop/native/playback_queue.swift:269-273 | a start is signalled for exactly the generations that play in a callback and were not started before, or had ended earlier in it: each once, in the order in which they begin to play |
| PlaybackCounts.TablesTellHistory | clients/desktop/native/playback_queue.swift:146-334 | over every run the tables tell the history: a generation is started, with its running count, exactly as the samples taken of it since its last end or clear say; an end is remembered with its count until new audio, a clear, or 32 later ends |
| PlaybackCounts.ClearReturns | clients/desktop/native/playback_queue.swift:232-241 | after any run a clear returns the larger of the samples taken since the last end and those the last end counted; only an end that 32 later ones have displaced counts for nothing |
| PlaybackCounts.QueuedIsExact | clients/desktop/native/playback_queue.swift:161-173 | after any run the queued-samples counter of a generation is the number of its samples that are queued, unless its counters were dropped while it had audio queued and it has had audio queued ever since |
| PlaybackCounts.ClearLeavesNothing | clients/desktop/native/playback_queue.swift:208-242 | a cleared generation is in no table, order or entry any more; every other one keeps what it had, and of the line of samples and terminals the rest keeps its order |
| PlaybackWorld.StepPending | clients/desktop/native/playback_queue.swift:146-334 | appended minus cleared audio, in order, is always what was played followed by what is pending |
| PlaybackWorld.StepConserves | clients/desktop/native/playback_queue.swift:146-334 | each operation conserves every sample: pending plus appended is played plus cleared plus pending |
| PlaybackWorld.StepKeepsWorld | clients/desktop/native/playback_queue.swift:146-334 | over any interleaving of append, terminal, clear, mute, telemetry and render: order, conservation, table agreement, bounded counts and the near-silence sandwich per telemetry window |
| PlaybackQueues.PlaybackQueue.AppendAudio | clients/desktop/native/playback_queue.swift:146-179 | audio goes behind every sample and terminal queued; its generation is live, the newest of the bounded table, and no longer one that ended; an empty append changes nothing |
| PlaybackQueues.PlaybackQueue.FinishWith | clients/desktop/native/playback_queue.swift:181-185 | a terminal goes behind every sample and terminal queued, so by `RenderTakesFront` it is popped only after them |
| PlaybackQueues.PlaybackQueue.Clear | clients/desktop/native/playback_queue.swift:187-243 | one identity or everything leaves every table and the line, nothing of another identity and no muting changes, and the samples rendered for it are returned (`ClearReturns`) |
| PlaybackQueues.PlaybackQueue.TakeTelemetrySnapshots | clients/desktop/native/playback_queue.swift:128-144 | exactly one snapshot per live generation, in the order of their last appends, with its queued samples and the maximum of the window that ends; every window starts anew, empty, and nothing else changes |
| PlaybackRuns.MutingOnlySilences | clients/desktop/native/playback_queue.swift:273-284 | muting only silences: a muted callback plays, starts, counts and finishes exactly what it would aloud |
| PlaybackQueues.PlaybackQueue.RenderInto | clients/desktop/native/playback_queue.swift:245-334 | the output buffer holds the consumed samples, or silence when muted, then zeros; a start is signalled for what begins to play; a generation is reported done, and its counters given up, if and only if its terminal is among what the callback took and its counters were known; the loop ends |
| EventQueues.EventQueue.Push | runtime/src/core/events.ts:172-183 | a push gives the next sequence number and adds exactly that event, with the heap kept |
| EventQueues.EventQueue.PopReady | runtime/src/core/events.ts:185-194 | a pop gives, exactly if it is due, the event that precedes every other one queued: by time, at one time a deadline after everything else, and otherwise the one posted first; it removes only that one |
| EventQueues.EventQueue.RemoveWhere | runtime/src/core/events.ts:205-213 | exactly the matching events go, with their multiplicities, and the heap is rebuilt |
| EventQueues.EventQueue.SiftUp | runtime/src/core/events.ts:215-223 | rising permutes the array and restores the whole heap |
| EventQueues.EventQueue.SiftDown | runtime/src/core/events.ts:225-247 | sinking permutes the array and makes a heap from the given index on |
| EventQueues.RootIsLeast | runtime/src/core/events.ts:249-253 | in a heap nothing is before the root |
| EventQueues.LeastPrecedes | runtime/src/core/events.ts:249-253 | the least entry by time, rank and sequence number is the event that precedes every other one, told without ranks |
| EventQueues.KeptFilters | runtime/src/core/events.ts:205-213 | the filtered array holds each kept event as often as before and no other |
| EventQueues.DrainIsSorted | runtime/src/core/events.ts:185-253 | a drain is in event order |
| EventQueues.PopAllReady | runtime/src/core/events.ts:185-194 | popping until nothing is due gives exactly what is due, in event order, and leaves everything later |
| EventQueues.DrainIsDetermined | runtime/src/core/events.ts:185-253 | the events alone determine the drain, whatever shape the heap had |
| VirtualClocks.ReadyIsExact | runtime/src/core/clock.ts:67-83 | in order of due time the waiters due by a time are exactly those at the front |
| VirtualClocks.InsertKeepsOrder | runtime/src/core/clock.ts:117-127 | a new waiter goes behind everything due no later, infinite dues last |
| VirtualClocks.VirtualClock.Sleep | runtime/src/core/clock.ts:30-56 | a negative duration is refused, an aborted signal rejects at once, otherwise exactly one waiter joins in order; it is due at any time exactly if its duration has passed by then, and never if that is infinite |
| VirtualClocks.VirtualClock.AdvanceTo | runtime/src/core/clock.ts:67-90 | going back is refused; otherwise exactly the waiters due are resolved, in order, and the rest stay; going to infinity resolves everyone in order, also those parked forever |
| VirtualClocks.VirtualClock.OnAbort | runtime/src/core/clock.ts:44-56 | an abort rejects its sleep if it still waits, and changes nothing otherwise |
| VirtualClocks.VirtualClock.NextTimerIsLeast | runtime/src/core/clock.ts:62-65 | the next timer is the least finite pending due |
| FixtureReplay.FixtureHost.DrainReady | runtime/eval/fixture-host.ts:331-342 | it returns with nothing due at or before now in queue or scheduler |
| FixtureReplay.FixtureModelScheduler.Schedule | runtime/eval/fixture-host.ts:348-376 | a completion joins the others in order of due time and sequence |
| FixtureReplay.FixtureHost.MaterializeDue | runtime/eval/fixture-host.ts:378-387 | every due completion has become an event of its due time and been answered, and none is left |
| FixtureReplay.FixtureHost.PopNow | runtime/eval/fixture-host.ts:331-342 | a popped event's timestamp is the clock's time; if none is popped everything queued is later |
| FixtureReplay.FixtureHost.AdvanceBefore | runtime/eval/fixture-host.ts:299-312 | everything before the target is handled and nothing before it is left; only a target in the past fails |
| FixtureReplay.FixtureHost.AdvanceAndDrain | runtime/eval/fixture-host.ts:314-329 | the clock stands at the target and everything due is handled |
| FixtureReplay.FixtureHost.NextIsLeast | runtime/eval/fixture-host.ts:398-402 | nothing queued or scheduled comes before the next timestamp, which is never in the past |
| FixtureReplay.FixtureHost.Replay | runtime/eval/fixture-host.ts:134-270 | the replay succeeds exactly if no stimulus points backwards; then every stimulus was played, in order; every post of a stimulus, and of each answer the script gave, was applied with its kind, payload and delay when the clock read its time, once, and nothing else was applied but completions, each fired at its due time; every schedule of theirs was scheduled and has fired |
| FixtureReplay.EarlierStimulusIsRefused | runtime/eval/fixture-host.ts:135-264 | stimuli in order of time whose `advance_clock` goes beyond the next stimulus: the replay is refused |
| FixtureReplay.FixtureHost.ReplayGroup | runtime/eval/fixture-host.ts:135-264 | one group of equal times: each of its stimuli is played, in order, then its `advance_clock` stimuli run, in agreement with the timeline |
| FixtureReplay.FixtureHost.Finish | runtime/eval/fixture-host.ts:267-271 | the final loop ends with nothing queued or scheduled: everything posted was applied and everything scheduled fired |
| FixtureReplay.FixtureHost.Perform | runtime/eval/fixture-host.ts:193-256 | one call of the reducer posts exactly one event per post, with its kind, payload and delayed time, and schedules exactly one completion per schedule |
| FixtureReplay.FixtureHost.PlayOne | runtime/eval/fixture-host.ts:144-258 | a stimulus makes its own call at the time the clock reads, and returns with everything due by then handled; an `advance_clock` stimulus makes none |
| FixtureReplay.FixtureHost.Fire | runtime/eval/fixture-host.ts:378-387 | the first completion becomes one event of its due time and leaves the list; it then has to be answered |
| FixtureReplay.FixtureHost.Reply | runtime/eval/fixture-host.ts:102-128 | what has just happened is answered with the next reaction of the script, which is used up, at the time of what it answers |
| ReplayTrace.HandleKeeps | runtime/eval/fixture-host.ts:331-342 | applying an event that is due keeps the log on time and posted as applied plus queued, and the event has to be answered |
| ReplayTrace.ActIsDone | runtime/eval/fixture-host.ts:193-256 | once all that was posted is applied, each post of a stimulus or an answer is in the log with its kind, payload and time, and each of its schedules has been scheduled |
| ReplayTrace.NothingLeft | runtime/eval/fixture-host.ts:267-271 | with nothing queued or pending, all that was posted was applied once and all that was scheduled fired once, for every stimulus played and every answer given |
| OutboundRuns.StepKeeps | runtime/src/desktop.ts:646-722 | every step keeps: sends in acceptance order, marked settled exactly once decided, everything older decided, at most 128 unsettled, nothing waiting at rest; and no settlement changes |
| OutboundRuns.SettledOnce | runtime/src/desktop.ts:702-708 | over every run a settlement stands, no send is forgotten, and frames already out stay first |
| OutboundRuns.RestOwesNothing | runtime/src/desktop.ts:675-700 | with no frame in flight every send ever accepted has been settled |
| OutboundRuns.FramesInOrder | runtime/src/desktop.ts:675-700 | frames go out in acceptance order, unsettled, to the socket that is active and authenticated at that moment |
| OutboundRuns.WrittenOnlyAfterProof | runtime/src/desktop.ts:572-580 | over every run each frame goes to a client that authenticated after it was accepted and has been the active one from then on |
| OutboundRuns.AuthenticatedProved | runtime/src/desktop.ts:646-658 | over every run, whoever is held for authenticated is the active client and has authenticated since it was accepted: a lost connection takes its authentication along |
| OutboundRuns.NothingAfterStop | runtime/src/desktop.ts:435-440 | from the step that stops the server on no frame is written and no client accepted in any run |
| OutboundMeaning.EnqueueMeans | runtime/src/desktop.ts:664-673 | below 128 unsettled sends a send is accepted, under a new identity: it waits behind a frame in flight; else it goes out at once to an authenticated client or is settled as unavailable; nothing else changes |
| OutboundMeaning.DisconnectMeans | runtime/src/desktop.ts:646-658 | the loss of the active socket leaves no client and no authentication, settles exactly its sends where they stand, as unavailable if nobody settled them before, and changes nothing else; any other loss changes nothing |
| OutboundMeaning.DoneMeans | runtime/src/desktop.ts:687-699 | after a write the first waiting send that may go out is in flight, and exactly those behind it wait; a failed write first gives its socket and its authentication up |
| OutboundRuns.DrainSendsFirst | runtime/src/desktop.ts:679-688 | a drain hands over exactly the first send it may and leaves exactly those behind it |
| OutboundRuns.RejectKeeps | runtime/src/desktop.ts:710-715 | a lost socket settles exactly its own sends, where they stand in the array |
| OutboundRuns.DoneKeeps | runtime/src/desktop.ts:687-699 | the end of a write decides its send unless the loss of its socket did so before |
| OutboundWriter.DesktopWriter.EnqueueSend | runtime/src/desktop.ts:664-673 | a send is accepted exactly below 128 unsettled ones and then waits, goes out or is refused (`EnqueueMeans`); the counter is the number of unsettled sends |
| OutboundWriter.DesktopWriter.DrainSends | runtime/src/desktop.ts:675-700 | the loop up to the next await does what the state machine's drain does |
| OutboundWriter.DesktopWriter.FrameDone | runtime/src/desktop.ts:687-699 | the loop after an await goes on with the first send that may go out (`DoneMeans`), also when the socket has failed |
| OutboundWriter.DesktopWriter.NotifyDisconnected | runtime/src/desktop.ts:646-658 | only the active socket's loss changes the writer: it takes its authentication along and settles its sends (`DisconnectMeans`) |
| OutboundWriter.DesktopWriter.SettleCurrent | runtime/src/desktop.ts:702-708 | settling an unsettled send decides it and lowers the count; settling it again does nothing |
| OutboundWriter.DesktopWriter.RejectSocketSends | runtime/src/desktop.ts:710-715 | the loop settles the socket's sends, in flight and waiting, as the state machine says |
| OutboundWriter.DesktopWriter.CloseFailedSocket | runtime/src/desktop.ts:717-722 | a failed socket is treated as lost; the send in flight stays settled |
| OutboundWriter.DesktopWriter.SendText | runtime/src/desktop.ts:330-334 | a send is taken exactly from a client that can be sent to, below the limit |
| OutboundWriter.DesktopWriter.AcceptSocket | runtime/src/desktop.ts:534-540 | a connection is accepted exactly if none is active and the server is not stopping; it cannot be sent to before it has authenticated |
| OutboundWriter.DesktopWriter.AuthenticateSocket | runtime/src/desktop.ts:572-580 | only the active socket can authenticate |
| OutboundWriter.DesktopWriter.Close | runtime/src/desktop.ts:435-440 | a stopping server can send to nobody, settles nothing by itself and keeps the writer steady |
| CameraRegistry.StepKeeps | runtime/src/desktop.ts:344-397 | every step keeps: pending requests belong to the active socket and generation, at most eight, unsettled exactly while they wait, and the late table is the newest 32 timed-out requests |
| CameraRegistry.EndsOnce | runtime/src/desktop.ts:763-774 | over every run a request that has ended keeps its end: reply, error, timeout, failed send and disconnection settle it once |
| CameraRegistry.EndsExactly | runtime/src/desktop.ts:724-774 | every step ends exactly the waiting requests it should, with the right end, and no other: an answer ends a request only if it comes from its owner and is of its kind |
| CameraRegistry.WrongOwnerOnlyLate | runtime/src/desktop.ts:743-761 | no message that is looked at finds a pending request of another owner; the wrong-owner verdict arises exactly for another connection's late request |
| CameraRegistry.VerdictMeans | runtime/src/desktop.ts:743-761 | of a message that is looked at: owned means its request is pending, late that its own request timed out, wrong owner that another connection's did |
| CameraRegistry.CaptureMeans | runtime/src/desktop.ts:344-370 | a capture is made exactly for an authenticated client of a serving server that owes fewer than eight: one new request of this connection waits, and nothing else changes |
| CameraRegistry.PermissionMeans | runtime/src/desktop.ts:377-397 | so is a permission request, exactly if none is pending |
| CameraRegistry.AskedOnlyAfterProof | runtime/src/desktop.ts:344-397 | over every run a request is only made of a client that authenticated after it was accepted and has been the active one from then on |
| CameraRegistry.PendingIsNotLate | runtime/src/desktop.ts:817-827 | pending and late ids are disjoint; the late table holds exactly the newest timed-out requests, at most 32 |
| CameraRegistry.RememberKeeps | runtime/src/desktop.ts:817-827 | remembering a request keeps the table's keys equal to its order list, without duplicates |
| CameraRegistry.DisconnectKeeps | runtime/src/desktop.ts:646-658 | a disconnection settles its requests and keeps the invariant, also for a socket that is no longer active |
| CameraServer.DesktopCamera.CaptureCamera | runtime/src/desktop.ts:344-370 | a capture is made exactly when the client can be sent to and fewer than eight are pending |
| CameraServer.DesktopCamera.TimerFires | runtime/src/desktop.ts:359-364 | a timer moves a waiting request to the late table and does nothing to any other |
| CameraServer.DesktopCamera.RejectSocketCameraCaptures | runtime/src/desktop.ts:776-783 | in whatever order the table lists them, exactly the socket's requests are rejected |
| CameraServer.DesktopCamera.OwnedCameraCapture | runtime/src/desktop.ts:743-761 | of a message that is looked at the verdict is owned exactly for a pending request, late or wrong owner exactly for one of the newest requests that timed out, by whose it was, and unsolicited otherwise |
| CameraServer.DesktopCamera.AcceptSocket | runtime/src/desktop.ts:534-540 | a connection is accepted exactly if none is active and the server is not stopping; it starts with nothing pending, and no answer that an earlier connection still owes is taken from it |
| CameraServer.DesktopCamera.RequestCameraPermission | runtime/src/desktop.ts:377-397 | a permission request is made exactly when the client can be sent to and none is pending |
| CameraServer.DesktopCamera.RequestNotSent | runtime/src/desktop.ts:365-368 | a request whose frame could not be sent is rejected if it still waits |
| CameraServer.DesktopCamera.ReceiveCameraAnswer | runtime/src/desktop.ts:724-741 | an answer settles its own pending capture; every other answer changes nothing and gets its verdict |
| CameraServer.DesktopCamera.ReceiveCameraPermission | runtime/src/desktop.ts:785-802 | a status settles the pending permission request of its owner; every other one changes nothing and gets its verdict |
| CameraServer.DesktopCamera.RememberLateCameraId | runtime/src/desktop.ts:817-827 | the loop drops the oldest late request once there are more than 32 |
| CameraServer.DesktopCamera.NotifyDisconnected | runtime/src/desktop.ts:646-651 | the socket's requests are rejected even if it is not the active one |
| LaunchFence.StepKeeps | runtime/src/core/causal-runtime.ts:232-260 | every interleaving of admit, cancel, clear, shutdown, start and binding keeps: checks, user turns and capabilities only of this conversation and before the launch check; dispatches proper; cancelled work doomed |
| LaunchFence.AdmitMeans | runtime/src/core/causal-runtime.ts:306-326 | exactly if the runtime is ready, open and not clearing a new delegate is owned in the present epoch: it can be cancelled if and only if it was given a check, it is a user turn if and only if it was one, it waits for no binding and carries no capability; nothing of another delegate changes |
| LaunchFence.AdmitTaskMeans | runtime/src/core/causal-runtime.ts:328-346 | a task grant always brings a check and a binding |
| LaunchFence.AdmitConfirmedMeans | runtime/src/core/causal-runtime.ts:360-394 | a confirmation, once per capability, always brings a check, carries exactly that capability, and waits for a binding if and only if there is a grant |
| LaunchFence.ClearsOnce | runtime/src/core/causal-runtime.ts:232-260 | a conversation is cleared once until that has settled and never after a shutdown; admissions are closed meanwhile and open again afterwards, in the next epoch |
| LaunchFence.LaunchIsProper | runtime/src/core/causal-runtime.ts:572-611 | the launch check lets through only work of this epoch that was not cancelled, once, with its own capability |
| LaunchFence.LaunchMeans | runtime/src/core/causal-runtime.ts:572-611 | from the state before its launch check to the one after it the task and everything it was to be launched with are gone, nothing of another task is, and it was dispatched if and only if nobody cancelled it, it is still wanted if anyone is to be asked, and its conversation goes on in a serving runtime; the dispatch carries a capability no other one had |
| LaunchFence.StartMeans | runtime/src/core/causal-runtime.ts:648-660 | a task's turn goes through the launch check, or nothing is dispatched and nothing leaves the tables |
| LaunchFence.BoundMeans | runtime/src/core/causal-runtime.ts:568-571 | so does the end of its binding |
| LaunchFence.CancelledNeverDispatched | runtime/src/core/causal-runtime.ts:353-357 | a cancellation that returned true means no dispatch of that delegate in any continuation, also across a clear |
| LaunchFence.ClearedNeverDispatched | runtime/src/core/causal-runtime.ts:232-260 | after a clear nothing admitted before it is dispatched, and after a shutdown nothing is |
| LaunchFence.FenceHolds | runtime/src/core/causal-runtime.ts:232-260 | after a clear, also once it has settled, and after a shutdown no task there is can be launched any more |
| LaunchFence.CapabilityOnce | runtime/src/core/causal-runtime.ts:608-611 | no two dispatches carry one capability, and it is gone from the table |
| LaunchFence.CheckedLeavesNothing | runtime/src/core/causal-runtime.ts:574-610 | on every path through the launch check the check, the user turn, the capability and the task are gone |
| LaunchFence.EndsLeavingIff | runtime/src/core/causal-runtime.ts:568-611 | a task that ends leaves check, user turn or capability in the tables if and only if it had one and the step was not its launch check |
| LaunchFence.FailedBindingLeavesCapability | runtime/src/core/causal-runtime.ts:570-571 | a run in which a failed binding leaves check and capability behind |
| LaunchFence.ShutdownLeavesCapability | runtime/src/core/causal-runtime.ts:656 | a run in which a shutdown before the task's turn leaves check and capability behind |
| LaunchFence.LeftUntilClear | runtime/src/core/causal-runtime.ts:232-260 | what was left behind goes with the next clear, or with the end of the shutdown |
| LaunchRuntime.CausalRuntime.RunTask | runtime/src/core/causal-runtime.ts:572-611 | the adapter is called exactly if the task is due, though the check looks only at what a clear has emptied and at the null a cancellation has left; afterwards the task and its tables are gone, and nothing of another task is |
| LaunchRuntime.CausalRuntime.CancelPendingDispatch | runtime/src/core/causal-runtime.ts:353-357 | it returns true exactly if a check was there, which it revokes |
| LaunchRuntime.CausalRuntime.DispatchConfirmedExternal | runtime/src/core/causal-runtime.ts:360-394 | a confirmed admission happens exactly if open, not clearing and the capability is new; what it brings (`AdmitConfirmedMeans`) |
| LaunchRuntime.CausalRuntime.DispatchExternal | runtime/src/core/causal-runtime.ts:306-326 | an admission happens exactly if ready, open and not clearing, with exactly the user turn and the check it was given (`AdmitMeans`) |
| LaunchRuntime.CausalRuntime.DispatchTaskExternal | runtime/src/core/causal-runtime.ts:328-346 | a task admission always brings a check and a binding (`AdmitTaskMeans`) |
| LaunchRuntime.CausalRuntime.ClearConversation | runtime/src/core/causal-runtime.ts:232-260 | a clear starts a new epoch and empties checks, user turns and capabilities, once until it has settled; after it no task there is can be launched, also when it has settled |
| LaunchRuntime.CausalRuntime.Shutdown | runtime/src/core/causal-runtime.ts:489-499 | serving that ends aborts every owned task: none of them can be launched any more |
| LaunchRuntime.CausalRuntime.TasksStopped | runtime/src/core/causal-runtime.ts:499-502 | at the end of a shutdown nothing that any task has left is in the tables |
| LaunchRuntime.CausalRuntime.TaskTurn | runtime/src/core/causal-runtime.ts:648-660 | a task's turn goes through the launch check exactly if it is served, not aborted and without a binding; otherwise nothing is dispatched and nothing leaves the tables |
| LaunchRuntime.CausalRuntime.BindingSettled | runtime/src/core/causal-runtime.ts:570-571 | a written binding leads through the launch check; a failed one ends the task, dispatches nothing and leaves everything in the tables |
| MailPaging.Allocate | clients/desktop/native/macos_mail.swift:79-87 | limits are served in order, sum to the lesser of 500 and the total, and the capped flag holds exactly if the total exceeds 500 |
| MailPaging.Scan | clients/desktop/native/macos_mail.swift:51-115 | a page is the next stretch of the window's messages and the rest lies ahead of its cursor; a page that ran a round advances the cursor strictly; it passes at most 20 messages, holds at most eight, below the size limit and none with more than 200 recipients; it stops early only when it is full, has passed 20 messages, is over time, or is cut by a timeout behind a message it holds; it fails only when the 28-second watchdog strikes, when the last round's request timed out or broke, or when the next few messages are too large for a page or one has more than 200 recipients; a page is given only if the watchdog struck in none of its rounds |
| MailPaging.Turn | clients/desktop/native/macos_mail.swift:95-112 | one round passes a used-up mailbox; otherwise it fails with the request for ids if one is needed and not answered, cuts the page before a message that timed out if the page holds anything, fails with any other message that did not come, and else skips or takes the message at the offset unless the page would be too large or it has more than 200 recipients |
| MailPaging.EndPage | clients/desktop/native/macos_mail.swift:113-115 | a mailbox that is used up is passed, and the page is complete exactly if none is left |
| MailPaging.Request | clients/desktop/native/macos_mail.swift:97-104 | ids are asked for exactly if none are at hand, every id batch is in range, and the message fetched is the one at the offset |
| MailPaging.PagesMakeOneScan | clients/desktop/native/macos_mail.swift:88-115 | pages read one after the other, including those cut by a timeout, and what lies ahead of the last are what one scan gives |
| MailPaging.CompleteScan | clients/desktop/native/macos_mail.swift:113-115 | once a page is the last, all messages of the window were given, each once and in order |
| MailPaging.PagesEnd | clients/desktop/native/macos_mail.swift:95-115 | pages that advance are no more than the messages and mailboxes there are |
| MediaStores.KeptIsLongest | runtime/src/core/media-store.ts:82-88 | evicting oldest-first keeps the longest stretch of newest entries that fits |
| MediaStores.UseKeepsRecent | runtime/src/core/media-store.ts:95-101 | moving a read entry back keeps the entries the most recently used ones, in order of use |
| MediaStores.InsertKeepsRecent | runtime/src/core/media-store.ts:89-91 | so does adding a new entry |
| MediaStores.MediaStore.Put | runtime/src/core/media-store.ts:58-92 | the errors exactly as guarded, in order; otherwise the longest fitting recency suffix, then the new entry under a fresh ref; the byte total is exact and within the bound |
| MediaStores.MediaStore.Evict | runtime/src/core/media-store.ts:82-88 | the eviction loop leaves exactly what the specification keeps, with the byte total exact, and ends |
| MediaStores.NewStore | runtime/src/core/media-store.ts:43-50 | a bound that is not positive is refused |
| MediaStores.MediaStore.Get | runtime/src/core/media-store.ts:95-101 | a read returns the entry of the ref and only moves it to the back |
| MediaStores.MediaStore.NewRef | runtime/src/core/media-store.ts:121-127 | the first of at most sixteen drawn ids that is not taken |
| MediaStores.MediaStore.Peek | runtime/src/core/media-store.ts:104-106 | a peek returns the entry of the ref and changes nothing |
| DecodeProtocol.StepKeeps | serving/whisper_server.py:84-165 | every interleaving keeps, per connection: no lost wake-up, snapshots growing prefixes of the audio, one final result that covers everything, and at most one connection admitted |
| DecodeProtocol.OneRecognition | serving/whisper_server.py:89-92 | no two workers are alive at once, and none without the server being taken |
| DecodeProtocol.CleanCloseHasFinal | serving/whisper_server.py:149-150 | a normal close is the last message and comes right after the only final result, which covers all the audio |
| DecodeProtocol.ServedToTheEnd | serving/whisper_server.py:123-165 | a connection that ended without any failure sent its one final result, over all the audio it received, and then the close |
| DecodeProtocol.SnapshotsGrow | serving/whisper_server.py:109-110 | each decode saw a prefix of what the next one saw and of what was received |
| DecodeProtocol.WorkerGoesOn | serving/whisper_server.py:102-120 | once all is received an unstopped worker is never waiting in vain, and each of its steps brings it closer to its end |
| DecodeProtocol.FinalComes | serving/whisper_server.py:102-120 | a worker left alone after the finish sends the final result, whatever the recognizer says |
| DecodeProtocol.ReleaseKeeps | serving/whisper_server.py:159-165 | admission is given back only when the worker has ended, and to no one else's harm |
| DecodeTalk.EveryoneIsTold | serving/whisper_server.py:100-165 | over every run each client gets its greeting first and once, no result without it, and no partial result that is empty or repeats the result before it |
| DecodeTalk.ConnectMeans | serving/whisper_server.py:84-92 | a client is turned away, and told so, exactly while another one is being served; otherwise it is admitted |
| DecodeTalk.ReceiveMeans | serving/whisper_server.py:126-148 | a message is taken exactly if it has an even number of bytes, not none, at most 64000, and fits into 65 seconds; a finish counts exactly if there is audio; everything else is reported as an error, and a disconnection stops the worker; a worker that crashed is noticed first |
| DecodeTalk.RestsUnlessFinished | serving/whisper_server.py:100-120 | between two recognitions the worker sleeps exactly as long as there has been no finish |
| DecodeStream.AudioStream.DecodeLoop | serving/whisper_server.py:100-120 | the decode loop ends however the receiver's turns fall between its awaits: a worker that returned was stopped or has just sent the final result over all the audio, one that raised has been recorded as failed, one that still waits has not been told of the finish |
| DecodeStream.AudioStream.ReceiveMessage | serving/whisper_server.py:126-148 | one round of the receive loop is the step that `ReceiveMeans` is about: it leads to waiting for the worker exactly after a finish and only ever brings the end of the decode loop closer |
| ContextWindow.CompileChannel | runtime/src/core/context-view.ts:68-92 | the shown rows are the longest suffix within the row and character limits: at most forty, beyond the last five only rows that are not summarised and no more than there are; omitted plus shown is everything, and for growing sequence numbers shown pending rows plus those counted as omitted are all pending rows |
| ContextWindow.CountedOrShown | runtime/src/core/context-view.ts:81-83 | no pending row disappears uncounted and none is counted twice |
| ContextWindow.LastArePending | runtime/src/core/context-view.ts:68-79 | where sequence numbers grow, as many rows from the end as are pending are the pending ones |
| ContextWindow.AllPendingShown | runtime/src/core/context-view.ts:71-81 | with at most forty rows pending and few enough characters every pending row is shown |

## Left out

- Objects compared by identity (approval entries, pending sends, camera requests, the voice authority) are values with a serial number or an id; aliasing of them is not modelled.
- Promises are settlements in a log; what a caller does when its promise settles is an environment step.
- Observers, diagnostics and abort listeners of the approval controller are taken not to call back into it.
- `ConfirmationTurnIsolation` is present or absent; reservations, response binding, quarantine and refusals of `ApprovalHost` are steps of the environment.
- The core runtime behind the replay is a script that answers each fired completion and each applied event with posts and schedules at times no earlier than now; behind the launch fence it is an admission that accepts or refuses.
- A stimulus other than `advance_clock` is what it posts and schedules at its time; sorting the stimuli and the snapshot comparison at the end are not modelled.
- Events with a timestamp that is not finite, and record parsing that fails after the sequence number was taken, are not modelled; times are reals, and the clock's also infinity, but not minus infinity or a difference of infinities.
- The real-time clock, wall-clock durations and timeouts as numbers are replaced by steps that may happen at any time.
- Underrun counters, the maximum of queued samples, callback timing and `activeRenderIdentity` of the playback queue.
- The correction of `queuedSamples` in a clear that deletes the counters right after.
- Frame validation, WebSocket, Apple events, CoreAudio and model inference: their outcomes are parameters.
- The contents of camera frames and permission status, and the debug sockets of the desktop server.
- Task grants, instruction receipts, activity events and memory flushing of the launch path; a grant shows only as a binding that succeeds or fails.
- MailPaging.Scan: the codes for a reply that is broken, incomplete or of the wrong shape are one failure.
- The mailbox scan's fingerprints and cursor parsing; the snapshot is taken to stay unchanged between pages, as equal fingerprints are meant to ensure, and an id to stand for one message of a mailbox.
- The content digest of a stored image, which is a function of its payload.
- The recognizer and its cache: any text or an exception.
- Cancellation of a decoder connection's coroutine from outside, by the server's own end; the wait for the worker after it is the shielded one that is modelled.
- The steps of a decoder connection other than receiving (start, join, close, error, unwinding) have no class of their own; they are steps of DecodeProtocol.
- Suggestions, probes, updates and in-flight work of the context view.
- Token checks, endpoint checks, schemas and configuration.
