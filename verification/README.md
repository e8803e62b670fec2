# Direct mode of the ACP proxy: model and proofs

The proxy drives one `copilot-language-server` child over the Agent Client Protocol
and offers it to one consumer as a service of at-most-once operations: create a
session, prompt it, cancel a prompt, retire a session. This project models four
parts of it and proves what they promise, over every input and every run.

1. **The service** (`direct_service.py`, `direct_state.py`, request shapes of
   `direct_protocol.py`). `ServiceModel` is a transition system: one event is one
   stretch of code between two awaits, and the child, the timers, the transport
   and the order in which tasks run are chosen by the environment.
   `ServiceInvariant` states what holds of every reachable state, `ServiceLocal`,
   `ServiceEvents`, `ServiceLoss`, `ServiceAdmission` and `ServiceRuns` prove it,
   `ServiceAftermath` proves what happens to the records after a loss,
   `ServiceSettlements` what every settlement stands for, and `ServiceTheorems`,
   `ServiceAnswers` and `ServiceEffects` draw the promises from them. `DirectObjects`
   and `DirectService` hold the same code as objects that are updated in place
   (ledger, records, sessions, generation, service), each method proved to do to
   the objects what its event does to the value, so that `Drive` carries every
   theorem over to the objects.
2. **The reader** (`transport.py`, direct mode of `client.py`): pending requests and
   their futures, session identities, and the update epoch of each prompt.
   `ReaderModel` is its transition system, `ReaderLink`, `ReaderSessions`, `ReaderClaims`,
   `ReaderEpochs`, `ReaderFrames`, `ReaderBudgets` and `ReaderEffects` prove its promises,
   and `ReaderObjects` is the transport and the client as objects, with the same refinement.
3. **The evidence collector** (`Collector`, on `Utf8`): the loop that bounds what a
   prompt retains, and the longest prefix of a text that fits a number of bytes
   (section 3 of RFC 3629). `PromptEvidence` puts reader, consumer and collector
   together: what is collected is what was read between request and answer.
4. **Two small parts**: `ModelBinding` (the frozen model-binding strategy), and
   `Versions` with `Discovery` (version parsing and printing, what a probe's output
   means, and the choice of the binary).

Identifiers are opaque and so are numbers here; a digest is injective, and the digest
of a request is the request itself. Texts are sequences of Unicode scalar values.
A state lock is never held across an await, so every section under it belongs to one
event. A task that the loss of the generation cancels takes no more steps but its
`finally` block, and not even that if it had not started.

## Where the code does less than its documents say

- Retirement (`src/acp_proxy/direct_service.py:1051-1064`, `src/acp_proxy/direct_service.py:286-304`;
  `adrs/012-meadow-direct-consumer-protocol.md:166-167` has it reject later work): a session
  retired while its creation is still in flight is made ready by the reply of the child.
  `ServiceTheorems.RetirementIsFinal` proves that retirement is final if and only if the
  creation had settled.
- The report of a cancellation (`src/acp_proxy/direct_service.py:962-985`): it can name its target
  `in_doubt` although the target has settled as cancelled. `ServiceWitness.DoubtReportCanBeWrong`
  is a run that does; `ServiceTheorems.DoubtReportedExactly` proves that a cancellation whose
  grace has ended reports rightly if and only if its target was unsettled, or already in
  doubt, at that moment.
- Binding a created session (`src/acp_proxy/client.py:1328-1344`, `src/acp_proxy/transport.py:275-279`):
  a pending `session/new` whose write raises while it drains takes its claim to a provisional
  identity with it, and a creation that the child answered correctly can then meet the
  mismatch branch (`ReaderClaims.RaisedWriteMismatch`). `ReaderClaims.MismatchExactly` proves
  that it does if and only if identities are still claimed while no creation is open, and that
  only a write that raises with every claim taken leads there; `ReaderClaims.ClaimsExactly`
  tells for every event, by a guard on the state before it, whether claims outnumber the open
  creations afterwards. A raised write that leaves a claim to spare does no harm.

## Model

| member | source | states |
|---|---|---|
| ServiceTheorems.StableInstructionsOnce | src/acp_proxy/direct_service.py:433-468 | In every run at most one prompt of phase initial is dispatched per session, so the child sees the stable instructions of a session at most once, across retries, cancellations, deadlines and overflows. |
| ServiceTheorems.EffectsOnce | src/acp_proxy/direct_service.py:470-491 | In every run an operation ID causes at most one session creation or one prompt dispatch; a prompt cancelled before dispatch causes none; a prompt is only dispatched on a session that has a backend session. |
| ServiceTheorems.OnePromptInFlight | src/acp_proxy/direct_service.py:478-503 | While the generation is not lost, at most one collector is live, although the prompt lock is left on exception paths before the record settles; after the loss every live collector has been cancelled. |
| ServiceTheorems.SpoiledNeverReused | src/acp_proxy/direct_service.py:593-605 | A session whose dispatched prompt ended in anything but completed admits no prompt in any continuation, including the late finally blocks of earlier prompts cancelled before dispatch. |
| ServiceTheorems.RetirementIsFinal | src/acp_proxy/direct_service.py:1024-1073 | After an accepted retirement the session never becomes ready again, in any continuation, if and only if the operation that creates it had settled. |
| ServiceTheorems.CreationReopens | src/acp_proxy/direct_service.py:292-304 | A session whose creation is unsettled, retired or not, has a continuation of at most two events that makes it ready. |
| ServiceTheorems.UnsettledPromptStillValid | src/acp_proxy/direct_service.py:433-468 | Each session of an intact generation has at most one unsettled prompt, and what admission checked about the lifetime of that prompt still holds of the session. |
| ServiceTheorems.ContractsOnlyGrow | src/acp_proxy/direct_service.py:535-542 | Over any continuation a session keeps its backend session, its submission flag and every contract digest of its invocations; its active invocation always has a contract and implies that the instructions were submitted. |
| ServiceTheorems.CompletedContractsKept | src/acp_proxy/direct_service.py:433-468 | Once a prompt has completed, every continuation of the run has, in its session, its contract digest recorded for its invocation (and, for an initial prompt, the instructions marked as submitted); so any two completed prompts of one invocation in a session, openings or deltas, carry the same contract. |
| ServiceTheorems.ReservationsConserved | src/acp_proxy/direct_service.py:607-615 | In every run the reservations are the recorded prompts less the released ones, stay between 0 and the queue bound plus 1, and the ledger and session capacities are kept; so releasing never underflows. |
| ServiceTheorems.WaitingPromptsAreReserved | src/acp_proxy/direct_service.py:392-405 | In an intact generation a prompt that is accepted or queued holds its reservation. |
| ServiceTheorems.TerminalIsFinal | src/acp_proxy/direct_state.py:78-92 | Over any continuation an operation keeps its identity and only climbs accepted, queued, running, cancelling, terminal; once terminal its state, result and error never change, despite the direct writes of the state. |
| ServiceTheorems.CancelReportsForEver | src/acp_proxy/direct_service.py:931-942 | A cancellation that reports any target state but in doubt names the terminal state its target has in every continuation. |
| ServiceTheorems.DoubtReportedExactly | src/acp_proxy/direct_service.py:962-985 | When a cancellation gives up at the end of its grace, then in every continuation that publishes its report the abort was attempted, the report says in doubt, and the target is in doubt if and only if it was unsettled or already in doubt when the grace ended. |
| ServiceTheorems.QuarantineIsOneWay | src/acp_proxy/direct_service.py:193-216 | Once the generation is lost, in every continuation it stays lost, every admission of every kind fails, no operation is recorded and the child is asked for nothing more. |
| ServiceTheorems.QuarantineIsComplete | src/acp_proxy/direct_service.py:1108-1126 | After the loss every operation is terminal unless the task that lost the generation has deferred its settlement. |
| ServiceTheorems.DoubtFollowsQuarantine | src/acp_proxy/direct_service.py:1146-1169 | An operation in doubt for any reason but a mismatched cancellation stop implies that the generation is lost, and for a deferred settlement that the abort of the child was attempted; so does a cancellation that failed, or that reports in doubt a target that is not. |
| ServiceTheorems.DeferredSettleAfterAbort | src/acp_proxy/direct_service.py:1146-1169 | After the loss no record changes in any continuation but those whose settlement was deferred, a cancellation's own among them; each changes only after the abort was attempted, and into exactly the settlement deferred for it. |
| ServiceAftermath.LossFreezes | src/acp_proxy/direct_service.py:1160-1169 | From every lost state, in every continuation, either all records and all that is deferred stand, or the abort was attempted and exactly what was deferred has been published, all of it at once. |
| ServiceTheorems.LossSettlesEverything | src/acp_proxy/direct_service.py:1160-1169 | From every lost state at most two steps, the abort and the publication, settle every operation. |
| ServiceTheorems.AdmissionsRefine | src/acp_proxy/direct_state.py:120-162 | Every admission refines a write-once map from operation IDs to identities: it records a new ID, answers a repetition of the same identity and changes nothing, or refuses and changes nothing at all. |
| ServiceTheorems.AcceptedOnce | src/acp_proxy/direct_state.py:120-162 | Over any run and continuation an operation ID is accepted as new at most once, and any later success answers the same identity. |
| ServiceAnswers.StopIsReported | src/acp_proxy/direct_service.py:508-542 | In every run a prompt reports the stop that its collector returned, as cancelled if that is cancelled and as completed otherwise; a completed prompt reports a stop, and a cancelled one either that or its cancellation before dispatch, in which case it has no collector. |
| ServiceAnswers.SpoiledIsReported | src/acp_proxy/direct_service.py:543-558 | In every run a timeout rests on a collector that returned cancelled, a failure on an overflow that settled as cancelled, a mismatch on a stop other than cancelled, and evidence in doubt on an overflow that did not settle, each with its own code and result. |
| ServiceAnswers.CreationIsReported | src/acp_proxy/direct_service.py:286-304 | In every run the session of a creation has the model and the digest it was requested with; a completed creation reports the backend of its session and the requested model, and nothing else reports a creation. |
| ServiceAnswers.OpenedSessionsAreCreated | src/acp_proxy/direct_service.py:286-304 | In every run each session with a backend has a completed creation that reports that backend and the model of the session. |
| ServiceAnswers.PromptsCarryTheirDigests | src/acp_proxy/direct_service.py:433-468 | In every run the digest of an initial prompt's instructions is that of its request and of its session, and a prompt with an output contract names the digest of that text. |
| ServiceAnswers.UnsettledPromptsFit | src/acp_proxy/direct_service.py:433-468 | While a prompt of an intact generation is unsettled, an initial one finds nothing submitted, an invocation finds its ID unused, and a delta finds its own invocation active under the contract that it names. |
| ServiceAnswers.SessionsAreLost | src/acp_proxy/direct_service.py:1111-1113 | In every run, once the generation is lost every session is lost that was not retired. |
| ServiceAnswers.LayersByPhase | src/acp_proxy/direct_protocol.py:156-186 | A request is valid if and only if it carries exactly the layers of its phase, none of those it needs empty but the instructions. |
| ServiceAnswers.PromptAdmitted | src/acp_proxy/direct_service.py:353-411 | A prompt is admitted as new if and only if pin, limits, capacities and reservations allow it and its session is ready, idle and suits its phase, each check in the fields of request and session. |
| ServiceAnswers.PromptRefused | src/acp_proxy/direct_service.py:353-411 | Each refusal of a prompt is given if and only if its own reason holds and none that is checked before it, and changes nothing. |
| ServiceAnswers.PromptEnters | src/acp_proxy/direct_service.py:397-411 | An admitted prompt is queued if another holds a reservation, takes one, and occupies its session. |
| ServiceAnswers.CreateAdmitted | src/acp_proxy/direct_service.py:218-270 | A creation is admitted as new, answered again or refused, each if and only if its conditions on workspace, model, IDs and capacities hold; a new one adds an accepted record and a session without a backend. |
| ServiceAnswers.CancelAdmitted | src/acp_proxy/direct_service.py:901-946 | A cancellation is admitted as new, answered again or refused, each if and only if its conditions hold; a target not dispatched is cancelled at once and its session freed, a settled one is reported, any other is marked. |
| ServiceAnswers.RetireAdmitted | src/acp_proxy/direct_service.py:1024-1073 | A retirement is admitted as new, answered again or refused, each if and only if its conditions hold; a new one is settled at once and retires its session. |
| ServiceAnswers.StatusAnswered | src/acp_proxy/direct_service.py:1075-1079 | The status query answers the record of its operation under a current pin, and the first reason against it otherwise. |
| ServiceEffects.StopSettles | src/acp_proxy/direct_service.py:508-542 | A stop within the execution timeout: completed if and only if the prompt was not being cancelled and the stop is not cancelled, cancelled if and only if it is, in doubt as a mismatch if and only if it was being cancelled and is not. |
| ServiceEffects.StopLeaves | src/acp_proxy/direct_service.py:531-542 | What the stop leaves in the session: a completed prompt's instructions, contract and active invocation, and readiness; otherwise the same facts as before, and not reusable. |
| ServiceEffects.DeadlineCancels | src/acp_proxy/direct_service.py:770-779 | The deadline marks its prompt as being cancelled, appends one cancellation to what the child is asked, and changes nothing else. |
| ServiceEffects.DeadlineSettles | src/acp_proxy/direct_service.py:788-818 | A stop within the grace of a deadline: timed out if and only if it is cancelled; otherwise the generation is lost and the mismatch deferred. |
| ServiceEffects.DeadlineUnknown | src/acp_proxy/direct_service.py:780-787 | Once a collector cancelled beyond the grace has ended, the generation is lost and the unknown settlement deferred. |
| ServiceEffects.OverflowSettles | src/acp_proxy/direct_service.py:543-571 | An overflow fails its prompt with the retained evidence if and only if it settled as cancelled; otherwise the generation is lost and the evidence deferred in doubt. |
| ServiceEffects.RaisedSettles | src/acp_proxy/direct_service.py:572-592 | An exception loses the generation: with its doubt deferred if the transport lives, and settled as continuity lost if it does not. |
| ServiceEffects.Dispatches | src/acp_proxy/direct_service.py:477-495 | A prompt's task waits for a lock that is taken; otherwise it ends if the prompt was cancelled, and dispatches it once if not. |
| ServiceEffects.ReplyOpens | src/acp_proxy/direct_service.py:286-304 | A reply opens the session with the replied backend and reports backend and model if and only if the model is the session's; otherwise it fails the creation. |
| ServiceEffects.NoReplyFails | src/acp_proxy/direct_service.py:305-351 | A rejected configuration fails the creation; a timeout or an exception loses the generation, with the doubt deferred unless the transport is dead. |
| ServiceEffects.CancelStarts | src/acp_proxy/direct_service.py:948-957 | The cancellation runs and appends one cancellation of its target to what the child is asked. |
| ServiceEffects.TargetReported | src/acp_proxy/direct_service.py:986-989 | Within the grace a cancellation reports its target if and only if that has settled, with its state. |
| ServiceEffects.CancelUnsent | src/acp_proxy/direct_service.py:990-1014 | A cancellation that cannot be sent loses the generation and defers its target's doubt and its own failure. |
| ServiceEffects.CancelGivesUp | src/acp_proxy/direct_service.py:962-985 | At the end of its grace a cancellation cancels the registered collector of its target and waits for it; without one it loses the generation and defers both settlements. |
| ServiceEffects.OwnerLosesAll | src/acp_proxy/direct_service.py:1098-1126 | The loss, one by one: a settled operation stays and any other is in doubt with continuity lost; a retired session stays and any other is lost; the generation is replaced and lock, reservations and calls stay. |
| ServiceEffects.OwnerCancelsAll | src/acp_proxy/direct_service.py:1127-1138 | The loss, one by one: the task of a dispatched or waiting prompt keeps its finally block, any other task ends, and a registered collector that runs is cancelled. |
| ServiceEffects.UnwindingEnds | src/acp_proxy/direct_service.py:593-605 | After the loss a finally block marks its session lost, frees only its own claim, and gives up lock, reservation and registration. |
| ServiceSettlements.ReachedExplained | src/acp_proxy/direct_service.py:218-1169 | In every run every settlement, published or deferred, is right by the request, the session and the collector of its operation. |
| ServiceWitness.DoubtReportCanBeWrong | src/acp_proxy/direct_service.py:958-985 | A run in which a cancellation reports its target in doubt although the target has settled as cancelled. |
| ServiceRuns.NextKeeps | src/acp_proxy/direct_service.py:218-1169 | Every event keeps the invariant, lets records, sessions and calls only grow, and never reopens a closed session. |
| ServiceAdmission.CreateAdmissionKeeps | src/acp_proxy/direct_service.py:218-270 | Admitting a session creation keeps the invariant. |
| ServiceAdmission.PromptAdmissionKeeps | src/acp_proxy/direct_service.py:353-411 | Admitting a prompt keeps the invariant: its reservation is counted and it is the only unsettled prompt of its session. |
| ServiceAdmission.CancelAdmissionKeeps | src/acp_proxy/direct_service.py:901-946 | Admitting a cancellation keeps the invariant, whether its target is waiting, dispatched or settled. |
| ServiceAdmission.RetireAdmissionKeeps | src/acp_proxy/direct_service.py:1024-1073 | Admitting a retirement keeps the invariant. |
| ServiceLoss.LoseKeeps | src/acp_proxy/direct_service.py:1098-1141 | Losing the generation keeps the invariant: every record is settled or deferred and every other task is cancelled. |
| ServiceLoss.PublishDeferredKeeps | src/acp_proxy/direct_service.py:1160-1169 | Publishing what was deferred keeps the invariant and every settlement made before it. |
| ServiceEvents.ConcludeKeeps | src/acp_proxy/direct_service.py:508-558 | Ending a prompt under the lock, settled in any of the ways its branches allow, keeps the invariant. |
| DirectObjects.OperationRecord.SetTerminal | src/acp_proxy/direct_state.py:78-92 | Settling raises on a state that is not terminal, and the first settlement wins. |
| DirectObjects.DirectLedger.Admit | src/acp_proxy/direct_state.py:120-162 | A new ID gets a fresh record within the capacity, a repeated one its own record or a conflict, and a refusal changes nothing. |
| DirectObjects.DirectLedger.SettleAll | src/acp_proxy/direct_service.py:1114-1126 | Every record that is neither deferred nor terminal becomes in doubt with continuity lost, and no other changes. |
| DirectObjects.DirectSession.Complete | src/acp_proxy/direct_service.py:535-542 | A completed prompt submits the instructions if it was initial, records the digest of its output contract, and makes its invocation active. |
| DirectObjects.DirectSession.Idle | src/acp_proxy/direct_service.py:595-604 | The finally block frees only its own session claim and marks the session lost or not reusable by the outcome of its own record. |
| DirectObjects.Generation.ReleasePromptReservation | src/acp_proxy/direct_service.py:607-615 | A reservation is released at most once, and underflow happens only below zero. |
| DirectObjects.Generation.LoseSessions | src/acp_proxy/direct_service.py:1111-1113 | Every session but the retired ones is lost. |
| DirectObjects.Generation.CancelTasks | src/acp_proxy/direct_service.py:1127-1138 | Every task but the current one is cancelled, and every registered collector that still runs. |
| DirectServiceObject.DirectService.constructor | src/acp_proxy/direct_service.py:116-148 | A new service shows the start state of the transition system. |
| DirectServiceObject.DirectService.CheckPin | src/acp_proxy/direct_service.py:178-200 | A pin holds if and only if major, generation, availability and transport agree with the state shown. |
| DirectServiceObject.DirectService.AdmitCreate | src/acp_proxy/direct_service.py:218-270 | Answer and new state are those of the transition system's creation admission, in the order of its checks. |
| DirectServiceObject.DirectService.RefusePrompt | src/acp_proxy/direct_service.py:377-396 | Nothing is refused if and only if the session is ready and idle, the lifetime of the prompt fits it, and the reservations leave room; a refusal of a new operation is the answer of the transition system's whole admission, which then changes nothing. |
| DirectServiceObject.DirectService.AdmitPrompt | src/acp_proxy/direct_service.py:353-411 | Answer and new state are those of the transition system's prompt admission. |
| DirectServiceObject.DirectService.AdmitCancel | src/acp_proxy/direct_service.py:901-946 | Answer and new state are those of the transition system's cancellation admission. |
| DirectServiceObject.DirectService.AdmitRetire | src/acp_proxy/direct_service.py:1024-1073 | Answer and new state are those of the transition system's retirement admission. |
| DirectServiceObject.DirectService.Operation | src/acp_proxy/direct_service.py:1075-1079 | The status query answers the record under a pin that holds, and changes nothing. |
| DirectServiceObject.DirectService.ExecuteCreate | src/acp_proxy/direct_service.py:278-285 | The creation task runs and calls the child once. |
| DirectServiceObject.DirectService.CreateAnswered | src/acp_proxy/direct_service.py:286-304 | A matching model opens the session and completes the operation; another model is a conflict. |
| DirectServiceObject.DirectService.CreateConflicts | src/acp_proxy/direct_service.py:320-330 | A rejected configuration fails the operation and makes the session not reusable. |
| DirectServiceObject.DirectService.CreateUncertain | src/acp_proxy/direct_service.py:305-319 | A creation that does not settle in time loses the generation and defers its doubt. |
| DirectServiceObject.DirectService.CreateFails | src/acp_proxy/direct_service.py:331-351 | Any other exception loses the generation, with deferred doubt if the transport still lives. |
| DirectServiceObject.DirectService.ExecutePrompt | src/acp_proxy/direct_service.py:477-495 | A waiter takes the lock if it is free; a settled prompt ends; another is marked running unless it is being cancelled, and dispatched once. |
| DirectServiceObject.DirectService.PromptStops | src/acp_proxy/direct_service.py:508-542 | A stop settles the prompt by whether it was being cancelled and how it stopped, and runs the finally block. |
| DirectServiceObject.DirectService.PromptOverflows | src/acp_proxy/direct_service.py:543-571 | An overflow that settled as cancelled fails the prompt with its evidence; another loses the generation and defers it. |
| DirectServiceObject.DirectService.PromptFails | src/acp_proxy/direct_service.py:572-592 | An exception loses the generation, with deferred doubt if the transport still lives. |
| DirectServiceObject.DirectService.ResumePrompt | src/acp_proxy/direct_service.py:492-503 | The prompt resumes from its first wait by what its collector ended with. |
| DirectServiceObject.DirectService.FinishPrompt | src/acp_proxy/direct_service.py:593-605 | The finally block: the session is idle, the reservation released once, lock and registration given up. |
| DirectServiceObject.DirectService.SettleDeadline | src/acp_proxy/direct_service.py:770-779 | The deadline marks the prompt as being cancelled and sends one cancellation. |
| DirectServiceObject.DirectService.DeadlineCancelRaises | src/acp_proxy/direct_service.py:501-503 | A cancellation that cannot be sent leaves the lock with the collector possibly running, and makes the prompt fail. |
| DirectServiceObject.DirectService.ResumeDeadline | src/acp_proxy/direct_service.py:780-818 | Within the grace a cancelled stop is a timeout; any other stop loses the generation and defers the doubt. |
| DirectServiceObject.DirectService.ExecuteCancel | src/acp_proxy/direct_service.py:948-957 | The cancellation runs and sends one notification for its target. |
| DirectServiceObject.DirectService.CancelSendRaises | src/acp_proxy/direct_service.py:990-1014 | A cancellation that cannot be sent loses the generation and defers its target's doubt and its own failure. |
| DirectServiceObject.DirectService.TargetDone | src/acp_proxy/direct_service.py:986-989 | A target that settles within the grace is reported with its state. |
| DirectServiceObject.DirectService.CancelGraceEnds | src/acp_proxy/direct_service.py:962-985 | Without settlement within the grace the target's collector is cancelled and reaped, or the generation is lost. |
| DirectServiceObject.DirectService.MarkGenerationLost | src/acp_proxy/direct_service.py:1098-1141 | The loss happens once: sessions, records, tasks and collectors as in the transition system, and a fresh generation that admits nothing. |
| DirectServiceObject.DirectService.QuarantineUncertain | src/acp_proxy/direct_service.py:1146-1159 | The loss with what is deferred, up to the await of the cancelled tasks. |
| DirectServiceObject.DirectService.AbortClient | src/acp_proxy/direct_service.py:1160-1163 | The abort is attempted and the transport is dead from then on. |
| DirectServiceObject.DirectService.PublishAll | src/acp_proxy/direct_service.py:1164-1169 | What was deferred is published in order, and settled records keep their settlement. |
| DirectServiceObject.DirectService.Step | src/acp_proxy/direct_service.py:218-1169 | One event done by the objects is the event of the transition system, and keeps its invariant. |
| DirectServiceObject.DirectService.Drive | src/acp_proxy/direct_service.py:218-1169 | Any sequence of events done by the objects is a run of the transition system, so its theorems hold of the objects. |
| Utf8.LongestFittingPrefix | src/acp_proxy/direct_service.py:715-719 | The bounded prefix is a prefix that fits the bytes, and every prefix that fits is a prefix of it, for every text and every bound. |
| Utf8.DecodeInvertsEncode | src/acp_proxy/direct_service.py:719 | Decoding with undecodable bytes dropped undoes encoding. |
| Utf8.FirstIsEncoded | src/acp_proxy/direct_service.py:719 | The decoder takes exactly the byte sequences that encode a scalar value. |
| Utf8.CutDecodes | src/acp_proxy/direct_service.py:719 | Decoding a cut encoding gives the characters that lie before the cut, and nothing of the one it splits. |
| Collector.CollectPrompt | src/acp_proxy/direct_service.py:635-713 | The loop computes the declared outcome of the stream, and sends one cancellation if and only if the stream exceeds a limit. |
| Collector.RetainedIsPrefix | src/acp_proxy/direct_service.py:661-701 | What is retained are the first updates, position by position, up to the one that breaks the event limit; their originals fit the limit and one more would not. |
| Collector.RetainedTextIsLongestPrefix | src/acp_proxy/direct_service.py:668-684 | The response text of what is retained is the longest prefix of its original text that fits the response limit. |
| Collector.EvidenceIsBoundedPrefix | src/acp_proxy/direct_service.py:686-700 | For every stream, limits and failure of the cancellation, the evidence is a prefix of the stream, its text a prefix of the full text, and both limits hold. |
| Collector.ReturnIsComplete | src/acp_proxy/direct_service.py:702-713 | Collecting returns if and only if a known stop reason arrives within both limits, and then nothing was cut. |
| Collector.SettledOnlyIfCancelled | src/acp_proxy/direct_service.py:704-712 | An overflow counts as settled if and only if a limit was exceeded, the cancellation was sent, and the child stopped as cancelled. |
| Collector.OutcomeByText | src/acp_proxy/direct_service.py:653-713 | The outcome by the raw text of the first done item: each of the five texts returns its own stop if and only if no limit is exceeded, an overflow counts as settled if and only if the text is cancelled and the cancellation was sent, and any other text raises. |
| Collector.OutcomeWithoutDone | src/acp_proxy/direct_service.py:702-703 | Without a done item collecting raises, unless it ended at a cancellation that could not be sent. |
| Collector.EvidenceCounts | src/acp_proxy/direct_service.py:686-712 | The evidence of an overflow counts exactly the updates read, up to the one that broke a limit if the cancellation could not be sent, and names the limits exceeded. |
| PromptEvidence.EvidenceIsFrame | src/acp_proxy/direct_service.py:635-713 | Once the consumer of a prompt has popped its marker, the collected evidence is what was read for its session between its request and its answer, in read order: all of it uncut if collecting returns, which it does if and only if the stop reason is known and both limits are kept, and otherwise a prefix of it. |
| PromptEvidence.EpochYields | src/acp_proxy/client.py:724-757 | From a whole epoch the consumer yields each of its updates in order, and then the stop reason unless the turn raises. |
| ReaderLink.PendingMapsAgree | src/acp_proxy/transport.py:148-174 | In every run the two pending maps have the same keys and agree with what was sent, every unsettled future is pending, and a failed transport has no pending request, no unsettled future and called its close handler exactly once. |
| ReaderLink.FuturesSettleOnce | src/acp_proxy/transport.py:388-428 | A settled future keeps its outcome in every continuation, also when the response observer fails the transport. |
| ReaderLink.FutureSettledBy | src/acp_proxy/transport.py:250-280 | A future is settled only by the response with its own ID, by its own write or its own sender, or by the failure of the transport. |
| ReaderSessions.IdentitiesDisjoint | src/acp_proxy/client.py:1253-1376 | While the transport is open, registered, answered and provisional sessions are pairwise disjoint. |
| ReaderSessions.CreationsDistinct | src/acp_proxy/client.py:283-359 | Distinct successful creations return distinct backend sessions, in every run. |
| ReaderClaims.ProvisionalBounded | src/acp_proxy/client.py:1316-1326 | In every run on an open transport provisional identities do not outnumber unresolved creations, unless a session/new write raised while every claim was taken. |
| ReaderClaims.ClaimsExactly | src/acp_proxy/client.py:1316-1393 | For every event in every run: whether claims outnumber the open creations after it is decided by a guard on the state before it; only a write that raises with every claim taken makes them, only a new creation undoes it. |
| ReaderClaims.MismatchExactly | src/acp_proxy/client.py:1328-1344 | In every run on an open transport, binding an answered creation meets the mismatch branch if and only if identities are claimed while no creation is open; and only after a session/new write raised with every claim taken. |
| ReaderClaims.RaisedWriteMismatch | src/acp_proxy/transport.py:275-279 | A run with a raised session/new write in which a correctly answered creation meets the mismatch branch. |
| ReaderFrames.QueueIsFrame | src/acp_proxy/client.py:1492-1565 | While the transport is open, what entered a prompt's queue is exactly what was read for its session between its request being sent and its answer, in read order, then one terminal marker, then nothing. |
| ReaderFrames.MarkerAlwaysFits | src/acp_proxy/client.py:1395-1435 | In an active session the entries never exceed the count limit, and the queue is never full: neither an update within budget nor the terminal marker can be refused for room. |
| ReaderFrames.NoCallbackSurvivesItsEpoch | src/acp_proxy/client.py:1538-1547 | When an answer closes an epoch without failing the transport, no callback of its session is unsettled. |
| ReaderFrames.MarkerEndsTheEpoch | src/acp_proxy/client.py:724-749 | A consumer that has popped the marker has popped the whole epoch: the prompt was answered, its queue is empty, and what it saw is everything that was read for its session. |
| ReaderFrames.PromptSentInOrder | src/acp_proxy/client.py:1492-1516 | On an open transport the drain of a prompt's request never fails its correlation. |
| ReaderBudgets.BudgetIsRead | src/acp_proxy/client.py:1395-1435 | In every run on an open transport the budget of a live prompt is the sum of the sizes and the number of the lines read for it, counted along the events, within the limits it was begun with. |
| ReaderBudgets.UpdateTaken | src/acp_proxy/client.py:1395-1435 | An update of an active session with a queue leaves the transport open if and only if the model is intact, it is well formed and can be encoded, and both limits hold with it, counted along the events. |
| ReaderBudgets.CallbackTaken | src/acp_proxy/client.py:1617-1682 | A callback of an active session with a queue leaves the transport open if and only if both limits hold with its evidence and fewer than 64 callback tasks are left. |
| ReaderBudgets.StateUpdateTaken | src/acp_proxy/client.py:1253-1278 | Outside an active prompt a notification leaves the transport open if and only if it is bounded session state of a known session or of one that an open creation may still answer, and then it is claimed as provisional. |
| ReaderBudgets.ResponseTaken | src/acp_proxy/transport.py:388-428 | In every run a response leaves the transport open if and only if its request waits for it, and its session is new within the claims left, or its prompt is active with no callback unsettled. |
| ReaderEffects.RequestStarts | src/acp_proxy/transport.py:250-274 | A request is filed under the next ID in both maps while the transport is open, and otherwise withdrawn at once. |
| ReaderEffects.WriteFails | src/acp_proxy/transport.py:275-279 | A write that raises forgets its request in both maps and withdraws a future that waits. |
| ReaderEffects.WriteCompletes | src/acp_proxy/client.py:1492-1516 | A completed write makes the prepared session of a prompt active and opens its epoch; a prompt whose session is not prepared fails the transport. |
| ReaderEffects.ResponseSettles | src/acp_proxy/transport.py:388-428 | In every run an accepted response settles its own future with the answer it carries, and moves the identity of a created session, or shuts the epoch of a prompt with one marker. |
| ReaderEffects.CreationReturns | src/acp_proxy/client.py:318-359 | In every run a resuming creation gives its answered session back, registers and returns it if its result allows that, or meets the mismatch and registers nothing. |
| ReaderEffects.PromptBegins | src/acp_proxy/client.py:643-679 | A prompt begins with an empty queue, the budget it asks for and a prepared session; a session in another epoch fails the transport, and limits below 1 raise. |
| ReaderEffects.PromptEnds | src/acp_proxy/client.py:759-764 | The finally block drops the queue and the budget of its session, keeps the phase, and cancels the sender but not the pending request. |
| ReaderEffects.ClientIsCleared | src/acp_proxy/client.py:242-281 | Teardown forgets all sessions, phases, queues and budgets, and empties and wakes each queue in use. |
| ReaderEpochs.EpochNextKeeps | src/acp_proxy/client.py:645-764 | Every event keeps the epochs: one current epoch per session, its phase, queue and budget in step with it. |
| ReaderObjects.AcpTransport.FailPending | src/acp_proxy/transport.py:167-174 | Every pending future that is not done is rejected, and both maps are cleared. |
| ReaderObjects.AcpTransport.FailClosed | src/acp_proxy/transport.py:148-165 | An open transport fails, rejects what is pending and calls its close handler; otherwise nothing happens. |
| ReaderObjects.AcpTransport.SendRequest | src/acp_proxy/transport.py:250-280 | A new request is filed under the next ID, and taken back if the transport refuses the write. |
| ReaderObjects.AcpTransport.WriteRaises | src/acp_proxy/transport.py:275-279 | A write that raises forgets its request and withdraws its future. |
| ReaderObjects.AcpTransport.PendingCreationCount | src/acp_proxy/transport.py:242-248 | The number of unresolved session/new requests. |
| ReaderObjects.AcpTransport.HasPendingIncomingRequests | src/acp_proxy/transport.py:226-232 | True if and only if a callback of the session is unsettled. |
| ReaderObjects.AcpClient.HandleNotification | src/acp_proxy/client.py:1072-1100 | Session state outside an active prompt is discarded, valid evidence is queued within its budget, and anything else fails the transport. |
| ReaderObjects.AcpClient.AdmitProvisionalSessionId | src/acp_proxy/client.py:1316-1326 | A provisional identity is admitted only while fewer are claimed than creations are unresolved. |
| ReaderObjects.AcpClient.EnqueueDirectUpdate | src/acp_proxy/client.py:1395-1435 | An update is queued and counted, or the transport fails and nothing is queued. |
| ReaderObjects.AcpClient.ObserveAgentRequest | src/acp_proxy/client.py:1617-1682 | A callback of an active session leaves its evidence in read order; another fails the transport. |
| ReaderObjects.AcpClient.DispatchRequest | src/acp_proxy/transport.py:363-383 | The callback is observed, and gets a task if the transport survived and there is room. |
| ReaderObjects.AcpClient.ObserveSessionNewResponse | src/acp_proxy/client.py:1346-1393 | An answered creation moves its identity to the answered ones, unless identities collide or outnumber what is left. |
| ReaderObjects.AcpClient.ObservePromptResponse | src/acp_proxy/client.py:1518-1565 | An answer closes the epoch with one marker, unless callbacks are unsettled or the session is not active. |
| ReaderObjects.AcpClient.DispatchResponse | src/acp_proxy/transport.py:388-428 | A response settles the future of its own ID, after its observer and only if the transport survived that. |
| ReaderObjects.AcpClient.RequestSent | src/acp_proxy/client.py:1492-1516 | The drain of a prompt's request makes its session active. |
| ReaderObjects.AcpClient.BindProvisionalSession | src/acp_proxy/client.py:1328-1344 | The answered identity is taken, or a mismatch fails the transport and raises. |
| ReaderObjects.AcpClient.SenderResumes | src/acp_proxy/client.py:318-359 | A creation that resumes binds and registers the session it was answered. |
| ReaderObjects.AcpClient.BeginPrompt | src/acp_proxy/client.py:643-679 | A prompt gets a fresh queue and budget and prepares its session, or a session out of phase fails the transport. |
| ReaderObjects.AcpClient.CleanUp | src/acp_proxy/client.py:759-764 | The finally block drops queue and budget and cancels the request's task. |
| ReaderObjects.AcpClient.SignalUpdateQueues | src/acp_proxy/client.py:259-265 | Every queue is emptied and its consumer woken. |
| ReaderObjects.AcpClient.Abort | src/acp_proxy/client.py:250-257 | Abort wakes the consumers, clears the client and fails the transport in one stretch. |
| ReaderObjects.AcpClient.Step | src/acp_proxy/client.py:242-1682 | One event done by the objects is the event of the transition system. |
| ReaderObjects.AcpClient.Drive | src/acp_proxy/client.py:242-1682 | Any sequence of events done by the objects is a run of the transition system. |
| ModelBinding.WrittenOncePerGeneration | src/acp_proxy/client.py:417-472 | In each client generation the strategy is written at most once, and the current strategy is that write. |
| ModelBinding.FrozenWithinGeneration | src/acp_proxy/client.py:424-427 | Within a generation a strategy that is set never changes. |
| ModelBinding.StaleNegotiationIsHarmless | src/acp_proxy/client.py:450-472 | A negotiation from before a clearing writes no strategy and does not take the token of a newer one. |
| ModelBinding.OnlyTokenHolderActs | src/acp_proxy/client.py:458-472 | Only the negotiation that holds the token writes the strategy or gives the token up, in the generation it started in and while no strategy is set. |
| ModelBinding.AnswersDecide | src/acp_proxy/client.py:437-472 | The standard binding is written if and only if the standard call is accepted, the other if and only if the standard method is missing and the second call is accepted, for the token's holder in its generation; any other answer ends the negotiation without a write. |
| ModelBinding.ClearingForgets | src/acp_proxy/client.py:277-281 | Clearing forgets strategy and token and begins a generation that no negotiation under way belongs to. |
| ModelBinding.Binding.Begin | src/acp_proxy/client.py:417-435 | A negotiation starts if and only if no strategy is frozen, none is under way and the catalog holds. |
| ModelBinding.Binding.Resume | src/acp_proxy/client.py:437-472 | A negotiation returns a strategy if and only if it wrote it, and then it is the frozen one. |
| ModelBinding.Binding.ClearClientState | src/acp_proxy/client.py:277-281 | Clearing forgets strategy and token and begins a new generation. |
| Versions.ParseFormat | src/acp_proxy/discovery.py:69-85 | Parsing a printed version gives it back, for all triples of naturals. |
| Versions.FormatParse | src/acp_proxy/discovery.py:73-85 | Printing a parsed version gives its text back, so exactly the canonical texts are accepted. |
| Discovery.AcceptedOutputs | src/acp_proxy/discovery.py:229-247 | What a probe printed is taken as a version if and only if it is at most 256 bytes long and is the ASCII encoding of that printed version, alone or with one line end after it. |
| Discovery.SelectBest | src/acp_proxy/discovery.py:285-333 | The loop finds the first of the admitted binaries, or all the reasons of the rejections. |
| Discovery.SelectedIsHighest | src/acp_proxy/discovery.py:318-333 | The selected binary is at least the minimum, no admitted candidate is newer, and of the same version none has a smaller path. |
| Discovery.SelectionIsUnique | src/acp_proxy/discovery.py:292-333 | Two candidate lists with the same canonical paths have the same selection, whatever their order and repetitions. |
| Discovery.SelectedInOrder | src/acp_proxy/discovery.py:318-333 | By major, minor and patch number no admitted candidate is newer than the selected one and it is not older than 1.518.3; of its version none has a path that is smaller at the first difference. |
| Discovery.AdmittedExactly | src/acp_proxy/discovery.py:250-270 | A binary is admitted if and only if its path resolves to an executable file whose probe prints a version of at least 1.518.3. |
| Discovery.PathOrder | src/acp_proxy/discovery.py:318-326 | One path is below another if and only if it is a prefix of it or smaller where they first differ. |

## Left out

- Real time: deadlines and grace periods are events that may happen at any await.
- Fairness: the prompt lock hands over to any waiter and tasks interleave freely, which includes every order the event loop allows; nothing is said about progress but `LossSettlesEverything`.
- ServiceModel.Next: the cancellation that an evidence overflow sends is part of the collector (`Collector.CollectPrompt`), not of the service's log of calls, and a result that cannot be normalized counts as a collector that raised.
- Result dictionaries, ordered events, tool identifiers, titles, actor references, the limits report, and the reason strings of errors: field copying.
- SHA-256, JSON encoding and UUIDs: an injective digest, sizes given with each update, fresh identifiers.
- ReaderModel.Next: one start of one child; restarting the same client object begins a new run.
- ReaderModel.BeginPrompt: a prompt begins on a session only after the `finally` block of the session's previous prompt has run, which the event loop guarantees for a closed generator only.
- ReaderModel.HandleNotification: whether the selected model has drifted and whether a payload has the shape its kind needs are given with the notification; the checks themselves are not modelled.
- PromptEvidence.EvidenceIsFrame: what the payload of an update says is a given function of its tag, and the stop reason of an answer is given beside it.
- The 0.1 s poll of the consumer and its drain after a timeout: the consumer pops until it stops.
- ModelBinding.Next: the two model-selection calls are one answer each; how their results are read is not modelled.
- Collector.CollectPrompt: texts with lone surrogates, which cannot be encoded and raise.
- Discovery.SelectBest: the file system and running the `--version` probe are given functions, and what the probe printed is interpreted as the code does; Python's limit on the digits of an integer, which a probe's output never reaches, is not modelled.
- Subprocess launch, stdio, line decoding, stderr, process groups and process queries: operating system I/O.
- HTTP routes, authentication, server start-up, signals, command-line options and the metadata file.
- The legacy OpenCode path: `server.py`, the legacy branches of `client.py`, filesystem, terminal and permission handlers.
- Logging, configuration, environment filtering, experiments and probes.
