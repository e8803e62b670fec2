/**
 The direct service as a transition system over values (`direct_service.py`).

 One event is one stretch of code between two awaits. Every section under the
 state lock is free of awaits, so the lock is never held when another task runs
 and each admission is one event. What the child, the timers and the transport
 do is an event chosen by the environment. The state holds the one generation
 that ever admits work; after its loss `quarantined` stays set and the
 generation current for callers has a fresh identity and admits nothing.
 */
module ServiceModel {
  import opened Wrappers
  import opened DirectProtocol
  import opened DirectState
  import Utf8

  /** How a collector task ended. */
  datatype CollectorOutcome =
    | Returned(stop: StopReason)
    | Overflowed(settledCancelled: bool)
    | Raised
    | WasCancelled

  datatype Collector = Live(cancelRequested: bool) | Ended(outcome: CollectorOutcome)

  /** `_DeferredSettlement`: a settlement published only after quarantine. */
  datatype Settlement = Settlement(op: Id, state: OperationState, result: Option<Report>, error: Option<ErrorCode>)

  /** Where the execution task of an operation stands. */
  datatype Task =
    | Scheduled                              // created, its body has not started
    | AwaitingCreate                         // create_session_exact
    | AwaitingLock                           // prompt_lock
    | AwaitingCollector                      // wait_for(shield(collector), execution timeout)
    | SendingDeadlineCancel                  // _send_cancel_bounded in _settle_deadline
    | AwaitingDeadlineGrace                  // wait_for(shield(collector), cancellation grace)
    | ReapingCollector                       // gather(collector) after the grace expired
    | SendingCancel                          // _send_cancel_bounded in _execute_cancel
    | AwaitingTarget                         // wait_for(target.done, cancellation grace)
    | ReapingTarget                          // gather of the target's collector
    | Quarantining(deferred: seq<Settlement>) // mark_generation_lost reaps the other tasks
    | Aborting(deferred: seq<Settlement>)    // abort of the child was called
    | Unwinding                              // only the finally block of _execute_prompt is left
    | Finished

  /** A call on the ACP client that the child can observe. */
  datatype Call =
    | CreateCall(op: Id)
    | PromptCall(op: Id, session: Id, phase: PromptPhase)
    | CancelCall(op: Id)

  datatype State = State(
    config: Config,
    generation: Id,                  // identity of the generation current for callers
    quarantined: bool,
    transportAlive: bool,
    abortAttempted: bool,
    lostBy: Option<Id>,              // the task that lost the generation, if a task did
    records: map<Id, Record>,
    sessions: map<Id, Session>,
    tasks: map<Id, Task>,
    collectors: map<Id, Collector>,  // every collector ever created
    registered: set<Id>,             // keys of collector_tasks
    lock: Option<Id>,                // holder of prompt_lock
    reservations: int,
    released: set<Id>,
    calls: seq<Call>)

  function Start(config: Config): State {
    State(config, 0, false, true, false, None, map[], map[], map[], map[], {}, None, 0, {}, [])
  }

  datatype Admission = Admission(op: Id, created: bool)

  type Reply = Result<Admission, DirectError>

  // ----- small updates -----

  function WithRecord(s: State, op: Id, r: Record): State {
    s.(records := s.records[op := r])
  }

  function WithTask(s: State, op: Id, t: Task): State {
    s.(tasks := s.tasks[op := t])
  }

  function WithSessionState(s: State, sid: Id, state: SessionState): State
    requires sid in s.sessions
  {
    s.(sessions := s.sessions[sid := s.sessions[sid].(state := state)])
  }

  function WithCall(s: State, call: Call): State {
    s.(calls := s.calls + [call])
  }

  /** The record, the task and the session of `op` exist. */
  predicate Located(s: State, op: Id) {
    op in s.records && op in s.tasks && s.records[op].identity.sessionId in s.sessions
  }

  predicate At(s: State, op: Id, t: Task) {
    Located(s, op) && s.tasks[op] == t
  }

  function SessionOf(s: State, op: Id): Id
    requires op in s.records
  {
    s.records[op].identity.sessionId
  }

  predicate IsPrompt(s: State, op: Id) {
    op in s.records && s.records[op].identity.kind.PromptKind? && s.records[op].identity.request.Prompt?
  }

  function BodyOf(s: State, op: Id): PromptRequest
    requires IsPrompt(s, op)
  {
    s.records[op].identity.request.body
  }

  function FreeLock(s: State, op: Id): State {
    if s.lock == Some(op) then s.(lock := None) else s
  }

  // ----- admission -----

  predicate PinHolds(s: State, pin: Pin) {
    pin.major == DIRECT_PROTOCOL_MAJOR && pin.generation == s.generation && !s.quarantined && s.transportAlive
  }

  function AdmitCreate(s: State, req: Request): (State, Reply)
    requires req.CreateSession?
  {
    var op := req.pin.operationId;
    var identity := Identity(req, CreateKind, req.sessionId, None, None);
    if !PinHolds(s, req.pin) then
      (s, Failure(GenerationMismatch))
    else if req.workspace != s.config.canonicalWorkspace then
      (s, Failure(WorkspaceMismatch))
    else if req.modelId !in s.config.models then
      (s, Failure(Conflict))
    else if op !in s.records && req.sessionId in s.sessions then
      (s, Failure(Conflict))
    else if op !in s.records && |s.sessions| >= s.config.maxSessions then
      (s, Failure(LimitExceeded))
    else
      match LedgerAdmit(s.records, s.config.maxOperations, op, identity)
      case Failure(e) => (s, Failure(e))
      case Success(false) => (s, Success(Admission(op, false)))
      case Success(true) =>
        (s.(records := s.records[op := NewRecord(identity)],
         sessions := s.sessions[req.sessionId := NewSession(req.modelId, req.stableDigest)],
         tasks := s.tasks[op := Scheduled]),
         Success(Admission(op, true)))
  }

  /** `_check_prompt_limits` */
  predicate WithinPromptLimits(c: Config, r: PromptRequest)
    requires ValidLayers(r)
  {
    r.timeout <= c.maxExecutionTimeout && Utf8.Length(RenderText(r)) <= c.maxPromptBytes
  }

  /** `_validate_prompt_lifetime` */
  predicate LifetimeAllows(x: Session, r: PromptRequest)
    requires ValidLayers(r)
  {
    && r.stableDigest == x.stableDigest
    && match r.phase
       case Initial =>
         && !x.stableSubmitted
         && Sha256(r.stableInstructions.value) == x.stableDigest
         && Sha256(r.outputContract.value) == r.contractDigest
         && x.activeInvocation.None?
       case Invocation =>
         && x.stableSubmitted
         && r.invocationId !in x.contracts
         && Sha256(r.outputContract.value) == r.contractDigest
       case _ =>
         && x.stableSubmitted
         && r.invocationId in x.contracts
         && x.activeInvocation == Some(r.invocationId)
         && x.contracts[r.invocationId] == r.contractDigest
  }

  function AdmitPrompt(s: State, sid: Id, r: PromptRequest): (State, Reply)
    requires ValidLayers(r)
  {
    var op := r.pin.operationId;
    var identity := Identity(Prompt(r), PromptKind, sid, Some(r.invocationId), None);
    if !PinHolds(s, r.pin) then
      (s, Failure(GenerationMismatch))
    else if !WithinPromptLimits(s.config, r) then
      (s, Failure(LimitExceeded))
    else if op in s.records then
      (s, if s.records[op].identity != identity then Failure(Conflict) else Success(Admission(op, false)))
    else if sid !in s.sessions then
      (s, Failure(NotFound))
    else
      var x := s.sessions[sid];
      if x.active.Some? || x.state.Busy? then
        (s, Failure(SessionBusy))
      else if !x.state.Ready? || !LifetimeAllows(x, r) then
        (s, Failure(Conflict))
      else
        var willQueue := s.reservations > 0;
        var queued := if s.reservations - 1 > 0 then s.reservations - 1 else 0;
        if willQueue && queued >= s.config.maxQueuedPrompts then
          (s, Failure(LimitExceeded))
        else
          match LedgerAdmit(s.records, s.config.maxOperations, op, identity)
          case Failure(e) => (s, Failure(e))
          case Success(created) =>
            (s.(records := s.records[op := NewRecord(identity).(state := if willQueue then Queued else Accepted)],
             sessions := s.sessions[sid := x.(active := Some(op), state := Busy)],
             tasks := s.tasks[op := Scheduled],
             reservations := s.reservations + 1),
             Success(Admission(op, created)))
  }

  /** `_release_prompt_reservation`; its underflow error is `reservations < 0` afterwards. */
  function Release(s: State, op: Id): State {
    if op in s.released then s
    else s.(released := s.released + {op}, reservations := s.reservations - 1)
  }

  function AdmitCancel(s: State, req: Request): (State, Reply)
    requires req.Cancel?
  {
    var op := req.pin.operationId;
    var target := req.target;
    if !PinHolds(s, req.pin) then
      (s, Failure(GenerationMismatch))
    else if target !in s.records then
      (s, Failure(NotFound))
    else if !s.records[target].identity.kind.PromptKind? then
      (s, Failure(Conflict))
    else
      var r := s.records[target];
      var sid := r.identity.sessionId;
      var identity := Identity(req, CancelKind, sid, None, Some(target));
      match LedgerAdmit(s.records, s.config.maxOperations, op, identity)
      case Failure(e) => (s, Failure(e))
      case Success(false) => (s, Success(Admission(op, false)))
      case Success(true) =>
        var admitted := NewRecord(identity);
        if r.state.Accepted? || r.state.Queued? then
          if sid !in s.sessions then (s, Failure(NotFound)) else
          var x := s.sessions[sid].(active := None, state := Ready);
          var done := Settled(admitted, Completed, Some(CancelReport(Cancelled, false)), None);
          (Release(
             s.(records := s.records[target := Settled(r, Cancelled, Some(CancelledPreDispatch), None)][op := done],
             sessions := s.sessions[sid := x]),
             target),
           Success(Admission(op, true)))
        else if r.state.Terminal() then
          (WithRecord(s, op, Settled(admitted, Completed, Some(CancelReport(r.state, false)), None)),
           Success(Admission(op, true)))
        else
          (s.(records := s.records[target := r.(state := Cancelling)][op := admitted],
           tasks := s.tasks[op := Scheduled]),
           Success(Admission(op, true)))
  }

  function AdmitRetire(s: State, req: Request): (State, Reply)
    requires req.Retire?
  {
    var op := req.pin.operationId;
    var sid := req.sessionId;
    var identity := Identity(req, RetireKind, sid, None, None);
    if !PinHolds(s, req.pin) then
      (s, Failure(GenerationMismatch))
    else if op in s.records then
      (s, if s.records[op].identity != identity then Failure(Conflict) else Success(Admission(op, false)))
    else if sid !in s.sessions then
      (s, Failure(NotFound))
    else
      var x := s.sessions[sid];
      if x.state.Retired? || x.active.Some? then
        (s, Failure(Conflict))
      else
        match LedgerAdmit(s.records, s.config.maxOperations, op, identity)
        case Failure(e) => (s, Failure(e))
        case Success(_) =>
          (s.(records := s.records[op := Settled(NewRecord(identity), Completed, Some(SessionRetired(x.backend)),
            None)],
           sessions := s.sessions[sid := x.(state := Retired)]),
           Success(Admission(op, true)))
  }

  /** `operation`: the status query. */
  function Query(s: State, pin: Pin): Result<Record, DirectError> {
    if !PinHolds(s, pin) then Failure(GenerationMismatch)
    else if pin.operationId !in s.records then Failure(NotFound)
    else Success(s.records[pin.operationId])
  }

  // ----- loss of the generation -----

  /** What `task.cancel()` leaves of a task: a started prompt still runs its finally block. */
  function CancelledTask(t: Task, isPrompt: bool): Task {
    if t.Scheduled? || t.Finished? || !isPrompt then Finished else Unwinding
  }

  function LostSession(x: Session): Session {
    if x.state.Retired? then x else x.(state := Lost)
  }

  function LostRecord(r: Record, deferred: bool): (r': Record)
    ensures r'.identity == r.identity
    ensures deferred || r.state.Terminal() ==> r' == r
    ensures r' != r ==> r'.state.InDoubt? && r'.error == Some(ContinuityLost) && r'.result.None?
    ensures deferred || r'.state.Terminal()
  {
    if deferred then r else Settled(r, InDoubt, None, Some(ContinuityLost))
  }

  /** `mark_generation_lost`, called by task `current` or from outside. */
  function MarkLost(s: State, current: Option<Id>, defer: set<Id>): State {
    if s.quarantined then s else
    s.(quarantined := true,
     generation := s.generation + 1,
     lostBy := current,
     sessions := map sid | sid in s.sessions :: LostSession(s.sessions[sid]),
     records := map op | op in s.records :: LostRecord(s.records[op], op in defer),
     tasks := map op | op in s.tasks ::
       if Some(op) == current then s.tasks[op] else CancelledTask(s.tasks[op], IsPrompt(s, op)),
     collectors := map op | op in s.collectors ::
       if op in s.registered && s.collectors[op].Live? then Live(true) else s.collectors[op],
     registered := {})
  }

  function Ops(deferred: seq<Settlement>): set<Id> {
    set i | 0 <= i < |deferred| :: deferred[i].op
  }

  /** `_quarantine_uncertain` up to the await of the cancelled tasks. */
  function Quarantine(s: State, op: Id, deferred: seq<Settlement>): State {
    WithTask(MarkLost(s, Some(op), Ops(deferred)), op, Quarantining(deferred))
  }

  function QuarantineSession(s: State, op: Id, deferred: seq<Settlement>): State
    requires Located(s, op)
  {
    Quarantine(WithSessionState(s, SessionOf(s, op), NonReusable), op, deferred)
  }

  function InDoubtAs(op: Id, error: ErrorCode): seq<Settlement> {
    [Settlement(op, InDoubt, None, Some(error))]
  }

  function Publish(records: map<Id, Record>, deferred: seq<Settlement>): map<Id, Record> {
    if deferred == [] then records else
    var d := deferred[0];
    var published :=
      if d.op in records && d.state.Terminal()
      then records[d.op := Settled(records[d.op], d.state, d.result, d.error)]
      else records;
    Publish(published, deferred[1..])
  }

  // ----- session creation -----

  function StartCreate(s: State, op: Id): State
    requires At(s, op, Scheduled)
  {
    WithCall(WithTask(WithRecord(s, op, s.records[op].(state := Running)), op, AwaitingCreate), CreateCall(op))
  }

  function CreateReplied(s: State, op: Id, backend: Id, model: Id): State
    requires At(s, op, AwaitingCreate)
  {
    var sid := SessionOf(s, op);
    var x := s.sessions[sid];
    if model != x.modelId then CreateRejected(s, op) else
    s.(sessions := s.sessions[sid := x.(backend := Some(backend), state := Ready)],
     records := s.records[op := Settled(s.records[op], Completed, Some(SessionCreated(backend, model)), None)],
     tasks := s.tasks[op := Finished])
  }

  function CreateRejected(s: State, op: Id): State
    requires At(s, op, AwaitingCreate)
  {
    WithTask(
      WithRecord(WithSessionState(s, SessionOf(s, op), NonReusable), op,
                 Settled(s.records[op], Failed, None, Some(SessionConfigurationFailed))),
      op, Finished)
  }

  function CreateTimedOut(s: State, op: Id): State
    requires At(s, op, AwaitingCreate)
  {
    QuarantineSession(s, op, InDoubtAs(op, SessionCreationInDoubt))
  }

  function CreateRaised(s: State, op: Id): State
    requires At(s, op, AwaitingCreate)
  {
    if !s.transportAlive then WithTask(MarkLost(s, Some(op), {}), op, Finished)
    else QuarantineSession(s, op, InDoubtAs(op, SessionCreationInDoubt))
  }

  // ----- prompt execution -----

  /** The session after the finally block of `_execute_prompt`. */
  function AfterFinally(x: Session, op: Id, state: OperationState, quarantined: bool): Session {
    var idle := if x.active == Some(op) then x.(active := None) else x;
    if quarantined then idle.(state := Lost)
    else if state.Cancelled? || state.TimedOut? || state.InDoubt? then idle.(state := NonReusable)
    else idle
  }

  /** The task ends with record `r` and session `x`: the lock is free and the finally block has run. */
  function Conclude(s: State, op: Id, r: Record, x: Session): State {
    Release(
      s.(records := s.records[op := r],
       sessions := s.sessions[r.identity.sessionId := AfterFinally(x, op, r.state, s.quarantined)],
       tasks := s.tasks[op := Finished],
       registered := s.registered - {op},
       lock := if s.lock == Some(op) then None else s.lock),
      op)
  }

  function Finish(s: State, op: Id): State
    requires Located(s, op)
  {
    Conclude(s, op, s.records[op], s.sessions[SessionOf(s, op)])
  }

  /** Entering `async with prompt_lock`; a waiter may be overtaken, which the fair lock never does. */
  function EnterLock(s: State, op: Id): State
    requires At(s, op, Scheduled) || At(s, op, AwaitingLock)
    requires IsPrompt(s, op)
  {
    if s.lock.Some? then WithTask(s, op, AwaitingLock)
    else if s.records[op].state.Terminal() then Finish(s, op)
    else
      var r := s.records[op];
      s.(records := s.records[op := if r.state.Cancelling? then r else r.(state := Running)],
       tasks := s.tasks[op := AwaitingCollector],
       collectors := s.collectors[op := Live(false)],
       registered := s.registered + {op},
       lock := Some(op),
       calls := s.calls + [PromptCall(op, r.identity.sessionId, r.identity.request.body.phase)])
  }

  /** What a settled prompt leaves in its session. */
  function Completing(x: Session, r: PromptRequest): Session {
    x.(stableSubmitted := x.stableSubmitted || r.phase.Initial?,
     contracts := if r.outputContract.Some? then x.contracts[r.invocationId := Sha256(r.outputContract.value)]
       else x.contracts,
     activeInvocation := Some(r.invocationId),
     state := Ready)
  }

  /** The record of a prompt that stopped while its collector was awaited. */
  function StoppedRecord(r: Record, stop: StopReason): Record {
    if r.state.Cancelling? && !stop.StopCancelled? then Settled(r, InDoubt, None, Some(CancellationStopMismatch))
    else if stop.StopCancelled? then Settled(r, Cancelled, Some(PromptDone(stop)), None)
    else Settled(r, Completed, Some(PromptDone(stop)), None)
  }

  function StoppedSession(x: Session, r: Record, stop: StopReason): Session
    requires r.identity.request.Prompt?
  {
    if r.state.Cancelling? || stop.StopCancelled? then x.(state := NonReusable)
    else Completing(x, r.identity.request.body)
  }

  function PromptStopped(s: State, op: Id, stop: StopReason): State
    requires At(s, op, AwaitingCollector) && IsPrompt(s, op)
  {
    var r := s.records[op];
    Conclude(s, op, StoppedRecord(r, stop), StoppedSession(s.sessions[SessionOf(s, op)], r, stop))
  }

  /** Leaving `async with prompt_lock` with the collector's registration dropped. */
  function LeaveLock(s: State, op: Id): State {
    FreeLock(s, op).(registered := s.registered - {op})
  }

  /** The `except EvidenceLimitExceeded` branch, after the prompt lock was left. */
  function PromptOverflowed(s: State, op: Id, settledCancelled: bool): State
    requires Located(s, op)
  {
    var x := s.sessions[SessionOf(s, op)].(state := NonReusable);
    if settledCancelled then
      Conclude(s, op, Settled(s.records[op], Failed, Some(RetainedEvidence), Some(EvidenceLimit)), x)
    else
      QuarantineSession(LeaveLock(s, op), op,
                        [Settlement(op, InDoubt, Some(RetainedEvidence), Some(EvidenceLimitInDoubt))])
  }

  /** The `except Exception` branch; the prompt lock is free again. */
  function PromptRaised(s: State, op: Id): State
    requires Located(s, op)
  {
    if !s.transportAlive then WithTask(MarkLost(s, Some(op), {}), op, Unwinding)
    else QuarantineSession(s, op, InDoubtAs(op, PromptInDoubt))
  }

  /** The prompt resumes from its first wait because its collector ended. */
  function PromptResumes(s: State, op: Id): State
    requires At(s, op, AwaitingCollector) && IsPrompt(s, op)
    requires op in s.collectors && s.collectors[op].Ended?
  {
    match s.collectors[op].outcome
    case Returned(stop) => PromptStopped(s, op, stop)
    case Overflowed(settledCancelled) => PromptOverflowed(s, op, settledCancelled)
    case Raised => PromptRaised(LeaveLock(s, op), op)
    case WasCancelled => Finish(s, op)
  }

  /** The execution timeout fires; it may do so although the collector has just ended. */
  function DeadlineFires(s: State, op: Id): State
    requires At(s, op, AwaitingCollector)
  {
    WithCall(WithTask(WithRecord(s, op, s.records[op].(state := Cancelling)), op, SendingDeadlineCancel),
      CancelCall(op))
  }

  function DeadlineCancelSent(s: State, op: Id): State
    requires At(s, op, SendingDeadlineCancel)
  {
    WithTask(s, op, AwaitingDeadlineGrace)
  }

  function PopIfEnded(s: State, op: Id): State {
    if op in s.collectors && s.collectors[op].Ended? then s.(registered := s.registered - {op}) else s
  }

  function DeadlineCancelFailed(s: State, op: Id): State
    requires At(s, op, SendingDeadlineCancel)
  {
    PromptRaised(FreeLock(PopIfEnded(s, op), op), op)
  }

  function DeadlineGraceExpires(s: State, op: Id): State
    requires At(s, op, AwaitingDeadlineGrace)
  {
    WithTask(CancelCollector(s, op), op, ReapingCollector)
  }

  function CancelCollector(s: State, op: Id): State {
    if op in s.collectors && s.collectors[op].Live? then s.(collectors := s.collectors[op := Live(true)]) else s
  }

  function CollectorReaped(s: State, op: Id): State
    requires At(s, op, ReapingCollector)
  {
    Quarantine(s, op, InDoubtAs(op, DeadlineSettlementUnknown))
  }

  /** `_settle_deadline` resumes because the collector ended within the grace. */
  function DeadlineResumes(s: State, op: Id): State
    requires At(s, op, AwaitingDeadlineGrace)
    requires op in s.collectors && s.collectors[op].Ended?
  {
    var r := s.records[op];
    var x := s.sessions[SessionOf(s, op)].(state := NonReusable);
    match s.collectors[op].outcome
    case Returned(stop) =>
      if stop.StopCancelled? then Conclude(s, op, Settled(r, TimedOut, None, Some(ExecutionDeadline)), x)
      else Quarantine(s, op, InDoubtAs(op, DeadlineStopMismatch))
    case Overflowed(settledCancelled) => PromptOverflowed(s, op, settledCancelled)
    case Raised => PromptRaised(LeaveLock(s, op), op)
    case WasCancelled => Conclude(s, op, r, x)
  }

  /** A prompt task that only has its finally block left runs it. */
  function Unwind(s: State, op: Id): State
    requires At(s, op, Unwinding)
  {
    Finish(s, op)
  }

  // ----- cancellation -----

  function StartCancel(s: State, op: Id): State
    requires At(s, op, Scheduled) && s.records[op].identity.target.Some?
  {
    WithCall(WithTask(WithRecord(s, op, s.records[op].(state := Running)), op, SendingCancel),
             CancelCall(s.records[op].identity.target.value))
  }

  function CancelSent(s: State, op: Id): State
    requires At(s, op, SendingCancel)
  {
    WithTask(s, op, AwaitingTarget)
  }

  function CancelSendFails(s: State, op: Id): State
    requires At(s, op, SendingCancel) && s.records[op].identity.target.Some?
  {
    QuarantineSession(s, op,
      [Settlement(s.records[op].identity.target.value, InDoubt, None, Some(CancelTransportFailed)),
       Settlement(op, Failed, None, Some(CancelFailed))])
  }

  function TargetSettled(s: State, op: Id, target: Id): State
    requires At(s, op, AwaitingTarget) && target in s.records
  {
    WithTask(
      WithRecord(s, op, Settled(s.records[op], Completed, Some(CancelReport(s.records[target].state, true)), None)),
      op, Finished)
  }

  function CancelDeferred(op: Id, target: Id): seq<Settlement> {
    [Settlement(target, InDoubt, None, Some(CancellationSettlementUnknown)),
     Settlement(op, Completed, Some(CancelReport(InDoubt, true)), None)]
  }

  function CancelGraceExpires(s: State, op: Id, target: Id): State
    requires At(s, op, AwaitingTarget)
  {
    if target in s.registered then
      WithTask(CancelCollector(s, target).(registered := s.registered - {target}), op, ReapingTarget)
    else
      QuarantineSession(s, op, CancelDeferred(op, target))
  }

  function TargetReaped(s: State, op: Id, target: Id): State
    requires At(s, op, ReapingTarget)
  {
    QuarantineSession(s, op, CancelDeferred(op, target))
  }

  // ----- abort and publication -----

  function AbortChild(s: State, op: Id, deferred: seq<Settlement>): State
    requires At(s, op, Quarantining(deferred))
  {
    WithTask(s, op, Aborting(deferred)).(abortAttempted := true, transportAlive := false)
  }

  /** The finally block of `_quarantine_uncertain`, and what is left of the task after it. */
  function PublishDeferred(s: State, op: Id, deferred: seq<Settlement>): State
    requires At(s, op, Aborting(deferred))
  {
    var t := s.(records := Publish(s.records, deferred));
    if IsPrompt(s, op) && Located(t, op) then Finish(t, op) else WithTask(t, op, Finished)
  }

  // ----- events -----

  datatype Event =
    | DoCreate(req: Request)
    | DoPrompt(session: Id, body: PromptRequest)
    | DoCancel(req: Request)
    | DoRetire(req: Request)
    | TaskRuns(op: Id)                                  // a scheduled task starts, or a waiter gets the lock
    | CreateReply(op: Id, backend: Id, model: Id)
    | CreateReject(op: Id)
    | CreateTimeout(op: Id)
    | CreateError(op: Id)
    | CollectorEnds(op: Id, outcome: CollectorOutcome)
    | CollectorSeen(op: Id)                             // the prompt resumes from either wait
    | Deadline(op: Id)
    | SendSucceeds(op: Id)
    | SendFails(op: Id)
    | GraceExpires(op: Id)
    | Reaped(op: Id)
    | TargetSeen(op: Id)
    | Abort(op: Id)
    | PublishNow(op: Id)
    | UnwindNow(op: Id)
    | OwnerReportsLoss
    | TransportDies

  function TargetOf(s: State, op: Id): Option<Id> {
    if op in s.records then s.records[op].identity.target else None
  }

  predicate CollectorEnded(s: State, op: Id) {
    op in s.collectors && s.collectors[op].Ended?
  }

  /** The state after an event; an event that cannot happen now changes nothing. */
  function Next(s: State, e: Event): State {
    match e
    case DoCreate(req) => if req.CreateSession? then AdmitCreate(s, req).0 else s
    case DoPrompt(sid, body) => if ValidLayers(body) then AdmitPrompt(s, sid, body).0 else s
    case DoCancel(req) => if req.Cancel? then AdmitCancel(s, req).0 else s
    case DoRetire(req) => if req.Retire? then AdmitRetire(s, req).0 else s
    case TaskRuns(op) =>
      if IsPrompt(s, op) then
        if At(s, op, Scheduled) || At(s, op, AwaitingLock) then EnterLock(s, op) else s
      else if At(s, op, Scheduled) then
        if s.records[op].identity.kind.CreateKind? then StartCreate(s, op)
        else if s.records[op].identity.kind.CancelKind? && TargetOf(s, op).Some? then StartCancel(s, op)
        else s
      else s
    case CreateReply(op, backend, model) => if At(s, op, AwaitingCreate) then CreateReplied(s, op, backend, model)
      else s
    case CreateReject(op) => if At(s, op, AwaitingCreate) then CreateRejected(s, op) else s
    case CreateTimeout(op) => if At(s, op, AwaitingCreate) then CreateTimedOut(s, op) else s
    case CreateError(op) => if At(s, op, AwaitingCreate) then CreateRaised(s, op) else s
    case CollectorEnds(op, outcome) =>
      if op in s.collectors && s.collectors[op].Live? && (outcome.WasCancelled? ==> s.collectors[op].cancelRequested)
      then s.(collectors := s.collectors[op := Ended(outcome)]) else s
    case CollectorSeen(op) =>
      if CollectorEnded(s, op) then
        if At(s, op, AwaitingCollector) && IsPrompt(s, op) then PromptResumes(s, op)
        else if At(s, op, AwaitingDeadlineGrace) then DeadlineResumes(s, op)
        else s
      else s
    case Deadline(op) => if At(s, op, AwaitingCollector) then DeadlineFires(s, op) else s
    case SendSucceeds(op) =>
      if At(s, op, SendingDeadlineCancel) then DeadlineCancelSent(s, op)
      else if At(s, op, SendingCancel) then CancelSent(s, op)
      else s
    case SendFails(op) =>
      if At(s, op, SendingDeadlineCancel) then DeadlineCancelFailed(s, op)
      else if At(s, op, SendingCancel) && TargetOf(s, op).Some? then CancelSendFails(s, op)
      else s
    case GraceExpires(op) =>
      if At(s, op, AwaitingDeadlineGrace) then DeadlineGraceExpires(s, op)
      else if At(s, op, AwaitingTarget) && TargetOf(s, op).Some? then CancelGraceExpires(s, op, TargetOf(s, op).value)
      else s
    case Reaped(op) =>
      if At(s, op, ReapingCollector) && CollectorEnded(s, op) then CollectorReaped(s, op)
      else if At(s, op, ReapingTarget) && TargetOf(s, op).Some? && CollectorEnded(s, TargetOf(s, op).value) then
        TargetReaped(s, op, TargetOf(s, op).value)
      else s
    case TargetSeen(op) =>
      var target := TargetOf(s, op);
      if At(s, op, AwaitingTarget) && target.Some? && target.value in s.records &&
        s.records[target.value].state.Terminal()
      then TargetSettled(s, op, target.value) else s
    case Abort(op) =>
      if Located(s, op) && s.tasks[op].Quarantining? then AbortChild(s, op, s.tasks[op].deferred) else s
    case PublishNow(op) =>
      if Located(s, op) && s.tasks[op].Aborting? then PublishDeferred(s, op, s.tasks[op].deferred) else s
    case UnwindNow(op) => if At(s, op, Unwinding) then Unwind(s, op) else s
    case OwnerReportsLoss => MarkLost(s, None, {})
    case TransportDies => s.(transportAlive := false)
  }

  function Run(s: State, events: seq<Event>): State
    decreases |events|
  {
    if events == [] then s else Run(Next(s, events[0]), events[1..])
  }
}
