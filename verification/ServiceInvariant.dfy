/** What every reachable state of the direct service satisfies. */
module ServiceInvariant {
  import opened Wrappers
  import opened DirectProtocol
  import opened DirectState
  import opened ServiceModel

  // ----- shape: references resolve, tasks fit their operations -----

  predicate TaskFits(kind: OperationKind, t: Task) {
    match t
    case Scheduled => true
    case AwaitingCreate => kind.CreateKind?
    case AwaitingLock | AwaitingCollector | SendingDeadlineCancel | AwaitingDeadlineGrace | ReapingCollector
    | Unwinding =>
      kind.PromptKind?
    case SendingCancel | AwaitingTarget | ReapingTarget => kind.CancelKind?
    case Quarantining(_) | Aborting(_) => true
    case Finished => true
  }

  predicate RecordShaped(s: State, op: Id)
    requires op in s.records
  {
    var i := s.records[op].identity;
    && i.sessionId in s.sessions
    && match i.kind
       case CreateKind => i.request.CreateSession? && op in s.tasks
       case PromptKind => i.request.Prompt? && ValidLayers(i.request.body) && op in s.tasks
       case CancelKind =>
         && i.target.Some?
         && i.target.value in s.records
         && s.records[i.target.value].identity.kind.PromptKind?
         && s.records[i.target.value].identity.sessionId == i.sessionId
       case RetireKind => op !in s.tasks
  }

  predicate IsCreate(s: State, op: Id) {
    op in s.records && s.records[op].identity.kind.CreateKind?
  }

  predicate CreateSameSession(s: State, a: Id, b: Id)
    requires a in s.records && b in s.records
  {
    IsCreate(s, a) && IsCreate(s, b) && SessionOf(s, a) == SessionOf(s, b)
  }

  ghost predicate Shape(s: State) {
    && (forall op {:trigger op in s.records} :: op in s.records ==> RecordShaped(s, op))
    && (forall op {:trigger op in s.tasks} :: op in s.tasks ==>
         op in s.records && TaskFits(s.records[op].identity.kind, s.tasks[op]))
    && (forall op {:trigger op in s.collectors} :: op in s.collectors ==>
         op in s.records && s.records[op].identity.kind.PromptKind?)
    && s.registered <= s.collectors.Keys
    && (forall a, b {:trigger a in s.records, b in s.records} ::
          a in s.records && b in s.records && CreateSameSession(s, a, b) ==> a == b)
  }

  // ----- accounting: reservations and capacities -----

  function Prompts(s: State): set<Id> {
    set op | op in s.records && s.records[op].identity.kind.PromptKind?
  }

  ghost predicate Reserved(s: State) {
    && s.released <= Prompts(s)
    && s.reservations == |Prompts(s) - s.released|
    && s.reservations <= s.config.maxQueuedPrompts + 1
    && (forall op {:trigger op in s.released} :: op in s.released && op in s.records ==> ReleasedFor(s, op))
  }

  /** A released reservation belongs to a settled prompt or to a task that has ended. */
  predicate ReleasedFor(s: State, op: Id)
    requires op in s.records
  {
    s.records[op].state.Terminal() || (op in s.tasks && s.tasks[op].Finished?)
  }

  predicate Bounded(s: State) {
    |s.records| <= s.config.maxOperations && |s.sessions| <= s.config.maxSessions
  }

  // ----- sessions: the lifetime facts that prompts rely on -----

  predicate SessionCoherent(x: Session) {
    && (x.state.Ready? ==> x.backend.Some?)
    && (x.activeInvocation.Some? ==> x.activeInvocation.value in x.contracts)
    && (!x.stableSubmitted ==> x.activeInvocation.None? && x.contracts == map[])
  }

  /** A completed prompt has left its contract, and an initial one its stable instructions, in the session. */
  predicate Fulfilled(x: Session, r: Record) {
    r.state.Completed? && r.identity.request.Prompt? ==>
      && (r.identity.request.body.phase.Initial? ==> x.stableSubmitted)
      && r.identity.request.body.invocationId in x.contracts
      && x.contracts[r.identity.request.body.invocationId] == r.identity.request.body.contractDigest
  }

  ghost predicate Coherent(s: State) {
    && (forall sid {:trigger sid in s.sessions} :: sid in s.sessions ==> SessionCoherent(s.sessions[sid]))
    && (forall op {:trigger op in s.records} :: op in s.records && IsPrompt(s, op) && SessionOf(s, op) in s.sessions ==>
          && s.sessions[SessionOf(s, op)].backend.Some?
          && Fulfilled(s.sessions[SessionOf(s, op)], s.records[op]))
  }

  // ----- calls: what the child has been asked to do -----

  ghost predicate CallGrounded(s: State, call: Call) {
    match call
    case CreateCall(op) => op in s.tasks && !s.tasks[op].Scheduled? && op in s.records &&
      s.records[op].identity.kind.CreateKind?
    case PromptCall(op, sid, phase) => IsPrompt(s, op) && op in s.collectors && SessionOf(s, op) == sid &&
      BodyOf(s, op).phase == phase
    case CancelCall(op) => op in s.collectors
  }

  /** Two calls are the same effect of the same operation. */
  predicate SameEffect(a: Call, b: Call) {
    match (a, b)
    case (CreateCall(x), CreateCall(y)) => x == y
    case (PromptCall(x, _, _), PromptCall(y, _, _)) => x == y
    case _ => false
  }

  /** Two calls submit stable instructions to the same session. */
  predicate SameSubmission(a: Call, b: Call) {
    a.PromptCall? && b.PromptCall? && a.session == b.session && a.phase.Initial? && b.phase.Initial?
  }

  ghost predicate CallsOnce(s: State) {
    && (forall i :: 0 <= i < |s.calls| ==> CallGrounded(s, s.calls[i]))
    && (forall i, j :: 0 <= i < j < |s.calls| ==> !SameEffect(s.calls[i], s.calls[j]))
    && (forall i, j :: 0 <= i < j < |s.calls| ==> !SameSubmission(s.calls[i], s.calls[j]))
  }

  // ----- reports: what a settled record says is true -----

  /** Uncertainty is published only after quarantine, and deferred uncertainty only after the abort. */
  predicate DoubtJustified(s: State, error: Option<ErrorCode>) {
    && error.Some?
    && (error.value.CancellationStopMismatch?
        || (s.quarantined && (error.value.ContinuityLost? || s.abortAttempted)))
  }

  ghost predicate ReportTrue(s: State, op: Id)
    requires op in s.records
  {
    var r := s.records[op];
    && (r.state.InDoubt? ==> DoubtJustified(s, r.error))
    && (r.result == Some(CancelledPreDispatch) ==> op !in s.collectors && r.state.Cancelled?)
    && (r.error == Some(CancelFailed) ==> s.quarantined && s.abortAttempted)
    && (r.result.Some? && r.result.value.CancelReport? ==>
         && r.identity.target.Some?
         && r.identity.target.value in s.records
         && r.result.value.targetState.Terminal()
         && (s.records[r.identity.target.value].state == r.result.value.targetState
             || (r.result.value.targetState.InDoubt? && s.quarantined && s.abortAttempted)))
  }

  ghost predicate Reports(s: State) {
    forall op {:trigger op in s.records} :: op in s.records ==> ReportTrue(s, op)
  }

  // ----- the generation is not lost -----

  predicate HoldsLock(t: Task) {
    t.AwaitingCollector? || t.SendingDeadlineCancel? || t.AwaitingDeadlineGrace? || t.ReapingCollector?
  }

  predicate NotDispatched(t: Task) {
    t.Scheduled? || t.AwaitingLock?
  }

  /** The collector was cancelled, or is going to be. */
  predicate CollectorCut(c: Collector) {
    c == Live(true) || c == Ended(WasCancelled)
  }

  /** How far the record of a prompt can be, given where its task stands. */
  predicate PromptStage(s: State, op: Id)
    requires op in s.records && op in s.tasks
  {
    var state := s.records[op].state;
    var t := s.tasks[op];
    if NotDispatched(t) then
      && op !in s.collectors
      && (state.Accepted? || state.Queued? || state.Cancelled?)
    else if HoldsLock(t) then
      && op in s.collectors
      && s.lock == Some(op)
      && (state.Cancelling? || (state.Running? && t.AwaitingCollector? && !CollectorCut(s.collectors[op])))
    else
      && t.Finished?
      && (state.Terminal() ||
           (state.Cancelling? && s.collectors.Keys >= {op} && s.collectors[op] == Ended(WasCancelled)))
  }

  predicate CreateStage(s: State, op: Id)
    requires op in s.records && op in s.tasks
  {
    var state := s.records[op].state;
    match s.tasks[op]
    case Scheduled => state.Accepted?
    case AwaitingCreate => state.Running?
    case _ => s.tasks[op].Finished? && state.Terminal()
  }

  predicate IsCancel(s: State, op: Id) {
    && op in s.records
    && s.records[op].identity.kind.CancelKind?
    && s.records[op].identity.target.Some?
    && s.records[op].identity.target.value in s.records
  }

  predicate CancelStage(s: State, op: Id)
    requires IsCancel(s, op)
  {
    var state := s.records[op].state;
    var target := s.records[op].identity.target.value;
    if op !in s.tasks then state.Terminal()
    else
      && target in s.collectors
      && (s.records[target].state.Cancelling? || s.records[target].state.Terminal())
      && match s.tasks[op]
         case Scheduled => state.Accepted?
         case SendingCancel | AwaitingTarget | ReapingTarget => state.Running?
         case _ => s.tasks[op].Finished? && state.Terminal()
  }

  ghost predicate PromptStages(s: State) {
    forall op {:trigger op in s.records} ::
      op in s.records && op in s.tasks && s.records[op].identity.kind.PromptKind? ==> PromptStage(s, op)
  }

  ghost predicate Stages(s: State) {
    && PromptStages(s)
    && (forall op {:trigger op in s.records} ::
          op in s.records && op in s.tasks && s.records[op].identity.kind.CreateKind? ==> CreateStage(s, op))
    && (forall op {:trigger op in s.records} :: op in s.records && IsCancel(s, op) ==> CancelStage(s, op))
    && (forall op {:trigger op in s.records} :: op in s.records && s.records[op].identity.kind.RetireKind? ==>
         s.records[op].state.Terminal())
  }

  ghost predicate Locking(s: State) {
    && (s.lock.Some? ==> s.lock.value in s.tasks && HoldsLock(s.tasks[s.lock.value]))
    && (forall op {:trigger op in s.collectors} :: op in s.collectors && s.collectors[op].Live? ==>
         && s.lock == Some(op)
         && (op in s.registered || s.collectors[op] == Live(true)))
  }

  /** A prompt whose outcome is not settled. */
  predicate Unsettled(s: State, op: Id) {
    IsPrompt(s, op) && !s.records[op].state.Terminal()
  }

  predicate UnsettledFits(s: State, op: Id)
    requires Unsettled(s, op)
  {
    && SessionOf(s, op) in s.sessions
    && ValidLayers(BodyOf(s, op))
    && LifetimeAllows(s.sessions[SessionOf(s, op)], BodyOf(s, op))
    && !s.sessions[SessionOf(s, op)].state.Ready?
    && (op in s.tasks && !s.tasks[op].Finished? ==> s.sessions[SessionOf(s, op)].active == Some(op))
  }

  /** A session creation whose outcome is not settled. */
  predicate Opening(s: State, op: Id) {
    IsCreate(s, op) && !s.records[op].state.Terminal()
  }

  predicate Unopened(s: State, sid: Id) {
    sid in s.sessions && !s.sessions[sid].state.Ready? && s.sessions[sid].backend.None?
  }

  ghost predicate UnsettledOnce(s: State) {
    && (forall op {:trigger op in s.records} :: op in s.records && Unsettled(s, op) ==> UnsettledFits(s, op))
    && (forall a, b {:trigger a in s.records, b in s.records} ::
         a in s.records && b in s.records && Unsettled(s, a) && Unsettled(s, b) &&
           SessionOf(s, a) == SessionOf(s, b) ==>
           a == b)
  }

  ghost predicate OpeningAlone(s: State) {
    forall c, op {:trigger c in s.records, op in s.records} ::
      c in s.records && op in s.records && Opening(s, c) && IsPrompt(s, op) ==> SessionOf(s, op) != SessionOf(s, c)
  }

  ghost predicate Exclusive(s: State) {
    && UnsettledOnce(s)
    && OpeningAlone(s)
    && (forall c {:trigger c in s.records} :: c in s.records && Opening(s, c) ==> Unopened(s, SessionOf(s, c)))
  }

  /** The operation can no longer make its session ready. */
  predicate Inert(s: State, op: Id)
    requires op in s.records
  {
    var kind := s.records[op].identity.kind;
    s.records[op].state.Terminal()
    || (kind.PromptKind? && op in s.tasks && s.tasks[op].Finished?)
    || kind.CancelKind?
    || kind.RetireKind?
  }

  /** No prompt will ever be admitted to the session again. */
  ghost predicate Closed(s: State, sid: Id) {
    s.quarantined ||
    (&& sid in s.sessions
     && !s.sessions[sid].state.Ready?
     && (forall op {:trigger op in s.records} :: op in s.records && SessionOf(s, op) == sid ==> Inert(s, op)))
  }

  /** A dispatched prompt that ended in anything but success. */
  predicate Spoiled(s: State, op: Id) {
    IsPrompt(s, op) && op in s.collectors && s.records[op].state.Terminal() && !s.records[op].state.Completed?
  }

  ghost predicate SpoiledClosed(s: State) {
    forall op {:trigger op in s.records} :: op in s.records && Spoiled(s, op) ==> Closed(s, SessionOf(s, op))
  }

  ghost predicate Intact(s: State) {
    && !s.abortAttempted
    && s.lostBy.None?
    && Stages(s)
    && Locking(s)
    && Exclusive(s)
    && SpoiledClosed(s)
  }

  // ----- the generation is lost -----

  predicate Deferring(t: Task) {
    t.Quarantining? || t.Aborting?
  }

  /** The task that lost the generation still has this operation's settlement to publish. */
  predicate Deferred(s: State, op: Id) {
    && s.lostBy.Some?
    && s.lostBy.value in s.tasks
    && Deferring(s.tasks[s.lostBy.value])
    && op in Ops(s.tasks[s.lostBy.value].deferred)
  }

  ghost predicate LostShape(s: State) {
    && (forall op {:trigger op in s.records} :: op in s.records ==> s.records[op].state.Terminal() || Deferred(s, op))
    && (forall op {:trigger op in s.tasks} :: op in s.tasks ==>
         s.tasks[op].Finished? || s.tasks[op].Unwinding? || (s.lostBy == Some(op) && Deferring(s.tasks[op])))
    && (forall op {:trigger op in s.tasks} :: op in s.tasks && Deferring(s.tasks[op]) ==>
         SettlementsFit(s, op, s.tasks[op].deferred))
    && (forall op {:trigger op in s.tasks} :: op in s.tasks && s.tasks[op].Aborting? ==> s.abortAttempted)
    && (forall op {:trigger op in s.collectors} :: op in s.collectors && s.collectors[op].Live? ==>
         s.collectors[op] == Live(true))
  }

  /** The settlements a task may have deferred: its own, and for a cancellation its target's first. */
  predicate SettlementsFit(s: State, op: Id, deferred: seq<Settlement>) {
    && op in s.records
    && if s.records[op].identity.kind.CancelKind? then
         && |deferred| == 2
         && s.records[op].identity.target == Some(deferred[0].op)
         && deferred[0].state.InDoubt?
         && deferred[0].result.None?
         && DeferredCode(deferred[0].error)
         && deferred[1].op == op
         && ((deferred[1].state.Completed? && deferred[1].result == Some(CancelReport(InDoubt, true)))
             || (deferred[1].state.Failed? && deferred[1].result.None?))
       else
         && |deferred| == 1
         && deferred[0].op == op
         && deferred[0].state.InDoubt?
         && (deferred[0].result.None? || deferred[0].result == Some(RetainedEvidence))
         && DeferredCode(deferred[0].error)
  }

  predicate DeferredCode(error: Option<ErrorCode>) {
    error.Some? && !error.value.CancellationStopMismatch? && !error.value.ContinuityLost?
  }

  ghost predicate Base(s: State) {
    Shape(s) && Reserved(s) && Bounded(s) && Coherent(s) && CallsOnce(s) && Reports(s)
  }

  ghost predicate Inv(s: State) {
    Base(s) && if s.quarantined then LostShape(s) else Intact(s)
  }

  /**
   What a step may do to the past: records keep their identity and only climb, settled records keep
   everything, sessions keep their contracts, collectors keep how they ended, calls are only appended.
   */
  ghost predicate RecordGrows(r: Record, r': Record) {
    && r'.identity == r.identity
    && r.state.Stage() <= r'.state.Stage()
    && (r.state.Terminal() ==> r' == r)
  }

  ghost predicate SessionGrows(x: Session, x': Session) {
    && x'.modelId == x.modelId
    && (x.backend.Some? ==> x'.backend == x.backend)
    && x'.stableDigest == x.stableDigest
    && (x.stableSubmitted ==> x'.stableSubmitted)
    && (forall i :: i in x.contracts ==> i in x'.contracts && x'.contracts[i] == x.contracts[i])
  }

  ghost predicate Grows(s: State, s': State) {
    && s'.config == s.config
    && (s.quarantined ==> s'.quarantined && s'.generation == s.generation)
    && (s.abortAttempted ==> s'.abortAttempted)
    && (!s.transportAlive ==> !s'.transportAlive)
    && s.generation <= s'.generation
    && (forall op {:trigger op in s.records} {:trigger op in s'.records} :: op in s.records ==>
         op in s'.records && RecordGrows(s.records[op], s'.records[op]))
    && (forall sid {:trigger sid in s.sessions} :: sid in s.sessions ==>
         sid in s'.sessions && SessionGrows(s.sessions[sid], s'.sessions[sid]))
    && (forall op {:trigger op in s.collectors} :: op in s.collectors ==>
         op in s'.collectors && (s.collectors[op].Ended? ==> s'.collectors[op] == s.collectors[op]))
    && s.released <= s'.released
    && s.calls <= s'.calls
    && (s.quarantined ==> s'.records.Keys == s.records.Keys && s'.calls == s.calls)
  }

  ghost predicate StaysClosed(s: State, s': State) {
    forall sid {:trigger Closed(s', sid)} :: Closed(s, sid) ==> Closed(s', sid)
  }
}
