/**
 What every settlement stands for: the state, result and error of an operation are tied to the request
 it was admitted with, to its session, and to how its collector ended.
 */
module ServiceSettlements {
  import opened Wrappers
  import opened DirectProtocol
  import opened DirectState
  import opened ServiceModel
  import opened ServiceInvariant
  import opened ServiceLocal
  import opened ServiceEvents
  import opened ServiceLoss
  import opened ServiceAdmission
  import opened ServiceRuns
  import opened ServiceAftermath

  /** The child stopped the prompt with this reason, and the collector returned it. */
  predicate StoppedWith(s: State, op: Id, stop: StopReason) {
    op in s.collectors && s.collectors[op] == Ended(Returned(stop))
  }

  /** The collector of the prompt returned a stop reason other than cancelled. */
  predicate StoppedOtherwise(s: State, op: Id) {
    op in s.collectors && s.collectors[op].Ended? && s.collectors[op].outcome.Returned? &&
      !s.collectors[op].outcome.stop.StopCancelled?
  }

  predicate OverflowedAs(s: State, op: Id, settledCancelled: bool) {
    op in s.collectors && s.collectors[op] == Ended(Overflowed(settledCancelled))
  }

  /** What admission has checked of a request, and what of it its session keeps for ever. */
  predicate Requested(s: State, i: Identity) {
    && i.sessionId in s.sessions
    && var x := s.sessions[i.sessionId];
    && (i.kind.CreateKind? ==>
          && i.request.CreateSession?
          && i.request.sessionId == i.sessionId
          && i.request.modelId == x.modelId
          && i.request.stableDigest == x.stableDigest)
    && (i.kind.PromptKind? ==>
          && i.request.Prompt?
          && var body := i.request.body;
          && body.stableDigest == x.stableDigest
          && i.invocationId == Some(body.invocationId)
          && (body.phase.Initial? ==>
                body.stableInstructions.Some? && Sha256(body.stableInstructions.value) == x.stableDigest)
          && (body.outputContract.Some? ==> Sha256(body.outputContract.value) == body.contractDigest))
  }

  predicate CompletedRightly(s: State, op: Id, r: Record) {
    && r.error.None? && r.result.Some?
    && match r.identity.kind
       case CreateKind =>
         && r.result.value.SessionCreated?
         && r.identity.sessionId in s.sessions
         && s.sessions[r.identity.sessionId].backend == Some(r.result.value.backend)
         && s.sessions[r.identity.sessionId].modelId == r.result.value.model
       case PromptKind =>
         r.result.value.PromptDone? && !r.result.value.stop.StopCancelled? && StoppedWith(s, op, r.result.value.stop)
       case CancelKind => r.result.value.CancelReport?
       case RetireKind => r.result.value.SessionRetired?
  }

  predicate FailedRightly(s: State, op: Id, r: Record) {
    match r.identity.kind
    case CreateKind => r.result.None? && r.error == Some(SessionConfigurationFailed)
    case PromptKind => r.result == Some(RetainedEvidence) && r.error == Some(EvidenceLimit) && OverflowedAs(s, op, true)
    case CancelKind => r.result.None? && r.error == Some(CancelFailed)
    case RetireKind => false
  }

  predicate InDoubtRightly(s: State, op: Id, r: Record) {
    var kind := r.identity.kind;
    match r.error
    case Some(ContinuityLost) => r.result.None?
    case Some(SessionCreationInDoubt) => kind.CreateKind? && r.result.None?
    case Some(CancellationStopMismatch) => kind.PromptKind? && r.result.None? && StoppedOtherwise(s, op)
    case Some(DeadlineStopMismatch) => kind.PromptKind? && r.result.None? && StoppedOtherwise(s, op)
    case Some(EvidenceLimitInDoubt) =>
      kind.PromptKind? && r.result == Some(RetainedEvidence) && OverflowedAs(s, op, false)
    case Some(DeadlineSettlementUnknown) => kind.PromptKind? && r.result.None? && CollectorEnded(s, op)
    case Some(PromptInDoubt) => kind.PromptKind? && r.result.None? && op in s.collectors
    case Some(CancelTransportFailed) => kind.PromptKind? && r.result.None? && op in s.collectors
    case Some(CancellationSettlementUnknown) => kind.PromptKind? && r.result.None? && op in s.collectors
    case _ => false
  }

  /** What the state, the result and the error of an operation mean. */
  predicate SettledRightly(s: State, op: Id, r: Record) {
    match r.state
    case Completed => CompletedRightly(s, op, r)
    case Cancelled =>
      && r.identity.kind.PromptKind? && r.error.None?
      && (r.result == Some(CancelledPreDispatch)
          || (r.result == Some(PromptDone(StopCancelled)) && StoppedWith(s, op, StopCancelled)))
    case TimedOut =>
      && r.identity.kind.PromptKind? && r.result.None? && r.error == Some(ExecutionDeadline)
      && StoppedWith(s, op, StopCancelled)
    case Failed => FailedRightly(s, op, r)
    case InDoubt => InDoubtRightly(s, op, r)
    case _ => r.result.None? && r.error.None?
  }

  predicate Explained(s: State, op: Id, r: Record) {
    Requested(s, r.identity) && SettledRightly(s, op, r)
  }

  /** The session was opened by a creation that reports its backend session and its model. */
  predicate OpenedBy(s: State, op: Id, sid: Id) {
    && op in s.records && sid in s.sessions
    && s.records[op].identity.kind.CreateKind? && s.records[op].identity.sessionId == sid
    && s.records[op].state.Completed?
    && s.sessions[sid].backend.Some?
    && s.records[op].result == Some(SessionCreated(s.sessions[sid].backend.value, s.sessions[sid].modelId))
  }

  ghost predicate Opened(s: State, sid: Id) {
    exists op :: OpenedBy(s, op, sid)
  }

  ghost predicate DeferredRightly(s: State) {
    forall d {:trigger d in DeferredOf(s)} :: d in DeferredOf(s) ==>
      d.op in s.records && Explained(s, d.op, SettledAs(s.records[d.op], d))
  }

  /** Once the generation is lost, every session is lost that was not retired. */
  ghost predicate SessionsGone(s: State) {
    s.quarantined ==> forall sid {:trigger sid in s.sessions} :: sid in s.sessions ==>
      s.sessions[sid].state.Lost? || s.sessions[sid].state.Retired?
  }

  ghost predicate AllExplained(s: State) {
    && SessionsGone(s)
    && (forall op {:trigger op in s.records} :: op in s.records ==> Explained(s, op, s.records[op]))
    && DeferredRightly(s)
    && (forall sid {:trigger sid in s.sessions} :: sid in s.sessions && s.sessions[sid].backend.Some? ==>
          Opened(s, sid))
  }

  // ----- what an explanation rests on stays -----

  lemma StillExplained(s: State, s': State, op: Id, r: Record)
    requires Explained(s, op, r) && Grows(s, s')
    ensures Explained(s', op, r)
  {
    assert SessionGrows(s.sessions[r.identity.sessionId], s'.sessions[r.identity.sessionId]);
  }

  lemma StillOpened(s: State, s': State, sid: Id)
    requires Opened(s, sid) && Grows(s, s')
    ensures Opened(s', sid)
  {
    var op :| OpenedBy(s, op, sid);
    assert RecordGrows(s.records[op], s'.records[op]) && SessionGrows(s.sessions[sid], s'.sessions[sid]);
    assert OpenedBy(s', op, sid);
  }

  /** What is new after a step is explained. */
  ghost predicate NewsExplained(s: State, s': State) {
    && SessionsGone(s')
    && (forall op {:trigger op in s'.records} :: op in s'.records ==>
          (op in s.records && s'.records[op] == s.records[op]) || Explained(s', op, s'.records[op]))
    && DeferredRightly(s')
    && (forall sid {:trigger sid in s'.sessions} :: sid in s'.sessions && s'.sessions[sid].backend.Some? ==>
          (sid in s.sessions && s.sessions[sid].backend.Some?) || Opened(s', sid))
  }

  lemma NewsExplain(s: State, s': State)
    requires AllExplained(s) && Grows(s, s') && NewsExplained(s, s')
    ensures AllExplained(s')
  {
    hide Grows, Explained, Opened, DeferredRightly;
    forall op | op in s'.records ensures Explained(s', op, s'.records[op]) {
      if op in s.records && s'.records[op] == s.records[op] {
        StillExplained(s, s', op, s.records[op]);
      }
    }
    forall sid | sid in s'.sessions && s'.sessions[sid].backend.Some? ensures Opened(s', sid) {
      if sid in s.sessions && s.sessions[sid].backend.Some? { StillOpened(s, s', sid); }
    }
  }

  // ----- one operation changes -----

  /** What is known of an event on an intact generation. */
  ghost predicate Before(s: State, s': State) {
    Inv(s) && !s.quarantined && AllExplained(s) && Inv(s') && Grows(s, s')
  }

  lemma Intactly(s: State)
    requires Inv(s) && !s.quarantined
    ensures DeferredOf(s) == []
  {
  }

  /** An event that only touches `op` and its session, and whose record of `op` is explained. */
  lemma OneNews(s: State, s': State, op: Id)
    requires Local(s, s', op) && Inv(s') && !s'.quarantined
    requires Explained(s', op, s'.records[op])
    requires var sid := SessionOf(s', op);
      s'.sessions[sid].backend.Some? ==>
        (sid in s.sessions && s.sessions[sid].backend.Some?) || OpenedBy(s', op, sid)
    ensures NewsExplained(s, s')
  {
    hide Inv, Explained;
    Intactly(s');
  }

  /** Nothing that needs an explanation changes. */
  lemma NoNews(s: State, s': State)
    requires s'.records == s.records && s'.sessions == s.sessions && Inv(s') && !s'.quarantined
    ensures NewsExplained(s, s')
  {
    Intactly(s');
    hide Inv, Explained, Opened;
  }

  lemma StillRequested(s: State, s': State, i: Identity)
    requires Requested(s, i) && Grows(s, s')
    ensures Requested(s', i)
  {
    assert SessionGrows(s.sessions[i.sessionId], s'.sessions[i.sessionId]);
  }

  /** An operation that is not settled explains itself. */
  lemma UnsettledExplained(s: State, op: Id, r: Record)
    requires Requested(s, r.identity) && !r.state.Terminal() && r.result.None? && r.error.None?
    ensures Explained(s, op, r)
  {
  }

  /**
   The operation stands, goes on without a settlement, or is settled rightly; and only its creation
   opens a session.
   */
  ghost predicate Moves(s: State, s': State, op: Id) {
    && op in s.records && op in s'.records
    && (s'.records[op] == s.records[op]
        || SettledRightly(s', op, s'.records[op])
        || (&& !s.records[op].state.Terminal() && !s'.records[op].state.Terminal()
            && s'.records[op] == s.records[op].(state := s'.records[op].state)))
    && s'.records[op].identity == s.records[op].identity
    && var sid := SessionOf(s', op);
       sid in s'.sessions &&
         (s'.sessions[sid].backend.Some? ==>
            (sid in s.sessions && s.sessions[sid].backend.Some?) || OpenedBy(s', op, sid))
  }

  lemma MovedNews(s: State, s': State, op: Id)
    requires Before(s, s') && !s'.quarantined && Local(s, s', op) && Moves(s, s', op)
    ensures NewsExplained(s, s')
  {
    hide Inv, SettledRightly, Requested, Local, Grows, OpenedBy;
    assert Explained(s, op, s.records[op]);
    StillRequested(s, s', s.records[op].identity);
    if s'.records[op] == s.records[op] {
      StillExplained(s, s', op, s.records[op]);
    } else if !SettledRightly(s', op, s'.records[op]) {
      UnsettledIsBare(s, op);
      UnsettledExplained(s', op, s'.records[op]);
    }
    OneNews(s, s', op);
  }

  lemma UnsettledIsBare(s: State, op: Id)
    requires op in s.records && Explained(s, op, s.records[op]) && !s.records[op].state.Terminal()
    ensures s.records[op].result.None? && s.records[op].error.None?
  {
  }

  // ----- each event on an intact generation -----

  lemma CreateNews(s: State, req: Request)
    requires req.CreateSession? && Before(s, AdmitCreate(s, req).0)
    ensures NewsExplained(s, AdmitCreate(s, req).0)
  {
    hide Inv, Local, IntactAt, Grows, AllExplained;
    var op := req.pin.operationId;
    CreateAdmittedAccounts(s, req);
    if op !in s.records && AdmitCreate(s, req).1.Success? {
      New(s, op, req.sessionId);
      CreateAdmittedLocal(s, req);
      OneNews(s, AdmitCreate(s, req).0, op);
    } else {
      NoNews(s, s);
    }
  }

  lemma PromptNews(s: State, sid: Id, r: PromptRequest)
    requires ValidLayers(r) && Before(s, AdmitPrompt(s, sid, r).0)
    ensures NewsExplained(s, AdmitPrompt(s, sid, r).0)
  {
    hide Inv, Local, IntactAt, Grows, AllExplained;
    var op := r.pin.operationId;
    PromptAdmittedAccounts(s, sid, r);
    if op !in s.records && AdmitPrompt(s, sid, r).1.Success? {
      New(s, op, sid);
      PromptAdmittedLocal(s, sid, r);
      OneNews(s, AdmitPrompt(s, sid, r).0, op);
    } else {
      NoNews(s, s);
    }
  }

  lemma RetireNews(s: State, req: Request)
    requires req.Retire? && Before(s, AdmitRetire(s, req).0)
    ensures NewsExplained(s, AdmitRetire(s, req).0)
  {
    hide Inv, Local, IntactAt, Grows, AllExplained;
    var op := req.pin.operationId;
    RetireAdmittedAccounts(s, req);
    if op !in s.records && AdmitRetire(s, req).1.Success? {
      New(s, op, req.sessionId);
      RetireAdmittedLocal(s, req);
      OneNews(s, AdmitRetire(s, req).0, op);
    } else {
      NoNews(s, s);
    }
  }

  lemma CreateRepliedMoves(s: State, op: Id, backend: Id, model: Id)
    requires At(s, op, AwaitingCreate) && model == s.sessions[SessionOf(s, op)].modelId
    requires s.records[op].identity.kind.CreateKind? && !s.records[op].state.Terminal()
    ensures Moves(s, CreateReplied(s, op, backend, model), op)
    ensures CreateReplied(s, op, backend, model).quarantined == s.quarantined
  {
  }

  lemma CreateRepliedNews(s: State, op: Id, backend: Id, model: Id)
    requires At(s, op, AwaitingCreate) && Before(s, CreateReplied(s, op, backend, model))
    ensures NewsExplained(s, CreateReplied(s, op, backend, model))
  {
    hide Inv, Local, IntactAt, Grows, AllExplained, Moves, NewsExplained;
    Facts(s, op);
    if model == s.sessions[SessionOf(s, op)].modelId {
      CreateRepliedLocal(s, op, backend, model);
      CreateRepliedMoves(s, op, backend, model);
      MovedNews(s, CreateReplied(s, op, backend, model), op);
    } else {
      CreateRejectedNews(s, op);
    }
  }

  lemma CreateRejectedMoves(s: State, op: Id)
    requires At(s, op, AwaitingCreate)
    requires s.records[op].identity.kind.CreateKind? && !s.records[op].state.Terminal()
    ensures Moves(s, CreateRejected(s, op), op) && CreateRejected(s, op).quarantined == s.quarantined
  {
  }

  lemma CreateRejectedNews(s: State, op: Id)
    requires At(s, op, AwaitingCreate) && Before(s, CreateRejected(s, op))
    ensures NewsExplained(s, CreateRejected(s, op))
  {
    hide Inv, Local, IntactAt, Grows, AllExplained, Moves, NewsExplained;
    Facts(s, op);
    CreateRejectedLocal(s, op);
    CreateRejectedMoves(s, op);
    MovedNews(s, CreateRejected(s, op), op);
  }

  // prompts

  lemma ConcludeMoves(s: State, op: Id, r: Record, x: Session)
    requires Located(s, op) && IsPrompt(s, op) && x.backend == s.sessions[SessionOf(s, op)].backend
    requires r == s.records[op] || (r.identity == s.records[op].identity && SettledRightly(s, op, r))
    ensures var s' := Conclude(s, op, r, x); Moves(s, s', op) && s'.quarantined == s.quarantined
  {
    hide AfterFinally, SettledRightly;
    IdleKeepsBackend(x, op, r.state, s.quarantined);
    if r != s.records[op] { SameCollectorRightly(s, Conclude(s, op, r, x), op, r); }
  }

  lemma IdleKeepsBackend(x: Session, op: Id, state: OperationState, quarantined: bool)
    ensures AfterFinally(x, op, state, quarantined).backend == x.backend
  {
  }

  /** The settlement of a prompt rests on its collector alone. */
  lemma SameCollectorRightly(s: State, s': State, op: Id, r: Record)
    requires SettledRightly(s, op, r) && r.identity.kind.PromptKind? && s'.collectors == s.collectors
    ensures SettledRightly(s', op, r)
  {
  }

  lemma ConcludeNews(s: State, op: Id, r: Record, x: Session)
    requires Located(s, op) && MayConclude(s, op) && ConclusionFits(s, op, r, x) && Before(s, Conclude(s, op, r, x))
    requires r == s.records[op] || SettledRightly(s, op, r)
    ensures NewsExplained(s, Conclude(s, op, r, x))
  {
    hide Inv, Local, IntactAt, AllExplained, Moves, NewsExplained, SettledRightly, Conclude, FactsAt;
    Facts(s, op);
    ConcludeLocal(s, op, r, x);
    ConcludeMoves(s, op, r, x);
    MovedNews(s, Conclude(s, op, r, x), op);
  }

  lemma StoppedRightly(s: State, op: Id, stop: StopReason)
    requires IsPrompt(s, op) && !s.records[op].state.Terminal() && StoppedWith(s, op, stop)
    ensures SettledRightly(s, op, StoppedRecord(s.records[op], stop))
  {
  }

  lemma HoldingIsUnsettled(s: State, op: Id)
    requires Inv(s) && !s.quarantined && Located(s, op) && HoldsLock(s.tasks[op])
    ensures IsPrompt(s, op) && !s.records[op].state.Terminal() && op in s.collectors
  {
    hide Inv;
    Facts(s, op);
  }

  lemma PromptStoppedNews(s: State, op: Id, stop: StopReason)
    requires At(s, op, AwaitingCollector) && IsPrompt(s, op) && StoppedWith(s, op, stop)
    requires Before(s, PromptStopped(s, op, stop))
    ensures NewsExplained(s, PromptStopped(s, op, stop))
  {
    hide Inv, NewsExplained, SettledRightly, Conclude, StoppedRecord, StoppedSession, ConclusionFits, FactsAt;
    HoldingIsUnsettled(s, op);
    Facts(s, op);
    StoppedFits(s, op, stop);
    StoppedRightly(s, op, stop);
    ConcludeNews(s, op, StoppedRecord(s.records[op], stop),
                 StoppedSession(s.sessions[SessionOf(s, op)], s.records[op], stop));
  }

  /** A prompt that ends with another settlement, or without one, on a session that is not reusable. */
  lemma SpoiledNews(s: State, op: Id, r: Record)
    requires Located(s, op) && IsPrompt(s, op) && HoldsLock(s.tasks[op]) && CollectorEnded(s, op)
    requires var r0 := s.records[op];
      || (r == Settled(r0, Failed, Some(RetainedEvidence), Some(EvidenceLimit)) && OverflowedAs(s, op, true))
      || (r == Settled(r0, TimedOut, None, Some(ExecutionDeadline)) && StoppedWith(s, op, StopCancelled))
      || (r == r0 && r.state.Cancelling? && s.collectors[op] == Ended(WasCancelled))
    requires Before(s, Conclude(s, op, r, s.sessions[SessionOf(s, op)].(state := NonReusable)))
    ensures NewsExplained(s, Conclude(s, op, r, s.sessions[SessionOf(s, op)].(state := NonReusable)))
  {
    hide Inv, NewsExplained, Conclude, ConclusionFits, FactsAt;
    HoldingIsUnsettled(s, op);
    Facts(s, op);
    SpoiledFits(s, op, r);
    ConcludeNews(s, op, r, s.sessions[SessionOf(s, op)].(state := NonReusable));
  }

  lemma StaleFits(s: State, op: Id)
    requires Inv(s) && !s.quarantined && Located(s, op) && IsPrompt(s, op)
    requires NotDispatched(s.tasks[op]) && s.records[op].state.Terminal()
    ensures MayConclude(s, op) && ConclusionFits(s, op, s.records[op], s.sessions[SessionOf(s, op)])
  {
    hide Inv;
    Facts(s, op);
  }

  lemma StaleNews(s: State, op: Id)
    requires Located(s, op) && IsPrompt(s, op) && NotDispatched(s.tasks[op]) && s.records[op].state.Terminal()
    requires Before(s, Finish(s, op))
    ensures NewsExplained(s, Finish(s, op))
  {
    hide Inv, NewsExplained, Conclude, ConclusionFits;
    StaleFits(s, op);
    ConcludeNews(s, op, s.records[op], s.sessions[SessionOf(s, op)]);
  }

  lemma CutFits(s: State, op: Id)
    requires Inv(s) && !s.quarantined && Located(s, op) && HoldsLock(s.tasks[op])
    requires op in s.collectors && s.collectors[op] == Ended(WasCancelled)
    ensures MayConclude(s, op) && ConclusionFits(s, op, s.records[op], s.sessions[SessionOf(s, op)])
    ensures s.records[op].state.Cancelling?
  {
    hide Inv;
    Facts(s, op);
  }

  lemma CutNews(s: State, op: Id)
    requires Located(s, op) && HoldsLock(s.tasks[op]) && op in s.collectors && s.collectors[op] == Ended(WasCancelled)
    requires Before(s, Finish(s, op))
    ensures NewsExplained(s, Finish(s, op))
  {
    hide Inv, NewsExplained, Conclude, ConclusionFits;
    CutFits(s, op);
    ConcludeNews(s, op, s.records[op], s.sessions[SessionOf(s, op)]);
  }

  /** The operation goes on without a settlement. */
  lemma GoesOnNews(s: State, s': State, op: Id)
    requires Before(s, s') && Local(s, s', op) && op in s.records && !s.records[op].state.Terminal()
    requires s'.records[op] == s.records[op].(state := s'.records[op].state) && !s'.records[op].state.Terminal()
    requires s'.sessions == s.sessions && s'.quarantined == s.quarantined
    ensures NewsExplained(s, s')
  {
    hide Inv, NewsExplained, AllExplained, SettledRightly, Grows;
    MovedNews(s, s', op);
  }

  lemma DispatchNews(s: State, op: Id)
    requires IsPrompt(s, op) && s.lock.None? && !s.records[op].state.Terminal()
    requires At(s, op, Scheduled) || At(s, op, AwaitingLock)
    requires Before(s, EnterLock(s, op))
    ensures NewsExplained(s, EnterLock(s, op))
  {
    hide Inv, NewsExplained, Local, IntactAt, FactsAt, AllExplained;
    Facts(s, op);
    DispatchLocal(s, op);
    GoesOnNews(s, EnterLock(s, op), op);
  }

  lemma StartCreateNews(s: State, op: Id)
    requires At(s, op, Scheduled) && IsCreate(s, op) && Before(s, StartCreate(s, op))
    ensures NewsExplained(s, StartCreate(s, op))
  {
    hide Inv, NewsExplained, Local, IntactAt, AllExplained;
    Facts(s, op);
    StartCreateLocal(s, op);
    GoesOnNews(s, StartCreate(s, op), op);
  }

  lemma StartCancelNews(s: State, op: Id)
    requires At(s, op, Scheduled) && IsCancel(s, op)
    requires Before(s, StartCancel(s, op))
    ensures NewsExplained(s, StartCancel(s, op))
  {
    hide Inv, NewsExplained, Local, IntactAt, AllExplained;
    Facts(s, op);
    StartCancelLocal(s, op);
    GoesOnNews(s, StartCancel(s, op), op);
  }

  lemma DeadlineNews(s: State, op: Id)
    requires At(s, op, AwaitingCollector) && Before(s, DeadlineFires(s, op))
    ensures NewsExplained(s, DeadlineFires(s, op))
  {
    hide Inv, NewsExplained, Local, IntactAt, FactsAt, AllExplained;
    HoldingIsUnsettled(s, op);
    Facts(s, op);
    DeadlineFiresLocal(s, op);
    GoesOnNews(s, DeadlineFires(s, op), op);
  }

  lemma TargetSettledNews(s: State, op: Id, target: Id)
    requires At(s, op, AwaitingTarget) && IsCancel(s, op) && target == s.records[op].identity.target.value
    requires s.records[target].state.Terminal() && target != op && !s.records[op].state.Terminal()
    requires Before(s, TargetSettled(s, op, target))
    ensures NewsExplained(s, TargetSettled(s, op, target))
  {
    hide Inv, NewsExplained, Local, IntactAt, FactsAt, AllExplained;
    Facts(s, op);
    TargetSettledLocal(s, op, target);
    MovedNews(s, TargetSettled(s, op, target), op);
  }

  // cancellation admission: its target changes, and the cancellation joins

  lemma JoinedNews(s: State, s': State, op: Id, target: Id)
    requires target in s.records && target in s'.records && op in s'.records && DeferredOf(s') == []
    requires !s'.quarantined
    requires s'.records == s.records[target := s'.records[target]][op := s'.records[op]]
    requires s'.records[target] == s.records[target] || Explained(s', target, s'.records[target])
    requires Explained(s', op, s'.records[op])
    requires s'.sessions.Keys == s.sessions.Keys
    requires forall sid {:trigger sid in s'.sessions} :: sid in s'.sessions ==>
      s'.sessions[sid].backend == s.sessions[sid].backend
    ensures NewsExplained(s, s')
  {
    hide Explained, Opened, DeferredOf;
    forall o | o in s'.records
      ensures (o in s.records && s'.records[o] == s.records[o]) || Explained(s', o, s'.records[o])
    {
    }
  }

  lemma PreDispatchRecords(s: State, target: Id)
    requires target in s.records && SessionOf(s, target) in s.sessions && !s.records[target].state.Terminal()
    ensures var s' := CancelPreDispatch(s, target);
      && s'.records ==
           s.records[target := s.records[target].(state := Cancelled, result := Some(CancelledPreDispatch),
             error := None)]
      && s'.quarantined == s.quarantined && s'.sessions.Keys == s.sessions.Keys
      && forall sid {:trigger sid in s'.sessions} :: sid in s'.sessions ==>
           s'.sessions[sid].backend == s.sessions[sid].backend
  {
  }

  lemma TargetRequested(s: State, s': State, target: Id)
    requires AllExplained(s) && Grows(s, s') && target in s.records
    ensures Requested(s', s.records[target].identity)
  {
    assert Explained(s, target, s.records[target]);
    StillRequested(s, s', s.records[target].identity);
  }

  lemma PreDispatchExplained(s: State, s': State, op: Id, r: Record)
    requires Requested(s', r.identity) && r.identity.kind.PromptKind?
    ensures Explained(s', op, r.(state := Cancelled, result := Some(CancelledPreDispatch), error := None))
  {
  }

  lemma JoinerExplained(s: State, op: Id, r: Record)
    requires r.identity.kind.CancelKind? && r.identity.sessionId in s.sessions
    requires (r.state.Completed? && r.error.None? && r.result.Some? && r.result.value.CancelReport?)
      || r == NewRecord(r.identity)
    ensures Explained(s, op, r)
  {
  }

  lemma CancelNews(s: State, req: Request)
    requires req.Cancel? && Before(s, AdmitCancel(s, req).0)
    ensures NewsExplained(s, AdmitCancel(s, req).0)
  {
    hide Inv, Grows, AllExplained, AdmitCancel, NewsExplained, Explained, CancelPreDispatch;
    CancelForms(s, req);
    var op, target, s' := req.pin.operationId, req.target, AdmitCancel(s, req).0;
    if op in s.records || AdmitCancel(s, req).1.Failure? {
      NoNews(s, s);
    } else {
      var r := s.records[target];
      ShapedPrompt(s, target);
      TargetRequested(s, s', target);
      if r.state.Accepted? || r.state.Queued? {
        PreDispatchRecords(s, target);
        PreDispatchExplained(s, s', target, r);
      } else if !r.state.Terminal() {
        BareAt(s, target);
        UnsettledExplained(s', target, r.(state := Cancelling));
      }
      JoinerExplained(s', op, s'.records[op]);
      Intactly(s');
      JoinedNews(s, s', op, target);
    }
  }

  lemma BareAt(s: State, op: Id)
    requires AllExplained(s) && op in s.records && !s.records[op].state.Terminal()
    ensures s.records[op].result.None? && s.records[op].error.None?
  {
    assert Explained(s, op, s.records[op]);
    UnsettledIsBare(s, op);
  }

  // ----- the loss -----

  lemma LostExplained(s: State, op: Id, r: Record)
    requires Requested(s, r.identity)
    ensures LostRecord(r, false) == r || Explained(s, op, LostRecord(r, false))
  {
  }

  /** Each deferred settlement is right, if it is published. */
  ghost predicate DefersRightly(s: State, deferred: seq<Settlement>) {
    forall d {:trigger d in deferred} :: d in deferred ==>
      d.op in s.records && Explained(s, d.op, SettledAs(s.records[d.op], d))
  }

  /** Losing the generation settles what is not deferred as continuity lost, and defers rightly. */
  lemma LossNews(s: State, s1: State, current: Option<Id>, deferred: seq<Settlement>, t: Task)
    requires AllExplained(s) && s1.records == s.records && s1.sessions.Keys == s.sessions.Keys
    requires forall sid {:trigger sid in s1.sessions} :: sid in s1.sessions ==>
      s1.sessions[sid].backend == s.sessions[sid].backend
    requires DefersRightly(s, deferred)
    requires var s' := Lose(s1, current, Ops(deferred), t);
      LossOf(s1, s', current, Ops(deferred), t) && Grows(s, s') && DeferredOf(s') == deferred
    ensures NewsExplained(s, Lose(s1, current, Ops(deferred), t))
  {
    hide Grows, Explained, Opened, Lose, LostRecord, Requested, DeferredOf, TasksLost, CollectorsLost;
    var s' := Lose(s1, current, Ops(deferred), t);
    forall o | o in s'.records
      ensures (o in s.records && s'.records[o] == s.records[o]) || Explained(s', o, s'.records[o])
    {
      LostRecordNews(s, s', Ops(deferred), o);
    }
    forall d | d in deferred ensures d.op in s'.records && Explained(s', d.op, SettledAs(s'.records[d.op], d)) {
      DeferredNews(s, s', deferred, d);
    }
  }

  lemma LostRecordNews(s: State, s': State, defer: set<Id>, o: Id)
    requires AllExplained(s) && Grows(s, s') && RecordsLost(s, s', defer) && o in s'.records
    ensures o in s.records && (s'.records[o] == s.records[o] || Explained(s', o, s'.records[o]))
  {
    hide Grows, SettledRightly, Requested;
    assert o in s.records && Explained(s, o, s.records[o]);
    StillRequested(s, s', s.records[o].identity);
    LostExplained(s', o, s.records[o]);
  }

  lemma DeferredNews(s: State, s': State, deferred: seq<Settlement>, d: Settlement)
    requires Grows(s, s') && RecordsLost(s, s', Ops(deferred)) && DefersRightly(s, deferred) && d in deferred
    ensures d.op in s'.records && Explained(s', d.op, SettledAs(s'.records[d.op], d))
  {
    hide Grows, Explained;
    assert d.op in Ops(deferred);
    StillExplained(s, s', d.op, SettledAs(s.records[d.op], d));
  }

  lemma RetouchedBackends(s: State, s1: State, op: Id)
    requires Retouched(s, s1, op)
    ensures s1.records == s.records && s1.sessions.Keys == s.sessions.Keys
    ensures forall sid {:trigger sid in s1.sessions} :: sid in s1.sessions ==>
      s1.sessions[sid].backend == s.sessions[sid].backend
  {
    assert s1.sessions.Keys == s.sessions.Keys;
  }

  lemma LoseDefers(s1: State, op: Id, deferred: seq<Settlement>, t: Task)
    requires LossOf(s1, Lose(s1, Some(op), Ops(deferred), t), Some(op), Ops(deferred), t) && op in s1.tasks
    requires (t == Quarantining(deferred)) || (deferred == [] && !Deferring(t))
    ensures DeferredOf(Lose(s1, Some(op), Ops(deferred), t)) == deferred
  {
    hide Lose, RecordsLost, SessionsLost, CollectorsLost;
  }

  lemma LosingNews(s: State, s1: State, op: Id, deferred: seq<Settlement>, t: Task)
    requires Retouched(s, s1, op) && MayLose(s1, Some(op), Ops(deferred), t) && DefersRightly(s, deferred)
    requires op in s1.tasks
    requires (t == Quarantining(deferred)) || (deferred == [] && !Deferring(t))
    requires Before(s, Lose(s1, Some(op), Ops(deferred), t))
    ensures NewsExplained(s, Lose(s1, Some(op), Ops(deferred), t))
  {
    hide Inv, Grows, AllExplained, DefersRightly, Ops, LossOf, NewsExplained, Retouched, MayLose, Lose, DeferredOf;
    RetouchedBackends(s, s1, op);
    LoseIsLoss(s1, Some(op), Ops(deferred), t);
    LoseDefers(s1, op, deferred, t);
    LossNews(s, s1, Some(op), deferred, t);
  }

  lemma QuarantineNews(s: State, s1: State, op: Id, deferred: seq<Settlement>)
    requires Retouched(s, s1, op) && SettlementsFit(s1, op, deferred) && DefersRightly(s, deferred)
    requires op in s.records && !s.tasks[op].Finished? && !s1.quarantined
    requires Before(s, Quarantine(s1, op, deferred))
    ensures NewsExplained(s, Quarantine(s1, op, deferred))
  {
    hide Inv, Grows, AllExplained, DefersRightly, Ops, NewsExplained, MarkLost, SettlementsFit;
    assert Quarantine(s1, op, deferred) == Lose(s1, Some(op), Ops(deferred), Quarantining(deferred));
    LosingNews(s, s1, op, deferred, Quarantining(deferred));
  }

  /** One settlement in doubt is deferred for the operation itself. */
  lemma DefersOne(s: State, d: Settlement)
    requires AllExplained(s) && d.op in s.records && !s.records[d.op].state.Terminal() && d.state.Terminal()
    requires SettledRightly(s, d.op, s.records[d.op].(state := d.state, result := d.result, error := d.error))
    ensures DefersRightly(s, [d])
  {
    hide SettledRightly, Requested;
    assert Explained(s, d.op, s.records[d.op]);
  }

  lemma CreateUncertainNews(s: State, op: Id)
    requires At(s, op, AwaitingCreate) && Before(s, CreateTimedOut(s, op))
    ensures NewsExplained(s, CreateTimedOut(s, op))
  {
    hide Inv, Grows, AllExplained, NewsExplained, MarkLost;
    Facts(s, op);
    DefersOne(s, InDoubtAs(op, SessionCreationInDoubt)[0]);
    hide DefersRightly;
    QuarantineNews(s, WithSessionState(s, SessionOf(s, op), NonReusable), op, InDoubtAs(op, SessionCreationInDoubt));
  }

  lemma LosesAtOnce(s: State, s1: State, op: Id, t: Task)
    requires Retouched(s, s1, op) && !s1.quarantined && op in s.records && !s.tasks[op].Finished?
    requires t.Finished? || (t.Unwinding? && IsPrompt(s, op))
    requires Before(s, Lose(s1, Some(op), {}, t))
    ensures NewsExplained(s, Lose(s1, Some(op), {}, t))
  {
    hide Inv, Grows, AllExplained, NewsExplained, MarkLost, Lose;
    assert Ops([]) == {};
    LosingNews(s, s1, op, [], t);
  }

  lemma CreateRaisedNews(s: State, op: Id)
    requires At(s, op, AwaitingCreate) && Before(s, CreateRaised(s, op))
    ensures NewsExplained(s, CreateRaised(s, op))
  {
    hide Inv, Grows, AllExplained, NewsExplained, MarkLost;
    Facts(s, op);
    if s.transportAlive {
      CreateUncertainNews(s, op);
    } else {
      LosesAtOnce(s, s, op, Finished);
    }
  }

  lemma PromptRaisedNews(s: State, s1: State, op: Id)
    requires LeftLock(s, s1, op) && HoldsLock(s.tasks[op]) && Before(s, PromptRaised(s1, op))
    ensures NewsExplained(s, PromptRaised(s1, op))
  {
    hide Inv, Grows, AllExplained, NewsExplained, MarkLost;
    HoldingIsUnsettled(s, op);
    if s.transportAlive {
      DefersOne(s, InDoubtAs(op, PromptInDoubt)[0]);
      hide DefersRightly;
      QuarantineNews(s, WithSessionState(s1, SessionOf(s, op), NonReusable), op, InDoubtAs(op, PromptInDoubt));
    } else {
      LosesAtOnce(s, s1, op, Unwinding);
    }
  }

  lemma OverflowNews(s: State, op: Id)
    requires Located(s, op) && HoldsLock(s.tasks[op]) && OverflowedAs(s, op, false)
    requires Before(s, PromptOverflowed(s, op, false))
    ensures NewsExplained(s, PromptOverflowed(s, op, false))
  {
    hide Inv, Grows, AllExplained, NewsExplained, MarkLost;
    HoldingIsUnsettled(s, op);
    var d := Settlement(op, InDoubt, Some(RetainedEvidence), Some(EvidenceLimitInDoubt));
    DefersOne(s, d);
    hide DefersRightly;
    QuarantineNews(s, WithSessionState(LeaveLock(s, op), SessionOf(s, op), NonReusable), op, [d]);
  }

  lemma DeadlineUnsettledNews(s: State, op: Id, code: ErrorCode)
    requires Located(s, op) && HoldsLock(s.tasks[op]) && CollectorEnded(s, op)
    requires code.DeadlineSettlementUnknown? || (code.DeadlineStopMismatch? && StoppedOtherwise(s, op))
    requires Before(s, Quarantine(s, op, InDoubtAs(op, code)))
    ensures NewsExplained(s, Quarantine(s, op, InDoubtAs(op, code)))
  {
    hide Inv, Grows, AllExplained, NewsExplained, MarkLost;
    HoldingIsUnsettled(s, op);
    DefersOne(s, InDoubtAs(op, code)[0]);
    hide DefersRightly;
    QuarantineNews(s, s, op, InDoubtAs(op, code));
  }

  /** A cancellation defers its target's doubt and its own settlement. */
  lemma DefersTwo(s: State, op: Id, d: Settlement, e: Settlement)
    requires AllExplained(s) && op in s.records && !s.records[op].state.Terminal() && e.op == op
    requires s.records[op].identity.kind.CancelKind? && d.op in s.records && d.op in s.collectors
    requires s.records[d.op].identity.kind.PromptKind? && d.state.InDoubt? && d.result.None?
    requires d.error == Some(CancelTransportFailed) || d.error == Some(CancellationSettlementUnknown)
    requires (e.state.Completed? && e.result == Some(CancelReport(InDoubt, true)) && e.error.None?)
      || (e.state.Failed? && e.result.None? && e.error == Some(CancelFailed))
    ensures DefersRightly(s, [d, e])
  {
    hide Requested;
    assert Explained(s, op, s.records[op]);
    assert Explained(s, d.op, s.records[d.op]);
  }

  lemma CancelUnsettledNews(s: State, op: Id, deferred: seq<Settlement>)
    requires Located(s, op) && IsCancel(s, op) && !s.tasks[op].Finished?
    requires var target := s.records[op].identity.target.value;
      deferred == CancelDeferred(op, target)
      || deferred == [Settlement(target, InDoubt, None, Some(CancelTransportFailed)),
                      Settlement(op, Failed, None, Some(CancelFailed))]
    requires Before(s, QuarantineSession(s, op, deferred))
    ensures NewsExplained(s, QuarantineSession(s, op, deferred))
  {
    hide Inv, Grows, AllExplained, NewsExplained, MarkLost;
    Facts(s, op);
    CancelTarget(s, op);
    assert deferred == [deferred[0], deferred[1]];
    DefersTwo(s, op, deferred[0], deferred[1]);
    hide DefersRightly;
    QuarantineNews(s, WithSessionState(s, SessionOf(s, op), NonReusable), op, deferred);
  }

  lemma CancelTarget(s: State, op: Id)
    requires Inv(s) && !s.quarantined && Located(s, op) && IsCancel(s, op) && !s.tasks[op].Finished?
    ensures !s.records[op].state.Terminal()
    ensures var target := s.records[op].identity.target.value;
      target in s.collectors && s.records[target].identity.kind.PromptKind?
  {
    hide Inv;
    Facts(s, op);
  }

  // ----- every event -----

  lemma TaskRunsNews(s: State, op: Id)
    requires Before(s, Next(s, TaskRuns(op)))
    ensures NewsExplained(s, Next(s, TaskRuns(op)))
  {
    hide Inv, Grows, AllExplained, NewsExplained;
    if !Located(s, op) || !NotDispatched(s.tasks[op]) {
      NoNews(s, s);
    } else {
      IntactTaskKinds(s, op);
      if IsPrompt(s, op) {
        if s.lock.Some? { NoNews(s, EnterLock(s, op)); }
        else if s.records[op].state.Terminal() { StaleNews(s, op); }
        else { DispatchNews(s, op); }
      } else if s.tasks[op].Scheduled? && s.records[op].identity.kind.CreateKind? {
        StartCreateNews(s, op);
      } else if s.tasks[op].Scheduled? && s.records[op].identity.kind.CancelKind? {
        StartCancelNews(s, op);
      } else {
        NoNews(s, s);
      }
    }
  }

  lemma CreationNews(s: State, e: Event)
    requires e.CreateReply? || e.CreateReject? || e.CreateTimeout? || e.CreateError?
    requires Before(s, Next(s, e))
    ensures NewsExplained(s, Next(s, e))
  {
    hide Inv, Grows, AllExplained, NewsExplained, CreateReplied, CreateRejected, CreateTimedOut, CreateRaised;
    if !At(s, e.op, AwaitingCreate) {
      NoNews(s, s);
    } else {
      match e
      case CreateReply(op, backend, model) => CreateRepliedNews(s, op, backend, model);
      case CreateReject(op) => CreateRejectedNews(s, op);
      case CreateTimeout(op) => CreateUncertainNews(s, op);
      case CreateError(op) => CreateRaisedNews(s, op);
    }
  }

  lemma PromptResumesNews(s: State, op: Id)
    requires At(s, op, AwaitingCollector) && IsPrompt(s, op) && CollectorEnded(s, op) && Before(s, PromptResumes(s, op))
    ensures NewsExplained(s, PromptResumes(s, op))
  {
    hide Inv, Grows, AllExplained, NewsExplained, PromptRaised, PromptStopped, MarkLost, AfterFinally;
    match s.collectors[op].outcome
    case Returned(stop) => PromptStoppedNews(s, op, stop);
    case Overflowed(settledCancelled) =>
      if settledCancelled {
        SpoiledNews(s, op, Settled(s.records[op], Failed, Some(RetainedEvidence), Some(EvidenceLimit)));
      } else {
        OverflowNews(s, op);
      }
    case Raised => PromptRaisedNews(s, LeaveLock(s, op), op);
    case WasCancelled => CutNews(s, op);
  }

  lemma DeadlineResumesNews(s: State, op: Id)
    requires At(s, op, AwaitingDeadlineGrace) && CollectorEnded(s, op) && Before(s, DeadlineResumes(s, op))
    ensures NewsExplained(s, DeadlineResumes(s, op))
  {
    hide Inv, Grows, AllExplained, NewsExplained, PromptRaised, MarkLost, AfterFinally;
    HoldingIsUnsettled(s, op);
    IntactTaskKinds(s, op);
    match s.collectors[op].outcome
    case Returned(stop) =>
      if stop.StopCancelled? {
        SpoiledNews(s, op, Settled(s.records[op], TimedOut, None, Some(ExecutionDeadline)));
      } else {
        DeadlineUnsettledNews(s, op, DeadlineStopMismatch);
      }
    case Overflowed(settledCancelled) =>
      if settledCancelled {
        SpoiledNews(s, op, Settled(s.records[op], Failed, Some(RetainedEvidence), Some(EvidenceLimit)));
      } else {
        OverflowNews(s, op);
      }
    case Raised => PromptRaisedNews(s, LeaveLock(s, op), op);
    case WasCancelled => SpoiledNews(s, op, s.records[op]);
  }

  lemma SeenNews(s: State, op: Id)
    requires Before(s, Next(s, CollectorSeen(op)))
    ensures NewsExplained(s, Next(s, CollectorSeen(op)))
  {
    hide Inv, Grows, AllExplained, NewsExplained, PromptResumes, DeadlineResumes;
    if CollectorEnded(s, op) && At(s, op, AwaitingCollector) && IsPrompt(s, op) {
      PromptResumesNews(s, op);
    } else if CollectorEnded(s, op) && At(s, op, AwaitingDeadlineGrace) {
      DeadlineResumesNews(s, op);
    } else {
      NoNews(s, s);
    }
  }

  lemma SendNews(s: State, e: Event)
    requires (e.Deadline? || e.SendSucceeds? || e.SendFails?) && Before(s, Next(s, e))
    ensures NewsExplained(s, Next(s, e))
  {
    hide Inv, Grows, AllExplained, NewsExplained, PromptRaised, QuarantineSession, MarkLost;
    var op := e.op;
    if e.Deadline? && At(s, op, AwaitingCollector) {
      DeadlineNews(s, op);
    } else if e.SendFails? && At(s, op, SendingDeadlineCancel) {
      HoldingIsUnsettled(s, op);
      PromptRaisedNews(s, FreeLock(PopIfEnded(s, op), op), op);
    } else if e.SendFails? && At(s, op, SendingCancel) {
      IntactTaskKinds(s, op);
      CancelUnsettledNews(s, op,
        [Settlement(s.records[op].identity.target.value, InDoubt, None, Some(CancelTransportFailed)),
         Settlement(op, Failed, None, Some(CancelFailed))]);
    } else {
      NoNews(s, Next(s, e));
    }
  }

  lemma GraceNews(s: State, e: Event)
    requires (e.GraceExpires? || e.Reaped?) && Before(s, Next(s, e))
    ensures NewsExplained(s, Next(s, e))
  {
    hide Inv, Grows, AllExplained, NewsExplained, QuarantineSession, Quarantine, MarkLost;
    var op := e.op;
    if e.Reaped? && At(s, op, ReapingCollector) && CollectorEnded(s, op) {
      DeadlineUnsettledNews(s, op, DeadlineSettlementUnknown);
    } else if (e.Reaped? && At(s, op, ReapingTarget) && TargetOf(s, op).Some? &&
      CollectorEnded(s, TargetOf(s, op).value)) ||
      (e.GraceExpires? && At(s, op, AwaitingTarget) && TargetOf(s, op).Some? &&
        TargetOf(s, op).value !in s.registered) {
      IntactTaskKinds(s, op);
      CancelUnsettledNews(s, op, CancelDeferred(op, TargetOf(s, op).value));
    } else {
      NoNews(s, Next(s, e));
    }
  }

  lemma TargetSeenNews(s: State, op: Id)
    requires Before(s, Next(s, TargetSeen(op)))
    ensures NewsExplained(s, Next(s, TargetSeen(op)))
  {
    hide Inv, Grows, AllExplained, NewsExplained, TargetSettled;
    if At(s, op, AwaitingTarget) {
      IntactTaskKinds(s, op);
      CancelTarget(s, op);
      if s.records[s.records[op].identity.target.value].state.Terminal() {
        TargetSettledNews(s, op, s.records[op].identity.target.value);
      } else {
        NoNews(s, s);
      }
    } else {
      NoNews(s, s);
    }
  }

  lemma OwnerLossNews(s: State)
    requires Before(s, MarkLost(s, None, {}))
    ensures NewsExplained(s, MarkLost(s, None, {}))
  {
    hide Inv, Grows, AllExplained, NewsExplained, MarkLost;
    assert Ops([]) == {};
    LoseIsLoss(s, None, {}, Finished);
    hide LossOf;
    OwnerDefersNothing(s);
    LossNews(s, s, None, [], Finished);
  }

  lemma OwnerDefersNothing(s: State)
    requires LossOf(s, Lose(s, None, {}, Finished), None, {}, Finished)
    ensures DeferredOf(Lose(s, None, {}, Finished)) == []
  {
    hide Lose;
  }

  lemma LastNews(s: State, e: Event)
    requires e.CollectorEnds? || e.Abort? || e.PublishNow? || e.UnwindNow? || e.OwnerReportsLoss? || e.TransportDies?
    requires Before(s, Next(s, e))
    ensures NewsExplained(s, Next(s, e))
  {
    hide Inv, Grows, AllExplained, NewsExplained, MarkLost, Publish, AfterFinally;
    if e.OwnerReportsLoss? {
      OwnerLossNews(s);
    } else {
      if !e.CollectorEnds? && !e.TransportDies? && Located(s, e.op) { IntactTaskKinds(s, e.op); }
      NoNews(s, Next(s, e));
    }
  }

  lemma IntactNews(s: State, e: Event)
    requires Before(s, Next(s, e))
    ensures NewsExplained(s, Next(s, e))
  {
    hide Inv, Grows, AllExplained, NewsExplained;
    match e
    case DoCreate(req) => if req.CreateSession? { CreateNews(s, req); } else { NoNews(s, s); }
    case DoPrompt(sid, body) => if ValidLayers(body) { PromptNews(s, sid, body); } else { NoNews(s, s); }
    case DoCancel(req) => if req.Cancel? { CancelNews(s, req); } else { NoNews(s, s); }
    case DoRetire(req) => if req.Retire? { RetireNews(s, req); } else { NoNews(s, s); }
    case TaskRuns(op) => TaskRunsNews(s, op);
    case CreateReply(_, _, _) => CreationNews(s, e);
    case CreateReject(_) => CreationNews(s, e);
    case CreateTimeout(_) => CreationNews(s, e);
    case CreateError(_) => CreationNews(s, e);
    case CollectorSeen(op) => SeenNews(s, op);
    case Deadline(_) => SendNews(s, e);
    case SendSucceeds(_) => SendNews(s, e);
    case SendFails(_) => SendNews(s, e);
    case GraceExpires(_) => GraceNews(s, e);
    case Reaped(_) => GraceNews(s, e);
    case TargetSeen(op) => TargetSeenNews(s, op);
    case _ => LastNews(s, e);
  }

  // ----- after the loss -----

  /** After the loss nothing is new but the publication of what was deferred. */
  lemma LostNews(s: State, s': State)
    requires AllExplained(s) && Grows(s, s') && Aftermath(s, s')
    requires forall sid {:trigger sid in s'.sessions} :: sid in s'.sessions ==>
      sid in s.sessions && s'.sessions[sid].backend == s.sessions[sid].backend
    requires SessionsGone(s')
    ensures NewsExplained(s, s')
  {
    hide Grows, Explained, Opened, Publish, DeferredOf, SettledAs;
    if s'.records == s.records && DeferredOf(s') == DeferredOf(s) {
      forall d | d in DeferredOf(s') ensures d.op in s'.records && Explained(s', d.op, SettledAs(s'.records[d.op], d)) {
        StillExplained(s, s', d.op, SettledAs(s.records[d.op], d));
      }
    } else {
      forall o | o in s'.records
        ensures (o in s.records && s'.records[o] == s.records[o]) || Explained(s', o, s'.records[o])
      {
        PublishedNews(s, s', o);
      }
    }
  }

  lemma PublishedNews(s: State, s': State, o: Id)
    requires AllExplained(s) && Grows(s, s') && o in s'.records
    requires s'.records == Publish(s.records, DeferredOf(s))
    ensures o in s.records && (s'.records[o] == s.records[o] || Explained(s', o, s'.records[o]))
  {
    hide Grows, Explained, Publish, DeferredOf, SettledAs;
    PublishedOnly(s.records, DeferredOf(s));
    PublishedAt(s.records, DeferredOf(s), o);
    if s'.records[o] != s.records[o] {
      var d :| d in DeferredOf(s) && d.op == o && s'.records[o] == SettledAs(s.records[o], d);
      StillExplained(s, s', o, SettledAs(s.records[o], d));
    }
  }

  lemma {:induction false} PublishedOnly(records: map<Id, Record>, deferred: seq<Settlement>)
    ensures Publish(records, deferred).Keys == records.Keys
  {
    if deferred != [] {
      var d := deferred[0];
      var once := if d.op in records && d.state.Terminal()
        then records[d.op := Settled(records[d.op], d.state, d.result, d.error)] else records;
      PublishedOnly(once, deferred[1..]);
    }
  }

  lemma LostBackends(s: State, e: Event)
    requires Inv(s) && s.quarantined
    ensures var s' := Next(s, e);
      forall sid {:trigger sid in s'.sessions} :: sid in s'.sessions ==>
        sid in s.sessions && s'.sessions[sid].backend == s.sessions[sid].backend
  {
    hide Inv;
    if IsTaskEvent(e) {
      TaskEventIdle(s, e);
    } else if (e.PublishNow? || e.UnwindNow?) && Located(s, e.op) {
      hide Publish;
      if e.PublishNow? && s.tasks[e.op].Aborting? { PublishedSessions(s, e.op); }
    } else {
      hide LifetimeAllows, WithinPromptLimits, LedgerAdmit;
    }
  }

  lemma LostStaysGone(s: State, e: Event)
    requires Inv(s) && s.quarantined && SessionsGone(s)
    ensures SessionsGone(Next(s, e))
  {
    hide Inv;
    if IsTaskEvent(e) {
      TaskEventIdle(s, e);
    } else if (e.PublishNow? || e.UnwindNow?) && Located(s, e.op) {
      hide Publish;
      if e.PublishNow? && s.tasks[e.op].Aborting? { PublishedSessions(s, e.op); }
    } else {
      hide LifetimeAllows, WithinPromptLimits, LedgerAdmit;
    }
  }

  lemma PublishedSessions(s: State, op: Id)
    requires Inv(s) && s.quarantined && Located(s, op) && s.tasks[op].Aborting?
    ensures Located(Published(s, op), op) && SessionOf(Published(s, op), op) == SessionOf(s, op)
  {
    hide Inv, Keeps, Publish;
    if s.records[op].identity.kind.CancelKind? { PublishedTwoKeeps(s, op); } else { PublishedOneKeeps(s, op); }
    PublishedPlaces(s, op);
    SameIdentity(s, Published(s, op), op);
  }

  lemma SameIdentity(s: State, s': State, op: Id)
    requires Keeps(s, s') && op in s.records
    ensures op in s'.records && s'.records[op].identity == s.records[op].identity
  {
    assert RecordGrows(s.records[op], s'.records[op]);
  }

  // ----- every run -----

  lemma GoneIn(s: State)
    requires AllExplained(s)
    ensures SessionsGone(s)
  {
  }

  lemma NextExplained(s: State, e: Event)
    requires Inv(s) && AllExplained(s)
    ensures AllExplained(Next(s, e))
  {
    hide Inv, Keeps, Grows, AllExplained, NewsExplained, Next, Aftermath;
    NextKeeps(s, e);
    KeepsGrow(s, Next(s, e));
    if s.quarantined {
      LossStep(s, e);
      LostBackends(s, e);
      GoneIn(s);
      LostStaysGone(s, e);
      LostNews(s, Next(s, e));
    } else {
      IntactNews(s, e);
    }
    NewsExplain(s, Next(s, e));
  }

  lemma {:induction false} RunExplained(s: State, events: seq<Event>)
    requires Inv(s) && AllExplained(s)
    ensures AllExplained(Run(s, events))
    decreases |events|
  {
    hide Inv, Keeps, AllExplained, Next;
    if events != [] {
      NextExplained(s, events[0]);
      NextKeeps(s, events[0]);
      KeepsInv(s, Next(s, events[0]));
      RunExplained(Next(s, events[0]), events[1..]);
    }
  }

  /** In every run every settlement, published or deferred, is right, and every opened session has its creation. */
  lemma ReachedExplained(config: Config, events: seq<Event>)
    ensures AllExplained(Run(Start(config), events))
  {
    StartInv(config);
    RunExplained(Start(config), events);
  }
}
