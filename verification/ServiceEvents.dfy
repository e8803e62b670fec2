/** Each event on a generation that is not lost keeps the invariant. */
module ServiceEvents {
  import opened Wrappers
  import opened DirectProtocol
  import opened DirectState
  import opened ServiceModel
  import opened ServiceInvariant
  import opened ServiceLocal

  /** What the invariant says of one operation whose task is not done. */
  ghost predicate FactsAt(s: State, op: Id) {
    && !s.quarantined
    && Located(s, op)
    && RecordShaped(s, op)
    && TaskFits(s.records[op].identity.kind, s.tasks[op])
    && (op in s.collectors ==> s.records[op].identity.kind.PromptKind?)
    && s.registered <= s.collectors.Keys
    && SessionCoherent(s.sessions[SessionOf(s, op)])
    && (IsPrompt(s, op) ==> s.sessions[SessionOf(s, op)].backend.Some?)
    && (IsPrompt(s, op) ==> Fulfilled(s.sessions[SessionOf(s, op)], s.records[op]))
    && ReportTrue(s, op)
    && (s.records[op].identity.kind.PromptKind? ==> PromptStage(s, op))
    && (s.records[op].identity.kind.CreateKind? ==> CreateStage(s, op))
    && (IsCancel(s, op) ==> CancelStage(s, op))
    && (s.lock == Some(op) ==> HoldsLock(s.tasks[op]))
    && (op in s.collectors && s.collectors[op].Live? ==>
          s.lock == Some(op) && (op in s.registered || s.collectors[op] == Live(true)))
    && (Unsettled(s, op) ==> UnsettledFits(s, op))
    && (Opening(s, op) ==> Unopened(s, SessionOf(s, op)))
  }

  lemma Facts(s: State, op: Id)
    requires Inv(s) && !s.quarantined && op in s.tasks
    ensures FactsAt(s, op)
  {
    assert op in s.records && RecordShaped(s, op);
  }

  /** The event keeps the accounts and the calls as they are, or its lemma says how they change. */
  lemma EventKeeps(s: State, s': State, op: Id)
    requires Inv(s) && !s.quarantined && Local(s, s', op) && IntactAt(s, s', op)
    requires op in s.records && op in s.tasks
    requires Reserved(s') && CallsOnce(s')
    ensures Keeps(s, s')
  {
    BoundedLocal(s, s', op);
    IntactLocal(s, s', op);
  }

  /** An event that releases no reservation and calls nothing. */
  lemma QuietKeeps(s: State, s': State, op: Id)
    requires Inv(s) && !s.quarantined && Local(s, s', op) && IntactAt(s, s', op)
    requires op in s.records && op in s.tasks && op in s'.tasks
    requires s'.released == s.released && s'.reservations == s.reservations && s'.calls == s.calls
    requires s.tasks[op].Finished? ==> s'.tasks[op].Finished?
    requires s'.tasks[op].Scheduled? ==> s.tasks[op].Scheduled?
    ensures Keeps(s, s')
  {
    ReservedKeptLocal(s, s', op);
    CallsKeptLocal(s, s', op);
    EventKeeps(s, s', op);
  }

  /** An event that gives back the reservation of a prompt. */
  lemma ReleasingKeeps(s: State, s': State, op: Id)
    requires Inv(s) && !s.quarantined && Local(s, s', op) && IntactAt(s, s', op)
    requires IsPrompt(s, op) && op in s.tasks && op in s'.tasks
    requires s'.released == s.released + {op}
    requires s'.reservations == (if op in s.released then s.reservations else s.reservations - 1)
    requires ReleasedFor(s', op) && s'.calls == s.calls
    requires s'.tasks[op].Scheduled? ==> s.tasks[op].Scheduled?
    ensures Keeps(s, s')
  {
    ReservedReleasedLocal(s, s', op);
    CallsKeptLocal(s, s', op);
    EventKeeps(s, s', op);
  }

  // ----- session creation -----

  lemma StartCreateLocal(s: State, op: Id)
    requires FactsAt(s, op) && At(s, op, Scheduled) && IsCreate(s, op)
    ensures Local(s, StartCreate(s, op), op) && IntactAt(s, StartCreate(s, op), op)
  {
  }

  lemma StartCreateKeeps(s: State, op: Id)
    requires Inv(s) && !s.quarantined && At(s, op, Scheduled) && IsCreate(s, op)
    ensures Keeps(s, StartCreate(s, op))
  {
    var s' := StartCreate(s, op);
    Facts(s, op);
    StartCreateLocal(s, op);
    ReservedKeptLocal(s, s', op);
    CallsAddedLocal(s, s', op, CreateCall(op));
    EventKeeps(s, s', op);
  }

  lemma CreateRejectedLocal(s: State, op: Id)
    requires FactsAt(s, op) && At(s, op, AwaitingCreate)
    ensures Local(s, CreateRejected(s, op), op) && IntactAt(s, CreateRejected(s, op), op)
  {
    hide LifetimeAllows, PromptStage, CancelStage, ValidLayers;
  }

  lemma CreateRepliedLocal(s: State, op: Id, backend: Id, model: Id)
    requires FactsAt(s, op) && At(s, op, AwaitingCreate) && model == s.sessions[SessionOf(s, op)].modelId
    ensures Local(s, CreateReplied(s, op, backend, model), op) && IntactAt(s, CreateReplied(s, op, backend, model), op)
  {
    hide LifetimeAllows, PromptStage, CancelStage, ValidLayers;
  }

  lemma CreateRepliedKeeps(s: State, op: Id, backend: Id, model: Id)
    requires Inv(s) && !s.quarantined && At(s, op, AwaitingCreate)
    ensures Keeps(s, CreateReplied(s, op, backend, model))
  {
    var s' := CreateReplied(s, op, backend, model);
    if model != s.sessions[SessionOf(s, op)].modelId {
      CreateRejectedKeeps(s, op);
    } else {
      Facts(s, op);
      CreateRepliedLocal(s, op, backend, model);
      QuietKeeps(s, s', op);
    }
  }

  lemma CreateRejectedKeeps(s: State, op: Id)
    requires Inv(s) && !s.quarantined && At(s, op, AwaitingCreate)
    ensures Keeps(s, CreateRejected(s, op))
  {
    var s' := CreateRejected(s, op);
    Facts(s, op);
    CreateRejectedLocal(s, op);
    QuietKeeps(s, s', op);
  }

  // ----- prompts -----

  /** The record and the session with which a prompt task may end. */
  ghost predicate ConclusionFits(s: State, op: Id, r: Record, x: Session)
    requires Located(s, op)
  {
    var r0 := s.records[op];
    var x0 := s.sessions[SessionOf(s, op)];
    && RecordGrows(r0, r)
    && (r.state.Terminal() || (r.state.Cancelling? && op in s.collectors && s.collectors[op] == Ended(WasCancelled)))
    && (r == r0 || (r.state.InDoubt? ==> r.error == Some(CancellationStopMismatch)))
    && (r == r0 || r.error != Some(CancelFailed))
    && (r == r0 || r.result.None? || r.result.value.PromptDone? || r.result.value.RetainedEvidence?)
    && SessionGrows(x0, x)
    && x.backend == x0.backend
    && x.active == x0.active
    && SessionCoherent(x)
    && Fulfilled(x, r)
    && (r0.state.Terminal() ==> x == x0 && r0.state.Cancelled?)
    && (!r0.state.Terminal() && !r.state.Completed? ==> !x.state.Ready?)
    && (!r.state.Terminal() ==> x == x0.(state := x.state))
  }

  /** The task may end now. */
  ghost predicate MayConclude(s: State, op: Id)
    requires Located(s, op)
  {
    && IsPrompt(s, op)
    && (HoldsLock(s.tasks[op]) || (NotDispatched(s.tasks[op]) && s.records[op].state.Terminal()))
    && (op in s.collectors ==> s.collectors[op].Ended?)
  }

  lemma AfterFinallyFits(x: Session, op: Id, state: OperationState)
    ensures SessionKept(x, AfterFinally(x, op, state, false), op)
    ensures SessionCoherent(x) ==> SessionCoherent(AfterFinally(x, op, state, false))
    ensures AfterFinally(x, op, state, false).active != Some(op)
    ensures SessionGrows(x, AfterFinally(x, op, state, false))
  {
  }

  lemma SessionGrowsThrough(a: Session, b: Session, c: Session)
    requires SessionGrows(a, b) && SessionGrows(b, c)
    ensures SessionGrows(a, c)
  {
  }

  lemma ConcludeTouches(s: State, op: Id, r: Record, x: Session)
    requires Located(s, op) && !s.quarantined
    requires RecordGrows(s.records[op], r) && SessionGrows(s.sessions[SessionOf(s, op)], x)
    ensures Local(s, Conclude(s, op, r, x), op)
  {
    hide AfterFinally, SessionGrows, SessionKept, SessionCoherent;
    AfterFinallyFits(x, op, r.state);
    SessionGrowsThrough(s.sessions[SessionOf(s, op)], x, AfterFinally(x, op, r.state, false));
  }

  lemma ConcludeShaped(s: State, op: Id, r: Record, x: Session)
    requires Located(s, op) && RecordShaped(s, op) && s.registered <= s.collectors.Keys && IsPrompt(s, op)
    requires r.identity == s.records[op].identity
    ensures op in Conclude(s, op, r, x).records && ShapedAt(s, Conclude(s, op, r, x), op)
  {
  }

  lemma ConcludeUnlocks(s: State, op: Id, r: Record, x: Session)
    requires Located(s, op) && (op in s.collectors ==> s.collectors[op].Ended?)
    ensures LockedAt(s, Conclude(s, op, r, x), op)
  {
  }

  lemma ConcludeReport(s: State, op: Id, r: Record, x: Session)
    requires FactsAt(s, op) && MayConclude(s, op) && ConclusionFits(s, op, r, x)
    ensures op in Conclude(s, op, r, x).records && ReportTrue(Conclude(s, op, r, x), op)
  {
    hide PromptStage, UnsettledFits, CreateStage, CancelStage, SessionCoherent, SessionGrows, AfterFinally,
      RecordShaped, Fulfilled, LifetimeAllows, ValidLayers;
  }

  lemma ConcludeStage(s: State, op: Id, r: Record, x: Session)
    requires Located(s, op) && ConclusionFits(s, op, r, x)
    ensures op in Conclude(s, op, r, x).records && op in Conclude(s, op, r, x).tasks
    ensures PromptStage(Conclude(s, op, r, x), op)
  {
    hide AfterFinally, SessionCoherent, Fulfilled, SessionGrows, CollectorCut;
  }

  lemma ConcludeSession(s: State, op: Id, r: Record, x: Session)
    requires FactsAt(s, op) && MayConclude(s, op) && ConclusionFits(s, op, r, x)
    requires Local(s, Conclude(s, op, r, x), op)
    ensures var s' := Conclude(s, op, r, x);
      && SessionFits(s, s', op)
      && (Unsettled(s', op) ==> UnsettledFits(s', op))
      && ClosureKept(s, s', op)
      && (Spoiled(s', op) ==> Spoiled(s, op) || (Unsettled(s, op) && !s'.sessions[SessionOf(s', op)].state.Ready?))
  {
    hide ReportTrue, PromptStage, CreateStage, CancelStage, AfterFinally, Fulfilled, SessionCoherent, RecordShaped;
    AfterFinallyFits(x, op, r.state);
  }

  lemma ConcludeCoherent(s: State, op: Id, r: Record, x: Session)
    requires FactsAt(s, op) && MayConclude(s, op) && ConclusionFits(s, op, r, x)
    ensures var s' := Conclude(s, op, r, x);
      && op in s'.records && SessionOf(s', op) in s'.sessions
      && s'.records[op].identity == s.records[op].identity
      && SessionCoherent(s'.sessions[SessionOf(s', op)])
      && s'.sessions[SessionOf(s', op)].backend.Some?
      && Fulfilled(s'.sessions[SessionOf(s', op)], s'.records[op])
  {
    hide UnsettledFits, PromptStage, ReportTrue, LifetimeAllows, CreateStage, CancelStage, AfterFinally;
    AfterFinallyFits(x, op, r.state);
  }

  lemma ConcludeLocal(s: State, op: Id, r: Record, x: Session)
    requires FactsAt(s, op) && MayConclude(s, op) && ConclusionFits(s, op, r, x)
    ensures Local(s, Conclude(s, op, r, x), op) && IntactAt(s, Conclude(s, op, r, x), op)
  {
    hide Conclude, Local, ShapedAt, LockedAt, ReportTrue, PromptStage, SessionFits, ClosureKept;
    ConcludeTouches(s, op, r, x);
    ConcludeShaped(s, op, r, x);
    ConcludeUnlocks(s, op, r, x);
    ConcludeReport(s, op, r, x);
    ConcludeStage(s, op, r, x);
    ConcludeSession(s, op, r, x);
    ConcludeCoherent(s, op, r, x);
  }

  lemma ConcludeReleases(s: State, op: Id, r: Record, x: Session)
    ensures var s' := Conclude(s, op, r, x);
      && s'.released == s.released + {op}
      && s'.reservations == (if op in s.released then s.reservations else s.reservations - 1)
      && s'.calls == s.calls
      && op in s'.records && s'.records[op] == r
      && op in s'.tasks && s'.tasks[op].Finished?
  {
    assert op in s.released ==> s.released + {op} == s.released;
  }

  lemma ConcludeKeeps(s: State, op: Id, r: Record, x: Session)
    requires Inv(s) && !s.quarantined && Located(s, op) && MayConclude(s, op) && ConclusionFits(s, op, r, x)
    ensures Keeps(s, Conclude(s, op, r, x))
  {
    var s' := Conclude(s, op, r, x);
    Facts(s, op);
    ConcludeLocal(s, op, r, x);
    ConcludeReleases(s, op, r, x);
    ReleasingKeeps(s, s', op);
  }

  lemma StoppedFits(s: State, op: Id, stop: StopReason)
    requires FactsAt(s, op) && At(s, op, AwaitingCollector) && IsPrompt(s, op)
    ensures ConclusionFits(s, op, StoppedRecord(s.records[op], stop),
                           StoppedSession(s.sessions[SessionOf(s, op)], s.records[op], stop))
  {
  }

  lemma PromptStoppedKeeps(s: State, op: Id, stop: StopReason)
    requires Inv(s) && !s.quarantined && At(s, op, AwaitingCollector) && IsPrompt(s, op)
    requires CollectorEnded(s, op)
    ensures Keeps(s, PromptStopped(s, op, stop))
  {
    Facts(s, op);
    StoppedFits(s, op, stop);
    ConcludeKeeps(s, op, StoppedRecord(s.records[op], stop),
                  StoppedSession(s.sessions[SessionOf(s, op)], s.records[op], stop));
  }

  /** A dispatched prompt may end with any of the other settlements on a session that is not reusable. */
  lemma SpoiledFits(s: State, op: Id, r: Record)
    requires FactsAt(s, op) && IsPrompt(s, op) && HoldsLock(s.tasks[op])
    requires var r0 := s.records[op];
      || r == Settled(r0, Failed, Some(RetainedEvidence), Some(EvidenceLimit))
      || r == Settled(r0, TimedOut, None, Some(ExecutionDeadline))
      || (r == r0 && r.state.Cancelling? && s.collectors[op] == Ended(WasCancelled))
    ensures ConclusionFits(s, op, r, s.sessions[SessionOf(s, op)].(state := NonReusable))
  {
  }

  lemma OverflowSettledKeeps(s: State, op: Id)
    requires Inv(s) && !s.quarantined && Located(s, op) && IsPrompt(s, op) && HoldsLock(s.tasks[op])
    requires CollectorEnded(s, op)
    ensures Keeps(s, PromptOverflowed(s, op, true))
  {
    Facts(s, op);
    var r := Settled(s.records[op], Failed, Some(RetainedEvidence), Some(EvidenceLimit));
    SpoiledFits(s, op, r);
    ConcludeKeeps(s, op, r, s.sessions[SessionOf(s, op)].(state := NonReusable));
  }

  lemma TimedOutKeeps(s: State, op: Id)
    requires Inv(s) && !s.quarantined && At(s, op, AwaitingDeadlineGrace) && CollectorEnded(s, op)
    ensures Keeps(s, Conclude(s, op, Settled(s.records[op], TimedOut, None, Some(ExecutionDeadline)),
                              s.sessions[SessionOf(s, op)].(state := NonReusable)))
  {
    Facts(s, op);
    var r := Settled(s.records[op], TimedOut, None, Some(ExecutionDeadline));
    SpoiledFits(s, op, r);
    ConcludeKeeps(s, op, r, s.sessions[SessionOf(s, op)].(state := NonReusable));
  }

  /** A collector is cancelled only for a prompt that is being cancelled. */
  lemma CollectorCancelledKeeps(s: State, op: Id, x: Session)
    requires Inv(s) && !s.quarantined && Located(s, op) && IsPrompt(s, op) && HoldsLock(s.tasks[op])
    requires op in s.collectors && s.collectors[op] == Ended(WasCancelled)
    requires x == s.sessions[SessionOf(s, op)] || x == s.sessions[SessionOf(s, op)].(state := NonReusable)
    requires s.records[op].state.Cancelling?
    ensures Keeps(s, Conclude(s, op, s.records[op], x))
  {
    Facts(s, op);
    SpoiledFits(s, op, s.records[op]);
    ConcludeKeeps(s, op, s.records[op], x);
  }

  lemma StaleKeeps(s: State, op: Id)
    requires Inv(s) && !s.quarantined && Located(s, op) && IsPrompt(s, op)
    requires NotDispatched(s.tasks[op]) && s.records[op].state.Terminal()
    ensures Keeps(s, Finish(s, op))
  {
    hide Inv, Keeps, CreateStage, CancelStage, LifetimeAllows;
    Facts(s, op);
    ConcludeKeeps(s, op, s.records[op], s.sessions[SessionOf(s, op)]);
  }

  lemma FirstSubmission(s: State, op: Id)
    requires Inv(s) && !s.quarantined && IsPrompt(s, op) && op !in s.collectors
    requires Unsettled(s, op) && BodyOf(s, op).phase.Initial?
    ensures forall o {:trigger o in s.records} ::
      o in s.records && o in s.collectors && IsPrompt(s, o) && BodyOf(s, o).phase.Initial? ==>
        SessionOf(s, o) != SessionOf(s, op)
  {
    assert UnsettledFits(s, op) && RecordShaped(s, op) && PromptStage(s, op) && !Inert(s, op);
    forall o | o in s.records && o in s.collectors && IsPrompt(s, o) && BodyOf(s, o).phase.Initial?
      ensures SessionOf(s, o) != SessionOf(s, op)
    {
      assert Unsettled(s, o) || Spoiled(s, o) || s.records[o].state.Completed?;
    }
  }

  lemma DispatchLocal(s: State, op: Id)
    requires FactsAt(s, op) && IsPrompt(s, op) && s.lock.None? && !s.records[op].state.Terminal()
    requires At(s, op, Scheduled) || At(s, op, AwaitingLock)
    ensures Local(s, EnterLock(s, op), op) && IntactAt(s, EnterLock(s, op), op)
  {
    hide LifetimeAllows, CreateStage, CancelStage, ValidLayers, SessionCoherent;
  }

  lemma Parts(s: State)
    requires Inv(s)
    ensures Shape(s) && Reserved(s) && CallsOnce(s)
  {
  }

  lemma DispatchKeeps(s: State, op: Id)
    requires Inv(s) && !s.quarantined && IsPrompt(s, op) && s.lock.None? && !s.records[op].state.Terminal()
    requires At(s, op, Scheduled) || At(s, op, AwaitingLock)
    ensures Keeps(s, EnterLock(s, op))
  {
    hide Inv, Keeps, IntactAt, Shape, Reserved, CallsOnce;
    Parts(s);
    var s' := EnterLock(s, op);
    Facts(s, op);
    DispatchLocal(s, op);
    ReservedKeptLocal(s, s', op);
    if BodyOf(s, op).phase.Initial? { FirstSubmission(s, op); }
    CallsAddedLocal(s, s', op, PromptCall(op, SessionOf(s, op), BodyOf(s, op).phase));
    EventKeeps(s, s', op);
  }

  lemma WaitLocal(s: State, op: Id)
    requires FactsAt(s, op) && IsPrompt(s, op) && (At(s, op, Scheduled) || At(s, op, AwaitingLock))
    ensures Local(s, WithTask(s, op, AwaitingLock), op) && IntactAt(s, WithTask(s, op, AwaitingLock), op)
  {
  }

  lemma EnterLockKeeps(s: State, op: Id)
    requires Inv(s) && !s.quarantined && IsPrompt(s, op)
    requires At(s, op, Scheduled) || At(s, op, AwaitingLock)
    ensures Keeps(s, EnterLock(s, op))
  {
    hide Inv, Keeps, IntactAt;
    if s.lock.Some? {
      Facts(s, op);
      WaitLocal(s, op);
      QuietKeeps(s, EnterLock(s, op), op);
    } else if s.records[op].state.Terminal() {
      StaleKeeps(s, op);
    } else {
      DispatchKeeps(s, op);
    }
  }

  lemma DeadlineFiresKeeps(s: State, op: Id)
    requires Inv(s) && !s.quarantined && At(s, op, AwaitingCollector)
    ensures Keeps(s, DeadlineFires(s, op))
  {
    var s' := DeadlineFires(s, op);
    Facts(s, op);
    DeadlineFiresLocal(s, op);
    ReservedKeptLocal(s, s', op);
    CallsAddedLocal(s, s', op, CancelCall(op));
    EventKeeps(s, s', op);
  }

  lemma DeadlineFiresLocal(s: State, op: Id)
    requires FactsAt(s, op) && At(s, op, AwaitingCollector)
    ensures Local(s, DeadlineFires(s, op), op) && IntactAt(s, DeadlineFires(s, op), op)
  {
    hide LifetimeAllows, CreateStage, CancelStage, ValidLayers, SessionCoherent;
  }

  lemma DeadlineCancelSentKeeps(s: State, op: Id)
    requires Inv(s) && !s.quarantined && At(s, op, SendingDeadlineCancel)
    ensures Keeps(s, DeadlineCancelSent(s, op))
  {
    Facts(s, op);
    DeadlineCancelSentLocal(s, op);
    QuietKeeps(s, DeadlineCancelSent(s, op), op);
  }

  lemma DeadlineCancelSentLocal(s: State, op: Id)
    requires FactsAt(s, op) && At(s, op, SendingDeadlineCancel)
    ensures Local(s, DeadlineCancelSent(s, op), op) && IntactAt(s, DeadlineCancelSent(s, op), op)
  {
  }

  lemma DeadlineGraceExpiresKeeps(s: State, op: Id)
    requires Inv(s) && !s.quarantined && At(s, op, AwaitingDeadlineGrace)
    ensures Keeps(s, DeadlineGraceExpires(s, op))
  {
    Facts(s, op);
    DeadlineGraceExpiresLocal(s, op);
    QuietKeeps(s, DeadlineGraceExpires(s, op), op);
  }

  lemma DeadlineGraceExpiresLocal(s: State, op: Id)
    requires FactsAt(s, op) && At(s, op, AwaitingDeadlineGrace)
    ensures Local(s, DeadlineGraceExpires(s, op), op) && IntactAt(s, DeadlineGraceExpires(s, op), op)
  {
    hide LifetimeAllows, CreateStage, CancelStage, ValidLayers, SessionCoherent;
  }

  /** A collector that ends, or that is asked to end and dropped from `collector_tasks`. */
  lemma CollectorChangesKeeps(s: State, s': State, op: Id)
    requires Inv(s) && !s.quarantined && op in s.collectors && op in s.tasks
    requires
      || (exists outcome :: s.collectors[op].Live? && (outcome == WasCancelled ==> s.collectors[op] == Live(true)) &&
            s' == s.(collectors := s.collectors[op := Ended(outcome)]))
      || ((s.records[op].state.Cancelling? || s.records[op].state.Terminal()) &&
            s' == CancelCollector(s, op).(registered := s.registered - {op}))
    ensures Keeps(s, s')
  {
    Facts(s, op);
    CollectorChangesLocal(s, s', op);
    QuietKeeps(s, s', op);
  }

  lemma CollectorChangesLocal(s: State, s': State, op: Id)
    requires FactsAt(s, op) && op in s.collectors
    requires
      || (exists outcome :: s.collectors[op].Live? && (outcome == WasCancelled ==> s.collectors[op] == Live(true)) &&
            s' == s.(collectors := s.collectors[op := Ended(outcome)]))
      || ((s.records[op].state.Cancelling? || s.records[op].state.Terminal()) &&
            s' == CancelCollector(s, op).(registered := s.registered - {op}))
    ensures Local(s, s', op) && IntactAt(s, s', op)
  {
    hide FactsAt, Local, IntactAt;
    if s.collectors[op].Live? && s'.collectors[op].Ended? {
      CollectorEndsLocal(s, op, s'.collectors[op].outcome);
    } else {
      CollectorDroppedLocal(s, op);
    }
  }

  lemma CollectorEndsLocal(s: State, op: Id, outcome: CollectorOutcome)
    requires FactsAt(s, op) && op in s.collectors
    requires s.collectors[op].Live? && (outcome == WasCancelled ==> s.collectors[op] == Live(true))
    ensures var s' := s.(collectors := s.collectors[op := Ended(outcome)]);
      Local(s, s', op) && IntactAt(s, s', op)
  {
    hide LifetimeAllows, CreateStage, CancelStage, Fulfilled, SessionCoherent, ValidLayers;
  }

  lemma CollectorDroppedLocal(s: State, op: Id)
    requires FactsAt(s, op) && op in s.collectors
    requires s.records[op].state.Cancelling? || s.records[op].state.Terminal()
    ensures var s' := CancelCollector(s, op).(registered := s.registered - {op});
      Local(s, s', op) && IntactAt(s, s', op)
  {
    hide LifetimeAllows, CreateStage, CancelStage, Fulfilled, SessionCoherent, ValidLayers;
  }

  // ----- cancellation -----

  lemma StartCancelKeeps(s: State, op: Id)
    requires Inv(s) && !s.quarantined && At(s, op, Scheduled) && IsCancel(s, op)
    ensures Keeps(s, StartCancel(s, op))
  {
    var s' := StartCancel(s, op);
    Facts(s, op);
    StartCancelLocal(s, op);
    ReservedKeptLocal(s, s', op);
    CallsAddedLocal(s, s', op, CancelCall(s.records[op].identity.target.value));
    EventKeeps(s, s', op);
  }

  lemma StartCancelLocal(s: State, op: Id)
    requires FactsAt(s, op) && At(s, op, Scheduled) && IsCancel(s, op)
    ensures Local(s, StartCancel(s, op), op) && IntactAt(s, StartCancel(s, op), op)
  {
  }

  lemma CancelWaitsKeeps(s: State, op: Id, t: Task)
    requires Inv(s) && !s.quarantined && Located(s, op) && (t.AwaitingTarget? || t.ReapingTarget?)
    requires s.tasks[op].SendingCancel? || s.tasks[op].AwaitingTarget?
    ensures Keeps(s, WithTask(s, op, t))
  {
    Facts(s, op);
    CancelWaitsLocal(s, op, t);
    QuietKeeps(s, WithTask(s, op, t), op);
  }

  lemma CancelWaitsLocal(s: State, op: Id, t: Task)
    requires FactsAt(s, op) && (t.AwaitingTarget? || t.ReapingTarget?)
    requires s.tasks[op].SendingCancel? || s.tasks[op].AwaitingTarget?
    ensures Local(s, WithTask(s, op, t), op) && IntactAt(s, WithTask(s, op, t), op)
  {
    hide LifetimeAllows, PromptStage, CreateStage, ValidLayers, SessionCoherent, Fulfilled;
  }

  lemma TargetSettledKeeps(s: State, op: Id, target: Id)
    requires Inv(s) && !s.quarantined && At(s, op, AwaitingTarget) && IsCancel(s, op)
    requires target == s.records[op].identity.target.value && s.records[target].state.Terminal()
    ensures Keeps(s, TargetSettled(s, op, target))
  {
    Facts(s, op);
    TargetSettledLocal(s, op, target);
    QuietKeeps(s, TargetSettled(s, op, target), op);
  }

  lemma TargetSettledLocal(s: State, op: Id, target: Id)
    requires FactsAt(s, op) && At(s, op, AwaitingTarget) && IsCancel(s, op)
    requires target == s.records[op].identity.target.value && s.records[target].state.Terminal() && target != op
    ensures Local(s, TargetSettled(s, op, target), op) && IntactAt(s, TargetSettled(s, op, target), op)
  {
    hide LifetimeAllows, PromptStage, CreateStage, ValidLayers, SessionCoherent;
  }
}
