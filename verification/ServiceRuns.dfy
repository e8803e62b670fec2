/** The invariant holds along every run, whatever the callers, the child and the timers do. */
module ServiceRuns {
  import opened Wrappers
  import opened DirectProtocol
  import opened DirectState
  import opened ServiceModel
  import opened ServiceInvariant
  import opened ServiceLocal
  import opened ServiceEvents
  import opened ServiceLoss
  import opened ServiceAdmission

  lemma StartInv(config: Config)
    ensures Inv(Start(config))
  {
    assert Prompts(Start(config)) == {};
  }

  /** After the loss only finally blocks, the abort and the publication are left to run. */
  lemma LostTask(s: State, op: Id)
    requires Inv(s) && s.quarantined && op in s.tasks
    ensures s.tasks[op].Finished? || s.tasks[op].Unwinding? || Deferring(s.tasks[op])
  {
  }

  lemma IntactTaskKinds(s: State, op: Id)
    requires Inv(s) && !s.quarantined && Located(s, op)
    ensures !s.tasks[op].Unwinding? && !Deferring(s.tasks[op])
    ensures HoldsLock(s.tasks[op]) ==> IsPrompt(s, op)
    ensures HoldsLock(s.tasks[op]) && op in s.collectors && s.collectors[op] == Ended(WasCancelled) ==>
      s.records[op].state.Cancelling?
    ensures s.records[op].identity.kind.CancelKind? ==> IsCancel(s, op) && !IsPrompt(s, op)
    ensures s.tasks[op].SendingCancel? || s.tasks[op].AwaitingTarget? || s.tasks[op].ReapingTarget? ==> IsCancel(s, op)
  {
    hide Inv;
    Facts(s, op);
  }

  lemma TaskRunsKeeps(s: State, op: Id)
    requires Inv(s)
    ensures Keeps(s, Next(s, TaskRuns(op)))
  {
    hide Inv, Keeps;
    if !Located(s, op) || !NotDispatched(s.tasks[op]) {
      KeepsReflexive(s);
    } else if s.quarantined {
      LostTask(s, op);
      assert false;
    } else {
      IntactTaskKinds(s, op);
      if IsPrompt(s, op) {
        EnterLockKeeps(s, op);
      } else if s.tasks[op].Scheduled? && s.records[op].identity.kind.CreateKind? {
        StartCreateKeeps(s, op);
      } else if s.tasks[op].Scheduled? && s.records[op].identity.kind.CancelKind? {
        StartCancelKeeps(s, op);
      } else {
        KeepsReflexive(s);
      }
    }
  }

  lemma CreateEventsKeep(s: State, e: Event)
    requires Inv(s)
    requires e.CreateReply? || e.CreateReject? || e.CreateTimeout? || e.CreateError?
    ensures Keeps(s, Next(s, e))
  {
    hide Inv, Keeps;
    if !At(s, e.op, AwaitingCreate) {
      KeepsReflexive(s);
    } else if s.quarantined {
      LostTask(s, e.op);
      assert false;
    } else {
      match e
      case CreateReply(op, backend, model) => CreateRepliedKeeps(s, op, backend, model);
      case CreateReject(op) => CreateRejectedKeeps(s, op);
      case CreateTimeout(op) => CreateTimedOutKeeps(s, op);
      case CreateError(op) => CreateRaisedKeeps(s, op);
    }
  }

  lemma CollectorEndsKeeps(s: State, op: Id, outcome: CollectorOutcome)
    requires Inv(s)
    ensures Keeps(s, Next(s, CollectorEnds(op, outcome)))
  {
    hide Inv, Keeps;
    if !(op in s.collectors && s.collectors[op].Live? && (outcome.WasCancelled? ==> s.collectors[op].cancelRequested)) {
      KeepsReflexive(s);
    } else if s.quarantined {
      LostCollectorEndsKeeps(s, op, outcome);
    } else {
      LostCollectorLocated(s, op);
      CollectorOwned(s, op);
      CollectorChangesKeeps(s, s.(collectors := s.collectors[op := Ended(outcome)]), op);
    }
  }

  lemma CollectorOwned(s: State, op: Id)
    requires Inv(s) && op in s.collectors
    ensures op in s.tasks
  {
    assert op in s.records && RecordShaped(s, op);
  }

  lemma PromptResumesKeeps(s: State, op: Id)
    requires Inv(s) && !s.quarantined && At(s, op, AwaitingCollector) && IsPrompt(s, op) && CollectorEnded(s, op)
    ensures Keeps(s, PromptResumes(s, op))
  {
    hide Inv, Keeps;
    IntactTaskKinds(s, op);
    match s.collectors[op].outcome
    case Returned(stop) => PromptStoppedKeeps(s, op, stop);
    case Overflowed(settledCancelled) =>
      if settledCancelled { OverflowSettledKeeps(s, op); } else { OverflowUnsettledKeeps(s, op); }
    case Raised => PromptRaisedKeeps(s, LeaveLock(s, op), op);
    case WasCancelled => CollectorCancelledKeeps(s, op, s.sessions[SessionOf(s, op)]);
  }

  lemma DeadlineResumesKeeps(s: State, op: Id)
    requires Inv(s) && !s.quarantined && At(s, op, AwaitingDeadlineGrace) && CollectorEnded(s, op)
    ensures Keeps(s, DeadlineResumes(s, op))
  {
    hide Inv, Keeps;
    IntactTaskKinds(s, op);
    match s.collectors[op].outcome
    case Returned(stop) =>
      if stop.StopCancelled? { TimedOutKeeps(s, op); } else { DeadlineUnsettledKeeps(s, op, DeadlineStopMismatch); }
    case Overflowed(settledCancelled) =>
      if settledCancelled { OverflowSettledKeeps(s, op); } else { OverflowUnsettledKeeps(s, op); }
    case Raised => PromptRaisedKeeps(s, LeaveLock(s, op), op);
    case WasCancelled => CollectorCancelledKeeps(s, op, s.sessions[SessionOf(s, op)].(state := NonReusable));
  }

  lemma CollectorSeenKeeps(s: State, op: Id)
    requires Inv(s)
    ensures Keeps(s, Next(s, CollectorSeen(op)))
  {
    hide Inv, Keeps;
    if !CollectorEnded(s, op) || !Located(s, op) ||
      !(s.tasks[op].AwaitingCollector? || s.tasks[op].AwaitingDeadlineGrace?) {
      KeepsReflexive(s);
    } else if s.quarantined {
      LostTask(s, op);
      assert false;
    } else {
      IntactTaskKinds(s, op);
      if s.tasks[op].AwaitingCollector? { PromptResumesKeeps(s, op); } else { DeadlineResumesKeeps(s, op); }
    }
  }

  lemma DeadlineKeeps(s: State, op: Id)
    requires Inv(s)
    ensures Keeps(s, Next(s, Deadline(op)))
  {
    hide Inv, Keeps;
    if !At(s, op, AwaitingCollector) {
      KeepsReflexive(s);
    } else if s.quarantined {
      LostTask(s, op);
      assert false;
    } else {
      DeadlineFiresKeeps(s, op);
    }
  }

  lemma SendEventsKeep(s: State, e: Event)
    requires Inv(s) && (e.SendSucceeds? || e.SendFails?)
    ensures Keeps(s, Next(s, e))
  {
    hide Inv, Keeps;
    var op := e.op;
    if !(At(s, op, SendingDeadlineCancel) || At(s, op, SendingCancel)) {
      KeepsReflexive(s);
    } else if s.quarantined {
      LostTask(s, op);
      assert false;
    } else {
      IntactTaskKinds(s, op);
      if At(s, op, SendingDeadlineCancel) {
        if e.SendSucceeds? { DeadlineCancelSentKeeps(s, op); }
        else { PromptRaisedKeeps(s, FreeLock(PopIfEnded(s, op), op), op); }
      } else {
        if e.SendSucceeds? { CancelWaitsKeeps(s, op, AwaitingTarget); }
        else {
          CancelUnsettledKeeps(s, op,
            [Settlement(s.records[op].identity.target.value, InDoubt, None, Some(CancelTransportFailed)),
             Settlement(op, Failed, None, Some(CancelFailed))]);
        }
      }
    }
  }

  lemma CancelGraceKeeps(s: State, op: Id)
    requires Inv(s) && !s.quarantined && At(s, op, AwaitingTarget) && IsCancel(s, op)
    ensures Keeps(s, CancelGraceExpires(s, op, s.records[op].identity.target.value))
  {
    hide Inv, Keeps;
    var target := s.records[op].identity.target.value;
    if target in s.registered {
      RegisteredTarget(s, op);
      var mid := CancelCollector(s, target).(registered := s.registered - {target});
      CollectorChangesKeeps(s, mid, target);
      KeepsInv(s, mid);
      CancelWaitsKeeps(mid, op, ReapingTarget);
      KeepsThrough(s, mid, CancelGraceExpires(s, op, target));
    } else {
      CancelUnsettledKeeps(s, op, CancelDeferred(op, target));
    }
  }

  lemma RegisteredTarget(s: State, op: Id)
    requires Inv(s) && !s.quarantined && At(s, op, AwaitingTarget) && IsCancel(s, op)
    ensures var target := s.records[op].identity.target.value;
      && target in s.collectors && target in s.tasks
      && (s.records[target].state.Cancelling? || s.records[target].state.Terminal())
  {
    assert CancelStage(s, op) && RecordShaped(s, s.records[op].identity.target.value);
  }

  lemma GraceExpiresKeeps(s: State, op: Id)
    requires Inv(s)
    ensures Keeps(s, Next(s, GraceExpires(op)))
  {
    hide Inv, Keeps;
    if !(At(s, op, AwaitingDeadlineGrace) || At(s, op, AwaitingTarget)) {
      KeepsReflexive(s);
    } else if s.quarantined {
      LostTask(s, op);
      assert false;
    } else {
      IntactTaskKinds(s, op);
      if At(s, op, AwaitingDeadlineGrace) { DeadlineGraceExpiresKeeps(s, op); } else { CancelGraceKeeps(s, op); }
    }
  }

  lemma ReapedKeeps(s: State, op: Id)
    requires Inv(s)
    ensures Keeps(s, Next(s, Reaped(op)))
  {
    hide Inv, Keeps;
    if !(At(s, op, ReapingCollector) || At(s, op, ReapingTarget)) {
      KeepsReflexive(s);
    } else if s.quarantined {
      LostTask(s, op);
      assert false;
    } else {
      IntactTaskKinds(s, op);
      if At(s, op, ReapingCollector) && CollectorEnded(s, op) {
        DeadlineUnsettledKeeps(s, op, DeadlineSettlementUnknown);
      } else if At(s, op, ReapingTarget) && CollectorEnded(s, s.records[op].identity.target.value) {
        CancelUnsettledKeeps(s, op, CancelDeferred(op, s.records[op].identity.target.value));
      } else {
        KeepsReflexive(s);
      }
    }
  }

  lemma TargetSeenKeeps(s: State, op: Id)
    requires Inv(s)
    ensures Keeps(s, Next(s, TargetSeen(op)))
  {
    hide Inv, Keeps;
    if !At(s, op, AwaitingTarget) {
      KeepsReflexive(s);
    } else if s.quarantined {
      LostTask(s, op);
      assert false;
    } else {
      IntactTaskKinds(s, op);
      if s.records[s.records[op].identity.target.value].state.Terminal() {
        TargetSettledKeeps(s, op, s.records[op].identity.target.value);
      } else {
        KeepsReflexive(s);
      }
    }
  }

  lemma LossEventsKeep(s: State, e: Event)
    requires Inv(s) && (e.Abort? || e.PublishNow? || e.UnwindNow?)
    ensures Keeps(s, Next(s, e))
  {
    hide Inv, Keeps;
    var op := e.op;
    if !Located(s, op) || !(s.tasks[op].Unwinding? || Deferring(s.tasks[op])) {
      KeepsReflexive(s);
    } else if !s.quarantined {
      IntactTaskKinds(s, op);
      assert false;
    } else if e.Abort? && s.tasks[op].Quarantining? {
      AbortKeeps(s, op, s.tasks[op].deferred);
    } else if e.PublishNow? && s.tasks[op].Aborting? {
      PublishDeferredKeeps(s, op);
    } else if e.UnwindNow? && s.tasks[op].Unwinding? {
      UnwindKeeps(s, op);
    } else {
      KeepsReflexive(s);
    }
  }

  lemma NextKeeps(s: State, e: Event)
    requires Inv(s)
    ensures Keeps(s, Next(s, e))
  {
    hide Inv, Keeps;
    match e
    case DoCreate(req) => if req.CreateSession? { CreateAdmissionKeeps(s, req); } else { KeepsReflexive(s); }
    case DoPrompt(sid, body) => if ValidLayers(body) { PromptAdmissionKeeps(s, sid, body); } else { KeepsReflexive(s); }
    case DoCancel(req) => if req.Cancel? { CancelAdmissionKeeps(s, req); } else { KeepsReflexive(s); }
    case DoRetire(req) => if req.Retire? { RetireAdmissionKeeps(s, req); } else { KeepsReflexive(s); }
    case TaskRuns(op) => TaskRunsKeeps(s, op);
    case CreateReply(_, _, _) => CreateEventsKeep(s, e);
    case CreateReject(_) => CreateEventsKeep(s, e);
    case CreateTimeout(_) => CreateEventsKeep(s, e);
    case CreateError(_) => CreateEventsKeep(s, e);
    case CollectorEnds(op, outcome) => CollectorEndsKeeps(s, op, outcome);
    case CollectorSeen(op) => CollectorSeenKeeps(s, op);
    case Deadline(op) => DeadlineKeeps(s, op);
    case SendSucceeds(_) => SendEventsKeep(s, e);
    case SendFails(_) => SendEventsKeep(s, e);
    case GraceExpires(op) => GraceExpiresKeeps(s, op);
    case Reaped(op) => ReapedKeeps(s, op);
    case TargetSeen(op) => TargetSeenKeeps(s, op);
    case Abort(_) => LossEventsKeep(s, e);
    case PublishNow(_) => LossEventsKeep(s, e);
    case UnwindNow(_) => LossEventsKeep(s, e);
    case OwnerReportsLoss => if s.quarantined { KeepsReflexive(s); } else { OwnerLossKeeps(s); }
    case TransportDies => TransportDiesKeeps(s);
  }

  /** Every run keeps the invariant and lets the past stand. */
  lemma {:induction false} RunKeeps(s: State, events: seq<Event>)
    requires Inv(s)
    ensures Keeps(s, Run(s, events))
    decreases |events|
  {
    hide Inv, Keeps;
    if events == [] {
      KeepsReflexive(s);
    } else {
      var mid := Next(s, events[0]);
      NextKeeps(s, events[0]);
      KeepsInv(s, mid);
      RunKeeps(mid, events[1..]);
      KeepsThrough(s, mid, Run(s, events));
    }
  }

  lemma {:induction false} RunAppend(s: State, a: seq<Event>, b: seq<Event>)
    ensures Run(s, a + b) == Run(Run(s, a), b)
    decreases |a|
  {
    if a == [] {
      assert a + b == b;
    } else {
      assert (a + b)[1..] == a[1..] + b;
      RunAppend(Next(s, a[0]), a[1..], b);
    }
  }
}
