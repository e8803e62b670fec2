/**
 What each event of the child, the timers and the tasks makes of an operation, its session and the
 generation, told in their own fields and by conditions on the state before the event.
 */
module ServiceEffects {
  import opened Wrappers
  import opened DirectProtocol
  import opened DirectState
  import opened ServiceModel
  import opened ServiceInvariant
  import opened ServiceLocal
  import opened ServiceEvents
  import opened ServiceLoss
  import opened ServiceRuns
  import opened ServiceAftermath
  import opened ServiceSettlements
  import opened ServiceTheorems

  /** The prompt stands at this wait, and its collector has ended so. */
  predicate Sees(s: State, op: Id, wait: Task, outcome: CollectorOutcome) {
    At(s, op, wait) && IsPrompt(s, op) && op in s.collectors && s.collectors[op] == Ended(outcome)
  }

  lemma Holding(config: Config, events: seq<Event>, op: Id)
    requires var s := Run(Start(config), events); Located(s, op) && HoldsLock(s.tasks[op])
    ensures var s := Run(Start(config), events);
      && !s.quarantined && IsPrompt(s, op) && op in s.collectors && s.lock == Some(op)
      && (s.records[op].state.Running? || s.records[op].state.Cancelling?)
      && s.records[op].result.None? && s.records[op].error.None?
      && s.sessions[SessionOf(s, op)].active == Some(op)
  {
    hide Inv, AllExplained;
    Reached(config, events);
    ReachedExplained(config, events);
    var s := Run(Start(config), events);
    if s.quarantined {
      LostTask(s, op);
    } else {
      HoldingFacts(s, op);
      BareAt(s, op);
    }
  }

  lemma HoldingFacts(s: State, op: Id)
    requires Inv(s) && !s.quarantined && Located(s, op) && HoldsLock(s.tasks[op])
    ensures IsPrompt(s, op) && op in s.collectors && s.lock == Some(op)
    ensures s.records[op].state.Running? || s.records[op].state.Cancelling?
    ensures s.sessions[SessionOf(s, op)].active == Some(op)
  {
    hide Inv;
    Facts(s, op);
    HoldingIsUnsettled(s, op);
  }

  /** The lock, the reservation and the registration that the end of a prompt's task gives up. */
  predicate GivenUp(s: State, op: Id) {
    s.lock.None? && op in s.released && op !in s.registered && op in s.tasks && s.tasks[op].Finished?
  }

  // ----- the collector ends within the execution timeout -----

  /**
   A stop settles its prompt: cancelled if it stopped as cancelled; otherwise completed, unless it was being
   cancelled, which leaves it in doubt.
   */
  lemma StopSettles(config: Config, events: seq<Event>, op: Id, stop: StopReason)
    requires Sees(Run(Start(config), events), op, AwaitingCollector, Returned(stop))
    ensures var s := Run(Start(config), events); var s' := Next(s, CollectorSeen(op));
      && op in s'.records && GivenUp(s', op) && s'.quarantined == s.quarantined
      && var r, r' := s.records[op], s'.records[op];
      && (r'.state.Completed? <==> !r.state.Cancelling? && stop != StopCancelled)
      && (r'.state.Cancelled? <==> stop == StopCancelled)
      && (r'.state.InDoubt? <==> r.state.Cancelling? && stop != StopCancelled)
      && (if r'.state.InDoubt? then r'.result.None? && r'.error == Some(CancellationStopMismatch)
          else r'.result == Some(PromptDone(stop)) && r'.error.None?)
  {
    hide Inv;
    Holding(config, events, op);
    StopEffect(Run(Start(config), events), op, stop);
  }

  lemma StopEffect(s: State, op: Id, stop: StopReason)
    requires Sees(s, op, AwaitingCollector, Returned(stop)) && s.lock == Some(op) && !s.records[op].state.Terminal()
    ensures var s' := Next(s, CollectorSeen(op));
      && op in s'.records && GivenUp(s', op) && s'.quarantined == s.quarantined
      && var r, r' := s.records[op], s'.records[op];
      && (r'.state.Completed? <==> !r.state.Cancelling? && stop != StopCancelled)
      && (r'.state.Cancelled? <==> stop == StopCancelled)
      && (r'.state.InDoubt? <==> r.state.Cancelling? && stop != StopCancelled)
      && (if r'.state.InDoubt? then r'.result.None? && r'.error == Some(CancellationStopMismatch)
          else r'.result == Some(PromptDone(stop)) && r'.error.None?)
  {
    assert Next(s, CollectorSeen(op)) == PromptStopped(s, op, stop);
  }

  /** What a stop leaves in the session: all that a completed prompt submits, or a session not to be used again. */
  lemma StopLeaves(config: Config, events: seq<Event>, op: Id, stop: StopReason)
    requires Sees(Run(Start(config), events), op, AwaitingCollector, Returned(stop))
    ensures var s := Run(Start(config), events); var s' := Next(s, CollectorSeen(op)); var sid := SessionOf(s, op);
      && sid in s'.sessions && s'.sessions[sid].active.None?
      && var x, x', body := s.sessions[sid], s'.sessions[sid], BodyOf(s, op);
      if !s.records[op].state.Cancelling? && stop != StopCancelled then
        && x'.state.Ready?
        && x'.stableSubmitted == (x.stableSubmitted || body.phase.Initial?)
        && x'.activeInvocation == Some(body.invocationId)
        && x'.contracts == (if body.outputContract.Some?
             then x.contracts[body.invocationId := Sha256(body.outputContract.value)] else x.contracts)
      else
        && x'.state.NonReusable?
        && x'.stableSubmitted == x.stableSubmitted && x'.activeInvocation == x.activeInvocation
        && x'.contracts == x.contracts
  {
    hide Inv;
    Holding(config, events, op);
    StopLeavesAt(Run(Start(config), events), op, stop);
  }

  lemma StopLeavesAt(s: State, op: Id, stop: StopReason)
    requires Sees(s, op, AwaitingCollector, Returned(stop)) && !s.records[op].state.Terminal() && !s.quarantined
    requires s.sessions[SessionOf(s, op)].active == Some(op)
    ensures var s' := Next(s, CollectorSeen(op)); var sid := SessionOf(s, op);
      && sid in s'.sessions && s'.sessions[sid].active.None?
      && var x, x', body := s.sessions[sid], s'.sessions[sid], BodyOf(s, op);
      if !s.records[op].state.Cancelling? && stop != StopCancelled then
        && x'.state.Ready?
        && x'.stableSubmitted == (x.stableSubmitted || body.phase.Initial?)
        && x'.activeInvocation == Some(body.invocationId)
        && x'.contracts == (if body.outputContract.Some?
             then x.contracts[body.invocationId := Sha256(body.outputContract.value)] else x.contracts)
      else
        && x'.state.NonReusable?
        && x'.stableSubmitted == x.stableSubmitted && x'.activeInvocation == x.activeInvocation
        && x'.contracts == x.contracts
  {
    hide AfterFinally;
    assert Next(s, CollectorSeen(op)) == PromptStopped(s, op, stop);
    hide Next;
    IdleAfter(StoppedSession(s.sessions[SessionOf(s, op)], s.records[op], stop), op,
              StoppedRecord(s.records[op], stop).state);
  }

  // ----- the deadline -----

  /** The deadline marks the prompt as being cancelled and asks the child once to cancel it. */
  lemma DeadlineCancels(config: Config, events: seq<Event>, op: Id)
    requires At(Run(Start(config), events), op, AwaitingCollector)
    ensures var s := Run(Start(config), events); var s' := Next(s, Deadline(op));
      && s'.records == s.records[op := s.records[op].(state := Cancelling)]
      && s'.calls == s.calls + [CancelCall(op)]
      && s'.tasks == s.tasks[op := SendingDeadlineCancel]
      && s'.sessions == s.sessions && s'.collectors == s.collectors && s'.lock == Some(op)
  {
    hide Inv;
    Holding(config, events, op);
  }

  /** Within the grace a cancelled stop is a timeout; any other stop loses the generation and defers its doubt. */
  lemma DeadlineSettles(config: Config, events: seq<Event>, op: Id, stop: StopReason)
    requires Sees(Run(Start(config), events), op, AwaitingDeadlineGrace, Returned(stop))
    ensures var s := Run(Start(config), events); var s' := Next(s, CollectorSeen(op)); var sid := SessionOf(s, op);
      && op in s'.records && sid in s'.sessions
      && (s'.records[op].state.TimedOut? <==> stop == StopCancelled)
      && (s'.quarantined <==> stop != StopCancelled)
      && (if stop == StopCancelled then
            && s'.records[op].result.None? && s'.records[op].error == Some(ExecutionDeadline)
            && GivenUp(s', op) && s'.sessions[sid].state.NonReusable? && s'.sessions[sid].active.None?
          else
            && s'.records[op] == s.records[op]
            && DeferredOf(s') == [Settlement(op, InDoubt, None, Some(DeadlineStopMismatch))])
  {
    hide Inv;
    Holding(config, events, op);
    DeadlineEffect(Run(Start(config), events), op, stop);
  }

  lemma DeadlineEffect(s: State, op: Id, stop: StopReason)
    requires Sees(s, op, AwaitingDeadlineGrace, Returned(stop)) && s.lock == Some(op) && !s.quarantined
    requires !s.records[op].state.Terminal() && s.sessions[SessionOf(s, op)].active == Some(op)
    ensures var s' := Next(s, CollectorSeen(op)); var sid := SessionOf(s, op);
      && op in s'.records && sid in s'.sessions
      && (s'.records[op].state.TimedOut? <==> stop == StopCancelled)
      && (s'.quarantined <==> stop != StopCancelled)
      && (if stop == StopCancelled then
            && s'.records[op].result.None? && s'.records[op].error == Some(ExecutionDeadline)
            && GivenUp(s', op) && s'.sessions[sid].state.NonReusable? && s'.sessions[sid].active.None?
          else
            && s'.records[op] == s.records[op]
            && DeferredOf(s') == [Settlement(op, InDoubt, None, Some(DeadlineStopMismatch))])
  {
    hide Next, Quarantine, AfterFinally;
    DeadlineSeen(s, op, stop);
    if stop == StopCancelled {
      IdleAfter(s.sessions[SessionOf(s, op)].(state := NonReusable), op, TimedOut);
    } else {
      LosesWith(s, op, InDoubtAs(op, DeadlineStopMismatch));
      OpsOne(Settlement(op, InDoubt, None, Some(DeadlineStopMismatch)));
    }
  }

  lemma DeadlineSeen(s: State, op: Id, stop: StopReason)
    requires Sees(s, op, AwaitingDeadlineGrace, Returned(stop))
    ensures Next(s, CollectorSeen(op)) ==
      if stop == StopCancelled
      then Conclude(s, op, Settled(s.records[op], TimedOut, None, Some(ExecutionDeadline)),
                    s.sessions[SessionOf(s, op)].(state := NonReusable))
      else Quarantine(s, op, InDoubtAs(op, DeadlineStopMismatch))
  {
    hide Quarantine, Conclude;
  }

  lemma IdleAfter(x: Session, op: Id, state: OperationState)
    requires x.active == Some(op) && state.Terminal()
    ensures var x' := AfterFinally(x, op, state, false);
      x' == x.(active := None, state := if state.Completed? || state.Failed? then x.state else NonReusable)
  {
  }

  lemma OpsOne(d: Settlement)
    ensures Ops([d]) == {d.op}
  {
    assert [d][0].op in Ops([d]);
  }

  /** A task that loses the generation defers its settlements, and their operations stay as they are. */
  lemma LosesWith(s: State, op: Id, deferred: seq<Settlement>)
    requires Located(s, op) && !s.quarantined
    ensures var s' := Quarantine(s, op, deferred);
      && s'.quarantined && DeferredOf(s') == deferred && s'.tasks[op] == Quarantining(deferred)
      && s'.sessions.Keys == s.sessions.Keys
      && forall o {:trigger o in s.records} :: o in s.records ==>
           && o in s'.records
           && (s'.records[o] == s.records[o] || (o !in Ops(deferred) && !s.records[o].state.Terminal()
                && s'.records[o] == s.records[o].(state := InDoubt, result := None, error := Some(ContinuityLost))))
           && (o !in Ops(deferred) ==> s'.records[o].state.Terminal())
  {
    assert Quarantine(s, op, deferred).sessions.Keys == s.sessions.Keys;
  }

  // ----- the other ends of a collector -----

  /**
   An overflow that settled as cancelled fails the prompt with its evidence; any other loses the
   generation and defers the evidence in doubt.
   */
  lemma OverflowSettles(config: Config, events: seq<Event>, op: Id, wait: Task, settledCancelled: bool)
    requires wait.AwaitingCollector? || wait.AwaitingDeadlineGrace?
    requires Sees(Run(Start(config), events), op, wait, Overflowed(settledCancelled))
    ensures var s := Run(Start(config), events); var s' := Next(s, CollectorSeen(op)); var sid := SessionOf(s, op);
      && op in s'.records && sid in s'.sessions
      && (s'.records[op].state.Failed? <==> settledCancelled)
      && (s'.quarantined <==> !settledCancelled)
      && (if settledCancelled then
            && s'.records[op].result == Some(RetainedEvidence) && s'.records[op].error == Some(EvidenceLimit)
            && GivenUp(s', op) && s'.sessions[sid].state.NonReusable? && s'.sessions[sid].active.None?
          else
            && s'.records[op] == s.records[op]
            && DeferredOf(s') == [Settlement(op, InDoubt, Some(RetainedEvidence), Some(EvidenceLimitInDoubt))])
  {
    hide Inv, Next;
    Holding(config, events, op);
    var s := Run(Start(config), events);
    OverflowSeen(s, op, wait, settledCancelled);
    OverflowEffect(s, op, settledCancelled);
  }

  lemma OverflowSeen(s: State, op: Id, wait: Task, settledCancelled: bool)
    requires wait.AwaitingCollector? || wait.AwaitingDeadlineGrace?
    requires Sees(s, op, wait, Overflowed(settledCancelled))
    ensures Next(s, CollectorSeen(op)) == PromptOverflowed(s, op, settledCancelled)
  {
    hide PromptOverflowed;
  }

  lemma OverflowEffect(s: State, op: Id, settledCancelled: bool)
    requires Located(s, op) && s.lock == Some(op) && !s.quarantined && !s.records[op].state.Terminal()
    requires s.sessions[SessionOf(s, op)].active == Some(op)
    ensures var s' := PromptOverflowed(s, op, settledCancelled); var sid := SessionOf(s, op);
      && op in s'.records && sid in s'.sessions
      && (s'.records[op].state.Failed? <==> settledCancelled)
      && (s'.quarantined <==> !settledCancelled)
      && (if settledCancelled then
            && s'.records[op].result == Some(RetainedEvidence) && s'.records[op].error == Some(EvidenceLimit)
            && GivenUp(s', op) && s'.sessions[sid].state.NonReusable? && s'.sessions[sid].active.None?
          else
            && s'.records[op] == s.records[op]
            && DeferredOf(s') == [Settlement(op, InDoubt, Some(RetainedEvidence), Some(EvidenceLimitInDoubt))])
  {
    hide Quarantine, AfterFinally;
    var d := Settlement(op, InDoubt, Some(RetainedEvidence), Some(EvidenceLimitInDoubt));
    if settledCancelled {
      IdleAfter(s.sessions[SessionOf(s, op)].(state := NonReusable), op, Failed);
    } else {
      LosesWith(WithSessionState(LeaveLock(s, op), SessionOf(s, op), NonReusable), op, [d]);
      OpsOne(d);
    }
  }

  /**
   An exception of the collector loses the generation: in doubt at once if the transport is dead, and
   deferred in doubt otherwise.
   */
  lemma RaisedSettles(config: Config, events: seq<Event>, op: Id, wait: Task)
    requires wait.AwaitingCollector? || wait.AwaitingDeadlineGrace?
    requires Sees(Run(Start(config), events), op, wait, Raised)
    ensures var s := Run(Start(config), events); var s' := Next(s, CollectorSeen(op));
      RaisedAs(s, s', op)
  {
    hide Inv, Next, RaisedAs;
    Holding(config, events, op);
    var s := Run(Start(config), events);
    RaisedSeen(s, op, wait);
    RaisedEffect(s, LeaveLock(s, op), op);
  }

  predicate RaisedAs(s: State, s': State, op: Id)
    requires op in s.records
  {
    && s'.quarantined && op in s'.records
    && (if s.transportAlive
        then s'.records[op] == s.records[op] && DeferredOf(s') == [Settlement(op, InDoubt, None, Some(PromptInDoubt))]
        else
          && s'.records[op] == s.records[op].(state := InDoubt, result := None, error := Some(ContinuityLost))
          && DeferredOf(s') == [])
  }

  lemma RaisedSeen(s: State, op: Id, wait: Task)
    requires wait.AwaitingCollector? || wait.AwaitingDeadlineGrace?
    requires Sees(s, op, wait, Raised)
    ensures Next(s, CollectorSeen(op)) == PromptRaised(LeaveLock(s, op), op)
  {
    hide PromptRaised;
  }

  lemma RaisedEffect(s: State, s1: State, op: Id)
    requires Located(s, op) && !s.quarantined && !s.records[op].state.Terminal()
    requires s1 == s.(registered := s1.registered, lock := s1.lock)
    ensures RaisedAs(s, PromptRaised(s1, op), op)
  {
    hide Quarantine;
    if s.transportAlive {
      var d := Settlement(op, InDoubt, None, Some(PromptInDoubt));
      LosesWith(WithSessionState(s1, SessionOf(s, op), NonReusable), op, [d]);
      OpsOne(d);
    }
  }

  /** So does a deadline cancellation that cannot be sent, and the lock is free although the collector may live. */
  lemma DeadlineSendFails(config: Config, events: seq<Event>, op: Id)
    requires At(Run(Start(config), events), op, SendingDeadlineCancel)
    ensures var s := Run(Start(config), events); RaisedAs(s, Next(s, SendFails(op)), op)
    ensures Next(Run(Start(config), events), SendFails(op)).lock.None?
  {
    hide Inv, PromptRaised, RaisedAs;
    Holding(config, events, op);
    var s := Run(Start(config), events);
    RaisedEffect(s, FreeLock(PopIfEnded(s, op), op), op);
    SameLock(FreeLock(PopIfEnded(s, op), op), op);
  }

  lemma SameLock(s: State, op: Id)
    requires Located(s, op)
    ensures PromptRaised(s, op).lock == s.lock
  {
  }

  /** Beyond the grace of a deadline the collector is cancelled. */
  lemma DeadlineGivesUp(config: Config, events: seq<Event>, op: Id)
    requires At(Run(Start(config), events), op, AwaitingDeadlineGrace)
    ensures var s := Run(Start(config), events); var s' := Next(s, GraceExpires(op));
      && s'.tasks == s.tasks[op := ReapingCollector] && s'.records == s.records
      && op in s.collectors && op in s'.collectors
      && s'.collectors[op] == (if s.collectors[op].Live? then Live(true) else s.collectors[op])
  {
    hide Inv;
    Holding(config, events, op);
  }

  /** Once a collector cancelled so has ended, the generation is lost and the settlement is deferred as unknown. */
  lemma DeadlineUnknown(config: Config, events: seq<Event>, op: Id)
    requires var s := Run(Start(config), events);
      At(s, op, ReapingCollector) && op in s.collectors && s.collectors[op].Ended?
    ensures var s := Run(Start(config), events); var s' := Next(s, Reaped(op));
      && s'.quarantined && op in s'.records && s'.records[op] == s.records[op]
      && DeferredOf(s') == [Settlement(op, InDoubt, None, Some(DeadlineSettlementUnknown))]
  {
    hide Inv, Next, Quarantine;
    Holding(config, events, op);
    var s := Run(Start(config), events);
    ReapedSeen(s, op);
    LosesWith(s, op, InDoubtAs(op, DeadlineSettlementUnknown));
    OpsOne(Settlement(op, InDoubt, None, Some(DeadlineSettlementUnknown)));
  }

  lemma ReapedSeen(s: State, op: Id)
    requires At(s, op, ReapingCollector) && op in s.collectors && s.collectors[op].Ended?
    ensures Next(s, Reaped(op)) == Quarantine(s, op, InDoubtAs(op, DeadlineSettlementUnknown))
  {
    hide Quarantine;
  }

  // ----- dispatch -----

  /**
   A prompt whose task runs waits while the lock is taken; with the lock free it is dispatched once, unless it was
   cancelled before.
   */
  lemma Dispatches(config: Config, events: seq<Event>, op: Id)
    requires var s := Run(Start(config), events);
      IsPrompt(s, op) && (At(s, op, Scheduled) || At(s, op, AwaitingLock))
    ensures var s := Run(Start(config), events); var s' := Next(s, TaskRuns(op));
      && op in s'.records && op in s'.tasks
      && (if s.lock.Some? then
            s'.tasks[op].AwaitingLock? && s'.calls == s.calls && s'.records == s.records && s'.lock == s.lock
          else if s.records[op].state.Cancelled? then
            GivenUp(s', op) && s'.calls == s.calls && s'.records == s.records
          else
            && s'.tasks[op].AwaitingCollector? && s'.lock == Some(op)
            && s'.records == s.records[op := s.records[op].(state := Running)]
            && op !in s.collectors && s'.collectors == s.collectors[op := Live(false)]
            && s'.registered == s.registered + {op}
            && s'.calls == s.calls + [PromptCall(op, SessionOf(s, op), BodyOf(s, op).phase)])
  {
    hide Inv;
    Reached(config, events);
    var s := Run(Start(config), events);
    if s.quarantined { LostTask(s, op); } else { Waiting(s, op); DispatchEffect(s, op); }
  }

  lemma Waiting(s: State, op: Id)
    requires Inv(s) && !s.quarantined && IsPrompt(s, op) && (At(s, op, Scheduled) || At(s, op, AwaitingLock))
    ensures op !in s.collectors && s.lock != Some(op)
    ensures s.records[op].state.Accepted? || s.records[op].state.Queued? || s.records[op].state.Cancelled?
  {
    hide Inv;
    Facts(s, op);
  }

  lemma DispatchEffect(s: State, op: Id)
    requires IsPrompt(s, op) && (At(s, op, Scheduled) || At(s, op, AwaitingLock))
    requires op !in s.collectors && s.lock != Some(op)
    requires s.records[op].state.Accepted? || s.records[op].state.Queued? || s.records[op].state.Cancelled?
    ensures var s' := Next(s, TaskRuns(op));
      && op in s'.records && op in s'.tasks
      && (if s.lock.Some? then
            s'.tasks[op].AwaitingLock? && s'.calls == s.calls && s'.records == s.records && s'.lock == s.lock
          else if s.records[op].state.Cancelled? then
            GivenUp(s', op) && s'.calls == s.calls && s'.records == s.records
          else
            && s'.tasks[op].AwaitingCollector? && s'.lock == Some(op)
            && s'.records == s.records[op := s.records[op].(state := Running)]
            && s'.collectors == s.collectors[op := Live(false)]
            && s'.registered == s.registered + {op}
            && s'.calls == s.calls + [PromptCall(op, SessionOf(s, op), BodyOf(s, op).phase)])
  {
    hide AfterFinally;
    assert Next(s, TaskRuns(op)) == EnterLock(s, op);
  }

  // ----- session creation -----

  lemma CreationUnderway(config: Config, events: seq<Event>, op: Id)
    requires At(Run(Start(config), events), op, AwaitingCreate)
    ensures var s := Run(Start(config), events);
      && !s.quarantined && IsCreate(s, op) && s.records[op].state.Running?
      && s.records[op].result.None? && s.records[op].error.None?
      && s.sessions[SessionOf(s, op)].backend.None?
  {
    hide Inv, AllExplained;
    Reached(config, events);
    ReachedExplained(config, events);
    var s := Run(Start(config), events);
    if s.quarantined {
      LostTask(s, op);
    } else {
      CreatingFacts(s, op);
      BareAt(s, op);
    }
  }

  lemma CreatingFacts(s: State, op: Id)
    requires Inv(s) && !s.quarantined && At(s, op, AwaitingCreate)
    ensures IsCreate(s, op) && s.records[op].state.Running? && s.sessions[SessionOf(s, op)].backend.None?
  {
    hide Inv;
    Facts(s, op);
  }

  /** A reply with the model of the session opens it with the replied backend; another model fails the creation. */
  lemma ReplyOpens(config: Config, events: seq<Event>, op: Id, backend: Id, model: Id)
    requires At(Run(Start(config), events), op, AwaitingCreate)
    ensures var s := Run(Start(config), events); var s' := Next(s, CreateReply(op, backend, model));
      var sid := SessionOf(s, op);
      && op in s'.records && sid in s'.sessions && !s'.quarantined && s'.tasks == s.tasks[op := Finished]
      && var x, x', r' := s.sessions[sid], s'.sessions[sid], s'.records[op];
      && (r'.state.Completed? <==> model == x.modelId)
      && (r'.state.Failed? <==> model != x.modelId)
      && (if model == x.modelId then
            && x' == x.(backend := Some(backend), state := Ready)
            && r'.result == Some(SessionCreated(backend, model)) && r'.error.None?
          else
            && x' == x.(state := NonReusable)
            && r'.result.None? && r'.error == Some(SessionConfigurationFailed))
  {
    hide Inv;
    CreationUnderway(config, events, op);
    ReplyEffect(Run(Start(config), events), op, backend, model);
  }

  lemma ReplyEffect(s: State, op: Id, backend: Id, model: Id)
    requires At(s, op, AwaitingCreate) && s.records[op].state.Running? && !s.quarantined
    ensures var s' := Next(s, CreateReply(op, backend, model)); var sid := SessionOf(s, op);
      && op in s'.records && sid in s'.sessions && !s'.quarantined && s'.tasks == s.tasks[op := Finished]
      && var x, x', r' := s.sessions[sid], s'.sessions[sid], s'.records[op];
      && (r'.state.Completed? <==> model == x.modelId)
      && (r'.state.Failed? <==> model != x.modelId)
      && (if model == x.modelId then
            && x' == x.(backend := Some(backend), state := Ready)
            && r'.result == Some(SessionCreated(backend, model)) && r'.error.None?
          else
            && x' == x.(state := NonReusable)
            && r'.result.None? && r'.error == Some(SessionConfigurationFailed))
  {
    assert Next(s, CreateReply(op, backend, model)) == CreateReplied(s, op, backend, model);
  }

  /**
   Without a reply: a rejected configuration fails the creation; a timeout, or an exception with a live transport, loses
   the generation with the creation's doubt deferred; an exception with a dead one, with that doubt at once.
   */
  lemma NoReplyFails(config: Config, events: seq<Event>, op: Id, e: Event)
    requires At(Run(Start(config), events), op, AwaitingCreate)
    requires e == CreateReject(op) || e == CreateTimeout(op) || e == CreateError(op)
    ensures var s := Run(Start(config), events); NoReplyAs(s, Next(s, e), op, e)
  {
    hide Inv, Next, NoReplyAs;
    CreationUnderway(config, events, op);
    NoReplySeen(Run(Start(config), events), op);
    NoReplyEffect(Run(Start(config), events), op);
  }

  predicate NoReplyAs(s: State, s': State, op: Id, e: Event)
    requires op in s.records
  {
    && op in s'.records && SessionOf(s, op) in s.sessions && SessionOf(s, op) in s'.sessions
    && (if e == CreateReject(op) then
          && !s'.quarantined
          && s'.records[op] == s.records[op].(state := Failed, error := Some(SessionConfigurationFailed))
          && s'.sessions[SessionOf(s, op)] == s.sessions[SessionOf(s, op)].(state := NonReusable)
        else if e == CreateTimeout(op) || s.transportAlive then
          && s'.quarantined && s'.records[op] == s.records[op]
          && DeferredOf(s') == [Settlement(op, InDoubt, None, Some(SessionCreationInDoubt))]
        else
          && s'.quarantined && DeferredOf(s') == []
          && s'.records[op] == s.records[op].(state := InDoubt, error := Some(ContinuityLost)))
  }

  lemma NoReplySeen(s: State, op: Id)
    requires At(s, op, AwaitingCreate)
    ensures Next(s, CreateReject(op)) == CreateRejected(s, op)
    ensures Next(s, CreateTimeout(op)) == CreateTimedOut(s, op)
    ensures Next(s, CreateError(op)) == CreateRaised(s, op)
  {
    hide CreateRejected, CreateTimedOut, CreateRaised;
  }

  lemma NoReplyEffect(s: State, op: Id)
    requires At(s, op, AwaitingCreate) && !s.quarantined && s.records[op].state.Running?
    requires s.records[op].result.None? && s.records[op].error.None?
    ensures NoReplyAs(s, CreateRejected(s, op), op, CreateReject(op))
    ensures NoReplyAs(s, CreateTimedOut(s, op), op, CreateTimeout(op))
    ensures NoReplyAs(s, CreateRaised(s, op), op, CreateError(op))
  {
    hide NoReplyAs, CreateRejected, CreateTimedOut, CreateRaised, WithTask;
    RejectionEffect(s, op);
    UncertainEffect(s, op);
    CreationRaises(s, op);
    if s.transportAlive { UncertainEither(s, CreateTimedOut(s, op), op); } else { LostEffect(s, op); }
  }

  lemma RejectionEffect(s: State, op: Id)
    requires At(s, op, AwaitingCreate) && !s.quarantined && s.records[op].state.Running?
    requires s.records[op].result.None?
    ensures NoReplyAs(s, CreateRejected(s, op), op, CreateReject(op))
  {
  }

  lemma UncertainEffect(s: State, op: Id)
    requires At(s, op, AwaitingCreate) && !s.quarantined && s.records[op].state.Running?
    ensures NoReplyAs(s, CreateTimedOut(s, op), op, CreateTimeout(op))
  {
    hide Quarantine;
    var d := Settlement(op, InDoubt, None, Some(SessionCreationInDoubt));
    LosesWith(WithSessionState(s, SessionOf(s, op), NonReusable), op, [d]);
    OpsOne(d);
  }

  lemma CreationRaises(s: State, op: Id)
    requires At(s, op, AwaitingCreate)
    ensures CreateRaised(s, op) ==
      if s.transportAlive then CreateTimedOut(s, op) else WithTask(MarkLost(s, Some(op), {}), op, Finished)
  {
    hide Quarantine, MarkLost;
  }

  lemma UncertainEither(s: State, s': State, op: Id)
    requires op in s.records && s.transportAlive && NoReplyAs(s, s', op, CreateTimeout(op))
    ensures NoReplyAs(s, s', op, CreateError(op))
  {
  }

  lemma LostEffect(s: State, op: Id)
    requires At(s, op, AwaitingCreate) && !s.quarantined && s.records[op].state.Running? && !s.transportAlive
    requires s.records[op].result.None? && s.records[op].error.None?
    ensures NoReplyAs(s, WithTask(MarkLost(s, Some(op), {}), op, Finished), op, CreateError(op))
  {
    hide MarkLost, WithTask;
    LostAtOnce(s, op, Finished);
  }

  lemma LostAtOnce(s: State, op: Id, t: Task)
    requires Located(s, op) && !s.quarantined && !s.records[op].state.Terminal() && !Deferring(t)
    ensures var s' := WithTask(MarkLost(s, Some(op), {}), op, t);
      && s'.quarantined && DeferredOf(s') == [] && s'.sessions.Keys == s.sessions.Keys && op in s'.records
      && s'.records[op] == s.records[op].(state := InDoubt, result := None, error := Some(ContinuityLost))
  {
    assert MarkLost(s, Some(op), {}).sessions.Keys == s.sessions.Keys;
  }

  // ----- cancellation -----

  lemma CancelUnderway(config: Config, events: seq<Event>, op: Id)
    requires var s := Run(Start(config), events); IsCancel(s, op) && Located(s, op)
    requires !Run(Start(config), events).tasks[op].Finished? && !Deferring(Run(Start(config), events).tasks[op])
    ensures var s := Run(Start(config), events); var target := s.records[op].identity.target.value;
      && !s.quarantined && !s.records[op].state.Terminal() && target != op
      && s.records[op].result.None? && s.records[op].error.None? && target in s.collectors
      && (s.tasks[op].Scheduled? ==> s.records[op].state.Accepted?)
  {
    hide Inv, AllExplained;
    Reached(config, events);
    ReachedExplained(config, events);
    var s := Run(Start(config), events);
    if s.quarantined {
      LostTask(s, op);
      CancelsDoNotUnwind(s, op);
    } else {
      CancellingFacts(s, op);
      BareAt(s, op);
    }
  }

  lemma CancelsDoNotUnwind(s: State, op: Id)
    requires Inv(s) && Located(s, op) && s.records[op].identity.kind.CancelKind?
    ensures !s.tasks[op].Unwinding?
  {
    hide Reserved, Bounded, Coherent, CallsOnce, Reports, LostShape, Intact, RecordShaped;
  }

  lemma CancellingFacts(s: State, op: Id)
    requires Inv(s) && !s.quarantined && IsCancel(s, op) && Located(s, op) && !s.tasks[op].Finished?
    ensures !s.records[op].state.Terminal() && s.records[op].identity.target != Some(op)
    ensures s.tasks[op].Scheduled? ==> s.records[op].state.Accepted?
    ensures s.records[op].identity.target.value in s.collectors
  {
    hide Inv;
    Facts(s, op);
    CancelTarget(s, op);
  }

  /** The cancellation runs and asks the child once to cancel its target. */
  lemma CancelStarts(config: Config, events: seq<Event>, op: Id)
    requires var s := Run(Start(config), events); IsCancel(s, op) && At(s, op, Scheduled)
    ensures var s := Run(Start(config), events); var s' := Next(s, TaskRuns(op));
      && s'.records == s.records[op := s.records[op].(state := Running)]
      && s'.calls == s.calls + [CancelCall(s.records[op].identity.target.value)]
      && s'.tasks == s.tasks[op := SendingCancel] && s'.sessions == s.sessions && s'.collectors == s.collectors
  {
  }

  /** A target that settles within the grace is reported with its state, as one that was sent a cancellation. */
  lemma TargetReported(config: Config, events: seq<Event>, op: Id)
    requires var s := Run(Start(config), events); IsCancel(s, op) && At(s, op, AwaitingTarget)
    ensures var s := Run(Start(config), events); var s' := Next(s, TargetSeen(op));
      var target := s.records[s.records[op].identity.target.value];
      && (s' != s <==> target.state.Terminal())
      && (target.state.Terminal() ==>
            && s'.records == s.records[op :=
                 s.records[op].(state := Completed, result := Some(CancelReport(target.state, true)), error := None)]
            && s'.tasks == s.tasks[op := Finished])
  {
    hide Inv;
    CancelUnderway(config, events, op);
  }

  /** A cancellation that cannot be sent loses the generation, with its target's doubt and its own failure deferred. */
  lemma CancelUnsent(config: Config, events: seq<Event>, op: Id)
    requires var s := Run(Start(config), events); IsCancel(s, op) && At(s, op, SendingCancel)
    ensures var s := Run(Start(config), events); var s' := Next(s, SendFails(op));
      && s'.quarantined
      && DeferredOf(s') ==
           [Settlement(s.records[op].identity.target.value, InDoubt, None, Some(CancelTransportFailed)),
            Settlement(op, Failed, None, Some(CancelFailed))]
  {
    hide Inv, Next, Quarantine;
    CancelUnderway(config, events, op);
    var s := Run(Start(config), events);
    UnsentSeen(s, op);
    LosesWith(WithSessionState(s, SessionOf(s, op), NonReusable), op,
      [Settlement(s.records[op].identity.target.value, InDoubt, None, Some(CancelTransportFailed)),
       Settlement(op, Failed, None, Some(CancelFailed))]);
  }

  lemma UnsentSeen(s: State, op: Id)
    requires IsCancel(s, op) && At(s, op, SendingCancel)
    ensures Next(s, SendFails(op)) == QuarantineSession(s, op,
      [Settlement(s.records[op].identity.target.value, InDoubt, None, Some(CancelTransportFailed)),
       Settlement(op, Failed, None, Some(CancelFailed))])
  {
    hide QuarantineSession;
  }

  /**
   A cancellation whose grace expires cancels the collector of its target and waits for its end, unless another
   has taken it already; then, as once the collector has ended, it loses the generation and defers both settlements.
   */
  lemma CancelGivesUp(config: Config, events: seq<Event>, op: Id)
    requires var s := Run(Start(config), events); IsCancel(s, op) && At(s, op, AwaitingTarget)
    ensures var s := Run(Start(config), events); var s' := Next(s, GraceExpires(op));
      var target := s.records[op].identity.target.value;
      if target in s.registered then
        && s'.tasks == s.tasks[op := ReapingTarget] && s'.registered == s.registered - {target}
        && s'.records == s.records && !s'.quarantined
        && target in s.collectors && target in s'.collectors
        && s'.collectors[target] == (if s.collectors[target].Live? then Live(true) else s.collectors[target])
      else
        && s'.quarantined
        && DeferredOf(s') == [Settlement(target, InDoubt, None, Some(CancellationSettlementUnknown)),
                              Settlement(op, Completed, Some(CancelReport(InDoubt, true)), None)]
  {
    hide Inv, Next, Quarantine;
    CancelUnderway(config, events, op);
    var s := Run(Start(config), events);
    GraceSeen(s, op);
    LosesWith(WithSessionState(s, SessionOf(s, op), NonReusable), op,
      CancelDeferred(op, s.records[op].identity.target.value));
  }

  lemma GraceSeen(s: State, op: Id)
    requires IsCancel(s, op) && At(s, op, AwaitingTarget)
    ensures Next(s, GraceExpires(op)) == CancelGraceExpires(s, op, s.records[op].identity.target.value)
  {
    hide CancelGraceExpires;
  }

  lemma CancelReaped(config: Config, events: seq<Event>, op: Id)
    requires var s := Run(Start(config), events); IsCancel(s, op) && At(s, op, ReapingTarget)
    ensures var s := Run(Start(config), events); var s' := Next(s, Reaped(op));
      var target := s.records[op].identity.target.value;
      target in s.collectors && s.collectors[target].Ended? ==>
        && s'.quarantined
        && DeferredOf(s') == [Settlement(target, InDoubt, None, Some(CancellationSettlementUnknown)),
                              Settlement(op, Completed, Some(CancelReport(InDoubt, true)), None)]
  {
    hide Inv, Next, Quarantine;
    CancelUnderway(config, events, op);
    var s := Run(Start(config), events);
    TargetReapedSeen(s, op);
    LosesWith(WithSessionState(s, SessionOf(s, op), NonReusable), op,
      CancelDeferred(op, s.records[op].identity.target.value));
  }

  lemma TargetReapedSeen(s: State, op: Id)
    requires IsCancel(s, op) && At(s, op, ReapingTarget)
    ensures CollectorEnded(s, s.records[op].identity.target.value) ==>
      Next(s, Reaped(op)) == TargetReaped(s, op, s.records[op].identity.target.value)
  {
    hide TargetReaped;
  }

  // ----- the loss and what follows it -----

  /**
   The loss, operation by operation: a settled one stays, any other is in doubt; a session that is not retired is
   lost; a prompt's task that has started keeps its finally block, and every other task ends; a registered collector
   that runs is cancelled.
   */
  lemma OwnerLosesAll(s: State)
    requires !s.quarantined
    ensures var s' := Next(s, OwnerReportsLoss);
      && s'.quarantined && s'.generation == s.generation + 1 && s'.registered == {} && s'.lostBy.None?
      && s'.lock == s.lock && s'.reservations == s.reservations && s'.calls == s.calls
      && s'.records.Keys == s.records.Keys && s'.sessions.Keys == s.sessions.Keys
      && s'.tasks.Keys == s.tasks.Keys && s'.collectors.Keys == s.collectors.Keys
    ensures var s' := Next(s, OwnerReportsLoss);
      forall op {:trigger op in s.records} :: op in s.records ==>
        s'.records[op] == if s.records[op].state.Terminal() then s.records[op]
          else s.records[op].(state := InDoubt, result := None, error := Some(ContinuityLost))
    ensures var s' := Next(s, OwnerReportsLoss);
      forall sid {:trigger sid in s.sessions} :: sid in s.sessions ==>
        s'.sessions[sid] == if s.sessions[sid].state == Retired then s.sessions[sid]
          else s.sessions[sid].(state := SessionState.Lost)
  {
    var s' := Next(s, OwnerReportsLoss);
    assert s'.records.Keys == s.records.Keys && s'.sessions.Keys == s.sessions.Keys;
    assert s'.tasks.Keys == s.tasks.Keys && s'.collectors.Keys == s.collectors.Keys;
  }

  lemma OwnerCancelsAll(s: State)
    requires !s.quarantined
    ensures var s' := Next(s, OwnerReportsLoss);
      && s'.tasks.Keys == s.tasks.Keys && s'.collectors.Keys == s.collectors.Keys
      && (forall op {:trigger op in s.tasks} :: op in s.tasks ==>
            s'.tasks[op] == if IsPrompt(s, op) && s.tasks[op] != Scheduled && s.tasks[op] != Finished
              then Unwinding else Finished)
      && (forall op {:trigger op in s.collectors} :: op in s.collectors ==>
            s'.collectors[op] == if op in s.registered && s.collectors[op].Live? then Live(true) else s.collectors[op])
  {
    hide LostRecord, LostSession;
    var s' := Next(s, OwnerReportsLoss);
    assert s'.tasks.Keys == s.tasks.Keys && s'.collectors.Keys == s.collectors.Keys;
  }

  /** The finally block after the loss frees the session for nobody, and gives up lock, reservation and registration. */
  lemma UnwindingEnds(s: State, op: Id)
    requires At(s, op, Unwinding) && s.quarantined
    ensures var s' := Next(s, UnwindNow(op)); var sid := SessionOf(s, op);
      && s'.records == s.records && op in s'.tasks && s'.tasks[op].Finished?
      && op in s'.released && op !in s'.registered && s'.lock == (if s.lock == Some(op) then None else s.lock)
      && sid in s'.sessions
      && s'.sessions[sid] == s.sessions[sid].(state := SessionState.Lost,
           active := if s.sessions[sid].active == Some(op) then None else s.sessions[sid].active)
  {
  }

  /** The abort is attempted, the transport is dead from then on, and nothing is settled yet. */
  lemma AbortIsAttempted(s: State, op: Id, deferred: seq<Settlement>)
    requires At(s, op, Quarantining(deferred))
    ensures Next(s, Abort(op)) ==
      s.(abortAttempted := true, transportAlive := false, tasks := s.tasks[op := Aborting(deferred)])
  {
  }

  /** A cancellation of the child that was sent is followed by its grace. */
  lemma SentThenGrace(s: State, op: Id)
    ensures At(s, op, SendingDeadlineCancel) ==>
      Next(s, SendSucceeds(op)) == s.(tasks := s.tasks[op := AwaitingDeadlineGrace])
    ensures At(s, op, SendingCancel) ==> Next(s, SendSucceeds(op)) == s.(tasks := s.tasks[op := AwaitingTarget])
  {
  }
}
