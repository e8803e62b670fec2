/**
 The direct service as the objects that its tasks update in place. Each method is one
 stretch of code between two awaits, and is proved to do what the transition system of
 ServiceModel does, so what ServiceTheorems says of every run holds of the object.
 */
module DirectServiceObject {
  import opened Wrappers
  import opened DirectProtocol
  import opened DirectState
  import opened ServiceModel
  import opened DirectObjects
  import ServiceInvariant
  import ServiceRuns

  function WithSession(s: State, sid: Id, x: Session): State {
    s.(sessions := s.sessions[sid := x])
  }

  lemma SameRecord(s: State, op: Id)
    requires op in s.records
    ensures WithRecord(s, op, s.records[op]) == s
  {
  }

  /** Concluding a prompt is settling its record and its session and then running its finally block. */
  lemma ConcludeInSteps(s: State, op: Id, r: Record, x: Session)
    requires Located(s, op) && r.identity == s.records[op].identity
    ensures Located(WithSession(WithRecord(s, op, r), r.identity.sessionId, x), op)
    ensures Conclude(s, op, r, x) == Finish(WithSession(WithRecord(s, op, r), r.identity.sessionId, x), op)
  {
    var t := WithSession(WithRecord(s, op, r), r.identity.sessionId, x);
    SameRecord(t, op);
    assert t.sessions[r.identity.sessionId := AfterFinally(x, op, r.state, s.quarantined)]
        == s.sessions[r.identity.sessionId := AfterFinally(x, op, r.state, s.quarantined)];
  }

  lemma Overwritten(records: map<Id, Record>, op: Id, a: Record, b: Record)
    ensures records[op := a][op := b] == records[op := b]
  {
  }

  /** What a prompt that passes every check of its admission does. */
  function StartedPrompt(s: State, sid: Id, op: Id, identity: Identity): State
    requires sid in s.sessions
  {
    s.(records := s.records[op := NewRecord(identity).(state := if s.reservations > 0 then Queued else Accepted)],
       sessions := s.sessions[sid := s.sessions[sid].(active := Some(op), state := Busy)],
       tasks := s.tasks[op := Scheduled],
       reservations := s.reservations + 1)
  }

  lemma StartedOverwrites(s: State, sid: Id, op: Id, identity: Identity)
    requires sid in s.sessions
    ensures StartedPrompt(WithRecord(s, op, NewRecord(identity)), sid, op, identity) ==
      StartedPrompt(s, sid, op, identity)
  {
    Overwritten(s.records, op, NewRecord(identity),
                NewRecord(identity).(state := if s.reservations > 0 then Queued else Accepted));
  }

  /** What a retirement that passes every check does. */
  function RetiredSession(s: State, sid: Id, op: Id, identity: Identity): State
    requires sid in s.sessions
  {
    s.(records := s.records[op := Settled(NewRecord(identity), Completed,
      Some(SessionRetired(s.sessions[sid].backend)), None)],
       sessions := s.sessions[sid := s.sessions[sid].(state := Retired)])
  }

  lemma RetiredOverwrites(s: State, sid: Id, op: Id, identity: Identity)
    requires sid in s.sessions
    ensures RetiredSession(WithRecord(s, op, NewRecord(identity)), sid, op, identity) ==
      RetiredSession(s, sid, op, identity)
  {
    Overwritten(s.records, op, NewRecord(identity),
                Settled(NewRecord(identity), Completed, Some(SessionRetired(s.sessions[sid].backend)), None));
  }

  lemma StillLocated(s: State, op: Id)
    ensures Located(s, op) ==> Located(FreeLock(PopIfEnded(s, op), op), op)
  {
  }

  /** What the end of a prompt's task gives up. */
  function TaskOver(s: State, op: Id): State {
    Release(FreeLock(WithTask(s, op, Finished).(registered := s.registered - {op}), op), op)
  }

  lemma FinishIsOver(s: State, op: Id)
    requires Located(s, op)
    ensures var sid := SessionOf(s, op);
      Finish(s, op) == TaskOver(WithSession(s, sid,
        AfterFinally(s.sessions[sid], op, s.records[op].state, s.quarantined)), op)
  {
    SameRecord(s, op);
  }

  lemma LocatedAfterLeaving(s: State, op: Id)
    ensures Located(s, op) ==> Located(LeaveLock(s, op), op)
  {
  }

  class DirectService {
    const config: Config
    const first: Generation          // the generation that admits work
    var current: Generation          // `_generation`
    var available: bool
    var transportAlive: bool
    ghost var abortAttempted: bool
    ghost var lostBy: Option<Id>
    ghost var calls: seq<Call>

    constructor (config: Config)
      ensures Valid() && View() == Start(config) && fresh(Footprint())
    {
      this.config := config;
      first := new Generation(0, config.maxOperations);
      current := first;
      available, transportAlive := true, true;
      abortAttempted, lostBy, calls := false, None, [];
      new;
      assert first.ledger.View() == map[] && first.SessionsView() == map[];
    }

    ghost function Footprint(): set<object>
      reads this, first, first.ledger
    {
      {this, current, first, first.ledger} + first.ledger.Objects() + first.SessionObjects()
    }

    ghost predicate Valid()
      reads this, first, first.ledger
    {
      && first.Valid()
      && first.ledger.capacity == config.maxOperations
      && (available <==> !first.quarantined)
      && (available ==> current == first)
    }

    ghost function View(): State
      reads Footprint()
    {
      State(config, current.id, !available, transportAlive, abortAttempted, lostBy,
            first.ledger.View(), first.SessionsView(), first.tasks, first.collectors, first.registered,
            first.lock, first.reservations, first.released, calls)
    }

    ghost predicate Owns(record: OperationRecord)
      reads this, first, first.ledger
    {
      record.operationId in first.ledger.records && first.ledger.records[record.operationId] == record
    }

    /** The record of a task and the session it works on. */
    ghost predicate Works(record: OperationRecord, session: DirectSession)
      reads this, first, first.ledger
    {
      && Owns(record)
      && session.sessionId == record.identity.sessionId
      && session.sessionId in first.sessions && first.sessions[session.sessionId] == session
    }

    /** What the view says of the objects. */
    lemma Known(record: OperationRecord, session: DirectSession)
      requires Valid() && Works(record, session)
      ensures record.operationId in View().records && View().records[record.operationId] == record.View()
      ensures session.sessionId in View().sessions && View().sessions[session.sessionId] == session.View()
    {
    }

    lemma KnownFields()
      requires Valid()
      ensures View().tasks == first.tasks && View().quarantined == !available && View().transportAlive == transportAlive
      ensures View().lock == first.lock && View().collectors == first.collectors &&
        View().registered == first.registered
      ensures available <==> !first.quarantined
    {
    }

    // ----- single updates -----

    method SetState(record: OperationRecord, state: OperationState)
      requires Valid() && Owns(record)
      modifies record`state
      ensures Valid()
      ensures record.View() == old(record.View()).(state := state)
      ensures View() == WithRecord(old(View()), record.operationId, record.View())
    {
      record.state := state;
      assert first.ledger.View() == old(first.ledger.View())[record.operationId := record.View()];
      assert first.SessionsView() == old(first.SessionsView());
    }

    method Settle(record: OperationRecord, state: OperationState, result: Option<Report>, error: Option<ErrorCode>)
      requires Valid() && Owns(record) && state.Terminal()
      modifies record
      ensures Valid()
      ensures record.View() == Settled(old(record.View()), state, result, error)
      ensures View() == WithRecord(old(View()), record.operationId, record.View())
    {
      var raised := record.SetTerminal(state, result, error);
      assert first.ledger.View() == old(first.ledger.View())[record.operationId := record.View()];
      assert first.SessionsView() == old(first.SessionsView());
    }

    method SetSessionState(record: OperationRecord, session: DirectSession, state: SessionState)
      requires Valid() && Works(record, session)
      modifies session`state
      ensures Valid()
      ensures session.View() == old(session.View()).(state := state)
      ensures View() == WithSession(old(View()), session.sessionId, session.View())
    {
      session.state := state;
      assert first.ledger.View() == old(first.ledger.View());
      assert first.SessionsView() == old(first.SessionsView())[session.sessionId := session.View()];
    }

    method SetTask(op: Id, t: Task)
      requires Valid()
      modifies first`tasks
      ensures Valid()
      ensures View() == WithTask(old(View()), op, t)
    {
      first.tasks := first.tasks[op := t];
      assert first.ledger.View() == old(first.ledger.View());
      assert first.SessionsView() == old(first.SessionsView());
    }

    /** A call that the child can observe. */
    ghost method Observe(call: Call)
      requires Valid()
      modifies this`calls
      ensures Valid()
      ensures View() == WithCall(old(View()), call)
    {
      calls := calls + [call];
    }

    /** The collector of a prompt is cancelled if it still runs. */
    method StopCollector(op: Id)
      requires Valid()
      modifies first`collectors
      ensures Valid()
      ensures View() == CancelCollector(old(View()), op)
    {
      if op in first.collectors && first.collectors[op].Live? {
        first.collectors := first.collectors[op := Live(true)];
      }
    }

    method Unregister(op: Id)
      requires Valid()
      modifies first`registered
      ensures Valid()
      ensures View() == old(View()).(registered := old(View()).registered - {op})
    {
      first.registered := first.registered - {op};
    }

    method Unlock(op: Id)
      requires Valid()
      modifies first`lock
      ensures Valid()
      ensures View() == FreeLock(old(View()), op)
    {
      if first.lock == Some(op) {
        first.lock := None;
      }
    }

    /** `_release_prompt_reservation` */
    method ReleaseReservation(op: Id) returns (underflow: bool)
      requires Valid()
      modifies first`reservations, first`released
      ensures Valid()
      ensures View() == Release(old(View()), op)
      ensures underflow ==> View().reservations < 0
    {
      underflow := first.ReleasePromptReservation(op);
      assert op in old(first.released) ==> old(first.released) + {op} == old(first.released);
    }

    // ----- session creation -----

    /** `_execute_create` up to the answer of the child. */
    method ExecuteCreate(record: OperationRecord, session: DirectSession)
      requires Valid() && Works(record, session) && At(View(), record.operationId, Scheduled)
      modifies this`calls, record, first`tasks
      ensures Valid()
      ensures View() == StartCreate(old(View()), record.operationId)
    {
      hide View, Valid;
      Known(record, session);
      SetState(record, Running);
      SetTask(record.operationId, AwaitingCreate);
      Observe(CreateCall(record.operationId));
    }

    method OpenSession(record: OperationRecord, session: DirectSession, backend: Id)
      requires Valid() && Works(record, session)
      modifies session
      ensures Valid()
      ensures session.View() == old(session.View()).(backend := Some(backend), state := Ready)
      ensures View() == WithSession(old(View()), session.sessionId, session.View())
    {
      session.Open(backend);
      assert first.ledger.View() == old(first.ledger.View());
      assert first.SessionsView() == old(first.SessionsView())[session.sessionId := session.View()];
    }

    /** The child has answered with a session and the model it bound. */
    method CreateAnswered(record: OperationRecord, session: DirectSession, backend: Id, model: Id)
      requires Valid() && Works(record, session) && At(View(), record.operationId, AwaitingCreate)
      modifies record, session, first`tasks
      ensures Valid()
      ensures View() == CreateReplied(old(View()), record.operationId, backend, model)
    {
      hide View, Valid;
      Known(record, session);
      if model != session.modelId {
        CreateConflicts(record, session);
        return;
      }
      OpenSession(record, session, backend);
      Settle(record, Completed, Some(SessionCreated(backend, model)), None);
      SetTask(record.operationId, Finished);
    }

    /** The configuration was rejected, or the model bound is another one. */
    method CreateConflicts(record: OperationRecord, session: DirectSession)
      requires Valid() && Works(record, session) && At(View(), record.operationId, AwaitingCreate)
      modifies record, session, first`tasks
      ensures Valid()
      ensures View() == CreateRejected(old(View()), record.operationId)
    {
      hide View, Valid;
      Known(record, session);
      SetSessionState(record, session, NonReusable);
      Settle(record, Failed, None, Some(SessionConfigurationFailed));
      SetTask(record.operationId, Finished);
    }

    // ----- loss of the generation -----

    method LoseSessions()
      requires Valid()
      modifies first.SessionObjects()
      ensures Valid()
      ensures View() == old(View()).(sessions := LostSessions(old(View()).sessions))
    {
      first.LoseSessions();
      assert first.ledger.View() == old(first.ledger.View());
    }

    method LoseRecords(defer: set<Id>)
      requires Valid()
      modifies first.ledger.Objects()
      ensures Valid()
      ensures View() == old(View()).(records := LostRecords(old(View()).records, defer))
    {
      first.ledger.SettleAll(defer);
      assert first.SessionsView() == old(first.SessionsView());
    }

    /** Cancels every execution task but the current one, and every registered collector. */
    method CancelTasks(task: Option<Id>)
      requires Valid()
      modifies first`tasks, first`collectors, first`registered
      ensures Valid()
      ensures var s := old(View()); View() == s.(
        tasks := CancelledTasks(s.tasks, s.records, task),
        collectors := CutCollectors(s.collectors, s.registered),
        registered := {})
    {
      first.CancelTasks(task);
      assert first.ledger.View() == old(first.ledger.View());
      assert first.SessionsView() == old(first.SessionsView());
    }

    /** This generation takes over, and nothing is admitted any more. */
    method InstallGeneration(replacement: Generation, task: Option<Id>)
      requires Valid()
      modifies this`current, this`available, this`lostBy, first`quarantined
      ensures Valid() && current == replacement
      ensures View() == old(View()).(quarantined := true, generation := replacement.id, lostBy := task)
    {
      first.quarantined := true;
      current := replacement;
      available := false;
      lostBy := task;
      assert first.ledger.View() == old(first.ledger.View());
      assert first.SessionsView() == old(first.SessionsView());
    }

    method ReplaceGeneration(task: Option<Id>)
      requires Valid() && available
      modifies this`current, this`available, this`lostBy, first`quarantined
      ensures Valid()
      ensures fresh(current)
      ensures View() == old(View()).(quarantined := true, generation := old(View()).generation + 1, lostBy := task)
    {
      var replacement := new Generation(current.id + 1, config.maxOperations);
      InstallGeneration(replacement, task);
    }

    /** `mark_generation_lost` up to the await of the cancelled tasks. */
    method MarkGenerationLost(task: Option<Id>, defer: set<Id>)
      requires Valid()
      modifies this`current, this`available, this`lostBy, first`quarantined, first`collectors,
        first`tasks, first`registered, first`lock, first`reservations, first`released,
        first.SessionObjects(), first.ledger.Objects()
      ensures Valid()
      ensures current == old(current) || fresh(current)
      ensures View() == MarkLost(old(View()), task, defer)
    {
      KnownFields();
      if !available {
        return;
      }
      MarkLostParts(View(), task, defer);
      hide View, Valid, MarkLost;
      CancelTasks(task);
      LoseSessions();
      LoseRecords(defer);
      ReplaceGeneration(task);
    }

    /** `_quarantine_uncertain` up to the await of the cancelled tasks. */
    method QuarantineUncertain(op: Id, deferred: seq<Settlement>)
      requires Valid()
      modifies this`current, this`available, this`lostBy, first`quarantined, first`collectors,
        first`tasks, first`registered, first`lock, first`reservations, first`released,
        first.SessionObjects(), first.ledger.Objects()
      ensures Valid()
      ensures current == old(current) || fresh(current)
      ensures View() == Quarantine(old(View()), op, deferred)
    {
      hide View, Valid, MarkLost;
      MarkGenerationLost(Some(op), set i | 0 <= i < |deferred| :: deferred[i].op);
      SetTask(op, Quarantining(deferred));
    }

    method QuarantineSession(record: OperationRecord, session: DirectSession, deferred: seq<Settlement>)
      requires Valid() && Works(record, session)
      modifies this`current, this`available, this`lostBy, first`quarantined, first`collectors,
        first`tasks, first`registered, first`lock, first`reservations, first`released,
        first.SessionObjects(), first.ledger.Objects()
      ensures Valid()
      ensures current == old(current) || fresh(current)
      ensures Located(old(View()), record.operationId) ==>
        View() == ServiceModel.QuarantineSession(old(View()), record.operationId, deferred)
    {
      Known(record, session);
      InFootprint(record, session);
      SetSessionState(record, session, NonReusable);
      hide View, Valid, Quarantine;
      QuarantineUncertain(record.operationId, deferred);
    }

    lemma InFootprint(record: OperationRecord, session: DirectSession)
      requires Works(record, session)
      ensures record in first.ledger.Objects() && session in first.SessionObjects()
    {
    }

    method CreateUncertain(record: OperationRecord, session: DirectSession)
      requires Valid() && Works(record, session) && At(View(), record.operationId, AwaitingCreate)
      modifies this`current, this`available, this`lostBy, first`quarantined, first`collectors,
        first`tasks, first`registered, first`lock, first`reservations, first`released,
        first.SessionObjects(), first.ledger.Objects()
      ensures Valid()
      ensures current == old(current) || fresh(current)
      ensures View() == CreateTimedOut(old(View()), record.operationId)
    {
      hide View, Valid;
      QuarantineSession(record, session, InDoubtAs(record.operationId, SessionCreationInDoubt));
    }

    /** Creation raised anything else. */
    method CreateFails(record: OperationRecord, session: DirectSession)
      requires Valid() && Works(record, session) && At(View(), record.operationId, AwaitingCreate)
      modifies this`current, this`available, this`lostBy, first`quarantined, first`collectors,
        first`tasks, first`registered, first`lock, first`reservations, first`released,
        first.SessionObjects(), first.ledger.Objects()
      ensures Valid()
      ensures current == old(current) || fresh(current)
      ensures View() == CreateRaised(old(View()), record.operationId)
    {
      KnownFields();
      hide View, Valid, MarkLost, ServiceModel.QuarantineSession, DirectLedger.View, Generation.SessionsView,
        Generation.Valid;
      if !transportAlive {
        MarkGenerationLost(Some(record.operationId), {});
        SetTask(record.operationId, Finished);
      } else {
        QuarantineSession(record, session, InDoubtAs(record.operationId, SessionCreationInDoubt));
      }
    }

    // ----- prompt execution -----

    /** The session part of the finally block. */
    method IdleSession(record: OperationRecord, session: DirectSession)
      requires Valid() && Works(record, session)
      modifies session
      ensures Valid()
      ensures session.View() == AfterFinally(old(session.View()), record.operationId, record.state, !available)
      ensures View() == WithSession(old(View()), session.sessionId, session.View())
    {
      session.Idle(record.operationId, record.state, first.quarantined);
      assert first.ledger.View() == old(first.ledger.View());
      assert first.SessionsView() == old(first.SessionsView())[session.sessionId := session.View()];
    }

    /** The finally block of `_execute_prompt`; the lock is free and the collector's registration is dropped. */
    method FinishPrompt(record: OperationRecord, session: DirectSession)
      requires Valid() && Works(record, session) && Located(View(), record.operationId)
      modifies session, first`tasks, first`registered, first`lock, first`reservations, first`released
      ensures Valid()
      ensures View() == Finish(old(View()), record.operationId)
    {
      Known(record, session);
      KnownFields();
      FinishIsOver(View(), record.operationId);
      hide View, Valid, Finish, TaskOver, AfterFinally;
      IdleSession(record, session);
      EndTask(record.operationId);
    }

    /** The task of a prompt is over: registration, lock and reservation are given up. */
    method EndTask(op: Id)
      requires Valid()
      modifies first`tasks, first`registered, first`lock, first`reservations, first`released
      ensures Valid()
      ensures View() == TaskOver(old(View()), op)
    {
      hide View, Valid, Release;
      SetTask(op, Finished);
      Unregister(op);
      Unlock(op);
      var underflow := ReleaseReservation(op);
    }

    method StartCollector(op: Id)
      requires Valid()
      modifies first`lock, first`tasks, first`collectors, first`registered
      ensures Valid()
      ensures var s := old(View());
        View() == s.(tasks := s.tasks[op := AwaitingCollector], collectors := s.collectors[op := Live(false)],
          registered := s.registered + {op}, lock := Some(op))
    {
      first.StartCollector(op);
    }

    /** A collector starts for the prompt that holds the lock. */
    method Dispatch(record: OperationRecord, body: PromptRequest)
      requires Valid() && Owns(record)
      modifies this`calls, first`lock, first`tasks, first`collectors, first`registered
      ensures Valid()
      ensures var s, op := old(View()), record.operationId;
        View() == s.(tasks := s.tasks[op := AwaitingCollector], collectors := s.collectors[op := Live(false)],
          registered := s.registered + {op}, lock := Some(op),
          calls := s.calls + [PromptCall(op, record.identity.sessionId, body.phase)])
    {
      hide View, Valid;
      StartCollector(record.operationId);
      Observe(PromptCall(record.operationId, record.identity.sessionId, body.phase));
    }

    /** `_execute_prompt` up to the first wait for its collector. */
    method ExecutePrompt(record: OperationRecord, session: DirectSession)
      requires Valid() && Works(record, session) && IsPrompt(View(), record.operationId)
      requires At(View(), record.operationId, Scheduled) || At(View(), record.operationId, AwaitingLock)
      modifies this`calls, record, session, first`collectors, first`tasks, first`registered, first`lock,
        first`reservations, first`released
      ensures Valid()
      ensures View() == EnterLock(old(View()), record.operationId)
    {
      Known(record, session);
      KnownFields();
      hide View, Valid, Finish;
      var op := record.operationId;
      if first.lock.Some? {
        SetTask(op, AwaitingLock);
        return;
      }
      if record.state.Terminal() {
        FinishPrompt(record, session);
        return;
      }
      SameRecord(View(), op);
      if !record.state.Cancelling? {
        SetState(record, Running);
      }
      Dispatch(record, record.identity.request.body);
    }

    method CompleteSession(record: OperationRecord, session: DirectSession, body: PromptRequest)
      requires Valid() && Works(record, session)
      modifies session
      ensures Valid()
      ensures session.View() == Completing(old(session.View()), body)
      ensures View() == WithSession(old(View()), session.sessionId, session.View())
    {
      session.Complete(body);
      assert first.ledger.View() == old(first.ledger.View());
      assert first.SessionsView() == old(first.SessionsView())[session.sessionId := session.View()];
    }

    /** The prompt settles without success: its session is not used again, and its finally block runs. */
    method SpoilPrompt(record: OperationRecord, session: DirectSession,
                       state: OperationState, result: Option<Report>, error: Option<ErrorCode>)
      requires Valid() && Works(record, session) && Located(View(), record.operationId) && state.Terminal()
      modifies record, session, first`tasks, first`registered, first`lock, first`reservations, first`released
      ensures Valid()
      ensures View() == Conclude(old(View()), record.operationId, Settled(old(record.View()), state, result, error),
                                 old(session.View()).(state := NonReusable))
    {
      Known(record, session);
      ConcludeInSteps(View(), record.operationId, Settled(record.View(), state, result, error),
                      session.View().(state := NonReusable));
      hide View, Valid, Finish, Conclude;
      Settle(record, state, result, error);
      SetSessionState(record, session, NonReusable);
      FinishPrompt(record, session);
    }

    /** The prompt completes, and its finally block runs. */
    method CompletePrompt(record: OperationRecord, session: DirectSession, stop: StopReason)
      requires Valid() && Works(record, session)
      requires Located(View(), record.operationId) && IsPrompt(View(), record.operationId)
      modifies record, session, first`tasks, first`registered, first`lock, first`reservations, first`released
      ensures Valid()
      ensures record.identity.request.Prompt?
      ensures View() == Conclude(old(View()), record.operationId,
        Settled(old(record.View()), Completed, Some(PromptDone(stop)), None),
                                 Completing(old(session.View()), record.identity.request.body))
    {
      Known(record, session);
      ConcludeInSteps(View(), record.operationId, Settled(record.View(), Completed, Some(PromptDone(stop)), None),
                      Completing(session.View(), record.identity.request.body));
      hide View, Valid, Finish, Conclude, Completing;
      Settle(record, Completed, Some(PromptDone(stop)), None);
      CompleteSession(record, session, record.identity.request.body);
      FinishPrompt(record, session);
    }

    /** The collector returned with a stop reason: the section under the state lock, and the finally block. */
    method PromptStops(record: OperationRecord, session: DirectSession, stop: StopReason)
      requires Valid() && Works(record, session)
      requires At(View(), record.operationId, AwaitingCollector) && IsPrompt(View(), record.operationId)
      modifies record, session, first`tasks, first`registered, first`lock, first`reservations, first`released
      ensures Valid()
      ensures View() == PromptStopped(old(View()), record.operationId, stop)
    {
      Known(record, session);
      hide View, Valid, Conclude, Completing;
      if record.state.Cancelling? {
        if stop.StopCancelled? {
          SpoilPrompt(record, session, Cancelled, Some(PromptDone(stop)), None);
        } else {
          SpoilPrompt(record, session, InDoubt, None, Some(CancellationStopMismatch));
        }
      } else if stop.StopCancelled? {
        SpoilPrompt(record, session, Cancelled, Some(PromptDone(stop)), None);
      } else {
        CompletePrompt(record, session, stop);
      }
    }

    /** The `except EvidenceLimitExceeded` branch, up to the finally block or the quarantine. */
    method PromptOverflows(record: OperationRecord, session: DirectSession, settledCancelled: bool)
      requires Valid() && Works(record, session) && Located(View(), record.operationId)
      modifies this`current, this`available, this`lostBy, first`quarantined, first`collectors,
        first`tasks, first`registered, first`lock, first`reservations, first`released,
        first.SessionObjects(), first.ledger.Objects()
      ensures Valid()
      ensures current == old(current) || fresh(current)
      ensures View() == PromptOverflowed(old(View()), record.operationId, settledCancelled)
    {
      InFootprint(record, session);
      Known(record, session);
      hide View, Valid, Conclude, MarkLost;
      var op := record.operationId;
      if settledCancelled {
        SpoilPrompt(record, session, Failed, Some(RetainedEvidence), Some(EvidenceLimit));
      } else {
        LeavePromptLock(op);
        LocatedAfterLeaving(old(View()), op);
        hide LeaveLock, ServiceModel.QuarantineSession;
        QuarantineSession(record, session,
          [Settlement(op, InDoubt, Some(RetainedEvidence), Some(EvidenceLimitInDoubt))]);
      }
    }

    /** The `except Exception` branch, up to the quarantine. */
    method PromptFails(record: OperationRecord, session: DirectSession)
      requires Valid() && Works(record, session) && Located(View(), record.operationId)
      modifies this`current, this`available, this`lostBy, first`quarantined, first`collectors,
        first`tasks, first`registered, first`lock, first`reservations, first`released,
        first.SessionObjects(), first.ledger.Objects()
      ensures Valid()
      ensures current == old(current) || fresh(current)
      ensures View() == PromptRaised(old(View()), record.operationId)
    {
      KnownFields();
      hide View, Valid, MarkLost;
      if !transportAlive {
        MarkGenerationLost(Some(record.operationId), {});
        SetTask(record.operationId, Unwinding);
      } else {
        QuarantineSession(record, session, InDoubtAs(record.operationId, PromptInDoubt));
      }
    }

    /** Leaving `async with prompt_lock` with the collector's registration dropped. */
    method LeavePromptLock(op: Id)
      requires Valid()
      modifies first`lock, first`registered
      ensures Valid()
      ensures View() == LeaveLock(old(View()), op)
    {
      hide View, Valid;
      Unlock(op);
      Unregister(op);
    }

    /** The collector raised: the lock is left first. */
    method PromptFailsLocked(record: OperationRecord, session: DirectSession)
      requires Valid() && Works(record, session) && Located(View(), record.operationId)
      modifies this`current, this`available, this`lostBy, first`quarantined, first`collectors,
        first`tasks, first`registered, first`lock, first`reservations, first`released,
        first.SessionObjects(), first.ledger.Objects()
      ensures Valid()
      ensures current == old(current) || fresh(current)
      ensures Located(LeaveLock(old(View()), record.operationId), record.operationId)
      ensures View() == PromptRaised(LeaveLock(old(View()), record.operationId), record.operationId)
    {
      LocatedAfterLeaving(View(), record.operationId);
      hide View, Valid, PromptRaised, LeaveLock;
      LeavePromptLock(record.operationId);
      PromptFails(record, session);
    }

    /** The prompt resumes from its first wait with what its collector ended with. */
    method ResumePrompt(record: OperationRecord, session: DirectSession, outcome: CollectorOutcome)
      requires Valid() && Works(record, session)
      requires At(View(), record.operationId, AwaitingCollector) && IsPrompt(View(), record.operationId)
      requires record.operationId in View().collectors && View().collectors[record.operationId] == Ended(outcome)
      modifies this`current, this`available, this`lostBy, first`quarantined, first`collectors,
        first`tasks, first`registered, first`lock, first`reservations, first`released,
        first.SessionObjects(), first.ledger.Objects()
      ensures Valid()
      ensures current == old(current) || fresh(current)
      ensures View() == PromptResumes(old(View()), record.operationId)
    {
      InFootprint(record, session);
      hide View, Valid, Finish, PromptStopped, PromptOverflowed, PromptRaised;
      match outcome {
        case Returned(stop) => PromptStops(record, session, stop);
        case Overflowed(settledCancelled) => PromptOverflows(record, session, settledCancelled);
        case Raised => PromptFailsLocked(record, session);
        case WasCancelled => FinishPrompt(record, session);
      }
    }

    // ----- the deadline -----

    /** The execution timeout fires: `_settle_deadline` up to its first await. */
    method SettleDeadline(record: OperationRecord, session: DirectSession)
      requires Valid() && Works(record, session) && At(View(), record.operationId, AwaitingCollector)
      modifies this`calls, record, first`tasks
      ensures Valid()
      ensures View() == DeadlineFires(old(View()), record.operationId)
    {
      Known(record, session);
      hide View, Valid;
      SetState(record, Cancelling);
      SetTask(record.operationId, SendingDeadlineCancel);
      Observe(CancelCall(record.operationId));
    }

    /** The `finally` of the wait, and leaving the prompt lock. */
    method LeaveWait(op: Id)
      requires Valid()
      modifies first`lock, first`registered
      ensures Valid()
      ensures View() == FreeLock(PopIfEnded(old(View()), op), op)
    {
      KnownFields();
      hide View, Valid;
      if op in first.collectors && first.collectors[op].Ended? {
        Unregister(op);
      }
      Unlock(op);
    }

    /**
     Sending the cancellation raised: the `finally` of the wait, the prompt lock, and the `except
     Exception` branch.
     */
    method DeadlineCancelRaises(record: OperationRecord, session: DirectSession)
      requires Valid() && Works(record, session) && At(View(), record.operationId, SendingDeadlineCancel)
      modifies this`current, this`available, this`lostBy, first`quarantined, first`collectors,
        first`tasks, first`registered, first`lock, first`reservations, first`released,
        first.SessionObjects(), first.ledger.Objects()
      ensures Valid()
      ensures current == old(current) || fresh(current)
      ensures View() == DeadlineCancelFailed(old(View()), record.operationId)
    {
      hide View, Valid, PromptRaised;
      LeaveWait(record.operationId);
      StillLocated(old(View()), record.operationId);
      hide FreeLock, PopIfEnded;
      PromptFails(record, session);
    }

    /** The grace expires: the collector is cancelled and reaped. */
    method DeadlineGraceEnds(record: OperationRecord, session: DirectSession)
      requires Valid() && Works(record, session) && At(View(), record.operationId, AwaitingDeadlineGrace)
      modifies first`collectors, first`tasks
      ensures Valid()
      ensures View() == DeadlineGraceExpires(old(View()), record.operationId)
    {
      hide View, Valid;
      StopCollector(record.operationId);
      SetTask(record.operationId, ReapingCollector);
    }

    /** The collector was cancelled under the deadline: only the `finally` blocks are left. */
    method AbandonPrompt(record: OperationRecord, session: DirectSession)
      requires Valid() && Works(record, session) && Located(View(), record.operationId)
      modifies session, first`tasks, first`registered, first`lock, first`reservations, first`released
      ensures Valid()
      ensures View() == Conclude(old(View()), record.operationId, record.View(),
        old(session.View()).(state := NonReusable))
    {
      Known(record, session);
      ConcludeInSteps(View(), record.operationId, record.View(), session.View().(state := NonReusable));
      SameRecord(View(), record.operationId);
      hide View, Valid, Finish, Conclude;
      SetSessionState(record, session, NonReusable);
      FinishPrompt(record, session);
    }

    /** `_settle_deadline` resumes with what the collector ended with. */
    method ResumeDeadline(record: OperationRecord, session: DirectSession, outcome: CollectorOutcome)
      requires Valid() && Works(record, session) && At(View(), record.operationId, AwaitingDeadlineGrace)
      requires record.operationId in View().collectors && View().collectors[record.operationId] == Ended(outcome)
      modifies this`current, this`available, this`lostBy, first`quarantined, first`collectors,
        first`tasks, first`registered, first`lock, first`reservations, first`released,
        first.SessionObjects(), first.ledger.Objects()
      ensures Valid()
      ensures current == old(current) || fresh(current)
      ensures View() == DeadlineResumes(old(View()), record.operationId)
    {
      InFootprint(record, session);
      Known(record, session);
      var op := record.operationId;
      hide View, Valid, DirectLedger.View, Generation.SessionsView, Generation.Valid, Works, Conclude,
        PromptOverflowed, PromptRaised, Quarantine, LeaveLock, Settled, InDoubtAs;
      match outcome {
        case Returned(stop) =>
          if stop.StopCancelled? {
            SpoilPrompt(record, session, TimedOut, None, Some(ExecutionDeadline));
          } else {
            QuarantineUncertain(op, InDoubtAs(op, DeadlineStopMismatch));
          }
        case Overflowed(settledCancelled) => PromptOverflows(record, session, settledCancelled);
        case Raised => PromptFailsLocked(record, session);
        case WasCancelled =>
          AbandonPrompt(record, session);
      }
    }

    // ----- cancellation -----

    /** `_execute_cancel` up to the drain of the notification. */
    method ExecuteCancel(record: OperationRecord, session: DirectSession)
      requires Valid() && Works(record, session) && At(View(), record.operationId, Scheduled)
      requires record.identity.target.Some?
      modifies this`calls, record, first`tasks
      ensures Valid()
      ensures record.operationId in old(View()).records && old(View()).records[record.operationId].identity.target.Some?
      ensures View() == StartCancel(old(View()), record.operationId)
    {
      Known(record, session);
      hide View, Valid;
      SetState(record, Running);
      SetTask(record.operationId, SendingCancel);
      Observe(CancelCall(record.identity.target.value));
    }

    /** Sending raised: target and cancellation are settled after the quarantine. */
    method CancelSendRaises(record: OperationRecord, session: DirectSession)
      requires Valid() && Works(record, session) && At(View(), record.operationId, SendingCancel)
      requires record.identity.target.Some?
      modifies this`current, this`available, this`lostBy, first`quarantined, first`collectors,
        first`tasks, first`registered, first`lock, first`reservations, first`released,
        first.SessionObjects(), first.ledger.Objects()
      ensures Valid()
      ensures current == old(current) || fresh(current)
      ensures record.operationId in old(View()).records && old(View()).records[record.operationId].identity.target.Some?
      ensures View() == CancelSendFails(old(View()), record.operationId)
    {
      Known(record, session);
      hide View, Valid, ServiceModel.QuarantineSession;
      QuarantineSession(record, session,
        [Settlement(record.identity.target.value, InDoubt, None, Some(CancelTransportFailed)),
         Settlement(record.operationId, Failed, None, Some(CancelFailed))]);
    }

    /** The target has settled within the grace. */
    method TargetDone(record: OperationRecord, session: DirectSession, target: OperationRecord)
      requires Valid() && Works(record, session) && Owns(target) && At(View(), record.operationId, AwaitingTarget)
      requires target.state.Terminal()
      modifies record, first`tasks
      ensures Valid()
      ensures target.operationId in old(View()).records && old(View()).records[target.operationId].state.Terminal()
      ensures View() == TargetSettled(old(View()), record.operationId, target.operationId)
    {
      Known(record, session);
      assert View().records[target.operationId] == target.View();
      hide View, Valid;
      Settle(record, Completed, Some(CancelReport(target.state, true)), None);
      SetTask(record.operationId, Finished);
    }

    /** The grace expires: the target's collector is cancelled and reaped, or the generation is lost at once. */
    method CancelGraceEnds(record: OperationRecord, session: DirectSession, target: Id)
      requires Valid() && Works(record, session) && At(View(), record.operationId, AwaitingTarget)
      modifies this`current, this`available, this`lostBy, first`quarantined, first`collectors,
        first`tasks, first`registered, first`lock, first`reservations, first`released,
        first.SessionObjects(), first.ledger.Objects()
      ensures Valid()
      ensures current == old(current) || fresh(current)
      ensures View() == CancelGraceExpires(old(View()), record.operationId, target)
    {
      KnownFields();
      hide View, Valid, ServiceModel.QuarantineSession;
      if target in first.registered {
        StopCollector(target);
        Unregister(target);
        SetTask(record.operationId, ReapingTarget);
      } else {
        QuarantineSession(record, session, CancelDeferred(record.operationId, target));
      }
    }

    // ----- abort and publication -----

    method FailTransport()
      requires Valid()
      modifies this`transportAlive, this`abortAttempted
      ensures Valid()
      ensures View() == old(View()).(abortAttempted := true, transportAlive := false)
    {
      abortAttempted := true;
      transportAlive := false;
    }

    /** The child is told to abort, which fails the transport closed before its first await. */
    method AbortClient(op: Id, deferred: seq<Settlement>)
      requires Valid() && At(View(), op, Quarantining(deferred))
      modifies this`transportAlive, this`abortAttempted, first`tasks
      ensures Valid()
      ensures View() == AbortChild(old(View()), op, deferred)
    {
      hide View, Valid;
      SetTask(op, Aborting(deferred));
      FailTransport();
    }

    /** One deferred settlement is published. */
    method PublishOne(d: Settlement)
      requires Valid()
      modifies first.ledger.Objects()
      ensures Valid()
      ensures View() == old(View()).(records :=
        if d.op in old(View()).records && d.state.Terminal()
        then old(View()).records[d.op := Settled(old(View()).records[d.op], d.state, d.result, d.error)]
        else old(View()).records)
    {
      if d.op in first.ledger.records && d.state.Terminal() {
        var record := first.ledger.records[d.op];
        Settle(record, d.state, d.result, d.error);
      }
    }

    /** The finally block of `_quarantine_uncertain`. */
    method PublishAll(deferred: seq<Settlement>)
      requires Valid()
      modifies first.ledger.Objects()
      ensures Valid()
      ensures View() == old(View()).(records := Publish(old(View()).records, deferred))
    {
      hide View, Valid;
      for i := 0 to |deferred|
        invariant Valid()
        invariant View() == old(View()).(records := View().records)
        invariant Publish(old(View()).records, deferred) == Publish(View().records, deferred[i..])
      {
        assert deferred[i..][0] == deferred[i] && deferred[i..][1..] == deferred[i + 1..];
        PublishOne(deferred[i]);
      }
    }

    // ----- admission -----

    /** `_check_pin`, with `_require_current_generation` under the state lock that nothing can have preceded. */
    predicate CheckPin(pin: Pin)
      requires Valid()
      reads this, first, first.ledger, Footprint()
      ensures CheckPin(pin) <==> PinHolds(View(), pin)
    {
      pin.major == DIRECT_PROTOCOL_MAJOR && pin.generation == current.id && available && transportAlive
    }

    method AdmitToLedger(op: Id, identity: Identity) returns (r: Result<(OperationRecord, bool), DirectError>)
      requires Valid()
      modifies first.ledger
      ensures Valid()
      ensures first.ledger.records == old(first.ledger.records)
        || (&& op in first.ledger.records && fresh(first.ledger.records[op])
            && first.ledger.records == old(first.ledger.records)[op := first.ledger.records[op]])
      ensures match LedgerAdmit(old(View()).records, config.maxOperations, op, identity)
        case Failure(e) => r == Failure(e) && View() == old(View()) && first.ledger.records == old(first.ledger.records)
        case Success(false) => r.Success? && !r.value.1 && View() == old(View()) &&
          first.ledger.records == old(first.ledger.records)
        case Success(true) =>
          && r.Success? && r.value.1
          && fresh(r.value.0) && Owns(r.value.0) && r.value.0.operationId == op && r.value.0.identity == identity
          && r.value.0.View() == NewRecord(identity)
          && View() == WithRecord(old(View()), op, NewRecord(identity))
          && first.ledger.records == old(first.ledger.records)[op := r.value.0]
    {
      r := first.ledger.Admit(op, identity);
      assert first.SessionsView() == old(first.SessionsView());
      if r.Success? && r.value.1 {
        assert first.ledger.View() == old(first.ledger.View())[op := NewRecord(identity)];
      } else {
        assert first.ledger.View() == old(first.ledger.View());
      }
    }

    /** An operation ID is used again: its record if the identity is the same, and a conflict otherwise. */
    method AdmitAgain(op: Id, identity: Identity) returns (reply: Reply)
      requires Valid() && op in first.ledger.records
      modifies first.ledger
      ensures Valid()
      ensures first.ledger.records == old(first.ledger.records)
      ensures View() == old(View()) && op in View().records
      ensures reply == if View().records[op].identity != identity then Failure(Conflict)
        else Success(Admission(op, false))
    {
      KnownKeys();
      hide View, Valid;
      var existing := AdmitToLedger(op, identity);
      reply := if existing.Failure? then Failure(existing.error) else Success(Admission(op, false));
    }

    method AddSession(sid: Id, modelId: Id, stableDigest: Digest)
      requires Valid() && sid !in first.sessions
      modifies first`sessions
      ensures Valid()
      ensures sid in first.sessions && fresh(first.sessions[sid]) &&
        first.sessions == old(first.sessions)[sid := first.sessions[sid]]
      ensures View() == WithSession(old(View()), sid, NewSession(modelId, stableDigest))
    {
      var session := new DirectSession(sid, modelId, stableDigest);
      first.sessions := first.sessions[sid := session];
      assert first.ledger.View() == old(first.ledger.View());
      assert first.SessionsView() == old(first.SessionsView())[sid := NewSession(modelId, stableDigest)];
    }

    lemma KnownKeys()
      requires Valid()
      ensures View().records.Keys == first.ledger.records.Keys && View().sessions.Keys == first.sessions.Keys
      ensures |View().sessions| == |first.sessions| && View().config == config
      ensures View().reservations == first.reservations
      ensures forall op {:trigger op in first.ledger.records} :: op in first.ledger.records ==>
        && View().records[op] == first.ledger.records[op].View()
        && first.ledger.records[op].operationId == op
      ensures forall sid {:trigger sid in first.sessions} :: sid in first.sessions ==>
        && View().sessions[sid] == first.sessions[sid].View()
        && first.sessions[sid].sessionId == sid
    {
      assert |View().sessions.Keys| == |first.sessions.Keys|;
    }

    /** The part of `admit_create` that follows its checks. */
    method RecordCreation(req: Request) returns (reply: Reply)
      requires Valid() && req.CreateSession?
      requires req.pin.operationId in first.ledger.records || req.sessionId !in first.sessions
      modifies first`sessions, first`tasks, first.ledger
      ensures Valid()
      ensures first.ledger.records == old(first.ledger.records)
        || (&& req.pin.operationId in first.ledger.records && fresh(first.ledger.records[req.pin.operationId])
            && first.ledger.records ==
                 old(first.ledger.records)[req.pin.operationId := first.ledger.records[req.pin.operationId]])
      ensures first.sessions == old(first.sessions)
        || (&& req.sessionId in first.sessions && fresh(first.sessions[req.sessionId])
            && first.sessions == old(first.sessions)[req.sessionId := first.sessions[req.sessionId]])
      ensures var op := req.pin.operationId; var identity := Identity(req, CreateKind, req.sessionId, None, None);
        match LedgerAdmit(old(View()).records, config.maxOperations, op, identity)
        case Failure(e) => reply == Failure(e) && View() == old(View())
        case Success(false) => reply == Success(Admission(op, false)) && View() == old(View())
        case Success(true) =>
          && reply == Success(Admission(op, true))
          && View() == WithTask(WithSession(WithRecord(old(View()), op, NewRecord(identity)), req.sessionId,
                                            NewSession(req.modelId, req.stableDigest)), op, Scheduled)
    {
      KnownKeys();
      hide View, Valid, DirectLedger.View, DirectLedger.Valid, Generation.SessionsView, Generation.Valid;
      var op := req.pin.operationId;
      var r := AdmitToLedger(op, Identity(req, CreateKind, req.sessionId, None, None));
      if r.Failure? {
        return Failure(r.error);
      }
      if !r.value.1 {
        return Success(Admission(op, false));
      }
      AddSession(req.sessionId, req.modelId, req.stableDigest);
      SetTask(op, Scheduled);
      reply := Success(Admission(op, true));
    }

    /** `admit_create` */
    method AdmitCreate(req: Request) returns (reply: Reply)
      requires Valid() && req.CreateSession?
      modifies first`sessions, first`tasks, first.ledger
      ensures Valid()
      ensures first.sessions == old(first.sessions)
        || (&& req.sessionId in first.sessions && fresh(first.sessions[req.sessionId])
            && first.sessions == old(first.sessions)[req.sessionId := first.sessions[req.sessionId]])
      ensures first.ledger.records == old(first.ledger.records)
        || (&& req.pin.operationId in first.ledger.records && fresh(first.ledger.records[req.pin.operationId])
            && first.ledger.records ==
                 old(first.ledger.records)[req.pin.operationId := first.ledger.records[req.pin.operationId]])
      ensures (View(), reply) == ServiceModel.AdmitCreate(old(View()), req)
    {
      KnownKeys();
      hide View, Valid;
      var op := req.pin.operationId;
      if !CheckPin(req.pin) {
        return Failure(GenerationMismatch);
      }
      if req.workspace != config.canonicalWorkspace {
        return Failure(WorkspaceMismatch);
      }
      if req.modelId !in config.models {
        return Failure(Conflict);
      }
      if op !in first.ledger.records {
        if req.sessionId in first.sessions {
          return Failure(Conflict);
        }
        if |first.sessions| >= config.maxSessions {
          return Failure(LimitExceeded);
        }
      }
      reply := RecordCreation(req);
    }

    method OccupySession(record: OperationRecord, session: DirectSession)
      requires Valid() && Works(record, session)
      modifies session
      ensures Valid()
      ensures session.View() == old(session.View()).(active := Some(record.operationId), state := Busy)
      ensures View() == WithSession(old(View()), session.sessionId, session.View())
    {
      session.Occupy(record.operationId);
      assert first.ledger.View() == old(first.ledger.View());
      assert first.SessionsView() == old(first.SessionsView())[session.sessionId := session.View()];
    }

    method Reserve()
      requires Valid()
      modifies first`reservations
      ensures Valid()
      ensures View() == old(View()).(reservations := old(View()).reservations + 1)
    {
      first.reservations := first.reservations + 1;
    }

    /** The new record waits in the queue if another prompt holds a reservation. */
    method QueueRecord(record: OperationRecord)
      requires Valid() && Owns(record) && record.View() == NewRecord(record.identity)
      modifies record`state
      ensures Valid()
      ensures View() == WithRecord(old(View()), record.operationId,
        NewRecord(record.identity).(state := if old(View()).reservations > 0 then Queued else Accepted))
    {
      assert View().records[record.operationId] == record.View() && View().reservations == first.reservations;
      SameRecord(View(), record.operationId);
      hide View, Valid;
      if first.reservations > 0 {
        SetState(record, Queued);
      }
    }

    /** The part of `admit_prompt` that follows the ledger. */
    method EnterPrompt(record: OperationRecord, session: DirectSession)
      requires Valid() && Works(record, session) && record.View() == NewRecord(record.identity)
      modifies record, session, first`tasks, first`reservations
      ensures Valid()
      ensures session.sessionId in old(View()).sessions
      ensures View() == StartedPrompt(old(View()), session.sessionId, record.operationId, record.identity)
    {
      Known(record, session);
      hide View, Valid, DirectLedger.View, DirectLedger.Valid, Generation.SessionsView, Generation.Valid;
      QueueRecord(record);
      Reserve();
      OccupySession(record, session);
      SetTask(record.operationId, Scheduled);
    }

    /** The part of `admit_prompt` that follows its checks. */
    method StartPrompt(op: Id, session: DirectSession, identity: Identity) returns (reply: Reply)
      requires Valid() && op !in first.ledger.records
      requires session.sessionId in first.sessions && first.sessions[session.sessionId] == session
      requires identity.sessionId == session.sessionId
      modifies session, first`tasks, first`reservations, first.ledger
      ensures Valid()
      ensures first.ledger.records == old(first.ledger.records)
        || (&& op in first.ledger.records && fresh(first.ledger.records[op])
            && first.ledger.records == old(first.ledger.records)[op := first.ledger.records[op]])
      ensures session.sessionId in old(View()).sessions
      ensures match LedgerAdmit(old(View()).records, config.maxOperations, op, identity)
        case Failure(e) => reply == Failure(e) && View() == old(View())
        case Success(created) =>
          reply == Success(Admission(op, created)) &&
            View() == StartedPrompt(old(View()), session.sessionId, op, identity)
    {
      KnownKeys();
      hide View, Valid, DirectLedger.View, DirectLedger.Valid, Generation.SessionsView, Generation.Valid;
      ghost var s := View();
      var admitted := AdmitToLedger(op, identity);
      if admitted.Failure? {
        return Failure(admitted.error);
      }
      StartedOverwrites(s, session.sessionId, op, identity);
      hide StartedPrompt;
      EnterPrompt(admitted.value.0, session);
      reply := Success(Admission(op, admitted.value.1));
    }

    /**
     The checks of `admit_prompt` on a new operation: none refuses if and only if the session is free for
     the prompt and there is room to wait, and a refusal is the answer of the whole admission.
     */
    function RefusePrompt(sid: Id, r: PromptRequest): (refusal: Option<DirectError>)
      requires Valid() && ValidLayers(r)
      reads this, first, first.ledger, Footprint()
      ensures refusal.None? <==> PromptAdmissible(View(), sid, r)
      ensures refusal.Some? && PromptIsNew(View(), r) ==>
        ServiceModel.AdmitPrompt(View(), sid, r) == (View(), Failure(refusal.value))
    {
      if sid !in first.sessions then Some(NotFound) else
      var session := first.sessions[sid];
      if session.active.Some? || session.state.Busy? then Some(SessionBusy)
      else if !session.state.Ready? || !LifetimeAllows(session.View(), r) then Some(Conflict)
      else
        var queued := if first.reservations - 1 > 0 then first.reservations - 1 else 0;
        if first.reservations > 0 && queued >= config.maxQueuedPrompts then Some(LimitExceeded) else None
    }

    /** `admit_prompt` */
    method AdmitPrompt(sid: Id, r: PromptRequest) returns (reply: Reply)
      requires Valid() && ValidLayers(r)
      modifies first`tasks, first`reservations, first.SessionObjects(), first.ledger
      ensures Valid()
      ensures first.ledger.records == old(first.ledger.records)
        || (&& r.pin.operationId in first.ledger.records && fresh(first.ledger.records[r.pin.operationId])
            && first.ledger.records ==
                 old(first.ledger.records)[r.pin.operationId := first.ledger.records[r.pin.operationId]])
      ensures (View(), reply) == ServiceModel.AdmitPrompt(old(View()), sid, r)
    {
      KnownKeys();
      if !PromptIsNew(View(), r) { OldPromptAnswered(View(), sid, r); }
      else if PromptAdmissible(View(), sid, r) { AdmissiblePromptStarts(View(), sid, r); }
      hide View, Valid, Footprint, LifetimeAllows, WithinPromptLimits, ServiceModel.AdmitPrompt, StartedPrompt;
      var op := r.pin.operationId;
      var identity := PromptIdentity(sid, r);
      if !CheckPin(r.pin) {
        return Failure(GenerationMismatch);
      }
      if !WithinPromptLimits(config, r) {
        return Failure(LimitExceeded);
      }
      if op in first.ledger.records {
        reply := AdmitAgain(op, identity);
        return;
      }
      var refusal := RefusePrompt(sid, r);
      if refusal.Some? {
        return Failure(refusal.value);
      }
      InSessions(sid);
      reply := StartPrompt(op, first.sessions[sid], identity);
    }

    lemma InSessions(sid: Id)
      requires Valid() && sid in View().sessions
      ensures sid in first.sessions && first.sessions[sid] in first.SessionObjects() &&
        first.sessions[sid].sessionId == sid
    {
    }

    /** The session of a prompt that is cancelled before its dispatch. */
    method VacateSession(record: OperationRecord, session: DirectSession)
      requires Valid() && Works(record, session)
      modifies session
      ensures Valid()
      ensures session.View() == old(session.View()).(active := None, state := Ready)
      ensures View() == WithSession(old(View()), session.sessionId, session.View())
    {
      session.Vacate();
      assert first.ledger.View() == old(first.ledger.View());
      assert first.SessionsView() == old(first.SessionsView())[session.sessionId := session.View()];
    }

    /** The target has not been dispatched: it is cancelled here and now. */
    method CancelBeforeDispatch(target: OperationRecord, session: DirectSession)
      requires Valid() && Works(target, session)
      modifies target, session, first`reservations, first`released
      ensures Valid()
      ensures session.sessionId in old(View()).sessions && target.operationId in old(View()).records
      ensures View() == PreDispatchCancelled(old(View()), target.operationId, target.identity.sessionId)
    {
      Known(target, session);
      hide View, Valid, Release;
      Settle(target, Cancelled, Some(CancelledPreDispatch), None);
      VacateSession(target, session);
      var underflow := ReleaseReservation(target.operationId);
    }

    /** What `admit_cancel` does once the cancellation is in the ledger. */
    method StartCancellation(record: OperationRecord, target: OperationRecord, session: DirectSession)
      requires Valid() && Owns(record) && Works(target, session) && record != target
      requires record.View() == NewRecord(record.identity)
      modifies record, target, session, first`tasks, first`registered, first`lock, first`reservations, first`released
      ensures Valid()
      ensures session.sessionId in old(View()).sessions && target.operationId in old(View()).records
      ensures View() == CancellationStarted(old(View()), record.operationId, record.identity, target.operationId,
        target.identity.sessionId)
    {
      Known(target, session);
      hide View, Valid, PreDispatchCancelled;
      var op := record.operationId;
      if target.state.Accepted? || target.state.Queued? {
        CancelBeforeDispatch(target, session);
        Settle(record, Completed, Some(CancelReport(Cancelled, false)), None);
        return;
      }
      if target.state.Terminal() {
        Settle(record, Completed, Some(CancelReport(target.state, false)), None);
        return;
      }
      SetState(target, Cancelling);
      SetTask(op, Scheduled);
    }

    /** Every record names a session that exists. */
    ghost predicate Housed()
      reads first, first.ledger
    {
      forall op :: op in first.ledger.records ==> first.ledger.records[op].identity.sessionId in first.sessions
    }

    lemma InRecords(op: Id)
      requires Valid() && Housed() && op in first.ledger.records
      ensures var record := first.ledger.records[op]; record.identity.sessionId in first.sessions
      ensures var record := first.ledger.records[op]; var session := first.sessions[record.identity.sessionId];
        && Works(record, session) && record.operationId == op
        && record in first.ledger.Objects() && session in first.SessionObjects()
    {
    }

    /** The part of `admit_cancel` that follows its checks. */
    method RecordCancellation(op: Id, target: OperationRecord, session: DirectSession, identity: Identity)
      returns (reply: Reply)
      requires Valid() && Works(target, session)
      modifies target, session, first.ledger,
        first`tasks, first`registered, first`lock, first`reservations, first`released
      ensures Valid()
      ensures first.ledger.records == old(first.ledger.records)
        || (&& op in first.ledger.records && fresh(first.ledger.records[op])
            && first.ledger.records == old(first.ledger.records)[op := first.ledger.records[op]])
      ensures session.sessionId in old(View()).sessions && target.operationId in old(View()).records
      ensures match LedgerAdmit(old(View()).records, config.maxOperations, op, identity)
        case Failure(e) => reply == Failure(e) && View() == old(View())
        case Success(false) => reply == Success(Admission(op, false)) && View() == old(View())
        case Success(true) =>
          && reply == Success(Admission(op, true))
          && View() == CancellationStarted(WithRecord(old(View()), op, NewRecord(identity)), op, identity,
                                           target.operationId, target.identity.sessionId)
    {
      Known(target, session);
      hide View, Valid, CancellationStarted, Footprint;
      var admitted := AdmitToLedger(op, identity);
      if admitted.Failure? {
        return Failure(admitted.error);
      }
      if !admitted.value.1 {
        return Success(Admission(op, false));
      }
      ghost var joined := first.ledger.records;
      StartCancellation(admitted.value.0, target, session);
      assert first.ledger.records == joined;
      reply := Success(Admission(op, true));
    }

    /** `admit_cancel` */
    method AdmitCancel(req: Request) returns (reply: Reply)
      requires Valid() && Housed() && req.Cancel?
      modifies first.SessionObjects(), first.ledger, first.ledger.Objects(),
        first`tasks, first`registered, first`lock, first`reservations, first`released
      ensures Valid()
      ensures first.ledger.records == old(first.ledger.records)
        || (&& req.pin.operationId in first.ledger.records && fresh(first.ledger.records[req.pin.operationId])
            && first.ledger.records ==
                 old(first.ledger.records)[req.pin.operationId := first.ledger.records[req.pin.operationId]])
      ensures (View(), reply) == ServiceModel.AdmitCancel(old(View()), req)
    {
      KnownKeys();
      if !CheckPin(req.pin) {
        return Failure(GenerationMismatch);
      }
      if req.target !in first.ledger.records {
        return Failure(NotFound);
      }
      InRecords(req.target);
      CancelParts(View(), req);
      hide View, Valid, ServiceModel.AdmitCancel, CancellationStarted, PinHolds;
      var target := first.ledger.records[req.target];
      if !target.identity.kind.PromptKind? {
        return Failure(Conflict);
      }
      reply := RecordCancellation(req.pin.operationId, target, first.sessions[target.identity.sessionId],
                                  Identity(req, CancelKind, target.identity.sessionId, None, Some(req.target)));
    }

    /** The part of `admit_retire` that follows its checks. */
    method RetireSession(op: Id, session: DirectSession, identity: Identity) returns (reply: Reply)
      requires Valid() && op !in first.ledger.records
      requires session.sessionId in first.sessions && first.sessions[session.sessionId] == session
      requires identity.sessionId == session.sessionId
      modifies session, first.ledger
      ensures Valid()
      ensures first.ledger.records == old(first.ledger.records)
        || (&& op in first.ledger.records && fresh(first.ledger.records[op])
            && first.ledger.records == old(first.ledger.records)[op := first.ledger.records[op]])
      ensures session.sessionId in old(View()).sessions
      ensures match LedgerAdmit(old(View()).records, config.maxOperations, op, identity)
        case Failure(e) => reply == Failure(e) && View() == old(View())
        case Success(created) =>
          reply == Success(Admission(op, true)) &&
            View() == RetiredSession(old(View()), session.sessionId, op, identity)
    {
      KnownKeys();
      hide View, Valid;
      ghost var s := View();
      var admitted := AdmitToLedger(op, identity);
      if admitted.Failure? {
        return Failure(admitted.error);
      }
      RetiredOverwrites(s, session.sessionId, op, identity);
      hide RetiredSession;
      SettleRetirement(admitted.value.0, session);
      reply := Success(Admission(op, true));
    }

    method SettleRetirement(record: OperationRecord, session: DirectSession)
      requires Valid() && Works(record, session) && record.View() == NewRecord(record.identity)
      modifies record, session
      ensures Valid()
      ensures session.sessionId in old(View()).sessions
      ensures View() == RetiredSession(old(View()), session.sessionId, record.operationId, record.identity)
    {
      Known(record, session);
      hide View, Valid;
      SetSessionState(record, session, Retired);
      Settle(record, Completed, Some(SessionRetired(session.backend)), None);
    }

    /** `admit_retire` */
    method AdmitRetire(req: Request) returns (reply: Reply)
      requires Valid() && req.Retire?
      modifies first.SessionObjects(), first.ledger
      ensures Valid()
      ensures first.ledger.records == old(first.ledger.records)
        || (&& req.pin.operationId in first.ledger.records && fresh(first.ledger.records[req.pin.operationId])
            && first.ledger.records ==
                 old(first.ledger.records)[req.pin.operationId := first.ledger.records[req.pin.operationId]])
      ensures (View(), reply) == ServiceModel.AdmitRetire(old(View()), req)
    {
      KnownKeys();
      hide View, Valid;
      var op := req.pin.operationId;
      var identity := Identity(req, RetireKind, req.sessionId, None, None);
      if !CheckPin(req.pin) {
        return Failure(GenerationMismatch);
      }
      if op in first.ledger.records {
        reply := AdmitAgain(op, identity);
        return;
      }
      if req.sessionId !in first.sessions {
        return Failure(NotFound);
      }
      InSessions(req.sessionId);
      var session := first.sessions[req.sessionId];
      if session.state.Retired? || session.active.Some? {
        return Failure(Conflict);
      }
      reply := RetireSession(op, session, identity);
    }

    /** `operation`: the status query. */
    method Operation(pin: Pin) returns (r: Result<Record, DirectError>)
      requires Valid()
      ensures r == Query(View(), pin)
    {
      KnownKeys();
      if !CheckPin(pin) {
        return Failure(GenerationMismatch);
      }
      if pin.operationId !in first.ledger.records {
        return Failure(NotFound);
      }
      r := Success(first.ledger.records[pin.operationId].View());
    }

    // ----- events -----

    /** The task of the operation stands here. */
    predicate Stands(op: Id, t: Task)
      requires Valid() && Housed()
      reads this, first, first.ledger, Footprint()
      ensures Stands(op, t) <==> At(View(), op, t)
    {
      op in first.ledger.records && op in first.tasks && first.tasks[op] == t
    }

    predicate Prompting(op: Id)
      requires Valid() && Housed()
      reads this, first, first.ledger, Footprint()
      ensures Prompting(op) <==> IsPrompt(View(), op)
    {
      op in first.ledger.records && HasFinally(first.ledger.records[op].View())
    }

    /** What the view says of an operation, and of its record and session if it is in the ledger. */
    lemma Placed(op: Id)
      requires Valid() && Housed()
      ensures View().tasks == first.tasks && View().collectors == first.collectors &&
        View().registered == first.registered
      ensures op in View().records <==> op in first.ledger.records
      ensures op in first.ledger.records ==>
        var record := first.ledger.records[op];
        && record.operationId == op && record in first.ledger.Objects()
        && View().records[op] == record.View()
        && record.identity.sessionId in first.sessions
        && Works(record, first.sessions[record.identity.sessionId])
        && first.sessions[record.identity.sessionId] in first.SessionObjects()
        && record.identity.sessionId in View().sessions
    {
    }

    /** A scheduled task starts, or a waiter gets the lock. */
    method RunTask(op: Id)
      requires Valid() && Housed()
      modifies this`current, this`available, this`lostBy, this`calls, this`transportAlive, this`abortAttempted,
        first`quarantined, first`collectors, first`tasks, first`registered, first`lock, first`reservations,
        first`released,
        first.SessionObjects(), first.ledger.Objects()
      ensures Valid()
      ensures current == old(current)
      ensures View() == Next(old(View()), TaskRuns(op))
    {
      hide View, Valid, Housed, Footprint, Stands, Prompting;
      Placed(op);
      if op !in first.ledger.records {
        return;
      }
      var record := first.ledger.records[op];
      var session := first.sessions[record.identity.sessionId];
      if Prompting(op) {
        if Stands(op, Scheduled) || Stands(op, AwaitingLock) {
          hide EnterLock;
          ExecutePrompt(record, session);
        }
      } else if Stands(op, Scheduled) {
        hide StartCreate, StartCancel;
        if record.identity.kind.CreateKind? {
          ExecuteCreate(record, session);
        } else if record.identity.kind.CancelKind? && record.identity.target.Some? {
          ExecuteCancel(record, session);
        }
      }
    }

    /** What the child answers to a session creation. */
    method CreationEvent(op: Id, e: Event)
      requires Valid() && Housed()
      requires (e.CreateReply? || e.CreateReject? || e.CreateTimeout? || e.CreateError?) && op == e.op
      modifies this`current, this`available, this`lostBy, this`calls, this`transportAlive, this`abortAttempted,
        first`quarantined, first`collectors, first`tasks, first`registered, first`lock, first`reservations,
        first`released,
        first.SessionObjects(), first.ledger.Objects()
      ensures Valid()
      ensures current == old(current) || fresh(current)
      ensures View() == Next(old(View()), e)
    {
      hide View, Valid, Housed, Footprint, Stands, Prompting, CreateReplied, CreateRejected, CreateTimedOut,
        CreateRaised;
      Placed(op);
      if !Stands(op, AwaitingCreate) {
        return;
      }
      var record := first.ledger.records[op];
      var session := first.sessions[record.identity.sessionId];
      match e {
        case CreateReply(_, backend, model) => CreateAnswered(record, session, backend, model);
        case CreateReject(_) => CreateConflicts(record, session);
        case CreateTimeout(_) => CreateUncertain(record, session);
        case CreateError(_) => CreateFails(record, session);
      }
    }

    /** A prompt resumes with what its collector ended with. */
    method SeeCollector(op: Id)
      requires Valid() && Housed()
      modifies this`current, this`available, this`lostBy, this`calls, this`transportAlive, this`abortAttempted,
        first`quarantined, first`collectors, first`tasks, first`registered, first`lock, first`reservations,
        first`released,
        first.SessionObjects(), first.ledger.Objects()
      ensures Valid()
      ensures current == old(current) || fresh(current)
      ensures View() == Next(old(View()), CollectorSeen(op))
    {
      hide View, Valid, Housed, Footprint, Stands, Prompting, PromptResumes, DeadlineResumes;
      Placed(op);
      if op !in first.collectors || !first.collectors[op].Ended? || op !in first.ledger.records {
        return;
      }
      var record := first.ledger.records[op];
      var session := first.sessions[record.identity.sessionId];
      if Stands(op, AwaitingCollector) && Prompting(op) {
        ResumePrompt(record, session, first.collectors[op].outcome);
      } else if Stands(op, AwaitingDeadlineGrace) {
        ResumeDeadline(record, session, first.collectors[op].outcome);
      }
    }

    /** The drain of a cancellation's notification ends. */
    method SendEnds(op: Id, succeeds: bool)
      requires Valid() && Housed()
      modifies this`current, this`available, this`lostBy, this`calls, this`transportAlive, this`abortAttempted,
        first`quarantined, first`collectors, first`tasks, first`registered, first`lock, first`reservations,
        first`released,
        first.SessionObjects(), first.ledger.Objects()
      ensures Valid()
      ensures current == old(current) || fresh(current)
      ensures View() == Next(old(View()), if succeeds then SendSucceeds(op) else SendFails(op))
    {
      hide View, Valid, Housed, Footprint, Stands, Prompting, DeadlineCancelFailed, CancelSendFails;
      Placed(op);
      if op !in first.ledger.records {
        return;
      }
      var record := first.ledger.records[op];
      var session := first.sessions[record.identity.sessionId];
      if Stands(op, SendingDeadlineCancel) {
        if succeeds {
          SetTask(op, AwaitingDeadlineGrace);
        } else {
          DeadlineCancelRaises(record, session);
        }
      } else if Stands(op, SendingCancel) {
        if succeeds {
          SetTask(op, AwaitingTarget);
        } else if record.identity.target.Some? {
          CancelSendRaises(record, session);
        }
      }
    }

    /** The execution timeout of a prompt fires. */
    method DeadlineEvent(op: Id)
      requires Valid() && Housed()
      modifies this`calls, first`tasks, first.ledger.Objects()
      ensures Valid()
      ensures View() == Next(old(View()), Deadline(op))
    {
      hide View, Valid, Housed, Footprint, Stands, Prompting, DeadlineFires;
      Placed(op);
      if Stands(op, AwaitingCollector) {
        var record := first.ledger.records[op];
        SettleDeadline(record, first.sessions[record.identity.sessionId]);
      }
    }

    /** A grace period runs out. */
    method GraceEvent(op: Id)
      requires Valid() && Housed()
      modifies this`current, this`available, this`lostBy, this`calls, this`transportAlive, this`abortAttempted,
        first`quarantined, first`collectors, first`tasks, first`registered, first`lock, first`reservations,
        first`released,
        first.SessionObjects(), first.ledger.Objects()
      ensures Valid()
      ensures current == old(current) || fresh(current)
      ensures View() == Next(old(View()), GraceExpires(op))
    {
      hide View, Valid, Next, Housed, Footprint, Stands, Prompting, DeadlineGraceExpires, CancelGraceExpires;
      Placed(op);
      GraceEvents(View(), op);
      if op !in first.ledger.records {
        return;
      }
      var record := first.ledger.records[op];
      var session := first.sessions[record.identity.sessionId];
      if Stands(op, AwaitingDeadlineGrace) {
        DeadlineGraceEnds(record, session);
      } else if Stands(op, AwaitingTarget) && record.identity.target.Some? {
        CancelGraceEnds(record, session, record.identity.target.value);
      }
    }

    /** A cancelled collector has been reaped. */
    method ReapCollector(op: Id)
      requires Valid() && Housed()
      modifies this`current, this`available, this`lostBy, this`calls, this`transportAlive, this`abortAttempted,
        first`quarantined, first`collectors, first`tasks, first`registered, first`lock, first`reservations,
        first`released,
        first.SessionObjects(), first.ledger.Objects()
      ensures Valid()
      ensures current == old(current) || fresh(current)
      ensures View() == Next(old(View()), Reaped(op))
    {
      hide View, Valid, Next, Housed, Footprint, Stands, Prompting, Quarantine, ServiceModel.QuarantineSession;
      Placed(op);
      ReapedEvents(View(), op);
      if op !in first.ledger.records {
        return;
      }
      var record := first.ledger.records[op];
      var session := first.sessions[record.identity.sessionId];
      if Stands(op, ReapingCollector) && op in first.collectors && first.collectors[op].Ended? {
        QuarantineUncertain(op, InDoubtAs(op, DeadlineSettlementUnknown));
      } else if Stands(op, ReapingTarget) && record.identity.target.Some? {
        var target := record.identity.target.value;
        if target in first.collectors && first.collectors[target].Ended? {
          QuarantineSession(record, session, CancelDeferred(op, target));
        }
      }
    }

    /** A cancellation finds its target settled. */
    method SeeTarget(op: Id)
      requires Valid() && Housed()
      modifies this`current, this`available, this`lostBy, this`calls, this`transportAlive, this`abortAttempted,
        first`quarantined, first`collectors, first`tasks, first`registered, first`lock, first`reservations,
        first`released,
        first.SessionObjects(), first.ledger.Objects()
      ensures Valid()
      ensures current == old(current)
      ensures View() == Next(old(View()), TargetSeen(op))
    {
      hide View, Valid, Housed, Footprint, Stands, Prompting, TargetSettled;
      Placed(op);
      if !Stands(op, AwaitingTarget) {
        return;
      }
      var record := first.ledger.records[op];
      var session := first.sessions[record.identity.sessionId];
      if record.identity.target.Some? { Placed(record.identity.target.value); }
      if record.identity.target.None? || record.identity.target.value !in first.ledger.records {
        return;
      }
      var target := first.ledger.records[record.identity.target.value];
      if target.state.Terminal() {
        TargetDone(record, session, target);
      }
    }

    /** The abort is called, or its outcome publishes what was deferred and the task ends. */
    method QuarantineEvent(op: Id, e: Event)
      requires Valid() && Housed() && (e == Abort(op) || e == PublishNow(op))
      modifies this`current, this`available, this`lostBy, this`calls, this`transportAlive, this`abortAttempted,
        first`quarantined, first`collectors, first`tasks, first`registered, first`lock, first`reservations,
        first`released,
        first.SessionObjects(), first.ledger.Objects()
      ensures Valid()
      ensures current == old(current)
      ensures View() == Next(old(View()), e)
    {
      hide View, Valid, Next, Housed, Footprint, Stands, Prompting, Finish, Publish, AbortChild;
      Placed(op);
      AfterLossEvents(View(), op);
      if op !in first.ledger.records || op !in first.tasks {
        return;
      }
      var record := first.ledger.records[op];
      var session := first.sessions[record.identity.sessionId];
      if e.Abort? && first.tasks[op].Quarantining? {
        AbortClient(op, first.tasks[op].deferred);
      } else if e.PublishNow? && first.tasks[op].Aborting? {
        PublishKeeps(View(), op, first.tasks[op].deferred);
        PublishAll(first.tasks[op].deferred);
        if Prompting(op) {
          FinishPrompt(record, session);
        } else {
          SetTask(op, Finished);
        }
      }
    }

    /** An admission. */
    method Admit(e: Event)
      requires Valid() && Housed() && (e.DoCreate? || e.DoPrompt? || e.DoCancel? || e.DoRetire?)
      modifies Footprint()
      ensures Valid()
      ensures fresh(Footprint() - old(Footprint()))
      ensures View() == Next(old(View()), e)
    {
      hide View, Valid, Housed;
      match e {
        case DoCreate(req) =>
          if req.CreateSession? {
            var reply := AdmitCreate(req);
          }
        case DoPrompt(sid, body) =>
          if ValidLayers(body) {
            var reply := AdmitPrompt(sid, body);
          }
        case DoCancel(req) =>
          if req.Cancel? {
            var reply := AdmitCancel(req);
          }
        case DoRetire(req) =>
          if req.Retire? {
            var reply := AdmitRetire(req);
          }
      }
    }

    /**
     What happens outside the tasks: a collector ends, the owner reports a loss, the transport dies;
     and a task unwinds.
     */
    method OtherEvent(e: Event)
      requires Valid() && Housed() && (e.CollectorEnds? || e.UnwindNow? || e.OwnerReportsLoss? || e.TransportDies?)
      modifies this`current, this`available, this`lostBy, this`calls, this`transportAlive, this`abortAttempted,
        first`quarantined, first`collectors, first`tasks, first`registered, first`lock, first`reservations,
        first`released,
        first.SessionObjects(), first.ledger.Objects()
      ensures Valid()
      ensures current == old(current) || fresh(current)
      ensures View() == Next(old(View()), e)
    {
      hide View, Valid, Housed, MarkLost;
      match e {
        case CollectorEnds(op, outcome) => EndCollector(op, outcome);
        case UnwindNow(op) => UnwindPrompt(op);
        case OwnerReportsLoss => MarkGenerationLost(None, {});
        case TransportDies => DropTransport();
      }
    }

    method DropTransport()
      requires Valid()
      modifies this`transportAlive
      ensures Valid()
      ensures View() == old(View()).(transportAlive := false)
    {
      transportAlive := false;
    }

    method SetCollector(op: Id, c: Collector)
      requires Valid()
      modifies first`collectors
      ensures Valid()
      ensures View() == old(View()).(collectors := old(View()).collectors[op := c])
    {
      first.collectors := first.collectors[op := c];
    }

    method EndCollector(op: Id, outcome: CollectorOutcome)
      requires Valid()
      modifies first`collectors
      ensures Valid()
      ensures View() == Next(old(View()), CollectorEnds(op, outcome))
    {
      hide View, Valid;
      KnownFields();
      if op in first.collectors && first.collectors[op].Live? &&
        (outcome.WasCancelled? ==> first.collectors[op].cancelRequested) {
        SetCollector(op, Ended(outcome));
      }
    }

    method UnwindPrompt(op: Id)
      requires Valid() && Housed()
      modifies first`tasks, first`registered, first`lock, first`reservations, first`released, first.SessionObjects()
      ensures Valid()
      ensures View() == Next(old(View()), UnwindNow(op))
    {
      hide View, Valid, Housed, Finish;
      Placed(op);
      if Stands(op, Unwinding) {
        FinishPrompt(first.ledger.records[op], first.sessions[first.ledger.records[op].identity.sessionId]);
      }
    }

    /** An event of a task that is not an admission. */
    method TaskEvent(e: Event)
      requires Valid() && Housed() && !(e.DoCreate? || e.DoPrompt? || e.DoCancel? || e.DoRetire?)
      modifies this`current, this`available, this`lostBy, this`calls, this`transportAlive, this`abortAttempted,
        first`quarantined, first`collectors, first`tasks, first`registered, first`lock, first`reservations,
        first`released,
        first.SessionObjects(), first.ledger.Objects()
      ensures Valid()
      ensures current == old(current) || fresh(current)
      ensures View() == Next(old(View()), e)
    {
      hide View, Valid, Housed, Next;
      match e {
        case TaskRuns(op) => RunTask(op);
        case CreateReply(op, _, _) => CreationEvent(op, e);
        case CreateReject(op) => CreationEvent(op, e);
        case CreateTimeout(op) => CreationEvent(op, e);
        case CreateError(op) => CreationEvent(op, e);
        case CollectorSeen(op) => SeeCollector(op);
        case Deadline(op) => DeadlineEvent(op);
        case GraceExpires(op) => GraceEvent(op);
        case SendSucceeds(op) => SendEnds(op, true);
        case SendFails(op) => SendEnds(op, false);
        case Reaped(op) => ReapCollector(op);
        case TargetSeen(op) => SeeTarget(op);
        case Abort(op) => QuarantineEvent(op, e);
        case PublishNow(op) => QuarantineEvent(op, e);
        case CollectorEnds(_, _) => OtherEvent(e);
        case UnwindNow(_) => OtherEvent(e);
        case OwnerReportsLoss => OtherEvent(e);
        case TransportDies => OtherEvent(e);
      }
    }

    lemma Sound(e: Event)
      requires Valid() && ServiceInvariant.Inv(View())
      ensures Housed() && ServiceInvariant.Inv(Next(View(), e))
    {
      forall op | op in first.ledger.records ensures first.ledger.records[op].identity.sessionId in first.sessions {
        assert op in View().records && ServiceInvariant.RecordShaped(View(), op);
      }
      hide ServiceInvariant.Inv;
      ServiceRuns.NextKeeps(View(), e);
    }

    /** One event, done by the objects. */
    method Step(e: Event)
      requires Valid() && ServiceInvariant.Inv(View())
      modifies Footprint()
      ensures Valid() && ServiceInvariant.Inv(View())
      ensures fresh(Footprint() - old(Footprint()))
      ensures View() == Next(old(View()), e)
    {
      hide View, Valid, Housed, Next, ServiceInvariant.Inv;
      Sound(e);
      if e.DoCreate? || e.DoPrompt? || e.DoCancel? || e.DoRetire? {
        Admit(e);
      } else {
        TaskEvent(e);
      }
    }

    /** Any sequence of events: the objects run as the transition system does. */
    method Drive(events: seq<Event>)
      requires Valid() && ServiceInvariant.Inv(View())
      modifies Footprint()
      ensures Valid() && ServiceInvariant.Inv(View())
      ensures forall o :: o in Footprint() && o !in old(Footprint()) ==> fresh(o)
      ensures View() == Run(old(View()), events)
      decreases |events|
    {
      hide View, Valid, Footprint, Next, ServiceInvariant.Inv;
      if events != [] {
        ghost var before := Footprint();
        Step(events[0]);
        ghost var between := Footprint();
        label mid:
        Drive(events[1..]);
        forall o | o in Footprint() && o !in before ensures fresh(o) {
          if o !in between { assert fresh@mid(o); } else { assert o in between - before; }
        }
      }
    }
  }

  lemma {:induction false} PublishedKeys(records: map<Id, Record>, deferred: seq<Settlement>)
    ensures Publish(records, deferred).Keys == records.Keys
    ensures forall op :: op in records ==> Publish(records, deferred)[op].identity == records[op].identity
    decreases |deferred|
  {
    if deferred != [] {
      var d := deferred[0];
      var published :=
        if d.op in records && d.state.Terminal()
        then records[d.op := Settled(records[d.op], d.state, d.result, d.error)]
        else records;
      PublishedKeys(published, deferred[1..]);
    }
  }

  lemma AfterLossEvents(s: State, op: Id)
    ensures Next(s, Abort(op)) ==
      if Located(s, op) && s.tasks[op].Quarantining? then AbortChild(s, op, s.tasks[op].deferred) else s
    ensures Next(s, PublishNow(op)) ==
      if Located(s, op) && s.tasks[op].Aborting? then PublishDeferred(s, op, s.tasks[op].deferred) else s
  {
    hide AbortChild, PublishDeferred;
  }

  lemma GraceEvents(s: State, op: Id)
    ensures Next(s, GraceExpires(op)) ==
      if At(s, op, AwaitingDeadlineGrace) then DeadlineGraceExpires(s, op)
      else if At(s, op, AwaitingTarget) && TargetOf(s, op).Some? then CancelGraceExpires(s, op, TargetOf(s, op).value)
      else s
  {
    hide DeadlineGraceExpires, CancelGraceExpires;
  }

  lemma ReapedEvents(s: State, op: Id)
    ensures Next(s, Reaped(op)) ==
      if At(s, op, ReapingCollector) && CollectorEnded(s, op) then CollectorReaped(s, op)
      else if At(s, op, ReapingTarget) && TargetOf(s, op).Some? && CollectorEnded(s, TargetOf(s, op).value)
      then TargetReaped(s, op, TargetOf(s, op).value)
      else s
  {
    hide CollectorReaped, TargetReaped;
  }

  lemma PublishKeeps(s: State, op: Id, deferred: seq<Settlement>)
    requires Located(s, op)
    ensures var t := s.(records := Publish(s.records, deferred));
      Located(t, op) && (IsPrompt(t, op) <==> IsPrompt(s, op))
  {
    PublishedKeys(s.records, deferred);
  }

  /** What a cancellation does once it is in the ledger does not depend on when it got there. */
  lemma CancellationJoins(s: State, op: Id, identity: Identity, target: Id, sid: Id)
    requires target in s.records && sid in s.sessions && op != target
    ensures var t := CancellationStarted(WithRecord(s, op, NewRecord(identity)), op, identity, target, sid);
      var r := s.records[target];
      t == if r.state.Accepted? || r.state.Queued? then
             WithRecord(PreDispatchCancelled(s, target, sid), op,
                        Settled(NewRecord(identity), Completed, Some(CancelReport(Cancelled, false)), None))
           else if r.state.Terminal() then
             WithRecord(s, op, Settled(NewRecord(identity), Completed, Some(CancelReport(r.state, false)), None))
           else
             WithTask(WithRecord(WithRecord(s, target, r.(state := Cancelling)), op, NewRecord(identity)), op,
               Scheduled)
  {
    var r := s.records[target];
    var admitted := NewRecord(identity);
    Interchanged(s.records, op, admitted, target, r.(state := Cancelling));
    if r.state.Accepted? || r.state.Queued? {
      var done := Settled(admitted, Completed, Some(CancelReport(Cancelled, false)), None);
      PreDispatchJoins(s, op, admitted, done, target, sid);
      hide PreDispatchCancelled;
    } else if r.state.Terminal() {
      Overwritten(s.records, op, admitted, Settled(admitted, Completed, Some(CancelReport(r.state, false)), None));
    }
  }

  lemma Interchanged(records: map<Id, Record>, a: Id, r: Record, b: Id, q: Record)
    requires a != b
    ensures records[a := r][b := q] == records[b := q][a := r]
  {
  }

  lemma PreDispatchJoins(s: State, op: Id, admitted: Record, done: Record, target: Id, sid: Id)
    requires target in s.records && sid in s.sessions && op != target
    ensures WithRecord(PreDispatchCancelled(WithRecord(s, op, admitted), target, sid), op, done)
         == WithRecord(PreDispatchCancelled(s, target, sid), op, done)
  {
    var settled := Settled(s.records[target], Cancelled, Some(CancelledPreDispatch), None);
    Interchanged(s.records, op, admitted, target, settled);
    Overwritten(s.records[target := settled], op, admitted, done);
  }

  /** A cancellation, given that its target's session exists: the ledger, and then what its target's state calls for. */
  lemma CancelParts(s: State, req: Request)
    requires req.Cancel? && req.target in s.records && SessionOf(s, req.target) in s.sessions
    ensures var op, target := req.pin.operationId, req.target;
      var sid := SessionOf(s, target);
      var identity := Identity(req, CancelKind, sid, None, Some(target));
      ServiceModel.AdmitCancel(s, req) ==
        if !PinHolds(s, req.pin) then (s, Failure(GenerationMismatch))
        else if !s.records[target].identity.kind.PromptKind? then (s, Failure(Conflict))
        else
          match LedgerAdmit(s.records, s.config.maxOperations, op, identity)
          case Failure(e) => (s, Failure(e))
          case Success(false) => (s, Success(Admission(op, false)))
          case Success(true) =>
            (CancellationStarted(WithRecord(s, op, NewRecord(identity)), op, identity, target, sid),
              Success(Admission(op, true)))
  {
    var identity := Identity(req, CancelKind, SessionOf(s, req.target), None, Some(req.target));
    if req.pin.operationId !in s.records {
      CancellationJoins(s, req.pin.operationId, identity, req.target, SessionOf(s, req.target));
      hide CancellationStarted;
    }
  }

  /** The target of a cancellation that comes before its dispatch. */
  function PreDispatchCancelled(s: State, target: Id, sid: Id): State
    requires target in s.records && sid in s.sessions
  {
    Release(
      s.(records := s.records[target := Settled(s.records[target], Cancelled, Some(CancelledPreDispatch), None)],
         sessions := s.sessions[sid := s.sessions[sid].(active := None, state := Ready)]),
      target)
  }

  /** What a recorded cancellation does, by the state of its target. */
  function CancellationStarted(s: State, op: Id, identity: Identity, target: Id, sid: Id): State
    requires target in s.records && sid in s.sessions
  {
    var r := s.records[target];
    if r.state.Accepted? || r.state.Queued? then
      WithRecord(PreDispatchCancelled(s, target, sid), op,
                 Settled(NewRecord(identity), Completed, Some(CancelReport(Cancelled, false)), None))
    else if r.state.Terminal() then
      WithRecord(s, op, Settled(NewRecord(identity), Completed, Some(CancelReport(r.state, false)), None))
    else
      WithTask(WithRecord(s, target, r.(state := Cancelling)), op, Scheduled)
  }

  /** Nothing but the ledger can refuse a new prompt: its session is free for it, and there is room to wait. */
  predicate PromptAdmissible(s: State, sid: Id, r: PromptRequest)
    requires ValidLayers(r)
  {
    && sid in s.sessions
    && s.sessions[sid].state.Ready?
    && s.sessions[sid].active.None?
    && LifetimeAllows(s.sessions[sid], r)
    && s.reservations <= s.config.maxQueuedPrompts
  }

  predicate PromptIsNew(s: State, r: PromptRequest)
    requires ValidLayers(r)
  {
    PinHolds(s, r.pin) && WithinPromptLimits(s.config, r) && r.pin.operationId !in s.records
  }

  /** The identity that a prompt is recorded with. */
  function PromptIdentity(sid: Id, r: PromptRequest): Identity {
    Identity(Prompt(r), PromptKind, sid, Some(r.invocationId), None)
  }

  lemma AdmissiblePromptStarts(s: State, sid: Id, r: PromptRequest)
    requires ValidLayers(r) && PromptIsNew(s, r) && PromptAdmissible(s, sid, r)
    ensures var op := r.pin.operationId; var identity := PromptIdentity(sid, r);
      ServiceModel.AdmitPrompt(s, sid, r) ==
        match LedgerAdmit(s.records, s.config.maxOperations, op, identity)
        case Failure(e) => (s, Failure(e))
        case Success(created) => (StartedPrompt(s, sid, op, identity), Success(Admission(op, created)))
  {
  }

  lemma OldPromptAnswered(s: State, sid: Id, r: PromptRequest)
    requires ValidLayers(r) && !PromptIsNew(s, r)
    ensures ServiceModel.AdmitPrompt(s, sid, r) ==
      (s, if !PinHolds(s, r.pin) then Failure(GenerationMismatch)
          else if !WithinPromptLimits(s.config, r) then Failure(LimitExceeded)
          else if s.records[r.pin.operationId].identity != PromptIdentity(sid, r) then Failure(Conflict)
          else Success(Admission(r.pin.operationId, false)))
  {
  }
}
