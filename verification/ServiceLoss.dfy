/** Losing the generation, and every event after the loss, keeps the invariant. */
module ServiceLoss {
  import opened Wrappers
  import opened DirectProtocol
  import opened DirectState
  import opened ServiceModel
  import opened ServiceInvariant
  import opened ServiceLocal
  import opened ServiceEvents

  /** The state after `mark_generation_lost`, whose caller, if it is a task, stands at `t` from then on. */
  function Lose(s: State, current: Option<Id>, defer: set<Id>, t: Task): State {
    var m := MarkLost(s, current, defer);
    if current.Some? then WithTask(m, current.value, t) else m
  }

  /** Every live collector is registered, so the loss cancels it, or was cancelled before. */
  ghost predicate Covered(s: State) {
    forall op {:trigger op in s.collectors} :: op in s.collectors && s.collectors[op].Live? ==>
      op in s.registered || s.collectors[op] == Live(true)
  }

  /** What a task has to satisfy when it loses the generation. */
  ghost predicate MayLose(s: State, current: Option<Id>, defer: set<Id>, t: Task) {
    && !s.quarantined
    && (current.None? ==> defer == {})
    && (current.Some? ==>
         && current.value in s.tasks
         && current.value in s.records
         && !s.tasks[current.value].Finished?
         && !t.Aborting?
         && !t.Scheduled?
         && TaskFits(s.records[current.value].identity.kind, t)
         && if t.Quarantining? then
              SettlementsFit(s, current.value, t.deferred) && defer == Ops(t.deferred)
            else
              (t.Unwinding? || t.Finished?) && defer == {})
  }

  // The loss, operation by operation and session by session.

  ghost predicate RecordsLost(s: State, s': State, defer: set<Id>) {
    && s'.records.Keys == s.records.Keys
    && forall op {:trigger op in s.records} :: op in s.records ==>
         op in s'.records && s'.records[op] == LostRecord(s.records[op], op in defer)
  }

  ghost predicate SessionsLost(s: State, s': State) {
    && s'.sessions.Keys == s.sessions.Keys
    && forall sid {:trigger sid in s.sessions} :: sid in s.sessions ==>
         && sid in s'.sessions
         && s'.sessions[sid] == LostSession(s.sessions[sid])
  }

  ghost predicate TasksLost(s: State, s': State, current: Option<Id>, t: Task) {
    && s'.tasks.Keys == s.tasks.Keys
    && forall op {:trigger op in s.tasks} :: op in s.tasks ==>
         && op in s'.tasks
         && s'.tasks[op] == if Some(op) == current then t else CancelledTask(s.tasks[op], IsPrompt(s, op))
  }

  ghost predicate CollectorsLost(s: State, s': State) {
    && s'.collectors.Keys == s.collectors.Keys
    && forall op {:trigger op in s.collectors} :: op in s.collectors ==>
         && op in s'.collectors
         && s'.collectors[op] == if op in s.registered && s.collectors[op].Live? then Live(true) else s.collectors[op]
  }

  ghost predicate LossOf(s: State, s': State, current: Option<Id>, defer: set<Id>, t: Task) {
    && s'.config == s.config && s'.reservations == s.reservations && s'.released == s.released
    && s'.calls == s.calls && s'.transportAlive == s.transportAlive && s'.abortAttempted == s.abortAttempted
    && s'.quarantined && s'.lostBy == current && s'.generation == s.generation + 1 && s'.registered == {}
    && RecordsLost(s, s', defer) && SessionsLost(s, s') && TasksLost(s, s', current, t) && CollectorsLost(s, s')
  }

  lemma LoseIsLoss(s: State, current: Option<Id>, defer: set<Id>, t: Task)
    requires MayLose(s, current, defer, t)
    ensures LossOf(s, Lose(s, current, defer, t), current, defer, t)
  {
    LoseRecords(s, current, defer, t);
    LoseSessions(s, current, defer, t);
    LoseTasks(s, current, defer, t);
    LoseCollectors(s, current, defer, t);
    hide RecordsLost, SessionsLost, TasksLost, CollectorsLost;
  }

  lemma LoseRecords(s: State, current: Option<Id>, defer: set<Id>, t: Task)
    requires !s.quarantined
    ensures RecordsLost(s, Lose(s, current, defer, t), defer)
  {
    assert Lose(s, current, defer, t).records.Keys == s.records.Keys;
  }

  lemma LoseSessions(s: State, current: Option<Id>, defer: set<Id>, t: Task)
    requires !s.quarantined
    ensures SessionsLost(s, Lose(s, current, defer, t))
  {
    hide LostRecord, LostSession;
    assert Lose(s, current, defer, t).sessions.Keys == s.sessions.Keys;
  }

  lemma LoseTasks(s: State, current: Option<Id>, defer: set<Id>, t: Task)
    requires !s.quarantined && (current.Some? ==> current.value in s.tasks)
    ensures TasksLost(s, Lose(s, current, defer, t), current, t)
  {
    hide LostRecord, LostSession;
    assert Lose(s, current, defer, t).tasks.Keys == s.tasks.Keys;
  }

  lemma LoseCollectors(s: State, current: Option<Id>, defer: set<Id>, t: Task)
    requires !s.quarantined
    ensures CollectorsLost(s, Lose(s, current, defer, t))
  {
    hide LostRecord, LostSession;
    assert Lose(s, current, defer, t).collectors.Keys == s.collectors.Keys;
  }

  lemma LoseRecordShaped(s: State, s': State, defer: set<Id>, o: Id)
    requires Shape(s) && RecordsLost(s, s', defer) && o in s.records
    requires s'.sessions.Keys == s.sessions.Keys && s'.tasks.Keys == s.tasks.Keys
    ensures o in s'.records && RecordShaped(s', o)
  {
    assert RecordShaped(s, o);
  }

  lemma LoseTasksFit(s: State, s': State, current: Option<Id>, defer: set<Id>, t: Task)
    requires Shape(s) && MayLose(s, current, defer, t) && RecordsLost(s, s', defer) && TasksLost(s, s', current, t)
    ensures forall op {:trigger op in s'.tasks} :: op in s'.tasks ==>
      op in s'.records && TaskFits(s'.records[op].identity.kind, s'.tasks[op])
  {
    hide LostRecord, RecordShaped;
    forall op | op in s'.tasks ensures op in s'.records && TaskFits(s'.records[op].identity.kind, s'.tasks[op]) {
      assert op in s.tasks && op in s.records;
      CancelledFits(s.tasks[op], s.records[op].identity.kind, IsPrompt(s, op));
    }
  }

  lemma CancelledFits(t: Task, kind: OperationKind, isPrompt: bool)
    requires isPrompt ==> kind.PromptKind?
    ensures TaskFits(kind, CancelledTask(t, isPrompt))
  {
  }

  lemma LoseCreatesUnique(s: State, s': State, defer: set<Id>)
    requires Shape(s) && RecordsLost(s, s', defer)
    ensures forall a, b {:trigger a in s'.records, b in s'.records} ::
      a in s'.records && b in s'.records && CreateSameSession(s', a, b) ==> a == b
  {
    forall a, b | a in s'.records && b in s'.records && CreateSameSession(s', a, b) ensures a == b
    {
      assert a in s.records && b in s.records;
    }
  }

  lemma LoseShape(s: State, s': State, current: Option<Id>, defer: set<Id>, t: Task)
    requires Shape(s) && MayLose(s, current, defer, t) && LossOf(s, s', current, defer, t)
    ensures Shape(s')
  {
    hide RecordShaped, MayLose;
    LoseReferences(s, s', defer);
    LoseTasksFit(s, s', current, defer, t);
    LoseCreatesUnique(s, s', defer);
  }

  lemma LoseReferences(s: State, s': State, defer: set<Id>)
    requires Shape(s) && RecordsLost(s, s', defer) && CollectorsLost(s, s')
    requires s'.sessions.Keys == s.sessions.Keys && s'.tasks.Keys == s.tasks.Keys
    ensures forall o {:trigger o in s'.records} :: o in s'.records ==> RecordShaped(s', o)
    ensures forall o {:trigger o in s'.collectors} :: o in s'.collectors ==>
      o in s'.records && s'.records[o].identity.kind.PromptKind?
  {
    hide RecordShaped;
    forall o | o in s'.records ensures RecordShaped(s', o) {
      LoseRecordShaped(s, s', defer, o);
    }
    forall o | o in s'.collectors ensures o in s'.records && s'.records[o].identity.kind.PromptKind? {
      assert o in s.collectors;
    }
  }

  lemma LoseAccounts(s: State, s': State, current: Option<Id>, defer: set<Id>, t: Task)
    requires Reserved(s) && RecordsLost(s, s', defer) && TasksLost(s, s', current, t)
    requires s'.config == s.config && s'.released == s.released && s'.reservations == s.reservations
    requires current.Some? && current.value in s.released ==>
      current.value in s.records && s.records[current.value].state.Terminal()
    ensures Reserved(s')
  {
    assert Prompts(s') == Prompts(s);
    forall o | o in s'.released && o in s'.records ensures ReleasedFor(s', o) {
      assert o in s.records && ReleasedFor(s, o);
    }
  }

  lemma LoseBounded(s: State, s': State, current: Option<Id>, defer: set<Id>, t: Task)
    requires Bounded(s) && LossOf(s, s', current, defer, t)
    ensures Bounded(s')
  {
    assert |s'.records| == |s'.records.Keys| && |s.records| == |s.records.Keys|;
    assert |s'.sessions| == |s'.sessions.Keys| && |s.sessions| == |s.sessions.Keys|;
  }

  lemma LoseCoherent(s: State, s': State, current: Option<Id>, defer: set<Id>, t: Task)
    requires Coherent(s) && LossOf(s, s', current, defer, t)
    ensures Coherent(s')
  {
  }

  lemma LoseCalls(s: State, s': State, current: Option<Id>, defer: set<Id>, t: Task)
    requires CallsOnce(s) && MayLose(s, current, defer, t)
    requires s'.calls == s.calls && RecordsLost(s, s', defer) && TasksLost(s, s', current, t) && CollectorsLost(s, s')
    ensures CallsOnce(s')
  {
    forall i | 0 <= i < |s'.calls| ensures CallGrounded(s', s'.calls[i]) {
      assert CallGrounded(s, s.calls[i]);
    }
  }

  lemma LoseReports(s: State, s': State, current: Option<Id>, defer: set<Id>, t: Task)
    requires Reports(s) && LossOf(s, s', current, defer, t)
    ensures Reports(s')
  {
    forall o | o in s'.records ensures ReportTrue(s', o) {
      assert ReportTrue(s, o);
    }
  }

  ghost predicate NoneDeferring(s: State) {
    forall op {:trigger op in s.tasks} :: op in s.tasks ==> !Deferring(s.tasks[op])
  }

  lemma LoseLost(s: State, s': State, current: Option<Id>, defer: set<Id>, t: Task)
    requires Shape(s) && Covered(s) && NoneDeferring(s)
    requires MayLose(s, current, defer, t) && LossOf(s, s', current, defer, t)
    ensures LostShape(s')
  {
    LoseTasksStop(s, s', current, defer, t);
    LoseRecordsStop(s, s', current, defer, t);
  }

  lemma LoseRecordsStop(s: State, s': State, current: Option<Id>, defer: set<Id>, t: Task)
    requires MayLose(s, current, defer, t) && s'.lostBy == current
    requires RecordsLost(s, s', defer) && TasksLost(s, s', current, t)
    ensures forall op {:trigger op in s'.records} :: op in s'.records ==>
      s'.records[op].state.Terminal() || Deferred(s', op)
  {
    forall op | op in s'.records ensures s'.records[op].state.Terminal() || Deferred(s', op) {
      assert op in s.records;
    }
  }

  lemma LoseTasksStop(s: State, s': State, current: Option<Id>, defer: set<Id>, t: Task)
    requires NoneDeferring(s) && MayLose(s, current, defer, t) && s'.lostBy == current
    requires RecordsLost(s, s', defer) && TasksLost(s, s', current, t)
    ensures forall op {:trigger op in s'.tasks} :: op in s'.tasks ==>
      && (s'.tasks[op].Finished? || s'.tasks[op].Unwinding? || (s'.lostBy == Some(op) && Deferring(s'.tasks[op])))
      && !s'.tasks[op].Aborting?
      && (Deferring(s'.tasks[op]) ==> SettlementsFit(s', op, s'.tasks[op].deferred))
  {
    if t.Quarantining? && current.Some? { SettlementsStillFit(s, s', defer, current.value, t.deferred); }
    forall op | op in s'.tasks
      ensures s'.tasks[op].Finished? || s'.tasks[op].Unwinding? || (Some(op) == current && s'.tasks[op] == t)
    {
      assert op in s.tasks;
    }
  }

  lemma SettlementsStillFit(s: State, s': State, defer: set<Id>, op: Id, deferred: seq<Settlement>)
    requires RecordsLost(s, s', defer) && SettlementsFit(s, op, deferred)
    ensures SettlementsFit(s', op, deferred)
  {
  }

  lemma LoseGrows(s: State, s': State, current: Option<Id>, defer: set<Id>, t: Task)
    requires MayLose(s, current, defer, t) && LossOf(s, s', current, defer, t)
    ensures Grows(s, s')
  {
    hide LostRecord, SettlementsFit, TaskFits, SessionCoherent;
  }

  lemma LoseKeeps(s: State, current: Option<Id>, defer: set<Id>, t: Task)
    requires Base(s) && Covered(s) && NoneDeferring(s) && MayLose(s, current, defer, t)
    requires current.Some? && current.value in s.released ==> s.records[current.value].state.Terminal()
    ensures Keeps(s, Lose(s, current, defer, t))
  {
    var s' := Lose(s, current, defer, t);
    LoseIsLoss(s, current, defer, t);
    LoseShape(s, s', current, defer, t);
    LoseAccounts(s, s', current, defer, t);
    LoseBounded(s, s', current, defer, t);
    LoseCoherent(s, s', current, defer, t);
    LoseCalls(s, s', current, defer, t);
    LoseReports(s, s', current, defer, t);
    LoseLost(s, s', current, defer, t);
    LoseGrows(s, s', current, defer, t);
  }

  // ----- the tasks that lose the generation -----

  /** The session of `op` may no longer be reusable, and `op` may have left the prompt lock. */
  ghost predicate Retouched(s: State, s1: State, op: Id) {
    && Located(s, op)
    && s1 == s.(sessions := s1.sessions, registered := s1.registered, lock := s1.lock)
    && (s1.sessions == s.sessions
        || s1.sessions == s.sessions[SessionOf(s, op) := s.sessions[SessionOf(s, op)].(state := NonReusable)])
    && (s1.registered == s.registered || (s1.registered == s.registered - {op} && CollectorEnded(s, op)))
  }

  lemma RetouchedShape(s: State, s1: State, op: Id)
    requires Shape(s) && Retouched(s, s1, op)
    ensures Shape(s1) && s1.sessions.Keys == s.sessions.Keys
  {
    assert s1.sessions.Keys == s.sessions.Keys;
    forall o | o in s1.records ensures RecordShaped(s1, o) {
      assert RecordShaped(s, o);
    }
  }

  lemma RetouchedBase(s: State, s1: State, op: Id)
    requires Inv(s) && !s.quarantined && Retouched(s, s1, op)
    ensures Base(s1)
  {
    RetouchedShape(s, s1, op);
    RetouchedCoherent(s, s1, op);
    RetouchedAccounts(s, s1, op);
    RetouchedReports(s, s1, op);
  }

  lemma RetouchedAccounts(s: State, s1: State, op: Id)
    requires Reserved(s) && Bounded(s) && Retouched(s, s1, op)
    ensures Reserved(s1) && Bounded(s1)
  {
    assert Prompts(s1) == Prompts(s);
    assert |s1.sessions| == |s1.sessions.Keys| && |s.sessions| == |s.sessions.Keys|;
    forall o | o in s1.released && o in s1.records ensures ReleasedFor(s1, o) {
      assert ReleasedFor(s, o);
    }
  }

  lemma RetouchedReports(s: State, s1: State, op: Id)
    requires Reports(s) && CallsOnce(s) && Retouched(s, s1, op)
    ensures Reports(s1) && CallsOnce(s1)
  {
    forall i | 0 <= i < |s1.calls| ensures CallGrounded(s1, s1.calls[i]) {
      assert CallGrounded(s, s.calls[i]);
    }
    forall o | o in s1.records ensures ReportTrue(s1, o) {
      assert ReportTrue(s, o);
    }
  }

  lemma RetouchedCoherent(s: State, s1: State, op: Id)
    requires Coherent(s) && Retouched(s, s1, op)
    ensures Coherent(s1)
  {
    forall o | o in s1.records && IsPrompt(s1, o) && SessionOf(s1, o) in s1.sessions
      ensures s1.sessions[SessionOf(s1, o)].backend.Some?
      ensures Fulfilled(s1.sessions[SessionOf(s1, o)], s1.records[o])
    {
      assert IsPrompt(s, o);
    }
  }

  lemma IntactTasks(s: State)
    requires Inv(s) && !s.quarantined
    ensures NoneDeferring(s) && Covered(s)
  {
    hide Inv;
    forall o | o in s.tasks ensures !Deferring(s.tasks[o]) {
      IntactTask(s, o);
    }
    IntactCollectors(s);
  }

  lemma IntactTask(s: State, op: Id)
    requires Inv(s) && !s.quarantined && op in s.tasks
    ensures !Deferring(s.tasks[op])
  {
    hide Inv;
    Facts(s, op);
  }

  lemma IntactCollectors(s: State)
    requires Inv(s) && !s.quarantined
    ensures Covered(s)
  {
  }

  lemma RetouchedLive(s: State, s1: State, op: Id)
    requires Covered(s) && NoneDeferring(s) && Retouched(s, s1, op)
    ensures Covered(s1) && NoneDeferring(s1)
  {
  }

  lemma RetouchedGrows(s: State, s1: State, op: Id)
    requires Retouched(s, s1, op) && !s.quarantined
    ensures Grows(s, s1)
  {
  }

  /** A task that is not done loses the generation and goes on at `t`. */
  lemma ReleasedSettled(s: State, op: Id)
    requires Inv(s) && Located(s, op) && !s.tasks[op].Finished?
    ensures op in s.released ==> s.records[op].state.Terminal()
  {
    assert op in s.released ==> ReleasedFor(s, op);
  }

  lemma LosingKeeps(s: State, s1: State, op: Id, defer: set<Id>, t: Task)
    requires Inv(s) && !s.quarantined && Retouched(s, s1, op) && !s.tasks[op].Finished?
    requires MayLose(s1, Some(op), defer, t)
    ensures Keeps(s, Lose(s1, Some(op), defer, t))
  {
    hide Inv, Base, Covered, NoneDeferring, Grows;
    RetouchedBase(s, s1, op);
    IntactTasks(s);
    RetouchedLive(s, s1, op);
    RetouchedGrows(s, s1, op);
    ReleasedSettled(s, op);
    LoseKeeps(s1, Some(op), defer, t);
    GrowsThrough(s, s1, Lose(s1, Some(op), defer, t));
  }

  lemma GrowsThrough(a: State, b: State, c: State)
    requires Grows(a, b) && Grows(b, c)
    ensures Grows(a, c)
  {
    forall op | op in a.records ensures op in c.records && RecordGrows(a.records[op], c.records[op]) {
      assert op in b.records && RecordGrows(a.records[op], b.records[op]);
    }
    forall sid | sid in a.sessions ensures sid in c.sessions && SessionGrows(a.sessions[sid], c.sessions[sid]) {
      assert sid in b.sessions && SessionGrows(a.sessions[sid], b.sessions[sid]);
    }
  }

  lemma QuarantineKeeps(s: State, s1: State, op: Id, deferred: seq<Settlement>)
    requires Inv(s) && !s.quarantined && Retouched(s, s1, op) && !s.tasks[op].Finished?
    requires SettlementsFit(s1, op, deferred)
    ensures Keeps(s, Quarantine(s1, op, deferred))
  {
    hide Inv, Keeps;
    assert Quarantine(s1, op, deferred) == Lose(s1, Some(op), Ops(deferred), Quarantining(deferred));
    LosingKeeps(s, s1, op, Ops(deferred), Quarantining(deferred));
  }

  lemma CreateTimedOutKeeps(s: State, op: Id)
    requires Inv(s) && !s.quarantined && At(s, op, AwaitingCreate)
    ensures Keeps(s, CreateTimedOut(s, op))
  {
    hide Inv, Keeps;
    Facts(s, op);
    QuarantineKeeps(s, WithSessionState(s, SessionOf(s, op), NonReusable), op, InDoubtAs(op, SessionCreationInDoubt));
  }

  lemma CreateRaisedKeeps(s: State, op: Id)
    requires Inv(s) && !s.quarantined && At(s, op, AwaitingCreate)
    ensures Keeps(s, CreateRaised(s, op))
  {
    hide Inv, Keeps;
    Facts(s, op);
    if s.transportAlive {
      QuarantineKeeps(s, WithSessionState(s, SessionOf(s, op), NonReusable), op, InDoubtAs(op, SessionCreationInDoubt));
    } else {
      LosingKeeps(s, s, op, {}, Finished);
    }
  }

  /** The state in which the exception handlers of a prompt run. */
  ghost predicate LeftLock(s: State, s1: State, op: Id) {
    && Located(s, op)
    && IsPrompt(s, op)
    && s1 == s.(registered := s1.registered, lock := s1.lock)
    && (s1.registered == s.registered || (s1.registered == s.registered - {op} && CollectorEnded(s, op)))
  }

  lemma PromptRaisedKeeps(s: State, s1: State, op: Id)
    requires Inv(s) && !s.quarantined && LeftLock(s, s1, op) && HoldsLock(s.tasks[op])
    ensures Keeps(s, PromptRaised(s1, op))
  {
    hide Inv, Keeps;
    Facts(s, op);
    if s.transportAlive {
      QuarantineKeeps(s, WithSessionState(s1, SessionOf(s, op), NonReusable), op, InDoubtAs(op, PromptInDoubt));
    } else {
      LosingKeeps(s, s1, op, {}, Unwinding);
    }
  }

  lemma OverflowUnsettledKeeps(s: State, op: Id)
    requires Inv(s) && !s.quarantined && Located(s, op) && IsPrompt(s, op) && HoldsLock(s.tasks[op]) &&
      CollectorEnded(s, op)
    ensures Keeps(s, PromptOverflowed(s, op, false))
  {
    hide Inv, Keeps;
    Facts(s, op);
    QuarantineKeeps(s, WithSessionState(LeaveLock(s, op), SessionOf(s, op), NonReusable), op,
                    [Settlement(op, InDoubt, Some(RetainedEvidence), Some(EvidenceLimitInDoubt))]);
  }

  lemma DeadlineUnsettledKeeps(s: State, op: Id, code: ErrorCode)
    requires Inv(s) && !s.quarantined && Located(s, op) && IsPrompt(s, op) && HoldsLock(s.tasks[op])
    requires !code.CancellationStopMismatch? && !code.ContinuityLost?
    ensures Keeps(s, Quarantine(s, op, InDoubtAs(op, code)))
  {
    hide Inv, Keeps;
    Facts(s, op);
    QuarantineKeeps(s, s, op, InDoubtAs(op, code));
  }

  lemma CancelUnsettledKeeps(s: State, op: Id, deferred: seq<Settlement>)
    requires Inv(s) && !s.quarantined && Located(s, op) && IsCancel(s, op) && !s.tasks[op].Finished?
    requires SettlementsFit(s, op, deferred)
    ensures Keeps(s, QuarantineSession(s, op, deferred))
  {
    hide Inv, Keeps;
    QuarantineKeeps(s, WithSessionState(s, SessionOf(s, op), NonReusable), op, deferred);
  }

  lemma OwnerLossKeeps(s: State)
    requires Inv(s) && !s.quarantined
    ensures Keeps(s, MarkLost(s, None, {}))
  {
    assert MarkLost(s, None, {}) == Lose(s, None, {}, Finished);
    IntactTasks(s);
    LoseKeeps(s, None, {}, Finished);
  }

  // ----- after the loss -----

  /** All that an event on `op` has to establish once the generation is lost. */
  ghost predicate LostAt(s: State, s': State, op: Id)
    requires Local(s, s', op)
  {
    var sid := SessionOf(s', op);
    && ShapedAt(s, s', op)
    && ReportTrue(s', op)
    && SessionCoherent(s'.sessions[sid])
    && (IsPrompt(s', op) ==> s'.sessions[sid].backend.Some?)
    && (IsPrompt(s', op) && s'.records[op].state.Completed? ==> op in s.records && s.records[op].state.Completed?)
    && s'.calls == s.calls
    && (s'.records[op].state.Terminal() || (op in s.records && s'.records[op] == s.records[op]))
    && (op in s'.collectors && s'.collectors[op].Live? ==> op in s.collectors && s'.collectors[op] == s.collectors[op])
    && ((s'.released == s.released && s'.reservations == s.reservations)
        || (IsPrompt(s', op) && ReleasedFor(s', op) && s'.released == s.released + {op}
            && s'.reservations == (if op in s.released then s.reservations else s.reservations - 1)))
  }

  lemma LostBaseLocal(s: State, s': State, op: Id)
    requires Inv(s) && Local(s, s', op) && op in s.records && LostAt(s, s', op)
    requires s'.tasks == s.tasks ||
      (op in s.tasks && op in s'.tasks && !s'.tasks[op].Scheduled? &&
        (s.tasks[op].Finished? ==> s'.tasks[op].Finished?))
    ensures Base(s') && Grows(s, s')
  {
    hide Shape, Reserved, Bounded, CallsOnce, Reports, LostShape, Intact, Grows, ReportTrue, RecordShaped;
    ShapeLocal(s, s', op);
    CoherentLocal(s, s', op);
    ReportsLocal(s, s', op);
    BoundedLocal(s, s', op);
    CallsKeptLocal(s, s', op);
    GrowsLocal(s, s', op);
    if s'.released == s.released && s'.reservations == s.reservations {
      ReservedKeptLocal(s, s', op);
    } else {
      ReservedReleasedLocal(s, s', op);
    }
  }

  /** The event leaves the task of `op` alone or ends it, and nothing was deferred by it. */
  lemma LostStepKeeps(s: State, s': State, op: Id)
    requires Inv(s) && s.quarantined && Local(s, s', op) && op in s.records && LostAt(s, s', op)
    requires s'.tasks == s.tasks || (op in s.tasks && !Deferring(s.tasks[op]) && s'.tasks == s.tasks[op := Finished])
    ensures Keeps(s, s')
  {
    LostBaseLocal(s, s', op);
    LostShapeLocal(s, s', op);
  }

  /** Every settlement is published, and the task that lost the generation ends. */
  lemma LostEndKeeps(s: State, s': State, op: Id)
    requires Inv(s) && s.quarantined && Local(s, s', op) && op in s.records && LostAt(s, s', op)
    requires AllTerminal(s) && s'.records[op] == s.records[op]
    requires op in s.tasks && s'.tasks == s.tasks[op := Finished] && s'.collectors == s.collectors
    ensures Keeps(s, s')
  {
    LostBaseLocal(s, s', op);
    AllTerminalShape(s, s', op);
  }

  lemma LostShapeLocal(s: State, s': State, op: Id)
    requires LostShape(s) && Local(s, s', op) && op in s.records
    requires s'.records[op].state.Terminal() || s'.records[op] == s.records[op]
    requires s'.tasks == s.tasks || (op in s.tasks && !Deferring(s.tasks[op]) && s'.tasks == s.tasks[op := Finished])
    requires op in s'.collectors && s'.collectors[op].Live? ==>
      op in s.collectors && s'.collectors[op] == s.collectors[op]
    ensures LostShape(s')
  {
    forall o | o in s'.records ensures s'.records[o].state.Terminal() || Deferred(s', o) {
      assert o in s.records;
    }
    forall o | o in s'.tasks && Deferring(s'.tasks[o]) ensures SettlementsFit(s', o, s'.tasks[o].deferred) {
      assert SettlementsFit(s, o, s.tasks[o].deferred);
    }
  }

  lemma LostCollectorEndsKeeps(s: State, op: Id, outcome: CollectorOutcome)
    requires Inv(s) && s.quarantined && op in s.collectors && s.collectors[op].Live?
    ensures Keeps(s, s.(collectors := s.collectors[op := Ended(outcome)]))
  {
    hide Keeps;
    hide Inv;
    LostCollectorAt(s, op, outcome);
    LostStepKeeps(s, s.(collectors := s.collectors[op := Ended(outcome)]), op);
  }

  lemma LostCollectorAt(s: State, op: Id, outcome: CollectorOutcome)
    requires Inv(s) && op in s.collectors && s.collectors[op].Live?
    ensures op in s.records
    ensures var s' := s.(collectors := s.collectors[op := Ended(outcome)]); Local(s, s', op) && LostAt(s, s', op)
  {
    hide Inv;
    LostCollectorLocated(s, op);
    LostFacts(s, op);
  }

  lemma LostCollectorLocated(s: State, op: Id)
    requires Inv(s) && op in s.collectors
    ensures op in s.records
  {
  }

  lemma LostFacts(s: State, op: Id)
    requires Inv(s) && op in s.records
    ensures RecordShaped(s, op) && ReportTrue(s, op) && s.registered <= s.collectors.Keys
    ensures op in s.tasks ==> TaskFits(s.records[op].identity.kind, s.tasks[op])
    ensures SessionCoherent(s.sessions[SessionOf(s, op)])
    ensures IsPrompt(s, op) ==> s.sessions[SessionOf(s, op)].backend.Some?
    ensures op in s.collectors ==> s.records[op].identity.kind.PromptKind?
  {
  }

  lemma LostConcludeTouches(s: State, op: Id)
    requires Located(s, op) && s.quarantined
    ensures Local(s, Finish(s, op), op)
    ensures var s' := Finish(s, op);
      && s'.tasks == s.tasks[op := Finished] && s'.collectors == s.collectors && s'.calls == s.calls
      && s'.records[op] == s.records[op]
      && s'.released == s.released + {op}
      && s'.reservations == (if op in s.released then s.reservations else s.reservations - 1)
      && s'.sessions[SessionOf(s, op)].state.Lost?
      && s'.sessions[SessionOf(s, op)].(state := Lost, active := None) ==
           s.sessions[SessionOf(s, op)].(state := Lost, active := None)
      && s'.registered <= s.registered
  {
    assert op in s.released ==> s.released + {op} == s.released;
  }

  lemma LostFinishAt(s: State, op: Id)
    requires Inv(s) && s.quarantined && Located(s, op) && IsPrompt(s, op)
    ensures Local(s, Finish(s, op), op) && LostAt(s, Finish(s, op), op)
  {
    hide Inv;
    LostConcludeTouches(s, op);
    LostFacts(s, op);
  }

  /** After the loss, a prompt task ends by running its finally block. */
  lemma UnwindKeeps(s: State, op: Id)
    requires Inv(s) && s.quarantined && At(s, op, Unwinding)
    ensures Keeps(s, Unwind(s, op))
  {
    hide Inv, Keeps;
    LostFacts(s, op);
    LostFinishAt(s, op);
    LostConcludeTouches(s, op);
    LostStepKeeps(s, Unwind(s, op), op);
  }

  // ----- flags: the transport dies, the child is told to abort -----

  ghost predicate FlagsRaised(s: State, s': State) {
    s' == s.(transportAlive := false, abortAttempted := s'.abortAttempted) && (s.abortAttempted ==> s'.abortAttempted)
  }

  lemma FlagsShape(s: State, s': State)
    requires Shape(s) && FlagsRaised(s, s')
    ensures Shape(s')
  {
    forall o | o in s'.records ensures RecordShaped(s', o) {
      assert RecordShaped(s, o);
    }
  }

  lemma FlagsBase(s: State, s': State)
    requires Base(s) && FlagsRaised(s, s')
    ensures Base(s')
  {
    FlagsShape(s, s');
    FlagsReports(s, s');
    FlagsAccounts(s, s');
  }

  lemma FlagsReports(s: State, s': State)
    requires Reports(s) && CallsOnce(s) && FlagsRaised(s, s')
    ensures Reports(s') && CallsOnce(s')
  {
    forall o | o in s'.records ensures ReportTrue(s', o) {
      assert ReportTrue(s, o);
    }
    forall i | 0 <= i < |s'.calls| ensures CallGrounded(s', s'.calls[i]) {
      assert CallGrounded(s, s.calls[i]);
    }
  }

  lemma FlagsAccounts(s: State, s': State)
    requires Reserved(s) && Coherent(s) && FlagsRaised(s, s')
    ensures Reserved(s') && Coherent(s')
  {
    assert Prompts(s') == Prompts(s);
    forall o | o in s'.released && o in s'.records ensures ReleasedFor(s', o) {
      assert ReleasedFor(s, o);
    }
  }

  lemma FlagsLost(s: State, s': State)
    requires LostShape(s) && FlagsRaised(s, s')
    ensures LostShape(s')
  {
    forall o | o in s'.records ensures s'.records[o].state.Terminal() || Deferred(s', o) {
      assert o in s.records;
    }
    forall o | o in s'.tasks && Deferring(s'.tasks[o]) ensures SettlementsFit(s', o, s'.tasks[o].deferred) {
      assert SettlementsFit(s, o, s.tasks[o].deferred);
    }
  }

  lemma FlagsStages(s: State, s': State)
    requires Stages(s) && FlagsRaised(s, s')
    ensures Stages(s')
  {
    forall o | o in s'.records && o in s'.tasks && s'.records[o].identity.kind.PromptKind? ensures PromptStage(s', o) {
      assert PromptStage(s, o);
    }
    forall o | o in s'.records && IsCancel(s', o) ensures CancelStage(s', o) {
      assert CancelStage(s, o);
    }
  }

  lemma FlagsExclusive(s: State, s': State)
    requires Exclusive(s) && FlagsRaised(s, s')
    ensures Exclusive(s')
  {
    forall o | o in s'.records && Unsettled(s', o) ensures UnsettledFits(s', o) {
      assert UnsettledFits(s, o);
    }
  }

  lemma FlagsClosed(s: State, s': State)
    requires FlagsRaised(s, s')
    ensures StaysClosed(s, s')
    ensures SpoiledClosed(s) ==> SpoiledClosed(s')
  {
    forall sid | Closed(s, sid) ensures Closed(s', sid) {
    }
    if SpoiledClosed(s) {
      forall o | o in s'.records && Spoiled(s', o) ensures Closed(s', SessionOf(s', o)) {
        assert Spoiled(s, o) && Closed(s, SessionOf(s, o));
      }
    }
  }

  lemma TransportDiesKeeps(s: State)
    requires Inv(s)
    ensures Keeps(s, s.(transportAlive := false))
  {
    var s' := s.(transportAlive := false);
    hide Base, Stages, Exclusive, LostShape, SpoiledClosed, StaysClosed;
    FlagsBase(s, s');
    FlagsClosed(s, s');
    FlagsGrow(s, s');
    hide Grows;
    if s.quarantined {
      FlagsLost(s, s');
    } else {
      FlagsStages(s, s');
      FlagsExclusive(s, s');
    }
  }

  lemma FlagsGrow(s: State, s': State)
    requires FlagsRaised(s, s')
    ensures Grows(s, s')
  {
  }

  lemma AbortFlagsKeeps(s: State)
    requires Inv(s) && s.quarantined
    ensures Keeps(s, s.(abortAttempted := true, transportAlive := false))
    ensures Inv(s.(abortAttempted := true, transportAlive := false))
  {
    hide Base, LostShape, Intact, StaysClosed;
    var s' := s.(abortAttempted := true, transportAlive := false);
    FlagsBase(s, s');
    FlagsClosed(s, s');
    FlagsLost(s, s');
  }

  lemma StartAbortKeeps(s: State, op: Id, deferred: seq<Settlement>)
    requires Inv(s) && s.quarantined && s.abortAttempted && At(s, op, Quarantining(deferred))
    ensures Keeps(s, WithTask(s, op, Aborting(deferred)))
  {
    var s' := WithTask(s, op, Aborting(deferred));
    hide Inv, LostShape;
    LostFacts(s, op);
    LostBaseLocal(s, s', op);
    StartAbortShape(s, op, deferred);
    KeepsWhenLost(s, s');
  }

  lemma KeepsWhenLost(s: State, s': State)
    requires Base(s') && LostShape(s') && Grows(s, s') && s.quarantined
    ensures Keeps(s, s')
  {
  }

  lemma StartAbortShape(s: State, op: Id, deferred: seq<Settlement>)
    requires Inv(s) && s.quarantined && s.abortAttempted && At(s, op, Quarantining(deferred))
    ensures LostShape(WithTask(s, op, Aborting(deferred)))
  {
    var s' := WithTask(s, op, Aborting(deferred));
    hide Base;
    forall o | o in s'.records ensures s'.records[o].state.Terminal() || Deferred(s', o) {
      assert o in s.records;
    }
    forall o | o in s'.tasks && Deferring(s'.tasks[o]) ensures SettlementsFit(s', o, s'.tasks[o].deferred) {
      assert SettlementsFit(s, o, s.tasks[o].deferred);
    }
  }

  lemma AbortKeeps(s: State, op: Id, deferred: seq<Settlement>)
    requires Inv(s) && s.quarantined && At(s, op, Quarantining(deferred))
    ensures Keeps(s, AbortChild(s, op, deferred))
  {
    hide Inv, Keeps;
    var mid := s.(abortAttempted := true, transportAlive := false);
    AbortFlagsKeeps(s);
    StartAbortKeeps(mid, op, deferred);
    assert AbortChild(s, op, deferred) == WithTask(mid, op, Aborting(deferred));
    KeepsThrough(s, mid, AbortChild(s, op, deferred));
  }

  lemma KeepsThrough(a: State, b: State, c: State)
    requires Keeps(a, b) && Keeps(b, c)
    ensures Keeps(a, c)
  {
    GrowsThrough(a, b, c);
    forall sid | Closed(a, sid) ensures Closed(c, sid) {
      assert Closed(b, sid);
    }
  }

  // ----- publication -----

  function SettleOne(s: State, d: Settlement): State
    requires d.op in s.records && d.state.Terminal()
  {
    WithRecord(s, d.op, Settled(s.records[d.op], d.state, d.result, d.error))
  }

  lemma SettleOneTouches(s: State, d: Settlement)
    requires d.op in s.records && SessionOf(s, d.op) in s.sessions && d.state.Terminal()
    requires d.op in s.tasks || (d.op !in s.tasks && d.op !in s.collectors)
    ensures Local(s, SettleOne(s, d), d.op)
  {
  }

  /** A settlement that may be published, now that the child was told to abort. */
  ghost predicate SettlementDue(s: State, d: Settlement) {
    && Inv(s) && s.quarantined && s.abortAttempted && d.op in s.records
    && (d.state.InDoubt? || d.state.Failed? || (d.state.Completed? && s.records[d.op].identity.kind.CancelKind?))
    && (d.state.InDoubt? ==> DeferredCode(d.error))
    && (d.result.None? || d.result == Some(RetainedEvidence) ||
         (d.result == Some(CancelReport(InDoubt, true)) && IsCancel(s, d.op)))
  }

  lemma SettleOneAt(s: State, d: Settlement)
    requires SettlementDue(s, d)
    ensures Local(s, SettleOne(s, d), d.op) && LostAt(s, SettleOne(s, d), d.op)
  {
    hide Inv, TaskFits;
    LostFacts(s, d.op);
    LostPlaces(s, d.op);
    SettleOneTouches(s, d);
  }

  /** One deferred settlement is published: the child was told to abort, so uncertainty is justified. */
  lemma SettleOneKeeps(s: State, d: Settlement)
    requires SettlementDue(s, d)
    ensures Keeps(s, SettleOne(s, d))
    ensures Inv(SettleOne(s, d))
  {
    hide Inv, Keeps, Local, LostAt;
    SettleOneAt(s, d);
    LostStepKeeps(s, SettleOne(s, d), d.op);
    KeepsInv(s, SettleOne(s, d));
  }

  lemma KeepsInv(s: State, s': State)
    requires Keeps(s, s')
    ensures Inv(s')
  {
  }

  lemma LostPlaces(s: State, op: Id)
    requires Inv(s) && op in s.records
    ensures op in s.tasks || op !in s.collectors
    ensures SessionOf(s, op) in s.sessions
  {
    assert RecordShaped(s, op);
  }

  ghost predicate AllTerminal(s: State) {
    forall o {:trigger o in s.records} :: o in s.records ==> s.records[o].state.Terminal()
  }

  lemma AllTerminalShape(s: State, s': State, op: Id)
    requires LostShape(s) && AllTerminal(s) && Local(s, s', op) && op in s.records && s'.records[op] == s.records[op]
    requires s'.tasks == s.tasks[op := Finished] && s'.collectors == s.collectors
    ensures LostShape(s')
  {
    forall o | o in s'.records ensures s'.records[o].state.Terminal() {
      assert o in s.records;
    }
    forall o | o in s'.tasks && Deferring(s'.tasks[o]) ensures SettlementsFit(s', o, s'.tasks[o].deferred) {
      assert SettlementsFit(s, o, s.tasks[o].deferred);
    }
  }

  /** Publishing one settlement, or a target's and then its cancellation's, is settling them in turn. */
  lemma PublishTwo(records: map<Id, Record>, a: Settlement, b: Settlement)
    requires a.state.Terminal() && b.state.Terminal() && a.op in records && b.op in records
    ensures Publish(records, [a]) == records[a.op := Settled(records[a.op], a.state, a.result, a.error)]
    ensures Publish(records, [a, b]) == Publish(Publish(records, [a]), [b])
  {
    var once := records[a.op := Settled(records[a.op], a.state, a.result, a.error)];
    assert [a][1..] == [] && [a, b][1..] == [b] && [b][1..] == [];
    assert Publish(once, []) == once;
  }

  /** What the deferred settlements of an aborting task are. */
  lemma Publishable(s: State, op: Id)
    requires Inv(s) && s.quarantined && Located(s, op) && s.tasks[op].Aborting?
    ensures var deferred := s.tasks[op].deferred;
      && s.abortAttempted
      && SettlementsFit(s, op, deferred)
      && forall o {:trigger o in s.records} :: o in s.records && o !in Ops(deferred) ==> s.records[o].state.Terminal()
    ensures IsCancel(s, op) <==> s.records[op].identity.kind.CancelKind?
  {
    hide Reserved, Bounded, Coherent, CallsOnce, Reports, Intact, SettlementsFit;
    assert RecordShaped(s, op);
  }

  function Published(s: State, op: Id): State
    requires Located(s, op) && s.tasks[op].Aborting?
  {
    s.(records := Publish(s.records, s.tasks[op].deferred))
  }

  lemma PublishedOneKeeps(s: State, op: Id)
    requires Inv(s) && s.quarantined && Located(s, op) && s.tasks[op].Aborting? &&
      !s.records[op].identity.kind.CancelKind?
    ensures Keeps(s, Published(s, op)) && Inv(Published(s, op)) && AllTerminal(Published(s, op))
  {
    hide Inv, Keeps;
    Publishable(s, op);
    var d := s.tasks[op].deferred[0];
    assert s.tasks[op].deferred == [d];
    PublishTwo(s.records, d, d);
    SettleOneKeeps(s, d);
    assert Published(s, op) == SettleOne(s, d);
    forall o | o in SettleOne(s, d).records ensures SettleOne(s, d).records[o].state.Terminal() {
      assert o == d.op || (o in s.records && o !in Ops(s.tasks[op].deferred));
    }
  }

  lemma PublishedTwoKeeps(s: State, op: Id)
    requires Inv(s) && s.quarantined && Located(s, op) && s.tasks[op].Aborting? &&
      s.records[op].identity.kind.CancelKind?
    ensures Keeps(s, Published(s, op)) && Inv(Published(s, op)) && AllTerminal(Published(s, op))
  {
    hide Inv, Keeps;
    Publishable(s, op);
    var d, e := s.tasks[op].deferred[0], s.tasks[op].deferred[1];
    assert s.tasks[op].deferred == [d, e];
    PublishTwo(s.records, d, e);
    SettleOneKeeps(s, d);
    var mid := SettleOne(s, d);
    PublishTwo(mid.records, e, e);
    SettleOneKeeps(mid, e);
    assert Published(s, op) == SettleOne(mid, e);
    KeepsThrough(s, mid, SettleOne(mid, e));
    forall o | o in SettleOne(mid, e).records ensures SettleOne(mid, e).records[o].state.Terminal() {
      assert o == d.op || o == e.op || (o in s.records && o !in Ops(s.tasks[op].deferred));
    }
  }

  lemma PublishedEndAt(s: State, op: Id)
    requires Inv(s) && s.quarantined && Located(s, op) && !IsPrompt(s, op) && AllTerminal(s)
    ensures Local(s, WithTask(s, op, Finished), op) && LostAt(s, WithTask(s, op, Finished), op)
  {
    hide Inv;
    LostFacts(s, op);
    LostPlaces(s, op);
  }

  lemma PublishDeferredKeeps(s: State, op: Id)
    requires Inv(s) && s.quarantined && Located(s, op) && s.tasks[op].Aborting?
    ensures Keeps(s, PublishDeferred(s, op, s.tasks[op].deferred))
  {
    hide Inv, Keeps;
    if s.records[op].identity.kind.CancelKind? { PublishedTwoKeeps(s, op); } else { PublishedOneKeeps(s, op); }
    var t := Published(s, op);
    var s' := PublishDeferred(s, op, s.tasks[op].deferred);
    PublishedPlaces(s, op);
    if IsPrompt(s, op) {
      LostFinishAt(t, op);
      LostConcludeTouches(t, op);
    } else {
      PublishedEndAt(t, op);
    }
    LostEndKeeps(t, s', op);
    KeepsThrough(s, t, s');
  }

  lemma PublishedPlaces(s: State, op: Id)
    requires Located(s, op) && s.tasks[op].Aborting? && Keeps(s, Published(s, op))
    ensures Located(Published(s, op), op) && (IsPrompt(Published(s, op), op) <==> IsPrompt(s, op))
  {
    assert op in Published(s, op).records && RecordGrows(s.records[op], Published(s, op).records[op]);
  }
}
