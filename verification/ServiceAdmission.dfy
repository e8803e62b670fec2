/** Each admission keeps the invariant; a refused or repeated one changes nothing. */
module ServiceAdmission {
  import opened Wrappers
  import opened DirectProtocol
  import opened DirectState
  import opened ServiceModel
  import opened ServiceInvariant
  import opened ServiceLocal
  import opened ServiceEvents
  import opened ServiceLoss

  lemma KeepsReflexive(s: State)
    requires Inv(s)
    ensures Keeps(s, s)
  {
    hide Inv, Closed;
  }

  /** What the invariant says of an identifier that is not in the ledger, and of a session. */
  ghost predicate NewFacts(s: State, op: Id, sid: Id) {
    && !s.quarantined
    && op !in s.records && op !in s.tasks && op !in s.collectors
    && s.registered <= s.collectors.Keys
    && s.lock != Some(op)
    && (sid in s.sessions ==> SessionCoherent(s.sessions[sid]))
  }

  lemma New(s: State, op: Id, sid: Id)
    requires Inv(s) && !s.quarantined && op !in s.records
    ensures NewFacts(s, op, sid)
  {
  }

  lemma AdmittedKeeps(s: State, s': State, op: Id)
    requires Inv(s) && !s.quarantined && op !in s.records && Local(s, s', op) && IntactAt(s, s', op)
    requires |s.records| < s.config.maxOperations
    requires SessionOf(s', op) !in s.sessions ==> |s.sessions| < s.config.maxSessions
    requires Reserved(s') && s'.calls == s.calls
    ensures Keeps(s, s')
  {
    BoundedLocal(s, s', op);
    CallsKeptLocal(s, s', op);
    IntactLocal(s, s', op);
  }

  lemma CreateAdmittedLocal(s: State, req: Request)
    requires req.CreateSession? && NewFacts(s, req.pin.operationId, req.sessionId) && req.sessionId !in s.sessions
    requires AdmitCreate(s, req).1.Success?
    ensures var op := req.pin.operationId; var s' := AdmitCreate(s, req).0; Local(s, s', op) && IntactAt(s, s', op)
  {
  }

  lemma CreateAdmittedAccounts(s: State, req: Request)
    requires req.CreateSession?
    ensures var op := req.pin.operationId; var (s', reply) := AdmitCreate(s, req);
      if op in s.records || reply.Failure? then s' == s
      else
        && !s.quarantined
        && |s.records| < s.config.maxOperations && |s.sessions| < s.config.maxSessions
        && req.sessionId !in s.sessions
        && op in s'.records && s'.records[op].identity.kind.CreateKind?
        && op in s'.tasks && s'.tasks == s.tasks[op := Scheduled]
        && s'.released == s.released && s'.reservations == s.reservations && s'.calls == s.calls
  {
  }

  lemma CreateAdmissionKeeps(s: State, req: Request)
    requires Inv(s) && req.CreateSession?
    ensures Keeps(s, AdmitCreate(s, req).0)
  {
    hide Keeps, AdmitCreate, Local, IntactAt, Grows;
    CreateAdmittedAccounts(s, req);
    var op := req.pin.operationId;
    var s' := AdmitCreate(s, req).0;
    if op !in s.records && AdmitCreate(s, req).1.Success? {
      New(s, op, req.sessionId);
      CreateAdmittedLocal(s, req);
      AdmittedRest(s, s', op);
    } else {
      KeepsReflexive(s);
    }
  }

  /** A newcomer that is no prompt keeps the reservations. */
  lemma AdmittedRest(s: State, s': State, op: Id)
    requires Inv(s) && !s.quarantined && op !in s.records && Local(s, s', op) && IntactAt(s, s', op)
    requires |s.records| < s.config.maxOperations
    requires SessionOf(s', op) !in s.sessions ==> |s.sessions| < s.config.maxSessions
    requires !s'.records[op].identity.kind.PromptKind?
    requires s'.released == s.released && s'.reservations == s.reservations && s'.calls == s.calls
    requires op !in s.tasks
    ensures Keeps(s, s')
  {
    ReservedKeptLocal(s, s', op);
    AdmittedKeeps(s, s', op);
  }

  lemma PromptAdmittedTouches(s: State, sid: Id, r: PromptRequest)
    requires ValidLayers(r) && NewFacts(s, r.pin.operationId, sid)
    requires AdmitPrompt(s, sid, r).1.Success?
    ensures Local(s, AdmitPrompt(s, sid, r).0, r.pin.operationId)
  {
    hide LifetimeAllows, WithinPromptLimits, PinHolds, ValidLayers, SessionCoherent;
  }

  lemma PromptAdmittedLocal(s: State, sid: Id, r: PromptRequest)
    requires ValidLayers(r) && NewFacts(s, r.pin.operationId, sid)
    requires AdmitPrompt(s, sid, r).1.Success?
    ensures var op := r.pin.operationId; var s' := AdmitPrompt(s, sid, r).0; Local(s, s', op) && IntactAt(s, s', op)
  {
    hide CreateStage, CancelStage, WithinPromptLimits, PinHolds, Unopened, ValidLayers, Local;
    PromptAdmittedTouches(s, sid, r);
  }

  lemma PromptAdmittedAccounts(s: State, sid: Id, r: PromptRequest)
    requires ValidLayers(r)
    ensures var op := r.pin.operationId; var (s', reply) := AdmitPrompt(s, sid, r);
      if op in s.records || reply.Failure? then s' == s
      else
        && !s.quarantined
        && |s.records| < s.config.maxOperations
        && sid in s.sessions
        && op in s'.records && s'.records[op].identity.kind.PromptKind? && SessionOf(s', op) == sid
        && s'.released == s.released && s'.reservations == s.reservations + 1 && s'.calls == s.calls
        && (s.reservations <= 0 || s'.reservations <= s.config.maxQueuedPrompts + 1)
  {
  }

  lemma PromptAdmissionKeeps(s: State, sid: Id, r: PromptRequest)
    requires Inv(s) && ValidLayers(r)
    ensures Keeps(s, AdmitPrompt(s, sid, r).0)
  {
    var op := r.pin.operationId;
    var s' := AdmitPrompt(s, sid, r).0;
    PromptAdmittedAccounts(s, sid, r);
    if op !in s.records && AdmitPrompt(s, sid, r).1.Success? {
      New(s, op, sid);
      PromptAdmittedLocal(s, sid, r);
      ReservedAdmittedLocal(s, s', op);
      AdmittedKeeps(s, s', op);
    } else {
      KeepsReflexive(s);
    }
  }

  lemma RetireAdmittedLocal(s: State, req: Request)
    requires req.Retire? && NewFacts(s, req.pin.operationId, req.sessionId)
    requires AdmitRetire(s, req).1.Success?
    ensures var op := req.pin.operationId; var s' := AdmitRetire(s, req).0; Local(s, s', op) && IntactAt(s, s', op)
  {
  }

  lemma RetireAdmittedAccounts(s: State, req: Request)
    requires req.Retire?
    ensures var op := req.pin.operationId; var (s', reply) := AdmitRetire(s, req);
      if op in s.records || reply.Failure? then s' == s
      else
        && !s.quarantined
        && |s.records| < s.config.maxOperations
        && req.sessionId in s.sessions
        && op in s'.records && s'.records[op].identity.kind.RetireKind? && SessionOf(s', op) == req.sessionId
        && s'.released == s.released && s'.reservations == s.reservations && s'.calls == s.calls
  {
  }

  lemma RetireAdmissionKeeps(s: State, req: Request)
    requires Inv(s) && req.Retire?
    ensures Keeps(s, AdmitRetire(s, req).0)
  {
    hide Keeps, AdmitRetire, Local, IntactAt, Grows;
    RetireAdmittedAccounts(s, req);
    var op := req.pin.operationId;
    var s' := AdmitRetire(s, req).0;
    if op !in s.records && AdmitRetire(s, req).1.Success? {
      New(s, op, req.sessionId);
      RetireAdmittedLocal(s, req);
      AdmittedRest(s, s', op);
    } else {
      KeepsReflexive(s);
    }
  }

  // ----- cancellation: first the target changes, then the new record joins -----

  lemma ShapedPrompt(s: State, op: Id)
    requires Inv(s) && op in s.records && s.records[op].identity.kind.PromptKind?
    ensures IsPrompt(s, op) && SessionOf(s, op) in s.sessions && op in s.tasks
  {
    assert RecordShaped(s, op);
  }

  function CancelPreDispatch(s: State, target: Id): State
    requires target in s.records && SessionOf(s, target) in s.sessions
  {
    var sid := SessionOf(s, target);
    Release(
      s.(records := s.records[target := Settled(s.records[target], Cancelled, Some(CancelledPreDispatch), None)],
       sessions := s.sessions[sid := s.sessions[sid].(active := None, state := Ready)]),
      target)
  }

  lemma CancelPreDispatchTouches(s: State, target: Id)
    requires Located(s, target) && !s.records[target].state.Terminal()
    ensures Local(s, CancelPreDispatch(s, target), target)
  {
    var s' := CancelPreDispatch(s, target);
    assert s'.released == s.released + {target} || s'.released == s.released;
    assert RecordGrows(s.records[target], s'.records[target]);
  }

  lemma CancelPreDispatchLocal(s: State, target: Id)
    requires FactsAt(s, target) && IsPrompt(s, target) && NotDispatched(s.tasks[target]) && Unsettled(s, target)
    ensures Local(s, CancelPreDispatch(s, target), target) && IntactAt(s, CancelPreDispatch(s, target), target)
  {
    CancelPreDispatchTouches(s, target);
  }

  lemma CancelPreDispatchReleases(s: State, target: Id)
    requires target in s.records && SessionOf(s, target) in s.sessions && !s.records[target].state.Terminal()
    ensures var s' := CancelPreDispatch(s, target);
      && s'.released == s.released + {target}
      && s'.reservations == (if target in s.released then s.reservations else s.reservations - 1)
      && s'.calls == s.calls && s'.tasks == s.tasks
      && target in s'.records && s'.records[target].state.Terminal()
  {
    assert target in s.released ==> s.released + {target} == s.released;
  }

  lemma CancelPreDispatchKeeps(s: State, target: Id)
    requires Inv(s) && !s.quarantined && IsPrompt(s, target)
    requires s.records[target].state.Accepted? || s.records[target].state.Queued?
    ensures SessionOf(s, target) in s.sessions
    ensures Keeps(s, CancelPreDispatch(s, target)) && Inv(CancelPreDispatch(s, target))
  {
    hide Inv, Grows;
    ShapedPrompt(s, target);
    Facts(s, target);
    CancelPreDispatchLocal(s, target);
    CancelPreDispatchReleases(s, target);
    ReleasingKeeps(s, CancelPreDispatch(s, target), target);
  }

  lemma MarkCancellingKeeps(s: State, target: Id)
    requires Inv(s) && !s.quarantined && IsPrompt(s, target)
    requires s.records[target].state.Running? || s.records[target].state.Cancelling?
    ensures var s' := WithRecord(s, target, s.records[target].(state := Cancelling)); Keeps(s, s') && Inv(s')
  {
    assert RecordShaped(s, target);
    Facts(s, target);
    MarkCancellingLocal(s, target);
    QuietKeeps(s, WithRecord(s, target, s.records[target].(state := Cancelling)), target);
  }

  lemma MarkCancellingLocal(s: State, target: Id)
    requires FactsAt(s, target) && IsPrompt(s, target)
    requires s.records[target].state.Running? || s.records[target].state.Cancelling?
    ensures var s' := WithRecord(s, target, s.records[target].(state := Cancelling));
      Local(s, s', target) && IntactAt(s, s', target)
  {
  }

  /** A cancellation joins the ledger, settled at once or with a task that will send it. */
  lemma CancelJoinsLocal(s: State, s': State, op: Id, r: Record)
    requires NewFacts(s, op, r.identity.sessionId) && r.identity.kind.CancelKind? && r.identity.sessionId in s.sessions
    requires r.identity.target.Some? && IsPrompt(s, r.identity.target.value)
    requires SessionOf(s, r.identity.target.value) == r.identity.sessionId
    requires
      || (s' == WithRecord(s, op, r) && r.state.Completed? && r.error.None?
          && r.result == Some(CancelReport(s.records[r.identity.target.value].state, false))
          && s.records[r.identity.target.value].state.Terminal())
      || (s' == WithTask(WithRecord(s, op, r), op, Scheduled) && r == NewRecord(r.identity)
          && r.identity.target.value in s.collectors && s.records[r.identity.target.value].state.Cancelling?)
    ensures Local(s, s', op) && IntactAt(s, s', op)
  {
  }

  lemma CancelJoinsKeeps(s: State, s': State, op: Id, r: Record)
    requires Inv(s) && !s.quarantined && op !in s.records && |s.records| < s.config.maxOperations
    requires r.identity.kind.CancelKind? && r.identity.sessionId in s.sessions
    requires r.identity.target.Some? && IsPrompt(s, r.identity.target.value)
    requires SessionOf(s, r.identity.target.value) == r.identity.sessionId
    requires
      || (s' == WithRecord(s, op, r) && r.state.Completed? && r.error.None?
          && r.result == Some(CancelReport(s.records[r.identity.target.value].state, false))
          && s.records[r.identity.target.value].state.Terminal())
      || (s' == WithTask(WithRecord(s, op, r), op, Scheduled) && r == NewRecord(r.identity)
          && r.identity.target.value in s.collectors && s.records[r.identity.target.value].state.Cancelling?)
    ensures Keeps(s, s')
  {
    New(s, op, r.identity.sessionId);
    CancelJoinsLocal(s, s', op, r);
    ReservedKeptLocal(s, s', op);
    AdmittedKeeps(s, s', op);
  }

  function Joined(s: State, req: Request): Record
    requires req.Cancel? && req.target in s.records
  {
    NewRecord(Identity(req, CancelKind, SessionOf(s, req.target), None, Some(req.target)))
  }

  /** An accepted cancellation is one of three pairs of steps. */
  lemma CancelForms(s: State, req: Request)
    requires req.Cancel?
    ensures AdmitCancel(s, req).1.Success? ==> req.target in s.records
    ensures var op := req.pin.operationId; var target := req.target; var (s', reply) := AdmitCancel(s, req);
      if op in s.records || reply.Failure? then
        && s' == s
        && (reply.Success? ==>
             reply == Success(Admission(op, false)) && s.records[op].identity == Joined(s, req).identity)
      else
        && !s.quarantined
        && reply == Success(Admission(op, true))
        && |s.records| < s.config.maxOperations
        && target in s.records && target != op
        && s.records[target].identity.kind.PromptKind?
        && var r := s.records[target];
           var j := Joined(s, req);
           if r.state.Accepted? || r.state.Queued? then
             && SessionOf(s, target) in s.sessions
             && s' == WithRecord(CancelPreDispatch(s, target), op,
                  Settled(j, Completed, Some(CancelReport(Cancelled, false)), None))
           else if r.state.Terminal() then
             s' == WithRecord(s, op, Settled(j, Completed, Some(CancelReport(r.state, false)), None))
           else
             s' == WithTask(WithRecord(WithRecord(s, target, r.(state := Cancelling)), op, j), op, Scheduled)
  {
  }

  lemma CancelAdmissionKeeps(s: State, req: Request)
    requires Inv(s) && req.Cancel?
    ensures Keeps(s, AdmitCancel(s, req).0)
  {
    hide Inv, Keeps, Grows;
    CancelForms(s, req);
    if req.pin.operationId in s.records || AdmitCancel(s, req).1.Failure? {
      KeepsReflexive(s);
    } else {
      var r := s.records[req.target];
      ShapedPrompt(s, req.target);
      if r.state.Accepted? || r.state.Queued? {
        CancelBeforeDispatch(s, req);
      } else if r.state.Terminal() {
        CancelJoinsKeeps(s, AdmitCancel(s, req).0, req.pin.operationId,
                         Settled(Joined(s, req), Completed, Some(CancelReport(r.state, false)), None));
      } else {
        CancelAfterDispatch(s, req);
      }
    }
  }

  lemma CancelledPlaces(s: State, target: Id)
    requires IsPrompt(s, target) && SessionOf(s, target) in s.sessions && !s.records[target].state.Terminal()
    ensures var s' := CancelPreDispatch(s, target);
      && s'.records.Keys == s.records.Keys && s'.sessions.Keys == s.sessions.Keys
      && s'.config == s.config && s'.quarantined == s.quarantined
      && IsPrompt(s', target) && SessionOf(s', target) == SessionOf(s, target)
      && s'.records[target].state.Cancelled?
  {
  }

  lemma SameSize(s: State, s': State)
    requires s'.records.Keys == s.records.Keys
    ensures |s'.records| == |s.records|
  {
    assert |s'.records.Keys| == |s.records.Keys|;
  }

  lemma CancelBeforeDispatch(s: State, req: Request)
    requires Inv(s) && req.Cancel? && !s.quarantined && IsPrompt(s, req.target) && req.pin.operationId !in s.records
    requires s.records[req.target].state.Accepted? || s.records[req.target].state.Queued?
    requires |s.records| < s.config.maxOperations
    ensures SessionOf(s, req.target) in s.sessions
    ensures Keeps(s, WithRecord(CancelPreDispatch(s, req.target), req.pin.operationId,
                                Settled(Joined(s, req), Completed, Some(CancelReport(Cancelled, false)), None)))
  {
    hide Inv, Keeps, CancelPreDispatch;
    CancelPreDispatchKeeps(s, req.target);
    CancelledPlaces(s, req.target);
    SameSize(s, CancelPreDispatch(s, req.target));
    var r := Settled(Joined(s, req), Completed, Some(CancelReport(Cancelled, false)), None);
    var mid := CancelPreDispatch(s, req.target);
    CancelJoinsKeeps(mid, WithRecord(mid, req.pin.operationId, r), req.pin.operationId, r);
    KeepsThrough(s, mid, WithRecord(mid, req.pin.operationId, r));
  }

  lemma Dispatched(s: State, op: Id)
    requires Inv(s) && !s.quarantined && IsPrompt(s, op)
    requires s.records[op].state.Running? || s.records[op].state.Cancelling?
    ensures op in s.collectors && SessionOf(s, op) in s.sessions
  {
    hide Inv;
    ShapedPrompt(s, op);
    Facts(s, op);
  }

  lemma CancelAfterDispatch(s: State, req: Request)
    requires Inv(s) && req.Cancel? && !s.quarantined && IsPrompt(s, req.target) && req.pin.operationId !in s.records
    requires s.records[req.target].state.Running? || s.records[req.target].state.Cancelling?
    requires |s.records| < s.config.maxOperations
    ensures var mid := WithRecord(s, req.target, s.records[req.target].(state := Cancelling));
      Keeps(s, WithTask(WithRecord(mid, req.pin.operationId, Joined(s, req)), req.pin.operationId, Scheduled))
  {
    hide Inv, Keeps, Grows;
    var op := req.pin.operationId;
    var r := Joined(s, req);
    Dispatched(s, req.target);
    MarkCancellingKeeps(s, req.target);
    var mid := WithRecord(s, req.target, s.records[req.target].(state := Cancelling));
    SameSize(s, mid);
    var s' := WithTask(WithRecord(mid, op, r), op, Scheduled);
    CancelJoinsKeeps(mid, s', op, r);
    KeepsThrough(s, mid, s');
  }
}
