/**
 What callers and the child get back, event by event: which answer an admission gives, and what the end of a
 collector, a reply, a deadline or a loss makes of an operation and its session, told in their own fields.
 */
module ServiceAnswers {
  import opened Wrappers
  import opened DirectProtocol
  import opened DirectState
  import opened ServiceModel
  import opened ServiceInvariant
  import opened ServiceLocal
  import opened ServiceEvents
  import opened ServiceLoss
  import opened ServiceAdmission
  import opened ServiceRuns
  import opened ServiceAftermath
  import opened ServiceSettlements
  import opened ServiceTheorems
  import Utf8

  // ----- settlements, in every run -----

  /** A prompt reports the stop its child gave: cancelled if it stopped as cancelled, and completed otherwise. */
  lemma StopIsReported(config: Config, events: seq<Event>, op: Id)
    requires op in Run(Start(config), events).records
    ensures var s := Run(Start(config), events); var r := s.records[op];
      && (r.result.Some? && r.result.value.PromptDone? ==>
            && op in s.collectors && s.collectors[op] == Ended(Returned(r.result.value.stop))
            && r.identity.kind.PromptKind? && r.error.None?
            && (if r.result.value.stop.StopCancelled? then r.state.Cancelled? else r.state.Completed?))
      && (r.identity.kind.PromptKind? && r.state.Completed? ==> r.result.Some? && r.result.value.PromptDone?)
      && (r.state.Cancelled? ==> r.result == Some(CancelledPreDispatch) || r.result == Some(PromptDone(StopCancelled)))
      && (r.result == Some(CancelledPreDispatch) ==> r.state.Cancelled? && op !in s.collectors)
  {
    ReachedExplained(config, events);
    Reached(config, events);
    var s := Run(Start(config), events);
    hide Inv;
    assert Explained(s, op, s.records[op]);
    ReportAt(s, op);
  }

  lemma ReportAt(s: State, op: Id)
    requires Inv(s) && op in s.records
    ensures ReportTrue(s, op)
  {
  }

  /** Every other settlement of a prompt rests on how its collector ended. */
  lemma SpoiledIsReported(config: Config, events: seq<Event>, op: Id)
    requires op in Run(Start(config), events).records
    requires Run(Start(config), events).records[op].identity.kind.PromptKind?
    ensures var s := Run(Start(config), events); var r := s.records[op];
      && (r.state.TimedOut? ==>
            && r.result.None? && r.error == Some(ExecutionDeadline)
            && op in s.collectors && s.collectors[op] == Ended(Returned(StopCancelled)))
      && (r.state.Failed? ==>
            && r.result == Some(RetainedEvidence) && r.error == Some(EvidenceLimit)
            && op in s.collectors && s.collectors[op] == Ended(Overflowed(true)))
      && (r.state.InDoubt? && r.error == Some(EvidenceLimitInDoubt) ==>
            && r.result == Some(RetainedEvidence)
            && op in s.collectors && s.collectors[op] == Ended(Overflowed(false)))
      && (r.state.InDoubt? && (r.error == Some(CancellationStopMismatch) || r.error == Some(DeadlineStopMismatch)) ==>
            && r.result.None?
            && op in s.collectors && s.collectors[op].Ended? && s.collectors[op].outcome.Returned?
            && !s.collectors[op].outcome.stop.StopCancelled?)
      && (r.state.InDoubt? && r.error == Some(DeadlineSettlementUnknown) ==>
            r.result.None? && op in s.collectors && s.collectors[op].Ended?)
      && (r.state.InDoubt? ==> r.error.Some? && r.error != Some(SessionCreationInDoubt))
  {
    ReachedExplained(config, events);
    var s := Run(Start(config), events);
    assert Explained(s, op, s.records[op]);
  }

  /** A created session has the backend and the model its creation reports, and every opened session was created so. */
  lemma CreationIsReported(config: Config, events: seq<Event>, op: Id)
    requires op in Run(Start(config), events).records
    requires Run(Start(config), events).records[op].identity.kind.CreateKind?
    ensures var s := Run(Start(config), events); var r := s.records[op]; var req := r.identity.request;
      && req.CreateSession? && req.sessionId in s.sessions
      && var x := s.sessions[req.sessionId];
      && x.modelId == req.modelId && x.stableDigest == req.stableDigest
      && (r.state.Completed? ==>
            x.backend.Some? && r.error.None? && r.result == Some(SessionCreated(x.backend.value, req.modelId)))
      && (r.result.Some? ==> r.state.Completed?)
      && (r.state.Failed? ==> r.error == Some(SessionConfigurationFailed))
      && !r.state.Cancelled? && !r.state.TimedOut?
  {
    ReachedExplained(config, events);
    var s := Run(Start(config), events);
    assert Explained(s, op, s.records[op]);
  }

  lemma OpenedSessionsAreCreated(config: Config, events: seq<Event>, sid: Id) returns (op: Id)
    requires sid in Run(Start(config), events).sessions && Run(Start(config), events).sessions[sid].backend.Some?
    ensures var s := Run(Start(config), events);
      && op in s.records && s.records[op].identity.kind.CreateKind? && s.records[op].identity.sessionId == sid
      && s.records[op].state.Completed?
      && s.records[op].result == Some(SessionCreated(s.sessions[sid].backend.value, s.sessions[sid].modelId))
  {
    ReachedExplained(config, events);
    var s := Run(Start(config), events);
    op :| OpenedBy(s, op, sid);
  }

  /** Every recorded prompt carries the digests it claims: of its instructions, its session's, and of its contract. */
  lemma PromptsCarryTheirDigests(config: Config, events: seq<Event>, op: Id)
    requires IsPrompt(Run(Start(config), events), op)
    ensures var s := Run(Start(config), events); var body := BodyOf(s, op); var sid := SessionOf(s, op);
      && sid in s.sessions
      && body.stableDigest == s.sessions[sid].stableDigest
      && (body.phase.Initial? ==>
            body.stableInstructions.Some? && Sha256(body.stableInstructions.value) == s.sessions[sid].stableDigest)
      && (body.outputContract.Some? ==> Sha256(body.outputContract.value) == body.contractDigest)
  {
    ReachedExplained(config, events);
    var s := Run(Start(config), events);
    assert Explained(s, op, s.records[op]);
  }

  /**
   While a prompt of an intact generation is unsettled, its session is as its phase needs it: an opening finds its
   invocation unused, a delta finds it active, with the contract the request names.
   */
  lemma UnsettledPromptsFit(config: Config, events: seq<Event>, op: Id)
    requires IsPrompt(Run(Start(config), events), op) && !Run(Start(config), events).quarantined
    requires !Run(Start(config), events).records[op].state.Terminal()
    ensures var s := Run(Start(config), events); var body := BodyOf(s, op); var sid := SessionOf(s, op);
      && sid in s.sessions
      && var x := s.sessions[sid];
      match body.phase
      case Initial => !x.stableSubmitted && x.activeInvocation.None? && x.contracts == map[]
      case Invocation => x.stableSubmitted && body.invocationId !in x.contracts
      case _ =>
        && x.stableSubmitted && x.activeInvocation == Some(body.invocationId)
        && body.invocationId in x.contracts && x.contracts[body.invocationId] == body.contractDigest
  {
    Reached(config, events);
    var s := Run(Start(config), events);
    assert UnsettledFits(s, op);
    assert SessionCoherent(s.sessions[SessionOf(s, op)]);
  }

  /** Once the generation is lost, every session is lost that was not retired before. */
  lemma SessionsAreLost(config: Config, events: seq<Event>, sid: Id)
    requires var s := Run(Start(config), events); s.quarantined && sid in s.sessions
    ensures var x := Run(Start(config), events).sessions[sid]; x.state.Lost? || x.state.Retired?
  {
    ReachedExplained(config, events);
  }

  // ----- admission -----

  /** The pin names the protocol and the generation current for callers, which still admits work. */
  predicate Current(s: State, pin: Pin) {
    pin.major == 1 && pin.generation == s.generation && !s.quarantined && s.transportAlive
  }

  /** The text that a prompt shows the model. */
  function ModelText(r: PromptRequest): string
    requires ValidLayers(r)
  {
    match r.phase
    case Initial => r.stableInstructions.value + "\n\n" + r.prompt.value + "\n\n" + r.outputContract.value
    case Invocation => r.prompt.value + "\n\n" + r.outputContract.value
    case _ => r.delta.value
  }

  /** What a caller can check of a session before it sends a prompt of this phase. */
  predicate SessionSuits(x: Session, r: PromptRequest)
    requires ValidLayers(r)
  {
    && r.stableDigest == x.stableDigest
    && match r.phase
       case Initial =>
         && !x.stableSubmitted && x.activeInvocation.None?
         && Sha256(r.stableInstructions.value) == r.stableDigest
         && Sha256(r.outputContract.value) == r.contractDigest
       case Invocation =>
         && x.stableSubmitted && r.invocationId !in x.contracts
         && Sha256(r.outputContract.value) == r.contractDigest
       case Correction => DeltaSuits(x, r)
       case Continuation => DeltaSuits(x, r)
  }

  /** A delta belongs to the invocation that is active, under the contract it was opened with. */
  predicate DeltaSuits(x: Session, r: PromptRequest) {
    && x.stableSubmitted
    && x.activeInvocation == Some(r.invocationId)
    && r.invocationId in x.contracts && x.contracts[r.invocationId] == r.contractDigest
  }

  predicate FitsLimits(s: State, r: PromptRequest)
    requires ValidLayers(r)
  {
    r.timeout <= s.config.maxExecutionTimeout && |Utf8.Encode(ModelText(r))| <= s.config.maxPromptBytes
  }

  /** A prompt is admitted as new if and only if all that its caller can check holds. */
  lemma PromptAdmitted(s: State, sid: Id, r: PromptRequest)
    requires ValidLayers(r)
    ensures var op := r.pin.operationId;
      AdmitPrompt(s, sid, r).1 == Success(Admission(op, true)) <==>
        && Current(s, r.pin) && FitsLimits(s, r)
        && op !in s.records && |s.records| < s.config.maxOperations
        && sid in s.sessions && s.sessions[sid].state.Ready? && s.sessions[sid].active.None?
        && SessionSuits(s.sessions[sid], r)
        && s.reservations <= s.config.maxQueuedPrompts
  {
    TextsAgree(r);
    hide RenderText, ModelText;
  }

  lemma TextsAgree(r: PromptRequest)
    requires ValidLayers(r)
    ensures RenderText(r) == ModelText(r)
  {
  }

  /** Every refusal of a prompt names the first of its reasons. */
  lemma PromptRefused(s: State, sid: Id, r: PromptRequest)
    requires ValidLayers(r)
    ensures var reply := AdmitPrompt(s, sid, r).1; var op := r.pin.operationId;
      var again := Current(s, r.pin) && FitsLimits(s, r) && op in s.records;
      var unused := Current(s, r.pin) && FitsLimits(s, r) && op !in s.records;
      var known := unused && sid in s.sessions;
      && (reply == Failure(GenerationMismatch) <==> !Current(s, r.pin))
      && (reply == Failure(NotFound) <==> unused && sid !in s.sessions)
      && (reply == Failure(SessionBusy) <==>
            known && (s.sessions[sid].active.Some? || s.sessions[sid].state.Busy?))
      && (again ==>
            reply == if s.records[op].identity != Identity(Prompt(r), PromptKind, sid, Some(r.invocationId), None)
              then Failure(Conflict) else Success(Admission(op, false)))
      && (known && s.sessions[sid].active.None? && !s.sessions[sid].state.Busy? ==>
            (reply == Failure(Conflict) <==> !s.sessions[sid].state.Ready? || !SessionSuits(s.sessions[sid], r)))
      && reply != Failure(WorkspaceMismatch)
      && (Current(s, r.pin) && !FitsLimits(s, r) ==> reply == Failure(LimitExceeded))
      && (reply.Failure? ==> AdmitPrompt(s, sid, r).0 == s)
  {
    TextsAgree(r);
    hide RenderText, ModelText;
  }

  /** An admitted prompt is queued if another holds a reservation, takes one itself, and occupies its session. */
  lemma PromptEnters(s: State, sid: Id, r: PromptRequest)
    requires ValidLayers(r) && AdmitPrompt(s, sid, r).1 == Success(Admission(r.pin.operationId, true))
    ensures var s' := AdmitPrompt(s, sid, r).0; var op := r.pin.operationId;
      && sid in s.sessions
      && s'.records == s.records[op := Record(Identity(Prompt(r), PromptKind, sid, Some(r.invocationId), None),
           if s.reservations > 0 then Queued else Accepted, None, None)]
      && s'.sessions == s.sessions[sid := s.sessions[sid].(active := Some(op), state := Busy)]
      && s'.tasks == s.tasks[op := Scheduled]
      && s'.reservations == s.reservations + 1 && s'.calls == s.calls
  {
  }

  /** A creation is admitted as new if and only if workspace, model, IDs and capacities allow it. */
  lemma CreateAdmitted(s: State, req: Request)
    requires req.CreateSession?
    ensures var (s', reply) := AdmitCreate(s, req); var op := req.pin.operationId;
      var asked := Current(s, req.pin) && req.workspace == s.config.canonicalWorkspace &&
        req.modelId in s.config.models;
      && (reply == Success(Admission(op, true)) <==>
            && asked && op !in s.records && |s.records| < s.config.maxOperations
            && req.sessionId !in s.sessions && |s.sessions| < s.config.maxSessions)
      && (reply == Success(Admission(op, false)) <==>
            && asked && op in s.records
            && s.records[op].identity == Identity(req, CreateKind, req.sessionId, None, None))
      && (reply == Failure(GenerationMismatch) <==> !Current(s, req.pin))
      && (reply == Failure(WorkspaceMismatch) <==>
            Current(s, req.pin) && req.workspace != s.config.canonicalWorkspace)
      && (reply == Failure(LimitExceeded) <==>
            asked && op !in s.records && req.sessionId !in s.sessions &&
              (|s.records| >= s.config.maxOperations || |s.sessions| >= s.config.maxSessions))
      && reply != Failure(NotFound) && reply != Failure(SessionBusy)
      && (reply == Success(Admission(op, true)) ==>
            && s'.records == s.records[op :=
                 Record(Identity(req, CreateKind, req.sessionId, None, None), Accepted, None, None)]
            && s'.sessions == s.sessions[req.sessionId :=
                 Session(None, req.modelId, req.stableDigest, Creating, None, false, None, map[])]
            && s'.tasks == s.tasks[op := Scheduled] && s'.reservations == s.reservations && s'.calls == s.calls)
  {
  }

  /** A retirement is admitted as new if and only if its session is idle and not retired, and it is settled at once. */
  lemma RetireAdmitted(s: State, req: Request)
    requires req.Retire?
    ensures var (s', reply) := AdmitRetire(s, req); var op := req.pin.operationId; var sid := req.sessionId;
      var asked := Current(s, req.pin) && op !in s.records;
      && (reply == Success(Admission(op, true)) <==>
            && asked && |s.records| < s.config.maxOperations
            && sid in s.sessions && !s.sessions[sid].state.Retired? && s.sessions[sid].active.None?)
      && (reply == Success(Admission(op, false)) <==>
            Current(s, req.pin) && op in s.records &&
              s.records[op].identity == Identity(req, RetireKind, sid, None, None))
      && (reply == Failure(GenerationMismatch) <==> !Current(s, req.pin))
      && (reply == Failure(NotFound) <==> asked && sid !in s.sessions)
      && (asked && sid in s.sessions ==>
            (reply == Failure(Conflict) <==> s.sessions[sid].state.Retired? || s.sessions[sid].active.Some?))
      && (reply == Success(Admission(op, true)) ==>
            && s'.records == s.records[op := Record(Identity(req, RetireKind, sid, None, None), Completed,
                 Some(SessionRetired(s.sessions[sid].backend)), None)]
            && s'.sessions == s.sessions[sid := s.sessions[sid].(state := Retired)]
            && s'.tasks == s.tasks && s'.calls == s.calls)
  {
  }

  /**
   A cancellation is admitted as new if and only if its target is a prompt and there is room. A target not yet
   dispatched is cancelled at once and its session is free; of a settled one the state is reported; any other is
   marked, and a task will ask the child.
   */
  lemma CancelAdmitted(config: Config, events: seq<Event>, req: Request)
    requires req.Cancel?
    ensures var s := Run(Start(config), events); var reply := AdmitCancel(s, req).1;
      var op, target := req.pin.operationId, req.target;
      && (reply == Success(Admission(op, true)) <==>
            && Current(s, req.pin) && op !in s.records && |s.records| < s.config.maxOperations
            && target in s.records && s.records[target].identity.kind.PromptKind?)
      && (reply == Failure(GenerationMismatch) <==> !Current(s, req.pin))
      && (reply == Failure(NotFound) <==> Current(s, req.pin) && target !in s.records)
      && (Current(s, req.pin) && target in s.records && !s.records[target].identity.kind.PromptKind? ==>
            reply == Failure(Conflict))
      && (Current(s, req.pin) && target in s.records && s.records[target].identity.kind.PromptKind? ==>
            if op !in s.records then
              reply == (if |s.records| < s.config.maxOperations then Success(Admission(op, true))
                        else Failure(LimitExceeded))
            else
              reply == (if s.records[op].identity == Identity(req, CancelKind, SessionOf(s, target), None, Some(target))
                        then Success(Admission(op, false)) else Failure(Conflict)))
      && (reply == Success(Admission(op, true)) ==> CancelEnters(s, AdmitCancel(s, req).0, req))
  {
    hide Inv, CancelEnters;
    Reached(config, events);
    var s := Run(Start(config), events);
    if req.target in s.records && s.records[req.target].identity.kind.PromptKind? { ShapedPrompt(s, req.target); }
    CancelDecided(s, req);
  }

  predicate CancelEnters(s: State, s': State, req: Request)
    requires req.Cancel?
  {
    var op, target := req.pin.operationId, req.target;
    && target in s.records && SessionOf(s, target) in s.sessions
    && var r, sid := s.records[target], SessionOf(s, target);
    var own := Identity(req, CancelKind, sid, None, Some(target));
    && s'.calls == s.calls
    && (if r.state.Accepted? || r.state.Queued? then
          && s'.records == s.records
               [target := r.(state := Cancelled, result := Some(CancelledPreDispatch), error := None)]
               [op := Record(own, Completed, Some(CancelReport(Cancelled, false)), None)]
          && s'.sessions == s.sessions[sid := s.sessions[sid].(active := None, state := Ready)]
          && s'.released == s.released + {target} && s'.tasks == s.tasks
        else if r.state.Terminal() then
          && s'.records == s.records[op := Record(own, Completed, Some(CancelReport(r.state, false)), None)]
          && s'.sessions == s.sessions && s'.released == s.released && s'.tasks == s.tasks
        else
          && s'.records == s.records[target := r.(state := Cancelling)][op := Record(own, Accepted, None, None)]
          && s'.sessions == s.sessions && s'.released == s.released && s'.tasks == s.tasks[op := Scheduled])
  }

  lemma CancelDecided(s: State, req: Request)
    requires req.Cancel?
    requires req.target in s.records && s.records[req.target].identity.kind.PromptKind? ==>
      SessionOf(s, req.target) in s.sessions
    ensures var reply := AdmitCancel(s, req).1; var op, target := req.pin.operationId, req.target;
      && (reply == Success(Admission(op, true)) <==>
            && Current(s, req.pin) && op !in s.records && |s.records| < s.config.maxOperations
            && target in s.records && s.records[target].identity.kind.PromptKind?)
      && (reply == Failure(GenerationMismatch) <==> !Current(s, req.pin))
      && (reply == Failure(NotFound) <==> Current(s, req.pin) && target !in s.records)
      && (Current(s, req.pin) && target in s.records && !s.records[target].identity.kind.PromptKind? ==>
            reply == Failure(Conflict))
      && (Current(s, req.pin) && target in s.records && s.records[target].identity.kind.PromptKind? ==>
            if op !in s.records then
              reply == (if |s.records| < s.config.maxOperations then Success(Admission(op, true))
                        else Failure(LimitExceeded))
            else
              reply == (if s.records[op].identity == Identity(req, CancelKind, SessionOf(s, target), None, Some(target))
                        then Success(Admission(op, false)) else Failure(Conflict)))
      && (reply == Success(Admission(op, true)) ==> CancelEnters(s, AdmitCancel(s, req).0, req))
  {
  }

  /** The layers of each phase: what is needed is not empty, and nothing else is there. */
  lemma LayersByPhase(r: PromptRequest)
    ensures ValidLayers(r) <==>
      match r.phase
      case Initial =>
        && r.stableInstructions.Some? && r.delta.None?
        && r.prompt.Some? && |r.prompt.value| > 0 && r.outputContract.Some? && |r.outputContract.value| > 0
      case Invocation =>
        && r.stableInstructions.None? && r.delta.None?
        && r.prompt.Some? && |r.prompt.value| > 0 && r.outputContract.Some? && |r.outputContract.value| > 0
      case _ =>
        && r.stableInstructions.None? && r.prompt.None? && r.outputContract.None?
        && r.delta.Some? && |r.delta.value| > 0
  {
  }

  /** The status query answers the record under a current pin, and an error otherwise. */
  lemma StatusAnswered(s: State, pin: Pin)
    ensures Query(s, pin) ==
      if !Current(s, pin) then Failure(GenerationMismatch)
      else if pin.operationId in s.records then Success(s.records[pin.operationId])
      else Failure(NotFound)
  {
  }
}
