/** What the direct service promises, over every run from its start and every continuation. */
module ServiceTheorems {
  import opened Wrappers
  import opened DirectProtocol
  import opened DirectState
  import opened ServiceModel
  import opened ServiceInvariant
  import opened ServiceLocal
  import opened ServiceEvents
  import opened ServiceLoss
  import opened ServiceAdmission
  import opened ServiceRuns
  import opened ServiceAftermath

  lemma Reached(config: Config, events: seq<Event>)
    ensures Inv(Run(Start(config), events))
  {
    hide Inv, Keeps;
    StartInv(config);
    RunKeeps(Start(config), events);
    KeepsInv(Start(config), Run(Start(config), events));
  }

  // ----- the child is asked at most once -----

  /** The stable instructions of a session reach the child at most once. */
  lemma StableInstructionsOnce(config: Config, events: seq<Event>, i: nat, j: nat)
    requires i < j < |Run(Start(config), events).calls|
    ensures var calls := Run(Start(config), events).calls;
      calls[i].PromptCall? && calls[j].PromptCall? && calls[i].session == calls[j].session ==>
        !(calls[i].phase.Initial? && calls[j].phase.Initial?)
  {
    Reached(config, events);
    var calls := Run(Start(config), events).calls;
    assert !SameSubmission(calls[i], calls[j]);
  }

  /**
   An operation creates at most one session, or sends at most one prompt; one cancelled before
   dispatch sends none.
   */
  lemma EffectsOnce(config: Config, events: seq<Event>)
    ensures var s := Run(Start(config), events);
      && (forall i, j :: 0 <= i < j < |s.calls| ==> !SameEffect(s.calls[i], s.calls[j]))
      && (forall i :: 0 <= i < |s.calls| && s.calls[i].PromptCall? ==>
            && s.calls[i].op in s.records
            && s.records[s.calls[i].op].result != Some(CancelledPreDispatch)
            && s.calls[i].session in s.sessions
            && s.sessions[s.calls[i].session].backend.Some?)
  {
    Reached(config, events);
    var s := Run(Start(config), events);
    forall i | 0 <= i < |s.calls| && s.calls[i].PromptCall?
      ensures s.calls[i].op in s.records && s.records[s.calls[i].op].result != Some(CancelledPreDispatch)
      ensures s.calls[i].session in s.sessions && s.sessions[s.calls[i].session].backend.Some?
    {
      assert CallGrounded(s, s.calls[i]);
      assert ReportTrue(s, s.calls[i].op) && RecordShaped(s, s.calls[i].op);
    }
  }

  /** At most one prompt is in flight; after the loss, whatever still is has been cancelled. */
  lemma OnePromptInFlight(config: Config, events: seq<Event>, a: Id, b: Id)
    ensures var s := Run(Start(config), events);
      a in s.collectors && s.collectors[a].Live? && b in s.collectors && s.collectors[b].Live? ==>
        if s.quarantined then s.collectors[a].cancelRequested && s.collectors[b].cancelRequested else a == b
  {
    Reached(config, events);
  }

  // ----- sessions whose outcome is uncertain are never used again -----

  lemma ClosedRefuses(s: State, sid: Id, body: PromptRequest)
    requires Closed(s, sid) && ValidLayers(body)
    ensures AdmitPrompt(s, sid, body).1 != Success(Admission(body.pin.operationId, true))
  {
  }

  /** A session with a dispatched prompt that ended in anything but success admits no prompt in any continuation. */
  lemma SpoiledNeverReused(config: Config, events: seq<Event>, more: seq<Event>, op: Id, body: PromptRequest)
    requires Spoiled(Run(Start(config), events), op) && ValidLayers(body)
    ensures var s := Run(Start(config), events);
      AdmitPrompt(Run(s, more), SessionOf(s, op), body).1 != Success(Admission(body.pin.operationId, true))
  {
    Reached(config, events);
    var s := Run(Start(config), events);
    SpoiledIsClosed(s, op);
    RunKeeps(s, more);
    StillClosed(s, Run(s, more), SessionOf(s, op));
    ClosedRefuses(Run(s, more), SessionOf(s, op), body);
  }

  lemma SpoiledIsClosed(s: State, op: Id)
    requires Inv(s) && Spoiled(s, op)
    ensures Closed(s, SessionOf(s, op))
  {
  }

  lemma StillClosed(s: State, s': State, sid: Id)
    requires Keeps(s, s') && Closed(s, sid)
    ensures Closed(s', sid)
  {
  }

  /** The operation that creates the session has settled. */
  ghost predicate CreationSettled(s: State, sid: Id) {
    forall c {:trigger c in s.records} :: c in s.records && IsCreate(s, c) && SessionOf(s, c) == sid ==>
      s.records[c].state.Terminal()
  }

  lemma RetirementAllowed(s: State, req: Request)
    requires req.Retire? && AdmitRetire(s, req).1 == Success(Admission(req.pin.operationId, true))
    ensures !s.quarantined && req.sessionId in s.sessions && s.sessions[req.sessionId].active.None?
  {
  }

  lemma RetiredInert(s: State, req: Request, o: Id)
    requires Inv(s) && req.Retire? && AdmitRetire(s, req).1 == Success(Admission(req.pin.operationId, true))
    requires o in s.records && SessionOf(s, o) == req.sessionId && !IsCreate(s, o)
    ensures Inert(s, o)
  {
    hide AdmitRetire, Base, Stages, Locking, SpoiledClosed, OpeningAlone;
    RetirementAllowed(s, req);
    OperationShaped(s, o);
  }

  lemma OperationShaped(s: State, o: Id)
    requires Inv(s) && o in s.records
    ensures RecordShaped(s, o)
  {
  }

  lemma RetiredIsClosed(s: State, req: Request)
    requires Inv(s) && req.Retire? && AdmitRetire(s, req).1 == Success(Admission(req.pin.operationId, true))
    requires CreationSettled(s, req.sessionId)
    ensures Closed(AdmitRetire(s, req).0, req.sessionId)
  {
    hide Inv;
    var s' := AdmitRetire(s, req).0;
    forall o | o in s'.records && SessionOf(s', o) == req.sessionId ensures Inert(s', o) {
      if o != req.pin.operationId {
        if !IsCreate(s, o) { RetiredInert(s, req, o); }
      }
    }
  }

  /** A prompt could be admitted to the session now. */
  predicate Open(s: State, sid: Id) {
    !s.quarantined && sid in s.sessions && s.sessions[sid].state.Ready?
  }

  lemma ReplyOpens(s: State, c: Id)
    requires At(s, c, AwaitingCreate) && !s.quarantined
    ensures Open(Next(s, CreateReply(c, 0, s.sessions[SessionOf(s, c)].modelId)), SessionOf(s, c))
  {
  }

  lemma CreationStarts(s: State, c: Id)
    requires FactsAt(s, c) && IsCreate(s, c) && At(s, c, Scheduled)
    ensures var s' := Next(s, TaskRuns(c));
      At(s', c, AwaitingCreate) && !s'.quarantined && s'.sessions == s.sessions && SessionOf(s', c) == SessionOf(s, c)
  {
  }

  lemma OpeningStage(s: State, c: Id)
    requires Inv(s) && !s.quarantined && c in s.records && Opening(s, c)
    ensures FactsAt(s, c) && (At(s, c, Scheduled) || At(s, c, AwaitingCreate))
  {
    assert RecordShaped(s, c);
    Facts(s, c);
  }

  /** A session whose creation is still unsettled becomes ready as soon as the child replies. */
  lemma CreationReopens(s: State, c: Id) returns (more: seq<Event>)
    requires Inv(s) && !s.quarantined && c in s.records && Opening(s, c)
    ensures Open(Run(s, more), SessionOf(s, c))
  {
    hide Inv, FactsAt, Next, Open;
    OpeningStage(s, c);
    var reply := CreateReply(c, 0, s.sessions[SessionOf(s, c)].modelId);
    if At(s, c, Scheduled) {
      CreationStarts(s, c);
      ReplyOpens(Next(s, TaskRuns(c)), c);
      RunTwo(s, TaskRuns(c), reply);
      more := [TaskRuns(c), reply];
    } else {
      ReplyOpens(s, c);
      RunOne(s, reply);
      more := [reply];
    }
  }

  lemma RunOne(s: State, e: Event)
    ensures Run(s, [e]) == Next(s, e)
  {
    hide Next;
    assert [e][1..] == [];
  }

  lemma RunTwo(s: State, e: Event, f: Event)
    ensures Run(s, [e, f]) == Next(Next(s, e), f)
  {
    hide Next;
    assert [e, f][1..] == [f];
    RunOne(Next(s, e), f);
  }

  lemma ClosedNeverOpens(s: State, sid: Id, more: seq<Event>)
    requires Inv(s) && Closed(s, sid)
    ensures !Open(Run(s, more), sid)
  {
    RunKeeps(s, more);
    StillClosed(s, Run(s, more), sid);
  }

  lemma RetireKeepsOpening(s: State, req: Request, c: Id)
    requires Inv(s) && req.Retire? && AdmitRetire(s, req).1 == Success(Admission(req.pin.operationId, true))
    requires c in s.records && Opening(s, c)
    ensures var s' := AdmitRetire(s, req).0;
      Inv(s') && !s'.quarantined && c in s'.records && Opening(s', c) && SessionOf(s', c) == SessionOf(s, c)
  {
    hide Inv, Keeps;
    RetireAdmissionKeeps(s, req);
    KeepsInv(s, AdmitRetire(s, req).0);
  }

  /**
   A retirement is final exactly when the session's creation had settled: a session that is
   retired while its creation is in flight is made ready by the reply.
   */
  lemma RetirementIsFinal(config: Config, events: seq<Event>, req: Request)
    requires req.Retire?
    requires AdmitRetire(Run(Start(config), events), req).1 == Success(Admission(req.pin.operationId, true))
    ensures var s := Run(Start(config), events); var s' := AdmitRetire(s, req).0;
      CreationSettled(s, req.sessionId) <==> forall more: seq<Event> :: !Open(Run(s', more), req.sessionId)
  {
    hide Inv, Keeps, Closed;
    var s := Run(Start(config), events);
    var s' := AdmitRetire(s, req).0;
    Reached(config, events);
    if CreationSettled(s, req.sessionId) {
      RetiredIsClosed(s, req);
      RetireAdmissionKeeps(s, req);
      KeepsInv(s, s');
      forall more: seq<Event> ensures !Open(Run(s', more), req.sessionId) {
        ClosedNeverOpens(s', req.sessionId, more);
      }
    } else {
      var c :| c in s.records && IsCreate(s, c) && SessionOf(s, c) == req.sessionId && !s.records[c].state.Terminal();
      RetireKeepsOpening(s, req, c);
      var more := CreationReopens(s', c);
      assert Open(Run(s', more), req.sessionId);
    }
  }

  // ----- one unsettled prompt a session, and what admission checked still holds -----

  /**
   Each session of an intact generation has at most one unsettled prompt, for which its admission
   check still holds.
   */
  lemma UnsettledPromptStillValid(config: Config, events: seq<Event>, a: Id, b: Id)
    ensures var s := Run(Start(config), events);
      !s.quarantined && Unsettled(s, a) && Unsettled(s, b) && SessionOf(s, a) == SessionOf(s, b) ==>
        && a == b
        && ValidLayers(BodyOf(s, a))
        && SessionOf(s, a) in s.sessions
        && LifetimeAllows(s.sessions[SessionOf(s, a)], BodyOf(s, a))
        && !s.sessions[SessionOf(s, a)].state.Ready?
  {
    Reached(config, events);
    var s := Run(Start(config), events);
    if !s.quarantined && Unsettled(s, a) && Unsettled(s, b) { assert UnsettledFits(s, a); }
  }

  /** The contracts of a session are only added to, and its active invocation always has one. */
  lemma ContractsOnlyGrow(config: Config, events: seq<Event>, more: seq<Event>, sid: Id)
    requires sid in Run(Start(config), events).sessions
    ensures var s := Run(Start(config), events); var s' := Run(s, more);
      && sid in s'.sessions
      && (s.sessions[sid].stableSubmitted ==> s'.sessions[sid].stableSubmitted)
      && (s.sessions[sid].backend.Some? ==> s'.sessions[sid].backend == s.sessions[sid].backend)
      && (forall i :: i in s.sessions[sid].contracts ==>
            i in s'.sessions[sid].contracts && s'.sessions[sid].contracts[i] == s.sessions[sid].contracts[i])
      && (s'.sessions[sid].activeInvocation.Some? ==>
            s'.sessions[sid].activeInvocation.value in s'.sessions[sid].contracts && s'.sessions[sid].stableSubmitted)
  {
    Reached(config, events);
    var s := Run(Start(config), events);
    RunKeeps(s, more);
    assert SessionGrows(s.sessions[sid], Run(s, more).sessions[sid]);
    assert SessionCoherent(Run(s, more).sessions[sid]);
  }

  /**
   A completed prompt's contract is the one its session holds for that invocation from then on, so
   two completed prompts of one invocation carry the same contract.
   */
  lemma CompletedContractsKept(config: Config, events: seq<Event>, more: seq<Event>, a: Id, b: Id)
    ensures var s := Run(Start(config), events); var s' := Run(s, more);
      && (IsPrompt(s, a) && s.records[a].state.Completed? ==>
            && SessionOf(s, a) in s'.sessions
            && (BodyOf(s, a).phase.Initial? ==> s'.sessions[SessionOf(s, a)].stableSubmitted)
            && var contracts := s'.sessions[SessionOf(s, a)].contracts;
              BodyOf(s, a).invocationId in contracts
              && contracts[BodyOf(s, a).invocationId] == BodyOf(s, a).contractDigest)
      && (IsPrompt(s, a) && s.records[a].state.Completed? && IsPrompt(s', b) && s'.records[b].state.Completed?
            && SessionOf(s, a) == SessionOf(s', b) && BodyOf(s, a).invocationId == BodyOf(s', b).invocationId ==>
            BodyOf(s, a).contractDigest == BodyOf(s', b).contractDigest)
  {
    hide Inv;
    Reached(config, events);
    var s := Run(Start(config), events);
    RunKeeps(s, more);
    if IsPrompt(s, a) && s.records[a].state.Completed? {
      FulfilledAt(s, a);
      assert SessionGrows(s.sessions[SessionOf(s, a)], Run(s, more).sessions[SessionOf(s, a)]);
      if IsPrompt(Run(s, more), b) && Run(s, more).records[b].state.Completed? { FulfilledAt(Run(s, more), b); }
    }
  }

  lemma FulfilledAt(s: State, op: Id)
    requires Inv(s) && IsPrompt(s, op) && s.records[op].state.Completed?
    ensures SessionOf(s, op) in s.sessions && Fulfilled(s.sessions[SessionOf(s, op)], s.records[op])
  {
    assert RecordShaped(s, op);
  }

  // ----- reservations and capacities -----

  /** Reservations count the prompts not released, stay within the queue bound and never underflow. */
  lemma ReservationsConserved(config: Config, events: seq<Event>)
    ensures var s := Run(Start(config), events);
      && s.reservations == |Prompts(s) - s.released|
      && s.released <= Prompts(s)
      && 0 <= s.reservations <= config.maxQueuedPrompts + 1
      && |s.records| <= config.maxOperations
      && |s.sessions| <= config.maxSessions
  {
    Reached(config, events);
    StartInv(config);
    RunKeeps(Start(config), events);
  }

  lemma ReleasedMeans(s: State, op: Id)
    requires Inv(s)
    ensures op in s.released && op in s.records ==> ReleasedFor(s, op)
  {
  }

  /** A prompt that is waiting for its turn holds its reservation. */
  lemma WaitingPromptsAreReserved(config: Config, events: seq<Event>, op: Id)
    ensures var s := Run(Start(config), events);
      !s.quarantined && IsPrompt(s, op) && (s.records[op].state.Accepted? || s.records[op].state.Queued?) ==>
        op !in s.released
  {
    hide Inv;
    Reached(config, events);
    var s := Run(Start(config), events);
    if !s.quarantined && IsPrompt(s, op) {
      ShapedPrompt(s, op);
      Facts(s, op);
      ReleasedMeans(s, op);
    }
  }

  // ----- settled is settled -----

  /** An operation only climbs, keeps its identity, and keeps state, result and error once it is terminal. */
  lemma TerminalIsFinal(config: Config, events: seq<Event>, more: seq<Event>, op: Id)
    requires op in Run(Start(config), events).records
    ensures var s := Run(Start(config), events); var s' := Run(s, more);
      && op in s'.records
      && s'.records[op].identity == s.records[op].identity
      && s.records[op].state.Stage() <= s'.records[op].state.Stage()
      && (s.records[op].state.Terminal() ==> s'.records[op] == s.records[op])
  {
    Reached(config, events);
    var s := Run(Start(config), events);
    RunKeeps(s, more);
    assert RecordGrows(s.records[op], Run(s, more).records[op]);
  }

  /** A cancellation that reports any state but in doubt reports the target's state for ever. */
  lemma CancelReportsForEver(config: Config, events: seq<Event>, more: seq<Event>, op: Id)
    requires op in Run(Start(config), events).records
    requires var r := Run(Start(config), events).records[op].result;
      r.Some? && r.value.CancelReport? && !r.value.targetState.InDoubt?
    ensures var r := Run(Start(config), events).records[op];
      && r.identity.target.Some?
      && r.identity.target.value in Run(Run(Start(config), events), more).records
      && Run(Run(Start(config), events), more).records[r.identity.target.value].state == r.result.value.targetState
      && r.result.value.targetState.Terminal()
  {
    Reached(config, events);
    var s := Run(Start(config), events);
    assert ReportTrue(s, op);
    TerminalIsFinal(config, events, more, s.records[op].identity.target.value);
  }

  /** The grace of a cancellation ends, and it loses the generation with its report deferred. */
  ghost predicate GivesUp(s: State, e: Event, op: Id) {
    && ((e == GraceExpires(op) && At(s, op, AwaitingTarget)) || (e == Reaped(op) && At(s, op, ReapingTarget)))
    && Next(s, e).quarantined
  }

  /**
   A cancellation that gives up reports in doubt in every continuation that publishes its report, and
   only after the abort; the report is right if and only if its target was unsettled, or already in
   doubt, when the grace ended.
   */
  lemma DoubtReportedExactly(config: Config, events: seq<Event>, e: Event, more: seq<Event>, op: Id)
    requires GivesUp(Run(Start(config), events), e, op)
    ensures var s := Run(Start(config), events); var s' := Run(Next(s, e), more);
      && IsCancel(s, op)
      && !s.records[op].state.Terminal()
      && var target := s.records[op].identity.target.value;
         && op in s'.records && target in s'.records
         && (s'.records[op].state.Terminal() ==>
               && s'.abortAttempted
               && s'.records[op].result == Some(CancelReport(InDoubt, true))
               && (s'.records[target].state.InDoubt? <==>
                     !s.records[target].state.Terminal() || s.records[target].state.InDoubt?))
  {
    hide Inv, Keeps, Next, GivesUp, Aftermath;
    Reached(config, events);
    var s := Run(Start(config), events);
    var s1 := Next(s, e);
    NextKeeps(s, e);
    KeepsInv(s, s1);
    GivenUp(s, e, op);
    LossFreezes(s1, more);
    ReportPublished(s, s1, Run(s1, more), op);
  }

  lemma GivenUp(s: State, e: Event, op: Id)
    requires Inv(s) && GivesUp(s, e, op)
    ensures Next(s, e).quarantined && IsCancel(s, op) && !IsPrompt(s, op)
    ensures !s.records[op].state.Terminal() && s.records[op].identity.target != Some(op)
    ensures var target := s.records[op].identity.target.value;
      && DeferredOf(Next(s, e)) == CancelDeferred(op, target)
      && op in Next(s, e).records && Next(s, e).records[op] == s.records[op]
      && target in Next(s, e).records && Next(s, e).records[target] == s.records[target]
  {
    hide Inv, Next, QuarantineSession;
    if s.quarantined {
      LostTask(s, op);
    } else {
      IntactTaskKinds(s, op);
      CancelRuns(s, op);
      var target := s.records[op].identity.target.value;
      CancelDefers(op, target);
      GivesUpLoses(s, e, op);
      LosesDeferring(s, op, CancelDeferred(op, target));
    }
  }

  lemma GivesUpLoses(s: State, e: Event, op: Id)
    requires !s.quarantined && GivesUp(s, e, op) && IsCancel(s, op)
    ensures Next(s, e) == QuarantineSession(s, op, CancelDeferred(op, s.records[op].identity.target.value))
  {
    hide QuarantineSession;
  }

  lemma LosesDeferring(s: State, op: Id, deferred: seq<Settlement>)
    requires Located(s, op) && !s.quarantined
    ensures var s' := QuarantineSession(s, op, deferred);
      && s'.quarantined
      && DeferredOf(s') == deferred
      && forall o {:trigger o in Ops(deferred)} :: o in Ops(deferred) && o in s.records ==>
        o in s'.records && s'.records[o] == s.records[o]
  {
  }

  lemma CancelDefers(op: Id, target: Id)
    ensures Ops(CancelDeferred(op, target)) == {target, op}
  {
    var d := CancelDeferred(op, target);
    assert Ops(d) == {d[0].op, d[1].op};
  }

  lemma CancelRuns(s: State, op: Id)
    requires Inv(s) && !s.quarantined && Located(s, op) && IsCancel(s, op)
    requires s.tasks[op].AwaitingTarget? || s.tasks[op].ReapingTarget?
    ensures s.records[op].state.Running? && s.records[op].identity.target != Some(op)
  {
    hide Inv;
    Facts(s, op);
  }

  lemma ReportPublished(s: State, s1: State, s': State, op: Id)
    requires IsCancel(s, op) && !s.records[op].state.Terminal() && s.records[op].identity.target != Some(op)
    requires var target := s.records[op].identity.target.value;
      && DeferredOf(s1) == CancelDeferred(op, target)
      && op in s1.records && s1.records[op] == s.records[op]
      && target in s1.records && s1.records[target] == s.records[target]
    requires Aftermath(s1, s')
    ensures var target := s.records[op].identity.target.value;
      && op in s'.records && target in s'.records
      && (s'.records[op].state.Terminal() ==>
            && s'.abortAttempted
            && s'.records[op].result == Some(CancelReport(InDoubt, true))
            && (s'.records[target].state.InDoubt? <==>
                  !s.records[target].state.Terminal() || s.records[target].state.InDoubt?))
  {
    var d := CancelDeferred(op, s.records[op].identity.target.value);
    PublishTwo(s1.records, d[0], d[1]);
    PublishTwo(Publish(s1.records, [d[0]]), d[1], d[1]);
  }

  // ----- quarantine is one-way and complete -----

  /** Once the generation is lost, no admission succeeds, nothing more is recorded, no more calls are made. */
  lemma QuarantineIsOneWay(config: Config, events: seq<Event>, more: seq<Event>, req: Request, sid: Id)
    requires Run(Start(config), events).quarantined
    requires req.Prompt? ==> ValidLayers(req.body)
    ensures var s := Run(Start(config), events); var s' := Run(s, more);
      && s'.quarantined
      && s'.records.Keys == s.records.Keys
      && s'.calls == s.calls
      && (match req
          case CreateSession(_, _, _, _, _) => AdmitCreate(s', req).1
          case Prompt(body) => AdmitPrompt(s', sid, body).1
          case Cancel(_, _) => AdmitCancel(s', req).1
          case Retire(_, _) => AdmitRetire(s', req).1).Failure?
  {
    Reached(config, events);
    RunKeeps(Run(Start(config), events), more);
  }

  /** After the loss every operation is terminal, or the task that lost the generation will publish it. */
  lemma QuarantineIsComplete(config: Config, events: seq<Event>, op: Id)
    ensures var s := Run(Start(config), events);
      s.quarantined && op in s.records ==> s.records[op].state.Terminal() || Deferred(s, op)
  {
    Reached(config, events);
  }

  /**
   No operation is in doubt before quarantine but for a mismatched stop, and none by deferral before the
   abort; nor does a cancellation before them fail, or report in doubt a target that is not.
   */
  lemma DoubtFollowsQuarantine(config: Config, events: seq<Event>, op: Id)
    requires op in Run(Start(config), events).records
    ensures var s := Run(Start(config), events); var r := s.records[op];
      && (r.state.InDoubt? && r.error != Some(CancellationStopMismatch) ==>
            s.quarantined && (r.error == Some(ContinuityLost) || s.abortAttempted))
      && (r.error == Some(CancelFailed) ==> s.quarantined && s.abortAttempted)
      && (r.result.Some? && r.result.value.CancelReport? && r.result.value.targetState.InDoubt? ==>
            && r.identity.target.Some? && r.identity.target.value in s.records
            && (s.records[r.identity.target.value].state.InDoubt? || (s.quarantined && s.abortAttempted)))
  {
    Reached(config, events);
    assert ReportTrue(Run(Start(config), events), op);
  }

  /**
   Once the generation is lost no record changes in any continuation, but for those whose settlement
   was deferred; each of them changes only after the abort was attempted, and into that settlement.
   */
  lemma DeferredSettleAfterAbort(config: Config, events: seq<Event>, more: seq<Event>, op: Id)
    requires Run(Start(config), events).quarantined && op in Run(Start(config), events).records
    ensures var s := Run(Start(config), events); var s' := Run(s, more);
      && op in s'.records
      && (s'.records[op] != s.records[op] ==>
            && Deferred(s, op)
            && s'.abortAttempted
            && exists d :: d in DeferredOf(s) && d.op == op && s'.records[op] == SettledAs(s.records[op], d))
  {
    hide Inv, Aftermath, Publish;
    Reached(config, events);
    var s := Run(Start(config), events);
    LossFreezes(s, more);
    AfterwardsAt(s, Run(s, more), op);
  }

  lemma AfterwardsAt(s: State, s': State, op: Id)
    requires Aftermath(s, s') && op in s.records
    ensures op in s'.records
    ensures s'.records[op] != s.records[op] ==>
      && Deferred(s, op)
      && s'.abortAttempted
      && exists d :: d in DeferredOf(s) && d.op == op && s'.records[op] == SettledAs(s.records[op], d)
  {
    PublishedAt(s.records, DeferredOf(s), op);
    if s'.records[op] != s.records[op] {
      var d :| d in DeferredOf(s) && d.op == op && s'.records[op] == SettledAs(s.records[op], d);
      assert op in Ops(DeferredOf(s));
    }
  }

  /** Nothing stays unpublished: after the loss, two steps of its task settle every operation. */
  lemma LossSettlesEverything(config: Config, events: seq<Event>) returns (more: seq<Event>)
    requires Run(Start(config), events).quarantined
    ensures |more| <= 2 && AllTerminal(Run(Run(Start(config), events), more))
  {
    hide Inv, Keeps, AllTerminal;
    Reached(config, events);
    more := LossSettles(Run(Start(config), events));
  }

  lemma LossSettles(s: State) returns (more: seq<Event>)
    requires Inv(s) && s.quarantined
    ensures |more| <= 2 && AllTerminal(Run(s, more))
  {
    hide Inv, Keeps, Next, AllTerminal;
    if AllTerminal(s) {
      more := [];
    } else {
      var owner := DeferringOwner(s);
      if s.tasks[owner].Aborting? {
        PublicationSettles(s, owner);
        RunOne(s, PublishNow(owner));
        more := [PublishNow(owner)];
      } else {
        AbortAborts(s, owner);
        PublicationSettles(Next(s, Abort(owner)), owner);
        RunTwo(s, Abort(owner), PublishNow(owner));
        more := [Abort(owner), PublishNow(owner)];
      }
    }
  }

  lemma AbortAborts(s: State, op: Id)
    requires Inv(s) && s.quarantined && Located(s, op) && s.tasks[op].Quarantining?
    ensures var s' := Next(s, Abort(op)); Inv(s') && s'.quarantined && Located(s', op) && s'.tasks[op].Aborting?
  {
    hide Inv, Keeps;
    AbortKeeps(s, op, s.tasks[op].deferred);
    KeepsInv(s, AbortChild(s, op, s.tasks[op].deferred));
  }

  lemma DeferringOwner(s: State) returns (owner: Id)
    requires Inv(s) && s.quarantined && !AllTerminal(s)
    ensures Located(s, owner) && Deferring(s.tasks[owner])
  {
    var op :| op in s.records && !s.records[op].state.Terminal();
    assert Deferred(s, op);
    owner := s.lostBy.value;
    assert RecordShaped(s, owner);
  }

  lemma PublicationSettles(s: State, op: Id)
    requires Inv(s) && s.quarantined && Located(s, op) && s.tasks[op].Aborting?
    ensures AllTerminal(Next(s, PublishNow(op)))
  {
    hide Inv, Keeps;
    if s.records[op].identity.kind.CancelKind? { PublishedTwoKeeps(s, op); } else { PublishedOneKeeps(s, op); }
    PublishedPlaces(s, op);
    PublishedRecords(s, op);
  }

  lemma PublishedRecords(s: State, op: Id)
    requires Located(s, op) && s.tasks[op].Aborting? && Located(Published(s, op), op)
    ensures Next(s, PublishNow(op)).records == Published(s, op).records
  {
    assert Next(s, PublishNow(op)) == PublishDeferred(s, op, s.tasks[op].deferred);
    hide Next, Publish, AfterFinally;
  }

  // ----- the ledger is a write-once map from operation IDs to identities -----

  function Recorded(s: State): map<Id, Identity> {
    map op | op in s.records :: s.records[op].identity
  }

  datatype Attempt = Attempt(op: Id, identity: Identity, reply: Reply)

  /** The operation ID an admission uses, the identity it would record, and the answer it gets. */
  function AttemptOf(s: State, e: Event): Option<Attempt> {
    match e
    case DoCreate(req) =>
      if req.CreateSession? then
        Some(Attempt(req.pin.operationId, Identity(req, CreateKind, req.sessionId, None, None), AdmitCreate(s, req).1))
      else None
    case DoPrompt(sid, body) =>
      if ValidLayers(body) then
        Some(Attempt(body.pin.operationId, Identity(Prompt(body), PromptKind, sid, Some(body.invocationId), None),
                     AdmitPrompt(s, sid, body).1))
      else None
    case DoCancel(req) =>
      if req.Cancel? && req.target in s.records then
        Some(Attempt(req.pin.operationId, Identity(req, CancelKind, SessionOf(s, req.target), None, Some(req.target)),
                     AdmitCancel(s, req).1))
      else None
    case DoRetire(req) =>
      if req.Retire? then
        Some(Attempt(req.pin.operationId, Identity(req, RetireKind, req.sessionId, None, None), AdmitRetire(s, req).1))
      else None
    case _ => None
  }

  /**
   What an admission may do to the ledger: record a new ID, answer a repeated one with its record,
   or refuse; a repetition and a refusal change nothing at all, and an ID that is recorded with
   another identity is refused.
   */
  ghost predicate Refines(s: State, s': State, a: Attempt) {
    match a.reply
    case Success(Admission(op, true)) =>
      op == a.op && a.op !in s.records && Recorded(s') == Recorded(s)[a.op := a.identity]
    case Success(Admission(op, false)) =>
      op == a.op && a.op in s.records && s.records[a.op].identity == a.identity && s' == s
    case Failure(_) => s' == s
  }

  lemma CreateRefines(s: State, req: Request)
    requires req.CreateSession?
    ensures Refines(s, Next(s, DoCreate(req)), AttemptOf(s, DoCreate(req)).value)
  {
  }

  lemma PromptRefines(s: State, sid: Id, body: PromptRequest)
    requires ValidLayers(body)
    ensures Refines(s, Next(s, DoPrompt(sid, body)), AttemptOf(s, DoPrompt(sid, body)).value)
  {
  }

  lemma RetireRefines(s: State, req: Request)
    requires req.Retire?
    ensures Refines(s, Next(s, DoRetire(req)), AttemptOf(s, DoRetire(req)).value)
  {
  }

  lemma CancelRefines(s: State, req: Request)
    requires req.Cancel? && req.target in s.records
    ensures Refines(s, Next(s, DoCancel(req)), AttemptOf(s, DoCancel(req)).value)
  {
    hide AdmitCancel;
    CancelForms(s, req);
    if req.pin.operationId !in s.records && AdmitCancel(s, req).1.Success? {
      hide Recorded;
      CancelAdds(s, req);
    }
  }

  lemma CancelTouches(s: State, req: Request)
    requires req.Cancel? && req.pin.operationId !in s.records && AdmitCancel(s, req).1.Success?
    ensures var op := req.pin.operationId; var records := AdmitCancel(s, req).0.records;
      && req.target in s.records && req.target in records && op in records
      && records == s.records[req.target := records[req.target]][op := records[op]]
      && records[req.target].identity == s.records[req.target].identity
      && records[op].identity == Joined(s, req).identity
  {
  }

  lemma CancelAdds(s: State, req: Request)
    requires req.Cancel? && req.pin.operationId !in s.records && AdmitCancel(s, req).1.Success?
    ensures req.target in s.records
    ensures Recorded(AdmitCancel(s, req).0) == Recorded(s)[req.pin.operationId := Joined(s, req).identity]
  {
    hide AdmitCancel;
    CancelTouches(s, req);
  }

  /** Every admission refines the write-once map. */
  lemma AdmissionsRefine(s: State, e: Event)
    requires AttemptOf(s, e).Some?
    ensures Refines(s, Next(s, e), AttemptOf(s, e).value)
  {
    match e
    case DoCreate(req) => CreateRefines(s, req);
    case DoPrompt(sid, body) => PromptRefines(s, sid, body);
    case DoCancel(req) => CancelRefines(s, req);
    case DoRetire(req) => RetireRefines(s, req);
  }

  /** An operation ID is accepted as new at most once, in any continuation of any run. */
  lemma AcceptedOnce(config: Config, events: seq<Event>, first: Event, more: seq<Event>, second: Event)
    requires var a := AttemptOf(Run(Start(config), events), first);
      a.Some? && a.value.reply == Success(Admission(a.value.op, true))
    ensures var s := Run(Start(config), events);
      var a := AttemptOf(s, first).value;
      var b := AttemptOf(Run(Next(s, first), more), second);
      b.Some? && b.value.op == a.op ==>
        && b.value.reply != Success(Admission(a.op, true))
        && (b.value.reply.Success? ==> b.value.identity == a.identity)
  {
    hide Inv, Keeps;
    Reached(config, events);
    var s := Run(Start(config), events);
    var t := Next(s, first);
    AdmissionsRefine(s, first);
    assert AttemptOf(s, first).value.op in Recorded(t);
    NextKeeps(s, first);
    KeepsInv(s, t);
    RunKeeps(t, more);
    RecordedStays(t, Run(t, more), AttemptOf(s, first).value.op);
    if AttemptOf(Run(t, more), second).Some? { AdmissionsRefine(Run(t, more), second); }
  }

  lemma RecordedStays(s: State, s': State, op: Id)
    requires Keeps(s, s') && op in s.records
    ensures op in s'.records && s'.records[op].identity == s.records[op].identity
  {
    assert op in s'.records && RecordGrows(s.records[op], s'.records[op]);
  }
}
