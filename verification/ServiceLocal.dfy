/**
 Most events touch one operation and its session. For each part of the invariant,
 one lemma here says what has to hold of the touched operation so that the part
 still holds of the whole state.
 */
module ServiceLocal {
  import opened Wrappers
  import opened DirectProtocol
  import opened DirectState
  import opened ServiceModel
  import opened ServiceInvariant

  /** Nothing changed but what belongs to `op`, which may be new, and to its session. */
  ghost predicate Local(s: State, s': State, op: Id) {
    && s'.config == s.config
    && s'.generation == s.generation
    && s'.quarantined == s.quarantined
    && s'.abortAttempted == s.abortAttempted
    && s'.transportAlive == s.transportAlive
    && s'.lostBy == s.lostBy
    && op in s'.records
    && s'.records == s.records[op := s'.records[op]]
    && SessionOf(s', op) in s'.sessions
    && s'.sessions == s.sessions[SessionOf(s', op) := s'.sessions[SessionOf(s', op)]]
    && (s'.tasks == s.tasks || (op in s'.tasks && s'.tasks == s.tasks[op := s'.tasks[op]]))
    && (s'.collectors == s.collectors ||
         (op in s'.collectors && s'.collectors == s.collectors[op := s'.collectors[op]]))
    && (op in s.collectors && s.collectors[op].Ended? ==>
         op in s'.collectors && s'.collectors[op] == s.collectors[op])
    && (op in s.records ==>
          RecordGrows(s.records[op], s'.records[op]) && SessionOf(s, op) in s.sessions)
    && (op !in s.records ==> op !in s.tasks && op !in s.collectors)
    && (SessionOf(s', op) in s.sessions ==>
          SessionGrows(s.sessions[SessionOf(s', op)], s'.sessions[SessionOf(s', op)]))
    && s.released <= s'.released
    && s.calls <= s'.calls
  }

  lemma ShapeLocal(s: State, s': State, op: Id)
    requires Shape(s) && Local(s, s', op)
    requires RecordShaped(s', op)
    requires op in s'.tasks ==> TaskFits(s'.records[op].identity.kind, s'.tasks[op])
    requires op in s'.collectors ==> s'.records[op].identity.kind.PromptKind?
    requires s'.registered <= s'.collectors.Keys
    requires op !in s.records && IsCreate(s', op) ==> SessionOf(s', op) !in s.sessions
    ensures Shape(s')
  {
    forall o | o in s'.records ensures RecordShaped(s', o) {
      if o != op { assert o in s.records; OtherShaped(s, s', op, o); }
    }
    CreatedOnceLocal(s, s', op);
  }

  lemma OtherShaped(s: State, s': State, op: Id, o: Id)
    requires o in s.records && RecordShaped(s, o) && Local(s, s', op) && o != op
    ensures o in s'.records && RecordShaped(s', o)
  {
  }

  lemma CreatedOnceLocal(s: State, s': State, op: Id)
    requires Shape(s) && Local(s, s', op)
    requires op !in s.records && IsCreate(s', op) ==> SessionOf(s', op) !in s.sessions
    ensures forall a, b {:trigger a in s'.records, b in s'.records} ::
      a in s'.records && b in s'.records && CreateSameSession(s', a, b) ==> a == b
  {
    forall a, b | a in s'.records && b in s'.records && CreateSameSession(s', a, b) ensures a == b {
      if a != op { assert RecordShaped(s, a); }
      if b != op { assert RecordShaped(s, b); }
    }
  }

  lemma CoherentLocal(s: State, s': State, op: Id)
    requires Shape(s) && Coherent(s) && Local(s, s', op)
    requires SessionCoherent(s'.sessions[SessionOf(s', op)])
    requires IsPrompt(s', op) ==>
      && s'.sessions[SessionOf(s', op)].backend.Some?
      && Fulfilled(s'.sessions[SessionOf(s', op)], s'.records[op])
    ensures Coherent(s')
  {
    forall o | o in s'.records && IsPrompt(s', o) && SessionOf(s', o) in s'.sessions
      ensures s'.sessions[SessionOf(s', o)].backend.Some?
      ensures Fulfilled(s'.sessions[SessionOf(s', o)], s'.records[o])
    {
      if o != op { assert RecordShaped(s, o); assert IsPrompt(s, o); }
    }
  }

  lemma ReportsLocal(s: State, s': State, op: Id)
    requires Shape(s) && Reports(s) && Local(s, s', op)
    requires ReportTrue(s', op)
    ensures Reports(s')
  {
    forall o | o in s'.records ensures ReportTrue(s', o) {
      if o != op { assert o in s.records; assert ReportTrue(s, o); }
    }
  }

  predicate LockHandedOver(s: State, s': State, op: Id) {
    s'.lock == s.lock || s.lock == Some(op) || s.lock == None
  }

  lemma PromptStagesLocal(s: State, s': State, op: Id)
    requires Shape(s) && PromptStages(s) && Local(s, s', op) && LockHandedOver(s, s', op)
    requires op in s'.tasks && s'.records[op].identity.kind.PromptKind? ==> PromptStage(s', op)
    ensures PromptStages(s')
  {
    forall o | o in s'.records && o in s'.tasks && s'.records[o].identity.kind.PromptKind? ensures PromptStage(s', o) {
      if o != op { assert o in s.records; assert PromptStage(s, o); }
    }
  }

  lemma StagesLocal(s: State, s': State, op: Id)
    requires Shape(s) && Stages(s) && Local(s, s', op) && LockHandedOver(s, s', op)
    requires op in s'.tasks && s'.records[op].identity.kind.PromptKind? ==> PromptStage(s', op)
    requires op in s'.tasks && s'.records[op].identity.kind.CreateKind? ==> CreateStage(s', op)
    requires IsCancel(s', op) ==> CancelStage(s', op)
    requires s'.records[op].identity.kind.RetireKind? ==> s'.records[op].state.Terminal()
    ensures Stages(s')
  {
    PromptStagesLocal(s, s', op);
    CancelStagesLocal(s, s', op);
  }

  lemma CancelStagesLocal(s: State, s': State, op: Id)
    requires Shape(s) && Stages(s) && Local(s, s', op)
    requires IsCancel(s', op) ==> CancelStage(s', op)
    ensures forall o {:trigger o in s'.records} :: o in s'.records && IsCancel(s', o) ==> CancelStage(s', o)
  {
    forall o | o in s'.records && IsCancel(s', o) ensures CancelStage(s', o) {
      if o != op { assert o in s.records && RecordShaped(s, o); OtherCancel(s, s', op, o); }
    }
  }

  lemma OtherCancel(s: State, s': State, op: Id, o: Id)
    requires o in s.records && RecordShaped(s, o) && Local(s, s', op) && o != op
    requires IsCancel(s, o) ==> CancelStage(s, o)
    ensures IsCancel(s', o) ==> IsCancel(s, o) && CancelStage(s', o)
  {
  }

  lemma LockingLocal(s: State, s': State, op: Id)
    requires Shape(s) && Locking(s) && Local(s, s', op)
    requires s'.lock == s.lock || s.lock == Some(op) || s.lock == None
    requires s'.lock.Some? && s'.lock != Some(op) ==> s'.lock == s.lock
    requires s'.lock == Some(op) ==> op in s'.tasks && HoldsLock(s'.tasks[op])
    requires op in s'.collectors && s'.collectors[op].Live? ==>
      s'.lock == Some(op) && (op in s'.registered || s'.collectors[op] == Live(true))
    requires s.registered - {op} <= s'.registered
    ensures Locking(s')
  {
  }

  /** The session still suits every unsettled prompt on it other than `op`. */
  predicate SessionKept(x: Session, x': Session, op: Id) {
    && x'.stableDigest == x.stableDigest
    && x'.stableSubmitted == x.stableSubmitted
    && x'.activeInvocation == x.activeInvocation
    && x'.contracts == x.contracts
    && x'.backend == x.backend
    && (x'.state.Ready? ==> x.state.Ready?)
    && (x'.active == x.active || x.active == Some(op))
  }

  /** What the touched session must keep so that every other operation on it still fits. */
  ghost predicate SessionFits(s: State, s': State, op: Id)
    requires Local(s, s', op)
  {
    var sid := SessionOf(s', op);
    sid in s.sessions ==>
      || SessionKept(s.sessions[sid], s'.sessions[sid], op)
      || (op in s.records && (Unsettled(s, op) || Opening(s, op)))
      || (op !in s.records && s.sessions[sid].state.Ready?)
  }

  /** What a new operation requires of its session. */
  ghost predicate NewcomerFits(s: State, s': State, op: Id)
    requires Local(s, s', op)
  {
    var sid := SessionOf(s', op);
    op !in s.records ==>
      && (IsPrompt(s', op) ==> sid in s.sessions && s.sessions[sid].state.Ready?)
      && (IsCreate(s', op) ==> sid !in s.sessions)
  }

  lemma ExclusiveLocal(s: State, s': State, op: Id)
    requires Shape(s) && Exclusive(s) && Local(s, s', op)
    requires SessionFits(s, s', op) && NewcomerFits(s, s', op)
    requires Unsettled(s', op) ==> UnsettledFits(s', op)
    requires Opening(s', op) ==> Unopened(s', SessionOf(s', op))
    ensures Exclusive(s')
  {
    UnsettledLocal(s, s', op);
    OpeningLocal(s, s', op);
    OpeningAloneLocal(s, s', op);
  }

  lemma UnsettledLocal(s: State, s': State, op: Id)
    requires Shape(s) && Exclusive(s) && Local(s, s', op)
    requires SessionFits(s, s', op) && NewcomerFits(s, s', op)
    requires Unsettled(s', op) ==> UnsettledFits(s', op)
    ensures UnsettledOnce(s')
  {
    hide ValidLayers, TaskFits;
    forall o | o in s'.records && Unsettled(s', o) ensures UnsettledFits(s', o) {
      if o != op {
        assert o in s.records && RecordShaped(s, o) && Unsettled(s, o) && UnsettledFits(s, o);
        if op in s.records && SessionOf(s, o) == SessionOf(s', op) {
          assert !Unsettled(s, op) && !Opening(s, op);
        }
      }
    }
    UnsettledAlone(s, s', op);
  }

  lemma UnsettledAlone(s: State, s': State, op: Id)
    requires Shape(s) && Exclusive(s) && Local(s, s', op)
    requires NewcomerFits(s, s', op)
    requires op in s.records && Unsettled(s', op) ==> Unsettled(s, op)
    ensures forall a, b {:trigger a in s'.records, b in s'.records} ::
      a in s'.records && b in s'.records && Unsettled(s', a) && Unsettled(s', b) &&
        SessionOf(s', a) == SessionOf(s', b) ==>
        a == b
  {
    hide ValidLayers, TaskFits, LifetimeAllows, SessionGrows;
    forall a, b | a in s'.records && b in s'.records && Unsettled(s', a) && Unsettled(s', b) &&
      SessionOf(s', a) == SessionOf(s', b)
      ensures a == b
    {
      if a != op { assert a in s.records && Unsettled(s, a) && UnsettledFits(s, a); }
      if b != op { assert b in s.records && Unsettled(s, b) && UnsettledFits(s, b); }
    }
  }

  lemma OpeningLocal(s: State, s': State, op: Id)
    requires Shape(s) && Exclusive(s) && Local(s, s', op)
    requires SessionFits(s, s', op)
    requires Opening(s', op) ==> Unopened(s', SessionOf(s', op))
    ensures forall c {:trigger c in s'.records} :: c in s'.records && Opening(s', c) ==> Unopened(s', SessionOf(s', c))
  {
    forall c | c in s'.records && Opening(s', c) ensures Unopened(s', SessionOf(s', c)) {
      if c != op {
        assert c in s.records && RecordShaped(s, c) && Opening(s, c) && Unopened(s, SessionOf(s, c));
        if op in s.records { assert RecordShaped(s, op); }
      }
    }
  }

  lemma OpeningAloneLocal(s: State, s': State, op: Id)
    requires Shape(s) && Exclusive(s) && Local(s, s', op)
    requires NewcomerFits(s, s', op)
    ensures OpeningAlone(s')
  {
    forall c, o | c in s'.records && o in s'.records && Opening(s', c) && IsPrompt(s', o)
      ensures SessionOf(s', o) != SessionOf(s', c)
    {
      if c != op {
        assert c in s.records && Opening(s, c) && Unopened(s, SessionOf(s, c));
      } else if o != op {
        assert o in s.records && RecordShaped(s, o);
      }
    }
  }

  lemma ClosedLocal(s: State, s': State, op: Id, sid: Id)
    requires Shape(s) && Local(s, s', op) && Closed(s, sid)
    requires SessionOf(s', op) == sid && !s.quarantined ==>
      !s'.sessions[sid].state.Ready? && Inert(s', op)
    ensures Closed(s', sid)
  {
  }

  lemma SpoiledLocal(s: State, s': State, op: Id)
    requires Shape(s) && SpoiledClosed(s) && StaysClosed(s, s') && Local(s, s', op)
    requires Spoiled(s', op) ==> Closed(s', SessionOf(s', op))
    ensures SpoiledClosed(s')
  {
    forall o | o in s'.records && Spoiled(s', o) ensures Closed(s', SessionOf(s', o)) {
      if o != op {
        assert o in s.records && RecordShaped(s, o) && Spoiled(s, o);
        assert Closed(s, SessionOf(s, o));
      }
    }
  }

  /** Either the session was open before, or `op` does not open it now. */
  predicate ClosureKept(s: State, s': State, op: Id)
    requires op in s'.records && SessionOf(s', op) in s'.sessions
  {
    var sid := SessionOf(s', op);
    || sid !in s.sessions
    || s.sessions[sid].state.Ready?
    || (op in s.records && SessionOf(s, op) == sid && !Inert(s, op))
    || (!s'.sessions[sid].state.Ready? && Inert(s', op))
  }

  lemma StaysClosedLocal(s: State, s': State, op: Id)
    requires Shape(s) && Local(s, s', op) && !s.quarantined
    requires ClosureKept(s, s', op)
    ensures StaysClosed(s, s')
  {
    forall sid | Closed(s, sid) ensures Closed(s', sid) {
      ClosedLocal(s, s', op, sid);
    }
  }

  /** A prompt that has just been spoiled was the only unsettled work on its session. */
  lemma SpoiledNow(s: State, s': State, op: Id)
    requires Shape(s) && Exclusive(s) && Local(s, s', op) && !s.quarantined
    requires op in s.records && Unsettled(s, op) && s'.records[op].state.Terminal()
    requires !s'.sessions[SessionOf(s', op)].state.Ready?
    ensures Closed(s', SessionOf(s', op))
  {
    forall o | o in s'.records && SessionOf(s', o) == SessionOf(s', op) ensures Inert(s', o) {
      if o != op { assert o in s.records && RecordShaped(s, o); }
    }
  }

  lemma GrowsLocal(s: State, s': State, op: Id)
    requires Shape(s) && Local(s, s', op)
    requires s.quarantined ==> op in s.records && s'.calls == s.calls
    ensures Grows(s, s')
  {
  }

  lemma BoundedLocal(s: State, s': State, op: Id)
    requires Bounded(s) && Local(s, s', op)
    requires op !in s.records ==> |s.records| < s.config.maxOperations
    requires SessionOf(s', op) !in s.sessions ==> |s.sessions| < s.config.maxSessions
    ensures Bounded(s')
  {
  }

  lemma ReservedKeptLocal(s: State, s': State, op: Id)
    requires Reserved(s) && Local(s, s', op)
    requires s'.released == s.released && s'.reservations == s.reservations
    requires op in s.records || !s'.records[op].identity.kind.PromptKind?
    requires op in s.tasks && s.tasks[op].Finished? ==> op in s'.tasks && s'.tasks[op].Finished?
    ensures Reserved(s')
  {
    assert Prompts(s') == Prompts(s);
  }

  lemma ReservedAdmittedLocal(s: State, s': State, op: Id)
    requires Reserved(s) && Local(s, s', op)
    requires op !in s.records && s'.records[op].identity.kind.PromptKind?
    requires s'.released == s.released && s'.reservations == s.reservations + 1
    requires s'.reservations <= s.config.maxQueuedPrompts + 1
    ensures Reserved(s')
  {
    assert op !in Prompts(s);
    assert Prompts(s') == Prompts(s) + {op};
    CountAdded(Prompts(s), s.released, op);
  }

  lemma CountAdded(prompts: set<Id>, released: set<Id>, op: Id)
    requires op !in prompts && released <= prompts
    ensures |prompts + {op} - released| == |prompts - released| + 1
  {
    assert prompts + {op} - released == prompts - released + {op};
  }

  lemma CountReleased(prompts: set<Id>, released: set<Id>, op: Id)
    requires op in prompts
    ensures |prompts - (released + {op})| == |prompts - released| - (if op in released then 0 else 1)
  {
    if op in released {
      assert released + {op} == released;
    } else {
      assert prompts - released == prompts - (released + {op}) + {op};
    }
  }

  lemma ReservedReleasedLocal(s: State, s': State, op: Id)
    requires Reserved(s) && Local(s, s', op)
    requires op in s.records && s'.records[op].identity.kind.PromptKind?
    requires s'.released == s.released + {op}
    requires s'.reservations == (if op in s.released then s.reservations else s.reservations - 1)
    requires ReleasedFor(s', op)
    ensures Reserved(s')
  {
    assert Prompts(s') == Prompts(s);
    CountReleased(Prompts(s), s.released, op);
    forall o | o in s'.released && o in s'.records ensures ReleasedFor(s', o) {
      if o != op { assert o in s.released && ReleasedFor(s, o); }
    }
  }

  lemma CallsKeptLocal(s: State, s': State, op: Id)
    requires Shape(s) && CallsOnce(s) && Local(s, s', op)
    requires s'.calls == s.calls
    requires op in s.tasks && !s.tasks[op].Scheduled? ==> op in s'.tasks && !s'.tasks[op].Scheduled?
    ensures CallsOnce(s')
  {
    forall i | 0 <= i < |s'.calls| ensures CallGrounded(s', s'.calls[i]) {
      assert CallGrounded(s, s.calls[i]);
    }
  }

  lemma CallsAddedLocal(s: State, s': State, op: Id, call: Call)
    requires Shape(s) && CallsOnce(s) && Local(s, s', op) && op in s.records
    requires s'.calls == s.calls + [call]
    requires op in s'.tasks && !s'.tasks[op].Scheduled?
    requires CallGrounded(s', call)
    requires match call
      case CreateCall(x) => x == op && op in s.tasks && s.tasks[op].Scheduled?
      case PromptCall(x, _, _) => x == op && op !in s.collectors
      case CancelCall(x) => true
    requires call.PromptCall? && call.phase.Initial? ==>
      forall o {:trigger o in s.records} ::
        o in s.records && o in s.collectors && IsPrompt(s, o) && BodyOf(s, o).phase.Initial? ==>
          SessionOf(s, o) != call.session
    ensures CallsOnce(s')
  {
    forall i | 0 <= i < |s'.calls| ensures CallGrounded(s', s'.calls[i]) {
      if i < |s.calls| { assert CallGrounded(s, s.calls[i]); }
    }
    forall i, j | 0 <= i < j < |s'.calls|
      ensures !SameEffect(s'.calls[i], s'.calls[j]) && !SameSubmission(s'.calls[i], s'.calls[j])
    {
      assert CallGrounded(s, s.calls[i]);
      if j < |s.calls| { assert !SameEffect(s.calls[i], s.calls[j]) && !SameSubmission(s.calls[i], s.calls[j]); }
    }
  }

  ghost predicate Keeps(s: State, s': State) {
    Inv(s') && Grows(s, s') && StaysClosed(s, s')
  }

  /** All that an event on `op` has to establish while the generation is not lost. */
  ghost predicate IntactAt(s: State, s': State, op: Id)
    requires Local(s, s', op)
  {
    var sid := SessionOf(s', op);
    var kind := s'.records[op].identity.kind;
    && ShapedAt(s, s', op)
    && SessionCoherent(s'.sessions[sid])
    && (IsPrompt(s', op) ==> s'.sessions[sid].backend.Some?)
    && (IsPrompt(s', op) ==> Fulfilled(s'.sessions[sid], s'.records[op]))
    && ReportTrue(s', op)
    && LockedAt(s, s', op)
    && (op in s'.tasks && kind.PromptKind? ==> PromptStage(s', op))
    && (op in s'.tasks && kind.CreateKind? ==> CreateStage(s', op))
    && (IsCancel(s', op) ==> CancelStage(s', op))
    && (kind.RetireKind? ==> s'.records[op].state.Terminal())
    && SessionFits(s, s', op)
    && NewcomerFits(s, s', op)
    && (Unsettled(s', op) ==> UnsettledFits(s', op))
    && (Opening(s', op) ==> Unopened(s', sid))
    && ClosureKept(s, s', op)
    && (Spoiled(s', op) ==> op in s.records && (Spoiled(s, op) || (Unsettled(s, op) && !s'.sessions[sid].state.Ready?)))
  }

  ghost predicate ShapedAt(s: State, s': State, op: Id)
    requires op in s'.records
  {
    && RecordShaped(s', op)
    && (op in s'.tasks ==> TaskFits(s'.records[op].identity.kind, s'.tasks[op]))
    && (op in s'.collectors ==> s'.records[op].identity.kind.PromptKind?)
    && s'.registered <= s'.collectors.Keys
  }

  ghost predicate LockedAt(s: State, s': State, op: Id) {
    && LockHandedOver(s, s', op)
    && (s'.lock.Some? && s'.lock != Some(op) ==> s'.lock == s.lock)
    && (s'.lock == Some(op) ==> op in s'.tasks && HoldsLock(s'.tasks[op]))
    && (op in s'.collectors && s'.collectors[op].Live? ==>
         s'.lock == Some(op) && (op in s'.registered || s'.collectors[op] == Live(true)))
    && s.registered - {op} <= s'.registered
  }

  lemma BaseLocal(s: State, s': State, op: Id)
    requires Inv(s) && !s.quarantined && Local(s, s', op)
    requires IntactAt(s, s', op)
    requires Reserved(s') && Bounded(s') && CallsOnce(s')
    ensures Base(s')
  {
    ShapeLocal(s, s', op);
    CoherentLocal(s, s', op);
    ReportsLocal(s, s', op);
  }

  lemma WorkLocal(s: State, s': State, op: Id)
    requires Inv(s) && !s.quarantined && Local(s, s', op)
    requires IntactAt(s, s', op)
    ensures Stages(s') && Locking(s') && Exclusive(s')
  {
    StagesLocal(s, s', op);
    LockingLocal(s, s', op);
    ExclusiveLocal(s, s', op);
  }

  lemma IntactLocal(s: State, s': State, op: Id)
    requires Inv(s) && !s.quarantined && Local(s, s', op)
    requires IntactAt(s, s', op)
    requires Reserved(s') && Bounded(s') && CallsOnce(s')
    ensures Keeps(s, s')
  {
    BaseLocal(s, s', op);
    WorkLocal(s, s', op);
    StaysClosedLocal(s, s', op);
    if Spoiled(s', op) && !Spoiled(s, op) { SpoiledNow(s, s', op); }
    SpoiledLocal(s, s', op);
    GrowsLocal(s, s', op);
  }
}
