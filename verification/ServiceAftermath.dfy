/** What happens to the records after the generation is lost: one publication, after the abort, and nothing else. */
module ServiceAftermath {
  import opened Wrappers
  import opened DirectProtocol
  import opened DirectState
  import opened ServiceModel
  import opened ServiceInvariant
  import opened ServiceLocal
  import opened ServiceLoss
  import opened ServiceRuns

  /** The settlements that the task that lost the generation has yet to publish. */
  function DeferredOf(s: State): seq<Settlement> {
    if s.lostBy.Some? && s.lostBy.value in s.tasks && Deferring(s.tasks[s.lostBy.value])
    then s.tasks[s.lostBy.value].deferred else []
  }

  /** Either the records and what is deferred stand, or all that was deferred has been published after the abort. */
  predicate Aftermath(s: State, s': State) {
    || (s'.records == s.records && DeferredOf(s') == DeferredOf(s))
    || (s'.abortAttempted && s'.records == Publish(s.records, DeferredOf(s)) && DeferredOf(s') == [])
  }

  function SettledAs(r: Record, d: Settlement): Record {
    if d.state.Terminal() then Settled(r, d.state, d.result, d.error) else r
  }

  /** Publication leaves a record alone or gives it a settlement deferred for it. */
  lemma {:induction false} PublishedAt(records: map<Id, Record>, deferred: seq<Settlement>, op: Id)
    requires op in records
    ensures var records' := Publish(records, deferred);
      && op in records'
      && (records'[op] == records[op]
          || exists d :: d in deferred && d.op == op && records'[op] == SettledAs(records[op], d))
  {
    if deferred != [] {
      var d, rest := deferred[0], deferred[1..];
      var once := if d.op in records && d.state.Terminal() then records[d.op := SettledAs(records[d.op], d)]
        else records;
      PublishedAt(once, rest, op);
      if Publish(once, rest)[op] != once[op] {
        var e :| e in rest && e.op == op && Publish(once, rest)[op] == SettledAs(once[op], e);
        assert e in deferred;
      } else if once[op] != records[op] {
        assert d in deferred;
      }
    }
  }

  lemma OwnerDefers(s: State, op: Id)
    requires Inv(s) && s.quarantined && Located(s, op) && Deferring(s.tasks[op])
    ensures s.lostBy == Some(op) && DeferredOf(s) == s.tasks[op].deferred
    ensures s.tasks[op].Aborting? ==> s.abortAttempted
  {
  }

  /** A task that defers nothing ends and leaves every record as it is. */
  lemma EndsQuietly(s: State, op: Id)
    requires Located(s, op) && !Deferring(s.tasks[op])
    ensures Finish(s, op).records == s.records && DeferredOf(Finish(s, op)) == DeferredOf(s)
  {
  }

  lemma AbortStep(s: State, op: Id)
    requires Inv(s) && s.quarantined && Located(s, op) && s.tasks[op].Quarantining?
    ensures Aftermath(s, AbortChild(s, op, s.tasks[op].deferred))
  {
    hide Inv, Publish;
    OwnerDefers(s, op);
  }

  lemma PublishStep(s: State, op: Id)
    requires Inv(s) && s.quarantined && Located(s, op) && s.tasks[op].Aborting?
    ensures Aftermath(s, PublishDeferred(s, op, s.tasks[op].deferred))
  {
    hide Inv, Keeps, Publish;
    OwnerDefers(s, op);
    if s.records[op].identity.kind.CancelKind? { PublishedTwoKeeps(s, op); } else { PublishedOneKeeps(s, op); }
    PublishedPlaces(s, op);
    assert PublishDeferred(s, op, s.tasks[op].deferred).records == Published(s, op).records;
  }

  predicate IsTaskEvent(e: Event) {
    e.TaskRuns? || e.CreateReply? || e.CreateReject? || e.CreateTimeout? || e.CreateError? || e.CollectorSeen? ||
      e.Deadline? || e.SendSucceeds? || e.SendFails? || e.GraceExpires? || e.Reaped? || e.TargetSeen?
  }

  /** No task waits for anything but the abort, the publication or its own end. */
  lemma TaskEventIdle(s: State, e: Event)
    requires Inv(s) && s.quarantined && IsTaskEvent(e)
    ensures Next(s, e) == s
  {
    hide Inv, EnterLock, StartCreate, StartCancel, CreateReplied, CreateRejected, CreateTimedOut, CreateRaised,
      PromptResumes, DeadlineResumes, DeadlineFires, DeadlineCancelSent, CancelSent, DeadlineCancelFailed,
      CancelSendFails, DeadlineGraceExpires, CancelGraceExpires, CollectorReaped, TargetReaped, TargetSettled;
    NotAt(s, e.op);
    hide At;
  }

  lemma NotAt(s: State, op: Id)
    requires Inv(s) && s.quarantined
    ensures forall t {:trigger At(s, op, t)} :: At(s, op, t) ==> t.Finished? || t.Unwinding? || Deferring(t)
  {
    hide Inv;
    if op in s.tasks { LostTask(s, op); }
  }

  /** No other event touches a record or what is deferred. */
  lemma OtherStep(s: State, e: Event)
    requires Inv(s) && s.quarantined && !e.Abort? && !e.PublishNow? && !e.UnwindNow?
    ensures Next(s, e).records == s.records && DeferredOf(Next(s, e)) == DeferredOf(s)
  {
    hide Inv;
    if IsTaskEvent(e) {
      TaskEventIdle(s, e);
    } else {
      hide LifetimeAllows, WithinPromptLimits, LedgerAdmit;
    }
  }

  lemma LossStep(s: State, e: Event)
    requires Inv(s) && s.quarantined
    ensures Aftermath(s, Next(s, e))
  {
    hide Inv, Publish;
    if e.Abort? && Located(s, e.op) && s.tasks[e.op].Quarantining? {
      AbortStep(s, e.op);
    } else if e.PublishNow? && Located(s, e.op) && s.tasks[e.op].Aborting? {
      PublishStep(s, e.op);
    } else if e.UnwindNow? && At(s, e.op, Unwinding) {
      EndsQuietly(s, e.op);
    } else if !e.Abort? && !e.PublishNow? && !e.UnwindNow? {
      OtherStep(s, e);
    }
  }

  lemma AftermathThrough(a: State, b: State, c: State)
    requires Aftermath(a, b) && Aftermath(b, c) && Grows(b, c)
    ensures Aftermath(a, c)
  {
  }

  /** In every continuation of a lost state the records stand, or exactly what was deferred has been published. */
  lemma {:induction false} LossFreezes(s: State, more: seq<Event>)
    requires Inv(s) && s.quarantined
    ensures Aftermath(s, Run(s, more))
    decreases |more|
  {
    hide Inv, Keeps, Publish, Next, DeferredOf;
    if more != [] {
      var mid := Next(s, more[0]);
      LossStep(s, more[0]);
      NextKeeps(s, more[0]);
      KeepsGrow(s, mid);
      LossFreezes(mid, more[1..]);
      RunKeeps(mid, more[1..]);
      KeepsGrow(mid, Run(mid, more[1..]));
      AftermathThrough(s, mid, Run(mid, more[1..]));
    }
  }

  lemma KeepsGrow(s: State, s': State)
    requires Keeps(s, s')
    ensures Inv(s') && Grows(s, s') && (s.quarantined ==> s'.quarantined)
  {
  }
}
