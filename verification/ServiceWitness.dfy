/** Runs that show where the direct service does less than its documents suggest. */
module ServiceWitness {
  import opened Wrappers
  import opened DirectProtocol
  import opened DirectState
  import opened ServiceModel
  import opened ServiceLoss
  import opened ServiceRuns
  import opened ServiceTheorems
  import Utf8

  const CONFIG := Config(100, 1, 3, 0, 1.0, 0, {0})

  const CREATE := CreateSession(Pin(1, 0, 1), 0, 0, 0, Sha256(""))

  const BODY := PromptRequest(Pin(1, 0, 2), 0, Initial, Sha256(""), Sha256("c"), 1.0, Some(""), Some("p"), Some("c"),
    None)

  const CANCEL := Cancel(Pin(1, 0, 3), 2)

  lemma BodyFits()
    ensures ValidLayers(BODY) && WithinPromptLimits(CONFIG, BODY)
  {
    ShortText(RenderText(BODY));
    assert |RenderText(BODY)| == 6;
  }

  lemma {:induction false} ShortText(s: string)
    ensures Utf8.Length(s) <= 4 * |s|
  {
    if s != [] { ShortText(s[1..]); }
  }

  lemma Extend(start: State, events: seq<Event>, e: Event)
    ensures Run(start, events + [e]) == Next(Run(start, events), e)
  {
    hide Next;
    RunAppend(start, events, [e]);
    RunOne(Run(start, events), e);
  }

  lemma CreateAdmitted() returns (a: State)
    ensures a == Next(Start(CONFIG), DoCreate(CREATE))
    ensures a == Start(CONFIG).(
      records := map[1 := NewRecord(Identity(CREATE, CreateKind, 0, None, None))],
      sessions := map[0 := NewSession(0, Sha256(""))],
      tasks := map[1 := Scheduled])
  {
    a := Next(Start(CONFIG), DoCreate(CREATE));
  }

  lemma SessionReady(events: seq<Event>)
    requires events == [DoCreate(CREATE), TaskRuns(1), CreateReply(1, 0, 0)]
    ensures var s := Run(Start(CONFIG), events);
      && s == Start(CONFIG).(records := s.records, sessions := s.sessions, tasks := s.tasks, calls := s.calls)
      && s.records.Keys == {1} && s.tasks == map[1 := Finished]
      && s.sessions == map[0 := NewSession(0, Sha256("")).(backend := Some(0), state := Ready)]
  {
    hide AdmitCreate, AdmitPrompt, AdmitCancel, AdmitRetire;
    var a := CreateAdmitted();
    var b := Next(a, TaskRuns(1));
    assert At(b, 1, AwaitingCreate);
    assert events[1..] == [TaskRuns(1), CreateReply(1, 0, 0)];
    RunTwo(a, TaskRuns(1), CreateReply(1, 0, 0));
  }

  /** What matters of a state in which prompt 2 is in flight on session 0. */
  predicate InFlight(s: State) {
    && s.records.Keys == {1, 2} && s.tasks == map[1 := Finished, 2 := AwaitingCollector]
    && s.records[2] == Record(Identity(Prompt(BODY), PromptKind, 0, Some(0), None), Running, None, None)
    && s.collectors == map[2 := Live(false)] && s.registered == {2} && s.lock == Some(2)
    && s.sessions.Keys == {0} && !s.quarantined && s.transportAlive && s.generation == 0 && s.config == CONFIG
  }

  lemma PromptAdmitted(s: State)
    requires s == Start(CONFIG).(records := s.records, sessions := s.sessions, tasks := s.tasks, calls := s.calls)
    requires s.records.Keys == {1} && s.tasks == map[1 := Finished]
    requires s.sessions == map[0 := NewSession(0, Sha256("")).(backend := Some(0), state := Ready)]
    ensures var t := Next(s, DoPrompt(0, BODY));
      && t == s.(records := t.records, sessions := t.sessions, tasks := t.tasks, reservations := 1)
      && t.tasks == map[1 := Finished, 2 := Scheduled] && t.sessions.Keys == {0}
      && t.records == s.records[2 := NewRecord(Identity(Prompt(BODY), PromptKind, 0, Some(0), None))]
  {
    BodyFits();
    assert |s.records.Keys| == 1;
  }

  lemma PromptInFlight() returns (events: seq<Event>)
    ensures InFlight(Run(Start(CONFIG), events))
  {
    hide AdmitPrompt;
    events := [DoCreate(CREATE), TaskRuns(1), CreateReply(1, 0, 0)];
    SessionReady(events);
    PromptAdmitted(Run(Start(CONFIG), events));
    Extend(Start(CONFIG), events, DoPrompt(0, BODY));
    events := events + [DoPrompt(0, BODY)];
    PromptDispatched(Run(Start(CONFIG), events));
    Extend(Start(CONFIG), events, TaskRuns(2));
    events := events + [TaskRuns(2)];
  }

  lemma PromptDispatched(s: State)
    requires s.tasks == map[1 := Finished, 2 := Scheduled] && s.sessions.Keys == {0} && s.records.Keys == {1, 2}
    requires s.records[2] == NewRecord(Identity(Prompt(BODY), PromptKind, 0, Some(0), None))
    requires s == Start(CONFIG).(records := s.records, sessions := s.sessions, tasks := s.tasks, calls := s.calls,
      reservations := 1)
    ensures InFlight(Next(s, TaskRuns(2)))
  {
  }

  /** The prompt has stopped as cancelled, and its cancellation has not looked yet. */
  predicate StoppedUnseen(s: State) {
    && s.records.Keys == {1, 2, 3} && s.tasks == map[1 := Finished, 2 := Finished, 3 := AwaitingTarget]
    && s.records[2].state.Cancelled? &&
         s.records[3] == Record(Identity(CANCEL, CancelKind, 0, None, Some(2)), Running, None, None)
    && s.records[2].identity.sessionId == 0
    && s.registered == {} && s.sessions.Keys == {0} && !s.quarantined
  }

  lemma CancelAdmitted(s: State)
    requires InFlight(s)
    ensures var r := NewRecord(Identity(CANCEL, CancelKind, 0, None, Some(2)));
      Next(s, DoCancel(CANCEL)) ==
        s.(records := s.records[2 := s.records[2].(state := Cancelling)][3 := r], tasks := s.tasks[3 := Scheduled])
  {
  }

  lemma CancelStarts(a: State) returns (t: State)
    requires 3 in a.records && a.records[3] == NewRecord(Identity(CANCEL, CancelKind, 0, None, Some(2)))
    requires At(a, 3, Scheduled)
    ensures t == Next(Next(a, TaskRuns(3)), SendSucceeds(3))
    ensures t == a.(records := a.records[3 := a.records[3].(state := Running)], tasks := a.tasks[3 := AwaitingTarget],
                    calls := a.calls + [CancelCall(2)])
  {
    var b := Next(a, TaskRuns(3));
    assert b == StartCancel(a, 3);
    t := Next(b, SendSucceeds(3));
    assert t == CancelSent(b, 3);
  }

  lemma CancelSentTo(s: State) returns (t: State)
    requires InFlight(s)
    ensures t == Next(Next(Next(s, DoCancel(CANCEL)), TaskRuns(3)), SendSucceeds(3))
    ensures t == s.(records := t.records, tasks := t.tasks, calls := t.calls)
    ensures t.records == s.records[2 := s.records[2].(state := Cancelling)][3 :=
      Record(Identity(CANCEL, CancelKind, 0, None, Some(2)), Running, None, None)]
    ensures t.tasks == s.tasks[3 := AwaitingTarget]
  {
    hide Next;
    CancelAdmitted(s);
    t := CancelStarts(Next(s, DoCancel(CANCEL)));
  }

  lemma StopArrives(s: State) returns (t: State)
    requires IsPrompt(s, 2) && Located(s, 2) && s.tasks[2].AwaitingCollector? && s.records[2].state.Cancelling?
    requires s.collectors == map[2 := Live(false)] && s.registered == {2} && !s.quarantined
    ensures t == Next(Next(s, CollectorEnds(2, Returned(StopCancelled))), CollectorSeen(2))
    ensures t.records == s.records[2 := Settled(s.records[2], Cancelled, Some(PromptDone(StopCancelled)), None)]
    ensures t.tasks == s.tasks[2 := Finished] && t.registered == {} && t.sessions.Keys == s.sessions.Keys &&
      !t.quarantined
  {
    var a := Next(s, CollectorEnds(2, Returned(StopCancelled)));
    t := Next(a, CollectorSeen(2));
  }

  lemma StopUnseen() returns (events: seq<Event>)
    ensures StoppedUnseen(Run(Start(CONFIG), events))
  {
    hide Next;
    events := PromptInFlight();
    var s := Run(Start(CONFIG), events);
    var t := CancelSentTo(s);
    var u := StopArrives(t);
    Extend(Start(CONFIG), events, DoCancel(CANCEL));
    events := events + [DoCancel(CANCEL)];
    Extend(Start(CONFIG), events, TaskRuns(3));
    events := events + [TaskRuns(3)];
    Extend(Start(CONFIG), events, SendSucceeds(3));
    events := events + [SendSucceeds(3)];
    Extend(Start(CONFIG), events, CollectorEnds(2, Returned(StopCancelled)));
    events := events + [CollectorEnds(2, Returned(StopCancelled))];
    Extend(Start(CONFIG), events, CollectorSeen(2));
    events := events + [CollectorSeen(2)];
  }

  /** What matters once the cancellation that found no collector has lost the generation. */
  predicate LostByCancel(s: State, t: State) {
    && t.records.Keys == s.records.Keys && 2 in s.records && 3 in s.records
    && t.records[2] == s.records[2] && t.records[3] == s.records[3]
    && Located(t, 3) && t.tasks[3] == Quarantining(CancelDeferred(3, 2))
  }

  lemma GenerationLost(s: State)
    requires StoppedUnseen(s)
    ensures LostByCancel(s, QuarantineSession(s, 3, CancelDeferred(3, 2)))
  {
    var deferred := CancelDeferred(3, 2);
    assert deferred[0].op in Ops(deferred) && deferred[1].op in Ops(deferred);
    var marked := WithSessionState(s, 0, NonReusable);
    LoseRecords(marked, Some(3), Ops(deferred), Quarantining(deferred));
    LoseSessions(marked, Some(3), Ops(deferred), Quarantining(deferred));
    assert QuarantineSession(s, 3, deferred) == Lose(marked, Some(3), Ops(deferred), Quarantining(deferred));
    hide MarkLost;
  }

  lemma GraceExpired(s: State) returns (b: State)
    requires StoppedUnseen(s)
    ensures b == Next(Next(s, GraceExpires(3)), Abort(3))
    ensures b.records.Keys == s.records.Keys && b.records[2] == s.records[2] && b.records[3] == s.records[3]
    ensures Located(b, 3) && b.tasks[3] == Aborting(CancelDeferred(3, 2))
  {
    hide Next, QuarantineSession;
    GenerationLost(s);
    GraceLoses(s);
    AbortStarts(Next(s, GraceExpires(3)));
    b := Next(Next(s, GraceExpires(3)), Abort(3));
  }

  lemma GraceLoses(s: State)
    requires StoppedUnseen(s)
    ensures Next(s, GraceExpires(3)) == QuarantineSession(s, 3, CancelDeferred(3, 2))
  {
    hide QuarantineSession;
  }

  lemma AbortStarts(a: State)
    requires Located(a, 3) && a.tasks[3] == Quarantining(CancelDeferred(3, 2))
    ensures Next(a, Abort(3)) == AbortChild(a, 3, CancelDeferred(3, 2))
  {
    hide AbortChild;
  }

  lemma PublicationEnds(b: State)
    requires Located(b, 3) && b.tasks[3] == Aborting(CancelDeferred(3, 2)) && !IsPrompt(b, 3)
    ensures Next(b, PublishNow(3)).records == Publish(b.records, CancelDeferred(3, 2))
  {
    hide Publish;
  }

  lemma GraceTooLate(s: State)
    requires StoppedUnseen(s)
    ensures var t := Next(Next(Next(s, GraceExpires(3)), Abort(3)), PublishNow(3));
      && 2 in t.records && 3 in t.records
      && t.records[2].state.Cancelled? && t.records[3].result == Some(CancelReport(InDoubt, true))
  {
    hide Next;
    var b := GraceExpired(s);
    PublicationEnds(b);
    var d, e := CancelDeferred(3, 2)[0], CancelDeferred(3, 2)[1];
    PublishTwo(b.records, d, e);
    PublishTwo(Publish(b.records, [d]), e, e);
    assert CancelDeferred(3, 2) == [d, e];
  }

  /** A cancellation can report its target in doubt although the target is known to be cancelled. */
  lemma DoubtReportCanBeWrong() returns (events: seq<Event>)
    ensures var s := Run(Start(CONFIG), events);
      && 2 in s.records && 3 in s.records
      && s.records[3].identity.target == Some(2)
      && s.records[3].result == Some(CancelReport(InDoubt, true))
      && s.records[2].state.Cancelled?
  {
    hide Next;
    events := StopUnseen();
    var before := events;
    GraceTooLate(Run(Start(CONFIG), events));
    Extend(Start(CONFIG), events, GraceExpires(3));
    events := events + [GraceExpires(3)];
    Extend(Start(CONFIG), events, Abort(3));
    events := events + [Abort(3)];
    Extend(Start(CONFIG), events, PublishNow(3));
    events := events + [PublishNow(3)];
    TerminalIsFinal(CONFIG, before, [GraceExpires(3), Abort(3), PublishNow(3)], 3);
    assert events == before + [GraceExpires(3), Abort(3), PublishNow(3)];
    RunAppend(Start(CONFIG), before, [GraceExpires(3), Abort(3), PublishNow(3)]);
  }
}
