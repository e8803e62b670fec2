/** Claims to provisional identities: when they outnumber the open creations, and what binding then does. */
module ReaderClaims {
  import opened Wrappers
  import opened ReaderModel
  import opened ReaderLink
  import opened ReaderSessions

  /** More provisional identities are claimed than session/new requests are unresolved. */
  predicate Overdrawn(s: State) {
    |s.client.provisional| > PendingCreations(s.link)
  }

  /** The write of an unresolved session/new request raises. */
  predicate Raises(s: State, e: Event) {
    e.DrainFails? && SenderAt(s.link, e.id, Draining) && e.id in Creations(s.link)
  }

  /** Such a write raises although every claim is taken. */
  predicate Overdraws(s: State, e: Event) {
    IsOpen(s.link) && Raises(s, e) && |s.client.provisional| >= PendingCreations(s.link)
  }

  /** What an event that leaves the transport open makes of the claims, by a guard on the state before. */
  predicate OverdrawnAfter(s: State, e: Event) {
    if Raises(s, e) then |s.client.provisional| >= PendingCreations(s.link)
    else if e == CallStarts(true) then |s.client.provisional| > PendingCreations(s.link) + 1
    else Overdrawn(s)
  }

  lemma AnswerCounts(l: Link, id: Id, a: Answer)
    requires LinkInv(l) && Pends(l, id) && l.requests[id].call.NewSession?
    ensures var l' := Resolve(l, id, a);
      PendingCreations(l') == PendingCreations(l) - 1
  {
    var l' := Resolve(l, id, a);
    assert Creations(l) == Creations(l') + {id};
  }


  predicate SameClaims(s: State, s': State) {
    |s'.client.provisional| == |s.client.provisional| && Creations(s'.link) == Creations(s.link)
  }

  lemma RaisedClaims(s: State, id: Id)
    requires LinkInv(s.link) && SenderAt(s.link, id, Draining)
    ensures PendingCreations(DrainRaises(s.link, id)) ==
      PendingCreations(s.link) - (if id in Creations(s.link) then 1 else 0)
  {
    assert Creations(DrainRaises(s.link, id)) == Creations(s.link) - {id};
  }

  lemma StartedClaims(l: Link, m: Method)
    requires LinkInv(l) && IsOpen(l)
    ensures PendingCreations(StartRequest(l, m)) == PendingCreations(l) + (if m.NewSession? then 1 else 0)
  {
    hide LinkInv;
    NotYetStarted(l);
    FiledClaims(l, m);
  }

  lemma NotYetStarted(l: Link)
    requires LinkInv(l)
    ensures l.nextId !in l.pendingRequests
  {
  }

  lemma FiledClaims(l: Link, m: Method)
    requires l.nextId !in l.pendingRequests && IsOpen(l)
    ensures |Creations(StartRequest(l, m))| == |Creations(l)| + (if m.NewSession? then 1 else 0)
  {
    var filed := if m.NewSession? then {l.nextId} else {};
    assert Creations(StartRequest(l, m)) == Creations(l) + filed;
  }

  /** The answer that a resuming session/new call binds, if it has one. */
  function AnsweredSession(s: State, id: Id): Option<Id> {
    if SenderAt(s.link, id, AwaitingAnswer) && s.link.requests[id].call.NewSession?
       && s.link.requests[id].future.Resolved? && s.link.requests[id].future.answer.Answered?
    then s.link.requests[id].future.answer.session else None
  }

  // ----- each event -----

  lemma NotificationClaims(s: State, n: Notification)
    requires IsOpen(HandleNotification(s, n).link)
    ensures var s' := HandleNotification(s, n);
      IsOpen(s.link) && (Overdrawn(s') <==> Overdrawn(s))
  {
    hide Enqueue, FailClosed;
    FailsClosed(s.link);
    if n.session.Some? { EnqueueIds(s, n.session.value, Update(n.tag), n.bytes); }
  }

  lemma FailsClosed(l: Link)
    ensures !IsOpen(FailClosed(l))
  {
  }

  lemma RequestClaims(s: State, session: Option<Id>, tag: Id, bytes: nat)
    requires IsOpen(DispatchRequest(s, session, tag, bytes).link)
    ensures IsOpen(s.link) && SameClaims(s, DispatchRequest(s, session, tag, bytes))
  {
    hide Enqueue, FailClosed;
    FailsClosed(s.link);
    var t := ObserveAgentRequest(s, session, tag, bytes);
    FailsClosed(t.link);
    if session.Some? { EnqueueIds(s, session.value, CallbackEvidence(tag), Some(bytes)); }
  }

  /** An accepted answer to session/new needs a claim to spare before, and leaves none missing after. */
  lemma CreationAnswerClaims(s: State, id: Id, a: Answer)
    requires LinkInv(s.link) && IsOpen(s.link) && Pends(s.link, id) && s.link.requests[id].call.NewSession?
    requires ObserveCreation(s, a).link == s.link
    ensures !Overdrawn(s) && !Overdrawn(State(Resolve(s.link, id, a), ObserveCreation(s, a).client))
  {
    hide ObserveCreation, Resolve;
    AnswerCounts(s.link, id, a);
    CreationObserved(s, a);
    FailsClosed(s.link);
    if a.Answered? { OneLess(s.client.provisional, a.session.value); }
  }

  lemma OneLess(ids: set<Id>, id: Id)
    ensures |ids| - 1 <= |ids - {id}| <= |ids|
  {
    if id in ids { assert ids == ids - {id} + {id}; } else { assert ids == ids - {id}; }
  }

  lemma ResponseClaims(s: State, id: Id, a: Answer)
    requires SessionInv(s) && !s.link.closed && IsOpen(DispatchResponse(s, id, a).link)
    ensures IsOpen(s.link) && (Overdrawn(DispatchResponse(s, id, a)) <==> Overdrawn(s))
  {
    FailsClosed(s.link);
    if Pends(s.link, id) {
      PendsOpen(s, id);
      var t := Observed(s, id, a);
      match s.link.pendingRequests[id] {
        case NewSession => CreationObserved(s, a); if t.link == s.link { CreationAnswerClaims(s, id, a); }
        case PromptTurn(p) => TurnIds(s, p); OtherAnswerClaims(s, id, a, t);
        case OtherMethod => OtherAnswerClaims(s, id, a, t);
      }
      hide ObserveCreation, ObserveTurn, Resolve, SessionInv;
    }
  }

  lemma OtherAnswerClaims(s: State, id: Id, a: Answer, t: State)
    requires LinkInv(s.link) && Pends(s.link, id) && !s.link.requests[id].call.NewSession?
    ensures Creations(Resolve(s.link, id, a)) == Creations(s.link)
  {
  }

  lemma SenderClaims(s: State, id: Id, registers: bool)
    requires SessionInv(s) && SenderAt(s.link, id, AwaitingAnswer) && IsOpen(SenderResumes(s, id, registers).link)
    ensures IsOpen(s.link) && SameClaims(s, SenderResumes(s, id, registers))
  {
    var moved := s.(link := s.link.(requests := s.link.requests[id := s.link.requests[id].(sender := Gone)]));
    if AnsweredSession(s, id).Some? {
      var sid := AnsweredSession(s, id).value;
      BoundIds(moved, sid);
      FailsClosed(moved.link);
      if IsOpen(s.link) { AnswerIsNotProvisional(s, id, sid); }
    }
  }

  /** The identity of an answered creation is not provisional any more. */
  lemma AnswerIsNotProvisional(s: State, id: Id, sid: Id)
    requires SessionInv(s) && IsOpen(s.link) && AnsweredSession(s, id) == Some(sid)
    ensures sid in s.client.responseIds && sid !in s.client.provisional
    ensures s.client.provisional - {sid} == s.client.provisional
  {
    assert id !in s.client.created;
    assert Holds(s, id, sid);
  }

  lemma TaskClaims(s: State, e: Event)
    requires LinkInv(s.link) && IsOpen(Next(s, e).link)
    requires e.TurnTaskRuns? || e.CallStarts? || e.DrainFails?
    ensures IsOpen(s.link) && (Overdrawn(Next(s, e)) <==> OverdrawnAfter(s, e))
  {
    match e
    case TurnTaskRuns(p) => if IsOpen(s.link) { StartedClaims(s.link, PromptTurn(p)); }
    case CallStarts(creation) =>
      if IsOpen(s.link) { StartedClaims(s.link, if creation then NewSession else OtherMethod); }
    case DrainFails(id) => if SenderAt(s.link, id, Draining) { RaisedClaims(s, id); }
  }

  lemma QuietClaims(s: State, e: Event)
    requires LinkInv(s.link) && IsOpen(Next(s, e).link)
    requires e.Begin? || e.DrainCompletes? || e.SenderCancelled? || e.Pop? || e.CleanupRuns? || e.ReadMalformed? ||
      e.CallbackSettles? || e.CallbackReaped? || e.Abort? || e.StopBegins? || e.StopEnds?
    ensures IsOpen(s.link) && SameClaims(s, Next(s, e))
  {
  }

  /** The claims after each event that leaves the transport open. */
  lemma ClaimsStep(s: State, e: Event)
    requires SessionInv(s) && IsOpen(Next(s, e).link)
    ensures IsOpen(s.link) && (Overdrawn(Next(s, e)) <==> OverdrawnAfter(s, e))
  {
    hide SessionInv, Overdrawn, LinkInv, Enqueue, HandleNotification, DispatchRequest, DispatchResponse, SenderResumes;
    Linked(s);
    match e
    case TurnTaskRuns(_) => TaskClaims(s, e);
    case CallStarts(_) => TaskClaims(s, e);
    case DrainFails(_) => TaskClaims(s, e);
    case SenderSees(id, registers) =>
      if SenderAt(s.link, id, AwaitingAnswer) && !s.link.requests[id].future.Waiting? {
        SenderClaims(s, id, registers);
      }
      SameOverdraft(s, Next(s, e));
    case ReadNotification(n) => NotificationClaims(s, n);
    case ReadRequest(session, tag, bytes) => RequestClaims(s, session, tag, bytes); SameOverdraft(s, Next(s, e));
    case ReadResponse(id, a) => ResponseClaims(s, id, a);
    case _ => QuietClaims(s, e); SameOverdraft(s, Next(s, e));
  }

  lemma Linked(s: State)
    requires SessionInv(s)
    ensures LinkInv(s.link)
  {
  }

  lemma SameOverdraft(s: State, s': State)
    requires SameClaims(s, s')
    ensures Overdrawn(s') <==> Overdrawn(s)
  {
  }

  // ----- the theorems -----

  /**
   Whether claims outnumber the open creations after an event is told by a guard on the state before
   it: only a write that raises with every claim taken takes them over, only a new creation back.
   */
  lemma ClaimsExactly(events: seq<Event>, e: Event)
    ensures var s := Run(Start(), events);
      IsOpen(Next(s, e).link) ==> IsOpen(s.link) && (Overdrawn(Next(s, e)) <==> OverdrawnAfter(s, e))
  {
    hide SessionInv, Next, Overdrawn, OverdrawnAfter;
    ReachedSessions(events);
    var s := Run(Start(), events);
    if IsOpen(Next(s, e).link) { ClaimsStep(s, e); }
  }

  lemma ReachedSessions(events: seq<Event>)
    ensures SessionInv(Run(Start(), events))
  {
    SessionRunKeeps(Start(), events);
  }

  /** Some session/new write of the run raises with every claim taken. */
  predicate EverOverdraws(s: State, events: seq<Event>)
    decreases |events|
  {
    events != [] && (Overdraws(s, events[0]) || EverOverdraws(Next(s, events[0]), events[1..]))
  }

  /** Without such a write, provisional identities never outnumber the open creations. */
  lemma ProvisionalBounded(events: seq<Event>)
    ensures var s := Run(Start(), events);
      IsOpen(s.link) && !EverOverdraws(Start(), events) ==> |s.client.provisional| <= PendingCreations(s.link)
  {
    if IsOpen(Run(Start(), events).link) && !EverOverdraws(Start(), events) { NeverOverdrawn(Start(), events); }
  }

  lemma {:induction false} NeverOverdrawn(s: State, events: seq<Event>)
    requires SessionInv(s) && !Overdrawn(s) && IsOpen(Run(s, events).link) && !EverOverdraws(s, events)
    ensures !Overdrawn(Run(s, events))
    decreases |events|
  {
    hide SessionInv, Next;
    if events != [] {
      SessionNextKeeps(s, events[0]);
      OpenBefore(Next(s, events[0]), events[1..]);
      ClaimsStep(s, events[0]);
      NeverOverdrawn(Next(s, events[0]), events[1..]);
    }
  }

  lemma OpenBefore(s: State, events: seq<Event>)
    requires SessionInv(s) && IsOpen(Run(s, events).link)
    ensures IsOpen(s.link)
  {
    LinkRunKeeps(s, events);
  }

  /**
   In every run on an open transport, the binding of an answered creation mismatches if and only if
   identities are still claimed while no creation is open; and only a run in which a session/new write
   raised with every claim taken gets there.
   */
  lemma MismatchExactly(events: seq<Event>, id: Id)
    ensures var s := Run(Start(), events);
      IsOpen(s.link) && AnsweredSession(s, id).Some? ==>
        && (BindSession(s, AnsweredSession(s, id).value).Failure? <==>
              s.client.provisional != {} && PendingCreations(s.link) == 0)
        && (BindSession(s, AnsweredSession(s, id).value).Failure? ==> EverOverdraws(Start(), events))
  {
    ReachedSessions(events);
    ProvisionalBounded(events);
    var s := Run(Start(), events);
    if IsOpen(s.link) && AnsweredSession(s, id).Some? {
      hide SessionInv, EverOverdraws;
      AnswerIsNotProvisional(s, id, AnsweredSession(s, id).value);
    }
  }

  // ----- the condition is needed -----

  const STATE_UPDATE := Notification(Some(7), UsageUpdate, 0, Some(1), true, true, true)

  const RAISED_WRITE := [
    CallStarts(true), CallStarts(true), DrainCompletes(2), ReadNotification(STATE_UPDATE),
    ReadResponse(2, Answered(Some(8))), DrainFails(1)]

  lemma TwoCreationsStart() returns (s: State)
    ensures s == Next(Next(Next(Start(), CallStarts(true)), CallStarts(true)), DrainCompletes(2))
    ensures s.client == Start().client && IsOpen(s.link) && s.link.pending == {1, 2}
    ensures s.link.pendingRequests == map[1 := NewSession, 2 := NewSession]
    ensures s.link.requests ==
      map[1 := Request(NewSession, Draining, Waiting), 2 := Request(NewSession, AwaitingAnswer, Waiting)]
  {
    var a := Next(Start(), CallStarts(true));
    assert a.link.requests == map[1 := Request(NewSession, Draining, Waiting)];
    s := Next(Next(a, CallStarts(true)), DrainCompletes(2));
  }

  lemma ProvisionalAdmitted(s: State) returns (a: State)
    requires s.client == Start().client && IsOpen(s.link) &&
      s.link.pendingRequests == map[1 := NewSession, 2 := NewSession]
    ensures a == Next(s, ReadNotification(STATE_UPDATE))
    ensures a == s.(client := s.client.(provisional := {7}))
  {
    assert Creations(s.link) == {1, 2};
    a := Next(s, ReadNotification(STATE_UPDATE));
  }

  lemma AnswerAccepted(a: State) returns (t: State)
    requires a.client == Start().client.(provisional := {7}) && IsOpen(a.link) && a.link.pending == {1, 2}
    requires a.link.pendingRequests == map[1 := NewSession, 2 := NewSession]
    requires a.link.requests ==
      map[1 := Request(NewSession, Draining, Waiting), 2 := Request(NewSession, AwaitingAnswer, Waiting)]
    ensures t == Next(a, ReadResponse(2, Answered(Some(8))))
    ensures IsOpen(t.link) && t.client == Start().client.(provisional := {7}, responseIds := {8})
    ensures t.link.pendingRequests == map[1 := NewSession]
    ensures t.link.requests == a.link.requests[2 := Request(NewSession, AwaitingAnswer, Resolved(Answered(Some(8))))]
  {
    hide FailClosed, HandleNotification;
    assert Creations(a.link) == {1, 2};
    assert {7} - {8} == {7};
    assert |{7}| == 1;
    t := Next(a, ReadResponse(2, Answered(Some(8))));
  }

  /**
   After a session/new write has raised, the mismatch branch can revoke a creation that the child
   answered correctly.
   */
  lemma RaisedWriteMismatch()
    ensures var s := Run(Start(), RAISED_WRITE);
      IsOpen(s.link) && AnsweredSession(s, 2) == Some(8) && BindSession(s, 8).Failure?
  {
    var s := TwoCreationsStart();
    var a := ProvisionalAdmitted(s);
    var t := AnswerAccepted(a);
    var u := Next(t, DrainFails(1));
    assert Creations(u.link) == {};
    hide Next;
    RunSix(Start(), RAISED_WRITE);
  }

  lemma RunSix(s: State, events: seq<Event>)
    requires |events| == 6
    ensures Run(s, events) ==
      Next(Next(Next(Next(Next(Next(s, events[0]), events[1]), events[2]), events[3]), events[4]), events[5])
  {
    hide Next;
    RunOneMore(s, events[..5], events[5]);
    RunOneMore(s, events[..4], events[4]);
    RunOneMore(s, events[..3], events[3]);
    RunOneMore(s, events[..2], events[2]);
    RunOneMore(s, events[..1], events[1]);
    RunOneMore(s, [], events[0]);
    assert [] + [events[0]] == events[..1] && events[..1] + [events[1]] == events[..2];
    assert events[..2] + [events[2]] == events[..3] && events[..3] + [events[3]] == events[..4];
    assert events[..4] + [events[4]] == events[..5] && events[..5] + [events[5]] == events;
  }

  lemma {:induction false} RunOneMore(s: State, events: seq<Event>, e: Event)
    ensures Run(s, events + [e]) == Next(Run(s, events), e)
    decreases |events|
  {
    hide Next;
    if events == [] {
      assert [] + [e] == [e] && [e][1..] == [];
    } else {
      assert (events + [e])[1..] == events[1..] + [e];
      RunOneMore(Next(s, events[0]), events[1..], e);
    }
  }
}
