/** Session identities: provisional IDs are bounded by open creations, and every creation gets its own session. */
module ReaderSessions {
  import opened Wrappers
  import opened ReaderModel
  import opened ReaderLink

  /** The session a creation has: registered, or in its answer while its sender has not resumed. */
  predicate Holds(s: State, id: Id, sid: Id) {
    if id in s.client.created then s.client.created[id] == sid
    else
      && id in s.link.requests
      && s.link.requests[id].call.NewSession?
      && !s.link.requests[id].sender.Gone?
      && s.link.requests[id].future == Resolved(Answered(Some(sid)))
  }

  /** No two creations have the same session. */
  ghost predicate HoldersDiffer(s: State) {
    && (forall a, b, sid {:trigger Holds(s, a, sid), Holds(s, b, sid)} :: Holds(s, a, sid) && Holds(s, b, sid) ==>
         a == b)
    && (forall id {:trigger id in s.client.created} :: id in s.client.created ==>
          && id in s.link.requests
          && s.link.requests[id].sender.Gone?
          && s.link.requests[id].future.Resolved?)
  }

  predicate Disjoint(c: Client) {
    c.sessions !! c.responseIds && c.sessions !! c.provisional && c.responseIds !! c.provisional
  }

  /** Registered sessions are in `sessions`, answered ones in `responseIds`. */
  ghost predicate HoldersKnown(s: State) {
    forall id, sid {:trigger Holds(s, id, sid)} :: Holds(s, id, sid) ==>
      if id in s.client.created then sid in s.client.sessions else sid in s.client.responseIds
  }

  ghost predicate SessionInv(s: State) {
    && LinkInv(s.link)
    && HoldersDiffer(s)
    && (IsOpen(s.link) ==> Disjoint(s.client) && HoldersKnown(s))
  }

  // ----- steps that leave the identities alone -----

  predicate SameIds(c: Client, c': Client) {
    c'.sessions == c.sessions && c'.provisional == c.provisional && c'.responseIds == c.responseIds &&
      c'.created == c.created
  }

  /** Nothing new is answered. */
  ghost predicate QuietLink(l: Link, l': Link) {
    && (forall id {:trigger id in l'.requests} :: id in l'.requests && l'.requests[id].future.Resolved? ==>
          id in l.requests && l'.requests[id].call == l.requests[id].call &&
            l'.requests[id].future == l.requests[id].future)
    && (forall id {:trigger id in l.requests} :: id in l.requests ==>
          id in l'.requests && (l.requests[id].sender.Gone? ==> l'.requests[id].sender.Gone?))
    && (IsOpen(l') ==> IsOpen(l))
  }

  lemma QuietKeeps(s: State, s': State)
    requires SessionInv(s) && LinkKeeps(s.link, s'.link)
    requires QuietLink(s.link, s'.link) && s'.client.created == s.client.created
    requires IsOpen(s'.link) ==> SameIds(s.client, s'.client)
    ensures SessionInv(s')
  {
    forall id, sid | Holds(s', id, sid) ensures Holds(s, id, sid) {
      if id !in s'.client.created { assert id in s'.link.requests; }
    }
  }

  lemma FailIsQuiet(l: Link)
    requires LinkInv(l)
    ensures QuietLink(l, FailClosed(l))
    ensures !IsOpen(FailClosed(l))
  {
  }

  lemma SameIsQuiet(l: Link)
    ensures QuietLink(l, l)
  {
  }

  lemma FailKeepsSessions(s: State, c: Client)
    requires SessionInv(s) && c.created == s.client.created
    ensures SessionInv(State(FailClosed(s.link), c))
  {
    FailIsQuiet(s.link);
    FailClosedKeeps(s.link);
    QuietKeeps(s, State(FailClosed(s.link), c));
  }

  // ----- notifications -----

  lemma AdmissionKeepsSessions(s: State, sid: Id)
    requires SessionInv(s) && sid !in s.client.sessions && sid !in s.client.responseIds
    ensures AdmitProvisional(s, sid).Some? ==> SessionInv(AdmitProvisional(s, sid).value)
  {
    var r := AdmitProvisional(s, sid);
    if r.Some? {
      forall id, t | Holds(r.value, id, t) ensures Holds(s, id, t) {
      }
    }
  }

  lemma EnqueueIds(s: State, sid: Id, entry: Entry, bytes: Option<nat>)
    ensures var s' := Enqueue(s, sid, entry, bytes);
      s'.client.created == s.client.created &&
        (s'.link == FailClosed(s.link) || (s'.link == s.link && SameIds(s.client, s'.client)))
  {
  }

  lemma EnqueueKeepsSessions(s: State, sid: Id, entry: Entry, bytes: Option<nat>)
    requires SessionInv(s)
    ensures SessionInv(Enqueue(s, sid, entry, bytes))
  {
    hide Enqueue, SessionInv;
    EnqueueIds(s, sid, entry, bytes);
    var s' := Enqueue(s, sid, entry, bytes);
    if s'.link == FailClosed(s.link) {
      FailKeepsSessions(s, s'.client);
      assert s' == State(FailClosed(s.link), s'.client);
    } else {
      SameKeepsSessions(s, s'.client);
      assert s' == State(s.link, s'.client);
    }
  }

  lemma SameKeepsSessions(s: State, c: Client)
    requires SessionInv(s) && SameIds(s.client, c)
    ensures SessionInv(State(s.link, c))
  {
    SameIsQuiet(s.link);
    KeepsItself(s.link);
    QuietKeeps(s, State(s.link, c));
  }

  lemma NotificationKeepsSessions(s: State, n: Notification)
    requires SessionInv(s)
    ensures SessionInv(HandleNotification(s, n))
  {
    hide SessionInv, Enqueue, AdmitProvisional, FailClosed;
    FailKeepsSessions(s, s.client);
    if n.session.Some? {
      EnqueueKeepsSessions(s, n.session.value, Update(n.tag), n.bytes);
      if n.session.value !in s.client.sessions && n.session.value !in s.client.responseIds {
        AdmissionKeepsSessions(s, n.session.value);
      }
    }
  }

  // ----- callbacks -----

  lemma CallbacksKeepSessions(s: State, callbacks: map<Id, Callback>, next: Id)
    requires SessionInv(s) && LinkInv(s.link.(callbacks := callbacks, nextCallback := next))
    ensures SessionInv(s.(link := s.link.(callbacks := callbacks, nextCallback := next)))
  {
    var l := s.link.(callbacks := callbacks, nextCallback := next);
    QuietKeeps(s, s.(link := l));
  }

  lemma ObservedRequestKeeps(s: State, session: Option<Id>, tag: Id, bytes: nat)
    requires SessionInv(s)
    ensures SessionInv(ObserveAgentRequest(s, session, tag, bytes))
  {
    hide SessionInv, Enqueue, FailClosed;
    FailKeepsSessions(s, s.client);
    if session.Some? { EnqueueKeepsSessions(s, session.value, CallbackEvidence(tag), Some(bytes)); }
  }

  lemma RequestKeepsSessions(s: State, session: Option<Id>, tag: Id, bytes: nat)
    requires SessionInv(s)
    ensures SessionInv(DispatchRequest(s, session, tag, bytes))
  {
    RequestLinkInv(s, session, tag, bytes);
    hide SessionInv, ObserveAgentRequest, FailClosed, LinkInv;
    ObservedRequestKeeps(s, session, tag, bytes);
    var t := ObserveAgentRequest(s, session, tag, bytes);
    FailKeepsSessions(t, t.client);
    if session.Some? && !t.link.failed && |t.link.callbacks| < MAX_INCOMING_REQUEST_TASKS {
      CallbacksKeepSessions(t, t.link.callbacks[t.link.nextCallback := Callback(session.value, false)],
        t.link.nextCallback + 1);
    }
  }

  lemma RequestLinkInv(s: State, session: Option<Id>, tag: Id, bytes: nat)
    requires SessionInv(s)
    ensures LinkInv(DispatchRequest(s, session, tag, bytes).link)
  {
    hide DispatchRequest;
    RequestKeepsLink(s, session, tag, bytes);
  }

  // ----- responses -----

  /** The answer of a request that is no session/new changes no identity. */
  lemma OtherAnswerKeeps(s: State, id: Id, a: Answer, c: Client)
    requires SessionInv(s) && Pends(s.link, id) && !s.link.requests[id].call.NewSession? && SameIds(s.client, c)
    ensures SessionInv(State(Resolve(s.link, id, a), c))
  {
    ResolveKeeps(s.link, id, a);
    var s' := State(Resolve(s.link, id, a), c);
    forall x, sid | Holds(s', x, sid) ensures Holds(s, x, sid) {
    }
  }

  lemma TurnIds(s: State, p: Id)
    ensures var t := ObserveTurn(s, p);
      t.client.created == s.client.created &&
        (t.link == FailClosed(s.link) || (t.link == s.link && SameIds(s.client, t.client)))
  {
  }

  /** The transport failed, or the answer was accepted and its identity moved to the answered ones. */
  predicate CreationTaken(s: State, a: Answer, t: State) {
    && t.client.created == s.client.created
    && (t.link == FailClosed(s.link)
        || (&& t.link == s.link
            && t.client.sessions == s.client.sessions
            && |t.client.provisional| <= PendingCreations(s.link) - 1
            && (if a.Answered? then
                  && a.session.Some?
                  && a.session.value !in s.client.sessions && a.session.value !in s.client.responseIds
                  && t.client.provisional == s.client.provisional - {a.session.value}
                  && t.client.responseIds == s.client.responseIds + {a.session.value}
                else
                  && t.client.provisional == s.client.provisional
                  && t.client.responseIds == s.client.responseIds)))
  }

  lemma AnswerObserved(s: State, session: Option<Id>)
    ensures CreationTaken(s, Answered(session), ObserveCreation(s, Answered(session)))
  {
    hide FailClosed, PendingCreations;
  }

  lemma ErrorObserved(s: State)
    ensures CreationTaken(s, Errored, ObserveCreation(s, Errored))
  {
    hide FailClosed, PendingCreations;
  }

  /** What an accepted answer to session/new establishes before its future is resolved. */
  lemma CreationObserved(s: State, a: Answer)
    ensures CreationTaken(s, a, ObserveCreation(s, a))
  {
    hide CreationTaken, ObserveCreation;
    match a
    case Answered(session) => AnswerObserved(s, session);
    case Errored => ErrorObserved(s);
  }

  lemma AnswerHolds(s: State, s': State, id: Id, a: Answer)
    requires SessionInv(s) && IsOpen(s.link) && Pends(s.link, id)
    requires a.Answered? && a.session.Some? ==>
      a.session.value !in s.client.sessions && a.session.value !in s.client.responseIds
    requires s'.link.requests == s.link.requests[id := s.link.requests[id].(future := Resolved(a))]
    requires s'.client.created == s.client.created
    ensures HoldersDiffer(s')
    ensures forall x, sid {:trigger Holds(s', x, sid)} :: Holds(s', x, sid) ==>
      Holds(s, x, sid) || (x == id && a == Answered(Some(sid)))
  {
    forall x, sid | Holds(s', x, sid) ensures Holds(s, x, sid) || (x == id && a == Answered(Some(sid))) {
    }
  }

  lemma CreationAnswerKeeps(s: State, id: Id, a: Answer)
    requires SessionInv(s) && IsOpen(s.link) && Pends(s.link, id) && s.link.requests[id].call.NewSession?
    requires ObserveCreation(s, a).link == s.link
    ensures SessionInv(State(
      Resolve(s.link, id, a),
      ObserveCreation(s, a).client))
  {
    var l := Resolve(s.link, id, a);
    var s' := State(l, ObserveCreation(s, a).client);
    CreationObserved(s, a);
    FailIsQuiet(s.link);
    hide ObserveCreation, FailClosed;
    ResolveKeeps(s.link, id, a);
    AnswerHolds(s, s', id, a);
    AnswerKnown(s, s', id, a);
  }

  lemma AnswerKnown(s: State, s': State, id: Id, a: Answer)
    requires SessionInv(s) && IsOpen(s.link) && Pends(s.link, id)
    requires forall x, sid {:trigger Holds(s', x, sid)} :: Holds(s', x, sid) ==>
      Holds(s, x, sid) || (x == id && a == Answered(Some(sid)))
    requires s'.client.created == s.client.created && s'.client.sessions == s.client.sessions
    requires if a.Answered? then
        && a.session.Some? && a.session.value !in s.client.sessions
        && s'.client.provisional == s.client.provisional - {a.session.value}
        && s'.client.responseIds == s.client.responseIds + {a.session.value}
      else s'.client.provisional == s.client.provisional && s'.client.responseIds == s.client.responseIds
    requires id !in s.client.created
    ensures HoldersKnown(s') && Disjoint(s'.client)
  {
    forall x, t | Holds(s', x, t) ensures if x in s'.client.created then t in s'.client.sessions
      else t in s'.client.responseIds {
      if Holds(s, x, t) {}
    }
  }

  lemma ResponseKeepsSessions(s: State, id: Id, a: Answer)
    requires SessionInv(s) && !s.link.closed
    ensures SessionInv(DispatchResponse(s, id, a))
  {
    FailKeepsSessions(s, s.client);
    if Pends(s.link, id) {
      PendsOpen(s, id);
      var t := Observed(s, id, a);
      assert FailClosed(s.link).failed;
      ObservedLink(s, id, a);
      match s.link.pendingRequests[id] {
        case NewSession => CreationObserved(s, a);
        case PromptTurn(p) => TurnIds(s, p);
        case OtherMethod =>
      }
      hide SessionInv, ObserveCreation, ObserveTurn, DispatchResponse, Resolve;
      if t.link == FailClosed(s.link) {
        FailKeepsSessions(s, t.client);
      } else if s.link.pendingRequests[id].NewSession? {
        CreationAnswerKeeps(s, id, a);
      } else {
        OtherAnswerKeeps(s, id, a, t.client);
      }
    }
  }

  lemma PendsOpen(s: State, id: Id)
    requires LinkInv(s.link) && Pends(s.link, id) && !s.link.closed
    ensures IsOpen(s.link) && id in s.link.pendingRequests && s.link.requests[id].call == s.link.pendingRequests[id]
  {
  }

  // ----- creations resume -----

  lemma ResumedHolds(s: State, s': State, id: Id, sid: Id)
    requires SessionInv(s) && Holds(s, id, sid) && id !in s.client.created
    requires s'.link.requests == s.link.requests[id := s.link.requests[id].(sender := Gone)]
    requires s'.client.created == s.client.created || s'.client.created == s.client.created[id := sid]
    ensures HoldersDiffer(s')
    ensures forall x, t {:trigger Holds(s', x, t)} :: Holds(s', x, t) ==> Holds(s, x, t)
  {
    forall x, t | Holds(s', x, t) ensures Holds(s, x, t) {
    }
  }

  lemma BoundIds(s: State, sid: Id)
    ensures BindSession(s, sid).Success? ==>
      var c := BindSession(s, sid).value.client;
      && BindSession(s, sid).value.link == s.link
      && c.sessions == s.client.sessions && c.created == s.client.created
      && c.provisional == s.client.provisional - {sid} && c.responseIds == s.client.responseIds - {sid}
    ensures BindSession(s, sid).Failure? ==>
      BindSession(s, sid).error.client.created == s.client.created &&
        BindSession(s, sid).error.link == FailClosed(s.link)
  {
  }

  lemma MovedKeepsSessions(s: State, id: Id, w: Sender)
    requires SessionInv(s) && id in s.link.requests && !s.link.requests[id].sender.Gone? && !w.Draining?
    ensures SessionInv(s.(link := s.link.(requests := s.link.requests[id := s.link.requests[id].(sender := w)])))
  {
    SenderMovesKeeps(s.link, id, w);
    var l := s.link.(requests := s.link.requests[id := s.link.requests[id].(sender := w)]);
    MovedHolds(s, s.(link := l), id);
  }

  lemma MovedHolds(s: State, s': State, id: Id)
    requires HoldersDiffer(s) && id in s.link.requests && !s.link.requests[id].sender.Gone? && s'.client == s.client
    requires id in s'.link.requests &&
      s'.link.requests == s.link.requests[id := s.link.requests[id].(sender := s'.link.requests[id].sender)]
    ensures HoldersDiffer(s')
    ensures forall x, t {:trigger Holds(s', x, t)} :: Holds(s', x, t) ==> Holds(s, x, t)
  {
    forall x, t | Holds(s', x, t) ensures Holds(s, x, t) {
    }
  }

  lemma CreationResumes(s: State, id: Id, registers: bool, sid: Id)
    requires SessionInv(s) && SenderAt(s.link, id, AwaitingAnswer) && Holds(s, id, sid) && id !in s.client.created
    ensures SessionInv(SenderResumes(s, id, registers))
  {
    var moved := s.(link := s.link.(requests := s.link.requests[id := s.link.requests[id].(sender := Gone)]));
    MovedKeepsSessions(s, id, Gone);
    BoundIds(moved, sid);
    hide BindSession;
    var s' := SenderResumes(s, id, registers);
    if BindSession(moved, sid).Failure? {
      FailKeepsSessions(moved, s'.client);
      assert s' == State(FailClosed(moved.link), s'.client);
    } else {
      ResumedHolds(s, s', id, sid);
      if IsOpen(s'.link) { ResumedKnown(s, s', id, sid); }
    }
  }

  lemma ResumedKnown(s: State, s': State, id: Id, sid: Id)
    requires SessionInv(s) && IsOpen(s.link) && Holds(s, id, sid) && id !in s.client.created
    requires s'.client.responseIds == s.client.responseIds - {sid}
    requires s'.client.provisional == s.client.provisional - {sid}
    requires s'.link.requests == s.link.requests[id := s.link.requests[id].(sender := Gone)]
    requires (s'.client.sessions == s.client.sessions && s'.client.created == s.client.created)
      || (s'.client.sessions == s.client.sessions + {sid} && s'.client.created == s.client.created[id := sid])
    ensures HoldersKnown(s') && Disjoint(s'.client)
    ensures s'.client.provisional == s.client.provisional
  {
    assert sid in s.client.responseIds;
    forall x, t | Holds(s', x, t) ensures if x in s'.client.created then t in s'.client.sessions
      else t in s'.client.responseIds {
      assert Holds(s, x, t);
    }
  }

  lemma SenderResumesKeepsSessions(s: State, id: Id, registers: bool)
    requires SessionInv(s) && SenderAt(s.link, id, AwaitingAnswer)
    ensures SessionInv(SenderResumes(s, id, registers))
  {
    var r := s.link.requests[id];
    assert id !in s.client.created;
    if r.call.NewSession? && r.future.Resolved? && r.future.answer.Answered? && r.future.answer.session.Some? {
      CreationResumes(s, id, registers, r.future.answer.session.value);
    } else {
      MovedKeepsSessions(s, id, Gone);
    }
  }

  // ----- all events -----

  lemma StartedIsQuiet(l: Link, m: Method)
    requires LinkInv(l)
    ensures QuietLink(l, StartRequest(l, m))
  {
  }

  lemma RaisedIsQuiet(l: Link, id: Id)
    requires LinkInv(l) && SenderAt(l, id, Draining)
    ensures QuietLink(l, DrainRaises(l, id))
  {
  }

  lemma CancelledIsQuiet(l: Link, id: Id)
    requires LinkInv(l)
    ensures QuietLink(l, CancelSender(l, id))
  {
  }

  lemma QuietStep(s: State, s': State)
    requires SessionInv(s) && LinkKeeps(s.link, s'.link) && QuietLink(s.link, s'.link) && SameIds(s.client, s'.client)
    ensures SessionInv(s')
  {
    QuietKeeps(s, s');
  }

  lemma RequestSentKeepsSessions(s: State, id: Id)
    requires SessionInv(s) && SenderAt(s.link, id, Draining)
    ensures SessionInv(RequestSent(s, id))
  {
    var moved := s.(link := s.link.(requests := s.link.requests[id := s.link.requests[id].(sender := AwaitingAnswer)]));
    MovedKeepsSessions(s, id, AwaitingAnswer);
    hide SessionInv, FailClosed;
    FailKeepsSessions(moved, moved.client);
    SameKeepsSessions(moved, RequestSent(s, id).client);
  }

  lemma TaskEventKeepsSessions(s: State, e: Event)
    requires SessionInv(s)
    requires e.TurnTaskRuns? || e.CallStarts? || e.DrainFails? || e.SenderCancelled? || e.Pop? || e.CleanupRuns?
    ensures SessionInv(Next(s, e))
  {
    LinkNextKeeps(s, e);
    hide LinkInv, LinkKeeps, QuietLink, StartRequest, DrainRaises, CancelSender, SessionInv, SameIds;
    SameIsQuiet(s.link);
    TaskIds(s, e);
    match e
    case TurnTaskRuns(p) => StartedIsQuiet(s.link, PromptTurn(p)); QuietStep(s, Next(s, e));
    case CallStarts(creation) =>
      StartedIsQuiet(s.link, if creation then NewSession else OtherMethod);
      QuietStep(s, Next(s, e));
    case DrainFails(id) =>
      if SenderAt(s.link, id, Draining) { RaisedIsQuiet(s.link, id); }
      QuietStep(s, Next(s, e));
    case SenderCancelled(id) => CancelledIsQuiet(s.link, id); QuietStep(s, Next(s, e));
    case Pop(_) => QuietStep(s, Next(s, e));
    case CleanupRuns(p) =>
      if p in s.client.prompts && s.client.prompts[p].request.Some? {
        CancelledIsQuiet(s.link, s.client.prompts[p].request.value);
      }
      QuietStep(s, Next(s, e));
  }

  lemma TaskIds(s: State, e: Event)
    requires e.TurnTaskRuns? || e.CallStarts? || e.DrainFails? || e.SenderCancelled? || e.Pop? || e.CleanupRuns?
    ensures SameIds(s.client, Next(s, e).client)
  {
    hide StartRequest, DrainRaises, CancelSender;
  }

  lemma TeardownKeepsSessions(s: State, e: Event)
    requires SessionInv(s) && (e.Abort? || e.StopBegins? || e.StopEnds?)
    ensures SessionInv(Next(s, e))
  {
    LinkNextKeeps(s, e);
    TeardownIsQuiet(s, e);
    hide LinkInv, QuietLink, HoldersDiffer, HoldersKnown, FailClosed, FailPending;
    QuietKeeps(s, Next(s, e));
  }

  lemma TeardownIsQuiet(s: State, e: Event)
    requires LinkInv(s.link) && (e.Abort? || e.StopBegins? || e.StopEnds?)
    ensures QuietLink(s.link, Next(s, e).link)
    ensures IsOpen(Next(s, e).link) ==> e.StopEnds? && Next(s, e) == s
  {
  }

  lemma BeginKeepsSessions(s: State, p: Id, sid: Id, byteLimit: int, countLimit: int)
    requires SessionInv(s)
    ensures SessionInv(BeginPrompt(s, p, sid, byteLimit, countLimit))
  {
    hide SessionInv, FailClosed;
    var t := BeginPrompt(s, p, sid, byteLimit, countLimit);
    FailKeepsSessions(s, t.client);
    SameKeepsSessions(s, t.client);
  }

  lemma CallbackEventKeepsSessions(s: State, e: Event)
    requires SessionInv(s) && (e.CallbackSettles? || e.CallbackReaped?)
    ensures SessionInv(Next(s, e))
  {
    CallbackKeepsLink(s, e);
    CallbacksKeepSessions(s, Next(s, e).link.callbacks, s.link.nextCallback);
  }

  lemma SessionNextKeeps(s: State, e: Event)
    requires SessionInv(s)
    ensures SessionInv(Next(s, e))
  {
    hide SessionInv, FailClosed, HandleNotification, DispatchRequest, DispatchResponse, RequestSent, SenderResumes,
      BeginPrompt;
    match e
    case Begin(p, sid, byteLimit, countLimit) => BeginKeepsSessions(s, p, sid, byteLimit, countLimit);
    case DrainCompletes(id) => if SenderAt(s.link, id, Draining) { RequestSentKeepsSessions(s, id); }
    case SenderSees(id, registers) =>
      if SenderAt(s.link, id, AwaitingAnswer) { SenderResumesKeepsSessions(s, id, registers); }
    case ReadNotification(n) => NotificationKeepsSessions(s, n);
    case ReadRequest(session, tag, bytes) => RequestKeepsSessions(s, session, tag, bytes);
    case ReadResponse(id, a) => if !s.link.closed { ResponseKeepsSessions(s, id, a); }
    case ReadMalformed => FailKeepsSessions(s, s.client);
    case CallbackSettles(_) => CallbackEventKeepsSessions(s, e);
    case CallbackReaped(_) => CallbackEventKeepsSessions(s, e);
    case Abort => TeardownKeepsSessions(s, e);
    case StopBegins => TeardownKeepsSessions(s, e);
    case StopEnds => TeardownKeepsSessions(s, e);
    case _ => TaskEventKeepsSessions(s, e);
  }

  lemma {:induction false} SessionRunKeeps(s: State, events: seq<Event>)
    requires SessionInv(s)
    ensures SessionInv(Run(s, events))
    decreases |events|
  {
    hide SessionInv, Next;
    if events != [] {
      SessionNextKeeps(s, events[0]);
      SessionRunKeeps(Next(s, events[0]), events[1..]);
    }
  }

  // ----- the theorems -----

  /** While the transport is open, registered, answered and provisional sessions are pairwise disjoint. */
  lemma IdentitiesDisjoint(events: seq<Event>)
    ensures var s := Run(Start(), events);
      IsOpen(s.link) ==> Disjoint(s.client)
  {
    SessionRunKeeps(Start(), events);
  }

  /** Distinct successful creations return distinct sessions, in every run, failed or not. */
  lemma CreationsDistinct(events: seq<Event>, a: Id, b: Id)
    ensures var created := Run(Start(), events).client.created;
      a in created && b in created && created[a] == created[b] ==> a == b
  {
    SessionRunKeeps(Start(), events);
    var s := Run(Start(), events);
    if a in s.client.created && b in s.client.created && s.client.created[a] == s.client.created[b] {
      assert Holds(s, a, s.client.created[a]) && Holds(s, b, s.client.created[a]);
    }
  }
}
