/** What holds of the transport along every run: pending requests, futures and the close handler. */
module ReaderLink {
  import opened Wrappers
  import opened ReaderModel

  ghost predicate LinkInv(l: Link) {
    && l.pending == l.pendingRequests.Keys
    && (forall id {:trigger id in l.pendingRequests} :: id in l.pendingRequests ==>
          id in l.requests && l.requests[id].call == l.pendingRequests[id])
    && (forall id {:trigger id in l.requests} :: id in l.requests ==>
          id < l.nextId && (l.requests[id].future.Waiting? ==> id in l.pendingRequests))
    && (forall t {:trigger t in l.callbacks} :: t in l.callbacks ==> t < l.nextCallback)
    && (l.failed ==> l.pending == {})
    && l.closeCalls == (if l.failed then 1 else 0)
  }

  /** What a step may do to requests: they keep their call, and a settled future stays as it is. */
  ghost predicate LinkGrows(l: Link, l': Link) {
    && l.nextId <= l'.nextId
    && (l.failed ==> l'.failed)
    && (l.closed ==> l'.closed)
    && l.closeCalls <= l'.closeCalls
    && (forall id {:trigger id in l.requests} :: id in l.requests ==>
          && id in l'.requests
          && l'.requests[id].call == l.requests[id].call
          && (!l.requests[id].future.Waiting? ==> l'.requests[id].future == l.requests[id].future)
          && (l.requests[id].sender.Gone? ==> l'.requests[id].sender.Gone?))
  }

  ghost predicate LinkKeeps(l: Link, l': Link) {
    LinkInv(l') && LinkGrows(l, l')
  }

  lemma FailPendingKeeps(l: Link)
    requires LinkInv(l)
    ensures LinkKeeps(l, FailPending(l))
    ensures forall id {:trigger id in l.requests} :: id in l.requests ==>
      id in FailPending(l).requests && !FailPending(l).requests[id].future.Waiting?
  {
  }

  lemma FailClosedKeeps(l: Link)
    requires LinkInv(l)
    ensures LinkKeeps(l, FailClosed(l))
  {
    if IsOpen(l) { FailPendingKeeps(l); }
  }

  lemma StartRequestKeeps(l: Link, m: Method)
    requires LinkInv(l)
    ensures LinkKeeps(l, StartRequest(l, m))
  {
  }

  lemma DrainRaisesKeeps(l: Link, id: Id)
    requires LinkInv(l) && SenderAt(l, id, Draining)
    ensures LinkKeeps(l, DrainRaises(l, id))
  {
  }

  lemma CancelSenderKeeps(l: Link, id: Id)
    requires LinkInv(l)
    ensures LinkKeeps(l, CancelSender(l, id))
  {
  }

  lemma SenderMovesKeeps(l: Link, id: Id, w: Sender)
    requires LinkInv(l) && id in l.requests && !l.requests[id].sender.Gone?
    ensures LinkKeeps(l, l.(requests := l.requests[id := l.requests[id].(sender := w)]))
  {
  }

  lemma ResolveKeeps(l: Link, id: Id, a: Answer)
    requires LinkInv(l) && Pends(l, id)
    ensures LinkKeeps(l, Resolve(l, id, a))
  {
  }

  lemma GrowsThrough(a: Link, b: Link, c: Link)
    requires LinkGrows(a, b) && LinkGrows(b, c)
    ensures LinkGrows(a, c)
  {
  }

  lemma KeepsItself(l: Link)
    requires LinkInv(l)
    ensures LinkKeeps(l, l)
  {
  }

  // ----- what reading a line does to the transport -----

  predicate FailedOrSame(s: State, s': State) {
    s'.link == s.link || s'.link == FailClosed(s.link)
  }

  lemma NotificationLink(s: State, n: Notification)
    ensures FailedOrSame(s, HandleNotification(s, n))
  {
  }

  lemma AgentRequestLink(s: State, session: Option<Id>, tag: Id, bytes: nat)
    ensures FailedOrSame(s, ObserveAgentRequest(s, session, tag, bytes))
  {
  }

  function Observed(s: State, id: Id, a: Answer): State
    requires Pends(s.link, id)
  {
    if id !in s.link.pendingRequests then s else
    match s.link.pendingRequests[id]
    case NewSession => ObserveCreation(s, a)
    case PromptTurn(p) => ObserveTurn(s, p)
    case OtherMethod => s
  }

  lemma ObservedLink(s: State, id: Id, a: Answer)
    requires Pends(s.link, id)
    ensures FailedOrSame(s, Observed(s, id, a))
    ensures DispatchResponse(s, id, a).client == Observed(s, id, a).client
    ensures DispatchResponse(s, id, a).link ==
      if Observed(s, id, a).link.failed || !Pends(Observed(s, id, a).link, id) then Observed(s, id, a).link
      else Resolve(s.link, id, a)
  {
    if IsOpen(s.link) { assert FailClosed(s.link).failed; }
  }

  lemma NotificationKeepsLink(s: State, n: Notification)
    requires LinkInv(s.link)
    ensures LinkKeeps(s.link, HandleNotification(s, n).link)
  {
    hide HandleNotification, LinkKeeps;
    NotificationLink(s, n);
    FailClosedKeeps(s.link);
    KeepsItself(s.link);
  }

  lemma RequestKeepsLink(s: State, session: Option<Id>, tag: Id, bytes: nat)
    requires LinkInv(s.link)
    ensures LinkKeeps(s.link, DispatchRequest(s, session, tag, bytes).link)
  {
    hide ObserveAgentRequest;
    AgentRequestLink(s, session, tag, bytes);
    FailClosedKeeps(s.link);
    KeepsItself(s.link);
    var t := ObserveAgentRequest(s, session, tag, bytes);
    FailClosedKeeps(t.link);
  }

  lemma ResponseKeepsLink(s: State, id: Id, a: Answer)
    requires LinkInv(s.link)
    ensures LinkKeeps(s.link, DispatchResponse(s, id, a).link)
  {
    FailClosedKeeps(s.link);
    KeepsItself(s.link);
    if Pends(s.link, id) {
      hide DispatchResponse, Observed, LinkKeeps, LinkInv, FailClosed, Resolve;
      ObservedLink(s, id, a);
      ResolveKeeps(s.link, id, a);
    }
  }

  lemma RequestSentKeepsLink(s: State, id: Id)
    requires LinkInv(s.link) && SenderAt(s.link, id, Draining)
    ensures LinkKeeps(s.link, RequestSent(s, id).link)
  {
    hide LinkInv, LinkGrows, FailClosed;
    SenderMovesKeeps(s.link, id, AwaitingAnswer);
    var l := s.link.(requests := s.link.requests[id := s.link.requests[id].(sender := AwaitingAnswer)]);
    FailClosedKeeps(l);
    GrowsThrough(s.link, l, FailClosed(l));
  }

  lemma SenderResumesKeepsLink(s: State, id: Id, registers: bool)
    requires LinkInv(s.link) && SenderAt(s.link, id, AwaitingAnswer)
    ensures LinkKeeps(s.link, SenderResumes(s, id, registers).link)
  {
    hide LinkInv, LinkGrows, FailClosed;
    SenderMovesKeeps(s.link, id, Gone);
    var l := s.link.(requests := s.link.requests[id := s.link.requests[id].(sender := Gone)]);
    FailClosedKeeps(l);
    GrowsThrough(s.link, l, FailClosed(l));
  }

  lemma TeardownKeepsLink(s: State, e: Event)
    requires LinkInv(s.link) && (e.Abort? || e.StopBegins? || e.StopEnds?)
    ensures LinkKeeps(s.link, Next(s, e).link)
  {
    FailClosedKeeps(s.link);
    FailPendingKeeps(s.link);
  }

  lemma CallbackKeepsLink(s: State, e: Event)
    requires LinkInv(s.link) && (e.CallbackSettles? || e.CallbackReaped?)
    ensures LinkKeeps(s.link, Next(s, e).link)
  {
  }

  /** Every event keeps the transport invariant. */
  lemma LinkNextKeeps(s: State, e: Event)
    requires LinkInv(s.link)
    ensures LinkKeeps(s.link, Next(s, e).link)
  {
    hide LinkInv, LinkKeeps;
    hide HandleNotification, DispatchRequest, DispatchResponse, RequestSent, SenderResumes, FailClosed, StartRequest,
      DrainRaises, CancelSender, FailPending;
    KeepsItself(s.link);
    match e
    case Begin(_, _, _, _) => FailClosedKeeps(s.link);
    case TurnTaskRuns(p) => StartRequestKeeps(s.link, PromptTurn(p));
    case CallStarts(creation) => StartRequestKeeps(s.link, if creation then NewSession else OtherMethod);
    case DrainCompletes(id) => if SenderAt(s.link, id, Draining) { RequestSentKeepsLink(s, id); }
    case DrainFails(id) => if SenderAt(s.link, id, Draining) { DrainRaisesKeeps(s.link, id); }
    case SenderCancelled(id) => CancelSenderKeeps(s.link, id);
    case SenderSees(id, registers) =>
      if SenderAt(s.link, id, AwaitingAnswer) { SenderResumesKeepsLink(s, id, registers); }
    case Pop(p) =>
    case CleanupRuns(p) =>
      if p in s.client.prompts && s.client.prompts[p].request.Some? {
        CancelSenderKeeps(s.link, s.client.prompts[p].request.value);
      }
    case ReadNotification(n) => NotificationKeepsLink(s, n);
    case ReadRequest(session, tag, bytes) => RequestKeepsLink(s, session, tag, bytes);
    case ReadResponse(id, a) => ResponseKeepsLink(s, id, a);
    case ReadMalformed => FailClosedKeeps(s.link);
    case CallbackSettles(_) => CallbackKeepsLink(s, e);
    case CallbackReaped(_) => CallbackKeepsLink(s, e);
    case _ => TeardownKeepsLink(s, e);
  }

  lemma {:induction false} LinkRunKeeps(s: State, events: seq<Event>)
    requires LinkInv(s.link)
    ensures LinkKeeps(s.link, Run(s, events).link)
    decreases |events|
  {
    hide Next;
    if events == [] {
      KeepsItself(s.link);
    } else {
      LinkNextKeeps(s, events[0]);
      LinkRunKeeps(Next(s, events[0]), events[1..]);
      GrowsThrough(s.link, Next(s, events[0]).link, Run(s, events).link);
    }
  }

  // ----- the theorems -----

  /**
   The two pending maps have the same keys and agree with what was sent; every unsettled future is
   pending; a failed transport has neither and has called the close handler exactly once.
   */
  lemma PendingMapsAgree(events: seq<Event>)
    ensures var l := Run(Start(), events).link;
      && l.pending == l.pendingRequests.Keys
      && (forall id :: id in l.pendingRequests ==> id in l.requests && l.requests[id].call == l.pendingRequests[id])
      && (forall id :: id in l.requests && l.requests[id].future.Waiting? ==> id in l.pending)
      && l.closeCalls == (if l.failed then 1 else 0)
      && (l.failed ==> l.pending == {} && forall id :: id in l.requests ==> !l.requests[id].future.Waiting?)
  {
    LinkRunKeeps(Start(), events);
  }

  /** A future that has settled keeps its outcome in every continuation. */
  lemma FuturesSettleOnce(events: seq<Event>, more: seq<Event>, id: Id)
    requires id in Run(Start(), events).link.requests && !Run(Start(), events).link.requests[id].future.Waiting?
    ensures var s := Run(Start(), events);
      id in Run(s, more).link.requests && Run(s, more).link.requests[id].future == s.link.requests[id].future
  {
    LinkRunKeeps(Start(), events);
    LinkRunKeeps(Run(Start(), events), more);
  }

  /**
   What may settle a future: the response with its ID, its own write, its own sender, or the failure
   of the transport.
   */
  predicate SettledBy(s: State, e: Event, id: Id, future: Future) {
    match future
    case Waiting => false
    case Resolved(a) => e == ReadResponse(id, a)
    case Withdrawn =>
      || e == DrainFails(id)
      || e == SenderCancelled(id)
      || (e.CleanupRuns? && e.prompt in s.client.prompts && s.client.prompts[e.prompt].request == Some(id))
    case Dropped => Next(s, e).link.failed || e.StopEnds?
  }

  lemma FailureSettles(l: Link, id: Id)
    requires id in l.requests
    ensures id in FailClosed(l).requests
    ensures FailClosed(l).requests[id].future == l.requests[id].future
      || (FailClosed(l).requests[id].future.Dropped? && FailClosed(l).failed)
  {
  }

  lemma ResponseSettles(s: State, r: Id, a: Answer, id: Id)
    requires id in s.link.requests
    ensures var l := DispatchResponse(s, r, a).link;
      && id in l.requests
      && (l.requests[id].future == s.link.requests[id].future
          || (id == r && l.requests[id].future == Resolved(a))
          || (l.failed && l.requests[id].future.Dropped?))
  {
    FailureSettles(s.link, id);
    if Pends(s.link, r) {
      hide DispatchResponse, Observed, FailClosed;
      ObservedLink(s, r, a);
    }
  }

  lemma LineSettles(s: State, e: Event, id: Id)
    requires id in s.link.requests && (e.ReadNotification? || e.ReadRequest? || e.ReadMalformed? || e.Begin?)
    ensures var l := Next(s, e).link;
      id in l.requests && (l.requests[id].future == s.link.requests[id].future ||
        (l.failed && l.requests[id].future.Dropped?))
  {
    hide FailClosed, HandleNotification, ObserveAgentRequest;
    FailureSettles(s.link, id);
    match e
    case ReadNotification(n) => NotificationLink(s, n);
    case ReadRequest(session, tag, bytes) =>
      AgentRequestLink(s, session, tag, bytes);
      FailureSettles(ObserveAgentRequest(s, session, tag, bytes).link, id);
    case _ =>
  }

  lemma SenderSettles(s: State, e: Event, id: Id)
    requires id in s.link.requests && s.link.requests[id].future.Waiting?
    requires e.DrainCompletes? || e.SenderSees?
    ensures var l := Next(s, e).link;
      id in l.requests && (l.requests[id].future.Waiting? || (l.failed && l.requests[id].future.Dropped?))
  {
    hide FailClosed;
    var moved := s.link.(requests := s.link.requests[e.id :=
      if e.id in s.link.requests
        then s.link.requests[e.id].(sender := if e.DrainCompletes? then AwaitingAnswer else Gone)
      else s.link.requests[id]]);
    FailureSettles(moved, id);
  }

  lemma TaskSettles(s: State, e: Event, id: Id)
    requires LinkInv(s.link) && id in s.link.requests && s.link.requests[id].future.Waiting?
    requires !(e.ReadResponse? || e.ReadNotification? || e.ReadRequest? || e.ReadMalformed? || e.Begin?)
    requires !(e.DrainCompletes? || e.SenderSees?)
    ensures id in Next(s, e).link.requests
    ensures Next(s, e).link.requests[id].future.Waiting? || SettledBy(s, e, id, Next(s, e).link.requests[id].future)
  {
  }

  lemma SettledByNext(s: State, e: Event, id: Id)
    requires LinkInv(s.link) && id in s.link.requests && s.link.requests[id].future.Waiting?
    ensures id in Next(s, e).link.requests
    ensures Next(s, e).link.requests[id].future.Waiting? || SettledBy(s, e, id, Next(s, e).link.requests[id].future)
  {
    hide Next, LinkInv;
    match e
    case ReadResponse(r, a) => ResponseEventSettles(s, r, a, id);
    case ReadNotification(_) => LineSettles(s, e, id);
    case ReadRequest(_, _, _) => LineSettles(s, e, id);
    case ReadMalformed => LineSettles(s, e, id);
    case Begin(_, _, _, _) => LineSettles(s, e, id);
    case DrainCompletes(_) => SenderSettles(s, e, id);
    case SenderSees(_, _) => SenderSettles(s, e, id);
    case _ => TaskSettles(s, e, id);
  }

  lemma ResponseEventSettles(s: State, r: Id, a: Answer, id: Id)
    requires id in s.link.requests && s.link.requests[id].future.Waiting?
    ensures id in Next(s, ReadResponse(r, a)).link.requests
    ensures var future := Next(s, ReadResponse(r, a)).link.requests[id].future;
      future.Waiting? || SettledBy(s, ReadResponse(r, a), id, future)
  {
    hide DispatchResponse;
    ResponseSettles(s, r, a, id);
  }

  /** Whoever settles a future is entitled to: responses settle only their own request. */
  lemma FutureSettledBy(events: seq<Event>, e: Event, id: Id)
    requires var s := Run(Start(), events); id in s.link.requests && s.link.requests[id].future.Waiting?
    ensures var s := Run(Start(), events);
      && id in Next(s, e).link.requests
      && (Next(s, e).link.requests[id].future.Waiting? || SettledBy(s, e, id, Next(s, e).link.requests[id].future))
  {
    hide Next, SettledBy;
    LinkRunKeeps(Start(), events);
    SettledByNext(Run(Start(), events), e, id);
  }
}
