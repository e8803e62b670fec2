/** What reaches a prompt's queue, compared with what was on the wire. */
module ReaderFrames {
  import opened Wrappers
  import opened ReaderModel
  import opened ReaderLink
  import opened ReaderEpochs

  /** The frame read off the wire is what the prompt has received. */
  predicate Matches(s: State, f: Frame, p: Id, sid: Id) {
    if p in s.client.prompts then
      s.client.prompts[p].session == sid ==> f == Frame(s.client.prompts[p].epoch, s.client.prompts[p].entered)
    else
      f == Frame(Unopened, [])
  }

  /** No queue receives anything, and new prompts have received nothing. */
  ghost predicate SameEntries(c: Client, c': Client) {
    && (forall p {:trigger p in c.prompts} :: p in c.prompts ==>
          && p in c'.prompts
          && c'.prompts[p].session == c.prompts[p].session
          && c'.prompts[p].epoch == c.prompts[p].epoch
          && c'.prompts[p].entered == c.prompts[p].entered)
    && (forall p {:trigger p in c'.prompts} :: p in c'.prompts && p !in c.prompts ==>
          c'.prompts[p].epoch.Unopened? && c'.prompts[p].entered == [])
  }

  lemma SilentMatches(s: State, e: Event, f: Frame, p: Id, sid: Id)
    requires Matches(s, f, p, sid) && WireOf(s, e).None? && SameEntries(s.client, Next(s, e).client)
    ensures Matches(Next(s, e), FrameStep(s, e, f, p, sid), p, sid)
  {
  }

  lemma SilentEvents(s: State, e: Event)
    requires LinkInv(s.link) && WireOf(s, e).None? && IsOpen(Next(s, e).link)
    ensures SameEntries(s.client, Next(s, e).client)
  {
    match e
    case ReadNotification(_) => SilentLine(s, e);
    case ReadRequest(_, _, _) => SilentLine(s, e);
    case ReadResponse(id, a) => hide WireOf; if !s.link.closed { SilentResponse(s, id, a); }
    case Abort => Ends(s, e);
    case StopBegins => Ends(s, e);
    case DrainCompletes(_) => SilentSender(s, e);
    case SenderSees(_, _) => SilentSender(s, e);
    case _ => SilentTask(s, e);
  }

  lemma SilentTask(s: State, e: Event)
    requires IsOpen(Next(s, e).link)
    requires !e.DrainCompletes? && !e.SenderSees? && !e.ReadNotification? && !e.ReadRequest? && !e.ReadResponse? &&
      !e.Abort? && !e.StopBegins?
    ensures SameEntries(s.client, Next(s, e).client)
  {
    match e
    case Begin(p, sid, byteLimit, countLimit) => SilentBegin(s, p, sid, byteLimit, countLimit);
    case TurnTaskRuns(p) => hide StartRequest;
    case Pop(p) =>
    case CleanupRuns(p) => hide CancelSender;
    case _ =>
  }

  lemma SilentBegin(s: State, p: Id, sid: Id, byteLimit: int, countLimit: int)
    ensures SameEntries(s.client, Next(s, Begin(p, sid, byteLimit, countLimit)).client)
  {
    hide FailClosed;
  }

  /** A line that names no session cannot be correlated. */
  lemma SilentLine(s: State, e: Event)
    requires (e.ReadNotification? || e.ReadRequest?) && WireOf(s, e).None?
    ensures !IsOpen(Next(s, e).link)
  {
    FailEnds(s.link);
    hide FailClosed;
  }

  lemma SilentSender(s: State, e: Event)
    requires (e.DrainCompletes? || e.SenderSees?) && WireOf(s, e).None?
    ensures SameEntries(s.client, Next(s, e).client)
  {
    hide FailClosed;
  }

  lemma FailEnds(l: Link)
    ensures !IsOpen(FailClosed(l))
  {
  }

  lemma Ends(s: State, e: Event)
    requires e.Abort? || e.StopBegins?
    ensures !IsOpen(Next(s, e).link)
  {
  }

  lemma SilentResponse(s: State, id: Id, a: Answer)
    requires LinkInv(s.link) && WireOf(s, ReadResponse(id, a)).None?
    requires IsOpen(DispatchResponse(s, id, a).link)
    ensures SameEntries(s.client, DispatchResponse(s, id, a).client)
  {
    FailEnds(s.link);
    if Pends(s.link, id) {
      assert s.link.pendingRequests[id] == s.link.requests[id].call;
      CreationEpochs(s, a);
      ObservedLink(s, id, a);
      hide DispatchResponse, ObserveCreation, ObserveTurn;
    }
  }

  // ----- lines and answers -----

  lemma QueueReceives(s: State, sid: Id, entry: Entry, bytes: Option<nat>, p: Id)
    requires EpochInv(s) && IsOpen(Enqueue(s, sid, entry, bytes).link) && PhaseIs(s.client, sid, Active)
    requires p in s.client.prompts
    ensures var run, run' := s.client.prompts[p], Enqueue(s, sid, entry, bytes).client.prompts[p];
      && run'.session == run.session && run'.epoch == run.epoch
      && run'.entered == if run.session == sid && run.epoch.Opened? then run.entered + [entry] else run.entered
  {
    FailEnds(s.link);
    assert sid in s.client.queues && PromptFits(s, p);
  }

  lemma LineMatches(s: State, sid: Id, entry: Entry, bytes: Option<nat>, f: Frame, p: Id, t: Id)
    requires EpochInv(s) && IsOpen(Enqueue(s, sid, entry, bytes).link) && PhaseIs(s.client, sid, Active)
    requires Matches(s, f, p, t)
    ensures Matches(Enqueue(s, sid, entry, bytes), Framed(f, LineFor(sid, entry), p, t), p, t)
  {
    if p in s.client.prompts {
      QueueReceives(s, sid, entry, bytes, p);
    } else {
      FailEnds(s.link);
    }
  }

  lemma NotificationMatches(s: State, n: Notification, f: Frame, p: Id, sid: Id)
    requires EpochInv(s) && n.session.Some? && IsOpen(HandleNotification(s, n).link) && Matches(s, f, p, sid)
    ensures Matches(HandleNotification(s, n), Framed(f, LineFor(n.session.value, Update(n.tag)), p, sid), p, sid)
  {
    FailEnds(s.link);
    hide Enqueue, FailClosed;
    var r := DiscardStateUpdate(s, n);
    if r.Some? {
      if p in s.client.prompts { assert IsOpen(s.link) && PromptFits(s, p); }
    } else {
      hide PromptsFit, EpochsSingle, References, Matches;
      LineMatches(s, n.session.value, Update(n.tag), n.bytes, f, p, sid);
    }
  }

  lemma RequestMatches(s: State, session: Id, tag: Id, bytes: nat, f: Frame, p: Id, sid: Id)
    requires EpochInv(s) && IsOpen(DispatchRequest(s, Some(session), tag, bytes).link) && Matches(s, f, p, sid)
    ensures Matches(DispatchRequest(s, Some(session), tag, bytes),
      Framed(f, LineFor(session, CallbackEvidence(tag)), p, sid), p, sid)
  {
    FailEnds(s.link);
    var t := ObserveAgentRequest(s, Some(session), tag, bytes);
    FailEnds(t.link);
    hide Enqueue, FailClosed, EpochInv;
    LineMatches(s, session, CallbackEvidence(tag), Some(bytes), f, p, sid);
  }

  lemma SentMatches(s: State, id: Id, f: Frame, p: Id, sid: Id)
    requires EpochInv(s) && IsOpen(s.link) && SenderAt(s.link, id, Draining) && s.link.requests[id].call.PromptTurn?
    requires Matches(s, f, p, sid)
    ensures Matches(RequestSent(s, id), Framed(f, PromptSent(s.link.requests[id].call.prompt), p, sid), p, sid)
  {
    SentFindsPreparing(s, id);
    assert PromptFits(s, s.link.requests[id].call.prompt);
  }

  lemma AnswerMatches(s: State, id: Id, a: Answer, f: Frame, p: Id, sid: Id)
    requires EpochInv(s) && IsOpen(s.link) && id in s.link.requests && s.link.requests[id].call.PromptTurn?
    requires IsOpen(DispatchResponse(s, id, a).link) && Matches(s, f, p, sid)
    ensures Matches(DispatchResponse(s, id, a), Framed(f, PromptAnswered(s.link.requests[id].call.prompt), p, sid),
      p, sid)
  {
    FailEnds(s.link);
    if Pends(s.link, id) {
      var q := s.link.requests[id].call.prompt;
      assert s.link.pendingRequests[id] == s.link.requests[id].call;
      ObservedLink(s, id, a);
      TurnShuts(s, id, q);
      hide DispatchResponse, ObserveTurn, EpochInv;
    }
  }

  /** While the transport stays open, reading a step off the wire predicts what the prompt receives. */
  lemma StepMatches(s: State, e: Event, f: Frame, p: Id, sid: Id)
    requires EpochInv(s) && IsOpen(s.link) && IsOpen(Next(s, e).link) && Matches(s, f, p, sid)
    ensures Matches(Next(s, e), FrameStep(s, e, f, p, sid), p, sid)
  {
    if WireOf(s, e).None? {
      SilentEvents(s, e);
      hide Next, WireOf, EpochInv;
      SilentMatches(s, e, f, p, sid);
    } else {
      hide EpochInv, Matches, Framed, HandleNotification, DispatchRequest, DispatchResponse, RequestSent;
      match e
      case DrainCompletes(id) => SentMatches(s, id, f, p, sid);
      case ReadNotification(n) => NotificationMatches(s, n, f, p, sid);
      case ReadRequest(session, tag, bytes) => RequestMatches(s, session.value, tag, bytes, f, p, sid);
      case ReadResponse(id, a) => AnswerMatches(s, id, a, f, p, sid);
    }
  }

  lemma StaysEnded(s: State, events: seq<Event>)
    requires LinkInv(s.link) && IsOpen(Run(s, events).link)
    ensures IsOpen(s.link)
  {
    LinkRunKeeps(s, events);
  }

  lemma {:induction false} FramesMatch(s: State, events: seq<Event>, f: Frame, p: Id, sid: Id)
    requires EpochInv(s) && IsOpen(Run(s, events).link) && Matches(s, f, p, sid)
    ensures Matches(Run(s, events), FrameAfter(s, events, f, p, sid), p, sid)
    decreases |events|
  {
    if events != [] {
      var t := Next(s, events[0]);
      EpochNextKeeps(s, events[0]);
      StaysEnded(s, events);
      StaysEnded(t, events[1..]);
      hide EpochInv, Next, WireOf, Framed, Matches;
      StepMatches(s, events[0], f, p, sid);
      FramesMatch(t, events[1..], FrameStep(s, events[0], f, p, sid), p, sid);
    }
  }

  // ----- the theorems -----

  /**
   While the transport is open, what has entered a prompt's queue is exactly what the wire carried for
   its session between its request and its answer, in read order, and then one terminal marker.
   */
  lemma QueueIsFrame(events: seq<Event>, p: Id)
    requires var s := Run(Start(), events); IsOpen(s.link) && p in s.client.prompts
    ensures var s := Run(Start(), events); var run := s.client.prompts[p];
      Frame(run.epoch, run.entered) == FrameAfter(Start(), events, Frame(Unopened, []), p, run.session)
  {
    var sid := Run(Start(), events).client.prompts[p].session;
    FramesMatch(Start(), events, Frame(Unopened, []), p, sid);
  }

  /**
   In an active session the queue never reaches its bound: every update within budget fits, and so
   does the marker.
   */
  lemma MarkerAlwaysFits(events: seq<Event>, sid: Id)
    ensures var s := Run(Start(), events);
      IsOpen(s.link) && PhaseIs(s.client, sid, Active) && sid in s.client.queues ==>
        && Queued(s.client, sid)
        && !Full(QueueOf(s.client, sid))
        && |QueueOf(s.client, sid).entered| <= QueueOf(s.client, sid).countLimit
  {
    EpochRunKeeps(Start(), events);
    var s := Run(Start(), events);
    if IsOpen(s.link) && PhaseIs(s.client, sid, Active) && sid in s.client.queues {
      assert PromptFits(s, s.client.queues[sid]);
    }
  }

  /** When an answer closes an epoch, no callback of its session is unsettled. */
  lemma NoCallbackSurvivesItsEpoch(events: seq<Event>, id: Id, a: Answer, p: Id)
    requires var s := Run(Start(), events);
      && IsOpen(Next(s, ReadResponse(id, a)).link) && id in s.link.requests && s.link.requests[id].call == PromptTurn(p)
    ensures var s := Run(Start(), events); var s' := Next(s, ReadResponse(id, a));
      && p in s'.client.prompts
      && s'.client.prompts[p].epoch.Shut?
      && !CallbackUnsettled(s'.link, s'.client.prompts[p].session)
  {
    EpochRunKeeps(Start(), events);
    AnswerShuts(Run(Start(), events), id, a, p);
  }

  lemma AnswerShuts(s: State, id: Id, a: Answer, p: Id)
    requires EpochInv(s) && IsOpen(Next(s, ReadResponse(id, a)).link)
    requires id in s.link.requests && s.link.requests[id].call == PromptTurn(p)
    ensures var s' := Next(s, ReadResponse(id, a));
      && p in s'.client.prompts
      && s'.client.prompts[p].epoch.Shut?
      && !CallbackUnsettled(s'.link, s'.client.prompts[p].session)
  {
    FailEnds(s.link);
    if Pends(s.link, id) {
      assert s.link.pendingRequests[id] == s.link.requests[id].call;
      ObservedLink(s, id, a);
      TurnShuts(s, id, p);
      hide DispatchResponse, ObserveTurn, EpochInv;
    }
  }

  /** The request of a prompt is never found out of order: its drain always meets a prepared session. */
  lemma PromptSentInOrder(events: seq<Event>, id: Id)
    requires var s := Run(Start(), events);
      IsOpen(s.link) && SenderAt(s.link, id, Draining) && s.link.requests[id].call.PromptTurn?
    ensures IsOpen(Next(Run(Start(), events), DrainCompletes(id)).link)
  {
    EpochRunKeeps(Start(), events);
    SentFindsPreparing(Run(Start(), events), id);
  }

  // ----- the consumer -----

  /** A frame holds one marker, at its end, and only once the prompt was answered; and it holds no wake-up. */
  predicate Terminated(f: Frame) {
    Wake !in f.entries &&
    match f.epoch
    case Unopened => f.entries == []
    case Opened => Marker !in f.entries
    case Shut => f.entries != [] && f.entries[|f.entries| - 1] == Marker && Marker !in f.entries[..|f.entries| - 1]
  }

  lemma StepTerminated(s: State, e: Event, f: Frame, p: Id, sid: Id)
    requires Terminated(f)
    ensures Terminated(FrameStep(s, e, f, p, sid))
  {
    var f' := FrameStep(s, e, f, p, sid);
    if f'.entries != [] && f' != f { assert f'.entries[..|f'.entries| - 1] == f.entries; }
  }

  lemma {:induction false} FrameTerminated(s: State, events: seq<Event>, f: Frame, p: Id, sid: Id)
    requires Terminated(f)
    ensures Terminated(FrameAfter(s, events, f, p, sid))
    decreases |events|
  {
    hide Terminated, FrameStep, Next;
    if events != [] {
      StepTerminated(s, events[0], f, p, sid);
      FrameTerminated(Next(s, events[0]), events[1..], FrameStep(s, events[0], f, p, sid), p, sid);
    }
  }

  /**
   A consumer that has popped the marker has popped the whole epoch: the prompt was answered, nothing is
   left in its queue, and what came before the marker is everything that was read for its session.
   */
  lemma MarkerEndsTheEpoch(events: seq<Event>, p: Id)
    requires var s := Run(Start(), events); IsOpen(s.link) && p in s.client.prompts
    ensures var run := Run(Start(), events).client.prompts[p];
      && run.popped <= |run.entered|
      && (Marker in run.entered[..run.popped] ==>
            && run.epoch.Shut?
            && run.popped == |run.entered|
            && Frame(Shut, run.entered) == FrameAfter(Start(), events, Frame(Unopened, []), p, run.session))
  {
    EpochRunKeeps(Start(), events);
    var s := Run(Start(), events);
    var run := s.client.prompts[p];
    assert PromptFits(s, p);
    QueueIsFrame(events, p);
    FrameTerminated(Start(), events, Frame(Unopened, []), p, run.session);
    assert Terminated(Frame(run.epoch, run.entered));
  }
}
