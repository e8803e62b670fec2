/** What each event of the reader's tasks makes of requests, sessions and prompts, told in their own fields. */
module ReaderEffects {
  import opened Wrappers
  import opened ReaderModel
  import opened ReaderLink
  import opened ReaderEpochs
  import opened ReaderFrames
  import opened ReaderClaims
  import opened ReaderBudgets

  // ----- requests -----

  /** A request is filed under the next ID while the transport is open, and withdrawn at once if it is not. */
  lemma RequestStarts(s: State, creation: bool)
    ensures var l := s.link; var l' := Next(s, CallStarts(creation)).link;
      var m := if creation then NewSession else OtherMethod;
      && l'.nextId == l.nextId + 1
      && (if !l.closed && !l.failed then
            && l'.requests == l.requests[l.nextId := Request(m, Draining, Waiting)]
            && l'.pending == l.pending + {l.nextId} && l'.pendingRequests == l.pendingRequests[l.nextId := m]
          else
            && l'.requests == l.requests[l.nextId := Request(m, Gone, Withdrawn)]
            && l'.pending == l.pending && l'.pendingRequests == l.pendingRequests)
    ensures Next(s, CallStarts(creation)).client == s.client
  {
  }

  /** A write that raises forgets its request and withdraws its future unless it was settled. */
  lemma WriteFails(s: State, id: Id)
    requires id in s.link.requests && s.link.requests[id].sender.Draining?
    ensures var l := s.link; var s' := Next(s, DrainFails(id)); var r := l.requests[id];
      && s'.client == s.client
      && s'.link == l.(
           requests := l.requests[id :=
             Request(r.call, Gone, if r.future == Waiting then Withdrawn else r.future)],
           pending := l.pending - {id}, pendingRequests := l.pendingRequests - {id})
  {
  }

  /** A cancelled sender withdraws the future it awaits, and the request stays pending. */
  lemma SenderIsCancelled(s: State, id: Id)
    requires id in s.link.requests && !s.link.requests[id].call.PromptTurn?
    ensures var l := s.link; var s' := Next(s, SenderCancelled(id)); var r := l.requests[id];
      && s'.client == s.client
      && (if r.sender.Gone? then s' == s else
            s'.link == l.(requests := l.requests[id :=
              Request(r.call, Gone, if r.sender.AwaitingAnswer? && r.future == Waiting then Withdrawn else r.future)]))
  {
  }

  /** A request that is on the wire awaits its answer; that of a prompt makes its prepared session active. */
  lemma WriteCompletes(s: State, id: Id)
    requires IsOpen(s.link) && id in s.link.requests && s.link.requests[id].sender.Draining?
    ensures var l, c := s.link, s.client; var s' := Next(s, DrainCompletes(id)); var r := l.requests[id];
      if !r.call.PromptTurn? then
        s'.client == c && s'.link == l.(requests := l.requests[id := r.(sender := AwaitingAnswer)])
      else if r.call.prompt in c.prompts && c.prompts[r.call.prompt].session in c.phases
        && c.phases[c.prompts[r.call.prompt].session] == Preparing then
        && s'.link == l.(requests := l.requests[id := r.(sender := AwaitingAnswer)])
        && var p := r.call.prompt;
           s'.client == c.(phases := c.phases[c.prompts[p].session := Active],
                           prompts := c.prompts[p := c.prompts[p].(epoch := Opened)])
      else
        !IsOpen(s'.link)
  {
    hide FailClosed;
    FailEnds(s.link.(requests := s.link.requests[id := s.link.requests[id].(sender := AwaitingAnswer)]));
  }

  /** An accepted response settles its own future, and does to the client what its request is about. */
  lemma ResponseSettles(events: seq<Event>, id: Id, answer: Answer)
    requires var s := Run(Start(), events); IsOpen(s.link) && IsOpen(Next(s, ReadResponse(id, answer)).link)
    ensures var s := Run(Start(), events); var s' := Next(s, ReadResponse(id, answer)); var l, c := s.link, s.client;
      && id in l.requests
      && s'.link == l.(
           requests := l.requests[id := Request(l.requests[id].call, l.requests[id].sender, Resolved(answer))],
           pending := l.pending - {id}, pendingRequests := l.pendingRequests - {id})
      && match l.requests[id].call
         case OtherMethod => s'.client == c
         case NewSession =>
           if answer.Answered? && answer.session.Some? then
             s'.client == c.(provisional := c.provisional - {answer.session.value},
                             responseIds := c.responseIds + {answer.session.value})
           else s'.client == c
         case PromptTurn(p) =>
           && p in c.prompts
           && var sid := c.prompts[p].session;
           && s'.client.phases == c.phases[sid := Terminal]
           && s'.client.queues == c.queues && s'.client.budgets == c.budgets
           && p in s'.client.prompts
           && s'.client.prompts[p] == c.prompts[p].(epoch := Shut, entered := c.prompts[p].entered + [Marker])
  {
    ResponseTaken(events, id, answer);
    EpochRunKeeps(Start(), events);
    var s := Run(Start(), events);
    AnswerEffect(s, id, answer);
  }

  lemma AnswerEffect(s: State, id: Id, answer: Answer)
    requires EpochInv(s) && IsOpen(s.link) && IsOpen(Next(s, ReadResponse(id, answer)).link)
    requires id in s.link.pending && id in s.link.requests && s.link.requests[id].future.Waiting?
    ensures var s' := Next(s, ReadResponse(id, answer)); var l, c := s.link, s.client;
      && s'.link == l.(
           requests := l.requests[id := Request(l.requests[id].call, l.requests[id].sender, Resolved(answer))],
           pending := l.pending - {id}, pendingRequests := l.pendingRequests - {id})
      && match l.requests[id].call
         case OtherMethod => s'.client == c
         case NewSession =>
           if answer.Answered? && answer.session.Some? then
             s'.client == c.(provisional := c.provisional - {answer.session.value},
                             responseIds := c.responseIds + {answer.session.value})
           else s'.client == c
         case PromptTurn(p) =>
           && p in c.prompts
           && var sid := c.prompts[p].session;
           && s'.client.phases == c.phases[sid := Terminal]
           && s'.client.queues == c.queues && s'.client.budgets == c.budgets
           && p in s'.client.prompts
           && s'.client.prompts[p] == c.prompts[p].(epoch := Shut, entered := c.prompts[p].entered + [Marker])
  {
    FailEnds(s.link);
    PendsIn(s, id);
    match s.link.requests[id].call {
      case NewSession => NewSessionObserved(s, answer);
      case PromptTurn(p) => TurnObserved(s, p);
      case OtherMethod =>
    }
    hide ObserveCreation, ObserveTurn, FailClosed, EpochInv;
  }

  lemma NewSessionObserved(s: State, answer: Answer)
    requires IsOpen(s.link)
    ensures var t := ObserveCreation(s, answer);
      || t.link == FailClosed(s.link)
      || (&& t.link == s.link
          && t.client == if answer.Answered? && answer.session.Some?
               then s.client.(provisional := s.client.provisional - {answer.session.value},
                              responseIds := s.client.responseIds + {answer.session.value})
               else s.client)
  {
    hide FailClosed;
  }

  lemma TurnObserved(s: State, p: Id)
    requires EpochInv(s) && IsOpen(s.link)
    ensures var t := ObserveTurn(s, p); var c := s.client;
      || t.link == FailClosed(s.link)
      || (&& t.link == s.link && p in c.prompts && p in t.client.prompts
          && t.client.phases == c.phases[c.prompts[p].session := Terminal]
          && t.client.queues == c.queues && t.client.budgets == c.budgets
          && (c.queues[c.prompts[p].session] == p ==>
                t.client.prompts[p] == c.prompts[p].(epoch := Shut, entered := c.prompts[p].entered + [Marker])))
  {
    hide FailClosed, EpochInv;
  }

  // ----- sessions -----

  /**
   A creation that resumes with its answer takes the session out of the answered ones; it registers and returns it
   if its result allows that; or it meets the mismatch.
   */
  lemma CreationReturns(events: seq<Event>, id: Id, registers: bool)
    requires var s := Run(Start(), events); IsOpen(s.link) && AnsweredSession(s, id).Some?
    ensures var s := Run(Start(), events); var s' := Next(s, SenderSees(id, registers)); var c := s.client;
      var sid := AnsweredSession(s, id).value;
      if c.provisional != {} && PendingCreations(s.link) == 0 then
        !IsOpen(s'.link) && s'.client.created == c.created && s'.client.sessions == c.sessions
      else
        && IsOpen(s'.link)
        && s'.link.requests == s.link.requests[id := s.link.requests[id].(sender := Gone)]
        && s'.client.responseIds == c.responseIds - {sid} && s'.client.provisional == c.provisional
        && s'.client.sessions == (if registers then c.sessions + {sid} else c.sessions)
        && s'.client.created == (if registers then c.created[id := sid] else c.created)
  {
    ReachedSessions(events);
    var s := Run(Start(), events);
    AnswerIsNotProvisional(s, id, AnsweredSession(s, id).value);
    hide Run;
    ReturnEffect(s, id, registers);
  }

  lemma ReturnEffect(s: State, id: Id, registers: bool)
    requires IsOpen(s.link) && AnsweredSession(s, id).Some? && AnsweredSession(s, id).value !in s.client.provisional
    ensures var s' := Next(s, SenderSees(id, registers)); var c := s.client; var sid := AnsweredSession(s, id).value;
      if c.provisional != {} && PendingCreations(s.link) == 0 then
        !IsOpen(s'.link) && s'.client.created == c.created && s'.client.sessions == c.sessions
      else
        && IsOpen(s'.link)
        && s'.link.requests == s.link.requests[id := s.link.requests[id].(sender := Gone)]
        && s'.client.responseIds == c.responseIds - {sid} && s'.client.provisional == c.provisional
        && s'.client.sessions == (if registers then c.sessions + {sid} else c.sessions)
        && s'.client.created == (if registers then c.created[id := sid] else c.created)
  {
    hide FailClosed;
    FailEnds(s.link.(requests := s.link.requests[id := s.link.requests[id].(sender := Gone)]));
    SameCreations(s.link, id);
  }

  lemma SameCreations(l: Link, id: Id)
    requires id in l.requests
    ensures PendingCreations(l.(requests := l.requests[id := l.requests[id].(sender := Gone)])) == PendingCreations(l)
  {
    assert Creations(l.(requests := l.requests[id := l.requests[id].(sender := Gone)])) == Creations(l);
  }

  // ----- prompts -----

  /**
   A prompt begins on a registered session whose previous prompt is over: with a queue, a budget of what it asks
   for and a prepared session. A session in the midst of another epoch fails the transport, and limits below 1 raise.
   */
  lemma PromptBegins(s: State, p: Id, sid: Id, byteLimit: int, countLimit: int)
    requires IsOpen(s.link) && p !in s.client.prompts && sid in s.client.sessions && !LiveOn(s.client, sid)
    ensures var s' := Next(s, Begin(p, sid, byteLimit, countLimit)); var c, c' := s.client, s'.client;
      && p in c'.prompts && c'.prompts[p].session == sid && c'.prompts[p].countLimit == countLimit
      && c'.prompts[p].entered == [] && c'.prompts[p].popped == 0 && c'.prompts[p].request.None?
      && c'.queues == c.queues[sid := p] && c'.sessions == c.sessions
      && (IsOpen(s'.link) <==> sid !in c.phases || c.phases[sid] == Terminal)
      && (c'.prompts[p].live <==> IsOpen(s'.link) && byteLimit >= 1 && countLimit >= 1)
      && (IsOpen(s'.link) ==> c'.phases == c.phases[sid := Preparing])
      && (c'.prompts[p].live ==> c'.budgets == c.budgets[sid := Budget(0, 0, byteLimit, countLimit)])
  {
    hide FailClosed;
    FailEnds(s.link);
  }

  /** The consumer takes the next entry of its queue. */
  lemma EntryPopped(s: State, p: Id)
    requires p in s.client.prompts && s.client.prompts[p].live
    ensures var run := s.client.prompts[p];
      Next(s, Pop(p)) == if run.popped < |run.entered|
        then s.(client := s.client.(prompts := s.client.prompts[p := run.(popped := run.popped + 1)])) else s
  {
  }

  /** The finally block drops queue and budget, keeps the phase, and cancels the request's sender. */
  lemma PromptEnds(s: State, p: Id)
    requires p in s.client.prompts && s.client.prompts[p].live
    ensures var s' := Next(s, CleanupRuns(p)); var c, sid := s.client, s.client.prompts[p].session;
      && s'.client == c.(prompts := c.prompts[p := c.prompts[p].(live := false)],
                         queues := c.queues - {sid}, budgets := c.budgets - {sid})
      && var id := c.prompts[p].request;
      && (id.None? ==> s'.link == s.link)
      && (id.Some? && id.value in s.link.requests ==>
            && id.value in s'.link.requests && s'.link.requests[id.value].sender.Gone?
            && s'.link.pending == s.link.pending && s'.link.pendingRequests == s.link.pendingRequests)
  {
  }

  /** The task of a prompt sends one request, on which the prompt's answer is recognized. */
  lemma TurnIsSent(s: State, p: Id)
    requires p in s.client.prompts && s.client.prompts[p].live && s.client.prompts[p].request.None? && IsOpen(s.link)
    ensures var s' := Next(s, TurnTaskRuns(p)); var id := s.link.nextId;
      && p in s'.client.prompts && s'.client.prompts[p].request == Some(id)
      && id in s'.link.requests && s'.link.requests[id] == Request(PromptTurn(p), Draining, Waiting)
      && s'.link.pending == s.link.pending + {id}
  {
  }

  // ----- teardown -----

  /** A torn-down client knows no session, and every queue in use is emptied and woken. */
  lemma ClientIsCleared(s: State, e: Event)
    requires e.Abort? || e.StopBegins?
    ensures var s' := Next(s, e); var c, c' := s.client, s'.client;
      && c'.sessions == {} && c'.provisional == {} && c'.responseIds == {} && c'.phases == map[]
      && c'.queues == map[] && c'.budgets == map[] && c'.created == c.created
      && c'.prompts.Keys == c.prompts.Keys
      && (forall p {:trigger p in c.prompts} :: p in c.prompts ==>
            var run := c.prompts[p];
            c'.prompts[p] == if run.session in c.queues && c.queues[run.session] == p
              then run.(popped := |run.entered|, entered := run.entered + [Wake]) else run)
      && s'.link.closed
      && (e.Abort? && IsOpen(s.link) ==>
            s'.link.failed && s'.link.pending == {} && s'.link.closeCalls == s.link.closeCalls + 1)
  {
    assert ClearClient(s.client).prompts.Keys == s.client.prompts.Keys;
  }

  /** A prompt's queue is full beyond its count limit only; a bound that is not positive is none. */
  lemma QueueBound(p: Prompt)
    ensures Full(p) <==> p.countLimit >= 0 && |p.entered| - p.popped > p.countLimit
  {
  }
}
