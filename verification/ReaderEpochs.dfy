/** Update epochs: what enters the queue of a prompt is what the wire carried between its request and its answer. */
module ReaderEpochs {
  import opened Wrappers
  import opened ReaderModel
  import opened ReaderLink

  /** Prompts, their queues and their requests refer to each other. */
  ghost predicate References(s: State) {
    && (forall sid {:trigger sid in s.client.queues} :: sid in s.client.queues ==>
          s.client.queues[sid] in s.client.prompts && s.client.prompts[s.client.queues[sid]].session == sid)
    && (forall id {:trigger id in s.link.requests} :: id in s.link.requests && s.link.requests[id].call.PromptTurn? ==>
          && s.link.requests[id].call.prompt in s.client.prompts
          && s.client.prompts[s.link.requests[id].call.prompt].request == Some(id))
    && (forall p {:trigger p in s.client.prompts} :: p in s.client.prompts && s.client.prompts[p].request.Some? ==>
          && s.client.prompts[p].request.value in s.link.requests
          && s.link.requests[s.client.prompts[p].request.value].call == PromptTurn(p))
  }

  /** The future of the prompt's request is unsettled. */
  predicate Unanswered(s: State, p: Id)
    requires p in s.client.prompts
  {
    var r := s.client.prompts[p].request;
    r.Some? && r.value in s.link.requests && s.link.requests[r.value].future.Waiting?
  }

  /** The request of the prompt is being written. */
  predicate StillDraining(s: State, p: Id)
    requires p in s.client.prompts
  {
    var r := s.client.prompts[p].request;
    r.Some? && r.value in s.link.requests && s.link.requests[r.value].sender.Draining?
  }

  /** The budget counts what entered the queue, and the queue has room for the marker. */
  predicate BudgetFits(c: Client, p: Id)
    requires p in c.prompts
  {
    var run := c.prompts[p];
    && run.session in c.budgets
    && c.budgets[run.session].count == |run.entered|
    && c.budgets[run.session].countLimit == run.countLimit
    && |run.entered| <= run.countLimit
    && run.countLimit >= 1
  }

  predicate PromptFits(s: State, p: Id)
    requires p in s.client.prompts
  {
    var c := s.client;
    var run := c.prompts[p];
    && run.popped <= |run.entered|
    && (run.live ==> run.session in c.queues && c.queues[run.session] == p)
    && (StillDraining(s, p) ==> run.live && run.epoch.Unopened?)
    && (run.request.None? ==> run.epoch.Unopened?)
    && match run.epoch
       case Unopened =>
         && run.entered == []
         && (run.live || Unanswered(s, p) ==> PhaseIs(c, run.session, Preparing))
         && (run.live ==> BudgetFits(c, p))
       case Opened =>
         && PhaseIs(c, run.session, Active)
         && (run.session in c.queues ==> run.live && BudgetFits(c, p))
       case Shut =>
         && !Unanswered(s, p)
         && (run.session in c.queues && c.queues[run.session] == p ==> PhaseIs(c, run.session, Terminal))
  }

  ghost predicate PromptsFit(s: State) {
    forall p {:trigger p in s.client.prompts} :: p in s.client.prompts ==> PromptFits(s, p)
  }

  /** The epoch of the prompt is open or can still open. */
  predicate Current(s: State, p: Id)
    requires p in s.client.prompts
  {
    var run := s.client.prompts[p];
    run.epoch.Opened? || (run.epoch.Unopened? && (run.live || Unanswered(s, p)))
  }

  predicate BothCurrent(s: State, p: Id, q: Id)
    requires p in s.client.prompts && q in s.client.prompts
  {
    Current(s, p) && Current(s, q) && s.client.prompts[p].session == s.client.prompts[q].session
  }

  /** A session has one current epoch; if it is active, that of the prompt whose queue it uses. */
  ghost predicate EpochsSingle(s: State) {
    && (forall p, q {:trigger p in s.client.prompts, q in s.client.prompts} ::
          p in s.client.prompts && q in s.client.prompts && BothCurrent(s, p, q) ==> p == q)
    && (forall sid {:trigger sid in s.client.queues} ::
          sid in s.client.queues && PhaseIs(s.client, sid, Active) && s.client.queues[sid] in s.client.prompts ==>
            s.client.prompts[s.client.queues[sid]].epoch.Opened?)
  }

  ghost predicate EpochInv(s: State) {
    && LinkInv(s.link)
    && References(s)
    && (IsOpen(s.link) ==> PromptsFit(s) && EpochsSingle(s))
  }

  /** Prompts keep their session and their request, a new one has sent none, and queues have their own prompts. */
  ghost predicate SamePlaces(c: Client, c': Client) {
    && (forall p {:trigger p in c.prompts} :: p in c.prompts ==> p in c'.prompts)
    && (forall p {:trigger p in c'.prompts} :: p in c'.prompts ==>
          if p in c.prompts
          then c'.prompts[p].session == c.prompts[p].session && c'.prompts[p].request == c.prompts[p].request
          else c'.prompts[p].request.None?)
    && (forall sid {:trigger sid in c'.queues} :: sid in c'.queues ==>
          || (sid in c.queues && c'.queues[sid] == c.queues[sid])
          || (c'.queues[sid] in c'.prompts && c'.prompts[c'.queues[sid]].session == sid))
  }

  lemma SamePlacesReference(s: State, c: Client)
    requires References(s) && SamePlaces(s.client, c)
    ensures References(State(s.link, c))
  {
  }

  // ----- steps that leave the epochs alone -----

  predicate SameEpochs(c: Client, c': Client) {
    && c'.phases == c.phases && c'.queues == c.queues && c'.budgets == c.budgets && c'.prompts == c.prompts
  }

  /** No request of a prompt appears or becomes unsettled, and no sender of one starts draining. */
  ghost predicate QuietRequests(l: Link, l': Link) {
    && (forall id {:trigger id in l'.requests} ::
          id in l'.requests && (l'.requests[id].call.PromptTurn? || id in l.requests) ==>
          && id in l.requests
          && l'.requests[id].call == l.requests[id].call
          && (l'.requests[id].future.Waiting? ==> l.requests[id].future.Waiting?)
          && (l'.requests[id].sender.Draining? ==> l.requests[id].sender.Draining?))
    && (forall id {:trigger id in l.requests} :: id in l.requests ==> id in l'.requests)
    && (IsOpen(l') ==> IsOpen(l))
  }

  lemma QuietKeepsEpochs(s: State, s': State)
    requires EpochInv(s) && LinkInv(s'.link) && QuietRequests(s.link, s'.link) && SameEpochs(s.client, s'.client)
    ensures EpochInv(s')
  {
    assert References(s');
    if IsOpen(s'.link) {
      forall p | p in s'.client.prompts ensures PromptFits(s', p) {
        assert PromptFits(s, p);
      }
    }
  }

  lemma FailIsQuiet(l: Link)
    requires LinkInv(l)
    ensures QuietRequests(l, FailClosed(l)) && LinkInv(FailClosed(l)) && !IsOpen(FailClosed(l))
  {
    FailClosedKeeps(l);
  }

  /** A failed step keeps the invariant as long as prompts and queues still refer to each other. */
  lemma FailKeepsEpochs(s: State, c: Client)
    requires EpochInv(s) && References(State(s.link, c))
    ensures EpochInv(State(FailClosed(s.link), c))
  {
    FailIsQuiet(s.link);
  }

  // ----- one prompt and its session change -----

  /** Only `p` and the entries of its session changed; the request of `p` is the only one that did. */
  ghost predicate OnlyPrompt(s: State, s': State, p: Id) {
    var c, c' := s.client, s'.client;
    && p in c'.prompts
    && var sid := c'.prompts[p].session;
    && c'.prompts == c.prompts[p := c'.prompts[p]]
    && (forall t :: t != sid ==> (t in c'.phases <==> t in c.phases) && (t in c.phases ==> c'.phases[t] == c.phases[t]))
    && (forall t :: t != sid ==> (t in c'.queues <==> t in c.queues) && (t in c.queues ==> c'.queues[t] == c.queues[t]))
    && (forall t :: t != sid ==>
         (t in c'.budgets <==> t in c.budgets) && (t in c.budgets ==> c'.budgets[t] == c.budgets[t]))
    && (forall id {:trigger id in s'.link.requests} ::
          id in s'.link.requests && s'.link.requests[id].call != PromptTurn(p) ==>
          (id in s.link.requests && s'.link.requests[id] == s.link.requests[id]) ||
            !s'.link.requests[id].call.PromptTurn?)
    && (forall id {:trigger id in s.link.requests} :: id in s.link.requests ==>
          id in s'.link.requests && s'.link.requests[id].call == s.link.requests[id].call)
  }

  /** What the other prompts of the session need. */
  predicate OthersFit(s: State, s': State, p: Id, q: Id)
    requires q in s.client.prompts
  {
    var c, c' := s.client, s'.client;
    var sid := c.prompts[q].session;
    q != p ==>
      && !c.prompts[q].live
      && !c.prompts[q].epoch.Opened?
      && (p in c'.prompts && Current(s', p) ==> !Current(s, q))
      && (c.prompts[q].epoch.Unopened? && Unanswered(s, q) ==> PhaseIs(c', sid, Preparing))
      && (c.prompts[q].epoch.Shut? && sid in c'.queues && c'.queues[sid] == q ==> PhaseIs(c', sid, Terminal))
  }

  lemma PromptChanges(s: State, s': State, p: Id)
    requires EpochInv(s) && LinkInv(s'.link) && References(s') && OnlyPrompt(s, s', p) && IsOpen(s.link)
    requires PromptFits(s', p)
    requires forall q :: q in s.client.prompts && s.client.prompts[q].session == s'.client.prompts[p].session ==>
      OthersFit(s, s', p, q)
    requires p in s.client.prompts ==> s.client.prompts[p].session == s'.client.prompts[p].session
    requires var sid := s'.client.prompts[p].session;
      sid in s'.client.queues && PhaseIs(s'.client, sid, Active) ==>
        s'.client.queues[sid] == p && s'.client.prompts[p].epoch.Opened?
    ensures EpochInv(s')
  {
    hide PromptFits, OthersFit, LinkInv, References, OnlyPrompt;
    forall q | q in s'.client.prompts ensures PromptFits(s', q) {
      if q != p { OtherStillFits(s, s', p, q); }
    }
    ChangedSingle(s, s', p);
  }

  lemma OtherStillFits(s: State, s': State, p: Id, q: Id)
    requires References(s) && IsOpen(s.link) && PromptsFit(s) && References(s') && OnlyPrompt(s, s', p)
    requires q in s'.client.prompts && q != p
    requires q in s.client.prompts && s.client.prompts[q].session == s'.client.prompts[p].session ==>
      OthersFit(s, s', p, q)
    ensures PromptFits(s', q)
  {
    assert q in s.client.prompts && PromptFits(s, q);
  }

  lemma ChangedSingle(s: State, s': State, p: Id)
    requires EpochsSingle(s) && OnlyPrompt(s, s', p) && References(s) && References(s')
    requires forall q :: q in s.client.prompts && s.client.prompts[q].session == s'.client.prompts[p].session ==>
      OthersFit(s, s', p, q)
    requires var sid := s'.client.prompts[p].session;
      sid in s'.client.queues && PhaseIs(s'.client, sid, Active) ==>
        s'.client.queues[sid] == p && s'.client.prompts[p].epoch.Opened?
    ensures EpochsSingle(s')
  {
    forall a, b | a in s'.client.prompts && b in s'.client.prompts && BothCurrent(s', a, b) ensures a == b {
      if a != p && b != p { assert a in s.client.prompts && b in s.client.prompts && BothCurrent(s, a, b); }
    }
  }

  /** The prompt whose queue an active session uses is the only live or open one on it. */
  lemma OthersIdle(s: State, p: Id, q: Id)
    requires EpochInv(s) && IsOpen(s.link) && p in s.client.prompts && q in s.client.prompts && q != p
    requires s.client.prompts[p].session == s.client.prompts[q].session
    requires s.client.prompts[p].live
    ensures !s.client.prompts[q].live && !s.client.prompts[q].epoch.Opened?
  {
    assert PromptFits(s, p) && PromptFits(s, q);
  }

  lemma OthersOfLive(s: State, s': State, p: Id)
    requires EpochInv(s) && IsOpen(s.link) && p in s.client.prompts && s.client.prompts[p].live
    requires s'.client.queues == s.client.queues || s'.client.queues == s.client.queues - {s.client.prompts[p].session}
    requires PhaseIs(s.client, s.client.prompts[p].session, Preparing) ==>
      PhaseIs(s'.client, s.client.prompts[p].session, Preparing)
    requires p in s'.client.prompts && (Current(s', p) ==> Current(s, p))
    ensures forall q :: q in s.client.prompts && s.client.prompts[q].session == s.client.prompts[p].session ==>
      OthersFit(s, s', p, q)
  {
    assert PromptFits(s, p);
    forall q | q in s.client.prompts && s.client.prompts[q].session == s.client.prompts[p].session
      ensures OthersFit(s, s', p, q)
    {
      if q != p {
        OthersIdle(s, p, q);
        assert PromptFits(s, q);
      }
    }
  }

  // ----- updates and callbacks -----

  lemma EnqueueTouches(s: State, sid: Id, entry: Entry, bytes: Option<nat>)
    requires References(s) && (IsOpen(s.link) ==> PhaseIs(s.client, sid, Active) && PromptsFit(s) && EpochsSingle(s))
    ensures var s' := Enqueue(s, sid, entry, bytes);
      || s' == Fail(s)
      || (&& References(s') && sid in s.client.queues && s.client.queues[sid] in s.client.prompts
          && s'.link == s.link && s'.client.queues == s.client.queues && s'.client.phases == s.client.phases
          && var p := s.client.queues[sid];
             && s.client.prompts[p].session == sid
             && OnlyPrompt(s, s', p)
             && s'.client.prompts[p].session == sid
             && (IsOpen(s.link) ==>
                  s'.client.prompts[p].epoch.Opened? && s.client.prompts[p].live && PromptFits(s', p)))
  {
    hide FailClosed, FailPending;
    EnqueueReferences(s, sid, entry, bytes);
    if sid in s.client.queues { QueueOwner(s, sid); }
    hide References;
    if Queued(s.client, sid) && IsOpen(s.link) { assert PromptFits(s, s.client.queues[sid]); }
  }

  lemma QueueOwner(s: State, sid: Id)
    requires References(s) && sid in s.client.queues
    ensures s.client.queues[sid] in s.client.prompts && s.client.prompts[s.client.queues[sid]].session == sid
  {
  }

  lemma EnqueueReferences(s: State, sid: Id, entry: Entry, bytes: Option<nat>)
    requires References(s)
    ensures var s' := Enqueue(s, sid, entry, bytes); s' == Fail(s) || References(s')
  {
    hide FailClosed, FailPending, References;
    if Enqueue(s, sid, entry, bytes) != Fail(s) { SamePlacesReference(s, Enqueue(s, sid, entry, bytes).client); }
  }

  lemma EnqueueKeepsEpochs(s: State, sid: Id, entry: Entry, bytes: Option<nat>)
    requires EpochInv(s) && (IsOpen(s.link) ==> PhaseIs(s.client, sid, Active))
    ensures EpochInv(Enqueue(s, sid, entry, bytes))
  {
    var s' := Enqueue(s, sid, entry, bytes);
    EnqueueTouches(s, sid, entry, bytes);
    FailStaysEpochs(s);
    hide Enqueue, FailClosed, PromptFits, References, OnlyPrompt, LinkInv;
    if s' != Fail(s) && IsOpen(s.link) {
      OthersOfLive(s, s', s.client.queues[sid]);
      PromptChanges(s, s', s.client.queues[sid]);
    }
  }

  lemma DiscardEpochs(s: State, n: Notification)
    requires DiscardStateUpdate(s, n).Some?
    ensures DiscardStateUpdate(s, n).value.link == s.link && SameEpochs(s.client, DiscardStateUpdate(s, n).value.client)
  {
  }

  lemma SameKeepsEpochs(s: State, t: State)
    requires EpochInv(s) && t.link == s.link && SameEpochs(s.client, t.client)
    ensures EpochInv(t)
  {
    hide References, PromptsFit, EpochsSingle, LinkInv;
    QuietKeepsEpochs(s, t);
  }

  lemma NotificationKeepsEpochs(s: State, n: Notification)
    requires EpochInv(s)
    ensures EpochInv(HandleNotification(s, n))
  {
    hide EpochInv, Enqueue, FailClosed, DiscardStateUpdate;
    FailStaysEpochs(s);
    if DiscardStateUpdate(s, n).Some? {
      DiscardEpochs(s, n);
      SameKeepsEpochs(s, DiscardStateUpdate(s, n).value);
    }
    if ValidUpdate(s.client, n) { EnqueueKeepsEpochs(s, n.session.value, Update(n.tag), n.bytes); }
  }

  lemma AgentRequestKeepsEpochs(s: State, session: Option<Id>, tag: Id, bytes: nat)
    requires EpochInv(s)
    ensures EpochInv(ObserveAgentRequest(s, session, tag, bytes))
  {
    hide EpochInv, FailClosed, Enqueue;
    FailStaysEpochs(s);
    if session.Some? && PhaseIs(s.client, session.value, Active) {
      EnqueueKeepsEpochs(s, session.value, CallbackEvidence(tag), Some(bytes));
    }
  }

  lemma FailStaysEpochs(s: State)
    requires EpochInv(s)
    ensures EpochInv(Fail(s))
  {
    FailKeepsEpochs(s, s.client);
  }

  lemma RequestKeepsEpochs(s: State, session: Option<Id>, tag: Id, bytes: nat)
    requires EpochInv(s)
    ensures EpochInv(DispatchRequest(s, session, tag, bytes))
  {
    RequestKeepsLink(s, session, tag, bytes);
    var t := ObserveAgentRequest(s, session, tag, bytes);
    AgentRequestKeepsEpochs(s, session, tag, bytes);
    hide ObserveAgentRequest, References, PromptsFit, EpochsSingle, FailClosed;
    FailStaysEpochs(t);
    var s' := DispatchRequest(s, session, tag, bytes);
    if s' != Fail(t) { QuietKeepsEpochs(t, s'); }
  }

  // ----- responses -----

  lemma OtherAnswerKeepsEpochs(s: State, id: Id, a: Answer, c: Client)
    requires EpochInv(s) && Pends(s.link, id) && SameEpochs(s.client, c)
    ensures EpochInv(State(Resolve(s.link, id, a), c))
  {
    ResolveKeeps(s.link, id, a);
    QuietKeepsEpochs(s, State(Resolve(s.link, id, a), c));
  }

  lemma CreationEpochs(s: State, a: Answer)
    ensures SameEpochs(s.client, ObserveCreation(s, a).client)
    ensures ObserveCreation(s, a).link == s.link || ObserveCreation(s, a).link == FailClosed(s.link)
  {
  }

  /** An answer that arrives while the session is active is that of the prompt whose epoch is open. */
  lemma AnsweredIsOpen(s: State, id: Id, p: Id)
    requires EpochInv(s) && IsOpen(s.link) && Pends(s.link, id) && s.link.requests[id].call == PromptTurn(p)
    ensures p in s.client.prompts
    ensures var sid := s.client.prompts[p].session;
      PhaseIs(s.client, sid, Active) && Queued(s.client, sid) ==>
        && s.client.queues[sid] == p && s.client.prompts[p].epoch.Opened? && s.client.prompts[p].live
        && BudgetFits(s.client, p) && !Full(s.client.prompts[p])
  {
    assert PromptFits(s, p);
  }

  lemma TurnShuts(s: State, id: Id, p: Id)
    requires EpochInv(s) && IsOpen(s.link) && Pends(s.link, id) && s.link.requests[id].call == PromptTurn(p)
    ensures p in s.client.prompts
    ensures var t := ObserveTurn(s, p);
      || t == Fail(s)
      || (&& t.link == s.link
          && PhaseIs(s.client, s.client.prompts[p].session, Active)
          && !CallbackUnsettled(s.link, s.client.prompts[p].session)
          && s.client.prompts[p].epoch.Opened? && s.client.prompts[p].live && BudgetFits(s.client, p)
          && t.client == s.client.(
               phases := s.client.phases[s.client.prompts[p].session := Terminal],
               prompts := s.client.prompts[p :=
                 s.client.prompts[p].(epoch := Shut, entered := s.client.prompts[p].entered + [Marker])]))
  {
    AnsweredIsOpen(s, id, p);
  }

  /** The state after the answer of the open prompt `p`. */
  function TurnAnswered(s: State, id: Id, a: Answer, p: Id): State
    requires Pends(s.link, id) && p in s.client.prompts
  {
    var run := s.client.prompts[p];
    State(Resolve(s.link, id, a),
          s.client.(phases := s.client.phases[run.session := Terminal],
                    prompts := s.client.prompts[p := run.(epoch := Shut, entered := run.entered + [Marker])]))
  }

  lemma TurnTouches(s: State, id: Id, a: Answer, p: Id)
    requires EpochInv(s) && IsOpen(s.link) && Pends(s.link, id) && s.link.requests[id].call == PromptTurn(p)
    ensures p in s.client.prompts
    ensures References(TurnAnswered(s, id, a, p)) && OnlyPrompt(s, TurnAnswered(s, id, a, p), p)
  {
    hide PromptsFit, EpochsSingle, LinkInv;
  }

  lemma TurnFits(s: State, id: Id, a: Answer, p: Id)
    requires p in s.client.prompts && PromptFits(s, p) && Pends(s.link, id) && s.client.prompts[p].epoch.Opened?
    requires s.client.prompts[p].request == Some(id)
    ensures PromptFits(TurnAnswered(s, id, a, p), p)
  {
  }

  lemma TurnKeepsEpochs(s: State, id: Id, a: Answer, p: Id)
    requires EpochInv(s) && IsOpen(s.link) && Pends(s.link, id) && s.link.requests[id].call == PromptTurn(p)
    requires ObserveTurn(s, p).link == s.link
    ensures EpochInv(State(
      Resolve(s.link, id, a),
      ObserveTurn(s, p).client))
  {
    TurnShuts(s, id, p);
    FailIsQuiet(s.link);
    ResolveKeeps(s.link, id, a);
    TurnTouches(s, id, a, p);
    TurnFits(s, id, a, p);
    hide ObserveTurn, FailClosed, Resolve, PromptFits, BudgetFits, References, OnlyPrompt, LinkInv, EpochInv;
    var s' := TurnAnswered(s, id, a, p);
    OthersOfLive(s, s', p);
    PromptChanges(s, s', p);
  }

  lemma TurnLink(s: State, p: Id)
    requires References(s) && p in s.client.prompts
    ensures ObserveTurn(s, p).link == s.link || ObserveTurn(s, p).link == FailClosed(s.link)
    ensures References(State(s.link, ObserveTurn(s, p).client))
  {
    hide FailClosed, References;
    SamePlacesReference(s, ObserveTurn(s, p).client);
  }

  lemma ResponseKeepsEpochs(s: State, id: Id, a: Answer)
    requires EpochInv(s) && !s.link.closed
    ensures EpochInv(DispatchResponse(s, id, a))
  {
    FailStaysEpochs(s);
    if Pends(s.link, id) {
      assert IsOpen(s.link) && id in s.link.pendingRequests;
      var call := s.link.pendingRequests[id];
      assert s.link.requests[id].call == call;
      var t := Observed(s, id, a);
      FailIsQuiet(s.link);
      ObservedLink(s, id, a);
      match call {
        case NewSession => CreationEpochs(s, a);
        case PromptTurn(p) => TurnLink(s, p);
        case OtherMethod =>
      }
      ClientReferences(s, t);
      hide EpochInv, ObserveCreation, ObserveTurn, DispatchResponse, Resolve, LinkInv, References, FailClosed;
      if t.link == FailClosed(s.link) {
        FailKeepsEpochs(s, t.client);
      } else if call.PromptTurn? {
        TurnKeepsEpochs(s, id, a, call.prompt);
      } else {
        OtherAnswerKeepsEpochs(s, id, a, t.client);
      }
    }
  }

  lemma ClientReferences(s: State, t: State)
    requires References(s)
    ensures SameEpochs(s.client, t.client) ==> References(State(s.link, t.client))
  {
  }

  // ----- tasks -----

  lemma BeginKeepsEpochs(s: State, p: Id, sid: Id, byteLimit: int, countLimit: int)
    requires EpochInv(s) && p !in s.client.prompts && !LiveOn(s.client, sid)
    ensures EpochInv(BeginPrompt(s, p, sid, byteLimit, countLimit))
  {
    var s' := BeginPrompt(s, p, sid, byteLimit, countLimit);
    BeginReferences(s, p, sid, byteLimit, countLimit);
    if sid in s.client.phases && !s.client.phases[sid].Terminal? {
      FailKeepsEpochs(s, s'.client);
    } else if IsOpen(s.link) {
      BeginTouches(s, p, sid, byteLimit, countLimit);
      hide BeginPrompt, PromptFits, References, OnlyPrompt, LinkInv;
      PromptChanges(s, s', p);
    }
  }

  lemma BeginReferences(s: State, p: Id, sid: Id, byteLimit: int, countLimit: int)
    requires References(s) && p !in s.client.prompts
    ensures References(State(s.link, BeginPrompt(s, p, sid, byteLimit, countLimit).client))
  {
    hide FailClosed, References, BeginPrompt;
    Begun(s, p, sid, byteLimit, countLimit);
    SamePlacesReference(s, BeginPrompt(s, p, sid, byteLimit, countLimit).client);
  }

  lemma Begun(s: State, p: Id, sid: Id, byteLimit: int, countLimit: int)
    ensures var c := BeginPrompt(s, p, sid, byteLimit, countLimit).client;
      && p in c.prompts && c.prompts == s.client.prompts[p := c.prompts[p]]
      && c.prompts[p].session == sid && c.prompts[p].request.None?
      && c.queues == s.client.queues[sid := p]
  {
    hide FailClosed;
  }

  lemma BeginTouches(s: State, p: Id, sid: Id, byteLimit: int, countLimit: int)
    requires EpochInv(s) && IsOpen(s.link) && p !in s.client.prompts && !LiveOn(s.client, sid)
    requires sid in s.client.phases ==> s.client.phases[sid].Terminal?
    ensures var s' := BeginPrompt(s, p, sid, byteLimit, countLimit);
      && OnlyPrompt(s, s', p) && PromptFits(s', p)
      && s'.client.prompts[p].session == sid && PhaseIs(s'.client, sid, Preparing)
      && forall q :: q in s.client.prompts && s.client.prompts[q].session == sid ==> OthersFit(s, s', p, q)
  {
    hide EpochInv, OthersFit, LiveOn, PromptFits;
    BeginOthers(s, p, sid, byteLimit, countLimit);
    BeginFits(s, p, sid, byteLimit, countLimit);
  }

  lemma BeginFits(s: State, p: Id, sid: Id, byteLimit: int, countLimit: int)
    requires p !in s.client.prompts && (sid in s.client.phases ==> s.client.phases[sid].Terminal?)
    ensures var s' := BeginPrompt(s, p, sid, byteLimit, countLimit); p in s'.client.prompts && PromptFits(s', p)
  {
    hide FailClosed;
  }

  lemma BeginOthers(s: State, p: Id, sid: Id, byteLimit: int, countLimit: int)
    requires EpochInv(s) && IsOpen(s.link) && p !in s.client.prompts && !LiveOn(s.client, sid)
    requires sid in s.client.phases ==> s.client.phases[sid].Terminal?
    ensures var s' := BeginPrompt(s, p, sid, byteLimit, countLimit);
      forall q :: q in s.client.prompts && s.client.prompts[q].session == sid ==> OthersFit(s, s', p, q)
  {
    hide References, EpochsSingle, LinkInv;
    var s' := BeginPrompt(s, p, sid, byteLimit, countLimit);
    forall q | q in s.client.prompts && s.client.prompts[q].session == sid ensures OthersFit(s, s', p, q) {
      assert PromptFits(s, q);
    }
  }

  lemma SendTurnKeepsEpochs(s: State, p: Id)
    requires EpochInv(s) && p in s.client.prompts && s.client.prompts[p].live && s.client.prompts[p].request.None?
    ensures EpochInv(SendTurn(s, p))
  {
    var s' := SendTurn(s, p);
    StartRequestKeeps(s.link, PromptTurn(p));
    SendTurnReferences(s, p);
    if IsOpen(s.link) {
      SendTurnTouches(s, p);
      hide SendTurn, StartRequest, PromptFits, References, OnlyPrompt, LinkInv;
      OthersOfLive(s, s', p);
      PromptChanges(s, s', p);
    }
  }

  lemma SendTurnReferences(s: State, p: Id)
    requires LinkInv(s.link) && References(s) && p in s.client.prompts && s.client.prompts[p].request.None?
    ensures References(SendTurn(s, p))
  {
  }

  lemma SendTurnTouches(s: State, p: Id)
    requires EpochInv(s) && IsOpen(s.link)
    requires p in s.client.prompts && s.client.prompts[p].live && s.client.prompts[p].request.None?
    ensures var s' := SendTurn(s, p);
      && OnlyPrompt(s, s', p) && PromptFits(s', p) && IsOpen(s'.link)
      && s'.client.prompts[p].session == s.client.prompts[p].session
      && s'.client.queues == s.client.queues && s'.client.phases == s.client.phases
      && s'.client.prompts[p].epoch.Unopened? && PhaseIs(s.client, s.client.prompts[p].session, Preparing)
  {
    assert PromptFits(s, p);
  }

  /** The drain of a prompt's request always finds its session prepared. */
  lemma SentFindsPreparing(s: State, id: Id)
    requires EpochInv(s) && IsOpen(s.link) && SenderAt(s.link, id, Draining) && s.link.requests[id].call.PromptTurn?
    ensures var p := s.link.requests[id].call.prompt;
      && p in s.client.prompts && s.client.prompts[p].live && s.client.prompts[p].epoch.Unopened?
      && s.client.prompts[p].request == Some(id)
      && PhaseIs(s.client, s.client.prompts[p].session, Preparing)
  {
    assert PromptFits(s, s.link.requests[id].call.prompt);
  }

  lemma SentTouches(s: State, id: Id)
    requires EpochInv(s) && IsOpen(s.link) && SenderAt(s.link, id, Draining) && s.link.requests[id].call.PromptTurn?
    ensures s.link.requests[id].call.prompt in s.client.prompts
    ensures var p := s.link.requests[id].call.prompt; var s' := RequestSent(s, id);
      && References(s') && OnlyPrompt(s, s', p) && PromptFits(s', p)
      && s'.client.prompts[p].session == s.client.prompts[p].session && s'.client.prompts[p].epoch.Opened?
      && s'.client.queues == s.client.queues
      && s.client.prompts[p].session in s.client.queues && s.client.queues[s.client.prompts[p].session] == p
  {
    hide References, EpochsSingle, LinkInv;
    SentFindsPreparing(s, id);
    SentReferences(s, id);
    assert PromptFits(s, s.link.requests[id].call.prompt);
  }

  lemma SentReferences(s: State, id: Id)
    requires References(s) && SenderAt(s.link, id, Draining) && s.link.requests[id].call.PromptTurn?
    requires PhaseIs(s.client, s.client.prompts[s.link.requests[id].call.prompt].session, Preparing)
    ensures References(RequestSent(s, id))
  {
    var moved := s.(link := s.link.(requests := s.link.requests[id := s.link.requests[id].(sender := AwaitingAnswer)]));
    assert References(moved);
    hide References;
    SamePlacesReference(moved, RequestSent(s, id).client);
  }

  lemma SentOthers(s: State, id: Id)
    requires EpochInv(s) && IsOpen(s.link) && SenderAt(s.link, id, Draining) && s.link.requests[id].call.PromptTurn?
    requires s.link.requests[id].call.prompt in s.client.prompts
    ensures var p := s.link.requests[id].call.prompt;
      forall q :: q in s.client.prompts && s.client.prompts[q].session == s.client.prompts[p].session ==>
        OthersFit(s, RequestSent(s, id), p, q)
  {
    SentFindsPreparing(s, id);
    var p := s.link.requests[id].call.prompt;
    assert Current(s, p);
    forall q | q in s.client.prompts && s.client.prompts[q].session == s.client.prompts[p].session
      ensures OthersFit(s, RequestSent(s, id), p, q)
    {
      if q != p {
        OthersIdle(s, p, q);
        assert PromptFits(s, q) && !BothCurrent(s, p, q);
      }
    }
  }

  lemma SentWhenFailed(s: State, id: Id)
    requires EpochInv(s) && SenderAt(s.link, id, Draining)
    requires !IsOpen(s.link) || !s.link.requests[id].call.PromptTurn?
    ensures EpochInv(RequestSent(s, id))
  {
    RequestSentKeepsLink(s, id);
    if IsOpen(s.link) {
      QuietKeepsEpochs(s, RequestSent(s, id));
    } else {
      assert References(RequestSent(s, id));
    }
  }

  lemma RequestSentKeepsEpochs(s: State, id: Id)
    requires EpochInv(s) && SenderAt(s.link, id, Draining)
    ensures EpochInv(RequestSent(s, id))
  {
    if IsOpen(s.link) && s.link.requests[id].call.PromptTurn? {
      RequestSentKeepsLink(s, id);
      SentTouches(s, id);
      SentOthers(s, id);
      hide RequestSent, PromptFits, References, OnlyPrompt, LinkInv;
      PromptChanges(s, RequestSent(s, id), s.link.requests[id].call.prompt);
    } else {
      SentWhenFailed(s, id);
    }
  }

  lemma CleanupTouches(s: State, p: Id)
    requires References(s) && p in s.client.prompts && s.client.prompts[p].live
    ensures var s' := Cleanup(s, p);
      && References(s') && OnlyPrompt(s, s', p)
      && s'.client.prompts[p].session == s.client.prompts[p].session
      && (Current(s', p) ==> Current(s, p))
      && (PromptFits(s, p) ==> PromptFits(s', p))
  {
  }

  lemma CleanupKeepsEpochs(s: State, p: Id)
    requires EpochInv(s) && p in s.client.prompts && s.client.prompts[p].live
    ensures EpochInv(Cleanup(s, p))
  {
    var s' := Cleanup(s, p);
    CancelSenderKeeps(s.link, if s.client.prompts[p].request.Some? then s.client.prompts[p].request.value else 0);
    CleanupTouches(s, p);
    if IsOpen(s.link) {
      assert PromptFits(s, p);
      hide CancelSender, PromptFits, References, OnlyPrompt, LinkInv, Current;
      OthersOfLive(s, s', p);
      PromptChanges(s, s', p);
    }
  }

  lemma PopKeepsEpochs(s: State, p: Id)
    requires EpochInv(s) && p in s.client.prompts && s.client.prompts[p].live
    requires s.client.prompts[p].popped < |s.client.prompts[p].entered|
    ensures EpochInv(Next(s, Pop(p)))
  {
    var s' := Next(s, Pop(p));
    PopTouches(s, p);
    if IsOpen(s.link) {
      hide PromptFits, References, OnlyPrompt, LinkInv;
      OthersOfLive(s, s', p);
      PopQueue(s, p);
      PromptChanges(s, s', p);
    }
  }

  lemma PopTouches(s: State, p: Id)
    requires EpochInv(s) && p in s.client.prompts && s.client.prompts[p].live
    requires s.client.prompts[p].popped < |s.client.prompts[p].entered|
    ensures var s' := Next(s, Pop(p)); References(s') && OnlyPrompt(s, s', p) && (IsOpen(s.link) ==> PromptFits(s', p))
  {
    hide References, EpochsSingle, LinkInv;
    SamePlacesReference(s, Next(s, Pop(p)).client);
    if IsOpen(s.link) { assert PromptFits(s, p); }
  }

  lemma PopQueue(s: State, p: Id)
    requires EpochInv(s) && IsOpen(s.link) && p in s.client.prompts && s.client.prompts[p].live
    ensures var sid := s.client.prompts[p].session;
      sid in s.client.queues && PhaseIs(s.client, sid, Active) ==>
        s.client.queues[sid] == p && s.client.prompts[p].epoch.Opened?
  {
    assert PromptFits(s, p);
  }

  lemma StartedIsQuiet(l: Link, m: Method)
    requires LinkInv(l) && !m.PromptTurn?
    ensures forall id {:trigger id in StartRequest(l, m).requests} ::
      id in StartRequest(l, m).requests && id != l.nextId ==>
      id in l.requests && StartRequest(l, m).requests[id] == l.requests[id]
    ensures QuietRequests(l, StartRequest(l, m))
  {
  }

  lemma RaisedIsQuiet(l: Link, id: Id)
    requires LinkInv(l) && SenderAt(l, id, Draining)
    ensures QuietRequests(l, DrainRaises(l, id))
  {
  }

  lemma CancelledIsQuiet(l: Link, id: Id)
    requires LinkInv(l)
    ensures QuietRequests(l, CancelSender(l, id))
  {
  }

  lemma SenderResumesKeepsEpochs(s: State, id: Id, registers: bool)
    requires EpochInv(s) && SenderAt(s.link, id, AwaitingAnswer)
    ensures EpochInv(SenderResumes(s, id, registers))
  {
    SenderResumesKeepsLink(s, id, registers);
    ResumesQuietly(s, id, registers);
    hide SenderResumes;
    QuietKeepsEpochs(s, SenderResumes(s, id, registers));
  }

  lemma MovedIsQuiet(l: Link, id: Id)
    requires SenderAt(l, id, AwaitingAnswer)
    ensures QuietRequests(l, l.(requests := l.requests[id := l.requests[id].(sender := Gone)]))
  {
  }

  lemma QuietThrough(a: Link, b: Link, c: Link)
    requires QuietRequests(a, b) && QuietRequests(b, c)
    ensures QuietRequests(a, c)
  {
  }

  lemma ResumesQuietly(s: State, id: Id, registers: bool)
    requires LinkInv(s.link) && SenderAt(s.link, id, AwaitingAnswer)
    ensures SameEpochs(s.client, SenderResumes(s, id, registers).client)
    ensures QuietRequests(s.link, SenderResumes(s, id, registers).link)
  {
    hide FailClosed, LinkInv, LinkGrows, SenderResumes, QuietRequests;
    var l := s.link.(requests := s.link.requests[id := s.link.requests[id].(sender := Gone)]);
    ResumesEpochs(s, id, registers);
    SenderMovesKeeps(s.link, id, Gone);
    MovedIsQuiet(s.link, id);
    FailIsQuiet(l);
    QuietThrough(s.link, l, FailClosed(l));
  }

  lemma ResumesEpochs(s: State, id: Id, registers: bool)
    requires SenderAt(s.link, id, AwaitingAnswer)
    ensures SameEpochs(s.client, SenderResumes(s, id, registers).client)
    ensures var l := s.link.(requests := s.link.requests[id := s.link.requests[id].(sender := Gone)]);
      SenderResumes(s, id, registers).link == l || SenderResumes(s, id, registers).link == FailClosed(l)
  {
    hide FailClosed;
    var moved := s.(link := s.link.(requests := s.link.requests[id := s.link.requests[id].(sender := Gone)]));
    var a := s.link.requests[id].future;
    if a.Resolved? && a.answer.Answered? && a.answer.session.Some? { BindingEpochs(moved, a.answer.session.value); }
    hide BindSession;
  }

  lemma BindingEpochs(s: State, sid: Id)
    ensures var b := BindSession(s, sid);
      if b.Success? then b.value.link == s.link && SameEpochs(s.client, b.value.client)
      else b.error.link == FailClosed(s.link) && SameEpochs(s.client, b.error.client)
  {
    hide FailClosed;
  }

  lemma QuietEvent(s: State, e: Event)
    requires LinkInv(s.link)
    requires e.CallStarts? || e.DrainFails? || e.SenderCancelled? || e.CallbackSettles? || e.CallbackReaped?
    ensures Next(s, e).client == s.client && QuietRequests(s.link, Next(s, e).link)
  {
    hide StartRequest, DrainRaises, CancelSender, LinkInv;
    match e
    case CallStarts(creation) => StartedIsQuiet(s.link, if creation then NewSession else OtherMethod);
    case DrainFails(id) => if SenderAt(s.link, id, Draining) { RaisedIsQuiet(s.link, id); }
    case SenderCancelled(id) => CancelledIsQuiet(s.link, id);
    case _ =>
  }

  lemma QuietEventKeepsEpochs(s: State, e: Event)
    requires EpochInv(s)
    requires e.CallStarts? || e.DrainFails? || e.SenderCancelled? || e.CallbackSettles? || e.CallbackReaped?
    ensures EpochInv(Next(s, e))
  {
    LinkNextKeeps(s, e);
    QuietEvent(s, e);
    hide Next, References, PromptsFit, EpochsSingle, LinkInv, QuietRequests;
    QuietKeepsEpochs(s, Next(s, e));
  }

  lemma TeardownKeepsEpochs(s: State, e: Event)
    requires EpochInv(s) && (e.Abort? || e.StopBegins? || e.StopEnds?)
    ensures EpochInv(Next(s, e))
  {
    LinkNextKeeps(s, e);
    TeardownReferences(s, e);
    if IsOpen(Next(s, e).link) { assert Next(s, e) == s; }
  }

  lemma TeardownReferences(s: State, e: Event)
    requires References(s) && (e.Abort? || e.StopBegins? || e.StopEnds?)
    ensures References(Next(s, e))
  {
  }

  /** Every event keeps the epochs. */
  lemma EpochNextKeeps(s: State, e: Event)
    requires EpochInv(s)
    ensures EpochInv(Next(s, e))
  {
    hide EpochInv, FailClosed, HandleNotification, DispatchRequest, DispatchResponse, RequestSent, SenderResumes,
      BeginPrompt,
      Cleanup, SendTurn;
    match e
    case Begin(p, sid, byteLimit, countLimit) =>
      if p !in s.client.prompts && !LiveOn(s.client, sid) { BeginKeepsEpochs(s, p, sid, byteLimit, countLimit); }
    case TurnTaskRuns(p) =>
      if p in s.client.prompts && s.client.prompts[p].live &&
        s.client.prompts[p].request.None? { SendTurnKeepsEpochs(s, p); }
    case DrainCompletes(id) => if SenderAt(s.link, id, Draining) { RequestSentKeepsEpochs(s, id); }
    case SenderSees(id, registers) =>
      if SenderAt(s.link, id, AwaitingAnswer) { SenderResumesKeepsEpochs(s, id, registers); }
    case Pop(p) =>
      if p in s.client.prompts && s.client.prompts[p].live &&
        s.client.prompts[p].popped < |s.client.prompts[p].entered| {
        PopKeepsEpochs(s, p);
      }
    case CleanupRuns(p) => if p in s.client.prompts && s.client.prompts[p].live { CleanupKeepsEpochs(s, p); }
    case ReadNotification(n) => NotificationKeepsEpochs(s, n);
    case ReadRequest(session, tag, bytes) => RequestKeepsEpochs(s, session, tag, bytes);
    case ReadResponse(id, a) => if !s.link.closed { ResponseKeepsEpochs(s, id, a); }
    case Abort => TeardownKeepsEpochs(s, e);
    case StopBegins => TeardownKeepsEpochs(s, e);
    case StopEnds => TeardownKeepsEpochs(s, e);
    case ReadMalformed => FailStaysEpochs(s);
    case _ => QuietEventKeepsEpochs(s, e);
  }

  lemma {:induction false} EpochRunKeeps(s: State, events: seq<Event>)
    requires EpochInv(s)
    ensures EpochInv(Run(s, events))
    decreases |events|
  {
    hide EpochInv, Next;
    if events != [] {
      EpochNextKeeps(s, events[0]);
      EpochRunKeeps(Next(s, events[0]), events[1..]);
    }
  }
}
