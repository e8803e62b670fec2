/** The budget of a prompt against what was read for it: bytes and entries are counted off the wire. */
module ReaderBudgets {
  import opened Wrappers
  import opened ReaderModel
  import opened ReaderLink
  import opened ReaderEpochs
  import opened ReaderFrames

  /** The encoded size of the line that an event reads. */
  function SizeOf(e: Event): nat {
    match e
    case ReadNotification(n) => if n.bytes.Some? then n.bytes.value else 0
    case ReadRequest(_, _, bytes) => bytes
    case _ => 0
  }

  /** What a prompt was granted when it began, and what has been read for its session while its frame is open. */
  datatype Account = Account(bytes: nat, byteLimit: int, countLimit: int)

  function AccountStep(s: State, e: Event, f: Frame, a: Account, p: Id, sid: Id): Account {
    var w := WireOf(s, e);
    if w.Some? && w.value.LineFor? && w.value.session == sid && f.epoch.Opened? then a.(bytes := a.bytes + SizeOf(e))
    else if e.Begin? && e.prompt == p && p !in s.client.prompts && p in Next(s, e).client.prompts then
      a.(byteLimit := e.byteLimit, countLimit := e.countLimit)
    else a
  }

  /** The account of a prompt, kept along the events of a run. */
  function AccountAfter(s: State, events: seq<Event>, f: Frame, a: Account, p: Id, sid: Id): Account
    decreases |events|
  {
    if events == [] then a
    else AccountAfter(Next(s, events[0]), events[1..], FrameStep(s, events[0], f, p, sid),
                      AccountStep(s, events[0], f, a, p, sid), p, sid)
  }

  predicate LiveIn(s: State, p: Id, sid: Id) {
    p in s.client.prompts && s.client.prompts[p].live && s.client.prompts[p].session == sid
  }

  /** The entries of a frame without its marker. */
  function EntryCount(f: Frame): int {
    |f.entries| - (if f.epoch.Shut? then 1 else 0)
  }

  /** The budget of a live prompt is what it was granted and what was read for it. */
  predicate Spends(s: State, f: Frame, a: Account, p: Id, sid: Id) {
    && (LiveIn(s, p, sid) ==>
          && sid in s.client.budgets
          && s.client.budgets[sid] == Budget(a.bytes, EntryCount(f), a.byteLimit, a.countLimit)
          && a.bytes <= a.byteLimit
          && EntryCount(f) <= a.countLimit)
    && (p !in s.client.prompts ==> a.bytes == 0)
  }

  // ----- steps -----

  /** Neither the budget of a session nor who lives on it changes. */
  predicate SameFunds(c: Client, c': Client, p: Id, sid: Id) {
    && (p in c.prompts ==>
         && p in c'.prompts && c'.prompts[p].session == c.prompts[p].session
         && (c'.prompts[p].live ==> c.prompts[p].live))
    && (p in c'.prompts ==> p in c.prompts)
    && (sid in c.budgets ==> sid in c'.budgets && c'.budgets[sid] == c.budgets[sid])
  }

  lemma SilentFunds(s: State, e: Event, f: Frame, a: Account, p: Id, sid: Id)
    requires Spends(s, f, a, p, sid) && SameFunds(s.client, Next(s, e).client, p, sid)
    requires AccountStep(s, e, f, a, p, sid) == a && EntryCount(FrameStep(s, e, f, p, sid)) == EntryCount(f)
    ensures Spends(Next(s, e), FrameStep(s, e, f, p, sid), AccountStep(s, e, f, a, p, sid), p, sid)
  {
  }

  lemma LineFunds(s: State, t: Id, entry: Entry, bytes: Option<nat>, f: Frame, a: Account, p: Id, sid: Id)
    requires EpochInv(s) && IsOpen(s.link) && IsOpen(Enqueue(s, t, entry, bytes).link) && PhaseIs(s.client, t, Active)
    requires Spends(s, f, a, p, sid) && Matches(s, f, p, sid)
    ensures bytes.Some?
    ensures var a' := if t == sid && f.epoch.Opened? then a.(bytes := a.bytes + bytes.value) else a;
      Spends(Enqueue(s, t, entry, bytes), Framed(f, LineFor(t, entry), p, sid), a', p, sid)
  {
    FailEnds(s.link);
    if p in s.client.prompts { assert PromptFits(s, p); }
    if t in s.client.queues { assert PromptFits(s, s.client.queues[t]); }
  }

  lemma NotificationFunds(s: State, n: Notification, f: Frame, a: Account, p: Id, sid: Id)
    requires EpochInv(s) && IsOpen(s.link) && n.session.Some? && IsOpen(HandleNotification(s, n).link)
    requires Spends(s, f, a, p, sid) && Matches(s, f, p, sid)
    ensures var e := ReadNotification(n);
      Spends(HandleNotification(s, n), FrameStep(s, e, f, p, sid), AccountStep(s, e, f, a, p, sid), p, sid)
  {
    FailEnds(s.link);
    hide Enqueue, FailClosed;
    var r := DiscardStateUpdate(s, n);
    if r.Some? {
      if p in s.client.prompts { assert PromptFits(s, p); }
    } else {
      hide PromptsFit, EpochsSingle, References, Matches, Spends;
      LineFunds(s, n.session.value, Update(n.tag), n.bytes, f, a, p, sid);
    }
  }

  lemma RequestFunds(s: State, t: Id, tag: Id, bytes: nat, f: Frame, a: Account, p: Id, sid: Id)
    requires EpochInv(s) && IsOpen(s.link) && IsOpen(DispatchRequest(s, Some(t), tag, bytes).link)
    requires Spends(s, f, a, p, sid) && Matches(s, f, p, sid)
    ensures var e := ReadRequest(Some(t), tag, bytes);
      Spends(DispatchRequest(s, Some(t), tag, bytes), FrameStep(s, e, f, p, sid), AccountStep(s, e, f, a, p, sid), p,
        sid)
  {
    FailEnds(s.link);
    var u := ObserveAgentRequest(s, Some(t), tag, bytes);
    FailEnds(u.link);
    hide Enqueue, FailClosed, EpochInv, Matches;
    LineFunds(s, t, CallbackEvidence(tag), Some(bytes), f, a, p, sid);
  }

  lemma BeginFunds(s: State, e: Event, f: Frame, a: Account, p: Id, sid: Id)
    requires e.Begin? && Spends(s, f, a, p, sid) && Matches(s, f, p, sid)
    ensures Spends(Next(s, e), FrameStep(s, e, f, p, sid), AccountStep(s, e, f, a, p, sid), p, sid)
  {
    hide FailClosed;
    if p in s.client.prompts && s.client.prompts[p].live { assert LiveOn(s.client, s.client.prompts[p].session); }
  }

  lemma CleanupFunds(s: State, q: Id, f: Frame, a: Account, p: Id, sid: Id)
    requires EpochInv(s) && IsOpen(s.link) && Spends(s, f, a, p, sid)
    ensures var e := CleanupRuns(q);
      Spends(Next(s, e), FrameStep(s, e, f, p, sid), AccountStep(s, e, f, a, p, sid), p, sid)
  {
    hide CancelSender, References, EpochsSingle, LinkInv;
    if q in s.client.prompts { assert PromptFits(s, q); }
    if p in s.client.prompts { assert PromptFits(s, p); }
  }

  lemma TurnFunds(s: State, q: Id, p: Id, sid: Id)
    ensures SameFunds(s.client, ObserveTurn(s, q).client, p, sid)
  {
    hide FailClosed;
  }

  lemma SameClientFunds(c: Client, c': Client, p: Id, sid: Id)
    requires SameEpochs(c, c')
    ensures SameFunds(c, c', p, sid)
  {
  }

  lemma ResponseFunds(s: State, id: Id, a: Answer, p: Id, sid: Id)
    requires LinkInv(s.link) && IsOpen(DispatchResponse(s, id, a).link)
    ensures SameFunds(s.client, DispatchResponse(s, id, a).client, p, sid)
  {
    FailEnds(s.link);
    if Pends(s.link, id) {
      assert s.link.pendingRequests[id] == s.link.requests[id].call;
      var t := Observed(s, id, a);
      match s.link.pendingRequests[id] {
        case NewSession => CreationEpochs(s, a); SameClientFunds(s.client, t.client, p, sid);
        case PromptTurn(q) => TurnFunds(s, q, p, sid);
        case OtherMethod => SameClientFunds(s.client, s.client, p, sid);
      }
      hide ObserveCreation, ObserveTurn, SameFunds;
    }
  }

  /** An answer shuts the frame of its own prompt, which then counts its marker apart. */
  lemma AnswerFunds(s: State, id: Id, a: Answer, f: Frame, k: Account, p: Id, sid: Id)
    requires LinkInv(s.link) && IsOpen(DispatchResponse(s, id, a).link) && Spends(s, f, k, p, sid)
    ensures var e := ReadResponse(id, a);
      Spends(DispatchResponse(s, id, a), FrameStep(s, e, f, p, sid), AccountStep(s, e, f, k, p, sid), p, sid)
  {
    hide DispatchResponse, LinkInv;
    ResponseFunds(s, id, a, p, sid);
  }

  lemma SenderFunds(s: State, e: Event, p: Id, sid: Id)
    requires e.DrainCompletes? || e.SenderSees?
    ensures SameFunds(s.client, Next(s, e).client, p, sid)
  {
    hide FailClosed;
  }

  lemma SentFunds(s: State, id: Id, f: Frame, a: Account, p: Id, sid: Id)
    requires EpochInv(s) && IsOpen(s.link) && Spends(s, f, a, p, sid) && Matches(s, f, p, sid)
    ensures var e := DrainCompletes(id);
      Spends(Next(s, e), FrameStep(s, e, f, p, sid), AccountStep(s, e, f, a, p, sid), p, sid)
  {
    SenderFunds(s, DrainCompletes(id), p, sid);
    if p in s.client.prompts { assert PromptFits(s, p); }
    hide EpochInv, Next;
  }

  lemma QuietFunds(s: State, e: Event, p: Id, sid: Id)
    requires IsOpen(Next(s, e).link)
    requires !e.Begin? && !e.CleanupRuns? && !e.DrainCompletes? && !e.SenderSees? && !e.ReadNotification? &&
      !e.ReadRequest? && !e.ReadResponse?
    ensures SameFunds(s.client, Next(s, e).client, p, sid)
  {
    hide FailPending, StartRequest, DrainRaises, CancelSender;
  }

  lemma StepSpends(s: State, e: Event, f: Frame, a: Account, p: Id, sid: Id)
    requires EpochInv(s) && IsOpen(s.link) && IsOpen(Next(s, e).link)
    requires Spends(s, f, a, p, sid) && Matches(s, f, p, sid)
    ensures Spends(Next(s, e), FrameStep(s, e, f, p, sid), AccountStep(s, e, f, a, p, sid), p, sid)
  {
    hide Spends, Matches, EpochInv, LinkInv, SameFunds, HandleNotification, DispatchRequest, DispatchResponse;
    Linked(s);
    match e
    case Begin(_, _, _, _) => BeginFunds(s, e, f, a, p, sid);
    case CleanupRuns(q) => CleanupFunds(s, q, f, a, p, sid);
    case DrainCompletes(id) => SentFunds(s, id, f, a, p, sid);
    case SenderSees(_, _) => SenderFunds(s, e, p, sid); SilentFunds(s, e, f, a, p, sid);
    case ReadNotification(n) =>
      if n.session.None? { SilentLine(s, e); } else { NotificationFunds(s, n, f, a, p, sid); }
    case ReadRequest(session, tag, bytes) =>
      if session.None? { SilentLine(s, e); } else { RequestFunds(s, session.value, tag, bytes, f, a, p, sid); }
    case ReadResponse(id, answer) => AnswerFunds(s, id, answer, f, a, p, sid);
    case _ => QuietFunds(s, e, p, sid); SilentFunds(s, e, f, a, p, sid);
  }

  lemma Linked(s: State)
    requires EpochInv(s)
    ensures LinkInv(s.link)
  {
  }

  lemma {:induction false} RunSpends(s: State, events: seq<Event>, f: Frame, a: Account, p: Id, sid: Id)
    requires EpochInv(s) && IsOpen(Run(s, events).link) && Matches(s, f, p, sid) && Spends(s, f, a, p, sid)
    ensures Spends(Run(s, events), FrameAfter(s, events, f, p, sid), AccountAfter(s, events, f, a, p, sid), p, sid)
    decreases |events|
  {
    if events != [] {
      var t := Next(s, events[0]);
      EpochNextKeeps(s, events[0]);
      StaysEnded(s, events);
      StaysEnded(t, events[1..]);
      hide EpochInv, Next, FrameStep, AccountStep, Matches, Spends;
      StepMatches(s, events[0], f, p, sid);
      StepSpends(s, events[0], f, a, p, sid);
      RunSpends(t, events[1..], FrameStep(s, events[0], f, p, sid), AccountStep(s, events[0], f, a, p, sid), p, sid);
    }
  }

  // ----- the theorems -----

  /** What the wire says of a prompt: its frame and its account. */
  function FrameOf(events: seq<Event>, p: Id, sid: Id): Frame {
    FrameAfter(Start(), events, Frame(Unopened, []), p, sid)
  }

  function AccountOf(events: seq<Event>, p: Id, sid: Id): Account {
    AccountAfter(Start(), events, Frame(Unopened, []), Account(0, 0, 0), p, sid)
  }

  /**
   On an open transport the budget of a live prompt is the sum of the sizes, and the number, of what was read for
   it, within the limits it was begun with.
   */
  lemma BudgetIsRead(events: seq<Event>, p: Id)
    requires var s := Run(Start(), events); IsOpen(s.link) && p in s.client.prompts && s.client.prompts[p].live
    ensures var s := Run(Start(), events); var sid := s.client.prompts[p].session;
      var f, a := FrameOf(events, p, sid), AccountOf(events, p, sid);
      && sid in s.client.budgets
      && s.client.budgets[sid] == Budget(a.bytes, EntryCount(f), a.byteLimit, a.countLimit)
      && a.bytes <= a.byteLimit && EntryCount(f) <= a.countLimit
      && f == Frame(s.client.prompts[p].epoch, s.client.prompts[p].entered)
  {
    QueueIsFrame(events, p);
    RunSpends(Start(), events, Frame(Unopened, []), Account(0, 0, 0), p,
      Run(Start(), events).client.prompts[p].session);
  }

  /** In an active session with a queue the entries so far are the frame of its prompt. */
  lemma ActiveBudget(events: seq<Event>, sid: Id)
    requires var s := Run(Start(), events);
      IsOpen(s.link) && PhaseIs(s.client, sid, Active) && sid in s.client.queues
    ensures var s := Run(Start(), events); var p := s.client.queues[sid];
      var f, a := FrameOf(events, p, sid), AccountOf(events, p, sid);
      && p in s.client.prompts && s.client.prompts[p].session == sid && f.epoch.Opened?
      && sid in s.client.budgets
      && s.client.budgets[sid] == Budget(a.bytes, |f.entries|, a.byteLimit, a.countLimit)
      && !Full(s.client.prompts[p])
  {
    EpochRunKeeps(Start(), events);
    var s := Run(Start(), events);
    assert PromptFits(s, s.client.queues[sid]);
    BudgetIsRead(events, s.client.queues[sid]);
    MarkerAlwaysFits(events, sid);
    hide EpochInv, Run, FrameOf, AccountOf;
  }

  /**
   An update of an active session with a queue is taken if and only if the model is intact, the update is a
   registered session's and well formed, it can be encoded, and both limits still hold with it.
   */
  lemma UpdateTaken(events: seq<Event>, n: Notification)
    requires var s := Run(Start(), events);
      && IsOpen(s.link) && n.session.Some?
      && PhaseIs(s.client, n.session.value, Active) && n.session.value in s.client.queues
    ensures var s := Run(Start(), events); var sid := n.session.value; var p := s.client.queues[sid];
      var f, a := FrameOf(events, p, sid), AccountOf(events, p, sid);
      IsOpen(Next(s, ReadNotification(n)).link) <==>
        && n.modelIntact && sid in s.client.sessions && n.shaped && n.kind != UnknownKind
        && n.bytes.Some?
        && a.bytes + n.bytes.value <= a.byteLimit
        && |f.entries| < a.countLimit
  {
    ActiveBudget(events, n.session.value);
    hide Run, FrameOf, AccountOf, FailClosed;
    FailEnds(Run(Start(), events).link);
  }

  /** So is a callback, if there is also room for its task. */
  lemma CallbackTaken(events: seq<Event>, sid: Id, tag: Id, bytes: nat)
    requires var s := Run(Start(), events);
      IsOpen(s.link) && PhaseIs(s.client, sid, Active) && sid in s.client.queues
    ensures var s := Run(Start(), events); var p := s.client.queues[sid];
      var f, a := FrameOf(events, p, sid), AccountOf(events, p, sid);
      IsOpen(Next(s, ReadRequest(Some(sid), tag, bytes)).link) <==>
        && a.bytes + bytes <= a.byteLimit
        && |f.entries| < a.countLimit
        && |s.link.callbacks| < 64
  {
    ActiveBudget(events, sid);
    hide Run, FrameOf, AccountOf, FailClosed;
    var s := Run(Start(), events);
    FailEnds(s.link);
    FailEnds(ObserveAgentRequest(s, Some(sid), tag, bytes).link);
  }

  // ----- the other lines -----

  /** Session state: the kinds of update that are not evidence of a prompt. */
  const STATE_KINDS: set<Kind> :=
    {AvailableCommandsUpdate, CurrentModeUpdate, ConfigOptionUpdate, UsageUpdate, SessionInfoUpdate}

  /**
   Outside an active prompt nothing but bounded session state is tolerated, of a session that is known, or that
   may still be the answer of an open creation.
   */
  lemma StateUpdateTaken(s: State, n: Notification)
    requires IsOpen(s.link) && (n.session.Some? ==> !PhaseIs(s.client, n.session.value, Active))
    ensures var s' := Next(s, ReadNotification(n)); var c := s.client;
      && (IsOpen(s'.link) <==>
            && n.modelIntact && n.session.Some? && n.kind in STATE_KINDS && n.boundedState
            && (n.session.value in c.sessions || n.session.value in c.responseIds || n.session.value in c.provisional
                || |c.provisional| < PendingCreations(s.link)))
      && (IsOpen(s'.link) ==>
            s'.client == c.(provisional := if n.session.value in c.sessions || n.session.value in c.responseIds
              then c.provisional else c.provisional + {n.session.value}))
  {
    hide FailClosed;
    FailEnds(s.link);
  }

  /** A callback is tolerated in an active session with a queue only, and an update needs that queue as well. */
  lemma StrayLinesFail(s: State, sid: Id, e: Event)
    requires IsOpen(s.link)
    requires (e.ReadRequest? && e.caller == Some(sid) && !(PhaseIs(s.client, sid, Active) && sid in s.client.queues))
      || (e.ReadNotification? && e.n.session == Some(sid) && PhaseIs(s.client, sid, Active) &&
          sid !in s.client.queues)
      || (e.ReadRequest? && e.caller.None?)
    ensures !IsOpen(Next(s, e).link)
  {
    hide FailClosed;
    FailEnds(s.link);
    if e.ReadRequest? { FailEnds(ObserveAgentRequest(s, e.caller, e.tag, e.bytes).link); }
  }

  /** The observer of an answer to session/new finds nothing amiss. */
  predicate CreationAnswerFits(s: State, answer: Answer) {
    match answer
    case Answered(None) => false
    case Answered(Some(sid)) =>
      && sid !in s.client.sessions && sid !in s.client.responseIds
      && |s.client.provisional - {sid}| < PendingCreations(s.link)
    case Errored => |s.client.provisional| < PendingCreations(s.link)
  }

  /** The observer of a prompt's answer finds its session active, with a queue and no unsettled callback. */
  predicate TurnAnswerFits(s: State, p: Id) {
    var c := s.client;
    && p in c.prompts && PhaseIs(c, c.prompts[p].session, Active) && c.prompts[p].session in c.queues
    && forall t :: t in s.link.callbacks && s.link.callbacks[t].session == c.prompts[p].session ==>
         s.link.callbacks[t].done
  }

  lemma CreationObservedOpen(s: State, answer: Answer)
    requires IsOpen(s.link)
    ensures var t := ObserveCreation(s, answer);
      if CreationAnswerFits(s, answer) && PendingCreations(s.link) > 0 then t.link == s.link else !IsOpen(t.link)
  {
    hide FailClosed, PendingCreations;
    FailEnds(s.link);
  }

  lemma TurnObservedOpen(s: State, p: Id)
    requires IsOpen(s.link)
    requires forall sid {:trigger sid in s.client.queues} ::
      sid in s.client.queues && PhaseIs(s.client, sid, Active) ==>
        Queued(s.client, sid) && !Full(QueueOf(s.client, sid))
    ensures var t := ObserveTurn(s, p);
      if TurnAnswerFits(s, p) then t.link == s.link else !IsOpen(t.link)
  {
    hide FailClosed;
    FailEnds(s.link);
  }

  lemma AnswerTaken(s: State, id: Id, answer: Answer, t: State)
    requires LinkInv(s.link) && IsOpen(s.link)
    requires Pends(s.link, id) ==> t == Observed(s, id, answer) && (t.link == s.link || !IsOpen(t.link))
    ensures IsOpen(Next(s, ReadResponse(id, answer)).link) <==> Pends(s.link, id) && t.link == s.link
  {
    hide FailClosed, ObserveCreation, ObserveTurn;
    FailEnds(s.link);
  }

  /** A response is accepted if and only if its request waits for it and its observer finds nothing amiss. */
  lemma ResponseTaken(events: seq<Event>, id: Id, answer: Answer)
    requires IsOpen(Run(Start(), events).link)
    ensures var s := Run(Start(), events);
      IsOpen(Next(s, ReadResponse(id, answer)).link) <==>
        && id in s.link.pending && id in s.link.requests && s.link.requests[id].future.Waiting?
        && match s.link.requests[id].call
           case OtherMethod => true
           case PromptTurn(p) => TurnAnswerFits(s, p)
           case NewSession => CreationAnswerFits(s, answer)
  {
    EpochRunKeeps(Start(), events);
    var s := Run(Start(), events);
    forall sid | sid in s.client.queues && PhaseIs(s.client, sid, Active)
      ensures Queued(s.client, sid) && !Full(QueueOf(s.client, sid))
    {
      MarkerAlwaysFits(events, sid);
    }
    hide Run, ObserveCreation, ObserveTurn, TurnAnswerFits, CreationAnswerFits, Full, Next;
    if Pends(s.link, id) {
      PendsIn(s, id);
      match s.link.requests[id].call {
        case NewSession => CreationObservedOpen(s, answer); OpenCreation(s, id);
        case PromptTurn(p) => TurnObservedOpen(s, p);
        case OtherMethod =>
      }
      AnswerTaken(s, id, answer, Observed(s, id, answer));
    } else {
      AnswerTaken(s, id, answer, s);
    }
  }

  lemma PendsIn(s: State, id: Id)
    requires LinkInv(s.link) && Pends(s.link, id)
    ensures id in s.link.pendingRequests && s.link.pendingRequests[id] == s.link.requests[id].call
  {
  }

  lemma OpenCreation(s: State, id: Id)
    requires id in s.link.pendingRequests && s.link.pendingRequests[id].NewSession?
    ensures PendingCreations(s.link) > 0
  {
    assert id in Creations(s.link);
  }
}
