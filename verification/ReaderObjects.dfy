/**
 The transport and the client as the objects that the reader, the senders and the
 consumers update in place. Each method is one stretch between two awaits and is
 proved to do what the transition system of ReaderModel does.
 */
module ReaderObjects {
  import opened Wrappers
  import opened ReaderModel
  import opened ReaderLink
  import opened ReaderEpochs

  /** A request whose future was rejected if it was pending and not done. */
  function DroppedIf(r: Request, rejected: bool): Request {
    if rejected && r.future.Waiting? then r.(future := Dropped) else r
  }

  function CreationsAmong(calls: map<Id, Method>, ids: set<Id>): set<Id> {
    set id | id in ids && id in calls && calls[id].NewSession?
  }

  lemma OneMoreCreation(calls: map<Id, Method>, ids: set<Id>, id: Id)
    requires id in calls && id !in ids
    ensures |CreationsAmong(calls, ids + {id})| == |CreationsAmong(calls, ids)| + if calls[id].NewSession? then 1 else 0
  {
    var more := CreationsAmong(calls, ids + {id});
    if calls[id].NewSession? {
      assert more == CreationsAmong(calls, ids) + {id};
    } else {
      assert more == CreationsAmong(calls, ids);
    }
  }

  /** Starting a request is filing it and, if the transport refuses the write, taking it back. */
  lemma Started(l: Link, call: Method)
    requires LinkInv(l)
    ensures LinkInv(StartRequest(l, call))
    ensures var id := l.nextId;
      var filed := l.(nextId := id + 1, requests := l.requests[id := Request(call, Draining, Waiting)],
        pending := l.pending + {id}, pendingRequests := l.pendingRequests[id := call]);
      StartRequest(l, call) ==
        if IsOpen(l) then filed
        else filed.(requests := filed.requests[id := Request(call, Gone, Withdrawn)],
          pending := filed.pending - {id}, pendingRequests := filed.pendingRequests - {id})
  {
    StartRequestKeeps(l, call);
    var id := l.nextId;
    assert id !in l.pending && id !in l.pendingRequests;
    hide LinkInv, LinkGrows;
    assert l.pending + {id} - {id} == l.pending;
    assert l.pendingRequests[id := call] - {id} == l.pendingRequests;
    assert l.requests[id := Request(call, Draining, Waiting)][id := Request(call, Gone, Withdrawn)]
        == l.requests[id := Request(call, Gone, Withdrawn)];
  }

  /** `AcpTransport`; its close handler is counted, its observers are the methods of `AcpClient`. */
  class AcpTransport {
    var nextId: Id
    var requests: map<Id, Request>
    var pending: set<Id>
    var pendingRequests: map<Id, Method>
    var callbacks: map<Id, Callback>
    var nextCallback: Id
    var closed: bool
    var failed: bool
    var closeCalls: nat

    constructor ()
      ensures View() == Start().link
    {
      nextId, requests, pending, pendingRequests := 1, map[], {}, map[];
      callbacks, nextCallback, closed, failed, closeCalls := map[], 0, false, false, 0;
    }

    ghost function View(): Link
      reads this
    {
      Link(nextId, requests, pending, pendingRequests, callbacks, nextCallback, closed, failed, closeCalls)
    }

    ghost predicate Valid()
      reads this
    {
      LinkInv(View())
    }

    /** `_fail_pending`: rejects every pending future that is not done, once. */
    method FailPending()
      modifies this
      ensures View() == ReaderModel.FailPending(old(View()))
    {
      var rest := pending;
      while rest != {}
        modifies `requests
        invariant rest <= pending
        invariant requests.Keys == old(requests).Keys
        invariant forall id :: id in requests ==> requests[id] == DroppedIf(old(requests)[id], id in pending - rest)
        decreases |rest|
      {
        var id :| id in rest;
        rest := rest - {id};
        if id in requests && requests[id].future.Waiting? {
          requests := requests[id := requests[id].(future := Dropped)];
        }
      }
      pending := {};
      pendingRequests := map[];
    }

    /** `fail_closed` */
    method FailClosed()
      modifies this
      ensures View() == ReaderModel.FailClosed(old(View()))
    {
      if closed || failed {
        return;
      }
      failed := true;
      FailPending();
      closeCalls := closeCalls + 1;
    }

    /** The future of a new request is created and filed. */
    method File(call: Method) returns (id: Id)
      modifies this
      ensures id == old(nextId)
      ensures View() == old(View()).(nextId := id + 1,
        requests := old(requests)[id := Request(call, Draining, Waiting)],
        pending := old(pending) + {id}, pendingRequests := old(pendingRequests)[id := call])
    {
      id := nextId;
      nextId := nextId + 1;
      requests := requests[id := Request(call, Draining, Waiting)];
      pending := pending + {id};
      pendingRequests := pendingRequests[id := call];
    }

    /** The write is refused: the request is taken back. */
    method TakeBack(id: Id, call: Method)
      modifies this
      ensures View() == old(View()).(requests := old(requests)[id := Request(call, Gone, Withdrawn)],
        pending := old(pending) - {id}, pendingRequests := old(pendingRequests) - {id})
    {
      pending := pending - {id};
      pendingRequests := pendingRequests - {id};
      requests := requests[id := Request(call, Gone, Withdrawn)];
    }

    /** `send_request` up to the drain; a closed transport refuses the write. */
    method SendRequest(call: Method) returns (id: Id)
      requires Valid()
      modifies this
      ensures Valid()
      ensures View() == StartRequest(old(View()), call) && id == old(nextId)
    {
      hide LinkInv, View;
      Started(View(), call);
      Fields();
      id := File(call);
      Fields();
      if closed || failed {
        TakeBack(id, call);
      }
    }

    lemma Fields()
      ensures View().closed == closed && View().failed == failed && View().nextId == nextId
      ensures View().requests == requests && View().pending == pending && View().pendingRequests == pendingRequests
    {
    }

    /** The except branch of `send_request`: the write raised while draining. */
    method WriteRaises(id: Id)
      requires Valid() && SenderAt(View(), id, Draining)
      modifies this
      ensures Valid()
      ensures View() == DrainRaises(old(View()), id)
    {
      DrainRaisesKeeps(View(), id);
      var r := requests[id];
      pending := pending - {id};
      pendingRequests := pendingRequests - {id};
      requests := requests[id := r.(sender := Gone, future := WithdrawFuture(r.future))];
    }

    /** The task that sent the request is cancelled. */
    method CancelTask(id: Id)
      requires Valid()
      modifies this
      ensures Valid()
      ensures View() == CancelSender(old(View()), id)
    {
      CancelSenderKeeps(View(), id);
      if id in requests && !requests[id].sender.Gone? {
        var r := requests[id];
        var future := if r.sender.AwaitingAnswer? then WithdrawFuture(r.future) else r.future;
        requests := requests[id := r.(sender := Gone, future := future)];
      }
    }

    /** `pending_request_count("session/new")` */
    method PendingCreationCount() returns (count: nat)
      ensures count == PendingCreations(View())
    {
      count := 0;
      var rest := pendingRequests.Keys;
      ghost var seen: set<Id> := {};
      while rest != {}
        invariant seen + rest == pendingRequests.Keys && seen !! rest
        invariant count == |CreationsAmong(pendingRequests, seen)|
        decreases |rest|
      {
        var id :| id in rest;
        rest := rest - {id};
        OneMoreCreation(pendingRequests, seen, id);
        seen := seen + {id};
        if pendingRequests[id].NewSession? {
          count := count + 1;
        }
      }
      assert CreationsAmong(pendingRequests, seen) == Creations(View());
    }

    /** `has_pending_incoming_requests` */
    method HasPendingIncomingRequests(session: Id) returns (found: bool)
      ensures found <==> CallbackUnsettled(View(), session)
    {
      var rest := callbacks.Keys;
      while rest != {}
        invariant rest <= callbacks.Keys
        invariant forall t :: t in callbacks && t !in rest ==> callbacks[t].session != session || callbacks[t].done
        decreases |rest|
      {
        var t :| t in rest;
        rest := rest - {t};
        if callbacks[t].session == session && !callbacks[t].done {
          return true;
        }
      }
      found := false;
    }

    /** A new task for a request of the child, if there is room for one. */
    method AddCallback(session: Id) returns (added: bool)
      requires Valid()
      modifies this
      ensures Valid()
      ensures added <==> |old(callbacks)| < MAX_INCOMING_REQUEST_TASKS
      ensures View() ==
        if added then old(View()).(nextCallback := old(nextCallback) + 1,
                                   callbacks := old(callbacks)[old(nextCallback) := Callback(session, false)])
        else ReaderModel.FailClosed(old(View()))
    {
      if |callbacks| >= MAX_INCOMING_REQUEST_TASKS {
        FailClosedKeeps(View());
        FailClosed();
        return false;
      }
      callbacks := callbacks[nextCallback := Callback(session, false)];
      nextCallback := nextCallback + 1;
      added := true;
    }

    /** The future of a pending request gets its answer. */
    method Resolve(id: Id, answer: Answer)
      requires Valid() && Pends(View(), id)
      modifies this
      ensures Valid()
      ensures View() ==
        ReaderModel.Resolve(old(View()), id, answer)
    {
      ResolveKeeps(View(), id, answer);
      pending := pending - {id};
      pendingRequests := pendingRequests - {id};
      requests := requests[id := requests[id].(future := Resolved(answer))];
    }
  }

  /** The direct-mode fields of `AcpClient`; `prompts` stands for the running generators and their queues. */
  class AcpClient {
    const transport: AcpTransport
    var sessions: set<Id>
    var provisional: set<Id>
    var responseIds: set<Id>
    var phases: map<Id, Phase>
    var queues: map<Id, Id>
    var budgets: map<Id, Budget>
    var prompts: map<Id, Prompt>
    ghost var created: map<Id, Id>

    constructor ()
      ensures fresh(transport) && Valid() && View() == Start()
    {
      transport := new AcpTransport();
      sessions, provisional, responseIds := {}, {}, {};
      phases, queues, budgets, prompts, created := map[], map[], map[], map[], map[];
    }

    ghost function View(): State
      reads this, transport
    {
      State(transport.View(), Client(sessions, provisional, responseIds, phases, queues, budgets, prompts, created))
    }

    ghost predicate Valid()
      reads this, transport
    {
      transport.Valid()
    }

    method Fail()
      requires Valid()
      modifies transport
      ensures Valid()
      ensures View() == ReaderModel.Fail(old(View()))
    {
      FailClosedKeeps(transport.View());
      transport.FailClosed();
    }

    // ----- updates -----

    /** `_admit_provisional_session_id` */
    method AdmitProvisionalSessionId(session: Id) returns (admitted: bool)
      requires Valid()
      modifies this
      ensures Valid()
      ensures admitted <==> AdmitProvisional(old(View()), session).Some?
      ensures View() == if admitted then AdmitProvisional(old(View()), session).value else old(View())
    {
      if session in provisional {
        return true;
      }
      var pendingCreates := transport.PendingCreationCount();
      if pendingCreates <= |provisional| {
        return false;
      }
      provisional := provisional + {session};
      admitted := true;
    }

    /** `_handle_direct_state_update` */
    method HandleDirectStateUpdate(n: Notification) returns (discarded: bool)
      requires Valid()
      modifies this
      ensures Valid()
      ensures discarded <==> DiscardStateUpdate(old(View()), n).Some?
      ensures View() == if discarded then DiscardStateUpdate(old(View()), n).value else old(View())
    {
      if n.session.None? || !IsStateKind(n.kind) || (n.session.value in phases && phases[n.session.value].Active?) {
        return false;
      }
      if !n.boundedState {
        return false;
      }
      if n.session.value !in sessions && n.session.value !in responseIds {
        discarded := AdmitProvisionalSessionId(n.session.value);
        return;
      }
      discarded := true;
    }

    /** `_enqueue_direct_update` */
    method EnqueueDirectUpdate(session: Id, entry: Entry, bytes: Option<nat>)
      requires Valid()
      modifies this, transport
      ensures Valid()
      ensures View() == Enqueue(old(View()), session, entry, bytes)
    {
      if session !in budgets || session !in queues || queues[session] !in prompts {
        Fail();
        return;
      }
      if bytes.None? {
        Fail();
        return;
      }
      var budget := budgets[session];
      var queue := prompts[queues[session]];
      var projectedBytes := budget.bytes + bytes.value;
      var projectedCount := budget.count + 1;
      if projectedBytes > budget.byteLimit || projectedCount > budget.countLimit || Full(queue) {
        Fail();
        return;
      }
      budgets := budgets[session := budget.(bytes := projectedBytes, count := projectedCount)];
      prompts := prompts[queues[session] := queue.(entered := queue.entered + [entry])];
    }

    /** `_handle_notification` */
    method HandleNotification(n: Notification)
      requires Valid()
      modifies this, transport
      ensures Valid()
      ensures View() == ReaderModel.HandleNotification(old(View()), n)
    {
      if !n.modelIntact {
        Fail();
        return;
      }
      var discarded := HandleDirectStateUpdate(n);
      if discarded {
        return;
      }
      if n.session.None? || n.session.value !in sessions || n.session.value !in queues
         || n.session.value !in phases || !phases[n.session.value].Active? || n.kind.UnknownKind? || !n.shaped {
        Fail();
        return;
      }
      EnqueueDirectUpdate(n.session.value, Update(n.tag), n.bytes);
    }

    // ----- requests of the child -----

    /** `_observe_agent_request` */
    method ObserveAgentRequest(session: Option<Id>, tag: Id, bytes: nat)
      requires Valid()
      modifies this, transport
      ensures Valid()
      ensures View() == ReaderModel.ObserveAgentRequest(old(View()), session, tag, bytes)
    {
      if session.None? || session.value !in phases || !phases[session.value].Active? {
        Fail();
        return;
      }
      if session.value !in queues {
        Fail();
        return;
      }
      EnqueueDirectUpdate(session.value, CallbackEvidence(tag), Some(bytes));
    }

    /** `_dispatch` of a request from the child. */
    method DispatchRequest(session: Option<Id>, tag: Id, bytes: nat)
      requires Valid()
      modifies this, transport
      ensures Valid()
      ensures View() == ReaderModel.DispatchRequest(old(View()), session, tag, bytes)
    {
      ObserveAgentRequest(session, tag, bytes);
      if transport.failed || session.None? {
        return;
      }
      var added := transport.AddCallback(session.value);
    }

    // ----- responses -----

    /** `_observe_session_new_response` */
    method ObserveSessionNewResponse(answer: Answer)
      requires Valid()
      modifies this, transport
      ensures Valid()
      ensures View() == ObserveCreation(old(View()), answer)
    {
      var pendingCreates := transport.PendingCreationCount();
      if pendingCreates <= 0 {
        Fail();
        return;
      }
      var remainingCreates := pendingCreates - 1;
      if answer.Answered? && answer.session.Some? {
        var session := answer.session.value;
        if session in sessions || session in responseIds {
          Fail();
          return;
        }
        var kept := provisional - {session};
        if |kept| > remainingCreates {
          provisional, responseIds := {}, {};
          Fail();
          return;
        }
        provisional := kept;
        responseIds := responseIds + {session};
        return;
      }
      if answer.Answered? || |provisional| > remainingCreates {
        provisional, responseIds := {}, {};
        Fail();
      }
    }

    /** `_observe_response` of a prompt. */
    method ObservePromptResponse(p: Id)
      requires Valid()
      modifies this, transport
      ensures Valid()
      ensures View() == ObserveTurn(old(View()), p)
    {
      if p !in prompts {
        Fail();
        return;
      }
      var session := prompts[p].session;
      var unsettled := transport.HasPendingIncomingRequests(session);
      if unsettled {
        Fail();
        return;
      }
      if session !in phases || !phases[session].Active? || session !in queues || queues[session] !in prompts {
        Fail();
        return;
      }
      var queue := queues[session];
      var full := Full(prompts[queue]);
      phases := phases[session := Terminal];
      prompts := prompts[p := prompts[p].(epoch := Shut)];
      if full {
        Fail();
        return;
      }
      prompts := prompts[queue := prompts[queue].(entered := prompts[queue].entered + [Marker])];
    }

    /** `_dispatch` of a response. */
    method DispatchResponse(id: Id, answer: Answer)
      requires Valid()
      modifies this, transport
      ensures Valid()
      ensures View() == ReaderModel.DispatchResponse(old(View()), id, answer)
    {
      if id !in transport.pending || id !in transport.requests || !transport.requests[id].future.Waiting? {
        Fail();
        return;
      }
      if id in transport.pendingRequests {
        match transport.pendingRequests[id] {
          case NewSession => ObserveSessionNewResponse(answer);
          case PromptTurn(p) => ObservePromptResponse(p);
          case OtherMethod =>
        }
      }
      if transport.failed || id !in transport.pending || id !in transport.requests ||
        !transport.requests[id].future.Waiting? {
        return;
      }
      transport.Resolve(id, answer);
    }

    // ----- senders and consumers -----

    /** `_observe_request_sent`, once the drain of a request has completed. */
    method RequestSent(id: Id)
      requires Valid() && SenderAt(transport.View(), id, Draining)
      modifies this, transport
      ensures Valid()
      ensures View() == ReaderModel.RequestSent(old(View()), id)
    {
      SenderMovesKeeps(transport.View(), id, AwaitingAnswer);
      var request := transport.requests[id];
      transport.requests := transport.requests[id := request.(sender := AwaitingAnswer)];
      if !request.call.PromptTurn? {
        return;
      }
      var p := request.call.prompt;
      if p !in prompts || prompts[p].session !in phases || !phases[prompts[p].session].Preparing? {
        Fail();
        return;
      }
      phases := phases[prompts[p].session := Active];
      prompts := prompts[p := prompts[p].(epoch := Opened)];
    }

    /** `_bind_provisional_session` */
    method BindProvisionalSession(session: Id) returns (raised: bool)
      requires Valid()
      modifies this, transport
      ensures Valid()
      ensures match BindSession(old(View()), session)
        case Success(bound) => !raised && View() == bound
        case Failure(failed) => raised && View() == failed
    {
      responseIds := responseIds - {session};
      if session in provisional {
        provisional := provisional - {session};
        return false;
      }
      if provisional != {} {
        var pendingCreates := transport.PendingCreationCount();
        if pendingCreates == 0 {
          provisional, responseIds := {}, {};
          Fail();
          return true;
        }
      }
      raised := false;
    }

    /** A sender resumes; for `create_session` this binds and registers the session that was answered. */
    method SenderResumes(id: Id, registers: bool)
      requires Valid() && SenderAt(transport.View(), id, AwaitingAnswer)
      modifies this, transport
      ensures Valid()
      ensures View() == ReaderModel.SenderResumes(old(View()), id, registers)
    {
      SenderMovesKeeps(transport.View(), id, Gone);
      var request := transport.requests[id];
      transport.requests := transport.requests[id := request.(sender := Gone)];
      if !request.call.NewSession? || !request.future.Resolved? || request.future.answer.Errored?
         || request.future.answer.session.None? {
        return;
      }
      var session := request.future.answer.session.value;
      var raised := BindProvisionalSession(session);
      if raised || !registers {
        return;
      }
      sessions := sessions + {session};
      created := created[id := session];
    }

    /** `_prompt_content` up to its first wait. */
    method BeginPrompt(p: Id, session: Id, byteLimit: int, countLimit: int) returns (raised: bool)
      requires Valid() && p !in prompts
      modifies this, transport
      ensures Valid()
      ensures View() == ReaderModel.BeginPrompt(old(View()), p, session, byteLimit, countLimit)
      ensures raised <==> !prompts[p].live
    {
      hide LinkInv, References, ReaderModel.FailClosed;
      prompts := prompts[p := Prompt(session, countLimit, [], 0, Unopened, None, false)];
      queues := queues[session := p];
      if session in phases && !phases[session].Terminal? {
        Fail();
        return true;
      }
      phases := phases[session := Preparing];
      if byteLimit < 1 || countLimit < 1 {
        return true;
      }
      budgets := budgets[session := Budget(0, 0, byteLimit, countLimit)];
      prompts := prompts[p := prompts[p].(live := true)];
      raised := false;
    }

    /** The task of a prompt sends its request. */
    method SendPrompt(p: Id)
      requires Valid() && p in prompts
      modifies this, transport
      ensures Valid()
      ensures View() == SendTurn(old(View()), p)
    {
      var id := transport.SendRequest(PromptTurn(p));
      prompts := prompts[p := prompts[p].(request := Some(id))];
    }

    /** The finally block of `_prompt_content`. */
    method CleanUp(p: Id)
      requires Valid() && p in prompts
      modifies this, transport
      ensures Valid()
      ensures View() == Cleanup(old(View()), p)
    {
      var run := prompts[p];
      queues := queues - {run.session};
      budgets := budgets - {run.session};
      prompts := prompts[p := run.(live := false)];
      if run.request.Some? {
        transport.CancelTask(run.request.value);
      }
    }

    // ----- teardown -----

    /** `_signal_update_queues`: empties every queue and wakes its consumer. */
    method SignalUpdateQueues()
      requires References(View())
      modifies this`prompts
      ensures prompts == ClearClient(old(View()).client).prompts
    {
      hide LinkInv;
      var rest := queues.Keys;
      while rest != {}
        invariant rest <= queues.Keys && prompts.Keys == old(prompts).Keys
        invariant forall p :: p in prompts ==> prompts[p] == SignalledIf(old(prompts)[p],
          old(prompts)[p].session in queues.Keys - rest && queues[old(prompts)[p].session] == p)
        decreases |rest|
      {
        var session :| session in rest;
        rest := rest - {session};
        var p := queues[session];
        assert p in prompts && old(prompts)[p].session == session;
        prompts := prompts[p := SignalledIf(prompts[p], true)];
      }
      AllSignalled(old(View()).client, prompts);
    }

    /** `_clear_client_state` */
    method ClearClientState()
      modifies this
      ensures View() == old(View()).(client := Client({}, {}, {}, map[], map[], map[], old(prompts), old(created)))
    {
      queues, phases, budgets := map[], map[], map[];
      provisional, responseIds, sessions := {}, {}, {};
    }

    /** `abort` up to the await of the teardown. */
    method Abort()
      requires Valid() && References(View())
      modifies this, transport
      ensures Valid()
      ensures View() == Next(old(View()), Event.Abort)
    {
      SignalUpdateQueues();
      ClearClientState();
      Fail();
      transport.closed := true;
    }

    /** `stop` up to the await of the reader. */
    method Stop()
      requires Valid() && References(View())
      modifies this, transport
      ensures Valid()
      ensures View() == Next(old(View()), StopBegins)
    {
      SignalUpdateQueues();
      ClearClientState();
      transport.closed := true;
    }

    /** An event of a prompt: it begins, sends, its consumer pops or its finally block runs. */
    method PromptStep(e: Event)
      requires Valid() && (e.Begin? || e.TurnTaskRuns? || e.Pop? || e.CleanupRuns?)
      modifies this, transport
      ensures View() == Next(old(View()), e)
    {
      hide LinkInv;
      match e {
        case Begin(p, session, byteLimit, countLimit) =>
          var live := exists q :: q in prompts && prompts[q].live && prompts[q].session == session;
          if p !in prompts && !live && session in sessions {
            var raised := BeginPrompt(p, session, byteLimit, countLimit);
          }
        case TurnTaskRuns(p) =>
          if p in prompts && prompts[p].live && prompts[p].request.None? {
            SendPrompt(p);
          }
        case Pop(p) =>
          if p in prompts && prompts[p].live && prompts[p].popped < |prompts[p].entered| {
            prompts := prompts[p := prompts[p].(popped := prompts[p].popped + 1)];
          }
        case CleanupRuns(p) =>
          if p in prompts && prompts[p].live {
            CleanUp(p);
          }
      }
    }

    /** An event of a sender: its request starts, its drain ends, it resumes or is cancelled. */
    method SenderStep(e: Event)
      requires Valid() && (e.CallStarts? || e.DrainCompletes? || e.DrainFails? || e.SenderCancelled? || e.SenderSees?)
      modifies this, transport
      ensures View() == Next(old(View()), e)
    {
      hide LinkInv;
      match e {
        case CallStarts(creation) =>
          var id := transport.SendRequest(if creation then NewSession else OtherMethod);
        case DrainCompletes(id) =>
          if id in transport.requests && transport.requests[id].sender.Draining? {
            RequestSent(id);
          }
        case DrainFails(id) =>
          if id in transport.requests && transport.requests[id].sender.Draining? {
            transport.WriteRaises(id);
          }
        case SenderCancelled(id) =>
          if id in transport.requests && !transport.requests[id].call.PromptTurn? {
            transport.CancelTask(id);
          }
        case SenderSees(id, registers) =>
          if id in transport.requests && transport.requests[id].sender.AwaitingAnswer?
             && !transport.requests[id].future.Waiting? {
            SenderResumes(id, registers);
          }
      }
    }

    /** An event of a callback task, or of the teardown. */
    method OtherStep(e: Event)
      requires Valid() && References(View())
      requires e.CallbackSettles? || e.CallbackReaped? || e.Abort? || e.StopBegins? || e.StopEnds?
      modifies this, transport
      ensures View() == Next(old(View()), e)
    {
      hide LinkInv, References;
      match e {
        case CallbackSettles(t) =>
          if t in transport.callbacks {
            transport.callbacks := transport.callbacks[t := transport.callbacks[t].(done := true)];
          }
        case CallbackReaped(t) =>
          if t in transport.callbacks && transport.callbacks[t].done {
            transport.callbacks := transport.callbacks - {t};
          }
        case Abort => Abort();
        case StopBegins => Stop();
        case StopEnds =>
          if transport.closed {
            transport.FailPending();
          }
      }
    }

    /** `_read_loop`: a line is dispatched unless the reader was stopped. */
    method Read(e: Event)
      requires Valid() && (e.ReadNotification? || e.ReadRequest? || e.ReadResponse? || e.ReadMalformed?)
      modifies this, transport
      ensures View() == Next(old(View()), e)
    {
      if transport.closed {
        return;
      }
      match e {
        case ReadNotification(n) => HandleNotification(n);
        case ReadRequest(session, tag, bytes) => DispatchRequest(session, tag, bytes);
        case ReadResponse(id, answer) => DispatchResponse(id, answer);
        case ReadMalformed => Fail();
      }
    }

    /** One event, done by the objects. */
    method Step(e: Event)
      requires EpochInv(View())
      modifies this, transport
      ensures EpochInv(View())
      ensures View() == Next(old(View()), e)
    {
      EpochNextKeeps(View(), e);
      Sound(View());
      hide EpochInv, LinkInv, References, Next;
      if e.Begin? || e.TurnTaskRuns? || e.Pop? || e.CleanupRuns? {
        PromptStep(e);
      } else if e.CallStarts? || e.DrainCompletes? || e.DrainFails? || e.SenderCancelled? || e.SenderSees? {
        SenderStep(e);
      } else if e.ReadNotification? || e.ReadRequest? || e.ReadResponse? || e.ReadMalformed? {
        Read(e);
      } else {
        OtherStep(e);
      }
    }

    /** Any sequence of events: the objects run as the transition system does. */
    method Drive(events: seq<Event>)
      requires EpochInv(View())
      modifies this, transport
      ensures EpochInv(View())
      ensures View() == Run(old(View()), events)
    {
      hide EpochInv, Next;
      for i := 0 to |events|
        invariant EpochInv(View())
        invariant Run(old(View()), events) == Run(View(), events[i..])
      {
        assert events[i..][0] == events[i] && events[i..][1..] == events[i + 1..];
        Step(events[i]);
      }
    }
  }

  lemma Sound(s: State)
    requires EpochInv(s)
    ensures LinkInv(s.link) && References(s)
  {
  }

  lemma AllSignalled(c: Client, prompts: map<Id, Prompt>)
    requires prompts.Keys == c.prompts.Keys
    requires forall p :: p in prompts ==> prompts[p] == SignalledIf(c.prompts[p],
      c.prompts[p].session in c.queues && c.queues[c.prompts[p].session] == p)
    ensures prompts == ClearClient(c).prompts
  {
    forall p | p in prompts ensures p in ClearClient(c).prompts && prompts[p] == ClearClient(c).prompts[p] {
    }
  }

  /** A prompt whose queue was emptied and given a wake-up. */
  function SignalledIf(run: Prompt, signalled: bool): Prompt {
    if signalled then run.(popped := |run.entered|, entered := run.entered + [Wake]) else run
  }
}
