/**
 The reader side of the direct client (`transport.py`, direct mode of `client.py`)
 as a transition system over values.

 One event is one stretch of code between two awaits: a line dispatched by the
 reader, a request that starts, a drain that completes, a task that resumes or is
 cancelled. What the child writes and how tasks interleave is chosen by the
 environment. A state is one start of the child; response correlation is strict.
 */
module ReaderModel {
  import opened Wrappers

  type Id = nat

  // ----- the transport -----

  datatype Method = NewSession | PromptTurn(prompt: Id) | OtherMethod

  /** A strict response: a result, with the session ID it may carry, or an error object. */
  datatype Answer = Answered(session: Option<Id>) | Errored

  datatype Future = Waiting | Resolved(answer: Answer) | Dropped | Withdrawn

  /** Where the coroutine that sent a request stands. */
  datatype Sender = Draining | AwaitingAnswer | Gone

  datatype Request = Request(call: Method, sender: Sender, future: Future)

  datatype Callback = Callback(session: Id, done: bool)

  datatype Link = Link(
    nextId: Id,
    requests: map<Id, Request>,          // every request ever started, with its future
    pending: set<Id>,                    // keys of _pending
    pendingRequests: map<Id, Method>,    // _pending_requests
    callbacks: map<Id, Callback>,        // _incoming_request_tasks
    nextCallback: Id,
    closed: bool,
    failed: bool,
    closeCalls: nat)                     // how often the close handler was called

  const MAX_INCOMING_REQUEST_TASKS: nat := 64

  predicate IsOpen(l: Link) {
    !l.closed && !l.failed
  }

  predicate Pends(l: Link, id: Id) {
    id in l.pending && id in l.requests && l.requests[id].future.Waiting?
  }

  /** `_fail_pending` */
  function FailPending(l: Link): Link {
    l.(requests := map id | id in l.requests ::
         if Pends(l, id) then l.requests[id].(future := Dropped) else l.requests[id],
       pending := {},
       pendingRequests := map[])
  }

  /** `fail_closed` */
  function FailClosed(l: Link): Link {
    if !IsOpen(l) then l else FailPending(l.(failed := true)).(closeCalls := l.closeCalls + 1)
  }

  /** `send_request` up to the drain; a closed transport refuses the write at once. */
  function StartRequest(l: Link, m: Method): Link {
    var id := l.nextId;
    if IsOpen(l) then
      l.(nextId := id + 1,
         requests := l.requests[id := Request(m, Draining, Waiting)],
         pending := l.pending + {id},
         pendingRequests := l.pendingRequests[id := m])
    else
      l.(nextId := id + 1, requests := l.requests[id := Request(m, Gone, Withdrawn)])
  }

  function Forget(l: Link, id: Id): Link {
    l.(pending := l.pending - {id}, pendingRequests := l.pendingRequests - {id})
  }

  /** The future of a pending request gets its answer. */
  function Resolve(l: Link, id: Id, a: Answer): Link
    requires id in l.requests
  {
    Forget(l, id).(requests := l.requests[id := l.requests[id].(future := Resolved(a))])
  }

  predicate SenderAt(l: Link, id: Id, w: Sender) {
    id in l.requests && l.requests[id].sender == w
  }

  function WithdrawFuture(f: Future): Future {
    if f.Waiting? then Withdrawn else f
  }

  /** The write raised while draining. */
  function DrainRaises(l: Link, id: Id): Link
    requires SenderAt(l, id, Draining)
  {
    var r := l.requests[id];
    Forget(l, id).(requests := l.requests[id := r.(sender := Gone, future := WithdrawFuture(r.future))])
  }

  /** The sending task is cancelled: awaiting the answer this withdraws the future, and the request stays pending. */
  function CancelSender(l: Link, id: Id): Link {
    if id !in l.requests || l.requests[id].sender.Gone? then l else
    var r := l.requests[id];
    l.(requests := l.requests[id :=
      r.(sender := Gone, future := if r.sender.AwaitingAnswer? then WithdrawFuture(r.future) else r.future)])
  }

  /** `pending_request_count("session/new")` */
  function PendingCreations(l: Link): nat {
    |Creations(l)|
  }

  function Creations(l: Link): set<Id> {
    set id | id in l.pendingRequests && l.pendingRequests[id].NewSession?
  }

  /** `has_pending_incoming_requests` */
  predicate CallbackUnsettled(l: Link, sid: Id) {
    exists t :: t in l.callbacks && l.callbacks[t].session == sid && !l.callbacks[t].done
  }

  // ----- the client -----

  datatype Phase = Preparing | Active | Terminal

  /** What the reader puts into a prompt's queue. */
  datatype Entry =
    | Update(tag: Id)
    | CallbackEvidence(tag: Id)
    | Marker                     // the prompt's terminal marker
    | Wake                       // teardown wakes the consumer

  /** How far the update epoch of a prompt is: its request is not on the wire, is, or has been answered. */
  datatype Epoch = Unopened | Opened | Shut

  /** One run of `_prompt_content`: its queue is what entered it less what the consumer has popped. */
  datatype Prompt = Prompt(
    session: Id,
    countLimit: int,
    entered: seq<Entry>,
    popped: nat,
    epoch: Epoch,
    request: Option<Id>,
    live: bool)                  // its finally block has not run

  datatype Budget = Budget(bytes: int, count: int, byteLimit: int, countLimit: int)

  datatype Client = Client(
    sessions: set<Id>,
    provisional: set<Id>,
    responseIds: set<Id>,
    phases: map<Id, Phase>,
    queues: map<Id, Id>,         // the prompt whose queue a session uses
    budgets: map<Id, Budget>,
    prompts: map<Id, Prompt>,
    created: map<Id, Id>)        // what each successful session/new call returned

  datatype State = State(link: Link, client: Client)

  function Start(): State {
    State(Link(1, map[], {}, map[], map[], 0, false, false, 0),
      Client({}, {}, {}, map[], map[], map[], map[], map[]))
  }

  function Fail(s: State): State {
    s.(link := FailClosed(s.link))
  }

  predicate PhaseIs(c: Client, sid: Id, phase: Phase) {
    sid in c.phases && c.phases[sid] == phase
  }

  predicate Queued(c: Client, sid: Id) {
    sid in c.queues && c.queues[sid] in c.prompts
  }

  function QueueOf(c: Client, sid: Id): Prompt
    requires Queued(c, sid)
  {
    c.prompts[c.queues[sid]]
  }

  /** `queue.full()`; a bound that is not positive is no bound. */
  predicate Full(p: Prompt) {
    p.countLimit + 1 > 0 && |p.entered| - p.popped >= p.countLimit + 1
  }

  function Put(c: Client, sid: Id, entry: Entry): Client
    requires Queued(c, sid)
  {
    c.(prompts := c.prompts[c.queues[sid] := QueueOf(c, sid).(entered := QueueOf(c, sid).entered + [entry])])
  }

  /** `_enqueue_direct_update`; `bytes` is the encoded size, if the update can be encoded. */
  function Enqueue(s: State, sid: Id, entry: Entry, bytes: Option<nat>): State {
    var c := s.client;
    if sid !in c.budgets || !Queued(c, sid) || bytes.None? then Fail(s)
    else
      var b := c.budgets[sid];
      if b.bytes + bytes.value > b.byteLimit || b.count + 1 > b.countLimit || Full(QueueOf(c, sid)) then Fail(s)
      else
        s.(client := Put(c, sid, entry).(budgets := c.budgets[sid :=
          b.(bytes := b.bytes + bytes.value, count := b.count + 1)]))
  }

  // ----- lines from the child -----

  /** The kinds of session updates, and whether the payload has the shape that its kind needs. */
  datatype Kind =
    | AgentMessageChunk | AgentThoughtChunk | UserMessageChunk
    | ToolCall | ToolCallUpdate | Plan
    | AvailableCommandsUpdate | CurrentModeUpdate | ConfigOptionUpdate | UsageUpdate | SessionInfoUpdate
    | UnknownKind

  /** `_DIRECT_SESSION_STATE_UPDATE_TYPES` */
  predicate IsStateKind(k: Kind) {
    k.AvailableCommandsUpdate? || k.CurrentModeUpdate? || k.ConfigOptionUpdate? || k.UsageUpdate? ||
      k.SessionInfoUpdate?
  }

  /**
   A notification: its session and update if it is a session/update that has them, whether the selected
   model is intact, and what the payload checks of the two validators say.
   */
  datatype Notification = Notification(
    session: Option<Id>,
    kind: Kind,
    tag: Id,
    bytes: Option<nat>,
    modelIntact: bool,
    boundedState: bool,
    shaped: bool)

  /** `_admit_provisional_session_id` */
  function AdmitProvisional(s: State, sid: Id): Option<State> {
    if sid in s.client.provisional then Some(s)
    else if PendingCreations(s.link) <= |s.client.provisional| then None
    else Some(s.(client := s.client.(provisional := s.client.provisional + {sid})))
  }

  /** `_handle_direct_state_update`: the state if the update is discarded as session state. */
  function DiscardStateUpdate(s: State, n: Notification): Option<State> {
    if n.session.None? || !IsStateKind(n.kind) || PhaseIs(s.client, n.session.value, Active) || !n.boundedState
      then None
    else if n.session.value in s.client.sessions || n.session.value in s.client.responseIds then Some(s)
    else AdmitProvisional(s, n.session.value)
  }

  /** `_is_valid_direct_session_update` */
  predicate ValidUpdate(c: Client, n: Notification) {
    && n.session.Some?
    && n.session.value in c.sessions
    && n.session.value in c.queues
    && PhaseIs(c, n.session.value, Active)
    && !n.kind.UnknownKind?
    && n.shaped
  }

  /** `_handle_notification` */
  function HandleNotification(s: State, n: Notification): State {
    if !n.modelIntact then Fail(s)
    else if DiscardStateUpdate(s, n).Some? then DiscardStateUpdate(s, n).value
    else if !ValidUpdate(s.client, n) then Fail(s)
    else Enqueue(s, n.session.value, Update(n.tag), n.bytes)
  }

  /** `_observe_agent_request`; a request without a session cannot be correlated. */
  function ObserveAgentRequest(s: State, session: Option<Id>, tag: Id, bytes: nat): State {
    if session.None? || !PhaseIs(s.client, session.value, Active) || session.value !in s.client.queues then Fail(s)
    else Enqueue(s, session.value, CallbackEvidence(tag), Some(bytes))
  }

  /** `_dispatch` of a request from the child. */
  function DispatchRequest(s: State, session: Option<Id>, tag: Id, bytes: nat): State {
    var t := ObserveAgentRequest(s, session, tag, bytes);
    if t.link.failed || session.None? then t
    else if |t.link.callbacks| >= MAX_INCOMING_REQUEST_TASKS then Fail(t)
    else
      t.(link := t.link.(nextCallback := t.link.nextCallback + 1,
                         callbacks := t.link.callbacks[t.link.nextCallback := Callback(session.value, false)]))
  }

  function ClearIds(c: Client): Client {
    c.(provisional := {}, responseIds := {})
  }

  /** `_observe_session_new_response` */
  function ObserveCreation(s: State, a: Answer): State {
    var pendingCreates := PendingCreations(s.link);
    var c := s.client;
    if pendingCreates <= 0 then Fail(s)
    else if a.Answered? && a.session.Some? then
      var sid := a.session.value;
      if sid in c.sessions || sid in c.responseIds then Fail(s)
      else
        var provisional := c.provisional - {sid};
        if |provisional| > pendingCreates - 1 then Fail(s.(client := ClearIds(c)))
        else s.(client := c.(provisional := provisional, responseIds := c.responseIds + {sid}))
    else if a.Answered? then
      Fail(s.(client := ClearIds(c)))
    else if |c.provisional| > pendingCreates - 1 then
      Fail(s.(client := ClearIds(c)))
    else
      s
  }

  /** `_observe_response` of a prompt. */
  function ObserveTurn(s: State, p: Id): State {
    var c := s.client;
    if p !in c.prompts then Fail(s) else
    var sid := c.prompts[p].session;
    if CallbackUnsettled(s.link, sid) then Fail(s)
    else if !PhaseIs(c, sid, Active) || !Queued(c, sid) then Fail(s)
    else
      var shut := c.(phases := c.phases[sid := Terminal], prompts := c.prompts[p := c.prompts[p].(epoch := Shut)]);
      if Full(QueueOf(c, sid)) then Fail(s.(client := shut)) else s.(client := Put(shut, sid, Marker))
  }

  /** `_dispatch` of a response. */
  function DispatchResponse(s: State, id: Id, a: Answer): State {
    if !Pends(s.link, id) then Fail(s)
    else
      var t := if id !in s.link.pendingRequests then s else
        match s.link.pendingRequests[id]
        case NewSession => ObserveCreation(s, a)
        case PromptTurn(p) => ObserveTurn(s, p)
        case OtherMethod => s;
      if t.link.failed || !Pends(t.link, id) then t
      else
        t.(link := Resolve(t.link, id, a))
  }

  // ----- tasks -----

  predicate LiveOn(c: Client, sid: Id) {
    exists p :: p in c.prompts && c.prompts[p].live && c.prompts[p].session == sid
  }

  /** `_prompt_content` up to its first wait. */
  function BeginPrompt(s: State, p: Id, sid: Id, byteLimit: int, countLimit: int): State {
    var c := s.client;
    var run := Prompt(sid, countLimit, [], 0, Unopened, None, false);
    var queued := c.(prompts := c.prompts[p := run], queues := c.queues[sid := p]);
    if sid in c.phases && !c.phases[sid].Terminal? then Fail(s.(client := queued))
    else
      var preparing := queued.(phases := c.phases[sid := Preparing]);
      if byteLimit < 1 || countLimit < 1 then s.(client := preparing)
      else
        s.(client := preparing.(prompts := c.prompts[p := run.(live := true)],
                                budgets := c.budgets[sid := Budget(0, 0, byteLimit, countLimit)]))
  }

  /** The task of a prompt sends its request. */
  function SendTurn(s: State, p: Id): State
    requires p in s.client.prompts
  {
    State(StartRequest(s.link, PromptTurn(p)),
          s.client.(prompts := s.client.prompts[p := s.client.prompts[p].(request := Some(s.link.nextId))]))
  }

  /** The drain of a request completes: `_observe_request_sent`. */
  function RequestSent(s: State, id: Id): State
    requires SenderAt(s.link, id, Draining)
  {
    var r := s.link.requests[id];
    var t := s.(link := s.link.(requests := s.link.requests[id := r.(sender := AwaitingAnswer)]));
    var c := t.client;
    if !r.call.PromptTurn? then t
    else if r.call.prompt !in c.prompts || !PhaseIs(c, c.prompts[r.call.prompt].session, Preparing) then Fail(t)
    else
      var p := r.call.prompt;
      t.(client := c.(phases := c.phases[c.prompts[p].session := Active],
                      prompts := c.prompts[p := c.prompts[p].(epoch := Opened)]))
  }

  /** `_bind_provisional_session`; failing, it raises. */
  function BindSession(s: State, sid: Id): Result<State, State> {
    var c := s.client.(responseIds := s.client.responseIds - {sid});
    if sid in c.provisional then Success(s.(client := c.(provisional := c.provisional - {sid})))
    else if c.provisional != {} && PendingCreations(s.link) == 0 then Failure(Fail(s.(client := ClearIds(c))))
    else Success(s.(client := c))
  }

  /** The sender resumes with its settled future; a creation registers its session unless its result breaks that off. */
  function SenderResumes(s: State, id: Id, registers: bool): State
    requires SenderAt(s.link, id, AwaitingAnswer)
  {
    var r := s.link.requests[id];
    var t := s.(link := s.link.(requests := s.link.requests[id := r.(sender := Gone)]));
    if !r.call.NewSession? || !r.future.Resolved? || r.future.answer.Errored? || r.future.answer.session.None? then t
    else
      var sid := r.future.answer.session.value;
      match BindSession(t, sid)
      case Failure(u) => u
      case Success(u) =>
        if !registers then u
        else u.(client := u.client.(sessions := u.client.sessions + {sid}, created := u.client.created[id := sid]))
  }

  /** The finally block of `_prompt_content`. */
  function Cleanup(s: State, p: Id): State
    requires p in s.client.prompts
  {
    var c := s.client;
    var run := c.prompts[p];
    State(if run.request.Some? then CancelSender(s.link, run.request.value) else s.link,
          c.(prompts := c.prompts[p := run.(live := false)],
             queues := c.queues - {run.session},
             budgets := c.budgets - {run.session}))
  }

  /** `_signal_update_queues` and `_clear_client_state` */
  function ClearClient(c: Client): Client {
    Client({}, {}, {}, map[], map[], map[],
           map p | p in c.prompts ::
             if c.prompts[p].session in c.queues && c.queues[c.prompts[p].session] == p
             then c.prompts[p].(popped := |c.prompts[p].entered|, entered := c.prompts[p].entered + [Wake])
             else c.prompts[p],
           c.created)
  }

  // ----- events -----

  datatype Event =
    | Begin(prompt: Id, session: Id, byteLimit: int, countLimit: int)
    | TurnTaskRuns(prompt: Id)
    | CallStarts(creation: bool)                        // session/new, or any other call
    | DrainCompletes(id: Id)
    | DrainFails(id: Id)
    | SenderCancelled(id: Id)
    | SenderSees(id: Id, registers: bool)
    | Pop(prompt: Id)
    | CleanupRuns(prompt: Id)
    | ReadNotification(n: Notification)
    | ReadRequest(caller: Option<Id>, tag: Id, bytes: nat)
    | ReadResponse(id: Id, answer: Answer)
    | ReadMalformed                                      // no valid strict envelope, or the end of the stream
    | CallbackSettles(task: Id)
    | CallbackReaped(task: Id)
    | Abort
    | StopBegins
    | StopEnds

  /** The state after an event; an event that cannot happen now changes nothing. */
  function Next(s: State, e: Event): State {
    var l, c := s.link, s.client;
    match e
    case Begin(p, sid, byteLimit, countLimit) =>
      if p in c.prompts || LiveOn(c, sid) || sid !in c.sessions then s
        else BeginPrompt(s, p, sid, byteLimit, countLimit)
    case TurnTaskRuns(p) =>
      if p in c.prompts && c.prompts[p].live && c.prompts[p].request.None? then SendTurn(s, p) else s
    case CallStarts(creation) => s.(link := StartRequest(l, if creation then NewSession else OtherMethod))
    case DrainCompletes(id) => if SenderAt(l, id, Draining) then RequestSent(s, id) else s
    case DrainFails(id) => if SenderAt(l, id, Draining) then s.(link := DrainRaises(l, id)) else s
    case SenderCancelled(id) =>
      if id in l.requests && !l.requests[id].call.PromptTurn? then s.(link := CancelSender(l, id)) else s
    case SenderSees(id, registers) =>
      if SenderAt(l, id, AwaitingAnswer) && !l.requests[id].future.Waiting? then SenderResumes(s, id, registers) else s
    case Pop(p) =>
      if p in c.prompts && c.prompts[p].live && c.prompts[p].popped < |c.prompts[p].entered| then
        s.(client := c.(prompts := c.prompts[p := c.prompts[p].(popped := c.prompts[p].popped + 1)]))
      else s
    case CleanupRuns(p) => if p in c.prompts && c.prompts[p].live then Cleanup(s, p) else s
    case ReadNotification(n) => if l.closed then s else HandleNotification(s, n)
    case ReadRequest(session, tag, bytes) => if l.closed then s else DispatchRequest(s, session, tag, bytes)
    case ReadResponse(id, a) => if l.closed then s else DispatchResponse(s, id, a)
    case ReadMalformed => Fail(s)
    case CallbackSettles(t) =>
      if t in l.callbacks then s.(link := l.(callbacks := l.callbacks[t := l.callbacks[t].(done := true)])) else s
    case CallbackReaped(t) =>
      if t in l.callbacks && l.callbacks[t].done then s.(link := l.(callbacks := l.callbacks - {t})) else s
    case Abort => State(FailClosed(l).(closed := true), ClearClient(c))
    case StopBegins => State(l.(closed := true), ClearClient(c))
    case StopEnds => if l.closed then s.(link := FailPending(l)) else s
  }

  function Run(s: State, events: seq<Event>): State
    decreases |events|
  {
    if events == [] then s else Run(Next(s, events[0]), events[1..])
  }

  // ----- the wire, in the order of reading and sending -----

  datatype Wire =
    | PromptSent(prompt: Id)
    | LineFor(session: Id, entry: Entry)       // an update, or the evidence of a callback
    | PromptAnswered(prompt: Id)

  /** What an event puts on the wire or reads from it. */
  function WireOf(s: State, e: Event): Option<Wire> {
    match e
    case DrainCompletes(id) =>
      if SenderAt(s.link, id, Draining) && s.link.requests[id].call.PromptTurn?
      then Some(PromptSent(s.link.requests[id].call.prompt)) else None
    case ReadNotification(n) => if n.session.Some? then Some(LineFor(n.session.value, Update(n.tag))) else None
    case ReadRequest(session, tag, _) => if session.Some? then Some(LineFor(session.value, CallbackEvidence(tag)))
      else None
    case ReadResponse(id, _) =>
      if id in s.link.requests && s.link.requests[id].call.PromptTurn?
      then Some(PromptAnswered(s.link.requests[id].call.prompt)) else None
    case _ => None
  }

  /**
   Where the wire stands for one prompt: whether it was sent and answered, and what arrived for its
   session between.
   */
  datatype Frame = Frame(epoch: Epoch, entries: seq<Entry>)

  function Framed(f: Frame, w: Wire, p: Id, sid: Id): Frame {
    match w
    case PromptSent(q) => if q == p && f.epoch.Unopened? then Frame(Opened, []) else f
    case LineFor(t, entry) => if t == sid && f.epoch.Opened? then f.(entries := f.entries + [entry]) else f
    case PromptAnswered(q) => if q == p && f.epoch.Opened? then Frame(Shut, f.entries + [Marker]) else f
  }

  function FrameStep(s: State, e: Event, f: Frame, p: Id, sid: Id): Frame {
    var w := WireOf(s, e);
    if w.Some? then Framed(f, w.value, p, sid) else f
  }

  /** The frame of a prompt after a run that starts in `s`. */
  function FrameAfter(s: State, events: seq<Event>, f: Frame, p: Id, sid: Id): Frame
    decreases |events|
  {
    if events == [] then f
    else FrameAfter(Next(s, events[0]), events[1..], FrameStep(s, events[0], f, p, sid), p, sid)
  }
}
