/** The objects that the service updates in place (`direct_state.py`, `_GenerationState`). */
module DirectObjects {
  import opened Wrappers
  import opened DirectProtocol
  import opened DirectState
  import opened ServiceModel

  /** How the loss of the generation leaves the sessions, and the records whose settlement is not deferred. */
  function LostSessions(sessions: map<Id, Session>): map<Id, Session> {
    map sid | sid in sessions :: LostSession(sessions[sid])
  }

  function LostRecords(records: map<Id, Record>, defer: set<Id>): map<Id, Record> {
    map op | op in records :: LostRecord(records[op], op in defer)
  }

  /** What cancelling leaves of the execution tasks other than the current one, and of the collectors. */
  function CancelledTasks(tasks: map<Id, Task>, records: map<Id, Record>, current: Option<Id>): map<Id, Task> {
    map op | op in tasks :: if Some(op) == current then tasks[op]
      else CancelledTask(tasks[op], op in records && HasFinally(records[op]))
  }

  predicate HasFinally(r: Record) {
    r.identity.kind.PromptKind? && r.identity.request.Prompt?
  }

  function CutCollectors(collectors: map<Id, Collector>, registered: set<Id>): map<Id, Collector> {
    map op | op in collectors :: if op in registered && collectors[op].Live? then Live(true) else collectors[op]
  }

  /** The loss of the generation, part by part. */
  lemma MarkLostParts(s: State, current: Option<Id>, defer: set<Id>)
    requires !s.quarantined
    ensures MarkLost(s, current, defer) == s.(
      quarantined := true, generation := s.generation + 1, lostBy := current, registered := {},
      sessions := LostSessions(s.sessions), records := LostRecords(s.records, defer),
      tasks := CancelledTasks(s.tasks, s.records, current), collectors := CutCollectors(s.collectors, s.registered))
  {
  }

  class OperationRecord {
    const operationId: Id
    const identity: Identity
    var state: OperationState
    var result: Option<Report>
    var error: Option<ErrorCode>

    constructor (operationId: Id, identity: Identity)
      ensures this.operationId == operationId && View() == NewRecord(identity)
    {
      this.operationId, this.identity := operationId, identity;
      state, result, error := Accepted, None, None;
    }

    function View(): Record
      reads this
    {
      Record(identity, state, result, error)
    }

    /** `set_terminal`: raises on a state that is not terminal, and does nothing after the first settlement. */
    method SetTerminal(state: OperationState, result: Option<Report>, error: Option<ErrorCode>) returns (raised: bool)
      modifies this
      ensures raised <==> !state.Terminal()
      ensures View() == if raised then old(View()) else Settled(old(View()), state, result, error)
    {
      if !state.Terminal() {
        return true;
      }
      raised := false;
      if this.state.Terminal() {
        return;
      }
      this.state, this.result, this.error := state, result, error;
    }
  }

  class DirectSession {
    const sessionId: Id
    const modelId: Id
    const stableDigest: Digest
    var backend: Option<Id>
    var state: SessionState
    var active: Option<Id>
    var stableSubmitted: bool
    var activeInvocation: Option<Id>
    var contracts: map<Id, Digest>

    constructor (sessionId: Id, modelId: Id, stableDigest: Digest)
      ensures this.sessionId == sessionId && View() == NewSession(modelId, stableDigest)
    {
      this.sessionId, this.modelId, this.stableDigest := sessionId, modelId, stableDigest;
      backend, state, active := None, SessionState.Creating, None;
      stableSubmitted, activeInvocation, contracts := false, None, map[];
    }

    function View(): Session
      reads this
    {
      Session(backend, modelId, stableDigest, state, active, stableSubmitted, activeInvocation, contracts)
    }

    /** The session has its backend session and may be used. */
    method Open(backend: Id)
      modifies this
      ensures View() == old(View()).(backend := Some(backend), state := Ready)
    {
      this.backend := Some(backend);
      state := Ready;
    }

    /** A prompt has completed: its instructions and its output contract are submitted. */
    method Complete(body: PromptRequest)
      modifies this
      ensures View() == Completing(old(View()), body)
    {
      if body.phase.Initial? {
        stableSubmitted := true;
      }
      if body.outputContract.Some? {
        contracts := contracts[body.invocationId := Sha256(body.outputContract.value)];
      }
      activeInvocation := Some(body.invocationId);
      state := Ready;
    }

    /** A prompt was admitted. */
    method Occupy(op: Id)
      modifies this
      ensures View() == old(View()).(active := Some(op), state := Busy)
    {
      active := Some(op);
      state := Busy;
    }

    /** A prompt was cancelled before its dispatch. */
    method Vacate()
      modifies this
      ensures View() == old(View()).(active := None, state := Ready)
    {
      active := None;
      state := Ready;
    }

    /** The generation was lost; a retired session stays retired. */
    method Lose()
      modifies this
      ensures View() == LostSession(old(View()))
    {
      if !state.Retired? {
        state := Lost;
      }
    }

    /** The session part of the finally block of `_execute_prompt`. */
    method Idle(op: Id, outcome: OperationState, quarantined: bool)
      modifies this
      ensures View() == AfterFinally(old(View()), op, outcome, quarantined)
    {
      if active == Some(op) {
        active := None;
      }
      if quarantined {
        state := Lost;
      } else if outcome.Cancelled? || outcome.TimedOut? || outcome.InDoubt? {
        state := NonReusable;
      }
    }
  }

  class DirectLedger {
    const capacity: nat
    var records: map<Id, OperationRecord>

    constructor (capacity: nat)
      ensures this.capacity == capacity && records == map[] && Valid()
    {
      this.capacity, records := capacity, map[];
    }

    /** Every record is filed under its own ID, so no two IDs share a record. */
    ghost predicate Valid()
      reads this
    {
      forall op :: op in records ==> records[op].operationId == op
    }

    ghost function Objects(): set<object>
      reads this
    {
      set op | op in records :: records[op]
    }

    ghost function View(): (m: map<Id, Record>)
      reads this, Objects()
      ensures m.Keys == records.Keys
    {
      map op | op in records :: records[op].View()
    }

    /** `admit`: the record of a repeated operation, a new record, or a refusal that changes nothing. */
    method Admit(op: Id, identity: Identity) returns (r: Result<(OperationRecord, bool), DirectError>)
      requires Valid()
      modifies this
      ensures Valid()
      ensures match LedgerAdmit(old(View()), capacity, op, identity)
        case Failure(e) => r == Failure(e) && records == old(records)
        case Success(created) =>
          && r.Success? && r.value.1 == created
          && op in records && r.value.0 == records[op]
          && (created ==> fresh(r.value.0) && r.value.0.View() == NewRecord(identity))
          && (created ==> records == old(records)[op := r.value.0])
          && (!created ==> records == old(records))
    {
      assert |View()| == |records| by { assert |View().Keys| == |records.Keys|; }
      if op in records {
        var existing := records[op];
        if existing.identity != identity {
          return Failure(Conflict);
        }
        return Success((existing, false));
      }
      if |records| >= capacity {
        return Failure(LimitExceeded);
      }
      var record := new OperationRecord(op, identity);
      records := records[op := record];
      return Success((record, true));
    }

    /** Every record whose settlement is not deferred becomes in doubt, unless it has settled. */
    method SettleAll(defer: set<Id>)
      requires Valid()
      modifies Objects()
      ensures View() == LostRecords(old(View()), defer)
    {
      var rest := records.Keys;
      while rest != {}
        invariant rest <= records.Keys
        invariant forall op :: op in rest || (op in records && op in defer) ==>
          records[op].View() == old(records[op].View())
        invariant forall op :: op in records.Keys - rest - defer ==>
          records[op].View() == LostRecord(old(records[op].View()), false)
        decreases |rest|
      {
        var op :| op in rest;
        rest := rest - {op};
        var record := records[op];
        if op !in defer && !record.state.Terminal() {
          var raised := record.SetTerminal(InDoubt, None, Some(ContinuityLost));
        }
      }
      SameView(View(), LostRecords(old(View()), defer));
    }
  }

  lemma SameView<V>(a: map<Id, V>, b: map<Id, V>)
    requires a.Keys == b.Keys && forall k :: k in a ==> a[k] == b[k]
    ensures a == b
  {
  }

  /** One continuity generation: everything that is replaced together. */
  class Generation {
    const id: Id
    const ledger: DirectLedger
    var sessions: map<Id, DirectSession>
    var lock: Option<Id>
    var reservations: int
    var released: set<Id>
    var registered: set<Id>          // keys of collector_tasks
    var tasks: map<Id, Task>         // where each execution task stands
    var collectors: map<Id, Collector>
    var quarantined: bool

    constructor (id: Id, maxOperations: nat)
      ensures this.id == id && fresh(ledger) && ledger.capacity == maxOperations && ledger.records == map[]
      ensures sessions == map[] && lock == None && reservations == 0 && released == {} && registered == {}
      ensures tasks == map[] && collectors == map[] && !quarantined && Valid()
    {
      this.id := id;
      ledger := new DirectLedger(maxOperations);
      sessions, lock, reservations, released, registered := map[], None, 0, {}, {};
      tasks, collectors, quarantined := map[], map[], false;
    }

    ghost predicate Valid()
      reads this, ledger
    {
      && ledger.Valid()
      && forall sid :: sid in sessions ==> sessions[sid].sessionId == sid
    }

    ghost function SessionObjects(): set<object>
      reads this`sessions
    {
      set sid | sid in sessions :: sessions[sid]
    }

    ghost function SessionsView(): (m: map<Id, Session>)
      reads this`sessions, SessionObjects()
      ensures m.Keys == sessions.Keys
    {
      map sid | sid in sessions :: sessions[sid].View()
    }

    /** A collector starts for the prompt that takes the lock. */
    method StartCollector(op: Id)
      modifies `lock, `collectors, `registered, `tasks
      ensures lock == Some(op) && collectors == old(collectors)[op := Live(false)]
      ensures registered == old(registered) + {op} && tasks == old(tasks)[op := AwaitingCollector]
    {
      lock := Some(op);
      collectors := collectors[op := Live(false)];
      registered := registered + {op};
      tasks := tasks[op := AwaitingCollector];
    }

    /** Cancels every task but the current one, and every registered collector. */
    method CancelTasks(current: Option<Id>)
      requires Valid()
      modifies `tasks, `collectors, `registered
      ensures tasks == CancelledTasks(old(tasks), ledger.View(), current)
      ensures collectors == CutCollectors(old(collectors), old(registered)) && registered == {}
    {
      tasks := map op | op in tasks ::
        if Some(op) == current then tasks[op]
        else CancelledTask(tasks[op], op in ledger.records && HasFinally(ledger.records[op].View()));
      collectors := map op | op in collectors ::
        if op in registered && collectors[op].Live? then Live(true) else collectors[op];
      registered := {};
    }

    /** Every session that is not retired is lost. */
    method LoseSessions()
      requires Valid()
      modifies SessionObjects()
      ensures SessionsView() == LostSessions(old(SessionsView()))
    {
      var rest := sessions.Keys;
      while rest != {}
        invariant rest <= sessions.Keys
        invariant forall sid :: sid in rest ==> sessions[sid].View() == old(sessions[sid].View())
        invariant forall sid :: sid in sessions.Keys - rest ==>
          sessions[sid].View() == LostSession(old(sessions[sid].View()))
        decreases |rest|
      {
        var sid :| sid in rest;
        rest := rest - {sid};
        sessions[sid].Lose();
      }
      SameView(SessionsView(), LostSessions(old(SessionsView())));
    }

    /** `_release_prompt_reservation` */
    method ReleasePromptReservation(op: Id) returns (underflow: bool)
      modifies this`reservations, this`released
      ensures released == old(released) + {op}
      ensures reservations == if op in old(released) then old(reservations) else old(reservations) - 1
      ensures underflow <==> op !in old(released) && old(reservations) <= 0
    {
      if op in released {
        assert released + {op} == released;
        return false;
      }
      released := released + {op};
      reservations := reservations - 1;
      underflow := reservations < 0;
    }
  }
}
