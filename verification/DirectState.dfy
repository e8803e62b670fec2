/** Operation and session records as values (`direct_state.py`). */
module DirectState {
  import opened Wrappers
  import opened DirectProtocol

  datatype OperationKind = CreateKind | PromptKind | CancelKind | RetireKind

  datatype OperationState =
    | Accepted | Queued | Running | Cancelling
    | Completed | Failed | Cancelled | TimedOut | InDoubt
  {
    predicate Terminal() {
      Completed? || Failed? || Cancelled? || TimedOut? || InDoubt?
    }

    /** How far an operation has come; every terminal state is the last stage. */
    function Stage(): nat {
      match this
      case Accepted => 0
      case Queued => 1
      case Running => 2
      case Cancelling => 3
      case _ => 4
    }
  }

  datatype SessionState = Creating | Ready | Busy | NonReusable | Lost | Retired

  datatype StopReason = EndTurn | MaxTokens | MaxTurnRequests | Refusal | StopCancelled

  /** What a settled operation reports when it has a result. */
  datatype Report =
    | SessionCreated(backend: Id, model: Id)
    | PromptDone(stop: StopReason)
    | CancelledPreDispatch
    | RetainedEvidence
    | CancelReport(targetState: OperationState, cancelSent: bool)
    | SessionRetired(retired: Option<Id>)

  /** The error codes an operation can settle with. */
  datatype ErrorCode =
    | SessionCreationInDoubt
    | SessionConfigurationFailed
    | CancellationStopMismatch
    | EvidenceLimit
    | EvidenceLimitInDoubt
    | PromptInDoubt
    | DeadlineSettlementUnknown
    | ExecutionDeadline
    | DeadlineStopMismatch
    | CancellationSettlementUnknown
    | CancelTransportFailed
    | CancelFailed
    | ContinuityLost

  /** The exception classes of the direct protocol. */
  datatype DirectError = GenerationMismatch | WorkspaceMismatch | Conflict | NotFound | LimitExceeded | SessionBusy

  /** What the ledger compares when an operation ID is used again. */
  datatype Identity = Identity(
    request: Request,
    kind: OperationKind,
    sessionId: Id,
    invocationId: Option<Id>,
    target: Option<Id>)

  datatype Record = Record(
    identity: Identity,
    state: OperationState,
    result: Option<Report>,
    error: Option<ErrorCode>)

  function NewRecord(identity: Identity): Record {
    Record(identity, Accepted, None, None)
  }

  /** `OperationRecord.set_terminal` with a terminal state: the first settlement wins. */
  function Settled(r: Record, state: OperationState, result: Option<Report>, error: Option<ErrorCode>): Record
    requires state.Terminal()
  {
    if r.state.Terminal() then r else r.(state := state, result := result, error := error)
  }

  datatype Session = Session(
    backend: Option<Id>,
    modelId: Id,
    stableDigest: Digest,
    state: SessionState,
    active: Option<Id>,
    stableSubmitted: bool,
    activeInvocation: Option<Id>,
    contracts: map<Id, Digest>)

  function NewSession(modelId: Id, stableDigest: Digest): Session {
    Session(None, modelId, stableDigest, Creating, None, false, None, map[])
  }

  /** `DirectLedger.admit`: whether `op` is new, already recorded with this identity, or refused. */
  function LedgerAdmit(records: map<Id, Record>, capacity: nat, op: Id, identity: Identity): Result<bool, DirectError> {
    if op in records then
      if records[op].identity != identity then Failure(Conflict) else Success(false)
    else if |records| >= capacity then
      Failure(LimitExceeded)
    else
      Success(true)
  }
}
