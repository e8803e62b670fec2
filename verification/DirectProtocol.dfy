/**
 The request shapes of the direct protocol (`direct_protocol.py`).

 Identifiers are opaque: only their equality matters, so they are numbers.
 SHA-256 is an injective digest: a digest either is that of a text or is some
 other 64-digit value. The canonical request digest is the request itself,
 which is what an injective digest distinguishes.
 */
module DirectProtocol {
  import opened Wrappers

  type Id = nat

  datatype Digest = Sha256(text: string) | OtherDigest(value: nat)

  const DIRECT_PROTOCOL_MAJOR: int := 1

  datatype Pin = Pin(major: int, generation: Id, operationId: Id)

  datatype PromptPhase = Initial | Invocation | Correction | Continuation

  datatype PromptRequest = PromptRequest(
    pin: Pin,
    invocationId: Id,
    phase: PromptPhase,
    stableDigest: Digest,
    contractDigest: Digest,
    timeout: real,
    stableInstructions: Option<string>,
    prompt: Option<string>,
    outputContract: Option<string>,
    delta: Option<string>)

  datatype Request =
    | CreateSession(pin: Pin, sessionId: Id, workspace: Id, modelId: Id, stableDigest: Digest)
    | Prompt(body: PromptRequest)
    | Cancel(pin: Pin, target: Id)
    | Retire(pin: Pin, sessionId: Id)

  predicate Present(layer: Option<string>) {
    layer.Some? && layer.value != ""
  }

  /** `validate_layers`: which layers each phase must and must not carry. */
  predicate ValidLayers(r: PromptRequest) {
    match r.phase
    case Initial =>
      r.stableInstructions.Some? && Present(r.prompt) && Present(r.outputContract) && r.delta.None?
    case Invocation =>
      Present(r.prompt) && Present(r.outputContract) && r.stableInstructions.None? && r.delta.None?
    case _ =>
      Present(r.delta) && r.stableInstructions.None? && r.prompt.None? && r.outputContract.None?
  }

  /** `_render_blocks`: the model-facing text of a request. */
  function RenderText(r: PromptRequest): string
    requires ValidLayers(r)
  {
    match r.phase
    case Initial =>
      r.stableInstructions.value + "\n\n" + r.prompt.value + "\n\n" + r.outputContract.value
    case Invocation =>
      r.prompt.value + "\n\n" + r.outputContract.value
    case _ =>
      r.delta.value
  }

  /** The negotiated limits that admission reads, and the fixed facts it compares with. */
  datatype Config = Config(
    maxPromptBytes: nat,
    maxSessions: nat,
    maxOperations: nat,
    maxQueuedPrompts: nat,
    maxExecutionTimeout: real,
    canonicalWorkspace: Id,
    models: set<Id>)
}
