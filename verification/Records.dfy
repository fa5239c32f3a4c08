/** Frozen requests, attempt results, verifier receipts, and the digests that bind them.
    A digest is a free constructor over the content it covers, one per domain tag: equal digests, equal content. */
module Records {
  import opened Contracts
  import opened OneTimeSignature

  type CodePoint = c: int | 0 <= c < 0x110000

  /** A text value; lone surrogates are representable, as they are in the source's strings. */
  type Text = seq<CodePoint>

  /** Encodable as UTF-8. */
  predicate Scalar(t: Text) {
    forall i :: 0 <= i < |t| ==> !(0xD800 <= t[i] <= 0xDFFF)
  }

  /** White space as `str.strip` removes it. */
  predicate IsSpace(c: CodePoint) {
    || 9 <= c <= 13 || 28 <= c <= 32 || c == 0x85 || c == 0xA0 || c == 0x1680 || 0x2000 <= c <= 0x200A
    || c == 0x2028 || c == 0x2029 || c == 0x202F || c == 0x205F || c == 0x3000
  }

  predicate Blank(t: Text) {
    forall i :: 0 <= i < |t| ==> IsSpace(t[i])
  }

  datatype Problem = Problem(benchmark: string, version: string, split: string, nativeId: string)

  datatype ArtifactKind = RequestKind | TerminalResponseKind

  datatype Artifact = Artifact(
    kind: ArtifactKind, runId: string, problemId: Digest, arm: Arm, attempt: nat, byteLength: nat, content: Digest)

  datatype Request = Request(
    runId: string, experimentId: string, problem: Problem, benchmarkRoot: Digest, problemSha: Digest,
    arm: Arm, attempt: nat, budgetId: string, budgetSha: Digest, usageBasis: Option<UsageBasis>,
    runtimeSha: Digest, artifact: Artifact, protocolDispatchId: Option<Digest>, confirmatoryManifest: Option<Digest>)
  {
    function Sha(): Digest {
      RequestDigest(this)
    }

    function ProblemId(): Digest {
      ProblemDigest(problem)
    }
  }

  datatype AttemptStatus = ANSWERED | NO_ANSWER | FAULT

  datatype AttemptResult = AttemptResult(
    requestSha: Digest, runId: string, problemId: Digest, arm: Arm, attempt: nat, requestArtifact: Digest,
    response: Artifact, status: AttemptStatus, error: Option<Text>)

  datatype VerifierStatus = Pass | Fail | Timeout | Fault

  /** A command argument: a well-formed token, or text the token check rejects. */
  datatype Argument = Token(text: string) | Malformed(raw: Text)

  datatype Receipt = Receipt(
    requestSha: Digest, resultSha: Digest, runId: string, problemId: Digest, arm: Arm, attempt: nat,
    candidate: Digest, runtimeSha: Digest, status: VerifierStatus, command: seq<Argument>,
    returncode: Option<int>, stdoutSha: Digest, stderrSha: Digest, elapsed: nat, error: Option<Text>)

  datatype Payload = Payload(request: Request, result: AttemptResult, receipt: Option<Receipt>)

  /** A signed terminal outcome for one registered dispatch. */
  datatype Completion = Completion(
    runId: string, dispatchId: Digest, entrySha: Digest, payload: Payload, publicKey: Bytes, signature: Bytes)
  {
    function Sha(): Digest {
      RecordDigest(this)
    }
  }

  datatype Digest =
    | ZeroDigest
    | External(hex: string)
    | Content(bytes: Bytes)
    | TextDigest(text: Text)
    | ProblemDigest(problem: Problem)
    | RequestDigest(request: Request)
    | ResultDigest(result: AttemptResult)
    | ReceiptDigest(receipt: Receipt)
    | PayloadDigest(payload: Payload)
    | OtsCommitment(publicKey: Bytes)
    | DispatchDigest(runId: string, problemId: Digest, arm: Arm, attempt: nat, requestSha: Digest, verifierSha: Digest)
    | EntryDigest(sequence: nat, predecessor: Digest, dispatchId: Digest)
    | ManifestDigest(run: string, entries: seq<Digest>)
    | RecordDigest(completion: Completion)
    | CompletionSetDigest(manifest: Digest, records: seq<Digest>)
    | CloseDigest(closeRun: string, closeManifest: Digest, completionSet: Digest)
    | AbortDigest(abortRun: string, abortManifest: Digest, reason: string)

  /** The visible bytes of an artifact, checked by length and digest. */
  predicate Verifies(a: Artifact, bytes: Bytes) {
    a.byteLength == |bytes| && a.content == Content(bytes)
  }

  predicate ValidRequest(r: Request) {
    && r.artifact.kind == RequestKind
    && r.artifact.runId == r.runId && r.artifact.problemId == r.ProblemId()
    && r.artifact.arm == r.arm && r.artifact.attempt == r.attempt
    && (r.protocolDispatchId.None? <==> r.confirmatoryManifest.None?)
  }

  predicate ValidResult(r: AttemptResult) {
    && r.response.kind == TerminalResponseKind
    && r.response.runId == r.runId && r.response.problemId == r.problemId
    && r.response.arm == r.arm && r.response.attempt == r.attempt
    && (r.status == FAULT ==> r.error.Some? && r.error.value != [] && Scalar(r.error.value))
    && (r.status != FAULT ==> r.error.None?)
  }

  predicate ValidReceipt(r: Receipt) {
    && r.command != [] && (forall i :: 0 <= i < |r.command| ==> r.command[i].Token?)
    && match r.status
       case Pass => r.returncode == Some(0) && r.error.None?
       case Fail => r.returncode.Some? && r.returncode.value != 0 && r.error.None?
       case _ => r.returncode.None? && r.error.Some? && r.error.value != [] && Scalar(r.error.value)
  }

  /** The result answers this very request. */
  predicate ResultFor(result: AttemptResult, request: Request) {
    && result.requestSha == request.Sha() && result.runId == request.runId && result.problemId == request.ProblemId()
    && result.arm == request.arm && result.attempt == request.attempt && result.requestArtifact == request.artifact.content
  }

  /** The receipt verified this very answer to this very request. */
  predicate ReceiptFor(receipt: Receipt, request: Request, result: AttemptResult) {
    && result.status == ANSWERED
    && receipt.requestSha == request.Sha() && receipt.resultSha == ResultDigest(result)
    && receipt.runId == request.runId && receipt.problemId == request.ProblemId()
    && receipt.arm == request.arm && receipt.attempt == request.attempt
    && receipt.candidate == result.response.content && receipt.runtimeSha == request.runtimeSha
  }

  function StatusOf(s: VerifierStatus): CompletionStatus {
    match s
    case Pass => SUCCEEDED
    case Fail => FAILED
    case Timeout => TIMEOUT
    case Fault => ERROR
  }

  /** The completion status typed evidence supports, or a refusal. */
  function CompletionStatusOf(p: Payload): Result<CompletionStatus> {
    if !ResultFor(p.result, p.request) then Raised
    else match p.result.status
      case FAULT => if p.receipt.Some? then Raised else Ok(ERROR)
      case NO_ANSWER => if p.receipt.Some? then Raised else Ok(FAILED)
      case ANSWERED =>
        if p.receipt.None? || !ReceiptFor(p.receipt.value, p.request, p.result) then Raised
        else Ok(StatusOf(p.receipt.value.status))
  }

  predicate ValidPayload(p: Payload) {
    && ValidRequest(p.request) && ValidResult(p.result) && (p.receipt.Some? ==> ValidReceipt(p.receipt.value))
    && CompletionStatusOf(p).Ok?
  }

  function Status(p: Payload): CompletionStatus
    requires ValidPayload(p)
  {
    CompletionStatusOf(p).value
  }

  /** Success means one thing: an answered attempt whose own answer, to its own request, has a PASS receipt. */
  lemma SucceededMeansPass(p: Payload)
    requires ValidPayload(p)
    ensures Status(p) == SUCCEEDED <==>
      && p.result.status == ANSWERED && p.receipt.Some? && p.receipt.value.status == Pass
      && p.receipt.value.returncode == Some(0)
      && ResultFor(p.result, p.request) && ReceiptFor(p.receipt.value, p.request, p.result)
  {
  }
}
