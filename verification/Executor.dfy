/** One baseline attempt: register, call the model port, call the verifier port, sign, account. Ports may answer,
    raise, or return anything; times are parameters. */
module Executor {
  import opened Contracts
  import opened Sorting
  import opened OneTimeSignature
  import opened Records
  import opened Dispatch
  import opened Authority
  import Cost
  import Utf8

  function TextOf(s: string): (t: Text)
    ensures |t| == |s| && Scalar(t)
  {
    seq(|s|, i requires 0 <= i < |s| => s[i] as int)
  }

  // ---- the model port ----

  datatype Observation = Observation(dispatchId: Digest, response: Bytes, status: AttemptStatus, error: Option<Text>)

  /** What the observation type itself accepts. The response has to be UTF-8; an ERROR text only has to be non-blank. */
  predicate ValidObservation(o: Observation) {
    && Utf8.Decodes(o.response)
    && match o.status
       case ANSWERED => o.response != [] && o.error.None?
       case NO_ANSWER => o.error.None?
       case FAULT => o.error.Some? && !Blank(o.error.value)
  }

  const NO_OBSERVATION := Observation(ZeroDigest, [], NO_ANSWER, None)

  type TypedObservation = o: Observation | ValidObservation(o) witness NO_OBSERVATION

  datatype ModelOutcome = ModelRaised(exception: string) | ModelReturnedOther | ModelReturned(observation: TypedObservation)

  type ModelPort = (Entry, Bytes) -> ModelOutcome

  function ModelFault(dispatchId: Digest, message: string): (o: TypedObservation)
    requires message != "" && message[0] == 'm'
    ensures o.status == FAULT
  {
    assert TextOf(message)[0] == 'm' as int;
    Observation(dispatchId, [], FAULT, Some(TextOf(message)))
  }

  /** Whatever the port does becomes an observation of the dispatch that was asked for. */
  function SafeModelCall(outcome: ModelOutcome, dispatchId: Digest): (o: TypedObservation)
    ensures o.dispatchId == dispatchId
    ensures outcome.ModelReturned? && outcome.observation.dispatchId == dispatchId ==> o == outcome.observation
    ensures !(outcome.ModelReturned? && outcome.observation.dispatchId == dispatchId) ==>
      o.status == FAULT && o.response == [] && Scalar(o.error.value)
  {
    match outcome
    case ModelRaised(exception) =>
      ModelFault(dispatchId, "model_call" + " raised " + exception)
    case ModelReturnedOther =>
      ModelFault(dispatchId, "model_call" + " returned a non-ModelAttemptObservation value")
    case ModelReturned(o) =>
      if o.dispatchId != dispatchId then
        ModelFault(dispatchId, "model_call" + " returned evidence for a different dispatch")
      else o
  }

  // ---- the verifier port ----

  /** An output stream as a record holds it: text, a falsy value of another type (read as no output), or anything else. */
  datatype Output = Written(text: Text) | FalsyValue | OtherValue

  function OutputText(output: Output): Text {
    if output.Written? then output.text else []
  }

  /** A verifier result record carries whatever its maker put in it. */
  datatype VerifierResult = VerifierResult(
    status: Field<VerifierStatus>, command: Field<seq<Argument>>, returncode: Field<Option<int>>,
    stdout: Output, stderr: Output, elapsed: Field<int>, error: Field<Option<Text>>)

  datatype VerifierOutcome = VerifierRaised(exception: string) | VerifierReturnedOther | VerifierReturned(result: VerifierResult)

  type VerifierPort = (Entry, Bytes) -> VerifierOutcome

  function VerifierFault(message: string): VerifierResult {
    VerifierResult(Typed(Fault), Typed([Token("verifier-port-error")]), Typed(None), Written([]), Written([]), Typed(0),
                   Typed(Some(TextOf(message))))
  }

  function SafeVerifierCall(outcome: VerifierOutcome): VerifierResult {
    match outcome
    case VerifierRaised(exception) => VerifierFault("verifier_call raised " + exception)
    case VerifierReturnedOther => VerifierFault("verifier_call returned a non-VerifierResult value")
    case VerifierReturned(result) => result
  }

  datatype ReceiptOutcome = Issued(receipt: Receipt) | Refused(exception: string)

  predicate OutputOk(output: Output) {
    !output.OtherValue? && Scalar(OutputText(output))
  }

  predicate CommandOk(command: seq<Argument>) {
    command != [] && forall i :: 0 <= i < |command| ==> command[i].Token?
  }

  /** The receipt's own rules for return code and error text. */
  predicate VerdictOk(status: VerifierStatus, returncode: Option<int>, error: Field<Option<Text>>) {
    match status
    case Pass => returncode == Some(0) && error == Typed(None)
    case Fail => returncode.Some? && returncode.value != 0 && error == Typed(None)
    case _ => returncode.None? && error.Typed? && error.value.Some? && error.value.value != [] && Scalar(error.value.value)
  }

  function FromVerifierResult(request: Request, result: AttemptResult, v: VerifierResult): ReceiptOutcome {
    if !ResultFor(result, request) || result.status != ANSWERED then Refused("ValueError")
    else if !OutputOk(v.stdout) || !OutputOk(v.stderr) || v.status.Mistyped? then Refused("ValueError")
    else if v.command.Mistyped? then Refused("TypeError")
    else if !CommandOk(v.command.value) || v.returncode.Mistyped? then Refused("ValueError")
    else if v.elapsed.Mistyped? || v.elapsed.value < 0 then Refused("ValueError")
    else if !VerdictOk(v.status.value, v.returncode.value, v.error) then Refused("ValueError")
    else Issued(Receipt(
      request.Sha(), ResultDigest(result), request.runId, request.ProblemId(), request.arm, request.attempt,
      result.response.content, request.runtimeSha, v.status.value, v.command.value, v.returncode.value,
      TextDigest(OutputText(v.stdout)), TextDigest(OutputText(v.stderr)), v.elapsed.value, v.error.value))
  }

  /** A result that cannot be turned into a receipt is recorded as a verifier ERROR. */
  function Verified(request: Request, result: AttemptResult, v: VerifierResult): ReceiptOutcome {
    var first := FromVerifierResult(request, result, v);
    if first.Issued? then first
    else FromVerifierResult(request, result, VerifierFault("invalid verifier result: " + first.exception))
  }

  lemma FaultIsIssued(request: Request, result: AttemptResult, message: string)
    requires ResultFor(result, request) && result.status == ANSWERED && message != ""
    ensures FromVerifierResult(request, result, VerifierFault(message)).Issued?
  {
  }

  /** An answered attempt always gets a valid receipt bound to it, and the port's verdict only if well formed. */
  lemma VerifiedIssues(request: Request, result: AttemptResult, v: VerifierResult)
    requires ResultFor(result, request) && result.status == ANSWERED
    ensures Verified(request, result, v).Issued?
    ensures ValidReceipt(Verified(request, result, v).receipt)
    ensures ReceiptFor(Verified(request, result, v).receipt, request, result)
    ensures Verified(request, result, v).receipt.status == Pass <==>
      && v.status == Typed(Pass) && v.returncode == Typed(Some(0)) && v.error == Typed(None)
      && v.command.Typed? && CommandOk(v.command.value) && OutputOk(v.stdout) && OutputOk(v.stderr)
      && v.elapsed.Typed? && v.elapsed.value >= 0
  {
    var first := FromVerifierResult(request, result, v);
    if first.Refused? {
      FaultIsIssued(request, result, "invalid verifier result: " + first.exception);
    }
  }

  // ---- the attempt result and payload ----

  function ResponseArtifact(request: Request, response: Bytes): Artifact {
    Artifact(TerminalResponseKind, request.runId, request.ProblemId(), request.arm, request.attempt, |response|, Content(response))
  }

  /** The error text can be encoded: what the attempt result demands beyond what the observation does. */
  predicate Encodable(o: Observation) {
    o.status == FAULT ==> o.error.Some? && Scalar(o.error.value)
  }

  /** The attempt-result constructor: it refuses error text that is not Unicode scalar values. */
  function MakeResult(request: Request, o: TypedObservation): (r: Result<AttemptResult>)
    ensures r.Ok? <==> Encodable(o)
    ensures r.Ok? ==> ValidResult(r.value) && ResultFor(r.value, request) && r.value.status == o.status
  {
    if o.status == FAULT && !Scalar(o.error.value) then Raised
    else Ok(AttemptResult(
      request.Sha(), request.runId, request.ProblemId(), request.arm, request.attempt, request.artifact.content,
      ResponseArtifact(request, o.response), o.status, o.error))
  }

  function MakePayload(request: Request, result: AttemptResult, v: VerifierResult): Payload
    requires result.status == ANSWERED ==> Verified(request, result, v).Issued?
  {
    Payload(request, result, if result.status == ANSWERED then Some(Verified(request, result, v).receipt) else None)
  }

  lemma PayloadIsValid(request: Request, result: AttemptResult, v: VerifierResult)
    requires ValidRequest(request) && ValidResult(result) && ResultFor(result, request)
    requires result.status == ANSWERED ==> Verified(request, result, v).Issued?
    ensures ValidPayload(MakePayload(request, result, v))
  {
    if result.status == ANSWERED {
      VerifiedIssues(request, result, v);
    }
  }

  // ---- the cost trace ----

  function BaselineExpected(sha: Digest): seq<Cost.Expected<Digest>> {
    [Cost.Expected(Cost.Bound(sha, Cost.ModelCall), Cost.ModelCall, Some(VisibleUtf8Bytes)),
     Cost.Expected(Cost.Bound(sha, Cost.VerifierRun), Cost.VerifierRun, None),
     Cost.Expected(Cost.Bound(sha, Cost.Orchestration), Cost.Orchestration, None)]
  }

  function BaselineEvents(sha: Digest, requestBytes: nat, responseBytes: nat, verifying: nat, orchestrating: nat): seq<Cost.Event<Digest>> {
    [Cost.Event(Cost.Bound(sha, Cost.ModelCall), Cost.ModelCall, Some(requestBytes), Some(responseBytes), None, Some(VisibleUtf8Bytes)),
     Cost.Event(Cost.Bound(sha, Cost.VerifierRun), Cost.VerifierRun, None, None, Some(verifying), None),
     Cost.Event(Cost.Bound(sha, Cost.Orchestration), Cost.Orchestration, None, None, Some(orchestrating), None)]
  }

  function BaselineTrace(request: Request, requestBytes: nat, responseBytes: nat, verifying: nat, orchestrating: nat): Cost.Trace<Digest> {
    Cost.Trace(request.arm, BaselineEvents(request.Sha(), requestBytes, responseBytes, verifying, orchestrating),
               BaselineExpected(request.Sha()), true)
  }

  lemma ThreeManifest(sha: Digest, a: nat, b: nat, v: nat, o: nat)
    ensures Cost.ObservedManifest(BaselineEvents(sha, a, b, v, o)) == Cost.ExpectedManifest(BaselineExpected(sha))
  {
    var events, expected := BaselineEvents(sha, a, b, v, o), BaselineExpected(sha);
    assert events[..2] == [events[0], events[1]] && events[..2][..1] == [events[0]];
    assert expected[..2] == [expected[0], expected[1]] && expected[..2][..1] == [expected[0]];
    assert Cost.ObservedManifest(events[..2][..1]) == Cost.ExpectedManifest(expected[..2][..1]);
    assert Cost.ObservedManifest(events[..2]) == Cost.ExpectedManifest(expected[..2]);
  }

  /** The trace of an attempt is a legal one, fully covered and fully measured, and totals what was observed. */
  lemma BaselineTraceCloses(request: Request, a: nat, b: nat, v: nat, o: nat)
    ensures Cost.ValidTrace(BaselineTrace(request, a, b, v, o)) && Cost.Closed(BaselineTrace(request, a, b, v, o))
    ensures Cost.TotalIs(CompleteCost(1, a, b, v, o), BaselineEvents(request.Sha(), a, b, v, o))
  {
    var trace := BaselineTrace(request, a, b, v, o);
    ThreeManifest(request.Sha(), a, b, v, o);
    assert trace.expected[0] in trace.expected;
    var events := trace.events;
    Cost.TotalOfThree(events[0], events[1], events[2]);
  }
}
