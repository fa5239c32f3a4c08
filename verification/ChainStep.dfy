/** One verified-chain step: what it may see, when it may retry, and how its outcome is classified. */
module ChainStep {
  import opened Contracts
  import opened Sorting
  import opened OneTimeSignature
  import opened Records
  import opened Dispatch
  import opened Authority
  import opened Executor
  import opened ExecutorRuns
  import Utf8

  // ---- product emissions ----

  /** Two comment lines, in ASCII, that mark a response as a product. */
  type Marker = b: Bytes | b != [] && Utf8.Ascii(b) witness [45]

  function RenderProduct(marker: Marker, product: Bytes): Result<Bytes> {
    if !Utf8.Decodes(product) || product == [] then Raised else Ok(marker + product)
  }

  function ParseProduct(marker: Marker, response: Bytes): Result<Bytes> {
    if Utf8.Decodes(response) && marker <= response && |response| > |marker| then Ok(response[|marker|..]) else Raised
  }

  /** Rendering and parsing invert each other, and nothing else parses. The response is checked as UTF-8 when parsed,
      the bare product when rendered: an ASCII marker makes these one check. */
  lemma {:induction false} ProductRoundTrip(marker: Marker, product: Bytes, response: Bytes)
    ensures RenderProduct(marker, product).Ok? ==> ParseProduct(marker, RenderProduct(marker, product).value) == Ok(product)
    ensures ParseProduct(marker, response) == Ok(product) <==> RenderProduct(marker, product) == Ok(response)
  {
    Utf8.AsciiPrefix(marker, product);
    if product != [] {
      assert (marker + product)[|marker|..] == product;
    }
    if ParseProduct(marker, response).Ok? {
      assert response == marker + response[|marker|..];
    }
  }

  // ---- what a step may build on ----

  predicate SameCell(left: Request, right: Request) {
    && left.runId == right.runId && left.experimentId == right.experimentId && left.problem == right.problem
    && left.benchmarkRoot == right.benchmarkRoot && left.problemSha == right.problemSha && left.arm == right.arm
    && left.budgetId == right.budgetId && left.budgetSha == right.budgetSha && left.usageBasis == right.usageBasis
    && left.runtimeSha == right.runtimeSha && left.confirmatoryManifest == right.confirmatoryManifest
  }

  predicate Passed(c: Completion) {
    c.payload.receipt.Some? && c.payload.receipt.value.status == Pass
  }

  datatype Product = Product(completion: Completion, response: Bytes)
  {
    function Id(): Digest {
      Content(response)
    }
  }

  /** What the product type accepts: a signed, answered, Lean-passed response of the chain's own arm that parses. */
  predicate ValidProduct(marker: Marker, p: Product) {
    && ValidCompletion(p.completion) && p.completion.payload.request.arm == VerifiedChain
    && p.completion.payload.result.status == ANSWERED && Passed(p.completion)
    && Verifies(p.completion.payload.result.response, p.response) && ParseProduct(marker, p.response).Ok?
  }

  /** What the retry type accepts: a terminal chain completion that is not a Lean PASS. */
  predicate ValidRetry(c: Completion) {
    && ValidCompletion(c) && c.payload.request.arm == VerifiedChain
    && (c.payload.result.status == ANSWERED ==> c.payload.receipt.Some? && !Passed(c))
  }

  // ---- the execution ledger ----

  datatype Row = Row(
    completionSha: Digest, requestSha: Digest, response: Digest, status: AttemptStatus, receiptSha: Option<Digest>,
    productAdmitted: bool)

  function RowFor(c: Completion, admitted: bool): Row {
    Row(c.Sha(), c.payload.request.Sha(), c.payload.result.response.content, c.payload.result.status,
        if c.payload.receipt.None? then None else Some(ReceiptDigest(c.payload.receipt.value)), admitted)
  }

  type Ledger = map<Digest, Row>

  /** The recorded row is this very completion's (and a product admission, where one is demanded). */
  predicate Recorded(ledger: Ledger, c: Completion, asProduct: bool) {
    && c.dispatchId in ledger && ledger[c.dispatchId] == RowFor(c, ledger[c.dispatchId].productAdmitted)
    && (asProduct ==> ledger[c.dispatchId].productAdmitted)
  }

  /** Recording is refused for other arms, for a product without a PASS, and for different evidence under one id. */
  predicate Recordable(ledger: Ledger, c: Completion, admitted: bool) {
    && c.payload.request.arm == VerifiedChain
    && (admitted ==> c.payload.result.status == ANSWERED && Passed(c))
    && (c.dispatchId in ledger ==> ledger[c.dispatchId] == RowFor(c, admitted))
  }

  class ExecutionLedger {
    var rows: Ledger

    constructor ()
      ensures rows == map[]
    {
      rows := map[];
    }

    /** Write-once: an existing row is never changed. */
    method RecordExecution(c: Completion, admitted: bool) returns (ok: bool)
      modifies this
      ensures ok <==> Recordable(old(rows), c, admitted)
      ensures rows == if ok then old(rows)[c.dispatchId := RowFor(c, admitted)] else old(rows)
      ensures forall id :: id in old(rows) ==> id in rows && rows[id] == old(rows)[id]
    {
      if c.payload.request.arm != VerifiedChain {
        return false;
      }
      if admitted && (c.payload.result.status != ANSWERED || c.payload.receipt.None? || c.payload.receipt.value.status != Pass) {
        return false;
      }
      if c.dispatchId !in rows {
        rows := rows[c.dispatchId := RowFor(c, admitted)];
        return true;
      }
      return rows[c.dispatchId] == RowFor(c, admitted);
    }

    method VerifyRecord(c: Completion, asProduct: bool) returns (ok: bool)
      ensures ok <==> Recorded(rows, c, asProduct)
    {
      if c.dispatchId !in rows {
        return false;
      }
      var admitted := rows[c.dispatchId].productAdmitted;
      return rows[c.dispatchId] == RowFor(c, admitted) && (!asProduct || admitted);
    }
  }

  // ---- the model port of a step ----

  datatype Kind = PRODUCT | ANSWER | NOTHING | FAILURE

  datatype Seen = Seen(dispatchId: Digest, kind: Kind, response: Bytes, error: Option<Text>)

  predicate ValidSeen(marker: Marker, o: Seen) {
    && Utf8.Decodes(o.response)
    && match o.kind
       case PRODUCT => o.error.None? && ParseProduct(marker, o.response).Ok?
       case ANSWER => o.response != [] && o.error.None? && !(marker <= o.response)
       case NOTHING => o.response == [] && o.error.None?
       case FAILURE => o.error.Some? && !Blank(o.error.value)
  }

  datatype ChainOutcome = ChainRaised(exception: string) | ChainReturned(seen: Seen)

  /** A call that raises, or returns anything but a valid observation, raises inside the baseline's call. */
  function Captured(marker: Marker, outcome: ChainOutcome): Option<Seen> {
    if outcome.ChainReturned? && ValidSeen(marker, outcome.seen) then Some(outcome.seen) else None
  }

  function StatusFor(kind: Kind): AttemptStatus {
    match kind
    case PRODUCT => ANSWERED
    case ANSWER => ANSWERED
    case NOTHING => NO_ANSWER
    case FAILURE => FAULT
  }

  function Adapt(marker: Marker, outcome: ChainOutcome): ModelOutcome {
    var captured := Captured(marker, outcome);
    if captured.None? then ModelRaised(if outcome.ChainRaised? then outcome.exception else "TypeError")
    else
      var seen := captured.value;
      ModelReturned(Observation(seen.dispatchId, seen.response, StatusFor(seen.kind), seen.error))
  }

  type ChainPort = (Entry, Bytes) -> ChainOutcome

  // ---- classification ----

  predicate AdmitsProduct(marker: Marker, outcome: ChainOutcome, c: Completion) {
    var captured := Captured(marker, outcome);
    && captured.Some? && captured.value.dispatchId == c.dispatchId && captured.value.kind == PRODUCT
    && c.payload.result.status == ANSWERED && Passed(c) && Verifies(c.payload.result.response, captured.value.response)
  }

  predicate TerminalAnswer(marker: Marker, outcome: ChainOutcome, c: Completion) {
    var captured := Captured(marker, outcome);
    && captured.Some? && captured.value.dispatchId == c.dispatchId && captured.value.kind == ANSWER
    && c.payload.result.status == ANSWERED && Passed(c)
  }

  /** A completed step has a PASS receipt exactly when it is an admitted product or a terminal answer, never both;
      and an admitted product always satisfies the product type. */
  lemma {:induction false} PassIsClassified(
    marker: Marker, a: Attempt, entry: Entry, outcome: ChainOutcome, c: Completion)
    requires ValidRequest(a.request) && a.model(entry, a.requestUtf8) == Adapt(marker, outcome)
    requires PayloadOf(a, entry) == Ok(c.payload) && c.dispatchId == entry.dispatchId
    ensures Passed(c) <==> AdmitsProduct(marker, outcome, c) || TerminalAnswer(marker, outcome, c)
    ensures !(AdmitsProduct(marker, outcome, c) && TerminalAnswer(marker, outcome, c))
    ensures AdmitsProduct(marker, outcome, c) && ValidCompletion(c) && a.request.arm == VerifiedChain ==>
      ValidProduct(marker, Product(c, Captured(marker, outcome).value.response))
  {
    var o := Observe(a, entry);
    if Passed(c) {
      assert c.payload.result.status == ANSWERED;
      assert o.status == ANSWERED;
    }
  }
}
