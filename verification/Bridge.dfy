/** The evidence bridge: a closed join, its ledger receipts and cost reports become one record per problem and arm. */
module Bridge {
  import opened Contracts
  import opened Sorting
  import opened Grouping
  import opened Records
  import opened Dispatch
  import opened Authority
  import opened ExecutionLedger
  import Cost

  /** One closed attempt: its completion and the ledger's receipt for it. */
  datatype Item = Item(completion: Completion, receipt: LedgerReceipt)
  {
    function Req(): Request {
      completion.payload.request
    }
  }

  function Zip(joined: seq<Joined>, receipts: seq<LedgerReceipt>): (items: seq<Item>)
    requires |joined| == |receipts|
    ensures |items| == |joined| && forall i :: 0 <= i < |items| ==> items[i] == Item(joined[i].completion, receipts[i])
  {
    seq(|joined|, i requires 0 <= i < |joined| => Item(joined[i].completion, receipts[i]))
  }

  /** The attempt fills a planned slot, and request, receipt and slot all name the same protocol dispatch. */
  predicate Planned(f: Frame, it: Item) {
    var r := it.Req();
    var slot := SlotAt(f.plan, KeyOfRequest(r));
    && ValidCompletion(it.completion) && slot.Some?
    && r.protocolDispatchId == Some(slot.value.protocolDispatch) && r.confirmatoryManifest == Some(f.manifest)
    && it.receipt.protocolDispatch == slot.value.protocolDispatch && it.receipt.manifest == f.manifest
    && r.benchmarkRoot == f.benchmarkRoot && r.runtimeSha == f.runtimeSha && r.budgetSha == f.costPolicy
  }

  function KeyOf(it: Item): SlotKey {
    KeyOfRequest(it.Req())
  }

  function NativeId(it: Item): string {
    it.Req().problem.nativeId
  }

  function Identity(it: Item): Digest {
    it.Req().ProblemId()
  }

  function CellOf(it: Item): (string, Arm) {
    (it.Req().problem.nativeId, it.Req().arm)
  }

  function AttemptOf(it: Item): nat {
    it.Req().attempt
  }

  /** What one closed run may not mix. */
  datatype Shared = Shared(
    experimentId: string, budgetId: string, basis: Option<UsageBasis>, benchmarkRoot: Digest, runtimeSha: Digest, budgetSha: Digest)

  function SharedOf(it: Item): Shared {
    var r := it.Req();
    Shared(r.experimentId, r.budgetId, r.usageBasis, r.benchmarkRoot, r.runtimeSha, r.budgetSha)
  }

  function AttemptLeq(a: Item, b: Item): bool {
    a.Req().attempt <= b.Req().attempt
  }

  function InCell(problem: string, arm: Arm): Item -> bool {
    (it: Item) => CellOf(it) == (problem, arm)
  }

  /** One problem/arm cell, in attempt order. */
  function SortedCell(items: seq<Item>, problem: string, arm: Arm): seq<Item> {
    Sort(AttemptLeq, Filter(InCell(problem, arm), items))
  }

  /** Attempts 0 to 15, once each. */
  predicate FullCell(cell: seq<Item>) {
    Map(AttemptOf, cell) == UpTo(ATTEMPTS_PER_CELL)
  }

  function Accounted(it: Item): Cost.Attempted<Digest> {
    Cost.Attempted(it.Req().Sha(), it.receipt.requestBytes, it.receipt.responseBytes, it.receipt.verifierMilliseconds,
                   it.receipt.orchestrationMilliseconds)
  }

  type Report = seq<Cost.Trace<Digest>>

  function TraceFor(report: Report, arm: Arm): Option<Cost.Trace<Digest>> {
    if report == [] then None
    else if report[0].arm == arm then Some(report[0])
    else TraceFor(report[1..], arm)
  }

  datatype VerifierEvidence = AbsentFor(completion: Digest) | Present(receipt: Digest)

  function EvidenceOf(it: Item): VerifierEvidence {
    var c := it.completion;
    if c.payload.receipt.None? then AbsentFor(c.Sha()) else Present(ReceiptDigest(c.payload.receipt.value))
  }

  function StatusOfItem(it: Item): CompletionStatus {
    var status := CompletionStatusOf(it.completion.payload);
    if status.Ok? then status.value else ERROR
  }

  /** What a record keeps of one attempt: the same index of each of the record's parallel vectors. */
  datatype Line = Line(
    status: CompletionStatus, protocolDispatch: Digest, dispatchId: Digest, completion: Digest, verifier: VerifierEvidence,
    receipt: LedgerReceipt)

  function LineOf(it: Item): Line {
    Line(StatusOfItem(it), it.receipt.protocolDispatch, it.completion.dispatchId, it.completion.Sha(), EvidenceOf(it), it.receipt)
  }

  /** One evaluator record, its lines in attempt order. */
  datatype EvidenceRecord = EvidenceRecord(
    problemId: string, identity: Digest, arm: Arm, shared: Shared, basis: UsageBasis, cost: CompleteCost,
    trace: Cost.Trace<Digest>, lines: seq<Line>)
  {
    predicate Solved() {
      exists i :: 0 <= i < |lines| && lines[i].status == SUCCEEDED
    }
  }

  /** What the record-building loops work from. */
  datatype Context = Context(items: seq<Item>, reports: map<string, Report>, basis: UsageBasis, shared: Shared)

  /** The identity is that of any attempt of the problem: all its attempts agree on it. The trace stands for its digest. */
  function MakeRecord(c: Context, problem: string, arm: Arm, cost: CompleteCost, trace: Cost.Trace<Digest>, cell: seq<Item>): EvidenceRecord {
    EvidenceRecord(problem, if cell == [] then ZeroDigest else Identity(cell[0]), arm, c.shared, c.basis, cost, trace, Map(LineOf, cell))
  }

  predicate CellOk(c: Context, report: Report, problem: string, arm: Arm) {
    var cell := SortedCell(c.items, problem, arm);
    && FullCell(cell) && TraceFor(report, arm).Some?
    && Cost.Reconciled(TraceFor(report, arm).value, Map(Accounted, cell), c.basis)
  }

  ghost predicate ReportFits(report: Report, basis: UsageBasis) {
    Cost.ReportOk(report) && Cost.AllBases(report) == {Some(basis)}
  }

  ghost predicate ProblemOk(c: Context, problem: string) {
    && problem in c.reports && ReportFits(c.reports[problem], c.basis)
    && forall k: nat :: k < 5 ==> CellOk(c, c.reports[problem], problem, ARMS[k])
  }

  /** The arm's trace in the problem's report. */
  function CellTrace(c: Context, problem: string, arm: Arm): Cost.Trace<Digest> {
    var trace := TraceFor(if problem in c.reports then c.reports[problem] else [], arm);
    if trace.Some? then trace.value else Cost.Trace(arm, [], [], false)
  }

  /** The cell's own record, its cost the total of the cell's trace. */
  function CellRecord(c: Context, problem: string, arm: Arm): EvidenceRecord {
    var trace := CellTrace(c, problem, arm);
    MakeRecord(c, problem, arm, Cost.TraceTotal(trace.events), trace, SortedCell(c.items, problem, arm))
  }

  function CellResult(c: Context, problem: string, arm: Arm): Result<EvidenceRecord> {
    if problem in c.reports && CellOk(c, c.reports[problem], problem, arm) then Ok(CellRecord(c, problem, arm)) else Raised
  }

  ghost predicate ProblemRecords(c: Context, problem: string, records: seq<EvidenceRecord>) {
    |records| == 5 && forall k: nat :: k < 5 ==> records[k] == CellRecord(c, problem, ARMS[k])
  }

  // ---- the loops ----

  lemma {:induction false} TraceInReport(report: Report, arm: Arm)
    ensures TraceFor(report, arm).Some? ==> TraceFor(report, arm).value in report && TraceFor(report, arm).value.arm == arm
    ensures (exists i :: 0 <= i < |report| && report[i].arm == arm) ==> TraceFor(report, arm).Some?
  {
    if report != [] && report[0].arm != arm {
      TraceInReport(report[1..], arm);
      if exists i :: 0 <= i < |report| && report[i].arm == arm {
        var i :| 0 <= i < |report| && report[i].arm == arm;
        assert report[1..][i - 1].arm == arm;
      }
    }
  }

  predicate CellTraced(report: Report, arm: Arm) {
    var trace := TraceFor(report, arm);
    trace.Some? && forall e :: e in trace.value.events ==> e.Measured()
  }

  ghost predicate Traced(report: Report) {
    forall arm :: CellTraced(report, arm)
  }

  lemma {:induction false} ReportTraced(report: Report)
    requires Cost.ReportOk(report)
    ensures Traced(report)
  {
    forall arm ensures CellTraced(report, arm) {
      Cost.EveryArmTraced(report, arm);
      TraceInReport(report, arm);
    }
  }

  type Cells = map<(string, Arm), seq<Item>>

  /** The gathered cell, or none where the problem lacks the arm, is the one the records are about. */
  lemma {:induction false} GatheredCell(items: seq<Item>, cells: Cells, problem: string, arm: Arm)
    requires Grouped(CellOf, items, cells)
    ensures (problem, arm) in cells ==> Sort(AttemptLeq, cells[(problem, arm)]) == SortedCell(items, problem, arm)
    ensures (problem, arm) !in cells ==> !FullCell(SortedCell(items, problem, arm))
  {
    FilterSame(Having(CellOf, (problem, arm)), InCell(problem, arm), items);
    if (problem, arm) !in cells {
      NoneHaving(CellOf, (problem, arm), items);
    }
  }

  /** One cell: present, full, reconciled, and totalled. */
  method BuildCell(c: Context, cells: Cells, report: Report, problem: string, arm: Arm) returns (r: Result<EvidenceRecord>)
    requires problem in c.reports && report == c.reports[problem] && CellTraced(report, arm) && Grouped(CellOf, c.items, cells)
    ensures r == CellResult(c, problem, arm)
  {
    GatheredCell(c.items, cells, problem, arm);
    if (problem, arm) !in cells {
      return Raised;
    }
    r := RecordCell(c, report, problem, arm, Sort(AttemptLeq, cells[(problem, arm)]));
  }

  /** The checks on a sorted cell, and its record. */
  method RecordCell(c: Context, report: Report, problem: string, arm: Arm, cell: seq<Item>) returns (r: Result<EvidenceRecord>)
    requires problem in c.reports && report == c.reports[problem] && CellTraced(report, arm)
    requires cell == SortedCell(c.items, problem, arm)
    ensures r == CellResult(c, problem, arm)
  {
    if !FullCell(cell) {
      return Raised;
    }
    var trace := TraceFor(report, arm).value;
    var reconciled := Cost.ReconcileTrace(trace, Map(Accounted, cell), c.basis);
    if !reconciled {
      return Raised;
    }
    var total := Cost.Total(trace);
    return Ok(MakeRecord(c, problem, arm, total.value, trace, cell));
  }

  method BuildProblem(c: Context, cells: Cells, problem: string) returns (r: Result<seq<EvidenceRecord>>)
    requires problem in c.reports && (forall t :: t in c.reports[problem] ==> Cost.ValidTrace(t)) && Grouped(CellOf, c.items, cells)
    ensures r.Ok? <==> ProblemOk(c, problem)
    ensures r.Ok? ==> ProblemRecords(c, problem, r.value)
  {
    var report := c.reports[problem];
    var ok := Cost.CheckReport(report);
    if !ok || Cost.AllBases(report) != {Some(c.basis)} {
      return Raised;
    }
    ReportTraced(report);
    r := BuildArms(c, cells, problem);
  }

  /** The cell results for the first arms. */
  ghost predicate Built(c: Context, problem: string, n: nat, records: seq<EvidenceRecord>)
    requires n <= 5
  {
    |records| == n && forall k: nat :: k < n ==> CellResult(c, problem, ARMS[k]) == Ok(records[k])
  }

  lemma {:induction false} BuiltStep(c: Context, problem: string, k: nat, records: seq<EvidenceRecord>, one: EvidenceRecord)
    requires k < 5 && Built(c, problem, k, records) && CellResult(c, problem, ARMS[k]) == Ok(one)
    ensures Built(c, problem, k + 1, records + [one])
  {
    forall j: nat | j < k + 1 ensures CellResult(c, problem, ARMS[j]) == Ok((records + [one])[j]) {
      if j < k {
        assert (records + [one])[j] == records[j];
      }
    }
  }

  lemma {:induction false} CellRefused(c: Context, problem: string, k: nat)
    requires k < 5 && problem in c.reports && CellResult(c, problem, ARMS[k]).Raised?
    ensures !CellOk(c, c.reports[problem], problem, ARMS[k])
  {
  }

  lemma {:induction false} BuiltAll(c: Context, problem: string, records: seq<EvidenceRecord>)
    requires problem in c.reports && Built(c, problem, 5, records)
    ensures forall k: nat :: k < 5 ==> CellOk(c, c.reports[problem], problem, ARMS[k])
    ensures ProblemRecords(c, problem, records)
  {
    forall k: nat | k < 5
      ensures CellOk(c, c.reports[problem], problem, ARMS[k]) && records[k] == CellRecord(c, problem, ARMS[k])
    {
      assert CellResult(c, problem, ARMS[k]) == Ok(records[k]);
    }
  }

  /** The loop over the arms. */
  method BuildArms(c: Context, cells: Cells, problem: string) returns (r: Result<seq<EvidenceRecord>>)
    requires problem in c.reports && Traced(c.reports[problem]) && Grouped(CellOf, c.items, cells)
    ensures r.Ok? <==> forall k: nat :: k < 5 ==> CellOk(c, c.reports[problem], problem, ARMS[k])
    ensures r.Ok? ==> ProblemRecords(c, problem, r.value)
  {
    var records: seq<EvidenceRecord> := [];
    for k := 0 to 5
      invariant Built(c, problem, k, records)
    {
      var arm := ARMS[k];
      assert CellTraced(c.reports[problem], arm);
      var one := BuildCell(c, cells, c.reports[problem], problem, arm);
      if one.Raised? {
        CellRefused(c, problem, k);
        return Raised;
      }
      BuiltStep(c, problem, k, records, one.value);
      records := records + [one.value];
    }
    BuiltAll(c, problem, records);
    return Ok(records);
  }

  ghost predicate AllProblemsOk(c: Context, problems: seq<string>) {
    problems == [] || (AllProblemsOk(c, problems[..|problems| - 1]) && ProblemOk(c, problems[|problems| - 1]))
  }

  /** The record of each problem and arm position. */
  ghost function CellMaker(c: Context): (string, nat) -> EvidenceRecord {
    (problem: string, k: nat) => CellRecord(c, problem, ARMS[if k < 5 then k else 0])
  }

  lemma {:induction false} BrokenProblem(c: Context, problems: seq<string>, i: nat)
    requires i < |problems| && !ProblemOk(c, problems[i])
    ensures !AllProblemsOk(c, problems)
  {
    if i < |problems| - 1 {
      BrokenProblem(c, problems[..|problems| - 1], i);
    }
  }

  lemma {:induction false} OneMore(c: Context, problems: seq<string>, n: nat)
    requires n < |problems| && AllProblemsOk(c, problems[..n]) && ProblemOk(c, problems[n])
    ensures AllProblemsOk(c, problems[..n + 1])
  {
    TakeTake(problems, n + 1, n);
  }

  method BuildAll(c: Context, problems: seq<string>) returns (r: Result<seq<EvidenceRecord>>)
    requires forall p :: p in problems ==> p in c.reports
    requires forall p, t :: p in c.reports && t in c.reports[p] ==> Cost.ValidTrace(t)
    ensures r.Ok? <==> AllProblemsOk(c, problems)
    ensures r.Ok? ==> Laid(CellMaker(c), problems, r.value)
  {
    var cells := GroupBy(CellOf, c.items);
    var records: seq<EvidenceRecord> := [];
    for n := 0 to |problems|
      invariant AllProblemsOk(c, problems[..n]) && Laid(CellMaker(c), problems[..n], records)
    {
      var one := BuildProblem(c, cells, problems[n]);
      if one.Raised? {
        BrokenProblem(c, problems, n);
        return Raised;
      }
      OneMore(c, problems, n);
      LaidStep(CellMaker(c), problems, records, one.value, n);
      records := records + one.value;
    }
    TakeAll(problems);
    return Ok(records);
  }

  // ---- the whole bridge ----

  function Problems(items: seq<Item>): seq<string> {
    Sort(TextLeq, Dedup(Map(NativeId, items)))
  }

  /** Everything the bridge asks of a verified join, in one place. */
  ghost predicate Bridgeable(f: Frame, items: seq<Item>, reports: map<string, Report>) {
    && Distinct(Map(KeyOfSlot, f.plan))
    && (forall i: nat :: i < |items| ==> Planned(f, items[i]))
    && Functional(Map(NativeId, items), Map(Identity, items))
    && SameThings(Map(KeyOf, items), Map(KeyOfSlot, f.plan))
    && OneValue(Map(SharedOf, items)) && SharedOf(items[0]).basis.Some?
    && SameKeys(reports, Problems(items))
    && AllProblemsOk(ContextOf(items, reports), Problems(items))
  }

  function ContextOf(items: seq<Item>, reports: map<string, Report>): Context
    requires items != [] && SharedOf(items[0]).basis.Some?
  {
    Context(items, reports, SharedOf(items[0]).basis.value, SharedOf(items[0]))
  }

  method CheckPlanned(f: Frame, items: seq<Item>) returns (ok: bool)
    ensures ok <==> forall i: nat :: i < |items| ==> Planned(f, items[i])
  {
    var test := (i: nat) => i < |items| && Planned(f, items[i]);
    ok := AllPass(|items|, test);
    assert forall i: nat :: i < |items| ==> (Planned(f, items[i]) <==> test(i));
  }

  /** The checks that concern the plan and what a closed run may not mix. */
  method CheckRun(f: Frame, items: seq<Item>) returns (ok: bool)
    ensures ok <==>
      && Distinct(Map(KeyOfSlot, f.plan)) && (forall i: nat :: i < |items| ==> Planned(f, items[i]))
      && Functional(Map(NativeId, items), Map(Identity, items))
      && SameThings(Map(KeyOf, items), Map(KeyOfSlot, f.plan)) && OneValue(Map(SharedOf, items))
  {
    var slots := AllDifferent(Map(KeyOfSlot, f.plan));
    var planned := CheckPlanned(f, items);
    var agreed, identities := ValuePerKey(Map(NativeId, items), Map(Identity, items));
    var covered := CheckSameThings(Map(KeyOf, items), Map(KeyOfSlot, f.plan));
    return slots && planned && agreed && covered && OneValue(Map(SharedOf, items));
  }

  /** Records in sorted problem order, or nothing. */
  method BridgeItems(f: Frame, items: seq<Item>, reports: map<string, Report>) returns (r: Result<seq<EvidenceRecord>>)
    requires forall p, t :: p in reports && t in reports[p] ==> Cost.ValidTrace(t)
    ensures r.Ok? <==> Bridgeable(f, items, reports)
    ensures r.Ok? ==> Laid(CellMaker(ContextOf(items, reports)), Problems(items), r.value)
  {
    var ok := CheckRun(f, items);
    if !ok {
      return Raised;
    }
    if SharedOf(items[0]).basis.None? {
      return Raised;
    }
    var problems := Problems(items);
    var reported := CheckKeys(reports, problems);
    if !reported {
      return Raised;
    }
    r := BuildAll(ContextOf(items, reports), problems);
  }

  /** The bridge: the presented join must be the authority's, the ledger must cover it, and the rest must be bridgeable. */
  method BridgeClosedEvidence(
    authority: DispatchAuthority, ledger: ExecutionLedgerAuthority, f: Frame, candidate: Join, reports: map<string, Report>)
    returns (r: Result<seq<EvidenceRecord>>)
    requires authority.Valid() && forall p, t :: p in reports && t in reports[p] ==> Cost.ValidTrace(t)
    ensures r.Ok? <==> CanBridge(f, authority.runId, authority.db.runs[authority.runId], ledger.frame, ledger.bindings,
                                 ledger.receipts, candidate, reports)
    ensures r.Ok? ==> Bridged(f, authority.runId, authority.db.runs[authority.runId], ledger.frame, ledger.bindings, ledger.receipts,
                              candidate, reports, r.value)
  {
    var join := authority.VerifyClosedJoin(candidate);
    if join.Raised? || f.manifest != ledger.frame.manifest {
      return Raised;
    }
    var receipts := ledger.VerifyCompleteJoin(join.value);
    if receipts.Raised? {
      return Raised;
    }
    r := BridgeItems(f, Zip(join.value.joined, receipts.value), reports);
  }

  /** When the bridge returns: the presented join is the one the closed run holds, ledger and plan are for one
      manifest, the ledger covers the join, and the rest is bridgeable. */
  ghost predicate CanBridge(
    f: Frame, runId: string, rows: Rows, ledgerFrame: Frame, bindings: map<Digest, Binding>, receipts: map<Digest, LedgerReceipt>,
    join: Join, reports: map<string, Report>)
  {
    && rows.state == CLOSED && HoldsJoin(runId, rows, join)
    && f.manifest == ledgerFrame.manifest && CoversJoin(ledgerFrame, bindings, receipts, join)
    && Bridgeable(f, Zip(join.joined, Lookups(receipts, Map(DispatchOf, join.joined))), reports)
  }

  /** What holds whenever the bridge returns. */
  ghost predicate Bridged(
    f: Frame, runId: string, rows: Rows, ledgerFrame: Frame, bindings: map<Digest, Binding>, receipts: map<Digest, LedgerReceipt>,
    join: Join, reports: map<string, Report>, records: seq<EvidenceRecord>)
  {
    && rows.state == CLOSED && HoldsJoin(runId, rows, join) && CoversJoin(ledgerFrame, bindings, receipts, join)
    && var items := Zip(join.joined, Lookups(receipts, Map(DispatchOf, join.joined)));
       && Bridgeable(f, items, reports) && Laid(CellMaker(ContextOf(items, reports)), Problems(items), records)
  }
}
