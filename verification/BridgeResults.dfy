/** What a returned bridge means: a bijection with the plan, aligned attempts, derived outcomes, conserved costs. */
module BridgeResults {
  import opened Contracts
  import opened Sorting
  import opened Grouping
  import opened Records
  import opened Dispatch
  import opened Authority
  import opened ExecutionLedger
  import opened Bridge
  import Cost

  /** The facts of one bridged run that the results rest on. */
  ghost predicate Run(f: Frame, runId: string, rows: Rows, ledger: Frame, join: Join, receipts: seq<LedgerReceipt>, items: seq<Item>) {
    && Chain(runId, rows.entries) && |rows.entries| == |rows.completions|
    && join.joined == JoinedOf(rows.entries, rows.completions)
    && |receipts| == |join.joined| && items == Zip(join.joined, receipts)
    && forall i: nat :: i < |items| ==> Sound(ledger, join.joined[i], receipts[i])
  }

  /** The entry registered this completion's request, and the receipt restates the completion. */
  predicate Sound(ledger: Frame, j: Joined, r: LedgerReceipt) {
    && ValidCompletion(j.completion) && RequestMatches(j.entry, j.completion.payload.request)
    && r == CompletionBodyOf(ledger, j.completion, r.protocolDispatch, r.binding, r.context, r.predecessor, r.orchestrationMilliseconds)
  }

  lemma {:induction false} RowIsSound(ledger: Frame, bindings: map<Digest, Binding>, receipts: map<Digest, LedgerReceipt>, j: Joined)
    requires RowVerifies(ledger, bindings, receipts, j)
    ensures Sound(ledger, j, receipts[j.completion.dispatchId])
  {
  }

  lemma {:induction false} JoinedIsSound(
    ledger: Frame, bindings: map<Digest, Binding>, receipts: map<Digest, LedgerReceipt>, joined: seq<Joined>, i: nat)
    requires forall id :: id in Map(DispatchOf, joined) ==> id in receipts
    requires i < |joined| && RowVerifies(ledger, bindings, receipts, joined[i])
    ensures Sound(ledger, joined[i], Lookups(receipts, Map(DispatchOf, joined))[i])
  {
    RowIsSound(ledger, bindings, receipts, joined[i]);
    assert Map(DispatchOf, joined)[i] == joined[i].completion.dispatchId;
  }

  /** Every bridged run has them. */
  lemma {:induction false} BridgedRun(
    f: Frame, runId: string, rows: Rows, ledger: Frame, bindings: map<Digest, Binding>, receipts: map<Digest, LedgerReceipt>,
    join: Join, reports: map<string, Report>, records: seq<EvidenceRecord>)
    requires Chain(runId, rows.entries)
    requires Bridged(f, runId, rows, ledger, bindings, receipts, join, reports, records)
    ensures var rs := Lookups(receipts, Map(DispatchOf, join.joined));
      Run(f, runId, rows, ledger, join, rs, Zip(join.joined, rs))
  {
    var rs := Lookups(receipts, Map(DispatchOf, join.joined));
    forall i: nat | i < |join.joined| ensures Sound(ledger, join.joined[i], rs[i]) {
      assert RowVerifies(ledger, bindings, receipts, join.joined[i]);
      JoinedIsSound(ledger, bindings, receipts, join.joined, i);
    }
  }

  // ---- bijection ----

  lemma {:induction false} SameKeySameLogical(e: Entry, g: Entry, a: Item, b: Item)
    requires RequestMatches(e, a.Req()) && RequestMatches(g, b.Req())
    ensures KeyOf(a) == KeyOf(b) && Identity(a) == Identity(b) ==> e.LogicalKey() == g.LogicalKey()
  {
  }

  lemma {:induction false} SameKeySameIdentity(items: seq<Item>, i: nat, j: nat)
    requires Functional(Map(NativeId, items), Map(Identity, items)) && i < j < |items|
    ensures KeyOf(items[i]) == KeyOf(items[j]) ==> Identity(items[i]) == Identity(items[j])
  {
    var ids, identities := Map(NativeId, items), Map(Identity, items);
    assert ids[i] == ids[j] ==> identities[i] == identities[j];
  }

  lemma {:induction false} KeysApart(
    f: Frame, runId: string, rows: Rows, ledger: Frame, join: Join, receipts: seq<LedgerReceipt>, items: seq<Item>, i: nat, j: nat)
    requires Run(f, runId, rows, ledger, join, receipts, items) && Functional(Map(NativeId, items), Map(Identity, items))
    requires i < j < |items|
    ensures KeyOf(items[i]) != KeyOf(items[j])
  {
    JoinedAt(rows.entries, rows.completions, i);
    JoinedAt(rows.entries, rows.completions, j);
    assert Sound(ledger, join.joined[i], receipts[i]) && Sound(ledger, join.joined[j], receipts[j]);
    ChainApart(runId, rows.entries, i, j);
    SameKeySameIdentity(items, i, j);
    SameKeySameLogical(rows.entries[i], rows.entries[j], items[i], items[j]);
  }

  /** Closed dispatches and planned slots correspond one to one. */
  lemma {:induction false} DispatchesFillThePlan(
    f: Frame, runId: string, rows: Rows, ledger: Frame, join: Join, receipts: seq<LedgerReceipt>, items: seq<Item>, reports: map<string, Report>)
    requires Run(f, runId, rows, ledger, join, receipts, items) && Bridgeable(f, items, reports)
    ensures Distinct(Map(KeyOf, items)) && Distinct(Map(KeyOfSlot, f.plan))
    ensures multiset(Map(KeyOf, items)) == multiset(Map(KeyOfSlot, f.plan)) && |items| == |f.plan|
  {
    var keys := Map(KeyOf, items);
    forall i, j | 0 <= i < j < |keys| ensures keys[i] != keys[j] {
      KeysApart(f, runId, rows, ledger, join, receipts, items, i, j);
    }
    DistinctSameSet(keys, Map(KeyOfSlot, f.plan));
  }

  // ---- alignment ----

  lemma {:induction false} CellMembers(items: seq<Item>, problem: string, arm: Arm, it: Item)
    ensures it in SortedCell(items, problem, arm) <==> it in items && CellOf(it) == (problem, arm)
  {
    SortPermutes(AttemptLeq, Filter(InCell(problem, arm), items));
    FilterIn(InCell(problem, arm), items, it);
  }

  lemma {:induction false} FullCellAt(cell: seq<Item>, a: nat)
    requires FullCell(cell) && a < ATTEMPTS_PER_CELL
    ensures |cell| == ATTEMPTS_PER_CELL && AttemptOf(cell[a]) == a
  {
    assert Map(AttemptOf, cell)[a] == UpTo(ATTEMPTS_PER_CELL)[a];
  }

  lemma {:induction false} SameKeySamePlace(items: seq<Item>, i: nat, j: nat)
    requires Distinct(Map(KeyOf, items)) && i < |items| && j < |items| && KeyOf(items[i]) == KeyOf(items[j])
    ensures i == j
  {
    var keys := Map(KeyOf, items);
    assert keys[i] == keys[j];
  }

  lemma {:induction false} SameKeySameItem(items: seq<Item>, a: Item, b: Item)
    requires Distinct(Map(KeyOf, items)) && a in items && b in items && KeyOf(a) == KeyOf(b)
    ensures a == b
  {
    var i :| 0 <= i < |items| && items[i] == a;
    var j :| 0 <= j < |items| && items[j] == b;
    SameKeySamePlace(items, i, j);
  }

  /** Position `a` of a full cell is the run's one closed dispatch of that problem, arm and attempt. */
  lemma {:induction false} AttemptsAligned(items: seq<Item>, problem: string, arm: Arm, a: nat, it: Item)
    requires Distinct(Map(KeyOf, items)) && FullCell(SortedCell(items, problem, arm)) && a < ATTEMPTS_PER_CELL
    ensures |SortedCell(items, problem, arm)| == ATTEMPTS_PER_CELL
    ensures SortedCell(items, problem, arm)[a] == it <==> it in items && KeyOf(it) == (problem, arm, a)
  {
    var cell := SortedCell(items, problem, arm);
    FullCellAt(cell, a);
    assert cell[a] in cell;
    CellMembers(items, problem, arm, cell[a]);
    if it in items && KeyOf(it) == (problem, arm, a) {
      SameKeySameItem(items, it, cell[a]);
    }
  }

  // ---- outcomes ----

  /** The attempt was answered, and its answer to its own request has a PASS receipt. */
  predicate Proved(it: Item) {
    var p := it.completion.payload;
    && p.result.status == ANSWERED && p.receipt.Some? && p.receipt.value.status == Pass
    && ResultFor(p.result, p.request) && ReceiptFor(p.receipt.value, p.request, p.result)
  }

  lemma {:induction false} LineProved(it: Item)
    requires ValidCompletion(it.completion)
    ensures LineOf(it).status == SUCCEEDED <==> Proved(it)
  {
    SucceededMeansPass(it.completion.payload);
  }

  ghost predicate AllCompleted(items: seq<Item>) {
    forall i: nat :: i < |items| ==> ValidCompletion(items[i].completion)
  }

  /** Line `i` of a record is line `i` of its cell, and it succeeded exactly if that attempt was proved. */
  lemma {:induction false} LineAt(c: Context, problem: string, arm: Arm, i: nat)
    requires AllCompleted(c.items) && i < |SortedCell(c.items, problem, arm)|
    ensures var cell := SortedCell(c.items, problem, arm);
      && cell[i] in c.items && CellOf(cell[i]) == (problem, arm) && |CellRecord(c, problem, arm).lines| == |cell|
      && CellRecord(c, problem, arm).lines[i] == LineOf(cell[i])
      && (CellRecord(c, problem, arm).lines[i].status == SUCCEEDED <==> Proved(cell[i]))
  {
    var cell := SortedCell(c.items, problem, arm);
    assert cell[i] in cell;
    CellMembers(c.items, problem, arm, cell[i]);
    var j :| 0 <= j < |c.items| && c.items[j] == cell[i];
    LineProved(cell[i]);
  }

  lemma {:induction false} ProvedIsSolved(c: Context, problem: string, arm: Arm, it: Item)
    requires AllCompleted(c.items) && it in c.items && CellOf(it) == (problem, arm) && Proved(it)
    ensures CellRecord(c, problem, arm).Solved()
  {
    CellMembers(c.items, problem, arm, it);
    var j :| 0 <= j < |SortedCell(c.items, problem, arm)| && SortedCell(c.items, problem, arm)[j] == it;
    LineAt(c, problem, arm, j);
  }

  lemma {:induction false} SolvedIsProved(c: Context, problem: string, arm: Arm) returns (it: Item)
    requires AllCompleted(c.items) && CellRecord(c, problem, arm).Solved()
    ensures it in c.items && CellOf(it) == (problem, arm) && Proved(it)
  {
    var lines := CellRecord(c, problem, arm).lines;
    var i :| 0 <= i < |lines| && lines[i].status == SUCCEEDED;
    LineAt(c, problem, arm, i);
    it := SortedCell(c.items, problem, arm)[i];
  }

  /** Solved means exactly that some attempt of the cell proved its answer: nothing is taken on trust from a caller. */
  lemma {:induction false} SolvedMeansProved(c: Context, problem: string, arm: Arm)
    requires AllCompleted(c.items)
    ensures CellRecord(c, problem, arm).Solved() <==>
      exists it :: it in c.items && CellOf(it) == (problem, arm) && Proved(it)
  {
    if CellRecord(c, problem, arm).Solved() {
      var it := SolvedIsProved(c, problem, arm);
    }
    forall it | it in c.items && CellOf(it) == (problem, arm) && Proved(it) ensures CellRecord(c, problem, arm).Solved() {
      ProvedIsSolved(c, problem, arm, it);
    }
  }

  // ---- costs ----

  function RequestLength(it: Item): int {
    it.Req().artifact.byteLength
  }

  function ResponseLength(it: Item): int {
    it.completion.payload.result.response.byteLength
  }

  function LeanTime(it: Item): int {
    if it.completion.payload.receipt.None? then 0 else it.completion.payload.receipt.value.elapsed
  }

  function HostTime(it: Item): int {
    it.receipt.orchestrationMilliseconds
  }

  /** The receipt's four measurements are the completion's own sizes and time, and the host's. */
  predicate Measured(it: Item) {
    && it.receipt.requestBytes == RequestLength(it) && it.receipt.responseBytes == ResponseLength(it)
    && it.receipt.verifierMilliseconds == LeanTime(it)
  }

  lemma {:induction false} SoundIsMeasured(ledger: Frame, j: Joined, r: LedgerReceipt)
    requires Sound(ledger, j, r)
    ensures Measured(Item(j.completion, r))
  {
  }

  lemma {:induction false} SumThrough(g: Cost.Attempted<Digest> -> int, h: Item -> int, cell: seq<Item>)
    requires forall i :: 0 <= i < |cell| ==> g(Accounted(cell[i])) == h(cell[i])
    ensures Sum(g, Map(Accounted, cell)) == Sum(h, cell)
  {
    if cell != [] {
      SumThrough(g, h, cell[1..]);
      assert Map(Accounted, cell)[1..] == Map(Accounted, cell[1..]);
    }
  }

  lemma {:induction false} CellSums(cell: seq<Item>)
    requires forall i :: 0 <= i < |cell| ==> Measured(cell[i])
    ensures Sum(Cost.RequestBytes<Digest>, Map(Accounted, cell)) == Sum(RequestLength, cell)
    ensures Sum(Cost.ResponseBytes<Digest>, Map(Accounted, cell)) == Sum(ResponseLength, cell)
    ensures Sum(Cost.VerifierMs<Digest>, Map(Accounted, cell)) == Sum(LeanTime, cell)
    ensures Sum(Cost.OrchestrationMs<Digest>, Map(Accounted, cell)) == Sum(HostTime, cell)
  {
    SumThrough(Cost.RequestBytes<Digest>, RequestLength, cell);
    SumThrough(Cost.ResponseBytes<Digest>, ResponseLength, cell);
    SumThrough(Cost.VerifierMs<Digest>, LeanTime, cell);
    SumThrough(Cost.OrchestrationMs<Digest>, HostTime, cell);
  }

  /** Attempts of one cell have different requests. */
  lemma {:induction false} RequestsDiffer(cell: seq<Item>)
    requires FullCell(cell)
    ensures Distinct(Map(Cost.RequestOf<Digest>, Map(Accounted, cell)))
  {
    var requests := Map(Cost.RequestOf<Digest>, Map(Accounted, cell));
    forall i, j | 0 <= i < j < |requests| ensures requests[i] != requests[j] {
      FullCellLength(cell);
      FullCellAt(cell, i);
      FullCellAt(cell, j);
      DifferentRequests(cell[i], cell[j]);
    }
  }

  lemma FullCellLength(cell: seq<Item>)
    requires FullCell(cell)
    ensures |cell| == ATTEMPTS_PER_CELL
  {
  }

  lemma DifferentRequests(a: Item, b: Item)
    requires AttemptOf(a) != AttemptOf(b)
    ensures a.Req().Sha() != b.Req().Sha()
  {
  }

  /** The record's cost is exactly what its sixteen closed attempts account for. */
  lemma {:induction false} CostIsConserved(c: Context, problem: string, arm: Arm)
    requires problem in c.reports && ReportFits(c.reports[problem], c.basis)
    requires CellOk(c, c.reports[problem], problem, arm)
    requires forall i :: 0 <= i < |SortedCell(c.items, problem, arm)| ==> Measured(SortedCell(c.items, problem, arm)[i])
    ensures var cost, cell := CellRecord(c, problem, arm).cost, SortedCell(c.items, problem, arm);
      && cost.modelCalls == ATTEMPTS_PER_CELL
      && cost.inputTokens == Sum(RequestLength, cell) && cost.outputTokens == Sum(ResponseLength, cell)
      && cost.verifierMilliseconds == Sum(LeanTime, cell) && cost.orchestrationMilliseconds == Sum(HostTime, cell)
  {
    var cell := SortedCell(c.items, problem, arm);
    FullCellLength(cell);
    RequestsDiffer(cell);
    CellSums(cell);
    var report := c.reports[problem];
    TraceInReport(report, arm);
    TraceConserved(TraceFor(report, arm).value, cell, c.basis);
  }

  lemma {:induction false} TraceConserved(trace: Cost.Trace<Digest>, cell: seq<Item>, basis: UsageBasis)
    requires Cost.ValidTrace(trace) && Cost.Closed(trace) && Cost.Reconciled(trace, Map(Accounted, cell), basis)
    requires Distinct(Map(Cost.RequestOf<Digest>, Map(Accounted, cell)))
    ensures var cost := Cost.TraceTotal(trace.events);
      && cost.modelCalls == |cell|
      && cost.inputTokens == Sum(Cost.RequestBytes<Digest>, Map(Accounted, cell))
      && cost.outputTokens == Sum(Cost.ResponseBytes<Digest>, Map(Accounted, cell))
      && cost.verifierMilliseconds == Sum(Cost.VerifierMs<Digest>, Map(Accounted, cell))
      && cost.orchestrationMilliseconds == Sum(Cost.OrchestrationMs<Digest>, Map(Accounted, cell))
  {
    Cost.Conservation(trace, Map(Accounted, cell), basis);
    Cost.TraceTotals(trace.events);
  }

  // ---- everything together ----

  /** Problems come sorted, each once, and they are those of the closed run. */
  lemma {:induction false} ProblemsInOrder(items: seq<Item>)
    ensures Sorted(TextLeq, Problems(items)) && Distinct(Problems(items))
    ensures forall p :: p in Problems(items) <==> p in Map(NativeId, items)
  {
    var once := Dedup(Map(NativeId, items));
    TextOrder();
    SortSorts(TextLeq, once);
    SortPermutes(TextLeq, once);
    DedupDistinct(Map(NativeId, items));
    MultisetDistinct(once, Problems(items));
  }

  lemma {:induction false} ProblemOkAt(c: Context, problems: seq<string>, i: nat)
    requires AllProblemsOk(c, problems) && i < |problems|
    ensures ProblemOk(c, problems[i])
  {
    if i < |problems| - 1 {
      ProblemOkAt(c, problems[..|problems| - 1], i);
    }
  }

  lemma {:induction false} RunIsMeasured(
    f: Frame, runId: string, rows: Rows, ledger: Frame, join: Join, receipts: seq<LedgerReceipt>, items: seq<Item>, it: Item)
    requires Run(f, runId, rows, ledger, join, receipts, items) && it in items
    ensures Measured(it)
  {
    var i :| 0 <= i < |items| && items[i] == it;
    assert Sound(ledger, join.joined[i], receipts[i]);
    SoundIsMeasured(ledger, join.joined[i], receipts[i]);
  }

  lemma {:induction false} RunIsCompleted(
    f: Frame, runId: string, rows: Rows, ledger: Frame, join: Join, receipts: seq<LedgerReceipt>, items: seq<Item>)
    requires Run(f, runId, rows, ledger, join, receipts, items)
    ensures AllCompleted(items)
  {
    forall i: nat | i < |items| ensures ValidCompletion(items[i].completion) {
      assert Sound(ledger, join.joined[i], receipts[i]);
    }
  }

  /** The one closed dispatch of the run with this problem, arm and attempt. */
  ghost predicate OnlyItem(items: seq<Item>, key: SlotKey, it: Item) {
    it in items && forall other :: other in items ==> (KeyOf(other) == key <==> other == it)
  }

  /** Line `a` of the record, in every one of its vectors, is that of the run's one dispatch of attempt `a`. */
  ghost predicate AlignedAt(items: seq<Item>, problem: string, arm: Arm, r: EvidenceRecord, a: nat) {
    a < |r.lines| && exists it :: OnlyItem(items, (problem, arm, a), it) && r.lines[a] == LineOf(it)
  }

  lemma {:induction false} CellAligned(c: Context, problem: string, arm: Arm, a: nat)
    requires AllCompleted(c.items) && Distinct(Map(KeyOf, c.items)) && FullCell(SortedCell(c.items, problem, arm))
    requires a < ATTEMPTS_PER_CELL
    ensures AlignedAt(c.items, problem, arm, CellRecord(c, problem, arm), a)
  {
    FullCellLength(SortedCell(c.items, problem, arm));
    var it := SortedCell(c.items, problem, arm)[a];
    AttemptsAligned(c.items, problem, arm, a, it);
    forall other | other in c.items ensures KeyOf(other) == (problem, arm, a) <==> other == it {
      AttemptsAligned(c.items, problem, arm, a, other);
    }
    LineAt(c, problem, arm, a);
    assert OnlyItem(c.items, (problem, arm, a), it);
  }

  /** The record's cost is what the cell's attempts account for. */
  ghost predicate Costed(items: seq<Item>, problem: string, arm: Arm, r: EvidenceRecord) {
    var cell := SortedCell(items, problem, arm);
    && r.cost.modelCalls == ATTEMPTS_PER_CELL
    && r.cost.inputTokens == Sum(RequestLength, cell) && r.cost.outputTokens == Sum(ResponseLength, cell)
    && r.cost.verifierMilliseconds == Sum(LeanTime, cell) && r.cost.orchestrationMilliseconds == Sum(HostTime, cell)
  }

  /** Sixteen lines, each from its own attempt. */
  ghost predicate Aligned(items: seq<Item>, problem: string, arm: Arm, r: EvidenceRecord) {
    |r.lines| == ATTEMPTS_PER_CELL && forall a: nat :: a < ATTEMPTS_PER_CELL ==> AlignedAt(items, problem, arm, r, a)
  }

  /** What the record of one problem and arm says about the run. */
  ghost predicate Derived(items: seq<Item>, problem: string, arm: Arm, r: EvidenceRecord) {
    && r.problemId == problem && r.arm == arm
    && Aligned(items, problem, arm, r)
    && (r.Solved() <==> exists it :: it in items && CellOf(it) == (problem, arm) && Proved(it))
    && Costed(items, problem, arm, r)
  }

  lemma {:induction false} CellIsCosted(
    f: Frame, runId: string, rows: Rows, ledger: Frame, join: Join, receipts: seq<LedgerReceipt>, items: seq<Item>,
    c: Context, problem: string, k: nat)
    requires Run(f, runId, rows, ledger, join, receipts, items) && c.items == items && k < 5 && ProblemOk(c, problem)
    ensures Costed(items, problem, ARMS[k], CellRecord(c, problem, ARMS[k]))
  {
    var cell := SortedCell(items, problem, ARMS[k]);
    forall i | 0 <= i < |cell| ensures Measured(cell[i]) {
      assert cell[i] in cell;
      CellMembers(items, problem, ARMS[k], cell[i]);
      RunIsMeasured(f, runId, rows, ledger, join, receipts, items, cell[i]);
    }
    CostIsConserved(c, problem, ARMS[k]);
  }

  lemma {:induction false} CellIsAligned(c: Context, problem: string, arm: Arm)
    requires AllCompleted(c.items) && Distinct(Map(KeyOf, c.items)) && FullCell(SortedCell(c.items, problem, arm))
    ensures Aligned(c.items, problem, arm, CellRecord(c, problem, arm))
  {
    FullCellLength(SortedCell(c.items, problem, arm));
    forall a: nat | a < ATTEMPTS_PER_CELL ensures AlignedAt(c.items, problem, arm, CellRecord(c, problem, arm), a) {
      CellAligned(c, problem, arm, a);
    }
  }

  lemma {:induction false} CellIsDerived(
    f: Frame, runId: string, rows: Rows, ledger: Frame, join: Join, receipts: seq<LedgerReceipt>, items: seq<Item>,
    c: Context, problem: string, k: nat)
    requires Run(f, runId, rows, ledger, join, receipts, items) && c.items == items && k < 5 && ProblemOk(c, problem)
    requires Distinct(Map(KeyOf, items))
    ensures Derived(items, problem, ARMS[k], CellRecord(c, problem, ARMS[k]))
  {
    RunIsCompleted(f, runId, rows, ledger, join, receipts, items);
    SolvedMeansProved(c, problem, ARMS[k]);
    CellIsAligned(c, problem, ARMS[k]);
    CellIsCosted(f, runId, rows, ledger, join, receipts, items, c, problem, k);
  }

  /** Whenever the bridge returns: dispatches fill the plan one to one; there is one record for each problem of the run
      and arm, problems strictly sorted; and each record is derived from that cell's sixteen closed attempts, line `a`
      from attempt `a`. */
  lemma {:induction false} BridgeDerives(
    f: Frame, runId: string, rows: Rows, ledger: Frame, bindings: map<Digest, Binding>, receipts: map<Digest, LedgerReceipt>,
    join: Join, reports: map<string, Report>, records: seq<EvidenceRecord>, i: nat, k: nat)
    requires Chain(runId, rows.entries)
    requires Bridged(f, runId, rows, ledger, bindings, receipts, join, reports, records)
    requires var items := Zip(join.joined, Lookups(receipts, Map(DispatchOf, join.joined)));
      i < |Problems(items)| && k < 5
    ensures var items := Zip(join.joined, Lookups(receipts, Map(DispatchOf, join.joined)));
      && multiset(Map(KeyOf, items)) == multiset(Map(KeyOfSlot, f.plan)) && Distinct(Map(KeyOfSlot, f.plan))
      && Sorted(TextLeq, Problems(items)) && Distinct(Problems(items))
      && (forall p :: p in Problems(items) <==> p in Map(NativeId, items))
      && |records| == 5 * |Problems(items)|
      && Derived(items, Problems(items)[i], ARMS[k], records[5 * i + k])
  {
    var rs := Lookups(receipts, Map(DispatchOf, join.joined));
    var items := Zip(join.joined, rs);
    var c := ContextOf(items, reports);
    BridgedRun(f, runId, rows, ledger, bindings, receipts, join, reports, records);
    DispatchesFillThePlan(f, runId, rows, ledger, join, rs, items, reports);
    ProblemsInOrder(items);
    LaidAt(CellMaker(c), Problems(items), records, i, k);
    ProblemOkAt(c, Problems(items), i);
    CellIsDerived(f, runId, rows, ledger, join, rs, items, c, Problems(items)[i], k);
  }
}
