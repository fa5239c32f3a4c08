/** How bridged records look to the evaluator's gate: every digest as text, eight parallel vectors, one bundle; and
    exactly when the gate admits them. */
module BridgedBundle {
  import opened Contracts
  import opened Sorting
  import opened Grouping
  import opened Records
  import opened Bridge
  import Cost
  import Dispatch
  import Ledger = ExecutionLedger
  import R = BridgeResults
  import C = ConfirmatoryEvaluator
  import Gate = EvidenceGate

  /** The texts of digests and of the usage basis. */
  datatype Names = Names(
    digest: Digest -> string, binding: Ledger.Binding -> string, receipt: Ledger.LedgerReceipt -> string,
    context: Ledger.ContextReceipt -> string, predecessor: Ledger.PredecessorReceipt -> string,
    record: EvidenceRecord -> string, trace: Cost.Trace<Digest> -> string, basis: UsageBasis -> string)

  ghost predicate Injective<T(!new)>(f: T -> string) {
    forall a, b :: f(a) == f(b) ==> a == b
  }

  ghost predicate Written<T(!new)>(f: T -> string) {
    forall a :: f(a) != ""
  }

  /** Different things have different, non-empty texts, and no digest reads like a typed absence. */
  ghost predicate Faithful(n: Names) {
    && Injective(n.digest) && Injective(n.binding) && Injective(n.receipt) && Injective(n.context) && Injective(n.predecessor)
    && Injective(n.record) && Injective(n.trace)
    && Written(n.digest) && Written(n.binding) && Written(n.receipt) && Written(n.context) && Written(n.predecessor)
    && forall d :: !Gate.NotInvoked(n.digest(d))
  }

  function EvidenceText(n: Names, e: VerifierEvidence): string {
    match e
    case AbsentFor(completion) => "NOT_INVOKED:" + n.digest(completion)
    case Present(receipt) => n.digest(receipt)
  }

  /** What line `l` contributes to vector `v`. */
  function LineText(n: Names, v: nat, l: Line): string {
    if v == 0 then n.digest(l.protocolDispatch)
    else if v == 1 then n.binding(l.receipt.binding)
    else if v == 2 then n.digest(l.dispatchId)
    else if v == 3 then n.digest(l.completion)
    else if v == 4 then EvidenceText(n, l.verifier)
    else if v == 5 then n.receipt(l.receipt)
    else if v == 6 then n.context(l.receipt.context)
    else n.predecessor(l.receipt.predecessor)
  }

  function TextField(n: Names, v: nat): Line -> Field<string> {
    (l: Line) => Typed(LineText(n, v, l))
  }

  function StatusField(l: Line): Field<CompletionStatus> {
    Typed(l.status)
  }

  function GateCost(c: CompleteCost): Gate.Cost {
    Gate.Cost(Typed(c.modelCalls), Typed(c.inputTokens), Typed(c.outputTokens), Typed(c.verifierMilliseconds),
              Typed(c.orchestrationMilliseconds))
  }

  function GateVectors(n: Names, lines: seq<Line>): (vs: seq<Field<seq<Field<string>>>>)
    ensures |vs| == Gate.VECTOR_COUNT
    ensures forall v: nat :: v < Gate.VECTOR_COUNT ==> vs[v] == Typed(Map(TextField(n, v), lines))
  {
    seq(Gate.VECTOR_COUNT, v requires 0 <= v < Gate.VECTOR_COUNT => Typed(Map(TextField(n, v), lines)))
  }

  /** A bridged record as the gate reads it. */
  function GateRecord(n: Names, bindings: Gate.Bindings, r: EvidenceRecord): Gate.Record {
    Gate.Record(bindings, r.shared.experimentId, r.shared.budgetId, n.basis(r.basis), Typed(r.arm), Typed(r.problemId),
                n.digest(r.identity), Typed(Map(StatusField, r.lines)), GateVectors(n, r.lines), Typed(GateCost(r.cost)),
                n.record(r), n.trace(r.trace))
  }

  function Gating(n: Names, bindings: Gate.Bindings): EvidenceRecord -> Gate.Record {
    (r: EvidenceRecord) => GateRecord(n, bindings, r)
  }

  function AsField(g: Gate.Record): Field<Gate.Record> {
    Typed(g)
  }

  function BundleOf(n: Names, bindings: Gate.Bindings, records: seq<EvidenceRecord>): Gate.Bundle {
    Gate.Bundle(bindings, Typed(Map(AsField, Map(Gating(n, bindings), records))))
  }

  lemma {:induction false} BundleBodies(n: Names, bindings: Gate.Bindings, records: seq<EvidenceRecord>)
    ensures Gate.WellShaped(BundleOf(n, bindings, records))
    ensures BundleOf(n, bindings, records).records.Typed? && Gate.AllTyped(BundleOf(n, bindings, records).records.value)
    ensures Gate.Bodies(BundleOf(n, bindings, records).records.value) == Map(Gating(n, bindings), records)
  {
  }

  // ---- one record ----

  predicate Terminal(r: EvidenceRecord) {
    forall i :: 0 <= i < |r.lines| ==> r.lines[i].status == SUCCEEDED || r.lines[i].status == FAILED
  }

  /** The run's shared identifiers are the protocol's. */
  predicate SharedFits(p: Gate.Protocol, n: Names, shared: Shared, basis: UsageBasis) {
    shared.experimentId == p.experimentId && shared.budgetId == p.budgetId && n.basis(basis) == p.usageBasis
  }

  lemma {:induction false} LineWritten(n: Names, v: nat, l: Line)
    requires Faithful(n)
    ensures LineText(n, v, l) != ""
  {
  }

  lemma {:induction false} VectorsClean(n: Names, lines: seq<Line>)
    requires Faithful(n) && |lines| == ATTEMPTS_PER_CELL
    ensures forall v :: 0 <= v < Gate.VECTOR_COUNT ==> Gate.CleanVector(GateVectors(n, lines)[v])
  {
    forall v: nat, k: nat | v < Gate.VECTOR_COUNT && k < |lines|
      ensures Map(TextField(n, v), lines)[k].Typed? && Map(TextField(n, v), lines)[k].value != ""
    {
      LineWritten(n, v, lines[k]);
    }
  }

  lemma {:induction false} StatusesClean(lines: seq<Line>)
    requires |lines| == ATTEMPTS_PER_CELL
    ensures Gate.CleanStatuses(Typed(Map(StatusField, lines))) <==>
      forall i :: 0 <= i < |lines| ==> lines[i].status == SUCCEEDED || lines[i].status == FAILED
  {
    var statuses := Map(StatusField, lines);
    forall i | 0 <= i < |lines| ensures Gate.TerminalStatus(statuses[i]) <==> lines[i].status == SUCCEEDED || lines[i].status == FAILED {
      assert statuses[i] == Typed(lines[i].status);
    }
  }

  /** A full record is clean exactly when it fits the protocol, its outcomes are terminal and its cost is in the ceiling. */
  lemma {:induction false} RecordClean(p: Gate.Protocol, b: Gate.Bundle, n: Names, r: EvidenceRecord)
    requires Faithful(n) && |r.lines| == ATTEMPTS_PER_CELL && r.cost.modelCalls == ATTEMPTS_PER_CELL && r.problemId != ""
    ensures Gate.CleanRecord(p, b, GateRecord(n, b.bindings, r)) <==>
      SharedFits(p, n, r.shared, r.basis) && Terminal(r) && r.cost.Within(p.ceiling)
  {
    VectorsClean(n, r.lines);
    StatusesClean(r.lines);
    assert Gate.CostOf(Typed(GateCost(r.cost))) == r.cost;
  }

  // ---- one vector across the records ----

  /** The record of a cell, as the gate reads it. */
  function CellGate(n: Names, bindings: Gate.Bindings, c: Context): ((string, Arm)) -> Gate.Record {
    (cell: (string, Arm)) => GateRecord(n, bindings, CellRecord(c, cell.0, cell.1))
  }

  function ItemText(n: Names, v: nat): Item -> string {
    (it: Item) => LineText(n, v, LineOf(it))
  }

  /** The closed attempts in the order of the cells. */
  function CellItems(items: seq<Item>, cells: seq<(string, Arm)>): seq<Item> {
    if cells == [] then []
    else
      var n := |cells| - 1;
      CellItems(items, cells[..n]) + SortedCell(items, cells[n].0, cells[n].1)
  }

  lemma {:induction false} VectorOfCell(n: Names, bindings: Gate.Bindings, c: Context, cell: (string, Arm), v: nat)
    requires v < Gate.VECTOR_COUNT
    ensures Gate.VectorAt(CellGate(n, bindings, c)(cell), v) == Map(ItemText(n, v), SortedCell(c.items, cell.0, cell.1))
  {
    var lines := CellRecord(c, cell.0, cell.1).lines;
    var texts := Map(TextField(n, v), lines);
    assert Gate.Values(Typed(texts)) == Map(ItemText(n, v), SortedCell(c.items, cell.0, cell.1)) by {
      forall k | 0 <= k < |texts|
        ensures Gate.Values(Typed(texts))[k] == Map(ItemText(n, v), SortedCell(c.items, cell.0, cell.1))[k]
      {
        assert texts[k] == Typed(LineText(n, v, lines[k]));
      }
    }
  }

  lemma {:induction false} ColumnOf(n: Names, bindings: Gate.Bindings, c: Context, cells: seq<(string, Arm)>, v: nat)
    requires v < Gate.VECTOR_COUNT
    ensures Gate.Column(Map(CellGate(n, bindings, c), cells), v) == Map(ItemText(n, v), CellItems(c.items, cells))
  {
    if cells != [] {
      var m := |cells| - 1;
      var f := CellGate(n, bindings, c);
      ColumnOf(n, bindings, c, cells[..m], v);
      VectorOfCell(n, bindings, c, cells[m], v);
      MapSnoc(f, cells);
      MapConcat(ItemText(n, v), CellItems(c.items, cells[..m]), SortedCell(c.items, cells[m].0, cells[m].1));
    }
  }

  lemma {:induction false} MapSnoc<T, U>(f: T -> U, s: seq<T>)
    requires s != []
    ensures Map(f, s)[..|s| - 1] == Map(f, s[..|s| - 1]) && Map(f, s)[|s| - 1] == f(s[|s| - 1])
  {
  }

  lemma {:induction false} FilterDistinct<T(!new)>(keep: T -> bool, s: seq<T>)
    requires Distinct(s)
    ensures Distinct(Filter(keep, s))
  {
    if s != [] {
      var n := |s| - 1;
      TakeSnoc(s, n);
      TakeAll(s);
      DistinctSnoc(s[..n], s[n]);
      FilterDistinct(keep, s[..n]);
      FilterIn(keep, s[..n], s[n]);
      DistinctSnoc(Filter(keep, s[..n]), s[n]);
    }
  }

  lemma {:induction false} SortedCellDistinct(items: seq<Item>, problem: string, arm: Arm)
    requires Distinct(items)
    ensures Distinct(SortedCell(items, problem, arm))
  {
    var members := Filter(InCell(problem, arm), items);
    FilterDistinct(InCell(problem, arm), items);
    SortPermutes(AttemptLeq, members);
    MultisetDistinct(members, Sort(AttemptLeq, members));
  }

  lemma {:induction false} CellItemsIn(items: seq<Item>, cells: seq<(string, Arm)>, it: Item)
    ensures it in CellItems(items, cells) <==> it in items && CellOf(it) in cells
  {
    if cells != [] {
      var n := |cells| - 1;
      CellItemsIn(items, cells[..n], it);
      R.CellMembers(items, cells[n].0, cells[n].1, it);
      TakeSnoc(cells, n);
      TakeAll(cells);
    }
  }

  lemma {:induction false} CellItemsDistinct(items: seq<Item>, cells: seq<(string, Arm)>)
    requires Distinct(items) && Distinct(cells)
    ensures Distinct(CellItems(items, cells))
  {
    if cells != [] {
      var n := |cells| - 1;
      TakeSnoc(cells, n);
      TakeAll(cells);
      DistinctSnoc(cells[..n], cells[n]);
      CellItemsDistinct(items, cells[..n]);
      SortedCellDistinct(items, cells[n].0, cells[n].1);
      forall it | it in CellItems(items, cells[..n]) ensures it !in SortedCell(items, cells[n].0, cells[n].1) {
        CellItemsIn(items, cells[..n], it);
        R.CellMembers(items, cells[n].0, cells[n].1, it);
      }
      DistinctConcat(CellItems(items, cells[..n]), SortedCell(items, cells[n].0, cells[n].1));
    }
  }

  lemma {:induction false} MapDistinct<T(!new), U(!new)>(f: T -> U, s: seq<T>)
    requires Distinct(s) && forall a, b :: a in s && b in s && a != b ==> f(a) != f(b)
    ensures Distinct(Map(f, s))
  {
    forall i, j | 0 <= i < j < |s| ensures Map(f, s)[i] != Map(f, s)[j] {
      assert s[i] in s && s[j] in s && s[i] != s[j];
    }
  }

  // ---- texts of different attempts ----

  /** The completion is whole, and its receipt and companions are for its dispatch. */
  predicate Whole(it: Item) {
    Dispatch.ValidCompletion(it.completion) && Ledger.ForDispatch(it.receipt, it.completion.dispatchId)
  }

  /** Two attempts of one run differ in dispatch, slot and protocol dispatch. */
  predicate Different(a: Item, b: Item) {
    && a.completion.dispatchId != b.completion.dispatchId && KeyOf(a) != KeyOf(b)
    && a.receipt.protocolDispatch != b.receipt.protocolDispatch
  }

  lemma {:induction false} DigestsApart(n: Names, x: Digest, y: Digest)
    requires Faithful(n) && x != y
    ensures n.digest(x) != n.digest(y)
  {
  }

  lemma {:induction false} ReceiptsApart(a: Item, b: Item)
    requires Whole(a) && Whole(b) && KeyOf(a) != KeyOf(b)
    requires a.completion.payload.receipt.Some? && b.completion.payload.receipt.Some?
    ensures ReceiptDigest(a.completion.payload.receipt.value) != ReceiptDigest(b.completion.payload.receipt.value)
  {
    ReceiptBinds(a.completion.payload);
    ReceiptBinds(b.completion.payload);
  }

  lemma {:induction false} ReceiptBinds(p: Payload)
    requires ValidPayload(p) && p.receipt.Some?
    ensures p.receipt.value.requestSha == RequestDigest(p.request)
  {
  }

  lemma {:induction false} EvidenceApart(n: Names, a: Item, b: Item)
    requires Faithful(n) && Whole(a) && Whole(b) && Different(a, b)
    ensures EvidenceText(n, EvidenceOf(a)) != EvidenceText(n, EvidenceOf(b))
  {
    var x, y := EvidenceOf(a), EvidenceOf(b);
    var tag := "NOT_INVOKED:";
    if x.AbsentFor? && y.AbsentFor? {
      DigestsApart(n, x.completion, y.completion);
      assert (tag + n.digest(x.completion))[|tag|..] == n.digest(x.completion);
      assert (tag + n.digest(y.completion))[|tag|..] == n.digest(y.completion);
    } else if x.Present? && y.Present? {
      ReceiptsApart(a, b);
      DigestsApart(n, x.receipt, y.receipt);
    } else if x.AbsentFor? {
      assert Gate.NotInvoked(tag + n.digest(x.completion)) && !Gate.NotInvoked(n.digest(y.receipt));
    } else {
      assert Gate.NotInvoked(tag + n.digest(y.completion)) && !Gate.NotInvoked(n.digest(x.receipt));
    }
  }

  lemma {:induction false} ReceiptTextsApart(n: Names, a: Ledger.LedgerReceipt, b: Ledger.LedgerReceipt, x: Digest, y: Digest)
    requires Faithful(n) && Ledger.ForDispatch(a, x) && Ledger.ForDispatch(b, y) && x != y
    ensures n.binding(a.binding) != n.binding(b.binding) && n.receipt(a) != n.receipt(b)
    ensures n.context(a.context) != n.context(b.context) && n.predecessor(a.predecessor) != n.predecessor(b.predecessor)
  {
  }

  lemma {:induction false} CompletionsApart(a: Completion, b: Completion)
    requires a.dispatchId != b.dispatchId
    ensures a.Sha() != b.Sha()
  {
  }

  lemma {:induction false} DigestTextsApart(n: Names, v: nat, a: Item, b: Item)
    requires Faithful(n) && (v == 0 || v == 2 || v == 3) && Different(a, b)
    ensures LineText(n, v, LineOf(a)) != LineText(n, v, LineOf(b))
  {
    if v == 0 {
      DigestsApart(n, a.receipt.protocolDispatch, b.receipt.protocolDispatch);
    } else if v == 2 {
      DigestsApart(n, a.completion.dispatchId, b.completion.dispatchId);
    } else {
      CompletionsApart(a.completion, b.completion);
      DigestsApart(n, a.completion.Sha(), b.completion.Sha());
    }
  }

  /** No vector repeats a text for different attempts. */
  lemma {:induction false} TextsApart(n: Names, v: nat, a: Item, b: Item)
    requires Faithful(n) && v < Gate.VECTOR_COUNT && Whole(a) && Whole(b) && Different(a, b)
    ensures ItemText(n, v)(a) != ItemText(n, v)(b)
  {
    if v == 0 || v == 2 || v == 3 {
      DigestTextsApart(n, v, a, b);
    } else if v == 4 {
      EvidenceApart(n, a, b);
    } else {
      ReceiptTextsApart(n, a.receipt, b.receipt, a.completion.dispatchId, b.completion.dispatchId);
    }
  }

  // ---- the whole run ----

  function ProtocolOf(slot: Ledger.Slot): Digest {
    slot.protocolDispatch
  }

  lemma {:induction false} SlotAtSound(plan: seq<Ledger.Slot>, key: Ledger.SlotKey)
    ensures Ledger.SlotAt(plan, key).Some? ==>
      Ledger.SlotAt(plan, key).value in plan && Ledger.KeyOfSlot(Ledger.SlotAt(plan, key).value) == key
  {
    if plan != [] && Ledger.KeyOfSlot(plan[|plan| - 1]) != key {
      SlotAtSound(plan[..|plan| - 1], key);
    }
  }

  lemma {:induction false} SlotsApart(plan: seq<Ledger.Slot>, a: Ledger.Slot, b: Ledger.Slot)
    requires Distinct(Map(ProtocolOf, plan)) && a in plan && b in plan && a != b
    ensures a.protocolDispatch != b.protocolDispatch
  {
    var i :| 0 <= i < |plan| && plan[i] == a;
    var j :| 0 <= j < |plan| && plan[j] == b;
    var ids := Map(ProtocolOf, plan);
    if i < j {
      assert ids[i] != ids[j];
    } else {
      assert ids[j] != ids[i];
    }
  }

  lemma {:induction false} ProtocolsApart(f: Ledger.Frame, a: Item, b: Item)
    requires Distinct(Map(ProtocolOf, f.plan)) && Planned(f, a) && Planned(f, b) && KeyOf(a) != KeyOf(b)
    ensures a.receipt.protocolDispatch != b.receipt.protocolDispatch
  {
    SlotAtSound(f.plan, KeyOf(a));
    SlotAtSound(f.plan, KeyOf(b));
    SlotsApart(f.plan, Ledger.SlotAt(f.plan, KeyOf(a)).value, Ledger.SlotAt(f.plan, KeyOf(b)).value);
  }

  lemma {:induction false} RowIsWhole(
    frame: Ledger.Frame, bindings: map<Digest, Ledger.Binding>, receipts: map<Digest, Ledger.LedgerReceipt>, j: Dispatch.Joined)
    requires Ledger.RowVerifies(frame, bindings, receipts, j) && Ledger.LedgerSound(receipts)
    ensures Whole(Item(j.completion, receipts[j.completion.dispatchId]))
    ensures j.completion.dispatchId == j.entry.dispatchId
  {
    assert Ledger.ForDispatch(receipts[j.completion.dispatchId], j.completion.dispatchId);
  }

  /** What the gate's replay checks rest on. */
  ghost predicate Separated(items: seq<Item>) {
    && (forall i: nat :: i < |items| ==> Whole(items[i]))
    && (forall i: nat, j: nat :: i < j < |items| ==> Different(items[i], items[j]))
  }

  lemma {:induction false} JoinIsWhole(
    frame: Ledger.Frame, bindings: map<Digest, Ledger.Binding>, receipts: map<Digest, Ledger.LedgerReceipt>, join: Dispatch.Join, i: nat)
    requires Ledger.CoversJoin(frame, bindings, receipts, join) && Ledger.LedgerSound(receipts) && i < |join.joined|
    ensures var items := Zip(join.joined, Lookups(receipts, Map(Ledger.DispatchOf, join.joined)));
      Whole(items[i]) && join.joined[i].entry.dispatchId == items[i].completion.dispatchId
  {
    assert Ledger.RowVerifies(frame, bindings, receipts, join.joined[i]);
    RowIsWhole(frame, bindings, receipts, join.joined[i]);
    assert Map(Ledger.DispatchOf, join.joined)[i] == join.joined[i].completion.dispatchId;
  }

  lemma {:induction false} DispatchesApart(runId: string, rows: Dispatch.Rows, i: nat, j: nat)
    requires Dispatch.Chain(runId, rows.entries) && |rows.entries| == |rows.completions| && i < j < |rows.entries|
    ensures var joined := Dispatch.JoinedOf(rows.entries, rows.completions);
      joined[i].entry.dispatchId != joined[j].entry.dispatchId
  {
    Dispatch.JoinedAt(rows.entries, rows.completions, i);
    Dispatch.JoinedAt(rows.entries, rows.completions, j);
    Dispatch.ChainApart(runId, rows.entries, i, j);
  }

  /** A bridged run on a sound ledger, under a plan that gives each slot its own protocol dispatch, is separated. */
  lemma {:induction false} BridgedIsSeparated(
    f: Ledger.Frame, runId: string, rows: Dispatch.Rows, ledger: Ledger.Frame, bindings: map<Digest, Ledger.Binding>,
    receipts: map<Digest, Ledger.LedgerReceipt>, join: Dispatch.Join, reports: map<string, Report>, records: seq<EvidenceRecord>)
    requires Dispatch.Chain(runId, rows.entries) && Ledger.LedgerSound(receipts) && Distinct(Map(ProtocolOf, f.plan))
    requires Bridged(f, runId, rows, ledger, bindings, receipts, join, reports, records)
    ensures Separated(Zip(join.joined, Lookups(receipts, Map(Ledger.DispatchOf, join.joined))))
  {
    var rs := Lookups(receipts, Map(Ledger.DispatchOf, join.joined));
    var items := Zip(join.joined, rs);
    R.BridgedRun(f, runId, rows, ledger, bindings, receipts, join, reports, records);
    forall i: nat | i < |items| ensures Whole(items[i]) && join.joined[i].entry.dispatchId == items[i].completion.dispatchId {
      JoinIsWhole(ledger, bindings, receipts, join, i);
    }
    forall i: nat, j: nat | i < j < |items| ensures Different(items[i], items[j]) {
      DispatchesApart(runId, rows, i, j);
      R.KeysApart(f, runId, rows, ledger, join, rs, items, i, j);
      ProtocolsApart(f, items[i], items[j]);
    }
  }

  lemma {:induction false} SeparatedPair(items: seq<Item>, a: Item, b: Item)
    requires Separated(items) && a in items && b in items && a != b
    ensures Whole(a) && Whole(b) && Different(a, b)
  {
    var i: nat :| i < |items| && items[i] == a;
    var j: nat :| j < |items| && items[j] == b;
    if i < j {
      assert Different(items[i], items[j]);
    } else {
      assert Different(items[j], items[i]);
    }
  }

  lemma {:induction false} SeparatedDistinct(items: seq<Item>)
    requires Separated(items)
    ensures Distinct(items)
  {
    forall i: nat, j: nat | i < j < |items| ensures items[i] != items[j] {
      assert Different(items[i], items[j]);
    }
  }

  /** No vector holds one text twice, in any record of the bundle. */
  lemma {:induction false} ColumnDistinct(n: Names, bindings: Gate.Bindings, c: Context, cells: seq<(string, Arm)>, v: nat)
    requires Faithful(n) && Separated(c.items) && Distinct(cells) && v < Gate.VECTOR_COUNT
    ensures Distinct(Gate.Column(Map(CellGate(n, bindings, c), cells), v))
  {
    var ordered := CellItems(c.items, cells);
    SeparatedDistinct(c.items);
    CellItemsDistinct(c.items, cells);
    forall a, b | a in ordered && b in ordered && a != b ensures ItemText(n, v)(a) != ItemText(n, v)(b) {
      CellItemsIn(c.items, cells, a);
      CellItemsIn(c.items, cells, b);
      SeparatedPair(c.items, a, b);
      TextsApart(n, v, a, b);
    }
    MapDistinct(ItemText(n, v), ordered);
    ColumnOf(n, bindings, c, cells, v);
  }

  // ---- records and traces ----

  function RecordText(n: Names, c: Context): ((string, Arm)) -> string {
    (cell: (string, Arm)) => n.record(CellRecord(c, cell.0, cell.1))
  }

  function TraceText(n: Names, c: Context): ((string, Arm)) -> string {
    (cell: (string, Arm)) => n.trace(CellTrace(c, cell.0, cell.1))
  }

  lemma {:induction false} RecordsApart(n: Names, c: Context, a: (string, Arm), b: (string, Arm))
    requires Faithful(n) && a != b
    ensures n.record(CellRecord(c, a.0, a.1)) != n.record(CellRecord(c, b.0, b.1))
  {
    var x, y := CellRecord(c, a.0, a.1), CellRecord(c, b.0, b.1);
    assert (x.problemId, x.arm) == a && (y.problemId, y.arm) == b;
  }

  lemma {:induction false} TraceTextsApart(n: Names, c: Context, a: (string, Arm), b: (string, Arm))
    requires Faithful(n) && Reconciled(c, a) && Reconciled(c, b) && a != b
    ensures n.trace(CellTrace(c, a.0, a.1)) != n.trace(CellTrace(c, b.0, b.1))
  {
    CellTracesApart(c, a, b);
  }

  lemma {:induction false} EvidenceDistinct(n: Names, bindings: Gate.Bindings, c: Context, cells: seq<(string, Arm)>)
    requires Faithful(n) && Distinct(cells)
    ensures Distinct(Gate.Evidence(Map(CellGate(n, bindings, c), cells)))
  {
    forall a, b | a in cells && b in cells && a != b ensures RecordText(n, c)(a) != RecordText(n, c)(b) {
      RecordsApart(n, c, a, b);
    }
    MapDistinct(RecordText(n, c), cells);
    assert Gate.Evidence(Map(CellGate(n, bindings, c), cells)) == Map(RecordText(n, c), cells);
  }

  /** The cell passed the bridge's checks. */
  ghost predicate Reconciled(c: Context, cell: (string, Arm)) {
    cell.0 in c.reports && CellOk(c, c.reports[cell.0], cell.0, cell.1)
  }

  lemma {:induction false} TraceHasRequest(c: Context, cell: (string, Arm))
    requires Reconciled(c, cell)
    ensures SortedCell(c.items, cell.0, cell.1) != []
    ensures var it := SortedCell(c.items, cell.0, cell.1)[0];
      && CellOf(it) == cell
      && Cost.Bound(it.Req().Sha(), Cost.ModelCall) in Cost.ObservedManifest(CellTrace(c, cell.0, cell.1).events)
  {
    var items := SortedCell(c.items, cell.0, cell.1);
    R.FullCellLength(items);
    R.CellMembers(c.items, cell.0, cell.1, items[0]);
    assert items[0] in items;
    Cost.RequiredHas(Map(Accounted, items), c.basis, 0, Cost.ModelCall);
  }

  /** A request named in a cell's trace is one of the cell's. */
  lemma {:induction false} TraceOfCell(c: Context, cell: (string, Arm), it: Item)
    requires Reconciled(c, cell)
    requires Cost.Bound(it.Req().Sha(), Cost.ModelCall) in Cost.ObservedManifest(CellTrace(c, cell.0, cell.1).events)
    ensures CellOf(it) == cell
  {
    var items := SortedCell(c.items, cell.0, cell.1);
    Cost.RequiredKeys(Map(Accounted, items), c.basis, Cost.Bound(it.Req().Sha(), Cost.ModelCall));
    var requests := Map(Cost.RequestOf<Digest>, Map(Accounted, items));
    var i :| 0 <= i < |requests| && requests[i] == it.Req().Sha();
    assert items[i] in items;
    R.CellMembers(c.items, cell.0, cell.1, items[i]);
    SameRequestSameCell(items[i], it);
  }

  lemma {:induction false} SameRequestSameCell(a: Item, b: Item)
    requires a.Req().Sha() == b.Req().Sha()
    ensures CellOf(a) == CellOf(b)
  {
  }

  /** Different cells were reconciled with different traces. */
  lemma {:induction false} CellTracesApart(c: Context, a: (string, Arm), b: (string, Arm))
    requires Reconciled(c, a) && Reconciled(c, b) && a != b
    ensures CellTrace(c, a.0, a.1) != CellTrace(c, b.0, b.1)
  {
    TraceHasRequest(c, a);
    var it := SortedCell(c.items, a.0, a.1)[0];
    if Cost.Bound(it.Req().Sha(), Cost.ModelCall) in Cost.ObservedManifest(CellTrace(c, b.0, b.1).events) {
      TraceOfCell(c, b, it);
    }
  }

  lemma {:induction false} TracesDistinct(n: Names, bindings: Gate.Bindings, c: Context, cells: seq<(string, Arm)>)
    requires Faithful(n) && Distinct(cells) && forall cell :: cell in cells ==> Reconciled(c, cell)
    ensures Distinct(Gate.Traces(Map(CellGate(n, bindings, c), cells)))
  {
    forall a, b | a in cells && b in cells && a != b ensures TraceText(n, c)(a) != TraceText(n, c)(b) {
      TraceTextsApart(n, c, a, b);
    }
    MapDistinct(TraceText(n, c), cells);
    assert Gate.Traces(Map(CellGate(n, bindings, c), cells)) == Map(TraceText(n, c), cells);
  }

  lemma {:induction false} KeysAre(n: Names, bindings: Gate.Bindings, c: Context, cells: seq<(string, Arm)>)
    ensures Gate.Keys(Map(CellGate(n, bindings, c), cells)) == cells
  {
  }

  // ---- identities ----

  lemma {:induction false} SameProblemSameIdentity(items: seq<Item>, a: Item, b: Item)
    requires Functional(Map(NativeId, items), Map(Identity, items)) && a in items && b in items && NativeId(a) == NativeId(b)
    ensures Identity(a) == Identity(b)
  {
    var i :| 0 <= i < |items| && items[i] == a;
    var j :| 0 <= j < |items| && items[j] == b;
    if i < j {
      R.SameKeySameIdentity(items, i, j);
      assert Map(NativeId, items)[i] == Map(NativeId, items)[j];
    } else if j < i {
      assert Map(NativeId, items)[j] == Map(NativeId, items)[i];
    }
  }

  /** Records of one problem carry one identity. */
  lemma {:induction false} IdentitiesAgree(c: Context, a: (string, Arm), b: (string, Arm))
    requires Functional(Map(NativeId, c.items), Map(Identity, c.items)) && Reconciled(c, a) && Reconciled(c, b) && a.0 == b.0
    ensures CellRecord(c, a.0, a.1).identity == CellRecord(c, b.0, b.1).identity
  {
    var x, y := SortedCell(c.items, a.0, a.1), SortedCell(c.items, b.0, b.1);
    TraceHasRequest(c, a);
    TraceHasRequest(c, b);
    assert x[0] in x && y[0] in y;
    R.CellMembers(c.items, a.0, a.1, x[0]);
    R.CellMembers(c.items, b.0, b.1, y[0]);
    SameProblemSameIdentity(c.items, x[0], y[0]);
  }

  // ---- when the gate admits it ----

  function RecordOfCell(c: Context): ((string, Arm)) -> EvidenceRecord {
    (cell: (string, Arm)) => CellRecord(c, cell.0, cell.1)
  }

  /** A cell whose record the bridge built: reconciled, sixteen attempts, sixteen calls. */
  ghost predicate Whole16(c: Context, cell: (string, Arm)) {
    && Reconciled(c, cell) && |CellRecord(c, cell.0, cell.1).lines| == ATTEMPTS_PER_CELL
    && CellRecord(c, cell.0, cell.1).cost.modelCalls == ATTEMPTS_PER_CELL && cell.0 != ""
  }

  /** What the cells of a bridged run satisfy. */
  ghost predicate Sealed(n: Names, c: Context, cells: seq<(string, Arm)>) {
    && Faithful(n) && Separated(c.items) && Functional(Map(NativeId, c.items), Map(Identity, c.items))
    && cells != [] && Distinct(cells) && forall i: nat :: i < |cells| ==> Whole16(c, cells[i])
  }

  /** The outcome of the cell is scientific: terminal in every attempt, and within the ceiling. */
  predicate Scientific(p: Gate.Protocol, r: EvidenceRecord) {
    Terminal(r) && r.cost.Within(p.ceiling)
  }

  lemma {:induction false} CellClean(p: Gate.Protocol, b: Gate.Bundle, n: Names, c: Context, cell: (string, Arm))
    requires Faithful(n) && Whole16(c, cell)
    ensures Gate.CleanRecord(p, b, CellGate(n, b.bindings, c)(cell)) <==>
      SharedFits(p, n, c.shared, c.basis) && Scientific(p, CellRecord(c, cell.0, cell.1))
  {
    RecordClean(p, b, n, CellRecord(c, cell.0, cell.1));
  }

  lemma {:induction false} CellIdentity(n: Names, bindings: Gate.Bindings, c: Context, a: (string, Arm), b: (string, Arm))
    requires Functional(Map(NativeId, c.items), Map(Identity, c.items)) && Reconciled(c, a) && Reconciled(c, b) && a.0 == b.0
    ensures CellGate(n, bindings, c)(a).problemIdentity == CellGate(n, bindings, c)(b).problemIdentity
  {
    IdentitiesAgree(c, a, b);
  }

  lemma {:induction false} CellKey(n: Names, bindings: Gate.Bindings, c: Context, cell: (string, Arm))
    ensures Gate.KeyOf(CellGate(n, bindings, c)(cell)) == cell
  {
  }

  /** Each record is clean exactly for a common reason and one of its own. */
  ghost predicate Each(p: Gate.Protocol, b: Gate.Bundle, g: seq<Gate.Record>, fits: bool, own: nat -> bool) {
    forall i: nat :: i < |g| ==> (Gate.CleanRecord(p, b, g[i]) <==> fits && own(i))
  }

  /** If the two records are of one problem, they carry one identity. */
  predicate AgreeOn(x: Gate.Record, y: Gate.Record) {
    Gate.KeyOf(x).0 == Gate.KeyOf(y).0 ==> x.problemIdentity == y.problemIdentity
  }

  ghost predicate Agreeing(g: seq<Gate.Record>) {
    forall i, j :: 0 <= i < j < |g| ==> AgreeOn(g[i], g[j])
  }

  lemma {:induction false} CleanWhen(p: Gate.Protocol, b: Gate.Bundle, g: seq<Gate.Record>, fits: bool, own: nat -> bool)
    requires g != [] && Each(p, b, g, fits, own) && Agreeing(g)
    ensures Gate.CleanRecords(p, b, g) <==> fits && forall i: nat :: i < |g| ==> own(i)
  {
    assert Gate.CleanRecord(p, b, g[0]) <==> fits && own(0);
    forall i, j | 0 <= i < j < |g| && Gate.KeyOf(g[i]).0 == Gate.KeyOf(g[j]).0 ensures g[i].problemIdentity == g[j].problemIdentity {
      assert AgreeOn(g[i], g[j]);
    }
  }

  function OwnOf(p: Gate.Protocol, c: Context, cells: seq<(string, Arm)>): nat -> bool {
    (i: nat) => i < |cells| && Scientific(p, CellRecord(c, cells[i].0, cells[i].1))
  }

  lemma {:induction false} CleanAt(p: Gate.Protocol, b: Gate.Bundle, n: Names, c: Context, cells: seq<(string, Arm)>, i: nat)
    requires Sealed(n, c, cells) && i < |cells|
    ensures Gate.CleanRecord(p, b, Map(CellGate(n, b.bindings, c), cells)[i]) <==>
      SharedFits(p, n, c.shared, c.basis) && OwnOf(p, c, cells)(i)
  {
    assert Whole16(c, cells[i]);
    CellClean(p, b, n, c, cells[i]);
  }

  lemma {:induction false} AgreeAt(n: Names, bindings: Gate.Bindings, c: Context, cells: seq<(string, Arm)>, i: nat, j: nat)
    requires Sealed(n, c, cells) && i < j < |cells|
    ensures AgreeOn(Map(CellGate(n, bindings, c), cells)[i], Map(CellGate(n, bindings, c), cells)[j])
  {
    assert Whole16(c, cells[i]) && Whole16(c, cells[j]);
    CellKey(n, bindings, c, cells[i]);
    CellKey(n, bindings, c, cells[j]);
    if cells[i].0 == cells[j].0 {
      CellIdentity(n, bindings, c, cells[i], cells[j]);
    }
  }

  lemma {:induction false} CellsEach(p: Gate.Protocol, b: Gate.Bundle, n: Names, c: Context, cells: seq<(string, Arm)>)
    requires Sealed(n, c, cells)
    ensures Each(p, b, Map(CellGate(n, b.bindings, c), cells), SharedFits(p, n, c.shared, c.basis), OwnOf(p, c, cells))
  {
    forall i: nat | i < |cells|
      ensures Gate.CleanRecord(p, b, Map(CellGate(n, b.bindings, c), cells)[i]) <==>
              SharedFits(p, n, c.shared, c.basis) && OwnOf(p, c, cells)(i)
    {
      CleanAt(p, b, n, c, cells, i);
    }
  }

  lemma {:induction false} CellsAgree(n: Names, bindings: Gate.Bindings, c: Context, cells: seq<(string, Arm)>)
    requires Sealed(n, c, cells)
    ensures Agreeing(Map(CellGate(n, bindings, c), cells))
  {
    var g := Map(CellGate(n, bindings, c), cells);
    forall i, j | 0 <= i < j < |g| ensures AgreeOn(g[i], g[j]) {
      AgreeAt(n, bindings, c, cells, i, j);
    }
  }

  /** The records are clean exactly when the run's identifiers fit and every cell is scientific. */
  lemma {:induction false} CellsClean(p: Gate.Protocol, b: Gate.Bundle, n: Names, c: Context, cells: seq<(string, Arm)>)
    requires Sealed(n, c, cells)
    ensures Gate.CleanRecords(p, b, Map(CellGate(n, b.bindings, c), cells)) <==>
      SharedFits(p, n, c.shared, c.basis) && forall i: nat :: i < |cells| ==> OwnOf(p, c, cells)(i)
  {
    CellsEach(p, b, n, c, cells);
    CellsAgree(n, b.bindings, c, cells);
    CleanWhen(p, b, Map(CellGate(n, b.bindings, c), cells), SharedFits(p, n, c.shared, c.basis), OwnOf(p, c, cells));
  }

  lemma {:induction false} ExpectedOrderInjective(a: seq<string>, b: seq<string>)
    requires Gate.ExpectedOrder(a) == Gate.ExpectedOrder(b)
    ensures a == b
  {
    Gate.ExpectedOrderLength(a);
    Gate.ExpectedOrderLength(b);
    forall i | 0 <= i < |a| ensures a[i] == b[i] {
      Gate.ExpectedOrderAt(a, i, 0);
      Gate.ExpectedOrderAt(b, i, 0);
    }
  }

  lemma {:induction false} MapMap<T, U, V>(f: T -> U, g: U -> V, h: T -> V, s: seq<T>)
    requires forall i :: 0 <= i < |s| ==> g(f(s[i])) == h(s[i])
    ensures Map(g, Map(f, s)) == Map(h, s)
  {
  }

  ghost predicate Unreplayed(g: seq<Gate.Record>) {
    && (forall v :: 0 <= v < Gate.VECTOR_COUNT ==> Distinct(Gate.Column(g, v)))
    && Distinct(Gate.Evidence(g)) && Distinct(Gate.Traces(g))
  }

  lemma {:induction false} CellsReconciled(n: Names, c: Context, cells: seq<(string, Arm)>, cell: (string, Arm))
    requires Sealed(n, c, cells) && cell in cells
    ensures Reconciled(c, cell)
  {
    var i: nat :| i < |cells| && cells[i] == cell;
    assert Whole16(c, cells[i]);
  }

  /** Replay objects to nothing in a bridged run. */
  lemma {:induction false} NothingReplayed(n: Names, bindings: Gate.Bindings, c: Context, cells: seq<(string, Arm)>)
    requires Sealed(n, c, cells)
    ensures Unreplayed(Map(CellGate(n, bindings, c), cells))
  {
    forall v | 0 <= v < Gate.VECTOR_COUNT ensures Distinct(Gate.Column(Map(CellGate(n, bindings, c), cells), v)) {
      ColumnDistinct(n, bindings, c, cells, v);
    }
    EvidenceDistinct(n, bindings, c, cells);
    forall cell | cell in cells ensures Reconciled(c, cell) {
      CellsReconciled(n, c, cells, cell);
    }
    TracesDistinct(n, bindings, c, cells);
  }

  /** The gate's notion of a clean bundle, over the bundle's bodies. */
  lemma {:induction false} CleanOver(p: Gate.Protocol, n: Names, bindings: Gate.Bindings, records: seq<EvidenceRecord>, g: seq<Gate.Record>)
    requires g == Map(Gating(n, bindings), records) && Unreplayed(g)
    ensures var b := BundleOf(n, bindings, records);
      Gate.Clean(p, b) <==>
        && bindings.protocolRules == p.rulesSha256
        && bindings.creditStatus != p.draftStatus && bindings.creditStatus == p.productionStatus
        && Gate.CleanRecords(p, b, g) && Gate.Keys(g) == Gate.ExpectedOrder(p.problems)
  {
    BundleBodies(n, bindings, records);
  }

  /** The four things that decide admission. */
  ghost predicate Admits(
    p: Gate.Protocol, n: Names, bindings: Gate.Bindings, c: Context, problems: seq<string>, records: seq<EvidenceRecord>)
  {
    && bindings.protocolRules == p.rulesSha256
    && bindings.creditStatus != p.draftStatus && bindings.creditStatus == p.productionStatus
    && SharedFits(p, n, c.shared, c.basis)
    && problems == p.problems
    && forall i: nat :: i < |records| ==> Scientific(p, records[i])
  }

  /** A bridged bundle is clean, so that it carries a decision, exactly when the sealed rules, the production status
      and the run's identifiers are the protocol's, the problems are the frozen list, every attempt ended in SUCCEEDED
      or FAILED, and every cost is within the ceiling. Order, pairing, vectors and replay never fail. */
  lemma {:induction false} BundleClean(
    p: Gate.Protocol, n: Names, bindings: Gate.Bindings, c: Context, problems: seq<string>, records: seq<EvidenceRecord>)
    requires Sealed(n, c, Gate.ExpectedOrder(problems)) && records == Map(RecordOfCell(c), Gate.ExpectedOrder(problems))
    ensures Gate.Clean(p, BundleOf(n, bindings, records)) <==> Admits(p, n, bindings, c, problems, records)
  {
    var cells := Gate.ExpectedOrder(problems);
    var b := BundleOf(n, bindings, records);
    MapMap(RecordOfCell(c), Gating(n, bindings), CellGate(n, bindings, c), cells);
    CellsClean(p, b, n, c, cells);
    KeysAre(n, bindings, c, cells);
    NothingReplayed(n, bindings, c, cells);
    CleanOver(p, n, bindings, records, Map(CellGate(n, bindings, c), cells));
    if cells == Gate.ExpectedOrder(p.problems) {
      ExpectedOrderInjective(problems, p.problems);
    }
    ScientificCells(p, c, cells, records);
  }

  lemma {:induction false} ScientificCells(p: Gate.Protocol, c: Context, cells: seq<(string, Arm)>, records: seq<EvidenceRecord>)
    requires records == Map(RecordOfCell(c), cells)
    ensures (forall i: nat :: i < |records| ==> Scientific(p, records[i])) <==>
            (forall i: nat :: i < |cells| ==> OwnOf(p, c, cells)(i))
  {
    forall i: nat | i < |cells| ensures OwnOf(p, c, cells)(i) <==> Scientific(p, records[i]) {
      assert records[i] == CellRecord(c, cells[i].0, cells[i].1);
    }
  }
}
