/** From closed evidence to the verdict: bridged records through the evaluator's gate to its decision, which rests on
    which cells hold a kernel-verified answer. */
module Pipeline {
  import opened Contracts
  import opened Sorting
  import opened Grouping
  import opened Outcomes
  import Records
  import Dispatch
  import Ledger = ExecutionLedger
  import B = Bridge
  import R = BridgeResults
  import C = ConfirmatoryEvaluator
  import E = ExperimentEvaluator
  import Cost
  import Gate = EvidenceGate
  import Bundled = BridgedBundle
  import Schedule
  import Authority

  function StatusOf(l: B.Line): CompletionStatus {
    l.status
  }

  /** What the evaluator keeps of a bridged record. */
  function SnapshotOf(r: B.EvidenceRecord): C.CellSnapshot {
    C.CellSnapshot(r.problemId, r.arm, Map(StatusOf, r.lines), r.cost)
  }

  function KeyOf(s: C.CellSnapshot): (string, Arm) {
    (s.problemId, s.arm)
  }

  /** Some attempt of the cell was answered, and Lean passed that answer to that request. */
  ghost predicate ProvedCell(items: seq<B.Item>, cell: (string, Arm)) {
    exists it :: it in items && B.CellOf(it) == cell && R.Proved(it)
  }

  /** The outcome table as the evidence alone gives it. */
  ghost function ProofTable(items: seq<B.Item>, problems: seq<string>): Table {
    map cell | cell in Gate.ExpectedOrder(problems) :: ProvedCell(items, cell)
  }

  ghost function ClosedItems(receipts: map<Records.Digest, Ledger.LedgerReceipt>, join: Dispatch.Join): seq<B.Item>
    requires forall id :: id in Map(Ledger.DispatchOf, join.joined) ==> id in receipts
  {
    B.Zip(join.joined, Lookups(receipts, Map(Ledger.DispatchOf, join.joined)))
  }

  /** Each snapshot is found under its own key. */
  lemma {:induction false} CellAt(snapshots: seq<C.CellSnapshot>, i: nat)
    requires Distinct(Map(KeyOf, snapshots)) && i < |snapshots|
    ensures KeyOf(snapshots[i]) in C.Cells(snapshots) && C.Cells(snapshots)[KeyOf(snapshots[i])] == snapshots[i]
  {
    var n := |snapshots| - 1;
    if i < n {
      var keys := Map(KeyOf, snapshots);
      assert keys[i] != keys[n];
      forall a, b | 0 <= a < b < n ensures Map(KeyOf, snapshots[..n])[a] != Map(KeyOf, snapshots[..n])[b] {
        assert keys[a] != keys[b];
      }
      CellAt(snapshots[..n], i);
    }
  }

  lemma {:induction false} SolvedByStatuses(r: B.EvidenceRecord)
    requires |r.lines| == ATTEMPTS_PER_CELL
    ensures C.SolvedBy(SnapshotOf(r).statuses, ATTEMPTS_PER_CELL) <==> r.Solved()
  {
    var statuses := SnapshotOf(r).statuses;
    if r.Solved() {
      var i :| 0 <= i < |r.lines| && r.lines[i].status == SUCCEEDED;
      assert statuses[i] == SUCCEEDED;
    }
  }

  /** A record for each problem and arm, in canonical order, saying of its cell what the evidence says. */
  ghost predicate CellwiseDerived(items: seq<B.Item>, problems: seq<string>, records: seq<B.EvidenceRecord>) {
    && |records| == 5 * |problems|
    && forall i: nat, k: nat :: i < |problems| && k < 5 ==>
         R.Derived(items, problems[i], ARMS[k], records[5 * i + k])
  }

  lemma {:induction false} KeysAreCanonical(items: seq<B.Item>, problems: seq<string>, records: seq<B.EvidenceRecord>)
    requires CellwiseDerived(items, problems, records)
    ensures Map(KeyOf, Map(SnapshotOf, records)) == Gate.ExpectedOrder(problems)
  {
    var keys := Map(KeyOf, Map(SnapshotOf, records));
    Gate.ExpectedOrderLength(problems);
    forall x | 0 <= x < |keys| ensures keys[x] == Gate.ExpectedOrder(problems)[x] {
      var i, k := x / 5, x % 5;
      Gate.ExpectedOrderAt(problems, i, k);
      assert R.Derived(items, problems[i], ARMS[k], records[5 * i + k]);
    }
  }

  lemma {:induction false} TableCell(items: seq<B.Item>, problems: seq<string>, records: seq<B.EvidenceRecord>, i: nat, k: nat)
    requires CellwiseDerived(items, problems, records) && Distinct(problems) && i < |problems| && k < 5
    ensures var t := C.TableAt(C.Cells(Map(SnapshotOf, records)), ATTEMPTS_PER_CELL);
      (problems[i], ARMS[k]) in t && (t[(problems[i], ARMS[k])] <==> ProvedCell(items, (problems[i], ARMS[k])))
  {
    var snapshots := Map(SnapshotOf, records);
    KeysAreCanonical(items, problems, records);
    Gate.ExpectedOrderDistinct(problems);
    CellAt(snapshots, 5 * i + k);
    assert R.Derived(items, problems[i], ARMS[k], records[5 * i + k]);
    SolvedByStatuses(records[5 * i + k]);
  }

  lemma {:induction false} CellKnown(snapshots: seq<C.CellSnapshot>, cell: (string, Arm))
    requires cell in C.Cells(snapshots)
    ensures cell in Map(KeyOf, snapshots)
  {
    var n := |snapshots| - 1;
    TakeSnoc(snapshots, n);
    TakeAll(snapshots);
    MapAppend(KeyOf, snapshots[..n], snapshots[n]);
    if cell != KeyOf(snapshots[n]) {
      CellKnown(snapshots[..n], cell);
    }
  }

  lemma {:induction false} CellPlace(problems: seq<string>, cell: (string, Arm)) returns (i: nat, k: nat)
    requires cell in Gate.ExpectedOrder(problems)
    ensures i < |problems| && k < 5 && cell == (problems[i], ARMS[k])
  {
    Gate.ExpectedOrderMembers(problems, cell);
    i :| 0 <= i < |problems| && problems[i] == cell.0;
    Gate.ArmPosition(cell.1);
    k :| 0 <= k < 5 && ARMS[k] == cell.1;
  }

  predicate SameAt(t: Table, u: Table, cell: (string, Arm)) {
    (cell in t <==> cell in u) && (cell in t && cell in u ==> t[cell] == u[cell])
  }

  lemma {:induction false} SameTables(t: Table, u: Table)
    requires forall cell :: SameAt(t, u, cell)
    ensures t == u
  {
    forall cell ensures cell in t <==> cell in u {
      assert SameAt(t, u, cell);
    }
    forall cell | cell in t ensures t[cell] == u[cell] {
      assert SameAt(t, u, cell);
    }
  }

  lemma {:induction false} SameCell(items: seq<B.Item>, problems: seq<string>, records: seq<B.EvidenceRecord>, cell: (string, Arm))
    requires CellwiseDerived(items, problems, records) && Distinct(problems)
    ensures SameAt(C.TableAt(C.Cells(Map(SnapshotOf, records)), ATTEMPTS_PER_CELL), ProofTable(items, problems), cell)
  {
    if cell in C.Cells(Map(SnapshotOf, records)) {
      KeysAreCanonical(items, problems, records);
      CellKnown(Map(SnapshotOf, records), cell);
    }
    if cell in Gate.ExpectedOrder(problems) {
      var i, k := CellPlace(problems, cell);
      TableCell(items, problems, records, i, k);
    }
  }

  lemma {:induction false} ProofTableComplete(items: seq<B.Item>, problems: seq<string>)
    ensures Complete(ProofTable(items, problems), problems)
  {
    forall i, a | 0 <= i < |problems| && a in ARMS ensures (problems[i], a) in ProofTable(items, problems) {
      Gate.ExpectedOrderMembers(problems, (problems[i], a));
    }
  }

  /** The evaluator's table over the records is the proof table, and it is complete. */
  lemma {:induction false} TableIsProofs(items: seq<B.Item>, problems: seq<string>, records: seq<B.EvidenceRecord>)
    requires CellwiseDerived(items, problems, records) && Distinct(problems)
    ensures C.TableAt(C.Cells(Map(SnapshotOf, records)), ATTEMPTS_PER_CELL) == ProofTable(items, problems)
    ensures Complete(ProofTable(items, problems), problems)
  {
    var t, u := C.TableAt(C.Cells(Map(SnapshotOf, records)), ATTEMPTS_PER_CELL), ProofTable(items, problems);
    forall cell: (string, Arm) ensures SameAt(t, u, cell) {
      SameCell(items, problems, records, cell);
    }
    SameTables(t, u);
    ProofTableComplete(items, problems);
  }

  /** Over any table both evaluators state one criterion. */
  lemma {:induction false} CriterionIsShared(t: Table, problems: seq<string>, alpha: real)
    ensures C.Passes(t, problems, alpha) <==> E.Passes(t, problems, alpha)
  {
    forall control: Arm ensures C.ContrastPasses(t, problems, alpha, control) <==> E.Superior(t, problems, alpha, control) {
      C.ContrastsAgree(t, problems, alpha, control);
    }
  }

  lemma {:induction false} BridgedIsLaid(
    f: Ledger.Frame, runId: string, rows: Dispatch.Rows, ledger: Ledger.Frame, bindings: map<Records.Digest, Ledger.Binding>,
    receipts: map<Records.Digest, Ledger.LedgerReceipt>, join: Dispatch.Join, reports: map<string, B.Report>,
    records: seq<B.EvidenceRecord>)
    requires Dispatch.Chain(runId, rows.entries)
    requires B.Bridged(f, runId, rows, ledger, bindings, receipts, join, reports, records)
    ensures var items := ClosedItems(receipts, join);
      Distinct(B.Problems(items)) && CellwiseDerived(items, B.Problems(items), records)
  {
    var items := ClosedItems(receipts, join);
    var problems := B.Problems(items);
    R.ProblemsInOrder(items);
    LaidLength(B.CellMaker(B.ContextOf(items, reports)), problems, records);
    forall i: nat, k: nat | i < |problems| && k < 5 ensures R.Derived(items, problems[i], ARMS[k], records[5 * i + k]) {
      R.BridgeDerives(f, runId, rows, ledger, bindings, receipts, join, reports, records, i, k);
    }
  }

  // ---- through the gate ----

  lemma {:induction false} RecordAtCell(c: B.Context, problems: seq<string>, records: seq<B.EvidenceRecord>, x: nat)
    requires Grouping.Laid(B.CellMaker(c), problems, records) && x < |records|
    ensures MapsAt(Bundled.RecordOfCell(c), Gate.ExpectedOrder(problems), records, x)
  {
    var cells := Gate.ExpectedOrder(problems);
    LaidLength(B.CellMaker(c), problems, records);
    var i, k := x / 5, x % 5;
    Gate.ExpectedOrderAt(problems, i, k);
    LaidAt(B.CellMaker(c), problems, records, i, k);
    Through(records[x], B.CellMaker(c)(problems[i], k), Bundled.RecordOfCell(c)(cells[x]));
  }

  lemma {:induction false} RecordsAreCells(c: B.Context, problems: seq<string>, records: seq<B.EvidenceRecord>)
    requires Grouping.Laid(B.CellMaker(c), problems, records)
    ensures records == Map(Bundled.RecordOfCell(c), Gate.ExpectedOrder(problems))
  {
    Gate.ExpectedOrderLength(problems);
    LaidLength(B.CellMaker(c), problems, records);
    forall x: nat | x < |records| ensures MapsAt(Bundled.RecordOfCell(c), Gate.ExpectedOrder(problems), records, x) {
      RecordAtCell(c, problems, records, x);
    }
    MapByPoints(Bundled.RecordOfCell(c), Gate.ExpectedOrder(problems), records);
  }

  lemma {:induction false} OneSnapshot(n: Bundled.Names, bindings: Gate.Bindings, r: B.EvidenceRecord)
    ensures Gate.SnapshotOf(Bundled.GateRecord(n, bindings, r)) == SnapshotOf(r)
  {
    var statuses := Map(Bundled.StatusField, r.lines);
    assert Gate.Plain(Typed(statuses)) == Map(StatusOf, r.lines) by {
      forall i | 0 <= i < |r.lines| ensures Gate.Plain(Typed(statuses))[i] == Map(StatusOf, r.lines)[i] {
        assert statuses[i] == Typed(r.lines[i].status);
      }
    }
    assert Gate.CostOf(Typed(Bundled.GateCost(r.cost))) == r.cost;
  }

  /** The gate works on exactly the snapshots of the bridged records. */
  lemma {:induction false} GateSnapshots(n: Bundled.Names, bindings: Gate.Bindings, records: seq<B.EvidenceRecord>)
    ensures Gate.Snapshots(Map(Bundled.Gating(n, bindings), records)) == Map(SnapshotOf, records)
  {
    forall i | 0 <= i < |records|
      ensures Gate.Snapshots(Map(Bundled.Gating(n, bindings), records))[i] == Map(SnapshotOf, records)[i]
    {
      OneSnapshot(n, bindings, records[i]);
    }
  }

  lemma {:induction false} CellIsWhole(items: seq<B.Item>, c: B.Context, problems: seq<string>, records: seq<B.EvidenceRecord>, i: nat, k: nat)
    requires c.items == items && CellwiseDerived(items, problems, records) && Grouping.Laid(B.CellMaker(c), problems, records)
    requires B.AllProblemsOk(c, problems) && "" !in problems && i < |problems| && k < 5
    ensures Bundled.Whole16(c, (problems[i], ARMS[k]))
  {
    R.ProblemOkAt(c, problems, i);
    LaidAt(B.CellMaker(c), problems, records, i, k);
    assert R.Derived(items, problems[i], ARMS[k], records[5 * i + k]);
  }

  /** The records of a run: one a cell, in canonical order, each derived, from cells the bridge reconciled. */
  ghost predicate Standing(c: B.Context, problems: seq<string>, records: seq<B.EvidenceRecord>) {
    && CellwiseDerived(c.items, problems, records) && Grouping.Laid(B.CellMaker(c), problems, records)
    && B.AllProblemsOk(c, problems) && Distinct(problems) && problems != []
    && Functional(Map(B.NativeId, c.items), Map(B.Identity, c.items))
  }

  lemma {:induction false} WholeAt(c: B.Context, problems: seq<string>, records: seq<B.EvidenceRecord>, x: nat)
    requires Standing(c, problems, records) && "" !in problems && x < |Gate.ExpectedOrder(problems)|
    ensures Bundled.Whole16(c, Gate.ExpectedOrder(problems)[x])
  {
    Gate.ExpectedOrderLength(problems);
    Gate.ExpectedOrderAt(problems, x / 5, x % 5);
    CellIsWhole(c.items, c, problems, records, x / 5, x % 5);
  }

  lemma {:induction false} StandingIsSealed(c: B.Context, problems: seq<string>, records: seq<B.EvidenceRecord>, n: Bundled.Names)
    requires Standing(c, problems, records) && "" !in problems && Bundled.Faithful(n) && Bundled.Separated(c.items)
    ensures Bundled.Sealed(n, c, Gate.ExpectedOrder(problems))
  {
    Gate.ExpectedOrderLength(problems);
    Gate.ExpectedOrderDistinct(problems);
    forall x: nat | x < |Gate.ExpectedOrder(problems)| ensures Bundled.Whole16(c, Gate.ExpectedOrder(problems)[x]) {
      WholeAt(c, problems, records, x);
    }
  }

  lemma {:induction false} BridgedIsStanding(
    f: Ledger.Frame, runId: string, rows: Dispatch.Rows, ledger: Ledger.Frame, bindings: map<Records.Digest, Ledger.Binding>,
    receipts: map<Records.Digest, Ledger.LedgerReceipt>, join: Dispatch.Join, reports: map<string, B.Report>,
    records: seq<B.EvidenceRecord>)
    requires Dispatch.Chain(runId, rows.entries)
    requires B.Bridged(f, runId, rows, ledger, bindings, receipts, join, reports, records)
    ensures Standing(B.ContextOf(ClosedItems(receipts, join), reports), B.Problems(ClosedItems(receipts, join)), records)
  {
    BridgedIsLaid(f, runId, rows, ledger, bindings, receipts, join, reports, records);
    SomeProblem(ClosedItems(receipts, join));
  }

  lemma {:induction false} SomeProblem(items: seq<B.Item>)
    requires items != []
    ensures B.Problems(items) != []
  {
    R.ProblemsInOrder(items);
    assert Map(B.NativeId, items)[0] in Map(B.NativeId, items);
  }

  /** The gate lets the bundle through and decides PASS. */
  ghost predicate PassesGate(p: Gate.Protocol, b: Gate.Bundle) {
    Gate.Clean(p, b) && Gate.DecisionOf(p, Gate.Snapshots(Gate.Bodies(b.records.value))) == PASS
  }

  lemma {:induction false} BundleSnapshots(n: Bundled.Names, bindings: Gate.Bindings, records: seq<B.EvidenceRecord>)
    ensures var b := Bundled.BundleOf(n, bindings, records);
      && b.records.Typed? && Gate.AllTyped(b.records.value)
      && Gate.Snapshots(Gate.Bodies(b.records.value)) == Map(SnapshotOf, records)
  {
    Bundled.BundleBodies(n, bindings, records);
    GateSnapshots(n, bindings, records);
  }

  lemma {:induction false} DecisionIsProofs(p: Gate.Protocol, items: seq<B.Item>, records: seq<B.EvidenceRecord>)
    requires CellwiseDerived(items, p.problems, records) && Distinct(p.problems)
    ensures Gate.DecisionOf(p, Map(SnapshotOf, records)) == PASS <==> E.Passes(ProofTable(items, p.problems), p.problems, p.alpha)
  {
    TableIsProofs(items, p.problems, records);
    CriterionIsShared(ProofTable(items, p.problems), p.problems, p.alpha);
  }

  lemma {:induction false} GatePasses(p: Gate.Protocol, n: Bundled.Names, bound: Gate.Bindings, records: seq<B.EvidenceRecord>)
    ensures var b := Bundled.BundleOf(n, bound, records);
      PassesGate(p, b) <==> Gate.Clean(p, b) && Gate.DecisionOf(p, Map(SnapshotOf, records)) == PASS
  {
    BundleSnapshots(n, bound, records);
  }

  lemma {:induction false} AdmittedIsClean(
    p: Gate.Protocol, n: Bundled.Names, bound: Gate.Bindings, c: B.Context, problems: seq<string>, records: seq<B.EvidenceRecord>)
    requires Standing(c, problems, records) && Bundled.Sealed(n, c, Gate.ExpectedOrder(problems))
    ensures Gate.Clean(p, Bundled.BundleOf(n, bound, records)) == Bundled.Admits(p, n, bound, c, problems, records)
  {
    RecordsAreCells(c, problems, records);
    Bundled.BundleClean(p, n, bound, c, problems, records);
  }

  /** Records of the protocol's problems are decided by their proofs. */
  lemma {:induction false} AdmittedIsDecided(
    p: Gate.Protocol, n: Bundled.Names, bound: Gate.Bindings, c: B.Context, problems: seq<string>, records: seq<B.EvidenceRecord>)
    requires Standing(c, problems, records) && Bundled.Admits(p, n, bound, c, problems, records)
    ensures (Gate.DecisionOf(p, Map(SnapshotOf, records)) == PASS) == E.Passes(ProofTable(c.items, p.problems), p.problems, p.alpha)
  {
    DecisionIsProofs(p, c.items, records);
  }

  lemma {:induction false} CleanVerdict(p: Gate.Protocol, n: Bundled.Names, bound: Gate.Bindings, records: seq<B.EvidenceRecord>)
    requires Gate.Clean(p, Bundled.BundleOf(n, bound, records))
    ensures PassesGate(p, Bundled.BundleOf(n, bound, records)) == (Gate.DecisionOf(p, Map(SnapshotOf, records)) == PASS)
  {
    GatePasses(p, n, bound, records);
  }

  lemma {:induction false} AdmittedDecides(
    p: Gate.Protocol, n: Bundled.Names, bound: Gate.Bindings, c: B.Context, problems: seq<string>, records: seq<B.EvidenceRecord>)
    requires Standing(c, problems, records) && Bundled.Sealed(n, c, Gate.ExpectedOrder(problems))
    requires Bundled.Admits(p, n, bound, c, problems, records)
    ensures PassesGate(p, Bundled.BundleOf(n, bound, records)) == (Gate.DecisionOf(p, Map(SnapshotOf, records)) == PASS)
  {
    AdmittedIsClean(p, n, bound, c, problems, records);
    CleanVerdict(p, n, bound, records);
  }

  lemma {:induction false} AdmittedVerdict(
    p: Gate.Protocol, n: Bundled.Names, bound: Gate.Bindings, c: B.Context, problems: seq<string>, records: seq<B.EvidenceRecord>)
    requires Standing(c, problems, records) && Bundled.Sealed(n, c, Gate.ExpectedOrder(problems))
    requires Bundled.Admits(p, n, bound, c, problems, records)
    ensures PassesGate(p, Bundled.BundleOf(n, bound, records)) == E.Passes(ProofTable(c.items, p.problems), p.problems, p.alpha)
  {
    hide *;
    AdmittedDecides(p, n, bound, c, problems, records);
    AdmittedIsDecided(p, n, bound, c, problems, records);
    Through(PassesGate(p, Bundled.BundleOf(n, bound, records)), Gate.DecisionOf(p, Map(SnapshotOf, records)) == PASS,
            E.Passes(ProofTable(c.items, p.problems), p.problems, p.alpha));
  }

  lemma {:induction false} RefusedVerdict(
    p: Gate.Protocol, n: Bundled.Names, bound: Gate.Bindings, c: B.Context, problems: seq<string>, records: seq<B.EvidenceRecord>)
    requires Standing(c, problems, records) && Bundled.Sealed(n, c, Gate.ExpectedOrder(problems))
    requires !Bundled.Admits(p, n, bound, c, problems, records)
    ensures !PassesGate(p, Bundled.BundleOf(n, bound, records))
  {
    hide *;
    AdmittedIsClean(p, n, bound, c, problems, records);
    GatePasses(p, n, bound, records);
  }

  /** The verdict on standing, sealed records. */
  lemma {:induction false} VerdictOver(
    p: Gate.Protocol, n: Bundled.Names, bound: Gate.Bindings, c: B.Context, items: seq<B.Item>, problems: seq<string>,
    records: seq<B.EvidenceRecord>)
    requires c.items == items && Standing(c, problems, records) && Bundled.Sealed(n, c, Gate.ExpectedOrder(problems))
    ensures PassesGate(p, Bundled.BundleOf(n, bound, records)) <==>
      Bundled.Admits(p, n, bound, c, problems, records) && E.Passes(ProofTable(items, p.problems), p.problems, p.alpha)
  {
    hide *;
    if Bundled.Admits(p, n, bound, c, problems, records) {
      AdmittedVerdict(p, n, bound, c, problems, records);
    } else {
      RefusedVerdict(p, n, bound, c, problems, records);
    }
  }

  /** The items of a bridged run are defined and not empty. */
  lemma {:induction false} BridgedItems(
    f: Ledger.Frame, runId: string, rows: Dispatch.Rows, ledger: Ledger.Frame, bindings: map<Records.Digest, Ledger.Binding>,
    receipts: map<Records.Digest, Ledger.LedgerReceipt>, join: Dispatch.Join, reports: map<string, B.Report>,
    records: seq<B.EvidenceRecord>)
    requires B.Bridged(f, runId, rows, ledger, bindings, receipts, join, reports, records)
    ensures forall id :: id in Map(Ledger.DispatchOf, join.joined) ==> id in receipts
    ensures ClosedItems(receipts, join) != [] && B.SharedOf(ClosedItems(receipts, join)[0]).basis.Some?
  {
  }

  /** What a bridged run brings to the gate. */
  lemma {:induction false} BridgedIsSealed(
    f: Ledger.Frame, runId: string, rows: Dispatch.Rows, ledger: Ledger.Frame, bindings: map<Records.Digest, Ledger.Binding>,
    receipts: map<Records.Digest, Ledger.LedgerReceipt>, join: Dispatch.Join, reports: map<string, B.Report>,
    records: seq<B.EvidenceRecord>, n: Bundled.Names)
    requires Dispatch.Chain(runId, rows.entries) && Ledger.LedgerSound(receipts) && Distinct(Map(Bundled.ProtocolOf, f.plan))
    requires B.Bridged(f, runId, rows, ledger, bindings, receipts, join, reports, records)
    requires Bundled.Faithful(n) && "" !in B.Problems(ClosedItems(receipts, join))
    ensures var items := ClosedItems(receipts, join); var c := B.ContextOf(items, reports);
      && c.items == items && Standing(c, B.Problems(items), records)
      && Bundled.Sealed(n, c, Gate.ExpectedOrder(B.Problems(items)))
  {
    var items := ClosedItems(receipts, join);
    Bundled.BridgedIsSeparated(f, runId, rows, ledger, bindings, receipts, join, reports, records);
    BridgedIsStanding(f, runId, rows, ledger, bindings, receipts, join, reports, records);
    StandingIsSealed(B.ContextOf(items, reports), B.Problems(items), records, n);
  }

  /** End to end, for every closed run the bridge accepts: the confirmatory evaluator's verdict on the bundle of its
      records is PASS if and only if (1) the sealed rules, the production status and the run's identifiers are the
      protocol's and the problems are its frozen list, (2) every attempt ended in SUCCEEDED or FAILED, (3) every cost is
      within its ceiling, and (4) the superiority criterion holds of the table of cells with an answered attempt and a
      PASS receipt for that very answer. */
  lemma {:induction false} VerdictIsProofs(
    f: Ledger.Frame, runId: string, rows: Dispatch.Rows, ledger: Ledger.Frame, bindings: map<Records.Digest, Ledger.Binding>,
    receipts: map<Records.Digest, Ledger.LedgerReceipt>, join: Dispatch.Join, reports: map<string, B.Report>,
    records: seq<B.EvidenceRecord>, n: Bundled.Names, bound: Gate.Bindings, p: Gate.Protocol)
    requires Dispatch.Chain(runId, rows.entries) && Ledger.LedgerSound(receipts) && Distinct(Map(Bundled.ProtocolOf, f.plan))
    requires B.Bridged(f, runId, rows, ledger, bindings, receipts, join, reports, records)
    requires Bundled.Faithful(n) && Gate.ValidProtocol(p) && "" !in B.Problems(ClosedItems(receipts, join))
    ensures var items := ClosedItems(receipts, join);
      PassesGate(p, Bundled.BundleOf(n, bound, records)) <==>
        && Bundled.Admits(p, n, bound, B.ContextOf(items, reports), B.Problems(items), records)
        && E.Passes(ProofTable(items, p.problems), p.problems, p.alpha)
  {
    hide *;
    BridgedItems(f, runId, rows, ledger, bindings, receipts, join, reports, records);
    var items := ClosedItems(receipts, join);
    BridgedIsSealed(f, runId, rows, ledger, bindings, receipts, join, reports, records, n);
    VerdictOver(p, n, bound, B.ContextOf(items, reports), items, B.Problems(items), records);
  }

  // ---- the frozen schedule as the plan ----

  function PolicyName(policy: Schedule.Policy): string {
    match policy
    case Independent => "NONE_INDEPENDENT_ATTEMPT"
    case FixedLinear => "FIXED_LINEAR_AUTHENTICATED_COMPLETION"
    case SuccessiveHalving => "FROZEN_SUCCESSIVE_HALVING_ELIGIBLE_SET_SELECTION"
  }

  /** The operator plan's slot of a scheduled record, its dispatch id written as a digest. */
  function SlotFor(id: Schedule.PlanId -> Records.Digest): Schedule.PlanRecord -> Ledger.Slot {
    (r: Schedule.PlanRecord) =>
      Ledger.Slot(r.dispatchId.problemId, r.arm, r.attempt, id(r.dispatchId), r.dispatchIndex, PolicyName(r.policy),
                  Map(id, r.eligibleIds), if r.selectedId.None? then None else Some(id(r.selectedId.value)))
  }

  ghost predicate Separates(id: Schedule.PlanId -> Records.Digest) {
    forall a, b :: id(a) == id(b) ==> a == b
  }

  lemma {:induction false} MapTwice<T, U, V>(f: T -> U, g: U -> V, h: T -> V, s: seq<T>)
    requires forall i :: 0 <= i < |s| ==> g(f(s[i])) == h(s[i])
    ensures Map(g, Map(f, s)) == Map(h, s)
  {
  }

  /** A plan built by the schedule gives each slot its own protocol dispatch. */
  lemma {:induction false} ScheduledPlanDistinct(id: Schedule.PlanId -> Records.Digest, problems: seq<string>)
    requires Separates(id) && Distinct(problems)
    ensures Distinct(Map(Bundled.ProtocolOf, Map(SlotFor(id), Schedule.Plan(problems, Schedule.ATTEMPTS))))
  {
    var plan := Schedule.Plan(problems, Schedule.ATTEMPTS);
    var ids := Map(Schedule.DispatchOf, plan);
    Schedule.DispatchIdsDistinct(problems);
    Bundled.MapDistinct(id, ids);
    var through := (r: Schedule.PlanRecord) => id(r.dispatchId);
    MapTwice(SlotFor(id), Bundled.ProtocolOf, through, plan);
    MapTwice(Schedule.DispatchOf, id, through, plan);
  }

  function SlotProblem(s: Ledger.Slot): string {
    s.problemId
  }

  function RecordProblem(r: Schedule.PlanRecord): string {
    r.dispatchId.problemId
  }

  lemma {:induction false} PlannedProblem(problems: seq<string>, problem: string)
    ensures problem in Map(RecordProblem, Schedule.Plan(problems, Schedule.ATTEMPTS)) <==> problem in problems
  {
    var names := Map(RecordProblem, Schedule.Plan(problems, Schedule.ATTEMPTS));
    if problem in problems {
      var i :| 0 <= i < |problems| && problems[i] == problem;
      Schedule.PlanAt(problems, Schedule.ATTEMPTS, 0, i, 0);
      assert names[Schedule.Index(|problems|, 0, i, 0)] == problem;
    }
    if problem in names {
      var x :| 0 <= x < |names| && names[x] == problem;
      var a, i, k := Schedule.SlotOf(problems, x);
    }
  }

  lemma {:induction false} ScheduledProblem(id: Schedule.PlanId -> Records.Digest, problems: seq<string>, problem: string)
    ensures problem in Map(SlotProblem, Map(SlotFor(id), Schedule.Plan(problems, Schedule.ATTEMPTS))) <==> problem in problems
  {
    PlannedProblem(problems, problem);
    MapTwice(SlotFor(id), SlotProblem, RecordProblem, Schedule.Plan(problems, Schedule.ATTEMPTS));
  }

  lemma {:induction false} SameKeysSameProblems(items: seq<B.Item>, plan: seq<Ledger.Slot>, problem: string)
    requires SameThings(Map(B.KeyOf, items), Map(Ledger.KeyOfSlot, plan))
    ensures problem in Map(B.NativeId, items) <==> problem in Map(SlotProblem, plan)
  {
    var keys, slots := Map(B.KeyOf, items), Map(Ledger.KeyOfSlot, plan);
    if problem in Map(B.NativeId, items) {
      var i :| 0 <= i < |items| && Map(B.NativeId, items)[i] == problem;
      assert keys[i] in slots;
      var j :| 0 <= j < |slots| && slots[j] == keys[i];
      assert Map(SlotProblem, plan)[j] == problem;
    }
    if problem in Map(SlotProblem, plan) {
      var j :| 0 <= j < |plan| && Map(SlotProblem, plan)[j] == problem;
      assert slots[j] in keys;
      var i :| 0 <= i < |keys| && keys[i] == slots[j];
      assert Map(B.NativeId, items)[i] == problem;
    }
  }

  /** And a run that covers it has exactly its problems, so the frozen list is met. */
  lemma {:induction false} ScheduledProblems(items: seq<B.Item>, id: Schedule.PlanId -> Records.Digest, problems: seq<string>)
    requires Sorted(TextLeq, problems) && Distinct(problems)
    requires SameThings(Map(B.KeyOf, items), Map(Ledger.KeyOfSlot, Map(SlotFor(id), Schedule.Plan(problems, Schedule.ATTEMPTS))))
    ensures B.Problems(items) == problems
  {
    R.ProblemsInOrder(items);
    forall problem ensures problem in B.Problems(items) <==> problem in problems {
      SameKeysSameProblems(items, Map(SlotFor(id), Schedule.Plan(problems, Schedule.ATTEMPTS)), problem);
      ScheduledProblem(id, problems, problem);
    }
    DistinctSameSet(B.Problems(items), problems);
    TextOrder();
    SortedUnique(TextLeq, B.Problems(items), problems);
  }

  lemma {:induction false} ScheduledRun(
    f: Ledger.Frame, runId: string, rows: Dispatch.Rows, ledger: Ledger.Frame, bindings: map<Records.Digest, Ledger.Binding>,
    receipts: map<Records.Digest, Ledger.LedgerReceipt>, join: Dispatch.Join, reports: map<string, B.Report>,
    records: seq<B.EvidenceRecord>, id: Schedule.PlanId -> Records.Digest, p: Gate.Protocol)
    requires B.Bridged(f, runId, rows, ledger, bindings, receipts, join, reports, records)
    requires Gate.ValidProtocol(p) && Sorted(TextLeq, p.problems)
    requires Separates(id) && f.plan == Map(SlotFor(id), Schedule.Plan(p.problems, Schedule.ATTEMPTS))
    ensures Distinct(Map(Bundled.ProtocolOf, f.plan)) && B.Problems(ClosedItems(receipts, join)) == p.problems
  {
    ScheduledPlanDistinct(id, p.problems);
    ScheduledProblems(ClosedItems(receipts, join), id, p.problems);
  }

  /** The verdict on a run of the frozen schedule. */
  lemma {:induction false} ScheduledVerdict(
    f: Ledger.Frame, runId: string, rows: Dispatch.Rows, ledger: Ledger.Frame, bindings: map<Records.Digest, Ledger.Binding>,
    receipts: map<Records.Digest, Ledger.LedgerReceipt>, join: Dispatch.Join, reports: map<string, B.Report>,
    records: seq<B.EvidenceRecord>, n: Bundled.Names, bound: Gate.Bindings, p: Gate.Protocol, id: Schedule.PlanId -> Records.Digest)
    requires Dispatch.Chain(runId, rows.entries) && Ledger.LedgerSound(receipts)
    requires B.Bridged(f, runId, rows, ledger, bindings, receipts, join, reports, records)
    requires Bundled.Faithful(n) && Gate.ValidProtocol(p) && Sorted(TextLeq, p.problems) && "" !in p.problems
    requires Separates(id) && f.plan == Map(SlotFor(id), Schedule.Plan(p.problems, Schedule.ATTEMPTS))
    ensures var items := ClosedItems(receipts, join);
      PassesGate(p, Bundled.BundleOf(n, bound, records)) <==>
        && Bundled.Admits(p, n, bound, B.ContextOf(items, reports), p.problems, records)
        && E.Passes(ProofTable(items, p.problems), p.problems, p.alpha)
  {
    hide *;
    BridgedItems(f, runId, rows, ledger, bindings, receipts, join, reports, records);
    var items := ClosedItems(receipts, join);
    ScheduledRun(f, runId, rows, ledger, bindings, receipts, join, reports, records, id, p);
    BridgedIsSealed(f, runId, rows, ledger, bindings, receipts, join, reports, records, n);
    VerdictOver(p, n, bound, B.ContextOf(items, reports), items, p.problems, records);
  }

  /** What the evaluator says of a bundle of bridged records. */
  method Evaluate(p: Gate.Protocol, n: Bundled.Names, bound: Gate.Bindings, records: seq<B.EvidenceRecord>)
    returns (verdict: Gate.Verdict)
    requires Gate.ValidProtocol(p)
    ensures verdict == Gate.Verdict.Scientific(PASS) <==> PassesGate(p, Bundled.BundleOf(n, bound, records))
  {
    Bundled.BundleBodies(n, bound, records);
    var v;
    verdict, v := Gate.EvaluateAuthenticatedBundle(p, Bundled.BundleOf(n, bound, records));
  }

  /** The verdict stands on records the bridge gave, and is PASS exactly when they are admitted and the proofs suffice. */
  ghost predicate Judged(
    f: Ledger.Frame, runId: string, rows: Dispatch.Rows, ledger: Ledger.Frame, bindings: map<Records.Digest, Ledger.Binding>,
    receipts: map<Records.Digest, Ledger.LedgerReceipt>, join: Dispatch.Join, reports: map<string, B.Report>,
    n: Bundled.Names, bound: Gate.Bindings, p: Gate.Protocol, verdict: Gate.Verdict)
  {
    exists records ::
      && B.Bridged(f, runId, rows, ledger, bindings, receipts, join, reports, records)
      && var items := ClosedItems(receipts, join);
        verdict == Gate.Verdict.Scientific(PASS) <==>
          && Bundled.Admits(p, n, bound, B.ContextOf(items, reports), p.problems, records)
          && E.Passes(ProofTable(items, p.problems), p.problems, p.alpha)
  }

  lemma {:induction false} JudgedBy(
    f: Ledger.Frame, runId: string, rows: Dispatch.Rows, ledger: Ledger.Frame, bindings: map<Records.Digest, Ledger.Binding>,
    receipts: map<Records.Digest, Ledger.LedgerReceipt>, join: Dispatch.Join, reports: map<string, B.Report>,
    n: Bundled.Names, bound: Gate.Bindings, p: Gate.Protocol, verdict: Gate.Verdict, records: seq<B.EvidenceRecord>,
    id: Schedule.PlanId -> Records.Digest)
    requires Dispatch.Chain(runId, rows.entries) && Ledger.LedgerSound(receipts)
    requires B.Bridged(f, runId, rows, ledger, bindings, receipts, join, reports, records)
    requires Bundled.Faithful(n) && Gate.ValidProtocol(p) && Sorted(TextLeq, p.problems) && "" !in p.problems
    requires Separates(id) && f.plan == Map(SlotFor(id), Schedule.Plan(p.problems, Schedule.ATTEMPTS))
    requires verdict == Gate.Verdict.Scientific(PASS) <==> PassesGate(p, Bundled.BundleOf(n, bound, records))
    ensures Judged(f, runId, rows, ledger, bindings, receipts, join, reports, n, bound, p, verdict)
  {
    ScheduledVerdict(f, runId, rows, ledger, bindings, receipts, join, reports, records, n, bound, p, id);
  }

  lemma {:induction false} LiveRun(authority: Authority.DispatchAuthority, ledger: Ledger.ExecutionLedgerAuthority)
    requires authority.Valid() && ledger.Valid()
    ensures authority.runId in authority.db.runs && Ledger.LedgerSound(ledger.receipts)
    ensures Dispatch.Chain(authority.runId, authority.db.runs[authority.runId].entries)
  {
  }

  /** The bridge and then the evaluator, on live authorities. The plan is the frozen schedule of the protocol's problems,
      so what is left of admission is the rules, status and identifiers, the outcomes and the costs. */
  method JudgeClosedEvidence(
    authority: Authority.DispatchAuthority, ledger: Ledger.ExecutionLedgerAuthority, f: Ledger.Frame, candidate: Dispatch.Join,
    reports: map<string, B.Report>, n: Bundled.Names, bound: Gate.Bindings, p: Gate.Protocol, id: Schedule.PlanId -> Records.Digest)
    returns (r: Result<Gate.Verdict>)
    requires authority.Valid() && ledger.Valid() && forall q, t :: q in reports && t in reports[q] ==> Cost.ValidTrace(t)
    requires Bundled.Faithful(n) && Gate.ValidProtocol(p) && Sorted(TextLeq, p.problems) && "" !in p.problems
    requires Separates(id) && f.plan == Map(SlotFor(id), Schedule.Plan(p.problems, Schedule.ATTEMPTS))
    ensures r.Ok? <==> B.CanBridge(f, authority.runId, authority.db.runs[authority.runId], ledger.frame, ledger.bindings,
                                   ledger.receipts, candidate, reports)
    ensures r.Ok? ==> Judged(f, authority.runId, authority.db.runs[authority.runId], ledger.frame, ledger.bindings, ledger.receipts,
                             candidate, reports, n, bound, p, r.value)
  {
    hide *;
    LiveRun(authority, ledger);
    var records := B.BridgeClosedEvidence(authority, ledger, f, candidate, reports);
    if records.Raised? {
      return Raised;
    }
    var verdict := Evaluate(p, n, bound, records.value);
    JudgedBy(f, authority.runId, authority.db.runs[authority.runId], ledger.frame, ledger.bindings, ledger.receipts, candidate,
             reports, n, bound, p, verdict, records.value, id);
    return Ok(verdict);
  }
}
