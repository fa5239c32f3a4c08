/** The confirmatory evaluator's admission loop: which evidence bundles reach the scientific decision. */
module EvidenceGate {
  import opened Contracts
  import opened Sorting
  import opened Outcomes
  import C = ConfirmatoryEvaluator

  datatype Bindings = Bindings(
    creditStatus: string, protocolRules: string, confirmatoryManifest: string, dispatchManifest: string,
    close: string, completionSet: string, executionAuthority: string)

  datatype Cost = Cost(modelCalls: Field<int>, inputTokens: Field<int>, outputTokens: Field<int>,
                       verifierMilliseconds: Field<int>, orchestrationMilliseconds: Field<int>)

  datatype Record = Record(
    bindings: Bindings, experimentId: string, budgetId: string, usageBasis: string,
    arm: Field<Arm>, problemId: Field<string>, problemIdentity: string,
    statuses: Field<seq<Field<CompletionStatus>>>,
    vectors: seq<Field<seq<Field<string>>>>,
    cost: Field<Cost>, evidenceSha256: string, costTraceSha256: string)

  datatype Bundle = Bundle(bindings: Bindings, records: Field<seq<Field<Record>>>)

  /** The frozen constants of one protocol. */
  datatype Protocol = Protocol(
    problems: seq<string>, experimentId: string, budgetId: string, usageBasis: string,
    rulesSha256: string, productionStatus: string, draftStatus: string, ceiling: CompleteCost, alpha: real)

  const VECTOR_COUNT: nat := 8
  const VERIFIER_EVIDENCE: nat := 4

  predicate ValidProtocol(p: Protocol) {
    0.0 < p.alpha < 1.0 && (forall i, j :: 0 <= i < j < |p.problems| ==> p.problems[i] != p.problems[j])
  }

  /** Python attribute layout: a record always carries all eight vectors. */
  predicate WellShaped(b: Bundle) {
    b.records.Typed? ==> forall i :: 0 <= i < |b.records.value| && b.records.value[i].Typed? ==>
      |b.records.value[i].value.vectors| == VECTOR_COUNT
  }

  datatype Reason =
    | RulesDigestMismatch | NonCreditDraft | NoSealedStatus | RecordsNotTuple
    | NonBridgeRecord(index: nat) | CrossBound(index: nat) | ExperimentMismatch(index: nat)
    | BudgetMismatch(index: nat) | UsageMismatch(index: nat) | ArmInvalid(index: nat) | ProblemInvalid(index: nat)
    | IdentityMismatch(problem: string) | StatusesNotTuple(index: nat) | MissingAttempts(index: nat)
    | ExtraAttempts(index: nat) | StatusInvalid(index: nat) | VectorNotTuple(index: nat, field: nat)
    | MissingEvidence(index: nat, field: nat) | ExtraEvidence(index: nat, field: nat)
    | EvidenceInvalid(index: nat, field: nat) | VerifierTimeout(index: nat, attempt: nat)
    | ModelError(index: nat, attempt: nat) | VerifierError(index: nat, attempt: nat)
    | CostTypeInvalid(index: nat) | CostValueInvalid(index: nat) | MissingCalls(index: nat) | ExtraCalls(index: nat)
    | CeilingExceeded(index: nat) | DuplicateCell | MissingCells | ExtraCells | NoncanonicalOrder
    | ReplayedEvidence(field: nat) | ReplayedRecord | ReplayedTrace

  // ---- what a clean bundle is, without reference to the loop ----

  predicate CleanVector(v: Field<seq<Field<string>>>) {
    && v.Typed? && |v.value| == ATTEMPTS_PER_CELL
    && forall k :: 0 <= k < |v.value| ==> v.value[k].Typed? && v.value[k].value != ""
  }

  function Values(v: Field<seq<Field<string>>>): seq<string> {
    if v.Mistyped? then []
    else seq(|v.value|, k requires 0 <= k < |v.value| => if v.value[k].Typed? then v.value[k].value else "")
  }

  predicate TerminalStatus(s: Field<CompletionStatus>) {
    s.Typed? && (s.value == SUCCEEDED || s.value == FAILED)
  }

  predicate CleanStatuses(s: Field<seq<Field<CompletionStatus>>>) {
    && s.Typed? && |s.value| == ATTEMPTS_PER_CELL
    && forall k :: 0 <= k < |s.value| ==> TerminalStatus(s.value[k])
  }

  predicate Natural(f: Field<int>) {
    f.Typed? && f.value >= 0
  }

  predicate NaturalCost(c: Cost) {
    && Natural(c.modelCalls) && Natural(c.inputTokens) && Natural(c.outputTokens)
    && Natural(c.verifierMilliseconds) && Natural(c.orchestrationMilliseconds)
  }

  predicate CleanCost(p: Protocol, c: Field<Cost>) {
    && c.Typed? && NaturalCost(c.value)
    && c.value.modelCalls.value == ATTEMPTS_PER_CELL
    && CostOf(c).Within(p.ceiling)
  }

  predicate CleanRecord(p: Protocol, b: Bundle, r: Record) {
    && r.bindings == b.bindings
    && r.experimentId == p.experimentId && r.budgetId == p.budgetId && r.usageBasis == p.usageBasis
    && r.arm.Typed? && r.problemId.Typed? && r.problemId.value != ""
    && CleanStatuses(r.statuses)
    && |r.vectors| == VECTOR_COUNT && (forall n :: 0 <= n < VECTOR_COUNT ==> CleanVector(r.vectors[n]))
    && CleanCost(p, r.cost)
  }

  predicate CleanRecords(p: Protocol, b: Bundle, records: seq<Record>) {
    && (forall i :: 0 <= i < |records| ==> CleanRecord(p, b, records[i]))
    && (forall i, j :: 0 <= i < j < |records| && KeyOf(records[i]).0 == KeyOf(records[j]).0 ==>
          records[i].problemIdentity == records[j].problemIdentity)
  }

  predicate AllTyped(fields: seq<Field<Record>>) {
    forall i :: 0 <= i < |fields| ==> fields[i].Typed?
  }

  function Bodies(fields: seq<Field<Record>>): (r: seq<Record>)
    requires AllTyped(fields)
    ensures |r| == |fields| && forall i :: 0 <= i < |fields| ==> r[i] == fields[i].value
  {
    seq(|fields|, i requires 0 <= i < |fields| => fields[i].value)
  }

  function Text(f: Field<string>): string {
    if f.Typed? then f.value else ""
  }

  function Int(f: Field<int>): nat {
    if f.Typed? && f.value >= 0 then f.value else 0
  }

  function Plain(statuses: Field<seq<Field<CompletionStatus>>>): seq<CompletionStatus> {
    if statuses.Mistyped? then []
    else Map((s: Field<CompletionStatus>) => if s.Typed? then s.value else ERROR, statuses.value)
  }

  function CostOf(c: Field<Cost>): CompleteCost {
    if c.Mistyped? then NO_COST
    else CompleteCost(Int(c.value.modelCalls), Int(c.value.inputTokens), Int(c.value.outputTokens),
                      Int(c.value.verifierMilliseconds), Int(c.value.orchestrationMilliseconds))
  }

  function KeyOf(r: Record): (string, Arm) {
    (Text(r.problemId), if r.arm.Typed? then r.arm.value else Ordinary)
  }

  function SnapshotOf(r: Record): C.CellSnapshot {
    C.CellSnapshot(KeyOf(r).0, KeyOf(r).1, Plain(r.statuses), CostOf(r.cost))
  }

  function Keys(records: seq<Record>): (keys: seq<(string, Arm)>)
    ensures |keys| == |records| && forall i :: 0 <= i < |records| ==> keys[i] == KeyOf(records[i])
  {
    Map(KeyOf, records)
  }

  function Snapshots(records: seq<Record>): (s: seq<C.CellSnapshot>)
    ensures |s| == |records| && forall i :: 0 <= i < |records| ==> s[i] == SnapshotOf(records[i])
  {
    Map(SnapshotOf, records)
  }

  function EvidenceOf(r: Record): string { r.evidenceSha256 }

  function TraceOf(r: Record): string { r.costTraceSha256 }

  function Evidence(records: seq<Record>): seq<string> {
    Map(EvidenceOf, records)
  }

  function Traces(records: seq<Record>): seq<string> {
    Map(TraceOf, records)
  }

  /** All values one vector field holds across the records, in order. */
  function Column(records: seq<Record>, n: nat): seq<string> {
    if records == [] then []
    else Column(records[..|records| - 1], n) + VectorAt(records[|records| - 1], n)
  }

  function VectorAt(r: Record, n: nat): seq<string> {
    if n < |r.vectors| then Values(r.vectors[n]) else []
  }

  function ExpectedOrder(problems: seq<string>): seq<(string, Arm)> {
    if problems == [] then []
    else ExpectedOrder(problems[..|problems| - 1]) + CellsOf(problems[|problems| - 1])
  }

  function CellsOf(problem: string): (cells: seq<(string, Arm)>)
    ensures |cells| == |ARMS| && forall k :: 0 <= k < |ARMS| ==> cells[k] == (problem, ARMS[k])
  {
    seq(|ARMS|, k requires 0 <= k < |ARMS| => (problem, ARMS[k]))
  }

  lemma {:induction false} ExpectedOrderAt(problems: seq<string>, i: nat, k: nat)
    requires i < |problems| && k < |ARMS|
    ensures |ExpectedOrder(problems)| == 5 * |problems|
    ensures ExpectedOrder(problems)[5 * i + k] == (problems[i], ARMS[k])
  {
    var n := |problems| - 1;
    ExpectedOrderLength(problems[..n]);
    if i < n {
      ExpectedOrderAt(problems[..n], i, k);
    }
  }

  lemma {:induction false} ExpectedOrderLength(problems: seq<string>)
    ensures |ExpectedOrder(problems)| == 5 * |problems|
  {
    if problems != [] {
      ExpectedOrderLength(problems[..|problems| - 1]);
    }
  }

  lemma {:induction false} ExpectedOrderMembers(problems: seq<string>, cell: (string, Arm))
    ensures cell in ExpectedOrder(problems) <==> cell.0 in problems
  {
    EveryArmListed(cell.1);
    if problems != [] {
      var n := |problems| - 1;
      ExpectedOrderMembers(problems[..n], cell);
      assert problems == problems[..n] + [problems[n]];
      if cell.0 == problems[n] {
        var k :| 0 <= k < |ARMS| && ARMS[k] == cell.1;
        assert CellsOf(problems[n])[k] == cell;
      }
    }
  }

  /** Exactly the bundles that carry a decision. */
  ghost predicate Clean(p: Protocol, b: Bundle) {
    && b.bindings.protocolRules == p.rulesSha256
    && b.bindings.creditStatus != p.draftStatus && b.bindings.creditStatus == p.productionStatus
    && b.records.Typed? && AllTyped(b.records.value)
    && var records := Bodies(b.records.value);
      && CleanRecords(p, b, records)
      && Keys(records) == ExpectedOrder(p.problems)
      && (forall n :: 0 <= n < VECTOR_COUNT ==> Distinct(Column(records, n)))
      && Distinct(Evidence(records)) && Distinct(Traces(records))
  }

  // ---- the loop ----

  /** Everything the loop accumulates. */
  datatype State = State(
    blockers: seq<Reason>, incomplete: seq<Reason>, keys: seq<(string, Arm)>, identity: map<string, string>,
    columns: seq<seq<string>>, evidence: seq<string>, traces: seq<string>, snapshots: seq<C.CellSnapshot>)

  predicate Unobjected(s: State) {
    s.blockers == [] && s.incomplete == []
  }

  predicate NoLess(before: State, after: State) {
    before.blockers <= after.blockers && before.incomplete <= after.incomplete
  }

  /** The eight vectors of one record. */
  method CheckVectors(index: nat, record: Record, start: State) returns (ok: bool, s: State)
    requires |record.vectors| == VECTOR_COUNT && |start.columns| == VECTOR_COUNT
    ensures NoLess(start, s) && |s.columns| == VECTOR_COUNT
    ensures ok <==> forall n :: 0 <= n < VECTOR_COUNT ==> CleanVector(record.vectors[n])
    ensures ok ==> s == start.(columns := Extend(start.columns, record.vectors))
    ensures !ok ==> !Unobjected(s)
  {
    ok, s := true, start;
    for n := 0 to VECTOR_COUNT
      invariant |s.columns| == VECTOR_COUNT && NoLess(start, s)
      invariant ok <==> forall m :: 0 <= m < n ==> CleanVector(record.vectors[m])
      invariant !ok ==> !Unobjected(s)
      invariant ok ==> s == start.(columns := s.columns)
      invariant ok ==> forall m :: 0 <= m < n ==> s.columns[m] == start.columns[m] + Values(record.vectors[m])
      invariant ok ==> forall m :: n <= m < VECTOR_COUNT ==> s.columns[m] == start.columns[m]
    {
      var values := record.vectors[n];
      if values.Mistyped? {
        s, ok := s.(blockers := s.blockers + [VectorNotTuple(index, n)]), false;
      } else if |values.value| < ATTEMPTS_PER_CELL {
        s, ok := s.(incomplete := s.incomplete + [MissingEvidence(index, n)]), false;
      } else if |values.value| > ATTEMPTS_PER_CELL {
        s, ok := s.(blockers := s.blockers + [ExtraEvidence(index, n)]), false;
      } else if !forall k :: 0 <= k < |values.value| ==> values.value[k].Typed? && values.value[k].value != "" {
        s, ok := s.(blockers := s.blockers + [EvidenceInvalid(index, n)]), false;
      } else {
        s := s.(columns := s.columns[n := s.columns[n] + Values(values)]);
      }
    }
    if ok {
      assert s.columns == Extend(start.columns, record.vectors);
    }
  }

  predicate NotInvoked(evidence: string) {
    "NOT_INVOKED:" <= evidence
  }

  /** Timeouts and errors never become a scientific outcome. */
  method CheckOutcomes(index: nat, statuses: seq<CompletionStatus>, evidence: seq<string>, start: State) returns (s: State)
    requires |statuses| == |evidence|
    ensures NoLess(start, s) && s == start.(blockers := s.blockers, incomplete := s.incomplete)
    ensures s == start <==> forall k :: 0 <= k < |statuses| ==> statuses[k] == SUCCEEDED || statuses[k] == FAILED
  {
    s := start;
    for attempt := 0 to |statuses|
      invariant NoLess(start, s) && s == start.(blockers := s.blockers, incomplete := s.incomplete)
      invariant s == start <==> forall k :: 0 <= k < attempt ==> statuses[k] == SUCCEEDED || statuses[k] == FAILED
    {
      if statuses[attempt] == TIMEOUT {
        s := s.(blockers := s.blockers + [VerifierTimeout(index, attempt)]);
      }
      if statuses[attempt] == ERROR {
        if NotInvoked(evidence[attempt]) {
          s := s.(incomplete := s.incomplete + [ModelError(index, attempt)]);
        } else {
          s := s.(blockers := s.blockers + [VerifierError(index, attempt)]);
        }
      }
    }
  }

  /** The state after a record that raises no objection. */
  function Absorbed(start: State, r: Record): State
    requires |r.vectors| == VECTOR_COUNT && |start.columns| == VECTOR_COUNT
  {
    State(start.blockers, start.incomplete, start.keys + [KeyOf(r)],
      Identify(start.identity, KeyOf(r).0, r.problemIdentity), Extend(start.columns, r.vectors),
      start.evidence + [r.evidenceSha256], start.traces + [r.costTraceSha256], start.snapshots + [SnapshotOf(r)])
  }

  /** `dict.setdefault`. */
  function Identify(identity: map<string, string>, problem: string, value: string): map<string, string> {
    if problem in identity then identity else identity[problem := value]
  }

  function Extend(columns: seq<seq<string>>, vectors: seq<Field<seq<Field<string>>>>): (r: seq<seq<string>>)
    requires |columns| == VECTOR_COUNT && |vectors| == VECTOR_COUNT
    ensures |r| == VECTOR_COUNT
  {
    seq(VECTOR_COUNT, n requires 0 <= n < VECTOR_COUNT => columns[n] + Values(vectors[n]))
  }

  predicate IdentityAgrees(start: State, record: Record) {
    KeyOf(record).0 in start.identity ==> start.identity[KeyOf(record).0] == record.problemIdentity
  }

  function Objection(raised: bool, reason: Reason): (r: seq<Reason>)
    ensures r == [] <==> !raised
  {
    if raised then [reason] else []
  }

  /** Objections to how a record is bound; empty exactly when every binding matches. */
  function BindingObjections(p: Protocol, b: Bundle, index: nat, record: Record): (r: seq<Reason>)
    ensures r == [] <==>
      && record.bindings == b.bindings && record.experimentId == p.experimentId
      && record.budgetId == p.budgetId && record.usageBasis == p.usageBasis
  {
    Objection(record.bindings != b.bindings, CrossBound(index))
    + Objection(record.experimentId != p.experimentId, ExperimentMismatch(index))
    + Objection(record.budgetId != p.budgetId, BudgetMismatch(index))
    + Objection(record.usageBasis != p.usageBasis, UsageMismatch(index))
  }

  /** Binding and identity checks; `stop` mirrors the loop's `continue`. */
  method CheckIdentity(p: Protocol, b: Bundle, index: nat, record: Record, start: State) returns (stop: bool, s: State)
    ensures NoLess(start, s) && s.columns == start.columns
    ensures stop <==> record.arm.Mistyped? || record.problemId.Mistyped? || record.problemId.value == ""
    ensures stop ==> !Unobjected(s)
    ensures !stop ==> s == start.(blockers := s.blockers, keys := s.keys, identity := s.identity)
    ensures !stop ==> s.keys == start.keys + [KeyOf(record)]
    ensures !stop ==> s.identity == Identify(start.identity, KeyOf(record).0, record.problemIdentity)
    ensures !stop ==> (s.blockers == start.blockers <==>
      BindingObjections(p, b, index, record) == [] && IdentityAgrees(start, record))
  {
    var blockers := start.blockers + BindingObjections(p, b, index, record);
    stop := true;
    if record.arm.Mistyped? {
      s := start.(blockers := blockers + [ArmInvalid(index)]);
      return;
    }
    if record.problemId.Mistyped? || record.problemId.value == "" {
      s := start.(blockers := blockers + [ProblemInvalid(index)]);
      return;
    }
    stop := false;
    var problem := record.problemId.value;
    var keys := start.keys + [(problem, record.arm.value)];
    var identity := Identify(start.identity, problem, record.problemIdentity);
    if identity[problem] != record.problemIdentity {
      blockers := blockers + [IdentityMismatch(problem)];
    }
    s := start.(blockers := blockers, keys := keys, identity := identity);
  }

  /** The rest of the loop body: statuses, vectors, outcomes, cost, and at last the snapshot. */
  method CheckEvidence(p: Protocol, index: nat, record: Record, start: State) returns (s: State)
    requires |record.vectors| == VECTOR_COUNT && |start.columns| == VECTOR_COUNT
    requires record.arm.Typed? && record.problemId.Typed?
    ensures NoLess(start, s) && |s.columns| == VECTOR_COUNT
    ensures Unobjected(start) ==> (Unobjected(s) <==>
      && CleanStatuses(record.statuses) && CleanCost(p, record.cost)
      && forall n :: 0 <= n < VECTOR_COUNT ==> CleanVector(record.vectors[n]))
    ensures Unobjected(s) ==>
      s == Absorbed(start, record).(keys := start.keys, identity := start.identity)
  {
    s := start;
    if record.statuses.Mistyped? {
      return s.(blockers := s.blockers + [StatusesNotTuple(index)]);
    }
    var statuses := record.statuses.value;
    if |statuses| < ATTEMPTS_PER_CELL {
      return s.(incomplete := s.incomplete + [MissingAttempts(index)]);
    }
    if |statuses| > ATTEMPTS_PER_CELL {
      return s.(blockers := s.blockers + [ExtraAttempts(index)]);
    }
    if !forall k :: 0 <= k < |statuses| ==> statuses[k].Typed? {
      return s.(blockers := s.blockers + [StatusInvalid(index)]);
    }
    var ok;
    ok, s := CheckVectors(index, record, s);
    if !ok {
      return s;
    }
    var plain := Plain(record.statuses);
    s := CheckOutcomes(index, plain, Values(record.vectors[VERIFIER_EVIDENCE]), s);
    assert CleanStatuses(record.statuses) <==> forall k :: 0 <= k < |plain| ==> plain[k] == SUCCEEDED || plain[k] == FAILED by {
      assert forall k :: 0 <= k < |plain| ==> plain[k] == statuses[k].value;
    }
    if record.cost.Mistyped? {
      return s.(blockers := s.blockers + [CostTypeInvalid(index)]);
    }
    if !NaturalCost(record.cost.value) {
      return s.(blockers := s.blockers + [CostValueInvalid(index)]);
    }
    var cost := CostOf(record.cost);
    if cost.modelCalls < ATTEMPTS_PER_CELL {
      return s.(incomplete := s.incomplete + [MissingCalls(index)]);
    }
    if cost.modelCalls > ATTEMPTS_PER_CELL {
      return s.(blockers := s.blockers + [ExtraCalls(index)]);
    }
    if !cost.Within(p.ceiling) {
      return s.(blockers := s.blockers + [CeilingExceeded(index)]);
    }
    s := s.(evidence := s.evidence + [record.evidenceSha256], traces := s.traces + [record.costTraceSha256],
            snapshots := s.snapshots + [SnapshotOf(record)]);
  }

  /** What the loop has gathered when nothing was objected to. */
  ghost predicate Gathered(records: seq<Record>, s: State) {
    && s.keys == Keys(records)
    && IdentitiesOf(records, s.identity)
    && |s.columns| == VECTOR_COUNT
    && (forall n :: 0 <= n < VECTOR_COUNT ==> s.columns[n] == Column(records, n))
    && s.evidence == Evidence(records) && s.traces == Traces(records) && s.snapshots == Snapshots(records)
  }

  ghost predicate IdentitiesOf(records: seq<Record>, identity: map<string, string>) {
    && (forall problem :: problem in identity ==> exists i :: 0 <= i < |records| && KeyOf(records[i]).0 == problem)
    && (forall i :: 0 <= i < |records| ==> KeyOf(records[i]).0 in identity)
    && (forall i :: 0 <= i < |records| ==> identity[KeyOf(records[i]).0] == records[i].problemIdentity)
  }

  /** The map speaks for every earlier record of the problem. */
  lemma {:induction false} IdentitySpeaks(records: seq<Record>, r: Record, identity: map<string, string>)
    requires IdentitiesOf(records, identity)
    ensures (KeyOf(r).0 in identity ==> identity[KeyOf(r).0] == r.problemIdentity) <==>
            forall i :: 0 <= i < |records| && KeyOf(records[i]).0 == KeyOf(r).0 ==> records[i].problemIdentity == r.problemIdentity
  {
    if KeyOf(r).0 in identity {
      var i :| 0 <= i < |records| && KeyOf(records[i]).0 == KeyOf(r).0;
      assert identity[KeyOf(r).0] == records[i].problemIdentity;
    }
  }

  lemma {:induction false} IdentityStep(records: seq<Record>, r: Record, identity: map<string, string>)
    requires IdentitiesOf(records, identity)
    requires KeyOf(r).0 in identity ==> identity[KeyOf(r).0] == r.problemIdentity
    ensures IdentitiesOf(records + [r], Identify(identity, KeyOf(r).0, r.problemIdentity))
  {
    var c, id := records + [r], Identify(identity, KeyOf(r).0, r.problemIdentity);
    forall problem | problem in id ensures exists i :: 0 <= i < |c| && KeyOf(c[i]).0 == problem {
      if problem in identity {
        var i :| 0 <= i < |records| && KeyOf(records[i]).0 == problem;
        assert c[i] == records[i];
      } else {
        assert c[|records|] == r;
      }
    }
    forall i | 0 <= i < |c| ensures KeyOf(c[i]).0 in id && id[KeyOf(c[i]).0] == c[i].problemIdentity {
      if i < |records| {
        assert c[i] == records[i];
      } else {
        assert c[i] == r;
      }
    }
  }

  lemma CleanStep(p: Protocol, b: Bundle, records: seq<Record>, r: Record)
    ensures CleanRecords(p, b, records + [r]) <==>
      && CleanRecords(p, b, records) && CleanRecord(p, b, r)
      && forall i :: 0 <= i < |records| && KeyOf(records[i]).0 == KeyOf(r).0 ==>
           records[i].problemIdentity == r.problemIdentity
  {
    var c := records + [r];
    assert c[|records|] == r;
    assert forall i :: 0 <= i < |records| ==> c[i] == records[i];
    if CleanRecords(p, b, c) {
      assert CleanRecord(p, b, c[|records|]);
      assert forall i :: 0 <= i < |records| ==> CleanRecord(p, b, c[i]);
    }
  }

  lemma GatherStep(records: seq<Record>, r: Record, s: State)
    requires Gathered(records, s) && IdentityAgrees(s, r) && |r.vectors| == VECTOR_COUNT
    ensures Gathered(records + [r], Absorbed(s, r))
  {
    IdentityStep(records, r, s.identity);
    MapAppend(KeyOf, records, r);
    MapAppend(SnapshotOf, records, r);
    MapAppend(EvidenceOf, records, r);
    MapAppend(TraceOf, records, r);
    ColumnsStep(records, r, s.columns);
  }

  lemma ColumnsStep(records: seq<Record>, r: Record, columns: seq<seq<string>>)
    requires |columns| == VECTOR_COUNT && |r.vectors| == VECTOR_COUNT
    requires forall n :: 0 <= n < VECTOR_COUNT ==> columns[n] == Column(records, n)
    ensures forall n :: 0 <= n < VECTOR_COUNT ==> Extend(columns, r.vectors)[n] == Column(records + [r], n)
  {
    assert (records + [r])[..|records|] == records;
  }

  /** Between iterations: nothing objected to exactly when the prefix is clean, and then all of it is gathered. */
  ghost predicate Scanned(p: Protocol, b: Bundle, fields: seq<Field<Record>>, clear: bool, s: State) {
    && |s.columns| == VECTOR_COUNT
    && (clear ==> (Unobjected(s) <==> AllTyped(fields) && CleanRecords(p, b, Bodies(fields))))
    && (Unobjected(s) ==> clear && Gathered(Bodies(fields), s))
  }

  /** One pass over the records: no objection exactly when every record is clean. */
  method ScanRecords(p: Protocol, b: Bundle, fields: seq<Field<Record>>, start: State) returns (s: State)
    requires forall i :: 0 <= i < |fields| && fields[i].Typed? ==> |fields[i].value.vectors| == VECTOR_COUNT
    requires start == State(start.blockers, [], [], map[], seq(VECTOR_COUNT, _ => []), [], [], [])
    ensures NoLess(start, s) && Scanned(p, b, fields, Unobjected(start), s)
  {
    s := start;
    for n := 0 to |fields|
      invariant NoLess(start, s) && Scanned(p, b, fields[..n], Unobjected(start), s)
    {
      assert fields[..n + 1] == fields[..n] + [fields[n]];
      if fields[n].Mistyped? {
        assert fields[..n + 1][n].Mistyped?;
        s := s.(blockers := s.blockers + [NonBridgeRecord(n)]);
      } else {
        ghost var before := s;
        s := IterateRecord(p, b, n, fields[n].value, s);
        Rescanned(p, b, fields[..n], fields[n].value, Unobjected(start), before, s);
      }
    }
    assert fields[..|fields|] == fields;
  }

  /** One iteration: it objects exactly to an unclean record or a changed identity, and otherwise absorbs the record. */
  ghost predicate Iterated(p: Protocol, b: Bundle, record: Record, start: State, s: State)
    requires |record.vectors| == VECTOR_COUNT && |start.columns| == VECTOR_COUNT
  {
    && NoLess(start, s) && |s.columns| == VECTOR_COUNT
    && (Unobjected(s) <==> Unobjected(start) && CleanRecord(p, b, record) && IdentityAgrees(start, record))
    && (Unobjected(s) ==> s == Absorbed(start, record))
  }

  method IterateRecord(p: Protocol, b: Bundle, index: nat, record: Record, start: State) returns (s: State)
    requires |record.vectors| == VECTOR_COUNT && |start.columns| == VECTOR_COUNT
    ensures Iterated(p, b, record, start, s)
  {
    var stop, t := CheckIdentity(p, b, index, record, start);
    if stop {
      return t;
    }
    s := CheckEvidence(p, index, record, t);
  }

  lemma {:induction false} TypedAppend(earlier: seq<Field<Record>>, record: Record)
    ensures AllTyped(earlier + [Typed(record)]) <==> AllTyped(earlier)
    ensures AllTyped(earlier) ==> Bodies(earlier + [Typed(record)]) == Bodies(earlier) + [record]
  {
    var later := earlier + [Typed(record)];
    assert later[|earlier|] == Typed(record);
    assert forall i :: 0 <= i < |earlier| ==> later[i] == earlier[i];
    if !AllTyped(earlier) {
      var i :| 0 <= i < |earlier| && earlier[i].Mistyped?;
      assert later[i].Mistyped?;
    }
  }

  /** Once everything so far is gathered, the identity map speaks for all earlier records. */
  lemma {:induction false} AgreesWithEarlier(p: Protocol, b: Bundle, records: seq<Record>, record: Record, s: State)
    requires |record.vectors| == VECTOR_COUNT && Gathered(records, s) && CleanRecords(p, b, records)
    ensures CleanRecords(p, b, records + [record]) <==> CleanRecord(p, b, record) && IdentityAgrees(s, record)
    ensures IdentityAgrees(s, record) ==> Gathered(records + [record], Absorbed(s, record))
  {
    CleanStep(p, b, records, record);
    IdentitySpeaks(records, record, s.identity);
    if IdentityAgrees(s, record) {
      GatherStep(records, record, s);
    }
  }

  lemma {:induction false} Rescanned(p: Protocol, b: Bundle, earlier: seq<Field<Record>>, record: Record, clear: bool, start: State, s: State)
    requires |record.vectors| == VECTOR_COUNT && Scanned(p, b, earlier, clear, start) && Iterated(p, b, record, start, s)
    ensures Scanned(p, b, earlier + [Typed(record)], clear, s)
  {
    TypedAppend(earlier, record);
    if AllTyped(earlier) {
      CleanStep(p, b, Bodies(earlier), record);
    }
    if Unobjected(start) && clear {
      AgreesWithEarlier(p, b, Bodies(earlier), record, start);
    }
  }

  lemma {:induction false} DistinctByCount<T(!new)>(s: seq<T>)
    ensures |Elements(s)| <= |s|
    ensures |Elements(s)| == |s| <==> Distinct(s)
  {
    if s == [] {
      assert Elements(s) == {};
    } else {
      var n := |s| - 1;
      var t := s[..n];
      DistinctByCount(t);
      assert s == t + [s[n]];
      if s[n] in t {
        assert Elements(s) == Elements(t);
        var i :| 0 <= i < n && t[i] == s[n];
        assert s[i] == s[n];
      } else {
        assert Elements(s) == Elements(t) + {s[n]};
        forall i, j | 0 <= i < j < |s| && Distinct(t) ensures s[i] != s[j] {
          assert s[i] == t[i];
          if j < n {
            assert s[j] == t[j];
          }
        }
        if Distinct(s) {
          assert forall i, j :: 0 <= i < j < |t| ==> t[i] == s[i] && t[j] == s[j];
        }
      }
    }
  }

  /** Objections to the set and order of observed cells. */
  method CheckKeys(keys: seq<(string, Arm)>, problems: seq<string>) returns (blockers: seq<Reason>, incomplete: seq<Reason>)
    ensures blockers == [] && incomplete == [] <==> Distinct(keys) && keys == ExpectedOrder(problems)
  {
    DistinctByCount(keys);
    blockers, incomplete := Objection(|set k | k in keys| != |keys|, DuplicateCell), [];
    assert (set k | k in keys) == Elements(keys);
    var expected := ExpectedOrder(problems);
    var missing := exists k :: k in expected && k !in keys;
    var extra := exists k :: k in keys && k !in expected;
    incomplete := incomplete + Objection(missing, MissingCells);
    blockers := blockers + Objection(extra, ExtraCells);
    blockers := blockers + Objection(!missing && !extra && keys != expected, NoncanonicalOrder);
  }

  /** Objections to evidence seen twice. */
  method CheckReplay(columns: seq<seq<string>>, evidence: seq<string>, traces: seq<string>) returns (blockers: seq<Reason>)
    requires |columns| == VECTOR_COUNT
    ensures blockers == [] <==>
      && (forall n :: 0 <= n < VECTOR_COUNT ==> Distinct(columns[n])) && Distinct(evidence) && Distinct(traces)
  {
    blockers := [];
    for n := 0 to VECTOR_COUNT
      invariant blockers == [] <==> forall m :: 0 <= m < n ==> Distinct(columns[m])
    {
      DistinctByCount(columns[n]);
      assert (set v | v in columns[n]) == Elements(columns[n]);
      blockers := blockers + Objection(|set v | v in columns[n]| != |columns[n]|, ReplayedEvidence(n));
    }
    DistinctByCount(evidence);
    assert (set v | v in evidence) == Elements(evidence);
    blockers := blockers + Objection(|set v | v in evidence| != |evidence|, ReplayedRecord);
    DistinctByCount(traces);
    assert (set v | v in traces) == Elements(traces);
    blockers := blockers + Objection(|set v | v in traces| != |traces|, ReplayedTrace);
  }

  datatype Validation = Validation(blockers: seq<Reason>, incomplete: seq<Reason>, snapshots: seq<C.CellSnapshot>)

  lemma {:induction false} ExpectedOrderDistinct(problems: seq<string>)
    requires Distinct(problems)
    ensures Distinct(ExpectedOrder(problems))
  {
    var e := ExpectedOrder(problems);
    ExpectedOrderLength(problems);
    forall x, y | 0 <= x < y < |e| ensures e[x] != e[y] {
      var i, k, j, m := x / 5, x % 5, y / 5, y % 5;
      ExpectedOrderAt(problems, i, k);
      ExpectedOrderAt(problems, j, m);
      if i == j {
        assert k != m;
      }
    }
  }

  /** The bundle is admitted, with no blocker and no incomplete reason, exactly when it is clean. */
  method ValidateAuthenticatedBundle(p: Protocol, b: Bundle) returns (v: Validation)
    requires ValidProtocol(p) && WellShaped(b)
    ensures v.blockers == [] && v.incomplete == [] <==> Clean(p, b)
    ensures Clean(p, b) ==> v.snapshots == Snapshots(Bodies(b.records.value))
  {
    var blockers := Objection(b.bindings.protocolRules != p.rulesSha256, RulesDigestMismatch);
    if b.bindings.creditStatus == p.draftStatus {
      blockers := blockers + [NonCreditDraft];
    } else if b.bindings.creditStatus != p.productionStatus {
      blockers := blockers + [NoSealedStatus];
    }
    if b.records.Mistyped? {
      return Validation(blockers + [RecordsNotTuple], [], []);
    }
    var records := b.records.value;
    var start := State(blockers, [], [], map[], seq(VECTOR_COUNT, _ => []), [], [], []);
    var s := ScanRecords(p, b, records, start);
    var keyBlockers, keyIncomplete := CheckKeys(s.keys, p.problems);
    var replayBlockers := CheckReplay(s.columns, s.evidence, s.traces);
    ExpectedOrderDistinct(p.problems);
    return Validation(s.blockers + keyBlockers + replayBlockers, s.incomplete + keyIncomplete, s.snapshots);
  }

  datatype Verdict = Blocked | Incomplete | CohortTooSmall | Scientific(decision: GoalDecision)

  /** Record 5i + k is for problem i and arm k. */
  lemma {:induction false} KeyAt(records: seq<Record>, problems: seq<string>, i: nat, k: nat)
    requires Keys(records) == ExpectedOrder(problems) && i < |problems| && k < 5
    ensures |records| == 5 * |problems| && KeyOf(records[5 * i + k]) == (problems[i], ARMS[k])
  {
    ExpectedOrderAt(problems, i, k);
    assert Keys(records)[5 * i + k] == KeyOf(records[5 * i + k]);
  }

  lemma {:induction false} CellStands(records: seq<Record>, problems: seq<string>, i: nat, a: Arm)
    requires Keys(records) == ExpectedOrder(problems) && i < |problems|
    ensures (problems[i], a) in C.Cells(Snapshots(records))
  {
    ArmPosition(a);
    var k: nat :| k < 5 && ARMS[k] == a;
    KeyAt(records, problems, i, k);
    CellPresent(Snapshots(records), 5 * i + k);
  }

  lemma {:induction false} CanonicalIsComplete(records: seq<Record>, problems: seq<string>)
    requires Keys(records) == ExpectedOrder(problems)
    ensures Complete(C.TableAt(C.Cells(Snapshots(records)), ATTEMPTS_PER_CELL), problems)
  {
    forall i, a | 0 <= i < |problems| && a in ARMS
      ensures (problems[i], a) in C.TableAt(C.Cells(Snapshots(records)), ATTEMPTS_PER_CELL)
    {
      CellStands(records, problems, i, a);
    }
  }

  lemma ArmPosition(a: Arm)
    ensures exists k :: 0 <= k < 5 && ARMS[k] == a
  {
    EveryArmListed(a);
  }

  predicate TerminalCell(p: Protocol, s: C.CellSnapshot) {
    && |s.statuses| == ATTEMPTS_PER_CELL && s.cost.Within(p.ceiling)
    && forall j :: 0 <= j < |s.statuses| ==> s.statuses[j] == SUCCEEDED || s.statuses[j] == FAILED
  }

  lemma CleanCell(p: Protocol, b: Bundle, r: Record)
    requires CleanRecord(p, b, r)
    ensures TerminalCell(p, SnapshotOf(r))
  {
    var s := SnapshotOf(r);
    forall j | 0 <= j < |s.statuses| ensures s.statuses[j] == SUCCEEDED || s.statuses[j] == FAILED {
      assert TerminalStatus(r.statuses.value[j]);
    }
  }

  lemma {:induction false} CleanCells(p: Protocol, b: Bundle, records: seq<Record>)
    requires CleanRecords(p, b, records)
    ensures forall i :: 0 <= i < |Snapshots(records)| ==> TerminalCell(p, Snapshots(records)[i])
  {
    forall i | 0 <= i < |records| ensures TerminalCell(p, Snapshots(records)[i]) {
      assert CleanRecord(p, b, records[i]);
      CleanCell(p, b, records[i]);
    }
  }

  lemma {:induction false} SnapshotsStand(records: seq<Record>, problems: seq<string>)
    requires Keys(records) == ExpectedOrder(problems)
    ensures |records| == 5 * |problems|
    ensures forall i, k :: 0 <= i < |problems| && 0 <= k < 5 ==>
      (Snapshots(records)[5 * i + k].problemId, Snapshots(records)[5 * i + k].arm) == (problems[i], ARMS[k])
  {
    ExpectedOrderLength(problems);
    forall i, k | 0 <= i < |problems| && 0 <= k < 5
      ensures (Snapshots(records)[5 * i + k].problemId, Snapshots(records)[5 * i + k].arm) == (problems[i], ARMS[k])
    {
      KeyAt(records, problems, i, k);
    }
  }

  /** A clean bundle's cells stand in canonical order, whole and paired, and every outcome is terminal. */
  lemma CleanBundleIsComplete(p: Protocol, b: Bundle)
    requires Clean(p, b)
    ensures
      var snapshots := Snapshots(Bodies(b.records.value));
      && |snapshots| == 5 * |p.problems|
      && (forall i, k :: 0 <= i < |p.problems| && 0 <= k < 5 ==>
            (snapshots[5 * i + k].problemId, snapshots[5 * i + k].arm) == (p.problems[i], ARMS[k]))
      && (forall i :: 0 <= i < |snapshots| ==> TerminalCell(p, snapshots[i]))
      && Complete(C.TableAt(C.Cells(snapshots), ATTEMPTS_PER_CELL), p.problems)
  {
    var records := Bodies(b.records.value);
    ExpectedOrderLength(p.problems);
    CanonicalIsComplete(records, p.problems);
    SnapshotsStand(records, p.problems);
    CleanCells(p, b, records);
  }

  lemma {:induction false} CellPresent(snapshots: seq<C.CellSnapshot>, i: nat)
    requires i < |snapshots|
    ensures (snapshots[i].problemId, snapshots[i].arm) in C.Cells(snapshots)
  {
    if i < |snapshots| - 1 {
      CellPresent(snapshots[..|snapshots| - 1], i);
    }
  }

  ghost function DecisionOf(p: Protocol, snapshots: seq<C.CellSnapshot>): GoalDecision {
    if C.Passes(C.TableAt(C.Cells(snapshots), ATTEMPTS_PER_CELL), p.problems, p.alpha) then PASS else FAIL
  }

  lemma {:induction false} CleanIsDecidable(p: Protocol, b: Bundle)
    requires Clean(p, b)
    ensures |Snapshots(Bodies(b.records.value))| == 5 * |p.problems|
    ensures Complete(C.TableAt(C.Cells(Snapshots(Bodies(b.records.value))), ATTEMPTS_PER_CELL), p.problems)
  {
    CleanBundleIsComplete(p, b);
  }

  method Decide(p: Protocol, snapshots: seq<C.CellSnapshot>) returns (decision: GoalDecision)
    requires ValidProtocol(p) && Complete(C.TableAt(C.Cells(snapshots), ATTEMPTS_PER_CELL), p.problems)
    ensures decision == DecisionOf(p, snapshots)
  {
    var r := C.EvaluateCompleteSnapshots(snapshots, p.problems, p.alpha);
    return r.value;
  }

  /** Blockers, then incompleteness, then the cohort-size fallback, which nothing can reach. */
  method EvaluateAuthenticatedBundle(p: Protocol, b: Bundle) returns (verdict: Verdict, v: Validation)
    requires ValidProtocol(p) && WellShaped(b)
    ensures verdict == Blocked <==> v.blockers != []
    ensures verdict == Incomplete <==> v.blockers == [] && v.incomplete != []
    ensures verdict.Scientific? <==> Clean(p, b)
    ensures verdict != CohortTooSmall
    ensures Clean(p, b) ==> verdict.decision == DecisionOf(p, Snapshots(Bodies(b.records.value)))
  {
    v := ValidateAuthenticatedBundle(p, b);
    if v.blockers != [] {
      return Blocked, v;
    }
    if v.incomplete != [] {
      return Incomplete, v;
    }
    CleanIsDecidable(p, b);
    if |v.snapshots| != 5 * |p.problems| {
      return CohortTooSmall, v;
    }
    var decision := Decide(p, v.snapshots);
    return Scientific(decision), v;
  }
}
