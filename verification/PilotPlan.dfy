/** Seeded paired assignment, the blinded evaluation order, the operator's reveal, and the check that joins them. */
module PilotPlan {
  import opened Contracts
  import opened Sorting
  import opened Grouping

  /** Opaque ids are digests of what they commit to: free constructors. */
  datatype Code =
    | AssignmentId(seed: string, problem: string, arm: Arm)
    | EvaluationId(seed: string, assignment: Code, problem: string, index: nat)

  /** The digests that order things, read as numbers: any functions at all. */
  datatype Ranks = Ranks(execution: (string, string, Arm) -> nat, evaluation: (string, Code) -> nat, text: Code -> nat)

  type Cell = (string, Arm)

  datatype Assignment = Assignment(id: Code, problem: string, arm: Arm, executionIndex: nat)

  datatype Row = Row(evaluationId: Code, assignment: Assignment)

  // ---- assignment ----

  predicate ProblemIdsOk(problems: seq<string>) {
    problems != [] && (forall i :: 0 <= i < |problems| ==> problems[i] != "")
    && forall i, j :: 0 <= i < j < |problems| ==> problems[i] != problems[j]
  }

  function CellsOf(problem: string): seq<Cell> {
    [(problem, ARMS[0]), (problem, ARMS[1]), (problem, ARMS[2]), (problem, ARMS[3]), (problem, ARMS[4])]
  }

  /** Every problem with every arm. */
  function Cells(problems: seq<string>): (s: seq<Cell>)
    ensures |s| == 5 * |problems|
  {
    if problems == [] then [] else Cells(problems[..|problems| - 1]) + CellsOf(problems[|problems| - 1])
  }

  /** By digest, then problem id, then arm name. */
  function ByExecution(r: Ranks, seed: string): (Cell, Cell) -> bool {
    (x: Cell, y: Cell) =>
      var a, b := r.execution(seed, x.0, x.1), r.execution(seed, y.0, y.1);
      if a != b then a < b else if x.0 != y.0 then TextLeq(x.0, y.0) else NameRank(x.1) <= NameRank(y.1)
  }

  function Assign(seed: string, cell: Cell, index: nat): Assignment {
    Assignment(AssignmentId(seed, cell.0, cell.1), cell.0, cell.1, index)
  }

  function ExecutionOrder(r: Ranks, seed: string, problems: seq<string>): seq<Cell> {
    Sort(ByExecution(r, seed), Cells(Sort(TextLeq, problems)))
  }

  function Assignments(r: Ranks, seed: string, problems: seq<string>): (s: seq<Assignment>) {
    var order := ExecutionOrder(r, seed, problems);
    seq(|order|, i requires 0 <= i < |order| => Assign(seed, order[i], i))
  }

  function CellOf(a: Assignment): Cell {
    (a.problem, a.arm)
  }

  /** The loop over the arms of one problem. */
  method ArmCandidates(problem: string) returns (five: seq<Cell>)
    ensures five == CellsOf(problem)
  {
    five := [];
    for k := 0 to 5
      invariant five == CellsOf(problem)[..k]
    {
      five := five + [(problem, ARMS[k])];
    }
  }

  /** The candidate loop. */
  method Candidates(canonical: seq<string>) returns (candidates: seq<Cell>)
    ensures candidates == Cells(canonical)
  {
    candidates := [];
    for i := 0 to |canonical|
      invariant candidates == Cells(canonical[..i])
    {
      TakeTake(canonical, i + 1, i);
      var five := ArmCandidates(canonical[i]);
      candidates := candidates + five;
    }
    TakeAll(canonical);
  }

  /** Candidates, the sort, and the numbering. */
  method SeededPairedAssignment(r: Ranks, seed: string, problems: seq<string>) returns (result: Result<seq<Assignment>>)
    ensures result.Ok? <==> ProblemIdsOk(problems)
    ensures result.Ok? ==> result.value == Assignments(r, seed, problems)
  {
    if !ProblemIdsOk(problems) {
      return Raised;
    }
    var candidates := Candidates(Sort(TextLeq, problems));
    var order := Sort(ByExecution(r, seed), candidates);
    return Ok(seq(|order|, i requires 0 <= i < |order| => Assign(seed, order[i], i)));
  }

  // ---- pairing ----

  /** Each problem present has each arm exactly once. */
  ghost predicate Pairing(cells: seq<Cell>) {
    && Distinct(cells)
    && forall p: string, a: Arm :: Present(cells, p) ==> (p, a) in cells
  }

  ghost predicate Present(cells: seq<Cell>, p: string) {
    exists b: Arm :: (p, b) in cells
  }

  lemma {:induction false} CellsMembers(problems: seq<string>, cell: Cell)
    ensures cell in Cells(problems) <==> cell.0 in problems
  {
    if problems != [] {
      var n := |problems| - 1;
      CellsMembers(problems[..n], cell);
      TakeSnoc(problems, n);
      TakeAll(problems);
      FiveMembers(problems[n], cell);
    }
  }

  lemma {:induction false} FiveMembers(problem: string, cell: Cell)
    ensures cell in CellsOf(problem) <==> cell.0 == problem
  {
    var five := CellsOf(problem);
    if cell.0 == problem {
      match cell.1
      case Ordinary => assert five[0] == cell;
      case Portfolio => assert five[1] == cell;
      case ProductOnly => assert five[2] == cell;
      case MultiFidelity => assert five[3] == cell;
      case VerifiedChain => assert five[4] == cell;
    }
  }

  lemma {:induction false} CellsDistinct(problems: seq<string>)
    requires Distinct(problems)
    ensures Distinct(Cells(problems))
  {
    if problems != [] {
      var n := |problems| - 1;
      CellsDistinct(problems[..n]);
      forall cell | cell in Cells(problems[..n]) ensures cell !in CellsOf(problems[n]) {
        CellsMembers(problems[..n], cell);
        FiveMembers(problems[n], cell);
      }
      DistinctConcat(Cells(problems[..n]), CellsOf(problems[n]));
    }
  }

  lemma {:induction false} CellsPaired(problems: seq<string>)
    requires Distinct(problems)
    ensures Pairing(Cells(problems))
  {
    CellsDistinct(problems);
    forall p: string, a: Arm | Present(Cells(problems), p) ensures (p, a) in Cells(problems) {
      var b: Arm :| (p, b) in Cells(problems);
      CellsMembers(problems, (p, b));
      CellsMembers(problems, (p, a));
    }
  }

  lemma {:induction false} PairingPermutes(a: seq<Cell>, b: seq<Cell>)
    requires Pairing(a) && multiset(a) == multiset(b)
    ensures Pairing(b)
  {
    MultisetDistinct(a, b);
    MultisetLength(a, b);
    forall p: string, arm: Arm | Present(b, p) ensures (p, arm) in b {
      var c: Arm :| (p, c) in b;
      assert Present(a, p);
    }
  }

  /** Which arms each problem has so far. */
  ghost predicate Observes(observed: map<string, set<Arm>>, cells: seq<Cell>) {
    && (forall p :: p in observed <==> Present(cells, p))
    && (forall p, a :: p in observed ==> (a in observed[p] <==> (p, a) in cells))
  }

  lemma {:induction false} ObserveStep(observed: map<string, set<Arm>>, cells: seq<Cell>, p: string, a: Arm)
    requires Observes(observed, cells)
    ensures Observes(observed[p := (if p in observed then observed[p] else {}) + {a}], cells + [(p, a)])
  {
    var more := cells + [(p, a)];
    forall q, b ensures (q, b) in more <==> (q, b) in cells || (q == p && b == a) {
      assert more[|cells|] == (p, a);
      if (q, b) in cells {
        var i :| 0 <= i < |cells| && cells[i] == (q, b);
        assert more[i] == (q, b);
      }
    }
    forall q ensures Present(more, q) <==> Present(cells, q) || q == p {
      if q == p {
        assert (p, a) in more;
      } else if Present(cells, q) {
        var b: Arm :| (q, b) in cells;
        assert (q, b) in more;
      }
    }
    if p !in observed {
      forall b ensures (p, b) !in cells {
        assert !Present(cells, p);
      }
    }
  }

  lemma {:induction false} RepeatedCell(cells: seq<Cell>, i: nat)
    requires i < |cells| && cells[i] in cells[..i]
    ensures !Pairing(cells)
  {
    var k :| 0 <= k < i && cells[..i][k] == cells[i];
    assert cells[k] == cells[i];
  }

  const ALL_ARMS: set<Arm> := {Ordinary, Portfolio, ProductOnly, MultiFidelity, VerifiedChain}

  /** The pairing loop with its dictionary of arm sets. */
  method CheckPairing(cells: seq<Cell>) returns (ok: bool)
    ensures ok <==> Pairing(cells)
  {
    var observed: map<string, set<Arm>> := map[];
    for i := 0 to |cells|
      invariant Observes(observed, cells[..i]) && Distinct(cells[..i])
    {
      var p, a := cells[i].0, cells[i].1;
      TakeSnoc(cells, i);
      DistinctSnoc(cells[..i], cells[i]);
      ObserveStep(observed, cells[..i], p, a);
      var arms := if p in observed then observed[p] else {};
      if a in arms {
        RepeatedCell(cells, i);
        return false;
      }
      observed := observed[p := arms + {a}];
    }
    TakeAll(cells);
    ok := forall p :: p in observed ==> observed[p] == ALL_ARMS;
    CompleteMeansPaired(observed, cells);
  }

  lemma {:induction false} AllArmsAre(arms: set<Arm>)
    ensures arms == ALL_ARMS <==> forall a: Arm :: a in arms
  {
    forall a: Arm ensures a in ALL_ARMS {
      assert a.Ordinary? || a.Portfolio? || a.ProductOnly? || a.MultiFidelity? || a.VerifiedChain?;
    }
  }

  lemma {:induction false} PairedIsComplete(observed: map<string, set<Arm>>, cells: seq<Cell>, p: string)
    requires Observes(observed, cells) && Pairing(cells) && p in observed
    ensures observed[p] == ALL_ARMS
  {
    assert Present(cells, p);
    forall a: Arm ensures a in observed[p] {
      assert (p, a) in cells;
    }
    AllArmsAre(observed[p]);
  }

  lemma {:induction false} CompleteIsPaired(observed: map<string, set<Arm>>, cells: seq<Cell>, p: string, a: Arm)
    requires Observes(observed, cells) && Present(cells, p) && p in observed && observed[p] == ALL_ARMS
    ensures (p, a) in cells
  {
    AllArmsAre(observed[p]);
  }

  lemma {:induction false} CompleteMeansPaired(observed: map<string, set<Arm>>, cells: seq<Cell>)
    requires Observes(observed, cells) && Distinct(cells)
    ensures Pairing(cells) <==> forall p :: p in observed ==> observed[p] == ALL_ARMS
  {
    if Pairing(cells) {
      forall p | p in observed ensures observed[p] == ALL_ARMS {
        PairedIsComplete(observed, cells, p);
      }
    }
    if forall p :: p in observed ==> observed[p] == ALL_ARMS {
      forall p: string, a: Arm | Present(cells, p) ensures (p, a) in cells {
        CompleteIsPaired(observed, cells, p, a);
      }
    }
  }

  // ---- the blind order ----

  function NatLeq(a: nat, b: nat): bool {
    a <= b
  }

  function IdOf(a: Assignment): Code {
    a.id
  }

  function ExecutionIndexOf(a: Assignment): nat {
    a.executionIndex
  }

  ghost predicate PairedAssignments(s: seq<Assignment>) {
    && s != [] && (forall i :: 0 <= i < |s| ==> s[i].problem != "")
    && Distinct(Map(IdOf, s)) && Sort(NatLeq, Map(ExecutionIndexOf, s)) == UpTo(|s|)
    && Pairing(Map(CellOf, s))
  }

  method ValidatePairedAssignments(s: seq<Assignment>) returns (ok: bool)
    ensures ok <==> PairedAssignments(s)
  {
    if s == [] || exists i :: 0 <= i < |s| && s[i].problem == "" {
      return false;
    }
    var ids := AllDifferent(Map(IdOf, s));
    if !ids || Sort(NatLeq, Map(ExecutionIndexOf, s)) != UpTo(|s|) {
      return false;
    }
    ok := CheckPairing(Map(CellOf, s));
  }

  function ByEvaluation(r: Ranks, seed: string): (Assignment, Assignment) -> bool {
    (x: Assignment, y: Assignment) =>
      var a, b := r.evaluation(seed, x.id), r.evaluation(seed, y.id);
      if a != b then a < b else r.text(x.id) <= r.text(y.id)
  }

  /** Ranked rows, each evaluation id committing to its assignment, problem and place. */
  function Rows(r: Ranks, seed: string, s: seq<Assignment>): (rows: seq<Row>)
    ensures var ranked := Sort(ByEvaluation(r, seed), s);
      |rows| == |ranked| && forall i :: 0 <= i < |rows| ==> rows[i] == RowAt(seed, ranked, i)
  {
    var ranked := Sort(ByEvaluation(r, seed), s);
    seq(|ranked|, i requires 0 <= i < |ranked| => RowAt(seed, ranked, i))
  }

  function RowAt(seed: string, ranked: seq<Assignment>, i: nat): Row
    requires i < |ranked|
  {
    Row(EvaluationId(seed, ranked[i].id, ranked[i].problem, i), ranked[i])
  }

  method BlindRows(r: Ranks, seed: string, s: seq<Assignment>) returns (result: Result<seq<Row>>)
    ensures result.Ok? <==> PairedAssignments(s)
    ensures result.Ok? ==> result.value == Rows(r, seed, s)
  {
    var ok := ValidatePairedAssignments(s);
    if !ok {
      return Raised;
    }
    return Ok(Rows(r, seed, s));
  }

  function AssignmentOf(row: Row): Assignment {
    row.assignment
  }

  function EvaluationIdOf(row: Row): Code {
    row.evaluationId
  }

  lemma {:induction false} RowsPermute(r: Ranks, seed: string, s: seq<Assignment>)
    ensures multiset(Map(AssignmentOf, Rows(r, seed, s))) == multiset(s) && |Rows(r, seed, s)| == |s|
  {
    SortPermutes(ByEvaluation(r, seed), s);
    assert Map(AssignmentOf, Rows(r, seed, s)) == Sort(ByEvaluation(r, seed), s);
  }

  /** The place is part of the id, so evaluation ids never repeat. */
  lemma {:induction false} EvaluationIdsDistinct(r: Ranks, seed: string, s: seq<Assignment>)
    ensures Distinct(Map(EvaluationIdOf, Rows(r, seed, s)))
  {
    var rows := Rows(r, seed, s);
    forall i, j | 0 <= i < j < |rows| ensures Map(EvaluationIdOf, rows)[i] != Map(EvaluationIdOf, rows)[j] {
      assert rows[i].evaluationId.index == i && rows[j].evaluationId.index == j;
    }
  }

  lemma {:induction false} SortedUpTo(s: seq<nat>)
    requires multiset(s) == multiset(UpTo(|s|))
    ensures Sort(NatLeq, s) == UpTo(|s|)
  {
    SortSorts(NatLeq, s);
    SortPermutes(NatLeq, s);
    SortedUnique(NatLeq, Sort(NatLeq, s), UpTo(|s|));
  }

  /** Assignments made in an order list its cells, numbered from zero. */
  ghost predicate MadeFrom(seed: string, order: seq<Cell>, s: seq<Assignment>) {
    |s| == |order| && forall i :: 0 <= i < |s| ==> s[i] == Assign(seed, order[i], i)
  }

  lemma {:induction false} MadeCells(seed: string, order: seq<Cell>, s: seq<Assignment>)
    requires MadeFrom(seed, order, s)
    ensures Map(CellOf, s) == order
  {
    forall i | 0 <= i < |s| ensures Map(CellOf, s)[i] == order[i] {
      assert CellOf(s[i]) == order[i];
    }
  }

  lemma {:induction false} MadeIndices(seed: string, order: seq<Cell>, s: seq<Assignment>)
    requires MadeFrom(seed, order, s)
    ensures Map(ExecutionIndexOf, s) == UpTo(|s|)
  {
    forall i | 0 <= i < |s| ensures Map(ExecutionIndexOf, s)[i] == UpTo(|s|)[i] {
      assert ExecutionIndexOf(s[i]) == i;
    }
  }

  lemma {:induction false} OrderPermutes(r: Ranks, seed: string, problems: seq<string>)
    ensures multiset(ExecutionOrder(r, seed, problems)) == multiset(Cells(Sort(TextLeq, problems)))
    ensures |ExecutionOrder(r, seed, problems)| == 5 * |problems|
  {
    SortPermutes(ByExecution(r, seed), Cells(Sort(TextLeq, problems)));
    SortPermutes(TextLeq, problems);
  }

  lemma {:induction false} AssignmentsCells(r: Ranks, seed: string, problems: seq<string>)
    ensures MadeFrom(seed, ExecutionOrder(r, seed, problems), Assignments(r, seed, problems))
    ensures Map(CellOf, Assignments(r, seed, problems)) == ExecutionOrder(r, seed, problems)
    ensures Map(ExecutionIndexOf, Assignments(r, seed, problems)) == UpTo(|Assignments(r, seed, problems)|)
    ensures multiset(ExecutionOrder(r, seed, problems)) == multiset(Cells(Sort(TextLeq, problems)))
    ensures |Assignments(r, seed, problems)| == 5 * |problems|
  {
    OrderPermutes(r, seed, problems);
    assert MadeFrom(seed, ExecutionOrder(r, seed, problems), Assignments(r, seed, problems));
    MadeCells(seed, ExecutionOrder(r, seed, problems), Assignments(r, seed, problems));
    MadeIndices(seed, ExecutionOrder(r, seed, problems), Assignments(r, seed, problems));
  }

  lemma {:induction false} CanonicalDistinct(problems: seq<string>)
    requires Distinct(problems)
    ensures Distinct(Sort(TextLeq, problems)) && forall p :: p in Sort(TextLeq, problems) <==> p in problems
  {
    SortPermutes(TextLeq, problems);
    MultisetDistinct(problems, Sort(TextLeq, problems));
  }

  lemma {:induction false} OrderIsPaired(r: Ranks, seed: string, problems: seq<string>)
    requires Distinct(problems)
    ensures Pairing(ExecutionOrder(r, seed, problems))
  {
    AssignmentsCells(r, seed, problems);
    CanonicalDistinct(problems);
    CellsPaired(Sort(TextLeq, problems));
    PairingPermutes(Cells(Sort(TextLeq, problems)), ExecutionOrder(r, seed, problems));
  }

  lemma {:induction false} OrderMembers(r: Ranks, seed: string, problems: seq<string>, cell: Cell)
    ensures cell in ExecutionOrder(r, seed, problems) <==> cell.0 in problems
  {
    AssignmentsCells(r, seed, problems);
    SortPermutes(TextLeq, problems);
    MultisetLength(ExecutionOrder(r, seed, problems), Cells(Sort(TextLeq, problems)));
    CellsMembers(Sort(TextLeq, problems), cell);
  }

  /** Ids are as distinct as the cells they stand for. */
  lemma {:induction false} AssignmentIdsDistinct(seed: string, order: seq<Cell>, s: seq<Assignment>)
    requires Distinct(order) && MadeFrom(seed, order, s)
    ensures Distinct(Map(IdOf, s))
  {
    forall i, j | 0 <= i < j < |s| ensures Map(IdOf, s)[i] != Map(IdOf, s)[j] {
      assert order[i] != order[j];
    }
  }

  lemma {:induction false} MadePaired(seed: string, order: seq<Cell>, s: seq<Assignment>)
    requires MadeFrom(seed, order, s) && order != [] && Pairing(order) && forall cell :: cell in order ==> cell.0 != ""
    ensures PairedAssignments(s)
  {
    MadeCells(seed, order, s);
    MadeIndices(seed, order, s);
    SortedUpTo(Map(ExecutionIndexOf, s));
    AssignmentIdsDistinct(seed, order, s);
    forall i | 0 <= i < |s| ensures s[i].problem != "" {
      assert order[i] in order;
    }
  }

  /** Problems × arms, each exactly once, in execution order 0 .. 5n - 1. */
  lemma {:induction false} AssignmentsArePaired(r: Ranks, seed: string, problems: seq<string>)
    requires ProblemIdsOk(problems)
    ensures PairedAssignments(Assignments(r, seed, problems))
  {
    var order := ExecutionOrder(r, seed, problems);
    AssignmentsCells(r, seed, problems);
    OrderIsPaired(r, seed, problems);
    forall cell | cell in order ensures cell.0 != "" {
      OrderMembers(r, seed, problems, cell);
    }
    MadePaired(seed, order, Assignments(r, seed, problems));
  }

  /** For a fixed seed the plan does not depend on the order in which problems are given. */
  lemma {:induction false} PlanIgnoresInputOrder(r: Ranks, seed: string, problems: seq<string>, others: seq<string>)
    requires multiset(problems) == multiset(others)
    ensures Assignments(r, seed, problems) == Assignments(r, seed, others)
    ensures Rows(r, seed, Assignments(r, seed, problems)) == Rows(r, seed, Assignments(r, seed, others))
  {
    TextOrder();
    SortOrderIndependent(TextLeq, problems, others);
  }

  // ---- the public manifest and the operator's reveal ----

  datatype FrozenProblem = FrozenProblem(id: string, sha: string, family: string, contract: string)

  datatype PublicItem = PublicItem(evaluationId: Code, problem: FrozenProblem, index: nat, quota: nat)

  datatype RevealEntry = RevealEntry(evaluationId: Code, assignmentId: Code, arm: Arm, executionIndex: nat, quota: nat)

  /** The reveal commitment is a digest of the entries: it stands for them. */
  datatype PilotManifest = PilotManifest(header: seq<string>, commitment: seq<RevealEntry>, items: seq<PublicItem>)

  datatype RevealMap = RevealMap(manifest: PilotManifest, seed: string, entries: seq<RevealEntry>)

  function ProblemIdOf(p: FrozenProblem): string {
    p.id
  }

  function FamilyOf(p: FrozenProblem): string {
    p.family
  }

  function ContractOf(p: FrozenProblem): string {
    p.contract
  }

  /** Ids are unique and never blank, one problem a family, one benchmark contract. */
  ghost predicate FrozenOk(problems: seq<FrozenProblem>) {
    && ProblemIdsOk(Map(ProblemIdOf, problems)) && Distinct(Map(FamilyOf, problems)) && OneValue(Map(ContractOf, problems))
  }

  function ById(problems: seq<FrozenProblem>, id: string): Option<FrozenProblem> {
    if problems == [] then None
    else if problems[0].id == id then Some(problems[0])
    else ById(problems[1..], id)
  }

  function ItemEvaluationId(i: PublicItem): Code {
    i.evaluationId
  }

  function Label(i: PublicItem): string {
    i.problem.id
  }

  function ItemFamily(i: PublicItem): string {
    i.problem.family
  }

  function ItemProblem(i: PublicItem): FrozenProblem {
    i.problem
  }

  function ItemQuota(i: PublicItem): nat {
    i.quota
  }

  function ItemIndex(i: PublicItem): nat {
    i.index
  }

  function EntryEvaluationId(e: RevealEntry): Code {
    e.evaluationId
  }

  function EntryAssignmentId(e: RevealEntry): Code {
    e.assignmentId
  }

  function EntryQuota(e: RevealEntry): nat {
    e.quota
  }

  function EntryExecutionIndex(e: RevealEntry): nat {
    e.executionIndex
  }

  /** Every label occurs five times. */
  predicate FiveEach(labels: seq<string>) {
    CountedUpTo(labels, |labels|)
  }

  predicate CountedUpTo(labels: seq<string>, n: nat)
    requires n <= |labels|
  {
    n == 0 || (CountedUpTo(labels, n - 1) && multiset(labels)[labels[n - 1]] == 5)
  }

  lemma {:induction false} CountedAt(labels: seq<string>, n: nat, i: nat)
    requires i < n <= |labels| && CountedUpTo(labels, n)
    ensures multiset(labels)[labels[i]] == 5
  {
    if i < n - 1 {
      CountedAt(labels, n - 1, i);
    }
  }

  lemma {:induction false} CountedWhen(labels: seq<string>, n: nat)
    requires n <= |labels| && forall p :: p in labels ==> multiset(labels)[p] == 5
    ensures CountedUpTo(labels, n)
  {
    if n > 0 {
      CountedWhen(labels, n - 1);
      assert labels[n - 1] in labels;
    }
  }

  /** The public manifest's own rules. */
  ghost predicate PublicItemsOk(items: seq<PublicItem>) {
    && items != [] && Map(ItemIndex, items) == UpTo(|items|) && Distinct(Map(ItemEvaluationId, items))
    && OneValue(Map(ItemQuota, items)) && FiveEach(Map(Label, items))
    && Functional(Map(Label, items), Map(ItemProblem, items))
    && Functional(Map(ItemFamily, items), Map(Label, items))
  }

  /** The reveal map's own rules. */
  ghost predicate RevealEntriesOk(entries: seq<RevealEntry>) {
    && entries != [] && Distinct(Map(EntryEvaluationId, entries)) && Distinct(Map(EntryAssignmentId, entries))
    && Sort(NatLeq, Map(EntryExecutionIndex, entries)) == UpTo(|entries|) && OneValue(Map(EntryQuota, entries))
  }

  function EntryFor(row: Row, quota: nat): RevealEntry {
    RevealEntry(row.evaluationId, row.assignment.id, row.assignment.arm, row.assignment.executionIndex, quota)
  }

  function ItemFor(row: Row, index: nat, problem: FrozenProblem, quota: nat): PublicItem {
    PublicItem(row.evaluationId, problem, index, quota)
  }

  /** The labelled cells: each public label with the arm revealed for it. */
  function Revealed(items: seq<PublicItem>, entries: seq<RevealEntry>): (cells: seq<Cell>)
    requires |items| == |entries|
    ensures |cells| == |items| && forall i :: 0 <= i < |cells| ==> cells[i] == (items[i].problem.id, entries[i].arm)
  {
    seq(|items|, i requires 0 <= i < |items| => (items[i].problem.id, entries[i].arm))
  }

  /** The plan that the seed gives for the labels on the items. */
  function Derived(r: Ranks, seed: string, items: seq<PublicItem>): seq<Row> {
    Rows(r, seed, Assignments(r, seed, Dedup(Map(Label, items))))
  }

  /** The entries the seed gives for the items in their order. */
  predicate EntriesFollow(rows: seq<Row>, items: seq<PublicItem>, entries: seq<RevealEntry>) {
    && |rows| == |items| == |entries|
    && forall i :: 0 <= i < |items| ==> items[i].evaluationId == rows[i].evaluationId && entries[i] == EntryFor(rows[i], items[i].quota)
  }

  /** Exactly what the joint check accepts. Item labels enter only as a set and through the pairing of labels with arms. */
  ghost predicate ValidFor(r: Ranks, m: PilotManifest, v: RevealMap) {
    && PublicItemsOk(m.items) && RevealEntriesOk(v.entries) && v.manifest == m && v.entries == m.commitment
    && ProblemIdsOk(Dedup(Map(Label, m.items)))
    && EntriesFollow(Derived(r, v.seed, m.items), m.items, v.entries)
    && Pairing(Revealed(m.items, v.entries))
  }

  /** A generated pair: items and entries of the seed's rows, in row order. */
  ghost predicate GeneratedFrom(r: Ranks, seed: string, problems: seq<FrozenProblem>, quota: nat, m: PilotManifest, v: RevealMap) {
    var rows := Rows(r, seed, Assignments(r, seed, Map(ProblemIdOf, problems)));
    && |m.items| == |rows| == |v.entries|
    && (forall i :: 0 <= i < |rows| ==>
          && m.items[i].evaluationId == rows[i].evaluationId && m.items[i].index == i && m.items[i].quota == quota
          && ById(problems, rows[i].assignment.problem) == Some(m.items[i].problem)
          && v.entries[i] == EntryFor(rows[i], quota))
    && v == RevealMap(m, seed, m.commitment) && m.commitment == v.entries
  }

  // ---- generated pairs are valid ----

  lemma {:induction false} ByIdFinds(problems: seq<FrozenProblem>, id: string)
    ensures ById(problems, id).Some? <==> id in Map(ProblemIdOf, problems)
    ensures ById(problems, id).Some? ==> ById(problems, id).value in problems && ById(problems, id).value.id == id
  {
    if problems != [] {
      ByIdFinds(problems[1..], id);
      assert problems == [problems[0]] + problems[1..];
      assert Map(ProblemIdOf, problems) == [problems[0].id] + Map(ProblemIdOf, problems[1..]);
    }
  }

  function RowProblem(row: Row): string {
    row.assignment.problem
  }

  function RowCell(row: Row): Cell {
    CellOf(row.assignment)
  }

  function First(cell: Cell): string {
    cell.0
  }

  lemma {:induction false} RowCells(r: Ranks, seed: string, problems: seq<string>)
    ensures var s := Assignments(r, seed, problems);
      && multiset(Map(RowCell, Rows(r, seed, s))) == multiset(Cells(Sort(TextLeq, problems)))
      && |Rows(r, seed, s)| == 5 * |problems|
  {
    var s := Assignments(r, seed, problems);
    var rows := Rows(r, seed, s);
    RowsPermute(r, seed, s);
    MapPermutation(CellOf, Map(AssignmentOf, rows), s);
    assert Map(CellOf, Map(AssignmentOf, rows)) == Map(RowCell, rows);
    AssignmentsCells(r, seed, problems);
  }

  lemma {:induction false} CountOf(cells: seq<Cell>, five: seq<string>, p: string)
    requires |five| == 5 && forall k :: 0 <= k < 5 ==> five[k] == p
    ensures multiset(five)[p] == 5 && forall q :: q != p ==> multiset(five)[q] == 0
  {
    assert five == [p, p, p, p, p];
  }

  lemma {:induction false} LastApart(problems: seq<string>, p: string)
    requires Distinct(problems) && problems != []
    ensures Distinct(problems[..|problems| - 1]) && problems[|problems| - 1] !in problems[..|problems| - 1]
    ensures p in problems <==> p in problems[..|problems| - 1] || p == problems[|problems| - 1]
  {
    TakeSnoc(problems, |problems| - 1);
    TakeAll(problems);
    DistinctSnoc(problems[..|problems| - 1], problems[|problems| - 1]);
  }

  lemma {:induction false} CellsSnoc(problems: seq<string>, p: string)
    requires problems != []
    ensures multiset(Map(First, Cells(problems)))[p] ==
      multiset(Map(First, Cells(problems[..|problems| - 1])))[p] + (if p == problems[|problems| - 1] then 5 else 0)
  {
    var n := |problems| - 1;
    var five := Map(First, CellsOf(problems[n]));
    MapConcat(First, Cells(problems[..n]), CellsOf(problems[n]));
    CountOf(Cells(problems[..n]), five, problems[n]);
  }

  /** Each problem labels five cells. */
  lemma {:induction false} CellsCount(problems: seq<string>, p: string)
    requires Distinct(problems)
    ensures multiset(Map(First, Cells(problems)))[p] == if p in problems then 5 else 0
  {
    if problems != [] {
      LastApart(problems, p);
      CellsCount(problems[..|problems| - 1], p);
      CellsSnoc(problems, p);
    }
  }

  lemma {:induction false} RowFirsts(rows: seq<Row>, cells: seq<Cell>)
    requires multiset(Map(RowCell, rows)) == multiset(cells)
    ensures multiset(Map(RowProblem, rows)) == multiset(Map(First, cells))
  {
    MapPermutation(First, Map(RowCell, rows), cells);
    assert Map(First, Map(RowCell, rows)) == Map(RowProblem, rows);
  }

  lemma {:induction false} LabelsMultiset(r: Ranks, seed: string, problems: seq<string>)
    ensures multiset(Map(RowProblem, Rows(r, seed, Assignments(r, seed, problems))))
         == multiset(Map(First, Cells(Sort(TextLeq, problems))))
  {
    RowCells(r, seed, problems);
    RowFirsts(Rows(r, seed, Assignments(r, seed, problems)), Cells(Sort(TextLeq, problems)));
  }

  lemma {:induction false} CountsDecide(labels: seq<string>, problems: seq<string>)
    requires forall p :: multiset(labels)[p] == if p in problems then 5 else 0
    ensures FiveEach(labels) && forall p :: p in labels <==> p in problems
  {
    forall p ensures p in labels <==> p in problems {
      assert p in labels <==> p in multiset(labels);
    }
    CountedWhen(labels, |labels|);
  }

  lemma {:induction false} LabelsFiveEach(r: Ranks, seed: string, problems: seq<string>, labels: seq<string>)
    requires Distinct(problems) && labels == Map(RowProblem, Rows(r, seed, Assignments(r, seed, problems)))
    ensures FiveEach(labels) && forall p :: p in labels <==> p in problems
  {
    LabelsMultiset(r, seed, problems);
    CanonicalDistinct(problems);
    forall p ensures multiset(labels)[p] == if p in problems then 5 else 0 {
      CellsCount(Sort(TextLeq, problems), p);
    }
    CountsDecide(labels, problems);
  }

  /** The items carry the labels of their rows. */
  lemma {:induction false} ItemLabels(
    r: Ranks, seed: string, problems: seq<FrozenProblem>, quota: nat, m: PilotManifest, v: RevealMap, i: nat)
    requires GeneratedFrom(r, seed, problems, quota, m, v) && i < |m.items|
    ensures var rows := Rows(r, seed, Assignments(r, seed, Map(ProblemIdOf, problems)));
      && m.items[i].problem in problems && m.items[i].problem.id == rows[i].assignment.problem
  {
    var rows := Rows(r, seed, Assignments(r, seed, Map(ProblemIdOf, problems)));
    ByIdFinds(problems, rows[i].assignment.problem);
  }

  lemma {:induction false} LabelsAreRows(
    r: Ranks, seed: string, problems: seq<FrozenProblem>, quota: nat, m: PilotManifest, v: RevealMap)
    requires GeneratedFrom(r, seed, problems, quota, m, v)
    ensures Map(Label, m.items) == Map(RowProblem, Rows(r, seed, Assignments(r, seed, Map(ProblemIdOf, problems))))
    ensures forall i :: 0 <= i < |m.items| ==> m.items[i].problem in problems
  {
    forall i | 0 <= i < |m.items|
      ensures m.items[i].problem in problems
      ensures Map(Label, m.items)[i] == Map(RowProblem, Rows(r, seed, Assignments(r, seed, Map(ProblemIdOf, problems))))[i]
    {
      ItemLabels(r, seed, problems, quota, m, v, i);
    }
  }

  /** Frozen problems with one id, or of one family, are one problem. */
  lemma {:induction false} ProblemsUnique(problems: seq<FrozenProblem>, p: FrozenProblem, q: FrozenProblem)
    requires FrozenOk(problems) && p in problems && q in problems
    ensures p.id == q.id || p.family == q.family ==> p == q
  {
    var i :| 0 <= i < |problems| && problems[i] == p;
    var j :| 0 <= j < |problems| && problems[j] == q;
    var ids, families := Map(ProblemIdOf, problems), Map(FamilyOf, problems);
    if i < j {
      assert ids[i] != ids[j] && families[i] != families[j];
    } else if j < i {
      assert ids[j] != ids[i] && families[j] != families[i];
    }
  }

  lemma {:induction false} ItemsAlike(problems: seq<FrozenProblem>, x: PublicItem, y: PublicItem)
    requires FrozenOk(problems) && x.problem in problems && y.problem in problems
    ensures Alike(x, y)
  {
    ProblemsUnique(problems, x.problem, y.problem);
  }

  lemma {:induction false} ItemsFunctional(problems: seq<FrozenProblem>, items: seq<PublicItem>)
    requires FrozenOk(problems) && forall i :: 0 <= i < |items| ==> items[i].problem in problems
    ensures Functional(Map(Label, items), Map(ItemProblem, items))
    ensures Functional(Map(ItemFamily, items), Map(Label, items))
  {
    forall k, l | 0 <= k < l < |items| ensures Alike(items[k], items[l]) {
      ItemsAlike(problems, items[k], items[l]);
    }
    AllAlike(items);
  }

  /** Items numbered in order, under one quota, with the rows' ids. */
  ghost predicate Numbered(rows: seq<Row>, quota: nat, items: seq<PublicItem>) {
    |items| == |rows| && forall i :: 0 <= i < |items| ==>
      items[i].index == i && items[i].quota == quota && items[i].evaluationId == rows[i].evaluationId
  }

  lemma {:induction false} NumberedItems(rows: seq<Row>, quota: nat, items: seq<PublicItem>)
    requires Numbered(rows, quota, items) && rows != []
    ensures Map(ItemIndex, items) == UpTo(|items|) && OneValue(Map(ItemQuota, items))
    ensures Map(ItemEvaluationId, items) == Map(EvaluationIdOf, rows)
  {
  }

  lemma {:induction false} GeneratedItemsOk(
    r: Ranks, seed: string, problems: seq<FrozenProblem>, quota: nat, m: PilotManifest, v: RevealMap)
    requires FrozenOk(problems) && GeneratedFrom(r, seed, problems, quota, m, v)
    ensures PublicItemsOk(m.items)
  {
    var ids := Map(ProblemIdOf, problems);
    assert |Rows(r, seed, Assignments(r, seed, ids))| > 0 by {
      RowCells(r, seed, ids);
    }
    NumberedItems(Rows(r, seed, Assignments(r, seed, ids)), quota, m.items);
    EvaluationIdsDistinct(r, seed, Assignments(r, seed, ids));
    LabelsAreRows(r, seed, problems, quota, m, v);
    LabelsFiveEach(r, seed, ids, Map(Label, m.items));
    ItemsFunctional(problems, m.items);
  }

  lemma {:induction false} EntriesOfRows(s: seq<Assignment>, rows: seq<Row>, quota: nat, entries: seq<RevealEntry>)
    requires |entries| == |rows| && forall i :: 0 <= i < |rows| ==> entries[i] == EntryFor(rows[i], quota)
    ensures Map(EntryEvaluationId, entries) == Map(EvaluationIdOf, rows)
    ensures Map(EntryAssignmentId, entries) == Map(IdOf, Map(AssignmentOf, rows))
    ensures Map(EntryExecutionIndex, entries) == Map(ExecutionIndexOf, Map(AssignmentOf, rows))
    ensures rows != [] ==> OneValue(Map(EntryQuota, entries))
  {
  }

  lemma {:induction false} EntriesOk(s: seq<Assignment>, rows: seq<Row>, quota: nat, entries: seq<RevealEntry>)
    requires |entries| == |rows| && forall i :: 0 <= i < |rows| ==> entries[i] == EntryFor(rows[i], quota)
    requires multiset(Map(AssignmentOf, rows)) == multiset(s) && Distinct(Map(EvaluationIdOf, rows)) && rows != []
    requires Distinct(Map(IdOf, s)) && Map(ExecutionIndexOf, s) == UpTo(|s|)
    ensures RevealEntriesOk(entries)
  {
    EntriesOfRows(s, rows, quota, entries);
    MultisetLength(Map(AssignmentOf, rows), s);
    MapPermutation(IdOf, s, Map(AssignmentOf, rows));
    MultisetDistinct(Map(IdOf, s), Map(EntryAssignmentId, entries));
    MapPermutation(ExecutionIndexOf, s, Map(AssignmentOf, rows));
    SortedUpTo(Map(EntryExecutionIndex, entries));
  }

  lemma {:induction false} GeneratedEntriesOk(
    r: Ranks, seed: string, problems: seq<FrozenProblem>, quota: nat, m: PilotManifest, v: RevealMap)
    requires FrozenOk(problems) && GeneratedFrom(r, seed, problems, quota, m, v)
    ensures RevealEntriesOk(v.entries)
  {
    var ids := Map(ProblemIdOf, problems);
    var s := Assignments(r, seed, ids);
    assert |Rows(r, seed, s)| > 0 by {
      RowCells(r, seed, ids);
    }
    RowsPermute(r, seed, s);
    AssignmentsArePaired(r, seed, ids);
    AssignmentsCells(r, seed, ids);
    EvaluationIdsDistinct(r, seed, s);
    EntriesOk(s, Rows(r, seed, s), quota, v.entries);
  }

  lemma {:induction false} SameIdsOk(labels: seq<string>, ids: seq<string>)
    requires ProblemIdsOk(ids) && Distinct(labels) && forall p :: p in labels <==> p in ids
    ensures ProblemIdsOk(labels)
  {
    assert ids[0] in labels;
    forall i | 0 <= i < |labels| ensures labels[i] != "" {
      assert labels[i] in labels;
      var j :| 0 <= j < |ids| && ids[j] == labels[i];
    }
  }

  /** The set of labels gives the seed the same plan back. */
  lemma {:induction false} DerivedAgain(
    r: Ranks, seed: string, problems: seq<FrozenProblem>, quota: nat, m: PilotManifest, v: RevealMap)
    requires FrozenOk(problems) && GeneratedFrom(r, seed, problems, quota, m, v)
    ensures ProblemIdsOk(Dedup(Map(Label, m.items)))
    ensures Derived(r, seed, m.items) == Rows(r, seed, Assignments(r, seed, Map(ProblemIdOf, problems)))
  {
    var ids, labels := Map(ProblemIdOf, problems), Dedup(Map(Label, m.items));
    assert forall p :: p in Map(Label, m.items) <==> p in ids by {
      LabelsAreRows(r, seed, problems, quota, m, v);
      LabelsFiveEach(r, seed, ids, Map(Label, m.items));
    }
    DedupDistinct(Map(Label, m.items));
    DistinctSameSet(labels, ids);
    PlanIgnoresInputOrder(r, seed, labels, ids);
    SameIdsOk(labels, ids);
  }

  lemma {:induction false} RevealedIsRows(
    r: Ranks, seed: string, problems: seq<FrozenProblem>, quota: nat, m: PilotManifest, v: RevealMap)
    requires GeneratedFrom(r, seed, problems, quota, m, v)
    ensures Revealed(m.items, v.entries) == Map(RowCell, Rows(r, seed, Assignments(r, seed, Map(ProblemIdOf, problems))))
  {
    var rows := Rows(r, seed, Assignments(r, seed, Map(ProblemIdOf, problems)));
    forall i | 0 <= i < |m.items| ensures Revealed(m.items, v.entries)[i] == Map(RowCell, rows)[i] {
      ItemLabels(r, seed, problems, quota, m, v, i);
    }
  }

  lemma {:induction false} RowsArePaired(r: Ranks, seed: string, ids: seq<string>)
    requires Distinct(ids)
    ensures var cells := Map(RowCell, Rows(r, seed, Assignments(r, seed, ids)));
      multiset(cells) == multiset(Cells(Sort(TextLeq, ids))) && Pairing(cells)
  {
    RowCells(r, seed, ids);
    CanonicalDistinct(ids);
    CellsPaired(Sort(TextLeq, ids));
    PairingPermutes(Cells(Sort(TextLeq, ids)), Map(RowCell, Rows(r, seed, Assignments(r, seed, ids))));
  }

  lemma {:induction false} GeneratedPairing(
    r: Ranks, seed: string, problems: seq<FrozenProblem>, quota: nat, m: PilotManifest, v: RevealMap)
    requires FrozenOk(problems) && GeneratedFrom(r, seed, problems, quota, m, v)
    ensures multiset(Revealed(m.items, v.entries)) == multiset(Cells(Sort(TextLeq, Map(ProblemIdOf, problems))))
    ensures Pairing(Revealed(m.items, v.entries))
  {
    RevealedIsRows(r, seed, problems, quota, m, v);
    RowsArePaired(r, seed, Map(ProblemIdOf, problems));
  }

  /** Every generated manifest and reveal passes the joint check, whatever the problems, the seed and the digests; and
      its reveal joins the blind items one to one with problems × arms. */
  lemma {:induction false} GeneratedIsValid(
    r: Ranks, seed: string, problems: seq<FrozenProblem>, quota: nat, m: PilotManifest, v: RevealMap)
    requires FrozenOk(problems) && GeneratedFrom(r, seed, problems, quota, m, v)
    ensures ValidFor(r, m, v)
    ensures multiset(Revealed(m.items, v.entries)) == multiset(Cells(Sort(TextLeq, Map(ProblemIdOf, problems))))
  {
    GeneratedItemsOk(r, seed, problems, quota, m, v);
    GeneratedEntriesOk(r, seed, problems, quota, m, v);
    DerivedAgain(r, seed, problems, quota, m, v);
    GeneratedPairing(r, seed, problems, quota, m, v);
  }

  // ---- the two entry points ----

  method CheckPublicItems(items: seq<PublicItem>) returns (ok: bool)
    ensures ok <==> PublicItemsOk(items)
  {
    if items == [] || Map(ItemIndex, items) != UpTo(|items|) {
      return false;
    }
    var ids := AllDifferent(Map(ItemEvaluationId, items));
    if !ids || !OneValue(Map(ItemQuota, items)) || !FiveEach(Map(Label, items)) {
      return false;
    }
    var one, snapshots := ValuePerKey(Map(Label, items), Map(ItemProblem, items));
    var family, familyToProblem := ValuePerKey(Map(ItemFamily, items), Map(Label, items));
    return one && family;
  }

  method CheckRevealEntries(entries: seq<RevealEntry>) returns (ok: bool)
    ensures ok <==> RevealEntriesOk(entries)
  {
    if entries == [] {
      return false;
    }
    var evaluations := AllDifferent(Map(EntryEvaluationId, entries));
    var assignments := AllDifferent(Map(EntryAssignmentId, entries));
    return evaluations && assignments && Sort(NatLeq, Map(EntryExecutionIndex, entries)) == UpTo(|entries|)
      && OneValue(Map(EntryQuota, entries));
  }

  /** Re-derives the plan from the seed and the labels, and compares. */
  method ValidateFor(r: Ranks, m: PilotManifest, v: RevealMap) returns (ok: bool)
    ensures ok <==> ValidFor(r, m, v)
  {
    var items := CheckPublicItems(m.items);
    var entries := CheckRevealEntries(v.entries);
    if !items || !entries || v.manifest != m || v.entries != m.commitment {
      return false;
    }
    var assignments := SeededPairedAssignment(r, v.seed, Dedup(Map(Label, m.items)));
    if assignments.Raised? {
      return false;
    }
    AssignmentsArePaired(r, v.seed, Dedup(Map(Label, m.items)));
    var rows := BlindRows(r, v.seed, assignments.value);
    if !EntriesFollow(rows.value, m.items, v.entries) {
      return false;
    }
    ok := CheckPairing(Revealed(m.items, v.entries));
  }

  method CheckFrozen(problems: seq<FrozenProblem>) returns (ok: bool)
    ensures ok <==> FrozenOk(problems)
  {
    var families := AllDifferent(Map(FamilyOf, problems));
    return ProblemIdsOk(Map(ProblemIdOf, problems)) && families && OneValue(Map(ContractOf, problems));
  }

  /** Generation, with its closing self-check, which never fails. */
  method GeneratePilotManifest(r: Ranks, seed: string, header: seq<string>, problems: seq<FrozenProblem>, quota: nat)
    returns (result: Result<RevealMap>)
    ensures result.Ok? <==> FrozenOk(problems) && quota > 0
    ensures result.Ok? ==> GeneratedFrom(r, seed, problems, quota, result.value.manifest, result.value)
    ensures result.Ok? ==> ValidFor(r, result.value.manifest, result.value)
  {
    var frozen := CheckFrozen(problems);
    if !frozen || quota == 0 {
      return Raised;
    }
    var ids := Map(ProblemIdOf, problems);
    var assignments := SeededPairedAssignment(r, seed, ids);
    AssignmentsArePaired(r, seed, ids);
    var rows := BlindRows(r, seed, assignments.value);
    var items, entries := BuildPair(rows.value, problems, quota, r, seed);
    var manifest := PilotManifest(header, entries, items);
    var revealMap := RevealMap(manifest, seed, entries);
    GeneratedIsValid(r, seed, problems, quota, manifest, revealMap);
    var ok := ValidateFor(r, manifest, revealMap);
    return if ok then Ok(revealMap) else Raised;
  }

  /** Items and entries, row by row. */
  method BuildPair(rows: seq<Row>, problems: seq<FrozenProblem>, quota: nat, ghost r: Ranks, ghost seed: string)
    returns (items: seq<PublicItem>, entries: seq<RevealEntry>)
    requires FrozenOk(problems) && rows == Rows(r, seed, Assignments(r, seed, Map(ProblemIdOf, problems)))
    ensures |items| == |rows| == |entries|
    ensures forall i :: 0 <= i < |rows| ==>
      && items[i].evaluationId == rows[i].evaluationId && items[i].index == i && items[i].quota == quota
      && ById(problems, rows[i].assignment.problem) == Some(items[i].problem) && entries[i] == EntryFor(rows[i], quota)
  {
    items, entries := [], [];
    for i := 0 to |rows|
      invariant |items| == |entries| == i
      invariant forall j :: 0 <= j < i ==>
        && items[j].evaluationId == rows[j].evaluationId && items[j].index == j && items[j].quota == quota
        && ById(problems, rows[j].assignment.problem) == Some(items[j].problem) && entries[j] == EntryFor(rows[j], quota)
    {
      RowProblemKnown(r, seed, problems, rows, i);
      items := items + [ItemFor(rows[i], i, ById(problems, rows[i].assignment.problem).value, quota)];
      entries := entries + [EntryFor(rows[i], quota)];
    }
  }

  lemma {:induction false} RowProblemKnown(r: Ranks, seed: string, problems: seq<FrozenProblem>, rows: seq<Row>, i: nat)
    requires FrozenOk(problems) && rows == Rows(r, seed, Assignments(r, seed, Map(ProblemIdOf, problems))) && i < |rows|
    ensures ById(problems, rows[i].assignment.problem).Some?
  {
    var ids := Map(ProblemIdOf, problems);
    LabelsFiveEach(r, seed, ids, Map(RowProblem, rows));
    assert Map(RowProblem, rows)[i] in Map(RowProblem, rows);
    ByIdFinds(problems, rows[i].assignment.problem);
  }

  // ---- what acceptance does not cover ----

  /** The same manifest with the labels of two items exchanged. */
  function Swapped(items: seq<PublicItem>, i: nat, j: nat): seq<PublicItem>
    requires i < |items| && j < |items|
  {
    items[i := items[i].(problem := items[j].problem)][j := items[j].(problem := items[i].problem)]
  }

  lemma {:induction false} SwapPermutes<T>(s: seq<T>, t: seq<T>, i: nat, j: nat)
    requires i < j < |s| && t == s[i := s[j]][j := s[i]]
    ensures multiset(t) == multiset(s)
  {
    assert s == s[..i] + [s[i]] + s[i + 1..j] + [s[j]] + s[j + 1..];
    assert t == s[..i] + [s[j]] + s[i + 1..j] + [s[i]] + s[j + 1..];
  }

  lemma {:induction false} SameMap<T, U>(f: T -> U, a: seq<T>, b: seq<T>)
    requires |a| == |b| && forall k :: 0 <= k < |a| ==> f(a[k]) == f(b[k])
    ensures Map(f, a) == Map(f, b)
  {
  }

  lemma {:induction false} SwapLabels(items: seq<PublicItem>, i: nat, j: nat)
    requires i < j < |items|
    ensures Map(Label, Swapped(items, i, j)) == Map(Label, items)[i := items[j].problem.id][j := items[i].problem.id]
    ensures multiset(Map(Label, Swapped(items, i, j))) == multiset(Map(Label, items))
  {
    SwapPermutes(Map(Label, items), Map(Label, Swapped(items, i, j)), i, j);
  }

  /** Only the problem of an item changes, and it stays one of the items' problems. */
  lemma {:induction false} SwappedAt(items: seq<PublicItem>, i: nat, j: nat, k: nat)
    requires i < j < |items| && k < |items|
    ensures |Swapped(items, i, j)| == |items|
    ensures var x := Swapped(items, i, j)[k];
      && x == items[k].(problem := x.problem)
      && x.problem == items[Other(i, j, k)].problem
  {
    if k == j {
    } else if k == i {
    } else {
    }
  }

  lemma {:induction false} SwapKeepsMaps(items: seq<PublicItem>, i: nat, j: nat)
    requires i < j < |items|
    ensures var swapped := Swapped(items, i, j);
      && Map(ItemIndex, swapped) == Map(ItemIndex, items) && Map(ItemEvaluationId, swapped) == Map(ItemEvaluationId, items)
      && Map(ItemQuota, swapped) == Map(ItemQuota, items)
  {
    var swapped := Swapped(items, i, j);
    forall k | 0 <= k < |items|
      ensures ItemIndex(swapped[k]) == ItemIndex(items[k])
      ensures ItemEvaluationId(swapped[k]) == ItemEvaluationId(items[k])
      ensures ItemQuota(swapped[k]) == ItemQuota(items[k])
    {
      SwappedAt(items, i, j, k);
    }
    SameMap(ItemIndex, swapped, items);
    SameMap(ItemEvaluationId, swapped, items);
    SameMap(ItemQuota, swapped, items);
  }

  lemma {:induction false} FunctionalAt<K, V>(keys: seq<K>, values: seq<V>, a: nat, b: nat)
    requires |keys| == |values| && Functional(keys, values) && a < |keys| && b < |keys|
    ensures keys[a] == keys[b] ==> values[a] == values[b]
  {
    if a < b {
    } else if b < a {
    }
  }

  /** The index whose problem an item carries after the exchange. */
  function Other(i: nat, j: nat, k: nat): nat {
    if k == i then j else if k == j then i else k
  }

  lemma {:induction false} SwappedPair(items: seq<PublicItem>, i: nat, j: nat, k: nat, l: nat)
    requires i < j < |items| && k < |items| && l < |items|
    requires Functional(Map(Label, items), Map(ItemProblem, items)) && Functional(Map(ItemFamily, items), Map(Label, items))
    ensures |Swapped(items, i, j)| == |items|
    ensures Alike(Swapped(items, i, j)[k], Swapped(items, i, j)[l])
  {
    SwappedAt(items, i, j, k);
    SwappedAt(items, i, j, l);
    FunctionalAt(Map(Label, items), Map(ItemProblem, items), Other(i, j, k), Other(i, j, l));
    FunctionalAt(Map(ItemFamily, items), Map(Label, items), Other(i, j, k), Other(i, j, l));
  }

  /** The two items do not contradict each other about a problem or a family. */
  predicate Alike(x: PublicItem, y: PublicItem) {
    (x.problem.id == y.problem.id ==> x.problem == y.problem) && (x.problem.family == y.problem.family ==> x.problem.id == y.problem.id)
  }

  lemma {:induction false} AllAlike(items: seq<PublicItem>)
    requires forall k, l :: 0 <= k < l < |items| ==> Alike(items[k], items[l])
    ensures Functional(Map(Label, items), Map(ItemProblem, items)) && Functional(Map(ItemFamily, items), Map(Label, items))
  {
    forall k, l | 0 <= k < l < |items|
      ensures Label(items[k]) == Label(items[l]) ==> ItemProblem(items[k]) == ItemProblem(items[l])
      ensures ItemFamily(items[k]) == ItemFamily(items[l]) ==> Label(items[k]) == Label(items[l])
    {
      assert Alike(items[k], items[l]);
    }
    FunctionalWhen(Label, ItemProblem, items);
    FunctionalWhen(ItemFamily, Label, items);
  }

  lemma {:induction false} SwapKeepsFunctions(items: seq<PublicItem>, swapped: seq<PublicItem>, i: nat, j: nat)
    requires i < j < |items| && swapped == Swapped(items, i, j)
    requires Functional(Map(Label, items), Map(ItemProblem, items)) && Functional(Map(ItemFamily, items), Map(Label, items))
    ensures Functional(Map(Label, swapped), Map(ItemProblem, swapped)) && Functional(Map(ItemFamily, swapped), Map(Label, swapped))
  {
    assert forall k, l :: 0 <= k < l < |swapped| ==> Alike(swapped[k], swapped[l]) by {
      forall k, l | 0 <= k < l < |swapped| ensures Alike(swapped[k], swapped[l]) {
        SwappedPair(items, i, j, k, l);
      }
    }
    AllAlike(swapped);
  }

  lemma {:induction false} SwapKeepsRules(items: seq<PublicItem>, swapped: seq<PublicItem>, i: nat, j: nat)
    requires PublicItemsOk(items) && i < j < |items| && swapped == Swapped(items, i, j)
    ensures PublicItemsOk(swapped)
  {
    SwapKeepsMaps(items, i, j);
    SwapLabels(items, i, j);
    SameCounts(Map(Label, items), Map(Label, swapped));
    SwapKeepsFunctions(items, swapped, i, j);
  }

  lemma {:induction false} SameCounts(a: seq<string>, b: seq<string>)
    requires FiveEach(a) && multiset(a) == multiset(b)
    ensures FiveEach(b)
  {
    MultisetLength(a, b);
    forall p | p in b ensures multiset(b)[p] == 5 {
      var i :| 0 <= i < |a| && a[i] == p;
      CountedAt(a, |a|, i);
    }
    CountedWhen(b, |b|);
  }

  lemma {:induction false} SwapKeepsPlan(r: Ranks, seed: string, items: seq<PublicItem>, swapped: seq<PublicItem>)
    requires multiset(Map(Label, swapped)) == multiset(Map(Label, items)) && ProblemIdsOk(Dedup(Map(Label, items)))
    ensures ProblemIdsOk(Dedup(Map(Label, swapped))) && Derived(r, seed, swapped) == Derived(r, seed, items)
  {
    var a, b := Dedup(Map(Label, items)), Dedup(Map(Label, swapped));
    MultisetLength(Map(Label, items), Map(Label, swapped));
    DedupDistinct(Map(Label, items));
    DedupDistinct(Map(Label, swapped));
    DistinctSameSet(b, a);
    PlanIgnoresInputOrder(r, seed, b, a);
    SameIdsOk(b, a);
  }

  lemma {:induction false} SwapKeepsPairing(items: seq<PublicItem>, entries: seq<RevealEntry>, i: nat, j: nat)
    requires |items| == |entries| && i < j < |items| && entries[i].arm == entries[j].arm && Pairing(Revealed(items, entries))
    ensures Pairing(Revealed(Swapped(items, i, j), entries))
  {
    SwapPermutes(Revealed(items, entries), Revealed(Swapped(items, i, j), entries), i, j);
    PairingPermutes(Revealed(items, entries), Revealed(Swapped(items, i, j), entries));
  }

  lemma {:induction false} SwapFollows(rows: seq<Row>, items: seq<PublicItem>, entries: seq<RevealEntry>, i: nat, j: nat)
    requires EntriesFollow(rows, items, entries) && i < j < |items|
    ensures EntriesFollow(rows, Swapped(items, i, j), entries)
  {
    var swapped := Swapped(items, i, j);
    forall k | 0 <= k < |items|
      ensures swapped[k].evaluationId == rows[k].evaluationId && entries[k] == EntryFor(rows[k], swapped[k].quota)
    {
      SwappedAt(items, i, j, k);
    }
  }

  /** Relabelled items that keep the rules, the plan and the pairing are accepted with the same entries. */
  lemma {:induction false} RelabelledIsAccepted(r: Ranks, m: PilotManifest, v: RevealMap, items: seq<PublicItem>)
    requires ValidFor(r, m, v) && PublicItemsOk(items) && |items| == |m.items|
    requires ProblemIdsOk(Dedup(Map(Label, items))) && Derived(r, v.seed, items) == Derived(r, v.seed, m.items)
    requires EntriesFollow(Derived(r, v.seed, m.items), items, v.entries) && Pairing(Revealed(items, v.entries))
    ensures ValidFor(r, m.(items := items), v.(manifest := m.(items := items)))
  {
  }

  lemma {:induction false} SwapKeepsAll(
    r: Ranks, seed: string, items: seq<PublicItem>, entries: seq<RevealEntry>, swapped: seq<PublicItem>, rows: seq<Row>, i: nat, j: nat)
    requires i < j < |items| == |entries| && entries[i].arm == entries[j].arm && swapped == Swapped(items, i, j)
    requires PublicItemsOk(items) && ProblemIdsOk(Dedup(Map(Label, items))) && rows == Derived(r, seed, items)
    requires EntriesFollow(rows, items, entries) && Pairing(Revealed(items, entries))
    ensures |swapped| == |items| && PublicItemsOk(swapped) && ProblemIdsOk(Dedup(Map(Label, swapped)))
    ensures rows == Derived(r, seed, swapped) && EntriesFollow(rows, swapped, entries) && Pairing(Revealed(swapped, entries))
  {
    assert PublicItemsOk(swapped) by {
      SwapKeepsRules(items, swapped, i, j);
    }
    assert ProblemIdsOk(Dedup(Map(Label, swapped))) && Derived(r, seed, swapped) == rows by {
      SwapLabels(items, i, j);
      SwapKeepsPlan(r, seed, items, swapped);
    }
    SwapFollows(rows, items, entries, i, j);
    SwapKeepsPairing(items, entries, i, j);
  }

  lemma {:induction false} SwapIsAccepted(
    r: Ranks, m: PilotManifest, v: RevealMap, swapped: seq<PublicItem>, i: nat, j: nat)
    requires ValidFor(r, m, v)
    requires i < j < |m.items| && v.entries[i].arm == v.entries[j].arm && swapped == Swapped(m.items, i, j)
    ensures ValidFor(r, m.(items := swapped), v.(manifest := m.(items := swapped)))
  {
    SwapKeepsAll(r, v.seed, m.items, v.entries, swapped, Derived(r, v.seed, m.items), i, j);
    RelabelledIsAccepted(r, m, v, swapped);
  }

  lemma {:induction false} CommittedLabel(
    r: Ranks, seed: string, problems: seq<FrozenProblem>, quota: nat, m: PilotManifest, v: RevealMap, i: nat)
    requires GeneratedFrom(r, seed, problems, quota, m, v) && i < |m.items|
    ensures m.items[i].evaluationId.EvaluationId? && m.items[i].evaluationId.problem == m.items[i].problem.id
  {
    ItemLabels(r, seed, problems, quota, m, v, i);
  }

  lemma {:induction false} SwapMislabels(
    r: Ranks, seed: string, problems: seq<FrozenProblem>, quota: nat, m: PilotManifest, v: RevealMap, swapped: seq<PublicItem>,
    i: nat, j: nat)
    requires GeneratedFrom(r, seed, problems, quota, m, v) && i < j < |m.items| && swapped == Swapped(m.items, i, j)
    requires m.items[i].problem.id != m.items[j].problem.id
    ensures |swapped| == |m.items| && swapped[i].evaluationId.EvaluationId? && swapped[j].evaluationId.EvaluationId?
    ensures swapped[i].problem.id != swapped[i].evaluationId.problem && swapped[j].problem.id != swapped[j].evaluationId.problem
  {
    CommittedLabel(r, seed, problems, quota, m, v, i);
    CommittedLabel(r, seed, problems, quota, m, v, j);
    SwappedAt(m.items, i, j, i);
    SwappedAt(m.items, i, j, j);
  }

  /** The joint check is blind to this: exchange the labels of two cells of one arm in a generated manifest, bind the
      reveal to the result, and it is still accepted, though neither label is now the problem its own evaluation id
      commits to. */
  lemma {:induction false} SwappedLabelsAccepted(
    r: Ranks, seed: string, problems: seq<FrozenProblem>, quota: nat, m: PilotManifest, v: RevealMap, swapped: seq<PublicItem>,
    i: nat, j: nat)
    requires FrozenOk(problems) && GeneratedFrom(r, seed, problems, quota, m, v)
    requires i < j < |m.items| && v.entries[i].arm == v.entries[j].arm && swapped == Swapped(m.items, i, j)
    ensures ValidFor(r, m.(items := swapped), v.(manifest := m.(items := swapped)))
    ensures |swapped| == |m.items| && swapped[i].evaluationId.EvaluationId? && swapped[j].evaluationId.EvaluationId?
    ensures swapped[i].problem.id != swapped[i].evaluationId.problem && swapped[j].problem.id != swapped[j].evaluationId.problem
  {
    assert ValidFor(r, m, v) by {
      GeneratedIsValid(r, seed, problems, quota, m, v);
    }
    SwapIsAccepted(r, m, v, swapped, i, j);
    DifferentLabels(m.items, v.entries, i, j);
    SwapMislabels(r, seed, problems, quota, m, v, swapped, i, j);
  }

  lemma {:induction false} DifferentLabels(items: seq<PublicItem>, entries: seq<RevealEntry>, i: nat, j: nat)
    requires |items| == |entries| && Pairing(Revealed(items, entries)) && i < j < |items| && entries[i].arm == entries[j].arm
    ensures items[i].problem.id != items[j].problem.id
  {
    assert Revealed(items, entries)[i] != Revealed(items, entries)[j];
  }

  lemma {:induction false} RevealedMembers(items: seq<PublicItem>, entries: seq<RevealEntry>, cell: Cell)
    requires |items| == |entries| && Pairing(Revealed(items, entries))
    ensures cell in Revealed(items, entries) <==> cell.0 in Map(Label, items)
  {
    var cells, labels := Revealed(items, entries), Map(Label, items);
    if cell.0 in labels {
      var i :| 0 <= i < |labels| && labels[i] == cell.0;
      assert cells[i] in cells;
      assert Present(cells, cell.0);
    }
    if cell in cells {
      var i :| 0 <= i < |cells| && cells[i] == cell;
      assert labels[i] == cell.0;
    }
  }

  /** What acceptance always gives, for any pair: the reveal joins the blind items one to one with the labelled
      problems × arms, and both index sequences are 0 .. 5n - 1. */
  lemma {:induction false} AcceptedIsBijection(r: Ranks, m: PilotManifest, v: RevealMap)
    requires ValidFor(r, m, v)
    ensures var problems := Dedup(Map(Label, m.items));
      && multiset(Revealed(m.items, v.entries)) == multiset(Cells(Sort(TextLeq, problems)))
      && |m.items| == 5 * |problems| && Map(ItemIndex, m.items) == UpTo(5 * |problems|)
      && Sort(NatLeq, Map(EntryExecutionIndex, v.entries)) == UpTo(5 * |problems|)
  {
    var problems := Dedup(Map(Label, m.items));
    var cells, canonical := Revealed(m.items, v.entries), Cells(Sort(TextLeq, problems));
    DedupDistinct(Map(Label, m.items));
    CanonicalDistinct(problems);
    SortPermutes(TextLeq, problems);
    CellsDistinct(Sort(TextLeq, problems));
    forall cell ensures cell in cells <==> cell in canonical {
      RevealedMembers(m.items, v.entries, cell);
      CellsMembers(Sort(TextLeq, problems), cell);
    }
    DistinctSameSet(cells, canonical);
  }

  lemma {:induction false} RowsCommit(r: Ranks, seed: string, problems: seq<string>, i: nat)
    requires i < |Rows(r, seed, Assignments(r, seed, problems))|
    ensures var row := Rows(r, seed, Assignments(r, seed, problems))[i];
      row.assignment.id == AssignmentId(seed, row.assignment.problem, row.assignment.arm)
  {
    var s := Assignments(r, seed, problems);
    var rows := Rows(r, seed, s);
    SortPermutes(ByEvaluation(r, seed), s);
    assert rows[i].assignment in Sort(ByEvaluation(r, seed), s);
  }

  /** The label is the problem that the seed's own row names. */
  predicate LabelRight(r: Ranks, m: PilotManifest, v: RevealMap, i: nat) {
    var rows := Derived(r, v.seed, m.items);
    i < |m.items| && i < |rows| && m.items[i].problem.id == rows[i].assignment.problem
  }

  /** What an operator can recompute: the entry's assignment id is the one of the item's label and the revealed arm. */
  predicate IdRecomputes(m: PilotManifest, v: RevealMap, i: nat) {
    i < |m.items| && i < |v.entries| && v.entries[i].assignmentId == AssignmentId(v.seed, m.items[i].problem.id, v.entries[i].arm)
  }

  /** Acceptance leaves a label free; it is right exactly when the assignment id recomputes from it, a comparison the
      joint check does not make. */
  lemma {:induction false} LabelRightWhen(r: Ranks, m: PilotManifest, v: RevealMap, i: nat)
    requires ValidFor(r, m, v) && i < |m.items|
    ensures LabelRight(r, m, v, i) <==> IdRecomputes(m, v, i)
  {
    RowsCommit(r, v.seed, Dedup(Map(Label, m.items)), i);
  }
}
