/** Paired outcome tables and the counts both evaluators derive from them. */
module Outcomes {
  import opened Contracts
  import opened Sorting
  import opened McNemar
  import opened Holm

  /** Whether each (problem, arm) cell was solved. */
  type Table = map<(string, Arm), bool>

  predicate Complete(t: Table, problems: seq<string>) {
    forall i, a :: 0 <= i < |problems| && a in ARMS ==> (problems[i], a) in t
  }

  predicate Solved(t: Table, problem: string, arm: Arm) {
    (problem, arm) in t && t[(problem, arm)]
  }

  function Count(b: bool): int {
    if b then 1 else 0
  }

  /** One problem's contribution to "x solved, y not". */
  function WinAt(t: Table, x: Arm, y: Arm): string -> int {
    problem => Count(Solved(t, problem, x) && !Solved(t, problem, y))
  }

  function SolvedAt(t: Table, x: Arm): string -> int {
    problem => Count(Solved(t, problem, x))
  }

  lemma {:induction false} SumNatural(f: string -> int, s: seq<string>)
    requires forall x :: 0 <= f(x)
    ensures 0 <= Sum(f, s)
  {
    if s != [] {
      SumNatural(f, s[1..]);
    }
  }

  function Wins(t: Table, problems: seq<string>, x: Arm, y: Arm): nat {
    SumNatural(WinAt(t, x, y), problems);
    Sum(WinAt(t, x, y), problems)
  }

  function SolvedCount(t: Table, problems: seq<string>, x: Arm): nat {
    SumNatural(SolvedAt(t, x), problems);
    Sum(SolvedAt(t, x), problems)
  }

  function PairP(t: Table, problems: seq<string>, control: Arm): real {
    ExactP(Wins(t, problems, VerifiedChain, control), Wins(t, problems, control, VerifiedChain))
  }

  function PairPs(t: Table, problems: seq<string>, controls: seq<Arm>): seq<real> {
    Map(control => PairP(t, problems, control), controls)
  }

  /** A difference of solved totals is a difference of one-sided wins. */
  lemma {:induction false} DifferenceIsWins(t: Table, problems: seq<string>, x: Arm, y: Arm)
    ensures SolvedCount(t, problems, x) - SolvedCount(t, problems, y)
         == Wins(t, problems, x, y) - Wins(t, problems, y, x)
  {
    if problems != [] {
      DifferenceIsWins(t, problems[1..], x, y);
    }
  }

  /** Counts, and so p-values, ignore the order in which problems are listed. */
  lemma ProblemOrderIrrelevant(t: Table, p: seq<string>, q: seq<string>, x: Arm, y: Arm)
    requires multiset(p) == multiset(q)
    ensures Wins(t, p, x, y) == Wins(t, q, x, y)
    ensures SolvedCount(t, p, x) == SolvedCount(t, q, x)
  {
    SumPermutation(WinAt(t, x, y), p, q);
    SumPermutation(SolvedAt(t, x), p, q);
  }

  lemma {:induction false} SameOnProblems(t: Table, u: Table, problems: seq<string>, x: Arm, y: Arm)
    requires forall i, a :: 0 <= i < |problems| ==> Solved(t, problems[i], a) == Solved(u, problems[i], a)
    ensures Wins(t, problems, x, y) == Wins(u, problems, x, y)
    ensures SolvedCount(t, problems, x) == SolvedCount(u, problems, x)
  {
    if problems != [] {
      forall i, a | 0 <= i < |problems[1..]|
        ensures Solved(t, problems[1..][i], a) == Solved(u, problems[1..][i], a)
      {
        assert problems[1..][i] == problems[i + 1];
      }
      SameOnProblems(t, u, problems[1..], x, y);
      assert Solved(t, problems[0], x) == Solved(u, problems[0], x);
      assert Solved(t, problems[0], y) == Solved(u, problems[0], y);
    }
  }
}

/** The bootstrap evaluator: frozen spec and outcome records in, one decision out. */
module ExperimentEvaluator {
  import opened Contracts
  import opened Sorting
  import opened Outcomes
  import McNemar
  import Holm

  datatype ExperimentSpec = ExperimentSpec(
    experimentId: string, problemIds: seq<string>, costModelFrozen: bool, usageBasis: Option<UsageBasis>,
    budgetId: string, ceiling: CompleteCost, alpha: real)

  datatype OutcomeRecord = OutcomeRecord(
    experimentId: string, problemId: string, arm: Arm, budgetId: string, usageBasis: UsageBasis,
    solved: bool, verifierPassed: bool, cost: CompleteCost)

  datatype PairwiseResult = PairwiseResult(
    control: Arm, candidateOnly: nat, controlOnly: nat, p: real, threshold: real, rejectsNull: bool)

  datatype Evaluation = Evaluation(
    decision: GoalDecision, missing: seq<(string, Arm)>, solvedCounts: map<Arm, nat>, pairwise: seq<PairwiseResult>)

  predicate ValidSpec(spec: ExperimentSpec) {
    && spec.problemIds != []
    && (forall i, j :: 0 <= i < j < |spec.problemIds| ==> spec.problemIds[i] != spec.problemIds[j])
    && (spec.costModelFrozen ==> spec.usageBasis.Some?)
    && 0.0 < spec.alpha < 1.0
  }

  predicate ValidRecord(spec: ExperimentSpec, r: OutcomeRecord) {
    && (r.solved ==> r.verifierPassed)
    && r.experimentId == spec.experimentId
    && r.problemId in spec.problemIds
    && r.budgetId == spec.budgetId
    && (spec.usageBasis.Some? ==> r.usageBasis == spec.usageBasis.value)
    && r.cost.Within(spec.ceiling)
  }

  /** Inputs the evaluator does not raise on. */
  predicate Acceptable(spec: ExperimentSpec, records: seq<OutcomeRecord>) {
    && ValidSpec(spec)
    && (forall i :: 0 <= i < |records| ==> ValidRecord(spec, records[i]))
    && (forall i, j :: 0 <= i < j < |records| ==> records[i].usageBasis == records[j].usageBasis)
    && (forall i, j :: 0 <= i < j < |records| ==>
          (records[i].problemId, records[i].arm) != (records[j].problemId, records[j].arm))
  }

  function TableOf(records: seq<OutcomeRecord>): Table {
    if records == [] then map[]
    else
      var last := records[|records| - 1];
      TableOf(records[..|records| - 1])[(last.problemId, last.arm) := last.solved]
  }

  lemma {:induction false} TableKeys(records: seq<OutcomeRecord>, key: (string, Arm))
    ensures key in TableOf(records) <==>
            exists i :: 0 <= i < |records| && (records[i].problemId, records[i].arm) == key
  {
    if records != [] {
      var n := |records| - 1;
      TableKeys(records[..n], key);
      if key in TableOf(records) && key != (records[n].problemId, records[n].arm) {
        var i :| 0 <= i < |records[..n]| && (records[..n][i].problemId, records[..n][i].arm) == key;
        assert (records[i].problemId, records[i].arm) == key;
      }
      if i :| 0 <= i < |records| && (records[i].problemId, records[i].arm) == key {
        if i < n {
          assert records[..n][i] == records[i];
        }
      }
    }
  }

  /** Beats one control: more one-sided wins, and Holm rejects among all four contrasts. */
  ghost predicate Superior(t: Table, problems: seq<string>, alpha: real, control: Arm) {
    && Wins(t, problems, VerifiedChain, control) > Wins(t, problems, control, VerifiedChain)
    && Holm.Rejected(PairPs(t, problems, CONTROLS), alpha, PairP(t, problems, control))
  }

  ghost predicate Passes(t: Table, problems: seq<string>, alpha: real) {
    forall control :: control in CONTROLS ==> Superior(t, problems, alpha, control)
  }

  ghost function Decide(spec: ExperimentSpec, t: Table): GoalDecision {
    if !spec.costModelFrozen then BLOCKED
    else if !Complete(t, spec.problemIds) then INCOMPLETE
    else if Passes(t, spec.problemIds, spec.alpha) then PASS
    else FAIL
  }

  /** Fill `seen`, rejecting foreign, over-budget or repeated outcomes. */
  method CollectOutcomes(spec: ExperimentSpec, records: seq<OutcomeRecord>) returns (r: Result<Table>)
    requires ValidSpec(spec)
    ensures r.Ok? <==> Acceptable(spec, records)
    ensures r.Ok? ==> r.value == TableOf(records)
  {
    if exists i, j :: 0 <= i < j < |records| && records[i].usageBasis != records[j].usageBasis {
      return Raised;
    }
    var seen: Table := map[];
    for n := 0 to |records|
      invariant seen == TableOf(records[..n])
      invariant forall i :: 0 <= i < n ==> ValidRecord(spec, records[i])
      invariant forall i, j :: 0 <= i < j < n ==>
        (records[i].problemId, records[i].arm) != (records[j].problemId, records[j].arm)
    {
      var record := records[n];
      var key := (record.problemId, record.arm);
      TableKeys(records[..n], key);
      if !ValidRecord(spec, record) {
        return Raised;
      }
      if key in seen {
        ghost var i :| 0 <= i < n && (records[..n][i].problemId, records[..n][i].arm) == key;
        assert records[..n][i] == records[i];
        return Raised;
      }
      forall i | 0 <= i < n ensures (records[i].problemId, records[i].arm) != key {
        assert records[..n][i] == records[i];
      }
      assert records[..n + 1][..n] == records[..n];
      seen := seen[key := record.solved];
    }
    assert records[..|records|] == records;
    return Ok(seen);
  }

  method CountContrast(t: Table, problems: seq<string>, control: Arm) returns (candidateOnly: nat, controlOnly: nat)
    ensures candidateOnly == Wins(t, problems, VerifiedChain, control)
    ensures controlOnly == Wins(t, problems, control, VerifiedChain)
  {
    candidateOnly, controlOnly := 0, 0;
    for i := 0 to |problems|
      invariant candidateOnly == Wins(t, problems[..i], VerifiedChain, control)
      invariant controlOnly == Wins(t, problems[..i], control, VerifiedChain)
    {
      var candidate, baseline := Solved(t, problems[i], VerifiedChain), Solved(t, problems[i], control);
      WinsStep(t, problems, i, VerifiedChain, control);
      WinsStep(t, problems, i, control, VerifiedChain);
      candidateOnly := candidateOnly + Count(candidate && !baseline);
      controlOnly := controlOnly + Count(baseline && !candidate);
    }
    assert problems[..|problems|] == problems;
  }

  lemma WinsStep(t: Table, problems: seq<string>, i: nat, x: Arm, y: Arm)
    requires i < |problems|
    ensures Wins(t, problems[..i + 1], x, y)
         == Wins(t, problems[..i], x, y) + Count(Solved(t, problems[i], x) && !Solved(t, problems[i], y))
  {
    assert problems[..i + 1] == problems[..i] + [problems[i]];
    SumConcat(WinAt(t, x, y), problems[..i], [problems[i]]);
  }

  /** The contrast with one control: both one-sided wins and their exact p-value `ps[i]`; the threshold its stable
      rank among `ps` gives it, and the order-free Holm decision. */
  ghost predicate ContrastAt(t: Table, problems: seq<string>, alpha: real, ps: seq<real>, i: nat, r: PairwiseResult)
    requires Holm.ValidInput(ps, alpha) && i < |ps| && i < |CONTROLS|
  {
    && r.control == CONTROLS[i]
    && r.candidateOnly == Wins(t, problems, VerifiedChain, CONTROLS[i])
    && r.controlOnly == Wins(t, problems, CONTROLS[i], VerifiedChain)
    && Holm.HolmResult(r.p, r.threshold, r.rejectsNull) == Holm.Decision(ps, alpha, i)
  }

  /** One result a control, in the frozen order. */
  ghost predicate Contrasted(t: Table, problems: seq<string>, alpha: real, pairwise: seq<PairwiseResult>) {
    var ps := PairPs(t, problems, CONTROLS);
    && Holm.ValidInput(ps, alpha) && |pairwise| == |ps| == |CONTROLS|
    && forall i: nat :: i < |CONTROLS| ==> ContrastAt(t, problems, alpha, ps, i, pairwise[i])
  }

  /** The counting loop: wins on both sides and one p-value for each control. */
  method CountContrasts(t: Table, problems: seq<string>) returns (wins: seq<(nat, nat)>, ps: seq<real>)
    ensures |wins| == |CONTROLS| && ps == PairPs(t, problems, CONTROLS)
    ensures forall i :: 0 <= i < |CONTROLS| ==>
      wins[i] == (Wins(t, problems, VerifiedChain, CONTROLS[i]), Wins(t, problems, CONTROLS[i], VerifiedChain))
  {
    wins, ps := [], [];
    for i := 0 to |CONTROLS|
      invariant |ps| == |wins| == i
      invariant forall k :: 0 <= k < i ==>
        && ps[k] == PairP(t, problems, CONTROLS[k])
        && wins[k] == (Wins(t, problems, VerifiedChain, CONTROLS[k]), Wins(t, problems, CONTROLS[k], VerifiedChain))
    {
      var candidateOnly, controlOnly := CountContrast(t, problems, CONTROLS[i]);
      var p := McNemar.McNemarExactTwoSided(candidateOnly, controlOnly);
      ps, wins := ps + [p], wins + [(candidateOnly, controlOnly)];
    }
    assert ps == PairPs(t, problems, CONTROLS);
  }

  lemma {:induction false} PsValid(t: Table, problems: seq<string>, alpha: real)
    requires 0.0 < alpha < 1.0
    ensures Holm.ValidInput(PairPs(t, problems, CONTROLS), alpha) && |PairPs(t, problems, CONTROLS)| == |CONTROLS|
  {
  }

  /** All four contrasts with their Holm corrections, in the frozen control order. */
  method Contrasts(t: Table, problems: seq<string>, alpha: real) returns (pairwise: seq<PairwiseResult>)
    requires 0.0 < alpha < 1.0
    ensures Contrasted(t, problems, alpha, pairwise)
  {
    var wins, ps := CountContrasts(t, problems);
    PsValid(t, problems, alpha);
    var corrections := Holm.HolmStepDown(ps, alpha);
    pairwise := seq(|CONTROLS|, i requires 0 <= i < |CONTROLS| =>
      PairwiseResult(CONTROLS[i], wins[i].0, wins[i].1, corrections.value[i].pValue, corrections.value[i].threshold,
                     corrections.value[i].rejectsNull));
  }

  /** Positive and rejected in every contrast is what passing means. */
  lemma {:induction false} AllSuperior(t: Table, problems: seq<string>, alpha: real, pairwise: seq<PairwiseResult>)
    requires Contrasted(t, problems, alpha, pairwise)
    ensures (forall i :: 0 <= i < |pairwise| ==> pairwise[i].candidateOnly > pairwise[i].controlOnly && pairwise[i].rejectsNull)
       <==> Passes(t, problems, alpha)
  {
    var ps := PairPs(t, problems, CONTROLS);
    forall i: nat | i < |CONTROLS|
      ensures CONTROLS[i] in CONTROLS
      ensures Superior(t, problems, alpha, CONTROLS[i]) <==>
              pairwise[i].candidateOnly > pairwise[i].controlOnly && pairwise[i].rejectsNull
    {
      assert ContrastAt(t, problems, alpha, ps, i, pairwise[i]);
      assert ps[i] == PairP(t, problems, CONTROLS[i]);
    }
  }

  method EvaluateExperiment(spec: ExperimentSpec, records: seq<OutcomeRecord>) returns (r: Result<Evaluation>)
    ensures r.Ok? <==> Acceptable(spec, records)
    ensures r.Ok? ==> r.value.decision == Decide(spec, TableOf(records))
    ensures r.Ok? ==> (r.value.missing == [] <==> Complete(TableOf(records), spec.problemIds))
    ensures r.Ok? ==> forall cell ::
      cell in r.value.missing <==> cell.0 in spec.problemIds && cell.1 in ARMS && cell !in TableOf(records)
    ensures r.Ok? ==> if r.value.decision == PASS || r.value.decision == FAIL
                      then Contrasted(TableOf(records), spec.problemIds, spec.alpha, r.value.pairwise)
                      else r.value.pairwise == []
    ensures r.Ok? ==> forall a :: a in ARMS ==>
      a in r.value.solvedCounts && r.value.solvedCounts[a] == SolvedCount(TableOf(records), spec.problemIds, a)
  {
    if !ValidSpec(spec) {
      return Raised;
    }
    var collected := CollectOutcomes(spec, records);
    if collected.Raised? {
      return Raised;
    }
    var seen := collected.value;
    var missing := MissingCells(seen, spec.problemIds);
    var solvedCounts := map a: Arm | a in ARMS :: SolvedCount(seen, spec.problemIds, a);
    if !spec.costModelFrozen {
      return Ok(Evaluation(BLOCKED, missing, solvedCounts, []));
    }
    if missing != [] {
      return Ok(Evaluation(INCOMPLETE, missing, solvedCounts, []));
    }
    var pairwise := Contrasts(seen, spec.problemIds, spec.alpha);
    var superior := forall i :: 0 <= i < |pairwise| ==>
      pairwise[i].candidateOnly > pairwise[i].controlOnly && pairwise[i].rejectsNull;
    AllSuperior(seen, spec.problemIds, spec.alpha, pairwise);
    return Ok(Evaluation(if superior then PASS else FAIL, missing, solvedCounts, pairwise));
  }

  method MissingCells(t: Table, problems: seq<string>) returns (missing: seq<(string, Arm)>)
    ensures missing == [] <==> Complete(t, problems)
    ensures forall cell :: cell in missing <==> cell.0 in problems && cell.1 in ARMS && cell !in t
  {
    missing := [];
    for i := 0 to |problems|
      invariant forall cell :: cell in missing <==> cell.0 in problems[..i] && cell.1 in ARMS && cell !in t
    {
      ghost var before := missing;
      for k := 0 to |ARMS|
        invariant forall cell :: cell in missing <==>
          cell in before || (cell.0 == problems[i] && cell.1 in ARMS[..k] && cell !in t)
      {
        assert ARMS[..k + 1] == ARMS[..k] + [ARMS[k]];
        if (problems[i], ARMS[k]) !in t {
          missing := missing + [(problems[i], ARMS[k])];
        }
      }
      assert ARMS[..|ARMS|] == ARMS;
      assert problems[..i + 1] == problems[..i] + [problems[i]];
    }
    assert problems[..|problems|] == problems;
    if missing == [] {
      forall i, a | 0 <= i < |problems| && a in ARMS ensures (problems[i], a) in t {
        assert (problems[i], a) !in missing;
      }
    } else {
      assert missing[0] in missing;
    }
  }
}

/** The confirmatory evaluator's terminal decision over complete cell snapshots. */
module ConfirmatoryEvaluator {
  import opened Contracts
  import opened Sorting
  import opened Grouping
  import opened Outcomes
  import McNemar
  import Holm
  import E = ExperimentEvaluator

  datatype CellSnapshot = CellSnapshot(problemId: string, arm: Arm, statuses: seq<CompletionStatus>, cost: CompleteCost)

  predicate SolvedBy(statuses: seq<CompletionStatus>, prefix: nat) {
    SUCCEEDED in (if prefix < |statuses| then statuses[..prefix] else statuses)
  }

  function Cells(snapshots: seq<CellSnapshot>): map<(string, Arm), CellSnapshot> {
    if snapshots == [] then map[]
    else
      var last := snapshots[|snapshots| - 1];
      Cells(snapshots[..|snapshots| - 1])[(last.problemId, last.arm) := last]
  }

  /** The outcome table a prefix of the attempts gives. */
  function TableAt(cells: map<(string, Arm), CellSnapshot>, prefix: nat): Table {
    map key | key in cells :: SolvedBy(cells[key].statuses, prefix)
  }

  /** A longer prefix never loses a solved cell. */
  lemma PrefixMonotone(statuses: seq<CompletionStatus>, k: nat, m: nat)
    requires k <= m
    ensures SolvedBy(statuses, k) ==> SolvedBy(statuses, m)
  {
    if SolvedBy(statuses, k) && k < |statuses| && m < |statuses| {
      var i :| 0 <= i < k && statuses[..k][i] == SUCCEEDED;
      assert statuses[..m][i] == SUCCEEDED;
    } else if SolvedBy(statuses, k) && k < |statuses| {
      var i :| 0 <= i < k && statuses[..k][i] == SUCCEEDED;
      assert statuses[i] == SUCCEEDED;
    }
  }

  lemma {:induction false} PrefixCountMonotone(
    cells: map<(string, Arm), CellSnapshot>, problems: seq<string>, x: Arm, k: nat, m: nat)
    requires k <= m
    ensures SolvedCount(TableAt(cells, k), problems, x) <= SolvedCount(TableAt(cells, m), problems, x)
  {
    if problems != [] {
      PrefixCountMonotone(cells, problems[1..], x, k, m);
      if (problems[0], x) in cells {
        PrefixMonotone(cells[(problems[0], x)].statuses, k, m);
      }
    }
  }

  datatype PairwiseCounts = PairwiseCounts(candidateOnly: nat, controlOnly: nat, both: nat, neither: nat)

  predicate HasPair(cells: map<(string, Arm), CellSnapshot>, problem: string, control: Arm) {
    (problem, VerifiedChain) in cells && (problem, control) in cells
  }

  /** No problem lacks either cell. */
  ghost predicate AllPaired(cells: map<(string, Arm), CellSnapshot>, problems: seq<string>, control: Arm) {
    forall i :: 0 <= i < |problems| ==> HasPair(cells, problems[i], control)
  }

  lemma {:induction false} PairedNext(cells: map<(string, Arm), CellSnapshot>, problems: seq<string>, i: nat, control: Arm)
    requires i < |problems| && AllPaired(cells, problems[..i], control) && HasPair(cells, problems[i], control)
    ensures AllPaired(cells, problems[..i + 1], control)
  {
    TakeSnoc(problems, i);
  }

  /** The four counters after some problems: both one-sided wins, and a partition of the problems. */
  ghost predicate Counted(t: Table, problems: seq<string>, control: Arm, c: PairwiseCounts) {
    && c.candidateOnly == Wins(t, problems, VerifiedChain, control)
    && c.controlOnly == Wins(t, problems, control, VerifiedChain)
    && c.candidateOnly + c.controlOnly + c.both + c.neither == |problems|
    && c.candidateOnly + c.both == SolvedCount(t, problems, VerifiedChain)
  }

  function CountOne(c: PairwiseCounts, candidate: bool, baseline: bool): PairwiseCounts {
    PairwiseCounts(c.candidateOnly + Count(candidate && !baseline), c.controlOnly + Count(baseline && !candidate),
                   c.both + Count(candidate && baseline), c.neither + Count(!candidate && !baseline))
  }

  lemma {:induction false} CountedStep(t: Table, problems: seq<string>, i: nat, control: Arm, c: PairwiseCounts)
    requires i < |problems| && Counted(t, problems[..i], control, c)
    ensures Counted(t, problems[..i + 1], control,
                    CountOne(c, Solved(t, problems[i], VerifiedChain), Solved(t, problems[i], control)))
  {
    E.WinsStep(t, problems, i, VerifiedChain, control);
    E.WinsStep(t, problems, i, control, VerifiedChain);
    SolvedStep(t, problems, i, VerifiedChain);
  }

  lemma {:induction false} SolvedInTable(cells: map<(string, Arm), CellSnapshot>, prefix: nat, problem: string, arm: Arm)
    requires (problem, arm) in cells
    ensures Solved(TableAt(cells, prefix), problem, arm) == SolvedBy(cells[(problem, arm)].statuses, prefix)
  {
  }

  lemma {:induction false} CountedNext(
    cells: map<(string, Arm), CellSnapshot>, prefix: nat, problems: seq<string>, i: nat, control: Arm, c: PairwiseCounts)
    requires i < |problems| && HasPair(cells, problems[i], control) && Counted(TableAt(cells, prefix), problems[..i], control, c)
    ensures Counted(TableAt(cells, prefix), problems[..i + 1], control,
                    CountOne(c, SolvedBy(cells[(problems[i], VerifiedChain)].statuses, prefix),
                             SolvedBy(cells[(problems[i], control)].statuses, prefix)))
  {
    CountedStep(TableAt(cells, prefix), problems, i, control, c);
    SolvedInTable(cells, prefix, problems[i], VerifiedChain);
    SolvedInTable(cells, prefix, problems[i], control);
  }

  /** Four counters that partition the problems, whatever the prefix; a missing cell raises. */
  method CountPairs(cells: map<(string, Arm), CellSnapshot>, problems: seq<string>, control: Arm, prefix: nat)
    returns (r: Result<PairwiseCounts>)
    ensures r.Ok? <==> AllPaired(cells, problems, control)
    ensures r.Ok? ==> Counted(TableAt(cells, prefix), problems, control, r.value)
  {
    var counts := PairwiseCounts(0, 0, 0, 0);
    for i := 0 to |problems|
      invariant AllPaired(cells, problems[..i], control)
      invariant Counted(TableAt(cells, prefix), problems[..i], control, counts)
    {
      if !HasPair(cells, problems[i], control) {
        return Raised;
      }
      PairedNext(cells, problems, i, control);
      var candidate := SolvedBy(cells[(problems[i], VerifiedChain)].statuses, prefix);
      var baseline := SolvedBy(cells[(problems[i], control)].statuses, prefix);
      CountedNext(cells, prefix, problems, i, control, counts);
      counts := CountOne(counts, candidate, baseline);
    }
    TakeAll(problems);
    return Ok(counts);
  }

  lemma SolvedStep(t: Table, problems: seq<string>, i: nat, x: Arm)
    requires i < |problems|
    ensures SolvedCount(t, problems[..i + 1], x) == SolvedCount(t, problems[..i], x) + Count(Solved(t, problems[i], x))
  {
    assert problems[..i + 1] == problems[..i] + [problems[i]];
    SumConcat(SolvedAt(t, x), problems[..i], [problems[i]]);
  }

  /** Controls ordered by (p-value, name) before Holm is applied. */
  function ByPThenName(p: map<Arm, real>): (Arm, Arm) -> bool {
    (x: Arm, y: Arm) =>
      var px, py := if x in p then p[x] else 0.0, if y in p then p[y] else 0.0;
      px < py || (px == py && NameRank(x) <= NameRank(y))
  }

  function PMap(t: Table, problems: seq<string>): map<Arm, real> {
    map c: Arm | c in CONTROLS :: PairP(t, problems, c)
  }

  function HolmOrder(t: Table, problems: seq<string>): seq<Arm> {
    Sort(ByPThenName(PMap(t, problems)), CONTROLS)
  }

  /** The contrast as this evaluator states it: solved totals, and Holm applied in the given order of controls. */
  ghost predicate ContrastIn(t: Table, problems: seq<string>, order: seq<Arm>, alpha: real, control: Arm) {
    && Exceeds(t, problems, control)
    && Holm.Rejected(PairPs(t, problems, order), alpha, PairP(t, problems, control))
  }

  ghost predicate ContrastPasses(t: Table, problems: seq<string>, alpha: real, control: Arm) {
    ContrastIn(t, problems, HolmOrder(t, problems), alpha, control)
  }

  ghost predicate Passes(t: Table, problems: seq<string>, alpha: real) {
    forall control :: control in CONTROLS ==> ContrastPasses(t, problems, alpha, control)
  }

  /** One p-value per control; the second implementation is computed beside it and never differs. */
  method RawPValues(cells: map<(string, Arm), CellSnapshot>, problems: seq<string>) returns (raw: map<Arm, real>)
    requires Complete(TableAt(cells, ATTEMPTS_PER_CELL), problems)
    ensures raw == PMap(TableAt(cells, ATTEMPTS_PER_CELL), problems)
  {
    ghost var t := TableAt(cells, ATTEMPTS_PER_CELL);
    raw := map[];
    for i := 0 to |CONTROLS|
      invariant forall c :: c in raw <==> c in CONTROLS[..i]
      invariant forall c :: c in raw ==> raw[c] == PairP(t, problems, c)
    {
      EveryArmListed(CONTROLS[i]);
      EveryArmListed(VerifiedChain);
      var counts := CountPairs(cells, problems, CONTROLS[i], ATTEMPTS_PER_CELL);
      var p := McNemar.McNemarExactTwoSided(counts.value.candidateOnly, counts.value.controlOnly);
      McNemar.ImplementationsAgree(counts.value.candidateOnly, counts.value.controlOnly);
      assert p == McNemar.FractionalMcNemar(counts.value.candidateOnly, counts.value.controlOnly);
      raw := raw[CONTROLS[i] := p];
      assert CONTROLS[..i + 1] == CONTROLS[..i] + [CONTROLS[i]];
    }
    assert CONTROLS[..|CONTROLS|] == CONTROLS;
  }

  method AllContrastsPass(table: Table, problems: seq<string>, alpha: real, raw: map<Arm, real>) returns (passes: bool)
    requires 0.0 < alpha < 1.0 && raw == PMap(table, problems)
    ensures passes <==> Passes(table, problems, alpha)
  {
    var holmOrder := Sort(ByPThenName(raw), CONTROLS);
    SortPermutes(ByPThenName(raw), CONTROLS);
    passes := AllPassIn(table, problems, holmOrder, alpha);
  }

  method AllPassIn(table: Table, problems: seq<string>, holmOrder: seq<Arm>, alpha: real) returns (passes: bool)
    requires 0.0 < alpha < 1.0
    ensures passes <==> forall c :: c in holmOrder ==> ContrastIn(table, problems, holmOrder, alpha, c)
  {
    var rejects := HolmFlags(PairPs(table, problems, holmOrder), alpha);
    var test := (i: nat) => i < |holmOrder| && i < |rejects| && rejects[i] && Exceeds(table, problems, holmOrder[i]);
    passes := AllPass(|holmOrder|, test);
    forall i: nat | i < |holmOrder| ensures test(i) <==> ContrastIn(table, problems, holmOrder, alpha, holmOrder[i]) {
      assert PairPs(table, problems, holmOrder)[i] == PairP(table, problems, holmOrder[i]);
    }
  }

  /** The candidate solves more problems than the control. */
  predicate Exceeds(table: Table, problems: seq<string>, control: Arm) {
    SolvedCount(table, problems, VerifiedChain) - SolvedCount(table, problems, control) > 0
  }

  method HolmFlags(ps: seq<real>, alpha: real) returns (rejects: seq<bool>)
    requires Holm.ValidInput(ps, alpha)
    ensures |rejects| == |ps|
    ensures forall i :: 0 <= i < |ps| ==> (rejects[i] <==> Holm.Rejected(ps, alpha, ps[i]))
  {
    var corrections := Holm.HolmStepDown(ps, alpha);
    rejects := seq(|ps|, i requires 0 <= i < |ps| => corrections.value[i].rejectsNull);
    assert forall i: nat :: i < |ps| ==> corrections.value[i] == Holm.Decision(ps, alpha, i);
  }

  /** Decide over snapshots; a missing cell raises. */
  method EvaluateCompleteSnapshots(snapshots: seq<CellSnapshot>, problems: seq<string>, alpha: real)
    returns (r: Result<GoalDecision>)
    requires 0.0 < alpha < 1.0
    ensures r.Ok? <==> Complete(TableAt(Cells(snapshots), ATTEMPTS_PER_CELL), problems)
    ensures r.Ok? && Passes(TableAt(Cells(snapshots), ATTEMPTS_PER_CELL), problems, alpha) ==> r.value == PASS
    ensures r.Ok? && !Passes(TableAt(Cells(snapshots), ATTEMPTS_PER_CELL), problems, alpha) ==> r.value == FAIL
  {
    var cells := Cells(snapshots);
    var table := TableAt(cells, ATTEMPTS_PER_CELL);
    if !Complete(table, problems) {
      return Raised;
    }
    var raw := RawPValues(cells, problems);
    var passes := AllContrastsPass(table, problems, alpha, raw);
    return Ok(if passes then PASS else FAIL);
  }

  /** Both evaluators state one criterion, contrast by contrast: a difference of totals is a difference of
      wins, and pre-sorting by p-value and name cannot change a Holm decision. */
  lemma ContrastsAgree(t: Table, problems: seq<string>, alpha: real, control: Arm)
    ensures ContrastPasses(t, problems, alpha, control) <==> E.Superior(t, problems, alpha, control)
  {
    DifferenceIsWins(t, problems, VerifiedChain, control);
    var order := HolmOrder(t, problems);
    SortPermutes(ByPThenName(PMap(t, problems)), CONTROLS);
    MapPermutation(c => PairP(t, problems, c), order, CONTROLS);
    Holm.RejectedIgnoresOrder(PairPs(t, problems, order), PairPs(t, problems, CONTROLS), alpha,
                              PairP(t, problems, control));
  }

  /** One contrast over two tables that agree, with the problems listed in two orders. */
  lemma {:induction false} SameContrast(t: Table, ps: seq<string>, u: Table, qs: seq<string>, c: Arm)
    requires multiset(qs) == multiset(ps)
    requires forall i, a :: 0 <= i < |qs| ==> Solved(u, qs[i], a) == Solved(t, qs[i], a)
    ensures Wins(u, qs, VerifiedChain, c) == Wins(t, ps, VerifiedChain, c) && Wins(u, qs, c, VerifiedChain) == Wins(t, ps, c, VerifiedChain)
    ensures PairP(u, qs, c) == PairP(t, ps, c)
  {
    SameOnProblems(u, t, qs, VerifiedChain, c);
    SameOnProblems(u, t, qs, c, VerifiedChain);
    ProblemOrderIrrelevant(t, qs, ps, VerifiedChain, c);
    ProblemOrderIrrelevant(t, qs, ps, c, VerifiedChain);
  }

  lemma {:induction false} SamePs(t: Table, ps: seq<string>, u: Table, qs: seq<string>)
    requires multiset(qs) == multiset(ps)
    requires forall i, a :: 0 <= i < |qs| ==> Solved(u, qs[i], a) == Solved(t, qs[i], a)
    ensures PairPs(u, qs, CONTROLS) == PairPs(t, ps, CONTROLS)
  {
    forall i | 0 <= i < |CONTROLS| ensures PairPs(u, qs, CONTROLS)[i] == PairPs(t, ps, CONTROLS)[i] {
      SameContrast(t, ps, u, qs, CONTROLS[i]);
    }
  }

  /** For any complete outcome table the two programs reach one verdict, even when the two problem lists
      are in different orders. */
  lemma EvaluatorsAgree(
    spec: E.ExperimentSpec, records: seq<E.OutcomeRecord>, snapshots: seq<CellSnapshot>, problems: seq<string>)
    requires E.Acceptable(spec, records) && spec.costModelFrozen
    requires Complete(E.TableOf(records), spec.problemIds)
    requires multiset(problems) == multiset(spec.problemIds)
    requires forall i, a :: 0 <= i < |problems| ==>
      Solved(TableAt(Cells(snapshots), ATTEMPTS_PER_CELL), problems[i], a) == Solved(E.TableOf(records), problems[i], a)
    ensures E.Decide(spec, E.TableOf(records)) == PASS <==>
            Passes(TableAt(Cells(snapshots), ATTEMPTS_PER_CELL), problems, spec.alpha)
  {
    var t, u := E.TableOf(records), TableAt(Cells(snapshots), ATTEMPTS_PER_CELL);
    SamePs(t, spec.problemIds, u, problems);
    forall control: Arm
      ensures ContrastPasses(u, problems, spec.alpha, control) <==> E.Superior(t, spec.problemIds, spec.alpha, control)
    {
      ContrastsAgree(u, problems, spec.alpha, control);
      SameContrast(t, spec.problemIds, u, problems, control);
    }
  }
}
