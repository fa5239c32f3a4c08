/** The confirmatory schedule: rotated round-robin dispatch order, the predecessor graph, and the blinded public order. */
module Schedule {
  import opened Contracts
  import opened Sorting
  import opened Grouping

  const ATTEMPTS: nat := 16

  /** Dispatch ids are digests over the sealed rules and these three parts. */
  datatype PlanId = PlanId(problemId: string, arm: Arm, attempt: nat)

  datatype Policy = Independent | FixedLinear | SuccessiveHalving

  datatype PlanRecord = PlanRecord(
    arm: Arm, armPosition: nat, attempt: nat, dispatchIndex: nat, problemIndex: nat, dispatchId: PlanId, policy: Policy,
    eligible: seq<nat>, eligibleIds: seq<PlanId>, selected: Option<nat>, selectedId: Option<PlanId>, evaluationIndex: Option<nat>)

  // ---- the predecessor graph ----

  function MultiFidelityEligible(attempt: nat): seq<nat> {
    if attempt == 8 then [0, 1] else if attempt == 9 then [2, 3]
    else if attempt == 10 then [4, 5] else if attempt == 11 then [6, 7]
    else if attempt == 12 then [8, 9] else if attempt == 13 then [10, 11]
    else if attempt == 14 then [12, 13] else if attempt == 15 then [14]
    else []
  }

  function Eligible(arm: Arm, attempt: nat): seq<nat> {
    match arm
    case ProductOnly => if attempt > 0 then [attempt - 1] else []
    case VerifiedChain => if attempt > 0 then [attempt - 1] else []
    case MultiFidelity => MultiFidelityEligible(attempt)
    case _ => []
  }

  function PolicyOf(arm: Arm): Policy {
    match arm
    case ProductOnly => FixedLinear
    case VerifiedChain => FixedLinear
    case MultiFidelity => SuccessiveHalving
    case _ => Independent
  }

  function Selected(arm: Arm, attempt: nat): Option<nat> {
    if PolicyOf(arm) == FixedLinear && attempt > 0 then Some(attempt - 1) else None
  }

  /** The one attempt an earlier attempt may feed. */
  function Consumer(attempt: nat): nat {
    if attempt < 8 then 8 + attempt / 2 else if attempt < 14 then 12 + (attempt - 8) / 2 else 15
  }

  /** The eligible sets are the edges of a tree on the sixteen attempts with root 15: every other attempt is eligible
      for exactly one later attempt, and the root for none. */
  lemma {:induction false} EligibleIsTree(from: nat, to: nat)
    ensures from in MultiFidelityEligible(to) <==> from < 15 && to == Consumer(from)
    ensures from < 15 ==> from < Consumer(from) <= 15
  {
    var e := MultiFidelityEligible(to);
    if from < 8 {
      assert Consumer(from) == 8 + from / 2;
    } else if from < 14 {
      assert Consumer(from) == 12 + (from - 8) / 2;
    }
    if 8 <= to <= 14 {
      assert e == [2 * (to - 8), 2 * (to - 8) + 1];
    }
  }

  function Climb(attempt: nat, steps: nat): nat
    decreases steps
  {
    if steps == 0 then attempt else Climb(if attempt < 15 then Consumer(attempt) else attempt, steps - 1)
  }

  /** Four steps take every attempt to the root. */
  lemma {:induction false} EveryAttemptReachesRoot(attempt: nat)
    requires attempt < ATTEMPTS
    ensures Climb(attempt, 4) == 15
  {
    var a := if attempt < 15 then Consumer(attempt) else attempt;
    assert 8 <= a <= 15;
    var b := if a < 15 then Consumer(a) else a;
    assert 12 <= b <= 15;
    var c := if b < 15 then Consumer(b) else b;
    assert 14 <= c <= 15;
    assert Climb(attempt, 4) == Climb(a, 3) == Climb(b, 2) == Climb(c, 1);
  }

  /** Every eligible or selected predecessor is an earlier attempt. */
  lemma {:induction false} PredecessorsAreEarlier(arm: Arm, attempt: nat, from: nat)
    requires from in Eligible(arm, attempt) || Selected(arm, attempt) == Some(from)
    ensures from < attempt
  {
    if arm == MultiFidelity {
      EligibleIsTree(from, attempt);
    }
  }

  // ---- the rotation ----

  /** Position `k` of the canonical list rotated left by `r`: `ARMS[r..] + ARMS[..r]`. */
  function Rotate(r: nat, k: nat): (c: nat)
    requires r < 5 && k < 5
    ensures c < 5
  {
    if r + k < 5 then r + k else r + k - 5
  }

  lemma {:induction false} RotateIsRotation(r: nat, k: nat)
    requires r < 5 && k < 5
    ensures (ARMS[r..] + ARMS[..r])[k] == ARMS[Rotate(r, k)]
  {
  }

  /** The arm at a position of a problem's rotated list. */
  function ArmAt(problem: nat, k: nat): Arm
    requires k < 5
  {
    ARMS[Rotate(problem % 5, k)]
  }

  /** Where arm `c` stands for a problem. */
  function Position(problem: nat, c: nat): (k: nat)
    requires c < 5
    ensures k < 5
  {
    var r := problem % 5;
    if r <= c then c - r else c + 5 - r
  }

  /** The position is (c - problem) mod 5, and it inverts the rotation. */
  lemma {:induction false} RotationInverts(problem: nat, c: nat, k: nat)
    requires c < 5 && k < 5
    ensures Position(problem, c) == (c - problem) % 5
    ensures Position(problem, c) == k <==> Rotate(problem % 5, k) == c
    ensures ArmAt(problem, Position(problem, c)) == ARMS[c]
  {
    ModUnique(c - problem, Position(problem, c), if problem % 5 <= c then -(problem / 5) else -(problem / 5) - 1);
  }

  lemma ModUnique(x: int, r: nat, q: int)
    requires r < 5 && x == 5 * q + r
    ensures x % 5 == r
  {
  }

  ghost predicate Takes(start: nat, j: nat, c: nat, k: nat)
    requires c < 5
  {
    Position(start + j, c) == k
  }

  lemma {:induction false} Shifted(start: nat, j: nat)
    requires j < 5
    ensures (start + j) % 5 == Rotate(start % 5, j)
  {
    if start % 5 + j < 5 {
      ModUnique(start + j, start % 5 + j, start / 5);
    } else {
      ModUnique(start + j, start % 5 + j - 5, start / 5 + 1);
    }
  }

  lemma {:induction false} TakesWhen(start: nat, j: nat, c: nat, k: nat)
    requires j < 5 && c < 5 && k < 5
    ensures Takes(start, j, c, k) <==> Rotate(Rotate(start % 5, j), k) == c
  {
    Shifted(start, j);
    RotationInverts(start + j, c, k);
  }

  /** Over any five consecutive problems each arm takes each position exactly once. */
  lemma {:induction false} FiveProblemsBalance(start: nat, c: nat, k: nat)
    requires c < 5 && k < 5
    ensures exists j: nat :: j < 5 && Takes(start, j, c, k)
    ensures forall i: nat, j: nat :: i < 5 && j < 5 && Takes(start, i, c, k) && Takes(start, j, c, k) ==> i == j
  {
    var r := Rotate(start % 5, k);
    var turn := if r <= c then c - r else c + 5 - r;
    TakesWhen(start, turn, c, k);
    forall i: nat, j: nat | i < 5 && j < 5 && Takes(start, i, c, k) && Takes(start, j, c, k) ensures i == j {
      TakesWhen(start, i, c, k);
      TakesWhen(start, j, c, k);
    }
  }

  // ---- the plan ----

  function IdsOf(problemId: string, arm: Arm, attempts: seq<nat>): (ids: seq<PlanId>)
    ensures |ids| == |attempts| && forall i :: 0 <= i < |ids| ==> ids[i] == PlanId(problemId, arm, attempts[i])
  {
    seq(|attempts|, i requires 0 <= i < |attempts| => PlanId(problemId, arm, attempts[i]))
  }

  /** The dispatch index of slot (attempt, problem, position): rounds of five dispatches a problem. */
  function Index(n: nat, a: nat, p: nat, k: nat): nat {
    Times(a, 5 * n) + (5 * p + k)
  }

  lemma {:induction false} IndexIs(n: nat, a: nat, p: nat, k: nat)
    ensures Index(n, a, p, k) == 5 * n * a + 5 * p + k
  {
    TimesIs(a, 5 * n);
  }

  lemma {:induction false} SixteenRounds(n: nat)
    ensures Times(ATTEMPTS, 5 * n) == 80 * n
  {
    TimesIs(ATTEMPTS, 5 * n);
  }

  function RecordAt(problems: seq<string>, a: nat, p: nat, k: nat): PlanRecord
    requires p < |problems| && k < 5
  {
    var arm := ArmAt(p, k);
    var selected := Selected(arm, a);
    PlanRecord(arm, k, a, Index(|problems|, a, p, k), p, PlanId(problems[p], arm, a), PolicyOf(arm), Eligible(arm, a),
               IdsOf(problems[p], arm, Eligible(arm, a)), selected,
               if selected.None? then None else Some(PlanId(problems[p], arm, selected.value)), None)
  }

  /** One problem's five records, in rotated order. */
  function Positions(problems: seq<string>, a: nat, p: nat): (s: seq<PlanRecord>)
    requires p < |problems|
    ensures |s| == 5 && forall k :: 0 <= k < 5 ==> s[k] == RecordAt(problems, a, p, k)
  {
    seq(5, k requires 0 <= k < 5 => RecordAt(problems, a, p, k))
  }

  function RoundPart(problems: seq<string>, a: nat): nat -> seq<PlanRecord> {
    (p: nat) => if p < |problems| then Positions(problems, a, p) else []
  }

  /** The first `p` problems of one attempt round. */
  function Round(problems: seq<string>, a: nat, p: nat): seq<PlanRecord> {
    Flatten(RoundPart(problems, a), p)
  }

  lemma {:induction false} RoundLength(problems: seq<string>, a: nat, p: nat)
    requires p <= |problems|
    ensures |Round(problems, a, p)| == 5 * p
  {
    FlattenLength(RoundPart(problems, a), 5, p);
    TimesIs(p, 5);
  }

  lemma {:induction false} RoundAt(problems: seq<string>, a: nat, p: nat, k: nat)
    requires p < |problems| && k < 5
    ensures 5 * p + k < |Round(problems, a, |problems|)|
    ensures Round(problems, a, |problems|)[5 * p + k] == RecordAt(problems, a, p, k)
  {
    FlattenAt(RoundPart(problems, a), 5, |problems|, p, k);
    TimesIs(p, 5);
    assert RoundPart(problems, a)(p) == Positions(problems, a, p);
  }

  function PlanPart(problems: seq<string>): nat -> seq<PlanRecord> {
    (a: nat) => Round(problems, a, |problems|)
  }

  lemma {:induction false} PlanParts(problems: seq<string>)
    ensures forall a: nat :: |PlanPart(problems)(a)| == 5 * |problems|
  {
    forall a: nat ensures |PlanPart(problems)(a)| == 5 * |problems| {
      RoundLength(problems, a, |problems|);
    }
  }

  lemma {:induction false} PlanPartAt(problems: seq<string>, a: nat, p: nat, k: nat)
    requires p < |problems| && k < 5
    ensures 5 * p + k < |PlanPart(problems)(a)| && PlanPart(problems)(a)[5 * p + k] == RecordAt(problems, a, p, k)
  {
    RoundAt(problems, a, p, k);
  }

  /** The first `a` rounds. */
  function Plan(problems: seq<string>, a: nat): (s: seq<PlanRecord>)
    ensures |s| == Times(a, 5 * |problems|)
  {
    PlanParts(problems);
    FlattenLength(PlanPart(problems), 5 * |problems|, a);
    Flatten(PlanPart(problems), a)
  }

  lemma {:induction false} PlanPlace(problems: seq<string>, m: nat, a: nat, j: nat)
    requires a < m && j < 5 * |problems|
    ensures Times(a, 5 * |problems|) + j < |Plan(problems, m)| && j < |PlanPart(problems)(a)|
    ensures Plan(problems, m)[Times(a, 5 * |problems|) + j] == PlanPart(problems)(a)[j]
  {
    PlanParts(problems);
    FlattenAt(PlanPart(problems), 5 * |problems|, m, a, j);
  }

  /** Slot (a, p, k) stands at its own dispatch index. */
  lemma {:induction false} PlanAt(problems: seq<string>, m: nat, a: nat, p: nat, k: nat)
    requires a < m && p < |problems| && k < 5
    ensures Index(|problems|, a, p, k) < |Plan(problems, m)|
    ensures Plan(problems, m)[Index(|problems|, a, p, k)] == RecordAt(problems, a, p, k)
  {
    PlanPlace(problems, m, a, 5 * p + k);
    PlanPartAt(problems, a, p, k);
    Through(Plan(problems, m)[Index(|problems|, a, p, k)], PlanPart(problems)(a)[5 * p + k], RecordAt(problems, a, p, k));
  }

  /** Every index belongs to a slot. */
  lemma {:induction false} PlanCovers(problems: seq<string>, m: nat, i: nat) returns (a: nat, p: nat, k: nat)
    requires i < |Plan(problems, m)|
    ensures a < m && p < |problems| && k < 5 && i == Index(|problems|, a, p, k)
  {
    PlanParts(problems);
    var r;
    a, r := FlattenCovers(PlanPart(problems), 5 * |problems|, m, i);
    p, k := r / 5, r % 5;
  }

  /** The dispatch indices of (attempt, problem, arm) are a bijection onto 0 .. 80n - 1. */
  lemma {:induction false} IndexBijection(problems: seq<string>, a: nat, p: nat, c: nat, b: nat, q: nat, d: nat)
    requires a < ATTEMPTS && b < ATTEMPTS && p < |problems| && q < |problems| && c < 5 && d < 5
    ensures Index(|problems|, a, p, Position(p, c)) == 5 * |problems| * a + 5 * p + (c - p) % 5 < 80 * |problems|
    ensures Index(|problems|, a, p, Position(p, c)) < |Plan(problems, ATTEMPTS)|
    ensures Index(|problems|, a, p, Position(p, c)) == Index(|problems|, b, q, Position(q, d)) ==> a == b && p == q && c == d
    ensures var r := RecordAt(problems, a, p, Position(p, c));
      Plan(problems, ATTEMPTS)[Index(|problems|, a, p, Position(p, c))] == r && r.arm == ARMS[c] && r.attempt == a && r.problemIndex == p
  {
    SixteenRounds(|problems|);
    IndexIs(|problems|, a, p, Position(p, c));
    PlanAt(problems, ATTEMPTS, a, p, Position(p, c));
    PlanAt(problems, ATTEMPTS, b, q, Position(q, d));
    RotationInverts(p, c, Position(p, c));
    RotationInverts(q, d, Position(q, d));
    ArmsDiffer(c, d);
  }

  lemma ArmsDiffer(c: nat, d: nat)
    requires c < 5 && d < 5
    ensures ARMS[c] == ARMS[d] <==> c == d
  {
  }

  lemma {:induction false} IndexOnto(problems: seq<string>, i: nat) returns (a: nat, p: nat, c: nat)
    requires i < 80 * |problems|
    ensures a < ATTEMPTS && p < |problems| && c < 5 && i == Index(|problems|, a, p, Position(p, c))
  {
    var k;
    SixteenRounds(|problems|);
    a, p, k := PlanCovers(problems, ATTEMPTS, i);
    c := Rotate(p % 5, k);
    RotationInverts(p, c, k);
  }

  /** Each predecessor of a dispatch, eligible or selected, is dispatched before it. */
  lemma {:induction false} PredecessorsDispatchFirst(problems: seq<string>, a: nat, p: nat, k: nat, from: nat)
    requires a < ATTEMPTS && p < |problems| && k < 5
    requires from in Eligible(ArmAt(p, k), a) || Selected(ArmAt(p, k), a) == Some(from)
    ensures from < a && Index(|problems|, from, p, k) < Index(|problems|, a, p, k) < |Plan(problems, ATTEMPTS)|
    ensures Plan(problems, ATTEMPTS)[Index(|problems|, from, p, k)].dispatchId == PlanId(problems[p], ArmAt(p, k), from)
  {
    PredecessorsAreEarlier(ArmAt(p, k), a, from);
    TimesApart(from, a, 5 * |problems|);
    PlanAt(problems, ATTEMPTS, from, p, k);
    PlanAt(problems, ATTEMPTS, a, p, k);
  }

  // ---- building it ----

  type Slots = map<(string, Arm, nat), PlanId>

  predicate SlotsTrue(slots: Slots) {
    forall key :: key in slots ==> slots[key] == PlanId(key.0, key.1, key.2)
  }

  predicate HasArms(slots: Slots, problemId: string, a: nat) {
    forall c :: 0 <= c < 5 ==> (problemId, ARMS[c], a) in slots
  }

  /** All slots of the rounds before `a`. */
  predicate HasRounds(slots: Slots, problems: seq<string>, a: nat) {
    forall b: nat, q: nat :: b < a && q < |problems| ==> HasArms(slots, problems[q], b)
  }

  predicate HasProblems(slots: Slots, problems: seq<string>, a: nat, p: nat)
    requires p <= |problems|
  {
    forall q: nat :: q < p ==> HasArms(slots, problems[q], a)
  }

  predicate HasPositions(slots: Slots, problems: seq<string>, a: nat, p: nat, k: nat)
    requires p < |problems| && k <= 5
  {
    forall j: nat :: j < k ==> (problems[p], ArmAt(p, j), a) in slots
  }

  lemma {:induction false} AllPositionsAllArms(slots: Slots, problems: seq<string>, a: nat, p: nat)
    requires p < |problems| && HasPositions(slots, problems, a, p, 5)
    ensures HasArms(slots, problems[p], a)
  {
    forall c | 0 <= c < 5 ensures (problems[p], ARMS[c], a) in slots {
      RotationInverts(p, c, Position(p, c));
    }
  }

  /** A slot's own predecessors are already in the dictionary. */
  lemma {:induction false} PredecessorsKnown(slots: Slots, problems: seq<string>, a: nat, p: nat, k: nat, from: nat)
    requires p < |problems| && k < 5 && HasRounds(slots, problems, a)
    requires from in Eligible(ArmAt(p, k), a) || Selected(ArmAt(p, k), a) == Some(from)
    ensures (problems[p], ArmAt(p, k), from) in slots
  {
    PredecessorsAreEarlier(ArmAt(p, k), a, from);
    assert HasArms(slots, problems[p], from);
  }

  function LookupIds(slots: Slots, problemId: string, arm: Arm, attempts: seq<nat>): (ids: seq<PlanId>)
    requires forall b :: b in attempts ==> (problemId, arm, b) in slots
    ensures SlotsTrue(slots) ==> ids == IdsOf(problemId, arm, attempts)
  {
    seq(|attempts|, i requires 0 <= i < |attempts| => slots[(problemId, arm, attempts[i])])
  }

  /** One record, its predecessors looked up in the dictionary. */
  method MakeRecord(slots: Slots, problems: seq<string>, a: nat, p: nat, k: nat, index: nat) returns (r: PlanRecord)
    requires p < |problems| && k < 5 && SlotsTrue(slots) && HasRounds(slots, problems, a) && index == Index(|problems|, a, p, k)
    ensures r == RecordAt(problems, a, p, k)
  {
    var rotated := ARMS[p % 5..] + ARMS[..p % 5];
    RotateIsRotation(p % 5, k);
    var arm := rotated[k];
    var eligible, selected := Eligible(arm, a), Selected(arm, a);
    forall b | b in eligible || selected == Some(b) ensures (problems[p], arm, b) in slots {
      PredecessorsKnown(slots, problems, a, p, k, b);
    }
    var selectedId := if selected.None? then None else Some(slots[(problems[p], arm, selected.value)]);
    r := PlanRecord(arm, k, a, index, p, PlanId(problems[p], arm, a), PolicyOf(arm), eligible,
      LookupIds(slots, problems[p], arm, eligible), selected, selectedId, None);
  }

  predicate Keeps(before: Slots, after: Slots) {
    forall key :: key in before ==> key in after
  }

  lemma {:induction false} RoundsKept(before: Slots, after: Slots, problems: seq<string>, a: nat)
    requires Keeps(before, after) && HasRounds(before, problems, a)
    ensures HasRounds(after, problems, a)
  {
    forall b: nat, q: nat | b < a && q < |problems| ensures HasArms(after, problems[q], b) {
      assert HasArms(before, problems[q], b);
    }
  }

  lemma {:induction false} ProblemsGrow(before: Slots, after: Slots, problems: seq<string>, a: nat, p: nat)
    requires Keeps(before, after) && p < |problems| && HasProblems(before, problems, a, p) && HasArms(after, problems[p], a)
    ensures HasProblems(after, problems, a, p + 1)
  {
    forall q: nat | q < p + 1 ensures HasArms(after, problems[q], a) {
      if q < p {
        assert HasArms(before, problems[q], a);
      }
    }
  }

  lemma {:induction false} RoundsGrow(before: Slots, after: Slots, problems: seq<string>, a: nat)
    requires Keeps(before, after) && HasRounds(before, problems, a) && HasProblems(after, problems, a, |problems|)
    ensures HasRounds(after, problems, a + 1)
  {
    RoundsKept(before, after, problems, a);
  }

  /** One rotated arm of one problem: its record, and its slot in the dictionary. */
  method BuildSlot(before: Slots, problems: seq<string>, a: nat, p: nat, k: nat, index: nat) returns (slots: Slots, r: PlanRecord)
    requires p < |problems| && k < 5 && SlotsTrue(before) && HasRounds(before, problems, a) && HasPositions(before, problems, a, p, k)
    requires index == Index(|problems|, a, p, k)
    ensures r == RecordAt(problems, a, p, k)
    ensures SlotsTrue(slots) && Keeps(before, slots) && HasPositions(slots, problems, a, p, k + 1)
  {
    r := MakeRecord(before, problems, a, p, k, index);
    slots := before[(problems[p], r.arm, a) := r.dispatchId];
  }

  /** The loop over one problem's rotated arms. */
  method BuildPositions(start: Slots, problems: seq<string>, a: nat, p: nat, base: nat) returns (slots: Slots, five: seq<PlanRecord>)
    requires p < |problems| && SlotsTrue(start) && HasRounds(start, problems, a) && base == Index(|problems|, a, p, 0)
    ensures five == Positions(problems, a, p)
    ensures SlotsTrue(slots) && Keeps(start, slots) && HasArms(slots, problems[p], a)
  {
    slots, five := start, [];
    for k := 0 to 5
      invariant five == Positions(problems, a, p)[..k] && SlotsTrue(slots) && Keeps(start, slots)
      invariant HasPositions(slots, problems, a, p, k)
    {
      RoundsKept(start, slots, problems, a);
      var record;
      slots, record := BuildSlot(slots, problems, a, p, k, base + |five|);
      five := five + [record];
    }
    AllPositionsAllArms(slots, problems, a, p);
  }

  /** The loop over the problems of one round. */
  method BuildRound(start: Slots, problems: seq<string>, a: nat, base: nat) returns (slots: Slots, round: seq<PlanRecord>)
    requires SlotsTrue(start) && HasRounds(start, problems, a) && base == Index(|problems|, a, 0, 0)
    ensures round == Round(problems, a, |problems|)
    ensures SlotsTrue(slots) && Keeps(start, slots) && HasProblems(slots, problems, a, |problems|)
  {
    slots, round := start, [];
    for p := 0 to |problems|
      invariant round == Round(problems, a, p) && SlotsTrue(slots) && Keeps(start, slots) && HasProblems(slots, problems, a, p)
    {
      RoundsKept(start, slots, problems, a);
      RoundLength(problems, a, p);
      var more, five := BuildPositions(slots, problems, a, p, base + |round|);
      ProblemsGrow(slots, more, problems, a, p);
      slots, round := more, round + five;
    }
  }

  /** The loop over the attempts: all records in dispatch order. */
  method BuildOperatorRecords(problems: seq<string>) returns (operator: seq<PlanRecord>)
    ensures operator == Plan(problems, ATTEMPTS)
  {
    var slots: Slots := map[];
    operator := [];
    for a := 0 to ATTEMPTS
      invariant operator == Plan(problems, a) && SlotsTrue(slots) && HasRounds(slots, problems, a)
    {
      var more, round := BuildRound(slots, problems, a, |operator|);
      RoundsGrow(slots, more, problems, a);
      slots, operator := more, operator + round;
    }
  }

  // ---- the blinded public order ----

  function DispatchOf(r: PlanRecord): PlanId {
    r.dispatchId
  }

  function ByOrder(order: (PlanId, PlanId) -> bool): (PlanRecord, PlanRecord) -> bool {
    (x: PlanRecord, y: PlanRecord) => order(x.dispatchId, y.dispatchId)
  }

  /** What evaluators see: no arm, no dispatch index. The evaluation id is the operator's secret code of the dispatch id. */
  datatype PublicRecord = PublicRecord(attempt: nat, evaluationId: PlanId, evaluationIndex: nat, problemIndex: nat)

  function PublicOf(ranked: seq<PlanRecord>, e: nat): PublicRecord
    requires e < |ranked|
  {
    PublicRecord(ranked[e].attempt, ranked[e].dispatchId, e, ranked[e].problemIndex)
  }

  /** The slot a planned record stands for. */
  lemma {:induction false} SlotOf(problems: seq<string>, i: nat) returns (a: nat, p: nat, c: nat)
    requires i < |Plan(problems, ATTEMPTS)|
    ensures p < |problems| && c < 5 && i == Index(|problems|, a, p, Position(p, c))
    ensures Plan(problems, ATTEMPTS)[i].dispatchId == PlanId(problems[p], ARMS[c], a)
  {
    SixteenRounds(|problems|);
    a, p, c := IndexOnto(problems, i);
    RotationInverts(p, c, Position(p, c));
    PlanAt(problems, ATTEMPTS, a, p, Position(p, c));
  }

  lemma {:induction false} SameIdSameSlot(problems: seq<string>, a: nat, p: nat, c: nat, b: nat, q: nat, d: nat)
    requires Distinct(problems) && p < |problems| && q < |problems| && c < 5 && d < 5
    requires PlanId(problems[p], ARMS[c], a) == PlanId(problems[q], ARMS[d], b)
    ensures a == b && p == q && c == d
  {
    ArmsDiffer(c, d);
    assert problems[p] == problems[q];
  }

  lemma {:induction false} SameDispatchSamePlace(problems: seq<string>, i: nat, j: nat)
    requires Distinct(problems) && i < |Plan(problems, ATTEMPTS)| && j < |Plan(problems, ATTEMPTS)|
    requires Plan(problems, ATTEMPTS)[i].dispatchId == Plan(problems, ATTEMPTS)[j].dispatchId
    ensures i == j
  {
    var a, p, c := SlotOf(problems, i);
    var b, q, d := SlotOf(problems, j);
    SameIdSameSlot(problems, a, p, c, b, q, d);
  }

  /** Problems are distinct, so dispatch ids are. */
  lemma {:induction false} DispatchIdsDistinct(problems: seq<string>)
    requires Distinct(problems)
    ensures Distinct(Map(DispatchOf, Plan(problems, ATTEMPTS)))
  {
    var plan := Plan(problems, ATTEMPTS);
    forall i, j | 0 <= i < j < |plan| ensures Map(DispatchOf, plan)[i] != Map(DispatchOf, plan)[j] {
      if plan[i].dispatchId == plan[j].dispatchId {
        SameDispatchSamePlace(problems, i, j);
      }
    }
  }

  /** The operator entry now points at its place in the public order, and is otherwise unchanged. */
  predicate PointsAt(planned: PlanRecord, ranked: seq<PlanRecord>, r: PlanRecord) {
    && r.evaluationIndex.Some? && r == planned.(evaluationIndex := r.evaluationIndex)
    && r.evaluationIndex.value < |ranked| && ranked[r.evaluationIndex.value].dispatchId == planned.dispatchId
  }

  ghost predicate Evaluated(plan: seq<PlanRecord>, ranked: seq<PlanRecord>, operator: seq<PlanRecord>, n: nat)
    requires n <= |plan| && |operator| == |plan|
  {
    && (forall i: nat :: i < n ==> PointsAt(plan[i], ranked, operator[i]))
    && (forall i: nat :: n <= i < |plan| ==> operator[i] == plan[i])
  }

  lemma {:induction false} RankedKnows(order: (PlanId, PlanId) -> bool, plan: seq<PlanRecord>, r: PlanRecord)
    requires r in plan
    ensures r.dispatchId in Map(DispatchOf, Sort(ByOrder(order), plan))
  {
    var ranked := Sort(ByOrder(order), plan);
    SortPermutes(ByOrder(order), plan);
    var e :| 0 <= e < |ranked| && ranked[e] == r;
    assert Map(DispatchOf, ranked)[e] == r.dispatchId;
  }

  /** The ranked loop: public records, and where each dispatch landed. */
  method Publicize(ranked: seq<PlanRecord>) returns (public: seq<PublicRecord>, indexById: map<PlanId, nat>)
    ensures |public| == |ranked| && forall e: nat :: e < |public| ==> public[e] == PublicOf(ranked, e)
    ensures forall id :: id in indexById <==> id in Map(DispatchOf, ranked)
    ensures forall id :: id in indexById ==> indexById[id] < |ranked| && ranked[indexById[id]].dispatchId == id
  {
    public := [];
    indexById := map[];
    for e := 0 to |ranked|
      invariant |public| == e && forall i: nat :: i < e ==> public[i] == PublicOf(ranked, i)
      invariant forall id :: id in indexById <==> id in Map(DispatchOf, ranked[..e])
      invariant forall id :: id in indexById ==> indexById[id] < e && ranked[indexById[id]].dispatchId == id
    {
      TakeSnoc(ranked, e);
      MapAppend(DispatchOf, ranked[..e], ranked[e]);
      indexById := indexById[ranked[e].dispatchId := e];
      public := public + [PublicOf(ranked, e)];
    }
    TakeAll(ranked);
  }

  /** The final loop: each operator entry gets the index of its public record. */
  method JoinIndices(plan: seq<PlanRecord>, ranked: seq<PlanRecord>, indexById: map<PlanId, nat>) returns (operator: seq<PlanRecord>)
    requires forall r :: r in plan ==> r.dispatchId in indexById
    requires forall id :: id in indexById ==> indexById[id] < |ranked| && ranked[indexById[id]].dispatchId == id
    ensures |operator| == |plan| && Evaluated(plan, ranked, operator, |plan|)
  {
    operator := plan;
    for i := 0 to |plan|
      invariant |operator| == |plan| && Evaluated(plan, ranked, operator, i)
    {
      assert operator[i] == plan[i] && plan[i] in plan;
      operator := operator[i := operator[i].(evaluationIndex := Some(indexById[operator[i].dispatchId]))];
    }
  }

  /** Ranks the plan, writes the public records, and then each entry's evaluation index into the operator plan. */
  method BuildRecords(problems: seq<string>, order: (PlanId, PlanId) -> bool) returns (public: seq<PublicRecord>, operator: seq<PlanRecord>)
    ensures var plan := Plan(problems, ATTEMPTS);
      var ranked := Sort(ByOrder(order), plan);
      && |public| == |ranked| && (forall e: nat :: e < |public| ==> public[e] == PublicOf(ranked, e))
      && |operator| == |plan| && Evaluated(plan, ranked, operator, |plan|)
  {
    var plan := BuildOperatorRecords(problems);
    var ranked := Sort(ByOrder(order), plan);
    var indexById;
    public, indexById := Publicize(ranked);
    forall r | r in plan ensures r.dispatchId in indexById {
      RankedKnows(order, plan, r);
    }
    operator := JoinIndices(plan, ranked, indexById);
  }

  /** The ranked record that an operator entry points at is its own planned record. */
  lemma {:induction false} PointsHome(problems: seq<string>, ranked: seq<PlanRecord>, r: PlanRecord, i: nat)
    requires Distinct(problems) && i < |Plan(problems, ATTEMPTS)| && (forall x :: x in ranked ==> x in Plan(problems, ATTEMPTS))
    requires PointsAt(Plan(problems, ATTEMPTS)[i], ranked, r)
    ensures ranked[r.evaluationIndex.value] == Plan(problems, ATTEMPTS)[i]
  {
    var plan := Plan(problems, ATTEMPTS);
    var e := r.evaluationIndex.value;
    assert ranked[e] in plan;
    var m :| 0 <= m < |plan| && plan[m] == ranked[e];
    SameDispatchSamePlace(problems, m, i);
  }

  /** The public records are the operator's, permuted: same dispatches, and the join index of each operator entry is
      the place of its own public record, a different one for each entry. */
  lemma {:induction false} PublicIsPermutation(problems: seq<string>, order: (PlanId, PlanId) -> bool, operator: seq<PlanRecord>, i: nat, j: nat)
    requires Distinct(problems)
    requires |operator| == |Plan(problems, ATTEMPTS)|
    requires Evaluated(Plan(problems, ATTEMPTS), Sort(ByOrder(order), Plan(problems, ATTEMPTS)), operator, |operator|)
    requires i < |operator| && j < |operator|
    ensures var plan := Plan(problems, ATTEMPTS);
      var ranked := Sort(ByOrder(order), plan);
      && multiset(ranked) == multiset(plan) && |ranked| == 80 * |problems|
      && operator[i].evaluationIndex.Some? && operator[i].evaluationIndex.value < |ranked|
      && ranked[operator[i].evaluationIndex.value] == plan[i]
      && (operator[i].evaluationIndex == operator[j].evaluationIndex ==> i == j)
  {
    var plan := Plan(problems, ATTEMPTS);
    var ranked := Sort(ByOrder(order), plan);
    SixteenRounds(|problems|);
    SortPermutes(ByOrder(order), plan);
    assert PointsAt(plan[i], ranked, operator[i]) && PointsAt(plan[j], ranked, operator[j]);
    PointsHome(problems, ranked, operator[i], i);
    PointsHome(problems, ranked, operator[j], j);
    if operator[i].evaluationIndex == operator[j].evaluationIndex {
      SameDispatchSamePlace(problems, i, j);
    }
  }
}
