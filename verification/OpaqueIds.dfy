/** The texts of the opaque ids, and why the rest of the model may take ids for what they commit to: two different ids
    with one text would be a collision of SHA-256, on inputs that can be named. */
module OpaqueIds {
  import opened Contracts
  import opened OneTimeSignature
  import opened Framing
  import opened PilotPlan
  import Schedule
  import Sorting

  /** Text to bytes, and the hash. Ids are written in ASCII, so the text of an id and its bytes are one here. */
  datatype Coding = Coding(utf8: string -> Bytes, sha: Bytes -> Bytes)

  /** Different texts have different bytes. */
  ghost predicate Exact(k: Coding) {
    forall a, b :: k.utf8(a) == k.utf8(b) ==> a == b
  }

  // ---- hexadecimal ----

  function HexDigit(d: nat): (c: byte)
    requires d < 16
  {
    if d < 10 then 48 + d else 87 + d
  }

  function Hex(b: Bytes): (h: Bytes)
    ensures |h| == 2 * |b|
  {
    if b == [] then [] else [HexDigit(b[0] / 16), HexDigit(b[0] % 16)] + Hex(b[1..])
  }

  lemma {:induction false} HexInjective(a: Bytes, b: Bytes)
    requires Hex(a) == Hex(b)
    ensures a == b
  {
    if a != [] {
      SplitAt([HexDigit(a[0] / 16), HexDigit(a[0] % 16)], Hex(a[1..]), [HexDigit(b[0] / 16), HexDigit(b[0] % 16)], Hex(b[1..]));
      HexInjective(a[1..], b[1..]);
      assert a == [a[0]] + a[1..] && b == [b[0]] + b[1..];
    }
  }

  // ---- assignment and evaluation ids ----

  function ArmValue(arm: Arm): string {
    match arm
    case Ordinary => "ordinary"
    case Portfolio => "portfolio"
    case ProductOnly => "product_only"
    case MultiFidelity => "multi_fidelity"
    case VerifiedChain => "verified_chain"
  }

  /** "run-" and "eval-". */
  function IdPrefix(c: Code): Bytes {
    match c
    case AssignmentId(_, _, _) => [114, 117, 110, 45]
    case EvaluationId(_, _, _, _) => [101, 118, 97, 108, 45]
  }

  /** The parts under an id, in the order the hasher is fed. */
  function IdParts(k: Coding, c: Code): (parts: seq<Bytes>)
    decreases c, 0
  {
    match c
    case AssignmentId(seed, problem, arm) =>
      [k.utf8("assignment-id-v1"), SeedPart(k, seed), k.utf8(problem), k.utf8(ArmValue(arm))]
    case EvaluationId(seed, assignment, problem, index) =>
      [k.utf8("evaluation-id-v3"), SeedPart(k, seed), IdText(k, assignment), k.utf8(problem), Decimal(index)]
  }

  function SeedPart(k: Coding, seed: string): Bytes {
    Tag(TextSeed(k.utf8(seed))) + k.utf8(seed)
  }

  /** What the hash is taken of; every part must fit its length field, or the source raises. */
  function Material(parts: seq<Bytes>): Bytes {
    if Short(parts) then Framed(parts) else []
  }

  function IdText(k: Coding, c: Code): Bytes
    decreases c, 1
  {
    IdPrefix(c) + Hex(k.sha(Material(IdParts(k, c))))
  }

  /** No part of the id, or of the id it commits to, is too long for its length field. */
  predicate Writable(k: Coding, c: Code) {
    Short(IdParts(k, c)) && (c.EvaluationId? ==> Writable(k, c.assignment))
  }

  /** Everything hashed on the way to an id. */
  function Fed(k: Coding, c: Code): seq<Bytes> {
    [Material(IdParts(k, c))] + if c.EvaluationId? then Fed(k, c.assignment) else []
  }

  /** Two inputs of the hash with one digest. */
  predicate Collide(k: Coding, x: Bytes, y: Bytes) {
    x != y && k.sha(x) == k.sha(y)
  }

  lemma {:induction false} ArmValuesDiffer(a: Arm, b: Arm)
    requires ArmValue(a) == ArmValue(b)
    ensures a == b
  {
    assert ArmValue(a)[0] == ArmValue(b)[0];
    assert |ArmValue(a)| == |ArmValue(b)|;
  }

  lemma {:induction false} SeedPartsDiffer(k: Coding, a: string, b: string)
    requires Exact(k) && SeedPart(k, a) == SeedPart(k, b)
    ensures a == b
  {
    SplitAt(Tag(TextSeed(k.utf8(a))), k.utf8(a), Tag(TextSeed(k.utf8(b))), k.utf8(b));
  }

  /** One text: one kind of id, and one digest. */
  lemma {:induction false} SameText(k: Coding, a: Code, b: Code)
    requires IdText(k, a) == IdText(k, b)
    ensures a.AssignmentId? == b.AssignmentId? && k.sha(Material(IdParts(k, a))) == k.sha(Material(IdParts(k, b)))
  {
    var x, y := Hex(k.sha(Material(IdParts(k, a)))), Hex(k.sha(Material(IdParts(k, b))));
    assert IdText(k, a)[0] == IdPrefix(a)[0] && IdText(k, b)[0] == IdPrefix(b)[0];
    SplitAt(IdPrefix(a), x, IdPrefix(b), y);
    HexInjective(k.sha(Material(IdParts(k, a))), k.sha(Material(IdParts(k, b))));
  }

  lemma {:induction false} AssignmentParts(k: Coding, a: Code, b: Code)
    requires Exact(k) && a.AssignmentId? && b.AssignmentId? && IdParts(k, a) == IdParts(k, b)
    ensures a == b
  {
    var x, y := IdParts(k, a), IdParts(k, b);
    assert x[1] == y[1] && x[2] == y[2] && x[3] == y[3];
    SeedPartsDiffer(k, a.seed, b.seed);
    ArmValuesDiffer(a.arm, b.arm);
  }

  lemma {:induction false} EvaluationIdParts(k: Coding, a: Code, b: Code)
    requires Exact(k) && a.EvaluationId? && b.EvaluationId? && IdParts(k, a) == IdParts(k, b)
    ensures a.seed == b.seed && a.problem == b.problem && a.index == b.index && IdText(k, a.assignment) == IdText(k, b.assignment)
  {
    var x, y := IdParts(k, a), IdParts(k, b);
    assert x[1] == y[1] && x[2] == y[2] && x[3] == y[3] && x[4] == y[4];
    SeedPartsDiffer(k, a.seed, b.seed);
    DecimalInjective(a.index, b.index);
  }

  /** Two different assignment or evaluation ids read alike only on a collision among the bytes hashed for them: an
      evaluation id commits to its assignment id, so the collision may lie one level down. */
  lemma {:induction false} IdCollision(k: Coding, a: Code, b: Code) returns (x: Bytes, y: Bytes)
    requires Exact(k) && Writable(k, a) && Writable(k, b) && a != b && IdText(k, a) == IdText(k, b)
    ensures Collide(k, x, y) && x in Fed(k, a) && y in Fed(k, b)
    decreases a
  {
    SameText(k, a, b);
    x, y := Material(IdParts(k, a)), Material(IdParts(k, b));
    if x == y {
      FramedInjective(IdParts(k, a), IdParts(k, b));
      if a.AssignmentId? {
        AssignmentParts(k, a, b);
      } else {
        EvaluationIdParts(k, a, b);
        x, y := IdCollision(k, a.assignment, b.assignment);
      }
    }
  }

  /** Two rows of one blinded order read alike only on a collision. */
  lemma {:induction false} RowTextsDiffer(k: Coding, r: Ranks, seed: string, s: seq<Assignment>, i: nat, j: nat)
    returns (x: Bytes, y: Bytes)
    requires Exact(k) && i < j < |Rows(r, seed, s)|
    requires Writable(k, Rows(r, seed, s)[i].evaluationId) && Writable(k, Rows(r, seed, s)[j].evaluationId)
    requires IdText(k, Rows(r, seed, s)[i].evaluationId) == IdText(k, Rows(r, seed, s)[j].evaluationId)
    ensures Collide(k, x, y) && x in Fed(k, Rows(r, seed, s)[i].evaluationId) && y in Fed(k, Rows(r, seed, s)[j].evaluationId)
  {
    EvaluationIdsDistinct(r, seed, s);
    var ids := Sorting.Map(EvaluationIdOf, Rows(r, seed, s));
    assert ids[i] != ids[j];
    x, y := IdCollision(k, ids[i], ids[j]);
  }

  // ---- protocol dispatch ids ----

  function DispatchParts(k: Coding, rules: string, id: Schedule.PlanId): seq<Bytes> {
    [k.utf8("supernova.confirmatory-dispatch.v1"), k.utf8(rules), k.utf8(id.problemId), k.utf8(ArmValue(id.arm)), Decimal(id.attempt)]
  }

  /** "dispatch-" and the digest. */
  function DispatchText(k: Coding, rules: string, id: Schedule.PlanId): Bytes {
    [100, 105, 115, 112, 97, 116, 99, 104, 45] + Hex(k.sha(Material(DispatchParts(k, rules, id))))
  }

  /** Two different dispatch ids, or one under two rule sets, read alike only on a collision of exactly their material. */
  lemma {:induction false} DispatchCollision(k: Coding, rules: string, a: Schedule.PlanId, rules': string, b: Schedule.PlanId)
    requires Exact(k) && Short(DispatchParts(k, rules, a)) && Short(DispatchParts(k, rules', b))
    ensures DispatchText(k, rules, a) == DispatchText(k, rules', b) <==>
      (rules == rules' && a == b) || Collide(k, Material(DispatchParts(k, rules, a)), Material(DispatchParts(k, rules', b)))
  {
    var x, y := DispatchParts(k, rules, a), DispatchParts(k, rules', b);
    var prefix := [100, 105, 115, 112, 97, 116, 99, 104, 45];
    if DispatchText(k, rules, a) == DispatchText(k, rules', b) {
      SplitAt(prefix, Hex(k.sha(Material(x))), prefix, Hex(k.sha(Material(y))));
      HexInjective(k.sha(Material(x)), k.sha(Material(y)));
      if Material(x) == Material(y) {
        FramedInjective(x, y);
        assert x[1] == y[1] && x[2] == y[2] && x[3] == y[3] && x[4] == y[4];
        ArmValuesDiffer(a.arm, b.arm);
        DecimalInjective(a.attempt, b.attempt);
      }
    }
  }

  /** So under a hash without collisions on what is fed to it, a plan's dispatch texts never repeat. */
  lemma {:induction false} PlanTextsDiffer(k: Coding, rules: string, problems: seq<string>, i: nat, j: nat)
    requires Sorting.Distinct(problems) && Exact(k)
    requires var plan := Schedule.Plan(problems, Schedule.ATTEMPTS);
      && i < j < |plan|
      && Short(DispatchParts(k, rules, plan[i].dispatchId)) && Short(DispatchParts(k, rules, plan[j].dispatchId))
      && DispatchText(k, rules, plan[i].dispatchId) == DispatchText(k, rules, plan[j].dispatchId)
    ensures var plan := Schedule.Plan(problems, Schedule.ATTEMPTS);
      Collide(k, Material(DispatchParts(k, rules, plan[i].dispatchId)), Material(DispatchParts(k, rules, plan[j].dispatchId)))
  {
    var plan := Schedule.Plan(problems, Schedule.ATTEMPTS);
    Schedule.DispatchIdsDistinct(problems);
    var ids := Sorting.Map(Schedule.DispatchOf, plan);
    assert ids[i] != ids[j];
    DispatchCollision(k, rules, plan[i].dispatchId, rules, plan[j].dispatchId);
  }
}
