/** The in-process verified chain: five states, one pending or verified product at a time, and a history whose
    receipts bind the whole consumed ancestry. */
module VerifiedChainArm {
  import opened Contracts
  import opened Records
  import opened Sorting

  datatype ChainState = READY | AWAITING | VERIFIED | REJECTED | COMPLETE

  /** A digest is a free constructor over the record it covers. */
  datatype Hash =
    | ContentHash(json: Text)
    | TextHash(text: Text)
    | BindingHash(template: seq<Text>, timeout: real)
    | EvidenceHash(evidenceSubject: Hash, commandTemplate: seq<Text>, seconds: real, status: VerifierStatus,
                   returncode: Option<int>, stdout: Hash, stderr: Hash, error: Option<Text>)
    | SubjectHash(problemId: Text, productId: Text, stepIndex: nat, content: Hash, producerId: Identity,
                  parentProductId: Option<Text>, parentContent: Option<Hash>, parentSubject: Option<Hash>,
                  parentReceipt: Option<Hash>)
    | ReceiptHash(subject: Hash, passed: bool, verifierId: Identity, evidence: Hash)

  /** A producer or verifier name; a configured verifier's name carries the digest of its command binding. */
  datatype Identity = Named(name: Text) | VerifierName(binding: Hash)

  predicate WritableName(i: Identity) {
    i.Named? ==> Scalar(i.name)
  }

  /** The chain's fixed settings. */
  datatype Config = Config(problemId: Text, template: Option<seq<Text>>, timeout: real)
  {
    function VerifierId(): Option<Identity> {
      if template.None? then None else Some(VerifierName(BindingHash(template.value, timeout)))
    }
  }

  datatype Pending = Pending(productId: Text, stepIndex: nat, json: Text, producerId: Identity, parentProductId: Option<Text>)

  datatype Verified = Verified(
    productId: Text, stepIndex: nat, json: Text, producerId: Identity, verifierId: Identity, evidence: Hash,
    parentProductId: Option<Text>, subject: Hash, receipt: Hash)

  datatype StepRecord = StepRecord(
    productId: Text, stepIndex: nat, content: Hash, subject: Hash, receipt: Hash, passed: bool, producerId: Identity,
    verifierId: Identity, evidence: Hash, parentProductId: Option<Text>, consumed: bool, final: bool)

  datatype Chain = Chain(
    state: ChainState, pending: Option<Pending>, verified: Option<Verified>, lastConsumed: Option<Verified>,
    used: set<Text>, history: seq<StepRecord>)

  const EMPTY := Chain(READY, None, None, None, {}, [])

  /** The subject digest: the four parent fields are present together or not at all. */
  function Subject(config: Config, last: Option<Verified>, p: Pending): Hash {
    var parent := if p.parentProductId.Some? then last else None;
    SubjectHash(config.problemId, p.productId, p.stepIndex, ContentHash(p.json), p.producerId, p.parentProductId,
                if parent.None? then None else Some(ContentHash(parent.value.json)),
                if parent.None? then None else Some(parent.value.subject),
                if parent.None? then None else Some(parent.value.receipt))
  }

  function RecordOf(v: Verified, final: bool): StepRecord {
    StepRecord(v.productId, v.stepIndex, ContentHash(v.json), v.subject, v.receipt, true, v.producerId, v.verifierId,
               v.evidence, v.parentProductId, true, final)
  }

  // ---- operations ----

  /** What a caller passes as parent: nothing, the very object consumed last, or anything else. */
  datatype ParentArg = NoParent | ExactParent | OtherParent

  datatype VerifierRun = VerifierRun(
    status: VerifierStatus, returncode: Option<int>, stdout: Text, stderr: Text, error: Option<Text>)

  datatype Op =
    | Propose(productId: Text, canonical: Option<Text>, producerId: Identity, parent: ParentArg)
    | Verify(verifying: Text, run: VerifierRun)
    | Consume(consuming: Text)
    | Discard(discarding: Text)
    | Finalize(finalizing: Text)

  predicate CanPropose(config: Config, c: Chain, productId: Text, canonical: Option<Text>, producerId: Identity, parent: ParentArg) {
    && c.state == READY && productId != [] && productId !in c.used
    && producerId != Named([]) && Some(producerId) != config.VerifierId()
    && parent == (if c.lastConsumed.None? then NoParent else ExactParent)
    && canonical.Some? && Scalar(canonical.value)
  }

  function NewPending(c: Chain, productId: Text, json: Text, producerId: Identity): Pending {
    Pending(productId, if c.lastConsumed.None? then 0 else c.lastConsumed.value.stepIndex + 1, json, producerId,
            if c.lastConsumed.None? then None else Some(c.lastConsumed.value.productId))
  }

  function Proposed(c: Chain, p: Pending): Chain {
    c.(state := AWAITING, pending := Some(p), verified := None, used := c.used + {p.productId})
  }

  /** The subject document can be written as UTF-8. */
  predicate Writable(config: Config, p: Pending) {
    && Scalar(config.problemId) && Scalar(p.productId) && WritableName(p.producerId)
    && (p.parentProductId.Some? ==> Scalar(p.parentProductId.value))
  }

  predicate CanVerify(config: Config, c: Chain, productId: Text, run: VerifierRun) {
    && c.state == AWAITING && c.pending.Some? && productId == c.pending.value.productId
    && config.template.Some? && Writable(config, c.pending.value)
    && (run.status == Pass || run.status == Fail)
  }

  function Evidence(config: Config, subject: Hash, run: VerifierRun): Hash
    requires config.template.Some?
  {
    EvidenceHash(subject, config.template.value, config.timeout, run.status, run.returncode, TextHash(run.stdout),
                 TextHash(run.stderr), run.error)
  }

  function Checked(config: Config, c: Chain, run: VerifierRun): Chain
    requires c.pending.Some? && config.template.Some?
  {
    var p := c.pending.value;
    var subject := Subject(config, c.lastConsumed, p);
    var evidence := Evidence(config, subject, run);
    var verifierId := config.VerifierId().value;
    var receipt := ReceiptHash(subject, run.status == Pass, verifierId, evidence);
    if run.status == Pass then
      c.(state := VERIFIED, pending := None,
         verified := Some(Verified(p.productId, p.stepIndex, p.json, p.producerId, verifierId, evidence, p.parentProductId,
                                   subject, receipt)))
    else
      c.(state := REJECTED,
         history := c.history + [StepRecord(p.productId, p.stepIndex, ContentHash(p.json), subject, receipt, false,
                                            p.producerId, verifierId, evidence, p.parentProductId, false, false)])
  }

  predicate CanRelease(c: Chain, productId: Text) {
    c.state == VERIFIED && c.verified.Some? && productId == c.verified.value.productId
  }

  function Released(c: Chain, final: bool): Chain
    requires c.verified.Some?
  {
    c.(state := if final then COMPLETE else READY, verified := None, lastConsumed := c.verified,
       history := c.history + [RecordOf(c.verified.value, final)])
  }

  predicate CanDiscard(c: Chain, productId: Text) {
    c.state == REJECTED && c.pending.Some? && productId == c.pending.value.productId
  }

  function Discarded(c: Chain): Chain {
    c.(state := READY, pending := None)
  }

  predicate Succeeds(config: Config, c: Chain, op: Op) {
    match op
    case Propose(id, canonical, producer, parent) => CanPropose(config, c, id, canonical, producer, parent)
    case Verify(id, run) => CanVerify(config, c, id, run)
    case Consume(id) => CanRelease(c, id)
    case Finalize(id) => CanRelease(c, id)
    case Discard(id) => CanDiscard(c, id)
  }

  /** One call; a call that raises changes nothing. */
  function Step(config: Config, c: Chain, op: Op): Chain {
    if !Succeeds(config, c, op) then c
    else match op
      case Propose(id, canonical, producer, _) => Proposed(c, NewPending(c, id, canonical.value, producer))
      case Verify(_, run) => Checked(config, c, run)
      case Consume(_) => Released(c, false)
      case Finalize(_) => Released(c, true)
      case Discard(_) => Discarded(c)
  }

  function Run(config: Config, c: Chain, ops: seq<Op>): Chain
    decreases |ops|
  {
    if ops == [] then c else Run(config, Step(config, c, ops[0]), ops[1..])
  }

  // ---- the invariant ----

  /** The records that were consumed, in order. */
  function Consumed(h: seq<StepRecord>): seq<StepRecord> {
    if h == [] then []
    else
      var n := |h| - 1;
      if h[n].consumed then Consumed(h[..n]) + [h[n]] else Consumed(h[..n])
  }

  function ProductIds(h: seq<StepRecord>): set<Text> {
    if h == [] then {} else ProductIds(h[..|h| - 1]) + {h[|h| - 1].productId}
  }

  /** The record stands on `parents`: index, parent id, subject digest and receipt all follow from them. */
  predicate StandsOn(config: Config, parents: seq<StepRecord>, r: StepRecord) {
    && r.stepIndex == |parents| && r.content.ContentHash?
    && r.receipt == ReceiptHash(r.subject, r.passed, r.verifierId, r.evidence)
    && Some(r.verifierId) == config.VerifierId() && r.producerId != r.verifierId
    && if parents == [] then
         && r.parentProductId.None?
         && r.subject == SubjectHash(config.problemId, r.productId, 0, r.content, r.producerId, None, None, None, None)
       else
         var q := parents[|parents| - 1];
         && r.parentProductId == Some(q.productId)
         && r.subject == SubjectHash(config.problemId, r.productId, r.stepIndex, r.content, r.producerId, Some(q.productId),
                                     Some(q.content), Some(q.subject), Some(q.receipt))
  }

  /** Each record stands on the ones consumed before it, under a fresh product id; it is consumed exactly if it
      passed; and nothing follows a final record. */
  predicate History(config: Config, h: seq<StepRecord>) {
    h == [] ||
    var n := |h| - 1;
    && History(config, h[..n]) && StandsOn(config, Consumed(h[..n]), h[n])
    && h[n].productId !in ProductIds(h[..n])
    && (h[n].consumed <==> h[n].passed) && (h[n].final ==> h[n].consumed) && !Ended(h[..n])
  }

  predicate Ended(h: seq<StepRecord>) {
    h != [] && h[|h| - 1].final
  }

  predicate PendingFits(c: Chain, p: Pending) {
    && p.stepIndex == |Consumed(c.history)|
    && p.parentProductId == (if c.lastConsumed.None? then None else Some(c.lastConsumed.value.productId))
    && p.productId in c.used
  }

  /** The last consumed product is the last consumed record. */
  predicate LastFits(c: Chain) {
    var consumed := Consumed(c.history);
    if consumed == [] then c.lastConsumed.None?
    else c.lastConsumed.Some? && RecordOf(c.lastConsumed.value, consumed[|consumed| - 1].final) == consumed[|consumed| - 1]
  }

  predicate VerifiedFits(config: Config, c: Chain, v: Verified) {
    && StandsOn(config, Consumed(c.history), RecordOf(v, false)) && v.productId in c.used && v.productId !in ProductIds(c.history)
  }

  /** The state decides which of pending and verified is present, and how the history ends. */
  predicate StateFits(config: Config, c: Chain) {
    match c.state
    case READY => c.pending.None? && c.verified.None? && !Ended(c.history)
    case COMPLETE => c.pending.None? && c.verified.None? && Ended(c.history)
    case AWAITING =>
      && c.pending.Some? && c.verified.None? && PendingFits(c, c.pending.value) && !Ended(c.history)
      && c.pending.value.productId !in ProductIds(c.history) && Some(c.pending.value.producerId) != config.VerifierId()
    case REJECTED =>
      && c.pending.Some? && c.verified.None? && PendingFits(c, c.pending.value) && !Ended(c.history)
      && c.history != [] && !c.history[|c.history| - 1].passed
      && c.history[|c.history| - 1].productId == c.pending.value.productId
    case VERIFIED =>
      c.pending.None? && c.verified.Some? && VerifiedFits(config, c, c.verified.value) && !Ended(c.history)
  }

  predicate Invariant(config: Config, c: Chain) {
    && History(config, c.history) && ProductIds(c.history) <= c.used && LastFits(c) && StateFits(config, c)
  }

  lemma {:induction false} HistorySnoc(config: Config, h: seq<StepRecord>, r: StepRecord)
    ensures (h + [r])[..|h|] == h && (h + [r])[|h|] == r
    ensures Consumed(h + [r]) == if r.consumed then Consumed(h) + [r] else Consumed(h)
    ensures ProductIds(h + [r]) == ProductIds(h) + {r.productId}
    ensures Ended(h + [r]) <==> r.final
  {
    assert (h + [r])[..|h|] == h;
  }

  lemma {:induction false} ProposeKeeps(config: Config, c: Chain, productId: Text, canonical: Option<Text>, producerId: Identity, parent: ParentArg)
    requires Invariant(config, c) && CanPropose(config, c, productId, canonical, producerId, parent)
    ensures Invariant(config, Proposed(c, NewPending(c, productId, canonical.value, producerId)))
  {
    ConsumedIndex(config, c.history);
  }

  /** Consumed records carry the indices 0, 1, 2, ... */
  lemma {:induction false} ConsumedIndex(config: Config, h: seq<StepRecord>)
    requires History(config, h)
    ensures forall i :: 0 <= i < |Consumed(h)| ==> Consumed(h)[i].stepIndex == i && Consumed(h)[i].passed && Consumed(h)[i].consumed
    ensures forall i :: 0 <= i < |Consumed(h)| ==> Consumed(h)[i].productId in ProductIds(h)
  {
    if h != [] {
      ConsumedIndex(config, h[..|h| - 1]);
    }
  }

  lemma {:induction false} PendingStands(config: Config, c: Chain, run: VerifierRun)
    requires Invariant(config, c) && c.state == AWAITING && config.template.Some?
    ensures var p := c.pending.value;
      var subject := Subject(config, c.lastConsumed, p);
      StandsOn(config, Consumed(c.history),
               StepRecord(p.productId, p.stepIndex, ContentHash(p.json), subject,
                          ReceiptHash(subject, run.status == Pass, config.VerifierId().value, Evidence(config, subject, run)),
                          run.status == Pass, p.producerId, config.VerifierId().value, Evidence(config, subject, run),
                          p.parentProductId, run.status == Pass, false))
  {
    ConsumedIndex(config, c.history);
  }

  lemma {:induction false} VerifyKeeps(config: Config, c: Chain, productId: Text, run: VerifierRun)
    requires Invariant(config, c) && CanVerify(config, c, productId, run)
    ensures Invariant(config, Checked(config, c, run))
  {
    PendingStands(config, c, run);
    if run.status == Fail {
      var r := Checked(config, c, run).history[|c.history|];
      HistorySnoc(config, c.history, r);
    }
  }

  lemma {:induction false} ReleaseKeeps(config: Config, c: Chain, productId: Text, final: bool)
    requires Invariant(config, c) && CanRelease(c, productId)
    ensures Invariant(config, Released(c, final))
  {
    HistorySnoc(config, c.history, RecordOf(c.verified.value, final));
  }

  lemma {:induction false} StepKeeps(config: Config, c: Chain, op: Op)
    requires Invariant(config, c)
    ensures Invariant(config, Step(config, c, op))
  {
    if Succeeds(config, c, op) {
      match op
      case Propose(id, canonical, producer, parent) => ProposeKeeps(config, c, id, canonical, producer, parent);
      case Verify(id, run) => VerifyKeeps(config, c, id, run);
      case Consume(id) => ReleaseKeeps(config, c, id, false);
      case Finalize(id) => ReleaseKeeps(config, c, id, true);
      case Discard(_) =>
    }
  }

  lemma {:induction false} StepGrows(config: Config, c: Chain, op: Op)
    ensures c.history <= Step(config, c, op).history && c.used <= Step(config, c, op).used
  {
  }

  /** Every run keeps the invariant, and only ever appends to the history. */
  lemma {:induction false} RunKeeps(config: Config, c: Chain, ops: seq<Op>)
    requires Invariant(config, c)
    ensures Invariant(config, Run(config, c, ops))
    ensures c.history <= Run(config, c, ops).history && c.used <= Run(config, c, ops).used
    decreases |ops|
  {
    if ops != [] {
      StepKeeps(config, c, ops[0]);
      StepGrows(config, c, ops[0]);
      RunKeeps(config, Step(config, c, ops[0]), ops[1..]);
    }
  }

  lemma EmptyIsGood(config: Config)
    ensures Invariant(config, EMPTY)
  {
  }

  /** COMPLETE is absorbing. */
  lemma {:induction false} CompleteIsFinal(config: Config, c: Chain, ops: seq<Op>)
    requires c.state == COMPLETE
    ensures Run(config, c, ops) == c
    decreases |ops|
  {
    if ops != [] {
      CompleteIsFinal(config, c, ops[1..]);
    }
  }

  /** A verifier TIMEOUT or ERROR changes nothing, so a later verdict on the same product still counts. */
  lemma {:induction false} InconclusiveThenPass(config: Config, c: Chain, productId: Text, first: VerifierRun, second: VerifierRun)
    requires first.status == Timeout || first.status == Fault
    ensures Step(config, c, Verify(productId, first)) == c
    ensures Run(config, c, [Verify(productId, first), Verify(productId, second)]) == Step(config, c, Verify(productId, second))
  {
    var d := Step(config, c, Verify(productId, second));
    assert [Verify(productId, first), Verify(productId, second)][1..] == [Verify(productId, second)];
    assert Run(config, d, [Verify(productId, second)][1..]) == d;
  }

  // ---- reading the history ----

  lemma {:induction false} HistoryAt(config: Config, h: seq<StepRecord>, i: nat)
    requires History(config, h) && i < |h|
    ensures StandsOn(config, Consumed(h[..i]), h[i]) && h[i].productId !in ProductIds(h[..i])
    ensures (h[i].consumed <==> h[i].passed) && (h[i].final ==> h[i].consumed) && !Ended(h[..i])
    decreases |h|
  {
    var n := |h| - 1;
    if i < n {
      HistoryAt(config, h[..n], i);
      TakeTake(h, n, i);
    }
  }

  lemma {:induction false} ProductIdIn(h: seq<StepRecord>, i: nat)
    requires i < |h|
    ensures h[i].productId in ProductIds(h)
  {
    if i < |h| - 1 {
      ProductIdIn(h[..|h| - 1], i);
    }
  }

  /** Product ids never repeat, and a final record is the last one. */
  lemma {:induction false} HistoryIsOnce(config: Config, h: seq<StepRecord>, i: nat, j: nat)
    requires History(config, h) && i < j < |h|
    ensures h[i].productId != h[j].productId && !h[i].final
  {
    HistoryAt(config, h, j);
    ProductIdIn(h[..j], i);
    HistoryAt(config, h, i + 1);
  }

  lemma {:induction false} UnconsumedStretch(h: seq<StepRecord>, i: nat, j: nat)
    requires i <= j <= |h| && forall k :: i <= k < j ==> !h[k].consumed
    ensures Consumed(h[..j]) == Consumed(h[..i])
    decreases j
  {
    if i < j {
      UnconsumedStretch(h, i, j - 1);
      TakeTake(h, j, j - 1);
    }
  }

  /** A failed product shares its step index and parent with every later record up to the one that replaces it. */
  lemma {:induction false} FailedSharesIndex(config: Config, h: seq<StepRecord>, i: nat, j: nat)
    requires History(config, h) && i < j < |h| && forall k :: i <= k < j ==> !h[k].passed
    ensures h[i].stepIndex == h[j].stepIndex && h[i].parentProductId == h[j].parentProductId
  {
    forall k | i <= k < j ensures !h[k].consumed {
      HistoryAt(config, h, k);
    }
    UnconsumedStretch(h, i, j);
    HistoryAt(config, h, i);
    HistoryAt(config, h, j);
  }

  // ---- a receipt binds its ancestry ----

  /** Each record stands on all the ones before it. */
  predicate Linked(config: Config, s: seq<StepRecord>) {
    s == [] || (Linked(config, s[..|s| - 1]) && StandsOn(config, s[..|s| - 1], s[|s| - 1]))
  }

  lemma {:induction false} ConsumedLinked(config: Config, h: seq<StepRecord>)
    requires History(config, h)
    ensures Linked(config, Consumed(h))
  {
    if h != [] {
      var n := |h| - 1;
      ConsumedLinked(config, h[..n]);
      if h[n].consumed {
        AppendLast(Consumed(h[..n]), h[n]);
      }
    }
  }

  /** The record without the flags that its receipt does not cover. */
  function Core(r: StepRecord): StepRecord {
    r.(consumed := true, final := false)
  }

  /** Equal receipts: equal problems, equal lengths, equal records, down to step 0. */
  lemma {:induction false} ReceiptBindsChain(c1: Config, s1: seq<StepRecord>, c2: Config, s2: seq<StepRecord>)
    requires Linked(c1, s1) && Linked(c2, s2) && s1 != [] && s2 != []
    requires s1[|s1| - 1].receipt == s2[|s2| - 1].receipt
    ensures c1.problemId == c2.problemId && c1.VerifierId() == c2.VerifierId()
    ensures |s1| == |s2| && forall i :: 0 <= i < |s1| ==> Core(s1[i]) == Core(s2[i])
    decreases |s1|
  {
    var n, m := |s1| - 1, |s2| - 1;
    SameRecord(c1, s1[..n], s1[n], c2, s2[..m], s2[m]);
    if n > 0 {
      ReceiptBindsChain(c1, s1[..n], c2, s2[..m]);
      forall i | 0 <= i < |s1| ensures Core(s1[i]) == Core(s2[i]) {
        if i < n {
          assert s1[i] == s1[..n][i] && s2[i] == s2[..m][i];
        }
      }
    }
  }

  lemma {:induction false} SameRecord(c1: Config, p1: seq<StepRecord>, r1: StepRecord, c2: Config, p2: seq<StepRecord>, r2: StepRecord)
    requires StandsOn(c1, p1, r1) && StandsOn(c2, p2, r2) && r1.receipt == r2.receipt
    ensures Core(r1) == Core(r2) && c1.problemId == c2.problemId && c1.VerifierId() == c2.VerifierId() && |p1| == |p2|
    ensures p1 != [] ==> p1[|p1| - 1].receipt == p2[|p2| - 1].receipt
  {
  }

  lemma {:induction false} NoFinalYet(config: Config, h: seq<StepRecord>)
    requires History(config, h) && !Ended(h)
    ensures forall i :: 0 <= i < |Consumed(h)| ==> Consumed(h)[i].consumed && !Consumed(h)[i].final
  {
    if h != [] {
      NoFinalYet(config, h[..|h| - 1]);
    }
  }

  lemma {:induction false} CoresDetermine(a: seq<StepRecord>, b: seq<StepRecord>)
    requires |a| == |b| && forall i :: 0 <= i < |a| ==> Core(a[i]) == Core(b[i])
    requires forall i :: 0 <= i < |a| ==> a[i].consumed && !a[i].final && b[i].consumed && !b[i].final
    ensures a == b
  {
    forall i | 0 <= i < |a| ensures a[i] == b[i] {
      assert a[i] == Core(a[i]) && b[i] == Core(b[i]);
    }
  }

  /** Two runs, of any two chains, that reach verified products with equal receipts are about the same problem and
      verifier, verified the same product and content, and consumed identical chains all the way to step 0. */
  lemma {:induction false} EqualReceiptsEqualAncestry(c1: Config, ops1: seq<Op>, c2: Config, ops2: seq<Op>)
    requires Run(c1, EMPTY, ops1).state == VERIFIED && Run(c2, EMPTY, ops2).state == VERIFIED
    requires var v1, v2 := Run(c1, EMPTY, ops1).verified, Run(c2, EMPTY, ops2).verified;
      v1.Some? && v2.Some? && v1.value.receipt == v2.value.receipt
    ensures c1.problemId == c2.problemId && c1.VerifierId() == c2.VerifierId()
    ensures Run(c1, EMPTY, ops1).verified == Run(c2, EMPTY, ops2).verified
    ensures Consumed(Run(c1, EMPTY, ops1).history) == Consumed(Run(c2, EMPTY, ops2).history)
  {
    EmptyIsGood(c1);
    EmptyIsGood(c2);
    RunKeeps(c1, EMPTY, ops1);
    RunKeeps(c2, EMPTY, ops2);
    SameAncestry(c1, Run(c1, EMPTY, ops1), c2, Run(c2, EMPTY, ops2));
  }

  lemma {:induction false} SameAncestry(c1: Config, a: Chain, c2: Config, b: Chain)
    requires Invariant(c1, a) && Invariant(c2, b) && a.state == VERIFIED && b.state == VERIFIED
    requires a.verified.value.receipt == b.verified.value.receipt
    ensures c1.problemId == c2.problemId && c1.VerifierId() == c2.VerifierId()
    ensures a.verified == b.verified && Consumed(a.history) == Consumed(b.history)
  {
    var s1, s2 := Consumed(a.history), Consumed(b.history);
    var r1, r2 := RecordOf(a.verified.value, false), RecordOf(b.verified.value, false);
    ConsumedLinked(c1, a.history);
    ConsumedLinked(c2, b.history);
    SameRecord(c1, s1, r1, c2, s2, r2);
    SameVerified(a.verified.value, b.verified.value);
    if s1 != [] {
      ReceiptBindsChain(c1, s1, c2, s2);
    }
    NoFinalYet(c1, a.history);
    NoFinalYet(c2, b.history);
    CoresDetermine(s1, s2);
  }

  lemma {:induction false} SameVerified(v: Verified, w: Verified)
    requires Core(RecordOf(v, false)) == Core(RecordOf(w, false))
    ensures v == w
  {
  }

  // ---- products that can never be verified ----

  lemma {:induction false} StuckForever(config: Config, c: Chain, ops: seq<Op>)
    requires c.state == AWAITING && c.pending.Some? && !(config.template.Some? && Writable(config, c.pending.value))
    ensures Run(config, c, ops) == c
    decreases |ops|
  {
    if ops != [] {
      StuckForever(config, c, ops[1..]);
    }
  }

  lemma {:induction false} RunOne(config: Config, c: Chain, op: Op)
    ensures Run(config, c, [op]) == Step(config, c, op)
  {
    assert [op][1..] == [];
    assert Run(config, Step(config, c, op), []) == Step(config, c, op);
  }

  /** A proposed product has a way forward exactly when a verifier is configured and the identifiers can be encoded.
      Proposing checks neither, and a product awaiting verification cannot be discarded. */
  lemma {:induction false} WayForward(config: Config, c: Chain)
    requires Invariant(config, c) && c.state == AWAITING
    ensures (exists ops :: Run(config, c, ops) != c) <==> config.template.Some? && Writable(config, c.pending.value)
  {
    if config.template.Some? && Writable(config, c.pending.value) {
      var pass := Verify(c.pending.value.productId, VerifierRun(Pass, Some(0), [], [], None));
      RunOne(config, c, pass);
      assert Run(config, c, [pass]).state == VERIFIED;
    } else {
      forall ops ensures Run(config, c, ops) == c {
        StuckForever(config, c, ops);
      }
    }
  }

  /** One lone surrogate in a product id is enough. */
  lemma {:induction false} SurrogateProductSticks(config: Config, json: Text, producer: Identity, ops: seq<Op>)
    requires Scalar(json) && producer != Named([]) && Some(producer) != config.VerifierId()
    ensures var c := Step(config, EMPTY, Propose([0xD800], Some(json), producer, NoParent));
      c.state == AWAITING && Run(config, c, ops) == c
  {
    var c := Step(config, EMPTY, Propose([0xD800], Some(json), producer, NoParent));
    var id: Text := [0xD800];
    assert id[0] == 0xD800;
    assert !Scalar(id);
    StuckForever(config, c, ops);
  }

  // ---- the object ----

  /** A verified product as handed to a caller; `propose` asks for the very same object back. */
  class VerifiedProduct {
    const product: Verified

    constructor (product: Verified)
      ensures this.product == product
    {
      this.product := product;
    }
  }

  /** The live chain. Each method is one `Step`: it raises exactly when the step is refused, and then changes nothing. */
  class VerifiedChain {
    const config: Config
    var state: ChainState
    var pending: Option<Pending>
    var verified: VerifiedProduct?
    var lastConsumed: VerifiedProduct?
    var used: set<Text>
    var history: seq<StepRecord>

    function Held(v: VerifiedProduct?): Option<Verified> {
      if v == null then None else Some(v.product)
    }

    function Snapshot(): Chain
      reads this
    {
      Chain(state, pending, Held(verified), Held(lastConsumed), used, history)
    }

    ghost predicate Valid()
      reads this
    {
      Invariant(config, Snapshot())
    }

    constructor (config: Config)
      ensures Valid() && this.config == config && Snapshot() == EMPTY
    {
      this.config := config;
      state, pending, verified, lastConsumed, used, history := READY, None, null, null, {}, [];
      new;
      EmptyIsGood(config);
    }

    function ParentOf(parent: VerifiedProduct?): ParentArg
      reads this
    {
      if parent == null then NoParent else if parent == lastConsumed then ExactParent else OtherParent
    }

    method Propose(productId: Text, canonical: Option<Text>, producerId: Identity, parent: VerifiedProduct?) returns (ok: bool)
      requires Valid()
      modifies this
      ensures Valid()
      ensures ok <==> CanPropose(config, old(Snapshot()), productId, canonical, producerId, old(ParentOf(parent)))
      ensures Snapshot() == Step(config, old(Snapshot()), Op.Propose(productId, canonical, producerId, old(ParentOf(parent))))
    {
      StepKeeps(config, Snapshot(), Op.Propose(productId, canonical, producerId, ParentOf(parent)));
      if state != READY || productId == [] || productId in used || producerId == Named([]) {
        return false;
      }
      if config.VerifierId().Some? && producerId == config.VerifierId().value {
        return false;
      }
      var parentProductId: Option<Text>;
      var stepIndex;
      if lastConsumed == null {
        if parent != null {
          return false;
        }
        parentProductId, stepIndex := None, 0;
      } else {
        if parent != lastConsumed {
          return false;
        }
        parentProductId, stepIndex := Some(lastConsumed.product.productId), lastConsumed.product.stepIndex + 1;
      }
      if canonical.None? || !Scalar(canonical.value) {
        return false;
      }
      pending := Some(Pending(productId, stepIndex, canonical.value, producerId, parentProductId));
      verified := null;
      used := used + {productId};
      state := AWAITING;
      return true;
    }

    /** The verifier's run on the subject is the parameter; the outcome is derived from its status alone. */
    method VerifyPending(productId: Text, run: VerifierRun) returns (ok: bool)
      requires Valid()
      modifies this
      ensures Valid()
      ensures ok <==> CanVerify(config, old(Snapshot()), productId, run)
      ensures Snapshot() == Step(config, old(Snapshot()), Op.Verify(productId, run))
    {
      StepKeeps(config, Snapshot(), Op.Verify(productId, run));
      if state != AWAITING || pending.None? || productId != pending.value.productId || config.template.None? {
        return false;
      }
      var subject := Subject(config, Held(lastConsumed), pending.value);
      if !Writable(config, pending.value) {
        return false;
      }
      var evidence := Evidence(config, subject, run);
      if run.status != Pass && run.status != Fail {
        return false;
      }
      ApplyVerification(pending.value, subject, run.status == Pass, config.VerifierId().value, evidence);
      return true;
    }

    method ApplyVerification(p: Pending, subject: Hash, passed: bool, verifierId: Identity, evidence: Hash)
      modifies this
      ensures lastConsumed == old(lastConsumed) && used == old(used)
      ensures var receipt := ReceiptHash(subject, passed, verifierId, evidence);
        if passed then
          && state == VERIFIED && pending == None && history == old(history)
          && Held(verified) == Some(Verified(p.productId, p.stepIndex, p.json, p.producerId, verifierId, evidence,
                                             p.parentProductId, subject, receipt))
        else
          && state == REJECTED && pending == old(pending) && verified == old(verified)
          && history == old(history) + [StepRecord(p.productId, p.stepIndex, ContentHash(p.json), subject, receipt, false,
                                                   p.producerId, verifierId, evidence, p.parentProductId, false, false)]
    {
      var receipt := ReceiptHash(subject, passed, verifierId, evidence);
      if passed {
        verified := new VerifiedProduct(Verified(p.productId, p.stepIndex, p.json, p.producerId, verifierId, evidence,
          p.parentProductId, subject, receipt));
        pending := None;
        state := VERIFIED;
      } else {
        history := history + [StepRecord(p.productId, p.stepIndex, ContentHash(p.json), subject, receipt, false,
          p.producerId, verifierId, evidence, p.parentProductId, false, false)];
        state := REJECTED;
      }
    }

    /** The shared tail of consuming and finalizing. */
    method Release(final: bool) returns (r: VerifiedProduct)
      requires verified != null
      modifies this
      ensures Snapshot() == Released(old(Snapshot()), final)
      ensures r == lastConsumed && r == old(verified)
    {
      r := verified;
      history := history + [RecordOf(r.product, final)];
      lastConsumed := r;
      verified := null;
      state := if final then COMPLETE else READY;
    }

    method ConsumeVerified(productId: Text) returns (r: VerifiedProduct?)
      requires Valid()
      modifies this
      ensures Valid()
      ensures r != null <==> CanRelease(old(Snapshot()), productId)
      ensures r != null ==> r == lastConsumed && r == old(verified)
      ensures Snapshot() == Step(config, old(Snapshot()), Op.Consume(productId))
    {
      if state != VERIFIED || verified == null || productId != verified.product.productId {
        return null;
      }
      ReleaseKeeps(config, Snapshot(), productId, false);
      r := Release(false);
    }

    method DiscardRejected(productId: Text) returns (ok: bool)
      requires Valid()
      modifies this
      ensures Valid()
      ensures ok <==> CanDiscard(old(Snapshot()), productId)
      ensures Snapshot() == Step(config, old(Snapshot()), Op.Discard(productId))
    {
      StepKeeps(config, Snapshot(), Op.Discard(productId));
      if state != REJECTED || pending.None? || productId != pending.value.productId {
        return false;
      }
      pending := None;
      state := READY;
      return true;
    }

    method Finalize(productId: Text) returns (r: VerifiedProduct?)
      requires Valid()
      modifies this
      ensures Valid()
      ensures r != null <==> CanRelease(old(Snapshot()), productId)
      ensures r != null ==> r == lastConsumed && r == old(verified)
      ensures Snapshot() == Step(config, old(Snapshot()), Op.Finalize(productId))
    {
      if state != VERIFIED || verified == null || productId != verified.product.productId {
        return null;
      }
      ReleaseKeeps(config, Snapshot(), productId, true);
      r := Release(true);
    }
  }
}
