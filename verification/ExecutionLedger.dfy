/** The host's receipt ledger: one protocol binding before each dispatch, one execution receipt after it, and the
    check that both cover a closed join exactly. */
module ExecutionLedger {
  import opened Contracts
  import opened Sorting
  import opened Grouping
  import opened Records
  import opened Dispatch
  import opened Authority

  /** One entry of the operator plan. */
  datatype Slot = Slot(
    problemId: string, arm: Arm, attempt: nat, protocolDispatch: Digest, dispatchIndex: nat, policy: string,
    eligible: seq<Digest>, selected: Option<Digest>)

  type SlotKey = (string, Arm, nat)

  function KeyOfSlot(s: Slot): SlotKey {
    (s.problemId, s.arm, s.attempt)
  }

  function KeyOfRequest(r: Request): SlotKey {
    (r.problem.nativeId, r.arm, r.attempt)
  }

  /** What the sealed protocol, public manifest and operator plan fix for one run; a production run has a validated
      execution authority. */
  datatype Frame = Frame(
    runId: string, protocolId: string, benchmarkRoot: Digest, runtimeSha: Digest, costPolicy: Digest, manifest: Digest,
    plan: seq<Slot>, production: bool)

  /** The planned slot with this key. */
  function SlotAt(plan: seq<Slot>, key: SlotKey): Option<Slot> {
    if plan == [] then None
    else if KeyOfSlot(plan[|plan| - 1]) == key then Some(plan[|plan| - 1])
    else SlotAt(plan[..|plan| - 1], key)
  }

  /** The request belongs to this run, protocol and manifest, and names the slot's own protocol dispatch. */
  predicate FitsSlot(f: Frame, r: Request) {
    var slot := SlotAt(f.plan, KeyOfRequest(r));
    && slot.Some? && r.runId == f.runId && r.experimentId == f.protocolId && r.benchmarkRoot == f.benchmarkRoot
    && r.runtimeSha == f.runtimeSha && r.budgetSha == f.costPolicy
    && r.protocolDispatchId == Some(slot.value.protocolDispatch) && r.confirmatoryManifest == Some(f.manifest)
  }

  datatype Binding = Binding(
    dispatchId: Digest, entrySha: Digest, requestSha: Digest, problemId: string, identity: Digest, arm: Arm, attempt: nat,
    protocolDispatch: Digest)

  predicate Bindable(f: Frame, e: Entry, r: Request) {
    FitsSlot(f, r) && RequestMatches(e, r)
  }

  function BindingFor(f: Frame, e: Entry, r: Request): Binding
    requires Bindable(f, e, r)
  {
    Binding(e.dispatchId, e.entrySha, r.Sha(), r.problem.nativeId, r.ProblemId(), r.arm, r.attempt,
            SlotAt(f.plan, KeyOfRequest(r)).value.protocolDispatch)
  }

  /** How the execution began: simulated and empty in a draft, or an observed single-use instance in production (whose
      environment the authority fixes). */
  datatype ContextReceipt =
    | EmptyContext(runId: string, dispatchId: Digest, problemId: string, arm: Arm, attempt: nat, requestSha: Digest,
                   protocolDispatch: Digest, manifest: Digest)
    | HermeticContext(runId: string, dispatchId: Digest, problemId: string, arm: Arm, attempt: nat, requestSha: Digest,
                      protocolDispatch: Digest, manifest: Digest, response: Digest, sequence: nat, nonce: string,
                      openedAt: string, closedAt: string)

  /** Which predecessors the frozen graph allows, and which one it fixed. */
  datatype PredecessorReceipt = PredecessorReceipt(
    runId: string, dispatchId: Digest, problemId: string, arm: Arm, attempt: nat, requestSha: Digest,
    protocolDispatch: Digest, manifest: Digest, policy: string, eligible: seq<Digest>, selected: Option<Digest>)

  /** The context receipt is the one this completion of this slot must have. */
  predicate ContextFits(f: Frame, c: Completion, slot: Slot, r: ContextReceipt) {
    var q := c.payload.request;
    if f.production then
      && r.HermeticContext?
      && r == HermeticContext(f.runId, c.dispatchId, q.problem.nativeId, q.arm, q.attempt, q.Sha(), slot.protocolDispatch,
                              f.manifest, c.payload.result.response.content, slot.dispatchIndex, r.nonce, r.openedAt, r.closedAt)
    else
      r == EmptyContext(f.runId, c.dispatchId, q.problem.nativeId, q.arm, q.attempt, q.Sha(), slot.protocolDispatch, f.manifest)
  }

  function PredecessorFor(f: Frame, c: Completion, slot: Slot): PredecessorReceipt {
    var q := c.payload.request;
    PredecessorReceipt(f.runId, c.dispatchId, q.problem.nativeId, q.arm, q.attempt, q.Sha(), slot.protocolDispatch, f.manifest,
                       slot.policy, slot.eligible, slot.selected)
  }

  /** An issued receipt. Its digest stands for all of it, companions included. */
  datatype LedgerReceipt = LedgerReceipt(
    protocolDispatch: Digest, manifest: Digest, runId: string, dispatchId: Digest, completionSha: Digest, requestSha: Digest,
    response: Digest, status: CompletionStatus, verifierReceipt: Option<Digest>, requestBytes: nat, responseBytes: nat,
    verifierMilliseconds: nat, orchestrationMilliseconds: nat, binding: Binding, context: ContextReceipt,
    predecessor: PredecessorReceipt)

  /** The receipt body for a completion: everything but the four parameters is read off the completion. */
  function CompletionBodyOf(
    f: Frame, c: Completion, protocolDispatch: Digest, binding: Binding, context: ContextReceipt,
    predecessor: PredecessorReceipt, orchestration: nat): LedgerReceipt
    requires ValidCompletion(c)
  {
    var p := c.payload;
    LedgerReceipt(
      protocolDispatch, f.manifest, c.runId, c.dispatchId, c.Sha(), p.request.Sha(), p.result.response.content, Status(p),
      if p.receipt.None? then None else Some(ReceiptDigest(p.receipt.value)),
      p.request.artifact.byteLength, p.result.response.byteLength,
      if p.receipt.None? then 0 else p.receipt.value.elapsed, orchestration, binding, context, predecessor)
  }

  /** Recording needs the slot, and a binding made before the dispatch for this very request and entry. */
  predicate Recordable(f: Frame, bindings: map<Digest, Binding>, c: Completion) {
    && ValidCompletion(c) && FitsSlot(f, c.payload.request) && c.dispatchId in bindings
    && bindings[c.dispatchId].requestSha == c.payload.request.Sha() && bindings[c.dispatchId].entrySha == c.entrySha
  }

  /** Both companions are verified for this completion and its slot. */
  predicate Accompanied(f: Frame, c: Completion, context: ContextReceipt, predecessor: PredecessorReceipt) {
    var slot := SlotAt(f.plan, KeyOfRequest(c.payload.request));
    slot.Some? && ContextFits(f, c, slot.value, context) && predecessor == PredecessorFor(f, c, slot.value)
  }

  /** A receipt and both its companions are for one dispatch. */
  predicate ForDispatch(r: LedgerReceipt, id: Digest) {
    r.dispatchId == id && r.binding.dispatchId == id && r.context.dispatchId == id && r.predecessor.dispatchId == id
  }

  /** What every ledger keeps: each receipt, with its companions, is for the dispatch it is stored under. */
  ghost predicate LedgerSound(receipts: map<Digest, LedgerReceipt>) {
    forall id :: id in receipts ==> ForDispatch(receipts[id], id)
  }

  ghost predicate BindingsSound(bindings: map<Digest, Binding>) {
    forall id :: id in bindings ==> bindings[id].dispatchId == id
  }

  /** The stored binding and receipt of one joined dispatch are what its evidence recomputes to. */
  predicate RowVerifies(f: Frame, bindings: map<Digest, Binding>, receipts: map<Digest, LedgerReceipt>, j: Joined) {
    var c := j.completion;
    && ValidCompletion(c) && c.dispatchId in bindings && c.dispatchId in receipts
    && Bindable(f, j.entry, c.payload.request) && bindings[c.dispatchId] == BindingFor(f, j.entry, c.payload.request)
    && var r := receipts[c.dispatchId];
       r == CompletionBodyOf(f, c, r.protocolDispatch, bindings[c.dispatchId], r.context, r.predecessor, r.orchestrationMilliseconds)
  }

  function DispatchOf(j: Joined): Digest {
    j.completion.dispatchId
  }

  ghost predicate CoversJoin(f: Frame, bindings: map<Digest, Binding>, receipts: map<Digest, LedgerReceipt>, join: Join) {
    && join.receipt.runId == f.runId
    && SameKeys(bindings, Map(DispatchOf, join.joined)) && SameKeys(receipts, Map(DispatchOf, join.joined))
    && (forall i: nat :: i < |join.joined| ==> RowVerifies(f, bindings, receipts, join.joined[i]))
  }

  method CheckRows(f: Frame, bindings: map<Digest, Binding>, receipts: map<Digest, LedgerReceipt>, joined: seq<Joined>) returns (ok: bool)
    ensures ok <==> forall i: nat :: i < |joined| ==> RowVerifies(f, bindings, receipts, joined[i])
  {
    var test := (i: nat) => i < |joined| && RowVerifies(f, bindings, receipts, joined[i]);
    ok := AllPass(|joined|, test);
    assert forall i: nat :: i < |joined| ==> (RowVerifies(f, bindings, receipts, joined[i]) <==> test(i));
  }

  class ExecutionLedgerAuthority {
    const frame: Frame
    var bindings: map<Digest, Binding>
    var receipts: map<Digest, LedgerReceipt>

    var nonces: set<string>
    var sequences: set<nat>

    ghost predicate Valid()
      reads this
    {
      LedgerSound(receipts) && BindingsSound(bindings)
    }

    /** Instance nonces are unique over all runs in the file; `used` are those of other runs. */
    constructor (frame: Frame, used: set<string>)
      ensures Valid() && this.frame == frame && bindings == map[] && receipts == map[] && nonces == used && sequences == {}
    {
      this.frame := frame;
      bindings, receipts, nonces, sequences := map[], map[], used, {};
    }

    /** Binds a registered dispatch to its protocol slot, once. */
    method RegisterDispatch(e: Entry, r: Request) returns (ok: bool)
      requires Valid()
      modifies this`bindings
      ensures Valid()
      ensures ok <==> Bindable(frame, e, r) && e.dispatchId !in old(bindings)
      ensures ok ==> bindings == old(bindings)[e.dispatchId := BindingFor(frame, e, r)]
      ensures !ok ==> bindings == old(bindings)
    {
      if !Bindable(frame, e, r) || e.dispatchId in bindings {
        return false;
      }
      bindings := bindings[e.dispatchId := BindingFor(frame, e, r)];
      return true;
    }

    /** No instance and no sequence number serves twice. */
    predicate NewInstance(context: ContextReceipt)
      reads this
    {
      context.HermeticContext? ==> context.nonce !in nonces && context.sequence !in sequences
    }

    /** Issues one receipt per dispatch, for verified companions and an instance never used before. */
    method RecordCompletion(c: Completion, context: ContextReceipt, predecessor: PredecessorReceipt, orchestration: nat)
      returns (ok: bool)
      requires Valid()
      modifies this`receipts, this`nonces, this`sequences
      ensures Valid()
      ensures ok <==>
        && Recordable(frame, bindings, c) && Accompanied(frame, c, context, predecessor)
        && c.dispatchId !in old(receipts) && old(NewInstance(context))
      ensures ok ==> receipts == old(receipts)[c.dispatchId :=
        CompletionBodyOf(frame, c, SlotAt(frame.plan, KeyOfRequest(c.payload.request)).value.protocolDispatch,
                         bindings[c.dispatchId], context, predecessor, orchestration)]
      ensures nonces == old(nonces) + (if ok && context.HermeticContext? then {context.nonce} else {})
      ensures sequences == old(sequences) + (if ok && context.HermeticContext? then {context.sequence} else {})
      ensures !ok ==> receipts == old(receipts)
    {
      if !Recordable(frame, bindings, c) || !Accompanied(frame, c, context, predecessor) {
        return false;
      }
      if c.dispatchId in receipts || !NewInstance(context) {
        return false;
      }
      var slot := SlotAt(frame.plan, KeyOfRequest(c.payload.request)).value;
      receipts := receipts[c.dispatchId :=
        CompletionBodyOf(frame, c, slot.protocolDispatch, bindings[c.dispatchId], context, predecessor, orchestration)];
      if context.HermeticContext? {
        nonces, sequences := nonces + {context.nonce}, sequences + {context.sequence};
      }
      return true;
    }

    /** The ordered receipts, if bindings and receipts cover the join exactly and each recomputes. */
    method VerifyCompleteJoin(join: Join) returns (r: Result<seq<LedgerReceipt>>)
      ensures r.Ok? <==> CoversJoin(frame, bindings, receipts, join)
      ensures r.Ok? ==> r.value == Lookups(receipts, Map(DispatchOf, join.joined))
    {
      if join.receipt.runId != frame.runId {
        return Raised;
      }
      var ids := Map(DispatchOf, join.joined);
      var bound := CheckKeys(bindings, ids);
      var issued := CheckKeys(receipts, ids);
      if !bound || !issued {
        return Raised;
      }
      var ok := CheckRows(frame, bindings, receipts, join.joined);
      if !ok {
        return Raised;
      }
      return Ok(Lookups(receipts, ids));
    }
  }
}
