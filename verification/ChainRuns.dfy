/** Runs of verified-chain steps beside any other attempts: ancestry, retries and the write-once ledger. */
module ChainRuns {
  import opened Contracts
  import opened Sorting
  import opened OneTimeSignature
  import opened Records
  import opened Dispatch
  import opened Authority
  import opened Executor
  import opened ExecutorRuns
  import opened ChainStep

  datatype Step = Step(
    presented: Manifest, request: Request, prompt: Bytes, products: seq<Product>, retry: Option<Completion>,
    key: SigningKey, model: ChainPort, verifier: VerifierPort)

  /** The marker of product emissions, and the canonical bytes of a step's visible request. */
  datatype Setting = Setting(
    sha: HashFunction, encode: Body -> Bytes, runId: string, marker: Marker,
    render: (Bytes, seq<Product>, Option<Completion>) -> Bytes)

  function AsAttempt(x: Setting, step: Step): Attempt {
    Attempt(VerifiedChain, step.presented, step.request, x.render(step.prompt, step.products, step.retry), step.key,
            (e: Entry, b: Bytes) => Adapt(x.marker, step.model(e, b)), step.verifier)
  }

  /** In the presented manifest, stored in the authority, and good against the stored request. */
  predicate Authentic(check: Check, presented: Manifest, db: Rows, c: Completion) {
    var m := Find(presented.entries, c.dispatchId);
    var n := Find(db.entries, c.dispatchId);
    && m.Some? && m.value < |presented.entries| && presented.entries[m.value].entrySha == c.entrySha
    && n.Some? && n.value < |db.requests| && check(presented.entries[m.value], c, db.requests[n.value])
  }

  function StoredRequest(db: Rows, c: Completion): Request
    requires Find(db.entries, c.dispatchId).Some? && Find(db.entries, c.dispatchId).value < |db.requests|
  {
    db.requests[Find(db.entries, c.dispatchId).value]
  }

  predicate ProductOk(check: Check, marker: Marker, ledger: Ledger, db: Rows, step: Step, p: Product) {
    && ValidProduct(marker, p) && p.completion.payload.request.attempt < step.request.attempt
    && Recorded(ledger, p.completion, true)
    && Authentic(check, step.presented, db, p.completion)
    && SameCell(StoredRequest(db, p.completion), step.request)
  }

  predicate RetryOk(check: Check, ledger: Ledger, db: Rows, step: Step, c: Completion) {
    && ValidRetry(c) && Recorded(ledger, c, false)
    && c.payload.request.attempt + 1 == step.request.attempt
    && Authentic(check, step.presented, db, c)
    && SameCell(StoredRequest(db, c), step.request)
  }

  function ProductId(p: Product): Digest {
    p.Id()
  }

  function ProducerId(p: Product): Digest {
    p.completion.dispatchId
  }

  ghost predicate Admissible(check: Check, marker: Marker, ledger: Ledger, db: Rows, step: Step) {
    && step.request.arm == VerifiedChain && ManifestOk(step.presented)
    && Distinct(Map(ProductId, step.products)) && Distinct(Map(ProducerId, step.products))
    && (forall i :: 0 <= i < |step.products| ==> ProductOk(check, marker, ledger, db, step, step.products[i]))
    && (step.retry.Some? ==> RetryOk(check, ledger, db, step, step.retry.value))
  }

  /** A recorded step: its completion, what it was shown, what it retried, and how it was classified. */
  datatype Executed = Executed(
    completion: Completion, products: seq<Product>, retry: Option<Completion>, admitted: bool, terminal: bool)
  {
    function Req(): Request {
      completion.payload.request
    }
  }

  datatype State = State(held: Held, ledger: Ledger, log: seq<Executed>)

  datatype Call = ChainCall(step: Step) | OtherAttempt(attempt: Attempt)

  /** How the step's new completion is logged. */
  function Logged(x: Setting, step: Step, entry: Entry, c: Completion): Executed {
    var outcome := step.model(entry, x.render(step.prompt, step.products, step.retry));
    Executed(c, step.products, step.retry, AdmitsProduct(x.marker, outcome, c), TerminalAnswer(x.marker, outcome, c))
  }

  function Record(s: State, held: Held, e: Executed): State {
    if Recordable(s.ledger, e.completion, e.admitted)
    then State(held, s.ledger[e.completion.dispatchId := RowFor(e.completion, e.admitted)], s.log + [e])
    else State(held, s.ledger, s.log)
  }

  ghost function CheckOf(x: Setting): Check {
    CompletionCheck(OneTime(x.sha, x.encode))
  }

  ghost function AfterCall(x: Setting, s: State, call: Call): State {
    match call
    case OtherAttempt(a) => s.(held := After(x.sha, x.encode, x.runId, s.held, a))
    case ChainCall(step) =>
      if !Admissible(CheckOf(x), x.marker, s.ledger, s.held.db, step) then s
      else
        var a := AsAttempt(x, step);
        var held := After(x.sha, x.encode, x.runId, s.held, a);
        if |held.completions| == |s.held.completions| then s.(held := held)
        else
          var c := held.completions[|held.completions| - 1];
          Record(s, held, Logged(x, step, EntryOf(x.sha, x.runId, s.held.db, a), c))
  }

  // ---- invariants ----

  predicate ParentOf(parent: Executed, child: Executed, c: Completion) {
    && parent.completion == c && SameCell(parent.Req(), child.Req())
    && parent.Req().attempt < child.Req().attempt
  }

  ghost predicate ProductGrounded(before: seq<Executed>, e: Executed, p: Product) {
    exists j :: 0 <= j < |before| && ParentOf(before[j], e, p.completion) && before[j].admitted
  }

  ghost predicate RetryGrounded(before: seq<Executed>, e: Executed, c: Completion) {
    exists j :: 0 <= j < |before| && ParentOf(before[j], e, c) && before[j].Req().attempt + 1 == e.Req().attempt
                && !Passed(before[j].completion)
  }

  /** Every product shown was logged before, as admitted; a retry steps back one attempt to a step that did not pass. */
  ghost predicate Grounded(before: seq<Executed>, e: Executed) {
    && (forall k :: 0 <= k < |e.products| ==> ProductGrounded(before, e, e.products[k]))
    && (e.retry.Some? ==> RetryGrounded(before, e, e.retry.value))
  }

  predicate Classified(e: Executed) {
    && e.Req().arm == VerifiedChain && !(e.admitted && e.terminal)
    && (Passed(e.completion) <==> e.admitted || e.terminal)
  }

  ghost predicate History(log: seq<Executed>) {
    log == [] ||
    var n := |log| - 1;
    History(log[..n]) && Grounded(log[..n], log[n]) && Classified(log[n])
  }

  predicate InLedger(ledger: Ledger, e: Executed) {
    e.completion.dispatchId in ledger && ledger[e.completion.dispatchId] == RowFor(e.completion, e.admitted)
  }

  ghost predicate LoggedId(log: seq<Executed>, id: Digest) {
    exists i :: 0 <= i < |log| && log[i].completion.dispatchId == id
  }

  /** The ledger holds a row for each logged step and no others. */
  ghost predicate LedgerOk(ledger: Ledger, log: seq<Executed>) {
    && (forall i :: 0 <= i < |log| ==> InLedger(ledger, log[i]))
    && (forall id :: id in ledger ==> LoggedId(log, id))
  }

  lemma SameDigestSameCompletion(c: Completion, d: Completion)
    requires c.Sha() == d.Sha()
    ensures c == d
  {
  }

  /** A recorded completion is the one logged under its dispatch. */
  lemma {:induction false} RecordedIsLogged(ledger: Ledger, log: seq<Executed>, c: Completion, asProduct: bool) returns (j: nat)
    requires LedgerOk(ledger, log) && Recorded(ledger, c, asProduct)
    ensures j < |log| && log[j].completion == c && (asProduct ==> log[j].admitted)
  {
    assert LoggedId(log, c.dispatchId);
    j :| 0 <= j < |log| && log[j].completion.dispatchId == c.dispatchId;
    assert InLedger(ledger, log[j]);
    SameDigestSameCompletion(c, log[j].completion);
  }

  lemma {:induction false} RecordKeepsLedger(ledger: Ledger, log: seq<Executed>, e: Executed)
    requires LedgerOk(ledger, log) && Recordable(ledger, e.completion, e.admitted)
    ensures LedgerOk(ledger[e.completion.dispatchId := RowFor(e.completion, e.admitted)], log + [e])
  {
    var all, ledger' := log + [e], ledger[e.completion.dispatchId := RowFor(e.completion, e.admitted)];
    forall i | 0 <= i < |all| ensures InLedger(ledger', all[i]) {
      if i < |log| {
        assert all[i] == log[i] && InLedger(ledger, log[i]);
      }
    }
    forall id | id in ledger' ensures LoggedId(all, id) {
      if id in ledger {
        assert LoggedId(log, id);
        var i :| 0 <= i < |log| && log[i].completion.dispatchId == id;
        assert all[i] == log[i];
      } else {
        assert all[|log|] == e;
      }
    }
  }

  lemma {:induction false} HistoryGrows(log: seq<Executed>, e: Executed)
    requires History(log) && Grounded(log, e) && Classified(e)
    ensures History(log + [e])
  {
    assert (log + [e])[..|log|] == log;
  }

  // ---- one call keeps it all ----

  lemma {:induction false} AuthenticRequest(k: Crypto, presented: Manifest, db: Rows, c: Completion)
    requires Authentic(CompletionCheck(k), presented, db, c)
    ensures StoredRequest(db, c) == c.payload.request
  {
  }

  lemma {:induction false} ProductIsGrounded(
    k: Crypto, marker: Marker, ledger: Ledger, db: Rows, log: seq<Executed>, step: Step, e: Executed, p: Product)
    requires LedgerOk(ledger, log) && ProductOk(CompletionCheck(k), marker, ledger, db, step, p) && e.Req() == step.request
    ensures ProductGrounded(log, e, p)
  {
    AuthenticRequest(k, step.presented, db, p.completion);
    var j := RecordedIsLogged(ledger, log, p.completion, true);
    assert ParentOf(log[j], e, p.completion) && log[j].admitted;
  }

  lemma {:induction false} RetryIsGrounded(
    k: Crypto, ledger: Ledger, db: Rows, log: seq<Executed>, step: Step, e: Executed, c: Completion)
    requires LedgerOk(ledger, log) && RetryOk(CompletionCheck(k), ledger, db, step, c) && e.Req() == step.request
    ensures RetryGrounded(log, e, c)
  {
    AuthenticRequest(k, step.presented, db, c);
    var j := RecordedIsLogged(ledger, log, c, false);
    NotPassed(c);
    assert ParentOf(log[j], e, c) && log[j].Req().attempt + 1 == e.Req().attempt && !Passed(log[j].completion);
  }

  lemma NotPassed(c: Completion)
    requires ValidRetry(c)
    ensures !Passed(c)
  {
  }

  lemma {:induction false} StepIsGrounded(
    k: Crypto, marker: Marker, ledger: Ledger, db: Rows, log: seq<Executed>, step: Step, e: Executed)
    requires LedgerOk(ledger, log) && Admissible(CompletionCheck(k), marker, ledger, db, step)
    requires e.Req() == step.request && e.products == step.products && e.retry == step.retry
    ensures Grounded(log, e)
  {
    forall i | 0 <= i < |e.products| ensures ProductGrounded(log, e, e.products[i]) {
      ProductIsGrounded(k, marker, ledger, db, log, step, e, step.products[i]);
    }
    if step.retry.Some? {
      RetryIsGrounded(k, ledger, db, log, step, e, step.retry.value);
    }
  }

  /** If an attempt adds a completion, it is the signed payload of its own new entry. */
  lemma {:induction false} AddedCompletion(x: Setting, held: Held, a: Attempt)
    requires |After(x.sha, x.encode, x.runId, held, a).completions| != |held.completions|
    ensures Registers(x.sha, x.runId, held.db, a)
    ensures var entry := EntryOf(x.sha, x.runId, held.db, a);
      var after := After(x.sha, x.encode, x.runId, held, a).completions;
      && PayloadOf(a, entry).Ok? && |after| == |held.completions| + 1
      && after[|held.completions|].payload == PayloadOf(a, entry).value
      && after[|held.completions|].dispatchId == entry.dispatchId
  {
  }

  lemma {:induction false} LoggedIsClassified(x: Setting, held: Held, step: Step, c: Completion)
    requires step.request.arm == VerifiedChain && Registers(x.sha, x.runId, held.db, AsAttempt(x, step))
    requires var entry := EntryOf(x.sha, x.runId, held.db, AsAttempt(x, step));
      PayloadOf(AsAttempt(x, step), entry) == Ok(c.payload) && c.dispatchId == entry.dispatchId
    ensures var e := Logged(x, step, EntryOf(x.sha, x.runId, held.db, AsAttempt(x, step)), c);
      Classified(e) && e.Req() == step.request && e.products == step.products && e.retry == step.retry
  {
    var a := AsAttempt(x, step);
    var entry := EntryOf(x.sha, x.runId, held.db, a);
    PassIsClassified(x.marker, a, entry, step.model(entry, a.requestUtf8), c);
  }

  function LogId(e: Executed): Digest {
    e.completion.dispatchId
  }

  /** No dispatch is logged twice. */
  ghost predicate LoggedOnce(log: seq<Executed>) {
    Distinct(Map(LogId, log))
  }

  lemma {:induction false} LogNewId(ledger: Ledger, log: seq<Executed>, e: Executed)
    requires LedgerOk(ledger, log) && LoggedOnce(log) && e.completion.dispatchId !in ledger
    ensures LoggedOnce(log + [e])
  {
    MapAppend(LogId, log, e);
    DistinctSnoc(Map(LogId, log), LogId(e));
    forall i | 0 <= i < |log| ensures Map(LogId, log)[i] != LogId(e) {
      assert InLedger(ledger, log[i]);
    }
  }

  lemma {:induction false} LoggedPlace(log: seq<Executed>, i: nat, j: nat)
    requires LoggedOnce(log) && i < |log| && j < |log| && log[i].completion == log[j].completion
    ensures i == j
  {
    var ids := Map(LogId, log);
    assert ids[i] == ids[j];
  }

  /** Ledger keys are registered dispatches of this run. */
  predicate KeysRegistered(ledger: Ledger, entries: seq<Entry>) {
    forall id :: id in ledger ==> id in DispatchIds(entries)
  }

  ghost predicate StateOk(x: Setting, s: State) {
    && HeldOk(CheckOf(x), x.runId, s.held) && LedgerOk(s.ledger, s.log) && History(s.log) && LoggedOnce(s.log)
    && KeysRegistered(s.ledger, s.held.db.entries)
  }

  /** A dispatch id just registered is in no ledger row yet. */
  lemma {:induction false} NewIdUnrecorded(x: Setting, s: State, a: Attempt)
    requires Chain(x.runId, s.held.db.entries) && KeysRegistered(s.ledger, s.held.db.entries)
    requires Registers(x.sha, x.runId, s.held.db, a)
    ensures EntryOf(x.sha, x.runId, s.held.db, a).dispatchId !in s.ledger
  {
    var entries, entry := s.held.db.entries, EntryOf(x.sha, x.runId, s.held.db, a);
    AppendKeepsChain(x.runId, entries, a.request, Commitment(x.sha, a));
    Dispatch.ChainStep(x.runId, entries, entry);
    ApartBySets(entries, entry);
  }

  lemma {:induction false} KeysStayRegistered(x: Setting, s: State, a: Attempt)
    requires KeysRegistered(s.ledger, s.held.db.entries)
    ensures KeysRegistered(s.ledger, After(x.sha, x.encode, x.runId, s.held, a).db.entries)
    ensures Registers(x.sha, x.runId, s.held.db, a) ==>
      EntryOf(x.sha, x.runId, s.held.db, a).dispatchId in DispatchIds(After(x.sha, x.encode, x.runId, s.held, a).db.entries)
  {
    OneEntryEach(x.sha, x.encode, x.runId, s.held, a);
    if Registers(x.sha, x.runId, s.held.db, a) {
      SetsStep(s.held.db.entries, EntryOf(x.sha, x.runId, s.held.db, a));
    }
  }

  /** An admissible step that completes. */
  ghost predicate Completes(x: Setting, s: State, step: Step) {
    && Admissible(CheckOf(x), x.marker, s.ledger, s.held.db, step)
    && |After(x.sha, x.encode, x.runId, s.held, AsAttempt(x, step)).completions| != |s.held.completions|
  }

  ghost function NewLog(x: Setting, s: State, step: Step): Executed
    requires Completes(x, s, step)
  {
    var a := AsAttempt(x, step);
    var completions := After(x.sha, x.encode, x.runId, s.held, a).completions;
    AddedCompletion(x, s.held, a);
    Logged(x, step, EntryOf(x.sha, x.runId, s.held.db, a), completions[|completions| - 1])
  }

  lemma {:induction false} NewLogIsGood(x: Setting, s: State, step: Step)
    requires LedgerOk(s.ledger, s.log) && Completes(x, s, step)
    requires Chain(x.runId, s.held.db.entries) && KeysRegistered(s.ledger, s.held.db.entries)
    ensures var e := NewLog(x, s, step);
      && Grounded(s.log, e) && Classified(e) && Recordable(s.ledger, e.completion, e.admitted)
      && e.completion.dispatchId !in s.ledger
      && e.completion.dispatchId in DispatchIds(After(x.sha, x.encode, x.runId, s.held, AsAttempt(x, step)).db.entries)
  {
    var a := AsAttempt(x, step);
    var e := NewLog(x, s, step);
    AddedCompletion(x, s.held, a);
    LoggedIsClassified(x, s.held, step, e.completion);
    StepIsGrounded(OneTime(x.sha, x.encode), x.marker, s.ledger, s.held.db, s.log, step, e);
    NewIdUnrecorded(x, s, a);
    KeysStayRegistered(x, s, a);
  }

  /** The ledger always accepts a completed step: its row is new. */
  lemma {:induction false} CompletedIsRecorded(x: Setting, s: State, step: Step)
    requires StateOk(x, s) && Completes(x, s, step)
    ensures var e := NewLog(x, s, step);
      AfterCall(x, s, ChainCall(step)) ==
        State(After(x.sha, x.encode, x.runId, s.held, AsAttempt(x, step)),
              s.ledger[e.completion.dispatchId := RowFor(e.completion, e.admitted)], s.log + [e])
  {
    NewLogIsGood(x, s, step);
    AddedCompletion(x, s.held, AsAttempt(x, step));
  }

  lemma {:induction false} RecordKeeps(x: Setting, s: State, step: Step)
    requires StateOk(x, s) && Completes(x, s, step)
    ensures StateOk(x, AfterCall(x, s, ChainCall(step)))
  {
    var e := NewLog(x, s, step);
    CompletedIsRecorded(x, s, step);
    NewLogIsGood(x, s, step);
    AfterKeeps(x.sha, x.encode, x.runId, s.held, AsAttempt(x, step));
    RecordKeepsLedger(s.ledger, s.log, e);
    LogNewId(s.ledger, s.log, e);
    HistoryGrows(s.log, e);
    KeysStayRegistered(x, s, AsAttempt(x, step));
  }

  lemma {:induction false} AttemptKeeps(x: Setting, s: State, a: Attempt)
    requires StateOk(x, s)
    ensures StateOk(x, s.(held := After(x.sha, x.encode, x.runId, s.held, a)))
  {
    AfterKeeps(x.sha, x.encode, x.runId, s.held, a);
    KeysStayRegistered(x, s, a);
  }

  lemma {:induction false} CallKeeps(x: Setting, s: State, call: Call)
    requires StateOk(x, s)
    ensures StateOk(x, AfterCall(x, s, call))
  {
    match call
    case OtherAttempt(a) => AttemptKeeps(x, s, a);
    case ChainCall(step) =>
      if Completes(x, s, step) {
        RecordKeeps(x, s, step);
      } else {
        AttemptKeeps(x, s, AsAttempt(x, step));
      }
  }

  /** Rows and log entries, once written, stay as they are. */
  ghost predicate WrittenOnce(before: State, after: State) {
    && before.log <= after.log
    && forall id :: id in before.ledger ==> id in after.ledger && after.ledger[id] == before.ledger[id]
  }

  lemma {:induction false} RecordWritesOnce(s: State, held: Held, e: Executed)
    ensures WrittenOnce(s, Record(s, held, e)) && Record(s, held, e).held == held
  {
  }

  lemma {:induction false} SameWritesOnce(s: State, held: Held)
    ensures WrittenOnce(s, s.(held := held))
  {
  }

  lemma {:induction false} CallWritesOnce(x: Setting, s: State, call: Call)
    ensures WrittenOnce(s, AfterCall(x, s, call))
  {
    match call
    case OtherAttempt(a) => SameWritesOnce(s, After(x.sha, x.encode, x.runId, s.held, a));
    case ChainCall(step) => StepWritesOnce(x, s, step);
  }

  lemma {:induction false} StepWritesOnce(x: Setting, s: State, step: Step)
    ensures WrittenOnce(s, AfterCall(x, s, ChainCall(step)))
  {
    if Admissible(CheckOf(x), x.marker, s.ledger, s.held.db, step) {
      var a := AsAttempt(x, step);
      var held := After(x.sha, x.encode, x.runId, s.held, a);
      SameWritesOnce(s, held);
      if |held.completions| != |s.held.completions| {
        AddedCompletion(x, s.held, a);
        RecordWritesOnce(s, held, Logged(x, step, EntryOf(x.sha, x.runId, s.held.db, a), held.completions[|held.completions| - 1]));
      }
    }
  }

  ghost function AfterCalls(x: Setting, s: State, calls: seq<Call>): State
    decreases |calls|
  {
    if calls == [] then s else AfterCalls(x, AfterCall(x, s, calls[0]), calls[1..])
  }

  lemma {:induction false} StateKept(x: Setting, s: State, calls: seq<Call>)
    requires StateOk(x, s)
    ensures StateOk(x, AfterCalls(x, s, calls))
    decreases |calls|
  {
    if calls != [] {
      CallKeeps(x, s, calls[0]);
      StateKept(x, AfterCall(x, s, calls[0]), calls[1..]);
    }
  }

  lemma {:induction false} WrittenOnceThrough(a: State, b: State, c: State)
    requires WrittenOnce(a, b) && WrittenOnce(b, c)
    ensures WrittenOnce(a, c)
  {
  }

  lemma {:induction false} RowsKept(x: Setting, s: State, calls: seq<Call>)
    ensures WrittenOnce(s, AfterCalls(x, s, calls))
    decreases |calls|
  {
    if calls != [] {
      var t := AfterCall(x, s, calls[0]);
      CallWritesOnce(x, s, calls[0]);
      RowsKept(x, t, calls[1..]);
      WrittenOnceThrough(s, t, AfterCalls(x, t, calls[1..]));
    }
  }

  /** Over every interleaving of chain steps and other attempts. */
  lemma {:induction false} ChainRunSafety(x: Setting, s: State, calls: seq<Call>)
    requires StateOk(x, s)
    ensures StateOk(x, AfterCalls(x, s, calls))
    ensures WrittenOnce(s, AfterCalls(x, s, calls))
  {
    StateKept(x, s, calls);
    RowsKept(x, s, calls);
  }

  function InitialState(x: Setting): State {
    State(Held(InitialRows(x.runId), [], []), map[], [])
  }

  lemma {:induction false} InitialStateOk(x: Setting)
    ensures StateOk(x, InitialState(x))
  {
    InitiallyConsistent(CheckOf(x), x.runId);
  }

  // ---- ancestry ----

  /** `c` was shown to the step as a product, or is the one it retries. */
  ghost predicate Parent(c: Completion, e: Executed) {
    e.retry == Some(c) || exists k :: 0 <= k < |e.products| && e.products[k].completion == c
  }

  lemma {:induction false} HistoryPrefix(log: seq<Executed>, n: nat)
    requires History(log) && n <= |log|
    ensures History(log[..n])
    decreases |log|
  {
    if n < |log| {
      HistoryPrefix(log[..|log| - 1], n);
      TakeTake(log, |log| - 1, n);
    } else {
      TakeAll(log);
    }
  }

  /** Whatever a step was shown or retried is a logged step before it, of its cell, at a smaller attempt. */
  lemma {:induction false} ParentIsEarlier(log: seq<Executed>, i: nat, c: Completion) returns (j: nat)
    requires History(log) && i < |log| && Parent(c, log[i])
    ensures j < i && ParentOf(log[j], log[i], c)
  {
    HistoryAt(log, i);
    ghost var before := log[..i];
    if log[i].retry == Some(c) {
      assert RetryGrounded(before, log[i], c);
      j :| 0 <= j < |before| && ParentOf(before[j], log[i], c);
    } else {
      var k :| 0 <= k < |log[i].products| && log[i].products[k].completion == c;
      assert ProductGrounded(before, log[i], log[i].products[k]);
      j :| 0 <= j < |before| && ParentOf(before[j], log[i], c);
    }
  }

  /** The completion is one of a logged step. */
  ghost predicate LoggedAs(log: seq<Executed>, c: Completion, i: nat) {
    i < |log| && log[i].completion == c
  }

  /** The completion `parent` was shown to, or retried by, the logged step with completion `child`. */
  ghost predicate ParentOfLogged(log: seq<Executed>, parent: Completion, child: Completion) {
    exists i: nat :: LoggedAs(log, child, i) && Parent(parent, log[i])
  }

  /** A line of ancestors: it begins with a logged step, and each completion is a parent of the one before it.
      Nothing is asked of the ancestors themselves. */
  ghost predicate Lineage(log: seq<Executed>, path: seq<Completion>) {
    && (path != [] ==> exists i: nat :: LoggedAs(log, path[0], i))
    && (forall k :: 0 < k < |path| ==> ParentOfLogged(log, path[k], path[k - 1]))
  }

  /** What holds of ancestor `k`, logged at `i`: its cell is that of the descendant, and its attempt at least `k` smaller. */
  ghost predicate Ancestor(log: seq<Executed>, path: seq<Completion>, k: nat, i: nat)
    requires k < |path|
  {
    && LoggedAs(log, path[k], i)
    && SameCell(path[k].payload.request, path[0].payload.request)
    && path[k].payload.request.attempt + k <= path[0].payload.request.attempt
  }

  lemma {:induction false} LineageStep(log: seq<Executed>, path: seq<Completion>, k: nat, i: nat) returns (j: nat)
    requires History(log) && LoggedOnce(log) && Lineage(log, path) && k + 1 < |path| && Ancestor(log, path, k, i)
    ensures j < i && Ancestor(log, path, k + 1, j)
  {
    assert ParentOfLogged(log, path[k + 1], path[k]);
    var l: nat :| LoggedAs(log, path[k], l) && Parent(path[k + 1], log[l]);
    LoggedPlace(log, i, l);
    j := ParentIsEarlier(log, i, path[k + 1]);
  }

  /** The places in the log of a line's first completions: each is an ancestor, logged before the one it descends to. */
  ghost predicate Placed(log: seq<Executed>, path: seq<Completion>, places: seq<nat>) {
    places == [] ||
    var n := |places| - 1;
    && n < |path| && Placed(log, path, places[..n]) && Ancestor(log, path, n, places[n])
    && (n > 0 ==> places[n] < places[n - 1])
  }

  lemma {:induction false} PlacedSnoc(log: seq<Executed>, path: seq<Completion>, places: seq<nat>, j: nat)
    requires Placed(log, path, places) && |places| < |path| && Ancestor(log, path, |places|, j)
    requires places != [] ==> j < places[|places| - 1]
    ensures Placed(log, path, places + [j])
  {
    AppendLast(places, j);
  }

  /** Every ancestor is a logged step, in the frozen cell of the first; places in the log and attempts strictly fall,
      so every line of ancestors ends. */
  lemma {:induction false} AncestryIsWellFounded(log: seq<Executed>, path: seq<Completion>, k: nat) returns (places: seq<nat>)
    requires History(log) && LoggedOnce(log) && Lineage(log, path) && k < |path|
    ensures |places| == k + 1 && Placed(log, path, places)
  {
    if k == 0 {
      var i: nat :| LoggedAs(log, path[0], i);
      PlacedSnoc(log, path, [], i);
      places := [] + [i];
    } else {
      places := AncestryIsWellFounded(log, path, k - 1);
      var j := LineageStep(log, path, k - 1, places[k - 1]);
      PlacedSnoc(log, path, places, j);
      places := places + [j];
    }
  }

  lemma {:induction false} PlacedFalls(log: seq<Executed>, path: seq<Completion>, places: seq<nat>)
    requires Placed(log, path, places) && places != []
    ensures places[|places| - 1] + (|places| - 1) <= places[0] && LoggedAs(log, path[0], places[0])
  {
    var n := |places| - 1;
    if n > 0 {
      PlacedFalls(log, path, places[..n]);
    }
  }

  lemma {:induction false} LoggedIsRecorded(ledger: Ledger, log: seq<Executed>, c: Completion, i: nat)
    requires LedgerOk(ledger, log) && LoggedAs(log, c, i)
    ensures Recorded(ledger, c, false)
  {
    assert InLedger(ledger, log[i]);
  }

  /** In every reachable state, follow what a logged step was shown or retried, and what those were, to any depth: each
      completion met is that of an earlier logged step, recorded in the ledger, of the same frozen cell, and its attempt
      is smaller by at least its depth. */
  lemma {:induction false} AncestorsAreRecorded(x: Setting, calls: seq<Call>, path: seq<Completion>, k: nat) returns (place: nat)
    requires Lineage(AfterCalls(x, InitialState(x), calls).log, path) && k < |path|
    ensures var s := AfterCalls(x, InitialState(x), calls);
      Ancestor(s.log, path, k, place) && Recorded(s.ledger, path[k], false)
    ensures k > 0 ==> exists i: nat :: LoggedAs(AfterCalls(x, InitialState(x), calls).log, path[0], i) && place < i
  {
    var s := AfterCalls(x, InitialState(x), calls);
    InitialStateOk(x);
    ChainRunSafety(x, InitialState(x), calls);
    var places := AncestryIsWellFounded(s.log, path, k);
    place := places[k];
    LoggedIsRecorded(s.ledger, s.log, path[k], place);
    PlacedFalls(s.log, path, places);
  }

  /** In every reachable state: a step passed exactly when it is an admitted product or a terminal answer, not both;
      each product it was shown was logged before it as admitted, so it passed; a retry steps back exactly one
      attempt, to a logged step that did not pass. */
  lemma {:induction false} LoggedStepsAreSound(x: Setting, calls: seq<Call>, i: nat)
    requires i < |AfterCalls(x, InitialState(x), calls).log|
    ensures var log := AfterCalls(x, InitialState(x), calls).log;
      Classified(log[i]) && Grounded(log[..i], log[i])
  {
    ReachableHistory(x, calls);
    HistoryAt(AfterCalls(x, InitialState(x), calls).log, i);
  }

  lemma {:induction false} ReachableHistory(x: Setting, calls: seq<Call>)
    ensures History(AfterCalls(x, InitialState(x), calls).log)
  {
    InitialStateOk(x);
    ChainRunSafety(x, InitialState(x), calls);
  }

  lemma {:induction false} HistoryAt(log: seq<Executed>, i: nat)
    requires History(log) && i < |log|
    ensures Classified(log[i]) && Grounded(log[..i], log[i])
  {
    HistoryPrefix(log, i + 1);
    TakeTake(log, i + 1, i);
    assert log[..i + 1][i] == log[i];
  }
}
