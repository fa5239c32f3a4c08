/** The executable verified-chain step: the admission loop with its sets, the baseline attempt, classification and
    the ledger, as `ChainRuns.AfterCall` describes them. */
module ChainAdapter {
  import opened Contracts
  import opened Sorting
  import opened Grouping
  import opened OneTimeSignature
  import opened Records
  import opened Dispatch
  import opened Authority
  import opened Executor
  import opened ExecutorRuns
  import opened BaselineAdapter
  import opened ChainStep
  import opened ChainRuns

  method CheckRetry(k: Crypto, ledger: ExecutionLedger, db: Rows, step: Step, c: Completion) returns (ok: bool)
    ensures ok <==> RetryOk(CompletionCheck(k), ledger.rows, db, step, c)
  {
    if !ValidRetry(c) {
      return false;
    }
    var recorded := ledger.VerifyRecord(c, false);
    if !recorded || c.payload.request.attempt + 1 != step.request.attempt {
      return false;
    }
    var check := CompletionCheck(k);
    return Authentic(check, step.presented, db, c) && SameCell(StoredRequest(db, c), step.request);
  }

  predicate ProductAt(check: Check, marker: Marker, ledger: Ledger, db: Rows, step: Step, i: nat) {
    i < |step.products| && ProductOk(check, marker, ledger, db, step, step.products[i])
  }

  method CheckProducts(k: Crypto, marker: Marker, ledger: ExecutionLedger, db: Rows, step: Step) returns (ok: bool)
    ensures ok <==> forall i: nat :: i < |step.products| ==> ProductAt(CompletionCheck(k), marker, ledger.rows, db, step, i)
  {
    var check, rows := CompletionCheck(k), ledger.rows;
    var test := (i: nat) => ProductAt(check, marker, rows, db, step, i);
    ok := AllPass(|step.products|, test);
    assert forall i: nat :: ProductAt(check, marker, rows, db, step, i) == test(i);
  }

  /** The whole admission test of a step, before anything is registered. */
  method AdmitStep(k: Crypto, marker: Marker, ledger: ExecutionLedger, db: Rows, step: Step) returns (ok: bool)
    ensures ok <==> Admissible(CompletionCheck(k), marker, ledger.rows, db, step)
  {
    if step.request.arm != VerifiedChain {
      return false;
    }
    var current := CheckManifest(step.presented);
    if !current {
      return false;
    }
    var ids := AllDifferent(Map(ProductId, step.products));
    var producers := AllDifferent(Map(ProducerId, step.products));
    if !ids || !producers {
      return false;
    }
    var products := CheckProducts(k, marker, ledger, db, step);
    assert products <==> forall i :: 0 <= i < |step.products| ==>
                           ProductOk(CompletionCheck(k), marker, ledger.rows, db, step, step.products[i]) by {
      assert forall i: nat :: i < |step.products| ==>
        (ProductAt(CompletionCheck(k), marker, ledger.rows, db, step, i)
         <==> ProductOk(CompletionCheck(k), marker, ledger.rows, db, step, step.products[i]));
    }
    if !products {
      return false;
    }
    if step.retry.Some? {
      ok := CheckRetry(k, ledger, db, step, step.retry.value);
    } else {
      ok := true;
    }
  }

  /** A state in which only the rows and the ledger matter. */
  function Bare(db: Rows, ledger: Ledger): State {
    State(Held(db, [], []), ledger, [])
  }

  /** What a call must leave and return. */
  ghost predicate StepDone(x: Setting, before: State, step: Step, db: Rows, ledger: Ledger, r: Result<Executed>) {
    LeftBy(before, AfterCall(x, before, ChainCall(step)), db, ledger, r)
  }

  predicate LeftBy(before: State, after: State, db: Rows, ledger: Ledger, r: Result<Executed>) {
    && db == after.held.db && ledger == after.ledger
    && after.log == before.log + (if r.Ok? then [r.value] else [])
  }

  lemma {:induction false} RefusedDone(x: Setting, before: State, step: Step)
    requires !Admissible(CheckOf(x), x.marker, before.ledger, before.held.db, step)
    ensures StepDone(x, before, step, before.held.db, before.ledger, Raised)
  {
  }

  lemma {:induction false} AfterCallStops(x: Setting, s: State, step: Step)
    requires Admissible(CheckOf(x), x.marker, s.ledger, s.held.db, step)
    requires After(x.sha, x.encode, x.runId, s.held, AsAttempt(x, step)).completions == s.held.completions
    ensures AfterCall(x, s, ChainCall(step)) == s.(held := After(x.sha, x.encode, x.runId, s.held, AsAttempt(x, step)))
  {
  }

  lemma {:induction false} StoppedDone(s: State, held: Held, db: Rows)
    requires held.db == db
    ensures LeftBy(s, s.(held := held), db, s.ledger, Raised)
  {
  }

  lemma {:induction false} UnfinishedDone(x: Setting, before: State, step: Step, timings: Timings, db: Rows, r: Result<Execution>)
    requires Admissible(CheckOf(x), x.marker, before.ledger, before.held.db, step)
    requires Executes(x.sha, x.encode, x.runId, before.held.db, AsAttempt(x, step), timings, db, r) && r.Raised?
    ensures StepDone(x, before, step, db, before.ledger, Raised)
  {
    ExecutesRefines(x.sha, x.encode, x.runId, before.held, AsAttempt(x, step), timings, db, r);
    AfterCallStops(x, before, step);
    StoppedDone(before, After(x.sha, x.encode, x.runId, before.held, AsAttempt(x, step)), db);
  }

  lemma {:induction false} AfterCallRecords(x: Setting, s: State, step: Step, c: Completion)
    requires Admissible(CheckOf(x), x.marker, s.ledger, s.held.db, step)
    requires After(x.sha, x.encode, x.runId, s.held, AsAttempt(x, step)).completions == s.held.completions + [c]
    ensures AfterCall(x, s, ChainCall(step)) ==
      Record(s, After(x.sha, x.encode, x.runId, s.held, AsAttempt(x, step)),
             Logged(x, step, EntryOf(x.sha, x.runId, s.held.db, AsAttempt(x, step)), c))
  {
    AppendLast(s.held.completions, c);
  }

  lemma {:induction false} RecordDone(s: State, held: Held, e: Executed, ledger: Ledger, r: Result<Executed>)
    requires if Recordable(s.ledger, e.completion, e.admitted)
             then ledger == s.ledger[e.completion.dispatchId := RowFor(e.completion, e.admitted)] && r == Ok(e)
             else ledger == s.ledger && r.Raised?
    ensures LeftBy(s, Record(s, held, e), held.db, ledger, r)
  {
  }

  lemma {:induction false} FinishedDone(
    x: Setting, before: State, step: Step, timings: Timings, db: Rows, r: Result<Execution>, e: Executed, ledger: Ledger, s: Result<Executed>)
    requires Admissible(CheckOf(x), x.marker, before.ledger, before.held.db, step)
    requires Executes(x.sha, x.encode, x.runId, before.held.db, AsAttempt(x, step), timings, db, r) && r.Ok?
    requires e == Logged(x, step, EntryOf(x.sha, x.runId, before.held.db, AsAttempt(x, step)), r.value.completion)
    requires if Recordable(before.ledger, e.completion, e.admitted)
             then ledger == before.ledger[e.completion.dispatchId := RowFor(e.completion, e.admitted)] && s == Ok(e)
             else ledger == before.ledger && s.Raised?
    ensures StepDone(x, before, step, db, ledger, s)
  {
    ExecutesRefines(x.sha, x.encode, x.runId, before.held, AsAttempt(x, step), timings, db, r);
    AfterCallRecords(x, before, step, r.value.completion);
    RecordDone(before, After(x.sha, x.encode, x.runId, before.held, AsAttempt(x, step)), e, ledger, s);
  }

  /** Admit, attempt, classify, record. */
  method ExecuteVerifiedChainStep(authority: DispatchAuthority, ledger: ExecutionLedger, x: Setting, step: Step, timings: Timings)
    returns (r: Result<Executed>)
    requires authority.Valid() && authority.k == OneTime(x.sha, x.encode) && authority.runId == x.runId
    modifies authority.db, ledger
    ensures authority.Valid()
    ensures StepDone(x, Bare(old(authority.db.runs)[x.runId], old(ledger.rows)), step, authority.db.runs[x.runId], ledger.rows, r)
  {
    ghost var before := Bare(authority.db.runs[x.runId], ledger.rows);
    var ok := AdmitStep(authority.k, x.marker, ledger, authority.db.runs[x.runId], step);
    if !ok {
      RefusedDone(x, before, step);
      return Raised;
    }
    r := AttemptStep(authority, ledger, x, before, step, timings);
  }

  /** The baseline attempt of an admitted step, and what follows it. */
  method AttemptStep(
    authority: DispatchAuthority, ledger: ExecutionLedger, x: Setting, ghost before: State, step: Step, timings: Timings)
    returns (r: Result<Executed>)
    requires authority.Valid() && authority.runId == x.runId
    requires before == Bare(authority.db.runs[x.runId], ledger.rows)
    requires Admissible(CheckOf(x), x.marker, before.ledger, before.held.db, step)
    modifies authority.db, ledger
    ensures authority.Valid()
    ensures StepDone(x, before, step, authority.db.runs[x.runId], ledger.rows, r)
  {
    var executed := ExecuteBaselineAttempt(authority, x.sha, x.encode, AsAttempt(x, step), timings);
    if executed.Raised? {
      UnfinishedDone(x, before, step, timings, authority.db.runs[x.runId], executed);
      return Raised;
    }
    r := Conclude(ledger, x, before, step, timings, authority.db.runs[x.runId], executed);
  }

  /** Classification of the captured observation, and the ledger row. */
  method Conclude(
    ledger: ExecutionLedger, x: Setting, ghost before: State, step: Step, timings: Timings, db: Rows, executed: Result<Execution>)
    returns (r: Result<Executed>)
    requires Admissible(CheckOf(x), x.marker, before.ledger, before.held.db, step) && ledger.rows == before.ledger
    requires Executes(x.sha, x.encode, x.runId, before.held.db, AsAttempt(x, step), timings, db, executed) && executed.Ok?
    modifies ledger
    ensures StepDone(x, before, step, db, ledger.rows, r)
  {
    var c := executed.value.completion;
    var entry := executed.value.manifest.entries[|executed.value.manifest.entries| - 1];
    EntryFitsRequest(x.sha, x.runId, before.held.db, AsAttempt(x, step));
    var e := Logged(x, step, entry, c);
    var recorded := ledger.RecordExecution(c, e.admitted);
    r := if recorded then Ok(e) else Raised;
    FinishedDone(x, before, step, timings, db, executed, e, ledger.rows, r);
  }
}
