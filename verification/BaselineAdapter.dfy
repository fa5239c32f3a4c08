/** The executable adapter: one attempt against a live authority, step by step, as `ExecutorRuns.After` describes it. */
module BaselineAdapter {
  import opened Contracts
  import opened OneTimeSignature
  import opened Records
  import opened Dispatch
  import opened Authority
  import opened Executor
  import opened ExecutorRuns
  import Cost

  /** Elapsed milliseconds of the four timed stretches. */
  datatype Timings = Timings(registering: nat, answering: nat, verifying: nat, signing: nat)

  datatype Execution = Execution(manifest: Manifest, completion: Completion, trace: Cost.Trace<Digest>)

  function VerifierTimeOf(p: Payload): nat
    requires ValidPayload(p)
  {
    if p.receipt.Some? then p.receipt.value.elapsed else 0
  }

  function Orchestrating(t: Timings, p: Payload): nat {
    t.registering + t.answering + (if p.receipt.Some? then t.verifying else 0) + t.signing
  }

  function TraceOf(a: Attempt, o: Observation, t: Timings, p: Payload): Cost.Trace<Digest>
    requires ValidPayload(p)
  {
    BaselineTrace(a.request, |a.requestUtf8|, |o.response|, VerifierTimeOf(p), Orchestrating(t, p))
  }

  /** The verifier port is called for answers only. */
  method VerifyAnswer(a: Attempt, entry: Entry, o: TypedObservation, result: AttemptResult)
    returns (receipt: Option<Receipt>, calls: nat)
    requires ResultFor(result, a.request) && result.status == o.status
    ensures receipt == MakePayload(a.request, result, SafeVerifierCall(a.verifier(entry, o.response))).receipt
    ensures calls == if o.status == ANSWERED then 1 else 0
  {
    if o.status == ANSWERED {
      VerifiedIssues(a.request, result, SafeVerifierCall(a.verifier(entry, o.response)));
      var first := FromVerifierResult(a.request, result, SafeVerifierCall(a.verifier(entry, o.response)));
      if first.Issued? {
        return Some(first.receipt), 1;
      }
      var fallback := FromVerifierResult(a.request, result, VerifierFault("invalid verifier result: " + first.exception));
      return Some(fallback.receipt), 1;
    }
    return None, 0;
  }

  /** From the port's observation to the payload, with the time spent on the way. */
  method BuildPayload(a: Attempt, entry: Entry, o: TypedObservation, timings: Timings) returns (r: Result<Payload>, spent: nat)
    requires ValidRequest(a.request) && o == Observe(a, entry)
    ensures r == PayloadOf(a, entry)
    ensures r.Ok? ==> spent == timings.answering + (if r.value.receipt.Some? then timings.verifying else 0)
  {
    var result := MakeResult(a.request, o);
    spent := timings.answering;
    if result.Raised? {
      return Raised, spent;
    }
    var receipt, calls := VerifyAnswer(a, entry, o, result.value);
    if calls == 1 {
      spent := spent + timings.verifying;
    }
    return Ok(Payload(a.request, result.value, receipt)), spent;
  }

  datatype Finished = Finished(completion: Completion, trace: Cost.Trace<Digest>)

  /** The events and their totals, with the stretches added up one by one. */
  method Account(a: Attempt, o: Observation, p: Payload, timings: Timings, spent: nat) returns (trace: Cost.Trace<Digest>)
    requires ValidPayload(p)
    requires spent == timings.answering + (if p.receipt.Some? then timings.verifying else 0)
    ensures trace == TraceOf(a, o, timings, p)
  {
    var orchestration := timings.registering;
    orchestration := orchestration + spent;
    orchestration := orchestration + timings.signing;
    trace := BaselineTrace(a.request, |a.requestUtf8|, |o.response|, VerifierTimeOf(p), orchestration);
  }

  /** What the adapter must hand back for a registered entry. */
  predicate Finishes(sha: HashFunction, encode: Body -> Bytes, a: Attempt, entry: Entry, timings: Timings, r: Result<Finished>)
    requires ValidRequest(a.request)
  {
    var payload := PayloadOf(a, entry);
    if payload.Raised? then r.Raised?
    else r == Ok(Finished(Signed(sha, encode, a.key, entry, payload.value), TraceOf(a, Observe(a, entry), timings, payload.value)))
  }

  /** Everything after registration: it raises exactly when the error text cannot be encoded. */
  method FinishAttempt(signer: CompletionSigner, a: Attempt, entry: Entry, timings: Timings) returns (r: Result<Finished>)
    requires signer.Valid() && !signer.spent && signer.privateKey[..] == a.key
    requires ValidRequest(a.request) && Canonical(entry) && RequestMatches(entry, a.request)
    requires entry.verifierSha == Commitment(signer.sha, a)
    modifies signer, signer.privateKey
    ensures Finishes(signer.sha, signer.encode, a, entry, timings, r)
  {
    var o := Observe(a, entry);
    var payload, spent := BuildPayload(a, entry, o, timings);
    if payload.Raised? {
      return Raised;
    }
    var trace := Account(a, o, payload.value, timings, spent);
    var completion := signer.Complete(entry, payload.value);
    return Ok(Finished(completion.value, trace));
  }

  lemma EntryFitsRequest(sha: HashFunction, runId: string, db: Rows, a: Attempt)
    requires a.request.runId == runId
    ensures Canonical(EntryOf(sha, runId, db, a)) && RequestMatches(EntryOf(sha, runId, db, a), a.request)
    ensures EntryOf(sha, runId, db, a).verifierSha == Commitment(sha, a)
    ensures Registered(runId, db, a.request, Commitment(sha, a)).entries == db.entries + [EntryOf(sha, runId, db, a)]
  {
  }

  /** The row a call leaves and what it returns. */
  ghost predicate Executes(
    sha: HashFunction, encode: Body -> Bytes, runId: string, before: Rows, a: Attempt, timings: Timings,
    after: Rows, r: Result<Execution>)
  {
    if !Registers(sha, runId, before, a) then after == before && r.Raised?
    else
      && after == Registered(runId, before, a.request, Commitment(sha, a))
      && (r.Ok? ==> r.value.manifest == Manifest(runId, after.entries))
      && Finishes(sha, encode, a, EntryOf(sha, runId, before, a), timings,
                  if r.Ok? then Ok(Finished(r.value.completion, r.value.trace)) else Raised)
  }

  lemma {:induction false} LastRegistered(sha: HashFunction, runId: string, db: Rows, a: Attempt)
    ensures var entries := Registered(runId, db, a.request, Commitment(sha, a)).entries;
      entries != [] && entries[|entries| - 1] == EntryOf(sha, runId, db, a)
  {
  }

  /** Admission, the signer's commitment, and compare-and-swap registration. */
  method RegisterAttempt(authority: DispatchAuthority, sha: HashFunction, a: Attempt, commitment: Digest) returns (r: Result<Entry>)
    requires authority.Valid() && commitment == Commitment(sha, a)
    modifies authority.db
    ensures authority.Valid()
    ensures r.Ok? <==> Registers(sha, authority.runId, old(authority.db.runs)[authority.runId], a)
    ensures r.Ok? ==> r.value == EntryOf(sha, authority.runId, old(authority.db.runs)[authority.runId], a)
    ensures authority.db.runs ==
      if r.Ok?
      then old(authority.db.runs)[authority.runId :=
             Registered(authority.runId, old(authority.db.runs)[authority.runId], a.request, commitment)]
      else old(authority.db.runs)
  {
    ghost var before := authority.db.runs[authority.runId];
    if !Admits(a) {
      return Raised;
    }
    var registered := authority.Register(a.presented, a.request, commitment);
    if registered.Raised? {
      return Raised;
    }
    LastRegistered(sha, authority.runId, before, a);
    return Ok(registered.value.entries[|registered.value.entries| - 1]);
  }

  lemma Assemble(
    sha: HashFunction, encode: Body -> Bytes, runId: string, before: Rows, a: Attempt, timings: Timings,
    finished: Result<Finished>, r: Result<Execution>)
    requires Registers(sha, runId, before, a)
    requires Finishes(sha, encode, a, EntryOf(sha, runId, before, a), timings, finished)
    requires r == if finished.Raised? then Raised
                  else Ok(Execution(Manifest(runId, Registered(runId, before, a.request, Commitment(sha, a)).entries),
                                    finished.value.completion, finished.value.trace))
    ensures Executes(sha, encode, runId, before, a, timings, Registered(runId, before, a.request, Commitment(sha, a)), r)
  {
  }

  /** Registers, runs both ports, signs and accounts. It raises before registering exactly when the attempt is not
      admitted or not current, and after registering exactly when the error text cannot be encoded. */
  method ExecuteBaselineAttempt(authority: DispatchAuthority, sha: HashFunction, encode: Body -> Bytes, a: Attempt, timings: Timings)
    returns (r: Result<Execution>)
    requires authority.Valid()
    modifies authority.db
    ensures authority.Valid()
    ensures Executes(sha, encode, authority.runId, old(authority.db.runs)[authority.runId], a, timings,
                     authority.db.runs[authority.runId], r)
    ensures authority.db.runs == old(authority.db.runs)[authority.runId := authority.db.runs[authority.runId]]
  {
    ghost var before := authority.db.runs[authority.runId];
    var signer := new CompletionSigner(sha, encode, a.key);
    var entry := RegisterAttempt(authority, sha, a, signer.PublicCommitment());
    if entry.Raised? {
      return Raised;
    }
    var manifest := Manifest(authority.runId, authority.db.runs[authority.runId].entries);
    EntryFitsRequest(sha, authority.runId, before, a);
    var finished := FinishAttempt(signer, a, entry.value, timings);
    r := if finished.Raised? then Raised else Ok(Execution(manifest, finished.value.completion, finished.value.trace));
    Assemble(sha, encode, authority.runId, before, a, timings, finished, r);
  }

  /** The adapter is one `After` step: what it returns is the completion that step adds, and raising after
      registration is exactly what strands the dispatch. */
  lemma ExecutesRefines(
    sha: HashFunction, encode: Body -> Bytes, runId: string, s: Held, a: Attempt, timings: Timings, after: Rows, r: Result<Execution>)
    requires Executes(sha, encode, runId, s.db, a, timings, after, r)
    ensures var t := After(sha, encode, runId, s, a);
      && t.db == after
      && (r.Ok? ==> t.completions == s.completions + [r.value.completion] && t.stranded == s.stranded)
      && (r.Raised? ==> t.completions == s.completions)
      && (r.Raised? ==> t.stranded == s.stranded + (if Registers(sha, runId, s.db, a) then [EntryOf(sha, runId, s.db, a).dispatchId] else []))
  {
  }

  /** A returned execution is fully accounted: a closed legal trace for the request's arm, whose one model call,
      byte counts and times are those of this attempt. */
  lemma ExecutionAccounted(
    sha: HashFunction, encode: Body -> Bytes, runId: string, before: Rows, a: Attempt, timings: Timings, after: Rows, r: Result<Execution>)
    requires Executes(sha, encode, runId, before, a, timings, after, r) && r.Ok?
    ensures var p := r.value.completion.payload;
      && Cost.ValidTrace(r.value.trace) && Cost.Closed(r.value.trace) && r.value.trace.arm == a.request.arm
      && ValidPayload(p) && p.request == a.request
      && Cost.TotalIs(CompleteCost(1, |a.requestUtf8|, p.result.response.byteLength, VerifierTimeOf(p), Orchestrating(timings, p)),
                      r.value.trace.events)
  {
    var entry := EntryOf(sha, runId, before, a);
    var p := PayloadOf(a, entry).value;
    BaselineTraceCloses(a.request, |a.requestUtf8|, |Observe(a, entry).response|, VerifierTimeOf(p), Orchestrating(timings, p));
  }
}
