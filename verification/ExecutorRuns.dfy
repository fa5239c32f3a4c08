/** Whole runs of attempts: what registering, answering and signing leave behind, and when the run can be closed. */
module ExecutorRuns {
  import opened Contracts
  import opened Sorting
  import opened OneTimeSignature
  import opened Records
  import opened Dispatch
  import opened Authority
  import opened Executor

  type SigningKey = k: Bytes | |k| == 16384 witness seq(16384, _ => 0)

  /** One call of an adapter: its arguments, its fresh signing key, and the behaviour of both ports. */
  datatype Attempt = Attempt(
    expectedArm: Arm, presented: Manifest, request: Request, requestUtf8: Bytes, key: SigningKey,
    model: ModelPort, verifier: VerifierPort)

  predicate Admits(a: Attempt) {
    && a.request.arm == a.expectedArm && a.request.usageBasis == Some(VisibleUtf8Bytes)
    && Verifies(a.request.artifact, a.requestUtf8)
  }

  function Commitment(sha: HashFunction, a: Attempt): Digest {
    OtsCommitment(PublicKey(sha, a.key))
  }

  function Observe(a: Attempt, entry: Entry): TypedObservation {
    SafeModelCall(a.model(entry, a.requestUtf8), entry.dispatchId)
  }

  /** The payload of a registered attempt, or a refusal by the attempt-result constructor. */
  function PayloadOf(a: Attempt, entry: Entry): (r: Result<Payload>)
    requires ValidRequest(a.request)
    ensures r.Ok? <==> Encodable(Observe(a, entry))
    ensures r.Ok? ==> ValidPayload(r.value) && r.value.request == a.request
  {
    var o := Observe(a, entry);
    var result := MakeResult(a.request, o);
    if result.Raised? then Raised
    else
      var v := SafeVerifierCall(a.verifier(entry, o.response));
      assert result.value.status == ANSWERED ==> Verified(a.request, result.value, v).Issued? by {
        if result.value.status == ANSWERED {
          VerifiedIssues(a.request, result.value, v);
        }
      }
      PayloadIsValid(a.request, result.value, v);
      Ok(MakePayload(a.request, result.value, v))
  }

  /** What a client holds: the run's rows, the completions issued so far, and the dispatches left without one. */
  datatype Held = Held(db: Rows, completions: seq<Completion>, stranded: seq<Digest>)

  predicate Registers(sha: HashFunction, runId: string, db: Rows, a: Attempt) {
    Admits(a) && CanRegister(runId, db, a.presented, a.request, Commitment(sha, a))
  }

  function EntryOf(sha: HashFunction, runId: string, db: Rows, a: Attempt): Entry {
    NextEntry(runId, db.entries, a.request, Commitment(sha, a))
  }

  function After(sha: HashFunction, encode: Body -> Bytes, runId: string, s: Held, a: Attempt): Held {
    if !Registers(sha, runId, s.db, a) then s
    else
      var entry := EntryOf(sha, runId, s.db, a);
      var payload := PayloadOf(a, entry);
      var db := Registered(runId, s.db, a.request, Commitment(sha, a));
      if payload.Raised? then Held(db, s.completions, s.stranded + [entry.dispatchId])
      else Held(db, s.completions + [Signed(sha, encode, a.key, entry, payload.value)], s.stranded)
  }

  function AfterAll(sha: HashFunction, encode: Body -> Bytes, runId: string, s: Held, attempts: seq<Attempt>): Held
    decreases |attempts|
  {
    if attempts == [] then s
    else AfterAll(sha, encode, runId, After(sha, encode, runId, s, attempts[0]), attempts[1..])
  }

  /** A registered attempt that gets a payload gets the completion the authority accepts for its entry. */
  lemma {:induction false} IssuedValidates(sha: HashFunction, encode: Body -> Bytes, runId: string, db: Rows, a: Attempt)
    requires Registers(sha, runId, db, a) && PayloadOf(a, EntryOf(sha, runId, db, a)).Ok?
    ensures Validates(OneTime(sha, encode), EntryOf(sha, runId, db, a),
                      Signed(sha, encode, a.key, EntryOf(sha, runId, db, a), PayloadOf(a, EntryOf(sha, runId, db, a)).value), a.request)
  {
    var entry := EntryOf(sha, runId, db, a);
    SignedValidates(sha, encode, a.key, entry, PayloadOf(a, entry).value);
  }

  // ---- the invariant of a run ----

  /** In registration order, each entry has either its good completion or a place among the stranded. */
  ghost predicate Paired(check: Check, entries: seq<Entry>, requests: seq<Request>, completions: seq<Completion>, stranded: seq<Digest>)
    requires |entries| == |requests|
    decreases |entries|
  {
    if entries == [] then completions == [] && stranded == []
    else
      var n := |entries| - 1;
      || (PairedLast(check, entries[n], requests[n], completions)
          && Paired(check, entries[..n], requests[..n], completions[..|completions| - 1], stranded))
      || (stranded != [] && stranded[|stranded| - 1] == entries[n].dispatchId
          && Paired(check, entries[..n], requests[..n], completions, stranded[..|stranded| - 1]))
  }

  ghost predicate PairedLast(check: Check, e: Entry, r: Request, completions: seq<Completion>) {
    completions != [] && completions[|completions| - 1].dispatchId == e.dispatchId && check(e, completions[|completions| - 1], r)
  }

  lemma {:induction false} PairedStrands(
    check: Check, entries: seq<Entry>, requests: seq<Request>, completions: seq<Completion>, stranded: seq<Digest>,
    e: Entry, r: Request)
    requires |entries| == |requests| && Paired(check, entries, requests, completions, stranded)
    ensures Paired(check, entries + [e], requests + [r], completions, stranded + [e.dispatchId])
  {
    assert (entries + [e])[..|entries|] == entries && (requests + [r])[..|entries|] == requests;
    assert (stranded + [e.dispatchId])[..|stranded|] == stranded;
  }

  lemma {:induction false} PairedAnswers(
    check: Check, entries: seq<Entry>, requests: seq<Request>, completions: seq<Completion>, stranded: seq<Digest>,
    e: Entry, r: Request, c: Completion)
    requires |entries| == |requests| && Paired(check, entries, requests, completions, stranded)
    requires c.dispatchId == e.dispatchId && check(e, c, r)
    ensures Paired(check, entries + [e], requests + [r], completions + [c], stranded)
  {
    assert (entries + [e])[..|entries|] == entries && (requests + [r])[..|entries|] == requests;
    assert (completions + [c])[..|completions|] == completions;
    assert PairedLast(check, e, r, completions + [c]);
  }

  lemma {:induction false} PairedInOrder(
    check: Check, entries: seq<Entry>, requests: seq<Request>, completions: seq<Completion>, i: nat)
    requires |entries| == |requests| && Paired(check, entries, requests, completions, []) && i < |entries|
    ensures |completions| == |entries|
    ensures completions[i].dispatchId == entries[i].dispatchId && check(entries[i], completions[i], requests[i])
    decreases |entries|
  {
    PairedLength(check, entries, requests, completions, []);
    var n := |entries| - 1;
    if i < n {
      PairedInOrder(check, entries[..n], requests[..n], completions[..|completions| - 1], i);
    }
  }

  lemma {:induction false} PairedLength(
    check: Check, entries: seq<Entry>, requests: seq<Request>, completions: seq<Completion>, stranded: seq<Digest>)
    requires |entries| == |requests| && Paired(check, entries, requests, completions, stranded)
    ensures |completions| + |stranded| == |entries|
    decreases |entries|
  {
    if entries != [] {
      var n := |entries| - 1;
      if PairedLast(check, entries[n], requests[n], completions)
         && Paired(check, entries[..n], requests[..n], completions[..|completions| - 1], stranded) {
        PairedLength(check, entries[..n], requests[..n], completions[..|completions| - 1], stranded);
      } else {
        PairedLength(check, entries[..n], requests[..n], completions, stranded[..|stranded| - 1]);
      }
    }
  }

  /** Nothing stranded: the completions held are exactly what closing asks for. */
  lemma {:induction false} NoneStrandedCovers(
    check: Check, runId: string, entries: seq<Entry>, requests: seq<Request>, completions: seq<Completion>)
    requires |entries| == |requests| && Chain(runId, entries) && Paired(check, entries, requests, completions, [])
    ensures Covers(check, entries, requests, completions)
  {
    PairedLength(check, entries, requests, completions, []);
    forall i | 0 <= i < |entries|
      ensures completions[i].dispatchId == entries[i].dispatchId && check(entries[i], completions[i], requests[i])
    {
      PairedInOrder(check, entries, requests, completions, i);
    }
    forall i, j | 0 <= i < j < |completions| ensures completions[i].dispatchId != completions[j].dispatchId {
      ChainApart(runId, entries, i, j);
    }
    forall c | c in completions ensures Vouched(check, entries, requests, c) {
      var i :| 0 <= i < |completions| && completions[i] == c;
      FindAt(runId, entries, i);
    }
    forall n | 0 <= n < |entries| ensures Lookup(completions, entries[n].dispatchId).Some? {
      assert completions[n] in completions;
      LookupUnique(completions, completions[n]);
    }
  }

  lemma {:induction false} PairedIds(
    check: Check, entries: seq<Entry>, requests: seq<Request>, completions: seq<Completion>, stranded: seq<Digest>)
    requires |entries| == |requests| && Paired(check, entries, requests, completions, stranded)
    ensures forall c :: c in completions ==> c.dispatchId in DispatchIds(entries)
    ensures forall id :: id in stranded ==> id in DispatchIds(entries)
    decreases |entries|
  {
    if entries != [] {
      var n := |entries| - 1;
      if PairedLast(check, entries[n], requests[n], completions)
         && Paired(check, entries[..n], requests[..n], completions[..|completions| - 1], stranded) {
        PairedIds(check, entries[..n], requests[..n], completions[..|completions| - 1], stranded);
        SplitLast(completions);
      } else {
        PairedIds(check, entries[..n], requests[..n], completions, stranded[..|stranded| - 1]);
        SplitLast(stranded);
      }
    }
  }

  lemma SplitLast<T>(s: seq<T>)
    requires s != []
    ensures forall x :: x in s <==> x in s[..|s| - 1] || x == s[|s| - 1]
  {
    TakeSnoc(s, |s| - 1);
    TakeAll(s);
  }

  /** A stranded dispatch has no completion among those held. */
  lemma {:induction false} StrandedUnanswered(
    check: Check, runId: string, entries: seq<Entry>, requests: seq<Request>, completions: seq<Completion>,
    stranded: seq<Digest>, id: Digest, c: Completion)
    requires |entries| == |requests| && Chain(runId, entries) && Paired(check, entries, requests, completions, stranded)
    requires id in stranded && c in completions
    ensures c.dispatchId != id
    decreases |entries|
  {
    var n := |entries| - 1;
    ChainLink(runId, entries, n);
    ApartBySets(entries[..n], entries[n]);
    if PairedLast(check, entries[n], requests[n], completions)
       && Paired(check, entries[..n], requests[..n], completions[..|completions| - 1], stranded) {
      var rest := completions[..|completions| - 1];
      PairedIds(check, entries[..n], requests[..n], rest, stranded);
      SplitLast(completions);
      if c in rest {
        StrandedUnanswered(check, runId, entries[..n], requests[..n], rest, stranded, id, c);
      }
    } else {
      var rest := stranded[..|stranded| - 1];
      PairedIds(check, entries[..n], requests[..n], completions, rest);
      SplitLast(stranded);
      if id in rest {
        StrandedUnanswered(check, runId, entries[..n], requests[..n], completions, rest, id, c);
      }
    }
  }

  /** What every run keeps. */
  ghost predicate HeldOk(check: Check, runId: string, s: Held) {
    && Consistent(check, runId, s.db) && s.db.state == OPEN
    && Paired(check, s.db.entries, s.db.requests, s.completions, s.stranded)
  }

  lemma {:induction false} IssuedChecks(sha: HashFunction, encode: Body -> Bytes, runId: string, db: Rows, a: Attempt, c: Completion)
    requires Registers(sha, runId, db, a) && PayloadOf(a, EntryOf(sha, runId, db, a)).Ok?
    requires c == Signed(sha, encode, a.key, EntryOf(sha, runId, db, a), PayloadOf(a, EntryOf(sha, runId, db, a)).value)
    ensures c.dispatchId == EntryOf(sha, runId, db, a).dispatchId
    ensures CompletionCheck(OneTime(sha, encode))(EntryOf(sha, runId, db, a), c, a.request)
  {
    IssuedValidates(sha, encode, runId, db, a);
  }

  lemma {:induction false} AfterPaired(check: Check, sha: HashFunction, encode: Body -> Bytes, runId: string, s: Held, a: Attempt)
    requires check == CompletionCheck(OneTime(sha, encode))
    requires |s.db.entries| == |s.db.requests| && Paired(check, s.db.entries, s.db.requests, s.completions, s.stranded)
    requires Registers(sha, runId, s.db, a)
    ensures var t := After(sha, encode, runId, s, a);
      |t.db.entries| == |t.db.requests| && Paired(check, t.db.entries, t.db.requests, t.completions, t.stranded)
  {
    var entry := EntryOf(sha, runId, s.db, a);
    var payload := PayloadOf(a, entry);
    if payload.Raised? {
      PairedStrands(check, s.db.entries, s.db.requests, s.completions, s.stranded, entry, a.request);
    } else {
      var c := Signed(sha, encode, a.key, entry, payload.value);
      IssuedChecks(sha, encode, runId, s.db, a, c);
      PairedAnswers(check, s.db.entries, s.db.requests, s.completions, s.stranded, entry, a.request, c);
    }
  }

  lemma {:induction false} AfterRows(sha: HashFunction, encode: Body -> Bytes, runId: string, s: Held, a: Attempt)
    ensures After(sha, encode, runId, s, a).db ==
      if Registers(sha, runId, s.db, a) then Registered(runId, s.db, a.request, Commitment(sha, a)) else s.db
  {
  }

  lemma {:induction false} RegisteredOpen(check: Check, runId: string, db: Rows, presented: Manifest, request: Request, verifierSha: Digest)
    requires Consistent(check, runId, db) && CanRegister(runId, db, presented, request, verifierSha)
    ensures Consistent(check, runId, Registered(runId, db, request, verifierSha))
    ensures Registered(runId, db, request, verifierSha).state == OPEN
  {
    RegisterKeepsConsistent(check, runId, db, presented, request, verifierSha);
  }

  lemma {:induction false} AfterKeeps(sha: HashFunction, encode: Body -> Bytes, runId: string, s: Held, a: Attempt)
    requires HeldOk(CompletionCheck(OneTime(sha, encode)), runId, s)
    ensures HeldOk(CompletionCheck(OneTime(sha, encode)), runId, After(sha, encode, runId, s, a))
  {
    ghost var check := CompletionCheck(OneTime(sha, encode));
    var t := After(sha, encode, runId, s, a);
    if Registers(sha, runId, s.db, a) {
      assert Consistent(check, runId, t.db) && t.db.state == OPEN by {
        AfterRows(sha, encode, runId, s, a);
        RegisteredOpen(check, runId, s.db, a.presented, a.request, Commitment(sha, a));
      }
      AfterPaired(check, sha, encode, runId, s, a);
    }
  }

  lemma {:induction false} RunKeeps(sha: HashFunction, encode: Body -> Bytes, runId: string, s: Held, attempts: seq<Attempt>)
    requires HeldOk(CompletionCheck(OneTime(sha, encode)), runId, s)
    ensures HeldOk(CompletionCheck(OneTime(sha, encode)), runId, AfterAll(sha, encode, runId, s, attempts))
    decreases |attempts|
  {
    if attempts != [] {
      AfterKeeps(sha, encode, runId, s, attempts[0]);
      RunKeeps(sha, encode, runId, After(sha, encode, runId, s, attempts[0]), attempts[1..]);
    }
  }

  /** From an empty run. */
  function Outcome(sha: HashFunction, encode: Body -> Bytes, runId: string, attempts: seq<Attempt>): Held {
    AfterAll(sha, encode, runId, Held(InitialRows(runId), [], []), attempts)
  }

  /** A refused call adds nothing; a granted one adds exactly its own entry and request. */
  lemma {:induction false} OneEntryEach(sha: HashFunction, encode: Body -> Bytes, runId: string, s: Held, a: Attempt)
    ensures var t := After(sha, encode, runId, s, a);
      if Registers(sha, runId, s.db, a)
      then t.db.entries == s.db.entries + [EntryOf(sha, runId, s.db, a)] && t.db.requests == s.db.requests + [a.request]
      else t == s
  {
  }

  /** Whatever the ports do, an attempt whose error text can be encoded (or that has none) gets one more
      completion, and it is the one its entry accepts. */
  lemma {:induction false} EncodableCompletes(sha: HashFunction, encode: Body -> Bytes, runId: string, s: Held, a: Attempt)
    requires Registers(sha, runId, s.db, a) && Encodable(Observe(a, EntryOf(sha, runId, s.db, a)))
    ensures var t := After(sha, encode, runId, s, a);
      && t.stranded == s.stranded && |t.completions| == |s.completions| + 1
      && t.completions[..|s.completions|] == s.completions
      && Validates(OneTime(sha, encode), EntryOf(sha, runId, s.db, a), t.completions[|s.completions|], a.request)
  {
    var entry := EntryOf(sha, runId, s.db, a);
    IssuedValidates(sha, encode, runId, s.db, a);
    AppendLast(s.completions, Signed(sha, encode, a.key, entry, PayloadOf(a, entry).value));
  }

  /** Otherwise the entry is registered and no completion is ever issued for it. */
  lemma {:induction false} UnencodableStrands(sha: HashFunction, encode: Body -> Bytes, runId: string, s: Held, a: Attempt)
    requires Registers(sha, runId, s.db, a) && !Encodable(Observe(a, EntryOf(sha, runId, s.db, a)))
    ensures var t := After(sha, encode, runId, s, a);
      t.completions == s.completions && t.stranded == s.stranded + [EntryOf(sha, runId, s.db, a).dispatchId]
  {
  }

  lemma {:induction false} Closability(check: Check, runId: string, s: Held)
    requires HeldOk(check, runId, s) && AllValid(s.completions)
    ensures CanClose(check, runId, s.db, Manifest(runId, s.db.entries), s.completions)
      <==> s.db.entries != [] && s.stranded == []
  {
    if s.stranded == [] {
      NoneStrandedCovers(check, runId, s.db.entries, s.db.requests, s.completions);
    } else if AllAnswered(s.db.entries, s.completions) {
      var id := s.stranded[0];
      PairedIds(check, s.db.entries, s.db.requests, s.completions, s.stranded);
      DispatchIdAt(s.db.entries, id);
      var n :| 0 <= n < |s.db.entries| && s.db.entries[n].dispatchId == id;
      LookupSound(s.completions, id);
      StrandedUnanswered(check, runId, s.db.entries, s.db.requests, s.completions, s.stranded, id, Lookup(s.completions, id).value);
      assert false;
    }
  }

  lemma {:induction false} DispatchIdAt(entries: seq<Entry>, id: Digest)
    requires id in DispatchIds(entries)
    ensures exists n :: 0 <= n < |entries| && entries[n].dispatchId == id
  {
    var m := |entries| - 1;
    if entries[m].dispatchId != id {
      DispatchIdAt(entries[..m], id);
      var n :| 0 <= n < m && entries[..m][n].dispatchId == id;
      assert entries[n].dispatchId == id;
    }
  }

  lemma {:induction false} PairedChecked(
    check: Check, entries: seq<Entry>, requests: seq<Request>, completions: seq<Completion>, stranded: seq<Digest>, c: Completion)
    requires |entries| == |requests| && Paired(check, entries, requests, completions, stranded) && c in completions
    ensures exists e, r :: check(e, c, r)
    decreases |entries|
  {
    var n := |entries| - 1;
    if PairedLast(check, entries[n], requests[n], completions)
       && Paired(check, entries[..n], requests[..n], completions[..|completions| - 1], stranded) {
      SplitLast(completions);
      if c in completions[..|completions| - 1] {
        PairedChecked(check, entries[..n], requests[..n], completions[..|completions| - 1], stranded, c);
      }
    } else {
      PairedChecked(check, entries[..n], requests[..n], completions, stranded[..|stranded| - 1], c);
    }
  }

  lemma {:induction false} CheckedIsValid(k: Crypto, c: Completion)
    requires exists e, r :: CompletionCheck(k)(e, c, r)
    ensures ValidCompletion(c)
  {
  }

  lemma {:induction false} RunOk(sha: HashFunction, encode: Body -> Bytes, runId: string, attempts: seq<Attempt>)
    ensures HeldOk(CompletionCheck(OneTime(sha, encode)), runId, Outcome(sha, encode, runId, attempts))
  {
    InitiallyConsistent(CompletionCheck(OneTime(sha, encode)), runId);
    RunKeeps(sha, encode, runId, Held(InitialRows(runId), [], []), attempts);
  }

  lemma {:induction false} HeldAreValid(k: Crypto, runId: string, s: Held)
    requires HeldOk(CompletionCheck(k), runId, s)
    ensures AllValid(s.completions)
  {
    forall c | c in s.completions ensures ValidCompletion(c) {
      PairedChecked(CompletionCheck(k), s.db.entries, s.db.requests, s.completions, s.stranded, c);
      CheckedIsValid(k, c);
    }
  }

  /** Along the run, the model port of each attempt that registers returns encodable error text (or none) for the
      entry it was registered as. */
  predicate PortsEncode(sha: HashFunction, encode: Body -> Bytes, runId: string, s: Held, attempts: seq<Attempt>)
    decreases |attempts|
  {
    attempts == [] ||
    (&& (Registers(sha, runId, s.db, attempts[0]) ==> Encodable(Observe(attempts[0], EntryOf(sha, runId, s.db, attempts[0]))))
     && PortsEncode(sha, encode, runId, After(sha, encode, runId, s, attempts[0]), attempts[1..]))
  }

  /** What the failing port does, and nothing else: it returns a valid observation of this very dispatch whose error
      text holds a surrogate. Raising, another type or another dispatch never strand an attempt. */
  lemma {:induction false} UnencodableMeans(a: Attempt, entry: Entry)
    ensures !Encodable(Observe(a, entry)) <==>
      var outcome := a.model(entry, a.requestUtf8);
      && outcome.ModelReturned? && outcome.observation.dispatchId == entry.dispatchId
      && outcome.observation.status == FAULT && !Scalar(outcome.observation.error.value)
  {
  }

  lemma {:induction false} StepStrands(sha: HashFunction, encode: Body -> Bytes, runId: string, s: Held, a: Attempt)
    ensures var t := After(sha, encode, runId, s, a);
      if Registers(sha, runId, s.db, a) && !Encodable(Observe(a, EntryOf(sha, runId, s.db, a)))
      then |t.stranded| == |s.stranded| + 1
      else t.stranded == s.stranded
  {
    if Registers(sha, runId, s.db, a) {
      if Encodable(Observe(a, EntryOf(sha, runId, s.db, a))) {
        EncodableCompletes(sha, encode, runId, s, a);
      } else {
        UnencodableStrands(sha, encode, runId, s, a);
      }
    }
  }

  /** A run strands nothing exactly when its ports encode. */
  lemma {:induction false} StrandsNoneWhen(sha: HashFunction, encode: Body -> Bytes, runId: string, s: Held, attempts: seq<Attempt>)
    ensures |AfterAll(sha, encode, runId, s, attempts).stranded| >= |s.stranded|
    ensures AfterAll(sha, encode, runId, s, attempts).stranded == [] <==>
      s.stranded == [] && PortsEncode(sha, encode, runId, s, attempts)
    decreases |attempts|
  {
    if attempts != [] {
      StepStrands(sha, encode, runId, s, attempts[0]);
      StrandsNoneWhen(sha, encode, runId, After(sha, encode, runId, s, attempts[0]), attempts[1..]);
    }
  }

  /** After any run of attempts, with any port behaviour and any stale manifests: closing the latest manifest with
      the completions collected succeeds if and only if something was registered and every port that was asked
      returned encodable error text. */
  lemma {:induction false} RunCloses(sha: HashFunction, encode: Body -> Bytes, runId: string, attempts: seq<Attempt>)
    ensures var s := Outcome(sha, encode, runId, attempts);
      CanClose(CompletionCheck(OneTime(sha, encode)), runId, s.db, Manifest(runId, s.db.entries), s.completions)
      <==> s.db.entries != [] && PortsEncode(sha, encode, runId, Held(InitialRows(runId), [], []), attempts)
  {
    var s := Outcome(sha, encode, runId, attempts);
    RunOk(sha, encode, runId, attempts);
    HeldAreValid(OneTime(sha, encode), runId, s);
    Closability(CompletionCheck(OneTime(sha, encode)), runId, s);
    StrandsNoneWhen(sha, encode, runId, Held(InitialRows(runId), [], []), attempts);
  }

  /** As whatever entry the attempt is registered, its port returns encodable error text or none. */
  ghost predicate EncodableErrors(sha: HashFunction, runId: string, a: Attempt) {
    forall db: Rows :: Registers(sha, runId, db, a) ==> Encodable(Observe(a, EntryOf(sha, runId, db, a)))
  }

  lemma {:induction false} EncodableRunEncodes(
    sha: HashFunction, encode: Body -> Bytes, runId: string, s: Held, attempts: seq<Attempt>)
    requires forall a :: a in attempts ==> EncodableErrors(sha, runId, a)
    ensures PortsEncode(sha, encode, runId, s, attempts)
    decreases |attempts|
  {
    if attempts != [] {
      assert attempts[0] in attempts;
      EncodableRunEncodes(sha, encode, runId, After(sha, encode, runId, s, attempts[0]), attempts[1..]);
    }
  }

  /** A condition to be met port by port: then every run closes exactly when it has registered anything. */
  lemma {:induction false} EncodableRunCloses(sha: HashFunction, encode: Body -> Bytes, runId: string, attempts: seq<Attempt>)
    requires forall a :: a in attempts ==> EncodableErrors(sha, runId, a)
    ensures var s := Outcome(sha, encode, runId, attempts);
      CanClose(CompletionCheck(OneTime(sha, encode)), runId, s.db, Manifest(runId, s.db.entries), s.completions) <==> s.db.entries != []
  {
    EncodableRunEncodes(sha, encode, runId, Held(InitialRows(runId), [], []), attempts);
    RunCloses(sha, encode, runId, attempts);
  }

  // ---- runs in which every attempt registers ----

  function KeyOf(a: Attempt): (Digest, Arm, nat) {
    (a.request.ProblemId(), a.request.arm, a.request.attempt)
  }

  /** Each attempt is admissible for this run and presents the manifest its predecessors left. */
  predicate Current(sha: HashFunction, encode: Body -> Bytes, runId: string, s: Held, attempts: seq<Attempt>)
    decreases |attempts|
  {
    attempts == [] ||
    (&& Admits(attempts[0]) && ValidRequest(attempts[0].request) && attempts[0].request.runId == runId
     && attempts[0].presented == Manifest(runId, s.db.entries)
     && Current(sha, encode, runId, After(sha, encode, runId, s, attempts[0]), attempts[1..]))
  }

  /** No logical attempt and no signing commitment is used twice. */
  ghost predicate Separate(sha: HashFunction, attempts: seq<Attempt>) {
    forall i, j :: 0 <= i < j < |attempts| ==>
      KeyOf(attempts[i]) != KeyOf(attempts[j]) && Commitment(sha, attempts[i]) != Commitment(sha, attempts[j])
  }

  ghost predicate AllFresh(sha: HashFunction, entries: seq<Entry>, attempts: seq<Attempt>) {
    forall i :: 0 <= i < |attempts| ==> Fresh(entries, attempts[i].request, Commitment(sha, attempts[i]))
  }

  lemma {:induction false} FreshStep(sha: HashFunction, runId: string, db: Rows, attempts: seq<Attempt>)
    requires attempts != [] && Separate(sha, attempts) && AllFresh(sha, db.entries, attempts)
    ensures Separate(sha, attempts[1..])
    ensures AllFresh(sha, db.entries + [EntryOf(sha, runId, db, attempts[0])], attempts[1..])
  {
    var rest := attempts[1..];
    SetsStep(db.entries, EntryOf(sha, runId, db, attempts[0]));
    forall i | 0 <= i < |rest|
      ensures Fresh(db.entries + [EntryOf(sha, runId, db, attempts[0])], rest[i].request, Commitment(sha, rest[i]))
    {
      assert rest[i] == attempts[i + 1];
      assert KeyOf(attempts[0]) != KeyOf(attempts[i + 1]);
    }
  }

  /** Everything a run of current, separate, fresh attempts starts from. */
  ghost predicate Ready(sha: HashFunction, encode: Body -> Bytes, runId: string, s: Held, attempts: seq<Attempt>) {
    && HeldOk(CompletionCheck(OneTime(sha, encode)), runId, s) && Current(sha, encode, runId, s, attempts)
    && Separate(sha, attempts) && AllFresh(sha, s.db.entries, attempts)
  }

  lemma {:induction false} FirstRegisters(sha: HashFunction, encode: Body -> Bytes, runId: string, s: Held, attempts: seq<Attempt>)
    requires Ready(sha, encode, runId, s, attempts) && attempts != []
    ensures Registers(sha, runId, s.db, attempts[0])
  {
    assert Fresh(s.db.entries, attempts[0].request, Commitment(sha, attempts[0]));
  }

  lemma {:induction false} RestReady(sha: HashFunction, encode: Body -> Bytes, runId: string, s: Held, attempts: seq<Attempt>)
    requires Ready(sha, encode, runId, s, attempts) && attempts != []
    ensures var t := After(sha, encode, runId, s, attempts[0]);
      && Ready(sha, encode, runId, t, attempts[1..])
      && t.db.requests == s.db.requests + [attempts[0].request]
  {
    FirstRegisters(sha, encode, runId, s, attempts);
    OneEntryEach(sha, encode, runId, s, attempts[0]);
    AfterKeeps(sha, encode, runId, s, attempts[0]);
    FreshStep(sha, runId, s.db, attempts);
  }

  lemma {:induction false} MapHead<T, U>(f: T -> U, s: seq<T>, before: seq<U>)
    requires s != []
    ensures (before + [f(s[0])]) + Map(f, s[1..]) == before + Map(f, s)
  {
  }

  /** From a sound open run, current attempts with fresh, pairwise different keys and commitments all register. */
  lemma {:induction false} AllRegister(sha: HashFunction, encode: Body -> Bytes, runId: string, s: Held, attempts: seq<Attempt>)
    requires Ready(sha, encode, runId, s, attempts)
    ensures AfterAll(sha, encode, runId, s, attempts).db.requests == s.db.requests + Map(RequestOf, attempts)
    decreases |attempts|
  {
    if attempts != [] {
      var t := After(sha, encode, runId, s, attempts[0]);
      RestReady(sha, encode, runId, s, attempts);
      AllRegister(sha, encode, runId, t, attempts[1..]);
      MapHead(RequestOf, attempts, s.db.requests);
      Through(AfterAll(sha, encode, runId, s, attempts).db.requests, t.db.requests + Map(RequestOf, attempts[1..]),
              s.db.requests + Map(RequestOf, attempts));
    }
  }

  function RequestOf(a: Attempt): Request {
    a.request
  }

  /** So a run of attempts with distinct (problem, arm, attempt) keys and fresh signing keys, each on the latest
      manifest, has one entry an attempt, in order, and closes if and only if there is an attempt and the ports encode. */
  lemma {:induction false} DistinctRunCloses(sha: HashFunction, encode: Body -> Bytes, runId: string, attempts: seq<Attempt>)
    requires Current(sha, encode, runId, Held(InitialRows(runId), [], []), attempts) && Separate(sha, attempts)
    ensures var s := Outcome(sha, encode, runId, attempts);
      && |s.db.entries| == |attempts| && s.db.requests == Map(RequestOf, attempts)
      && (CanClose(CompletionCheck(OneTime(sha, encode)), runId, s.db, Manifest(runId, s.db.entries), s.completions)
          <==> attempts != [] && PortsEncode(sha, encode, runId, Held(InitialRows(runId), [], []), attempts))
  {
    InitiallyConsistent(CompletionCheck(OneTime(sha, encode)), runId);
    AllRegister(sha, encode, runId, Held(InitialRows(runId), [], []), attempts);
    RunOk(sha, encode, runId, attempts);
    RunCloses(sha, encode, runId, attempts);
  }

  /** The observation type accepts error text that the attempt result then refuses: one lone surrogate. */
  lemma SurrogateObservation(dispatchId: Digest)
    ensures ValidObservation(Observation(dispatchId, [], FAULT, Some([0xD800])))
    ensures !Encodable(Observation(dispatchId, [], FAULT, Some([0xD800])))
  {
    var t: Text := [0xD800];
    assert !IsSpace(t[0]);
    assert !Scalar(t);
  }

  /** A model port that answers every dispatch with that error. */
  function SurrogatePort(): ModelPort {
    (entry: Entry, bytes: Bytes) => SurrogateOutcome(entry.dispatchId)
  }

  function SurrogateOutcome(dispatchId: Digest): ModelOutcome {
    SurrogateObservation(dispatchId);
    ModelReturned(Observation(dispatchId, [], FAULT, Some([0xD800])))
  }

  /** A single attempt with that port leaves a run that its own completions cannot close. */
  lemma {:induction false} SurrogateRunCannotClose(sha: HashFunction, encode: Body -> Bytes, runId: string, a: Attempt)
    requires a.model == SurrogatePort() && Registers(sha, runId, InitialRows(runId), a)
    ensures var s := Outcome(sha, encode, runId, [a]);
      && |s.db.entries| == 1 && s.completions == []
      && !CanClose(CompletionCheck(OneTime(sha, encode)), runId, s.db, Manifest(runId, s.db.entries), s.completions)
  {
    var s := Held(InitialRows(runId), [], []);
    var entry := EntryOf(sha, runId, s.db, a);
    SurrogateObservation(entry.dispatchId);
    assert Observe(a, entry) == SurrogateOutcome(entry.dispatchId).observation;
    UnencodableStrands(sha, encode, runId, s, a);
    OneEntryEach(sha, encode, runId, s, a);
    assert AfterAll(sha, encode, runId, After(sha, encode, runId, s, a), [a][1..]) == After(sha, encode, runId, s, a);
    RunCloses(sha, encode, runId, [a]);
  }
}
