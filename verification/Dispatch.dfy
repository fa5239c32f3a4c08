/** The append-only dispatch manifest, signed completions, and one run's persisted rows as a state machine. */
module Dispatch {
  import opened Contracts
  import opened Sorting
  import opened OneTimeSignature
  import opened Records

  datatype Entry = Entry(
    runId: string, sequence: nat, problemId: Digest, arm: Arm, attempt: nat, requestSha: Digest,
    verifierSha: Digest, predecessor: Digest, dispatchId: Digest, entrySha: Digest)
  {
    function LogicalKey(): (Digest, Arm, nat) {
      (problemId, arm, attempt)
    }
  }

  function CreateEntry(
    runId: string, sequence: nat, problemId: Digest, arm: Arm, attempt: nat, requestSha: Digest,
    verifierSha: Digest, predecessor: Digest): Entry
  {
    var dispatchId := DispatchDigest(runId, problemId, arm, attempt, requestSha, verifierSha);
    Entry(runId, sequence, problemId, arm, attempt, requestSha, verifierSha, predecessor, dispatchId,
          EntryDigest(sequence, predecessor, dispatchId))
  }

  /** The stored digests are the ones its content recomputes to. */
  predicate Canonical(e: Entry) {
    e == CreateEntry(e.runId, e.sequence, e.problemId, e.arm, e.attempt, e.requestSha, e.verifierSha, e.predecessor)
  }

  datatype Manifest = Manifest(runId: string, entries: seq<Entry>)
  {
    function Sha(): Digest {
      ManifestDigest(runId, EntryShas(entries))
    }
  }

  function EntryShas(entries: seq<Entry>): (s: seq<Digest>)
    ensures |s| == |entries| && forall i :: 0 <= i < |entries| ==> s[i] == entries[i].entrySha
  {
    Map((e: Entry) => e.entrySha, entries)
  }

  function Predecessor(entries: seq<Entry>): Digest {
    if entries == [] then ZeroDigest else entries[|entries| - 1].entrySha
  }

  /** The entry stands at position `i` of its run's chain. */
  predicate Link(runId: string, e: Entry, i: nat, predecessor: Digest) {
    Canonical(e) && e.runId == runId && e.sequence == i && e.predecessor == predecessor
  }

  /** Logical attempts, dispatch ids and verifier commitments are each used once. */
  predicate Apart(e: Entry, f: Entry) {
    e.LogicalKey() != f.LogicalKey() && e.dispatchId != f.dispatchId && e.verifierSha != f.verifierSha
  }

  predicate ApartFromAll(entries: seq<Entry>, e: Entry) {
    entries == [] || (ApartFromAll(entries[..|entries| - 1], e) && Apart(entries[|entries| - 1], e))
  }

  lemma {:induction false} ApartAt(entries: seq<Entry>, e: Entry, i: nat)
    requires ApartFromAll(entries, e) && i < |entries|
    ensures Apart(entries[i], e)
  {
    var n := |entries| - 1;
    if i < n {
      ApartAt(entries[..n], e, i);
    }
  }

  /** A hash-linked chain from the zero digest, each entry apart from all before it. */
  predicate Chain(runId: string, entries: seq<Entry>) {
    entries == [] ||
    var n := |entries| - 1;
    && Chain(runId, entries[..n])
    && Link(runId, entries[n], n, Predecessor(entries[..n]))
    && ApartFromAll(entries[..n], entries[n])
  }

  predicate ManifestOk(m: Manifest) {
    Chain(m.runId, m.entries)
  }

  lemma ChainStep(runId: string, entries: seq<Entry>, e: Entry)
    ensures Chain(runId, entries + [e]) <==>
      && Chain(runId, entries) && Link(runId, e, |entries|, Predecessor(entries)) && ApartFromAll(entries, e)
  {
    var all := entries + [e];
    assert all[..|entries|] == entries && all[|entries|] == e;
  }

  lemma {:induction false} ChainPrefix(runId: string, entries: seq<Entry>, n: nat)
    requires Chain(runId, entries) && n <= |entries|
    ensures Chain(runId, entries[..n])
    decreases |entries|
  {
    if n < |entries| {
      ChainPrefix(runId, entries[..|entries| - 1], n);
      TakeTake(entries, |entries| - 1, n);
    } else {
      assert entries[..n] == entries;
    }
  }

  lemma ChainLink(runId: string, entries: seq<Entry>, i: nat)
    requires Chain(runId, entries) && i < |entries|
    ensures Link(runId, entries[i], i, Predecessor(entries[..i])) && ApartFromAll(entries[..i], entries[i])
  {
    ChainPrefix(runId, entries, i + 1);
    assert entries[..i + 1][..i] == entries[..i];
  }

  lemma ChainApart(runId: string, entries: seq<Entry>, i: nat, j: nat)
    requires Chain(runId, entries) && i < j < |entries|
    ensures Apart(entries[i], entries[j])
  {
    ChainLink(runId, entries, j);
    ApartAt(entries[..j], entries[j], i);
  }

  function NextEntry(runId: string, entries: seq<Entry>, request: Request, verifierSha: Digest): Entry {
    CreateEntry(runId, |entries|, request.ProblemId(), request.arm, request.attempt, request.Sha(), verifierSha,
                Predecessor(entries))
  }

  function LogicalKeys(entries: seq<Entry>): set<(Digest, Arm, nat)> {
    if entries == [] then {} else LogicalKeys(entries[..|entries| - 1]) + {entries[|entries| - 1].LogicalKey()}
  }

  function DispatchIds(entries: seq<Entry>): set<Digest> {
    if entries == [] then {} else DispatchIds(entries[..|entries| - 1]) + {entries[|entries| - 1].dispatchId}
  }

  function VerifierShas(entries: seq<Entry>): set<Digest> {
    if entries == [] then {} else VerifierShas(entries[..|entries| - 1]) + {entries[|entries| - 1].verifierSha}
  }

  lemma {:induction false} ApartBySets(entries: seq<Entry>, e: Entry)
    ensures ApartFromAll(entries, e) <==>
      && e.LogicalKey() !in LogicalKeys(entries) && e.dispatchId !in DispatchIds(entries)
      && e.verifierSha !in VerifierShas(entries)
  {
    if entries != [] {
      ApartBySets(entries[..|entries| - 1], e);
    }
  }

  lemma SetsStep(entries: seq<Entry>, e: Entry)
    ensures LogicalKeys(entries + [e]) == LogicalKeys(entries) + {e.LogicalKey()}
    ensures DispatchIds(entries + [e]) == DispatchIds(entries) + {e.dispatchId}
    ensures VerifierShas(entries + [e]) == VerifierShas(entries) + {e.verifierSha}
  {
    assert (entries + [e])[..|entries|] == entries;
  }

  lemma {:induction false} ManifestStep(runId: string, entries: seq<Entry>, i: nat)
    requires i < |entries|
    ensures var before, after, e := entries[..i], entries[..i + 1], entries[i];
      && (Chain(runId, after) <==>
           && Chain(runId, before) && Link(runId, e, i, Predecessor(before)) && e.LogicalKey() !in LogicalKeys(before)
           && e.dispatchId !in DispatchIds(before) && e.verifierSha !in VerifierShas(before))
      && Predecessor(after) == e.entrySha && LogicalKeys(after) == LogicalKeys(before) + {e.LogicalKey()}
      && DispatchIds(after) == DispatchIds(before) + {e.dispatchId}
      && VerifierShas(after) == VerifierShas(before) + {e.verifierSha}
  {
    TakeSnoc(entries, i);
    ChainStep(runId, entries[..i], entries[i]);
    ApartBySets(entries[..i], entries[i]);
    SetsStep(entries[..i], entries[i]);
  }

  lemma {:induction false} BrokenPrefix(runId: string, entries: seq<Entry>, n: nat)
    requires n <= |entries| && !Chain(runId, entries[..n])
    ensures !Chain(runId, entries)
  {
    if Chain(runId, entries) {
      ChainPrefix(runId, entries, n);
    }
  }

  /** The manifest constructor's checking loop, with its three sets. */
  method CheckManifest(m: Manifest) returns (ok: bool)
    ensures ok <==> ManifestOk(m)
  {
    var predecessor := ZeroDigest;
    var logical: set<(Digest, Arm, nat)> := {};
    var ids: set<Digest> := {};
    var verifiers: set<Digest> := {};
    for i := 0 to |m.entries|
      invariant predecessor == Predecessor(m.entries[..i]) && Chain(m.runId, m.entries[..i])
      invariant logical == LogicalKeys(m.entries[..i]) && ids == DispatchIds(m.entries[..i])
      invariant verifiers == VerifierShas(m.entries[..i])
    {
      var e := m.entries[i];
      ManifestStep(m.runId, m.entries, i);
      if !Link(m.runId, e, i, predecessor) || e.LogicalKey() in logical || e.dispatchId in ids || e.verifierSha in verifiers {
        BrokenPrefix(m.runId, m.entries, i + 1);
        return false;
      }
      logical, ids, verifiers := logical + {e.LogicalKey()}, ids + {e.dispatchId}, verifiers + {e.verifierSha};
      predecessor := e.entrySha;
    }
    TakeAll(m.entries);
    return true;
  }

  /** A manifest's head digest determines its whole history. */
  lemma HeadDeterminesHistory(a: Manifest, b: Manifest)
    requires ManifestOk(a) && ManifestOk(b) && a.Sha() == b.Sha()
    ensures a == b
  {
    forall i | 0 <= i < |a.entries| ensures a.entries[i] == b.entries[i] {
      assert EntryShas(a.entries)[i] == EntryShas(b.entries)[i];
      ChainLink(a.runId, a.entries, i);
      ChainLink(b.runId, b.entries, i);
      SameEntry(a.entries[i], b.entries[i]);
    }
  }

  /** Even one entry digest fixes every entry before it. */
  lemma {:induction false} EntryDeterminesPrefix(a: seq<Entry>, b: seq<Entry>, runId: string, i: nat)
    requires Chain(runId, a) && Chain(runId, b) && i < |a| && i < |b| && a[i].entrySha == b[i].entrySha
    ensures a[..i + 1] == b[..i + 1]
  {
    SameLink(a, b, runId, i);
    if i > 0 {
      EntryDeterminesPrefix(a, b, runId, i - 1);
    }
    ExtendPrefix(a, b, i);
  }

  lemma ExtendPrefix<T>(a: seq<T>, b: seq<T>, i: nat)
    requires i < |a| && i < |b| && a[..i] == b[..i] && a[i] == b[i]
    ensures a[..i + 1] == b[..i + 1]
  {
    TakeSnoc(a, i);
    TakeSnoc(b, i);
  }

  lemma SameLink(a: seq<Entry>, b: seq<Entry>, runId: string, i: nat)
    requires Chain(runId, a) && Chain(runId, b) && i < |a| && i < |b| && a[i].entrySha == b[i].entrySha
    ensures a[i] == b[i] && (i > 0 ==> a[i - 1].entrySha == b[i - 1].entrySha)
  {
    ChainLink(runId, a, i);
    ChainLink(runId, b, i);
    SameEntry(a[i], b[i]);
  }

  lemma SameEntry(e: Entry, f: Entry)
    requires Canonical(e) && Canonical(f) && e.entrySha == f.entrySha
    ensures e == f
  {
  }

  // ---- completions ----

  /** What a completion signature covers. */
  datatype Body = Body(
    runId: string, dispatchId: Digest, entrySha: Digest, requestSha: Digest, status: CompletionStatus, payloadSha: Digest)

  function CompletionBody(e: Entry, p: Payload): Body
    requires ValidPayload(p)
  {
    Body(e.runId, e.dispatchId, e.entrySha, e.requestSha, Status(p), PayloadDigest(p))
  }

  /** The signature test (public key, message, signature) and the canonical bytes of a signed body. Dispatch is
      proved for every such scheme; `OneTime` is the one in use. */
  datatype Crypto = Crypto(accepts: (Bytes, Bytes, Bytes) -> bool, encode: Body -> Bytes)

  function OneTime(sha: HashFunction, encode: Body -> Bytes): Crypto {
    Crypto((public: Bytes, message: Bytes, signature: Bytes) => Accepts(sha, public, message, signature), encode)
  }

  predicate ValidCompletion(c: Completion) {
    ValidPayload(c.payload) && |c.publicKey| == 16384 && |c.signature| == 8192
  }

  predicate RequestMatches(e: Entry, r: Request) {
    && e.runId == r.runId && e.problemId == r.ProblemId() && e.arm == r.arm && e.attempt == r.attempt
    && e.requestSha == r.Sha()
  }

  /** The authority's whole test of one completion against one registered entry and its stored request. */
  predicate Validates(k: Crypto, e: Entry, c: Completion, request: Request) {
    && ValidCompletion(c)
    && c.runId == e.runId && c.dispatchId == e.dispatchId && c.entrySha == e.entrySha
    && c.payload.request == request
    && request.Sha() == e.requestSha && request.ProblemId() == e.problemId && request.arm == e.arm
    && request.attempt == e.attempt
    && OtsCommitment(c.publicKey) == e.verifierSha
    && k.accepts(c.publicKey, k.encode(CompletionBody(e, c.payload)), c.signature)
  }

  method ValidateRecord(k: Crypto, e: Entry, c: Completion, request: Request) returns (ok: bool)
    ensures ok <==> Validates(k, e, c, request)
  {
    if !ValidCompletion(c) || c.runId != e.runId || c.dispatchId != e.dispatchId || c.entrySha != e.entrySha {
      return false;
    }
    if c.payload.request != request {
      return false;
    }
    if request.Sha() != e.requestSha || request.ProblemId() != e.problemId || request.arm != e.arm
       || request.attempt != e.attempt {
      return false;
    }
    if OtsCommitment(c.publicKey) != e.verifierSha {
      return false;
    }
    return k.accepts(c.publicKey, k.encode(CompletionBody(e, c.payload)), c.signature);
  }

  datatype Joined = Joined(entry: Entry, completion: Completion)

  datatype CloseReceipt = CloseReceipt(runId: string, manifestSha: Digest, completionSet: Digest, closeSha: Digest)

  datatype Join = Join(joined: seq<Joined>, receipt: CloseReceipt)

  function RecordShas(completions: seq<Completion>): (s: seq<Digest>)
    ensures |s| == |completions| && forall i :: 0 <= i < |completions| ==> s[i] == completions[i].Sha()
  {
    Map((c: Completion) => c.Sha(), completions)
  }

  function SetDigest(head: Digest, completions: seq<Completion>): Digest {
    CompletionSetDigest(head, RecordShas(completions))
  }

  // ---- one run's persisted rows ----

  /** A per-record test; closing is proved for any such test, and run with `CompletionCheck`. */
  type Check = (Entry, Completion, Request) -> bool

  function CompletionCheck(k: Crypto): Check {
    (e: Entry, c: Completion, r: Request) => Validates(k, e, c, r)
  }

  datatype Terminal = OPEN | CLOSED | ABORTED

  datatype CompletionRow = CompletionRow(sequence: nat, dispatchId: Digest, record: Completion, recordSha: Digest)

  /** Registered entries with the requests stored beside them, the head, and the terminal state. */
  datatype Rows = Rows(
    entries: seq<Entry>, requests: seq<Request>, head: Digest, state: Terminal,
    completionSet: Option<Digest>, closeSha: Option<Digest>, abortReason: Option<string>, abortSha: Option<Digest>,
    completions: seq<CompletionRow>)

  function InitialRows(runId: string): Rows {
    Rows([], [], Manifest(runId, []).Sha(), OPEN, None, None, None, None, [])
  }

  function CompletionsOf(rows: seq<CompletionRow>): seq<Completion> {
    Map((r: CompletionRow) => r.record, rows)
  }

  predicate RequestsMatch(entries: seq<Entry>, requests: seq<Request>) {
    && |entries| == |requests|
    && forall i :: 0 <= i < |entries| ==> ValidRequest(requests[i]) && RequestMatches(entries[i], requests[i])
  }

  /** What every reachable run satisfies: the head is the digest of the entries, each entry keeps the valid
      request it was registered with, and a closed run holds one accepted completion per entry, in order. */
  ghost predicate Consistent(check: Check, runId: string, db: Rows) {
    && Chain(runId, db.entries) && db.head == Manifest(runId, db.entries).Sha()
    && RequestsMatch(db.entries, db.requests)
    && (db.state == CLOSED ==> ClosedWell(check, runId, db))
    && (db.state == ABORTED ==> db.abortReason.Some? && db.abortSha == Some(AbortDigest(runId, db.head, db.abortReason.value)))
  }

  ghost predicate ClosedWell(check: Check, runId: string, db: Rows)
    requires |db.entries| == |db.requests|
  {
    && db.entries != [] && |db.completions| == |db.entries|
    && (forall i :: 0 <= i < |db.entries| ==> RowCloses(check, db.entries[i], db.requests[i], db.completions[i], i))
    && db.completionSet == Some(SetDigest(db.head, CompletionsOf(db.completions)))
    && db.closeSha == Some(CloseDigest(runId, db.head, db.completionSet.value))
  }

  ghost predicate RowCloses(check: Check, e: Entry, r: Request, c: CompletionRow, i: nat) {
    && c.sequence == i && c.dispatchId == e.dispatchId && c.recordSha == c.record.Sha()
    && c.record.dispatchId == e.dispatchId && check(e, c.record, r)
  }

  // ---- register ----

  predicate Fresh(entries: seq<Entry>, request: Request, verifierSha: Digest) {
    (request.ProblemId(), request.arm, request.attempt) !in LogicalKeys(entries) && verifierSha !in VerifierShas(entries)
  }

  /** When registration is granted: compare-and-swap on the whole manifest, plus freshness. */
  predicate CanRegister(runId: string, db: Rows, presented: Manifest, request: Request, verifierSha: Digest) {
    && ManifestOk(presented) && ValidRequest(request) && request.runId == runId
    && db.state == OPEN && presented == Manifest(runId, db.entries)
    && Fresh(db.entries, request, verifierSha)
  }

  function Registered(runId: string, db: Rows, request: Request, verifierSha: Digest): Rows {
    var entries := db.entries + [NextEntry(runId, db.entries, request, verifierSha)];
    db.(entries := entries, requests := db.requests + [request], head := Manifest(runId, entries).Sha())
  }

  lemma {:induction false} DispatchIdBinds(runId: string, entries: seq<Entry>, e: Entry)
    requires Chain(runId, entries) && Canonical(e) && e.dispatchId in DispatchIds(entries)
    ensures e.verifierSha in VerifierShas(entries)
  {
    var n := |entries| - 1;
    if e.dispatchId in DispatchIds(entries[..n]) {
      DispatchIdBinds(runId, entries[..n], e);
    }
  }

  /** Appending a fresh request keeps the manifest sound; anything less than fresh would break it. */
  lemma AppendKeepsChain(runId: string, entries: seq<Entry>, request: Request, verifierSha: Digest)
    requires Chain(runId, entries)
    ensures Chain(runId, entries + [NextEntry(runId, entries, request, verifierSha)]) <==> Fresh(entries, request, verifierSha)
  {
    var e := NextEntry(runId, entries, request, verifierSha);
    ChainStep(runId, entries, e);
    ApartBySets(entries, e);
    if e.dispatchId in DispatchIds(entries) {
      DispatchIdBinds(runId, entries, e);
    }
  }

  lemma RegisterKeepsConsistent(check: Check, runId: string, db: Rows, presented: Manifest, request: Request, verifierSha: Digest)
    requires Consistent(check, runId, db) && CanRegister(runId, db, presented, request, verifierSha)
    ensures Consistent(check, runId, Registered(runId, db, request, verifierSha))
  {
    AppendKeepsChain(runId, db.entries, request, verifierSha);
    RequestsAppend(db.entries, db.requests, NextEntry(runId, db.entries, request, verifierSha), request);
  }

  lemma RequestsAppend(entries: seq<Entry>, requests: seq<Request>, e: Entry, r: Request)
    requires RequestsMatch(entries, requests) && ValidRequest(r) && RequestMatches(e, r)
    ensures RequestsMatch(entries + [e], requests + [r])
  {
  }

  // ---- close ----

  predicate DistinctIds(records: seq<Completion>) {
    forall i, j :: 0 <= i < j < |records| ==> records[i].dispatchId != records[j].dispatchId
  }

  /** The first record presented for a dispatch. */
  function Lookup(records: seq<Completion>, id: Digest): Option<Completion> {
    if records == [] then None
    else if records[0].dispatchId == id then Some(records[0])
    else Lookup(records[1..], id)
  }

  /** The position of a dispatch among the entries. */
  function Find(entries: seq<Entry>, id: Digest): Option<nat> {
    if entries == [] then None
    else if entries[|entries| - 1].dispatchId == id then Some(|entries| - 1)
    else Find(entries[..|entries| - 1], id)
  }

  lemma {:induction false} FindSound(entries: seq<Entry>, id: Digest)
    ensures Find(entries, id).Some? ==> Find(entries, id).value < |entries| && entries[Find(entries, id).value].dispatchId == id
    ensures Find(entries, id).None? ==> forall i :: 0 <= i < |entries| ==> entries[i].dispatchId != id
  {
    if entries != [] {
      FindSound(entries[..|entries| - 1], id);
    }
  }

  lemma FindAt(runId: string, entries: seq<Entry>, n: nat)
    requires Chain(runId, entries) && n < |entries|
    ensures Find(entries, entries[n].dispatchId) == Some(n)
  {
    FindSound(entries, entries[n].dispatchId);
    var m := Find(entries, entries[n].dispatchId).value;
    if m < n {
      ChainApart(runId, entries, m, n);
    } else if n < m {
      ChainApart(runId, entries, n, m);
    }
  }

  lemma {:induction false} LookupSound(records: seq<Completion>, id: Digest)
    ensures Lookup(records, id).Some? ==> Lookup(records, id).value in records && Lookup(records, id).value.dispatchId == id
    ensures Lookup(records, id).None? ==> forall c :: c in records ==> c.dispatchId != id
  {
    if records != [] {
      LookupSound(records[1..], id);
      assert records == [records[0]] + records[1..];
    }
  }

  lemma LookupUnique(records: seq<Completion>, c: Completion)
    requires DistinctIds(records) && c in records
    ensures Lookup(records, c.dispatchId) == Some(c)
  {
    LookupSound(records, c.dispatchId);
    var d := Lookup(records, c.dispatchId).value;
    var i :| 0 <= i < |records| && records[i] == c;
    var j :| 0 <= j < |records| && records[j] == d;
  }

  /** The record answers a registered dispatch and passes the test against its entry and stored request. */
  ghost predicate Vouched(check: Check, entries: seq<Entry>, requests: seq<Request>, c: Completion) {
    var n := Find(entries, c.dispatchId);
    n.Some? && n.value < |entries| && n.value < |requests| && check(entries[n.value], c, requests[n.value])
  }

  predicate AllAnswered(entries: seq<Entry>, records: seq<Completion>) {
    forall n :: 0 <= n < |entries| ==> Lookup(records, entries[n].dispatchId).Some?
  }

  /** One record per registered dispatch, none for anything else, and every record good. */
  ghost predicate Covers(check: Check, entries: seq<Entry>, requests: seq<Request>, records: seq<Completion>) {
    && DistinctIds(records)
    && (forall c :: c in records ==> Vouched(check, entries, requests, c))
    && AllAnswered(entries, records)
  }

  predicate AllValid(records: seq<Completion>) {
    forall c :: c in records ==> ValidCompletion(c)
  }

  ghost predicate CanClose(check: Check, runId: string, db: Rows, presented: Manifest, records: seq<Completion>) {
    && ManifestOk(presented) && presented.entries != [] && AllValid(records)
    && db.state == OPEN && presented == Manifest(runId, db.entries)
    && Covers(check, db.entries, db.requests, records)
  }

  /** The completion rows a close writes: one per entry, in manifest order. */
  function ClosingRows(entries: seq<Entry>, records: seq<Completion>): (c: seq<CompletionRow>)
    requires AllAnswered(entries, records)
  {
    if entries == [] then []
    else
      var e := entries[|entries| - 1];
      var c := Lookup(records, e.dispatchId).value;
      ClosingRows(entries[..|entries| - 1], records) + [CompletionRow(e.sequence, e.dispatchId, c, c.Sha())]
  }

  lemma {:induction false} ClosingRowAt(entries: seq<Entry>, records: seq<Completion>, n: nat)
    requires AllAnswered(entries, records) && n < |entries|
    ensures |ClosingRows(entries, records)| == |entries|
    ensures Lookup(records, entries[n].dispatchId).Some?
    ensures ClosingRows(entries, records)[n] ==
      CompletionRow(entries[n].sequence, entries[n].dispatchId, Lookup(records, entries[n].dispatchId).value,
                    Lookup(records, entries[n].dispatchId).value.Sha())
  {
    var m := |entries| - 1;
    ClosingRowsLength(entries[..m], records);
    if n < m {
      ClosingRowAt(entries[..m], records, n);
    }
  }

  lemma {:induction false} ClosingRowsLength(entries: seq<Entry>, records: seq<Completion>)
    requires AllAnswered(entries, records)
    ensures |ClosingRows(entries, records)| == |entries|
  {
    if entries != [] {
      ClosingRowsLength(entries[..|entries| - 1], records);
    }
  }

  function Closed(runId: string, db: Rows, records: seq<Completion>): Rows
    requires AllAnswered(db.entries, records)
  {
    var completions := ClosingRows(db.entries, records);
    var completionSet := SetDigest(db.head, CompletionsOf(completions));
    db.(state := CLOSED, completionSet := Some(completionSet),
        closeSha := Some(CloseDigest(runId, db.head, completionSet)), completions := completions)
  }

  lemma ClosedRowAt(check: Check, runId: string, db: Rows, records: seq<Completion>, n: nat)
    requires Chain(runId, db.entries) && |db.entries| == |db.requests| && n < |db.entries|
    requires Covers(check, db.entries, db.requests, records)
    ensures |ClosingRows(db.entries, records)| == |db.entries|
    ensures RowCloses(check, db.entries[n], db.requests[n], ClosingRows(db.entries, records)[n], n)
  {
    ClosingRowAt(db.entries, records, n);
    ChainLink(runId, db.entries, n);
    LookupSound(records, db.entries[n].dispatchId);
    var c := Lookup(records, db.entries[n].dispatchId).value;
    assert Vouched(check, db.entries, db.requests, c);
    FindAt(runId, db.entries, n);
  }

  lemma CloseKeepsConsistent(check: Check, runId: string, db: Rows, presented: Manifest, records: seq<Completion>)
    requires Consistent(check, runId, db) && CanClose(check, runId, db, presented, records)
    ensures Consistent(check, runId, Closed(runId, db, records))
  {
    forall n | 0 <= n < |db.entries|
      ensures |ClosingRows(db.entries, records)| == |db.entries|
      ensures RowCloses(check, db.entries[n], db.requests[n], ClosingRows(db.entries, records)[n], n)
    {
      ClosedRowAt(check, runId, db, records, n);
    }
    assert |ClosingRows(db.entries, records)| == |db.entries| by {
      ClosedRowAt(check, runId, db, records, 0);
    }
  }

  lemma SameLookup(a: seq<Completion>, b: seq<Completion>, id: Digest)
    requires DistinctIds(a) && DistinctIds(b) && (forall c :: c in a <==> c in b)
    ensures Lookup(a, id) == Lookup(b, id)
  {
    LookupSound(a, id);
    LookupSound(b, id);
    if Lookup(a, id).Some? {
      LookupUnique(b, Lookup(a, id).value);
    }
  }

  lemma DistinctIdsPermute(a: seq<Completion>, b: seq<Completion>)
    requires DistinctIds(a) && multiset(a) == multiset(b)
    ensures DistinctIds(b)
  {
    var id := (c: Completion) => c.dispatchId;
    MapPermutation(id, a, b);
    assert Distinct(Map(id, a));
    MultisetDistinct(Map(id, a), Map(id, b));
    forall i, j | 0 <= i < j < |b| ensures b[i].dispatchId != b[j].dispatchId {
      assert Map(id, b)[i] != Map(id, b)[j];
    }
  }

  lemma {:induction false} SameClosingRows(entries: seq<Entry>, a: seq<Completion>, b: seq<Completion>)
    requires DistinctIds(a) && DistinctIds(b) && (forall c :: c in a <==> c in b)
    requires AllAnswered(entries, a) && AllAnswered(entries, b)
    ensures ClosingRows(entries, a) == ClosingRows(entries, b)
  {
    if entries != [] {
      SameClosingRows(entries[..|entries| - 1], a, b);
      SameLookup(a, b, entries[|entries| - 1].dispatchId);
    }
  }

  lemma CoversPermute(check: Check, entries: seq<Entry>, requests: seq<Request>, a: seq<Completion>, b: seq<Completion>)
    requires Covers(check, entries, requests, a) && multiset(a) == multiset(b)
    ensures Covers(check, entries, requests, b)
  {
    DistinctIdsPermute(a, b);
    MultisetLength(a, b);
    forall n | 0 <= n < |entries| ensures Lookup(b, entries[n].dispatchId).Some? {
      SameLookup(a, b, entries[n].dispatchId);
    }
  }

  /** Presenting the same records in another order closes the run identically. */
  lemma CloseIgnoresOrder(check: Check, runId: string, db: Rows, presented: Manifest, a: seq<Completion>, b: seq<Completion>)
    requires CanClose(check, runId, db, presented, a) && multiset(a) == multiset(b)
    ensures CanClose(check, runId, db, presented, b)
    ensures Closed(runId, db, a) == Closed(runId, db, b)
  {
    MultisetLength(a, b);
    CoversPermute(check, db.entries, db.requests, a, b);
    SameClosingRows(db.entries, a, b);
  }

  // ---- abort ----

  predicate CanAbort(db: Rows, reason: string) {
    db.state == OPEN && reason != ""
  }

  function Aborted(runId: string, db: Rows, reason: string): Rows {
    db.(state := ABORTED, abortReason := Some(reason), abortSha := Some(AbortDigest(runId, db.head, reason)))
  }

  // ---- reading back ----

  function JoinedOf(entries: seq<Entry>, completions: seq<CompletionRow>): (j: seq<Joined>)
    requires |entries| == |completions|
    ensures |j| == |entries|
  {
    if entries == [] then []
    else
      var n := |entries| - 1;
      JoinedOf(entries[..n], completions[..n]) + [Joined(entries[n], completions[n].record)]
  }

  lemma {:induction false} JoinedAt(entries: seq<Entry>, completions: seq<CompletionRow>, i: nat)
    requires |entries| == |completions| && i < |entries|
    ensures JoinedOf(entries, completions)[i] == Joined(entries[i], completions[i].record)
  {
    var n := |entries| - 1;
    if i < n {
      JoinedAt(entries[..n], completions[..n], i);
    }
  }

  /** The join a closed run holds. */
  function StoredJoin(runId: string, db: Rows): Join
    requires |db.entries| == |db.completions| && db.completionSet.Some?
  {
    Join(JoinedOf(db.entries, db.completions),
         CloseReceipt(runId, db.head, db.completionSet.value, CloseDigest(runId, db.head, db.completionSet.value)))
  }

  // ---- the run as a state machine ----

  datatype Call =
    | Register(presented: Manifest, request: Request, verifierSha: Digest)
    | Close(closing: Manifest, records: seq<Completion>)
    | Abort(reason: string)
    | Reopen

  ghost predicate Succeeds(check: Check, runId: string, db: Rows, call: Call) {
    match call
    case Register(m, r, v) => CanRegister(runId, db, m, r, v)
    case Close(m, rs) => CanClose(check, runId, db, m, rs)
    case Abort(reason) => CanAbort(db, reason)
    case Reopen => true
  }

  /** One atomic client call; a refused call raises and changes nothing. */
  ghost function Step(check: Check, runId: string, db: Rows, call: Call): Rows {
    if !Succeeds(check, runId, db, call) then db
    else match call
      case Register(_, r, v) => Registered(runId, db, r, v)
      case Close(_, rs) => Closed(runId, db, rs)
      case Abort(reason) => Aborted(runId, db, reason)
      case Reopen => db
  }

  ghost function Run(check: Check, runId: string, db: Rows, calls: seq<Call>): Rows
    decreases |calls|
  {
    if calls == [] then db else Run(check, runId, Step(check, runId, db, calls[0]), calls[1..])
  }

  lemma StepKeepsConsistent(check: Check, runId: string, db: Rows, call: Call)
    requires Consistent(check, runId, db)
    ensures Consistent(check, runId, Step(check, runId, db, call))
  {
    if Succeeds(check, runId, db, call) {
      match call
      case Register(m, r, v) => RegisterKeepsConsistent(check, runId, db, m, r, v);
      case Close(m, rs) => CloseKeepsConsistent(check, runId, db, m, rs);
      case Abort(_) =>
      case Reopen =>
    }
  }

  /** Append-only history, and terminal states that nothing leaves. */
  ghost predicate Extends(before: Rows, after: Rows) {
    before.entries <= after.entries && (before.state != OPEN ==> after == before)
  }

  lemma StepExtends(check: Check, runId: string, db: Rows, call: Call)
    ensures Extends(db, Step(check, runId, db, call))
  {
  }

  /** Over every interleaving of every client's calls, from any consistent state: consistency is kept, so the
      head always is the digest of the entries; history only grows by appending; closed and aborted runs stay. */
  lemma {:induction false} RunSafety(check: Check, runId: string, db: Rows, calls: seq<Call>)
    requires Consistent(check, runId, db)
    ensures Consistent(check, runId, Run(check, runId, db, calls))
    ensures Extends(db, Run(check, runId, db, calls))
    decreases |calls|
  {
    if calls != [] {
      StepKeepsConsistent(check, runId, db, calls[0]);
      StepExtends(check, runId, db, calls[0]);
      RunSafety(check, runId, Step(check, runId, db, calls[0]), calls[1..]);
    }
  }

  lemma InitiallyConsistent(check: Check, runId: string)
    ensures Consistent(check, runId, InitialRows(runId))
  {
  }

  /** One presented manifest advances the head at most once, whatever else any client does in between. */
  lemma OneRegistrationPerManifest(
    check: Check, runId: string, db: Rows, presented: Manifest,
    first: Request, firstVerifier: Digest, between: seq<Call>, second: Request, secondVerifier: Digest)
    requires Consistent(check, runId, db) && Succeeds(check, runId, db, Register(presented, first, firstVerifier))
    ensures !Succeeds(check, runId, Run(check, runId, Step(check, runId, db, Register(presented, first, firstVerifier)), between),
                      Register(presented, second, secondVerifier))
  {
    var next := Step(check, runId, db, Register(presented, first, firstVerifier));
    StepKeepsConsistent(check, runId, db, Register(presented, first, firstVerifier));
    RunSafety(check, runId, next, between);
  }

  /** Two reachable states with one head have one history. */
  lemma EqualHeadsEqualHistories(check: Check, runId: string, a: Rows, b: Rows)
    requires Consistent(check, runId, a) && Consistent(check, runId, b) && a.head == b.head
    ensures a.entries == b.entries && a.requests == b.requests
  {
    HeadDeterminesHistory(Manifest(runId, a.entries), Manifest(runId, b.entries));
    forall i | 0 <= i < |a.requests| ensures a.requests[i] == b.requests[i] {
      assert RequestMatches(a.entries[i], a.requests[i]) && RequestMatches(b.entries[i], b.requests[i]);
    }
  }

  /** After a close, every later state of the run is the closed one, join and all. */
  lemma JoinIsPermanent(check: Check, runId: string, db: Rows, presented: Manifest, records: seq<Completion>, later: seq<Call>)
    requires Consistent(check, runId, db) && CanClose(check, runId, db, presented, records)
    ensures Run(check, runId, Closed(runId, db, records), later) == Closed(runId, db, records)
  {
    CloseKeepsConsistent(check, runId, db, presented, records);
    RunSafety(check, runId, Closed(runId, db, records), later);
  }
}
