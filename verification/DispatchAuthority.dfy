/** The stateful side of dispatch: one-shot signers, and authorities that share one durable database. */
module Authority {
  import opened Contracts
  import opened Sorting
  import opened Grouping
  import opened OneTimeSignature
  import opened Records
  import opened Dispatch

  /** What a signer issues for an entry and payload under a key. */
  function Signed(sha: HashFunction, encode: Body -> Bytes, key: Bytes, e: Entry, p: Payload): Completion
    requires |key| == 16384 && ValidPayload(p)
  {
    Completion(e.runId, e.dispatchId, e.entrySha, p, PublicKey(sha, key), Signature(sha, key, encode(CompletionBody(e, p))))
  }

  predicate Signable(publicKey: Bytes, e: Entry, p: Payload) {
    Canonical(e) && ValidPayload(p) && RequestMatches(e, p.request) && e.verifierSha == OtsCommitment(publicKey)
  }

  lemma KeySizes(sha: HashFunction, key: Bytes, message: Bytes)
    requires |key| == 16384
    ensures |PublicKey(sha, key)| == 16384 && |Signature(sha, key, message)| == 8192
  {
    PublicKeyBlocks(sha, key);
    SignatureBlocks(Choices(Hash(sha, message)), key);
  }

  /** What a signer issues is exactly what the authority accepts for that entry and request. */
  lemma SignedValidates(sha: HashFunction, encode: Body -> Bytes, key: Bytes, e: Entry, p: Payload)
    requires |key| == 16384 && Signable(PublicKey(sha, key), e, p)
    ensures Validates(OneTime(sha, encode), e, Signed(sha, encode, key, e, p), p.request)
  {
    var message := encode(CompletionBody(e, p));
    KeySizes(sha, key, message);
    SignedVerifies(sha, key, message);
    assert OneTime(sha, encode).accepts(PublicKey(sha, key), message, Signature(sha, key, message));
  }

  /** Executor-owned signing capability: the key is zeroed by its first use. */
  class CompletionSigner {
    const sha: HashFunction
    const encode: Body -> Bytes
    const publicKey: Bytes
    var privateKey: array<byte>
    var spent: bool
    ghost var issued: seq<Completion>

    ghost predicate Valid()
      reads this, privateKey
    {
      && privateKey.Length == 16384
      && (!spent ==> publicKey == PublicKey(sha, privateKey[..]) && issued == [])
      && (spent ==> |issued| == 1 && forall i :: 0 <= i < privateKey.Length ==> privateKey[i] == 0)
    }

    constructor (sha: HashFunction, encode: Body -> Bytes, key: Bytes)
      requires |key| == 16384
      ensures Valid() && !spent && fresh(privateKey)
      ensures this.sha == sha && this.encode == encode && privateKey[..] == key && publicKey == PublicKey(sha, key)
    {
      this.sha := sha;
      this.encode := encode;
      this.publicKey := PublicKey(sha, key);
      this.spent := false;
      this.issued := [];
      var copy := new byte[16384](i requires 0 <= i < 16384 => key[i]);
      this.privateKey := copy;
      assert copy[..] == key;
    }

    function PublicCommitment(): Digest {
      OtsCommitment(publicKey)
    }

    /** Signs at most once in the signer's lifetime; a refusal leaves it as it was. */
    method Complete(entry: Entry, payload: Payload) returns (r: Result<Completion>)
      requires Valid()
      modifies this, privateKey
      ensures Valid() && privateKey == old(privateKey)
      ensures r.Ok? <==> !old(spent) && Signable(publicKey, entry, payload)
      ensures r.Ok? ==> spent && r.value == Signed(sha, encode, old(privateKey[..]), entry, payload)
      ensures r.Ok? ==> Validates(OneTime(sha, encode), entry, r.value, payload.request)
      ensures issued == old(issued) + (if r.Ok? then [r.value] else []) && |issued| <= 1
      ensures r.Raised? ==> spent == old(spent) && privateKey[..] == old(privateKey[..])
    {
      if !Canonical(entry) || !ValidPayload(payload) || !RequestMatches(entry, payload.request) {
        return Raised;
      }
      if PublicCommitment() != entry.verifierSha {
        return Raised;
      }
      if spent {
        return Raised;
      }
      var keyBytes := Consume();
      r := SignWith(keyBytes, entry, payload);
      issued := [r.value];
    }

    /** Takes the key out of the signer and leaves zeroes. */
    method Consume() returns (keyBytes: Bytes)
      requires Valid() && !spent
      modifies this`spent, privateKey
      ensures spent && keyBytes == old(privateKey[..])
      ensures forall i :: 0 <= i < privateKey.Length ==> privateKey[i] == 0
    {
      spent := true;
      keyBytes := privateKey[..];
      ZeroKey();
    }

    method SignWith(keyBytes: Bytes, entry: Entry, payload: Payload) returns (r: Result<Completion>)
      requires |keyBytes| == 16384 && publicKey == PublicKey(sha, keyBytes) && Signable(publicKey, entry, payload)
      ensures r == Ok(Signed(sha, encode, keyBytes, entry, payload))
      ensures Validates(OneTime(sha, encode), entry, r.value, payload.request)
    {
      var message := encode(CompletionBody(entry, payload));
      var signature := Sign(sha, keyBytes, message);
      SignedValidates(sha, encode, keyBytes, entry, payload);
      return Ok(Completion(entry.runId, entry.dispatchId, entry.entrySha, payload, publicKey, signature));
    }

    method ZeroKey()
      modifies privateKey
      ensures forall i :: 0 <= i < privateKey.Length ==> privateKey[i] == 0
    {
      for i := 0 to privateKey.Length
        invariant forall j :: 0 <= j < i ==> privateKey[j] == 0
      {
        privateKey[i] := 0;
      }
    }
  }

  /** The persisted tables, keyed by run; every authority handle on the file shares one. */
  class Database {
    var runs: map<string, Rows>

    constructor ()
      ensures runs == map[]
    {
      runs := map[];
    }
  }

  /** Storage that reads back: the chain, the head and the stored requests all recompute. */
  predicate Readable(runId: string, rows: Rows) {
    && RequestsMatch(rows.entries, rows.requests) && Chain(runId, rows.entries)
    && rows.head == Manifest(runId, rows.entries).Sha()
  }

  lemma {:induction false} LookupSnoc(records: seq<Completion>, c: Completion, id: Digest)
    ensures Lookup(records + [c], id) ==
      if Lookup(records, id).Some? then Lookup(records, id)
      else if c.dispatchId == id then Some(c) else None
  {
    if records == [] {
      assert records + [c] == [c];
    } else {
      LookupSnoc(records[1..], c, id);
      assert (records + [c])[1..] == records[1..] + [c];
    }
  }

  /** What the closing loop has established about the records seen so far. */
  ghost predicate Gathered(
    check: Check, entries: seq<Entry>, requests: seq<Request>, records: seq<Completion>, found: map<Digest, Completion>)
  {
    && DistinctIds(records) && (forall c :: c in records ==> Vouched(check, entries, requests, c))
    && (forall id :: id in found <==> Lookup(records, id).Some?)
    && (forall id :: id in found ==> Lookup(records, id) == Some(found[id]))
  }

  lemma GatherOne(check: Check, entries: seq<Entry>, requests: seq<Request>, records: seq<Completion>,
                  found: map<Digest, Completion>, c: Completion)
    requires Gathered(check, entries, requests, records, found)
    ensures c.dispatchId !in found && Vouched(check, entries, requests, c) ==>
            Gathered(check, entries, requests, records + [c], found[c.dispatchId := c])
    ensures DistinctIds(records + [c]) ==> c.dispatchId !in found
  {
    var all := records + [c];
    assert all[|records|] == c;
    assert forall i :: 0 <= i < |records| ==> all[i] == records[i];
    LookupSound(records, c.dispatchId);
    forall id ensures Lookup(all, id) ==
      if Lookup(records, id).Some? then Lookup(records, id) else if c.dispatchId == id then Some(c) else None
    {
      LookupSnoc(records, c, id);
    }
  }

  /** The stored completion at position `i` is for that entry, keeps its digest, and passes the test again. */
  predicate RowReads(check: Check, rows: Rows, i: nat) {
    && i < |rows.entries| && i < |rows.requests| && i < |rows.completions|
    && rows.completions[i].sequence == rows.entries[i].sequence
    && rows.completions[i].dispatchId == rows.entries[i].dispatchId
    && rows.completions[i].recordSha == rows.completions[i].record.Sha()
    && check(rows.entries[i], rows.completions[i].record, rows.requests[i])
  }

  ghost predicate AllRead(check: Check, rows: Rows) {
    forall i: nat :: i < |rows.entries| ==> RowReads(check, rows, i)
  }

  lemma ClosedRowReads(check: Check, runId: string, rows: Rows, i: nat)
    requires Consistent(check, runId, rows) && rows.state == CLOSED && i < |rows.entries|
    ensures RowReads(check, rows, i)
  {
    assert RowCloses(check, rows.entries[i], rows.requests[i], rows.completions[i], i);
    ChainLink(runId, rows.entries, i);
  }

  /** A consistent closed run reads back in full. */
  lemma AllReadWhenClosed(check: Check, runId: string, rows: Rows)
    requires Consistent(check, runId, rows) && rows.state == CLOSED
    ensures AllRead(check, rows)
  {
    forall i: nat | i < |rows.entries| ensures RowReads(check, rows, i) {
      ClosedRowReads(check, runId, rows, i);
    }
  }

  /** The join is the one stored. */
  predicate HoldsJoin(runId: string, rows: Rows, join: Join) {
    |rows.entries| == |rows.completions| && rows.completionSet.Some? && join == StoredJoin(runId, rows)
  }

  /** The manifest is the whole current one of an open run. */
  predicate IsCurrent(runId: string, rows: Rows, presented: Manifest) {
    ManifestOk(presented) && rows.state == OPEN && presented == Manifest(runId, rows.entries)
  }

  function AppendOutcome(runId: string, rows: Rows, request: Request, verifierSha: Digest): Result<Rows> {
    if Fresh(rows.entries, request, verifierSha) then Ok(Registered(runId, rows, request, verifierSha)) else Raised
  }

  /** What a registration leaves, or a refusal. */
  function RegisterOutcome(runId: string, rows: Rows, presented: Manifest, request: Request, verifierSha: Digest): Result<Rows> {
    if ValidRequest(request) && request.runId == runId && IsCurrent(runId, rows, presented)
    then AppendOutcome(runId, rows, request, verifierSha) else Raised
  }

  lemma RegisterOutcomeIs(runId: string, rows: Rows, presented: Manifest, request: Request, verifierSha: Digest)
    ensures RegisterOutcome(runId, rows, presented, request, verifierSha) ==
      if CanRegister(runId, rows, presented, request, verifierSha) then Ok(Registered(runId, rows, request, verifierSha)) else Raised
  {
  }

  class DispatchAuthority {
    const db: Database
    const runId: string
    const k: Crypto

    ghost predicate Valid()
      reads this, db
    {
      runId in db.runs && Consistent(CompletionCheck(k), runId, db.runs[runId])
    }

    /** Opening creates the run's state row if it is absent, and otherwise touches nothing. */
    constructor (db: Database, runId: string, k: Crypto)
      requires runId in db.runs ==> Consistent(CompletionCheck(k), runId, db.runs[runId])
      modifies db
      ensures Valid() && this.db == db && this.runId == runId && this.k == k
      ensures db.runs == if runId in old(db.runs) then old(db.runs) else old(db.runs)[runId := InitialRows(runId)]
    {
      this.db := db;
      this.runId := runId;
      this.k := k;
      new;
      InitiallyConsistent(CompletionCheck(k), runId);
      if runId !in db.runs {
        db.runs := db.runs[runId := InitialRows(runId)];
      }
    }

    /** Each stored request must be the one its entry was registered with. */
    method RequestsRead(rows: Rows) returns (ok: bool)
      ensures ok <==> RequestsMatch(rows.entries, rows.requests)
    {
      if |rows.entries| != |rows.requests| {
        return false;
      }
      for i := 0 to |rows.entries|
        invariant forall j :: 0 <= j < i ==> ValidRequest(rows.requests[j]) && RequestMatches(rows.entries[j], rows.requests[j])
      {
        if !ValidRequest(rows.requests[i]) || !RequestMatches(rows.entries[i], rows.requests[i]) {
          return false;
        }
      }
      return true;
    }

    /** Rebuild the manifest from rows; raises exactly when storage is not what its content recomputes to. */
    method ManifestFromRows(rows: Rows) returns (r: Result<Manifest>)
      ensures r.Ok? <==> Readable(runId, rows)
      ensures r.Ok? ==> r.value == Manifest(runId, rows.entries)
    {
      var matching := RequestsRead(rows);
      if !matching {
        return Raised;
      }
      var manifest := Manifest(runId, rows.entries);
      var ok := CheckManifest(manifest);
      if !ok || manifest.Sha() != rows.head {
        return Raised;
      }
      return Ok(manifest);
    }

    method CurrentManifest() returns (r: Result<Manifest>)
      requires Valid()
      ensures r == Ok(Manifest(runId, db.runs[runId].entries))
    {
      r := ManifestFromRows(db.runs[runId]);
    }

    /** Compare-and-swap registration: the presented manifest must be the whole current one. */
    method Register(presented: Manifest, request: Request, verifierSha: Digest) returns (r: Result<Manifest>)
      requires Valid()
      modifies db
      ensures Valid()
      ensures r.Ok? <==> CanRegister(runId, old(db.runs)[runId], presented, request, verifierSha)
      ensures r.Ok? ==> db.runs == old(db.runs)[runId := Registered(runId, old(db.runs)[runId], request, verifierSha)]
      ensures r.Ok? ==> r.value == Manifest(runId, db.runs[runId].entries)
      ensures r.Raised? ==> db.runs == old(db.runs)
    {
      var updated := TryRegister(db.runs[runId], presented, request, verifierSha);
      RegisterOutcomeIs(runId, db.runs[runId], presented, request, verifierSha);
      if updated.Raised? {
        return Raised;
      }
      RegisterKeepsConsistent(CompletionCheck(k), runId, db.runs[runId], presented, request, verifierSha);
      db.runs := db.runs[runId := updated.value];
      return Ok(Manifest(runId, updated.value.entries));
    }

    /** The compare-and-swap both transactions begin with. */
    method PresentsCurrent(rows: Rows, presented: Manifest) returns (current: bool)
      requires Readable(runId, rows)
      ensures current <==> IsCurrent(runId, rows, presented)
    {
      var ok := CheckManifest(presented);
      if !ok {
        return false;
      }
      var stored := ManifestFromRows(rows);
      return rows.state == OPEN && presented == stored.value && presented.Sha() == rows.head;
    }

    /** The body of the registration transaction. */
    method TryRegister(rows: Rows, presented: Manifest, request: Request, verifierSha: Digest) returns (r: Result<Rows>)
      requires Readable(runId, rows)
      ensures r == RegisterOutcome(runId, rows, presented, request, verifierSha)
    {
      var fits := FitsRun(request);
      var current := PresentsCurrent(rows, presented);
      if !fits || !current {
        return Raised;
      }
      r := AppendRow(rows, request, verifierSha);
    }

    /** A valid request of this run. */
    method FitsRun(request: Request) returns (ok: bool)
      ensures ok <==> ValidRequest(request) && request.runId == runId
    {
      return ValidRequest(request) && request.runId == runId;
    }

    /** The manifest constructor refuses a repeated attempt or commitment. */
    method AppendRow(rows: Rows, request: Request, verifierSha: Digest) returns (r: Result<Rows>)
      requires Chain(runId, rows.entries)
      ensures r == AppendOutcome(runId, rows, request, verifierSha)
    {
      var updated := Manifest(runId, rows.entries + [NextEntry(runId, rows.entries, request, verifierSha)]);
      var ok := CheckManifest(updated);
      AppendKeepsChain(runId, rows.entries, request, verifierSha);
      if !ok {
        return Raised;
      }
      return Ok(rows.(entries := updated.entries, requests := rows.requests + [request], head := updated.Sha()));
    }

    /** The closing loop: at most one record per dispatch, each for a registered one, each good. */
    method GatherCompletions(rows: Rows, records: seq<Completion>) returns (r: Result<map<Digest, Completion>>)
      requires |rows.entries| == |rows.requests|
      ensures r.Ok? <==> DistinctIds(records) && forall c :: c in records ==> Vouched(CompletionCheck(k), rows.entries, rows.requests, c)
      ensures r.Ok? ==> Gathered(CompletionCheck(k), rows.entries, rows.requests, records, r.value)
    {
      var found: map<Digest, Completion> := map[];
      for i := 0 to |records|
        invariant Gathered(CompletionCheck(k), rows.entries, rows.requests, records[..i], found)
      {
        TakeSnoc(records, i);
        var next := GatherNext(rows, records[..i], records[i], found);
        if next.Raised? {
          GatherFails(CompletionCheck(k), rows.entries, rows.requests, records, found, i);
          return Raised;
        }
        found := next.value;
      }
      TakeAll(records);
      return Ok(found);
    }

    /** One record: refused if its dispatch was seen or is unregistered, or if it does not validate. */
    method GatherNext(rows: Rows, ghost seen: seq<Completion>, record: Completion, found: map<Digest, Completion>)
      returns (r: Result<map<Digest, Completion>>)
      requires |rows.entries| == |rows.requests|
      requires Gathered(CompletionCheck(k), rows.entries, rows.requests, seen, found)
      ensures r.Ok? <==> record.dispatchId !in found && Vouched(CompletionCheck(k), rows.entries, rows.requests, record)
      ensures r.Ok? ==> Gathered(CompletionCheck(k), rows.entries, rows.requests, seen + [record], r.value)
    {
      if record.dispatchId in found {
        return Raised;
      }
      var n := Find(rows.entries, record.dispatchId);
      FindSound(rows.entries, record.dispatchId);
      if n.None? {
        return Raised;
      }
      var ok := ValidateRecord(k, rows.entries[n.value], record, rows.requests[n.value]);
      if !ok {
        return Raised;
      }
      GatherOne(CompletionCheck(k), rows.entries, rows.requests, seen, found, record);
      return Ok(found[record.dispatchId := record]);
    }

    /** One refused record is enough to refuse them all. */
    static lemma GatherFails(
      check: Check, entries: seq<Entry>, requests: seq<Request>, records: seq<Completion>, found: map<Digest, Completion>, i: nat)
      requires i < |records| && Gathered(check, entries, requests, records[..i], found)
      requires records[i].dispatchId in found || !Vouched(check, entries, requests, records[i])
      ensures !(DistinctIds(records) && forall c :: c in records ==> Vouched(check, entries, requests, c))
    {
      assert records[i] in records;
      if records[i].dispatchId in found {
        TakeSnoc(records, i);
        GatherOne(check, entries, requests, records[..i], found, records[i]);
        PrefixDistinct(records, i + 1);
      }
    }

    static lemma PrefixDistinct(records: seq<Completion>, n: nat)
      requires n <= |records|
      ensures DistinctIds(records) ==> DistinctIds(records[..n])
    {
    }

    /** No entry may lack its completion. */
    method NoneMissing(rows: Rows, records: seq<Completion>, found: map<Digest, Completion>) returns (complete: bool)
      requires forall id :: id in found <==> Lookup(records, id).Some?
      ensures complete <==> AllAnswered(rows.entries, records)
    {
      for i := 0 to |rows.entries|
        invariant forall n :: 0 <= n < i ==> Lookup(records, rows.entries[n].dispatchId).Some?
      {
        if rows.entries[i].dispatchId !in found {
          return false;
        }
      }
      return true;
    }

    /** Completion rows in manifest order, from the gathered records. */
    method OrderedRows(rows: Rows, records: seq<Completion>, found: map<Digest, Completion>) returns (out: seq<CompletionRow>)
      requires AllAnswered(rows.entries, records)
      requires forall id :: id in found <==> Lookup(records, id).Some?
      requires forall id :: id in found ==> Lookup(records, id) == Some(found[id])
      ensures out == ClosingRows(rows.entries, records)
    {
      out := [];
      for i := 0 to |rows.entries|
        invariant AllAnswered(rows.entries[..i], records) && out == ClosingRows(rows.entries[..i], records)
      {
        var e := rows.entries[i];
        TakeTake(rows.entries, i + 1, i);
        out := out + [CompletionRow(e.sequence, e.dispatchId, found[e.dispatchId], found[e.dispatchId].Sha())];
      }
      assert rows.entries[..|rows.entries|] == rows.entries;
    }

    /** Succeeds exactly when the records are a bijection onto the entries of the current, open, non-empty
        manifest and each one validates; then every entry's completion is stored in manifest order. */
    method Close(presented: Manifest, records: seq<Completion>) returns (r: Result<Join>)
      requires Valid()
      modifies db
      ensures Valid()
      ensures r.Ok? <==> CanClose(CompletionCheck(k), runId, old(db.runs)[runId], presented, records)
      ensures r.Ok? ==> db.runs == old(db.runs)[runId := Closed(runId, old(db.runs)[runId], records)]
      ensures r.Ok? ==> HoldsJoin(runId, db.runs[runId], r.value)
      ensures r.Raised? ==> db.runs == old(db.runs)
    {
      var updated := TryClose(db.runs[runId], presented, records);
      if updated.Raised? {
        return Raised;
      }
      db.runs := db.runs[runId := updated.value];
      r := ReadClosedJoin();
    }

    /** The body of the closing transaction. */
    method TryClose(rows: Rows, presented: Manifest, records: seq<Completion>) returns (r: Result<Rows>)
      requires Consistent(CompletionCheck(k), runId, rows)
      ensures r.Ok? <==> CanClose(CompletionCheck(k), runId, rows, presented, records)
      ensures r.Ok? ==> r.value == Closed(runId, rows, records) && Consistent(CompletionCheck(k), runId, r.value)
    {
      if !AllValid(records) || presented.entries == [] {
        return Raised;
      }
      var current := PresentsCurrent(rows, presented);
      if !current {
        return Raised;
      }
      var found := GatherCompletions(rows, records);
      if found.Raised? {
        return Raised;
      }
      var complete := NoneMissing(rows, records, found.value);
      if !complete {
        return Raised;
      }
      var completions := OrderedRows(rows, records, found.value);
      var completionSet := SetDigest(rows.head, CompletionsOf(completions));
      CloseKeepsConsistent(CompletionCheck(k), runId, rows, presented, records);
      return Ok(rows.(state := CLOSED, completionSet := Some(completionSet),
        closeSha := Some(CloseDigest(runId, rows.head, completionSet)), completions := completions));
    }

    /** Rebuild and revalidate the persisted join. On a consistent run it raises only when the run is not closed. */
    method ReadClosedJoin() returns (r: Result<Join>)
      requires Valid()
      ensures r.Ok? <==> db.runs[runId].state == CLOSED
      ensures r.Ok? ==> HoldsJoin(runId, db.runs[runId], r.value)
    {
      r := ReadJoin(db.runs[runId]);
    }

    method ReadJoin(rows: Rows) returns (r: Result<Join>)
      requires Consistent(CompletionCheck(k), runId, rows)
      ensures r.Ok? <==> rows.state == CLOSED
      ensures r.Ok? ==> HoldsJoin(runId, rows, r.value)
    {
      var manifest := ManifestFromRows(rows);
      if rows.state != CLOSED {
        return Raised;
      }
      if rows.completionSet.None? || rows.closeSha.None? || |rows.completions| != |rows.entries| {
        return Raised;
      }
      var joined := JoinRows(rows);
      AllReadWhenClosed(CompletionCheck(k), runId, rows);
      if joined.Raised? {
        return Raised;
      }
      if SetDigest(rows.head, CompletionsOf(rows.completions)) != rows.completionSet.value
         || CloseDigest(runId, rows.head, rows.completionSet.value) != rows.closeSha.value {
        return Raised;
      }
      return Ok(Join(joined.value, CloseReceipt(runId, rows.head, rows.completionSet.value, rows.closeSha.value)));
    }

    /** Revalidate each stored completion against its entry and request. */
    method JoinRows(rows: Rows) returns (r: Result<seq<Joined>>)
      requires |rows.entries| == |rows.completions|
      ensures r.Ok? <==> AllRead(CompletionCheck(k), rows)
      ensures r.Ok? ==> r.value == JoinedOf(rows.entries, rows.completions)
    {
      var check := CompletionCheck(k);
      var test := (i: nat) => RowReads(check, rows, i);
      var ok := AllPass(|rows.entries|, test);
      assert forall i: nat :: RowReads(check, rows, i) == test(i);
      if !ok {
        return Raised;
      }
      return Ok(JoinedOf(rows.entries, rows.completions));
    }

    /** Accepts the persisted join and nothing else. */
    method VerifyClosedJoin(candidate: Join) returns (r: Result<Join>)
      requires Valid()
      ensures r.Ok? ==> r.value == candidate
      ensures r.Ok? <==> db.runs[runId].state == CLOSED && HoldsJoin(runId, db.runs[runId], candidate)
    {
      var authoritative := ReadClosedJoin();
      if authoritative.Raised? || candidate != authoritative.value {
        return Raised;
      }
      return authoritative;
    }

    method Abort(reason: string) returns (r: Result<Digest>)
      requires Valid()
      modifies db
      ensures Valid()
      ensures r.Ok? <==> CanAbort(old(db.runs)[runId], reason)
      ensures r.Ok? ==> db.runs == old(db.runs)[runId := Aborted(runId, old(db.runs)[runId], reason)]
      ensures r.Ok? ==> r.value == AbortDigest(runId, old(db.runs)[runId].head, reason)
      ensures r.Raised? ==> db.runs == old(db.runs)
    {
      if reason == "" {
        return Raised;
      }
      var manifest := ManifestFromRows(db.runs[runId]);
      var rows := db.runs[runId];
      if rows.state != OPEN {
        return Raised;
      }
      var abortSha := AbortDigest(runId, manifest.value.Sha(), reason);
      db.runs := db.runs[runId := rows.(state := ABORTED, abortReason := Some(reason), abortSha := Some(abortSha))];
      return Ok(abortSha);
    }

    /** The abort receipt, recomputed from the head and the stored reason. */
    method ReadAbortReceipt() returns (r: Result<Digest>)
      requires Valid()
      ensures r.Ok? <==> db.runs[runId].state == ABORTED
      ensures r.Ok? ==> db.runs[runId].abortSha == Some(r.value)
    {
      var rows := db.runs[runId];
      if rows.state != ABORTED || rows.abortReason.None? || rows.abortSha.None? {
        return Raised;
      }
      var receipt := AbortDigest(runId, rows.head, rows.abortReason.value);
      if receipt != rows.abortSha.value {
        return Raised;
      }
      return Ok(receipt);
    }
  }
}
