/** Cost events, per-arm traces and reports, and the reconciliation of a trace with authenticated executions.
    Everything is generic in `R`, what names a frozen request (its digest). */
module Cost {
  import opened Contracts
  import opened Sorting

  datatype EventKind = ModelCall | ContextIsolation | VerifierRun | Orchestration | PredecessorReconciliation

  /** The id bound to a request for one kind of work, or any other text. */
  datatype EventId<R> = Bound(request: R, part: EventKind) | Other(text: string)

  datatype Event<R> = Event(
    id: EventId<R>, kind: EventKind, inputTokens: Option<nat>, outputTokens: Option<nat>, milliseconds: Option<nat>,
    basis: Option<UsageBasis>)
  {
    predicate Measured() {
      match kind
      case ModelCall => inputTokens.Some? && outputTokens.Some?
      case VerifierRun => milliseconds.Some?
      case Orchestration => milliseconds.Some?
      case _ => true
    }
  }

  predicate NoneOrZero(n: Option<nat>) {
    n.None? || n.value == 0
  }

  /** Each kind carries only its own measurements, and a usage basis exactly when it is a model call. */
  predicate ValidEvent<R>(e: Event<R>) {
    && (e.kind.ModelCall? <==> e.basis.Some?)
    && (!e.kind.ModelCall? ==> NoneOrZero(e.inputTokens) && NoneOrZero(e.outputTokens))
    && (!e.kind.VerifierRun? && !e.kind.Orchestration? ==> NoneOrZero(e.milliseconds))
  }

  function Calls<R>(e: Event<R>): int {
    if e.kind.ModelCall? then 1 else 0
  }

  function Inputs<R>(e: Event<R>): int {
    if e.kind.ModelCall? && e.inputTokens.Some? then e.inputTokens.value else 0
  }

  function Outputs<R>(e: Event<R>): int {
    if e.kind.ModelCall? && e.outputTokens.Some? then e.outputTokens.value else 0
  }

  function VerifierTime<R>(e: Event<R>): int {
    if e.kind.VerifierRun? && e.milliseconds.Some? then e.milliseconds.value else 0
  }

  function OrchestrationTime<R>(e: Event<R>): int {
    if e.kind.Orchestration? && e.milliseconds.Some? then e.milliseconds.value else 0
  }

  /** What one event adds, refused while a measurement is missing. */
  function Increment<R>(e: Event<R>): Result<CompleteCost> {
    if !e.Measured() then Raised
    else match e.kind
      case ModelCall => Ok(CompleteCost(1, e.inputTokens.value, e.outputTokens.value, 0, 0))
      case VerifierRun => Ok(CompleteCost(0, 0, 0, e.milliseconds.value, 0))
      case Orchestration => Ok(CompleteCost(0, 0, 0, 0, e.milliseconds.value))
      case _ => Ok(NO_COST)
  }

  datatype Expected<R> = Expected(id: EventId<R>, kind: EventKind, basis: Option<UsageBasis>)

  datatype Trace<R> = Trace(arm: Arm, events: seq<Event<R>>, expected: seq<Expected<R>>, accountingComplete: bool)

  function Id<R>(e: Event<R>): EventId<R> {
    e.id
  }

  function ExpectedId<R>(e: Expected<R>): EventId<R> {
    e.id
  }

  ghost predicate ValidTrace<R(!new)>(t: Trace<R>) {
    && (forall e :: e in t.events ==> ValidEvent(e))
    && Distinct(Map(Id<R>, t.events))
    && t.expected != [] && Distinct(Map(ExpectedId<R>, t.expected))
    && (forall e :: e in t.expected ==> (e.kind.ModelCall? <==> e.basis.Some?))
    && (exists e :: e in t.expected && e.kind.ModelCall?)
  }

  /** Event id to (kind, usage basis). */
  type Coverage<R(==)> = map<EventId<R>, (EventKind, Option<UsageBasis>)>

  function ObservedManifest<R(==)>(events: seq<Event<R>>): Coverage<R> {
    if events == [] then map[]
    else
      var n := |events| - 1;
      ObservedManifest(events[..n])[events[n].id := (events[n].kind, events[n].basis)]
  }

  function ExpectedManifest<R(==)>(expected: seq<Expected<R>>): Coverage<R> {
    if expected == [] then map[]
    else
      var n := |expected| - 1;
      ExpectedManifest(expected[..n])[expected[n].id := (expected[n].kind, expected[n].basis)]
  }

  predicate CoverageComplete<R(==)>(t: Trace<R>) {
    ObservedManifest(t.events) == ExpectedManifest(t.expected)
  }

  // ---- the total ----

  ghost predicate TotalIs<R>(c: CompleteCost, events: seq<Event<R>>) {
    && c.modelCalls == Sum(Calls<R>, events)
    && c.inputTokens == Sum(Inputs<R>, events)
    && c.outputTokens == Sum(Outputs<R>, events)
    && c.verifierMilliseconds == Sum(VerifierTime<R>, events)
    && c.orchestrationMilliseconds == Sum(OrchestrationTime<R>, events)
  }

  lemma {:induction false} SumSnoc<T>(f: T -> int, s: seq<T>, i: nat)
    requires i < |s|
    ensures Sum(f, s[..i + 1]) == Sum(f, s[..i]) + f(s[i])
  {
    TakeSnoc(s, i);
    SumConcat(f, s[..i], [s[i]]);
  }

  lemma {:induction false} SumThree<T>(f: T -> int, x: T, y: T, z: T)
    ensures Sum(f, [x, y, z]) == f(x) + f(y) + f(z)
  {
    var all := [x, y, z];
    SumSnoc(f, all, 2);
    SumSnoc(f, all, 1);
    SumSnoc(f, all, 0);
    TakeAll(all);
  }

  lemma {:induction false} TotalOfThree<R>(x: Event<R>, y: Event<R>, z: Event<R>)
    requires x.kind.ModelCall? && y.kind.VerifierRun? && z.kind.Orchestration?
    requires x.Measured() && y.Measured() && z.Measured()
    ensures TotalIs(CompleteCost(1, x.inputTokens.value, x.outputTokens.value, y.milliseconds.value, z.milliseconds.value), [x, y, z])
  {
    SumThree(Calls<R>, x, y, z);
    SumThree(Inputs<R>, x, y, z);
    SumThree(Outputs<R>, x, y, z);
    SumThree(VerifierTime<R>, x, y, z);
    SumThree(OrchestrationTime<R>, x, y, z);
  }

  lemma {:induction false} TotalSnoc<R>(c: CompleteCost, d: CompleteCost, events: seq<Event<R>>, i: nat)
    requires i < |events| && TotalIs(c, events[..i]) && Increment(events[i]) == Ok(d)
    ensures TotalIs(c.Plus(d), events[..i + 1])
  {
    SumSnoc(Calls<R>, events, i);
    SumSnoc(Inputs<R>, events, i);
    SumSnoc(Outputs<R>, events, i);
    SumSnoc(VerifierTime<R>, events, i);
    SumSnoc(OrchestrationTime<R>, events, i);
  }

  /** The five counters after all events. */
  function TraceTotal<R>(events: seq<Event<R>>): CompleteCost {
    if events == [] then NO_COST
    else
      var increment := Increment(events[|events| - 1]);
      var before := TraceTotal(events[..|events| - 1]);
      if increment.Raised? then before else before.Plus(increment.value)
  }

  lemma {:induction false} TraceTotals<R>(events: seq<Event<R>>)
    requires forall e :: e in events ==> e.Measured()
    ensures TotalIs(TraceTotal(events), events)
  {
    if events != [] {
      var n := |events| - 1;
      TraceTotals(events[..n]);
      assert events[n] in events;
      TotalSnoc(TraceTotal(events[..n]), Increment(events[n]).value, events, n);
      TakeAll(events);
    }
  }

  /** The trace total: refused exactly when some event is unmeasured. */
  method Total<R>(t: Trace<R>) returns (r: Result<CompleteCost>)
    ensures r.Ok? <==> forall e :: e in t.events ==> e.Measured()
    ensures r.Ok? ==> r.value == TraceTotal(t.events) && TotalIs(r.value, t.events)
  {
    var total := NO_COST;
    for i := 0 to |t.events|
      invariant total == TraceTotal(t.events[..i])
      invariant forall j :: 0 <= j < i ==> t.events[j].Measured()
    {
      var increment := Increment(t.events[i]);
      if increment.Raised? {
        assert t.events[i] in t.events;
        return Raised;
      }
      TakeTake(t.events, i + 1, i);
      total := total.Plus(increment.value);
    }
    TakeAll(t.events);
    TraceTotals(t.events);
    return Ok(total);
  }

  // ---- reconciliation with authenticated executions ----

  /** One closed attempt: its frozen request, and the sizes and times its ledger receipt vouches for. */
  datatype Attempted<R> = Attempted(
    request: R, requestBytes: nat, responseBytes: nat, verifierMilliseconds: nat, orchestrationMilliseconds: nat)

  function RequestOf<R>(a: Attempted<R>): R {
    a.request
  }

  function KindBasis(kind: EventKind, basis: UsageBasis): (EventKind, Option<UsageBasis>) {
    (kind, if kind.ModelCall? then Some(basis) else None)
  }

  /** Five events for each closed attempt and no others. */
  function Required<R(==)>(items: seq<Attempted<R>>, basis: UsageBasis): Coverage<R> {
    if items == [] then map[]
    else
      var n := |items| - 1;
      var r := items[n].request;
      Required(items[..n], basis)[Bound(r, ModelCall) := KindBasis(ModelCall, basis)]
        [Bound(r, ContextIsolation) := KindBasis(ContextIsolation, basis)]
        [Bound(r, VerifierRun) := KindBasis(VerifierRun, basis)]
        [Bound(r, Orchestration) := KindBasis(Orchestration, basis)]
        [Bound(r, PredecessorReconciliation) := KindBasis(PredecessorReconciliation, basis)]
  }

  /** The observed event with this id. */
  function Observed<R(==)>(events: seq<Event<R>>, id: EventId<R>): Option<Event<R>> {
    if events == [] then None
    else if events[|events| - 1].id == id then Some(events[|events| - 1])
    else Observed(events[..|events| - 1], id)
  }

  /** The attempt's five events carry the receipt's measurements. */
  predicate Matches<R(==)>(events: seq<Event<R>>, a: Attempted<R>) {
    var model := Observed(events, Bound(a.request, ModelCall));
    var verifier := Observed(events, Bound(a.request, VerifierRun));
    var orchestration := Observed(events, Bound(a.request, Orchestration));
    && model.Some? && model.value.inputTokens == Some(a.requestBytes) && model.value.outputTokens == Some(a.responseBytes)
    && verifier.Some? && verifier.value.milliseconds == Some(a.verifierMilliseconds)
    && orchestration.Some? && orchestration.value.milliseconds == Some(a.orchestrationMilliseconds)
  }

  predicate AllMatch<R(==)>(events: seq<Event<R>>, items: seq<Attempted<R>>) {
    forall i :: 0 <= i < |items| ==> Matches(events, items[i])
  }

  predicate Reconciled<R(==)>(t: Trace<R>, items: seq<Attempted<R>>, basis: UsageBasis) {
    && ExpectedManifest(t.expected) == Required(items, basis) && ObservedManifest(t.events) == Required(items, basis)
    && AllMatch(t.events, items)
  }

  /** The required-events loop. */
  method RequiredCostEvents<R(==)>(items: seq<Attempted<R>>, basis: UsageBasis) returns (required: Coverage<R>)
    ensures required == Required(items, basis)
  {
    required := map[];
    for i := 0 to |items|
      invariant required == Required(items[..i], basis)
    {
      var r := items[i].request;
      TakeTake(items, i + 1, i);
      required := required[Bound(r, ModelCall) := KindBasis(ModelCall, basis)];
      required := required[Bound(r, ContextIsolation) := KindBasis(ContextIsolation, basis)];
      required := required[Bound(r, VerifierRun) := KindBasis(VerifierRun, basis)];
      required := required[Bound(r, Orchestration) := KindBasis(Orchestration, basis)];
      required := required[Bound(r, PredecessorReconciliation) := KindBasis(PredecessorReconciliation, basis)];
    }
    TakeAll(items);
  }

  method ReconcileTrace<R(==)>(t: Trace<R>, items: seq<Attempted<R>>, basis: UsageBasis) returns (ok: bool)
    ensures ok <==> Reconciled(t, items, basis)
  {
    var required := RequiredCostEvents(items, basis);
    if ExpectedManifest(t.expected) != required || ObservedManifest(t.events) != required {
      return false;
    }
    for i := 0 to |items|
      invariant AllMatch(t.events, items[..i])
    {
      if !Matches(t.events, items[i]) {
        return false;
      }
    }
    TakeAll(items);
    return true;
  }

  // ---- conservation ----

  lemma {:induction false} ObservedSound<R>(events: seq<Event<R>>, id: EventId<R>)
    ensures Observed(events, id).Some? <==> id in ObservedManifest(events)
    ensures Observed(events, id).Some? ==>
      && Observed(events, id).value in events && Observed(events, id).value.id == id
      && ObservedManifest(events)[id] == (Observed(events, id).value.kind, Observed(events, id).value.basis)
    ensures id in Map(Id<R>, events) <==> id in ObservedManifest(events)
  {
    if events != [] {
      var n := |events| - 1;
      ObservedSound(events[..n], id);
      TakeSnoc(events, n);
      TakeAll(events);
      MapAppend(Id<R>, events[..n], events[n]);
    }
  }

  lemma {:induction false} ObservedAt<R(!new)>(events: seq<Event<R>>, i: nat)
    requires i < |events| && Distinct(Map(Id<R>, events))
    ensures Observed(events, events[i].id) == Some(events[i])
  {
    var n := |events| - 1;
    if i < n {
      assert Map(Id<R>, events)[i] != Map(Id<R>, events)[n];
      DistinctMapPrefix(events, n);
      ObservedAt(events[..n], i);
    }
  }

  lemma {:induction false} DistinctMapPrefix<R(!new)>(events: seq<Event<R>>, n: nat)
    requires n <= |events| && Distinct(Map(Id<R>, events))
    ensures Distinct(Map(Id<R>, events[..n]))
  {
    forall i, j | 0 <= i < j < n ensures Map(Id<R>, events[..n])[i] != Map(Id<R>, events[..n])[j] {
      assert Map(Id<R>, events)[i] != Map(Id<R>, events)[j];
    }
  }

  function FiveIds<R>(r: R): seq<EventId<R>> {
    [Bound(r, ModelCall), Bound(r, ContextIsolation), Bound(r, VerifierRun), Bound(r, Orchestration),
     Bound(r, PredecessorReconciliation)]
  }

  function RequiredIds<R>(items: seq<Attempted<R>>): seq<EventId<R>> {
    if items == [] then [] else RequiredIds(items[..|items| - 1]) + FiveIds(items[|items| - 1].request)
  }

  lemma {:induction false} RequiredKeys<R>(items: seq<Attempted<R>>, basis: UsageBasis, id: EventId<R>)
    ensures id in Required(items, basis) <==> id in RequiredIds(items)
    ensures id in RequiredIds(items) ==> id.Bound? && id.request in Map(RequestOf<R>, items)
    ensures id in Required(items, basis) ==> id.Bound? && Required(items, basis)[id] == KindBasis(id.part, basis)
  {
    if items != [] {
      var n := |items| - 1;
      RequiredKeys(items[..n], basis, id);
      TakeSnoc(items, n);
      TakeAll(items);
      MapAppend(RequestOf<R>, items[..n], items[n]);
      assert id in FiveIds(items[n].request) <==> id.Bound? && id.request == items[n].request by {
        EveryKindListed(items[n].request, id);
      }
    }
  }

  lemma {:induction false} EveryKindListed<R>(r: R, id: EventId<R>)
    ensures id in FiveIds(r) <==> id.Bound? && id.request == r
  {
    if id.Bound? && id.request == r {
      match id.part
      case ModelCall => assert id == FiveIds(r)[0];
      case ContextIsolation => assert id == FiveIds(r)[1];
      case VerifierRun => assert id == FiveIds(r)[2];
      case Orchestration => assert id == FiveIds(r)[3];
      case PredecessorReconciliation => assert id == FiveIds(r)[4];
    }
  }

  lemma {:induction false} RequiredIdsDistinct<R(!new)>(items: seq<Attempted<R>>, basis: UsageBasis)
    requires Distinct(Map(RequestOf<R>, items))
    ensures Distinct(RequiredIds(items))
  {
    if items != [] {
      var n := |items| - 1;
      var requests := Map(RequestOf<R>, items);
      forall i, j | 0 <= i < j < n ensures Map(RequestOf<R>, items[..n])[i] != Map(RequestOf<R>, items[..n])[j] {
        assert requests[i] != requests[j];
      }
      RequiredIdsDistinct(items[..n], basis);
      forall id | id in RequiredIds(items[..n]) ensures id !in FiveIds(items[n].request) {
        RequiredKeys(items[..n], basis, id);
        assert forall k :: 0 <= k < n ==> requests[k] != requests[n];
      }
      DistinctConcat(RequiredIds(items[..n]), FiveIds(items[n].request));
    }
  }

  /** A measurement read off an id through the trace. */
  ghost function ById<R>(f: Event<R> -> int, events: seq<Event<R>>): EventId<R> -> int {
    (id: EventId<R>) => if Observed(events, id).Some? then f(Observed(events, id).value) else 0
  }

  lemma {:induction false} SumById<R(!new)>(f: Event<R> -> int, all: seq<Event<R>>, n: nat)
    requires Distinct(Map(Id<R>, all)) && n <= |all|
    ensures Sum(f, all[..n]) == Sum(ById(f, all), Map(Id<R>, all[..n]))
  {
    if n > 0 {
      SumById(f, all, n - 1);
      SumSnoc(f, all, n - 1);
      TakeSnoc(all, n - 1);
      MapAppend(Id<R>, all[..n - 1], all[n - 1]);
      SumConcat(ById(f, all), Map(Id<R>, all[..n - 1]), [all[n - 1].id]);
      ObservedAt(all, n - 1);
    }
  }

  /** The trace holds exactly the required ids, so any measurement sums over the attempts instead. */
  lemma {:induction false} SumOverRequired<R(!new)>(f: Event<R> -> int, t: Trace<R>, items: seq<Attempted<R>>, basis: UsageBasis)
    requires Distinct(Map(Id<R>, t.events)) && Distinct(Map(RequestOf<R>, items))
    requires ObservedManifest(t.events) == Required(items, basis)
    ensures Sum(f, t.events) == Sum(ById(f, t.events), RequiredIds(items))
  {
    var ids := Map(Id<R>, t.events);
    RequiredIdsDistinct(items, basis);
    forall id ensures id in ids <==> id in RequiredIds(items) {
      ObservedSound(t.events, id);
      RequiredKeys(items, basis, id);
    }
    DistinctSameSet(ids, RequiredIds(items));
    SumPermutation(ById(f, t.events), ids, RequiredIds(items));
    SumById(f, t.events, |t.events|);
    TakeAll(t.events);
  }

  lemma {:induction false} SumFive<R>(g: EventId<R> -> int, r: R)
    ensures Sum(g, FiveIds(r)) == g(Bound(r, ModelCall)) + g(Bound(r, ContextIsolation)) + g(Bound(r, VerifierRun))
                                  + g(Bound(r, Orchestration)) + g(Bound(r, PredecessorReconciliation))
  {
    var five := FiveIds(r);
    SumSnoc(g, five, 4);
    SumSnoc(g, five, 3);
    SumSnoc(g, five, 2);
    SumSnoc(g, five, 1);
    SumSnoc(g, five, 0);
    TakeAll(five);
  }

  lemma {:induction false} SumPerAttempt<R>(g: EventId<R> -> int, h: Attempted<R> -> int, items: seq<Attempted<R>>)
    requires forall i :: 0 <= i < |items| ==> Sum(g, FiveIds(items[i].request)) == h(items[i])
    ensures Sum(g, RequiredIds(items)) == Sum(h, items)
  {
    if items != [] {
      var n := |items| - 1;
      SumPerAttempt(g, h, items[..n]);
      SumConcat(g, RequiredIds(items[..n]), FiveIds(items[n].request));
      SumSnoc(h, items, n);
      TakeAll(items);
    }
  }

  /** The kind of an observed event is the one its id names. */
  lemma {:induction false} KindOfPart<R>(t: Trace<R>, items: seq<Attempted<R>>, basis: UsageBasis, i: nat, part: EventKind)
    requires ObservedManifest(t.events) == Required(items, basis) && i < |items|
    ensures Observed(t.events, Bound(items[i].request, part)).Some?
    ensures Observed(t.events, Bound(items[i].request, part)).value.kind == part
  {
    var id := Bound(items[i].request, part);
    RequiredHas(items, basis, i, part);
    RequiredKeys(items, basis, id);
    ObservedSound(t.events, id);
  }

  lemma {:induction false} RequiredHas<R>(items: seq<Attempted<R>>, basis: UsageBasis, i: nat, part: EventKind)
    requires i < |items|
    ensures Bound(items[i].request, part) in Required(items, basis)
  {
    var n := |items| - 1;
    if i < n {
      RequiredHas(items[..n], basis, i, part);
    }
  }

  function One<R>(a: Attempted<R>): int {
    1
  }

  function RequestBytes<R>(a: Attempted<R>): int {
    a.requestBytes
  }

  function ResponseBytes<R>(a: Attempted<R>): int {
    a.responseBytes
  }

  function VerifierMs<R>(a: Attempted<R>): int {
    a.verifierMilliseconds
  }

  function OrchestrationMs<R>(a: Attempted<R>): int {
    a.orchestrationMilliseconds
  }

  /** In whatever order a reconciled trace lists its events, each total is the sum of what the receipts of the
      closed attempts vouch for: nothing missing, nothing doubled, nothing unbound. */
  lemma {:induction false} Conservation<R(!new)>(t: Trace<R>, items: seq<Attempted<R>>, basis: UsageBasis)
    requires ValidTrace(t) && Distinct(Map(RequestOf<R>, items)) && Reconciled(t, items, basis)
    ensures Sum(Calls<R>, t.events) == |items|
    ensures Sum(Inputs<R>, t.events) == Sum(RequestBytes<R>, items)
    ensures Sum(Outputs<R>, t.events) == Sum(ResponseBytes<R>, items)
    ensures Sum(VerifierTime<R>, t.events) == Sum(VerifierMs<R>, items)
    ensures Sum(OrchestrationTime<R>, t.events) == Sum(OrchestrationMs<R>, items)
  {
    forall i | 0 <= i < |items|
      ensures Sum(ById(Calls<R>, t.events), FiveIds(items[i].request)) == One<R>(items[i])
      ensures Sum(ById(Inputs<R>, t.events), FiveIds(items[i].request)) == RequestBytes<R>(items[i])
      ensures Sum(ById(Outputs<R>, t.events), FiveIds(items[i].request)) == ResponseBytes<R>(items[i])
      ensures Sum(ById(VerifierTime<R>, t.events), FiveIds(items[i].request)) == VerifierMs<R>(items[i])
      ensures Sum(ById(OrchestrationTime<R>, t.events), FiveIds(items[i].request)) == OrchestrationMs<R>(items[i])
    {
      FiveOf(t, items, basis, i);
    }
    Conserved(Calls<R>, One<R>, t, items, basis);
    SumOnes(items);
    Conserved(Inputs<R>, RequestBytes<R>, t, items, basis);
    Conserved(Outputs<R>, ResponseBytes<R>, t, items, basis);
    Conserved(VerifierTime<R>, VerifierMs<R>, t, items, basis);
    Conserved(OrchestrationTime<R>, OrchestrationMs<R>, t, items, basis);
  }

  lemma {:induction false} SumOnes<R>(items: seq<Attempted<R>>)
    ensures Sum(One<R>, items) == |items|
  {
    if items != [] {
      SumOnes(items[1..]);
    }
  }

  function Seen<R(==)>(t: Trace<R>, r: R, part: EventKind): Event<R>
    requires Observed(t.events, Bound(r, part)).Some?
  {
    Observed(t.events, Bound(r, part)).value
  }

  ghost predicate FiveSeen<R>(t: Trace<R>, r: R) {
    forall part :: Observed(t.events, Bound(r, part)).Some? && Observed(t.events, Bound(r, part)).value.kind == part
  }

  lemma {:induction false} FiveTerms<R>(f: Event<R> -> int, t: Trace<R>, r: R)
    requires FiveSeen(t, r)
    ensures Sum(ById(f, t.events), FiveIds(r)) ==
      f(Seen(t, r, ModelCall)) + f(Seen(t, r, ContextIsolation)) + f(Seen(t, r, VerifierRun))
      + f(Seen(t, r, Orchestration)) + f(Seen(t, r, PredecessorReconciliation))
  {
    var g := ById(f, t.events);
    SumFive(g, r);
    forall part: EventKind ensures g(Bound(r, part)) == f(Seen(t, r, part)) {
    }
    assert g(Bound(r, ModelCall)) == f(Seen(t, r, ModelCall));
    assert g(Bound(r, ContextIsolation)) == f(Seen(t, r, ContextIsolation));
    assert g(Bound(r, VerifierRun)) == f(Seen(t, r, VerifierRun));
    assert g(Bound(r, Orchestration)) == f(Seen(t, r, Orchestration));
    assert g(Bound(r, PredecessorReconciliation)) == f(Seen(t, r, PredecessorReconciliation));
  }

  lemma {:induction false} AllFiveSeen<R>(t: Trace<R>, items: seq<Attempted<R>>, basis: UsageBasis, i: nat)
    requires Reconciled(t, items, basis) && i < |items|
    ensures FiveSeen(t, items[i].request)
  {
    forall part
      ensures Observed(t.events, Bound(items[i].request, part)).Some?
      ensures Observed(t.events, Bound(items[i].request, part)).value.kind == part
    {
      KindOfPart(t, items, basis, i, part);
    }
  }

  /** One attempt's five events add up to its receipt's measurements. */
  lemma {:induction false} FiveOf<R>(t: Trace<R>, items: seq<Attempted<R>>, basis: UsageBasis, i: nat)
    requires Reconciled(t, items, basis) && i < |items|
    ensures Sum(ById(Calls<R>, t.events), FiveIds(items[i].request)) == One(items[i])
    ensures Sum(ById(Inputs<R>, t.events), FiveIds(items[i].request)) == RequestBytes(items[i])
    ensures Sum(ById(Outputs<R>, t.events), FiveIds(items[i].request)) == ResponseBytes(items[i])
    ensures Sum(ById(VerifierTime<R>, t.events), FiveIds(items[i].request)) == VerifierMs(items[i])
    ensures Sum(ById(OrchestrationTime<R>, t.events), FiveIds(items[i].request)) == OrchestrationMs(items[i])
  {
    var r := items[i].request;
    assert Matches(t.events, items[i]);
    AllFiveSeen(t, items, basis, i);
    FiveTerms(Calls<R>, t, r);
    FiveTerms(Inputs<R>, t, r);
    FiveTerms(Outputs<R>, t, r);
    FiveTerms(VerifierTime<R>, t, r);
    FiveTerms(OrchestrationTime<R>, t, r);
  }

  lemma {:induction false} Conserved<R(!new)>(f: Event<R> -> int, h: Attempted<R> -> int, t: Trace<R>, items: seq<Attempted<R>>, basis: UsageBasis)
    requires ValidTrace(t) && Distinct(Map(RequestOf<R>, items)) && Reconciled(t, items, basis)
    requires forall i :: 0 <= i < |items| ==> Sum(ById(f, t.events), FiveIds(items[i].request)) == h(items[i])
    ensures Sum(f, t.events) == Sum(h, items)
  {
    SumOverRequired(f, t, items, basis);
    SumPerAttempt(ById(f, t.events), h, items);
  }

  // ---- the five-arm report ----

  function ArmOf<R>(t: Trace<R>): Arm {
    t.arm
  }

  function AllIds<R>(traces: seq<Trace<R>>): seq<EventId<R>> {
    if traces == [] then [] else AllIds(traces[..|traces| - 1]) + Map(Id<R>, traces[|traces| - 1].events)
  }

  /** The usage bases of the model calls. */
  function Bases<R>(events: seq<Event<R>>): set<Option<UsageBasis>> {
    if events == [] then {}
    else
      var n := |events| - 1;
      Bases(events[..n]) + (if events[n].kind.ModelCall? then {events[n].basis} else {})
  }

  function AllBases<R>(traces: seq<Trace<R>>): set<Option<UsageBasis>> {
    if traces == [] then {} else AllBases(traces[..|traces| - 1]) + Bases(traces[|traces| - 1].events)
  }

  /** Nothing expected is missing, nothing else is observed, and everything is measured. */
  predicate Closed<R(==)>(t: Trace<R>) {
    t.accountingComplete && CoverageComplete(t) && forall e :: e in t.events ==> e.Measured()
  }

  /** Five closed traces, one an arm; no event counted twice, even across arms; one usage basis. */
  ghost predicate ReportOk<R(!new)>(traces: seq<Trace<R>>) {
    && (forall t :: t in traces ==> ValidTrace(t) && Closed(t))
    && |traces| == 5 && Distinct(Map(ArmOf<R>, traces))
    && Distinct(AllIds(traces)) && |AllBases(traces)| == 1
  }

  /** The seen and replayed sets after the ids `done`. */
  ghost predicate Tracked<R(!new)>(done: seq<EventId<R>>, seen: set<EventId<R>>, replayed: set<EventId<R>>) {
    (forall id :: id in seen <==> id in done) && (replayed == {} <==> Distinct(done))
  }

  lemma {:induction false} TrackOne<R(!new)>(done: seq<EventId<R>>, seen: set<EventId<R>>, replayed: set<EventId<R>>, id: EventId<R>)
    requires Tracked(done, seen, replayed)
    ensures Tracked(done + [id], seen + {id}, if id in seen then replayed + {id} else replayed)
  {
    DistinctSnoc(done, id);
    var all := done + [id];
    forall x ensures x in all <==> x in done || x == id {
      assert all[|done|] == id;
      if x in done {
        var i :| 0 <= i < |done| && done[i] == x;
        assert all[i] == x;
      }
    }
  }

  /** One trace's events. */
  method TrackEvents<R(==,!new)>(ghost before: seq<EventId<R>>, events: seq<Event<R>>, seen0: set<EventId<R>>, replayed0: set<EventId<R>>)
    returns (seen: set<EventId<R>>, replayed: set<EventId<R>>)
    requires Tracked(before, seen0, replayed0)
    ensures Tracked(before + Map(Id<R>, events), seen, replayed)
  {
    seen, replayed := seen0, replayed0;
    assert before + Map(Id<R>, events[..0]) == before;
    for j := 0 to |events|
      invariant Tracked(before + Map(Id<R>, events[..j]), seen, replayed)
    {
      ghost var done := before + Map(Id<R>, events[..j]);
      TakeSnoc(events, j);
      MapAppend(Id<R>, events[..j], events[j]);
      assert before + Map(Id<R>, events[..j + 1]) == done + [events[j].id];
      TrackOne(done, seen, replayed, events[j].id);
      if events[j].id in seen {
        replayed := replayed + {events[j].id};
      }
      seen := seen + {events[j].id};
    }
    TakeAll(events);
  }

  /** The replay loop of the report, with its seen and replayed sets. */
  method NoReplay<R(==,!new)>(traces: seq<Trace<R>>) returns (ok: bool)
    ensures ok <==> Distinct(AllIds(traces))
  {
    var seen: set<EventId<R>> := {};
    var replayed: set<EventId<R>> := {};
    for i := 0 to |traces|
      invariant Tracked(AllIds(traces[..i]), seen, replayed)
    {
      TakeTake(traces, i + 1, i);
      seen, replayed := TrackEvents(AllIds(traces[..i]), traces[i].events, seen, replayed);
    }
    TakeAll(traces);
    return replayed == {};
  }

  method ArmsOnce<R>(traces: seq<Trace<R>>) returns (ok: bool)
    ensures ok <==> Distinct(Map(ArmOf<R>, traces))
  {
    var arms: set<Arm> := {};
    for i := 0 to |traces|
      invariant forall a :: a in arms <==> a in Map(ArmOf<R>, traces[..i])
      invariant Distinct(Map(ArmOf<R>, traces[..i]))
    {
      TakeSnoc(traces, i);
      MapAppend(ArmOf<R>, traces[..i], traces[i]);
      DistinctSnoc(Map(ArmOf<R>, traces[..i]), traces[i].arm);
      if traces[i].arm in arms {
        RepeatedArm(traces, i);
        return false;
      }
      arms := arms + {traces[i].arm};
    }
    TakeAll(traces);
    return true;
  }

  lemma {:induction false} RepeatedArm<R>(traces: seq<Trace<R>>, i: nat)
    requires i < |traces| && traces[i].arm in Map(ArmOf<R>, traces[..i])
    ensures !Distinct(Map(ArmOf<R>, traces))
  {
    var k :| 0 <= k < i && Map(ArmOf<R>, traces[..i])[k] == traces[i].arm;
    var arms := Map(ArmOf<R>, traces);
    assert arms[k] == arms[i];
  }

  method CheckReport<R(==,!new)>(traces: seq<Trace<R>>) returns (ok: bool)
    requires forall t :: t in traces ==> ValidTrace(t)
    ensures ok <==> ReportOk(traces)
  {
    if exists t :: t in traces && !Closed(t) {
      return false;
    }
    var once := ArmsOnce(traces);
    if !once || |traces| != 5 {
      return false;
    }
    var unique := NoReplay(traces);
    return unique && |AllBases(traces)| == 1;
  }

  lemma FiveArms()
    ensures |Elements(ARMS)| == 5
  {
    assert Distinct(ARMS);
    DistinctMultiset(ARMS);
  }

  /** Five different arms are all the arms. */
  lemma {:induction false} AllArms(arms: seq<Arm>, arm: Arm)
    requires |arms| == 5 && Distinct(arms)
    ensures arm in arms
  {
    DistinctMultiset(arms);
    FiveArms();
    var all := Elements(ARMS);
    forall a | a in Elements(arms) ensures a in all {
      EveryArmListed(a);
    }
    EveryArmListed(arm);
    if arm !in Elements(arms) {
      ProperSubsetSmaller(Elements(arms), all);
    }
  }

  /** A report holds a trace for every arm, and only one. */
  lemma {:induction false} EveryArmTraced<R(!new)>(traces: seq<Trace<R>>, arm: Arm)
    requires ReportOk(traces)
    ensures exists i :: 0 <= i < |traces| && traces[i].arm == arm
    ensures forall i, j :: 0 <= i < |traces| && 0 <= j < |traces| && traces[i].arm == traces[j].arm ==> i == j
  {
    var arms := Map(ArmOf<R>, traces);
    AllArms(arms, arm);
    var k :| 0 <= k < |arms| && arms[k] == arm;
    forall i, j | 0 <= i < |traces| && 0 <= j < |traces| && traces[i].arm == traces[j].arm ensures i == j {
      assert arms[i] == arms[j];
    }
  }

  lemma {:induction false} ProperSubsetSmaller<T>(a: set<T>, b: set<T>)
    requires a < b
    ensures |a| < |b|
  {
    assert |b - a| > 0;
    assert b == a + (b - a);
    assert |b| == |a| + |b - a|;
  }

  lemma {:induction false} IdListed<R>(events: seq<Event<R>>, x: Event<R>)
    requires x in events
    ensures x.id in Map(Id<R>, events)
  {
    var k :| 0 <= k < |events| && events[k] == x;
    assert Map(Id<R>, events)[k] == x.id;
  }

  lemma {:induction false} HalvesApart<T(!new)>(a: seq<T>, b: seq<T>, x: T)
    requires Distinct(a + b) && x in a
    ensures x !in b
  {
    var i :| 0 <= i < |a| && a[i] == x;
    forall j | 0 <= j < |b| ensures b[j] != x {
      assert (a + b)[i] != (a + b)[|a| + j];
    }
  }

  /** Work identified by one event id is charged to one arm only. */
  lemma {:induction false} ChargedOnce<R(!new)>(traces: seq<Trace<R>>, i: nat, j: nat, x: Event<R>, y: Event<R>)
    requires ReportOk(traces) && i < j < |traces| && x in traces[i].events && y in traces[j].events
    ensures x.id != y.id
  {
    var k :| 0 <= k < |traces[i].events| && traces[i].events[k] == x;
    InAllIds(traces[..j], i, k);
    AllIdsPrefix(traces, j + 1);
    TakeTake(traces, j + 1, j);
    HalvesApart(AllIds(traces[..j]), Map(Id<R>, traces[j].events), x.id);
    IdListed(traces[j].events, y);
  }

  lemma {:induction false} InAllIds<R>(traces: seq<Trace<R>>, i: nat, k: nat)
    requires i < |traces| && k < |traces[i].events|
    ensures traces[i].events[k].id in AllIds(traces)
  {
    var n := |traces| - 1;
    if i < n {
      InAllIds(traces[..n], i, k);
    } else {
      assert Map(Id<R>, traces[n].events)[k] == traces[i].events[k].id;
    }
  }

  lemma {:induction false} AllIdsPrefix<R(!new)>(traces: seq<Trace<R>>, n: nat)
    requires n <= |traces| && Distinct(AllIds(traces))
    ensures Distinct(AllIds(traces[..n]))
    decreases |traces|
  {
    var m := |traces| - 1;
    if n <= m {
      var whole := AllIds(traces);
      forall i, j | 0 <= i < j < |AllIds(traces[..m])| ensures AllIds(traces[..m])[i] != AllIds(traces[..m])[j] {
        assert whole[i] != whole[j];
      }
      AllIdsPrefix(traces[..m], n);
      TakeTake(traces, m, n);
    } else {
      TakeAll(traces);
    }
  }
}
