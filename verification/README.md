# Verified model of the five-arm paired experiment

The repository runs a paired experiment: five arms (four controls and a candidate, the verified chain) attack the same
problems with sixteen attempts a cell. Every model call is registered before it happens, executed, signed once, closed
into an immutable join, reconciled with a receipt ledger and cost traces, and judged by exact statistics. This project
models that pipeline in Dafny and proves what each stage promises, and what the stages promise together.

| stage | files | main results |
|---|---|---|
| statistics | `Statistics.dfy` | the incremental binomial tail never drops a remainder; the p-value is 1 exactly for balanced counts; Holm step-down is closed testing with Bonferroni |
| the two evaluators | `Evaluators.dfy`, `EvidenceGate.dfy` | both independently written evaluators reach one verdict; a bundle is admitted exactly when it is clean, and the cohort-size fallback is unreachable |
| dispatch | `OneTimeSignature.dfy`, `Records.dfy`, `Dispatch.dfy`, `DispatchAuthority.dfy` | over every interleaving of clients the manifest only grows, heads determine histories, one registration per manifest, closed and aborted runs stay; close is a bijection test; signatures verify, and only the key's own |
| executor | `Executor.dfy`, `ExecutorRuns.dfy`, `BaselineAdapter.dfy`, `Utf8.dfy` | for every behaviour of both ports: one entry a call, and a run closes exactly when the ports it asked return encodable error text |
| verified-chain steps | `ChainStep.dfy`, `ChainRuns.dfy`, `ChainAdapter.dfy` | every transitive ancestor is recorded, earlier, in one cell, and lines of ancestors end; retries step back one attempt; a PASS is a product or an answer, never both |
| in-process chain | `VerifiedChain.dfy` | the five-state protocol keeps its invariant; equal receipts mean equal ancestry to step 0 |
| ledger, costs, bridge | `ExecutionLedger.dfy`, `Cost.dfy`, `Bridge.dfy`, `BridgeResults.dfy` | closed dispatches and planned slots in bijection; outcomes derived, costs conserved |
| end to end | `BridgedBundle.dfy`, `Pipeline.dfy` | on a bridged bundle the evaluator says PASS exactly when the bindings, outcomes and costs are admitted and the criterion holds of the cells with a proved answer; order, pairing and replay checks never object |
| schedule and pilot plan | `Schedule.dfy`, `PilotPlan.dfy`, `Framing.dfy`, `OpaqueIds.dfy` | the dispatch index is a bijection, positions are balanced, predecessors come first; generated plans are valid; two ids read alike only on a hash collision that can be named |
| publication | `Publish.dfy` | with any number of processes, failures and crashes: a visible trust root has its authority, and nobody else's file is touched |

`Contracts.dfy`, `Sorting.dfy` and `Grouping.dfy` hold the shared vocabulary, stable sorting, and the dictionary-building
loops that several components repeat.

## How the model reads the source

- An object whose methods update it is a class (`CompletionSigner`, `DispatchAuthority` over a shared `Database`,
  `ExecutionLedger`, `ExecutionLedgerAuthority`, `VerifiedChain`); each method is proved against a specification function,
  and the results over whole runs are lemmas about those functions. A call that raises is a step that changes nothing.
- A digest is a free constructor over the content it covers, one for each domain tag, so equal digests mean equal content.
  For the length-prefixed ids of `PilotPlan` and `Schedule`, `OpaqueIds.dfy` writes each id out as the source does and
  proves that two different ids with one text give two different byte strings, among those hashed for them, with one
  digest; `Framing.dfy` holds the byte-level results this rests on. For other digests the step is taken as given. The
  signature loop works on real bytes, with the hash as a parameter; each lemma says what it needs of the hash.
- Model and verifier ports are arbitrary functions with outcomes for a value, an exception, a wrong type and a wrong
  dispatch. Run lemmas quantify over all of them.
- Sizes are general: any duplicate-free problem list, with the constants 5 arms and 16 attempts kept. Probabilities are
  reals, so `x <= alpha / (m - rank)` is exact.

## Where the code and its promise differ

- **A run can be left unclosable.** A model observation accepts any non-blank error text
  (`src/supernova_goal1/execution/baselines.py:66-71`); the attempt result built from it after registration refuses text
  with surrogate code points (`src/supernova_goal1/execution/common.py:38-45`). The adapter then raises with the entry
  registered and no completion for it. `ExecutorRuns.RunCloses` gives the exact condition for every run, in terms of what
  the ports return; `ExecutorRuns.UnencodableMeans` says what the failing port does;
  `ExecutorRuns.EncodableRunCloses` is a check to be made port by port, `ExecutorRuns.DistinctRunCloses` the form for a
  run of distinct attempts, and `ExecutorRuns.SurrogateRunCannotClose` a run that shows the failure.
- **A proposed product can be stuck for good.** `propose` does not ask for a configured verifier or for encodable
  identifiers; `verify_pending` needs both, and a product awaiting verification cannot be discarded.
  `VerifiedChainArm.WayForward` is the exact condition, `VerifiedChainArm.SurrogateProductSticks` a witness.
- **The joint pilot check does not tie a label to its evaluation id.** Labels of two cells of one arm can be exchanged and
  the pair is still accepted (`PilotPlan.SwappedLabelsAccepted`). `PilotPlan.LabelRightWhen` names the comparison that
  decides each label, and `PilotPlan.AcceptedIsBijection` says what acceptance does give.
- **`solved` means some SUCCEEDED attempt.** A verified-chain product that passes Lean is an answered, passed completion, so
  it counts (`src/supernova_goal1/execution/verified_chain.py:743`, `src/supernova_goal1/evidence_bridge.py:1812-1814`);
  `BridgeResults.SolvedMeansProved` states exactly that.

## Model

| member | source | states |
|---|---|---|
| `McNemar.BinomialHalfLowerTailNumerator` | src/supernova_goal1/statistics.py:38-46 | the incremental loop computes the sum of the binomial coefficients C(trials, j) for j up to `successes`, every integer division being exact |
| `McNemar.NextCoefficient` | src/supernova_goal1/statistics.py:42-45 | C(n,k)(n-k) = C(n,k+1)(k+1), which is why the loop's division never drops a remainder |
| `McNemar.McNemarExactTwoSided` | src/supernova_goal1/statistics.py:49-73 | the p-value is the doubled smaller tail over 2^n, capped at one, with the empty case giving one |
| `McNemar.TailComplement` | src/supernova_goal1/statistics.py:38-46 | the sums of binomial coefficients up to s and up to n-1-s together make 2^n |
| `McNemar.ImplementationsAgree` | src/supernova_goal1/evaluate_confirmatory.py:356-362 | the sum-of-combinations implementation equals the incremental one for all naturals, so the evaluator's cross-check never fires |
| `McNemar.Symmetric` | src/supernova_goal1/statistics.py:49-73 | swapping candidate and control wins leaves the p-value unchanged |
| `McNemar.OneIffBalanced` | src/supernova_goal1/statistics.py:63-73 | the p-value is one exactly when the win counts differ by at most one |
| `McNemar.LopsidedIsStronger` | src/supernova_goal1/statistics.py:63-73 | for one discordant total, a more lopsided split gives a strictly smaller p-value (unless both are one, which it rules out) |
| `Holm.HolmStepDown` | src/supernova_goal1/statistics.py:76-106 | refuses exactly invalid input; otherwise each position gets its own p-value, the threshold of its stable rank, and the order-free decision `Rejected` |
| `Holm.StepDown` | src/supernova_goal1/statistics.py:93-104 | the loop over ordered values records for each original index the decision stated without sorting |
| `Holm.StepDownIsRejected` | src/supernova_goal1/statistics.py:93-104 | the loop's running conjunction up to a rank is the order-free criterion, ties included |
| `Holm.HolmIsClosedTesting` | src/supernova_goal1/statistics.py:76-106 | a hypothesis is rejected if and only if every set of hypotheses through it has a member meeting Bonferroni for that set |
| `Holm.RejectionNeedsBonferroni` | src/supernova_goal1/statistics.py:76-106 | rejecting any member of a set of nulls needs a member with p at most alpha over the set's size: familywise control |
| `Holm.RejectedIgnoresOrder` | src/supernova_goal1/statistics.py:76-106 | decisions depend on the multiset of p-values only |
| `Holm.RejectionIsMonotone` | src/supernova_goal1/statistics.py:93-104 | a p-value no larger than a rejected one is rejected; ties share a decision |
| `Outcomes.DifferenceIsWins` | src/supernova_goal1/evaluate_confirmatory.py:698-756 | the difference of solved totals equals the difference of one-sided wins |
| `Outcomes.ProblemOrderIrrelevant` | src/supernova_goal1/evaluate.py:104-129 | counts do not depend on the order in which problems are listed |
| `ExperimentEvaluator.CollectOutcomes` | src/supernova_goal1/evaluate.py:50-78 | raises exactly on foreign, over-budget, mixed-basis or repeated outcomes, and otherwise holds each cell's outcome |
| `ExperimentEvaluator.MissingCells` | src/supernova_goal1/evaluate.py:80-86 | lists exactly the absent problem/arm cells; empty exactly when the table is complete |
| `ExperimentEvaluator.CountContrast` | src/supernova_goal1/evaluate.py:107-113 | the two counters are the one-sided wins of candidate and control |
| `ExperimentEvaluator.CountContrasts` | src/supernova_goal1/evaluate.py:105-123 | wins and exact p-value of every control in the frozen order |
| `ExperimentEvaluator.Contrasts` | src/supernova_goal1/evaluate.py:28-42 | each control's result holds its own wins, p-value, stable-rank threshold and order-free Holm decision |
| `ExperimentEvaluator.AllSuperior` | src/supernova_goal1/evaluate.py:124-129 | all results positive and rejected is the superiority criterion over the table |
| `ExperimentEvaluator.EvaluateExperiment` | src/supernova_goal1/evaluate.py:45-129 | raises exactly on unacceptable input; BLOCKED, INCOMPLETE, PASS or FAIL by the stated criterion, with the exact missing cells, solved counts and contrasts |
| `ConfirmatoryEvaluator.PrefixMonotone` | src/supernova_goal1/evaluate_confirmatory.py:365-366 | a longer attempt prefix never loses a solved cell |
| `ConfirmatoryEvaluator.PrefixCountMonotone` | src/supernova_goal1/evaluate_confirmatory.py:365-389 | solved counts rise with the attempt prefix |
| `ConfirmatoryEvaluator.CountPairs` | src/supernova_goal1/evaluate_confirmatory.py:369-389 | raises exactly on a missing cell; the four counters partition the problems, with both one-sided wins and the candidate's total fixed |
| `ConfirmatoryEvaluator.RawPValues` | src/supernova_goal1/evaluate_confirmatory.py:698-720 | one exact p-value a control, the second implementation agreeing beside it |
| `ConfirmatoryEvaluator.HolmFlags` | src/supernova_goal1/evaluate_confirmatory.py:722-736 | the flags used are the order-free Holm decisions of the values given |
| `ConfirmatoryEvaluator.AllPassIn` | src/supernova_goal1/evaluate_confirmatory.py:740-752 | true exactly when every control in the order has a positive difference and a rejection |
| `ConfirmatoryEvaluator.AllContrastsPass` | src/supernova_goal1/evaluate_confirmatory.py:722-752 | sorting controls by p-value and name first still decides the criterion over all four controls |
| `ConfirmatoryEvaluator.EvaluateCompleteSnapshots` | src/supernova_goal1/evaluate_confirmatory.py:678-834 | raises exactly on an incomplete table; PASS or FAIL by the criterion over all sixteen attempts |
| `ConfirmatoryEvaluator.ContrastsAgree` | src/supernova_goal1/evaluate_confirmatory.py:722-752 | contrast by contrast the two evaluators state one criterion: totals against wins, presorted against frozen order |
| `ConfirmatoryEvaluator.EvaluatorsAgree` | src/supernova_goal1/evaluate_confirmatory.py:817-834 | for any complete outcome table and alpha, `evaluate_experiment` says PASS if and only if the confirmatory evaluator does, in whatever orders problems are listed |
| `EvidenceGate.CheckVectors` | src/supernova_goal1/evaluate_confirmatory.py:555-580 | accepts exactly eight clean sixteen-entry vectors and then appends their values, nothing else changed |
| `EvidenceGate.CheckOutcomes` | src/supernova_goal1/evaluate_confirmatory.py:582-598 | objects exactly when some status is TIMEOUT or ERROR |
| `EvidenceGate.CheckIdentity` | src/supernova_goal1/evaluate_confirmatory.py:515-539 | skips a record exactly for a mistyped arm or an unusable problem id; otherwise records key and identity, objecting exactly to wrong bindings or a changed identity |
| `EvidenceGate.CheckEvidence` | src/supernova_goal1/evaluate_confirmatory.py:541-625 | leaves a clear state clear exactly for clean statuses, vectors and cost, and then absorbs the record |
| `EvidenceGate.IterateRecord` | src/supernova_goal1/evaluate_confirmatory.py:515-625 | one iteration objects exactly to an unclean record or a changed identity, and otherwise absorbs it |
| `EvidenceGate.ScanRecords` | src/supernova_goal1/evaluate_confirmatory.py:515-625 | the pass raises no objection exactly when every record is clean, and then all of it has been gathered |
| `EvidenceGate.CheckKeys` | src/supernova_goal1/evaluate_confirmatory.py:627-659 | no objection exactly for distinct cells in canonical problems × arms order |
| `EvidenceGate.CheckReplay` | src/supernova_goal1/evaluate_confirmatory.py:661-667 | no objection exactly when every vector, record digest and trace digest is globally unique |
| `EvidenceGate.ValidateAuthenticatedBundle` | src/supernova_goal1/evaluate_confirmatory.py:473-675 | no blocker and no incomplete reason if and only if the bundle is clean, and then the snapshots are its records' |
| `EvidenceGate.CleanBundleIsComplete` | src/supernova_goal1/evaluate_confirmatory.py:515-675 | a clean bundle has exactly problems × arms in canonical order, only SUCCEEDED or FAILED attempts, costs in the ceiling, and every later lookup defined |
| `EvidenceGate.EvaluateAuthenticatedBundle` | src/supernova_goal1/evaluate_confirmatory.py:836-885 | blockers win over incompleteness; a scientific decision exactly for clean bundles; the cohort-size fallback is never reached |
| `OneTimeSignature.JoinBlocks` | src/supernova_goal1/dispatch.py:89-95 | joining 32-byte parts and cutting at multiples of 32 is the identity |
| `OneTimeSignature.ChoicesDetermine` | src/supernova_goal1/dispatch.py:104-105 | the 256 bit positions cover the digest: equal bits, equal digests |
| `OneTimeSignature.Sign` | src/supernova_goal1/dispatch.py:108-115 | the slice loop yields, for each digest bit, the secret of that bit's pair |
| `OneTimeSignature.Verify` | src/supernova_goal1/dispatch.py:118-132 | accepts exactly right-sized signatures whose every block hashes to the public block its digest bit selects |
| `OneTimeSignature.SignedVerifies` | src/supernova_goal1/dispatch.py:89-132 | for every key and message, the key's signature is accepted under its public key, with no assumption on the hash |
| `OneTimeSignature.OnlyOwnSignature` | src/supernova_goal1/dispatch.py:118-132 | if secrets hash apart, the only accepted signature for a key and message is the key's own |
| `OneTimeSignature.ReplayCondition` | src/supernova_goal1/dispatch.py:118-132 | exactly when a signature for one message is accepted for another: on each differing digest bit the key's two secrets hash alike |
| `OneTimeSignature.SignatureBindsDigest` | src/supernova_goal1/dispatch.py:118-132 | so with pairs that hash apart a signature is bound to one digest |
| `Records.SucceededMeansPass` | src/supernova_goal1/dispatch.py:168-191 | a valid payload is SUCCEEDED if and only if it is answered and holds a PASS receipt with return code 0 for that request and that result |
| `Dispatch.CheckManifest` | src/supernova_goal1/dispatch.py:374-395 | the loop with its three sets accepts exactly hash-linked chains from the zero digest with distinct attempts, dispatches and commitments |
| `Dispatch.HeadDeterminesHistory` | src/supernova_goal1/dispatch.py:417-433 | two valid manifests with one digest are equal |
| `Dispatch.EntryDeterminesPrefix` | src/supernova_goal1/dispatch.py:263-347 | one equal entry digest means equal histories up to that entry |
| `Dispatch.AppendKeepsChain` | src/supernova_goal1/dispatch.py:401-414 | appending a request keeps the manifest valid if and only if its attempt and commitment are fresh |
| `Dispatch.ValidateRecord` | src/supernova_goal1/dispatch.py:903-932 | accepts exactly completions bound to this entry, its stored request and its commitment, with a valid signature of the body |
| `Dispatch.RegisterKeepsConsistent` | src/supernova_goal1/dispatch.py:846-901 | a granted registration keeps head, chain and stored requests consistent |
| `Dispatch.CloseKeepsConsistent` | src/supernova_goal1/dispatch.py:934-987 | a granted close stores one good completion per entry in manifest order, with recomputable digests |
| `Dispatch.CloseIgnoresOrder` | src/supernova_goal1/dispatch.py:934-987 | presenting the same records in another order closes the run identically |
| `Dispatch.StepKeepsConsistent` | src/supernova_goal1/dispatch.py:721-1059 | every client call, granted or refused, keeps the stored run consistent |
| `Dispatch.RunSafety` | src/supernova_goal1/dispatch.py:721-1059 | over every interleaving of register, close, abort and reopen: consistency holds, entries only grow by appending, closed and aborted runs never change |
| `Dispatch.OneRegistrationPerManifest` | src/supernova_goal1/dispatch.py:846-901 | once a registration on a presented manifest succeeds, no later one on it can, whatever happens between |
| `Dispatch.EqualHeadsEqualHistories` | src/supernova_goal1/dispatch.py:721-901 | reachable states with one head have the same entries and stored requests |
| `Dispatch.JoinIsPermanent` | src/supernova_goal1/dispatch.py:989-1025 | after a close every later state is the closed one |
| `Authority.SignedValidates` | src/supernova_goal1/dispatch.py:558-589 | what a signer issues for an entry and payload is what the authority accepts for them |
| `Authority.CompletionSigner.constructor` | src/supernova_goal1/dispatch.py:533-543 | a new signer holds its key unspent under the matching public key |
| `Authority.CompletionSigner.Complete` | src/supernova_goal1/dispatch.py:558-589 | succeeds exactly when unspent and the entry, payload and commitment fit; at most one completion in the signer's lifetime, and the key is zeroed |
| `Authority.DispatchAuthority.constructor` | src/supernova_goal1/dispatch.py:705-770 | opening creates the initial row only for an absent run and changes no other run |
| `Authority.DispatchAuthority.ManifestFromRows` | src/supernova_goal1/dispatch.py:788-837 | raises exactly when rows, requests or head do not recompute |
| `Authority.DispatchAuthority.CurrentManifest` | src/supernova_goal1/dispatch.py:839-844 | on a consistent run, the manifest of exactly the stored entries |
| `Authority.DispatchAuthority.Register` | src/supernova_goal1/dispatch.py:846-901 | compare-and-swap: succeeds exactly for the whole current manifest of an open run and a fresh, matching request, appending that entry alone; a refusal changes nothing |
| `Authority.DispatchAuthority.GatherCompletions` | src/supernova_goal1/dispatch.py:950-960 | succeeds exactly when dispatches are distinct, registered and each record validates against its stored request |
| `Authority.DispatchAuthority.Close` | src/supernova_goal1/dispatch.py:934-987 | succeeds if and only if the records are a bijection onto the entries of the current, open, non-empty manifest and each is valid; returns the stored join; a refusal changes nothing |
| `Authority.DispatchAuthority.ReadClosedJoin` | src/supernova_goal1/dispatch.py:989-1025 | revalidates and rebuilds the stored join, raising exactly when the run is not closed |
| `Authority.DispatchAuthority.VerifyClosedJoin` | src/supernova_goal1/dispatch.py:1027-1033 | accepts the stored join and nothing else |
| `Authority.DispatchAuthority.Abort` | src/supernova_goal1/dispatch.py:1035-1059 | succeeds exactly on an open run with a reason, storing the recomputable abort digest |
| `Authority.DispatchAuthority.ReadAbortReceipt` | src/supernova_goal1/dispatch.py:1061-1073 | returns the stored abort digest exactly for aborted runs |
| `Executor.SafeModelCall` | src/supernova_goal1/execution/baselines.py:198-231 | whatever the port does becomes an observation of the dispatch asked for: its own if valid and for that dispatch, otherwise an encodable ERROR with no response |
| `Executor.VerifiedIssues` | src/supernova_goal1/execution/baselines.py:342-373 | an answered attempt always gets a valid receipt bound to it, and a PASS exactly when the port returned a well-formed PASS |
| `Executor.MakeResult` | src/supernova_goal1/execution/common.py:387-457 | refuses exactly ERROR text that cannot be encoded; otherwise a valid result for the request with the observed status |
| `Executor.PayloadIsValid` | src/supernova_goal1/execution/baselines.py:342-375 | the payload assembled from a result and its receipt is always valid |
| `Executor.BaselineTraceCloses` | src/supernova_goal1/execution/baselines.py:379-404 | the attempt's trace is legal, fully covered and measured, and totals one call with the observed bytes and times |
| `ExecutorRuns.PayloadOf` | src/supernova_goal1/execution/baselines.py:318-375 | a registered attempt gets a valid payload of its own request exactly when its error text can be encoded |
| `ExecutorRuns.IssuedValidates` | src/supernova_goal1/execution/baselines.py:264-404 | the completion of a registered attempt passes the authority's test for its new entry |
| `ExecutorRuns.OneEntryEach` | src/supernova_goal1/execution/baselines.py:285-310 | a granted attempt adds exactly its own entry and request; a refused one changes nothing |
| `ExecutorRuns.EncodableCompletes` | src/supernova_goal1/execution/baselines.py:264-404 | whatever the ports do, an attempt with encodable (or no) error text adds exactly one completion, accepted for its entry |
| `ExecutorRuns.UnencodableStrands` | src/supernova_goal1/execution/baselines.py:318-340 | otherwise its entry is registered and no completion is issued |
| `ExecutorRuns.RunKeeps` | src/supernova_goal1/execution/baselines.py:264-404 | every run of attempts keeps the store consistent and each entry either answered or stranded |
| `ExecutorRuns.UnencodableMeans` | src/supernova_goal1/execution/baselines.py:198-231 | an attempt's error text cannot be encoded exactly when its port returned a valid observation of this very dispatch whose error text holds a surrogate; raising, another type or another dispatch never strand an attempt |
| `ExecutorRuns.StrandsNoneWhen` | src/supernova_goal1/execution/baselines.py:264-404 | from any state, a run strands no dispatch if and only if none was stranded before and every port asked encodes |
| `ExecutorRuns.RunCloses` | src/supernova_goal1/dispatch.py:934-987 | after any run with any port behaviour, closing the latest manifest with the collected completions succeeds if and only if something was registered and every model port that was asked returned encodable error text or none |
| `ExecutorRuns.EncodableRunCloses` | src/supernova_goal1/execution/baselines.py:198-404 | if each port, as whatever entry its attempt can be registered, returns only encodable error text, every run closes exactly when it has registered anything |
| `ExecutorRuns.DistinctRunCloses` | src/supernova_goal1/dispatch.py:846-901 | attempts with distinct (problem, arm, attempt) keys and fresh signing keys, each on the latest manifest, are all registered, one entry each in order; the run closes exactly when it is not empty and the ports encode |
| `ExecutorRuns.SurrogateObservation` | src/supernova_goal1/execution/baselines.py:66-71 | one lone surrogate is accepted as error text by the observation and refused by the result |
| `ExecutorRuns.SurrogateRunCannotClose` | src/supernova_goal1/execution/common.py:38-45 | a single attempt answering so leaves a registered run that its completions cannot close |
| `Utf8.DecodesIffEncoding` | src/supernova_goal1/execution/verified_chain.py:31-38 | the byte ranges of strict decoding accept exactly the encodings of texts without surrogates |
| `BaselineAdapter.RegisterAttempt` | src/supernova_goal1/execution/baselines.py:285-310 | registers exactly admitted attempts on the current manifest, returning the new entry |
| `BaselineAdapter.VerifyAnswer` | src/supernova_goal1/execution/baselines.py:342-373 | the verifier is called once for answers and never otherwise, and its receipt or the ERROR receipt is used |
| `BaselineAdapter.BuildPayload` | src/supernova_goal1/execution/baselines.py:318-375 | the payload of the observation, with exactly the time spent on the stretches that ran |
| `BaselineAdapter.FinishAttempt` | src/supernova_goal1/execution/baselines.py:318-404 | raises exactly for unencodable error text; otherwise the signed completion and the accounted trace of this attempt |
| `BaselineAdapter.ExecuteBaselineAttempt` | src/supernova_goal1/execution/baselines.py:264-404 | the whole adapter: what the store becomes and what is returned or raised, for every port behaviour, other runs untouched |
| `BaselineAdapter.ExecutesRefines` | src/supernova_goal1/execution/baselines.py:264-404 | the adapter is one step of the run model, raising after registration exactly when a dispatch is stranded |
| `BaselineAdapter.ExecutionAccounted` | src/supernova_goal1/execution/baselines.py:138-187 | a returned execution has a closed legal trace for its arm totalling its one call, its bytes and its times |
| `ChainStep.ProductRoundTrip` | src/supernova_goal1/execution/verified_chain.py:66-86 | rendering and parsing a product emission invert each other and nothing else parses, though one checks the product and the other the whole response as UTF-8 |
| `ChainStep.ExecutionLedger.RecordExecution` | src/supernova_goal1/execution/verified_chain.py:292-358 | write-once: accepts exactly recordable evidence, changes no existing row |
| `ChainStep.ExecutionLedger.VerifyRecord` | src/supernova_goal1/execution/verified_chain.py:360-420 | true exactly when the stored row is this completion's (and an admission, where demanded) |
| `ChainStep.PassIsClassified` | src/supernova_goal1/execution/verified_chain.py:765-787 | a completed step has a PASS receipt exactly when it is an admitted product or a terminal answer, never both; an admitted product satisfies the product type |
| `ChainRuns.RecordedIsLogged` | src/supernova_goal1/execution/verified_chain.py:360-420 | a completion the ledger vouches for is the one logged under its dispatch |
| `ChainRuns.NewIdUnrecorded` | src/supernova_goal1/execution/verified_chain.py:292-358 | a dispatch just registered has no ledger row yet |
| `ChainRuns.CompletedIsRecorded` | src/supernova_goal1/execution/verified_chain.py:789-792 | so the ledger always accepts a completed step |
| `ChainRuns.ChainRunSafety` | src/supernova_goal1/execution/verified_chain.py:658-799 | over every interleaving of chain steps and other attempts the invariants hold, and rows and log entries never change |
| `ChainRuns.AncestryIsWellFounded` | src/supernova_goal1/execution/verified_chain.py:569-655 | along any line of ancestors, followed from a logged step by what each was shown or retried, every completion is itself that of a logged step in the one frozen cell, and places in the log and attempts strictly fall |
| `ChainRuns.AncestorsAreRecorded` | src/supernova_goal1/execution/verified_chain.py:569-655 | in every reachable state each transitive ancestor of a logged step, at any depth, is the completion of an earlier logged step, is recorded in the ledger, is in its cell, and has an attempt smaller by at least its depth |
| `ChainRuns.LoggedStepsAreSound` | src/supernova_goal1/execution/verified_chain.py:603-799 | in every reachable state products shown were admitted before, and a retry steps back exactly one attempt to a step that did not pass |
| `ChainAdapter.CheckRetry` | src/supernova_goal1/execution/verified_chain.py:603-655 | accepts exactly recorded, authentic, non-passing completions of the same cell, one attempt back |
| `ChainAdapter.CheckProducts` | src/supernova_goal1/execution/verified_chain.py:569-600 | accepts exactly when every product is admitted, authentic, of the same cell and earlier |
| `ChainAdapter.AdmitStep` | src/supernova_goal1/execution/verified_chain.py:683-724 | the admission test before registration, with distinct products and producers |
| `ChainAdapter.ExecuteVerifiedChainStep` | src/supernova_goal1/execution/verified_chain.py:658-799 | the live step leaves the store and ledger, and returns or raises, as the run model's step says |
| `VerifiedChainArm.StepKeeps` | src/supernova_goal1/arms/verified_chain.py:390-677 | each call keeps the invariant: state decides what is pending or verified, records stand on the consumed ones before them, ids are fresh |
| `VerifiedChainArm.RunKeeps` | src/supernova_goal1/arms/verified_chain.py:349-354 | every run keeps it and only appends to the history |
| `VerifiedChainArm.CompleteIsFinal` | src/supernova_goal1/arms/verified_chain.py:646-677 | COMPLETE is absorbing |
| `VerifiedChainArm.InconclusiveThenPass` | src/supernova_goal1/arms/verified_chain.py:555-601 | a verifier TIMEOUT or ERROR changes nothing and does not spend the product |
| `VerifiedChainArm.ConsumedIndex` | src/supernova_goal1/arms/verified_chain.py:603-634 | consumed records carry indices 0, 1, 2, ... and all passed |
| `VerifiedChainArm.HistoryIsOnce` | src/supernova_goal1/arms/verified_chain.py:390-431 | product ids never repeat and a final record is the last |
| `VerifiedChainArm.FailedSharesIndex` | src/supernova_goal1/arms/verified_chain.py:636-644 | a failed product shares step index and parent with every later record up to the one that replaces it |
| `VerifiedChainArm.ReceiptBindsChain` | src/supernova_goal1/arms/verified_chain.py:131-174 | equal receipts of consumed chains mean equal problem, verifier, length and records, down to step 0 |
| `VerifiedChainArm.EqualReceiptsEqualAncestry` | src/supernova_goal1/arms/verified_chain.py:433-464 | two runs of any two chains reaching verified products with equal receipts verified the same product and consumed identical chains |
| `VerifiedChainArm.WayForward` | src/supernova_goal1/arms/verified_chain.py:555-601 | a product awaiting verification can ever leave that state if and only if a verifier is configured and its identifiers are encodable |
| `VerifiedChainArm.SurrogateProductSticks` | src/supernova_goal1/arms/verified_chain.py:390-431 | a product id of one lone surrogate is accepted and then no call changes the chain |
| `VerifiedChainArm.VerifiedChain.constructor` | src/supernova_goal1/arms/verified_chain.py:328-354 | a new chain is READY, empty and satisfies the invariant |
| `VerifiedChainArm.VerifiedChain.Propose` | src/supernova_goal1/arms/verified_chain.py:390-431 | accepted exactly in READY, with a fresh id, another producer than the verifier, and the very object consumed last as parent |
| `VerifiedChainArm.VerifiedChain.VerifyPending` | src/supernova_goal1/arms/verified_chain.py:555-601 | acts exactly on a conclusive verdict for the pending product, deriving subject, evidence and receipt itself |
| `VerifiedChainArm.VerifiedChain.ApplyVerification` | src/supernova_goal1/arms/verified_chain.py:498-553 | a pass turns the pending product into the verified one; a failure appends its record and keeps it pending |
| `VerifiedChainArm.VerifiedChain.ConsumeVerified` | src/supernova_goal1/arms/verified_chain.py:603-634 | releases exactly the verified product, as the same object, and returns to READY |
| `VerifiedChainArm.VerifiedChain.DiscardRejected` | src/supernova_goal1/arms/verified_chain.py:636-644 | drops exactly a rejected pending product |
| `VerifiedChainArm.VerifiedChain.Finalize` | src/supernova_goal1/arms/verified_chain.py:646-677 | releases the verified product with the final record and completes the chain |
| `Cost.Total` | src/supernova_goal1/cost.py:459-476 | refused exactly while some event is unmeasured; otherwise each counter is the sum of its own kind of event |
| `Cost.RequiredCostEvents` | src/supernova_goal1/evidence_bridge.py:1960-1981 | the loop builds exactly five bound events for each closed attempt |
| `Cost.RequiredKeys` | src/supernova_goal1/evidence_bridge.py:1960-1981 | a required event id is bound to a closed attempt's request, and its kind and basis are those its id names |
| `Cost.ReconcileTrace` | src/supernova_goal1/evidence_bridge.py:1984-2016 | accepts exactly when expected and observed manifests are the required one and every attempt's five events carry its receipt's measurements |
| `Cost.Conservation` | src/supernova_goal1/evidence_bridge.py:1984-2016 | for a reconciled trace in any event order, each total is the sum of what the attempts' receipts vouch for |
| `Cost.NoReplay` | src/supernova_goal1/cost.py:539-550 | the seen/replayed loop finds nothing exactly when no event id occurs twice across the traces |
| `Cost.ArmsOnce` | src/supernova_goal1/cost.py:524-529 | true exactly when no arm has two traces |
| `Cost.CheckReport` | src/supernova_goal1/cost.py:479-562 | accepts exactly five closed traces, one an arm, with no event counted twice and one usage basis |
| `Cost.EveryArmTraced` | src/supernova_goal1/cost.py:524-533 | a report has exactly one trace for every arm |
| `Cost.ChargedOnce` | src/supernova_goal1/cost.py:539-550 | work under one event id is charged to one arm only |
| `ExecutionLedger.ExecutionLedgerAuthority.RegisterDispatch` | src/supernova_goal1/evidence_bridge.py:880-942 | binds exactly a fitting registered dispatch to its planned slot, once |
| `ExecutionLedger.ExecutionLedgerAuthority.RecordCompletion` | src/supernova_goal1/evidence_bridge.py:1239-1404 | issues one receipt per dispatch, exactly when it was bound beforehand, both companion receipts are the ones its completion and slot must have, and no execution instance is used twice; sizes, status and times are read off the completion |
| `ExecutionLedger.ExecutionLedgerAuthority.VerifyCompleteJoin` | src/supernova_goal1/evidence_bridge.py:1506-1557 | succeeds exactly when bindings and receipts cover the join's dispatches, no more and no fewer, and each recomputes; returns them in join order |
| `Bridge.BuildCell` | src/supernova_goal1/evidence_bridge.py:2218-2286 | one record, exactly for a full, reconciled cell |
| `Bridge.RecordCell` | src/supernova_goal1/evidence_bridge.py:2228-2286 | on the sorted cell: refused exactly when attempts are missing or the trace does not reconcile; otherwise the record of that trace's total |
| `Bridge.BuildProblem` | src/supernova_goal1/evidence_bridge.py:2207-2286 | five records, exactly for a valid report whose cells all reconcile |
| `Bridge.BuildAll` | src/supernova_goal1/evidence_bridge.py:2204-2286 | records of all problems in order, or a refusal exactly when some problem fails |
| `Bridge.CheckRun` | src/supernova_goal1/evidence_bridge.py:2104-2194 | accepts exactly distinct slots, planned dispatches, one identity a problem, plan coverage and uniform invariants |
| `Bridge.BridgeItems` | src/supernova_goal1/evidence_bridge.py:2104-2286 | succeeds if and only if the joined evidence is bridgeable, and lays one record per sorted problem and arm |
| `Bridge.BridgeClosedEvidence` | src/supernova_goal1/evidence_bridge.py:2019-2286 | returns exactly when the presented join is the stored one, the ledger covers it and the rest is bridgeable; then the records are laid out from that evidence |
| `BridgeResults.DispatchesFillThePlan` | src/supernova_goal1/evidence_bridge.py:2104-2190 | closed dispatches and planned slots correspond one to one |
| `BridgeResults.AttemptsAligned` | src/supernova_goal1/evidence_bridge.py:2218-2286 | position a of a record's vectors is the run's one closed dispatch of that problem, arm and attempt a |
| `BridgeResults.SolvedMeansProved` | src/supernova_goal1/evidence_bridge.py:1812-1814 | a record is solved if and only if some attempt of its cell was answered with a PASS receipt bound to that request and result |
| `BridgeResults.CostIsConserved` | src/supernova_goal1/evidence_bridge.py:473-528 | a record's cost is sixteen calls and the sums of its completions' bytes, verifier times and ledger times |
| `BridgeResults.ProblemsInOrder` | src/supernova_goal1/evidence_bridge.py:2196-2207 | problems come sorted, each once, and are those of the closed run |
| `BridgeResults.BridgeDerives` | src/supernova_goal1/evidence_bridge.py:2104-2286 | whenever the bridge returns: the plan is filled one to one; problems are the run's, strictly sorted; records are exactly problems × arms; line a of each is the line of the one closed dispatch of that problem, arm and attempt a; and each outcome and cost is derived from that cell's sixteen attempts |
| `BridgedBundle.BridgedIsSeparated` | src/supernova_goal1/evidence_bridge.py:2104-2286 | in a bridged run all dispatches, bindings, completions, verifier evidence and receipts with their companions are pairwise different |
| `BridgedBundle.CellTracesApart` | src/supernova_goal1/evidence_bridge.py:1984-2016 | different cells were reconciled with different cost traces |
| `BridgedBundle.NothingReplayed` | src/supernova_goal1/evaluate_confirmatory.py:661-667 | the replay check objects to nothing in a bridged run: each of the eight vectors, the record digests and the traces are globally unique |
| `BridgedBundle.BundleClean` | src/supernova_goal1/evaluate_confirmatory.py:473-675 | a bridged bundle is clean if and only if the sealed rules, production status and run identifiers are the protocol's, the problems are its frozen list, every attempt is SUCCEEDED or FAILED, and every cost is within the ceiling |
| `Pipeline.GateSnapshots` | src/supernova_goal1/evaluate_confirmatory.py:555-625 | what the gate keeps of bridged records is each record's statuses and cost |
| `Pipeline.TableIsProofs` | src/supernova_goal1/evaluate_confirmatory.py:678-700 | the evaluator's outcome table over bridged records is the table of cells that hold a proved answer, and it is complete |
| `Pipeline.VerdictIsProofs` | src/supernova_goal1/evaluate_confirmatory.py:473-885 | from closed run to verdict, through the gate: PASS if and only if rules, status, identifiers and problem list are the protocol's, every attempt is SUCCEEDED or FAILED, every cost is within its ceiling, and the superiority criterion holds of the proved cells |
| `Pipeline.ScheduledPlanDistinct` | src/supernova_goal1/confirmatory_manifest.py:261-340 | a plan built by the schedule gives each slot its own protocol dispatch, as the gate's replay check needs |
| `Pipeline.ScheduledProblems` | src/supernova_goal1/evidence_bridge.py:2176-2207 | a run that covers the frozen schedule has exactly its problems, in its order |
| `Pipeline.JudgeClosedEvidence` | src/supernova_goal1/evaluate_confirmatory.py:836-885 | on live authorities and the frozen schedule: raises exactly when the bridge refuses; otherwise the verdict is PASS if and only if rules, status, identifiers, outcomes and costs are admitted and the criterion holds of the proved cells |
| `Schedule.EligibleIsTree` | src/supernova_goal1/confirmatory_manifest.py:26-44 | the multi-fidelity eligible sets are the edges of a tree with root attempt 15 |
| `Schedule.EveryAttemptReachesRoot` | src/supernova_goal1/confirmatory_manifest.py:26-44 | every attempt climbs to the root in four steps |
| `Schedule.PredecessorsAreEarlier` | src/supernova_goal1/confirmatory_manifest.py:26-44 | eligible and selected predecessors are earlier attempts |
| `Schedule.RotationInverts` | src/supernova_goal1/confirmatory_manifest.py:270-275 | arm c stands at position (c - problem) mod 5 of a problem's rotated list |
| `Schedule.FiveProblemsBalance` | src/supernova_goal1/confirmatory_manifest.py:271-275 | over any five consecutive problems each arm takes each position exactly once |
| `Schedule.PlanAt` | src/supernova_goal1/confirmatory_manifest.py:270-339 | the slot of attempt a, problem p, position k stands at its own dispatch index |
| `Schedule.IndexBijection` | src/supernova_goal1/confirmatory_manifest.py:261-340 | slot (a, p, arm c) has index 5na + 5p + ((c-p) mod 5) below 80n, different slots different ones, and the record there is the slot's |
| `Schedule.IndexOnto` | src/supernova_goal1/confirmatory_manifest.py:261-340 | every index below 80n belongs to a slot |
| `Schedule.PredecessorsDispatchFirst` | src/supernova_goal1/confirmatory_manifest.py:289-312 | each predecessor of a dispatch has a smaller dispatch index and is found there |
| `Schedule.MakeRecord` | src/supernova_goal1/confirmatory_manifest.py:289-339 | predecessor lookups in the slot dictionary always succeed and give the predecessors' own ids |
| `Schedule.BuildOperatorRecords` | src/supernova_goal1/confirmatory_manifest.py:267-339 | the nested loops build exactly the plan in dispatch order |
| `Schedule.DispatchIdsDistinct` | src/supernova_goal1/confirmatory_manifest.py:94-100 | no two planned dispatches share an id |
| `Schedule.Publicize` | src/supernova_goal1/confirmatory_manifest.py:341-368 | the ranked loop numbers the public records and remembers each dispatch's place |
| `Schedule.JoinIndices` | src/supernova_goal1/confirmatory_manifest.py:369-371 | each operator entry receives the place of its own public record and is otherwise unchanged |
| `Schedule.BuildRecords` | src/supernova_goal1/confirmatory_manifest.py:261-371 | public records in ranked order, operator records in dispatch order, joined by evaluation index |
| `Schedule.PublicIsPermutation` | src/supernova_goal1/confirmatory_manifest.py:341-371 | public records permute the operator's, and the join index of each entry is the place of its own record and no other's |
| `Framing.Feed` | src/supernova_goal1/assignment.py:67-76 | the hasher is fed each part after its eight-byte length, refused exactly when a length does not fit |
| `Framing.FramedInjective` | src/supernova_goal1/assignment.py:67-76 | equal framed bytes mean the same parts and the same number of them |
| `Framing.SeedBytesInjective` | src/supernova_goal1/assignment.py:51-64 | seeds of different types never coincide, equal bytes mean equal seeds, and exactly empty ones are refused |
| `Framing.EvaluationIdBinds` | src/supernova_goal1/assignment.py:158-184 | equal evaluation-id material means equal seed, assignment, problem and place |
| `OpaqueIds.IdCollision` | src/supernova_goal1/assignment.py:67-76 | two different assignment or evaluation ids have one text only if two different byte strings, among those hashed for them, have one digest |
| `OpaqueIds.RowTextsDiffer` | src/supernova_goal1/assignment.py:158-184 | two rows of one blinded order have one evaluation-id text only on such a collision |
| `OpaqueIds.DispatchCollision` | src/supernova_goal1/confirmatory_manifest.py:94-100 | dispatch ids have one text if and only if rules, problem, arm and attempt agree or exactly their material collides |
| `OpaqueIds.PlanTextsDiffer` | src/supernova_goal1/confirmatory_manifest.py:261-340 | two dispatches of one plan have one text only on a collision of their material |
| `PilotPlan.SeededPairedAssignment` | src/supernova_goal1/assignment.py:90-119 | refuses exactly empty, blank or repeated problem ids; otherwise the sorted, numbered assignments |
| `PilotPlan.CheckPairing` | src/supernova_goal1/assignment.py:140-155 | the dictionary loop accepts exactly lists in which each problem has each arm once |
| `PilotPlan.ValidatePairedAssignments` | src/supernova_goal1/assignment.py:122-155 | accepts exactly non-blank, uniquely identified, contiguously numbered, fully paired assignments |
| `PilotPlan.BlindRows` | src/supernova_goal1/assignment.py:158-184 | ranked rows for valid assignments only, each id committing to its assignment, problem and place |
| `PilotPlan.AssignmentsArePaired` | src/supernova_goal1/assignment.py:90-119 | seeded assignments always pass the pairing check: problems × arms once each, numbered 0 to 5n-1 |
| `PilotPlan.PlanIgnoresInputOrder` | src/supernova_goal1/assignment.py:90-119 | for a fixed seed, assignments and blinded rows do not depend on the order of the problems given |
| `PilotPlan.EvaluationIdsDistinct` | src/supernova_goal1/assignment.py:158-184 | evaluation ids never repeat |
| `PilotPlan.CheckPublicItems` | src/supernova_goal1/run_manifest.py:402-425 | accepts exactly contiguous, uniquely identified items of one quota with five items a problem and consistent problem snapshots and families |
| `PilotPlan.CheckRevealEntries` | src/supernova_goal1/run_manifest.py:699-709 | accepts exactly unique ids, contiguous execution indices and one quota |
| `PilotPlan.CheckFrozen` | src/supernova_goal1/run_manifest.py:712-741 | accepts exactly unique, non-blank problems, one a family, of one benchmark contract |
| `PilotPlan.ValidateFor` | src/supernova_goal1/run_manifest.py:575-642 | accepts exactly when the reveal binds the manifest, its plan re-derives from the seed and the labels, and labels pair with arms |
| `PilotPlan.BuildPair` | src/supernova_goal1/run_manifest.py:782-806 | items and entries follow the blinded rows, each item with its row's own problem |
| `PilotPlan.GeneratedIsValid` | src/supernova_goal1/run_manifest.py:748-828 | every generated pair passes the joint check, and its reveal joins the items one to one with problems × arms |
| `PilotPlan.GeneratePilotManifest` | src/supernova_goal1/run_manifest.py:748-828 | refuses exactly bad problems or a zero quota; otherwise a generated, valid pair |
| `PilotPlan.AcceptedIsBijection` | src/supernova_goal1/run_manifest.py:575-642 | for any accepted pair the reveal joins items one to one with labelled problems × arms, and both index sequences are 0 to 5n-1 |
| `PilotPlan.SwappedLabelsAccepted` | src/supernova_goal1/run_manifest.py:613-642 | exchanging the labels of two cells of one arm in a generated manifest is still accepted, though neither label is the problem its evaluation id commits to |
| `PilotPlan.LabelRightWhen` | src/supernova_goal1/run_manifest.py:613-642 | in an accepted pair a label is right if and only if the entry's assignment id recomputes from it |
| `Publish.StepKeeps` | src/supernova_goal1/confirmatory_supervisor.py:1206-1239 | every operation of every process, working, failing or crashing, keeps ownership and the marker rule |
| `Publish.StepTouchesOwnFiles` | src/supernova_goal1/confirmatory_supervisor.py:1206-1239 | a visible file is only ever removed, never replaced, and only by the process that made it visible |
| `Publish.PublishSafety` | src/supernova_goal1/confirmatory_supervisor.py:1312-1324 | over every run, rollback and cleanup included: a visible trust root has its authority visible, and files present beforehand stay |
| `Publish.OnePublisher` | src/supernova_goal1/confirmatory_supervisor.py:1206-1239 | a process that reports success has both files in place, and no other reports it |
| `Publish.LonePublisher` | src/supernova_goal1/confirmatory_supervisor.py:1193-1239 | alone and without failures, a process publishes if and only if neither file existed |

## Left out

- Cryptography itself: SHA-256 (section 6.2 of FIPS 180-4) and HMAC (section 2 of RFC 2104) are free constructors or
  parameters, so tampered rows that still carry a valid tag are not modelled. A hash parameter that returns another length
  than 32 bytes is read as returning zeroes.
- Canonical JSON, token and hexadecimal format checks: encodings are abstract functions; text that cannot be encoded, and
  bytes that do not decode, are modelled where they decide an outcome.
- `BridgedBundle.Names` assumes of the texts of digests that different digests read differently, none is empty, and none
  reads like a typed absence.
- SQLite: one transaction is one atomic step, and reading back a consistent store is proved, not corruption of the file.
- Float rounding: thresholds, p-values and effects are exact.
- Clocks, random keys and seeds, and the runs of model and verifier are parameters.
- The confirmatory evaluator's descriptive output (prefix curves, cost sums, effect summaries) beyond the verdict.
- Of a hermetic context receipt the environment constants, which the observing authority fixes, and its own signature.
- The evidence record's parallel vectors are one vector of lines, and the bridge's six invariant sets are one tuple.
- Product markers are any non-empty ASCII bytes in place of the fixed comment lines.
- Publish is a state machine on values: file contents and leftover temporary files are not tracked, and an interrupt between a
  link and the bookkeeping after it is not modelled. The initial state has no trust root without its authority, and nobody
  but the publishers acts during a run.
- VerifiedChainArm.WayForward: takes any configured verifier as able to return a conclusive verdict, because the verifier's
  behaviour is a parameter.
- Pipeline.VerdictIsProofs: takes the run's problem names as non-empty, because a problem identity is a checked token
  (`src/supernova_goal1/problem.py:52-66`) and token checks are not modelled.
- The checks that experiment, budget and basis names of an experiment specification are non-empty strings.
- `admission.py`, the legacy request and result contracts of the other arms, `compare_complete_cost`, benchmark assembly and
  its selection, launcher and schema validators: conjunctions of field checks that would add only easy members.
- Container inspection, subprocess control, the Go executor and the Lean runtime are not part of this model.
