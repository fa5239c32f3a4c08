/** Arms, costs, completion states: the vocabulary every component shares. */
module Contracts {

  datatype Arm = Ordinary | Portfolio | ProductOnly | MultiFidelity | VerifiedChain

  const ARMS: seq<Arm> := [Ordinary, Portfolio, ProductOnly, MultiFidelity, VerifiedChain]

  const CONTROLS: seq<Arm> := [Ordinary, Portfolio, ProductOnly, MultiFidelity]

  lemma EveryArmListed(a: Arm)
    ensures a in ARMS
  {
    match a
    case Ordinary => assert ARMS[0] == a;
    case Portfolio => assert ARMS[1] == a;
    case ProductOnly => assert ARMS[2] == a;
    case MultiFidelity => assert ARMS[3] == a;
    case VerifiedChain => assert ARMS[4] == a;
  }

  /** Position of the arm's value among all values in text order. */
  function NameRank(a: Arm): nat {
    match a
    case MultiFidelity => 0
    case Ordinary => 1
    case Portfolio => 2
    case ProductOnly => 3
    case VerifiedChain => 4
  }

  datatype CompletionStatus = SUCCEEDED | FAILED | TIMEOUT | ERROR

  datatype GoalDecision = BLOCKED | INCOMPLETE | PASS | FAIL

  datatype UsageBasis = ProviderTokens | VisibleUtf8Bytes

  datatype CompleteCost = CompleteCost(
    modelCalls: nat, inputTokens: nat, outputTokens: nat,
    verifierMilliseconds: nat, orchestrationMilliseconds: nat)
  {
    predicate Within(ceiling: CompleteCost) {
      && modelCalls <= ceiling.modelCalls
      && inputTokens <= ceiling.inputTokens
      && outputTokens <= ceiling.outputTokens
      && verifierMilliseconds <= ceiling.verifierMilliseconds
      && orchestrationMilliseconds <= ceiling.orchestrationMilliseconds
    }

    function Plus(other: CompleteCost): CompleteCost {
      CompleteCost(modelCalls + other.modelCalls, inputTokens + other.inputTokens,
                   outputTokens + other.outputTokens,
                   verifierMilliseconds + other.verifierMilliseconds,
                   orchestrationMilliseconds + other.orchestrationMilliseconds)
    }
  }

  const NO_COST := CompleteCost(0, 0, 0, 0, 0)

  const ATTEMPTS_PER_CELL: nat := 16

  /** A value read from an untyped object: of the exact expected type, or not. */
  datatype Field<T> = Mistyped | Typed(value: T)

  datatype Option<T> = None | Some(value: T)

  datatype Result<T> = Ok(value: T) | Raised
}
