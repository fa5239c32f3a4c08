/** Exact McNemar arithmetic: the incremental binomial tail and its doubled two-sided p-value. */
module McNemar {

  function Choose(n: nat, k: nat): nat {
    if k == 0 then 1 else if n == 0 then 0 else Choose(n - 1, k - 1) + Choose(n - 1, k)
  }

  function Factorial(n: nat): nat {
    if n == 0 then 1 else n * Factorial(n - 1)
  }

  function Pow2(n: nat): nat {
    if n == 0 then 1 else 2 * Pow2(n - 1)
  }

  /** The sum of the binomial coefficients `C(n, j)` for `j` up to `s`. */
  function Tail(n: nat, s: nat): nat {
    if s == 0 then 1 else Tail(n, s - 1) + Choose(n, s)
  }

  lemma {:induction false} ChooseAbove(n: nat, k: nat)
    requires k > n
    ensures Choose(n, k) == 0
  {
    if n > 0 {
      ChooseAbove(n - 1, k - 1);
      ChooseAbove(n - 1, k);
    }
  }

  /** The identity behind the incremental coefficient: no remainder is ever dropped. */
  lemma {:induction false} NextCoefficient(n: nat, k: nat)
    ensures Choose(n, k) * (n - k) == Choose(n, k + 1) * (k + 1)
  {
    if n == 0 {
    } else if k == 0 {
      NextCoefficient(n - 1, 0);
    } else {
      NextCoefficient(n - 1, k - 1);
      NextCoefficient(n - 1, k);
      PascalStep(Choose(n - 1, k - 1), Choose(n - 1, k), Choose(n - 1, k + 1), n, k);
    }
  }

  lemma PascalStep(a: int, b: int, c: int, n: int, k: int)
    requires a * (n - k) == b * k && b * (n - 1 - k) == c * (k + 1)
    ensures (a + b) * (n - k) == (b + c) * (k + 1)
  {
    calc {
      (a + b) * (n - k);
      a * (n - k) + b * (n - k);
      b * k + b * (n - k);
      b * k + b * (n - 1 - k) + b;
      b * k + c * (k + 1) + b;
      (b + c) * (k + 1);
    }
  }

  lemma ExactQuotient(a: int, b: int, d: int)
    requires d > 0 && a == b * d
    ensures a / d == b
  {
    var q, r := a / d, a % d;
    assert a == q * d + r;
    assert (b - q) * d == r;
    if b > q {
      SmallMultiple(b - q, d);
    } else if b < q {
      SmallMultiple(q - b, d);
    }
  }

  lemma SmallMultiple(m: int, d: int)
    requires m >= 1 && d > 0
    ensures m * d >= d
  {
  }

  /** `Choose` is the quotient of factorials that `math.comb` denotes. */
  lemma {:induction false} ChooseFactorial(n: nat, k: nat)
    requires k <= n
    ensures Choose(n, k) * Factorial(k) * Factorial(n - k) == Factorial(n)
  {
    if k > 0 {
      ChooseFactorial(n, k - 1);
      NextCoefficient(n, k - 1);
      assert Factorial(k) == k * Factorial(k - 1);
      assert Factorial(n - (k - 1)) == (n - (k - 1)) * Factorial(n - k);
      MoveFactor(Choose(n, k - 1), n - (k - 1), Choose(n, k), k, Factorial(k - 1), Factorial(n - k));
    }
  }

  lemma {:induction false} MoveFactor(c: int, m: int, d: int, k: int, f: int, g: int)
    requires c * m == d * k
    ensures d * (k * f) * g == c * f * (m * g)
  {
    calc {
      d * (k * f) * g;
      { assert d * (k * f) == (d * k) * f; }
      (d * k) * f * g;
      (c * m) * f * g;
      { RearrangeProduct(c, m, f, g); }
      c * f * (m * g);
    }
  }

  lemma RearrangeProduct(c: int, m: int, f: int, g: int)
    ensures (c * m) * f * g == c * f * (m * g)
  {
    assert (c * m) * f == (c * f) * m;
    assert ((c * f) * m) * g == (c * f) * (m * g);
  }

  lemma {:induction false} ChooseSymmetric(n: nat, k: nat)
    requires k <= n
    ensures Choose(n, k) == Choose(n, n - k)
  {
    if n == 0 || k == 0 {
      ChooseFull(n);
    } else if k == n {
      ChooseFull(n);
    } else {
      ChooseSymmetric(n - 1, k - 1);
      ChooseSymmetric(n - 1, k);
    }
  }

  lemma {:induction false} ChooseFull(n: nat)
    ensures Choose(n, n) == 1
  {
    if n > 0 {
      ChooseFull(n - 1);
      ChooseAbove(n - 1, n);
    }
  }

  lemma {:induction false} ChoosePositive(n: nat, k: nat)
    requires k <= n
    ensures Choose(n, k) > 0
  {
    if k > 0 {
      ChoosePositive(n - 1, k - 1);
    }
  }

  /** Pascal's rule summed: a tail over `n + 1` trials from tails over `n`. */
  lemma {:induction false} TailPascal(n: nat, s: nat)
    ensures Tail(n + 1, s) == Tail(n, s) + (if s == 0 then 0 else Tail(n, s - 1))
  {
    if s > 0 {
      TailPascal(n, s - 1);
    }
  }

  lemma {:induction false} TailBeyond(n: nat, s: nat)
    requires s >= n
    ensures Tail(n, s) == Tail(n, n)
  {
    if s > n {
      ChooseAbove(n, s);
      TailBeyond(n, s - 1);
    }
  }

  lemma {:induction false} TailTotal(n: nat)
    ensures Tail(n, n) == Pow2(n)
  {
    if n > 0 {
      TailTotal(n - 1);
      TailPascal(n - 1, n);
      TailBeyond(n - 1, n);
    }
  }

  /** The lower tail and the lower tail of the complement make up the whole row. */
  lemma {:induction false} TailComplement(n: nat, s: nat)
    requires s < n
    ensures Tail(n, s) + Tail(n, n - 1 - s) == Pow2(n)
  {
    if s == 0 {
      TailTotal(n);
      ChooseFull(n);
    } else {
      TailComplement(n, s - 1);
      ChooseSymmetric(n, s);
    }
  }

  lemma {:induction false} TailMonotone(n: nat, s: nat, t: nat)
    requires s < t <= n
    ensures Tail(n, s) < Tail(n, t)
  {
    ChoosePositive(n, t);
    if s < t - 1 {
      TailMonotone(n, s, t - 1);
    }
  }

  lemma {:induction false} Pow2Positive(n: nat)
    ensures Pow2(n) > 0
  {
    if n > 0 {
      Pow2Positive(n - 1);
    }
  }

  /** The incremental loop; the integer division is exact at every step. */
  method BinomialHalfLowerTailNumerator(trials: nat, successes: nat) returns (tail: nat)
    ensures tail == Tail(trials, successes)
  {
    var coefficient: int := 1;
    tail := 1;
    for index := 0 to successes
      invariant coefficient == Choose(trials, index)
      invariant tail == Tail(trials, index)
    {
      NextCoefficient(trials, index);
      ExactQuotient(coefficient * (trials - index), Choose(trials, index + 1), index + 1);
      coefficient := coefficient * (trials - index) / (index + 1);
      tail := tail + coefficient;
    }
  }

  function Min(a: nat, b: nat): nat {
    if a < b then a else b
  }

  /** The doubled smaller tail over 2^n, capped at one. */
  function ExactP(candidateOnly: nat, controlOnly: nat): (p: real)
    ensures 0.0 < p <= 1.0
  {
    var n := candidateOnly + controlOnly;
    Pow2Positive(n);
    TailPositive(n, Min(candidateOnly, controlOnly));
    var numerator := 2 * Tail(n, Min(candidateOnly, controlOnly));
    if numerator >= Pow2(n) then 1.0
    else
      RatioBounds(numerator, Pow2(n));
      numerator as real / Pow2(n) as real
  }

  lemma {:induction false} TailPositive(n: nat, s: nat)
    ensures Tail(n, s) > 0
  {
    if s > 0 {
      TailPositive(n, s - 1);
    }
  }

  lemma RatioBounds(a: int, b: int)
    requires 0 < a < b
    ensures 0.0 < a as real / b as real < 1.0
  {
  }

  method McNemarExactTwoSided(candidateOnly: nat, controlOnly: nat) returns (p: real)
    ensures p == ExactP(candidateOnly, controlOnly)
  {
    var discordant := candidateOnly + controlOnly;
    if discordant == 0 {
      return 1.0;
    }
    var smaller := Min(candidateOnly, controlOnly);
    var tail := BinomialHalfLowerTailNumerator(discordant, smaller);
    var numerator := 2 * tail;
    var denominator := Pow2(discordant);
    Pow2Positive(discordant);
    if numerator >= denominator {
      return 1.0;
    }
    return numerator as real / denominator as real;
  }

  /** `math.comb`, as the quotient of factorials. */
  function Comb(n: nat, k: nat): nat {
    if k > n then 0
    else
      FactorialPositive(k);
      FactorialPositive(n - k);
      ProductPositive(Factorial(k), Factorial(n - k));
      Factorial(n) / (Factorial(k) * Factorial(n - k))
  }

  lemma {:induction false} FactorialPositive(n: nat)
    ensures Factorial(n) > 0
  {
    if n > 0 {
      FactorialPositive(n - 1);
    }
  }

  lemma ProductPositive(a: int, b: int)
    requires a > 0 && b > 0
    ensures a * b > 0
  {
  }

  function CombSum(n: nat, count: nat): nat {
    if count == 0 then 0 else CombSum(n, count - 1) + Comb(n, count - 1)
  }

  /** The evaluator's second implementation: a sum of combinations as a fraction, capped at one. */
  function FractionalMcNemar(candidateOnly: nat, controlOnly: nat): real {
    var discordant := candidateOnly + controlOnly;
    if discordant == 0 then 1.0
    else
      Pow2Positive(discordant);
      var ratio := (2 * CombSum(discordant, Min(candidateOnly, controlOnly) + 1)) as real / Pow2(discordant) as real;
      if ratio < 1.0 then ratio else 1.0
  }

  lemma Regroup(c: int, f: int, g: int)
    ensures c * f * g == c * (f * g)
  {
  }

  lemma CombIsChoose(n: nat, k: nat)
    ensures Comb(n, k) == Choose(n, k)
  {
    if k > n {
      ChooseAbove(n, k);
    } else {
      ChooseFactorial(n, k);
      FactorialPositive(k);
      FactorialPositive(n - k);
      ProductPositive(Factorial(k), Factorial(n - k));
      Regroup(Choose(n, k), Factorial(k), Factorial(n - k));
      ExactQuotient(Factorial(n), Choose(n, k), Factorial(k) * Factorial(n - k));
    }
  }

  lemma {:induction false} CombSumIsTail(n: nat, s: nat)
    ensures CombSum(n, s + 1) == Tail(n, s)
  {
    CombIsChoose(n, s);
    if s > 0 {
      CombSumIsTail(n, s - 1);
    } else {
      assert CombSum(n, 0) == 0;
    }
  }

  /** The two independently written p-values never disagree, so the evaluator's cross-check never fires. */
  lemma ImplementationsAgree(w: nat, l: nat)
    ensures ExactP(w, l) == FractionalMcNemar(w, l)
  {
    var n := w + l;
    CombSumIsTail(n, Min(w, l));
    Pow2Positive(n);
    if n > 0 {
      RatioAgainstOne(2 * Tail(n, Min(w, l)), Pow2(n));
    } else {
      assert Tail(0, 0) == 1 && Pow2(0) == 1;
    }
  }

  lemma RatioAgainstOne(a: nat, b: nat)
    requires b > 0
    ensures a >= b <==> a as real / b as real >= 1.0
  {
  }

  lemma Symmetric(w: nat, l: nat)
    ensures ExactP(w, l) == ExactP(l, w)
  {
    assert Min(w, l) == Min(l, w) && w + l == l + w;
  }

  /** The p-value carries no evidence exactly when the two counts differ by at most one. */
  lemma OneIffBalanced(w: nat, l: nat)
    ensures ExactP(w, l) == 1.0 <==> -1 <= w - l <= 1
  {
    var n, s := w + l, Min(w, l);
    Pow2Positive(n);
    TailPositive(n, s);
    if s < n {
      TailComplement(n, s);
      if n - 1 - s > s {
        TailMonotone(n, s, n - 1 - s);
        RatioBounds(2 * Tail(n, s), Pow2(n));
      } else if n - 1 - s < s {
        TailMonotone(n, n - 1 - s, s);
      }
    } else {
      assert n == 0 && Tail(0, 0) == 1 && Pow2(0) == 1;
    }
  }

  /** With the discordant total fixed, a more lopsided split is strictly stronger evidence. */
  lemma LopsidedIsStronger(w: nat, l: nat, w': nat, l': nat)
    requires w + l == w' + l' && Min(w', l') < Min(w, l)
    ensures ExactP(w', l') <= ExactP(w, l)
    ensures ExactP(w', l') < 1.0
    ensures ExactP(w, l) < 1.0 ==> ExactP(w', l') < ExactP(w, l)
  {
    var n := w + l;
    TailMonotone(n, Min(w', l'), Min(w, l));
    Pow2Positive(n);
    OneIffBalanced(w', l');
    OneIffBalanced(w, l);
    if ExactP(w, l) < 1.0 {
      RatioMonotone(2 * Tail(n, Min(w', l')), 2 * Tail(n, Min(w, l)), Pow2(n));
    }
  }

  lemma RatioMonotone(a: int, b: int, d: int)
    requires a < b && d > 0
    ensures a as real / d as real < b as real / d as real
  {
  }
}

/** Holm step-down, and why it is closed testing with Bonferroni. */
module Holm {
  import opened Contracts
  import opened Sorting

  datatype HolmResult = HolmResult(pValue: real, threshold: real, rejectsNull: bool)

  predicate ValidInput(p: seq<real>, alpha: real) {
    0.0 < alpha < 1.0 && forall i :: 0 <= i < |p| ==> 0.0 <= p[i] <= 1.0
  }

  /** `x <= alpha / count`, cleared of the division. */
  predicate Meets(x: real, alpha: real, count: nat) {
    x * count as real <= alpha
  }

  ghost function AtLeast(p: seq<real>, x: real): set<nat> {
    set j: nat | j < |p| && p[j] >= x
  }

  ghost predicate Before(p: seq<real>, i: nat, j: nat)
    requires i < |p| && j < |p|
  {
    p[i] < p[j] || (p[i] == p[j] && i < j)
  }

  /** The stable rank: how many p-values come before the one at `i`. */
  ghost function Rank(p: seq<real>, i: nat): nat
    requires i < |p|
  {
    |set j: nat | j < |p| && Before(p, j, i)|
  }

  /** Order-free decision: every p-value no larger than `v` survives Bonferroni among those at least as large. */
  ghost predicate Rejected(p: seq<real>, alpha: real, v: real) {
    forall j: nat :: j < |p| && p[j] <= v ==> Meets(p[j], alpha, |AtLeast(p, p[j])|)
  }

  lemma MeetsIsThreshold(x: real, alpha: real, count: nat)
    requires count > 0
    ensures Meets(x, alpha, count) <==> x <= alpha / count as real
  {
    var c := count as real;
    assert (alpha / c) * c == alpha;
    if x <= alpha / c {
      assert x * c <= (alpha / c) * c;
    } else {
      assert x * c > (alpha / c) * c;
    }
  }

  lemma MeetsMonotone(x: real, y: real, alpha: real, m: nat, n: nat)
    requires 0.0 <= x <= y && m <= n && Meets(y, alpha, n)
    ensures Meets(x, alpha, m)
  {
    assert x * m as real <= y * m as real;
    assert y * m as real <= y * n as real;
  }

  /** `o` lists the indices of `p` in ascending order, ties by position. */
  ghost predicate IsOrder(p: seq<real>, o: seq<nat>) {
    && |o| == |p|
    && Distinct(o)
    && (forall k :: 0 <= k < |o| ==> o[k] < |p|)
    && (forall j: nat :: j < |p| ==> j in o)
    && (forall a, b :: 0 <= a < b < |o| ==> Before(p, o[a], o[b]))
  }

  lemma RankOfOrder(p: seq<real>, o: seq<nat>, k: nat)
    requires IsOrder(p, o) && k < |o|
    ensures Rank(p, o[k]) == k
  {
    var earlier := set j: nat | j < |p| && Before(p, j, o[k]);
    var prefix := Elements(o[..k]);
    forall j | j in earlier ensures j in prefix {
      assert j in o;
      var a :| 0 <= a < |o| && o[a] == j;
      assert a < k;
      assert o[..k][a] == j;
    }
    forall j | j in prefix ensures j in earlier {
      var a :| 0 <= a < k && o[a] == j;
      assert Before(p, o[a], o[k]);
    }
    assert earlier == prefix;
    assert Distinct(o[..k]);
    DistinctMultiset(o[..k]);
  }

  lemma SuffixAtLeast(p: seq<real>, o: seq<nat>, k: nat)
    requires IsOrder(p, o) && k < |o|
    ensures |AtLeast(p, p[o[k]])| >= |o| - k
    ensures k == 0 || p[o[k - 1]] < p[o[k]] ==> |AtLeast(p, p[o[k]])| == |o| - k
  {
    var suffix := Elements(o[k..]);
    var s := o[k..];
    forall i, j | 0 <= i < j < |s| ensures s[i] != s[j] {
      assert s[i] == o[k + i] && s[j] == o[k + j];
    }
    DistinctMultiset(s);
    var all := AtLeast(p, p[o[k]]);
    forall x | x in suffix ensures x in all {
      var a :| 0 <= a < |s| && s[a] == x;
      assert o[k + a] == x;
      assert a == 0 || Before(p, o[k], o[k + a]);
    }
    SubsetSize(suffix, all);
    if k == 0 || p[o[k - 1]] < p[o[k]] {
      forall x | x in all ensures x in suffix {
        assert x in o;
        var a :| 0 <= a < |o| && o[a] == x;
        assert a >= k;
        assert s[a - k] == x;
      }
      assert suffix == all;
    }
  }

  lemma {:induction false} SubsetSize<T>(a: set<T>, b: set<T>)
    requires a <= b
    ensures |a| <= |b|
  {
    assert b == a + (b - a);
  }

  /** The first rank that carries the p-value at rank `k`. */
  lemma FirstOfTie(p: seq<real>, o: seq<nat>, k: nat) returns (first: nat)
    requires IsOrder(p, o) && k < |o|
    ensures first <= k && p[o[first]] == p[o[k]]
    ensures first == 0 || p[o[first - 1]] < p[o[first]]
  {
    first := k;
    while first > 0 && p[o[first - 1]] == p[o[k]]
      invariant first <= k && p[o[first]] == p[o[k]]
    {
      first := first - 1;
    }
    if first > 0 {
      assert Before(p, o[first - 1], o[first]);
    }
  }

  /** The step-down loop's running conjunction is the order-free decision. */
  lemma StepDownIsRejected(p: seq<real>, alpha: real, o: seq<nat>, k: nat)
    requires ValidInput(p, alpha) && IsOrder(p, o) && k < |o|
    ensures (forall a: nat :: a <= k ==> Meets(p[o[a]], alpha, |o| - a)) <==> Rejected(p, alpha, p[o[k]])
  {
    var v := p[o[k]];
    if forall a: nat :: a <= k ==> Meets(p[o[a]], alpha, |o| - a) {
      forall j: nat | j < |p| && p[j] <= v ensures Meets(p[j], alpha, |AtLeast(p, p[j])|) {
        assert j in o;
        var b :| 0 <= b < |o| && o[b] == j;
        var first := FirstOfTie(p, o, b);
        assert first <= k;
        SuffixAtLeast(p, o, first);
      }
    }
    if Rejected(p, alpha, v) {
      forall a: nat | a <= k ensures Meets(p[o[a]], alpha, |o| - a) {
        assert a == k || Before(p, o[a], o[k]);
        SuffixAtLeast(p, o, a);
        MeetsMonotone(p[o[a]], p[o[a]], alpha, |o| - a, |AtLeast(p, p[o[a]])|);
      }
    }
  }

  function Enumerate(p: seq<real>): (e: seq<(nat, real)>)
    ensures |e| == |p| && forall i :: 0 <= i < |p| ==> e[i] == (i, p[i])
  {
    seq(|p|, i requires 0 <= i < |p| => (i, p[i]))
  }

  ghost predicate Pairs(p: seq<real>, o: seq<(nat, real)>) {
    forall k :: 0 <= k < |o| ==> o[k].0 < |p| && o[k].1 == p[o[k].0]
  }

  function ByValue(): ((nat, real), (nat, real)) -> bool {
    (a: (nat, real), b: (nat, real)) => a.1 <= b.1
  }

  /** Sorting the enumerated values by value alone yields the stable order. */
  lemma SortedEnumerationIsOrder(p: seq<real>, ordered: seq<(nat, real)>, o: seq<nat>)
    requires ordered == Sort(ByValue(), Enumerate(p))
    requires |o| == |ordered| && forall k :: 0 <= k < |o| ==> o[k] == ordered[k].0
    ensures Pairs(p, ordered) && IsOrder(p, o)
  {
    var leq := ByValue();
    var tie := (a: (nat, real), b: (nat, real)) => a.0 < b.0;
    var e := Enumerate(p);
    SortIsStable(leq, tie, e);
    SortPermutes(leq, e);
    forall k | 0 <= k < |ordered| ensures ordered[k].0 < |p| && ordered[k].1 == p[ordered[k].0] {
      assert ordered[k] in e;
    }
    forall j: nat | j < |p| ensures j in o {
      assert e[j] in ordered;
      var k :| 0 <= k < |ordered| && ordered[k] == e[j];
      assert o[k] == j;
    }
    forall a, b | 0 <= a < b < |o| ensures Before(p, o[a], o[b]) {
      assert leq(ordered[a], ordered[b]) && (leq(ordered[b], ordered[a]) ==> tie(ordered[a], ordered[b]));
    }
  }

  /** The whole answer for the p-value at `i`, with no mention of sorting. */
  ghost function Decision(p: seq<real>, alpha: real, i: nat): (r: HolmResult)
    requires ValidInput(p, alpha) && i < |p|
  {
    RankBelow(p, i);
    HolmResult(p[i], alpha / (|p| - Rank(p, i)) as real, Rejected(p, alpha, p[i]))
  }

  lemma RankBelow(p: seq<real>, i: nat)
    requires i < |p|
    ensures Rank(p, i) < |p|
  {
    var earlier := set j: nat | j < |p| && Before(p, j, i);
    assert earlier <= Indices(|p|) - {i};
    SubsetSize(earlier, Indices(|p|) - {i});
  }

  function Indices(n: nat): (s: set<nat>)
    ensures |s| == n && forall j: nat :: j in s <==> j < n
  {
    if n == 0 then {} else Indices(n - 1) + {n - 1}
  }

  /** Loop state after `rank` steps: the running conjunction, and the decisions recorded so far. */
  ghost predicate Progress(p: seq<real>, alpha: real, o: seq<nat>, rank: nat, reject: bool, revised: map<nat, HolmResult>)
    requires ValidInput(p, alpha) && IsOrder(p, o) && rank <= |o|
  {
    && (reject <==> forall a: nat :: a < rank ==> Meets(p[o[a]], alpha, |o| - a))
    && (forall a: nat :: a < rank ==> o[a] in revised && revised[o[a]] == Decision(p, alpha, o[a]))
  }

  lemma StepRecordsDecision(p: seq<real>, alpha: real, o: seq<nat>, k: nat, reject: bool, revised: map<nat, HolmResult>)
    requires ValidInput(p, alpha) && IsOrder(p, o) && k < |o| && Progress(p, alpha, o, k, reject, revised)
    ensures
      var threshold := alpha / (|o| - k) as real;
      var rejects := reject && p[o[k]] <= threshold;
      Progress(p, alpha, o, k + 1, rejects, revised[o[k] := HolmResult(p[o[k]], threshold, rejects)])
  {
    MeetsIsThreshold(p[o[k]], alpha, |o| - k);
    StepDownIsRejected(p, alpha, o, k);
    RankOfOrder(p, o, k);
  }

  lemma AllRecorded(p: seq<real>, alpha: real, o: seq<nat>, reject: bool, revised: map<nat, HolmResult>)
    requires ValidInput(p, alpha) && IsOrder(p, o) && Progress(p, alpha, o, |o|, reject, revised)
    ensures forall i: nat :: i < |p| ==> i in revised && revised[i] == Decision(p, alpha, i)
  {
    forall i: nat | i < |p| ensures i in revised && revised[i] == Decision(p, alpha, i) {
      assert i in o;
    }
  }

  /** The step-down loop over the ordered values. */
  method StepDown(p: seq<real>, alpha: real, ordered: seq<(nat, real)>, ghost o: seq<nat>) returns (revised: map<nat, HolmResult>)
    requires ValidInput(p, alpha) && IsOrder(p, o) && Pairs(p, ordered)
    requires |o| == |ordered| && forall k :: 0 <= k < |o| ==> o[k] == ordered[k].0
    ensures forall i: nat :: i < |p| ==> i in revised && revised[i] == Decision(p, alpha, i)
  {
    var total := |ordered|;
    var reject := true;
    revised := map[];
    for rank := 0 to total
      invariant Progress(p, alpha, o, rank, reject, revised)
    {
      var originalIndex, pValue := ordered[rank].0, ordered[rank].1;
      assert originalIndex == o[rank] && pValue == p[o[rank]];
      StepRecordsDecision(p, alpha, o, rank, reject, revised);
      var threshold := alpha / (total - rank) as real;
      reject := reject && pValue <= threshold;
      revised := revised[originalIndex := HolmResult(pValue, threshold, reject)];
    }
    AllRecorded(p, alpha, o, reject, revised);
  }

  /** Sort ascending, compare with alpha / (m - rank), stop at the first failure, restore input order. */
  method HolmStepDown(pValues: seq<real>, alpha: real) returns (r: Option<seq<HolmResult>>)
    ensures r.Some? <==> ValidInput(pValues, alpha)
    ensures r.Some? ==> |r.value| == |pValues|
    ensures r.Some? ==> forall i: nat :: i < |pValues| ==> r.value[i] == Decision(pValues, alpha, i)
  {
    if !ValidInput(pValues, alpha) {
      return None;
    }
    var ordered := Sort(ByValue(), Enumerate(pValues));
    ghost var o: seq<nat> := seq(|ordered|, k requires 0 <= k < |ordered| => ordered[k].0);
    SortedEnumerationIsOrder(pValues, ordered, o);
    var revised := StepDown(pValues, alpha, ordered, o);
    return Some(seq(|pValues|, i requires 0 <= i < |pValues| => revised[i]));
  }

  ghost predicate LocalTest(p: seq<real>, alpha: real, s: set<nat>) {
    exists j: nat :: j in s && j < |p| && Meets(p[j], alpha, |s|)
  }

  ghost predicate ClosedTest(p: seq<real>, alpha: real, i: nat) {
    forall s: set<nat> :: i in s && (forall j :: j in s ==> j < |p|) ==> LocalTest(p, alpha, s)
  }

  lemma Smallest(p: seq<real>, s: set<nat>, i: nat) returns (m: nat)
    requires i in s && forall j :: j in s ==> j < |p|
    ensures m in s && forall j :: j in s ==> p[m] <= p[j]
    decreases s
  {
    if s == {i} {
      m := i;
    } else {
      var k :| k in s && k != i;
      var rest := Smallest(p, s - {i}, k);
      m := if p[i] <= p[rest] then i else rest;
      assert forall j :: j in s ==> j == i || j in s - {i};
    }
  }

  /** Step-down rejection is closed testing: every hypothesis set through `i` fails its Bonferroni test. */
  lemma HolmIsClosedTesting(p: seq<real>, alpha: real, i: nat)
    requires ValidInput(p, alpha) && i < |p|
    ensures Rejected(p, alpha, p[i]) <==> ClosedTest(p, alpha, i)
  {
    if Rejected(p, alpha, p[i]) {
      forall s: set<nat> | i in s && (forall j :: j in s ==> j < |p|) ensures LocalTest(p, alpha, s) {
        var m := Smallest(p, s, i);
        assert s <= AtLeast(p, p[m]);
        SubsetSize(s, AtLeast(p, p[m]));
        MeetsMonotone(p[m], p[m], alpha, |s|, |AtLeast(p, p[m])|);
      }
    }
    if ClosedTest(p, alpha, i) {
      forall j: nat | j < |p| && p[j] <= p[i] ensures Meets(p[j], alpha, |AtLeast(p, p[j])|) {
        var s := AtLeast(p, p[j]);
        assert i in s;
        assert LocalTest(p, alpha, s);
        var m: nat :| m in s && m < |p| && Meets(p[m], alpha, |s|);
        MeetsMonotone(p[j], p[m], alpha, |s|, |s|);
      }
    }
  }

  /** Familywise control: rejecting any member of a set of nulls needs a p-value within alpha over its size. */
  lemma RejectionNeedsBonferroni(p: seq<real>, alpha: real, nulls: set<nat>, i: nat)
    requires ValidInput(p, alpha) && i in nulls && forall j :: j in nulls ==> j < |p|
    requires Rejected(p, alpha, p[i])
    ensures exists j: nat :: j in nulls && j < |p| && p[j] <= alpha / |nulls| as real
  {
    HolmIsClosedTesting(p, alpha, i);
    assert LocalTest(p, alpha, nulls);
    var j: nat :| j in nulls && j < |p| && Meets(p[j], alpha, |nulls|);
    MeetsIsThreshold(p[j], alpha, |nulls|);
  }

  function Indicator(x: real): real -> int {
    y => if y >= x then 1 else 0
  }

  lemma {:induction false} AtLeastIsSum(p: seq<real>, x: real)
    ensures |AtLeast(p, x)| == Sum(Indicator(x), p)
  {
    if p == [] {
      assert AtLeast(p, x) == {};
    } else {
      var n := |p| - 1;
      var q := p[..n];
      AtLeastIsSum(q, x);
      assert p == q + [p[n]];
      SumConcat(Indicator(x), q, [p[n]]);
      assert Sum(Indicator(x), [p[n]]) == Indicator(x)(p[n]) + Sum(Indicator(x), [p[n]][1..]);
      if p[n] >= x {
        assert AtLeast(p, x) == AtLeast(q, x) + {n};
      } else {
        assert AtLeast(p, x) == AtLeast(q, x);
      }
    }
  }

  /** Decisions depend on the collection of p-values only: reordering the input, or breaking ties
      differently before calling, cannot change what is rejected. */
  lemma RejectedIgnoresOrder(p: seq<real>, q: seq<real>, alpha: real, v: real)
    requires multiset(p) == multiset(q)
    ensures Rejected(p, alpha, v) <==> Rejected(q, alpha, v)
  {
    MultisetLength(p, q);
    if Rejected(p, alpha, v) {
      RejectedTransfers(p, q, alpha, v);
    }
    if Rejected(q, alpha, v) {
      RejectedTransfers(q, p, alpha, v);
    }
  }

  lemma RejectedTransfers(p: seq<real>, q: seq<real>, alpha: real, v: real)
    requires multiset(p) == multiset(q) && Rejected(p, alpha, v)
    ensures Rejected(q, alpha, v)
  {
    MultisetLength(p, q);
    forall j: nat | j < |q| && q[j] <= v ensures Meets(q[j], alpha, |AtLeast(q, q[j])|) {
      assert q[j] in p;
      var i :| 0 <= i < |p| && p[i] == q[j];
      AtLeastIsSum(p, q[j]);
      AtLeastIsSum(q, q[j]);
      SumPermutation(Indicator(q[j]), p, q);
    }
  }

  /** A smaller or equal p-value is never kept while a larger one is rejected; ties share a decision. */
  lemma RejectionIsMonotone(p: seq<real>, alpha: real, i: nat, j: nat)
    requires i < |p| && j < |p| && p[j] <= p[i] && Rejected(p, alpha, p[i])
    ensures Rejected(p, alpha, p[j])
  {
  }
}
