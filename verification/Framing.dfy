/** The bytes under the opaque ids: length-prefixed framing and seed bytes, and why equal bytes mean equal parts.
    `OpaqueIds` draws from it why ids elsewhere may be free constructors over their parts. */
module Framing {
  import opened Contracts
  import opened Sorting
  import opened OneTimeSignature

  const LENGTH_LIMIT: nat := 0x1_0000_0000_0000_0000

  function Pow256(n: nat): (p: nat)
    ensures p > 0
  {
    if n == 0 then 1 else 256 * Pow256(n - 1)
  }

  /** `n` in `width` bytes, most significant first, or the overflow error. */
  function BigEndian(n: nat, width: nat): (b: Bytes)
    requires n < Pow256(width)
    ensures |b| == width
  {
    if width == 0 then [] else BigEndian(n / 256, width - 1) + [n % 256]
  }

  lemma {:induction false} BigEndianInjective(m: nat, n: nat, width: nat)
    requires m < Pow256(width) && n < Pow256(width) && BigEndian(m, width) == BigEndian(n, width)
    ensures m == n
  {
    if width > 0 {
      AppendLast(BigEndian(m / 256, width - 1), m % 256);
      AppendLast(BigEndian(n / 256, width - 1), n % 256);
      BigEndianInjective(m / 256, n / 256, width - 1);
    }
  }

  lemma LimitIsEightBytes()
    ensures Pow256(8) == LENGTH_LIMIT
  {
    assert Pow256(4) == 0x1_0000_0000;
  }

  function Prefix(n: nat): (b: Bytes)
    requires n < LENGTH_LIMIT
    ensures |b| == 8
  {
    LimitIsEightBytes();
    BigEndian(n, 8)
  }

  predicate Short(parts: seq<Bytes>) {
    forall i :: 0 <= i < |parts| ==> |parts[i]| < LENGTH_LIMIT
  }

  /** Each part after its own length. */
  function Framed(parts: seq<Bytes>): Bytes
    requires Short(parts)
  {
    if parts == [] then [] else Prefix(|parts[0]|) + parts[0] + Framed(parts[1..])
  }

  lemma {:induction false} AppendTail<T>(s: seq<T>, x: T)
    requires s != []
    ensures (s + [x])[1..] == s[1..] + [x] && (s + [x])[0] == s[0]
  {
  }

  lemma {:induction false} Regroup<T>(a: seq<T>, b: seq<T>, c: seq<T>, d: seq<T>)
    ensures a + (b + c + d) == a + b + c + d
  {
  }

  lemma {:induction false} FramedAppend(parts: seq<Bytes>, part: Bytes)
    requires Short(parts) && |part| < LENGTH_LIMIT
    ensures Short(parts + [part]) && Framed(parts + [part]) == Framed(parts) + Prefix(|part|) + part
  {
    if parts == [] {
      assert [part][1..] == [];
    } else {
      FramedAppend(parts[1..], part);
      AppendTail(parts, part);
      Regroup(Prefix(|parts[0]|) + parts[0], Framed(parts[1..]), Prefix(|part|), part);
    }
  }

  /** What the hasher is fed, part by part; a part too long for its length field raises. */
  method Feed(parts: seq<Bytes>) returns (r: Result<Bytes>)
    ensures r.Ok? <==> Short(parts)
    ensures r.Ok? ==> r.value == Framed(parts)
  {
    var material: Bytes := [];
    for i := 0 to |parts|
      invariant Short(parts[..i]) && material == Framed(parts[..i])
    {
      if |parts[i]| >= LENGTH_LIMIT {
        return Raised;
      }
      TakeSnoc(parts, i);
      FramedAppend(parts[..i], parts[i]);
      material := material + Prefix(|parts[i]|);
      material := material + parts[i];
    }
    TakeAll(parts);
    return Ok(material);
  }

  lemma {:induction false} SplitAt<T>(a: seq<T>, b: seq<T>, c: seq<T>, d: seq<T>)
    requires a + b == c + d && |a| == |c|
    ensures a == c && b == d
  {
    assert a == (a + b)[..|a|] && c == (c + d)[..|c|];
    assert b == (a + b)[|a|..] && d == (c + d)[|c|..];
  }

  /** The length says where the first part ends. */
  lemma {:induction false} HeadInjective(p: Bytes, rest: Bytes, q: Bytes, rest': Bytes)
    requires |p| < LENGTH_LIMIT && |q| < LENGTH_LIMIT && Prefix(|p|) + p + rest == Prefix(|q|) + q + rest'
    ensures p == q && rest == rest'
  {
    assert Prefix(|p|) + (p + rest) == Prefix(|p|) + p + rest;
    assert Prefix(|q|) + (q + rest') == Prefix(|q|) + q + rest';
    SplitAt(Prefix(|p|), p + rest, Prefix(|q|), q + rest');
    LimitIsEightBytes();
    BigEndianInjective(|p|, |q|, 8);
    SplitAt(p, rest, q, rest');
  }

  /** Equal framed bytes: the same parts, and the same number of them. */
  lemma {:induction false} FramedInjective(a: seq<Bytes>, b: seq<Bytes>)
    requires Short(a) && Short(b) && Framed(a) == Framed(b)
    ensures a == b
  {
    if a != [] && b != [] {
      HeadInjective(a[0], Framed(a[1..]), b[0], Framed(b[1..]));
      FramedInjective(a[1..], b[1..]);
      HeadAndTail(a);
      HeadAndTail(b);
    }
  }

  // ---- seeds ----

  /** A seed as given: bytes, text (its UTF-8 bytes), or an integer. */
  datatype Seed = BytesSeed(bytes: Bytes) | TextSeed(utf8: Bytes) | IntSeed(value: int)

  function Digits(n: nat): (d: Bytes)
    ensures d != [] && forall i :: 0 <= i < |d| ==> 48 <= d[i] < 58
  {
    if n < 10 then [48 + n] else Digits(n / 10) + [48 + n % 10]
  }

  /** Decimal text, as `str` writes an integer. */
  function Decimal(n: int): Bytes {
    if n < 0 then [45] + Digits(-n) else Digits(n)
  }

  lemma {:induction false} DigitsInjective(m: nat, n: nat)
    requires Digits(m) == Digits(n)
    ensures m == n
  {
    if m >= 10 {
      AppendLast(Digits(m / 10), 48 + m % 10);
    }
    if n >= 10 {
      AppendLast(Digits(n / 10), 48 + n % 10);
    }
    if m >= 10 && n >= 10 {
      DigitsInjective(m / 10, n / 10);
    }
  }

  lemma {:induction false} DecimalSign(n: int)
    ensures Decimal(n) != [] && (Decimal(n)[0] == 45 <==> n < 0)
  {
  }

  lemma {:induction false} DecimalInjective(m: int, n: int)
    requires Decimal(m) == Decimal(n)
    ensures m == n
  {
    DecimalSign(m);
    DecimalSign(n);
    if m < 0 && n < 0 {
      SplitAt([45], Digits(-m), [45], Digits(-n));
      DigitsInjective(-m, -n);
    } else if m >= 0 && n >= 0 {
      DigitsInjective(m, n);
    }
  }

  /** "bytes:", "str:" and "int:". */
  function Tag(s: Seed): Bytes {
    match s
    case BytesSeed(_) => [98, 121, 116, 101, 115, 58]
    case TextSeed(_) => [115, 116, 114, 58]
    case IntSeed(_) => [105, 110, 116, 58]
  }

  function Payload(s: Seed): Bytes {
    match s
    case BytesSeed(b) => b
    case TextSeed(t) => t
    case IntSeed(n) => Decimal(n)
  }

  function SeedBytes(s: Seed): Result<Bytes> {
    if Payload(s) == [] then Raised else Ok(Tag(s) + Payload(s))
  }

  /** Seeds of different types never coincide, and within a type only equal seeds do; only an empty one is refused. */
  lemma {:induction false} SeedBytesInjective(s: Seed, t: Seed)
    ensures SeedBytes(s).Ok? <==> s != BytesSeed([]) && s != TextSeed([])
    ensures SeedBytes(s).Ok? && SeedBytes(s) == SeedBytes(t) ==> s == t
  {
    if SeedBytes(s).Ok? && SeedBytes(s) == SeedBytes(t) {
      assert SeedBytes(s).value[0] == Tag(s)[0] && SeedBytes(t).value[0] == Tag(t)[0];
      assert Tag(s) == Tag(t);
      SplitAt(Tag(s), Payload(s), Tag(t), Payload(t));
      if s.IntSeed? {
        DecimalInjective(s.value, t.value);
      }
    }
  }

  // ---- what the ids commit to ----

  /** The framed parts under an evaluation id. */
  function EvaluationParts(domain: Bytes, seed: Bytes, assignment: Bytes, problem: Bytes, index: nat): seq<Bytes> {
    [domain, seed, assignment, problem, Decimal(index)]
  }

  /** Under a hash that separates what is fed to it, equal ids have equal seed, assignment, problem and place. */
  lemma {:induction false} EvaluationIdBinds(
    domain: Bytes, s: Seed, assignment: Bytes, problem: Bytes, index: nat, t: Seed, assignment': Bytes, problem': Bytes, index': nat)
    requires SeedBytes(s).Ok? && SeedBytes(t).Ok?
    requires var a, b := EvaluationParts(domain, SeedBytes(s).value, assignment, problem, index),
                         EvaluationParts(domain, SeedBytes(t).value, assignment', problem', index');
      Short(a) && Short(b) && Framed(a) == Framed(b)
    ensures s == t && assignment == assignment' && problem == problem' && index == index'
  {
    var a, b := EvaluationParts(domain, SeedBytes(s).value, assignment, problem, index),
                EvaluationParts(domain, SeedBytes(t).value, assignment', problem', index');
    FramedInjective(a, b);
    assert a[1] == b[1] && a[2] == b[2] && a[3] == b[3] && a[4] == b[4];
    SeedBytesInjective(s, t);
    DecimalInjective(index, index');
  }
}
