/** Hash-based one-time signatures over 256 digest bits: two 32-byte secrets a bit, one revealed. */
module OneTimeSignature {

  type byte = x: int | 0 <= x < 256
  type Bytes = seq<byte>

  // 256 digest bits, two 32-byte secrets a bit: 16384-byte keys and 8192-byte signatures.

  const ZEROES: Bytes := seq(32, _ => 0)

  /** A digest function; nothing is assumed of it unless a lemma says so. */
  type HashFunction = Bytes -> Bytes

  /** The 32-byte digest (a function that gives another length is read as giving zeroes). */
  function Hash(h: HashFunction, m: Bytes): (d: Bytes)
    ensures |d| == 32
  {
    var d := h(m);
    if |d| == 32 then d else ZEROES
  }

  /** The `i`-th 32-byte block. */
  function Block(s: Bytes, i: nat): (b: Bytes)
    requires 32 * (i + 1) <= |s|
    ensures |b| == 32
  {
    s[32 * i..32 * (i + 1)]
  }

  /** Of the two blocks kept for bit `i`, the one for choice `c`. */
  function PairBlock(s: Bytes, i: nat, c: nat): (b: Bytes)
    requires |s| == 16384 && i < 256 && c < 2
    ensures |b| == 32
  {
    Block(s, 2 * i + c)
  }

  function Join(parts: seq<Bytes>): Bytes {
    if parts == [] then [] else Join(parts[..|parts| - 1]) + parts[|parts| - 1]
  }

  /** Joining 32-byte parts and cutting the result back into blocks is the identity. */
  lemma {:induction false} JoinBlocks(parts: seq<Bytes>)
    requires forall i :: 0 <= i < |parts| ==> |parts[i]| == 32
    ensures |Join(parts)| == 32 * |parts|
    ensures forall i: nat :: i < |parts| ==> Block(Join(parts), i) == parts[i]
  {
    if parts != [] {
      var n := |parts| - 1;
      var init := Join(parts[..n]);
      JoinBlocks(parts[..n]);
      forall i: nat | i < |parts| ensures Block(Join(parts), i) == parts[i] {
        if i < n {
          assert Block(Join(parts), i) == Block(init, i);
        }
      }
    }
  }

  lemma BlocksDetermine(s: Bytes, t: Bytes, n: nat)
    requires |s| == |t| == 32 * n
    requires forall i: nat :: i < n ==> Block(s, i) == Block(t, i)
    ensures s == t
  {
    forall k | 0 <= k < |s| ensures s[k] == t[k] {
      var i, r := k / 32, k % 32;
      assert k == 32 * i + r;
      assert i < n;
      assert Block(s, i)[r] == s[k] && Block(t, i)[r] == t[k];
    }
  }

  /** Bit `index` of a digest, most significant first within each byte. */
  function Bit(digest: Bytes, index: nat): (b: nat)
    requires index / 8 < |digest|
    ensures b < 2
  {
    (digest[index / 8] / Shift(7 - index % 8)) % 2
  }

  function Shift(k: nat): (s: nat)
    requires k < 8
    ensures s > 0
  {
    if k == 0 then 1 else if k == 1 then 2 else if k == 2 then 4 else if k == 3 then 8
    else if k == 4 then 16 else if k == 5 then 32 else if k == 6 then 64 else 128
  }

  lemma ByteFromBits(b: byte)
    ensures b == 128 * (b / 128 % 2) + 64 * (b / 64 % 2) + 32 * (b / 32 % 2) + 16 * (b / 16 % 2)
               + 8 * (b / 8 % 2) + 4 * (b / 4 % 2) + 2 * (b / 2 % 2) + b % 2
  {
    Halve(b, 1);
    Halve(b, 2);
    Halve(b, 4);
    Halve(b, 8);
    Halve(b, 16);
    Halve(b, 32);
    Halve(b, 64);
    assert b / 128 % 2 == b / 128;
  }

  lemma Halve(b: nat, d: nat)
    requires d in {1, 2, 4, 8, 16, 32, 64}
    ensures b / d == 2 * (b / (2 * d)) + b / d % 2
  {
    assert b / (2 * d) == b / d / 2 by {
      if d == 1 {} else if d == 2 {} else if d == 4 {} else if d == 8 {} else if d == 16 {} else if d == 32 {} else {}
    }
  }

  /** The 256 bits of a digest, in order. */
  function Choices(digest: Bytes): (c: seq<nat>)
    requires |digest| == 32
    ensures IsChoice(c)
  {
    seq(256, i requires 0 <= i < 256 => Bit(digest, i))
  }

  predicate IsChoice(c: seq<nat>) {
    |c| == 256 && forall i :: 0 <= i < 256 ==> c[i] < 2
  }

  lemma ChoiceAt(digest: Bytes, k: nat, r: nat)
    requires |digest| == 32 && k < 32 && r < 8
    ensures Choices(digest)[8 * k + r] == digest[k] / Shift(7 - r) % 2
  {
    assert (8 * k + r) / 8 == k && (8 * k + r) % 8 == r;
  }

  lemma ByteDetermined(x: byte, y: byte)
    requires x / 128 % 2 == y / 128 % 2 && x / 64 % 2 == y / 64 % 2 && x / 32 % 2 == y / 32 % 2
    requires x / 16 % 2 == y / 16 % 2 && x / 8 % 2 == y / 8 % 2 && x / 4 % 2 == y / 4 % 2
    requires x / 2 % 2 == y / 2 % 2 && x % 2 == y % 2
    ensures x == y
  {
    ByteFromBits(x);
    ByteFromBits(y);
  }

  lemma SameBit(d: Bytes, e: Bytes, k: nat, r: nat)
    requires |d| == |e| == 32 && Choices(d) == Choices(e) && k < 32 && r < 8
    ensures d[k] / Shift(7 - r) % 2 == e[k] / Shift(7 - r) % 2
  {
    ChoiceAt(d, k, r);
    ChoiceAt(e, k, r);
  }

  /** The bit positions cover the whole digest: equal bits mean equal digests. */
  lemma ChoicesDetermine(d: Bytes, e: Bytes)
    requires |d| == |e| == 32 && Choices(d) == Choices(e)
    ensures d == e
  {
    forall k | 0 <= k < 32 ensures d[k] == e[k] {
      SameBit(d, e, k, 0);
      SameBit(d, e, k, 1);
      SameBit(d, e, k, 2);
      SameBit(d, e, k, 3);
      SameBit(d, e, k, 4);
      SameBit(d, e, k, 5);
      SameBit(d, e, k, 6);
      SameBit(d, e, k, 7);
      ByteDetermined(d[k], e[k]);
    }
  }

  function KeyHashes(h: HashFunction, key: Bytes): (r: seq<Bytes>)
    requires |key| == 16384
    ensures |r| == 512
    ensures forall i: nat :: i < |r| ==> |r[i]| == 32 && r[i] == Hash(h, Block(key, i))
  {
    seq(512, i requires 0 <= i < 512 => Hash(h, Block(key, i)))
  }

  function PublicKey(h: HashFunction, key: Bytes): (public: Bytes)
    requires |key| == 16384
  {
    Join(KeyHashes(h, key))
  }

  lemma PublicKeyBlocks(h: HashFunction, key: Bytes)
    requires |key| == 16384
    ensures |PublicKey(h, key)| == 16384
    ensures forall i: nat :: i < 512 ==> Block(PublicKey(h, key), i) == Hash(h, Block(key, i))
  {
    JoinBlocks(KeyHashes(h, key));
  }

  lemma PublicPair(h: HashFunction, key: Bytes, i: nat, c: nat)
    requires |key| == 16384 && i < 256 && c < 2
    ensures |PublicKey(h, key)| == 16384 && PairBlock(PublicKey(h, key), i, c) == Hash(h, PairBlock(key, i, c))
  {
    PublicKeyBlocks(h, key);
  }

  /** The secrets that the choices select, one of each pair. */
  function Revealed(choices: seq<nat>, key: Bytes): (r: seq<Bytes>)
    requires |key| == 16384 && IsChoice(choices)
    ensures |r| == 256
    ensures forall i: nat :: i < 256 ==> |r[i]| == 32 && r[i] == PairBlock(key, i, choices[i])
  {
    seq(256, i requires 0 <= i < 256 => PairBlock(key, i, choices[i]))
  }

  function SignatureBy(choices: seq<nat>, key: Bytes): Bytes
    requires |key| == 16384 && IsChoice(choices)
  {
    Join(Revealed(choices, key))
  }

  function Signature(h: HashFunction, key: Bytes, message: Bytes): Bytes
    requires |key| == 16384
  {
    SignatureBy(Choices(Hash(h, message)), key)
  }

  lemma SignatureBlocks(choices: seq<nat>, key: Bytes)
    requires |key| == 16384 && IsChoice(choices)
    ensures |SignatureBy(choices, key)| == 8192
    ensures forall i: nat :: i < 256 ==> Block(SignatureBy(choices, key), i) == PairBlock(key, i, choices[i])
  {
    JoinBlocks(Revealed(choices, key));
  }

  /** The revealed secret at `i` hashes to the public block that choice `c` selects. */
  predicate Opens(h: HashFunction, public: Bytes, c: nat, signature: Bytes, i: nat)
    requires |public| == 16384 && |signature| == 8192 && c < 2 && i < 256
  {
    Hash(h, Block(signature, i)) == PairBlock(public, i, c)
  }

  predicate OpenedUpTo(h: HashFunction, public: Bytes, choices: seq<nat>, signature: Bytes, n: nat)
    requires IsChoice(choices) && |public| == 16384 && |signature| == 8192 && n <= 256
  {
    forall i: nat :: i < n ==> Opens(h, public, choices[i], signature, i)
  }

  lemma OpenedStep(h: HashFunction, public: Bytes, choices: seq<nat>, signature: Bytes, n: nat)
    requires IsChoice(choices) && |public| == 16384 && |signature| == 8192 && n < 256
    requires OpenedUpTo(h, public, choices, signature, n) && Opens(h, public, choices[n], signature, n)
    ensures OpenedUpTo(h, public, choices, signature, n + 1)
  {
  }

  /** Every revealed secret opens its public block. */
  predicate AcceptsBy(h: HashFunction, public: Bytes, choices: seq<nat>, signature: Bytes)
    requires IsChoice(choices)
  {
    |public| == 16384 && |signature| == 8192 && OpenedUpTo(h, public, choices, signature, 256)
  }

  predicate Accepts(h: HashFunction, public: Bytes, message: Bytes, signature: Bytes) {
    AcceptsBy(h, public, Choices(Hash(h, message)), signature)
  }

  method Sign(h: HashFunction, key: Bytes, message: Bytes) returns (signature: Bytes)
    requires |key| == 16384
    ensures signature == Signature(h, key, message)
  {
    var digest := Hash(h, message);
    signature := RevealSecrets(Choices(digest), key);
  }

  method RevealSecrets(choices: seq<nat>, key: Bytes) returns (signature: Bytes)
    requires |key| == 16384 && IsChoice(choices)
    ensures signature == SignatureBy(choices, key)
  {
    var parts: seq<Bytes> := [];
    for i := 0 to 256
      invariant parts == Revealed(choices, key)[..i]
    {
      var part := CutBlock(key, 2 * i + choices[i]);
      parts := parts + [part];
    }
    assert parts == Revealed(choices, key);
    return Join(parts);
  }

  /** The slice arithmetic: block `index` starts at byte offset `index * 32`. */
  method CutBlock(s: Bytes, index: nat) returns (b: Bytes)
    requires 32 * (index + 1) <= |s|
    ensures b == Block(s, index)
  {
    var offset := index * 32;
    return s[offset..offset + 32];
  }

  method Verify(h: HashFunction, public: Bytes, message: Bytes, signature: Bytes) returns (ok: bool)
    ensures ok <==> Accepts(h, public, message, signature)
  {
    if |signature| != 8192 || |public| != 16384 {
      return false;
    }
    var digest := Hash(h, message);
    ok := CheckSecrets(h, public, Choices(digest), signature);
  }

  method OpenOne(h: HashFunction, public: Bytes, choice: nat, signature: Bytes, i: nat) returns (ok: bool)
    requires |public| == 16384 && |signature| == 8192 && choice < 2 && i < 256
    ensures ok <==> Opens(h, public, choice, signature, i)
  {
    var secret := CutBlock(signature, i);
    var expected := CutBlock(public, 2 * i + choice);
    return Hash(h, secret) == expected;
  }

  method CheckSecrets(h: HashFunction, public: Bytes, choices: seq<nat>, signature: Bytes) returns (ok: bool)
    requires |signature| == 8192 && |public| == 16384 && IsChoice(choices)
    ensures ok <==> AcceptsBy(h, public, choices, signature)
  {
    for i := 0 to 256
      invariant OpenedUpTo(h, public, choices, signature, i)
    {
      var opens := OpenOne(h, public, choices[i], signature, i);
      if !opens {
        return false;
      }
      OpenedStep(h, public, choices, signature, i);
    }
    return true;
  }

  /** A signature by the key is accepted under its public key, for every key and message. */
  lemma SignedVerifies(h: HashFunction, key: Bytes, message: Bytes)
    requires |key| == 16384
    ensures Accepts(h, PublicKey(h, key), message, Signature(h, key, message))
  {
    PublicKeyBlocks(h, key);
    var choices := Choices(Hash(h, message));
    SignatureBlocks(choices, key);
    forall i: nat | i < 256
      ensures Opens(h, PublicKey(h, key), choices[i], SignatureBy(choices, key), i)
    {
      PublicPair(h, key, i, choices[i]);
    }
  }

  ghost predicate InjectiveOnSecrets(h: HashFunction) {
    forall a: Bytes, b: Bytes :: |a| == |b| == 32 && Hash(h, a) == Hash(h, b) ==> a == b
  }

  /** With secrets that hash apart, the key's own signature is the only one accepted. */
  lemma OnlyOwnSignature(h: HashFunction, key: Bytes, message: Bytes, signature: Bytes)
    requires |key| == 16384 && InjectiveOnSecrets(h)
    ensures Accepts(h, PublicKey(h, key), message, signature) <==> signature == Signature(h, key, message)
  {
    var choices := Choices(Hash(h, message));
    SignedVerifies(h, key, message);
    PublicKeyBlocks(h, key);
    SignatureBlocks(choices, key);
    if Accepts(h, PublicKey(h, key), message, signature) {
      forall i: nat | i < 256 ensures Block(signature, i) == Block(SignatureBy(choices, key), i) {
        assert Opens(h, PublicKey(h, key), choices[i], signature, i);
        PublicPair(h, key, i, choices[i]);
        assert Hash(h, Block(signature, i)) == Hash(h, PairBlock(key, i, choices[i]));
      }
      BlocksDetermine(signature, SignatureBy(choices, key), 256);
    }
  }

  ghost predicate PairCollides(h: HashFunction, key: Bytes, i: nat)
    requires |key| == 16384 && i < 256
  {
    Hash(h, PairBlock(key, i, 0)) == Hash(h, PairBlock(key, i, 1))
  }

  lemma OpensWhen(h: HashFunction, key: Bytes, public: Bytes, signature: Bytes, c: nat, d: nat, i: nat)
    requires |key| == |public| == 16384 && |signature| == 8192 && c < 2 && d < 2 && i < 256
    requires PairBlock(public, i, d) == Hash(h, PairBlock(key, i, d))
    requires Block(signature, i) == PairBlock(key, i, c)
    ensures Opens(h, public, d, signature, i) <==> (c != d ==> PairCollides(h, key, i))
  {
    var revealed, expected := Hash(h, Block(signature, i)), PairBlock(public, i, d);
    assert Opens(h, public, d, signature, i) <==> revealed == expected;
    if c == 0 {
      if d == 0 { } else { assert d == 1; }
    } else {
      assert c == 1;
      if d == 0 { } else { assert d == 1; }
    }
  }

  lemma ReplayBy(h: HashFunction, key: Bytes, c: seq<nat>, d: seq<nat>)
    requires |key| == 16384 && IsChoice(c) && IsChoice(d)
    ensures AcceptsBy(h, PublicKey(h, key), d, SignatureBy(c, key)) <==>
      forall i: nat :: i < 256 && c[i] != d[i] ==> PairCollides(h, key, i)
  {
    PublicKeyBlocks(h, key);
    SignatureBlocks(c, key);
    forall i: nat | i < 256
      ensures Opens(h, PublicKey(h, key), d[i], SignatureBy(c, key), i) <==> (c[i] != d[i] ==> PairCollides(h, key, i))
    {
      PublicPair(h, key, i, d[i]);
      OpensWhen(h, key, PublicKey(h, key), SignatureBy(c, key), c[i], d[i], i);
    }
  }

  /** Exactly when a signature issued for one message is accepted for another: on every digest bit where the
      two differ, the key's two secrets must hash alike. No assumption on the hash. */
  lemma ReplayCondition(h: HashFunction, key: Bytes, signed: Bytes, other: Bytes)
    requires |key| == 16384
    ensures Accepts(h, PublicKey(h, key), other, Signature(h, key, signed)) <==>
      forall i: nat :: i < 256 && Choices(Hash(h, signed))[i] != Choices(Hash(h, other))[i] ==> PairCollides(h, key, i)
  {
    ReplayBy(h, key, Choices(Hash(h, signed)), Choices(Hash(h, other)));
  }

  /** So a key whose secret pairs hash apart binds its signature to one digest. */
  lemma SignatureBindsDigest(h: HashFunction, key: Bytes, signed: Bytes, other: Bytes)
    requires |key| == 16384 && forall i: nat :: i < 256 ==> !PairCollides(h, key, i)
    ensures Accepts(h, PublicKey(h, key), other, Signature(h, key, signed)) <==> Hash(h, signed) == Hash(h, other)
  {
    ReplayCondition(h, key, signed, other);
    var c, d := Choices(Hash(h, signed)), Choices(Hash(h, other));
    if c == d {
      ChoicesDetermine(Hash(h, signed), Hash(h, other));
    }
  }
}
