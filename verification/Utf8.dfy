/** Which byte strings decode strictly as UTF-8 (section 4 of RFC 3629): exactly the encodings of texts without surrogates. */
module Utf8 {
  import opened OneTimeSignature
  import opened Records

  predicate In(b: Bytes, i: nat, low: nat, high: nat) {
    i < |b| && low <= b[i] <= high
  }

  predicate Tail(b: Bytes, i: nat) {
    In(b, i, 0x80, 0xBF)
  }

  /** Length of the well-formed sequence `b` starts with, or 0. Overlong forms, surrogates and values above 0x10FFFF
      are not well formed. */
  function Lead(b: Bytes): (n: nat)
    ensures n <= 4 && n <= |b|
  {
    if In(b, 0, 0x00, 0x7F) then 1
    else if In(b, 0, 0xC2, 0xDF) && Tail(b, 1) then 2
    else if In(b, 0, 0xE0, 0xE0) && In(b, 1, 0xA0, 0xBF) && Tail(b, 2) then 3
    else if (In(b, 0, 0xE1, 0xEC) || In(b, 0, 0xEE, 0xEF)) && Tail(b, 1) && Tail(b, 2) then 3
    else if In(b, 0, 0xED, 0xED) && In(b, 1, 0x80, 0x9F) && Tail(b, 2) then 3
    else if In(b, 0, 0xF0, 0xF0) && In(b, 1, 0x90, 0xBF) && Tail(b, 2) && Tail(b, 3) then 4
    else if In(b, 0, 0xF1, 0xF3) && Tail(b, 1) && Tail(b, 2) && Tail(b, 3) then 4
    else if In(b, 0, 0xF4, 0xF4) && In(b, 1, 0x80, 0x8F) && Tail(b, 2) && Tail(b, 3) then 4
    else 0
  }

  /** Decodes without error. */
  predicate Decodes(b: Bytes) {
    b == [] || (Lead(b) > 0 && Decodes(b[Lead(b)..]))
  }

  type ScalarValue = c: int | 0 <= c < 0x110000 && !(0xD800 <= c <= 0xDFFF)

  function EncodeOne(c: ScalarValue): (b: Bytes)
    ensures 1 <= |b| <= 4
  {
    if c < 0x80 then [c]
    else if c < 0x800 then [0xC0 + c / 64, 0x80 + c % 64]
    else if c < 0x10000 then [0xE0 + c / 4096, 0x80 + c / 64 % 64, 0x80 + c % 64]
    else [0xF0 + c / 262144, 0x80 + c / 4096 % 64, 0x80 + c / 64 % 64, 0x80 + c % 64]
  }

  function Encode(t: seq<ScalarValue>): Bytes {
    if t == [] then [] else EncodeOne(t[0]) + Encode(t[1..])
  }

  /** The ranges of the bytes of one encoded value. */
  lemma {:induction false} OneRanges(c: ScalarValue)
    ensures var e := EncodeOne(c);
      && (|e| == 1 ==> e[0] < 0x80) && (|e| == 2 ==> 0xC2 <= e[0] <= 0xDF)
      && (|e| == 3 ==> 0xE0 <= e[0] <= 0xEF && (e[0] == 0xE0 ==> 0xA0 <= e[1]) && (e[0] == 0xED ==> e[1] <= 0x9F))
      && (|e| == 4 ==> 0xF0 <= e[0] <= 0xF4 && (e[0] == 0xF0 ==> 0x90 <= e[1]) && (e[0] == 0xF4 ==> e[1] <= 0x8F))
      && forall i :: 0 < i < |e| ==> 0x80 <= e[i] <= 0xBF
  {
  }

  lemma {:induction false} LeadOfOne(c: ScalarValue, rest: Bytes)
    ensures Lead(EncodeOne(c) + rest) == |EncodeOne(c)|
  {
    OneRanges(c);
    LeadByRanges(EncodeOne(c), rest);
  }

  lemma {:induction false} LeadByRanges(e: Bytes, rest: Bytes)
    requires 1 <= |e| <= 4 && (|e| == 1 ==> e[0] < 0x80) && (|e| == 2 ==> 0xC2 <= e[0] <= 0xDF)
    requires |e| == 3 ==> 0xE0 <= e[0] <= 0xEF && (e[0] == 0xE0 ==> 0xA0 <= e[1]) && (e[0] == 0xED ==> e[1] <= 0x9F)
    requires |e| == 4 ==> 0xF0 <= e[0] <= 0xF4 && (e[0] == 0xF0 ==> 0x90 <= e[1]) && (e[0] == 0xF4 ==> e[1] <= 0x8F)
    requires forall i :: 0 < i < |e| ==> 0x80 <= e[i] <= 0xBF
    ensures Lead(e + rest) == |e|
  {
    assert forall i :: 0 <= i < |e| ==> (e + rest)[i] == e[i];
  }

  function Six(high: int, low: int): int {
    high * 64 + (low - 0x80)
  }

  lemma {:induction false} SixSplits(high: nat, low: int)
    requires 0x80 <= low <= 0xBF
    ensures Six(high, low) / 64 == high && 0x80 + Six(high, low) % 64 == low && Six(high, low) >= 0
  {
  }

  lemma {:induction false} Two(x: byte, y: byte) returns (c: ScalarValue)
    requires 0xC2 <= x <= 0xDF && 0x80 <= y <= 0xBF
    ensures EncodeOne(c) == [x, y]
  {
    c := Six((x as int) - 0xC0, y);
    SixSplits(x - 0xC0, y);
  }

  lemma {:induction false} Three(x: byte, y: byte, z: byte) returns (c: ScalarValue)
    requires 0xE0 <= x <= 0xEF && 0x80 <= y <= 0xBF && 0x80 <= z <= 0xBF
    requires (x == 0xE0 ==> 0xA0 <= y) && (x == 0xED ==> y <= 0x9F)
    ensures EncodeOne(c) == [x, y, z]
  {
    var upper := Six((x as int) - 0xE0, y);
    SixSplits(x - 0xE0, y);
    SixSplits(upper, z);
    c := Six(upper, z);
    assert c / 4096 == upper / 64;
  }

  lemma {:induction false} Four(x: byte, y: byte, z: byte, w: byte) returns (c: ScalarValue)
    requires 0xF0 <= x <= 0xF4 && 0x80 <= y <= 0xBF && 0x80 <= z <= 0xBF && 0x80 <= w <= 0xBF
    requires (x == 0xF0 ==> 0x90 <= y) && (x == 0xF4 ==> y <= 0x8F)
    ensures EncodeOne(c) == [x, y, z, w]
  {
    var top := Six((x as int) - 0xF0, y);
    var upper := Six(top, z);
    SixSplits(x - 0xF0, y);
    SixSplits(top, z);
    SixSplits(upper, w);
    c := Six(upper, w);
    assert c / 4096 == upper / 64 && c / 262144 == top / 64;
  }

  lemma {:induction false} FrontEncodes(b: Bytes) returns (c: ScalarValue)
    requires Lead(b) > 0
    ensures b[..Lead(b)] == EncodeOne(c)
  {
    if Lead(b) == 1 {
      c := b[0];
    } else if Lead(b) == 2 {
      c := Two(b[0], b[1]);
    } else if Lead(b) == 3 {
      c := Three(b[0], b[1], b[2]);
    } else {
      c := Four(b[0], b[1], b[2], b[3]);
    }
  }

  lemma {:induction false} EncodingDecodes(t: seq<ScalarValue>)
    ensures Decodes(Encode(t))
  {
    if t != [] {
      LeadOfOne(t[0], Encode(t[1..]));
      assert Encode(t)[|EncodeOne(t[0])|..] == Encode(t[1..]);
      EncodingDecodes(t[1..]);
    }
  }

  lemma {:induction false} DecodingEncodes(b: Bytes) returns (t: seq<ScalarValue>)
    requires Decodes(b)
    ensures Encode(t) == b
  {
    t := [];
    if b != [] {
      var c := FrontEncodes(b);
      var rest := DecodingEncodes(b[Lead(b)..]);
      t := [c] + rest;
      assert t[1..] == rest && b == b[..Lead(b)] + b[Lead(b)..];
    }
  }

  /** Strict decoding succeeds on exactly the encodings. */
  lemma {:induction false} DecodesIffEncoding(b: Bytes)
    ensures Decodes(b) <==> exists t :: Encode(t) == b
  {
    if Decodes(b) {
      var t := DecodingEncodes(b);
    }
    if t :| Encode(t) == b {
      EncodingDecodes(t);
    }
  }

  predicate Ascii(b: Bytes) {
    forall i :: 0 <= i < |b| ==> b[i] < 0x80
  }

  /** An ASCII prefix decides nothing. */
  lemma {:induction false} AsciiPrefix(prefix: Bytes, b: Bytes)
    requires Ascii(prefix)
    ensures Decodes(prefix + b) <==> Decodes(b)
  {
    if prefix == [] {
      assert prefix + b == b;
    } else {
      AsciiPrefix(prefix[1..], b);
      assert (prefix + b)[0] == prefix[0] && (prefix + b)[1..] == prefix[1..] + b;
    }
  }
}
