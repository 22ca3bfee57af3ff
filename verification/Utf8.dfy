// Well-formed UTF-8, section 4 of RFC 3629, as `String::from_utf8` checks it.
module Utf8 {
  import opened LittleEndian

  predicate Tail(b: byte) {
    0x80 <= b <= 0xBF
  }

  /** The length of the well-formed character at the front of `bs`, or 0 when there is none. */
  function CharLength(bs: Bytes): (n: nat)
    ensures n <= |bs|
    ensures n <= 4
  {
    if |bs| >= 1 && bs[0] <= 0x7F then 1
    else if |bs| >= 2 && 0xC2 <= bs[0] <= 0xDF && Tail(bs[1]) then 2
    else if |bs| >= 3 && Tail(bs[1]) && Tail(bs[2]) &&
            (|| (bs[0] == 0xE0 && bs[1] >= 0xA0)
             || (0xE1 <= bs[0] <= 0xEC)
             || (bs[0] == 0xED && bs[1] <= 0x9F)
             || (0xEE <= bs[0] <= 0xEF)) then 3
    else if |bs| >= 4 && Tail(bs[1]) && Tail(bs[2]) && Tail(bs[3]) &&
            (|| (bs[0] == 0xF0 && bs[1] >= 0x90)
             || (0xF1 <= bs[0] <= 0xF3)
             || (bs[0] == 0xF4 && bs[1] <= 0x8F)) then 4
    else 0
  }

  predicate Valid(bs: Bytes)
    decreases |bs|
  {
    bs == [] || (CharLength(bs) > 0 && Valid(bs[CharLength(bs)..]))
  }

  // ---- The same, told by encoding code points ---------------------------------------

  /** The code points that have an encoding: all but the surrogates. */
  predicate IsScalar(cp: nat) {
    cp < 0xD800 || 0xE000 <= cp < 0x11_0000
  }

  function Continuation(v: nat): byte {
    (0x80 + v % 64) as byte
  }

  /** Section 3 of RFC 3629. */
  function EncodeChar(cp: nat): (bs: Bytes)
    requires IsScalar(cp)
    ensures 1 <= |bs| <= 4
  {
    if cp < 0x80 then [cp as byte]
    else if cp < 0x800 then [(0xC0 + cp / 64) as byte, Continuation(cp)]
    else if cp < 0x1_0000 then [(0xE0 + cp / 4096) as byte, Continuation(cp / 64), Continuation(cp)]
    else [(0xF0 + cp / 262144) as byte, Continuation(cp / 4096), Continuation(cp / 64), Continuation(cp)]
  }

  predicate AllScalar(cps: seq<nat>) {
    forall cp | cp in cps :: IsScalar(cp)
  }

  function EncodeText(cps: seq<nat>): Bytes
    requires AllScalar(cps)
  {
    if cps == [] then [] else EncodeChar(cps[0]) + EncodeText(cps[1..])
  }

  /** The code point at the front of `bs`. */
  function DecodeChar(bs: Bytes): (cp: nat)
    requires CharLength(bs) > 0
  {
    var n := CharLength(bs);
    if n == 1 then bs[0] as nat
    else if n == 2 then (bs[0] as nat - 0xC0) * 64 + (bs[1] as nat - 0x80)
    else if n == 3 then (bs[0] as nat - 0xE0) * 4096 + (bs[1] as nat - 0x80) * 64 + (bs[2] as nat - 0x80)
    else (bs[0] as nat - 0xF0) * 262144 + (bs[1] as nat - 0x80) * 4096 + (bs[2] as nat - 0x80) * 64 + (bs[3] as nat - 0x80)
  }

  /** Digits to the base 64 put together and cut again. */
  lemma Digits64(a: nat, b: nat, c: nat, d: nat)
    requires b < 64 && c < 64 && d < 64
    ensures var v := a * 262144 + b * 4096 + c * 64 + d;
            v % 64 == d && v / 64 % 64 == c && v / 4096 % 64 == b && v / 262144 == a
  {
    var v := a * 262144 + b * 4096 + c * 64 + d;
    assert v / 64 == a * 4096 + b * 64 + c;
    assert v / 4096 == a * 64 + b;
  }

  /** A well-formed character is the encoding of its code point. */
  lemma DecodedChar(bs: Bytes)
    requires CharLength(bs) > 0
    ensures IsScalar(DecodeChar(bs)) && EncodeChar(DecodeChar(bs)) == bs[..CharLength(bs)]
  {
    var n := CharLength(bs);
    if n == 1 {
      assert bs[..1] == [bs[0]];
    } else if n == 2 {
      DecodedTwo(bs);
    } else if n == 3 {
      DecodedThree(bs);
    } else {
      DecodedFour(bs);
    }
  }

  lemma DecodedTwo(bs: Bytes)
    requires CharLength(bs) == 2
    ensures IsScalar(DecodeChar(bs)) && EncodeChar(DecodeChar(bs)) == bs[..2]
  {
    Digits64(0, 0, bs[0] as nat - 0xC0, bs[1] as nat - 0x80);
    assert bs[..2] == [bs[0], bs[1]];
  }

  lemma DecodedThree(bs: Bytes)
    requires CharLength(bs) == 3
    ensures IsScalar(DecodeChar(bs)) && EncodeChar(DecodeChar(bs)) == bs[..3]
  {
    Digits64(0, bs[0] as nat - 0xE0, bs[1] as nat - 0x80, bs[2] as nat - 0x80);
    assert bs[..3] == [bs[0], bs[1], bs[2]];
  }

  lemma DecodedFour(bs: Bytes)
    requires CharLength(bs) == 4
    ensures IsScalar(DecodeChar(bs)) && EncodeChar(DecodeChar(bs)) == bs[..4]
  {
    Digits64(bs[0] as nat - 0xF0, bs[1] as nat - 0x80, bs[2] as nat - 0x80, bs[3] as nat - 0x80);
    assert bs[..4] == [bs[0], bs[1], bs[2], bs[3]];
  }

  /** An encoded code point is a well-formed character, whatever follows it. */
  lemma EncodedChar(cp: nat, rest: Bytes)
    requires IsScalar(cp)
    ensures CharLength(EncodeChar(cp) + rest) == |EncodeChar(cp)|
  {
    if cp < 0x800 {
      EncodedShort(cp, rest);
    } else if cp < 0x1_0000 {
      EncodedThree(cp, rest);
    } else {
      EncodedFour(cp, rest);
    }
  }

  lemma EncodedShort(cp: nat, rest: Bytes)
    requires cp < 0x800
    ensures CharLength(EncodeChar(cp) + rest) == |EncodeChar(cp)|
  {
    var bs := EncodeChar(cp) + rest;
    assert bs[0] == EncodeChar(cp)[0];
    if cp >= 0x80 {
      assert bs[1] == EncodeChar(cp)[1];
    }
  }

  lemma EncodedThree(cp: nat, rest: Bytes)
    requires IsScalar(cp) && 0x800 <= cp < 0x1_0000
    ensures CharLength(EncodeChar(cp) + rest) == 3
  {
    var bs := EncodeChar(cp) + rest;
    var (lead, second) := (cp / 4096, cp / 64 % 64);
    assert bs[0] == (0xE0 + lead) as byte && bs[1] == (0x80 + second) as byte && bs[2] == Continuation(cp);
    assert cp / 64 == lead * 64 + second;
  }

  lemma EncodedFour(cp: nat, rest: Bytes)
    requires IsScalar(cp) && 0x1_0000 <= cp
    ensures CharLength(EncodeChar(cp) + rest) == 4
  {
    var bs := EncodeChar(cp) + rest;
    var (lead, second) := (cp / 262144, cp / 4096 % 64);
    assert bs[0] == (0xF0 + lead) as byte && bs[1] == (0x80 + second) as byte;
    assert bs[2] == Continuation(cp / 64) && bs[3] == Continuation(cp);
    assert cp / 4096 == lead * 64 + second;
  }

  /** A byte string is well-formed exactly when it is the encoding of some code points. */
  lemma {:induction false} ValidExact(bs: Bytes)
    ensures Valid(bs) <==> exists cps: seq<nat> :: AllScalar(cps) && EncodeText(cps) == bs
    decreases |bs|
  {
    if Valid(bs) {
      var cps := CodePoints(bs);
    }
    if cps: seq<nat> :| AllScalar(cps) && EncodeText(cps) == bs {
      EncodedText(cps);
    }
  }

  lemma {:induction false} CodePoints(bs: Bytes) returns (cps: seq<nat>)
    requires Valid(bs)
    ensures AllScalar(cps) && EncodeText(cps) == bs
    decreases |bs|
  {
    if bs == [] {
      cps := [];
    } else {
      var n := CharLength(bs);
      var rest := CodePoints(bs[n..]);
      DecodedChar(bs);
      cps := [DecodeChar(bs)] + rest;
      assert cps[1..] == rest && bs == bs[..n] + bs[n..];
    }
  }

  lemma {:induction false} EncodedText(cps: seq<nat>)
    requires AllScalar(cps)
    ensures Valid(EncodeText(cps))
  {
    if cps != [] {
      var first, rest := EncodeChar(cps[0]), EncodeText(cps[1..]);
      EncodedChar(cps[0], rest);
      EncodedText(cps[1..]);
      assert (first + rest)[|first|..] == rest;
    }
  }
}
