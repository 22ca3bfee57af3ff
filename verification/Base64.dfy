// The standard alphabet of base64, section 4 of RFC 4648, as the `STANDARD`
// engine uses it: padding is written and required, and the unused bits of the
// last symbol must be zero.
module Base64 {
  import opened Wrappers
  import opened LittleEndian

  /** The symbol for a six-bit value. */
  function Symbol(v: nat): (c: char)
    requires v < 64
    ensures c != '='
    ensures Sextet(c) == Some(v)
  {
    if v < 26 then (v + 65) as char
    else if v < 52 then (v + 71) as char
    else if v < 62 then (v - 4) as char
    else if v == 62 then '+'
    else '/'
  }

  /** The six-bit value of a symbol of the alphabet. */
  function Sextet(c: char): (v: Option<nat>)
    ensures v.Some? ==> v.value < 64
  {
    if 'A' <= c <= 'Z' then Some(c as nat - 65)
    else if 'a' <= c <= 'z' then Some(c as nat - 71)
    else if '0' <= c <= '9' then Some(c as nat + 4)
    else if c == '+' then Some(62)
    else if c == '/' then Some(63)
    else None
  }

  /** Table 1 of RFC 4648. */
  lemma SymbolOfTable(v: nat)
    requires v < 64
    ensures v < 26 ==> Symbol(v) as nat == 'A' as nat + v
    ensures 26 <= v < 52 ==> Symbol(v) as nat == 'a' as nat + v - 26
    ensures 52 <= v < 62 ==> Symbol(v) as nat == '0' as nat + v - 52
    ensures v == 62 ==> Symbol(v) == '+'
    ensures v == 63 ==> Symbol(v) == '/'
  {
  }

  lemma SymbolSextet(c: char)
    requires Sextet(c).Some?
    ensures Symbol(Sextet(c).value) == c
  {
  }

  function EncodeGroup(b0: byte, b1: byte, b2: byte): (s: string)
    ensures |s| == 4 && s[3] != '='
  {
    var (x, y, z) := (b0 as nat, b1 as nat, b2 as nat);
    [Symbol(x / 4), Symbol(x % 4 * 16 + y / 16), Symbol(y % 16 * 4 + z / 64), Symbol(z % 64)]
  }

  function Encode(bs: Bytes): (s: string)
  {
    if bs == [] then ""
    else if |bs| == 1 then
      var x := bs[0] as nat;
      [Symbol(x / 4), Symbol(x % 4 * 16), '=', '=']
    else if |bs| == 2 then
      var (x, y) := (bs[0] as nat, bs[1] as nat);
      [Symbol(x / 4), Symbol(x % 4 * 16 + y / 16), Symbol(y % 16 * 4), '=']
    else
      EncodeGroup(bs[0], bs[1], bs[2]) + Encode(bs[3..])
  }

  function DecodeGroup(s: string): (r: Option<Bytes>)
    requires |s| == 4
  {
    match (Sextet(s[0]), Sextet(s[1]), Sextet(s[2]), Sextet(s[3]))
    case (Some(a), Some(b), Some(c), Some(d)) =>
      Some([(a * 4 + b / 16) as byte, (b % 16 * 16 + c / 4) as byte, (c % 4 * 64 + d) as byte])
    case _ => None
  }

  /** The last group when it ends in padding: two symbols carry one byte, three carry two. */
  function DecodePadded(s: string): (r: Option<Bytes>)
    requires |s| == 4 && s[3] == '='
  {
    match (Sextet(s[0]), Sextet(s[1]), Sextet(s[2]))
    case (Some(a), Some(b), None) =>
      if s[2] == '=' && b % 16 == 0 then Some([(a * 4 + b / 16) as byte]) else None
    case (Some(a), Some(b), Some(c)) =>
      if c % 4 == 0 then Some([(a * 4 + b / 16) as byte, (b % 16 * 16 + c / 4) as byte]) else None
    case _ => None
  }

  function Decode(s: string): (r: Option<Bytes>)
  {
    if s == "" then Some([])
    else if |s| < 4 then None
    else if s[3] == '=' then
      if |s| == 4 then DecodePadded(s) else None
    else
      match (DecodeGroup(s[..4]), Decode(s[4..]))
      case (Some(g), Some(rest)) => Some(g + rest)
      case _ => None
  }

  /** Three bytes cut into sextets and put together again. */
  lemma BytesOfSextets(x: nat, y: nat, z: nat)
    requires x < 256 && y < 256 && z < 256
    ensures var (a, b) := (x / 4, x % 4 * 16 + y / 16); a < 64 && b < 64 && a * 4 + b / 16 == x
    ensures var (b, c) := (x % 4 * 16 + y / 16, y % 16 * 4 + z / 64);
            c < 64 && b % 16 * 16 + c / 4 == y
    ensures var (c, d) := (y % 16 * 4 + z / 64, z % 64); d < 64 && c % 4 * 64 + d == z
  {
  }

  /** Four sextets put together into bytes and cut again. */
  lemma SextetsOfBytes(a: nat, b: nat, c: nat, d: nat)
    requires a < 64 && b < 64 && c < 64 && d < 64
    ensures var (x, y, z) := (a * 4 + b / 16, b % 16 * 16 + c / 4, c % 4 * 64 + d);
            && x < 256 && y < 256 && z < 256
            && x / 4 == a && x % 4 * 16 + y / 16 == b && y % 16 * 4 + z / 64 == c && z % 64 == d
  {
  }

  /** A group is the 24 bits of its three bytes, cut into four sextets from the most significant end. */
  lemma GroupBits(b0: byte, b1: byte, b2: byte)
    ensures var s := EncodeGroup(b0, b1, b2);
            var v := 65536 * (b0 as nat) + 256 * (b1 as nat) + b2 as nat;
            s == [Symbol(v / 262144), Symbol(v / 4096 % 64), Symbol(v / 64 % 64), Symbol(v % 64)]
  {
    Sextets(b0 as nat, b1 as nat, b2 as nat);
  }

  lemma Sextets(x: nat, y: nat, z: nat)
    requires x < 256 && y < 256 && z < 256
    ensures var v := 65536 * x + 256 * y + z;
            && v / 262144 == x / 4 && v / 4096 % 64 == x % 4 * 16 + y / 16
            && v / 64 % 64 == y % 16 * 4 + z / 64 && v % 64 == z % 64
  {
    BytesOfSextets(x, y, z);
    var (a, b, c, d) := (x / 4, x % 4 * 16 + y / 16, y % 16 * 4 + z / 64, z % 64);
    assert 65536 * x + 256 * y + z == 262144 * a + 4096 * b + 64 * c + d;
    CutSextets(a, b, c, d);
  }

  lemma CutSextets(a: nat, b: nat, c: nat, d: nat)
    requires b < 64 && c < 64 && d < 64
    ensures var v := 262144 * a + 4096 * b + 64 * c + d;
            v / 262144 == a && v / 4096 % 64 == b && v / 64 % 64 == c && v % 64 == d
  {
    var v := 262144 * a + 4096 * b + 64 * c + d;
    assert v / 64 == 4096 * a + 64 * b + c;
    assert v / 4096 == 64 * a + b;
  }

  lemma OneLeft(b0: byte)
    ensures Encode([b0]) == EncodeGroup(b0, 0, 0)[..2] + "=="
  {
  }

  lemma TwoLeft(b0: byte, b1: byte)
    ensures Encode([b0, b1]) == EncodeGroup(b0, b1, 0)[..3] + "="
  {
  }

  /** Bytes are encoded three by three, and what is left over as if zeros followed, with padding in their place. */
  lemma EncodeByGroups(bs: Bytes)
    ensures bs == [] ==> Encode(bs) == ""
    ensures |bs| == 1 ==> Encode(bs) == EncodeGroup(bs[0], 0, 0)[..2] + "=="
    ensures |bs| == 2 ==> Encode(bs) == EncodeGroup(bs[0], bs[1], 0)[..3] + "="
    ensures |bs| >= 3 ==> Encode(bs) == EncodeGroup(bs[0], bs[1], bs[2]) + Encode(bs[3..])
  {
    if |bs| == 1 {
      OneLeft(bs[0]);
      assert bs == [bs[0]];
    } else if |bs| == 2 {
      TwoLeft(bs[0], bs[1]);
      assert bs == [bs[0], bs[1]];
    }
  }

  lemma GroupRoundTrip(b0: byte, b1: byte, b2: byte)
    ensures DecodeGroup(EncodeGroup(b0, b1, b2)) == Some([b0, b1, b2])
  {
    BytesOfSextets(b0 as nat, b1 as nat, b2 as nat);
  }

  lemma GroupCanonical(s: string)
    requires |s| == 4 && DecodeGroup(s).Some?
    ensures var g := DecodeGroup(s).value; |g| == 3 && EncodeGroup(g[0], g[1], g[2]) == s
  {
    GroupSymbols(Sextet(s[0]).value, Sextet(s[1]).value, Sextet(s[2]).value, Sextet(s[3]).value);
    SymbolSextet(s[0]);
    SymbolSextet(s[1]);
    SymbolSextet(s[2]);
    SymbolSextet(s[3]);
    assert s == [s[0], s[1], s[2], s[3]];
  }

  /** The bytes that four sextets make are encoded as their symbols. */
  lemma GroupSymbols(a: nat, b: nat, c: nat, d: nat)
    requires a < 64 && b < 64 && c < 64 && d < 64
    ensures var (x, y, z) := (a * 4 + b / 16, b % 16 * 16 + c / 4, c % 4 * 64 + d);
            && x < 256 && y < 256 && z < 256
            && EncodeGroup(x as byte, y as byte, z as byte) == [Symbol(a), Symbol(b), Symbol(c), Symbol(d)]
  {
    SextetsOfBytes(a, b, c, d);
  }

  lemma PaddedRoundTrip(bs: Bytes)
    requires 1 <= |bs| <= 2
    ensures DecodePadded(Encode(bs)) == Some(bs)
  {
    if |bs| == 1 {
      OneByteRoundTrip(bs[0]);
      assert bs == [bs[0]];
    } else {
      TwoBytesRoundTrip(bs[0], bs[1]);
      assert bs == [bs[0], bs[1]];
    }
  }

  lemma OneByteRoundTrip(b0: byte)
    ensures DecodePadded(Encode([b0])) == Some([b0])
  {
    BytesOfSextets(b0 as nat, 0, 0);
    assert (b0 as nat % 4 * 16) % 16 == 0;
  }

  lemma TwoBytesRoundTrip(b0: byte, b1: byte)
    ensures DecodePadded(Encode([b0, b1])) == Some([b0, b1])
  {
    BytesOfSextets(b0 as nat, b1 as nat, 0);
    assert (b1 as nat % 16 * 4) % 4 == 0;
  }

  lemma PaddedCanonical(s: string)
    requires |s| == 4 && s[3] == '=' && DecodePadded(s).Some?
    ensures Encode(DecodePadded(s).value) == s
  {
    SextetsOfBytes(Sextet(s[0]).value, Sextet(s[1]).value,
                   if Sextet(s[2]).Some? then Sextet(s[2]).value else 0, 0);
    SymbolSextet(s[0]);
    SymbolSextet(s[1]);
    if Sextet(s[2]).Some? {
      SymbolSextet(s[2]);
    }
    assert s == [s[0], s[1], s[2], s[3]];
  }

  /** A full group in front is decoded on its own. */
  lemma DecodeAppend(g: string, rest: string)
    requires |g| == 4 && g[3] != '='
    ensures Decode(g + rest) ==
            match (DecodeGroup(g), Decode(rest))
            case (Some(first), Some(more)) => Some(first + more)
            case _ => None
  {
    assert (g + rest)[..4] == g && (g + rest)[4..] == rest;
  }

  /** Decoding undoes encoding. */
  lemma {:induction false} DecodeEncode(bs: Bytes)
    ensures Decode(Encode(bs)) == Some(bs)
  {
    if |bs| >= 3 {
      DecodeAppend(EncodeGroup(bs[0], bs[1], bs[2]), Encode(bs[3..]));
      GroupRoundTrip(bs[0], bs[1], bs[2]);
      DecodeEncode(bs[3..]);
      assert bs == [bs[0], bs[1], bs[2]] + bs[3..];
    } else if bs != [] {
      PaddedRoundTrip(bs);
    }
  }

  /** Only encodings are accepted: every text that decodes is the encoding of its value. */
  lemma {:induction false} EncodeDecode(s: string)
    requires Decode(s).Some?
    ensures Encode(Decode(s).value) == s
  {
    if s != "" && s[3] == '=' {
      PaddedCanonical(s);
    } else if s != "" {
      EncodeDecode(s[4..]);
      GroupCanonical(s[..4]);
      AppendGroup(DecodeGroup(s[..4]).value, Decode(s[4..]).value);
      assert s == s[..4] + s[4..];
    }
  }

  lemma AppendGroup(g: Bytes, rest: Bytes)
    requires |g| == 3
    ensures Encode(g + rest) == EncodeGroup(g[0], g[1], g[2]) + Encode(rest)
  {
    assert (g + rest)[3..] == rest;
  }

  /** Encoding is one-to-one. */
  lemma EncodeInjective(a: Bytes, b: Bytes)
    requires Encode(a) == Encode(b)
    ensures a == b
  {
    DecodeEncode(a);
    DecodeEncode(b);
  }
}
