// Little-endian integers: the variable-length form that `BigUint::to_bytes_le`
// and `BigUint::from_bytes_le` use, the four-byte form of `u32`, and the
// bit-wise `|=` with which chunks are packed.
module LittleEndian {

  newtype byte = n: int | 0 <= n < 256

  type Bytes = seq<byte>

  const U32_LIMIT: nat := 0x1_0000_0000

  function Power256(k: nat): (r: nat)
    ensures r > 0
  {
    if k == 0 then 1 else 256 * Power256(k - 1)
  }

  /** `BigUint::from_bytes_le`: accepts any length, the empty slice being zero. */
  function FromBytesLe(bs: Bytes): (n: nat) {
    if bs == [] then 0 else bs[0] as nat + 256 * FromBytesLe(bs[1..])
  }

  lemma {:induction false} FromBytesLeBound(bs: Bytes)
    ensures FromBytesLe(bs) < Power256(|bs|)
  {
    if bs != [] {
      FromBytesLeBound(bs[1..]);
    }
  }

  /** The base-256 digits of `n`, least significant first and without a leading zero. */
  function Digits(n: nat): (bs: Bytes)
    ensures FromBytesLe(bs) == n
    ensures n > 0 ==> |bs| > 0 && bs[|bs| - 1] != 0
  {
    if n == 0 then []
    else
      var bs := [(n % 256) as byte] + Digits(n / 256);
      assert bs[1..] == Digits(n / 256);
      bs
  }

  /** `BigUint::to_bytes_le`: the digits of `n`, where zero has the one digit 0. */
  function ToBytesLe(n: nat): (bs: Bytes)
    ensures FromBytesLe(bs) == n
    ensures |bs| >= 1
  {
    if n == 0 then [0] else Digits(n)
  }

  lemma {:induction false} DigitsBound(n: nat, k: nat)
    requires n < Power256(k)
    ensures |Digits(n)| <= k
  {
    if n > 0 {
      DigitsBound(n / 256, k - 1);
    }
  }

  /** A number below 256^k takes at most k bytes, and at least one. */
  lemma ToBytesLeBound(n: nat, k: nat)
    requires k >= 1 && n < Power256(k)
    ensures 1 <= |ToBytesLe(n)| <= k
  {
    DigitsBound(n, k);
  }

  lemma {:induction false} FromBytesLeConcat(a: Bytes, b: Bytes)
    ensures FromBytesLe(a + b) == FromBytesLe(a) + Power256(|a|) * FromBytesLe(b)
  {
    if a == [] {
      assert a + b == b;
    } else {
      var rest := a[1..] + b;
      assert a + b == [a[0]] + rest;
      FromBytesLeConcat(a[1..], b);
      Distribute(FromBytesLe(a[1..]), Power256(|a| - 1), FromBytesLe(b));
    }
  }

  lemma Distribute(x: nat, p: nat, v: nat)
    ensures 256 * (x + p * v) == 256 * x + (256 * p) * v
  {
  }

  /** Reading is one-to-one on byte strings of equal length. */
  lemma {:induction false} FromBytesLeInjective(a: Bytes, b: Bytes)
    requires |a| == |b| && FromBytesLe(a) == FromBytesLe(b)
    ensures a == b
  {
    if a != [] {
      FromBytesLeInjective(a[1..], b[1..]);
      assert a == [a[0]] + a[1..] && b == [b[0]] + b[1..];
    }
  }

  /** The low `k` base-256 digits of `n`. */
  function LowDigits(n: nat, k: nat): (bs: Bytes)
    ensures |bs| == k
  {
    if k == 0 then [] else [(n % 256) as byte] + LowDigits(n / 256, k - 1)
  }

  /** Writing a fixed number of digits keeps a number that fits in them. */
  lemma {:induction false} LowDigitsValue(n: nat, k: nat)
    requires n < Power256(k)
    ensures FromBytesLe(LowDigits(n, k)) == n
  {
    if k > 0 {
      LowDigitsValue(n / 256, k - 1);
      assert LowDigits(n, k)[1..] == LowDigits(n / 256, k - 1);
    }
  }

  /** ... and gives back any byte string of that length. */
  lemma {:induction false} LowDigitsCanonical(bs: Bytes)
    ensures LowDigits(FromBytesLe(bs), |bs|) == bs
  {
    if bs != [] {
      LowDigitsCanonical(bs[1..]);
      assert bs == [bs[0]] + bs[1..];
    }
  }

  /** Digits beyond the ones written are cut off. */
  lemma {:induction false} LowDigitsTruncate(n: nat, m: nat, k: nat)
    ensures LowDigits(n + Power256(k) * m, k) == LowDigits(n, k)
  {
    if k > 0 {
      var high := Power256(k - 1) * m;
      assert Power256(k) * m == 256 * high;
      LowDigitsTruncate(n / 256, m, k - 1);
      CutDigit(n, high);
    }
  }

  lemma CutDigit(n: nat, high: nat)
    ensures (n + 256 * high) / 256 == n / 256 + high && (n + 256 * high) % 256 == n % 256
  {
  }

  /** `u32::to_le_bytes` behind an `as u32` cast, which keeps the low 32 bits only. */
  function U32ToLe(n: nat): (bs: Bytes)
    ensures |bs| == 4
  {
    LowDigits(n, 4)
  }

  lemma U32Value(n: nat)
    requires n < U32_LIMIT
    ensures FromBytesLe(U32ToLe(n)) == n
  {
    Power256OfFour();
    LowDigitsValue(n, 4);
  }

  lemma Power256OfFour()
    ensures Power256(4) == U32_LIMIT
  {
    assert Power256(2) == 65536;
  }

  lemma U32Truncates(n: nat)
    ensures U32ToLe(n) == U32ToLe(n % U32_LIMIT)
  {
    Power256OfFour();
    LowDigitsTruncate(n % U32_LIMIT, n / U32_LIMIT, 4);
  }

  /** The four bytes, written with masks and shifts. */
  lemma U32Bytes(n: nat)
    ensures U32ToLe(n) == [(n % 256) as byte, (n / 256 % 256) as byte,
                           (n / 65536 % 256) as byte, (n / 16777216 % 256) as byte]
  {
    assert n / 65536 == n / 256 / 256 && n / 16777216 == n / 65536 / 256;
    assert LowDigits(n / 65536, 2) == [(n / 65536 % 256) as byte] + LowDigits(n / 16777216, 1);
    assert LowDigits(n / 256, 3) == [(n / 256 % 256) as byte] + LowDigits(n / 65536, 2);
  }

  /** Bit-wise or on unsigned integers. */
  function BitOr(a: nat, b: nat): (r: nat)
  {
    if a == 0 then b
    else if b == 0 then a
    else (if a % 2 == 1 || b % 2 == 1 then 1 else 0) + 2 * BitOr(a / 2, b / 2)
  }

  function Power2(k: nat): (r: nat)
    ensures r > 0
  {
    if k == 0 then 1 else 2 * Power2(k - 1)
  }

  lemma {:induction false} Power2Add(a: nat, b: nat)
    ensures Power2(a + b) == Power2(a) * Power2(b)
  {
    if a > 0 {
      Power2Add(a - 1, b);
      Double(Power2(a - 1), Power2(b));
    }
  }

  lemma Double(x: nat, y: nat)
    ensures 2 * (x * y) == (2 * x) * y
  {
  }

  /** Shifting left by whole bytes multiplies by a power of 256. */
  lemma {:induction false} ShiftIsPower(i: nat)
    ensures Power2(8 * i) == Power256(i)
  {
    if i > 0 {
      ShiftIsPower(i - 1);
      Power2Add(8, 8 * i - 8);
      assert Power2(8) == 256;
    }
  }

  /** Or-ing in bits that all lie above the ones already set is addition. */
  lemma {:induction false} BitOrDisjoint(a: nat, b: nat, k: nat)
    requires a < Power2(k)
    ensures BitOr(a, Power2(k) * b) == a + Power2(k) * b
  {
    if k > 0 && a > 0 && b > 0 {
      var c := Power2(k - 1) * b;
      assert Power2(k) * b == 2 * c;
      BitOrDisjoint(a / 2, b, k - 1);
      assert BitOr(a / 2, c) == a / 2 + c;
    }
  }
}
