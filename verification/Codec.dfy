// What encrypting and then decrypting a blob gives, for every input, every pair
// of keys with one public key, and every choice of random numbers.
module Codec {
  import opened Wrappers
  import opened LittleEndian
  import opened Modular
  import opened Keypair
  import opened Framing
  import opened ElGamal
  import Utf8

  /** The number of ciphertexts that the count field announces. */
  function StoredCount(length: nat): nat {
    ChunkCount(length) % U32_LIMIT
  }

  lemma SplitWritten(fs: seq<Frame>, n: nat, wraps: nat)
    requires |fs| == n + Power256(4) * wraps && n <= |fs|
    ensures Serialize(fs) == Serialize(fs[..n]) + EncodeFrames(fs[n..])
  {
    SplitFrames(fs, n);
    LowDigitsTruncate(n, wraps, 4);
  }

  /** The frames that the count field announces. */
  function Counted(fs: seq<Frame>): (counted: seq<Frame>)
    ensures counted <= fs && |counted| == |fs| % U32_LIMIT
  {
    fs[..|fs| % U32_LIMIT]
  }

  /** The parser returns as many leading frames of a serialized list as its count field keeps. */
  lemma ParseWritten(fs: seq<Frame>)
    requires AllSmall(fs)
    ensures Parse(Serialize(fs)) == Some((Counted(fs), |Serialize(Counted(fs))|))
  {
    var n := |fs| % U32_LIMIT;
    Power256OfFour();
    SplitWritten(fs, n, |fs| / U32_LIMIT);
    ParseSerialized(fs[..n], EncodeFrames(fs[n..]));
  }

  function FramesOf(input: Bytes, k: PrivateKey, randoms: seq<nat>): (fs: seq<Frame>)
    requires k.publicKey.prime >= U32_LIMIT && |randoms| == ChunkCount(|input|)
    ensures |fs| == ChunkCount(|input|)
  {
    ToFrames(EncryptChunks(k, Chunks(input), randoms))
  }

  // ---- What the codec needs of its keys --------------------------------------

  predicate CompactFrame(f: Frame) {
    1 <= |f.c1| <= 32 && 1 <= |f.c2| <= 32
  }

  /** Encrypting a chunk under `k` always gives components of 1 to 32 bytes. */
  ghost predicate Compact(k: PrivateKey) {
    && k.publicKey.prime >= U32_LIMIT
    && forall m: nat, random: nat | m < U32_LIMIT ::
         CompactFrame(ToFrame(Keypair.Encrypt(k.publicKey, m, random).value))
  }

  /** What decrypting one encrypted chunk gives: zero has no digit to take. */
  function ChunkOutcome(chunk: nat): Result<nat, Outcome> {
    if chunk == 0 then Err(Panicked) else Ok(chunk)
  }

  /** ... and decrypting a list of them: the first zero stops it. */
  function ChunksOutcome(chunks: seq<nat>): Result<seq<nat>, Outcome> {
    if 0 in chunks then Err(Panicked) else Ok(chunks)
  }

  /** `reader` undoes, chunk by chunk, what `sender` encrypts. */
  ghost predicate Inverts(reader: PrivateKey, sender: PrivateKey) {
    && reader.publicKey.prime > 1 && Compact(sender)
    && forall m: nat, random: nat | m < U32_LIMIT ::
         DecryptFrame(reader, ToFrame(Keypair.Encrypt(sender.publicKey, m, random).value)) == ChunkOutcome(m)
  }

  /** Residues of the modulus take at most 32 bytes each. */
  lemma UsableCompact(k: PrivateKey)
    requires Usable(k)
    ensures Compact(k)
  {
    forall m: nat, random: nat | m < U32_LIMIT
      ensures CompactFrame(ToFrame(Keypair.Encrypt(k.publicKey, m, random).value))
    {
      var c := Keypair.Encrypt(k.publicKey, m, random).value;
      ToBytesLeBound(c.c1, 32);
      ToBytesLeBound(c.c2, 32);
    }
  }

  lemma DecryptFrameOf(reader: PrivateKey, c: Ciphertext, m: nat)
    requires reader.publicKey.prime > 1 && m < U32_LIMIT
    requires Keypair.Decrypt(reader, c) == Ok(m)
    ensures DecryptFrame(reader, ToFrame(c)) == ChunkOutcome(m)
  {
    assert FromFrame(ToFrame(c)) == c;
  }

  /** A key undoes the encryptions of every key with the same public key. */
  lemma UsableInverts(reader: PrivateKey, sender: PrivateKey)
    requires Usable(reader) && Usable(sender) && sender.publicKey == reader.publicKey
    ensures Inverts(reader, sender)
  {
    UsableCompact(sender);
    forall m: nat, random: nat | m < U32_LIMIT
      ensures DecryptFrame(reader, ToFrame(Keypair.Encrypt(sender.publicKey, m, random).value)) == ChunkOutcome(m)
    {
      DecryptEncrypt(sender, reader, m, random);
      DecryptFrameOf(reader, Keypair.Encrypt(sender.publicKey, m, random).value, m);
    }
  }

  // ---- Decrypting what was encrypted -----------------------------------------

  lemma FramesOfCompact(input: Bytes, k: PrivateKey, randoms: seq<nat>)
    requires Compact(k) && |randoms| == ChunkCount(|input|)
    ensures forall i | 0 <= i < ChunkCount(|input|) :: CompactFrame(FramesOf(input, k, randoms)[i])
    ensures AllSmall(FramesOf(input, k, randoms))
  {
    var chunks, fs := Chunks(input), FramesOf(input, k, randoms);
    forall i | 0 <= i < |fs|
      ensures CompactFrame(fs[i])
    {
      assert fs[i] == ToFrame(Keypair.Encrypt(k.publicKey, chunks[i], randoms[i]).value);
    }
  }

  /** Frames that decrypt one by one decrypt together, up to the first zero. */
  lemma {:induction false} DecryptEach(reader: PrivateKey, fs: seq<Frame>, chunks: seq<nat>)
    requires reader.publicKey.prime > 1 && |fs| == |chunks|
    requires forall i | 0 <= i < |fs| :: DecryptFrame(reader, fs[i]) == ChunkOutcome(chunks[i])
    ensures DecryptFrames(reader, fs) == ChunksOutcome(chunks)
    decreases |fs|
  {
    if fs != [] {
      DecryptEach(reader, fs[1..], chunks[1..]);
      assert chunks == [chunks[0]] + chunks[1..];
    }
  }

  lemma DecryptPrefix(input: Bytes, sender: PrivateKey, reader: PrivateKey, randoms: seq<nat>, n: nat)
    requires Inverts(reader, sender) && |randoms| == ChunkCount(|input|) && n <= ChunkCount(|input|)
    ensures DecryptFrames(reader, FramesOf(input, sender, randoms)[..n]) == ChunksOutcome(Chunks(input)[..n])
  {
    var chunks, fs := Chunks(input), FramesOf(input, sender, randoms);
    forall i | 0 <= i < n
      ensures DecryptFrame(reader, fs[..n][i]) == ChunkOutcome(chunks[..n][i])
    {
      assert fs[i] == ToFrame(Keypair.Encrypt(sender.publicKey, chunks[i], randoms[i]).value);
    }
    DecryptEach(reader, fs[..n], chunks[..n]);
  }

  lemma DecryptedWritten(fs: seq<Frame>, k: PrivateKey)
    requires k.publicKey.prime > 1 && AllSmall(fs)
    ensures Decrypted(Serialize(fs), k) == Finish(DecryptFrames(k, Counted(fs)))
  {
    ParseWritten(fs);
  }

  /** What decryption makes of an encrypted input: the outcome in every case. */
  function RoundTripOutcome(input: Bytes): Outcome {
    Finish(ChunksOutcome(Chunks(input)[..StoredCount(|input|)]))
  }

  lemma PrefixOutcome(input: Bytes, sender: PrivateKey, reader: PrivateKey, randoms: seq<nat>)
    requires Inverts(reader, sender) && |randoms| == ChunkCount(|input|)
    ensures Finish(DecryptFrames(reader, Counted(FramesOf(input, sender, randoms)))) == RoundTripOutcome(input)
  {
    DecryptPrefix(input, sender, reader, randoms, StoredCount(|input|));
  }

  lemma InvertedOutcome(input: Bytes, sender: PrivateKey, reader: PrivateKey, randoms: seq<nat>)
    requires Inverts(reader, sender) && |randoms| == ChunkCount(|input|)
    ensures Decrypted(Encrypted(input, sender, randoms), reader) == RoundTripOutcome(input)
  {
    FramesOfCompact(input, sender, randoms);
    DecryptedWritten(FramesOf(input, sender, randoms), reader);
    PrefixOutcome(input, sender, reader, randoms);
  }

  /** Encrypting and decrypting gives that outcome, whatever the matching keys and the random numbers. */
  lemma DecryptedEncrypted(input: Bytes, sender: PrivateKey, reader: PrivateKey, randoms: seq<nat>)
    requires Usable(sender) && Usable(reader) && sender.publicKey == reader.publicKey
    requires |randoms| == ChunkCount(|input|)
    ensures Decrypted(Encrypted(input, sender, randoms), reader) == RoundTripOutcome(input)
  {
    UsableInverts(reader, sender);
    InvertedOutcome(input, sender, reader, randoms);
  }

  // ---- What is written, byte by byte ------------------------------------------

  /** The bytes of the input that the `i`-th chunk holds. */
  function Group(input: Bytes, i: nat): Bytes
    requires i < ChunkCount(|input|)
  {
    input[4 * i..if 4 * i + 4 < |input| then 4 * i + 4 else |input|]
  }

  lemma {:induction false} ChunkAt(input: Bytes, i: nat)
    requires i < ChunkCount(|input|)
    ensures Chunks(input)[i] == FromBytesLe(Group(input, i))
    decreases i
  {
    var k := if |input| < 4 then |input| else 4;
    assert Chunks(input) == [FromBytesLe(input[..k])] + Chunks(input[k..]);
    if i == 0 {
      assert Group(input, 0) == input[..k];
    } else {
      ChunkAt(input[4..], i - 1);
      assert Group(input[4..], i - 1) == Group(input, i);
    }
  }

  /** The components of a ciphertext as they are written, the first before the second. */
  function Written(c: Ciphertext): Frame {
    Frame(ToBytesLe(c.c1), ToBytesLe(c.c2))
  }

  /** What is written for the `i`-th chunk, under the `i`-th random number. */
  function ExpectedFrame(input: Bytes, k: PrivateKey, randoms: seq<nat>, i: nat): Frame
    requires k.publicKey.prime > 1 && i < ChunkCount(|input|) == |randoms|
  {
    Written(Textbook(k, FromBytesLe(Group(input, i)), randoms[i]))
  }

  lemma FrameOfChunk(input: Bytes, k: PrivateKey, randoms: seq<nat>, i: nat)
    requires k.publicKey.prime >= U32_LIMIT && i < ChunkCount(|input|) == |randoms|
    ensures Chunks(input)[i] < U32_LIMIT
    ensures FramesOf(input, k, randoms)[i] == ToFrame(Keypair.Encrypt(k.publicKey, Chunks(input)[i], randoms[i]).value)
  {
  }

  lemma FrameExact(input: Bytes, k: PrivateKey, randoms: seq<nat>, i: nat)
    requires Usable(k) && i < ChunkCount(|input|) == |randoms|
    ensures FramesOf(input, k, randoms)[i] == ExpectedFrame(input, k, randoms, i)
  {
    FrameOfChunk(input, k, randoms, i);
    ChunkAt(input, i);
    CiphertextExact(k, Chunks(input)[i], randoms[i]);
  }

  /** `data` begins with the number of frames, and the fields of `f` lie behind the first `i` frames. */
  predicate LaidOut(data: Bytes, fs: seq<Frame>, i: nat, f: Frame)
    requires i <= |fs|
  {
    var at := 4 + FramesSize(fs[..i]);
    && |data| >= 4 && data[..4] == U32ToLe(|fs|)
    && at + 8 + |f.c1| + |f.c2| <= |data| && FieldsAt(data, at, f)
  }

  /**
   * An encrypted blob begins with the number of its chunks, and the fields of each ciphertext,
   * the first component before the second, follow one behind the other.
   */
  lemma EncryptedLayout(input: Bytes, k: PrivateKey, randoms: seq<nat>, i: nat)
    requires Usable(k) && i < ChunkCount(|input|) == |randoms|
    ensures LaidOut(Encrypted(input, k, randoms), FramesOf(input, k, randoms), i, ExpectedFrame(input, k, randoms, i))
  {
    FrameExact(input, k, randoms, i);
    LayoutOf(FramesOf(input, k, randoms), i, ExpectedFrame(input, k, randoms, i));
  }

  lemma LayoutOf(fs: seq<Frame>, i: nat, f: Frame)
    requires i < |fs| && fs[i] == f
    ensures LaidOut(Serialize(fs), fs, i, f)
  {
    FrameAt(fs, i);
  }

  // ---- What any blob decrypts to ------------------------------------------------

  /** The plaintext of a ciphertext. */
  function PlainOf(k: PrivateKey, f: Frame): Result<nat, CryptoError>
    requires k.publicKey.prime > 1
  {
    Keypair.Decrypt(k, Ciphertext(FromBytesLe(f.c1), FromBytesLe(f.c2)))
  }

  predicate HasDigit(k: PrivateKey, f: Frame)
    requires k.publicKey.prime > 1
  {
    PlainOf(k, f).Ok? && PlainOf(k, f).value != 0
  }

  /** The number of ciphertexts before the first that has no plaintext, or plaintext zero. */
  function FirstStop(k: PrivateKey, fs: seq<Frame>): (n: nat)
    requires k.publicKey.prime > 1
    ensures n <= |fs| && forall i | 0 <= i < n :: HasDigit(k, fs[i])
    ensures n < |fs| ==> !HasDigit(k, fs[n])
  {
    if fs == [] || !HasDigit(k, fs[0]) then 0 else 1 + FirstStop(k, fs[1..])
  }

  /** The lowest 32 bits of a plaintext. */
  function LowDigit(k: PrivateKey, f: Frame): nat
    requires k.publicKey.prime > 1
  {
    if PlainOf(k, f).Ok? then PlainOf(k, f).value % U32_LIMIT else 0
  }

  function LowDigitsOf(k: PrivateKey, fs: seq<Frame>): (digits: seq<nat>)
    requires k.publicKey.prime > 1
  {
    if fs == [] then [] else [LowDigit(k, fs[0])] + LowDigitsOf(k, fs[1..])
  }

  lemma {:induction false} DecryptFramesExact(k: PrivateKey, fs: seq<Frame>)
    requires k.publicKey.prime > 1
    ensures var n := FirstStop(k, fs);
            DecryptFrames(k, fs) ==
              if n == |fs| then Ok(LowDigitsOf(k, fs))
              else if PlainOf(k, fs[n]).Err? then Err(Error(PlainOf(k, fs[n]).error))
              else Err(Panicked)
    decreases |fs|
  {
    if fs != [] {
      var rest := fs[1..];
      DecryptFramesExact(k, rest);
      if FirstStop(k, fs) == |fs| {
        assert FirstStop(k, rest) == |rest|;
      }
    }
  }

  /**
   * Decryption of arbitrary data: what does not parse is an invalid ciphertext; the first
   * ciphertext without plaintext is too; before that, the first plaintext zero is a panic; and
   * else the lowest 32 bits of the plaintexts, as bytes without the zeros at the end, are the
   * text if they are UTF-8. Higher bits of a plaintext are ignored.
   */
  lemma DecryptedExact(data: Bytes, k: PrivateKey)
    requires k.publicKey.prime > 1
    ensures Parse(data).None? ==> Decrypted(data, k) == Error(InvalidCiphertext)
    ensures Parse(data).Some? ==>
              var fs := Parse(data).value.0;
              var n := FirstStop(k, fs);
              Decrypted(data, k) ==
                if n < |fs| then (if PlainOf(k, fs[n]).Err? then Error(InvalidCiphertext) else Panicked)
                else
                  var bytes := StripZeros(Unpack(LowDigitsOf(k, fs)));
                  if Utf8.Valid(bytes) then Text(bytes) else Error(DecodeDecryptedMessage)
  {
    if Parse(data).Some? {
      var fs := Parse(data).value.0;
      DecryptFramesExact(k, fs);
      var n := FirstStop(k, fs);
      if n < |fs| {
        DecryptSolves(k, Ciphertext(FromBytesLe(fs[n].c1), FromBytesLe(fs[n].c2)));
      }
    }
  }

  /** The inputs that survive: checkable before the call. */
  predicate RoundTrips(input: Bytes) {
    && ChunkCount(|input|) < U32_LIMIT
    && NoZeroGroup(input)
    && (input == [] || input[|input| - 1] != 0)
    && Utf8.Valid(input)
  }

  /** Every aligned group of four bytes, the last possibly shorter, has a byte other than zero. */
  predicate NoZeroGroup(input: Bytes) {
    forall i | 0 <= i < |input| && i % 4 == 0 :: GroupNonZero(input, i)
  }

  predicate GroupNonZero(input: Bytes, i: nat) {
    exists j :: i <= j < i + 4 && j < |input| && input[j] != 0
  }

  lemma {:induction false} ZeroValue(bs: Bytes)
    ensures FromBytesLe(bs) == 0 <==> forall j | 0 <= j < |bs| :: bs[j] == 0
  {
    if bs != [] {
      ZeroValue(bs[1..]);
      assert forall j | 0 < j < |bs| :: bs[j] == bs[1..][j - 1];
    }
  }

  lemma {:induction false} ZeroChunks(input: Bytes)
    ensures 0 !in Chunks(input) <==> NoZeroGroup(input)
    decreases |input|
  {
    if input != [] {
      var k := if |input| < 4 then |input| else 4;
      var head, rest := input[..k], input[k..];
      ZeroValue(head);
      ZeroChunks(rest);
      assert Chunks(input) == [FromBytesLe(head)] + Chunks(rest);
      assert GroupNonZero(input, 0) <==> FromBytesLe(head) != 0 by {
        if j :| 0 <= j < k && head[j] != 0 {
          assert input[j] != 0;
        }
      }
      ShiftGroups(input, k);
    }
  }

  lemma ShiftGroups(input: Bytes, k: nat)
    requires k <= |input| && (k == 4 || k == |input| < 4) && |input| > 0
    ensures NoZeroGroup(input) <==> GroupNonZero(input, 0) && NoZeroGroup(input[k..])
  {
    var rest := input[k..];
    assert forall j | 0 <= j < |rest| :: rest[j] == input[k + j];
    forall i | 0 <= i < |rest| && i % 4 == 0
      ensures GroupNonZero(rest, i) <==> GroupNonZero(input, i + 4)
    {
      if j :| i <= j < i + 4 && j < |rest| && rest[j] != 0 {
        assert input[j + 4] != 0;
      }
      if j :| i + 4 <= j < i + 8 && j < |input| && input[j] != 0 {
        assert rest[j - 4] != 0;
      }
    }
    forall i | 0 < i < |input| && i % 4 == 0 && NoZeroGroup(rest)
      ensures GroupNonZero(input, i)
    {
      assert GroupNonZero(rest, i - 4);
    }
  }

  /** With no zero chunk in sight, the input comes back without its trailing zeros. */
  lemma StrippedRoundTrip(input: Bytes)
    requires ChunkCount(|input|) < U32_LIMIT
    ensures RoundTripOutcome(input) ==
            if !NoZeroGroup(input) then Panicked
            else if Utf8.Valid(StripZeros(input)) then Text(StripZeros(input))
            else Error(DecodeDecryptedMessage)
  {
    StoredWhole(input);
    ZeroChunks(input);
    StripUnpacked(input);
  }

  lemma StripUnpacked(input: Bytes)
    ensures StripZeros(Unpack(Chunks(input))) == StripZeros(input)
  {
    UnpackChunks(input);
    StripPadded(input, Padding(|input|));
  }

  lemma StoredWhole(input: Bytes)
    requires ChunkCount(|input|) < U32_LIMIT
    ensures Chunks(input)[..StoredCount(|input|)] == Chunks(input)
  {
    StoredAll(|input|);
  }

  lemma StoredAll(length: nat)
    requires ChunkCount(length) < U32_LIMIT
    ensures StoredCount(length) == ChunkCount(length)
  {
  }

  lemma StripPadded(bs: Bytes, n: nat)
    ensures StripZeros(bs + Zeros(n)) == StripZeros(bs)
  {
    StripUnique(bs + Zeros(n), StripZeros(bs));
  }

  /** With 2^32 chunks or more the count wraps around and the end is lost. */
  lemma WrappedRoundTrip(input: Bytes)
    requires ChunkCount(|input|) >= U32_LIMIT
    ensures RoundTripOutcome(input) != Text(input)
  {
    var chunks := Chunks(input)[..StoredCount(|input|)];
    assert |StripZeros(Unpack(chunks))| <= 4 * |chunks| < |input|;
  }

  /**
   * A blob survives encryption and decryption exactly when it has fewer than 2^32
   * chunks, no zero chunk, no trailing zero, and is UTF-8.
   */
  lemma RoundTrip(input: Bytes, sender: PrivateKey, reader: PrivateKey, randoms: seq<nat>)
    requires Usable(sender) && Usable(reader) && sender.publicKey == reader.publicKey
    requires |randoms| == ChunkCount(|input|)
    ensures Decrypted(Encrypted(input, sender, randoms), reader) == Text(input) <==> RoundTrips(input)
  {
    DecryptedEncrypted(input, sender, reader, randoms);
    OutcomeIsInput(input);
  }

  /** In particular with any key that the library builds. */
  lemma LibraryRoundTrip(input: Bytes, exponent: nat, randoms: seq<nat>)
    requires |randoms| == ChunkCount(|input|)
    ensures var k := FromExponent(exponent);
            && k.publicKey.prime >= U32_LIMIT
            && (Decrypted(Encrypted(input, k, randoms), k) == Text(input) <==> RoundTrips(input))
  {
    var k := FromExponent(exponent);
    ExponentReduced(exponent);
    WellFormedUsable(k);
    RoundTrip(input, k, k, randoms);
  }

  lemma ExponentReduced(exponent: nat)
    ensures WellFormed(FromExponent(exponent))
  {
    assert exponent % PRIME % PRIME == exponent % PRIME;
  }

  lemma OutcomeIsInput(input: Bytes)
    ensures RoundTripOutcome(input) == Text(input) <==> RoundTrips(input)
  {
    if ChunkCount(|input|) < U32_LIMIT {
      StrippedRoundTrip(input);
    } else {
      WrappedRoundTrip(input);
    }
    if input == [] || input[|input| - 1] != 0 {
      StripUnique(input, input);
    }
  }

  /** An aligned group of four zero bytes, wherever it lies, makes decryption panic. */
  lemma ZeroGroupPanics(input: Bytes, i: nat, k: PrivateKey, randoms: seq<nat>)
    requires Usable(k) && |randoms| == ChunkCount(|input|) && ChunkCount(|input|) < U32_LIMIT
    requires i < |input| && i % 4 == 0 && !GroupNonZero(input, i)
    ensures Decrypted(Encrypted(input, k, randoms), k) == Panicked
  {
    DecryptedEncrypted(input, k, k, randoms);
    StrippedRoundTrip(input);
  }

  /** The shortest text outside the domain: one zero byte. */
  lemma NulPanics(k: PrivateKey, random: nat)
    requires Usable(k)
    ensures Utf8.Valid([0]) && Decrypted(Encrypted([0], k, [random]), k) == Panicked
  {
    AsciiValid([0]);
    ZeroGroupPanics([0], 0, k, [random]);
  }

  /** A text ending in a zero byte comes back shorter. */
  lemma TrailingZeroLost(k: PrivateKey, random: nat)
    requires Usable(k)
    ensures Utf8.Valid([65, 0]) && Decrypted(Encrypted([65, 0], k, [random]), k) == Text([65])
  {
    DecryptedEncrypted([65, 0], k, k, [random]);
    TrailingZeroOutcome();
  }

  lemma TrailingZeroOutcome()
    ensures Utf8.Valid([65, 0]) && RoundTripOutcome([65, 0]) == Text([65])
  {
    var padded: Bytes := [65, 0];
    AsciiValid(padded);
    AsciiValid([65]);
    assert padded[0] != 0 && GroupNonZero(padded, 0);
    StripUnique(padded, [65]);
    StrippedRoundTrip(padded);
  }

  lemma {:induction false} AsciiValid(bs: Bytes)
    requires forall i | 0 <= i < |bs| :: bs[i] <= 0x7F
    ensures Utf8.Valid(bs)
  {
    if bs != [] {
      AsciiValid(bs[1..]);
    }
  }

  /** Every strict prefix of an encrypted blob is rejected. */
  lemma TruncatedBlobRejected(input: Bytes, sender: PrivateKey, randoms: seq<nat>, reader: PrivateKey, n: nat)
    requires Usable(sender) && reader.publicKey.prime > 1 && |randoms| == ChunkCount(|input|)
    requires ChunkCount(|input|) < U32_LIMIT
    requires n < |Encrypted(input, sender, randoms)|
    ensures Decrypted(Encrypted(input, sender, randoms)[..n], reader) == Error(InvalidCiphertext)
  {
    UsableCompact(sender);
    FramesOfCompact(input, sender, randoms);
    TruncatedFramesRejected(FramesOf(input, sender, randoms), n);
  }

  lemma TruncatedFramesRejected(fs: seq<Frame>, n: nat)
    requires |fs| < U32_LIMIT && AllSmall(fs) && n < |Serialize(fs)|
    ensures Parse(Serialize(fs)[..n]) == None
  {
    ParseSerialized(fs, []);
    assert Serialize(fs) + [] == Serialize(fs);
    TruncationDetected(Serialize(fs), n);
  }

  lemma {:induction false} FramesSizeBounds(fs: seq<Frame>)
    requires forall i | 0 <= i < |fs| :: CompactFrame(fs[i])
    ensures 10 * |fs| <= FramesSize(fs) <= 72 * |fs|
  {
    if fs != [] {
      FramesSizeBounds(fs[1..]);
    }
  }

  /** The largest input length for which the size below is known to fit a signed 32-bit field. */
  const SAFE_LENGTH: nat := 119304644

  /** An input length from which on it is known not to fit. */
  const OVERSIZE_LENGTH: nat := 858993457

  /** Bounds on the size of an encrypted blob, and when it is sure to fit the row's `i32`, or not to. */
  lemma SizeBounds(input: Bytes, k: PrivateKey, randoms: seq<nat>)
    requires Usable(k) && |randoms| == ChunkCount(|input|)
    ensures var n := ChunkCount(|input|);
            4 + 10 * n <= |Encrypted(input, k, randoms)| <= 4 + 72 * n
    ensures |input| <= SAFE_LENGTH ==> |Encrypted(input, k, randoms)| < 0x8000_0000
    ensures |input| >= OVERSIZE_LENGTH ==> |Encrypted(input, k, randoms)| >= 0x8000_0000
  {
    UsableCompact(k);
    FramesOfCompact(input, k, randoms);
    SerializedSize(FramesOf(input, k, randoms));
  }

  lemma SerializedSize(fs: seq<Frame>)
    requires forall i | 0 <= i < |fs| :: CompactFrame(fs[i])
    ensures 4 + 10 * |fs| <= |Serialize(fs)| <= 4 + 72 * |fs|
  {
    EncodeFramesSize(fs);
    FramesSizeBounds(fs);
  }
}
