// Encryption and decryption of byte strings (crypto/src/elgamal.rs): packing into
// 32-bit chunks, one ElGamal ciphertext per chunk, framing, and the way back.
module ElGamal {
  import opened Wrappers
  import opened LittleEndian
  import opened Keypair
  import opened Framing
  import Utf8

  /** How a decryption ends; indexing the empty digit list of zero panics. */
  datatype Outcome = Text(bytes: Bytes) | Error(error: CryptoError) | Panicked

  // ---- Packing -------------------------------------------------------------

  function ChunkCount(length: nat): nat {
    (length + 3) / 4
  }

  function Chunks(bs: Bytes): (chunks: seq<nat>)
    ensures |chunks| == ChunkCount(|bs|)
    ensures forall i | 0 <= i < |chunks| :: chunks[i] < U32_LIMIT
  {
    if bs == [] then []
    else
      var k := if |bs| < 4 then |bs| else 4;
      FromBytesLeBound(bs[..k]);
      assert Power256(4) == U32_LIMIT && Power256(k) <= Power256(4);
      [FromBytesLe(bs[..k])] + Chunks(bs[k..])
  }

  function Unpack(chunks: seq<nat>): (bs: Bytes)
    ensures |bs| == 4 * |chunks|
  {
    if chunks == [] then [] else U32ToLe(chunks[0]) + Unpack(chunks[1..])
  }

  function Zeros(n: nat): (bs: Bytes)
    ensures |bs| == n
  {
    seq(n, i => 0)
  }

  /** The zeros that fill up the last chunk. */
  function Padding(length: nat): (n: nat)
    ensures n < 4 && length + n == 4 * ChunkCount(length)
  {
    4 * ChunkCount(length) - length
  }

  /** The bytes left when zeros are popped off the end. */
  function StripZeros(bs: Bytes): (r: Bytes)
    ensures r <= bs
    ensures r == [] || r[|r| - 1] != 0
    ensures forall i | |r| <= i < |bs| :: bs[i] == 0
  {
    if bs != [] && bs[|bs| - 1] == 0 then StripZeros(bs[..|bs| - 1]) else bs
  }

  lemma {:induction false} StripUnique(bs: Bytes, r: Bytes)
    requires r <= bs && (r == [] || r[|r| - 1] != 0)
    requires forall i | |r| <= i < |bs| :: bs[i] == 0
    ensures StripZeros(bs) == r
    decreases |bs|
  {
    if |bs| > |r| {
      StripUnique(bs[..|bs| - 1], r);
    }
  }

  lemma ChunkUnpacks(bs: Bytes)
    requires 1 <= |bs| <= 4
    ensures U32ToLe(FromBytesLe(bs)) == bs + Zeros(4 - |bs|)
  {
    PaddingKeepsValue(bs, 4 - |bs|);
    LowDigitsCanonical(bs + Zeros(4 - |bs|));
  }

  lemma {:induction false} PaddingKeepsValue(bs: Bytes, n: nat)
    ensures FromBytesLe(bs + Zeros(n)) == FromBytesLe(bs)
  {
    if bs == [] {
      assert bs + Zeros(n) == Zeros(n);
      ZerosValue(n);
    } else {
      assert (bs + Zeros(n))[1..] == bs[1..] + Zeros(n);
      PaddingKeepsValue(bs[1..], n);
    }
  }

  lemma {:induction false} ZerosValue(n: nat)
    ensures FromBytesLe(Zeros(n)) == 0
  {
    if n > 0 {
      assert Zeros(n)[1..] == Zeros(n - 1);
      ZerosValue(n - 1);
    }
  }

  lemma UnpackFirst(bs: Bytes, k: nat)
    requires bs != [] && k == if |bs| < 4 then |bs| else 4
    ensures Unpack(Chunks(bs)) == bs[..k] + Zeros(4 - k) + Unpack(Chunks(bs[k..]))
  {
    var later := Chunks(bs[k..]);
    ChunkUnpacks(bs[..k]);
    assert Chunks(bs) == [FromBytesLe(bs[..k])] + later;
    UnpackOne(FromBytesLe(bs[..k]), later);
  }

  lemma UnpackOne(chunk: nat, later: seq<nat>)
    ensures Unpack([chunk] + later) == U32ToLe(chunk) + Unpack(later)
  {
    assert ([chunk] + later)[1..] == later;
  }

  lemma PaddingStep(length: nat)
    ensures Padding(length) == if length == 0 then 0 else if length < 4 then 4 - length else Padding(length - 4)
  {
  }

  /** Unpacking gives the bytes back, padded with zeros to a multiple of four. */
  lemma {:induction false} UnpackChunks(bs: Bytes)
    ensures Unpack(Chunks(bs)) == bs + Zeros(Padding(|bs|))
    decreases |bs|
  {
    PaddingStep(|bs|);
    if 0 < |bs| < 4 {
      UnpackFirst(bs, |bs|);
    } else if |bs| >= 4 {
      UnpackFirst(bs, 4);
      UnpackChunks(bs[4..]);
      assert bs == bs[..4] + bs[4..];
    }
  }

  // ---- What encryption and decryption compute ------------------------------

  /** One ciphertext per chunk, each with its own random number. */
  function EncryptChunks(k: PrivateKey, chunks: seq<nat>, randoms: seq<nat>): (cs: seq<Ciphertext>)
    requires k.publicKey.prime >= U32_LIMIT
    requires |randoms| == |chunks| && forall i | 0 <= i < |chunks| :: chunks[i] < U32_LIMIT
    ensures |cs| == |chunks|
    ensures forall i | 0 <= i < |cs| ::
              Keypair.Encrypt(k.publicKey, chunks[i], randoms[i]) == Ok(cs[i])
  {
    if chunks == [] then []
    else
      [Keypair.Encrypt(k.publicKey, chunks[0], randoms[0]).value]
      + EncryptChunks(k, chunks[1..], randoms[1..])
  }

  function ToFrame(c: Ciphertext): Frame {
    Frame(ToBytesLe(c.c1), ToBytesLe(c.c2))
  }

  function FromFrame(f: Frame): Ciphertext {
    Ciphertext(FromBytesLe(f.c1), FromBytesLe(f.c2))
  }

  function ToFrames(cs: seq<Ciphertext>): (fs: seq<Frame>)
    ensures |fs| == |cs|
  {
    seq(|cs|, i requires 0 <= i < |cs| => ToFrame(cs[i]))
  }

  function FromFrames(fs: seq<Frame>): (cs: seq<Ciphertext>)
    ensures |cs| == |fs|
  {
    seq(|fs|, i requires 0 <= i < |fs| => FromFrame(fs[i]))
  }

  /** The encrypted form of `input` under the given random numbers. */
  function Encrypted(input: Bytes, k: PrivateKey, randoms: seq<nat>): Bytes
    requires k.publicKey.prime >= U32_LIMIT && |randoms| == ChunkCount(|input|)
  {
    Serialize(ToFrames(EncryptChunks(k, Chunks(input), randoms)))
  }

  /** The chunk in one ciphertext, or the outcome with which it stops the decryption. */
  function DecryptFrame(k: PrivateKey, f: Frame): (r: Result<nat, Outcome>)
    requires k.publicKey.prime > 1
    ensures r.Ok? ==> r.value < U32_LIMIT
  {
    match Keypair.Decrypt(k, FromFrame(f))
    case Err(e) => Err(Error(e))
    case Ok(m) => if m == 0 then Err(Panicked) else Ok(m % U32_LIMIT)
  }

  /** The chunks of all ciphertexts, up to the first that stops the decryption. */
  function DecryptFrames(k: PrivateKey, fs: seq<Frame>): (r: Result<seq<nat>, Outcome>)
    requires k.publicKey.prime > 1
  {
    if fs == [] then Ok([])
    else
      match DecryptFrame(k, fs[0])
      case Err(stop) => Err(stop)
      case Ok(chunk) =>
        Prepend([chunk], DecryptFrames(k, fs[1..]))
  }

  /** The text that decrypted chunks stand for. */
  function Reassemble(chunks: seq<nat>): Outcome {
    var bytes := StripZeros(Unpack(chunks));
    if Utf8.Valid(bytes) then Text(bytes) else Error(DecodeDecryptedMessage)
  }

  function Finish(chunks: Result<seq<nat>, Outcome>): Outcome {
    match chunks
    case Err(stop) => stop
    case Ok(chunks) => Reassemble(chunks)
  }

  function Decrypted(data: Bytes, k: PrivateKey): Outcome
    requires k.publicKey.prime > 1
  {
    match Parse(data)
    case None => Error(InvalidCiphertext)
    case Some((fs, _)) => Finish(DecryptFrames(k, fs))
  }

  // ---- The two functions of the library -------------------------------------

  /** Packs the bytes of one chunk with shifts and bit-wise or. */
  method PackChunk(chunk: Bytes) returns (value: nat)
    requires |chunk| <= 4
    ensures value == FromBytesLe(chunk)
  {
    value := 0;
    for i := 0 to |chunk|
      invariant value == FromBytesLe(chunk[..i])
    {
      PackStep(chunk, i);
      value := BitOr(value, Power2(8 * i) * chunk[i] as nat);
    }
    assert chunk[..|chunk|] == chunk;
  }

  lemma PackStep(chunk: Bytes, i: nat)
    requires i < |chunk|
    ensures BitOr(FromBytesLe(chunk[..i]), Power2(8 * i) * chunk[i] as nat) == FromBytesLe(chunk[..i + 1])
  {
    ShiftIsPower(i);
    FromBytesLeBound(chunk[..i]);
    BitOrDisjoint(FromBytesLe(chunk[..i]), chunk[i] as nat, 8 * i);
    FromBytesLeConcat(chunk[..i], [chunk[i]]);
    assert chunk[..i + 1] == chunk[..i] + [chunk[i]];
  }

  method SplitChunks(input: Bytes) returns (chunks: seq<nat>)
    ensures chunks == Chunks(input)
  {
    chunks := [];
    var at := 0;
    while at < |input|
      invariant 0 <= at <= |input|
      invariant Chunks(input) == chunks + Chunks(input[at..])
    {
      var k := if |input| - at < 4 then |input| - at else 4;
      var value := PackChunk(input[at..at + k]);
      SplitStep(input, at, k, chunks);
      chunks := chunks + [value];
      at := at + k;
    }
  }

  lemma SplitStep(input: Bytes, at: nat, k: nat, done: seq<nat>)
    requires at < |input| && k == if |input| - at < 4 then |input| - at else 4
    ensures done + Chunks(input[at..]) == done + [FromBytesLe(input[at..at + k])] + Chunks(input[at + k..])
  {
    assert input[at..][..k] == input[at..at + k] && input[at..][k..] == input[at + k..];
    assert Chunks(input[at..]) == [FromBytesLe(input[at..at + k])] + Chunks(input[at + k..]);
  }

  /** The encrypting loop. */
  method EncryptAll(chunks: seq<nat>, k: PrivateKey, randoms: seq<nat>) returns (ciphertexts: seq<Ciphertext>)
    requires k.publicKey.prime >= U32_LIMIT
    requires |randoms| == |chunks| && forall i | 0 <= i < |chunks| :: chunks[i] < U32_LIMIT
    ensures ciphertexts == EncryptChunks(k, chunks, randoms)
  {
    ghost var all := EncryptChunks(k, chunks, randoms);
    ciphertexts := [];
    for i := 0 to |chunks|
      invariant ciphertexts == all[..i]
    {
      var c := Keypair.Encrypt(k.publicKey, chunks[i], randoms[i]);
      assert c == Ok(all[i]);
      ciphertexts := ciphertexts + [c.value];
    }
  }

  /** The writing loop. */
  method WriteCiphertexts(ciphertexts: seq<Ciphertext>) returns (result: Bytes)
    ensures result == Serialize(ToFrames(ciphertexts))
  {
    ghost var fs := ToFrames(ciphertexts);
    result := U32ToLe(|ciphertexts|);
    for i := 0 to |ciphertexts|
      invariant result + EncodeFrames(fs[i..]) == Serialize(fs)
    {
      var c1Bytes, c2Bytes := ToBytesLe(ciphertexts[i].c1), ToBytesLe(ciphertexts[i].c2);
      WriteStep(fs, i, result);
      result := result + U32ToLe(|c1Bytes|);
      result := result + c1Bytes;
      result := result + U32ToLe(|c2Bytes|);
      result := result + c2Bytes;
    }
  }

  lemma WriteStep(fs: seq<Frame>, i: nat, written: Bytes)
    requires i < |fs|
    ensures written + EncodeFrames(fs[i..]) ==
            written + U32ToLe(|fs[i].c1|) + fs[i].c1 + U32ToLe(|fs[i].c2|) + fs[i].c2 + EncodeFrames(fs[i + 1..])
  {
    assert fs[i..][0] == fs[i] && fs[i..][1..] == fs[i + 1..];
    assert EncodeFrames(fs[i..]) == EncodeFrame(fs[i]) + EncodeFrames(fs[i + 1..]);
  }

  /** `encrypt`, with the random number of each chunk as a parameter. */
  method Encrypt(input: Bytes, k: PrivateKey, randoms: seq<nat>) returns (result: Bytes)
    requires k.publicKey.prime >= U32_LIMIT && |randoms| == ChunkCount(|input|)
    ensures result == Encrypted(input, k, randoms)
  {
    var chunks := SplitChunks(input);
    var ciphertexts := EncryptAll(chunks, k, randoms);
    result := WriteCiphertexts(ciphertexts);
  }

  /** One turn of the reading loop: the ciphertext at `start` and the offset behind it. */
  method ReadOne(data: Bytes, start: nat) returns (r: Option<(Ciphertext, nat)>)
    ensures r == match ReadFrame(data, start)
                 case None => None
                 case Some((f, next)) => Some((FromFrame(f), next))
  {
    var offset := start;
    if offset + 8 > |data| {
      return None;
    }
    var c1Len := ReadU32(data, offset);
    offset := offset + 4;
    if offset + c1Len + 4 > |data| {
      return None;
    }
    var c1Bytes := data[offset..offset + c1Len];
    var c1 := FromBytesLe(c1Bytes);
    offset := offset + c1Len;
    var c2Len := ReadU32(data, offset);
    offset := offset + 4;
    if offset + c2Len > |data| {
      return None;
    }
    var c2Bytes := data[offset..offset + c2Len];
    var c2 := FromBytesLe(c2Bytes);
    offset := offset + c2Len;
    return Some((Ciphertext(c1, c2), offset));
  }

  /** The reading loop. */
  method ReadCiphertexts(data: Bytes) returns (r: Result<seq<Ciphertext>, CryptoError>)
    ensures Parse(data).None? ==> r == Err(InvalidCiphertext)
    ensures Parse(data).Some? ==> r == Ok(FromFrames(Parse(data).value.0))
  {
    if |data| < 4 {
      return Err(InvalidCiphertext);
    }
    var count := ReadU32(data, 0);
    var offset := 4;
    var ciphertexts: seq<Ciphertext> := [];
    ghost var done: seq<Frame> := [];
    for i := 0 to count
      invariant ReadFrames(data, 4, i) == Some((done, offset))
      invariant ciphertexts == FromFrames(done)
    {
      var read := ReadOne(data, offset);
      if read.None? {
        ReadFails(data, 4, i, count);
        return Err(InvalidCiphertext);
      }
      ReadNext(data, 4, i);
      FromFramesSnoc(done, ReadFrame(data, offset).value.0);
      done := done + [ReadFrame(data, offset).value.0];
      ciphertexts := ciphertexts + [read.value.0];
      offset := read.value.1;
    }
    return Ok(ciphertexts);
  }

  lemma FromFramesSnoc(fs: seq<Frame>, f: Frame)
    ensures FromFrames(fs + [f]) == FromFrames(fs) + [FromFrame(f)]
  {
  }

  /** One more frame is read where the first `i` end. */
  lemma {:induction false} ReadNext(data: Bytes, offset: nat, i: nat)
    requires ReadFrames(data, offset, i).Some?
    ensures var (fs, at) := ReadFrames(data, offset, i).value;
            ReadFrames(data, offset, i + 1) ==
            match ReadFrame(data, at)
            case None => None
            case Some((f, next)) => Some((fs + [f], next))
    decreases i
  {
    var (fs, at) := ReadFrames(data, offset, i).value;
    if i > 0 {
      var (first, behind) := ReadFrame(data, offset).value;
      ReadNext(data, behind, i - 1);
      if ReadFrame(data, at).Some? {
        assert [first] + (fs[1..] + [ReadFrame(data, at).value.0]) == fs + [ReadFrame(data, at).value.0];
      }
    } else if ReadFrame(data, at).Some? {
      var (f, next) := ReadFrame(data, at).value;
      assert ReadFrames(data, next, i) == Some(([], next));
      assert [f] + [] == fs + [f];
    }
  }

  /** A list with a frame that cannot be read cannot be read. */
  lemma {:induction false} ReadFails(data: Bytes, offset: nat, i: nat, count: nat)
    requires i < count && ReadFrames(data, offset, i).Some?
    requires ReadFrame(data, ReadFrames(data, offset, i).value.1).None?
    ensures ReadFrames(data, offset, count).None?
    decreases i
  {
    if i > 0 {
      ReadFails(data, ReadFrame(data, offset).value.1, i - 1, count - 1);
    }
  }

  /** One turn of the decrypting loop. */
  method DecryptOne(ghost f: Frame, c: Ciphertext, k: PrivateKey) returns (r: Result<nat, Outcome>)
    requires k.publicKey.prime > 1 && c == FromFrame(f)
    ensures r == DecryptFrame(k, f)
  {
    var m := Keypair.Decrypt(k, c);
    if m.Err? {
      return Err(Error(m.error));
    }
    if m.value == 0 {
      return Err(Panicked);
    }
    return Ok(m.value % U32_LIMIT);
  }

  /** The decrypting loop. */
  method DecryptAll(ghost fs: seq<Frame>, ciphertexts: seq<Ciphertext>, k: PrivateKey)
    returns (r: Result<seq<nat>, Outcome>)
    requires k.publicKey.prime > 1
    requires ciphertexts == FromFrames(fs)
    ensures r == DecryptFrames(k, fs)
  {
    var chunks: seq<nat> := [];
    assert fs[0..] == fs;
    PrependNothing(DecryptFrames(k, fs));
    for i := 0 to |ciphertexts|
      invariant DecryptFrames(k, fs) == Prepend(chunks, DecryptFrames(k, fs[i..]))
    {
      DecryptStep(k, fs, i, chunks);
      var chunk := DecryptOne(fs[i], ciphertexts[i], k);
      if chunk.Err? {
        return Err(chunk.error);
      }
      chunks := chunks + [chunk.value];
    }
    assert fs[|fs|..] == [] && chunks + [] == chunks;
    return Ok(chunks);
  }

  lemma DecryptStep(k: PrivateKey, fs: seq<Frame>, i: nat, chunks: seq<nat>)
    requires k.publicKey.prime > 1 && i < |fs|
    ensures Prepend(chunks, DecryptFrames(k, fs[i..])) ==
            match DecryptFrame(k, fs[i])
            case Err(stop) => Err(stop)
            case Ok(chunk) => Prepend(chunks + [chunk], DecryptFrames(k, fs[i + 1..]))
  {
    assert fs[i..][0] == fs[i] && fs[i..][1..] == fs[i + 1..];
    if DecryptFrame(k, fs[i]).Ok? {
      PrependTwice(chunks, [DecryptFrame(k, fs[i]).value], DecryptFrames(k, fs[i + 1..]));
    }
  }

  /** The unpacking loop, with masks and shifts. */
  method UnpackAll(chunks: seq<nat>) returns (bytes: Bytes)
    ensures bytes == Unpack(chunks)
  {
    bytes := [];
    for i := 0 to |chunks|
      invariant bytes + Unpack(chunks[i..]) == Unpack(chunks)
    {
      UnpackStep(chunks, i, bytes);
      var chunk := chunks[i];
      bytes := bytes + [(chunk % 256) as byte];
      bytes := bytes + [(chunk / 256 % 256) as byte];
      bytes := bytes + [(chunk / 65536 % 256) as byte];
      bytes := bytes + [(chunk / 16777216 % 256) as byte];
    }
  }

  lemma UnpackStep(chunks: seq<nat>, i: nat, bytes: Bytes)
    requires i < |chunks|
    ensures var c := chunks[i];
            bytes + Unpack(chunks[i..]) ==
            bytes + [(c % 256) as byte] + [(c / 256 % 256) as byte] + [(c / 65536 % 256) as byte]
            + [(c / 16777216 % 256) as byte] + Unpack(chunks[i + 1..])
  {
    assert chunks[i..][0] == chunks[i] && chunks[i..][1..] == chunks[i + 1..];
    U32Bytes(chunks[i]);
  }

  /** `decrypt` */
  method Decrypt(data: Bytes, k: PrivateKey) returns (r: Outcome)
    requires k.publicKey.prime > 1
    ensures r == Decrypted(data, k)
  {
    var read := ReadCiphertexts(data);
    if read.Err? {
      return Error(read.error);
    }
    ghost var fs := Parse(data).value.0;
    var chunks := DecryptAll(fs, read.value, k);
    if chunks.Err? {
      return chunks.error;
    }
    var bytes := UnpackAll(chunks.value);
    while bytes != [] && bytes[|bytes| - 1] == 0
      invariant StripZeros(bytes) == StripZeros(Unpack(chunks.value))
      decreases |bytes|
    {
      bytes := bytes[..|bytes| - 1];
    }
    if Utf8.Valid(bytes) {
      return Text(bytes);
    }
    return Error(DecodeDecryptedMessage);
  }
}
