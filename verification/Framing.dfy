// The byte layout of an encrypted blob (crypto/src/elgamal.rs): a little-endian
// count followed by, for each ciphertext, two length-prefixed byte strings; and
// the bounds-checked parser that walks it with a running offset.
module Framing {
  import opened Wrappers
  import opened LittleEndian

  /** The bytes of the two components of one ciphertext. */
  datatype Frame = Frame(c1: Bytes, c2: Bytes)

  function EncodeFrame(f: Frame): (bs: Bytes) {
    U32ToLe(|f.c1|) + f.c1 + U32ToLe(|f.c2|) + f.c2
  }

  function EncodeFrames(fs: seq<Frame>): (bs: Bytes) {
    if fs == [] then [] else EncodeFrame(fs[0]) + EncodeFrames(fs[1..])
  }

  function Serialize(fs: seq<Frame>): (bs: Bytes) {
    U32ToLe(|fs|) + EncodeFrames(fs)
  }

  /** What the length fields can express. */
  predicate Small(f: Frame) {
    |f.c1| < U32_LIMIT && |f.c2| < U32_LIMIT
  }

  predicate AllSmall(fs: seq<Frame>) {
    forall i | 0 <= i < |fs| :: Small(fs[i])
  }

  function FramesSize(fs: seq<Frame>): nat {
    if fs == [] then 0 else 8 + |fs[0].c1| + |fs[0].c2| + FramesSize(fs[1..])
  }

  /** `u32::from_le_bytes` on the four bytes at `offset`. */
  function ReadU32(data: Bytes, offset: nat): (n: nat)
    requires offset + 4 <= |data|
    ensures n < U32_LIMIT
  {
    FromBytesLeBound(data[offset..offset + 4]);
    Power256OfFour();
    FromBytesLe(data[offset..offset + 4])
  }

  /** One turn of the reading loop: the frame at `offset` and the offset behind it. */
  function ReadFrame(data: Bytes, offset: nat): (r: Option<(Frame, nat)>)
  {
    if offset + 8 > |data| then None
    else
      var len1, at1 := ReadU32(data, offset), offset + 4;
      if at1 + len1 + 4 > |data| then None
      else
        var len2, at2 := ReadU32(data, at1 + len1), at1 + len1 + 4;
        if at2 + len2 > |data| then None
        else Some((Frame(data[at1..at1 + len1], data[at2..at2 + len2]), at2 + len2))
  }

  function ReadFrames(data: Bytes, offset: nat, count: nat): (r: Option<(seq<Frame>, nat)>)
    decreases count
  {
    if count == 0 then Some(([], offset))
    else
      match ReadFrame(data, offset)
      case None => None
      case Some((f, next)) =>
        match ReadFrames(data, next, count - 1)
        case None => None
        case Some((fs, end)) => Some(([f] + fs, end))
  }

  /** The frames of a blob and the offset at which reading stopped. */
  function Parse(data: Bytes): (r: Option<(seq<Frame>, nat)>)
  {
    if |data| < 4 then None else ReadFrames(data, 4, ReadU32(data, 0))
  }

  /** A length field reads as `n` exactly when it holds the four bytes of `n`. */
  lemma ReadU32Exact(data: Bytes, offset: nat, n: nat)
    requires offset + 4 <= |data| && n < U32_LIMIT
    ensures ReadU32(data, offset) == n <==> data[offset..offset + 4] == U32ToLe(n)
  {
    LowDigitsCanonical(data[offset..offset + 4]);
    U32Value(n);
  }

  /** The four fields of a frame lie one behind the other. */
  lemma SplitFrame(bs: Bytes, f: Frame)
    ensures bs == EncodeFrame(f) <==>
            var mid := 4 + |f.c1|;
            && |bs| == mid + 4 + |f.c2|
            && bs[..4] == U32ToLe(|f.c1|) && bs[4..mid] == f.c1
            && bs[mid..mid + 4] == U32ToLe(|f.c2|) && bs[mid + 4..] == f.c2
  {
    var mid := 4 + |f.c1|;
    if |bs| == mid + 4 + |f.c2| {
      assert bs == bs[..4] + bs[4..mid] + bs[mid..mid + 4] + bs[mid + 4..];
    }
  }

  lemma Reslice(data: Bytes, from: nat, to: nat, lo: nat, hi: nat)
    requires from <= to <= |data| && lo <= hi <= to - from
    ensures data[from..to][lo..hi] == data[from + lo..from + hi]
  {
    var inner, outer := data[from..to][lo..hi], data[from + lo..from + hi];
    assert |inner| == |outer|;
    assert forall i | 0 <= i < |inner| :: inner[i] == data[from + lo + i] == outer[i];
  }

  /** Reading a frame succeeds exactly on the bytes of that frame. */
  lemma ReadFrameExact(data: Bytes, offset: nat, f: Frame, next: nat)
    ensures ReadFrame(data, offset) == Some((f, next)) <==>
            Small(f) && offset <= next <= |data| && data[offset..next] == EncodeFrame(f)
  {
    if Small(f) && next == offset + 8 + |f.c1| + |f.c2| && next <= |data| {
      FieldsSliced(data, offset, f);
      FieldsRead(data, offset, f);
    }
  }

  /** The four fields of a frame at its place in the data. */
  predicate FieldsAt(data: Bytes, offset: nat, f: Frame)
    requires offset + 8 + |f.c1| + |f.c2| <= |data|
  {
    var mid := offset + 4 + |f.c1|;
    && data[offset..offset + 4] == U32ToLe(|f.c1|) && data[offset + 4..mid] == f.c1
    && data[mid..mid + 4] == U32ToLe(|f.c2|) && data[mid + 4..mid + 4 + |f.c2|] == f.c2
  }

  lemma FieldsSliced(data: Bytes, offset: nat, f: Frame)
    requires offset + 8 + |f.c1| + |f.c2| <= |data|
    ensures data[offset..offset + 8 + |f.c1| + |f.c2|] == EncodeFrame(f) <==> FieldsAt(data, offset, f)
  {
    var mid, next := offset + 4 + |f.c1|, offset + 8 + |f.c1| + |f.c2|;
    SplitFrame(data[offset..next], f);
    Reslice(data, offset, next, 0, 4);
    Reslice(data, offset, next, 4, mid - offset);
    Reslice(data, offset, next, mid - offset, mid + 4 - offset);
    Reslice(data, offset, next, mid + 4 - offset, next - offset);
  }

  lemma FieldsRead(data: Bytes, offset: nat, f: Frame)
    requires Small(f) && offset + 8 + |f.c1| + |f.c2| <= |data|
    ensures ReadFrame(data, offset) == Some((f, offset + 8 + |f.c1| + |f.c2|)) <==> FieldsAt(data, offset, f)
  {
    var mid := offset + 4 + |f.c1|;
    ReadU32Exact(data, offset, |f.c1|);
    ReadU32Exact(data, mid, |f.c2|);
    if ReadU32(data, offset) == |f.c1| {
      assert ReadU32(data, offset + 4 + ReadU32(data, offset)) == ReadU32(data, mid);
    }
  }

  lemma {:induction false} ReadFramesSound(data: Bytes, offset: nat, count: nat)
    requires offset <= |data| && ReadFrames(data, offset, count).Some?
    ensures var (fs, end) := ReadFrames(data, offset, count).value;
            && |fs| == count && AllSmall(fs)
            && offset <= end <= |data| && data[offset..end] == EncodeFrames(fs)
    decreases count
  {
    if count > 0 {
      var (f, next) := ReadFrame(data, offset).value;
      ReadFrameExact(data, offset, f, next);
      ReadFramesSound(data, next, count - 1);
      var (fs, end) := ReadFrames(data, next, count - 1).value;
      assert data[offset..end] == data[offset..next] + data[next..end];
      assert ([f] + fs)[1..] == fs;
    }
  }

  lemma {:induction false} ReadFramesComplete(data: Bytes, offset: nat, fs: seq<Frame>, end: nat)
    requires AllSmall(fs) && offset <= end <= |data| && data[offset..end] == EncodeFrames(fs)
    ensures ReadFrames(data, offset, |fs|) == Some((fs, end))
    decreases fs
  {
    if fs != [] {
      var next := offset + |EncodeFrame(fs[0])|;
      assert data[offset..next] == data[offset..end][..next - offset] == EncodeFrame(fs[0]);
      assert data[next..end] == data[offset..end][next - offset..] == EncodeFrames(fs[1..]);
      ReadFrameExact(data, offset, fs[0], next);
      ReadFramesComplete(data, next, fs[1..], end);
      assert fs == [fs[0]] + fs[1..];
    }
  }

  /**
   * The parser accepts exactly the blobs that begin with a serialized list, returns
   * that list, and stops right behind it.
   */
  lemma ParseExact(data: Bytes, fs: seq<Frame>, end: nat)
    ensures Parse(data) == Some((fs, end)) <==>
            |fs| < U32_LIMIT && AllSmall(fs) && end <= |data| && data[..end] == Serialize(fs)
  {
    if |data| >= 4 && 4 <= end <= |data| && |fs| < U32_LIMIT {
      var whole := data[..end];
      assert whole[..4] == data[0..4] && whole[4..] == data[4..end];
      assert whole == whole[..4] + whole[4..];
      ReadU32Exact(data, 0, |fs|);
      if AllSmall(fs) && whole == Serialize(fs) {
        assert whole[..4] == U32ToLe(|fs|) && whole[4..] == EncodeFrames(fs);
        ReadFramesComplete(data, 4, fs, end);
      }
    }
    if Parse(data) == Some((fs, end)) {
      ReadFramesSound(data, 4, ReadU32(data, 0));
    }
  }

  lemma {:induction false} EncodeFramesSize(fs: seq<Frame>)
    ensures |EncodeFrames(fs)| == FramesSize(fs)
  {
    if fs != [] {
      EncodeFramesSize(fs[1..]);
    }
  }

  /** Whatever follows a serialized list is ignored. */
  lemma ParseSerialized(fs: seq<Frame>, tail: Bytes)
    requires |fs| < U32_LIMIT && AllSmall(fs)
    ensures Parse(Serialize(fs) + tail) == Some((fs, |Serialize(fs)|))
  {
    var data := Serialize(fs) + tail;
    assert data[..|Serialize(fs)|] == Serialize(fs);
    ParseExact(data, fs, |Serialize(fs)|);
  }

  /** Reading stops inside the data, at the offset that the lengths add up to. */
  lemma ParseEnd(data: Bytes)
    requires Parse(data).Some?
    ensures var (fs, end) := Parse(data).value;
            end == 4 + FramesSize(fs) <= |data| && |fs| == ReadU32(data, 0)
  {
    var (fs, end) := Parse(data).value;
    ReadFramesSound(data, 4, ReadU32(data, 0));
    EncodeFramesSize(fs);
    assert |data[4..end]| == end - 4;
  }

  /**
   * A prefix of an accepted blob is accepted exactly when it reaches the offset at
   * which reading stopped, and then means the same list: any earlier cut is detected.
   */
  lemma TruncationDetected(data: Bytes, n: nat)
    requires Parse(data).Some? && n <= |data|
    ensures Parse(data[..n]) == if n >= Parse(data).value.1 then Parse(data) else None
  {
    var (fs, end) := Parse(data).value;
    ParseExact(data, fs, end);
    if n >= end {
      assert data[..n][..end] == data[..end];
      ParseExact(data[..n], fs, end);
    } else if Parse(data[..n]).Some? {
      var (fs', end') := Parse(data[..n]).value;
      ParseExact(data[..n], fs', end');
      assert data[..n][..end'] == data[..end'];
      ParseExact(data, fs', end');
    }
  }

  lemma FirstFrame(fs: seq<Frame>)
    requires fs != []
    ensures EncodeFrames(fs) == EncodeFrame(fs[0]) + EncodeFrames(fs[1..])
  {
  }

  lemma Regroup(a: Bytes, b: Bytes, c: Bytes)
    ensures a + (b + c) == (a + b) + c
  {
  }

  lemma {:induction false} SplitFrames(fs: seq<Frame>, n: nat)
    requires n <= |fs|
    ensures EncodeFrames(fs) == EncodeFrames(fs[..n]) + EncodeFrames(fs[n..])
    decreases n
  {
    if n == 0 {
      assert fs[..0] == [] && fs[0..] == fs;
    } else {
      var rest := fs[1..];
      assert fs[..n][0] == fs[0] && fs[..n][1..] == rest[..n - 1] && fs[n..] == rest[n - 1..];
      FirstFrame(fs);
      FirstFrame(fs[..n]);
      SplitFrames(rest, n - 1);
      Regroup(EncodeFrame(fs[0]), EncodeFrames(rest[..n - 1]), EncodeFrames(fs[n..]));
    }
  }

  /** The list begins with the count, and each frame lies behind those before it. */
  lemma FrameAt(fs: seq<Frame>, i: nat)
    requires i < |fs|
    ensures var (data, at) := (Serialize(fs), 4 + FramesSize(fs[..i]));
            && |data| >= 4 && data[..4] == U32ToLe(|fs|)
            && at + 8 + |fs[i].c1| + |fs[i].c2| <= |data| && FieldsAt(data, at, fs[i])
  {
    var (before, behind) := (EncodeFrames(fs[..i]), EncodeFrames(fs[i + 1..]));
    Surrounded(fs, i);
    EncodeFramesSize(fs[..i]);
    Placed(Serialize(fs), U32ToLe(|fs|) + before, EncodeFrame(fs[i]), behind);
    FieldsSliced(Serialize(fs), 4 + |before|, fs[i]);
  }

  lemma Surrounded(fs: seq<Frame>, i: nat)
    requires i < |fs|
    ensures Serialize(fs) ==
            (U32ToLe(|fs|) + EncodeFrames(fs[..i])) + EncodeFrame(fs[i]) + EncodeFrames(fs[i + 1..])
  {
    SplitFrames(fs, i);
    FirstFrame(fs[i..]);
    assert fs[i..][1..] == fs[i + 1..];
  }

  lemma Placed(data: Bytes, a: Bytes, b: Bytes, c: Bytes)
    requires data == a + b + c
    ensures |a| + |b| <= |data| && data[|a|..|a| + |b|] == b
  {
  }
}
