/**
  The tone generator: a producer of sample bytes that keeps the unread end of the last frame, so that
  the stream it produces should not depend on how the caller slices its buffers.
*/
module ToneGenerator {

  import opened Basics

  type Byte = b: int | 0 <= b < 256

  const TWO_PI: real := 6.283185307179586

  /** What Init computes from the wave format and the tone. The sine, its amplitude and its offset are one function of the phase. */
  datatype Tone = Tone(channels: nat, bits: nat, increment: real, wave: real -> real)

  function FrameSize(t: Tone): nat {
    t.channels * t.bits / 8
  }

  // ---------- samples and frames ----------

  /** The C conversion from floating point to an integer. */
  function Truncated(x: real): int {
    if x >= 0.0 then x.Floor else -(-x).Floor
  }

  function LittleEndian(n: int, size: nat): (r: seq<Byte>)
    ensures |r| == size
    decreases size
  {
    if size == 0 then [] else [n % 256] + LittleEndian(n / 256, size - 1)
  }

  predicate Supported(bits: nat) {
    bits == 8 || bits == 16 || bits == 24 || bits == 32
  }

  function Sample(v: real, bits: nat): (r: seq<Byte>)
    requires Supported(bits)
    ensures 8 * |r| == bits
  {
    if bits == 8 then LittleEndian(Truncated(v * 127.5 + 127.5), 1)
    else if bits == 16 then LittleEndian(Truncated(v * 32767.0), 2)
    else if bits == 24 then LittleEndian(Truncated(v * 2147483647.0) / 256, 3)
    else LittleEndian(Truncated(v * 2147483647.0), 4)
  }

  // ---------- what the bytes of a sample mean ----------

  /** The number that bytes stand for, lowest byte first. */
  function Unsigned(s: seq<Byte>): nat {
    if s == [] then 0 else s[0] + 256 * Unsigned(s[1..])
  }

  function Power256(k: nat): (p: nat)
    ensures p > 0
  {
    if k == 0 then 1 else 256 * Power256(k - 1)
  }

  /** The bytes of a number, of either sign, stand for what of it fits into them. */
  lemma {:induction false} LittleEndianValue(n: int, size: nat)
    ensures Unsigned(LittleEndian(n, size)) == n % Power256(size)
    decreases size
  {
    if size > 0 {
      var p, m := Power256(size - 1), n / 256;
      LittleEndianValue(m, size - 1);
      assert LittleEndian(n, size)[1..] == LittleEndian(m, size - 1);
      var q, r := m / p, m % p;
      assert m == q * p + r;
      assert n == 256 * m + n % 256 && 256 * (q * p) == q * (256 * p);
      RemainderOf(n, 256 * p, q, 256 * r + n % 256);
    }
  }

  /** Two's complement. */
  function Signed(s: seq<Byte>): int {
    if 2 * Unsigned(s) < Power256(|s|) then Unsigned(s) else Unsigned(s) - Power256(|s|)
  }

  lemma {:induction false} Powers()
    ensures Power256(1) == 0x100 && Power256(2) == 0x1_0000 && Power256(3) == 0x100_0000 && Power256(4) == 0x1_0000_0000
  {
    assert Power256(0) == 1;
    assert Power256(1) == 256 * Power256(0);
    assert Power256(2) == 256 * Power256(1);
    assert Power256(3) == 256 * Power256(2);
    assert Power256(4) == 256 * Power256(3);
  }

  /** A number that fits is what its bytes stand for. */
  lemma {:induction false} LittleEndianSigned(n: int, size: nat)
    requires 0 <= 2 * n + Power256(size) && 2 * n < Power256(size)
    ensures Signed(LittleEndian(n, size)) == n
  {
    LittleEndianValue(n, size);
    RemainderOf(n, Power256(size), if n < 0 then -1 else 0, if n < 0 then n + Power256(size) else n);
  }

  /** Cutting toward zero. */
  lemma {:induction false} TruncatedBounds(x: real)
    ensures x >= 0.0 ==> 0 <= Truncated(x) && Truncated(x) as real <= x < Truncated(x) as real + 1.0
    ensures x < 0.0 ==> Truncated(x) <= 0 && Truncated(x) as real - 1.0 < x <= Truncated(x) as real
  {
  }

  /** x is y, cut toward zero. */
  predicate CutTo(y: real, x: int) {
    if y >= 0.0 then 0 <= x && x as real <= y < x as real + 1.0 else x <= 0 && x as real - 1.0 < y <= x as real
  }

  /** An 8-bit sample is unsigned: silence is in the middle, and the range is 255. */
  lemma {:induction false} Sample8(v: real)
    requires -1.0 <= v <= 1.0
    ensures |Sample(v, 8)| == 1 && CutTo(v * 127.5 + 127.5, Unsigned(Sample(v, 8))) && Unsigned(Sample(v, 8)) <= 255
  {
    var n := Truncated(v * 127.5 + 127.5);
    TruncatedBounds(v * 127.5 + 127.5);
    LittleEndianValue(n, 1);
    Powers();
  }

  /** A 16-bit sample is signed and scaled by 32767. */
  lemma {:induction false} Sample16(v: real)
    requires -1.0 <= v <= 1.0
    ensures |Sample(v, 16)| == 2 && CutTo(v * 32767.0, Signed(Sample(v, 16)))
  {
    TruncatedBounds(v * 32767.0);
    Powers();
    LittleEndianSigned(Truncated(v * 32767.0), 2);
  }

  /** A 24-bit sample is the 32-bit one without its lowest byte. */
  lemma {:induction false} Sample24(v: real) returns (n: int)
    requires -1.0 <= v <= 1.0
    ensures CutTo(v * 2147483647.0, n)
    ensures |Sample(v, 24)| == 3 && 0 <= n - 256 * Signed(Sample(v, 24)) < 256
  {
    n := Truncated(v * 2147483647.0);
    TruncatedBounds(v * 2147483647.0);
    Powers();
    LittleEndianSigned(n / 256, 3);
  }

  /** A 32-bit sample is signed and scaled by 2147483647. */
  lemma {:induction false} Sample32(v: real)
    requires -1.0 <= v <= 1.0
    ensures |Sample(v, 32)| == 4 && CutTo(v * 2147483647.0, Signed(Sample(v, 32)))
  {
    TruncatedBounds(v * 2147483647.0);
    Powers();
    LittleEndianSigned(Truncated(v * 2147483647.0), 4);
  }

  /** The bytes that are written to the front of a frame. With 24 bits each channel overwrites the one before. */
  function Written(t: Tone, theta: real): seq<Byte> {
    if !Supported(t.bits) || t.channels == 0 then []
    else
      var s := Sample(t.wave(theta), t.bits);
      if t.bits == 24 then s else Repeated(s, t.channels)
  }

  /** Every frame is written from end to end. */
  predicate Complete(t: Tone) {
    t.bits == 8 || t.bits == 16 || t.bits == 32 || (t.bits == 24 && t.channels == 1)
  }

  /** The formats whose frames are written completely are exactly those. */
  lemma {:induction false} WrittenCompletelyIff(t: Tone, theta: real)
    requires FrameSize(t) > 0
    ensures |Written(t, theta)| <= FrameSize(t)
    ensures |Written(t, theta)| == FrameSize(t) <==> Complete(t)
  {
    if Supported(t.bits) {
      var k := |Sample(t.wave(theta), t.bits)|;
      assert t.bits == k * 8;
      assert t.channels * t.bits == t.channels * k * 8;
      assert FrameSize(t) == t.channels * k;
      assert t.channels == 1 || t.channels >= 2;
      assert t.bits == 24 && t.channels >= 2 ==> t.channels * k >= 6;
    }
  }

  /** Every channel of a frame has the bytes of the one sample; with 24 bits only the first channel has. */
  lemma {:induction false} ChannelsHaveTheSample(t: Tone, theta: real, i: nat)
    requires t.bits == 8 || t.bits == 16 || t.bits == 24 || t.bits == 32
    requires i < (if t.bits == 24 then 3 else t.channels * (t.bits / 8)) && t.channels > 0
    ensures i < |Written(t, theta)| && Written(t, theta)[i] == Sample(t.wave(theta), t.bits)[i % (t.bits / 8)]
  {
    var s := Sample(t.wave(theta), t.bits);
    if t.bits != 24 {
      RepeatedAt(s, t.channels, i);
    }
  }

  /** With 24 bits and two channels half of each frame is not written. */
  lemma {:induction false} FramesCanFallShort(increment: real, wave: real -> real, theta: real)
    ensures var t := Tone(2, 24, increment, wave); |Written(t, theta)| == 3 && FrameSize(t) == 6
  {
  }

  // ---------- the stream ----------

  function Advanced(t: Tone, theta: real): real {
    var next := theta + t.increment;
    if next >= TWO_PI then next - TWO_PI else next
  }

  function PhaseAfter(t: Tone, theta: real, frames: nat): real {
    if frames == 0 then theta else Advanced(t, PhaseAfter(t, theta, frames - 1))
  }

  lemma {:induction false} OneMoreIncrement(n: real, x: real)
    ensures (n + 1.0) * x == n * x + x
  {
  }

  /** The phase of a frame is the angle that the increments add up to, less a number of whole turns. */
  lemma {:induction false} PhaseIsTheAngle(t: Tone, theta: real, frames: nat) returns (turns: nat)
    ensures PhaseAfter(t, theta, frames) == theta + frames as real * t.increment - turns as real * 6.283185307179586
    ensures turns <= frames
    ensures 0.0 <= theta < 6.283185307179586 && 0.0 <= t.increment < 6.283185307179586 ==>
              0.0 <= PhaseAfter(t, theta, frames) < 6.283185307179586
  {
    turns := 0;
    if frames > 0 {
      var k := PhaseIsTheAngle(t, theta, frames - 1);
      var before, n, x := PhaseAfter(t, theta, frames - 1), (frames - 1) as real, t.increment;
      OneMoreIncrement(n, x);
      assert frames as real == n + 1.0 && frames as real * x == n * x + x;
      turns := if before + x >= 6.283185307179586 then k + 1 else k;
      assert turns as real == k as real + if before + x >= 6.283185307179586 then 1.0 else 0.0;
      assert PhaseAfter(t, theta, frames) == before + x - if before + x >= 6.283185307179586 then 6.283185307179586 else 0.0;
    }
  }

  /**
    Byte i of the endless stream that starts with phase theta; a byte of a frame that is not written
    counts as zero and is told apart by IsWritten.
  */
  function ByteAt(t: Tone, theta: real, i: nat): Byte {
    if !IsWritten(t, i) then 0
    else
      var w := Written(t, PhaseAfter(t, theta, FrameOf(FrameSize(t), i)));
      var j := PlaceInFrame(FrameSize(t), i);
      if j < |w| then w[j] else 0
  }

  function FrameOf(size: nat, i: nat): nat
    requires size > 0
  {
    i / size
  }

  function PlaceInFrame(size: nat, i: nat): (j: nat)
    requires size > 0
    ensures j < size
  {
    i % size
  }

  /** How many bytes of a frame are written. */
  function WrittenSize(t: Tone): nat {
    if !Supported(t.bits) || t.channels == 0 then 0 else if t.bits == 24 then 3 else t.channels * (t.bits / 8)
  }

  predicate IsWritten(t: Tone, i: nat) {
    FrameSize(t) > 0 && PlaceInFrame(FrameSize(t), i) < WrittenSize(t)
  }

  /** A stream of bytes, and which of them are written at all. */
  datatype ByteStream = ByteStream(bytes: nat -> Byte, written: nat -> bool)

  /** Where the stream has a byte for them, the bytes of s are those from `from` on. */
  ghost predicate Matches(s: seq<Byte>, stream: ByteStream, from: nat) {
    forall k :: 0 <= k < |s| ==> stream.written(from + k) ==> s[k] == stream.bytes(from + k)
  }

  lemma {:induction false} MatchAppend(a: seq<Byte>, b: seq<Byte>, stream: ByteStream, from: nat)
    requires Matches(a, stream, from) && Matches(b, stream, from + |a|)
    ensures Matches(a + b, stream, from)
  {
    forall k | 0 <= k < |a + b| && stream.written(from + k) ensures (a + b)[k] == stream.bytes(from + k) {
      if k >= |a| {
        assert (a + b)[k] == b[k - |a|] && from + |a| + (k - |a|) == from + k;
      }
    }
  }

  lemma {:induction false} MatchSplit(s: seq<Byte>, stream: ByteStream, from: nat, n: nat)
    requires Matches(s, stream, from) && n <= |s|
    ensures Matches(s[..n], stream, from) && Matches(s[n..], stream, from + n)
  {
    forall k | 0 <= k < |s| - n && stream.written(from + n + k) ensures s[n..][k] == stream.bytes(from + n + k) {
      assert s[n..][k] == s[n + k] && from + (n + k) == from + n + k;
    }
  }

  /** The n bytes of a stream that start at `from`. */
  function Stream(bytes: nat -> Byte, from: nat, n: nat): (r: seq<Byte>)
    ensures |r| == n && forall j :: 0 <= j < n ==> r[j] == bytes(from + j)
  {
    if n == 0 then [] else Stream(bytes, from, n - 1) + [bytes(from + n - 1)]
  }

  /** A stream that is written everywhere is all there is to say of what matches it. */
  lemma {:induction false} MatchAll(s: seq<Byte>, stream: ByteStream, from: nat)
    requires Matches(s, stream, from) && forall i :: stream.written(i)
    ensures s == Stream(stream.bytes, from, |s|)
  {
  }

  lemma {:induction false} WrittenSizeIs(t: Tone, theta: real)
    ensures |Written(t, theta)| == WrittenSize(t)
  {
  }

  /** Within a frame the stream is what is written for that frame. */
  lemma {:induction false} FrameBytes(t: Tone, theta: real, frame: nat, j: nat)
    requires FrameSize(t) > 0 && j < FrameSize(t)
    ensures IsWritten(t, frame * FrameSize(t) + j) <==> j < |Written(t, PhaseAfter(t, theta, frame))|
    ensures j < |Written(t, PhaseAfter(t, theta, frame))| ==>
              ByteAt(t, theta, frame * FrameSize(t) + j) == Written(t, PhaseAfter(t, theta, frame))[j]
  {
    QuotientAndRemainder(FrameSize(t), frame, j);
    WrittenSizeIs(t, PhaseAfter(t, theta, frame));
  }

  // ---------- slicing ----------

  /** How many bytes of the current frame were generated but not read when the reader stands at `position`. */
  function Residual(size: nat, position: nat): (r: nat)
    requires size > 0
    ensures r < size && (position + r) % size == 0
  {
    ResidualEndsFrame(size, position);
    if position % size == 0 then 0 else size - position % size
  }

  lemma {:induction false} ResidualEndsFrame(size: nat, position: nat)
    requires size > 0
    ensures (position + if position % size == 0 then 0 else size - position % size) % size == 0
  {
    if position % size != 0 {
      var q := position / size;
      assert position == q * size + position % size;
      assert position + (size - position % size) == (q + 1) * size + 0 by {
        assert (q + 1) * size == q * size + size;
      }
      QuotientAndRemainder(size, q + 1, 0);
    }
  }

  /** Where a call for n bytes leaves the reader: an unread residual is dropped even if fewer bytes were wanted. */
  function PositionAfter(size: nat, position: nat, n: nat): nat
    requires size > 0
  {
    position + if n >= Residual(size, position) then n else Residual(size, position)
  }

  /** Two calls leave the reader where one call would exactly when none of the two is shorter than the residual it meets. */
  lemma {:induction false} SplitLandsTogetherIff(size: nat, position: nat, a: nat, b: nat)
    requires size > 0
    ensures PositionAfter(size, PositionAfter(size, position, a), b) == PositionAfter(size, position, a + b) <==>
            (b == 0 && a < Residual(size, position)) ||
            (a >= Residual(size, position) && b >= Residual(size, PositionAfter(size, position, a)))
  {
    var r := Residual(size, position);
    if a < r {
      assert (position + r) % size == 0;
    }
  }

  /** The calls' outputs, one after the other. */
  function Outputs(bytes: nat -> Byte, size: nat, position: nat, lengths: seq<nat>): seq<Byte>
    requires size > 0
    decreases |lengths|
  {
    if lengths == [] then []
    else
      Stream(bytes, position, lengths[0]) + Outputs(bytes, size, PositionAfter(size, position, lengths[0]), lengths[1..])
  }

  /** No call is shorter than the residual it meets. */
  predicate LongEnough(size: nat, position: nat, lengths: seq<nat>)
    requires size > 0
    decreases |lengths|
  {
    lengths != [] ==>
      lengths[0] >= Residual(size, position) && LongEnough(size, position + lengths[0], lengths[1..])
  }

  function Total(lengths: seq<nat>): nat {
    if lengths == [] then 0 else lengths[0] + Total(lengths[1..])
  }

  lemma {:induction false} StreamAppend(bytes: nat -> Byte, from: nat, a: nat, b: nat)
    ensures Stream(bytes, from, a) + Stream(bytes, from + a, b) == Stream(bytes, from, a + b)
  {
    if b > 0 {
      StreamAppend(bytes, from, a, b - 1);
    }
  }

  /** However the caller slices its buffers, as long as each is long enough, it reads the one stream. */
  lemma {:induction false} SlicingDoesNotMatter(bytes: nat -> Byte, size: nat, position: nat, lengths: seq<nat>)
    requires size > 0 && LongEnough(size, position, lengths)
    ensures Outputs(bytes, size, position, lengths) == Stream(bytes, position, Total(lengths))
    decreases |lengths|
  {
    if lengths != [] {
      SlicingDoesNotMatter(bytes, size, position + lengths[0], lengths[1..]);
      StreamAppend(bytes, position, lengths[0], Total(lengths[1..]));
    }
  }

  /** Frames of four bytes read one byte at a time: each call after the first drops what is left of the frame. */
  lemma {:induction false} SlicingCanMatter(bytes: nat -> Byte)
    requires bytes(4) != bytes(2)
    ensures Outputs(bytes, 4, 0, [1, 1, 1]) != Stream(bytes, 0, 3)
    ensures PositionAfter(4, PositionAfter(4, PositionAfter(4, 0, 1), 1), 1) == 5
  {
    assert [1, 1, 1][1..] == [1, 1] && [1, 1][1..] == [1];
    assert PositionAfter(4, 0, 1) == 1 && PositionAfter(4, 1, 1) == 4;
    assert Outputs(bytes, 4, 4, [1])[0] == bytes(4);
    assert Outputs(bytes, 4, 0, [1, 1, 1])[2] == bytes(4);
  }

  /** Where the calls leave the reader. */
  function PositionAfterAll(size: nat, position: nat, lengths: seq<nat>): nat
    requires size > 0
    decreases |lengths|
  {
    if lengths == [] then position else PositionAfterAll(size, PositionAfter(size, position, lengths[0]), lengths[1..])
  }

  /** After i calls: what was read, and what the other calls will read, is what all calls read. */
  ghost predicate StillToRead(bytes: nat -> Byte, size: nat, from: nat, lengths: seq<nat>, i: nat, out: seq<Byte>, position: nat)
    requires size > 0 && i <= |lengths|
  {
    && Outputs(bytes, size, from, lengths) == out + Outputs(bytes, size, position, lengths[i..])
    && PositionAfterAll(size, from, lengths) == PositionAfterAll(size, position, lengths[i..])
  }

  lemma {:induction false} ReadOneMore(bytes: nat -> Byte, size: nat, from: nat, lengths: seq<nat>, i: nat, out: seq<Byte>, position: nat)
    requires size > 0 && i < |lengths| && StillToRead(bytes, size, from, lengths, i, out, position)
    ensures StillToRead(bytes, size, from, lengths, i + 1, out + Stream(bytes, position, lengths[i]), PositionAfter(size, position, lengths[i]))
  {
    assert lengths[i..][0] == lengths[i] && lengths[i..][1..] == lengths[i + 1..];
    var part, rest := Stream(bytes, position, lengths[i]), Outputs(bytes, size, PositionAfter(size, position, lengths[i]), lengths[i + 1..]);
    assert out + (part + rest) == out + part + rest;
  }

  // ---------- the generator ----------

  /** Where a frame starts in the stream. */
  function FrameStart(size: nat, frame: nat): nat {
    if frame == 0 then 0 else FrameStart(size, frame - 1) + size
  }

  lemma {:induction false} FrameStartIs(size: nat, frame: nat)
    ensures FrameStart(size, frame) == frame * size
  {
    if frame > 0 {
      FrameStartIs(size, frame - 1);
    }
  }

  /** The stream that a tone with an initial phase stands for. */
  ghost predicate IsStream(stream: ByteStream, t: Tone, theta: real) {
    && (forall i {:trigger ByteAt(t, theta, i)} :: 0 <= i ==> stream.bytes(i) == ByteAt(t, theta, i))
    && (forall i {:trigger IsWritten(t, i)} :: 0 <= i ==> stream.written(i) == IsWritten(t, i))
  }

  /** A buffer with part of it replaced. */
  function WithPart(s: seq<Byte>, at: nat, part: seq<Byte>): (r: seq<Byte>)
    requires at + |part| <= |s|
    ensures |r| == |s|
    ensures forall k :: 0 <= k < |s| ==> r[k] == if at <= k < at + |part| then part[k - at] else s[k]
  {
    s[..at] + part + s[at + |part|..]
  }

  lemma {:induction false} PartPrefix(s: seq<Byte>, at: nat, part: seq<Byte>)
    requires at + |part| <= |s|
    ensures WithPart(s, at, part)[..at + |part|] == s[..at] + part
    ensures WithPart(s, at, part)[at + |part|..] == s[at + |part|..]
    ensures |s| == |part| ==> WithPart(s, 0, part) == part
  {
  }

  /** Writing the rest behind a part, or the whole over it, leaves the whole. */
  lemma {:induction false} PartOfPart(s: seq<Byte>, at: nat, a: seq<Byte>, whole: seq<Byte>)
    requires at + |a| <= |s| && at + |whole| <= |s| && a <= whole
    ensures WithPart(WithPart(s, at, a), at + |a|, whole[|a|..]) == WithPart(s, at, whole)
    ensures WithPart(WithPart(s, at, a), at, whole) == WithPart(s, at, whole)
  {
  }

  /** What a new frame looks like does not depend on what was in the buffer exactly when the format is a complete one. */
  lemma {:induction false} FrameIsDeterminedIff(t: Tone, theta: real)
    requires FrameSize(t) > 0
    ensures |Written(t, theta)| <= FrameSize(t)
    ensures Complete(t) <==>
            forall a: seq<Byte>, b: seq<Byte> :: |a| == FrameSize(t) && |b| == FrameSize(t) ==>
              WithPart(a, 0, Written(t, theta)) == WithPart(b, 0, Written(t, theta))
  {
    WrittenCompletelyIff(t, theta);
    if !Complete(t) {
      var zeros: seq<Byte>, ones: seq<Byte> := seq(FrameSize(t), _ => 0), seq(FrameSize(t), _ => 1);
      var k := |Written(t, theta)|;
      assert WithPart(zeros, 0, Written(t, theta))[k] != WithPart(ones, 0, Written(t, theta))[k];
    }
  }

  /** Copies bytes into part of a buffer. */
  method CopyBytes(to: array<Byte>, at: nat, s: seq<Byte>)
    requires at + |s| <= to.Length
    modifies to
    ensures to[..] == WithPart(old(to[..]), at, s)
  {
    forall k | 0 <= k < |s| {
      to[at + k] := s[k];
    }
  }

  method ZeroBytes(to: array<Byte>, at: nat, n: nat)
    requires at + n <= to.Length
    modifies to
    ensures to[..] == WithPart(old(to[..]), at, Repeated<Byte>([0], n))
  {
    CopyBytes(to, at, Repeated<Byte>([0], n));
  }

  /** Copies part of a buffer into another one and clears it where it was. */
  method MoveBytes(from: array<Byte>, offset: nat, n: nat, to: array<Byte>, at: nat)
    requires from != to && offset + n <= from.Length && at + n <= to.Length
    modifies from, to
    ensures to[..at + n] == old(to[..at]) + old(from[offset..offset + n])
    ensures from[offset + n..] == old(from[offset + n..])
  {
    PartPrefix(to[..], at, from[offset..offset + n]);
    PartPrefix(from[..], offset, Repeated<Byte>([0], n));
    CopyBytes(to, at, from[offset..offset + n]);
    ZeroBytes(from, offset, n);
  }

  lemma {:induction false} Zeros(n: nat)
    ensures forall k :: 0 <= k < n ==> Repeated<Byte>([0], n)[k] == 0
  {
    if n > 0 {
      Zeros(n - 1);
    }
  }

  class Generator {
    const tone: Tone
    const initial: real
    const frameSize: nat
    var theta: real
    var mute: bool
    var partialFrame: array<Byte>
    var partialFrameBytes: nat
    /** The stream that the generator reads, how many of its frames were generated, and where the last of them ends. */
    ghost const stream: ByteStream
    ghost var frames: nat
    ghost var end: nat

    /** The partial frame ends with the unread bytes of the last frame. */
    ghost predicate Valid()
      reads this, partialFrame
    {
      && Generated(stream, tone, initial, frameSize, theta, frames, end)
      && partialFrame.Length == frameSize && partialFrameBytes < frameSize && partialFrameBytes <= end
      && Matches(partialFrame[frameSize - partialFrameBytes..], stream, end - partialFrameBytes)
    }

    /** How many bytes of the stream were read or dropped so far. */
    ghost function Position(): nat
      requires Valid()
      reads this, partialFrame
    {
      end - partialFrameBytes
    }

    constructor Init(tone: Tone, phase: real)
      requires FrameSize(tone) > 0
      ensures Valid() && fresh(partialFrame) && Position() == 0 && !mute
      ensures this.tone == tone && initial == phase
    {
      this.tone := tone;
      initial := phase;
      frameSize := FrameSize(tone);
      theta := phase;
      mute := false;
      partialFrame := new Byte[FrameSize(tone)](_ => 0);
      partialFrameBytes := 0;
      frames, end := 0, 0;
      stream := ByteStream((i: nat) => ByteAt(tone, phase, i), (i: nat) => IsWritten(tone, i));
    }

    /** Writes one channel of a frame. */
    method WriteChannel(frame: array<Byte>, at: nat, value: real, i: nat, ghost was: seq<Byte>)
      requires frameSize == FrameSize(tone) > 0 && at + frameSize <= frame.Length == |was| && i < tone.channels
      requires |WrittenSoFar(tone, value, i)| <= frameSize
      requires frame[..] == WithPart(was, at, WrittenSoFar(tone, value, i))
      modifies frame
      ensures |WrittenSoFar(tone, value, i + 1)| <= frameSize
      ensures frame[..] == WithPart(was, at, WrittenSoFar(tone, value, i + 1))
    {
      ghost var part, whole := WrittenSoFar(tone, value, i), WrittenSoFar(tone, value, i + 1);
      ChannelFits(tone, value, i);
      PartOfPart(was, at, part, whole);
      if tone.bits == 8 || tone.bits == 16 || tone.bits == 32 {
        var offset := i * (tone.bits / 8);
        assert Sample(value, tone.bits) == whole[|part|..] && offset == |part|;
        CopyBytes(frame, at + offset, Sample(value, tone.bits));
      } else if tone.bits == 24 {
        CopyBytes(frame, at, Sample(value, tone.bits));
      }
    }

    /** Writes the next frame into a buffer, one channel after the other, and advances the phase. */
    method InitNewFrame(frame: array<Byte>, at: nat)
      requires frameSize == FrameSize(tone) > 0 && at + frameSize <= frame.Length
      modifies this`theta, frame
      ensures |Written(tone, old(theta))| <= frameSize
      ensures frame[..] == WithPart(old(frame[..]), at, Written(tone, old(theta)))
      ensures theta == Advanced(tone, old(theta))
    {
      WriteChannels(frame, at);
      theta := theta + tone.increment;
      if theta >= TWO_PI {
        theta := theta - TWO_PI;
      }
    }

    /** The loop over the channels. */
    method WriteChannels(frame: array<Byte>, at: nat)
      requires frameSize == FrameSize(tone) > 0 && at + frameSize <= frame.Length
      modifies frame
      ensures |Written(tone, theta)| <= frameSize
      ensures frame[..] == WithPart(old(frame[..]), at, Written(tone, theta))
    {
      ghost var was := frame[..];
      var value := tone.wave(theta);
      var i := 0;
      while i < tone.channels
        invariant i <= tone.channels && |WrittenSoFar(tone, value, i)| <= frameSize
        invariant frame[..] == WithPart(was, at, WrittenSoFar(tone, value, i))
      {
        WriteChannel(frame, at, value, i, was);
        i := i + 1;
      }
      assert WrittenSoFar(tone, value, i) == Written(tone, theta);
    }

    /** The first n bytes of the buffer are the stream's from position `from` on. */
    ghost predicate Read(buffer: array<Byte>, from: nat, n: nat)
      requires n <= buffer.Length
      reads this, buffer
    {
      Matches(buffer[..n], stream, from)
    }

    /** Copies unread bytes of the last frame to the front of a buffer. */
    method ReadResidual(buffer: array<Byte>, n: nat)
      requires Valid() && buffer != partialFrame && n <= partialFrameBytes && n <= buffer.Length
      modifies partialFrame, buffer
      ensures Matches(buffer[..n], stream, end - partialFrameBytes)
    {
      var offset := frameSize - partialFrameBytes;
      MatchSplit(partialFrame[offset..], stream, end - partialFrameBytes, n);
      assert partialFrame[offset..offset + n] == partialFrame[offset..][..n];
      MoveBytes(partialFrame, offset, n, buffer, 0);
    }

    /** Reads the unread end of the last frame, as far as it fits; what does not fit is dropped. */
    method TakeResidual(buffer: array<Byte>) returns (done: nat)
      requires Valid() && buffer != partialFrame && partialFrameBytes > 0
      modifies this`partialFrameBytes, partialFrame, buffer
      ensures Valid() && partialFrameBytes == 0
      ensures done == if old(partialFrameBytes) <= buffer.Length then old(partialFrameBytes) else buffer.Length
      ensures Position() == old(Position()) + old(partialFrameBytes)
      ensures Read(buffer, old(Position()), done)
    {
      done := if partialFrameBytes <= buffer.Length then partialFrameBytes else buffer.Length;
      ReadResidual(buffer, done);
      partialFrameBytes := 0;
    }

    /** Generates the next frame into a buffer; the rest of the buffer stays. */
    method NextFrame(buffer: array<Byte>, at: nat)
      requires Generated(stream, tone, initial, frameSize, theta, frames, end)
      requires at + frameSize <= buffer.Length
      modifies this`theta, this`frames, this`end, buffer
      ensures Generated(stream, tone, initial, frameSize, theta, frames, end) && end == old(end) + frameSize
      ensures buffer[..at] == old(buffer[..at]) && Matches(buffer[at..at + frameSize], stream, old(end))
    {
      ghost var was, w := buffer[..], Written(tone, theta);
      InitNewFrame(buffer, at);
      NewFrame(was, at, w, frameSize);
      assert buffer[..at] == buffer[..][..at] && buffer[at..at + frameSize] == buffer[..][at..at + frameSize];
      WholeFrame(stream, tone, initial, frames, end, buffer[at..at + frameSize]);
      frames, end := frames + 1, end + frameSize;
    }

    /** Writes one whole frame of the stream. */
    method TakeFrame(buffer: array<Byte>, done: nat, ghost from: nat)
      requires Valid() && buffer != partialFrame && partialFrameBytes == 0 && done + frameSize <= buffer.Length
      requires Position() == from + done && Read(buffer, from, done)
      modifies this`theta, this`frames, this`end, buffer
      ensures Valid() && Position() == from + done + frameSize
      ensures Read(buffer, from, done + frameSize)
    {
      NextFrame(buffer, done);
      MatchAppend(buffer[..done], buffer[done..done + frameSize], stream, from);
      assert buffer[..done + frameSize] == buffer[..done] + buffer[done..done + frameSize];
    }

    /** Generates the next frame into the partial frame, of which the first `length` bytes are about to be read. */
    method KeepFrame(length: nat)
      requires Generated(stream, tone, initial, frameSize, theta, frames, end)
      requires partialFrame.Length == frameSize && length <= frameSize
      modifies this`theta, this`frames, this`end, partialFrame
      ensures Generated(stream, tone, initial, frameSize, theta, frames, end) && end == old(end) + frameSize
      ensures Matches(partialFrame[0..length], stream, old(end))
      ensures Matches(partialFrame[length..], stream, old(end) + length)
    {
      ghost var from := end;
      NextFrame(partialFrame, 0);
      MatchSplit(partialFrame[0..frameSize], stream, from, length);
      assert partialFrame[0..frameSize][..length] == partialFrame[0..length];
      assert partialFrame[0..frameSize][length..] == partialFrame[length..];
    }

    /** Writes the front of a new frame and keeps its end for the next call. */
    method TakePart(buffer: array<Byte>, done: nat, ghost from: nat)
      requires Valid() && buffer != partialFrame && partialFrameBytes == 0 && done < buffer.Length < done + frameSize
      requires Position() == from + done && Read(buffer, from, done)
      modifies this`theta, this`frames, this`end, this`partialFrameBytes, partialFrame, buffer
      ensures Valid() && Position() == from + buffer.Length
      ensures Read(buffer, from, buffer.Length)
    {
      var length := buffer.Length - done;
      KeepFrame(length);
      MatchAppend(buffer[..done], partialFrame[0..length], stream, from);
      MoveBytes(partialFrame, 0, length, buffer, done);
      partialFrameBytes := frameSize - length;
    }

    /** The loop over the whole frames, and the partial frame at the end. */
    method TakeRest(buffer: array<Byte>, start: nat, ghost from: nat)
      requires Valid() && buffer != partialFrame && partialFrameBytes == 0 && start <= buffer.Length
      requires Position() == from + start && Read(buffer, from, start)
      modifies this`theta, this`frames, this`end, this`partialFrameBytes, partialFrame, buffer
      ensures Valid() && Position() == from + buffer.Length
      ensures Read(buffer, from, buffer.Length)
    {
      var done := start;
      while frameSize <= buffer.Length - done
        invariant done <= buffer.Length && Valid() && partialFrameBytes == 0 && Position() == from + done
        invariant Read(buffer, from, done)
      {
        TakeFrame(buffer, done, from);
        done := done + frameSize;
      }
      if done < buffer.Length {
        TakePart(buffer, done, from);
      }
    }

    /**
      Fills the buffer with the next bytes of the stream. When the tone is muted or disabled, or the floating
      point state cannot be saved, it fills the buffer with silence and the stream stands still.
    */
    method GenerateSine(buffer: array<Byte>, disabled: bool, saved: bool)
      requires Valid() && buffer != partialFrame
      modifies this`theta, this`frames, this`end, this`partialFrameBytes, partialFrame, buffer
      ensures Valid()
      ensures mute || disabled || !saved ==>
                Position() == old(Position()) && forall k :: 0 <= k < buffer.Length ==> buffer[k] == 0
      ensures !mute && !disabled && saved ==>
                && Matches(buffer[..], stream, old(Position()))
                && (Complete(tone) ==> buffer[..] == Stream(stream.bytes, old(Position()), buffer.Length))
                && Position() == PositionAfter(frameSize, old(Position()), buffer.Length)
    {
      if mute || disabled || !saved {
        Zeros(buffer.Length);
        ZeroBytes(buffer, 0, buffer.Length);
        return;
      }
      ghost var from := Position();
      Produce(buffer);
      if Complete(tone) {
        CompleteIsWritten(stream, tone, initial);
        MatchAll(buffer[..], stream, from);
      }
    }

    method Produce(buffer: array<Byte>)
      requires Valid() && buffer != partialFrame
      modifies this`theta, this`frames, this`end, this`partialFrameBytes, partialFrame, buffer
      ensures Valid() && Matches(buffer[..], stream, old(Position()))
      ensures Position() == PositionAfter(frameSize, old(Position()), buffer.Length)
    {
      var done := 0;
      ghost var from := Position();
      ResidualIsKept();
      if partialFrameBytes > 0 {
        done := TakeResidual(buffer);
      }
      if done < buffer.Length {
        TakeRest(buffer, done, from);
      }
      assert buffer[..] == buffer[..buffer.Length];
    }

    /** One call of a caller that reads with buffers of its own choosing. */
    method ReadOne(length: nat) returns (part: seq<Byte>)
      requires Valid() && !mute && Complete(tone)
      modifies this`theta, this`frames, this`end, this`partialFrameBytes, partialFrame
      ensures Valid() && part == Stream(stream.bytes, old(Position()), length)
      ensures Position() == PositionAfter(frameSize, old(Position()), length)
    {
      var buffer := new Byte[length](_ => 0);
      GenerateSine(buffer, false, true);
      part := buffer[..];
    }

    /** All of its calls: their outputs, one after the other. */
    method ReadAll(lengths: seq<nat>) returns (out: seq<Byte>)
      requires Valid() && !mute && Complete(tone)
      modifies this`theta, this`frames, this`end, this`partialFrameBytes, partialFrame
      ensures Valid() && out == Outputs(stream.bytes, frameSize, old(Position()), lengths)
      ensures Position() == PositionAfterAll(frameSize, old(Position()), lengths)
    {
      ghost var from := Position();
      out := [];
      var i := 0;
      while i < |lengths|
        invariant i <= |lengths| && Valid() && StillToRead(stream.bytes, frameSize, from, lengths, i, out, Position())
      {
        ghost var position := Position();
        var part := ReadOne(lengths[i]);
        ReadOneMore(stream.bytes, frameSize, from, lengths, i, out, position);
        out := out + part;
        i := i + 1;
      }
    }

    /** The unread bytes are the residual at the reader's position. */
    lemma {:induction false} ResidualIsKept()
      requires Valid()
      ensures Residual(frameSize, Position()) == partialFrameBytes
    {
      FrameStartIs(frameSize, frames);
      if partialFrameBytes == 0 {
        QuotientAndRemainder(frameSize, frames, 0);
      } else {
        assert frames > 0;
        FrameStartIs(frameSize, frames - 1);
        QuotientAndRemainder(frameSize, frames - 1, frameSize - partialFrameBytes);
      }
    }
  }

  /** Generators of the same tone that stand at the same position are in the same state. */
  lemma {:induction false} SamePositionSameState(g: Generator, h: Generator)
    requires g.Valid() && h.Valid() && g.tone == h.tone && g.initial == h.initial && g.Position() == h.Position()
    ensures g.frames == h.frames && g.theta == h.theta && g.partialFrameBytes == h.partialFrameBytes
  {
    g.ResidualIsKept();
    h.ResidualIsKept();
    FrameStartIs(g.frameSize, g.frames);
    FrameStartIs(h.frameSize, h.frames);
    QuotientAndRemainder(g.frameSize, g.frames, 0);
    QuotientAndRemainder(h.frameSize, h.frames, 0);
  }

  /** What the first i channels have written. */
  function WrittenSoFar(t: Tone, value: real, i: nat): seq<Byte> {
    if !Supported(t.bits) || i == 0 then []
    else
      var s := Sample(value, t.bits);
      if t.bits == 24 then s else Repeated(s, i)
  }

  lemma {:induction false} ChannelFits(t: Tone, value: real, i: nat)
    requires FrameSize(t) > 0 && i < t.channels
    ensures |WrittenSoFar(t, value, i + 1)| <= FrameSize(t)
    ensures WrittenSoFar(t, value, i) <= WrittenSoFar(t, value, i + 1)
    ensures !Supported(t.bits) ==> WrittenSoFar(t, value, i + 1) == []
    ensures t.bits == 24 ==> WrittenSoFar(t, value, i + 1) == Sample(value, t.bits)
    ensures t.bits == 8 || t.bits == 16 || t.bits == 32 ==>
              && |WrittenSoFar(t, value, i)| == i * (t.bits / 8)
              && WrittenSoFar(t, value, i + 1)[|WrittenSoFar(t, value, i)|..] == Sample(value, t.bits)
  {
    if Supported(t.bits) {
      var k := |Sample(value, t.bits)|;
      assert t.channels * t.bits == t.channels * k * 8;
      Multiply(i + 1, t.channels, k);
    }
  }

  /** What holds after `frames` frames, which end at `end`. */
  ghost predicate Generated(stream: ByteStream, t: Tone, initial: real, size: nat, theta: real, frames: nat, end: nat) {
    && IsStream(stream, t, initial) && size == FrameSize(t) > 0
    && theta == PhaseAfter(t, initial, frames) && end == FrameStart(size, frames)
  }

  lemma {:induction false} CompleteIsWritten(stream: ByteStream, t: Tone, theta: real)
    requires IsStream(stream, t, theta) && FrameSize(t) > 0 && Complete(t)
    ensures forall i :: stream.written(i)
  {
    WrittenCompletelyIff(t, theta);
    WrittenSizeIs(t, theta);
    forall i ensures stream.written(i) {
      assert IsWritten(t, i);
    }
  }

  /** What a buffer looks like around a new frame. */
  lemma {:induction false} NewFrame(was: seq<Byte>, at: nat, w: seq<Byte>, size: nat)
    requires |w| <= size && at + size <= |was|
    ensures WithPart(was, at, w)[..at] == was[..at]
    ensures w <= WithPart(was, at, w)[at..at + size]
  {
    var s := WithPart(was, at, w)[at..at + size];
    forall k | 0 <= k < |w| ensures s[k] == w[k] {
      assert s[k] == WithPart(was, at, w)[at + k];
    }
  }

  /** What is written for a frame is one stretch of the stream. */
  lemma {:induction false} WholeFrame(stream: ByteStream, t: Tone, theta: real, frame: nat, at: nat, s: seq<Byte>)
    requires FrameSize(t) > 0 && IsStream(stream, t, theta) && at == FrameStart(FrameSize(t), frame)
    requires |s| == FrameSize(t) && Written(t, PhaseAfter(t, theta, frame)) <= s
    ensures Matches(s, stream, at)
  {
    FrameStartIs(FrameSize(t), frame);
    forall k | 0 <= k < |s| && stream.written(at + k) ensures s[k] == stream.bytes(at + k) {
      FrameBytes(t, theta, frame, k);
      assert ByteAt(t, theta, at + k) == stream.bytes(at + k);
      assert IsWritten(t, at + k) == stream.written(at + k);
    }
  }
}
