/** Transfer of a terminal restore stream (crates/ctxmux-daemon/src/attachment.rs:119-132,
  495-511; crates/ctxmux-client/src/lib.rs:1559-1594). */
module TerminalSeeds {
  import opened Wrappers
  import opened Replays

  // The daemon cuts the restore bytes into the largest pieces whose frame is sure to
  // fit; the client appends pieces at the expected offsets until it has the announced
  // length.  Frame payloads are padded base64 (section 4 of RFC 4648).

  const MAX_FRAME_BYTES: nat := 0x10_0000
  const U64_MAX: nat := 0xFFFF_FFFF_FFFF_FFFF

  const PREFIX: string := "{\"type\":\"terminal_checkpoint_chunk\",\"offset\":"
  const MIDDLE: string := ",\"data\":\""
  const SUFFIX: string := "\"}"

  // ---------- The encoded frame ----------

  function Symbol(n: int): char
    requires 0 <= n < 64
  {
    if n < 26 then ('A' as int + n) as char
    else if n < 52 then ('a' as int + n - 26) as char
    else if n < 62 then ('0' as int + n - 52) as char
    else if n == 62 then '+' else '/'
  }

  /** Four symbols for the 24 bits of one group; `used` of its three bytes are data. */
  function Quad(a: Byte, b: Byte, c: Byte, used: nat): (text: string)
    ensures |text| == 4
  {
    [Symbol(a / 4),
     Symbol(a % 4 * 16 + b / 16),
     if used > 1 then Symbol(b % 16 * 4 + c / 64) else '=',
     if used > 2 then Symbol(c % 64) else '=']
  }

  /** Three bytes to a group, the last one filled up. */
  function Groups(bytes: nat): nat { if bytes <= 3 then (if bytes == 0 then 0 else 1) else 1 + Groups(bytes - 3) }

  lemma {:induction false} GroupsRoundUp(bytes: nat)
    ensures Groups(bytes) == (bytes + 2) / 3
  {
    if bytes > 3 { GroupsRoundUp(bytes - 3); }
  }

  function Base64(data: seq<Byte>): (text: string)
    ensures |text| == 4 * Groups(|data|)
  {
    if data == [] then ""
    else if |data| >= 3 then Quad(data[0], data[1], data[2], 3) + Base64(data[3..])
    else if |data| == 1 then Quad(data[0], 0, 0, 1)
    else Quad(data[0], data[1], 0, 2)
  }

  function Digit(n: nat): char
    requires n < 10
  {
    ('0' as int + n) as char
  }

  function Decimal(n: nat): (text: string)
    ensures |text| >= 1
  {
    if n < 10 then [Digit(n)] else Decimal(n / 10) + [Digit(n % 10)]
  }

  lemma {:induction false} WiderOffset(a: nat, b: nat)
    requires a <= b
    ensures |Decimal(a)| <= |Decimal(b)|
  {
    if a >= 10 { WiderOffset(a / 10, b / 10); }
  }

  function ChunkText(offset: nat, data: seq<Byte>): string {
    PREFIX + Decimal(offset) + MIDDLE + Base64(data) + SUFFIX
  }

  function EnvelopeAt(offset: nat): nat { |PREFIX| + |Decimal(offset)| + |MIDDLE| + |SUFFIX| }

  /** The envelope at the widest offset, which the daemon measures. */
  function EnvelopeBytes(): nat { EnvelopeAt(U64_MAX) }

  // ---------- The piece size ----------

  /** Whole base64 groups that fit beside an envelope of this size; None is the
      daemon's TooLarge error. */
  function ChunkBytes(envelope: nat): Option<nat> {
    var available := if envelope <= MAX_FRAME_BYTES then MAX_FRAME_BYTES - envelope else 0;
    if envelope > MAX_FRAME_BYTES || available / 4 * 3 == 0 then None else Some(available / 4 * 3)
  }

  /** Every piece up to the computed size fits its frame at every offset; one byte
      more no longer fits at the widest offset; and there is no size exactly when
      not even one byte fits there. */
  lemma ChunkBytesIsLargest(envelope: nat, n: nat)
    ensures ChunkBytes(envelope).Some? ==>
              (n <= ChunkBytes(envelope).value <==> envelope + 4 * Groups(n) <= MAX_FRAME_BYTES)
    ensures ChunkBytes(envelope).None? <==> envelope + 4 > MAX_FRAME_BYTES
  {
    if ChunkBytes(envelope).Some? { GroupsFit(n, MAX_FRAME_BYTES - envelope); }
  }

  lemma GroupsFit(n: nat, available: nat)
    ensures n <= available / 4 * 3 <==> 4 * Groups(n) <= available
  {
    GroupsRoundUp(n);
  }

  /** The daemon's own envelope always leaves room for pieces. */
  lemma PiecesExist()
    ensures ChunkBytes(EnvelopeBytes()).Some?
  {
    assert PowerOfTen(6) == 1_000_000;
    assert PowerOfTen(12) == 1_000_000_000_000;
    assert PowerOfTen(18) == 1_000_000_000_000_000_000;
    DecimalIsShort(U64_MAX, 20);
  }

  function PowerOfTen(k: nat): nat { if k == 0 then 1 else 10 * PowerOfTen(k - 1) }

  lemma {:induction false} DecimalIsShort(n: nat, k: nat)
    requires n < PowerOfTen(k) && k > 0
    ensures |Decimal(n)| <= k
  {
    if n >= 10 { DecimalIsShort(n / 10, k - 1); }
  }

  lemma ChunkTextLength(offset: nat, data: seq<Byte>)
    ensures |ChunkText(offset, data)| == EnvelopeAt(offset) + 4 * Groups(|data|)
  {
  }

  /** Sized for the widest offset, a piece fits its frame at every offset. */
  lemma ChunkFits(offset: nat, widest: nat, data: seq<Byte>)
    requires offset <= widest && ChunkBytes(EnvelopeAt(widest)).Some?
    requires |data| <= ChunkBytes(EnvelopeAt(widest)).value
    ensures |ChunkText(offset, data)| <= MAX_FRAME_BYTES
  {
    WiderOffset(offset, widest);
    ChunkBytesIsLargest(EnvelopeAt(widest), |data|);
    ChunkTextLength(offset, data);
  }

  /** One byte more and the frame is too long at the widest offset. */
  lemma LongerDoesNotFit(widest: nat, data: seq<Byte>)
    requires ChunkBytes(EnvelopeAt(widest)).Some? && |data| > ChunkBytes(EnvelopeAt(widest)).value
    ensures |ChunkText(widest, data)| > MAX_FRAME_BYTES
  {
    var envelope, n := EnvelopeAt(widest), |data|;
    ChunkBytesIsLargest(envelope, n);
    ChunkTextLength(widest, data);
  }

  // ---------- Sending and rebuilding ----------

  datatype SeedFrame = CheckpointChunk(offset: nat, data: seq<Byte>) | Error | Unexpected

  /** The restore bytes cut into pieces of `size`, with their offsets. */
  function Cut(restore: seq<Byte>, size: nat, offset: nat): seq<SeedFrame>
    requires size > 0
    decreases |restore|
  {
    if restore == [] then []
    else if |restore| <= size then [CheckpointChunk(offset, restore)]
    else [CheckpointChunk(offset, restore[..size])] + Cut(restore[size..], size, offset + size)
  }

  method SendSeed(restore: seq<Byte>, size: nat) returns (frames: seq<SeedFrame>)
    requires size > 0
    ensures frames == Cut(restore, size, 0)
  {
    frames := [];
    var index, sent := 0, 0;
    assert restore[0..] == restore;
    while sent < |restore|
      invariant sent <= |restore| && (sent < |restore| ==> sent == index * size)
      invariant frames + Cut(restore[sent..], size, sent) == Cut(restore, size, 0)
    {
      var end := if |restore| - sent <= size then |restore| else sent + size;
      var rest := restore[sent..];
      frames := frames + [CheckpointChunk(index * size, restore[sent..end])];
      if end < |restore| {
        assert rest[..size] == restore[sent..end] && rest[size..] == restore[end..];
        NextOffset(index, size);
      } else {
        assert restore[sent..end] == rest && restore[end..] == [];
      }
      sent, index := end, index + 1;
    }
    assert restore[sent..] == [];
  }

  lemma NextOffset(index: nat, size: nat)
    ensures (index + 1) * size == index * size + size
  {
  }

  datatype SeedReception = Rebuilt(restore: seq<Byte>, unread: seq<SeedFrame>) | SeedFailed | SeedStarved

  function Rebuild(restore: seq<Byte>, announced: nat, frames: seq<SeedFrame>): SeedReception
    decreases |frames|
  {
    if |restore| >= announced then Rebuilt(restore, frames)
    else if frames == [] then SeedStarved
    else match frames[0]
      case CheckpointChunk(offset, data) =>
        if offset == |restore| && data != [] && offset + |data| <= U64_MAX && offset + |data| <= announced
        then Rebuild(restore + data, announced, frames[1..])
        else SeedFailed
      case _ => SeedFailed
  }

  method ReceiveSeed(announced: nat, frames: seq<SeedFrame>) returns (got: SeedReception)
    ensures got == Rebuild([], announced, frames)
  {
    var restore, i := [], 0;
    assert frames[0..] == frames;
    while |restore| < announced
      invariant i <= |frames|
      invariant Rebuild(restore, announced, frames[i..]) == Rebuild([], announced, frames)
      decreases announced - |restore|
    {
      if i == |frames| {
        return SeedStarved;
      }
      var frame := frames[i];
      assert frames[i..][1..] == frames[i + 1..];
      i := i + 1;
      if frame.CheckpointChunk? && frame.offset == |restore| && frame.data != []
         && frame.offset + |frame.data| <= U64_MAX && frame.offset + |frame.data| <= announced {
        restore := restore + frame.data;
      } else {
        return SeedFailed;
      }
    }
    got := Rebuilt(restore, frames[i..]);
  }

  /** Cutting and rebuilding is the identity, with nothing left over, and every
      frame on the way fits the protocol. */
  lemma {:induction false} SeedRoundTrip(whole: seq<Byte>, done: seq<Byte>, restore: seq<Byte>, size: nat, more: seq<SeedFrame>)
    requires whole == done + restore && size > 0 && |whole| <= U64_MAX
    ensures Rebuild(done, |whole|, Cut(restore, size, |done|) + more) == Rebuilt(whole, more)
    ensures forall i :: 0 <= i < |Cut(restore, size, |done|)| ==>
              var f := Cut(restore, size, |done|)[i]; f.CheckpointChunk? && 0 < |f.data| <= size && f.offset <= U64_MAX
    decreases |restore|
  {
    var frames := Cut(restore, size, |done|);
    if restore == [] {
      assert frames + more == more;
    } else if |restore| <= size {
      assert (frames + more)[1..] == more;
    } else {
      SeedRoundTrip(whole, done + restore[..size], restore[size..], size, more);
      assert (frames + more)[1..] == Cut(restore[size..], size, |done| + size) + more;
    }
  }

  /** The data of these pieces together. */
  function Joined(frames: seq<SeedFrame>): seq<Byte> {
    if frames == [] then [] else (if frames[0].CheckpointChunk? then frames[0].data else []) + Joined(frames[1..])
  }

  /** The pieces follow each other from this offset without hole or overlap, none empty. */
  predicate Follow(frames: seq<SeedFrame>, offset: nat) {
    frames == [] || (frames[0].CheckpointChunk? && frames[0].offset == offset && frames[0].data != []
                     && Follow(frames[1..], offset + |frames[0].data|))
  }

  lemma OneMore(restore: seq<Byte>, frames: seq<SeedFrame>, n: nat)
    requires 0 < n <= |frames| && frames[0].CheckpointChunk?
    ensures var taken, rest := frames[..n], frames[1..][..n - 1];
            && taken[0] == frames[0] && taken[1..] == rest && frames[1..][n - 1..] == frames[n..]
            && restore + frames[0].data + Joined(rest) == restore + Joined(taken)
  {
  }

  /** Any peer: a success has read n pieces that follow each other from where it was, joined
      them in that order, and has exactly the announced length; it takes no frame more. */
  lemma {:induction false} RebuildIs(restore: seq<Byte>, announced: nat, frames: seq<SeedFrame>) returns (n: nat)
    requires |restore| <= announced
    ensures n <= |frames|
    ensures var got := Rebuild(restore, announced, frames);
            got.Rebuilt? ==>
              && got.unread == frames[n..] && |got.restore| == announced
              && Follow(frames[..n], |restore|) && got.restore == restore + Joined(frames[..n])
    decreases |frames|
  {
    n := 0;
    assert restore + [] == restore;
    if |restore| < announced && Rebuild(restore, announced, frames).Rebuilt? {
      var more := RebuildIs(restore + frames[0].data, announced, frames[1..]);
      n := more + 1;
      OneMore(restore, frames, n);
    }
  }

  /** The terminal seed of one attachment, from end to end. */
  lemma SeedArrives(restore: seq<Byte>, more: seq<SeedFrame>)
    requires |restore| <= U64_MAX
    ensures ChunkBytes(EnvelopeBytes()).Some?
    ensures var size := ChunkBytes(EnvelopeBytes()).value;
            && Rebuild([], |restore|, Cut(restore, size, 0) + more) == Rebuilt(restore, more)
            && forall i :: 0 <= i < |Cut(restore, size, 0)| ==>
                 var f := Cut(restore, size, 0)[i]; f.CheckpointChunk? && |ChunkText(f.offset, f.data)| <= MAX_FRAME_BYTES
  {
    PiecesExist();
    var size := ChunkBytes(EnvelopeBytes()).value;
    var frames := Cut(restore, size, 0);
    assert [] + restore == restore;
    SeedRoundTrip(restore, [], restore, size, more);
    forall i | 0 <= i < |frames| ensures frames[i].CheckpointChunk? && |ChunkText(frames[i].offset, frames[i].data)| <= MAX_FRAME_BYTES {
      ChunkFits(frames[i].offset, U64_MAX, frames[i].data);
    }
  }
}
