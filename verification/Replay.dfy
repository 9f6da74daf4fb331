/** Replay paging and its reassembly (crates/ctxmux-daemon/src/attachment.rs:95-175,
  513-528; crates/ctxmux-client/src/lib.rs:1602-1677). */
module Replays {
  import opened Wrappers

  // The daemon pages through retained output while older output may be evicted under
  // it; the client rebuilds one contiguous stretch.  `log` is everything the Run ever
  // wrote; a page is any answer the output stores may give (PageOk).

  type Byte = b: int | 0 <= b < 256

  datatype Chunk = Chunk(start: nat, end: nat, data: seq<Byte>)

  datatype Page = Page(first: nat, chunks: seq<Chunk>)

  datatype Frame = Output(chunk: Chunk) | Window(first: nat, latest: nat) | ErrorFrame | OtherFrame

  function Max(a: nat, b: nat): nat { if a < b then b else a }

  function Min(a: nat, b: nat): nat { if a < b then a else b }

  // ---------- Pages ----------

  /** Nonempty pieces of the log, one after the other, from `from`. */
  predicate Tiles(log: seq<Byte>, chunks: seq<Chunk>, from: nat) {
    chunks == [] ||
    (&& from == chunks[0].start < chunks[0].end <= |log|
     && chunks[0].data == log[chunks[0].start..chunks[0].end]
     && Tiles(log, chunks[1..], chunks[0].end))
  }

  function EndOf(chunks: seq<Chunk>, from: nat): nat {
    if chunks == [] then from else chunks[|chunks| - 1].end
  }

  /** Everything retained from the cursor on is offered, as far as the page goes;
      a page is empty only when nothing is left before `through`. */
  predicate PageOk(log: seq<Byte>, cursor: nat, through: nat, page: Page) {
    var first := Max(cursor, page.first);
    && through <= |log|
    && (if first < through
        then page.chunks != [] && Tiles(log, page.chunks, first) && EndOf(page.chunks, first) <= through
        else page.chunks == [])
  }

  function Outputs(chunks: seq<Chunk>): seq<Frame> {
    if chunks == [] then [] else [Output(chunks[0])] + Outputs(chunks[1..])
  }

  function Bytes(chunks: seq<Chunk>): seq<Byte> {
    if chunks == [] then [] else chunks[0].data + Bytes(chunks[1..])
  }

  lemma {:induction false} BytesAppend(chunks: seq<Chunk>, chunk: Chunk)
    ensures Bytes(chunks + [chunk]) == Bytes(chunks) + chunk.data
  {
    if chunks == [] {
      assert chunks + [chunk] == [chunk];
    } else {
      BytesAppend(chunks[1..], chunk);
      assert (chunks + [chunk])[1..] == chunks[1..] + [chunk];
    }
  }

  lemma {:induction false} TilesAdvance(log: seq<Byte>, chunks: seq<Chunk>, from: nat)
    requires Tiles(log, chunks, from)
    ensures chunks != [] ==> from < EndOf(chunks, from) <= |log|
  {
    if |chunks| > 1 { TilesAdvance(log, chunks[1..], chunks[0].end); }
  }

  // ---------- The daemon's paging loop ----------

  /** Frames written for the pages the stores gave, and whether the loop is over. */
  datatype Emission = Emission(frames: seq<Frame>, over: bool)

  function Emit(cursor: nat, through: nat, seeded: bool, pages: seq<Option<Page>>): Emission
    decreases |pages|
  {
    if cursor >= through then Emission([], true)
    else if pages == [] then Emission([], false)
    else if pages[0].None? then Emission([ErrorFrame], true)
    else
      var page := pages[0].value;
      if page.first > cursor && seeded then Emission([ErrorFrame], true) else
      var next := EndOf(page.chunks, through);
      if next <= cursor then Emission(WindowFor(cursor, through, page), true) else
      var rest := Emit(next, through, seeded, pages[1..]);
      Emission(WindowFor(cursor, through, page) + Outputs(page.chunks) + rest.frames, rest.over)
  }

  /** The notice that output up to the page's floor is gone. */
  function WindowFor(cursor: nat, through: nat, page: Page): seq<Frame> {
    if page.first > cursor then [Window(Min(page.first, through), through)] else []
  }

  /** The pages answer the cursors the loop asks with. */
  ghost predicate PagesOk(log: seq<Byte>, cursor: nat, through: nat, pages: seq<Option<Page>>)
    decreases |pages|
  {
    pages != [] && cursor < through && pages[0].Some? ==>
      && PageOk(log, cursor, through, pages[0].value)
      && PagesOk(log, EndOf(pages[0].value.chunks, through), through, pages[1..])
  }

  method SendReplay(chunks: seq<Chunk>) returns (frames: seq<Frame>)
    ensures frames == Outputs(chunks)
  {
    frames := [];
    for i := 0 to |chunks|
      invariant frames + Outputs(chunks[i..]) == Outputs(chunks)
    {
      frames := frames + [Output(chunks[i])];
    }
  }

  lemma PageJoins(sofar: seq<Frame>, window: seq<Frame>, output: seq<Frame>, tail: seq<Frame>)
    ensures (if window == [] then sofar else sofar + window) + output + tail == sofar + (window + output + tail)
  {
  }

  /** The loop after the header: `chunks` came with the snapshot. */
  method StreamReplay(replayStart: nat, floor: nat, through: nat, seeded: bool, chunks: seq<Chunk>, pages: seq<Option<Page>>)
    returns (frames: seq<Frame>, over: bool)
    ensures var sent := Emit(EndOf(chunks, Max(replayStart, floor)), through, seeded, pages);
            frames == Outputs(chunks) + sent.frames && over == sent.over
  {
    var cursor := EndOf(chunks, Max(replayStart, floor));
    ghost var whole := Emit(cursor, through, seeded, pages);
    ghost var head := Outputs(chunks);
    frames := SendReplay(chunks);
    var i := 0;
    assert pages[0..] == pages && frames + whole.frames == head + whole.frames;
    while cursor < through && i < |pages|
      invariant i <= |pages|
      invariant var rest := Emit(cursor, through, seeded, pages[i..]);
                frames + rest.frames == head + whole.frames && rest.over == whole.over
    {
      assert pages[i..][1..] == pages[i + 1..];
      ghost var sofar, rest := frames, Emit(cursor, through, seeded, pages[i..]);
      if pages[i].None? {
        frames := frames + [ErrorFrame];
        return frames, true;
      }
      var page := pages[i].value;
      if page.first > cursor {
        if seeded {
          frames := frames + [ErrorFrame];
          return frames, true;
        }
        frames := frames + [Window(Min(page.first, through), through)];
      }
      var next := EndOf(page.chunks, through);
      if next <= cursor {
        return frames, true;
      }
      var output := SendReplay(page.chunks);
      frames := frames + output;
      ghost var tail := Emit(next, through, seeded, pages[i + 1..]);
      PageJoins(sofar, WindowFor(cursor, through, page), output, tail.frames);
      assert frames + tail.frames == sofar + rest.frames && rest.over == tail.over;
      cursor := next;
      i := i + 1;
    }
    over := cursor >= through;
  }

  // ---------- The client's reassembly ----------

  datatype Reader = Reader(chunks: seq<Chunk>, floor: nat, expected: nat, truncated: bool)

  datatype Take = More(reader: Reader) | Complete(reader: Reader) | Refused

  function TakeFrame(r: Reader, latest: nat, seeded: bool, frame: Frame): Take {
    match frame
    case Output(chunk) =>
      if chunk.start == r.expected < chunk.end <= latest && chunk.end - chunk.start == |chunk.data| then
        var next := r.(chunks := r.chunks + [chunk], expected := chunk.end);
        if chunk.end == latest then Complete(next) else More(next)
      else Refused
    case Window(first, head) =>
      if head == latest && r.expected < first <= latest && !seeded then
        var next := Reader([], first, first, true);
        if first == latest then Complete(next) else More(next)
      else Refused
    case _ => Refused
  }

  datatype Reception = Finished(reader: Reader, unread: seq<Frame>) | Failed | Starved(reader: Reader)

  function Read(r: Reader, latest: nat, seeded: bool, frames: seq<Frame>): Reception
    decreases |frames|
  {
    if frames == [] then Starved(r) else
    match TakeFrame(r, latest, seeded, frames[0])
    case More(next) => Read(next, latest, seeded, frames[1..])
    case Complete(last) => Finished(last, frames[1..])
    case Refused => Failed
  }

  function Receive(after: nat, floor: nat, latest: nat, truncated: bool, seeded: bool, frames: seq<Frame>): Reception {
    var r := Reader([], floor, Max(after, floor), truncated);
    if after >= latest || r.expected >= latest then Finished(r, frames) else Read(r, latest, seeded, frames)
  }

  method ReceiveReplay(after: nat, floor: nat, latest: nat, truncated: bool, seeded: bool, frames: seq<Frame>)
    returns (reception: Reception)
    ensures reception == Receive(after, floor, latest, truncated, seeded, frames)
  {
    var r := Reader([], floor, Max(after, floor), truncated);
    if after >= latest || r.expected >= latest {
      return Finished(r, frames);
    }
    var i := 0;
    assert frames[0..] == frames;
    while i < |frames|
      invariant i <= |frames| && r.expected < latest
      invariant Read(r, latest, seeded, frames[i..]) == Receive(after, floor, latest, truncated, seeded, frames)
      decreases latest - r.expected
    {
      var frame := frames[i];
      assert frames[i..][1..] == frames[i + 1..];
      i := i + 1;
      if frame.Output? && frame.chunk.start == r.expected < frame.chunk.end <= latest
         && frame.chunk.end - frame.chunk.start == |frame.chunk.data| {
        r := r.(chunks := r.chunks + [frame.chunk], expected := frame.chunk.end);
        if frame.chunk.end == latest {
          return Finished(r, frames[i..]);
        }
      } else if frame.Window? && frame.latest == latest && r.expected < frame.first <= latest {
        if seeded {
          return Failed;
        }
        r := Reader([], frame.first, frame.first, true);
        if r.expected == latest {
          return Finished(r, frames[i..]);
        }
      } else {
        return Failed;
      }
    }
    reception := Starved(r);
  }

  // ---------- Whatever the peer sends ----------

  /** Chunks follow each other without hole or overlap, each as long as it says. */
  predicate Contiguous(chunks: seq<Chunk>, from: nat, to: nat) {
    if chunks == [] then from == to else
    && from == chunks[0].start < chunks[0].end
    && |chunks[0].data| == chunks[0].end - chunks[0].start
    && Contiguous(chunks[1..], chunks[0].end, to)
  }

  lemma {:induction false} ContiguousAppend(chunks: seq<Chunk>, from: nat, chunk: Chunk)
    requires Contiguous(chunks, from, chunk.start)
    requires chunk.start < chunk.end && |chunk.data| == chunk.end - chunk.start
    ensures Contiguous(chunks + [chunk], from, chunk.end)
  {
    if chunks == [] {
      assert chunks + [chunk] == [chunk];
    } else {
      ContiguousAppend(chunks[1..], chunks[0].end, chunk);
      assert (chunks + [chunk])[1..] == chunks[1..] + [chunk];
    }
  }

  /** Any peer: a success always yields chunks that tile exactly the stretch from the
      requested byte, or the final floor if that is later, to the head. */
  lemma {:induction false} SuccessTiles(after: nat, r: Reader, latest: nat, seeded: bool, frames: seq<Frame>)
    requires r.expected < latest && Contiguous(r.chunks, Max(after, r.floor), r.expected)
    ensures var got := Read(r, latest, seeded, frames);
            got.Finished? ==> Contiguous(got.reader.chunks, Max(after, got.reader.floor), latest)
    decreases |frames|
  {
    if frames != [] {
      match TakeFrame(r, latest, seeded, frames[0])
      case More(next) =>
        if frames[0].Output? { ContiguousAppend(r.chunks, Max(after, r.floor), frames[0].chunk); }
        else { assert r.floor <= r.expected && after <= r.expected by { ContiguousOrder(r.chunks, Max(after, r.floor), r.expected); } }
        SuccessTiles(after, next, latest, seeded, frames[1..]);
      case Complete(_) =>
        if frames[0].Output? { ContiguousAppend(r.chunks, Max(after, r.floor), frames[0].chunk); }
        else { ContiguousOrder(r.chunks, Max(after, r.floor), r.expected); }
      case Refused =>
    }
  }

  lemma {:induction false} ContiguousOrder(chunks: seq<Chunk>, from: nat, to: nat)
    requires Contiguous(chunks, from, to)
    ensures from <= to
  {
    if chunks != [] { ContiguousOrder(chunks[1..], chunks[0].end, to); }
  }

  /** Any peer: no more frames are read than bytes are missing. */
  lemma {:induction false} ReadsAtMost(r: Reader, latest: nat, seeded: bool, frames: seq<Frame>)
    requires r.expected < latest
    ensures var got := Read(r, latest, seeded, frames);
            (got.Finished? ==> |frames| - |got.unread| <= latest - r.expected)
            && (|frames| >= latest - r.expected ==> !got.Starved?)
    decreases |frames|
  {
    if frames != [] && TakeFrame(r, latest, seeded, frames[0]).More? {
      ReadsAtMost(TakeFrame(r, latest, seeded, frames[0]).reader, latest, seeded, frames[1..]);
    }
  }

  /** What the client takes, from any peer: an output exactly at the expected byte, as long
      as it says, not past the head; and, in a view without a terminal seed, a notice of the
      same head that moves the floor past the expected byte.  Anything else is refused. */
  lemma FrameTakenIff(r: Reader, latest: nat, seeded: bool, frame: Frame)
    ensures TakeFrame(r, latest, seeded, frame).Refused? <==>
            match frame {
              case Output(chunk) =>
                chunk.start != r.expected || chunk.end <= chunk.start || chunk.end > latest || |chunk.data| != chunk.end - chunk.start
              case Window(first, head) => seeded || head != latest || first <= r.expected || first > latest
              case _ => true
            }
    ensures TakeFrame(r, latest, seeded, frame).Complete? <==>
            !TakeFrame(r, latest, seeded, frame).Refused? && latest == if frame.Output? then frame.chunk.end else frame.first
  {
  }

  predicate HasWindow(frames: seq<Frame>) { exists i :: 0 <= i < |frames| && frames[i].Window? }

  /** The chunks that stay after these frames: all since the last notice. */
  function ChunksSince(chunks: seq<Chunk>, frames: seq<Frame>): seq<Chunk>
    decreases |frames|
  {
    if frames == [] then chunks
    else match frames[0]
      case Output(chunk) => ChunksSince(chunks + [chunk], frames[1..])
      case _ => ChunksSince([], frames[1..])
  }

  /** The floor after these frames: that of the last notice. */
  function FloorAfter(floor: nat, frames: seq<Frame>): nat
    decreases |frames|
  {
    if frames == [] then floor else FloorAfter(if frames[0].Window? then frames[0].first else floor, frames[1..])
  }

  lemma OneTaken(frames: seq<Frame>, n: nat)
    requires 0 < n <= |frames|
    ensures var taken, rest := frames[..n], frames[1..][..n - 1];
            && taken[0] == frames[0] && taken[1..] == rest && frames[1..][n - 1..] == frames[n..]
            && (forall i :: 1 <= i < n ==> taken[i] == rest[i - 1])
            && (HasWindow(taken) <==> frames[0].Window? || HasWindow(rest))
  {
    var taken, rest := frames[..n], frames[1..][..n - 1];
    if i :| 0 <= i < |rest| && rest[i].Window? { assert taken[i + 1].Window?; }
  }

  /** What taking these frames makes of a reader: they are outputs and notices of the head
      only; its chunks are the outputs since the last notice, its floor is that notice's, and
      it is marked truncated exactly if it was so before or some notice was taken. */
  ghost predicate Taken(r: Reader, latest: nat, seeded: bool, taken: seq<Frame>, last: Reader) {
    && (forall i :: 0 <= i < |taken| ==> taken[i].Output? || (taken[i].Window? && taken[i].latest == latest && !seeded))
    && last.chunks == ChunksSince(r.chunks, taken)
    && last.floor == FloorAfter(r.floor, taken)
    && (last.truncated <==> r.truncated || HasWindow(taken))
  }

  lemma TakenMore(r: Reader, latest: nat, seeded: bool, frames: seq<Frame>, n: nat, last: Reader)
    requires 0 < n <= |frames|
    requires var take := TakeFrame(r, latest, seeded, frames[0]);
             !take.Refused? && Taken(take.reader, latest, seeded, frames[1..][..n - 1], last)
    ensures Taken(r, latest, seeded, frames[..n], last)
  {
    OneTaken(frames, n);
  }

  /** Any peer: a success has taken the first n frames, no more, and stands at the head. */
  lemma {:induction false} ReceptionIs(r: Reader, latest: nat, seeded: bool, frames: seq<Frame>) returns (n: nat)
    requires r.expected < latest
    ensures n <= |frames|
    ensures var got := Read(r, latest, seeded, frames);
            got.Finished? ==> 0 < n && got.unread == frames[n..] && got.reader.expected == latest && Taken(r, latest, seeded, frames[..n], got.reader)
    decreases |frames|
  {
    n := 0;
    if frames != [] {
      var step := TakeFrame(r, latest, seeded, frames[0]);
      if step.More? {
        var more := ReceptionIs(step.reader, latest, seeded, frames[1..]);
        n := more + 1;
        var got := Read(step.reader, latest, seeded, frames[1..]);
        if got.Finished? { TakenMore(r, latest, seeded, frames, n, got.reader); }
      } else if step.Complete? {
        n := 1;
        TakenMore(r, latest, seeded, frames, 1, step.reader);
      }
    }
  }

  // ---------- Daemon and client together ----------

  /** The client has exactly the log from the later of start and floor to its cursor. */
  ghost predicate InStep(log: seq<Byte>, after: nat, r: Reader) {
    && Max(after, r.floor) <= r.expected <= |log|
    && Bytes(r.chunks) == log[Max(after, r.floor)..r.expected]
  }

  lemma TakeChunk(log: seq<Byte>, after: nat, r: Reader, latest: nat, seeded: bool, chunk: Chunk)
    requires InStep(log, after, r) && latest <= |log|
    requires r.expected == chunk.start < chunk.end <= latest && chunk.data == log[chunk.start..chunk.end]
    ensures var next := r.(chunks := r.chunks + [chunk], expected := chunk.end);
            && InStep(log, after, next)
            && TakeFrame(r, latest, seeded, Output(chunk)) == if chunk.end == latest then Complete(next) else More(next)
  {
    BytesAppend(r.chunks, chunk);
    var from := Max(after, r.floor);
    assert log[from..chunk.end] == log[from..chunk.start] + log[chunk.start..chunk.end];
  }

  /** One page's output frames move the client to the end of the page. */
  lemma {:induction false} ReadChunks(log: seq<Byte>, after: nat, r: Reader, latest: nat, seeded: bool, chunks: seq<Chunk>, more: seq<Frame>)
    returns (last: Reader)
    requires InStep(log, after, r) && latest <= |log| && r.expected < latest
    requires chunks != [] && Tiles(log, chunks, r.expected) && EndOf(chunks, 0) <= latest
    ensures InStep(log, after, last) && last.expected == EndOf(chunks, 0) && last.floor == r.floor
    ensures Read(r, latest, seeded, Outputs(chunks) + more) ==
            if last.expected == latest then Finished(last, more) else Read(last, latest, seeded, more)
    decreases |chunks|
  {
    var frames := Outputs(chunks) + more;
    assert frames[0] == Output(chunks[0]) && frames[1..] == Outputs(chunks[1..]) + more;
    TilesAdvance(log, chunks[1..], chunks[0].end);
    TakeChunk(log, after, r, latest, seeded, chunks[0]);
    var next := r.(chunks := r.chunks + [chunks[0]], expected := chunks[0].end);
    if |chunks| == 1 {
      last := next;
      assert Outputs(chunks[1..]) + more == more;
    } else {
      last := ReadChunks(log, after, next, latest, seeded, chunks[1..], more);
    }
  }

  /** A failed store read, or an eviction under a terminal seed. */
  predicate Hits(cursor: nat, through: nat, seeded: bool, pages: seq<Option<Page>>)
    decreases |pages|
  {
    cursor < through && pages != [] &&
    (pages[0].None? || (seeded && pages[0].value.first > cursor)
     || Hits(EndOf(pages[0].value.chunks, through), through, seeded, pages[1..]))
  }

  /** What the loop does with one page that stops nothing. */
  lemma PageSplits(log: seq<Byte>, cursor: nat, through: nat, seeded: bool, pages: seq<Option<Page>>)
    requires cursor < through <= |log| && PagesOk(log, cursor, through, pages)
    requires pages != [] && pages[0].Some? && !(seeded && pages[0].value.first > cursor)
    requires Emit(cursor, through, seeded, pages).over
    ensures var page := pages[0].value;
            var next := EndOf(page.chunks, through);
            var rest := Emit(next, through, seeded, pages[1..]);
            && cursor < next <= through && rest.over && PagesOk(log, next, through, pages[1..])
            && Hits(cursor, through, seeded, pages) == Hits(next, through, seeded, pages[1..])
            && Emit(cursor, through, seeded, pages).frames == WindowFor(cursor, through, page) + (Outputs(page.chunks) + rest.frames)
            && (next == through ==> rest.frames == [])
            && (Max(cursor, page.first) >= through ==> page.chunks == [] && next == through)
            && (Max(cursor, page.first) < through ==>
                  page.chunks != [] && Tiles(log, page.chunks, Max(cursor, page.first)) && EndOf(page.chunks, 0) == next)
  {
    var page := pages[0].value;
    if page.chunks != [] { TilesAdvance(log, page.chunks, Max(cursor, page.first)); }
  }

  /** From any point where they agree, the loop and the client finish together: the
      client takes every frame, needs no more, and has the log; it fails exactly
      when the daemon reported that it could not go on. */
  lemma {:induction false} PagesCompose(log: seq<Byte>, after: nat, r: Reader, through: nat, seeded: bool, pages: seq<Option<Page>>)
    requires InStep(log, after, r) && r.expected < through <= |log|
    requires PagesOk(log, r.expected, through, pages)
    requires Emit(r.expected, through, seeded, pages).over
    ensures var got := Read(r, through, seeded, Emit(r.expected, through, seeded, pages).frames);
            if Hits(r.expected, through, seeded, pages) then got.Failed?
            else got.Finished? && got.unread == [] && InStep(log, after, got.reader) && got.reader.expected == through
    decreases |pages|
  {
    if pages[0].None? || (seeded && pages[0].value.first > r.expected) {
    } else {
      PageSplits(log, r.expected, through, seeded, pages);
      var page := pages[0].value;
      var next := EndOf(page.chunks, through);
      var rest := Emit(next, through, seeded, pages[1..]).frames;
      var here := AfterWindow(log, after, r, through, seeded, page, Outputs(page.chunks) + rest);
      if here.expected < through {
        var last := ReadChunks(log, after, here, through, seeded, page.chunks, rest);
        if next < through { PagesCompose(log, after, last, through, seeded, pages[1..]); }
      } else {
        assert Outputs(page.chunks) + rest == [];
      }
    }
  }

  /** The client at the start of a page, past its window notice if there was one. */
  lemma AfterWindow(log: seq<Byte>, after: nat, r: Reader, through: nat, seeded: bool, page: Page, more: seq<Frame>) returns (here: Reader)
    requires InStep(log, after, r) && r.expected < through <= |log| && (page.first > r.expected ==> !seeded)
    ensures InStep(log, after, here) && here.expected == Min(Max(r.expected, page.first), through)
    ensures Read(r, through, seeded, WindowFor(r.expected, through, page) + more) ==
            if here.expected == through then Finished(here, more) else Read(here, through, seeded, more)
  {
    var frames := WindowFor(r.expected, through, page) + more;
    if page.first > r.expected {
      var first := Min(page.first, through);
      here := Reader([], first, first, true);
      assert log[first..first] == [];
      assert frames[0] == Window(first, through) && frames[1..] == more;
    } else {
      here := r;
      assert frames == more;
    }
  }

  /** Daemon replay and client reassembly compose to the identity: for any retained
      floors, page boundaries and evictions along the way, the client ends, unless
      the daemon reported a failure, with exactly the bytes of the log from the
      later of the requested byte and the final floor up to the head. */
  lemma ReplayComposes(log: seq<Byte>, after: nat, header: Page, through: nat, truncated: bool, seeded: bool, pages: seq<Option<Page>>)
    returns (sent: seq<Frame>, got: Reception)
    requires PageOk(log, after, through, header)
    requires PagesOk(log, EndOf(header.chunks, Max(after, header.first)), through, pages)
    requires Emit(EndOf(header.chunks, Max(after, header.first)), through, seeded, pages).over
    ensures sent == Outputs(header.chunks) + Emit(EndOf(header.chunks, Max(after, header.first)), through, seeded, pages).frames
    ensures got == Receive(after, header.first, through, truncated, seeded, sent)
    ensures got.Failed? <==> Hits(EndOf(header.chunks, Max(after, header.first)), through, seeded, pages)
    ensures !got.Failed? ==> got.Finished? && got.unread == []
    ensures got.Finished? ==> Bytes(got.reader.chunks) == (var from := Max(after, got.reader.floor); if from <= through then log[from..through] else [])
  {
    var first := Max(after, header.first);
    var rest := Emit(EndOf(header.chunks, first), through, seeded, pages).frames;
    sent := Outputs(header.chunks) + rest;
    got := Receive(after, header.first, through, truncated, seeded, sent);
    if first < through {
      var r := Reader([], header.first, first, truncated);
      assert log[first..first] == [];
      TilesAdvance(log, header.chunks, first);
      var last := ReadChunks(log, after, r, through, seeded, header.chunks, rest);
      if last.expected < through { PagesCompose(log, after, last, through, seeded, pages); }
    } else {
      assert sent == [];
      if first == through { assert log[first..through] == []; }
    }
  }

  /** The loop ends: every page moves the cursor, so it asks for at most as many
      pages as bytes were missing. */
  lemma {:induction false} PagingEnds(log: seq<Byte>, cursor: nat, through: nat, seeded: bool, pages: seq<Option<Page>>)
    requires PagesOk(log, cursor, through, pages) && |pages| >= through - cursor
    ensures Emit(cursor, through, seeded, pages).over
    decreases |pages|
  {
    if cursor < through && pages[0].Some? {
      var page := pages[0].value;
      if page.chunks != [] { TilesAdvance(log, page.chunks, Max(cursor, page.first)); }
      PagingEnds(log, EndOf(page.chunks, through), through, seeded, pages[1..]);
    }
  }
}
