/** The bounded capture of one tmux output stream: a head file, and a tail kept as a ring in memory
    and in a second file. Mirrors `StreamCapture` of src/jobs/tmux-capture-wrapper.ts and the live
    reader in src/jobs/tmux-session-runner.service.ts, on bytes. */
module StreamCapture {
  import opened Ascii
  import opened Sequences

  type Byte = x: int | 0 <= x < 256

  type Bytes = seq<Byte>

  /** The marker that the wrapper writes and that the live reader inserts. */
  const LIVE_MARKER: Bytes := Codes("\n...[live output truncated]...\n")

  // Appending a buffer piece by piece.
  lemma LastNPiece(x: Bytes, buffer: Bytes, offset: nat, amount: nat, n: nat)
    requires offset + amount <= |buffer|
    ensures LastN(LastN(x + buffer[..offset], n) + buffer[offset..offset + amount], n) == LastN(x + buffer[..offset + amount], n)
  {
    LastNAppend(x + buffer[..offset], buffer[offset..offset + amount], n);
    assert x + buffer[..offset] + buffer[offset..offset + amount] == x + buffer[..offset + amount];
  }

  /** The size limit of one stream and the marker that stands for what is left out. */
  datatype Layout = Layout(cap: nat, marker: Bytes) {
    // The wrapper refuses any other layout before it opens a file.
    predicate Accepted() {
      |marker| < cap
    }

    function HeadCap(): nat
      requires Accepted()
    {
      (cap - |marker| + 1) / 2
    }

    function TailCap(): nat
      requires Accepted()
    {
      (cap - |marker|) / 2
    }

    /** What capturing `stream` must leave: the stream itself, or its first bytes, the marker and its last bytes. */
    function Expected(stream: Bytes): Bytes
      requires Accepted()
    {
      if |stream| <= cap then stream
      else stream[..HeadCap()] + marker + stream[|stream| - TailCap()..]
    }

    /** It is the stream itself when the stream fits. Otherwise it fills the cap: the beginning of the stream, the marker, and
        the end of the stream, with as much of the beginning as of the end or one byte more. */
    lemma ExpectedSize(stream: Bytes)
      requires Accepted()
      ensures |Expected(stream)| == if |stream| <= cap then |stream| else cap
      ensures |stream| <= cap ==> Expected(stream) == stream
      ensures |stream| > cap ==> Expected(stream) != stream
      ensures |stream| > cap ==>
                exists head: nat, end: nat :: Bounded(Expected(stream), stream, head, end)
    {
      if |stream| > cap {
        assert Bounded(Expected(stream), stream, HeadCap(), TailCap());
      }
    }

    /** `image` is the first bytes of `stream`, the marker and its last bytes, and fills the cap. */
    predicate Bounded(image: Bytes, stream: Bytes, head: nat, end: nat) {
      && head + |marker| + end == cap && 0 <= head - end <= 1 && head <= |stream| && end <= |stream|
      && image == stream[..head] + marker + stream[|stream| - end..]
    }
  }

  /** With the marker that the runner passes, the wrapper accepts exactly the caps of more than 31 bytes. */
  lemma AcceptedCaps(cap: nat)
    ensures Layout(cap, LIVE_MARKER).Accepted() <==> cap > 31
  {
    assert |LIVE_MARKER| == 31;
  }

  /** The bytes of a ring in the order they were written. */
  function InOrder(ring: Bytes, start: nat, length: nat): (r: Bytes)
    requires length <= |ring| && start <= |ring|
    ensures |r| == length
  {
    if start + length <= |ring| then ring[start..start + length]
    else ring[start..] + ring[..start + length - |ring|]
  }

  /** A positioned write, which extends the file when it runs past the end. */
  function Overwrite(file: Bytes, data: Bytes, position: nat): (r: Bytes)
    requires position <= |file|
    ensures |r| == Max(|file|, position + |data|)
  {
    file[..position] + data + (if position + |data| <= |file| then file[position + |data|..] else [])
  }

  lemma OverwriteEnd(file: Bytes, data: Bytes)
    ensures Overwrite(file, data, |file|) == file + data
  {
  }

  lemma OverwriteStart(file: Bytes, data: Bytes)
    requires |data| <= |file|
    ensures Overwrite(file, data, 0)[..|data|] == data
  {
  }

  // The same write to the first part of a file, which it may extend.
  lemma OverwritePrefix(file: Bytes, length: nat, data: Bytes, position: nat)
    requires position <= length <= |file| && position + |data| <= |file|
    ensures Overwrite(file[..length], data, position) == Overwrite(file, data, position)[..Max(length, position + |data|)]
  {
  }

  // A write continued where the previous one stopped.
  lemma OverwriteOn(file: Bytes, data: Bytes, position: nat, done: nat, more: nat)
    requires position <= |file| && done + more <= |data|
    ensures Overwrite(file, data[..0], position) == file && data[..|data|] == data
    ensures Overwrite(Overwrite(file, data[..done], position), data[done..][..more], position + done)
         == Overwrite(file, data[..done + more], position)
  {
    assert data[done..][..more] == data[done..done + more];
  }

  lemma ModSmall(a: nat, n: nat)
    requires a < n
    ensures a % n == a && (a + n) % n == a && n % n == 0
  {
  }

  /** A write that starts at the end of a partial ring. */
  lemma PartialRound(ring: Bytes, length: nat, chunk: Bytes)
    requires length + |chunk| <= |ring|
    ensures InOrder(Overwrite(ring, chunk, length), 0, length + |chunk|) == InOrder(ring, 0, length) + chunk
  {
  }

  /** Overwriting a full ring from its oldest byte on drops as many bytes as it adds. */
  lemma FullRound(ring: Bytes, start: nat, chunk: Bytes, next: nat)
    requires start < |ring| && start + |chunk| <= |ring|
    requires next == if start + |chunk| == |ring| then 0 else start + |chunk|
    ensures InOrder(Overwrite(ring, chunk, start), next, |ring|)
         == LastN(InOrder(ring, start, |ring|) + chunk, |ring|)
  {
    var ring' := Overwrite(ring, chunk, start);
    assert ring'[..start + |chunk|] == ring[..start] + chunk;
    assert ring'[start + |chunk|..] == ring[start + |chunk|..];
    assert InOrder(ring, start, |ring|) == ring[start..] + ring[..start];
    assert InOrder(ring', next, |ring|) == ring[start + |chunk|..] + ring[..start] + chunk;
    assert (ring[start..] + ring[..start] + chunk)[|chunk|..] == ring[start + |chunk|..] + ring[..start] + chunk;
  }

  // ----- the live reader -----

  datatype Metadata = Metadata(bytesSeen: nat, truncated: bool, tailStart: nat, tailLength: nat, finalized: bool)

  /** `readCaptureTail`, which trusts neither the file nor the metadata. */
  function ReadTail(raw: Bytes, meta: Metadata): Bytes {
    if meta.tailLength == 0 || meta.tailStart >= |raw| || meta.tailLength > |raw| then []
    else
      var end := meta.tailStart + meta.tailLength;
      if end <= |raw| then raw[meta.tailStart..end] else raw[meta.tailStart..] + raw[..end - |raw|]
  }

  /** `readCaptureOutput`, for a limit of at least the cap. */
  function ReadOutput(marker: Bytes, head: Bytes, raw: Bytes, meta: Metadata): Bytes {
    if !meta.truncated || meta.finalized then head else head + marker + ReadTail(raw, meta)
  }

  datatype Target = Log | Tail

  class Capture {
    const layout: Layout
    const cap: nat
    const headCap: nat
    const tailCap: nat
    const tail: array<Byte>
    // The two files, and the write position of the first one's descriptor.
    var log: Bytes
    var ring: Bytes
    var cursor: nat
    var tailLength: nat
    var tailStart: nat
    var stored: nat
    var bytesSeen: nat
    var truncated: bool
    var closed: bool
    var finalized: bool
    // Everything appended, and the most bytes the two files ever held together.
    ghost var seen: Bytes
    ghost var peak: nat

    ghost predicate Sized()
      reads this
    {
      |log| + |ring| <= peak <= cap
    }

    ghost predicate Measured()
    {
      layout.Accepted() && cap == layout.cap && headCap == layout.HeadCap() && tailCap == layout.TailCap()
    }

    // The ring in memory; a partial ring has not wrapped.
    ghost predicate MemoryOk()
      reads this, tail
    {
      && tail.Length == tailCap && tailLength <= tailCap && (tailCap > 0 ==> tailStart < tailCap)
      && (tailLength < tailCap || tailCap == 0 ==> tailStart == 0)
    }

    // The tail file holds the same bytes at the same places.
    ghost predicate RingOk()
      reads this, tail
    {
      MemoryOk() && ring == tail[..tailLength]
    }

    ghost function RingBytes(): Bytes
      requires MemoryOk()
      reads this, tail
    {
      InOrder(tail[..], tailStart, tailLength)
    }

    ghost predicate Valid()
      reads this, tail
    {
      && Measured() && Sized() && bytesSeen == |seen|
      && (closed ==> finalized && log == layout.Expected(seen) && ring == [] && (truncated <==> |seen| > cap))
      && (!closed ==>
            && !finalized && RingOk()
            && (!truncated ==> log == seen && |seen| <= cap && stored == cursor == |seen| && ring == [])
            && (truncated ==>
                  && |seen| > cap && log == seen[..headCap] && stored == headCap
                  && RingBytes() == seen[|seen| - tailCap..]))
    }

    constructor (layout: Layout)
      requires layout.Accepted()
      ensures Valid() && !closed && seen == [] && this.layout == layout
      ensures fresh(tail)
    {
      this.layout := layout;
      cap := layout.cap;
      headCap := layout.HeadCap();
      tailCap := layout.TailCap();
      tail := new Byte[layout.TailCap()](_ => 0);
      log, ring, cursor := [], [], 0;
      tailLength, tailStart, stored, bytesSeen := 0, 0, 0, 0;
      truncated, closed, finalized := false, false, false;
      seen, peak := [], 0;
    }

    // ----- file operations; each one moves the high-water mark -----

    function Content(target: Target): Bytes
      reads this
    {
      if target == Log then log else ring
    }

    function Other(target: Target): Bytes
      reads this
    {
      if target == Log then ring else log
    }

    /** `fs.writeSync` at a position: writes at least one byte, perhaps not all. */
    method WriteSync(target: Target, data: Bytes, position: nat) returns (n: nat)
      requires data != [] && position <= |Content(target)|
      modifies this`log, this`ring, this`peak
      ensures 0 < n <= |data|
      ensures Content(target) == Overwrite(old(Content(target)), data[..n], position)
      ensures Other(target) == old(Other(target))
      ensures peak == Max(old(peak), |log| + |ring|)
    {
      n :| 0 < n <= |data|;
      if target == Log {
        log := Overwrite(log, data[..n], position);
      } else {
        ring := Overwrite(ring, data[..n], position);
      }
      peak := Max(peak, |log| + |ring|);
    }

    /** `fs.ftruncateSync` to a size the file has already reached. */
    method Truncate(target: Target, size: nat)
      requires size <= |Content(target)|
      modifies this`log, this`ring, this`peak
      ensures Content(target) == old(Content(target))[..size]
      ensures Other(target) == old(Other(target))
      ensures peak == Max(old(peak), |log| + |ring|)
    {
      if target == Log {
        log := log[..size];
      } else {
        ring := ring[..size];
      }
      peak := Max(peak, |log| + |ring|);
    }

    method WriteFullyAt(target: Target, data: Bytes, position: nat)
      requires position <= |Content(target)| && |log| + |ring| <= peak
      modifies this`log, this`ring, this`peak
      ensures Content(target) == Overwrite(old(Content(target)), data, position)
      ensures Other(target) == old(Other(target))
      ensures peak == Max(old(peak), |log| + |ring|)
    {
      hide Overwrite;
      ghost var was := Content(target);
      var offset := 0;
      OverwriteOn(was, data, position, 0, 0);
      while offset < |data|
        invariant offset <= |data|
        invariant Content(target) == Overwrite(was, data[..offset], position)
        invariant Other(target) == old(Other(target))
        invariant peak == Max(old(peak), |log| + |ring|)
      {
        var n := WriteSync(target, data[offset..], position + offset);
        OverwriteOn(was, data, position, offset, n);
        offset := offset + n;
      }
    }

    /** `writeFully`: writes at the descriptor's own position and advances it. */
    method WriteFully(data: Bytes)
      requires cursor <= |log| && |log| + |ring| <= peak
      modifies this`log, this`ring, this`peak, this`cursor
      ensures log == Overwrite(old(log), data, old(cursor)) && ring == old(ring)
      ensures cursor == old(cursor) + |data|
      ensures peak == Max(old(peak), |log| + |ring|)
    {
      WriteFullyAt(Log, data, cursor);
      cursor := cursor + |data|;
    }

    /** `buffer.copy(this.tail, at, ...)`. */
    method CopyToTail(data: Bytes, at: nat)
      requires at + |data| <= tail.Length
      modifies tail
      ensures tail[..] == Overwrite(old(tail[..]), data, at)
    {
      forall i | 0 <= i < |data| {
        tail[at + i] := data[i];
      }
    }

    // ----- the capture -----

    method SetTail(buffer: Bytes)
      requires Sized() && tail.Length == tailCap && |log| + Min(|buffer|, tailCap) <= cap
      modifies this`log, this`ring, this`peak, this`tailLength, this`tailStart, tail
      ensures Sized() && RingOk() && log == old(log)
      ensures RingBytes() == LastN(buffer, tailCap)
    {
      forall i | 0 <= i < tail.Length {
        tail[i] := 0;
      }
      var retained := if |buffer| > tailCap then buffer[|buffer| - tailCap..] else buffer;
      ghost var tailWas := tail[..];
      CopyToTail(retained, 0);
      hide Overwrite;
      OverwriteStart(tailWas, retained);
      Truncate(Tail, 0);
      OverwriteEnd([], retained);
      WriteFullyAt(Tail, retained, 0);
      tailLength := |retained|;
      tailStart := 0;
    }

    /** One round of the ring loop: as much as fits before the end of the array and, in a ring that
        is not full yet, in its free part. */
    method PutRound(buffer: Bytes, offset: nat) returns (amount: nat)
      requires Sized() && RingOk() && 0 < tailCap && |log| + tailCap <= cap && offset < |buffer|
      modifies this`log, this`ring, this`peak, this`tailLength, this`tailStart, tail
      ensures 0 < amount <= |buffer| - offset
      ensures Sized() && RingOk() && log == old(log)
      ensures RingBytes() == LastN(old(RingBytes()) + buffer[offset..offset + amount], tailCap)
    {
      hide Overwrite;
      ghost var was, before, start := tail[..], RingBytes(), tailStart;
      ModSmall(if tailLength < tailCap then tailLength else tailStart, tailCap);
      var writeAt := (tailStart + tailLength) % tailCap;
      assert writeAt == if tailLength < tailCap then tailLength else tailStart;
      var free := tailCap - tailLength;
      amount := Min(Min(|buffer| - offset, tailCap - writeAt), if free == 0 then tailCap else free);
      var chunk := buffer[offset..offset + amount];
      OverwritePrefix(was, tailLength, chunk, writeAt);
      CopyToTail(chunk, writeAt);
      WriteFullyAt(Tail, chunk, writeAt);
      if tailLength < tailCap {
        PartialRound(was, tailLength, chunk);
        tailLength := tailLength + amount;
        assert RingBytes() == before + chunk;
      } else {
        ghost var next := if start + amount == tailCap then 0 else start + amount;
        assert before == InOrder(was, start, tailCap);
        FullRound(was, start, chunk, next);
        ModSmall(next, tailCap);
        tailStart := (tailStart + amount) % tailCap;
        assert tailStart == next;
        assert was[..tailCap] == was && tail[..tailLength] == tail[..];
        assert RingBytes() == InOrder(tail[..], next, tailCap);
      }
    }

    /** A buffer of at least the ring's size replaces it. */
    method PutWhole(buffer: Bytes)
      requires Sized() && RingOk() && 0 < tailCap <= |buffer| && |log| + tailCap <= cap
      modifies this`log, this`ring, this`peak, this`tailLength, this`tailStart, tail
      ensures Sized() && RingOk() && log == old(log)
      ensures RingBytes() == buffer[|buffer| - tailCap..]
    {
      CopyToTail(buffer[|buffer| - tailCap..], 0);
      assert tail[..] == buffer[|buffer| - tailCap..];
      WriteFullyAt(Tail, tail[..], 0);
      Truncate(Tail, tailCap);
      tailLength := tailCap;
      tailStart := 0;
      assert tail[..tailCap] == tail[..];
    }

    method AppendTail(buffer: Bytes)
      requires Sized() && RingOk() && |log| + tailCap <= cap
      modifies this`log, this`ring, this`peak, this`tailLength, this`tailStart, tail
      ensures Sized() && RingOk() && log == old(log)
      ensures RingBytes() == LastN(old(RingBytes()) + buffer, tailCap)
    {
      ghost var was := RingBytes();
      assert was + [] == was && buffer[..0] == [] && buffer[..|buffer|] == buffer;
      if tailCap == 0 || |buffer| == 0 {
        return;
      }
      LastNAppend(was, buffer, tailCap);
      if |buffer| >= tailCap {
        PutWhole(buffer);
        return;
      }
      var offset := 0;
      while offset < |buffer|
        invariant offset <= |buffer|
        invariant Sized() && RingOk() && log == old(log)
        invariant RingBytes() == LastN(was + buffer[..offset], tailCap)
      {
        var amount := PutRound(buffer, offset);
        LastNPiece(was, buffer, offset, amount, tailCap);
        offset := offset + amount;
      }
      assert offset == |buffer|;
    }

    method TailBuffer() returns (bytes: Bytes)
      requires MemoryOk()
      ensures bytes == RingBytes()
    {
      if tailLength == 0 {
        return [];
      }
      if tailStart == 0 {
        return tail[..tailLength];
      }
      var end := tailStart + tailLength;
      bytes := tail[tailStart..Min(end, tail.Length)] + tail[..if end > tailCap then end - tailCap else 0];
    }

    method BeginTruncation()
      requires Sized() && RingOk() && ring == [] && |log| == stored == cap && !truncated
      requires Measured()
      modifies this`log, this`ring, this`peak, this`tailLength, this`tailStart, this`stored, this`truncated, tail
      ensures truncated && stored == headCap && log == old(log)[..headCap]
      ensures Sized() && RingOk() && RingBytes() == LastN(old(log), tailCap)
    {
      var tailBytes := Min(tailCap, stored);
      var originalTail := [];
      if tailBytes > 0 {
        originalTail := log[stored - tailBytes..stored];
      }
      Truncate(Log, headCap);
      stored := headCap;
      truncated := true;
      if |originalTail| > 0 {
        SetTail(originalTail);
      }
    }

    // The rest of a chunk that does not fit.
    method AppendBeyond(chunk: Bytes, direct: nat)
      requires direct < |chunk| && Measured()
      requires Sized() && RingOk() && !truncated && !closed && !finalized && ring == []
      requires |log| == stored == cap && bytesSeen == |seen| && seen == log + chunk[direct..]
      modifies this, tail
      ensures Valid() && !closed && seen == old(seen)
    {
      ghost var kept := log;
      BeginTruncation();
      LastNAppend(kept, chunk[direct..], tailCap);
      AppendTail(chunk[direct..]);
    }

    // Bytes that still fit behind what is stored.
    method WriteDirect(data: Bytes)
      requires Sized() && ring == [] && cursor == stored == |log| && |log| + |data| <= cap
      modifies this`log, this`ring, this`peak, this`cursor, this`stored
      ensures log == old(log) + data && ring == [] && Sized() && cursor == stored == |log|
    {
      OverwriteEnd(log, data);
      WriteFully(data);
      stored := stored + |data|;
    }

    // A chunk that arrives after truncation.
    method AppendTruncated(chunk: Bytes)
      requires Measured() && bytesSeen == |seen|
      requires Sized() && RingOk() && truncated && !closed && !finalized && stored == headCap
      requires cap + |chunk| < |seen| && log == seen[..headCap] && seen[|seen| - |chunk|..] == chunk
      requires RingBytes() == LastN(seen[..|seen| - |chunk|], tailCap)
      modifies this`log, this`ring, this`peak, this`tailLength, this`tailStart, tail
      ensures Valid() && !closed
    {
      LastNAppend(seen[..|seen| - |chunk|], chunk, tailCap);
      assert seen[..|seen| - |chunk|] + chunk == seen;
      AppendTail(chunk);
    }

    /** `append`: what is stored next depends only on the concatenation of everything appended. */
    method Append(chunk: Bytes)
      requires Valid() && !closed
      modifies this, tail
      ensures Valid() && !closed && seen == old(seen) + chunk
    {
      bytesSeen := bytesSeen + |chunk|;
      seen := seen + chunk;
      if truncated {
        AppendTruncated(chunk);
        return;
      }
      var direct := Min(cap - stored, |chunk|);
      ghost var was := log;
      if direct > 0 {
        WriteDirect(chunk[..direct]);
      } else {
        assert was + chunk[..0] == was;
      }
      if direct == |chunk| {
        assert chunk[..direct] == chunk;
        return;
      }
      assert was + chunk == (was + chunk[..direct]) + chunk[direct..];
      AppendBeyond(chunk, direct);
    }

    method Materialize()
      requires MemoryOk() && |log| <= peak <= cap && ring == [] && Measured() && |log| == headCap
      modifies this`log, this`ring, this`peak, this`stored
      ensures log == old(log) + layout.marker + RingBytes() && ring == [] && Sized()
      ensures stored == |log|
    {
      hide Overwrite, InOrder, Layout.Expected;
      Truncate(Log, headCap);
      WriteBehind(layout.marker);
      var bytes := TailBuffer();
      WriteBehind(bytes);
      Truncate(Log, headCap + |layout.marker| + tailLength);
      stored := headCap + |layout.marker| + tailLength;
    }

    // A write at the end of the log.
    method WriteBehind(data: Bytes)
      requires |log| + |ring| <= peak
      modifies this`log, this`ring, this`peak
      ensures log == old(log) + data && ring == old(ring) && peak == Max(old(peak), |log| + |ring|)
    {
      hide Overwrite;
      OverwriteEnd(log, data);
      WriteFullyAt(Log, data, |log|);
    }

    /** `finish`: the log becomes the bounded image of the whole stream and the tail file goes away. */
    method Finish()
      requires Valid()
      modifies this
      ensures Valid() && closed && seen == old(seen)
      ensures log == layout.Expected(seen)
    {
      if closed {
        return;
      }
      hide InOrder;
      ring := [];
      if truncated {
        Materialize();
      }
      finalized := true;
      closed := true;
    }

    function Snapshot(): Metadata
      reads this
    {
      Metadata(bytesSeen, truncated, tailStart, tailLength, finalized)
    }

    /** Between appends, the separate reader sees exactly what finalising now would leave. */
    lemma ReaderAgrees()
      requires Valid()
      ensures ReadOutput(layout.marker, log, ring, Snapshot()) == layout.Expected(seen)
    {
      if truncated && !closed {
        assert ring == tail[..] by { assert tail[..tailCap] == tail[..]; }
      }
    }
  }

  /** What the first `n` chunks bring. */
  function Arrived(chunks: seq<Bytes>, n: nat): Bytes
    requires n <= |chunks|
  {
    if n == 0 then [] else Arrived(chunks, n - 1) + chunks[n - 1]
  }

  ghost predicate ViewsOk(layout: Layout, chunks: seq<Bytes>, views: seq<Bytes>)
    requires layout.Accepted() && |views| <= |chunks|
  {
    forall i :: 0 <= i < |views| ==> views[i] == layout.Expected(Arrived(chunks, i + 1))
  }

  // One append, and what the reader then sees.
  method Feed(capture: Capture, chunk: Bytes) returns (view: Bytes)
    requires capture.Valid() && !capture.closed
    modifies capture, capture.tail
    ensures capture.Valid() && !capture.closed && capture.seen == old(capture.seen) + chunk
    ensures view == capture.layout.Expected(capture.seen)
  {
    capture.Append(chunk);
    capture.ReaderAgrees();
    view := ReadOutput(capture.layout.marker, capture.log, capture.ring, capture.Snapshot());
  }

  /** A whole capture with a reader looking after every append: each view and the final file are the
      bounded image of what had arrived, however it was cut into chunks, and the two files together
      never held more than the cap, not even between two writes. */
  method CaptureStream(layout: Layout, chunks: seq<Bytes>) returns (final: Bytes, views: seq<Bytes>, ghost peak: nat)
    requires layout.Accepted()
    ensures final == layout.Expected(Arrived(chunks, |chunks|))
    ensures |views| == |chunks| && ViewsOk(layout, chunks, views)
    ensures peak <= layout.cap
  {
    hide Layout.Expected;
    var capture := new Capture(layout);
    views := [];
    while |views| < |chunks|
      invariant |views| <= |chunks| && ViewsOk(layout, chunks, views)
      invariant fresh(capture) && fresh(capture.tail)
      invariant capture.Valid() && !capture.closed && capture.layout == layout
      invariant capture.seen == Arrived(chunks, |views|)
    {
      var view := Feed(capture, chunks[|views|]);
      views := views + [view];
    }
    capture.Finish();
    final, peak := capture.log, capture.peak;
  }
}
