/**
 The scatter/gather receive buffer handed to readers: a list of native segments
 and a two-level cursor into them. Its meaning is a flat byte sequence with one position.
 */
module RecvBuffer {
  import opened Common

  /** MsQuic keeps the total length of one receive event below 2^32. */
  const U32_LIMIT: nat := 0x1_0000_0000

  /** The flat meaning of a receive buffer: the bytes at `offset` of the stream, how many were read,
      and whether the buffer is tied to its stream, so that its drop completes it. */
  datatype Chunk = Chunk(id: nat, offset: nat, data: seq<byte>, pos: nat, fin: bool, attached: bool) {
    ghost predicate Valid() { pos <= |data| }

    function Unread(): seq<byte>
      requires Valid()
    {
      data[pos..]
    }

    predicate Covers(p: nat) { offset <= p < offset + |data| }

    function Read(n: nat): Chunk { this.(pos := pos + n) }

    function Attached(): Chunk { this.(attached := true) }
  }

  /** Flat position of the two-level cursor (segment, offset within it). */
  function PosOf(segs: seq<seq<byte>>, cursor: nat, inSeg: nat): nat
    requires cursor <= |segs|
  {
    |Flat(segs[..cursor])| + inSeg
  }

  /** What lies at and behind the cursor, and where the next segment starts. */
  lemma {:induction false} Locate(segs: seq<seq<byte>>, cursor: nat, inSeg: nat)
    requires cursor < |segs| && inSeg <= |segs[cursor]|
    ensures PosOf(segs, cursor + 1, 0) == PosOf(segs, cursor, inSeg) + |segs[cursor]| - inSeg
    ensures PosOf(segs, cursor + 1, 0) + |Flat(segs[cursor + 1..])| == |Flat(segs)|
    ensures Flat(segs)[PosOf(segs, cursor, inSeg)..] == segs[cursor][inSeg..] + Flat(segs[cursor + 1..])
  {
    FlatAt(segs, cursor);
  }

  /** The next `len` bytes of a segment are the next of the whole, and the position moves by their number. */
  lemma {:induction false} SliceAt(segs: seq<seq<byte>>, cursor: nat, inSeg: nat, len: nat)
    requires cursor < |segs| && inSeg + len <= |segs[cursor]|
    ensures PosOf(segs, cursor, inSeg + len) == PosOf(segs, cursor, inSeg) + len <= |Flat(segs)|
    ensures inSeg + len == |segs[cursor]| ==> PosOf(segs, cursor + 1, 0) == PosOf(segs, cursor, inSeg) + len
    ensures segs[cursor][inSeg..inSeg + len] <= Flat(segs)[PosOf(segs, cursor, inSeg)..]
  {
    Locate(segs, cursor, inSeg);
    assert segs[cursor][inSeg..inSeg + len] == segs[cursor][inSeg..][..len];
  }

  lemma {:induction false} EndPos(segs: seq<seq<byte>>)
    ensures PosOf(segs, |segs|, 0) == |Flat(segs)|
  {
    assert segs[..|segs|] == segs;
  }

  class StreamRecvBuffer {
    const id: nat                 // identity of the receive event that queued it
    const buffers: seq<seq<byte>> // the native segments
    const offset: nat
    const length: nat
    const fin: bool
    var attached: bool            // `stream` is set: dropping it completes it
    var readCursor: nat
    var readCursorInBuffer: nat

    ghost predicate Valid()
      reads this
    {
      && |Flat(buffers)| == length < U32_LIMIT
      && readCursor <= |buffers|
      && (readCursor < |buffers| ==> readCursorInBuffer == 0 || readCursorInBuffer < |buffers[readCursor]|)
      && (readCursor == |buffers| ==> readCursorInBuffer == 0)
    }

    ghost function SegmentsLeft(): nat
      reads this
    {
      if readCursor <= |buffers| then |buffers| - readCursor else 0
    }

    ghost function View(): (c: Chunk)
      requires Valid()
      reads this
      ensures c.Valid()
    {
      CursorInBounds();
      Chunk(id, offset, Flat(buffers), PosOf(buffers, readCursor, readCursorInBuffer), fin, attached)
    }

    ghost function Unread(): seq<byte>
      requires Valid()
      reads this
    {
      View().Unread()
    }

    lemma {:induction false} CursorInBounds()
      requires Valid()
      ensures PosOf(buffers, readCursor, readCursorInBuffer) <= |Flat(buffers)|
      ensures readCursor == |buffers| ==> PosOf(buffers, readCursor, readCursorInBuffer) == |Flat(buffers)|
    {
      if readCursor < |buffers| {
        Locate(buffers, readCursor, readCursorInBuffer);
      } else {
        EndPos(buffers);
      }
    }

    constructor (id: nat, offset: nat, buffers: seq<seq<byte>>, fin: bool)
      requires |Flat(buffers)| < U32_LIMIT
      ensures Valid() && !attached && this.buffers == buffers
      ensures View() == Chunk(id, offset, Flat(buffers), 0, fin, false)
    {
      this.id, this.offset, this.buffers, this.fin := id, offset, buffers, fin;
      this.length := |Flat(buffers)|;
      this.attached, this.readCursor, this.readCursorInBuffer := false, 0, 0;
    }

    /** Tie the buffer to its stream: from here on its drop completes it. */
    method SetStream()
      requires Valid()
      modifies this`attached
      ensures Valid() && View() == old(View()).Attached()
    {
      attached := true;
    }

    /** The `u32` sum of the segment lengths before the cursor never wraps, nor do the subtractions. */
    method Len() returns (n: nat)
      requires Valid()
      ensures n == |Unread()|
    {
      CursorInBounds();
      if |buffers| <= readCursor {
        return 0;
      }
      Locate(buffers, readCursor, readCursorInBuffer);
      var sum, i := 0, 0;
      while i < readCursor
        invariant 0 <= i <= readCursor
        invariant sum == PosOf(buffers, i, 0) < U32_LIMIT
      {
        Locate(buffers, i, 0);
        sum := (sum + |buffers[i]|) % U32_LIMIT;
        i := i + 1;
      }
      n := length - sum - readCursorInBuffer;
    }

    method IsEmpty() returns (b: bool)
      requires Valid()
      ensures b <==> Unread() == []
    {
      var n := Len();
      b := n == 0;
    }

    /** At most `size` bytes of the rest of the segment under the cursor. */
    method AsSliceUptoSize(size: nat) returns (slice: seq<byte>)
      requires Valid()
      ensures |slice| <= size && slice <= Unread()
      ensures readCursor < |buffers| ==>
                |slice| == Min(|buffers[readCursor]| - readCursorInBuffer, size)
    {
      if |buffers| <= readCursor {
        return [];
      }
      var buffer := buffers[readCursor];
      var len := Min(|buffer| - readCursorInBuffer, size);
      SliceAt(buffers, readCursor, readCursorInBuffer, len);
      hide PosOf, Flat;
      slice := buffer[readCursorInBuffer..readCursorInBuffer + len];
    }

    /** Consume at most `size` bytes; there is nothing to consume exactly when no segment is left. */
    method GetBytesUptoSize(size: nat) returns (slice: Option<seq<byte>>)
      requires Valid()
      modifies this`readCursor, this`readCursorInBuffer
      ensures Valid()
      ensures slice.None? <==> old(readCursor) == |buffers|
      ensures slice.None? ==> Unread() == [] && View() == old(View()) && readCursor == old(readCursor)
      ensures slice.Some? ==>
                && |slice.value| <= size
                && slice.value <= old(Unread())
                && View() == old(View()).Read(|slice.value|)
      ensures slice.Some? && size > 0 ==> old(readCursor) < readCursor || |slice.value| == size
      ensures old(readCursor) <= readCursor
    {
      CursorInBounds();
      if |buffers| <= readCursor {
        return None;
      }
      Locate(buffers, readCursor, readCursorInBuffer);
      var buffer := buffers[readCursor];
      var len := Min(|buffer| - readCursorInBuffer, size);
      slice := Some(buffer[readCursorInBuffer..readCursorInBuffer + len]);
      ghost var position := PosOf(buffers, readCursor, readCursorInBuffer);
      readCursorInBuffer := readCursorInBuffer + len;
      if readCursorInBuffer >= |buffer| {
        readCursor := readCursor + 1;
        readCursorInBuffer := 0;
      }
      assert PosOf(buffers, readCursor, readCursorInBuffer) == position + len;
    }

    /** Skip `count` bytes, whatever the segmentation. */
    method Advance(count: nat)
      requires Valid() && count <= |Unread()|
      modifies this`readCursor, this`readCursorInBuffer
      ensures Valid() && View() == old(View()).Read(count)
    {
      var left: nat, i: nat := count, readCursor;
      while i < |buffers| && left > 0
        invariant Valid() && i <= |buffers|
        invariant left > 0 ==> i == readCursor
        invariant PosOf(buffers, readCursor, readCursorInBuffer) + left
               == old(PosOf(buffers, readCursor, readCursorInBuffer)) + count
        decreases |buffers| - i
      {
        Locate(buffers, readCursor, readCursorInBuffer);
        var remaining := |buffers[i]| - readCursorInBuffer;
        if left < remaining {
          readCursorInBuffer := readCursorInBuffer + left;
          left := 0;
        } else {
          readCursor := readCursor + 1;
          readCursorInBuffer := 0;
          left := left - remaining;
        }
        i := i + 1;
      }
      CursorInBounds();
    }

    /** The contiguous chunk at the cursor is all that is left of the segment under it. */
    method ChunkSlice() returns (slice: seq<byte>)
      requires Valid()
      ensures slice <= Unread()
      ensures slice == if readCursor < |buffers| then buffers[readCursor][readCursorInBuffer..] else []
    {
      var n := Len();
      slice := AsSliceUptoSize(n);
      CursorInBounds();
      if readCursor < |buffers| {
        Locate(buffers, readCursor, readCursorInBuffer);
      }
    }

    /** Fill up to `slots` slices: a prefix of what is unread, and all of it given enough slots. */
    method ChunksVectored(slots: nat) returns (slices: seq<seq<byte>>)
      requires Valid()
      ensures |slices| == Min(slots, |buffers| - readCursor)
      ensures Flat(slices) <= Unread()
      ensures slots >= |buffers| - readCursor ==> Flat(slices) == Unread()
    {
      slices := [];
      var skip, i := readCursorInBuffer, readCursor;
      CursorInBounds();
      while i < |buffers| && |slices| < slots
        invariant readCursor <= i <= |buffers| && |slices| == i - readCursor <= slots
        invariant skip == if i == readCursor then readCursorInBuffer else 0
        invariant PosOf(buffers, i, skip) <= |Flat(buffers)|
        invariant Unread() == Flat(slices) + Flat(buffers)[PosOf(buffers, i, skip)..]
      {
        NextSlice(slices, i, skip);
        slices := slices + [buffers[i][skip..]];
        skip := 0;
        i := i + 1;
      }
      EndPos(buffers);
    }

    /** One more slice: the rest of the segment under the cursor moves from what is left to what is listed. */
    lemma {:induction false} NextSlice(slices: seq<seq<byte>>, i: nat, skip: nat)
      requires i < |buffers| && skip <= |buffers[i]| && PosOf(buffers, i, skip) <= |Flat(buffers)|
      ensures PosOf(buffers, i + 1, 0) <= |Flat(buffers)|
      ensures Flat(slices) + Flat(buffers)[PosOf(buffers, i, skip)..]
           == Flat(slices + [buffers[i][skip..]]) + Flat(buffers)[PosOf(buffers, i + 1, 0)..]
    {
      Locate(buffers, i, skip);
      RestOfNext(i);
      FlatAppend(slices, [buffers[i][skip..]]);
      FlatSingle(buffers[i][skip..]);
      hide *;
      assert Flat(slices) + (buffers[i][skip..] + Flat(buffers[i + 1..])) == Flat(slices) + buffers[i][skip..] + Flat(buffers[i + 1..]);
    }

    lemma {:induction false} RestOfNext(i: nat)
      requires i < |buffers|
      ensures PosOf(buffers, i + 1, 0) <= |Flat(buffers)|
      ensures Flat(buffers)[PosOf(buffers, i + 1, 0)..] == Flat(buffers[i + 1..])
    {
      Locate(buffers, i, |buffers[i]|);
    }

    /** With no empty native segment, `chunk` is non-empty while anything remains. */
    lemma {:induction false} ChunkNonEmpty()
      requires Valid()
      requires forall i :: 0 <= i < |buffers| ==> buffers[i] != []
      ensures Unread() != [] <==> readCursor < |buffers|
      ensures readCursor < |buffers| ==> buffers[readCursor][readCursorInBuffer..] != []
    {
      CursorInBounds();
      if readCursor < |buffers| {
        Locate(buffers, readCursor, readCursorInBuffer);
      }
    }
  }
}
