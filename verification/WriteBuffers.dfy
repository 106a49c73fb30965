/** The buffer a send is built in; MsQuic borrows it for the duration of the send. */
module WriteBuffers {
  import opened Common
  import opened SendPath

  class WriteBuffer {
    const id: nat
    var internal: seq<byte>
    var zerocopy: seq<seq<byte>>
    var buffers: seq<seq<byte>>

    function View(): WBuf
      reads this
    {
      WBuf(id, internal, zerocopy, buffers)
    }

    constructor (id: nat)
      ensures View() == WBuf(id, [], [], [])
    {
      this.id, internal, zerocopy, buffers := id, [], [], [];
    }

    method PutZerocopy(buf: seq<byte>) returns (n: nat)
      modifies this`zerocopy
      ensures n == |buf|
      ensures View() == Fill(old(View()), Chunks([buf]))
    {
      zerocopy := zerocopy + [buf];
      n := |buf|;
    }

    method PutSlice(slice: seq<byte>) returns (n: nat)
      modifies this`internal
      ensures n == |slice|
      ensures View() == Fill(old(View()), Slice(slice))
    {
      internal := internal + slice;
      n := |slice|;
    }

    /** The list handed to MsQuic: one entry per borrowed chunk, or the copied bytes if there is none. */
    method GetBuffers() returns (bufs: seq<seq<byte>>)
      modifies this`buffers
      ensures View() == old(View()).WithBuffers() && bufs == buffers
    {
      if zerocopy != [] {
        ghost var was := buffers;
        var i := 0;
        while i < |zerocopy|
          invariant 0 <= i <= |zerocopy|
          invariant buffers == was + zerocopy[..i]
        {
          buffers := buffers + [zerocopy[i]];
          i := i + 1;
        }
        assert zerocopy[..i] == zerocopy;
      } else {
        buffers := buffers + [internal];
      }
      bufs := buffers;
    }

    method Reset()
      modifies this
      ensures View() == old(View()).Reset()
    {
      internal, zerocopy, buffers := [], [], [];
    }
  }

  /** The values of a pool of buffers. */
  ghost function PoolView(q: seq<WriteBuffer>): (r: seq<WBuf>)
    reads q
    ensures |r| == |q| && forall i :: 0 <= i < |q| ==> r[i] == q[i].View()
  {
    seq(|q|, i requires 0 <= i < |q| reads q => q[i].View())
  }
}
