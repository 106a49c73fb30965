/**
 The send half of a stream on values, and the write-buffer pool it shares its design with
 for datagrams: a buffer is in the pool, being filled, or owned by MsQuic.
 */
module SendPath {
  import opened Common
  import opened Sync
  import opened StreamTypes

  /** A write buffer: copied bytes, borrowed chunks, and the buffer list handed to MsQuic. */
  datatype WBuf = WBuf(id: nat, internal: seq<byte>, zerocopy: seq<seq<byte>>, buffers: seq<seq<byte>>) {
    predicate Blank() { internal == [] && zerocopy == [] && buffers == [] }

    function Reset(): (b: WBuf)
      ensures b.Blank() && b.id == id
    {
      WBuf(id, [], [], [])
    }

    /** `get_buffers` appends one entry per borrowed chunk, or one for the copied bytes. */
    function WithBuffers(): WBuf {
      this.(buffers := buffers + if zerocopy != [] then zerocopy else [internal])
    }
  }

  /** What a caller asks to send. */
  datatype Payload = Slice(bytes: seq<byte>) | Chunks(chunks: seq<seq<byte>>) {
    function Bytes(): seq<byte> {
      match this
      case Slice(b) => b
      case Chunks(cs) => Flat(cs)
    }
  }

  function Fill(b: WBuf, p: Payload): WBuf {
    match p
    case Slice(bytes) => b.(internal := b.internal + bytes)
    case Chunks(cs) => b.(zerocopy := b.zerocopy + cs)
  }

  datatype Send = Send(state: Half, pool: seq<WBuf>, errorCode: Option<nat>, waiters: seq<Task>)

  /** A native send as MsQuic saw it. */
  datatype NativeSend = NativeSend(buffer: WBuf, fin: bool, ok: bool)

  datatype WriteStep<+T> = WriteStep(shared: Shared, send: Send, native: Option<NativeSend>, result: Poll<Result<T, WriteError>>)

  /** The error a write, finish or abort reports once the half is shut down for good. */
  function LostWith(sh: Shared, s: Send, lossCounts: bool): Option<WriteError> {
    if sh.connError.Some? then Some(WriteConnectionLost(sh.connError.value))
    else if lossCounts && sh.cancelledOnLoss then Some(WriteCancelledOnLoss)
    else if s.errorCode.Some? then Some(Stopped(s.errorCode.value))
    else None
  }

  /** The buffer a send uses: the last pooled one, else a new one with identity `next`. */
  function TakeBuffer(pool: seq<WBuf>, next: nat): (WBuf, seq<WBuf>) {
    if pool == [] then (WBuf(next, [], [], []), [])
    else (pool[|pool| - 1], pool[..|pool| - 1])
  }

  /** `poll_write_generic`. `failure` is the native status if the send is refused. */
  function PollWrite(sh: Shared, s: Send, cx: Task, p: Payload, fin: bool, failure: Option<nat>, next: nat): WriteStep<nat> {
    match s.state
    case Closed => WriteStep(sh, s, None, Ready(Err(NotWritable)))
    case Start => WriteStep(sh.(startWaiters := Registered(sh.startWaiters, cx)), s, None, Pending)
    case Shutdown => WriteStep(sh, s, None, Ready(Err(WriteFinished)))
    case ShutdownComplete =>
      var e := LostWith(sh, s, true);
      WriteStep(sh, s, None, Ready(Err(if e.Some? then e.value else WriteFinished)))
    case StartComplete =>
      var (b, rest) := TakeBuffer(s.pool, next);
      var full := Fill(b, p).WithBuffers();
      if failure.None? then
        WriteStep(sh, s.(pool := rest, state := if fin then Shutdown else s.state),
                  Some(NativeSend(full, fin, true)), Ready(Ok(|p.Bytes()|)))
      else
        WriteStep(sh, s.(pool := rest + [full.Reset()]),
                  Some(NativeSend(full, fin, false)), Ready(Err(WriteOther(failure.value))))
  }

  /** `poll_finish_write` (`lossCounts`) and `poll_abort_write` (not): shut the half down, then wait. */
  function PollCloseWrite(sh: Shared, s: Send, cx: Task, failure: Option<nat>, lossCounts: bool): WriteStep<()> {
    match s.state
    case Closed => WriteStep(sh, s, None, Ready(Err(NotWritable)))
    case Start => WriteStep(sh.(startWaiters := Registered(sh.startWaiters, cx)), s, None, Pending)
    case StartComplete =>
      if failure.Some? then WriteStep(sh, s, None, Ready(Err(WriteOther(failure.value))))
      else WriteStep(sh, s.(state := Shutdown, waiters := Registered(s.waiters, cx)), None, Pending)
    case Shutdown => WriteStep(sh, s.(waiters := Registered(s.waiters, cx)), None, Pending)
    case ShutdownComplete =>
      var e := LostWith(sh, s, lossCounts);
      WriteStep(sh, s, None, Ready(if e.Some? then Err(e.value) else Ok(())))
  }

  /** `abort_write`, which does not wait. */
  function AbortWrite(s: Send, failure: Option<nat>): (Send, Result<(), WriteError>) {
    if s.state != StartComplete then (s, Err(NotWritable))
    else if failure.Some? then (s, Err(WriteOther(failure.value)))
    else (s.(state := Shutdown), Ok(()))
  }

  /** `SendComplete`: the buffer comes back and is pooled blank. */
  function OnSendComplete(s: Send, b: WBuf): Send {
    s.(pool := s.pool + [b.Reset()])
  }

  /** `SendShutdownComplete`, and `PeerReceiveAborted` with its error code. */
  function OnSendShutdown(s: Send, code: Option<nat>): Send {
    s.(state := ShutdownComplete, errorCode := if code.Some? then code else s.errorCode, waiters := [])
  }
}
