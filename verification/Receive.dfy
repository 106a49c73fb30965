/**
 The receive half of a stream on values: what each critical section does to the queue of
 receive buffers, to the completion accounting and to the parked readers.
 */
module Receive {
  import opened Common
  import opened Sync
  import opened RangeSet
  import opened Completion
  import opened RecvBuffer
  import opened StreamTypes

  datatype Recv = Recv(
    state: Half,
    queue: seq<Chunk>,
    recvLen: nat,
    acct: Accounting,
    errorCode: Option<nat>,
    waiters: seq<Task>)

  ghost predicate AllValid(q: seq<Chunk>) {
    forall i :: 0 <= i < |q| ==> q[i].Valid()
  }

  /** Everything the queue still has to deliver. */
  ghost function Unread(q: seq<Chunk>): seq<byte>
    requires AllValid(q)
  {
    if q == [] then [] else q[0].Unread() + Unread(q[1..])
  }

  /** What a copying read took: the bytes, the queue left, and the exhausted buffers it popped. */
  datatype Drained = Drained(got: seq<byte>, queue: seq<Chunk>, popped: seq<Chunk>)

  /** Copy up to `want` bytes from the front; an exhausted front buffer is popped, and tied to the
      stream, only if more is wanted. */
  ghost function Drain(q: seq<Chunk>, want: nat): (d: Drained)
    requires AllValid(q)
    ensures AllValid(d.queue) && AllValid(d.popped)
    decreases |q|, want
  {
    if want == 0 || q == [] then Drained([], q, [])
    else if q[0].pos == |q[0].data| then
      var d := Drain(q[1..], want);
      d.(popped := [q[0].Attached()] + d.popped)
    else
      var n := Min(want, |q[0].data| - q[0].pos);
      var d := Drain([q[0].Read(n)] + q[1..], want - n);
      d.(got := q[0].Unread()[..n] + d.got)
  }

  function Glue(got: seq<byte>, popped: seq<Chunk>, d: Drained): Drained {
    Drained(got + d.got, d.queue, popped + d.popped)
  }

  /** Reading any part of the front buffer first, segment by segment, ends in the same place. */
  lemma {:induction false} DrainAfterPart(q: seq<Chunk>, want: nat, k: nat)
    requires AllValid(q) && q != [] && k <= want && k <= |q[0].Unread()|
    ensures AllValid([q[0].Read(k)] + q[1..])
    ensures Drain(q, want) == Glue(q[0].Unread()[..k], [], Drain([q[0].Read(k)] + q[1..], want - k))
  {
    var rest := [q[0].Read(k)] + q[1..];
    assert rest[1..] == q[1..];
    if k == 0 {
      assert rest == q;
    } else if k < Min(want, |q[0].data| - q[0].pos) {
      DrainInTwo(q, want, k);
    }
  }

  /** The copy from the front buffer may be made in two parts. */
  lemma {:induction false} DrainInTwo(q: seq<Chunk>, want: nat, k: nat)
    requires AllValid(q) && q != [] && 0 < k < Min(want, |q[0].data| - q[0].pos)
    ensures AllValid([q[0].Read(k)] + q[1..])
    ensures Drain(q, want) == Glue(q[0].Unread()[..k], [], Drain([q[0].Read(k)] + q[1..], want - k))
  {
    var rest := [q[0].Read(k)] + q[1..];
    var n := Min(want, |q[0].data| - q[0].pos);
    assert rest[1..] == q[1..] && rest[0].Read(n - k) == q[0].Read(n);
    assert q[0].Unread()[..n] == q[0].Unread()[..k] + rest[0].Unread()[..n - k];
  }

  lemma {:induction false} DrainFits(q: seq<Chunk>, want: nat)
    requires AllValid(q)
    ensures |Drain(q, want).got| <= want
    decreases |q|, want
  {
    if want != 0 && q != [] {
      if q[0].pos == |q[0].data| {
        DrainFits(q[1..], want);
      } else {
        var n := Min(want, |q[0].data| - q[0].pos);
        DrainFits([q[0].Read(n)] + q[1..], want - n);
      }
    }
  }

  ghost predicate Untied(q: seq<Chunk>) {
    forall i :: 0 <= i < |q| ==> !q[i].attached
  }

  /** It ties every buffer it pops to the stream, and no other. */
  lemma {:induction false} DrainTies(q: seq<Chunk>, want: nat)
    requires AllValid(q)
    ensures forall i :: 0 <= i < |Drain(q, want).popped| ==> Drain(q, want).popped[i].attached
    ensures Untied(q) ==> Untied(Drain(q, want).queue)
    decreases |q|, want
  {
    if want != 0 && q != [] {
      if q[0].pos == |q[0].data| {
        DrainTies(q[1..], want);
      } else {
        var n := Min(want, |q[0].data| - q[0].pos);
        DrainTies([q[0].Read(n)] + q[1..], want - n);
      }
    }
  }

  datatype ReadStatus<+T> = Readable(value: T) | Finished(rest: Option<T>) | Blocked(rest: Option<T>)

  function FromPair<T>(read: Option<T>, fin: bool): ReadStatus<T> {
    if fin then Finished(read) else Blocked(read)
  }

  /** `fin` of the buffer popped last, or false if none was: the local the read loop keeps. */
  function LastFin(popped: seq<Chunk>): bool {
    popped != [] && popped[|popped| - 1].fin
  }

  /** The status of a copying read that took n of `want` bytes. */
  function CopyStatus(n: nat, fin: bool, want: nat): ReadStatus<nat> {
    if n == want then Readable(want) else FromPair(if n > 0 then Some(n) else None, fin)
  }

  /** What a read sees before it may touch the queue. */
  datatype Gate = Fails(error: ReadError) | AtEnd | ParkOnStart | Go

  function ReadGate(sh: Shared, r: Recv): Gate {
    match r.state
    case Closed => Fails(NotReadable)
    case Start => ParkOnStart
    case StartComplete => Go
    case Shutdown => AtEnd
    case ShutdownComplete =>
      if sh.connError.Some? then Fails(ReadConnectionLost(sh.connError.value))
      else if sh.cancelledOnLoss then Fails(ReadCancelledOnLoss)
      else if r.errorCode.Some? then Fails(Reset(r.errorCode.value))
      else AtEnd
  }

  /** The state and the result after the queue was read with a given status. */
  function AfterRead<T>(r: Recv, cx: Task, status: ReadStatus<T>): (Recv, Poll<Option<T>>) {
    match status
    case Readable(v) => (r, Ready(Some(v)))
    case Finished(v) => (r.(state := Shutdown), Ready(v))
    case Blocked(v) =>
      if v.Some? then (r, Ready(v))
      else (r.(waiters := Registered(r.waiters, cx)), Pending)
  }

  datatype ReadStep<+T> = ReadStep(shared: Shared, recv: Recv, popped: seq<Chunk>, got: seq<byte>, result: Poll<Result<T, ReadError>>)

  function Lift<T>(p: Poll<T>): Poll<Result<T, ReadError>> {
    if p.Pending? then Pending else Ready(Ok(p.value))
  }

  /** `poll_read` and `poll_read_buf`: read into a destination with room for `want` bytes. */
  ghost function PollRead(sh: Shared, r: Recv, cx: Task, want: nat): ReadStep<Option<nat>>
    requires AllValid(r.queue)
  {
    match ReadGate(sh, r)
    case Fails(e) => ReadStep(sh, r, [], [], Ready(Err(e)))
    case AtEnd => ReadStep(sh, r, [], [], Ready(Ok(None)))
    case ParkOnStart => ReadStep(sh.(startWaiters := Registered(sh.startWaiters, cx)), r, [], [], Pending)
    case Go =>
      var d := Drain(r.queue, want);
      var (r', p) := AfterRead(r.(queue := d.queue), cx, CopyStatus(|d.got|, LastFin(d.popped), want));
      ReadStep(sh, r', d.popped, d.got, Lift(p))
  }

  /** The answer of `poll_read`, which has no word for the end of the stream. */
  function Counted(r: Poll<Result<Option<nat>, ReadError>>): Poll<Result<nat, ReadError>> {
    match r
    case Pending => Pending
    case Ready(Ok(n)) => Ready(Ok(if n.Some? then n.value else 0))
    case Ready(Err(e)) => Ready(Err(e))
  }

  /** The answer of `poll_read_buf`, whose destination knows what was added. */
  function Uncounted(r: Poll<Result<Option<nat>, ReadError>>): Poll<Result<(), ReadError>> {
    match r
    case Pending => Pending
    case Ready(Ok(_)) => Ready(Ok(()))
    case Ready(Err(e)) => Ready(Err(e))
  }

  /** `poll_read_chunk`: take the front buffer whole. */
  ghost function PollReadChunk(sh: Shared, r: Recv, cx: Task): ReadStep<Option<Chunk>>
    requires AllValid(r.queue)
  {
    match ReadGate(sh, r)
    case Fails(e) => ReadStep(sh, r, [], [], Ready(Err(e)))
    case AtEnd => ReadStep(sh, r, [], [], Ready(Ok(None)))
    case ParkOnStart => ReadStep(sh.(startWaiters := Registered(sh.startWaiters, cx)), r, [], [], Pending)
    case Go =>
      if r.queue == [] then
        var (r', p) := AfterRead<Chunk>(r, cx, FromPair(None, false));
        ReadStep(sh, r', [], [], Lift(p))
      else
        var c := r.queue[0].Attached();
        var (r', p) := AfterRead(r.(queue := r.queue[1..]), cx, FromPair(Some(c), c.fin));
        ReadStep(sh, r', [c], c.Unread(), Lift(p))
  }

  /** A released buffer, as the accounting sees it. */
  function RegisterChunk(a: Accounting, c: Chunk): (Accounting, Option<nat>) {
    Register(a, Range(c.offset, c.offset + |c.data|), c.offset, c.pos == |c.data|, c.fin)
  }

  /** The drop of a receive buffer: it completes the buffer if, and only if, it is tied to the stream. */
  function DropChunk(a: Accounting, c: Chunk): (Accounting, Option<nat>) {
    if c.attached then RegisterChunk(a, c) else (a, None)
  }

  /** The drops of a list of buffers, front first. */
  function DropAll(a: Accounting, q: seq<Chunk>): (Accounting, seq<nat>) {
    if q == [] then (a, [])
    else
      var (b, calls) := DropAll(a, q[..|q| - 1]);
      var (c, call) := DropChunk(b, q[|q| - 1]);
      (c, Append(calls, call))
  }

  function Append(calls: seq<nat>, call: Option<nat>): seq<nat> {
    if call.Some? then calls + [call.value] else calls
  }

  /** The shutdown sweep: complete every undelivered buffer, front first. */
  function Sweep(a: Accounting, q: seq<Chunk>): (Accounting, seq<nat>) {
    if q == [] then (a, [])
    else
      var (b, calls) := Sweep(a, q[..|q| - 1]);
      var (c, call) := RegisterChunk(b, q[|q| - 1]);
      (c, Append(calls, call))
  }

  /** Dropping buffers that are tied to no stream changes nothing and tells MsQuic nothing. */
  lemma {:induction false} UntiedDropsDoNothing(a: Accounting, q: seq<Chunk>)
    requires Untied(q)
    ensures DropAll(a, q) == (a, [])
  {
    if q != [] {
      UntiedDropsDoNothing(a, q[..|q| - 1]);
    }
  }

  /** A Receive event: queue the buffer and wake every reader. */
  function OnReceive(r: Recv, c: Chunk): Recv {
    r.(recvLen := r.recvLen + |c.data|, queue := r.queue + [c], waiters := [])
  }

  /** What the critical section of `ShutdownComplete` tells MsQuic: `swept` unless the application is
      closing, `dropped` in any case. */
  datatype Closing = Closing(shared: Shared, recv: Recv, swept: seq<nat>, dropped: seq<nat>)

  /** `ShutdownComplete`, which counts once: sweep, drop what was swept, close, wake. */
  function OnShutdownComplete(sh: Shared, r: Recv, loss: Loss): Closing {
    if sh.life == Completed then Closing(sh, r, [], [])
    else
      var (a, swept) := Sweep(r.acct, r.queue);
      var (b, dropped) := DropAll(a, r.queue);
      Closing(sh.(life := Completed, connError := LossError(loss, sh.connError), startWaiters := []),
              r.(acct := b, queue := [], state := ShutdownComplete, waiters := []), swept, dropped)
  }

  /** `poll_abort_read`; it does not consult `cancelled_on_loss`. */
  function PollAbortRead(sh: Shared, r: Recv, cx: Task, failure: Option<nat>): (Shared, Recv, Poll<Result<(), ReadError>>) {
    match r.state
    case Start => (sh.(startWaiters := Registered(sh.startWaiters, cx)), r, Pending)
    case StartComplete =>
      if failure.Some? then (sh, r, Ready(Err(ReadOther(failure.value))))
      else (sh, r.(state := ShutdownComplete, waiters := []), Ready(Ok(())))
    case ShutdownComplete =>
      (sh, r, Ready(if sh.connError.Some? then Err(ReadConnectionLost(sh.connError.value))
                    else if r.errorCode.Some? then Err(Reset(r.errorCode.value))
                    else Ok(())))
    case _ => (sh, r, Ready(Err(NotReadable)))
  }

  /** `abort_read`: the same transition, but it leaves the parked readers where they are. */
  function AbortRead(r: Recv, failure: Option<nat>): (Recv, Result<(), ReadError>) {
    if r.state != StartComplete then (r, Err(NotReadable))
    else if failure.Some? then (r, Err(ReadOther(failure.value)))
    else (r.(state := ShutdownComplete), Ok(()))
  }

  /** `PeerSendShutdown`, and `PeerSendAborted` with its error code. */
  function OnPeerSendEnd(r: Recv, code: Option<nat>): Recv {
    r.(state := ShutdownComplete, errorCode := if code.Some? then code else r.errorCode, waiters := [])
  }

  /** The receive half once the peer has accepted the stream. */
  function OnAccepted(sh: Shared, r: Recv): Recv {
    if sh.bidirectional then r.(state := StartComplete) else r
  }
}
