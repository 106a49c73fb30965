/**
 Every interleaving of the receive half: application polls, drops of held buffers in any
 order, and MsQuic events under MsQuic's own contract. Each critical section is one step.
 */
module ReceiveRuns {
  import opened Common
  import opened Sync
  import opened RangeSet
  import opened Completion
  import opened RecvBuffer
  import opened StreamTypes
  import opened Receive
  import Runs
  import StartPath

  datatype World = World(
    localOpen: bool,            // opened by this side: must be accepted before it is read
    finalSize: nat,             // the stream's final size, known to the peer
    sh: Shared,
    r: Recv,
    held: seq<Chunk>,           // popped by a reader and not dropped yet, by whoever holds them
    calls: seq<nat>,            // lengths passed to `receive_complete`, in order
    withheld: nat,              // bytes the sweep completed without calling MsQuic
    appClosed: bool,            // the sweep ran while the application was closing the stream
    received: seq<byte>,
    delivered: seq<byte>,       // bytes handed to readers, in lock order
    lost: seq<byte>,            // bytes the shutdown sweep discarded
    registered: multiset<nat>,  // identities of the buffers registered as complete
    nextId: nat,
    finSeen: bool,
    accepted: bool,
    shutdownSeen: bool,         // some shutdown event has been indicated
    aborted: bool,              // the native abort of the readable half was made
    past: Past,
    silent: bool)               // `abort_read` ended the half without waking

  datatype Step =
    | StepStart(cx: Task, refused: Option<Status>)
    | StepRead(cx: Task, want: nat)
    | StepReadChunk(cx: Task)
    | StepAdvance(i: nat, n: nat)
    | StepDrop(i: nat)
    | StepPollAbort(cx: Task, failure: Option<nat>)
    | StepAbort(failure: Option<nat>)
    | EventStartComplete(status: Status, peerAccepted: bool)
    | EventAccepted
    | EventReceive(segments: seq<seq<byte>>, fin: bool)
    | EventPeerSendShutdown
    | EventPeerSendAborted(code: nat)
    | EventCancelOnLoss
    | EventShutdownComplete(loss: Loss, appClose: bool)

  /** A new stream: opened here and closed both ways, or started by the peer and readable. */
  ghost predicate Initial(w: World) {
    && w.sh == Shared(w.sh.bidirectional, Opened, None, false, None, []) && !w.aborted && w.past == NOTHING
    && w.r == Recv(if w.localOpen then Closed else StartComplete, [], 0, FRESH, None, [])
    && w.held == [] && w.calls == [] && w.withheld == 0 && !w.appClosed
    && w.received == [] && w.delivered == [] && w.lost == []
    && w.registered == multiset{} && w.nextId == 0
    && !w.finSeen && !w.shutdownSeen && !w.silent
    && w.accepted == !w.localOpen
  }

  /** MsQuic indicates events between the start of the stream and ShutdownComplete, its last event. */
  predicate Indicating(w: World) {
    w.sh.life != Completed && (w.sh.life == Opened ==> !w.localOpen)
  }

  /** What MsQuic and the owners of held buffers may do next. */
  ghost predicate Enabled(w: World, step: Step) {
    match step
    case StepStart(_, _) => w.localOpen
    case StepRead(_, _) => true
    case StepReadChunk(_) => true
    case StepAdvance(i, n) => i < |w.held| && w.held[i].Valid() && n <= |w.held[i].Unread()|
    case StepDrop(i) => i < |w.held|
    case StepPollAbort(_, _) => true
    case StepAbort(_) => true
    // the start or accept indication comes at most once and before any shutdown event
    case EventStartComplete(_, peerAccepted) =>
      w.sh.life == Starting && !w.shutdownSeen && (peerAccepted ==> !w.accepted)
    case EventAccepted => w.sh.life == Starting && !w.accepted && !w.shutdownSeen
    // data is contiguous and ends with FIN; no segment is empty; one event stays below 2^32
    case EventReceive(segs, fin) =>
      && Indicating(w) && !w.finSeen
      && (forall i :: 0 <= i < |segs| ==> segs[i] != [])
      && |Flat(segs)| < U32_LIMIT
      && |w.received| + |Flat(segs)| <= w.finalSize
      && (fin ==> |w.received| + |Flat(segs)| == w.finalSize)
    // only after everything up to the final size has been reported complete
    case EventPeerSendShutdown => Indicating(w) && Sum(w.calls) == w.finalSize
    case EventPeerSendAborted(_) => Indicating(w)
    case EventCancelOnLoss => w.sh.life != Completed
    // an application close drops the last reference to the stream, and a held buffer has one
    case EventShutdownComplete(_, appClose) => appClose ==> w.held == []
  }

  ghost function AfterRead<T>(w: World, s: ReadStep<T>): World {
    w.(sh := s.shared, r := s.recv, held := w.held + s.popped, delivered := w.delivered + s.got)
  }

  ghost function Started(w: World, cx: Task, refused: Option<Status>): World {
    var st := StartPath.PollStart(w.sh, w.r.state, Closed, cx, refused);
    w.(sh := st.shared, r := w.r.(state := st.recv))
  }

  ghost function Dropped(w: World, i: nat): World
    requires i < |w.held|
  {
    var (a, call) := DropChunk(w.r.acct, w.held[i]);
    w.(r := w.r.(acct := a), held := w.held[..i] + w.held[i + 1..], calls := Append(w.calls, call),
       registered := w.registered + Completes(w.held[i]))
  }

  ghost function Aborted(w: World, failure: Option<nat>): World {
    var (r, res) := AbortRead(w.r, failure);
    w.(r := r, silent := w.silent || res.Ok?, aborted := w.aborted || (w.r.state == StartComplete && failure.None?))
  }

  ghost function PollAborted(w: World, cx: Task, failure: Option<nat>): World {
    var (sh, r, _) := PollAbortRead(w.sh, w.r, cx, failure);
    w.(sh := sh, r := r, aborted := w.aborted || (w.r.state == StartComplete && failure.None?))
  }

  ghost function Arrived(w: World, segs: seq<seq<byte>>, fin: bool): World {
    var c := Chunk(w.nextId, |w.received|, Flat(segs), 0, fin, false);
    w.(r := OnReceive(w.r, c), received := w.received + c.data, nextId := w.nextId + 1, finSeen := fin)
  }

  ghost function Swept(w: World, loss: Loss, appClose: bool): World
    requires AllValid(w.r.queue)
  {
    var c := OnShutdownComplete(w.sh, w.r, loss);
    if w.sh.life == Completed then w.(sh := c.shared, r := c.recv, shutdownSeen := true)
    else
      w.(sh := c.shared, r := c.recv, shutdownSeen := true, past := w.past.(ending := Some(loss)),
         calls := w.calls + (if appClose then [] else c.swept) + c.dropped,
         withheld := w.withheld + if appClose then Sum(c.swept) else 0,
         appClosed := appClose,
         lost := w.lost + Unread(w.r.queue),
         registered := w.registered + Ids(w.r.queue) + Completions(w.r.queue))
  }

  ghost function Next(w: World, step: Step): World
    requires AllValid(w.r.queue) && Enabled(w, step)
  {
    match step
    case StepStart(cx, refused) => Started(w, cx, refused)
    case StepRead(cx, want) => AfterRead(w, PollRead(w.sh, w.r, cx, want))
    case StepReadChunk(cx) => AfterRead(w, PollReadChunk(w.sh, w.r, cx))
    case StepAdvance(i, n) => w.(held := w.held[i := w.held[i].Read(n)])
    case StepDrop(i) => Dropped(w, i)
    case StepPollAbort(cx, failure) => PollAborted(w, cx, failure)
    case StepAbort(failure) => Aborted(w, failure)
    case EventStartComplete(status, peerAccepted) =>
      var on := status == Success && peerAccepted;
      w.(sh := w.sh.(startStatus := Some(status), life := if on then StreamTypes.Started else w.sh.life,
                     startWaiters := if status == LimitReached || peerAccepted then [] else w.sh.startWaiters),
         r := if on then OnAccepted(w.sh, w.r) else w.r, accepted := w.accepted || on, past := w.past.(status := Some(status)))
    case EventAccepted =>
      w.(sh := w.sh.(life := StreamTypes.Started, startWaiters := []), r := OnAccepted(w.sh, w.r), accepted := true)
    case EventReceive(segs, fin) => Arrived(w, segs, fin)
    case EventPeerSendShutdown => w.(r := OnPeerSendEnd(w.r, None), shutdownSeen := true)
    case EventPeerSendAborted(code) =>
      w.(r := OnPeerSendEnd(w.r, Some(code)), shutdownSeen := true, past := w.past.(code := Some(code)))
    case EventCancelOnLoss => w.(sh := w.sh.(cancelledOnLoss := true), past := w.past.(cancelled := true))
    case EventShutdownComplete(loss, appClose) => Swept(w, loss, appClose)
  }

  ghost function Ids(q: seq<Chunk>): multiset<nat> {
    if q == [] then multiset{} else Ids(q[..|q| - 1]) + multiset{q[|q| - 1].id}
  }

  /** The completion the drop of a buffer causes, if any. */
  ghost function Completes(c: Chunk): multiset<nat> {
    if c.attached then multiset{c.id} else multiset{}
  }

  ghost function Completions(q: seq<Chunk>): multiset<nat> {
    if q == [] then multiset{} else Completions(q[..|q| - 1]) + Completes(q[|q| - 1])
  }

  // ---- Conservation: every byte, and every buffer, is in exactly one place ----

  datatype Key = AtByte(p: nat) | Buffer(id: nat)

  predicate Matches(c: Chunk, k: Key) {
    match k
    case AtByte(p) => c.Covers(p)
    case Buffer(id) => c.id == id
  }

  ghost function Count(q: seq<Chunk>, k: Key): nat {
    if q == [] then 0 else One(Matches(q[0], k)) + Count(q[1..], k)
  }

  lemma {:induction false} CountAppend(a: seq<Chunk>, b: seq<Chunk>, k: Key)
    ensures Count(a + b, k) == Count(a, k) + Count(b, k)
  {
    if a == [] {
      assert a + b == b;
    } else {
      assert (a + b)[1..] == a[1..] + b;
      CountAppend(a[1..], b, k);
    }
  }

  lemma {:induction false} CountSnoc(a: seq<Chunk>, c: Chunk, k: Key)
    ensures Count(a + [c], k) == Count(a, k) + One(Matches(c, k))
  {
    CountAppend(a, [c], k);
    assert [c][1..] == [];
  }

  lemma {:induction false} CountWithout(q: seq<Chunk>, i: nat, k: Key)
    requires i < |q|
    ensures Count(q, k) == Count(q[..i] + q[i + 1..], k) + One(Matches(q[i], k))
  {
    CountAppend(q[..i], q[i + 1..], k);
    CountAppend(q[..i], q[i..], k);
    assert q == q[..i] + q[i..];
    assert q[i..][1..] == q[i + 1..];
  }

  /** The same buffers, possibly read to different positions and tied to the stream. */
  ghost predicate SameBuffers(a: seq<Chunk>, b: seq<Chunk>) {
    |a| == |b| && forall i :: 0 <= i < |a| ==> a[i] == b[i].(pos := a[i].pos, attached := a[i].attached)
  }

  lemma {:induction false} CountSame(a: seq<Chunk>, b: seq<Chunk>, k: Key)
    requires SameBuffers(a, b)
    ensures Count(a, k) == Count(b, k)
  {
    if a != [] {
      CountSame(a[1..], b[1..], k);
    }
  }

  /** A buffer with a byte at position p is counted there. */
  lemma {:induction false} CountPositive(q: seq<Chunk>, i: nat, k: Key)
    requires i < |q| && Matches(q[i], k)
    ensures Count(q, k) >= 1
  {
    CountWithout(q, i, k);
  }

  ghost function Gone(w: World, k: Key): nat {
    match k
    case AtByte(p) => One(Contains(w.r.acct.done, p))
    case Buffer(id) => w.registered[id]
  }

  ghost function Born(w: World, k: Key): nat {
    match k
    case AtByte(p) => One(p < |w.received|)
    case Buffer(id) => One(id < w.nextId)
  }

  ghost predicate ConservedAt(w: World, k: Key) {
    Count(w.r.queue, k) + Count(w.held, k) + Gone(w, k) == Born(w, k)
  }

  ghost predicate Conserved(w: World) {
    forall k: Key :: ConservedAt(w, k)
  }

  // ---- The other invariants ----

  ghost predicate Genuine(received: seq<byte>, c: Chunk) {
    && c.Valid()
    && c.offset + |c.data| <= |received|
    && c.data == received[c.offset..c.offset + |c.data|]
  }

  ghost predicate Authentic(w: World) {
    && (forall i :: 0 <= i < |w.r.queue| ==> Genuine(w.received, w.r.queue[i]))
    && (forall i :: 0 <= i < |w.held| ==> Genuine(w.received, w.held[i]))
  }

  ghost predicate Accounted(w: World) {
    && Completion.Inv(w.r.acct)
    && Sum(w.calls) + w.withheld == w.r.acct.cursor
    && w.r.recvLen == |w.received|
    && (w.sh.life != Completed || !w.appClosed ==> w.withheld == 0)
  }

  /** A buffer is tied to the stream exactly once it has left the queue. */
  ghost predicate Tied(w: World) {
    && Untied(w.r.queue)
    && (forall i :: 0 <= i < |w.held| ==> w.held[i].attached)
  }

  ghost predicate Delivered(w: World)
    requires AllValid(w.r.queue)
  {
    && w.delivered + Unread(w.r.queue) + w.lost == w.received
    && (w.sh.life != Completed ==> w.lost == [])
    && (w.sh.life == Completed ==> w.r.queue == [])
  }

  ghost predicate FinTracked(w: World) {
    && |w.received| <= w.finalSize
    && (w.finSeen ==> |w.received| == w.finalSize)
    && (forall i :: 0 <= i < |w.r.queue| && w.r.queue[i].fin ==> w.finSeen && i == |w.r.queue| - 1)
    && (w.r.state in {Closed, Start, StartComplete} && w.finSeen ==> LastFin(w.r.queue))
    && (w.r.state == Shutdown ==> w.finSeen && w.r.queue == [])
  }

  ghost predicate Parked(w: World) {
    && Distinct(w.r.waiters)
    && (w.r.waiters != [] ==> w.r.queue == [] && (w.r.state == StartComplete || w.silent))
  }

  ghost predicate Phased(w: World) {
    && (!w.accepted ==> w.r.state in {Closed, Start, ShutdownComplete})
    && (w.r.state == ShutdownComplete ==> w.accepted || w.shutdownSeen)
    && (w.sh.life == Opened && w.localOpen ==> w.r.state == Closed && !w.finSeen && !w.shutdownSeen)
    && (w.sh.life == Completed ==> w.shutdownSeen && w.r.state == ShutdownComplete)
    && (w.silent ==> w.r.state == ShutdownComplete && w.accepted)
    && (w.r.state == Start ==> w.sh.life == Starting && w.sh.bidirectional)
    && (w.sh.life == Starting ==> w.localOpen)
    && (w.sh.life == Starting && w.sh.bidirectional ==> w.r.state == if w.shutdownSeen then ShutdownComplete else Start)
    && Distinct(w.sh.startWaiters) && (w.sh.startWaiters != [] ==> w.sh.life == Starting)
  }

  /** What a read may bring to an end holds together. */
  ghost predicate EndHolds(w: World) {
    var holds :=
      FinTracked(w) && Parked(w) && Phased(w);
    holds
  }

  ghost predicate Inv(w: World) {
    var holds :=
      Authentic(w) && Tied(w) && Conserved(w) && Accounted(w) && Delivered(w) && FinTracked(w) && Parked(w) && Phased(w);
    holds
  }

  // ---- A copying read ----

  lemma {:induction false} UnreadHead(c: Chunk, rest: seq<Chunk>)
    requires c.Valid() && AllValid(rest)
    ensures AllValid([c] + rest) && Unread([c] + rest) == c.Unread() + Unread(rest)
  {
    assert ([c] + rest)[1..] == rest;
  }

  lemma {:induction false} ReadSplits(q: seq<Chunk>, n: nat)
    requires AllValid(q) && q != [] && n <= |q[0].Unread()|
    ensures AllValid([q[0].Read(n)] + q[1..])
    ensures Unread(q) == q[0].Unread()[..n] + Unread([q[0].Read(n)] + q[1..])
  {
    var front, back := q[0].Unread()[..n], q[0].Read(n).Unread();
    UnreadHead(q[0].Read(n), q[1..]);
    assert q[0].Unread() == front + back;
    assert (front + back) + Unread(q[1..]) == front + (back + Unread(q[1..]));
  }

  /** A copying read takes exactly the front of what is unread, and all of it when asked for more. */
  lemma {:induction false} DrainTakesFront(q: seq<Chunk>, want: nat)
    requires AllValid(q)
    ensures var d := Drain(q, want);
            && d.got + Unread(d.queue) == Unread(q)
            && |d.got| == Min(want, |Unread(q)|)
            && (|d.got| < want ==> d.queue == [])
            && (q != [] && d.queue == [] ==> |d.got| < want)
    decreases |q|, want
  {
    if want == 0 || q == [] {
      assert Drain(q, want) == Drained([], q, []);
      assert [] + Unread(q) == Unread(q);
    } else if q[0].pos == |q[0].data| {
      DrainTakesFront(q[1..], want);
      var e := Drain(q[1..], want);
      assert Drain(q, want) == e.(popped := [q[0].Attached()] + e.popped);
      assert Unread(q) == [] + Unread(q[1..]);
    } else {
      var n := Min(want, |q[0].data| - q[0].pos);
      var rest := [q[0].Read(n)] + q[1..];
      ReadSplits(q, n);
      DrainTakesFront(rest, want - n);
      var e := Drain(rest, want - n);
      assert Drain(q, want) == e.(got := q[0].Unread()[..n] + e.got);
      GluesFront(q[0].Unread()[..n], e, Unread(rest));
    }
  }

  lemma {:induction false} GluesFront(front: seq<byte>, e: Drained, rest: seq<byte>)
    requires AllValid(e.queue) && e.got + Unread(e.queue) == rest
    ensures (front + e.got) + Unread(e.queue) == front + rest
  {
    assert front + e.got + Unread(e.queue) == front + (e.got + Unread(e.queue));
  }

  lemma {:induction false} SameBuffersCons(c: Chunk, d: Chunk, a: seq<Chunk>, b: seq<Chunk>)
    requires c == d.(pos := c.pos, attached := c.attached) && SameBuffers(a, b)
    ensures SameBuffers([c] + a, [d] + b)
  {
  }

  /** It pops only exhausted buffers, and keeps every buffer in order. */
  lemma {:induction false} DrainKeepsBuffers(q: seq<Chunk>, want: nat)
    requires AllValid(q)
    ensures var d := Drain(q, want);
            && SameBuffers(d.popped + d.queue, q)
            && (forall i :: 0 <= i < |d.popped| ==> d.popped[i].pos == |d.popped[i].data|)
    decreases |q|, want
  {
    hide SameBuffers;
    if want == 0 || q == [] {
      assert [] + q == q;
      SameBuffersHead(q, q);
    } else if q[0].pos == |q[0].data| {
      var e := Drain(q[1..], want);
      DrainKeepsBuffers(q[1..], want);
      SameBuffersCons(q[0].Attached(), q[0], e.popped + e.queue, q[1..]);
      assert [q[0]] + q[1..] == q;
      assert [q[0].Attached()] + e.popped + e.queue == [q[0].Attached()] + (e.popped + e.queue);
    } else {
      var n := Min(want, |q[0].data| - q[0].pos);
      var rest := [q[0].Read(n)] + q[1..];
      DrainKeepsBuffers(rest, want - n);
      SameBuffersHead(Drain(rest, want - n).popped + Drain(rest, want - n).queue, q);
    }
  }

  /** Reading from the front buffer leaves it the same buffer. */
  lemma {:induction false} SameBuffersHead(a: seq<Chunk>, q: seq<Chunk>)
    requires a == q || (q != [] && exists n: nat :: SameBuffers(a, [q[0].Read(n)] + q[1..]))
    ensures SameBuffers(a, q)
  {
  }

  // ---- Each step keeps the invariants ----

  /** What a step that moves buffers from the queue to a reader must satisfy. */
  ghost predicate Takes(w: World, v: World, popped: seq<Chunk>, got: seq<byte>)
    requires AllValid(w.r.queue)
  {
    var holds :=
      && AllValid(v.r.queue)
      && v == w.(sh := v.sh, r := v.r, held := w.held + popped, delivered := w.delivered + got)
      && v.sh.life == w.sh.life && v.r.acct == w.r.acct && v.r.recvLen == w.r.recvLen
      && SameBuffers(popped + v.r.queue, w.r.queue)
      && got + Unread(v.r.queue) == Unread(w.r.queue)
      && (forall i :: 0 <= i < |popped| ==> popped[i].attached)
      && (Untied(w.r.queue) ==> Untied(v.r.queue));
    holds
  }

  lemma {:induction false} TakeConserves(w: World, v: World, popped: seq<Chunk>, got: seq<byte>, k: Key)
    requires AllValid(w.r.queue) && Takes(w, v, popped, got) && ConservedAt(w, k)
    ensures ConservedAt(v, k)
  {
    CountSame(popped + v.r.queue, w.r.queue, k);
    CountAppend(popped, v.r.queue, k);
    CountAppend(w.held, popped, k);
  }

  lemma {:induction false} SplitSame(a: seq<Chunk>, b: seq<Chunk>, q: seq<Chunk>)
    requires SameBuffers(a + b, q)
    ensures |a| + |b| == |q|
    ensures forall i :: 0 <= i < |a| ==> a[i] == q[i].(pos := a[i].pos, attached := a[i].attached)
    ensures forall i :: 0 <= i < |b| ==> b[i] == q[|a| + i].(pos := b[i].pos, attached := b[i].attached)
  {
    assert forall i :: 0 <= i < |a| ==> a[i] == (a + b)[i];
    assert forall i :: 0 <= i < |b| ==> b[i] == (a + b)[|a| + i];
  }

  lemma {:induction false} TakeAuthentic(w: World, v: World, popped: seq<Chunk>, got: seq<byte>)
    requires Authentic(w) && Takes(w, v, popped, got) && AllValid(popped)
    ensures Authentic(v)
  {
    SplitSame(popped, v.r.queue, w.r.queue);
    hide SameBuffers, Untied, Unread, ConservedAt;
    forall i | 0 <= i < |v.r.queue| ensures Genuine(v.received, v.r.queue[i]) {
      assert Genuine(w.received, w.r.queue[|popped| + i]);
    }
    forall i | 0 <= i < |v.held| ensures Genuine(v.received, v.held[i]) {
      if i < |w.held| {
        assert v.held[i] == w.held[i] && Genuine(w.received, w.held[i]);
      } else {
        assert v.held[i] == popped[i - |w.held|] && Genuine(w.received, w.r.queue[i - |w.held|]);
      }
    }
  }

  lemma {:induction false} TakeKeeps(w: World, v: World, popped: seq<Chunk>, got: seq<byte>)
    requires Inv(w) && Takes(w, v, popped, got) && AllValid(popped)
    ensures Authentic(v) && Tied(v) && Conserved(v) && Accounted(v) && Delivered(v)
  {
    TakeAuthentic(w, v, popped, got);
    forall k: Key ensures ConservedAt(v, k) {
      assert ConservedAt(w, k);
      TakeConserves(w, v, popped, got, k);
    }
    assert w.delivered + (got + Unread(v.r.queue)) == w.delivered + got + Unread(v.r.queue);
  }

  /** The queue after a read: where its FIN buffer is, and when the FIN was popped. */
  lemma {:induction false} TakeFin(w: World, popped: seq<Chunk>, queue: seq<Chunk>)
    requires Authentic(w) && FinTracked(w) && w.r.state == StartComplete
    requires SameBuffers(popped + queue, w.r.queue)
    ensures forall i :: 0 <= i < |queue| && queue[i].fin ==> w.finSeen && i == |queue| - 1
    ensures LastFin(popped) ==> w.finSeen && queue == []
    ensures w.finSeen && !LastFin(popped) ==> LastFin(queue)
  {
    SplitSame(popped, queue, w.r.queue);
  }

  lemma {:induction false} ReadKeeps(w: World, cx: Task, want: nat)
    requires Inv(w)
    ensures Inv(AfterRead(w, PollRead(w.sh, w.r, cx, want)))
  {
    var v := AfterRead(w, PollRead(w.sh, w.r, cx, want));
    ReadEnds(w, cx, want);
    if ReadGate(w.sh, w.r) == Go {
      var d := Drain(w.r.queue, want);
      ReadTakes(w, cx, want);
      TakeKeeps(w, v, d.popped, d.got);
    } else {
      SameKeeps(w, v);
    }
  }

  lemma {:induction false} ReadTakes(w: World, cx: Task, want: nat)
    requires AllValid(w.r.queue) && ReadGate(w.sh, w.r) == Go
    ensures var d := Drain(w.r.queue, want);
            Takes(w, AfterRead(w, PollRead(w.sh, w.r, cx, want)), d.popped, d.got)
  {
    DrainTakesFront(w.r.queue, want);
    DrainKeepsBuffers(w.r.queue, want);
    DrainTies(w.r.queue, want);
    hide Drain, SameBuffers, Untied, Unread;
  }

  lemma {:induction false} ReadEndsGiven(w: World, v: World, d: Drained, cx: Task, want: nat)
    requires AllValid(w.r.queue) && ReadGate(w.sh, w.r) == Go && EndHolds(w)
    requires v == AfterRead(w, PollRead(w.sh, w.r, cx, want)) && d == Drain(w.r.queue, want)
    requires |d.got| < want ==> d.queue == []
    requires |d.popped| + |d.queue| == |w.r.queue|
    requires forall i :: 0 <= i < |d.queue| && d.queue[i].fin ==> w.finSeen && i == |d.queue| - 1
    requires LastFin(d.popped) ==> w.finSeen && d.queue == []
    requires w.finSeen && !LastFin(d.popped) ==> LastFin(d.queue)
    requires w.r.queue != [] && d.queue == [] ==> |d.got| < want
    ensures EndHolds(v)
  {
  }

  /** A read ends the half exactly when it popped the FIN buffer, and parks only on an empty queue. */
  lemma {:induction false} ReadEnds(w: World, cx: Task, want: nat)
    requires Authentic(w) && EndHolds(w)
    ensures var v := AfterRead(w, PollRead(w.sh, w.r, cx, want)); EndHolds(v)
  {
    if ReadGate(w.sh, w.r) == Go {
      var d := Drain(w.r.queue, want);
      DrainTakesFront(w.r.queue, want);
      DrainKeepsBuffers(w.r.queue, want);
      TakeFin(w, d.popped, d.queue);
      ReadEndsGiven(w, AfterRead(w, PollRead(w.sh, w.r, cx, want)), d, cx, want);
    }
  }

  lemma {:induction false} ReadChunkTakes(w: World, cx: Task)
    requires AllValid(w.r.queue) && ReadGate(w.sh, w.r) == Go && w.r.queue != []
    ensures var c := w.r.queue[0];
            Takes(w, AfterRead(w, PollReadChunk(w.sh, w.r, cx)), [c.Attached()], c.Unread())
  {
    var c := w.r.queue[0];
    assert [c] + w.r.queue[1..] == w.r.queue;
    SameBuffersCons(c.Attached(), c, w.r.queue[1..], w.r.queue[1..]);
  }

  lemma {:induction false} ReadChunkEnds(w: World, cx: Task)
    requires Authentic(w) && EndHolds(w)
    ensures var v := AfterRead(w, PollReadChunk(w.sh, w.r, cx)); EndHolds(v)
  {
    if ReadGate(w.sh, w.r) == Go && w.r.queue != [] {
      assert [w.r.queue[0]] + w.r.queue[1..] == w.r.queue;
      SameBuffersCons(w.r.queue[0].Attached(), w.r.queue[0], w.r.queue[1..], w.r.queue[1..]);
      TakeFin(w, [w.r.queue[0].Attached()], w.r.queue[1..]);
    }
  }

  lemma {:induction false} ReadChunkKeeps(w: World, cx: Task)
    requires Inv(w)
    ensures Inv(AfterRead(w, PollReadChunk(w.sh, w.r, cx)))
  {
    var v := AfterRead(w, PollReadChunk(w.sh, w.r, cx));
    ReadChunkEnds(w, cx);
    if ReadGate(w.sh, w.r) == Go && w.r.queue != [] {
      ReadChunkTakes(w, cx);
      TakeKeeps(w, v, [w.r.queue[0].Attached()], w.r.queue[0].Unread());
    } else {
      SameKeeps(w, v);
    }
  }

  /** Steps that touch neither buffers nor accounting. */
  lemma {:induction false} SameKeeps(w: World, v: World)
    requires Inv(w)
    requires v.held == w.held && v.received == w.received && v.delivered == w.delivered && v.lost == w.lost
    requires v.calls == w.calls && v.withheld == w.withheld && v.appClosed == w.appClosed && v.registered == w.registered && v.nextId == w.nextId
    requires v.r.queue == w.r.queue && v.r.acct == w.r.acct && v.r.recvLen == w.r.recvLen
    requires (v.sh.life == Completed) == (w.sh.life == Completed)
    ensures Authentic(v) && Tied(v) && Conserved(v) && Accounted(v) && Delivered(v)
  {
    forall k: Key ensures ConservedAt(v, k) {
      assert ConservedAt(w, k);
    }
  }

  lemma {:induction false} AdvanceKeeps(w: World, i: nat, n: nat)
    requires Inv(w) && Enabled(w, StepAdvance(i, n))
    ensures Inv(w.(held := w.held[i := w.held[i].Read(n)]))
  {
    var v := w.(held := w.held[i := w.held[i].Read(n)]);
    assert SameBuffers(v.held, w.held);
    hide ConservedAt, SameBuffers;
    forall k: Key ensures ConservedAt(v, k) {
      AdvanceConserves(w, v, k);
    }
  }

  lemma {:induction false} AdvanceConserves(w: World, v: World, k: Key)
    requires ConservedAt(w, k) && SameBuffers(v.held, w.held) && v == w.(held := v.held)
    ensures ConservedAt(v, k)
  {
    CountSame(v.held, w.held, k);
  }

  /** Registering a buffer adds exactly the positions it covers. */
  lemma {:induction false} RegisterAddsCovered(a: Accounting, c: Chunk, p: nat)
    requires Completion.Inv(a)
    ensures Contains(RegisterChunk(a, c).0.done, p) <==> Contains(a.done, p) || c.Covers(p)
  {
    RegisterRefines(a, Range(c.offset, c.offset + |c.data|), c.offset, c.pos == |c.data|, c.fin);
  }

  /** Registering a buffer reports exactly the cursor's advance. */
  lemma {:induction false} RegisterAdvances(a: Accounting, c: Chunk)
    requires Completion.Inv(a)
    ensures var (b, call) := RegisterChunk(a, c); Completion.Inv(b) && b.cursor == a.cursor + Reported(call)
  {
    RegisterRefines(a, Range(c.offset, c.offset + |c.data|), c.offset, c.pos == |c.data|, c.fin);
  }

  lemma {:induction false} DropConserves(w: World, i: nat, k: Key)
    requires i < |w.held| && w.held[i].attached && Completion.Inv(w.r.acct) && ConservedAt(w, k)
    ensures ConservedAt(Dropped(w, i), k)
  {
    CountWithout(w.held, i, k);
    var v := Dropped(w, i);
    assert v.held == w.held[..i] + w.held[i + 1..] && v.r.queue == w.r.queue;
    hide Dropped, Count, RegisterChunk, Contains, Completion.Inv;
    DropReleases(w, i, k);
  }

  /** What the drop of a buffer releases is what the buffer covers. */
  lemma {:induction false} DropReleases(w: World, i: nat, k: Key)
    requires i < |w.held| && w.held[i].attached && Completion.Inv(w.r.acct)
    requires Gone(w, k) + One(Matches(w.held[i], k)) <= 1
    ensures Gone(Dropped(w, i), k) == Gone(w, k) + One(Matches(w.held[i], k)) && Born(Dropped(w, i), k) == Born(w, k)
  {
    hide RegisterChunk, Contains, Completion.Inv;
    if k.AtByte? {
      RegisterAddsCovered(w.r.acct, w.held[i], k.p);
    }
  }

  lemma {:induction false} DropAccounts(w: World, i: nat)
    requires i < |w.held| && w.held[i].attached && Accounted(w)
    ensures Accounted(Dropped(w, i))
  {
    hide RegisterChunk, Completion.Inv, Completes;
    RegisterAdvances(w.r.acct, w.held[i]);
    var call := RegisterChunk(w.r.acct, w.held[i]).1;
    if call.Some? {
      SumSnoc(w.calls, call.value);
    }
  }

  /** Dropping a held buffer moves its bytes from held to released. */
  lemma {:induction false} DropKeeps(w: World, i: nat)
    requires Inv(w) && i < |w.held|
    ensures Inv(Dropped(w, i))
  {
    DropAccounts(w, i);
    forall k: Key ensures ConservedAt(Dropped(w, i), k) {
      assert ConservedAt(w, k);
      DropConserves(w, i, k);
    }
  }

  lemma {:induction false} ArriveConserves(w: World, segs: seq<seq<byte>>, fin: bool, k: Key)
    requires ConservedAt(w, k)
    requires forall i :: 0 <= i < |w.r.queue| ==> !Matches(w.r.queue[i], Buffer(w.nextId))
    ensures ConservedAt(Arrived(w, segs, fin), k)
  {
    CountSnoc(w.r.queue, Chunk(w.nextId, |w.received|, Flat(segs), 0, fin, false), k);
  }

  lemma {:induction false} ArriveAuthentic(w: World, segs: seq<seq<byte>>, fin: bool)
    requires Authentic(w)
    ensures Authentic(Arrived(w, segs, fin))
  {
    var v := Arrived(w, segs, fin);
    forall d: Chunk | Genuine(w.received, d) ensures Genuine(v.received, d) {
      assert v.received[d.offset..d.offset + |d.data|] == w.received[d.offset..d.offset + |d.data|];
    }
    var c := v.r.queue[|w.r.queue|];
    assert v.received[c.offset..c.offset + |c.data|] == c.data;
  }

  lemma {:induction false} ArriveDelivers(w: World, segs: seq<seq<byte>>, fin: bool)
    requires AllValid(w.r.queue) && Delivered(w) && w.sh.life != Completed
    ensures var v := Arrived(w, segs, fin); AllValid(v.r.queue) && Delivered(v)
  {
    UnreadSnoc(w.r.queue, Chunk(w.nextId, |w.received|, Flat(segs), 0, fin, false));
    assert w.delivered + Unread(w.r.queue) + [] == w.delivered + Unread(w.r.queue);
    assert w.delivered + (Unread(w.r.queue) + Flat(segs)) + [] == w.delivered + Unread(w.r.queue) + Flat(segs);
  }

  /** A Receive event brings fresh bytes and a fresh buffer. */
  lemma {:induction false} ReceiveKeeps(w: World, segs: seq<seq<byte>>, fin: bool)
    requires Inv(w) && Enabled(w, EventReceive(segs, fin))
    ensures Inv(Arrived(w, segs, fin))
  {
    ArriveAuthentic(w, segs, fin);
    ArriveDelivers(w, segs, fin);
    FreshId(w);
    forall k: Key ensures ConservedAt(Arrived(w, segs, fin), k) {
      assert ConservedAt(w, k);
      ArriveConserves(w, segs, fin, k);
    }
  }

  lemma {:induction false} FreshId(w: World)
    requires Conserved(w)
    ensures forall i :: 0 <= i < |w.r.queue| ==> !Matches(w.r.queue[i], Buffer(w.nextId))
  {
    forall i | 0 <= i < |w.r.queue| ensures !Matches(w.r.queue[i], Buffer(w.nextId)) {
      assert ConservedAt(w, Buffer(w.nextId));
      if Matches(w.r.queue[i], Buffer(w.nextId)) {
        CountPositive(w.r.queue, i, Buffer(w.nextId));
      }
    }
  }

  lemma {:induction false} UnreadSnoc(q: seq<Chunk>, c: Chunk)
    requires AllValid(q) && c.Valid()
    ensures AllValid(q + [c]) && Unread(q + [c]) == Unread(q) + c.Unread()
  {
    if q == [] {
      assert [c][1..] == [];
    } else {
      assert (q + [c])[1..] == q[1..] + [c];
      UnreadSnoc(q[1..], c);
    }
  }

  /** The sweep reports exactly the cursor's advance. */
  lemma {:induction false} SweepAccounts(a: Accounting, q: seq<Chunk>)
    requires Completion.Inv(a)
    ensures var (b, calls) := Sweep(a, q); Completion.Inv(b) && b.cursor == a.cursor + Sum(calls)
  {
    hide Completion.Inv, RegisterChunk;
    if q != [] {
      var n := |q| - 1;
      SweepAccounts(a, q[..n]);
      var (b, calls) := Sweep(a, q[..n]);
      RegisterAdvances(b, q[n]);
      var call := RegisterChunk(b, q[n]).1;
      if call.Some? {
        SumSnoc(calls, call.value);
      }
    }
  }

  /** The sweep releases exactly the positions the queue covers. */
  lemma {:induction false} SweepCovers(a: Accounting, q: seq<Chunk>, p: nat)
    requires Completion.Inv(a)
    requires Count(q, AtByte(p)) + One(Contains(a.done, p)) <= 1
    ensures One(Contains(Sweep(a, q).0.done, p)) == One(Contains(a.done, p)) + Count(q, AtByte(p))
  {
    if q != [] {
      var n := |q| - 1;
      assert q == q[..n] + [q[n]];
      CountSnoc(q[..n], q[n], AtByte(p));
      SweepCovers(a, q[..n], p);
      SweepAccounts(a, q[..n]);
      RegisterAddsCovered(Sweep(a, q[..n]).0, q[n], p);
    }
  }

  lemma {:induction false} IdsCount(q: seq<Chunk>, id: nat)
    ensures Ids(q)[id] == Count(q, Buffer(id))
  {
    if q != [] {
      var n := |q| - 1;
      assert q == q[..n] + [q[n]];
      CountSnoc(q[..n], q[n], Buffer(id));
      IdsCount(q[..n], id);
    }
  }

  lemma {:induction false} UntiedCompleteNothing(q: seq<Chunk>)
    requires Untied(q)
    ensures Completions(q) == multiset{}
  {
    if q != [] {
      UntiedCompleteNothing(q[..|q| - 1]);
    }
  }

  lemma {:induction false} SweepConserves(w: World, loss: Loss, appClose: bool, k: Key)
    requires AllValid(w.r.queue) && Tied(w) && Completion.Inv(w.r.acct) && w.sh.life != Completed && ConservedAt(w, k)
    ensures ConservedAt(Swept(w, loss, appClose), k)
  {
    UntiedDropsDoNothing(Sweep(w.r.acct, w.r.queue).0, w.r.queue);
    UntiedCompleteNothing(w.r.queue);
    hide Unread, Sum, LossError;
    match k
    case AtByte(p) => SweepCovers(w.r.acct, w.r.queue, p);
    case Buffer(id) => IdsCount(w.r.queue, id);
  }

  lemma {:induction false} SweepKeepsAccounts(w: World, loss: Loss, appClose: bool)
    requires AllValid(w.r.queue) && Tied(w) && Accounted(w) && w.sh.life != Completed
    ensures Accounted(Swept(w, loss, appClose))
  {
    UntiedDropsDoNothing(Sweep(w.r.acct, w.r.queue).0, w.r.queue);
    assert w.calls + [] + [] == w.calls && w.calls + Sweep(w.r.acct, w.r.queue).1 + [] == w.calls + Sweep(w.r.acct, w.r.queue).1;
    SweepAccounts(w.r.acct, w.r.queue);
    SumAppend(w.calls, Sweep(w.r.acct, w.r.queue).1);
  }

  lemma {:induction false} SweptAgainKeeps(w: World, loss: Loss, appClose: bool)
    requires Inv(w) && w.sh.life == Completed
    ensures Inv(Swept(w, loss, appClose))
  {
    SameKeeps(w, Swept(w, loss, appClose));
  }

  lemma {:induction false} SweepDiscards(w: World, loss: Loss, appClose: bool)
    requires AllValid(w.r.queue) && Delivered(w) && w.sh.life != Completed
    ensures AllValid(Swept(w, loss, appClose).r.queue) && Delivered(Swept(w, loss, appClose))
  {
    assert w.delivered + Unread(w.r.queue) + [] == w.delivered + [] + ([] + Unread(w.r.queue));
  }

  lemma {:induction false} SweptKeeps(w: World, loss: Loss, appClose: bool)
    requires Inv(w) && w.sh.life != Completed
    ensures Inv(Swept(w, loss, appClose))
  {
    hide Unread, Sweep, Sum, Count, Ids, ConservedAt, Completion.Inv, Accounted, Delivered;
    SweepKeepsAccounts(w, loss, appClose);
    SweepDiscards(w, loss, appClose);
    forall k: Key ensures ConservedAt(Swept(w, loss, appClose), k) {
      assert ConservedAt(w, k);
      SweepAdmits(w);
      SweepConserves(w, loss, appClose, k);
    }
  }

  lemma {:induction false} SweepAdmits(w: World)
    requires Accounted(w)
    ensures Completion.Inv(w.r.acct)
  {
  }

  lemma {:induction false} StartKeeps(w: World, cx: Task, refused: Option<Status>)
    requires Inv(w) && w.localOpen
    ensures Inv(Started(w, cx, refused))
  {
    SameKeeps(w, Started(w, cx, refused));
  }

  lemma {:induction false} AbortKeeps(w: World, failure: Option<nat>)
    requires Inv(w)
    ensures Inv(Aborted(w, failure))
  {
    SameKeeps(w, Aborted(w, failure));
  }

  lemma {:induction false} QueueValid(w: World)
    requires Authentic(w)
    ensures AllValid(w.r.queue)
  {
  }

  lemma {:induction false} AcceptKeeps(w: World, step: Step)
    requires Inv(w) && Enabled(w, step) && (step.EventStartComplete? || step.EventAccepted?)
    ensures Inv(Next(w, step))
  {
    QueueValid(w);
    assert Distinct([]);
    hide Authentic, Conserved, Accounted, Delivered, Tied, Distinct, Sum, AllValid;
    SameKeeps(w, Next(w, step));
  }

  lemma {:induction false} PeerEndKeeps(w: World, step: Step)
    requires Inv(w) && Enabled(w, step) && (step.EventPeerSendShutdown? || step.EventPeerSendAborted?)
    ensures Inv(Next(w, step))
  {
    QueueValid(w);
    hide Authentic, Conserved, Accounted, Delivered, Tied, Sum, AllValid;
    SameKeeps(w, Next(w, step));
  }

  lemma {:induction false} PollAbortKeeps(w: World, cx: Task, failure: Option<nat>)
    requires Inv(w)
    ensures Inv(PollAborted(w, cx, failure))
  {
    QueueValid(w);
    hide Authentic, Conserved, Accounted, Delivered, Tied, AllValid;
    SameKeeps(w, PollAborted(w, cx, failure));
  }

  lemma {:induction false} CancelKeeps(w: World)
    requires Inv(w) && Enabled(w, EventCancelOnLoss)
    ensures Inv(Next(w, EventCancelOnLoss))
  {
    QueueValid(w);
    hide Authentic, Conserved, Accounted, Delivered, Tied, AllValid;
    SameKeeps(w, Next(w, EventCancelOnLoss));
  }

  lemma {:induction false} StepKeeps(w: World, step: Step)
    requires Inv(w) && Enabled(w, step)
    ensures Inv(Next(w, step))
  {
    hide Inv;
    match step
    case StepStart(cx, refused) => StartKeeps(w, cx, refused);
    case StepRead(cx, want) => ReadKeeps(w, cx, want);
    case StepReadChunk(cx) => ReadChunkKeeps(w, cx);
    case StepAdvance(i, n) => AdvanceKeeps(w, i, n);
    case StepDrop(i) => DropKeeps(w, i);
    case StepAbort(failure) => AbortKeeps(w, failure);
    case EventReceive(segs, fin) => ReceiveKeeps(w, segs, fin);
    case EventShutdownComplete(loss, appClose) =>
      if w.sh.life == Completed {
        SweptAgainKeeps(w, loss, appClose);
      } else {
        SweptKeeps(w, loss, appClose);
      }
    case EventStartComplete(_, _) => AcceptKeeps(w, step);
    case EventAccepted => AcceptKeeps(w, step);
    case StepPollAbort(cx, failure) => PollAbortKeeps(w, cx, failure);
    case EventCancelOnLoss => CancelKeeps(w);
    case _ => PeerEndKeeps(w, step);
  }

  // ---- Runs ----

  ghost predicate Moves(w: World, step: Step, v: World) {
    AllValid(w.r.queue) && Enabled(w, step) && v == Next(w, step)
  }

  ghost predicate Reachable(v: World) {
    exists w: World, steps: seq<Step> :: Initial(w) && Runs.Leads(Moves, w, steps, v)
  }

  lemma {:induction false} InitialInv(w: World)
    requires Initial(w)
    ensures Inv(w)
  {
    assert w.delivered + Unread(w.r.queue) + w.lost == w.received;
    forall k: Key ensures ConservedAt(w, k) {
    }
  }

  lemma {:induction false} ReachableInv(v: World)
    requires Reachable(v)
    ensures Inv(v)
  {
    hide Inv, Initial;
    var w: World, steps: seq<Step> :| Initial(w) && Runs.Leads(Moves, w, steps, v);
    InitialInv(w);
    forall a: World, s: Step, b: World | Inv(a) && Moves(a, s, b) ensures Inv(b) {
      StepKeeps(a, s);
    }
    Runs.Keeps(Moves, Inv, w, steps, v);
  }

  // ---- The half is what its history makes it ----

  /** What the stream has recorded of its past. */
  ghost predicate Remembered(w: World) {
    var holds :=
      && w.sh.startStatus == w.past.status && w.sh.cancelledOnLoss == w.past.cancelled
      && w.r.errorCode == w.past.code && w.sh.connError == Reason(w.past)
      && (w.sh.life == Completed <==> w.past.ending.Some?);
    holds
  }

  /** The half has been ended, by MsQuic or by an abort from here. */
  predicate HasEnded(w: World) { w.shutdownSeen || w.aborted }

  /** There is a read half, and the peer has accepted the stream if it had to. */
  predicate Readable(w: World) { !w.localOpen || (w.accepted && w.sh.bidirectional) }

  predicate StartUnderWay(w: World) { w.sh.life == Starting && w.sh.bidirectional }

  ghost predicate Stated(w: World) {
    var holds :=
      && (w.r.state == ShutdownComplete <==> HasEnded(w))
      && (w.r.state in {StartComplete, Shutdown} <==> !HasEnded(w) && Readable(w))
      && (w.r.state == Start <==> !HasEnded(w) && !Readable(w) && StartUnderWay(w))
      && (w.aborted ==> Readable(w))
      && (w.localOpen && w.accepted ==> w.sh.life == StreamTypes.Started || w.sh.life == Completed);
    holds
  }

  /** A read may park, end an open half, and take from the queue; it changes nothing else. */
  lemma {:induction false} ReadsLeaveTheRest(w: World, cx: Task, want: nat)
    requires AllValid(w.r.queue)
    ensures var s := PollRead(w.sh, w.r, cx, want);
            && s.shared == w.sh.(startWaiters := s.shared.startWaiters) && s.recv.errorCode == w.r.errorCode
            && w.sh.startWaiters <= s.shared.startWaiters
            && (s.recv.state == w.r.state || (w.r.state == StartComplete && s.recv.state == Shutdown))
    ensures var s := PollReadChunk(w.sh, w.r, cx);
            && s.shared == w.sh.(startWaiters := s.shared.startWaiters) && s.recv.errorCode == w.r.errorCode
            && w.sh.startWaiters <= s.shared.startWaiters
            && (s.recv.state == w.r.state || (w.r.state == StartComplete && s.recv.state == Shutdown))
  {
    hide Drain, Unread;
  }

  ghost predicate SameRecord(w: World, v: World) {
    && v.past == w.past && v.r.errorCode == w.r.errorCode && v.sh.startStatus == w.sh.startStatus
    && v.sh.cancelledOnLoss == w.sh.cancelledOnLoss && v.sh.connError == w.sh.connError
    && (v.sh.life == Completed <==> w.sh.life == Completed) && w.sh.startWaiters <= v.sh.startWaiters
  }

  lemma {:induction false} StartRecordsNothing(w: World, cx: Task, refused: Option<Status>)
    ensures SameRecord(w, Started(w, cx, refused))
  {
  }

  lemma {:induction false} ReadsRecordNothing(w: World, cx: Task, want: nat)
    requires AllValid(w.r.queue)
    ensures SameRecord(w, AfterRead(w, PollRead(w.sh, w.r, cx, want))) && SameRecord(w, AfterRead(w, PollReadChunk(w.sh, w.r, cx)))
  {
    ReadsLeaveTheRest(w, cx, want);
    hide PollRead, PollReadChunk;
  }

  lemma {:induction false} AbortsRecordNothing(w: World, cx: Task, failure: Option<nat>)
    ensures SameRecord(w, PollAborted(w, cx, failure)) && SameRecord(w, Aborted(w, failure))
  {
  }

  predicate IsCall(step: Step) {
    step.StepStart? || step.StepRead? || step.StepReadChunk? || step.StepAdvance? || step.StepDrop? || step.StepPollAbort? || step.StepAbort?
  }

  lemma {:induction false} CallsRecordNothing(w: World, step: Step)
    requires AllValid(w.r.queue) && IsCall(step) && Enabled(w, step)
    ensures SameRecord(w, Next(w, step))
  {
    hide AfterRead, Started, PollAborted, Aborted, DropChunk, Completes, AllValid, PollRead, PollReadChunk;
    match step {
      case StepStart(cx, refused) => StartRecordsNothing(w, cx, refused);
      case StepRead(cx, want) => ReadsRecordNothing(w, cx, want);
      case StepReadChunk(cx) => ReadsRecordNothing(w, cx, 0);
      case StepPollAbort(cx, failure) => AbortsRecordNothing(w, cx, failure);
      case StepAbort(failure) => AbortsRecordNothing(w, 0, failure);
      case _ =>
    }
  }

  lemma {:induction false} RememberedKept(w: World, step: Step)
    requires AllValid(w.r.queue) && Remembered(w) && Enabled(w, step)
    ensures Remembered(Next(w, step))
  {
    if IsCall(step) {
      CallsRecordNothing(w, step);
      hide Next, Enabled, Reason;
    } else {
      EventRecorded(w, step);
    }
  }

  lemma {:induction false} EventRecorded(w: World, step: Step)
    requires AllValid(w.r.queue) && Remembered(w) && Enabled(w, step) && !IsCall(step)
    ensures Remembered(Next(w, step))
  {
    hide AllValid, Flat, Swept, Arrived;
    match step {
      case EventShutdownComplete(loss, appClose) =>
        SweptRecords(w, loss, appClose);
        hide Remembered;
      case EventReceive(segs, fin) =>
        ArrivalRecordsNothing(w, segs, fin);
        hide Reason;
      case _ =>
    }
  }

  lemma {:induction false} ArrivalRecordsNothing(w: World, segs: seq<seq<byte>>, fin: bool)
    ensures SameRecord(w, Arrived(w, segs, fin)) && Arrived(w, segs, fin).sh == w.sh
  {
    hide Flat;
  }

  lemma {:induction false} SweptRecords(w: World, loss: Loss, appClose: bool)
    requires AllValid(w.r.queue) && Remembered(w)
    ensures Remembered(Swept(w, loss, appClose))
  {
    if w.sh.life != Completed {
      LossIsTheReason(w.past, loss);
    }
    hide Sweep, DropAll, Unread, Ids, Completions, AllValid, LossError, Reason, Sum;
  }

  lemma {:induction false} StatedKept(w: World, step: Step)
    requires AllValid(w.r.queue) && Phased(w) && Stated(w) && Enabled(w, step)
    ensures Stated(Next(w, step))
  {
    if step.StepRead? || step.StepReadChunk? {
      ReadsLeaveTheRest(w, step.cx, if step.StepRead? then step.want else 0);
    }
    hide PollRead, PollReadChunk, Drain, Sweep, DropAll, DropChunk, Unread, Ids, Completions, Flat, Register, AllValid, Distinct, Registered;
  }

  lemma {:induction false} ReachableHistory(v: World)
    requires Reachable(v)
    ensures Inv(v) && Remembered(v) && Stated(v)
  {
    hide Inv, Initial, Remembered, Stated;
    var w: World, steps: seq<Step> :| Initial(w) && Runs.Leads(Moves, w, steps, v);
    InitialInv(w);
    InitialHistory(w);
    var inv := (a: World) => Inv(a) && Remembered(a) && Stated(a);
    forall a: World, s: Step, b: World | inv(a) && Moves(a, s, b) ensures inv(b) {
      hide Next, Enabled;
      StepKeeps(a, s);
      RememberedKept(a, s);
      InvPhased(a);
      StatedKept(a, s);
    }
    Runs.Keeps(Moves, inv, w, steps, v);
  }

  lemma {:induction false} InvPhased(w: World)
    requires Inv(w)
    ensures Phased(w)
  {
  }

  lemma {:induction false} InitialHistory(w: World)
    requires Initial(w)
    ensures Remembered(w) && Stated(w)
  {
  }

  // ---- What every call answers, told from the history alone ----

  /** Why a half has ended, in the order of precedence, if it did not end cleanly. */
  function WhyEnded(p: Past): Option<ReadError> {
    if Reason(p).Some? then Some(ReadConnectionLost(Reason(p).value))
    else if p.cancelled then Some(ReadCancelledOnLoss)
    else if p.code.Some? then Some(Reset(p.code.value))
    else None
  }

  /** The answer of a read that does not reach the queue. */
  ghost function Told<T>(w: World, cx: Task): ReadStep<Option<T>> {
    if HasEnded(w) then ReadStep(w.sh, w.r, [], [], Ready(if WhyEnded(w.past).Some? then Err(WhyEnded(w.past).value) else Ok(None)))
    else if Readable(w) then ReadStep(w.sh, w.r, [], [], Ready(Ok(None)))
    else if StartUnderWay(w) then ReadStep(w.sh.(startWaiters := Registered(w.sh.startWaiters, cx)), w.r, [], [], Pending)
    else ReadStep(w.sh, w.r, [], [], Ready(Err(NotReadable)))
  }

  /** A half is open exactly if it is readable, has not ended, and its end has not been read: then the FIN buffer
      has not been seen or is still queued. Every other read is told why it gets nothing. */
  lemma {:induction false} ReadAnswers(w: World, cx: Task, want: nat)
    requires Reachable(w) && AllValid(w.r.queue)
    ensures w.r.state == StartComplete <==> Readable(w) && !HasEnded(w) && (w.finSeen ==> LastFin(w.r.queue))
    ensures w.r.state != StartComplete ==> PollRead(w.sh, w.r, cx, want) == Told(w, cx) && PollReadChunk(w.sh, w.r, cx) == Told(w, cx)
  {
    hide Reachable, Authentic, Tied, Conserved, Accounted, Delivered, Parked, Phased, Drain;
    ReachableHistory(w);
  }

  /** What `poll_abort_read` answers, whom it parks, and whom it wakes. */
  lemma {:induction false} PollAbortAnswers(w: World, cx: Task, failure: Option<nat>)
    requires Reachable(w) && AllValid(w.r.queue)
    ensures PollAbortRead(w.sh, w.r, cx, failure) ==
              if w.r.state == StartComplete then
                if failure.Some? then (w.sh, w.r, Ready(Err(ReadOther(failure.value))))
                else (w.sh, w.r.(state := ShutdownComplete, waiters := []), Ready(Ok(())))
              else
                var s := Told<nat>(w.(past := w.past.(cancelled := false)), cx);
                (s.shared, s.recv, if s.result.Pending? then Pending
                                   else if s.result.value.Err? then Ready(Err(s.result.value.error))
                                   else if HasEnded(w) then Ready(Ok(())) else Ready(Err(NotReadable)))
  {
    hide Reachable, Authentic, Tied, Conserved, Accounted, Delivered, Parked, Phased, Drain;
    ReachableHistory(w);
  }

  /** `abort_read` works on an open half only, and says so otherwise. */
  lemma {:induction false} AbortAnswers(w: World, failure: Option<nat>)
    ensures AbortRead(w.r, failure).1.Ok? <==> w.r.state == StartComplete && failure.None?
    ensures AbortRead(w.r, failure).1.Err? ==>
              && AbortRead(w.r, failure).1.error == (if w.r.state == StartComplete && failure.Some? then ReadOther(failure.value) else NotReadable)
              && AbortRead(w.r, failure).0 == w.r
  {
  }

  // ---- Main results, for every reachable state ----

  /** A byte of a buffer still queued or held is never inside the prefix MsQuic was told to reclaim. */
  lemma {:induction false} ReclaimSafety(w: World, c: Chunk, p: nat)
    requires Reachable(w) && (c in w.r.queue || c in w.held) && c.Covers(p)
    ensures Sum(w.calls) <= w.r.acct.cursor <= p
  {
    ReachableInv(w);
    CursorIsContiguousPrefix(w.r.acct);
    assert ConservedAt(w, AtByte(p));
    LiveCounts(w, c, AtByte(p));
  }

  lemma {:induction false} LiveCounts(w: World, c: Chunk, k: Key)
    requires (c in w.r.queue || c in w.held) && Matches(c, k)
    ensures Count(w.r.queue, k) + Count(w.held, k) >= 1
  {
    if c in w.r.queue {
      var i :| 0 <= i < |w.r.queue| && w.r.queue[i] == c;
      CountPositive(w.r.queue, i, k);
    } else {
      var i :| 0 <= i < |w.held| && w.held[i] == c;
      CountPositive(w.held, i, k);
    }
  }

  /** A buffer is registered by its own drop or by the sweep, at most once, and not while anyone has it;
      the drop of a swept buffer registers nothing, because a buffer is tied to the stream only by leaving the queue. */
  lemma {:induction false} RegisteredAtMostOnce(w: World)
    requires Reachable(w)
    ensures forall id: nat :: w.registered[id] <= 1 && (w.registered[id] == 1 ==> id < w.nextId)
    ensures forall c: Chunk :: c in w.r.queue || c in w.held ==> w.registered[c.id] == 0
    ensures (forall c: Chunk :: c in w.r.queue ==> !c.attached) && (forall c: Chunk :: c in w.held ==> c.attached)
  {
    ReachableInv(w);
    forall id: nat ensures w.registered[id] <= 1 && (w.registered[id] == 1 ==> id < w.nextId) {
      assert ConservedAt(w, Buffer(id));
    }
    forall c: Chunk | c in w.r.queue || c in w.held ensures w.registered[c.id] == 0 {
      assert ConservedAt(w, Buffer(c.id));
      LiveCounts(w, c, Buffer(c.id));
    }
  }

  /** The calls to MsQuic and what an application close withheld sum to the cursor. Once every buffer has been
      released, in whatever order, that is every byte received; without such a close the calls alone are. */
  lemma {:induction false} AllReleasedAllReported(w: World)
    requires Reachable(w)
    ensures Sum(w.calls) + w.withheld == w.r.acct.cursor <= |w.received| == w.r.recvLen
    ensures !w.appClosed ==> w.withheld == 0
    ensures w.r.queue == [] && w.held == [] ==>
              && w.r.acct.cursor == |w.received|
              && (if w.appClosed then Sum(w.calls) <= |w.received| else Sum(w.calls) == |w.received|)
              && forall id: nat :: w.registered[id] == One(id < w.nextId)
  {
    hide Authentic, Tied, Delivered, FinTracked, Parked, Phased;
    ReachableInv(w);
    CursorIsContiguousPrefix(w.r.acct);
    assert ConservedAt(w, AtByte(w.r.acct.cursor));
    assert ConservedAt(w, AtByte(|w.received|));
    if w.r.queue == [] && w.held == [] {
      forall id: nat ensures w.registered[id] == One(id < w.nextId) {
        assert ConservedAt(w, Buffer(id));
      }
    }
  }

  /** Nothing is left that could still be completed. */
  ghost predicate Quiet(w: World) {
    w.sh.life == Completed && w.r.state == ShutdownComplete && w.r.queue == [] && w.held == []
  }

  lemma {:induction false} QuietStays(w: World, step: Step)
    requires Quiet(w) && Enabled(w, step)
    ensures Quiet(Next(w, step)) && Next(w, step).calls == w.calls
  {
    hide Register, Sweep, DropAll;
  }

  /** Once the application is tearing the stream down MsQuic is not called: not by the sweep, and never after. */
  lemma {:induction false} AppCloseSilences(w: World, loss: Loss, steps: seq<Step>, v: World)
    requires Reachable(w) && AllValid(w.r.queue) && Enabled(w, EventShutdownComplete(loss, true))
    requires Runs.Leads(Moves, Next(w, EventShutdownComplete(loss, true)), steps, v)
    ensures v.calls == w.calls
  {
    var u := Next(w, EventShutdownComplete(loss, true));
    CloseIsQuiet(w, loss);
    hide Next, Quiet, Enabled, Reachable;
    var inv := (a: World) => Quiet(a) && a.calls == w.calls;
    forall a: World, s: Step, b: World | inv(a) && Moves(a, s, b) ensures inv(b) {
      QuietStays(a, s);
    }
    Runs.Keeps(Moves, inv, u, steps, v);
  }

  lemma {:induction false} CloseIsQuiet(w: World, loss: Loss)
    requires Reachable(w) && AllValid(w.r.queue) && Enabled(w, EventShutdownComplete(loss, true))
    ensures Quiet(Next(w, EventShutdownComplete(loss, true))) && Next(w, EventShutdownComplete(loss, true)).calls == w.calls
  {
    hide Authentic, Conserved, Accounted, FinTracked, Parked, Sweep, Register;
    ReachableInv(w);
    UntiedDropsDoNothing(Sweep(w.r.acct, w.r.queue).0, w.r.queue);
    assert w.calls + [] + [] == w.calls;
  }

  /** Delivered bytes followed by what is queued are the bytes received: none lost, repeated or reordered. */
  lemma {:induction false} ExactDelivery(w: World)
    requires Reachable(w)
    ensures AllValid(w.r.queue)
    ensures w.sh.life != Completed ==> w.delivered + Unread(w.r.queue) == w.received
    ensures w.sh.life == Completed ==> w.r.queue == [] && w.delivered + w.lost == w.received
    ensures |w.received| <= w.finalSize
  {
    hide Conserved, Accounted, Parked, Phased;
    ReachableInv(w);
    assert w.delivered + Unread(w.r.queue) + [] == w.delivered + Unread(w.r.queue);
    assert w.delivered + [] + w.lost == w.delivered + w.lost;
  }

  lemma {:induction false} UnreadEmpty(q: seq<Chunk>)
    requires AllValid(q) && forall i :: 0 <= i < |q| ==> q[i].data == []
    ensures Unread(q) == []
  {
    if q != [] {
      UnreadEmpty(q[1..]);
    }
  }

  /** Once everything up to the final size is reported, no buffer with data is outstanding. */
  lemma {:induction false} NothingOutstanding(w: World, c: Chunk)
    requires Reachable(w) && Sum(w.calls) == w.finalSize && (c in w.r.queue || c in w.held)
    ensures c.data == []
  {
    hide Conserved, Accounted, Parked, Phased, Delivered, FinTracked, Tied;
    ReachableInv(w);
    AllReleasedAllReported(w);
    ExactDelivery(w);
    if c.data != [] {
      assert Genuine(w.received, c);
      ReclaimSafety(w, c, c.offset);
    }
  }

  /** Everything reported, up to the final size: what is still outstanding holds no byte. */
  lemma {:induction false} AllReportedAllTaken(w: World)
    requires Reachable(w) && AllValid(w.r.queue) && Sum(w.calls) == w.finalSize
    ensures Unread(w.r.queue) == [] && (forall c :: c in w.held ==> c.data == [])
  {
    hide Reachable, Sum, Unread;
    forall c: Chunk | c in w.r.queue || c in w.held ensures c.data == [] {
      NothingOutstanding(w, c);
    }
    UnreadEmpty(w.r.queue);
  }

  /** When the peer's graceful close is indicated, every byte up to the final size has been delivered. */
  lemma {:induction false} GracefulCloseLosesNothing(w: World)
    requires Reachable(w) && AllValid(w.r.queue) && Enabled(w, EventPeerSendShutdown)
    ensures Unread(w.r.queue) == [] && w.delivered == w.received && |w.received| == w.finalSize
    ensures forall c :: c in w.held ==> c.data == []
    ensures Next(w, EventPeerSendShutdown).r.state == ShutdownComplete
  {
    hide Reachable, Sum, Unread;
    AllReportedAllTaken(w);
    AllReleasedAllReported(w);
    ExactDelivery(w);
  }

  /** On an open half, what is still to be delivered is exactly what is queued. */
  lemma {:induction false} StillToDeliver(w: World)
    requires Reachable(w) && w.r.state == StartComplete && AllValid(w.r.queue)
    ensures w.delivered <= w.received && w.received[|w.delivered|..] == Unread(w.r.queue)
  {
    ReachableInv(w);
    ExactDelivery(w);
    assert w.sh.life != Completed;
    assert w.delivered + Unread(w.r.queue) == w.received;
  }

  /** What `poll_read` and `poll_read_buf` return on an open stream, and when the half ends. */
  lemma {:induction false} ReadIsExact(w: World, cx: Task, want: nat)
    requires Reachable(w) && w.r.state == StartComplete && want > 0 && AllValid(w.r.queue)
    ensures w.delivered <= w.received
    ensures var rest := w.received[|w.delivered|..];
            var s := PollRead(w.sh, w.r, cx, want);
            && s.got == rest[..Min(want, |rest|)]
            && s.result == (if rest != [] then Ready(Ok(Some(Min(want, |rest|))))
                            else if w.finSeen then Ready(Ok(None))
                            else Pending)
            && (s.recv.state == Shutdown <==> w.finSeen && |rest| < want)
            && (s.recv.state != Shutdown ==> s.recv.state == StartComplete)
            && (s.recv.state == Shutdown ==> |w.received| == w.finalSize && s.recv.queue == [])
            && s.recv.waiters == if s.result == Pending then Registered(w.r.waiters, cx) else w.r.waiters
  {
    hide Conserved, Authentic, Accounted, Phased, Parked, Drain, SameBuffers;
    ReachableInv(w);
    StillToDeliver(w);
    var d := Drain(w.r.queue, want);
    DrainTakesFront(w.r.queue, want);
    DrainKeepsBuffers(w.r.queue, want);
    TakeFin(w, d.popped, d.queue);
    var rest := w.received[|w.delivered|..];
    assert d.got == rest[..Min(want, |rest|)];
  }

  /** Why a read fails, if it does. */
  ghost function Failure(w: World): Option<ReadError> {
    if HasEnded(w) then WhyEnded(w.past)
    else if !Readable(w) && !StartUnderWay(w) then Some(NotReadable)
    else None
  }

  /** A `poll_read` into a non-empty destination reads 0 bytes, and a `poll_read_buf` adds none and succeeds, exactly at
      the clean end of the stream: it ended without a reason, or all its bytes up to the FIN have been delivered.
      Both fail exactly when the history gives a reason, and report it. */
  lemma {:induction false} ZeroMeansTheEnd(w: World, cx: Task, want: nat)
    requires Reachable(w) && want > 0 && AllValid(w.r.queue)
    ensures var s := PollRead(w.sh, w.r, cx, want);
            var atEnd := if HasEnded(w) then WhyEnded(w.past).None? else Readable(w) && w.finSeen && w.delivered == w.received;
            && (Counted(s.result) == Ready(Ok(0)) <==> atEnd)
            && (Uncounted(s.result) == Ready(Ok(())) && s.got == [] <==> atEnd)
            && (Counted(s.result).Ready? && Counted(s.result).value.Ok? ==> Counted(s.result).value.value == |s.got|)
            && (if Failure(w).Some? then
                  Counted(s.result) == Ready(Err(Failure(w).value)) && Uncounted(s.result) == Ready(Err(Failure(w).value))
                else
                  !(Counted(s.result).Ready? && Counted(s.result).value.Err?) && !(Uncounted(s.result).Ready? && Uncounted(s.result).value.Err?))
  {
    ReadAnswers(w, cx, want);
    ReachableHistory(w);
    ExactDelivery(w);
    if w.r.state == StartComplete {
      ReadIsExact(w, cx, want);
    }
    hide PollRead, Reachable, Inv, Unread, Authentic, Tied, Conserved, Accounted, Delivered, Parked;
  }

  /** `poll_read_chunk` hands over the front buffer, ends the half with the FIN buffer, else parks. */
  lemma {:induction false} ReadChunkIsExact(w: World, cx: Task)
    requires Reachable(w) && w.r.state == StartComplete && AllValid(w.r.queue)
    ensures w.delivered <= w.received
    ensures var rest := w.received[|w.delivered|..];
            var s := PollReadChunk(w.sh, w.r, cx);
            && s.got <= rest
            && (s.result == Pending <==> w.r.queue == [])
            && (w.r.queue == [] ==> rest == [] && !w.finSeen)
            && (w.r.queue != [] ==> s.result == Ready(Ok(Some(w.r.queue[0].Attached()))) && s.popped == [w.r.queue[0].Attached()])
            && (s.recv.state == Shutdown <==> w.finSeen && |w.r.queue| == 1)
            && (s.recv.state == Shutdown ==> s.got == rest && |w.received| == w.finalSize)
            && s.recv.waiters == if s.result == Pending then Registered(w.r.waiters, cx) else w.r.waiters
  {
    hide Conserved, Authentic, Accounted, Phased, Parked;
    ReachableInv(w);
    StillToDeliver(w);
    if |w.r.queue| == 1 {
      assert Unread(w.r.queue[1..]) == [];
    }
  }

  /** A read into an empty destination takes nothing and changes nothing, even at the end of the stream. */
  lemma {:induction false} ReadOfNothing(w: World, cx: Task)
    requires AllValid(w.r.queue) && w.r.state == StartComplete
    ensures PollRead(w.sh, w.r, cx, 0) == ReadStep(w.sh, w.r, [], [], Ready(Ok(Some(0))))
  {
    assert Drain(w.r.queue, 0) == Drained([], w.r.queue, []);
    assert w.r.(queue := w.r.queue) == w.r;
  }

  /** The drop of an empty FIN buffer tells MsQuic so exactly if all bytes before it are already released, or if
      no byte at all is; the latter is too early if there are bytes before it. */
  lemma {:induction false} FinOnlyDrop(w: World, i: nat)
    requires Reachable(w) && i < |w.held| && w.held[i].data == [] && w.held[i].pos == 0
    ensures var a := w.r.acct;
            Dropped(w, i).calls == if w.held[i].fin && (a.done == [] || (a.cursor > 0 && a.cursor == w.held[i].offset))
                                   then w.calls + [0] else w.calls
    ensures Dropped(w, i).r.acct == w.r.acct
  {
    hide Conserved, Authentic, Delivered, FinTracked, Parked, Phased;
    ReachableInv(w);
    var c := w.held[i];
    ReportsExactlyWhen(w.r.acct, Range(c.offset, c.offset), c.offset, true, c.fin);
    RegisterRefines(w.r.acct, Range(c.offset, c.offset), c.offset, true, c.fin);
  }

  /** Polled again, a reader parked for data would park again, with nothing changed. */
  lemma {:induction false} ReaderWouldSleepOn(w: World, t: Task, want: nat)
    requires Reachable(w) && t in w.r.waiters && !w.silent && want > 0 && AllValid(w.r.queue)
    ensures PollRead(w.sh, w.r, t, want).result == Pending && PollRead(w.sh, w.r, t, want).recv == w.r
    ensures PollReadChunk(w.sh, w.r, t).result == Pending && PollReadChunk(w.sh, w.r, t).recv == w.r
  {
    hide Reachable, Conserved, Authentic, Accounted, Inv;
    NoReaderSleepsOnData(w);
    assert Registered(w.r.waiters, t) == w.r.waiters;
    assert Drain(w.r.queue, want) == Drained([], [], []);
    assert w.r.(queue := [], waiters := w.r.waiters) == w.r;
  }

  /** No reader parked for data sleeps on data or on an end of stream; only `abort_read` leaves one parked. */
  lemma {:induction false} NoReaderSleepsOnData(w: World)
    requires Reachable(w)
    ensures Distinct(w.r.waiters)
    ensures w.r.waiters != [] ==> w.r.queue == [] && (w.r.state == StartComplete || w.silent)
    ensures w.r.waiters != [] && !w.silent ==> !w.finSeen && w.sh.life != Completed
  {
    ReachableInv(w);
  }

  /**
   Who is parked on the start waits for an indication still to come; a read and an abort of a bidirectional
   stream polled again would park exactly while the peer's side has not ended before the stream is accepted.
   */
  lemma {:induction false} StartersSleepOn(w: World, t: Task, want: nat, failure: Option<nat>)
    requires Reachable(w) && t in w.sh.startWaiters && w.sh.bidirectional && AllValid(w.r.queue)
    ensures w.sh.life == Starting && Distinct(w.sh.startWaiters) && (w.r.state == Start <==> !w.shutdownSeen)
    ensures PollRead(w.sh, w.r, t, want).result.Pending? <==> w.r.state == Start
    ensures PollReadChunk(w.sh, w.r, t).result.Pending? <==> w.r.state == Start
    ensures PollAbortRead(w.sh, w.r, t, failure).2.Pending? <==> w.r.state == Start
    ensures w.r.state == Start ==> PollReadChunk(w.sh, w.r, t) == ReadStep(w.sh, w.r, [], [], Pending)
  {
    hide Authentic, Tied, Conserved, Accounted, Delivered, FinTracked, Drain;
    ReachableInv(w);
    assert w.sh.(startWaiters := w.sh.startWaiters) == w.sh;
  }

  /** The steps that take the starters of a stream off the start list. */
  predicate Unparks(step: Step) {
    step.EventShutdownComplete? || step.EventAccepted?
    || (step.EventStartComplete? && (step.status == LimitReached || step.peerAccepted))
  }

  lemma {:induction false} EventsOnStarters(w: World, step: Step)
    requires AllValid(w.r.queue) && Enabled(w, step) && !IsCall(step) && w.sh.life != Completed
    ensures Next(w, step).sh.startWaiters == if Unparks(step) then [] else w.sh.startWaiters
  {
    hide AllValid, Enabled, Swept, Arrived, AfterRead, Started, Dropped, PollAborted, Aborted, OnPeerSendEnd, OnAccepted;
    match step {
      case EventShutdownComplete(loss, appClose) => SweptStarters(w, loss, appClose);
      case EventReceive(segs, fin) => ArrivalRecordsNothing(w, segs, fin);
      case _ =>
    }
  }

  lemma {:induction false} SweptStarters(w: World, loss: Loss, appClose: bool)
    requires AllValid(w.r.queue) && w.sh.life != Completed
    ensures Swept(w, loss, appClose).sh.startWaiters == []
  {
    hide Sweep, DropAll, Unread, Ids, Completions, AllValid, LossError, Sum;
  }

  /** Starters are woken by the acceptance of the stream, by the stream limit, and by ShutdownComplete; once the half
      has ended early, by ShutdownComplete alone. */
  lemma {:induction false} WhatWakesStarters(w: World, t: Task, step: Step)
    requires Reachable(w) && t in w.sh.startWaiters && AllValid(w.r.queue) && Enabled(w, step)
    ensures t in Next(w, step).sh.startWaiters <==> !Unparks(step)
    ensures w.shutdownSeen ==> (t in Next(w, step).sh.startWaiters <==> !step.EventShutdownComplete?)
  {
    hide Next, Reachable, AllValid, Authentic, Tied, Conserved, Accounted, Delivered, FinTracked, Parked;
    ReachableInv(w);
    assert w.sh.life == Starting;
    if IsCall(step) {
      CallsRecordNothing(w, step);
    } else {
      EventsOnStarters(w, step);
    }
  }

  /**
   `abort_read` is not meant to strand a reader but does, exactly when one is parked at the call;
   `poll_abort_read` never does.
   */
  lemma {:induction false} AbortReadStrandsExactlyTheParked(w: World, cx: Task)
    requires Reachable(w) && w.r.state == StartComplete
    ensures Aborted(w, None).r.state == ShutdownComplete
    ensures Aborted(w, None).r.waiters != [] <==> w.r.waiters != []
    ensures PollAbortRead(w.sh, w.r, cx, None).1.state == ShutdownComplete
    ensures PollAbortRead(w.sh, w.r, cx, None).1.waiters == []
    ensures Aborted(w, None).r.waiters != [] ==> w.r.queue == [] && !w.finSeen && w.sh.life != Completed
  {
    ReachableInv(w);
  }

  /** On a half that has ended, an abort that is polled and a read answer for different reasons exactly when the
      end of the stream was read, or when only a cancellation on loss explains the end. */
  lemma {:induction false} ReadAndAbortDiffer(sh: Shared, r: Recv, cx: Task, failure: Option<nat>)
    requires ReadGate(sh, r) != Go && ReadGate(sh, r) != ParkOnStart
    ensures PollAbortRead(sh, r, cx, failure).2 != Ready(if ReadGate(sh, r).Fails? then Err(ReadGate(sh, r).error) else Ok(()))
       <==> r.state == Shutdown || (r.state == ShutdownComplete && sh.connError == None && sh.cancelledOnLoss)
  {
  }

  /** A stream started by the peer, as every witness run begins. */
  function Fresh(finalSize: nat): World {
    World(false, finalSize, Shared(true, Opened, None, false, None, []), Recv(StartComplete, [], 0, FRESH, None, []),
          [], [], 0, false, [], [], [], multiset{}, 0, false, true, false, false, NOTHING, false)
  }

  lemma {:induction false} ReachFresh(finalSize: nat) returns (w: World)
    ensures Reachable(w) && w == Fresh(finalSize)
  {
    w := Fresh(finalSize);
    Runs.Stay<World, Step>(Moves, w);
  }

  /** One more step of a witness run. */
  lemma {:induction false} Reach(w: World, step: Step) returns (v: World)
    requires Reachable(w) && AllValid(w.r.queue) && Enabled(w, step)
    ensures Reachable(v) && v == Next(w, step)
  {
    var first: World, steps: seq<Step> :| Initial(first) && Runs.Leads(Moves, first, steps, w);
    v := Next(w, step);
    Runs.Then(Moves, first, steps, w, step, v);
  }

  /** A run after which a reader is parked on a half that will never wake it by itself. */
  lemma {:induction false} StrandedReaderExists() returns (w: World)
    ensures Reachable(w) && w.r.state == ShutdownComplete && w.r.waiters == [7]
  {
    w := ReachFresh(0);
    w := Reach(w, StepReadChunk(7));
    w := Reach(w, StepAbort(None));
  }

  /** A stream cancelled on loss, of which a read says so while aborting it reports success. */
  lemma {:induction false} CancelledAbortSucceeds(cx: Task) returns (w: World)
    ensures Reachable(w) && AllValid(w.r.queue)
    ensures PollReadChunk(w.sh, w.r, cx).result == Ready(Err(ReadCancelledOnLoss)) && PollAbortRead(w.sh, w.r, cx, None).2 == Ready(Ok(()))
  {
    hide Reachable;
    w := ReachFresh(0);
    w := Reach(w, EventCancelOnLoss);
    w := Reach(w, EventShutdownComplete(NoLoss, false));
  }

  /** A bidirectional stream opened here, with its start under way. */
  function Opening(waiters: seq<Task>): World {
    Fresh(0).(localOpen := true, accepted := false, sh := Shared(true, Starting, None, false, None, waiters),
              r := Recv(Start, [], 0, FRESH, None, []))
  }

  lemma {:induction false} ReachOpening(cx: Task) returns (w: World)
    ensures Reachable(w) && w == Opening([cx])
  {
    w := Fresh(0).(localOpen := true, accepted := false, r := Recv(Closed, [], 0, FRESH, None, []));
    Runs.Stay<World, Step>(Moves, w);
    w := Reach(w, StepStart(cx, None));
    assert [] + [cx] == [cx];
  }

  /** A read or an abort parks on that start. */
  lemma {:induction false} ReachParked(w: World, step: Step) returns (v: World)
    requires Reachable(w) && (step.StepReadChunk? || step.StepPollAbort?)
    requires w == Opening(w.sh.startWaiters) && step.cx !in w.sh.startWaiters
    ensures Reachable(v) && v == Opening(w.sh.startWaiters + [step.cx])
  {
    v := Reach(w, step);
    assert v.held == [] && v.delivered == [];
  }

  /** A read and an abort left parked on the start: the peer ended its side before accepting the stream. */
  lemma {:induction false} SleepingStartersExist(cx: Task, code: nat) returns (w: World)
    ensures Reachable(w) && AllValid(w.r.queue) && w.sh.startWaiters == [cx + 2, cx + 1, cx]
    ensures PollReadChunk(w.sh, w.r, cx + 1).result == Ready(Err(Reset(code)))
    ensures PollAbortRead(w.sh, w.r, cx, None).2 == Ready(Err(Reset(code)))
  {
    hide Reachable;
    w := ReachOpening(cx + 2);
    w := ReachParked(w, StepReadChunk(cx + 1));
    assert [cx + 2] + [cx + 1] == [cx + 2, cx + 1];
    w := ReachParked(w, StepPollAbort(cx, None));
    assert [cx + 2, cx + 1] + [cx] == [cx + 2, cx + 1, cx];
    w := Reach(w, EventPeerSendAborted(code));
  }

  /** One more buffer arrives. */
  lemma {:induction false} ReachReceive(w: World, data: seq<byte>, fin: bool) returns (v: World)
    requires Reachable(w) && AllValid(w.r.queue) && w.sh.life == Opened && !w.localOpen && !w.finSeen && |data| <= 1
    requires |w.received| + |data| <= w.finalSize && (fin ==> |w.received| + |data| == w.finalSize)
    ensures Reachable(v) && AllValid(v.r.queue)
    ensures var c := Chunk(w.nextId, |w.received|, data, 0, fin, false);
            v == w.(r := w.r.(queue := w.r.queue + [c], recvLen := w.r.recvLen + |data|, waiters := []),
                    received := w.received + data, nextId := w.nextId + 1, finSeen := fin)
  {
    var segs := if data == [] then [] else [data];
    FlatSingle(data);
    v := Reach(w, EventReceive(segs, fin));
  }

  /** The application takes the front buffer; the FIN buffer ends the half. */
  lemma {:induction false} ReachChunk(w: World) returns (v: World)
    requires Reachable(w) && AllValid(w.r.queue) && w.r.queue != [] && w.r.state == StartComplete
    ensures Reachable(v) && AllValid(v.r.queue)
    ensures var c := w.r.queue[0];
            v == w.(r := w.r.(queue := w.r.queue[1..], state := if c.fin then Shutdown else StartComplete),
                    held := w.held + [c.Attached()], delivered := w.delivered + c.Unread())
  {
    v := Reach(w, StepReadChunk(0));
  }

  /** The application drops a buffer it holds. */
  lemma {:induction false} ReachDrop(w: World, i: nat) returns (v: World)
    requires Reachable(w) && AllValid(w.r.queue) && i < |w.held| && w.held[i].attached
    ensures Reachable(v) && AllValid(v.r.queue)
    ensures var (a, call) := RegisterChunk(w.r.acct, w.held[i]);
            (v.r, v.held, v.calls) == (w.r.(acct := a), w.held[..i] + w.held[i + 1..], Append(w.calls, call))
    ensures (v.received, v.finSeen) == (w.received, w.finSeen)
  {
    hide RegisterChunk;
    v := Reach(w, StepDrop(i));
  }

  /** What the accounting makes of the buffers of the witness runs. */
  lemma {:induction false} WitnessAccounts()
    ensures RegisterChunk(FRESH, Chunk(1, 1, [], 0, true, true)) == (FRESH, Some(0))
    ensures RegisterChunk(FRESH, Chunk(0, 0, [1], 0, false, true)) == (Accounting([Range(0, 1)], 1), Some(1))
    ensures RegisterChunk(Accounting([Range(0, 1)], 1), Chunk(2, 2, [], 0, true, true)) == (Accounting([Range(0, 1)], 1), None)
    ensures RegisterChunk(Accounting([Range(0, 1)], 1), Chunk(1, 1, [2], 0, false, true)).1 == Some(1)
  {
    assert [Range(0, 1)][1..] == [];
  }

  /** Dropped while nothing is released yet, an empty FIN buffer is reported although a byte before it is held. */
  lemma {:induction false} FinReportedEarly() returns (w: World)
    ensures Reachable(w) && w.calls == [0] && |w.held| == 1 && w.held[0].data == [1] && |w.received| == 1
  {
    WitnessAccounts();
    hide RegisterChunk, Next, Enabled;
    w := ReachFresh(1);
    w := ReachReceive(w, [1], false);
    w := ReachReceive(w, [], true);
    w := ReachChunk(w);
    w := ReachChunk(w);
    w := ReachDrop(w, 1);
  }

  /** Dropped while the bytes before it are released in part, it is not reported, and never will be. */
  lemma {:induction false} FinNeverReported() returns (w: World)
    ensures Reachable(w) && w.finSeen && w.r.queue == [] && w.held == [] && w.calls == [1, 1] && |w.received| == 2
  {
    WitnessAccounts();
    hide RegisterChunk, Next, Enabled;
    w := TwoBytesAndFin();
    w := ReachDrop(w, 0);
    w := ReachDrop(w, 1);
    w := ReachDrop(w, 0);
  }

  /** Two bytes in two buffers, then an empty FIN. */
  lemma {:induction false} TwoBytesAndFinQueued() returns (w: World)
    ensures Reachable(w) && w.r.state == StartComplete && w.held == [] && w.r.acct == FRESH && w.calls == []
    ensures |w.received| == 2 && w.finSeen
    ensures w.r.queue == [Chunk(0, 0, [1], 0, false, false), Chunk(1, 1, [2], 0, false, false), Chunk(2, 2, [], 0, true, false)]
  {
    hide Next, Enabled;
    w := ReachFresh(2);
    w := ReachReceive(w, [1], false);
    w := ReachReceive(w, [2], false);
    w := ReachReceive(w, [], true);
  }

  /** All three are handed to the application. */
  lemma {:induction false} TwoBytesAndFin() returns (w: World)
    ensures Reachable(w) && w.r.queue == [] && w.r.acct == FRESH && w.calls == [] && |w.received| == 2 && w.finSeen
    ensures w.held == [Chunk(0, 0, [1], 0, false, true), Chunk(1, 1, [2], 0, false, true), Chunk(2, 2, [], 0, true, true)]
  {
    hide Next, Enabled;
    w := TwoBytesAndFinQueued();
    w := ReachChunk(w);
    w := ReachChunk(w);
    w := ReachChunk(w);
  }
}
