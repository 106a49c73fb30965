/**
 The mutex-guarded state of a stream. Every method is one critical section of the source and is
 proved to do to the value of the state what the value-level definitions say.
 */
module StreamInner {
  import opened Common
  import opened Sync
  import opened RangeSet
  import opened Completion
  import opened RecvBuffer
  import opened StreamTypes
  import opened Receive
  import opened SendPath
  import opened WriteBuffers
  import StartPath

  class StreamInnerExclusive {
    const bidirectional: bool
    var state: Life
    var startStatus: Option<Status>
    var recvState: Half
    var recvBuffers: seq<StreamRecvBuffer>
    var recvLen: nat
    var readCompleteMap: seq<Range>
    var readCompleteCursor: nat
    var sendState: Half
    var writePool: seq<WriteBuffer>
    var recvErrorCode: Option<nat>
    var sendErrorCode: Option<nat>
    var cancelledOnLoss: bool
    var connError: Option<ConnectionError>
    var startWaiters: seq<Task>
    var readWaiters: seq<Task>
    var writeShutdownWaiters: seq<Task>

    constructor (bidirectional: bool, sendState: Half, recvState: Half)
      ensures Valid() && recvBuffers == [] && writePool == []
      ensures SharedView() == Shared(bidirectional, Opened, None, false, None, [])
      ensures RecvView() == Recv(recvState, [], 0, Accounting([], 0), None, [])
      ensures SendView() == Send(sendState, [], None, [])
    {
      this.bidirectional, this.sendState, this.recvState := bidirectional, sendState, recvState;
      state, startStatus := Opened, None;
      recvBuffers, recvLen, readCompleteMap, readCompleteCursor := [], 0, [], 0;
      writePool, recvErrorCode, sendErrorCode := [], None, None;
      cancelledOnLoss, connError := false, None;
      startWaiters, readWaiters, writeShutdownWaiters := [], [], [];
    }

    ghost predicate Valid()
      reads this`recvBuffers, this`writePool, recvBuffers
    {
      && Owned(recvBuffers)
      && (forall i :: 0 <= i < |recvBuffers| ==> !recvBuffers[i].attached)
      && (forall i, j :: 0 <= i < j < |writePool| ==> writePool[i] != writePool[j])
    }

    ghost function SharedView(): Shared
      reads this`state, this`startStatus, this`cancelledOnLoss, this`connError, this`startWaiters
    {
      Shared(bidirectional, state, startStatus, cancelledOnLoss, connError, startWaiters)
    }

    ghost function RecvView(): (r: Recv)
      requires Valid()
      reads this`recvState, this`recvLen, this`readCompleteMap, this`readCompleteCursor, this`recvErrorCode, this`readWaiters
      reads this`recvBuffers, this`writePool, recvBuffers
      ensures AllValid(r.queue)
    {
      Recv(recvState, QueueView(recvBuffers), recvLen, Accounting(readCompleteMap, readCompleteCursor), recvErrorCode, readWaiters)
    }

    ghost function SendView(): Send
      reads this`sendState, this`sendErrorCode, this`writeShutdownWaiters, this`writePool, writePool
    {
      Send(sendState, PoolView(writePool), sendErrorCode, writeShutdownWaiters)
    }

    static ghost function QueueView(q: seq<StreamRecvBuffer>): (r: seq<Chunk>)
      requires Owned(q)
      reads q
      ensures |r| == |q| && forall i :: 0 <= i < |q| ==> r[i] == q[i].View()
      ensures AllValid(r)
    {
      seq(|q|, i requires 0 <= i < |q| && q[i].Valid() reads q => q[i].View())
    }

    /** Record a released range; the result is the length MsQuic may now reclaim, if any. */
    method RegisterReadComplete(range: Range, offset: nat, empty: bool, fin: bool) returns (len: Option<nat>)
      modifies this`readCompleteMap, this`readCompleteCursor
      ensures (Accounting(readCompleteMap, readCompleteCursor), len)
           == Register(old(Accounting(readCompleteMap, readCompleteCursor)), range, offset, empty, fin)
    {
      if range.start < range.end {
        readCompleteMap := Insert(readCompleteMap, range);
      }
      if readCompleteMap != [] {
        var complete := readCompleteMap[0];
        if complete.start == 0 && readCompleteCursor < complete.end {
          len := Some(complete.end - readCompleteCursor);
          readCompleteCursor := complete.end;
        } else if complete.start == 0 && readCompleteCursor == complete.end && offset == complete.end && empty && fin {
          len := Some(0);
        } else {
          len := None;
        }
      } else if empty && fin {
        len := Some(0);
      } else {
        len := None;
      }
    }

    /** `read_complete`, run by the drop of a buffer that was handed out and by the shutdown sweep. */
    method ReadComplete(buffer: StreamRecvBuffer, ghost view: Chunk) returns (len: Option<nat>)
      requires Valid() && buffer.Valid() && buffer.View() == view
      modifies this`readCompleteMap, this`readCompleteCursor
      ensures Valid() && SharedView() == old(SharedView()) && SendView() == old(SendView())
      ensures (RecvView().acct, len) == RegisterChunk(old(RecvView()).acct, view)
      ensures RecvView() == old(RecvView()).(acct := RecvView().acct)
    {
      hide QueueView, PoolView, Owned, AllValid;
      var empty := buffer.IsEmpty();
      len := RegisterReadComplete(Range(buffer.offset, buffer.offset + buffer.length), buffer.offset, empty, buffer.fin);
    }

    static ghost predicate Owned(q: seq<StreamRecvBuffer>)
      reads q
    {
      && (forall i :: 0 <= i < |q| ==> q[i].Valid())
      && (forall i, j :: 0 <= i < j < |q| ==> q[i] != q[j])
    }

    /** Progress of a copying read over `views`, of which the first m are popped. */
    static ghost predicate Taking(whole: seq<Chunk>, want: nat, got: seq<byte>, views: seq<Chunk>, m: nat) {
      && AllValid(whole) && AllValid(views) && m <= |views| && |got| <= want
      && Drain(whole, want) == Glue(got, views[..m], Drain(views[m..], want - |got|))
    }

    static lemma {:induction false} TakingBytes(whole: seq<Chunk>, want: nat, got: seq<byte>, views: seq<Chunk>, m: nat, more: seq<byte>)
      requires Taking(whole, want, got, views, m) && m < |views|
      requires |more| <= want - |got| && more <= views[m].Unread()
      ensures Taking(whole, want, got + more, views[m := views[m].Read(|more|)], m)
    {
      hide Drain;
      var next := views[m := views[m].Read(|more|)];
      DrainAfterPart(views[m..], want - |got|, |more|);
      assert next[m..] == [views[m].Read(|more|)] + views[m..][1..];
      assert next[..m] == views[..m];
      assert views[m].Unread()[..|more|] == more;
      var d := Drain(next[m..], want - |got| - |more|);
      assert got + (more + d.got) == got + more + d.got;
      assert [] + d.popped == d.popped;
    }

    static lemma {:induction false} TakingPop(whole: seq<Chunk>, want: nat, got: seq<byte>, views: seq<Chunk>, m: nat)
      requires Taking(whole, want, got, views, m) && m < |views| && |got| < want && views[m].Unread() == []
      ensures Taking(whole, want, got, views[m := views[m].Attached()], m + 1)
    {
      var next := views[m := views[m].Attached()];
      assert views[m..][0] == views[m] && views[m..][1..] == views[m + 1..] == next[m + 1..];
      assert next[..m + 1] == views[..m] + [views[m].Attached()];
      assert views[m].Valid() && views[m].pos == |views[m].data|;
      var d := Drain(views[m + 1..], want - |got|);
      assert Drain(views[m..], want - |got|) == d.(popped := [views[m].Attached()] + d.popped);
      assert views[..m] + ([views[m].Attached()] + d.popped) == next[..m + 1] + d.popped;
      forall i | 0 <= i < |next| ensures next[i].Valid() {
        assert views[i].Valid();
      }
    }

    static lemma {:induction false} TakingDone(whole: seq<Chunk>, want: nat, got: seq<byte>, views: seq<Chunk>, m: nat)
      requires Taking(whole, want, got, views, m) && (|got| == want || m == |views|)
      ensures Drain(whole, want) == Drained(got, views[m..], views[..m])
      ensures LastFin(views[..m]) == (m > 0 && views[m - 1].fin)
    {
    }

    /**
     One turn of the copying loop at buffer m: read from it, or, if it has nothing left, tie it to
     the stream so that its drop completes it. The other buffers keep their view.
     */
    static method ReadOrAttach(all: seq<StreamRecvBuffer>, m: nat, size: nat) returns (slice: Option<seq<byte>>)
      requires Owned(all) && m < |all| && size > 0
      modifies all[m]
      ensures Owned(all)
      ensures slice.None? ==> QueueView(all) == old(QueueView(all))[m := old(QueueView(all))[m].Attached()]
      ensures slice.None? ==> old(QueueView(all))[m].Unread() == [] && all[m].attached
      ensures slice.Some? ==> |slice.value| <= size && slice.value <= old(QueueView(all)[m].Unread())
      ensures slice.Some? ==> QueueView(all) == old(QueueView(all))[m := old(QueueView(all))[m].Read(|slice.value|)]
      ensures slice.Some? ==> old(all[m].readCursor) < all[m].readCursor || |slice.value| == size
      ensures old(all[m].readCursor) <= all[m].readCursor
    {
      ghost var views := QueueView(all);
      slice := all[m].GetBytesUptoSize(size);
      if slice.None? {
        all[m].SetStream();
      }
      assert forall i :: 0 <= i < |all| && i != m ==> all[i].View() == views[i];
    }

    /** One turn of the copying loop, as progress of the whole read. */
    static method TakeStep(all: seq<StreamRecvBuffer>, m: nat, want: nat, got: seq<byte>, ghost whole: seq<Chunk>)
      returns (slice: Option<seq<byte>>)
      requires Owned(all) && m < |all| && |got| < want
      requires Taking(whole, want, got, QueueView(all), m)
      modifies all[m]
      ensures Owned(all)
      ensures slice.Some? ==> Taking(whole, want, got + slice.value, QueueView(all), m)
      ensures slice.None? ==> Taking(whole, want, got, QueueView(all), m + 1) && all[m].attached
      ensures slice.Some? ==> |got| + |slice.value| <= want
      ensures slice.Some? ==> |slice.value| > 0 || all[m].SegmentsLeft() < old(all[m].SegmentsLeft())
    {
      ghost var views := QueueView(all);
      slice := ReadOrAttach(all, m, want - |got|);
      if slice.Some? {
        TakingBytes(whole, want, got, views, m, slice.value);
      } else {
        TakingPop(whole, want, got, views, m);
      }
    }

    static lemma {:induction false} TakingStart(whole: seq<Chunk>, want: nat)
      requires AllValid(whole)
      ensures Taking(whole, want, [], whole, 0)
    {
      assert [] + Drain(whole, want).got == Drain(whole, want).got;
    }

    /**
     The copying loop of the readers over the queue `all`: take up to `want` bytes from its front.
     The first `popped` buffers are popped, `fin` is the flag of the last of them.
     */
    static method TakeFrom(all: seq<StreamRecvBuffer>, want: nat) returns (got: seq<byte>, fin: bool, popped: nat)
      requires Owned(all)
      modifies all
      ensures Owned(all) && popped <= |all|
      ensures Taking(old(QueueView(all)), want, got, QueueView(all), popped)
      ensures |got| == want || popped == |all|
      ensures forall i :: 0 <= i < popped ==> all[i].attached
      ensures fin == (popped > 0 && all[popped - 1].fin)
    {
      hide *;
      TakingStart(QueueView(all), want);
      ghost var whole := QueueView(all);
      got, fin, popped := [], false, 0;
      while |got| < want && popped < |all|
        invariant popped <= |all| && |got| <= want
        invariant Owned(all)
        invariant Taking(whole, want, got, QueueView(all), popped)
        invariant forall i :: 0 <= i < popped ==> all[i].attached
        invariant fin == (popped > 0 && all[popped - 1].fin)
        decreases |all| - popped, want - |got|, if popped < |all| then all[popped].SegmentsLeft() else 0
      {
        var slice := TakeStep(all, popped, want, got, whole);
        if slice.Some? {
          got := got + slice.value;
        } else {
          fin := all[popped].fin;
          popped := popped + 1;
        }
      }
    }

    /** The state check every read makes first; it parks the task if the stream is not accepted yet. */
    method CheckReadable(cx: Task) returns (gate: Gate)
      requires Valid()
      modifies this`startWaiters
      ensures Valid() && RecvView() == old(RecvView()) && SendView() == old(SendView())
      ensures gate == ReadGate(old(SharedView()), old(RecvView()))
      ensures SharedView() == if gate != ParkOnStart then old(SharedView())
                              else old(SharedView()).(startWaiters := Registered(old(SharedView()).startWaiters, cx))
    {
      hide QueueView, PoolView, Owned, AllValid;
      match recvState {
        case Closed => gate := Fails(NotReadable);
        case Start =>
          startWaiters := RegisterWaker(startWaiters, cx);
          gate := ParkOnStart;
        case StartComplete => gate := Go;
        case Shutdown => gate := AtEnd;
        case ShutdownComplete =>
          if connError.Some? {
            gate := Fails(ReadConnectionLost(connError.value));
          } else if cancelledOnLoss {
            gate := Fails(ReadCancelledOnLoss);
          } else if recvErrorCode.Some? {
            gate := Fails(Reset(recvErrorCode.value));
          } else {
            gate := AtEnd;
          }
      }
    }

    /** Turn the status of a queue read into a result: end the half on FIN, park if there was nothing. */
    method Conclude<T>(cx: Task, status: ReadStatus<T>) returns (p: Poll<Option<T>>)
      requires Valid()
      modifies this`recvState, this`readWaiters
      ensures Valid() && SharedView() == old(SharedView()) && SendView() == old(SendView())
      ensures (RecvView(), p) == AfterRead(old(RecvView()), cx, status)
    {
      hide QueueView, PoolView, Owned, AllValid;
      match status {
        case Readable(v) => p := Ready(Some(v));
        case Finished(v) =>
          recvState := Shutdown;
          p := Ready(v);
        case Blocked(v) =>
          if v.Some? {
            p := Ready(v);
          } else {
            readWaiters := RegisterWaker(readWaiters, cx);
            p := Pending;
          }
      }
    }

    /** Take the queue out of the stream for the time of a critical section. */
    method TakeOut() returns (all: seq<StreamRecvBuffer>)
      requires Valid()
      modifies this`recvBuffers
      ensures Valid() && recvBuffers == [] && all == old(recvBuffers)
      ensures Owned(all) && QueueView(all) == old(RecvView()).queue && Untied(QueueView(all))
      ensures RecvView() == old(RecvView()).(queue := [])
      ensures SharedView() == old(SharedView()) && SendView() == old(SendView())
    {
      hide QueueView, AllValid, SharedView, SendView;
      all := recvBuffers;
      UntiedView(all);
      EmptyOwned();
      recvBuffers := [];
    }

    static lemma {:induction false} UntiedView(all: seq<StreamRecvBuffer>)
      requires Owned(all)
      ensures Untied(QueueView(all)) <==> forall i :: 0 <= i < |all| ==> !all[i].attached
    {
      if Untied(QueueView(all)) {
        forall i | 0 <= i < |all| ensures !all[i].attached {
          assert !QueueView(all)[i].attached;
        }
      }
    }

    /** Put back what is left of it. */
    method PutBack(rest: seq<StreamRecvBuffer>)
      requires Valid() && recvBuffers == [] && Owned(rest) && Untied(QueueView(rest))
      modifies this`recvBuffers
      ensures Valid() && RecvView() == old(RecvView()).(queue := QueueView(rest))
      ensures SharedView() == old(SharedView()) && SendView() == old(SendView())
    {
      hide QueueView, AllValid, SharedView, SendView;
      UntiedView(rest);
      recvBuffers := rest;
    }

    /** Run the copying loop on the queue and pop what it exhausted. */
    method TakeQueue(want: nat) returns (got: seq<byte>, fin: bool, popped: seq<StreamRecvBuffer>)
      requires Valid()
      modifies this`recvBuffers, recvBuffers
      ensures Valid() && Owned(popped)
      ensures var d := Drain(old(RecvView()).queue, want);
              && RecvView() == old(RecvView()).(queue := d.queue)
              && QueueView(popped) == d.popped && got == d.got && fin == LastFin(d.popped)
      ensures forall i :: 0 <= i < |popped| ==> popped[i].attached
      ensures SharedView() == old(SharedView()) && SendView() == old(SendView())
    {
      hide *;
      var all := TakeOut();
      ghost var q := QueueView(all);
      var n;
      got, fin, n := TakeFrom(all, want);
      TakingDone(q, want, got, QueueView(all), n);
      DrainTies(q, want);
      SplitView(all, n);
      popped := all[..n];
      PutBack(all[n..]);
    }

    /** A part of the queue has the matching part of its view. */
    static lemma {:induction false} SplitView(all: seq<StreamRecvBuffer>, n: nat)
      requires Owned(all) && n <= |all|
      ensures Owned(all[..n]) && QueueView(all[..n]) == QueueView(all)[..n]
      ensures Owned(all[n..]) && QueueView(all[n..]) == QueueView(all)[n..]
      ensures n > 0 ==> QueueView(all)[n - 1].fin == all[n - 1].fin
    {
    }

    /** What `poll_read` and `poll_read_buf` share: check, copy out of the queue, conclude. */
    method ReadQueue(cx: Task, want: nat)
      returns (res: Poll<Result<Option<nat>, ReadError>>, got: seq<byte>, popped: seq<StreamRecvBuffer>)
      requires Valid()
      modifies this`startWaiters, this`recvBuffers, this`recvState, this`readWaiters, recvBuffers
      ensures Valid() && Owned(popped)
      ensures var s := Receive.PollRead(old(SharedView()), old(RecvView()), cx, want);
              ReadStep(SharedView(), RecvView(), QueueView(popped), got, res) == s
      ensures forall i :: 0 <= i < |popped| ==> popped[i].attached
      ensures SendView() == old(SendView())
    {
      hide Valid, RecvView, SharedView, SendView, QueueView, Drain, AfterRead, CopyStatus, AllValid;
      var gate := CheckReadable(cx);
      if gate == Go {
        var fin;
        got, fin, popped := TakeQueue(want);
        var p := Conclude(cx, CopyStatus(|got|, fin, want));
        res := Lift(p);
      } else {
        got, popped := [], [];
        res := match gate
          case Fails(e) => Ready(Err(e))
          case AtEnd => Ready(Ok(None))
          case _ => Pending;
      }
    }

    /** `got` at the start of the destination, and the rest of it as before. */
    static ghost predicate CopiedTo(before: seq<byte>, got: seq<byte>, after: seq<byte>) {
      |got| <= |before| == |after| && after[..|got|] == got && after[|got|..] == before[|got|..]
    }

    /** `poll_read`: the bytes land at the start of `buf`, the end of the stream reads as 0. */
    method PollRead(cx: Task, buf: array<byte>) returns (res: Poll<Result<nat, ReadError>>, popped: seq<StreamRecvBuffer>)
      requires Valid()
      modifies this`startWaiters, this`recvBuffers, this`recvState, this`readWaiters, recvBuffers, buf
      ensures Valid() && Owned(popped)
      ensures var s := Receive.PollRead(old(SharedView()), old(RecvView()), cx, buf.Length);
              && SharedView() == s.shared && RecvView() == s.recv && QueueView(popped) == s.popped
              && CopiedTo(old(buf[..]), s.got, buf[..]) && res == Counted(s.result)
      ensures forall i :: 0 <= i < |popped| ==> popped[i].attached
      ensures SendView() == old(SendView())
    {
      hide *;
      ReadFits(SharedView(), RecvView(), cx, buf.Length);
      var r, got;
      r, got, popped := ReadQueue(cx, buf.Length);
      CopyInto(buf, got);
      res := Counted(r);
    }

    static method CopyInto(buf: array<byte>, got: seq<byte>)
      requires |got| <= buf.Length
      modifies buf
      ensures CopiedTo(old(buf[..]), got, buf[..])
    {
      forall i | 0 <= i < |got| {
        buf[i] := got[i];
      }
    }

    static lemma {:induction false} ReadFits(sh: Shared, r: Recv, cx: Task, want: nat)
      requires AllValid(r.queue)
      ensures |Receive.PollRead(sh, r, cx, want).got| <= want
    {
      DrainFits(r.queue, want);
    }

    /** `poll_read_buf` into a buffer that already holds `filled` bytes of its `capacity`. */
    method PollReadBuf(cx: Task, filled: seq<byte>, capacity: nat)
      returns (res: Poll<Result<(), ReadError>>, after: seq<byte>, popped: seq<StreamRecvBuffer>)
      requires Valid() && |filled| <= capacity
      modifies this`startWaiters, this`recvBuffers, this`recvState, this`readWaiters, recvBuffers
      ensures Valid() && Owned(popped) && SendView() == old(SendView())
      ensures |filled| == capacity ==>
                && res == Ready(Ok(())) && after == filled && popped == []
                && SharedView() == old(SharedView()) && RecvView() == old(RecvView())
      ensures |filled| < capacity ==>
                var s := Receive.PollRead(old(SharedView()), old(RecvView()), cx, capacity - |filled|);
                && SharedView() == s.shared && RecvView() == s.recv && QueueView(popped) == s.popped
                && after == filled + s.got && |after| <= capacity
                && res == Uncounted(s.result)
      ensures forall i :: 0 <= i < |popped| ==> popped[i].attached
    {
      hide *;
      if capacity - |filled| == 0 {
        EmptyOwned();
        return Ready(Ok(())), filled, [];
      }
      ReadFits(SharedView(), RecvView(), cx, capacity - |filled|);
      var r, got;
      r, got, popped := ReadQueue(cx, capacity - |filled|);
      after := filled + got;
      res := Uncounted(r);
    }

    /** Pop the front buffer and tie it to the stream. */
    method PopFront() returns (c: StreamRecvBuffer)
      requires Valid() && recvBuffers != []
      modifies this`recvBuffers, recvBuffers
      ensures Valid() && c.Valid() && c.attached
      ensures c.View() == old(RecvView()).queue[0].Attached()
      ensures RecvView() == old(RecvView()).(queue := old(RecvView()).queue[1..])
      ensures SharedView() == old(SharedView()) && SendView() == old(SendView())
    {
      hide *;
      var all := TakeOut();
      ghost var q := QueueView(all);
      TieFront(all);
      FrontAndRest(all, q);
      c := all[0];
      PutBack(all[1..]);
    }

    static method TieFront(all: seq<StreamRecvBuffer>)
      requires Owned(all) && all != []
      modifies all
      ensures Owned(all) && QueueView(all) == old(QueueView(all))[0 := old(QueueView(all))[0].Attached()]
    {
      ghost var views := QueueView(all);
      all[0].SetStream();
      assert forall i :: 0 < i < |all| ==> all[i].View() == views[i];
    }

    static lemma {:induction false} FrontAndRest(all: seq<StreamRecvBuffer>, q: seq<Chunk>)
      requires Owned(all) && all != [] && q != [] && QueueView(all) == q[0 := q[0].Attached()] && Untied(q)
      ensures all[0].Valid() && all[0].View() == q[0].Attached() && all[0].attached
      ensures Owned(all[1..]) && QueueView(all[1..]) == q[1..] && Untied(q[1..])
    {
      assert QueueView(all)[0] == all[0].View();
    }

    lemma {:induction false} QueueEmpty()
      requires Valid()
      ensures RecvView().queue == [] <==> recvBuffers == []
    {
    }

    /** `poll_read_chunk`. */
    method PollReadChunk(cx: Task) returns (res: Poll<Result<Option<StreamRecvBuffer>, ReadError>>)
      requires Valid()
      modifies this`startWaiters, this`recvBuffers, this`recvState, this`readWaiters, recvBuffers
      ensures Valid()
      ensures var s := Receive.PollReadChunk(old(SharedView()), old(RecvView()), cx);
              && SharedView() == s.shared && RecvView() == s.recv
              && match res
                 case Pending => s.result == Pending
                 case Ready(Err(e)) => s.result == Ready(Err(e))
                 case Ready(Ok(None)) => s.result == Ready(Ok(None))
                 case Ready(Ok(Some(c))) => c.Valid() && c.attached && s.result == Ready(Ok(Some(c.View())))
      ensures SendView() == old(SendView())
    {
      hide Valid, RecvView, SharedView, SendView, QueueView, AllValid;
      var gate := CheckReadable(cx);
      QueueEmpty();
      match gate {
        case Fails(e) => res := Ready(Err(e));
        case AtEnd => res := Ready(Ok(None));
        case ParkOnStart => res := Pending;
        case Go =>
          if recvBuffers == [] {
            var p := Conclude(cx, FromPair<StreamRecvBuffer>(None, false));
            res := Pending;
          } else {
            var c := PopFront();
            var p := Conclude(cx, FromPair(Some(c), c.fin));
            res := Ready(Ok(Some(c)));
          }
      }
    }

    /** `poll_abort_read`; `failure` is the status of the native shutdown call, if it is refused. */
    method PollAbortRead(cx: Task, failure: Option<nat>) returns (res: Poll<Result<(), ReadError>>)
      requires Valid()
      modifies this`startWaiters, this`recvState, this`readWaiters
      ensures Valid() && SendView() == old(SendView())
      ensures (SharedView(), RecvView(), res) == Receive.PollAbortRead(old(SharedView()), old(RecvView()), cx, failure)
    {
      hide QueueView, PoolView, Owned, AllValid;
      match recvState {
        case Start =>
          startWaiters := RegisterWaker(startWaiters, cx);
          res := Pending;
        case StartComplete =>
          if failure.Some? {
            res := Ready(Err(ReadOther(failure.value)));
          } else {
            recvState := ShutdownComplete;
            readWaiters := [];
            res := Ready(Ok(()));
          }
        case ShutdownComplete =>
          if connError.Some? {
            res := Ready(Err(ReadConnectionLost(connError.value)));
          } else if recvErrorCode.Some? {
            res := Ready(Err(Reset(recvErrorCode.value)));
          } else {
            res := Ready(Ok(()));
          }
        case _ => res := Ready(Err(NotReadable));
      }
    }

    method AbortRead(failure: Option<nat>) returns (res: Result<(), ReadError>)
      requires Valid()
      modifies this`recvState
      ensures Valid() && SharedView() == old(SharedView()) && SendView() == old(SendView())
      ensures (RecvView(), res) == Receive.AbortRead(old(RecvView()), failure)
    {
      hide QueueView, PoolView, Owned, AllValid;
      match recvState {
        case StartComplete =>
          if failure.Some? {
            return Err(ReadOther(failure.value));
          }
          recvState := ShutdownComplete;
        case _ => return Err(NotReadable);
      }
      res := Ok(());
    }

    /** A Receive event; `id` is the identity of the new buffer, `len` the native total length. */
    method HandleEventReceive(id: nat, offset: nat, len: nat, buffers: seq<seq<byte>>, fin: bool)
      requires Valid() && len == |Flat(buffers)| < U32_LIMIT
      modifies this`recvLen, this`recvBuffers, this`readWaiters
      ensures Valid() && SharedView() == old(SharedView()) && SendView() == old(SendView())
      ensures RecvView() == OnReceive(old(RecvView()), Chunk(id, offset, Flat(buffers), 0, fin, false))
      ensures fresh(recvBuffers[|recvBuffers| - 1])
    {
      hide PoolView, AllValid, Flat;
      var recvBuffer := new StreamRecvBuffer(id, offset, buffers, fin);
      var q := recvBuffers + [recvBuffer];
      AppendView(recvBuffers, recvBuffer);
      recvLen := recvLen + len;
      recvBuffers := q;
      readWaiters := [];
    }

    static lemma {:induction false} AppendView(q: seq<StreamRecvBuffer>, c: StreamRecvBuffer)
      requires Owned(q) && c.Valid() && c !in q
      ensures Owned(q + [c]) && QueueView(q + [c]) == QueueView(q) + [c.View()]
    {
    }

    /** `PeerSendShutdown`, or `PeerSendAborted` with its code. */
    method HandleEventPeerSendEnd(code: Option<nat>)
      requires Valid()
      modifies this`recvState, this`recvErrorCode, this`readWaiters
      ensures Valid() && SharedView() == old(SharedView()) && SendView() == old(SendView())
      ensures RecvView() == OnPeerSendEnd(old(RecvView()), code)
    {
      hide QueueView, PoolView, Owned, AllValid;
      recvState := ShutdownComplete;
      if code.Some? {
        recvErrorCode := code;
      }
      readWaiters := [];
    }

    /** Complete every undelivered buffer, front first, through the accounting drops use; then drop them. */
    method SweepQueue() returns (swept: seq<nat>, dropped: seq<nat>)
      requires Valid()
      modifies this`recvBuffers, this`readCompleteMap, this`readCompleteCursor, recvBuffers
      ensures Valid() && SharedView() == old(SharedView()) && SendView() == old(SendView())
      ensures var (a, c) := Sweep(old(RecvView()).acct, old(RecvView()).queue);
              var (b, d) := DropAll(a, old(RecvView()).queue);
              swept == c && dropped == d && RecvView() == old(RecvView()).(acct := b, queue := [])
    {
      hide *;
      var q := TakeOut();
      swept := CompleteAll(q);
      dropped := DropBuffers(q);
    }

    static lemma {:induction false} EmptyOwned()
      ensures Owned([]) && QueueView([]) == []
    {
    }

    method CompleteAll(q: seq<StreamRecvBuffer>) returns (calls: seq<nat>)
      requires Valid() && Owned(q)
      modifies this`readCompleteMap, this`readCompleteCursor
      ensures Valid() && SharedView() == old(SharedView()) && SendView() == old(SendView())
      ensures Owned(q) && (RecvView().acct, calls) == Sweep(old(RecvView()).acct, old(QueueView(q)))
      ensures RecvView() == old(RecvView()).(acct := RecvView().acct)
    {
      hide Valid, RecvView, SharedView, SendView, RegisterChunk, AllValid, PoolView;
      ghost var views, a := QueueView(q), RecvView().acct;
      calls := [];
      var i := 0;
      assert views[..0] == [];
      while i < |q|
        invariant 0 <= i <= |q| && Valid() && Owned(q) && QueueView(q) == views
        invariant (RecvView().acct, calls) == Sweep(a, views[..i])
        invariant RecvView() == old(RecvView()).(acct := RecvView().acct)
        invariant SharedView() == old(SharedView()) && SendView() == old(SendView())
      {
        var call := ReadComplete(q[i], views[i]);
        assert views[..i + 1][..i] == views[..i];
        calls := Append(calls, call);
        i := i + 1;
      }
      assert views[..i] == views;
    }

    /** `Drop` of a receive buffer: one that is tied to the stream is untied and completed. */
    method Drop(buffer: StreamRecvBuffer, ghost view: Chunk) returns (len: Option<nat>)
      requires Valid() && buffer.Valid() && buffer !in recvBuffers && buffer.View() == view
      modifies this`readCompleteMap, this`readCompleteCursor, buffer`attached
      ensures Valid() && SharedView() == old(SharedView()) && SendView() == old(SendView())
      ensures (RecvView().acct, len) == DropChunk(old(RecvView()).acct, view)
      ensures RecvView() == old(RecvView()).(acct := RecvView().acct)
      ensures buffer.Valid() && buffer.View() == view.(attached := false)
    {
      hide QueueView, PoolView, Owned, AllValid, Register;
      len := None;
      if buffer.attached {
        buffer.attached := false;
        len := ReadComplete(buffer, view.(attached := false));
      }
    }

    /** The drop of a list of buffers that are no longer queued. */
    method DropBuffers(q: seq<StreamRecvBuffer>) returns (calls: seq<nat>)
      requires Valid() && Owned(q) && recvBuffers == []
      modifies this`readCompleteMap, this`readCompleteCursor, q
      ensures Valid() && recvBuffers == [] && SharedView() == old(SharedView()) && SendView() == old(SendView())
      ensures (RecvView().acct, calls) == DropAll(old(RecvView()).acct, old(QueueView(q)))
      ensures RecvView() == old(RecvView()).(acct := RecvView().acct)
    {
      hide Valid, RecvView, SharedView, SendView, DropChunk, AllValid, PoolView;
      ghost var views, a := QueueView(q), RecvView().acct;
      calls := [];
      var i := 0;
      assert views[..0] == [];
      while i < |q|
        invariant 0 <= i <= |q| && Valid() && Owned(q) && recvBuffers == []
        invariant forall j :: i <= j < |q| ==> q[j].View() == views[j]
        invariant (RecvView().acct, calls) == DropAll(a, views[..i])
        invariant RecvView() == old(RecvView()).(acct := RecvView().acct)
        invariant SharedView() == old(SharedView()) && SendView() == old(SendView())
      {
        var call := Drop(q[i], views[i]);
        assert views[..i + 1][..i] == views[..i];
        calls := Append(calls, call);
        i := i + 1;
      }
      assert views[..i] == views;
    }

    /** `ShutdownComplete`: MsQuic is told `swept` unless the application is closing, `dropped` in any case. */
    method HandleEventShutdownComplete(loss: Loss) returns (swept: seq<nat>, dropped: seq<nat>)
      requires Valid()
      modifies this`state, this`connError, this`startWaiters, this`recvBuffers, this`readCompleteMap, this`readCompleteCursor
      modifies this`recvState, this`sendState, this`readWaiters, recvBuffers
      ensures Valid()
      ensures Closing(SharedView(), RecvView(), swept, dropped) == OnShutdownComplete(old(SharedView()), old(RecvView()), loss)
      ensures SendView() == if old(state) == Completed then old(SendView()) else old(SendView()).(state := ShutdownComplete)
    {
      hide Valid, RecvView, SendView, Sweep, DropAll, LossError;
      if state == Completed {
        return [], [];
      }
      swept, dropped := SweepQueue();
      CloseBoth(loss);
    }

    method CloseBoth(loss: Loss)
      requires Valid()
      modifies this`state, this`connError, this`startWaiters, this`recvState, this`sendState, this`readWaiters
      ensures Valid()
      ensures SharedView() == old(SharedView()).(
                life := Completed, connError := LossError(loss, old(SharedView()).connError), startWaiters := [])
      ensures RecvView() == old(RecvView()).(state := ShutdownComplete, waiters := [])
      ensures SendView() == old(SendView()).(state := ShutdownComplete)
    {
      hide Valid, RecvView, SendView, LossError;
      CloseHalves();
      var error := ConnectionLoss(loss);
      state, connError, startWaiters := Completed, error, [];
    }

    method CloseHalves()
      requires Valid()
      modifies this`recvState, this`sendState, this`readWaiters
      ensures Valid() && SharedView() == old(SharedView())
      ensures RecvView() == old(RecvView()).(state := ShutdownComplete, waiters := [])
      ensures SendView() == old(SendView()).(state := ShutdownComplete)
    {
      hide QueueView, PoolView, Owned, AllValid;
      recvState, sendState, readWaiters := ShutdownComplete, ShutdownComplete, [];
    }

    method ConnectionLoss(loss: Loss) returns (error: Option<ConnectionError>)
      ensures error == LossError(loss, connError)
    {
      error := connError;
      if loss.Loss? {
        match (loss.byApp, loss.remotely) {
          case (true, true) => error := Some(ShutdownByPeer(loss.code));
          case (true, false) => error := Some(ShutdownByLocal);
          case (false, _) => error := Some(ShutdownByTransport(loss.status, loss.code));
        }
      }
    }

    method HandleEventCancelOnLoss()
      requires Valid()
      modifies this`cancelledOnLoss
      ensures Valid() && SharedView() == old(SharedView()).(cancelledOnLoss := true)
      ensures RecvView() == old(RecvView()) && SendView() == old(SendView())
    {
      hide QueueView, PoolView, Owned, AllValid;
      cancelledOnLoss := true;
    }

    /** The peer has accepted the stream: both halves it has are open. */
    method MarkAccepted()
      requires Valid()
      modifies this`state, this`recvState, this`sendState
      ensures Valid() && SharedView() == old(SharedView()).(life := Started)
      ensures RecvView() == OnAccepted(old(SharedView()), old(RecvView()))
      ensures SendView() == old(SendView()).(state := StartComplete)
    {
      hide QueueView, PoolView, Owned, AllValid;
      state := Started;
      if bidirectional {
        recvState := StartComplete;
      }
      sendState := StartComplete;
    }

    /** `StartComplete`: accepted at once, refused by the stream limit, or still to be accepted. */
    method HandleEventStartComplete(status: Status, peerAccepted: bool)
      requires Valid()
      modifies this`startStatus, this`state, this`recvState, this`sendState, this`startWaiters
      ensures Valid()
      ensures var on := status == Success && peerAccepted;
              && SharedView() == old(SharedView()).(
                   startStatus := Some(status), life := if on then Started else old(state),
                   startWaiters := if status == LimitReached || peerAccepted then [] else old(SharedView()).startWaiters)
              && RecvView() == (if on then OnAccepted(old(SharedView()), old(RecvView())) else old(RecvView()))
              && SendView() == (if on then old(SendView()).(state := StartComplete) else old(SendView()))
    {
      hide QueueView, PoolView, Owned, AllValid;
      startStatus := Some(status);
      if status == Success && peerAccepted {
        MarkAccepted();
      }
      if status == LimitReached || peerAccepted {
        startWaiters := [];
      }
    }

    method HandleEventPeerAccepted()
      requires Valid()
      modifies this`state, this`recvState, this`sendState, this`startWaiters
      ensures Valid() && SharedView() == old(SharedView()).(life := Started, startWaiters := [])
      ensures RecvView() == OnAccepted(old(SharedView()), old(RecvView()))
      ensures SendView() == old(SendView()).(state := StartComplete)
    {
      hide QueueView, PoolView, Owned, AllValid;
      MarkAccepted();
      startWaiters := [];
    }

    /** The native start was taken: both halves wait for its indication. */
    method MarkStarting()
      requires Valid()
      modifies this`state, this`recvState, this`sendState
      ensures Valid() && SharedView() == old(SharedView()).(life := Starting)
      ensures RecvView() == old(RecvView()).(state := if bidirectional then Start else old(recvState))
      ensures SendView() == old(SendView()).(state := Start)
    {
      hide QueueView, PoolView, Owned, AllValid;
      state := Starting;
      if bidirectional {
        recvState := Start;
      }
      sendState := Start;
    }

    lemma {:induction false} ViewStates()
      requires Valid()
      ensures RecvView().state == recvState && SendView().state == sendState && SharedView().life == state
    {
    }

    /** `poll_start`; `refused` is the status of the native start, if it is refused. */
    method PollStart(cx: Task, refused: Option<Status>) returns (res: StartPath.StartResult)
      requires Valid()
      modifies this`state, this`recvState, this`sendState, this`startWaiters
      ensures Valid()
      ensures var st := StartPath.PollStart(old(SharedView()), old(recvState), old(sendState), cx, refused);
              && SharedView() == st.shared && res == st.result
              && RecvView() == old(RecvView()).(state := st.recv)
              && SendView() == old(SendView()).(state := st.send)
    {
      hide *;
      match state {
        case Opened => res := BeginStart(cx, refused);
        case Starting => res := AwaitStart(cx, refused);
        case _ => res := StartOutcome(cx, refused);
      }
    }

    /** Not started yet: start natively, then park until MsQuic indicates the outcome. */
    method BeginStart(cx: Task, refused: Option<Status>) returns (res: StartPath.StartResult)
      requires Valid() && state == Opened
      modifies this`state, this`recvState, this`sendState, this`startWaiters
      ensures Valid()
      ensures var st := StartPath.PollStart(old(SharedView()), old(recvState), old(sendState), cx, refused);
              && SharedView() == st.shared && res == st.result
              && RecvView() == old(RecvView()).(state := st.recv)
              && SendView() == old(SendView()).(state := st.send)
    {
      ViewStates();
      hide Valid, RecvView, SendView;
      if refused.Some? {
        return StartPath.StartFailed(StartPath.StartOther(refused.value));
      }
      MarkStarting();
      startWaiters := RegisterWaker(startWaiters, cx);
      res := StartPath.Parked;
    }

    method AwaitStart(cx: Task, refused: Option<Status>) returns (res: StartPath.StartResult)
      requires Valid() && state == Starting
      modifies this`startWaiters
      ensures Valid()
      ensures var st := StartPath.PollStart(old(SharedView()), recvState, sendState, cx, refused);
              && SharedView() == st.shared && res == st.result
              && RecvView() == old(RecvView()).(state := st.recv)
              && SendView() == old(SendView()).(state := st.send)
    {
      ViewStates();
      hide Valid, RecvView, SendView;
      startWaiters := RegisterWaker(startWaiters, cx);
      res := StartPath.Parked;
    }

    /** What `poll_start` reports once the start has been indicated. */
    method StartOutcome(cx: Task, refused: Option<Status>) returns (res: StartPath.StartResult)
      requires Valid() && (state == Started || state == Completed)
      ensures StartPath.PollStart(SharedView(), recvState, sendState, cx, refused)
           == StartPath.StartStep(SharedView(), recvState, sendState, res)
      ensures RecvView().state == recvState && SendView().state == sendState
    {
      ViewStates();
      hide Valid, RecvView, SendView;
      match startStatus {
        case None => res := StartPath.Accepted;
        case Some(Success) => res := StartPath.Accepted;
        case Some(LimitReached) => res := StartPath.StartFailed(StartPath.StartLimitReached);
        case Some(Aborted) =>
          res := if connError.Some? then StartPath.StartFailed(StartPath.StartConnectionLost(connError.value)) else StartPath.Panics;
        case Some(Unnamed(_)) => res := StartPath.Panics;
        case Some(other) => res := StartPath.StartFailed(StartPath.StartOther(other));
      }
    }

    // ---- The send half ----

    /** The error a send-half call reports once the half has shut down for good. */
    method SendLoss(lossCounts: bool) returns (e: Option<WriteError>)
      ensures e == LostWith(SharedView(), SendView(), lossCounts)
    {
      if connError.Some? {
        e := Some(WriteConnectionLost(connError.value));
      } else if lossCounts && cancelledOnLoss {
        e := Some(WriteCancelledOnLoss);
      } else if sendErrorCode.Some? {
        e := Some(Stopped(sendErrorCode.value));
      } else {
        e := None;
      }
    }

    /** Pop a pooled buffer or make one with identity `next`. */
    method PopBuffer(next: nat) returns (b: WriteBuffer)
      requires Valid()
      modifies this`writePool
      ensures Valid() && b !in writePool && (b in old(writePool) || fresh(b))
      ensures var (v, rest) := TakeBuffer(old(SendView()).pool, next);
              b.View() == v && SendView() == old(SendView()).(pool := rest)
      ensures SharedView() == old(SharedView()) && RecvView() == old(RecvView())
    {
      hide QueueView, Owned, AllValid;
      if writePool == [] {
        b := new WriteBuffer(next);
      } else {
        var n := |writePool| - 1;
        b := writePool[n];
        writePool := writePool[..n];
      }
    }

    method PushBuffer(b: WriteBuffer)
      requires Valid() && b !in writePool
      modifies this`writePool
      ensures Valid() && SendView() == old(SendView()).(pool := old(SendView()).pool + [b.View()])
      ensures SharedView() == old(SharedView()) && RecvView() == old(RecvView())
    {
      hide QueueView, Owned, AllValid;
      writePool := writePool + [b];
    }

    /** The write closures: `put_slice`, or `put_zerocopy` for each chunk. The count is what was put. */
    static method Put(b: WriteBuffer, p: Payload) returns (n: nat)
      modifies b
      ensures b.View() == Fill(old(b.View()), p) && n == |p.Bytes()|
    {
      match p {
        case Slice(bytes) => n := b.PutSlice(bytes);
        case Chunks(cs) =>
          n := 0;
          ghost var was := b.View();
          assert cs[..0] == [] && was.zerocopy + [] == was.zerocopy;
          for i := 0 to |cs|
            invariant b.View() == Fill(was, Payload.Chunks(cs[..i]))
            invariant n == |Flat(cs[..i])|
          {
            FlatAt(cs, i);
            assert was.zerocopy + cs[..i + 1] == was.zerocopy + cs[..i] + [cs[i]];
            var k := b.PutZerocopy(cs[i]);
            n := n + k;
          }
          assert cs[..|cs|] == cs;
      }
    }

    /** `poll_write_generic` with its three closures. `failure` is the native status if the send is refused. */
    method PollWrite(cx: Task, p: Payload, fin: bool, failure: Option<nat>, next: nat)
      returns (res: Poll<Result<nat, WriteError>>, native: Option<NativeSend>)
      requires Valid()
      modifies this`startWaiters, this`writePool, this`sendState, writePool
      ensures Valid() && RecvView() == old(RecvView())
      ensures WriteStep(SharedView(), SendView(), native, res)
           == SendPath.PollWrite(old(SharedView()), old(SendView()), cx, p, fin, failure, next)
    {
      hide QueueView, PoolView, Owned, AllValid, Fill, TakeBuffer;
      native := None;
      match sendState {
        case Closed => res := Ready(Err(NotWritable));
        case Start =>
          startWaiters := RegisterWaker(startWaiters, cx);
          res := Pending;
        case Shutdown => res := Ready(Err(WriteFinished));
        case ShutdownComplete =>
          var e := SendLoss(true);
          res := Ready(Err(if e.Some? then e.value else WriteFinished));
        case StartComplete =>
          res, native := SendNow(p, fin, failure, next);
      }
    }

    /** Take a buffer, fill it, and list what it holds for MsQuic. */
    method Prepare(p: Payload, next: nat) returns (b: WriteBuffer, written: nat)
      requires Valid()
      modifies this`writePool, writePool
      ensures Valid() && b !in writePool && (b in old(writePool) || fresh(b)) && written == |p.Bytes()|
      ensures var (v, rest) := TakeBuffer(old(SendView()).pool, next);
              b.View() == Fill(v, p).WithBuffers() && SendView() == old(SendView()).(pool := rest)
      ensures SharedView() == old(SharedView()) && RecvView() == old(RecvView())
    {
      hide QueueView, PoolView, Owned, AllValid, Fill, TakeBuffer;
      b := PopBuffer(next);
      written := Put(b, p);
      var bufs := b.GetBuffers();
    }

    method SendNow(p: Payload, fin: bool, failure: Option<nat>, next: nat)
      returns (res: Poll<Result<nat, WriteError>>, native: Option<NativeSend>)
      requires Valid() && sendState == StartComplete
      modifies this`writePool, this`sendState, writePool
      ensures Valid() && RecvView() == old(RecvView())
      ensures WriteStep(SharedView(), SendView(), native, res)
           == SendPath.PollWrite(old(SharedView()), old(SendView()), 0, p, fin, failure, next)
    {
      hide Valid, RecvView, SharedView, PoolView, Fill, TakeBuffer;
      var b, written := Prepare(p, next);
      native := Some(NativeSend(b.View(), fin, failure.None?));
      if failure.None? {
        if fin {
          sendState := Shutdown;
        }
        res := Ready(Ok(written));
      } else {
        b.Reset();
        PushBuffer(b);
        res := Ready(Err(WriteOther(failure.value)));
      }
    }

    /** `poll_finish_write` (`lossCounts`) and `poll_abort_write` (not). */
    method PollCloseWrite(cx: Task, failure: Option<nat>, lossCounts: bool) returns (res: Poll<Result<(), WriteError>>)
      requires Valid()
      modifies this`startWaiters, this`sendState, this`writeShutdownWaiters
      ensures Valid() && RecvView() == old(RecvView())
      ensures WriteStep(SharedView(), SendView(), None, res)
           == SendPath.PollCloseWrite(old(SharedView()), old(SendView()), cx, failure, lossCounts)
    {
      hide Valid, RecvView, PoolView;
      match sendState {
        case Start =>
          startWaiters := RegisterWaker(startWaiters, cx);
          return Pending;
        case StartComplete =>
          if failure.Some? {
            return Ready(Err(WriteOther(failure.value)));
          }
          sendState := Shutdown;
        case Shutdown =>
        case ShutdownComplete =>
          var e := SendLoss(lossCounts);
          return Ready(if e.Some? then Err(e.value) else Ok(()));
        case Closed => return Ready(Err(NotWritable));
      }
      writeShutdownWaiters := RegisterWaker(writeShutdownWaiters, cx);
      res := Pending;
    }

    method AbortWrite(failure: Option<nat>) returns (res: Result<(), WriteError>)
      requires Valid()
      modifies this`sendState
      ensures Valid() && SharedView() == old(SharedView()) && RecvView() == old(RecvView())
      ensures (SendView(), res) == SendPath.AbortWrite(old(SendView()), failure)
    {
      match sendState {
        case StartComplete =>
          if failure.Some? {
            return Err(WriteOther(failure.value));
          }
          sendState := Shutdown;
          res := Ok(());
        case _ => res := Err(NotWritable);
      }
    }

    /** `SendComplete`: MsQuic returns the buffer of a send. */
    method HandleEventSendComplete(b: WriteBuffer)
      requires Valid() && b !in writePool
      modifies this`writePool, b
      ensures Valid() && SharedView() == old(SharedView()) && RecvView() == old(RecvView())
      ensures SendView() == OnSendComplete(old(SendView()), old(b.View()))
    {
      hide QueueView, PoolView, Owned, AllValid;
      b.Reset();
      PushBuffer(b);
    }

    /** `SendShutdownComplete`, or `PeerReceiveAborted` with its code. */
    method HandleEventSendShutdown(code: Option<nat>)
      requires Valid()
      modifies this`sendState, this`sendErrorCode, this`writeShutdownWaiters
      ensures Valid() && SharedView() == old(SharedView()) && RecvView() == old(RecvView())
      ensures SendView() == OnSendShutdown(old(SendView()), code)
    {
      hide QueueView, PoolView, Owned, AllValid;
      sendState := ShutdownComplete;
      if code.Some? {
        sendErrorCode := code;
      }
      writeShutdownWaiters := [];
    }
  }
}
