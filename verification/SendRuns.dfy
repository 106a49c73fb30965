/** Every interleaving of the send half: writes, finishes, aborts, refused sends, and MsQuic events. */
module SendRuns {
  import opened Common
  import opened Sync
  import opened StreamTypes
  import opened SendPath
  import Runs
  import StartPath
  import WritePool

  datatype World = World(
    localOpen: bool,
    sh: Shared,
    s: Send,
    inflight: seq<WBuf>,       // buffers owned by MsQuic
    made: nat,                 // buffers allocated so far
    peak: nat,                 // most buffers ever in use at once, counting the send being attempted
    natives: seq<NativeSend>,  // every native send call, in order
    submitted: seq<byte>,      // arguments of the writes that returned Ok
    counted: nat,              // sum of the counts they returned
    closed: bool,              // a FIN, finish or abort was accepted
    begun: bool,               // the native start was made
    past: Past,
    accepted: bool,
    shutdownSeen: bool,
    sendEnded: bool)           // SendShutdownComplete or PeerReceiveAborted was indicated

  datatype Step =
    | StepStart(cx: Task, refused: Option<Status>)
    | StepWrite(cx: Task, payload: Payload, fin: bool, failure: Option<nat>)
    | StepFinish(cx: Task, failure: Option<nat>)
    | StepPollAbort(cx: Task, failure: Option<nat>)
    | StepAbort(failure: Option<nat>)
    | EventStartComplete(status: Status, peerAccepted: bool)
    | EventAccepted
    | EventSendComplete(i: nat)
    | EventSendShutdown(code: Option<nat>)
    | EventCancelOnLoss
    | EventShutdownComplete(loss: Loss)

  ghost predicate Initial(w: World) {
    && w.sh == Shared(w.sh.bidirectional, Opened, None, false, None, []) && !w.begun && w.past == NOTHING
    && (w.localOpen ==> w.s.state == Closed)
    && (!w.localOpen ==> w.s.state == if w.sh.bidirectional then StartComplete else Closed)
    && w.s.pool == [] && w.s.errorCode == None && w.s.waiters == []
    && w.inflight == [] && w.made == 0 && w.peak == 0
    && w.natives == [] && w.submitted == [] && w.counted == 0
    && !w.closed && !w.shutdownSeen && !w.sendEnded
    && w.accepted == !w.localOpen
  }

  ghost predicate Enabled(w: World, step: Step) {
    match step
    case StepStart(_, _) => w.localOpen
    case EventStartComplete(_, peerAccepted) =>
      w.sh.life == Starting && !w.shutdownSeen && (peerAccepted ==> !w.accepted)
    case EventAccepted => w.sh.life == Starting && !w.accepted && !w.shutdownSeen
    // the context of each successful send comes back exactly once
    case EventSendComplete(i) => i < |w.inflight|
    case EventSendShutdown(_) => w.sh.life != Completed && (w.sh.life == Opened ==> !w.localOpen)
    case _ => true
  }

  ghost function Written(w: World, cx: Task, p: Payload, fin: bool, failure: Option<nat>): World {
    var step := PollWrite(w.sh, w.s, cx, p, fin, failure, w.made);
    var v := w.(sh := step.shared, s := step.send);
    if step.native.None? then v
    else
      var n := step.native.value;
      var done := step.result == Ready(Ok(|p.Bytes()|));
      v.(natives := w.natives + [n],
         inflight := if n.ok then w.inflight + [n.buffer] else w.inflight,
         made := if w.s.pool == [] then w.made + 1 else w.made,
         peak := Max(w.peak, |w.inflight| + 1),
         submitted := if done then w.submitted + p.Bytes() else w.submitted,
         counted := if done then w.counted + step.result.value.value else w.counted,
         closed := w.closed || (w.s.state == StartComplete && failure.None? && fin))
  }

  /** Finish or abort: accepted when the native shutdown of a writable half is. */
  ghost function Ended(w: World, sh: Shared, s: Send, failure: Option<nat>): World {
    w.(sh := sh, s := s, closed := w.closed || (w.s.state == StartComplete && failure.None?))
  }

  ghost function Next(w: World, step: Step): World
    requires Enabled(w, step)
  {
    match step
    case StepStart(cx, refused) =>
      var st := StartPath.PollStart(w.sh, Closed, w.s.state, cx, refused);
      w.(sh := st.shared, s := w.s.(state := st.send), begun := w.begun || (refused.None? && w.past.ending.None?))
    case StepWrite(cx, p, fin, failure) => Written(w, cx, p, fin, failure)
    case StepFinish(cx, failure) =>
      var st := PollCloseWrite(w.sh, w.s, cx, failure, true);
      Ended(w, st.shared, st.send, failure)
    case StepPollAbort(cx, failure) =>
      var st := PollCloseWrite(w.sh, w.s, cx, failure, false);
      Ended(w, st.shared, st.send, failure)
    case StepAbort(failure) => Ended(w, w.sh, AbortWrite(w.s, failure).0, failure)
    case EventStartComplete(status, peerAccepted) =>
      var on := status == Success && peerAccepted;
      w.(sh := w.sh.(startStatus := Some(status), life := if on then Started else w.sh.life,
                     startWaiters := if status == LimitReached || peerAccepted then [] else w.sh.startWaiters),
         s := if on then w.s.(state := StartComplete) else w.s, accepted := w.accepted || on,
         past := w.past.(status := Some(status)))
    case EventAccepted =>
      w.(sh := w.sh.(life := Started, startWaiters := []), s := w.s.(state := StartComplete), accepted := true)
    case EventSendComplete(i) =>
      w.(s := OnSendComplete(w.s, w.inflight[i]), inflight := w.inflight[..i] + w.inflight[i + 1..])
    case EventSendShutdown(code) =>
      w.(s := OnSendShutdown(w.s, code), shutdownSeen := true, sendEnded := true,
         past := if code.Some? then w.past.(code := code) else w.past)
    case EventCancelOnLoss => w.(sh := w.sh.(cancelledOnLoss := true), past := w.past.(cancelled := true))
    case EventShutdownComplete(loss) =>
      if w.sh.life == Completed then w
      else w.(sh := w.sh.(life := Completed, connError := LossError(loss, w.sh.connError), startWaiters := []),
              s := w.s.(state := ShutdownComplete), shutdownSeen := true, past := w.past.(ending := Some(loss)))
  }

  /** The bytes of the native sends MsQuic took, in order. */
  ghost function Wire(natives: seq<NativeSend>): seq<byte> {
    if natives == [] then []
    else
      var n := |natives| - 1;
      Wire(natives[..n]) + if natives[n].ok then Flat(natives[n].buffer.buffers) else []
  }

  ghost function PoolOf(w: World): WritePool.Pool {
    WritePool.Pool(w.s.pool, w.inflight, w.made, w.peak)
  }

  ghost predicate SentTracked(w: World) {
    && Wire(w.natives) == w.submitted
    && |w.submitted| == w.counted
  }

  ghost predicate EndTracked(w: World) {
    && (w.closed ==> w.s.state in {Shutdown, ShutdownComplete})
    && (w.s.state == Shutdown ==> w.closed)
    && (forall i :: 0 <= i < |w.natives| && w.natives[i].ok && w.natives[i].fin ==> w.closed && i == |w.natives| - 1)
  }

  ghost predicate Phased(w: World) {
    && (!w.accepted && !w.shutdownSeen ==> w.s.state in {Closed, Start})
    && (!w.accepted ==> !w.closed && w.s.state in {Closed, Start, ShutdownComplete})
    && (w.sh.life in {Opened, Starting} && w.localOpen ==> !w.accepted)
    && (w.sh.life == Opened && w.localOpen ==> w.s.state == Closed)
    && (w.s.state == ShutdownComplete ==> w.shutdownSeen)
    && (w.sh.life == Completed ==> w.s.state == ShutdownComplete)
    && (w.s.state == Start ==> w.sh.life == Starting)
    && (w.sendEnded ==> w.s.state == ShutdownComplete && w.shutdownSeen)
    && (w.sh.life == Starting ==> w.localOpen && w.s.state == if w.sendEnded then ShutdownComplete else Start)
  }

  ghost predicate Parked(w: World) {
    && Distinct(w.s.waiters)
    && (w.s.waiters != [] ==> w.s.state == Shutdown || (w.sh.life == Completed && !w.sendEnded))
    && (w.s.waiters != [] ==> w.closed)
    && Distinct(w.sh.startWaiters)
    && (w.sh.startWaiters != [] ==> w.sh.life == Starting)
  }

  ghost predicate Inv(w: World) {
    var holds :=
      WritePool.Inv(PoolOf(w)) && SentTracked(w) && EndTracked(w) && Phased(w) && Parked(w);
    holds
  }

  lemma {:induction false} WireSnoc(natives: seq<NativeSend>, n: NativeSend)
    ensures Wire(natives + [n]) == Wire(natives) + if n.ok then Flat(n.buffer.buffers) else []
  {
    assert (natives + [n])[..|natives|] == natives;
  }

  lemma {:induction false} WriteOwns(w: World, cx: Task, p: Payload, fin: bool, failure: Option<nat>)
    requires WritePool.Inv(PoolOf(w)) && SentTracked(w)
    ensures var v := Written(w, cx, p, fin, failure); WritePool.Inv(PoolOf(v)) && SentTracked(v)
  {
    hide WritePool.Inv;
    if w.s.state == StartComplete {
      WritePool.AttemptKeeps(PoolOf(w), p, failure.None?);
      WriteAttempts(w, cx, p, fin, failure);
      WriteTracked(w, cx, p, fin, failure);
      hide Written, PoolOf, SentTracked, WritePool.Attempted;
    } else {
      hide TakeBuffer, Fill, Registered, LostWith, Wire;
    }
  }

  lemma {:induction false} WriteAttempts(w: World, cx: Task, p: Payload, fin: bool, failure: Option<nat>)
    requires w.s.state == StartComplete
    ensures PoolOf(Written(w, cx, p, fin, failure)) == WritePool.Attempted(PoolOf(w), p, failure.None?)
  {
    hide Wire, Flat;
  }

  lemma {:induction false} WriteTracked(w: World, cx: Task, p: Payload, fin: bool, failure: Option<nat>)
    requires WritePool.Inv(PoolOf(w)) && SentTracked(w) && w.s.state == StartComplete
    ensures SentTracked(Written(w, cx, p, fin, failure))
  {
    hide WritePool.Inv, TakeBuffer, Fill;
    WritePool.HandsOverExactly(PoolOf(w), p);
    var full := WritePool.Filled(PoolOf(w), p);
    WireSnoc(w.natives, NativeSend(full, fin, failure.None?));
    assert w.submitted + [] == w.submitted;
  }

  lemma {:induction false} WriteKeeps(w: World, cx: Task, p: Payload, fin: bool, failure: Option<nat>)
    requires Inv(w)
    ensures Inv(Written(w, cx, p, fin, failure))
  {
    hide WritePool.Inv, SentTracked, Wire;
    WriteOwns(w, cx, p, fin, failure);
  }

  lemma {:induction false} ReturnKeeps(w: World, i: nat)
    requires Inv(w) && i < |w.inflight|
    ensures Inv(Next(w, EventSendComplete(i)))
  {
    WritePool.ReturnKeeps(PoolOf(w), i);
    assert PoolOf(Next(w, EventSendComplete(i))) == WritePool.Returned(PoolOf(w), i);
  }

  /** Steps other than writes and returned buffers leave ownership and the byte account alone. */
  lemma {:induction false} AccountKept(w: World, step: Step)
    requires Enabled(w, step) && !step.StepWrite? && !step.EventSendComplete?
    requires SentTracked(w) && EndTracked(w) && Phased(w)
    ensures PoolOf(Next(w, step)) == PoolOf(w) && SentTracked(Next(w, step)) && EndTracked(Next(w, step))
  {
    hide Wire, Distinct, Registered;
  }

  lemma {:induction false} PhaseKept(w: World, step: Step)
    requires Enabled(w, step) && !step.StepWrite? && !step.EventSendComplete? && Phased(w)
    ensures Phased(Next(w, step))
  {
    hide Wire, Distinct, Registered;
  }

  lemma {:induction false} WaitersKept(w: World, step: Step)
    requires Enabled(w, step) && !step.StepWrite? && !step.EventSendComplete?
    requires EndTracked(w) && Phased(w) && Parked(w)
    ensures Parked(Next(w, step))
  {
    assert Distinct([]);
    if step.StepStart? || step.StepFinish? || step.StepPollAbort? {
      StillDistinct(w.s.waiters, step.cx);
      StillDistinct(w.sh.startWaiters, step.cx);
    }
    hide Wire, Distinct, Registered;
  }

  lemma {:induction false} StepKeeps(w: World, step: Step)
    requires Inv(w) && Enabled(w, step)
    ensures Inv(Next(w, step))
  {
    hide WritePool.Inv, SentTracked, EndTracked, Phased, Parked, PollWrite, PollCloseWrite, AbortWrite, StartPath.PollStart;
    match step
    case StepWrite(cx, p, fin, failure) => WriteKeeps(w, cx, p, fin, failure);
    case EventSendComplete(i) => ReturnKeeps(w, i);
    case _ =>
      AccountKept(w, step);
      PhaseKept(w, step);
      WaitersKept(w, step);
  }

  ghost predicate Moves(w: World, step: Step, v: World) {
    Enabled(w, step) && v == Next(w, step)
  }

  ghost predicate Reachable(v: World) {
    exists w: World, steps: seq<Step> :: Initial(w) && Runs.Leads(Moves, w, steps, v)
  }

  // ---- The half is what its history makes it ----

  /** What the stream has recorded of its past. */
  ghost predicate Remembered(w: World) {
    var holds :=
      && w.sh.startStatus == w.past.status && w.sh.cancelledOnLoss == w.past.cancelled
      && w.s.errorCode == w.past.code && w.sh.connError == Reason(w.past)
      && (w.sh.life == Completed <==> w.past.ending.Some?);
    holds
  }

  predicate HasEnded(w: World) { w.sendEnded || w.past.ending.Some? }

  /** There is a write half, and the peer has accepted the stream if it had to. */
  predicate Writable(w: World) { if w.localOpen then w.accepted else w.sh.bidirectional }

  /** The life of the stream and the state of its send half, told from the history alone. */
  ghost predicate Stated(w: World) {
    var holds :=
      && w.sh.life == (if w.past.ending.Some? then Completed
                       else if w.localOpen && w.accepted then Started
                       else if w.localOpen && w.begun then Starting
                       else Opened)
      && w.s.state == (if HasEnded(w) then ShutdownComplete
                       else if Writable(w) then (if w.closed then Shutdown else StartComplete)
                       else if w.sh.life == Starting then Start
                       else Closed)
      && (w.localOpen && w.accepted ==> w.begun);
    holds
  }

  predicate IsCall(step: Step) {
    step.StepStart? || step.StepWrite? || step.StepFinish? || step.StepPollAbort? || step.StepAbort?
  }

  lemma {:induction false} WriteRecordsNothing(sh: Shared, s: Send, cx: Task, p: Payload, fin: bool, failure: Option<nat>, next: nat)
    ensures var st := PollWrite(sh, s, cx, p, fin, failure, next);
            st.shared == sh.(startWaiters := st.shared.startWaiters) && st.send.errorCode == s.errorCode
  {
    hide TakeBuffer, Fill, Registered, LostWith;
  }

  lemma {:induction false} CloseRecordsNothing(sh: Shared, s: Send, cx: Task, failure: Option<nat>, finish: bool)
    ensures var st := PollCloseWrite(sh, s, cx, failure, finish);
            st.shared == sh.(startWaiters := st.shared.startWaiters) && st.send.errorCode == s.errorCode
  {
    hide Registered, LostWith;
  }

  lemma {:induction false} CallsRecordNothing(w: World, step: Step)
    requires IsCall(step) && Enabled(w, step)
    ensures var v := Next(w, step);
            && v.past == w.past && v.s.errorCode == w.s.errorCode && v.sh.startStatus == w.sh.startStatus
            && v.sh.cancelledOnLoss == w.sh.cancelledOnLoss && v.sh.connError == w.sh.connError
            && (v.sh.life == Completed <==> w.sh.life == Completed)
  {
    match step {
      case StepWrite(cx, p, fin, failure) => WriteRecordsNothing(w.sh, w.s, cx, p, fin, failure, w.made);
      case StepFinish(cx, failure) => CloseRecordsNothing(w.sh, w.s, cx, failure, true);
      case StepPollAbort(cx, failure) => CloseRecordsNothing(w.sh, w.s, cx, failure, false);
      case _ =>
    }
    hide PollWrite, PollCloseWrite, Registered, LostWith;
  }

  lemma {:induction false} RememberedKept(w: World, step: Step)
    requires Remembered(w) && Enabled(w, step)
    ensures Remembered(Next(w, step))
  {
    if IsCall(step) {
      CallsRecordNothing(w, step);
      hide Next, Enabled, Reason;
    } else {
      if step.EventShutdownComplete? && w.sh.life != Completed {
        LossIsTheReason(w.past, step.loss);
      }
      hide Written, Ended, PollWrite, PollCloseWrite, StartPath.PollStart, LossError, Reason;
    }
  }

  lemma {:induction false} StatedKept(w: World, step: Step)
    requires Phased(w) && EndTracked(w) && Stated(w) && Enabled(w, step)
    ensures Stated(Next(w, step))
  {
    hide TakeBuffer, Fill, Registered;
  }

  lemma {:induction false} ReachableHistory(v: World)
    requires Reachable(v)
    ensures Inv(v) && Remembered(v) && Stated(v)
  {
    hide Inv, Initial, Remembered, Stated;
    var w: World, steps: seq<Step> :| Initial(w) && Runs.Leads(Moves, w, steps, v);
    InitialInv(w);
    InitialHistory(w);
    var inv := (a: World) => Inv(a) && Remembered(a) && Stated(a);
    forall a: World, s: Step, b: World | inv(a) && Moves(a, s, b) ensures inv(b) {
      hide Next, Enabled;
      StepKeeps(a, s);
      RememberedKept(a, s);
      InvPhased(a);
      StatedKept(a, s);
    }
    Runs.Keeps(Moves, inv, w, steps, v);
  }

  lemma {:induction false} InvPhased(w: World)
    requires Inv(w)
    ensures Phased(w) && EndTracked(w)
  {
  }

  lemma {:induction false} InitialHistory(w: World)
    requires Initial(w)
    ensures Remembered(w) && Stated(w)
  {
  }

  // ---- What every call answers, told from the history alone ----

  /** Why a half has ended, in the order of precedence, if it did not end cleanly. */
  function WhyEnded(p: Past): Option<WriteError> {
    if Reason(p).Some? then Some(WriteConnectionLost(Reason(p).value))
    else if p.cancelled then Some(WriteCancelledOnLoss)
    else if p.code.Some? then Some(Stopped(p.code.value))
    else None
  }

  /** A write waits for the acceptance of the stream, is taken whole or refused by MsQuic, or is told why there is
      nothing to write to. */
  lemma {:induction false} WriteAnswers(w: World, cx: Task, p: Payload, fin: bool, failure: Option<nat>)
    requires Reachable(w)
    ensures PollWrite(w.sh, w.s, cx, p, fin, failure, w.made).result ==
              if HasEnded(w) then Ready(Err(if WhyEnded(w.past).Some? then WhyEnded(w.past).value else WriteFinished))
              else if Writable(w) then
                Ready(if w.closed then Err(WriteFinished) else if failure.Some? then Err(WriteOther(failure.value)) else Ok(|p.Bytes()|))
              else if w.sh.life == Starting then Pending
              else Ready(Err(NotWritable))
    ensures PollWrite(w.sh, w.s, cx, p, fin, failure, w.made).shared ==
              if w.s.state == Start then w.sh.(startWaiters := Registered(w.sh.startWaiters, cx)) else w.sh
  {
    hide Reachable, WritePool.Inv, SentTracked, EndTracked, Parked, TakeBuffer, Fill;
    ReachableHistory(w);
  }

  /** The answer of a finish, and with `cancelled` forgotten that of an abort: it shuts an open half down, and
      waits for the acceptance of the stream or for the end of the half. */
  ghost function ToldToClose(w: World, cx: Task, failure: Option<nat>): WriteStep<()> {
    if HasEnded(w) then
      WriteStep(w.sh, w.s, None, Ready(if WhyEnded(w.past).Some? then Err(WhyEnded(w.past).value) else Ok(())))
    else if Writable(w) && !w.closed && failure.Some? then WriteStep(w.sh, w.s, None, Ready(Err(WriteOther(failure.value))))
    else if Writable(w) then WriteStep(w.sh, w.s.(state := Shutdown, waiters := Registered(w.s.waiters, cx)), None, Pending)
    else if w.sh.life == Starting then WriteStep(w.sh.(startWaiters := Registered(w.sh.startWaiters, cx)), w.s, None, Pending)
    else WriteStep(w.sh, w.s, None, Ready(Err(NotWritable)))
  }

  lemma {:induction false} CloseAnswers(w: World, cx: Task, failure: Option<nat>)
    requires Reachable(w)
    ensures PollCloseWrite(w.sh, w.s, cx, failure, true) == ToldToClose(w, cx, failure)
    ensures PollCloseWrite(w.sh, w.s, cx, failure, false) == ToldToClose(w.(past := w.past.(cancelled := false)), cx, failure)
  {
    hide Reachable, WritePool.Inv, SentTracked, EndTracked, Parked, Phased;
    ReachableHistory(w);
  }

  /** Pending means parked: on the start while the stream is not accepted, else among those who wait for the end of
      the half; and that is exactly while an answer is still to come. Nobody is taken off either list. */
  lemma {:induction false} PendingIsParked(w: World, cx: Task, failure: Option<nat>, finish: bool)
    requires Reachable(w)
    ensures var st := PollCloseWrite(w.sh, w.s, cx, failure, finish);
            && (st.result.Pending? <==> !HasEnded(w) && (if Writable(w) then w.closed || failure.None? else w.sh.life == Starting))
            && (st.result.Pending? ==> if Writable(w) then st.send.state == Shutdown && cx in st.send.waiters else cx in st.shared.startWaiters)
            && w.sh.startWaiters <= st.shared.startWaiters && w.s.waiters <= st.send.waiters
  {
    hide Reachable, WritePool.Inv, SentTracked, EndTracked, Parked, Phased;
    ReachableHistory(w);
  }

  /** `abort_write` works on an open half only, and says so otherwise. */
  lemma {:induction false} AbortAnswers(s: Send, failure: Option<nat>)
    ensures AbortWrite(s, failure).1.Ok? <==> s.state == StartComplete && failure.None?
    ensures AbortWrite(s, failure).1.Err? ==>
              && AbortWrite(s, failure).1.error == (if s.state == StartComplete && failure.Some? then WriteOther(failure.value) else NotWritable)
              && AbortWrite(s, failure).0 == s
  {
  }

  /** What `poll_start` reports once its outcome is known. */
  function Outcome(p: Past): StartPath.StartResult {
    if p.status.None? || p.status.value == Success then StartPath.Accepted
    else if p.status.value == LimitReached then StartPath.StartFailed(StartPath.StartLimitReached)
    else if p.status.value.OtherStatus? then StartPath.StartFailed(StartPath.StartOther(p.status.value))
    else if p.status.value == Aborted && Reason(p).Some? then StartPath.StartFailed(StartPath.StartConnectionLost(Reason(p).value))
    else StartPath.Panics
  }

  /** A start is made once, waits until the stream is accepted or completes, and then reports its outcome. */
  lemma {:induction false} StartAnswers(w: World, recv: Half, cx: Task, refused: Option<Status>)
    requires Reachable(w) && w.localOpen
    ensures var r := StartPath.PollStart(w.sh, recv, w.s.state, cx, refused);
            && r.result == (if w.accepted || w.past.ending.Some? then Outcome(w.past)
                            else if !w.begun && refused.Some? then StartPath.StartFailed(StartPath.StartOther(refused.value))
                            else StartPath.Parked)
            && (if r.result == StartPath.Parked then
                  r.shared == w.sh.(life := Starting, startWaiters := Registered(w.sh.startWaiters, cx))
                else r.shared == w.sh && r.recv == recv && r.send == w.s.state)
  {
    hide Reachable, WritePool.Inv, SentTracked, EndTracked, Parked, Phased, Registered;
    ReachableHistory(w);
  }

  lemma {:induction false} InitialInv(w: World)
    requires Initial(w)
    ensures Inv(w)
  {
    forall id: nat ensures WritePool.OwnedOnce(PoolOf(w), id) {
    }
  }

  lemma {:induction false} ReachableInv(v: World)
    requires Reachable(v)
    ensures Inv(v)
  {
    hide Inv, Initial;
    var w: World, steps: seq<Step> :| Initial(w) && Runs.Leads(Moves, w, steps, v);
    InitialInv(w);
    forall a: World, s: Step, b: World | Inv(a) && Moves(a, s, b) ensures Inv(b) {
      StepKeeps(a, s);
    }
    Runs.Keeps(Moves, Inv, w, steps, v);
  }

  // ---- Main results, for every reachable state ----

  /** What MsQuic was handed is what writes accepted, byte for byte, and the returned counts sum to it. */
  lemma {:induction false} SentEqualsAccepted(w: World)
    requires Reachable(w)
    ensures Wire(w.natives) == w.submitted
    ensures w.counted == |w.submitted|
  {
    ReachableInv(w);
  }

  /** One native send exactly from an open half; what it does to the half. */
  lemma {:induction false} WriteStepShape(sh: Shared, s: Send, cx: Task, p: Payload, fin: bool, failure: Option<nat>, next: nat)
    ensures var st := PollWrite(sh, s, cx, p, fin, failure, next);
            && (st.native.Some? <==> s.state == StartComplete)
            && (st.native.Some? ==> st.native.value.fin == fin && (st.native.value.ok <==> failure.None?))
            && (st.result.Ready? && st.result.value.Ok? <==> s.state == StartComplete && failure.None?)
            && (st.result.Ready? && st.result.value.Ok? ==> st.result.value.value == |p.Bytes()|)
            && st.send.state == (if s.state == StartComplete && failure.None? && fin then Shutdown else s.state)
  {
    hide TakeBuffer, Fill, Registered, LostWith;
  }

  lemma {:induction false} WriteShape(w: World, cx: Task, p: Payload, fin: bool, failure: Option<nat>)
    ensures var v := Written(w, cx, p, fin, failure);
            var res := PollWrite(w.sh, w.s, cx, p, fin, failure, w.made).result;
            if w.s.state == StartComplete && failure.None? then
              && res == Ready(Ok(|p.Bytes()|)) && v.submitted == w.submitted + p.Bytes()
              && |v.natives| == |w.natives| + 1 && v.natives[..|w.natives|] == w.natives
              && v.natives[|w.natives|].ok && (v.natives[|w.natives|].fin <==> fin)
              && v.closed == (w.closed || fin) && v.s.state == (if fin then Shutdown else StartComplete)
            else
              && !(res.Ready? && res.value.Ok?)
              && v.submitted == w.submitted && v.closed == w.closed && v.inflight == w.inflight && v.s.state == w.s.state
  {
    WriteStepShape(w.sh, w.s, cx, p, fin, failure, w.made);
    hide PollWrite;
  }

  /** A write is all or nothing: Ok with the whole length and one native send, which carries the FIN and closes
      the half if it was asked to, or no bytes on the wire. */
  lemma {:induction false} WriteIsAllOrNothing(w: World, cx: Task, p: Payload, fin: bool, failure: Option<nat>)
    requires Reachable(w)
    ensures var v := Written(w, cx, p, fin, failure);
            var res := PollWrite(w.sh, w.s, cx, p, fin, failure, w.made).result;
            if res.Ready? && res.value.Ok? then
              && w.s.state == StartComplete && failure.None?
              && res.value.value == |p.Bytes()| && Wire(v.natives) == Wire(w.natives) + p.Bytes()
              && |v.natives| == |w.natives| + 1 && v.natives[..|w.natives|] == w.natives
              && v.natives[|w.natives|].ok && (v.natives[|w.natives|].fin <==> fin)
              && (v.closed <==> fin) && v.s.state == (if fin then Shutdown else StartComplete)
            else
              Wire(v.natives) == Wire(w.natives) && v.closed == w.closed && v.inflight == w.inflight && v.s.state == w.s.state
  {
    ReachableInv(w);
    WriteShape(w, cx, p, fin, failure);
    WriteOwns(w, cx, p, fin, failure);
    hide Written, PollWrite, Wire, WritePool.Inv, Phased, Parked, Reachable;
  }

  /** After an accepted FIN, finish or abort, or the end of the half, no step makes another native send. */
  lemma {:induction false} NothingSentAfterTheEnd(w: World, steps: seq<Step>, v: World)
    requires Reachable(w) && Runs.Leads(Moves, w, steps, v)
    requires w.closed || w.s.state == ShutdownComplete
    ensures v.natives == w.natives && v.s.state in {Shutdown, ShutdownComplete}
    ensures forall i :: 0 <= i < |v.natives| && v.natives[i].ok && v.natives[i].fin ==> i == |v.natives| - 1
  {
    ReachableInv(w);
    var over := (a: World) => Inv(a) && a.s.state in {Shutdown, ShutdownComplete} && a.natives == w.natives;
    forall a: World, s: Step, b: World | over(a) && Moves(a, s, b) ensures over(b) {
      hide Next;
      StepKeeps(a, s);
      EndStep(a, s);
    }
    Runs.Keeps(Moves, over, w, steps, v);
  }

  /** A closed or ended half is not written to, and stays so under every call. */
  lemma {:induction false} EndedStaysEnded(sh: Shared, s: Send, cx: Task, p: Payload, fin: bool, failure: Option<nat>, next: nat)
    requires s.state in {Shutdown, ShutdownComplete}
    ensures PollWrite(sh, s, cx, p, fin, failure, next).native == None && PollWrite(sh, s, cx, p, fin, failure, next).send == s
    ensures forall finish: bool :: PollCloseWrite(sh, s, cx, failure, finish).send.state == s.state
  {
    hide TakeBuffer, Fill, Registered, LostWith;
  }

  lemma {:induction false} EndStep(w: World, step: Step)
    requires Phased(w) && EndTracked(w) && w.s.state in {Shutdown, ShutdownComplete} && Enabled(w, step)
    ensures Next(w, step).s.state in {Shutdown, ShutdownComplete} && Next(w, step).natives == w.natives
  {
    match step {
      case StepWrite(cx, p, fin, failure) => EndedStaysEnded(w.sh, w.s, cx, p, fin, failure, w.made);
      case StepFinish(cx, failure) => EndedStaysEnded(w.sh, w.s, cx, Slice([]), false, failure, w.made);
      case StepPollAbort(cx, failure) => EndedStaysEnded(w.sh, w.s, cx, Slice([]), false, failure, w.made);
      case _ =>
    }
    hide PollWrite, PollCloseWrite, LossError, Registered, Distinct;
  }

  /** Every buffer is idle or in flight, never both; idle buffers are blank; allocation never exceeds the peak in use. */
  lemma {:induction false} BuffersOwnedOnce(w: World)
    requires Reachable(w)
    ensures forall id: nat :: WritePool.Times(w.s.pool, id) + WritePool.Times(w.inflight, id) == One(id < w.made)
    ensures forall i :: 0 <= i < |w.s.pool| ==> w.s.pool[i].Blank()
    ensures |w.s.pool| + |w.inflight| == w.made <= w.peak
  {
    ReachableInv(w);
    forall id: nat ensures WritePool.Times(w.s.pool, id) + WritePool.Times(w.inflight, id) == One(id < w.made) {
      assert WritePool.OwnedOnce(PoolOf(w), id);
    }
  }

  /**
   A task parked in `poll_finish_write` or `poll_abort_write` waits for an end still to come, unless the
   stream completed without indicating the end of its send half: ShutdownComplete alone wakes nobody.
   */
  lemma {:induction false} FinisherParked(w: World, loss: Loss)
    requires Reachable(w)
    ensures Distinct(w.s.waiters)
    ensures w.sendEnded ==> w.s.waiters == []
    ensures w.s.waiters != [] ==> w.closed && (w.s.state == Shutdown || w.sh.life == Completed)
    ensures Next(w, EventShutdownComplete(loss)).s.waiters == w.s.waiters
    ensures Next(w, EventShutdownComplete(loss)).s.waiters != [] ==> !w.sendEnded
  {
    ReachableInv(w);
  }

  /**
   Who is parked on the start waits for an indication still to come, and a start polled again would park
   again; a write, a finish and an abort polled again would park exactly while the send half has not ended
   before the stream is accepted.
   */
  lemma {:induction false} StartersSleepOn(w: World, t: Task, refused: Option<Status>, p: Payload, fin: bool, failure: Option<nat>)
    requires Reachable(w) && t in w.sh.startWaiters
    ensures w.sh.life == Starting && Distinct(w.sh.startWaiters) && (w.s.state == Start <==> !w.sendEnded)
    ensures StartPath.PollStart(w.sh, Closed, w.s.state, t, refused) == StartPath.StartStep(w.sh, Closed, w.s.state, StartPath.Parked)
    ensures PollWrite(w.sh, w.s, t, p, fin, failure, w.made).result.Pending? <==> w.s.state == Start
    ensures forall finish: bool :: PollCloseWrite(w.sh, w.s, t, failure, finish).result.Pending? <==> w.s.state == Start
  {
    hide WritePool.Inv, SentTracked;
    ReachableInv(w);
    assert w.sh.(startWaiters := w.sh.startWaiters) == w.sh;
  }

  /** Starters are woken by the acceptance of the stream, by the stream limit, and by ShutdownComplete; once the half
      has ended early, by ShutdownComplete alone. */
  lemma {:induction false} WhatWakesStarters(w: World, t: Task, step: Step)
    requires Reachable(w) && t in w.sh.startWaiters && Enabled(w, step)
    ensures t in Next(w, step).sh.startWaiters
       <==> !(step.EventShutdownComplete? || step.EventAccepted?
              || (step.EventStartComplete? && (step.status == LimitReached || step.peerAccepted)))
    ensures w.sendEnded ==> (t in Next(w, step).sh.startWaiters <==> !step.EventShutdownComplete?)
  {
    hide WritePool.Inv, SentTracked;
    ReachableInv(w);
  }

  // ---- Where the guarantees end ----

  /** One more step of a witness run. */
  lemma {:induction false} Reach(w: World, step: Step) returns (v: World)
    requires Reachable(w) && Enabled(w, step)
    ensures Reachable(v) && v == Next(w, step)
  {
    var first: World, steps: seq<Step> :| Initial(first) && Runs.Leads(Moves, first, steps, w);
    v := Next(w, step);
    Runs.Then(Moves, first, steps, w, step, v);
  }

  /** A new bidirectional stream, opened here or by the peer. */
  function Fresh(localOpen: bool): World {
    World(localOpen, Shared(true, Opened, None, false, None, []), Send(if localOpen then Closed else StartComplete, [], None, []),
          [], 0, 0, [], [], 0, false, false, NOTHING, !localOpen, false, false)
  }

  lemma {:induction false} ReachFirst(localOpen: bool) returns (w: World)
    ensures Reachable(w) && w == Fresh(localOpen)
  {
    w := Fresh(localOpen);
    Runs.Stay<World, Step>(Moves, w);
  }

  /** A task left parked by ShutdownComplete: it was waiting, and the end of the send half came too late or never. */
  lemma {:induction false} StrandedFinisherExists() returns (w: World)
    ensures Reachable(w) && w.s.state == ShutdownComplete && w.sh.life == Completed && w.s.waiters == [7]
  {
    w := ReachFirst(false);
    w := Reach(w, StepFinish(7, None));
    w := Reach(w, EventShutdownComplete(NoLoss));
  }

  /** A write and a finish left parked on the start: MsQuic ended the send half before the stream was accepted. */
  lemma {:induction false} SleepingStartersExist(cx: Task, p: Payload) returns (w: World)
    ensures Reachable(w) && w.sh.startWaiters == [cx + 2, cx + 1, cx]
    ensures PollWrite(w.sh, w.s, cx + 1, p, false, None, w.made).result == Ready(Err(WriteFinished))
    ensures forall finish: bool :: PollCloseWrite(w.sh, w.s, cx, None, finish).result == Ready(Ok(()))
  {
    w := ReachStarting(cx + 2);
    w := Reach(w, StepWrite(cx + 1, p, false, None));
    assert w.sh == Shared(true, Starting, None, false, None, [cx + 2, cx + 1]) && w.s == Send(Start, [], None, []) && !w.shutdownSeen;
    w := Reach(w, StepFinish(cx, None));
    assert w.sh == Shared(true, Starting, None, false, None, [cx + 2, cx + 1, cx]) && w.s == Send(Start, [], None, []) && !w.shutdownSeen;
    w := Reach(w, EventSendShutdown(None));
  }

  /** Finishing and aborting answer differently exactly when only a cancellation on loss explains the end. */
  lemma {:induction false} FinishAndAbortDiffer(sh: Shared, s: Send, cx: Task, failure: Option<nat>)
    ensures PollCloseWrite(sh, s, cx, failure, true) != PollCloseWrite(sh, s, cx, failure, false)
       <==> s.state == ShutdownComplete && sh.connError == None && sh.cancelledOnLoss
  {
    if s.state == ShutdownComplete && sh.connError == None && sh.cancelledOnLoss {
      assert PollCloseWrite(sh, s, cx, failure, true).result == Ready(Err(WriteCancelledOnLoss));
    }
  }

  /** They do: the stream was cancelled on loss, finishing says so, and aborting reports success. */
  lemma {:induction false} CancelledAbortSucceeds(cx: Task) returns (w: World)
    ensures Reachable(w)
    ensures PollCloseWrite(w.sh, w.s, cx, None, true).result == Ready(Err(WriteCancelledOnLoss))
    ensures PollCloseWrite(w.sh, w.s, cx, None, false).result == Ready(Ok(()))
  {
    w := ReachFirst(false);
    w := Reach(w, EventCancelOnLoss);
    w := Reach(w, EventSendShutdown(None));
  }

  /** `poll_start` panics exactly on a start that MsQuic reported aborted on a stream that carries no
      connection error, or failed with a status that has no name. */
  lemma {:induction false} StartPanicsExactlyWhen(sh: Shared, recv: Half, send: Half, cx: Task, refused: Option<Status>)
    ensures StartPath.PollStart(sh, recv, send, cx, refused).result == StartPath.Panics
       <==> (sh.life == Started || sh.life == Completed) && sh.startStatus.Some?
            && ((sh.startStatus.value == Aborted && sh.connError == None) || sh.startStatus.value.Unnamed?)
  {
    match sh.startStatus
    case None =>
    case Some(_) =>
  }

  /** It can: the start of a stream fails in either way, and the stream completes, but not because of its connection. */
  lemma {:induction false} StartCanPanic(cx: Task, status: Status) returns (v: World, w: World)
    requires status == Aborted || status.Unnamed?
    ensures Reachable(v) && v.sh == Shared(true, Starting, None, false, None, [cx]) && v.s.state == Start
    ensures Runs.Leads(Moves, v, [EventStartComplete(status, false), EventShutdownComplete(NoLoss)], w) && Reachable(w)
    ensures StartPath.PollStart(w.sh, Closed, w.s.state, cx, None).result == StartPath.Panics
  {
    v := ReachStarting(cx);
    hide Reachable;
    var first, second := EventStartComplete(status, false), EventShutdownComplete(NoLoss);
    var m := Reach(v, first);
    w := Reach(m, second);
    StartPanicsExactlyWhen(w.sh, Closed, w.s.state, cx, None);
    hide Next, Enabled;
    Runs.One(Moves, v, first, m);
    Runs.Then(Moves, v, [first], m, second, w);
    assert [first] + [second] == [first, second];
  }

  lemma {:induction false} ReachStarting(cx: Task) returns (v: World)
    ensures Reachable(v)
    ensures v == Fresh(true).(sh := Shared(true, Starting, None, false, None, [cx]), s := Send(Start, [], None, []), begun := true)
  {
    v := ReachFirst(true);
    v := Reach(v, StepStart(cx, None));
    assert [] + [cx] == [cx];
  }
}
