/** Every interleaving of calls on a connection with MsQuic events, in any order at all. */
module ConnectionRuns {
  import opened Common
  import opened Sync
  import opened Connection
  import Runs
  import StreamTypes
  import SendPath
  import WritePool

  datatype World = World(
    c: Conn,
    streamsArrived: seq<nat>, streamsAccepted: seq<nat>,
    uniArrived: seq<nat>, uniAccepted: seq<nat>,
    dgramsArrived: seq<seq<byte>>, dgramsTaken: seq<seq<byte>>,
    log: seq<Event>,               // every event indicated, never coalesced
    eventsTaken: seq<Event>,
    inflight: seq<SendPath.WBuf>, made: nat, peak: nat,
    handedOver: seq<seq<byte>>,    // datagrams MsQuic took
    submitted: seq<seq<byte>>,     // datagrams whose send returned Ok
    panicked: bool)

  datatype Step =
    | StepStart(cx: Task, refused: Option<nat>)
    | StepAcceptStream(cx: Task)
    | StepAcceptUniStream(cx: Task)
    | StepReceiveDatagram(cx: Task)
    | StepPollSend(cx: Task, bytes: seq<byte>, refused: Option<nat>)
    | StepSend(bytes: seq<byte>, refused: Option<nat>)
    | StepOpenStream(cx: Task)
    | StepPollShutdown(cx: Task)
    | StepShutdown
    | StepPollEvent(cx: Task)
    | EventConnected
    | EventShutdownInitiated(error: ConnectionError)
    | EventShutdownComplete
    | EventPeerStream(stream: nat, unidirectional: bool)
    | EventDatagramState(sendEnabled: bool, maxSendLength: nat)
    | EventDatagram(bytes: seq<byte>)
    | EventDatagramReturned(i: nat)
    | EventNotice(id: nat)

  ghost predicate Initial(w: World) {
    && (w.c == New(Open) || w.c == New(Connected))
    && w == World(w.c, [], [], [], [], [], [], [], [], [], 0, 0, [], [], false)
  }

  /** The one promise of MsQuic relied on: a send context comes back only while it is out. */
  ghost predicate Enabled(w: World, step: Step) {
    step.EventDatagramReturned? ==> step.i < |w.inflight|
  }

  ghost function Sent(w: World, bytes: seq<byte>, step: SendStep): World {
    var v := w.(c := step.conn, panicked := w.panicked || step.outcome.Panics?);
    if step.native.None? then v
    else
      var n := step.native.value;
      v.(inflight := if n.ok then w.inflight + [n.buffer] else w.inflight,
         made := if w.c.writePool == [] then w.made + 1 else w.made,
         peak := Max(w.peak, |w.inflight| + 1),
         handedOver := if n.ok then w.handedOver + [Flat(n.buffer.buffers)] else w.handedOver,
         submitted := if step.outcome.Done? then w.submitted + [bytes] else w.submitted)
  }

  ghost function Called(w: World, step: Step): World
  {
    match step
    case StepStart(cx, refused) =>
      var (c, o) := PollStart(w.c, cx, refused);
      w.(c := c, panicked := w.panicked || o.Panics?)
    case StepAcceptStream(cx) =>
      var (c, o) := PollAcceptStream(w.c, cx);
      w.(c := c, streamsAccepted := w.streamsAccepted + Taken(o), panicked := w.panicked || o.Panics?)
    case StepAcceptUniStream(cx) =>
      var (c, o) := PollAcceptUniStream(w.c, cx);
      w.(c := c, uniAccepted := w.uniAccepted + Taken(o), panicked := w.panicked || o.Panics?)
    case StepReceiveDatagram(cx) =>
      var (c, o) := PollReceiveDatagram(w.c, cx);
      w.(c := c, dgramsTaken := w.dgramsTaken + Taken(o), panicked := w.panicked || o.Panics?)
    case StepPollSend(cx, bytes, refused) => Sent(w, bytes, PollSendDatagram(w.c, cx, bytes, refused, w.made))
    case StepSend(bytes, refused) => Sent(w, bytes, SendDatagram(w.c, bytes, refused, w.made))
    case StepOpenStream(cx) =>
      var (c, o) := Gate(w.c, cx);
      w.(c := c, panicked := w.panicked || o.Panics?)
    case StepPollShutdown(cx) =>
      var (c, o) := PollShutdown(w.c, cx);
      w.(c := c, panicked := w.panicked || o.Panics?)
    case StepShutdown =>
      var (c, o) := ShutdownNow(w.c);
      w.(c := c, panicked := w.panicked || o.Panics?)
    case StepPollEvent(cx) =>
      var (c, o) := PollEvent(w.c, cx);
      w.(c := c, eventsTaken := w.eventsTaken + Taken(o), panicked := w.panicked || o.Panics?)
    case _ => w
  }

  /** The effect of an event on the connection, and the tasks it wakes; a call wakes nobody. */
  ghost function Indicated(w: World, step: Step): (Conn, seq<Task>)
    requires Enabled(w, step)
  {
    match step
    case EventConnected => OnConnected(w.c)
    case EventShutdownInitiated(error) => OnShutdownInitiated(w.c, error)
    case EventShutdownComplete => OnShutdownComplete(w.c)
    case EventPeerStream(stream, uni) => OnPeerStreamStarted(w.c, stream, uni)
    case EventDatagramState(enabled, max) => OnDatagramStateChanged(w.c, enabled, max)
    case EventDatagram(bytes) => OnDatagramReceived(w.c, bytes)
    case EventDatagramReturned(i) => OnDatagramReturned(w.c, w.inflight[i])
    case EventNotice(id) => OnNotice(w.c, id)
    case _ => (w.c, [])
  }

  predicate IsEvent(step: Step) {
    step.EventConnected? || step.EventShutdownInitiated? || step.EventShutdownComplete? || step.EventPeerStream?
    || step.EventDatagramState? || step.EventDatagram? || step.EventDatagramReturned? || step.EventNotice?
  }

  ghost function Next(w: World, step: Step): World
    requires Enabled(w, step)
  {
    if !IsEvent(step) then Called(w, step)
    else
      var v := w.(c := Indicated(w, step).0);
      match step
      case EventPeerStream(stream, uni) =>
        if uni then v.(uniArrived := w.uniArrived + [stream]) else v.(streamsArrived := w.streamsArrived + [stream])
      case EventDatagramState(enabled, max) => v.(log := w.log + [DatagramStateChanged(enabled, max)])
      case EventDatagram(bytes) => v.(dgramsArrived := w.dgramsArrived + [bytes])
      case EventDatagramReturned(i) => v.(inflight := w.inflight[..i] + w.inflight[i + 1..])
      case EventNotice(id) => v.(log := w.log + [Notice(id)])
      case _ => v
  }

  // ---- Invariant ----

  /** Streams and datagrams are handed out once each, in order of arrival. */
  ghost predicate InOrder(w: World) {
    && w.streamsArrived == w.streamsAccepted + w.c.inboundStreams
    && w.uniArrived == w.uniAccepted + w.c.inboundUniStreams
    && w.dgramsArrived == w.dgramsTaken + w.c.recvBuffers
  }

  /** The events that are not datagram states, in order. */
  ghost function Notices(events: seq<Event>): seq<Event> {
    if events == [] then []
    else
      var n := |events| - 1;
      Notices(events[..n]) + if events[n].Notice? then [events[n]] else []
  }

  /** The datagram state a consumer of these events ends with. */
  ghost function FinalState(events: seq<Event>): (bool, nat) {
    if events == [] then (false, 0)
    else
      var n := |events| - 1;
      if events[n].DatagramStateChanged? then (events[n].sendEnabled, events[n].maxSendLength) else FinalState(events[..n])
  }

  ghost predicate AtMostOneState(events: seq<Event>) {
    forall i, j :: 0 <= i < j < |events| ==> !(events[i].DatagramStateChanged? && events[j].DatagramStateChanged?)
  }

  /** The coalescing queue stands for the whole log. */
  ghost predicate EventsRefine(w: World) {
    && AtMostOneState(w.c.events)
    && Notices(w.eventsTaken + w.c.events) == Notices(w.log)
    && FinalState(w.eventsTaken + w.c.events) == FinalState(w.log) == (w.c.dgramSendEnabled, w.c.dgramMaxSendLength)
  }

  ghost function PoolOf(w: World): WritePool.Pool {
    WritePool.Pool(w.c.writePool, w.inflight, w.made, w.peak)
  }

  ghost predicate Inv(w: World) {
    var holds :=
      && !w.panicked && Settled(w.c) && InOrder(w) && EventsRefine(w)
      && WritePool.Inv(PoolOf(w)) && w.handedOver == w.submitted;
    holds
  }

  // ---- Each conjunct is kept by each step ----

  lemma {:induction false} StaysSettled(w: World, step: Step)
    requires Enabled(w, step) && !w.panicked && Settled(w.c)
    ensures !Next(w, step).panicked && Settled(Next(w, step).c)
  {
    hide Gate, PollStart, PollAcceptStream, PollAcceptUniStream, PollReceiveDatagram, PollSendDatagram, SendDatagram,
         PollShutdown, ShutdownNow, PollEvent, Settled, OnConnected, OnShutdownInitiated, OnShutdownComplete,
         OnPeerStreamStarted, OnDatagramReceived, OnDatagramReturned,
         OnDatagramStateChanged, OnNotice;
  }

  lemma {:induction false} OrderKept(w: World, step: Step)
    requires Enabled(w, step) && InOrder(w)
    ensures InOrder(Next(w, step))
  {
    if IsEvent(step) {
      hide Called, ParksOnly, Waiting, Settled, OnConnected, OnShutdownInitiated, OnShutdownComplete,
           OnPeerStreamStarted, OnDatagramStateChanged, OnNotice, OnDatagramReturned;
    } else {
      hide Indicated;
      CallsKeepOrder(w, step);
    }
  }

  lemma {:induction false} CallsKeepOrder(w: World, step: Step)
    requires !IsEvent(step) && InOrder(w)
    ensures InOrder(Called(w, step))
  {
    hide ParksOnly, Waiting, Settled, Gate, PollStart, PollAcceptStream, PollAcceptUniStream, PollReceiveDatagram,
         PollSendDatagram, SendDatagram, PollShutdown, ShutdownNow, PollEvent;
  }

  lemma {:induction false} NoticesAppend(a: seq<Event>, b: seq<Event>)
    ensures Notices(a + b) == Notices(a) + Notices(b)
  {
    if b == [] {
      assert a + b == a;
    } else {
      var n := |b| - 1;
      NoticesAppend(a, b[..n]);
      assert (a + b)[..|a + b| - 1] == a + b[..n];
    }
  }

  /** The last datagram state decides. */
  lemma {:induction false} FinalStateAt(events: seq<Event>, k: nat)
    requires k < |events| && events[k].DatagramStateChanged?
    requires forall i :: k < i < |events| ==> events[i].Notice?
    ensures FinalState(events) == (events[k].sendEnabled, events[k].maxSendLength)
  {
    var n := |events| - 1;
    if k < n {
      FinalStateAt(events[..n], k);
    }
  }

  /** Coalescing overwrites the one waiting state where it stands, or appends. */
  lemma {:induction false} CoalescedShape(events: seq<Event>, e: Event) returns (k: nat)
    requires AtMostOneState(events)
    ensures k <= |events| && forall i :: 0 <= i < |events| && i != k ==> events[i].Notice?
    ensures k < |events| ==> events[k].DatagramStateChanged? && Coalesced(events, e) == events[k := e]
    ensures k == |events| ==> Coalesced(events, e) == events + [e]
  {
    hide Coalesced;
    k := 0;
    while k < |events| && events[k].Notice?
      invariant k <= |events| && forall i :: 0 <= i < k ==> events[i].Notice?
    {
      k := k + 1;
    }
    CoalescedAt(events, e, k);
  }

  lemma {:induction false} CoalescingRefines(taken: seq<Event>, events: seq<Event>, e: Event)
    requires AtMostOneState(events) && e.DatagramStateChanged?
    ensures AtMostOneState(Coalesced(events, e))
    ensures Notices(taken + Coalesced(events, e)) == Notices(taken + events)
    ensures FinalState(taken + Coalesced(events, e)) == (e.sendEnabled, e.maxSendLength)
  {
    var r := Coalesced(events, e);
    var k := CoalescedShape(events, e);
    FinalStateAt(taken + r, |taken| + k);
    NoticesAppend(taken, r);
    NoticesAppend(taken, events);
    if k < |events| {
      NoticesAround(events, k);
      NoticesAround(r, k);
      assert r[..k] == events[..k] && r[k + 1..] == events[k + 1..];
    } else {
      NoticesAppend(events, [e]);
      assert [e][..0] == [];
    }
  }

  lemma {:induction false} NoticesAround(events: seq<Event>, k: nat)
    requires k < |events| && events[k].DatagramStateChanged?
    ensures Notices(events) == Notices(events[..k]) + Notices(events[k + 1..])
  {
    assert events == events[..k] + ([events[k]] + events[k + 1..]);
    NoticesAppend(events[..k], [events[k]] + events[k + 1..]);
    NoticesAppend([events[k]], events[k + 1..]);
    assert [events[k]][..0] == [];
  }

  lemma {:induction false} EventsStayRefined(w: World, step: Step)
    requires Enabled(w, step) && EventsRefine(w)
    ensures EventsRefine(Next(w, step))
  {
    hide Next, Coalesced, Notices, FinalState, AtMostOneState;
    EventFieldsFrame(w, step);
    if step.EventDatagramState? {
      var e := DatagramStateChanged(step.sendEnabled, step.maxSendLength);
      CoalescingRefines(w.eventsTaken, w.c.events, e);
      AppendState(w.log, e);
    } else if step.EventNotice? {
      AppendNotice([], w.log, step.id);
      AppendNotice(w.eventsTaken, w.c.events, step.id);
      assert [] + (w.log + [Notice(step.id)]) == w.log + [Notice(step.id)] && [] + w.log == w.log;
    } else {
      EventsMoved(w, Next(w, step));
    }
  }

  lemma {:induction false} AppendState(log: seq<Event>, e: Event)
    requires e.DatagramStateChanged?
    ensures Notices(log + [e]) == Notices(log) && FinalState(log + [e]) == (e.sendEnabled, e.maxSendLength)
  {
    assert (log + [e])[..|log|] == log;
  }

  lemma {:induction false} AppendNotice(taken: seq<Event>, events: seq<Event>, id: nat)
    ensures Notices(taken + (events + [Notice(id)])) == Notices(taken + events) + [Notice(id)]
    ensures FinalState(taken + (events + [Notice(id)])) == FinalState(taken + events)
    ensures AtMostOneState(events) ==> AtMostOneState(events + [Notice(id)])
  {
    assert taken + (events + [Notice(id)]) == (taken + events) + [Notice(id)];
    assert ((taken + events) + [Notice(id)])[..|taken + events|] == taken + events;
  }

  lemma {:induction false} EventsMoved(w: World, v: World)
    requires (v.eventsTaken == w.eventsTaken && v.c.events == w.c.events)
          || (w.c.events != [] && v.eventsTaken == w.eventsTaken + [w.c.events[0]] && v.c.events == w.c.events[1..])
    requires AtMostOneState(w.c.events)
    ensures v.eventsTaken + v.c.events == w.eventsTaken + w.c.events && AtMostOneState(v.c.events)
  {
  }

  /** Which steps touch the event queue, its log, and the recorded datagram state. */
  lemma {:induction false} EventFieldsFrame(w: World, step: Step)
    requires Enabled(w, step)
    ensures var v := Next(w, step);
            && (step.EventDatagramState? ==>
                  v.c.events == Coalesced(w.c.events, DatagramStateChanged(step.sendEnabled, step.maxSendLength))
                  && v.log == w.log + [DatagramStateChanged(step.sendEnabled, step.maxSendLength)]
                  && (v.c.dgramSendEnabled, v.c.dgramMaxSendLength) == (step.sendEnabled, step.maxSendLength)
                  && v.eventsTaken == w.eventsTaken)
            && (!step.EventDatagramState? ==>
                  (v.c.dgramSendEnabled, v.c.dgramMaxSendLength) == (w.c.dgramSendEnabled, w.c.dgramMaxSendLength))
            && (step.EventNotice? ==>
                  v.c.events == w.c.events + [Notice(step.id)] && v.log == w.log + [Notice(step.id)] && v.eventsTaken == w.eventsTaken)
            && (!step.EventDatagramState? && !step.EventNotice? ==>
                  v.log == w.log
                  && ((v.eventsTaken == w.eventsTaken && v.c.events == w.c.events)
                      || (w.c.events != [] && v.eventsTaken == w.eventsTaken + [w.c.events[0]] && v.c.events == w.c.events[1..])))
  {
    if IsEvent(step) {
      hide Called, ParksOnly, Waiting, Settled, OnConnected, OnShutdownInitiated, OnShutdownComplete, OnPeerStreamStarted,
           OnDatagramReceived, OnDatagramReturned, Coalesced;
    } else {
      hide Indicated;
      CallsTakeFromTheFront(w, step);
    }
  }

  lemma {:induction false} CallsTakeFromTheFront(w: World, step: Step)
    requires !IsEvent(step)
    ensures var v := Called(w, step);
            && v.log == w.log
            && (v.c.dgramSendEnabled, v.c.dgramMaxSendLength) == (w.c.dgramSendEnabled, w.c.dgramMaxSendLength)
            && ((v.eventsTaken == w.eventsTaken && v.c.events == w.c.events)
                || (w.c.events != [] && v.eventsTaken == w.eventsTaken + [w.c.events[0]] && v.c.events == w.c.events[1..]))
  {
    hide Gate, PollStart, PollAcceptStream, PollAcceptUniStream, PollReceiveDatagram, PollSendDatagram, SendDatagram,
         PollShutdown, ShutdownNow, PollEvent, Settled, ParksOnly, Waiting;
  }

  // ---- Datagram buffers ----

  lemma {:induction false} PoolKept(w: World, step: Step)
    requires Enabled(w, step) && WritePool.Inv(PoolOf(w)) && w.handedOver == w.submitted
    ensures WritePool.Inv(PoolOf(Next(w, step))) && Next(w, step).handedOver == Next(w, step).submitted
  {
    hide ParksOnly, Waiting, Settled, WritePool.Inv, PollStart, PollAcceptStream, PollAcceptUniStream, PollReceiveDatagram,
         PollShutdown, ShutdownNow, PollEvent, SendPath.TakeBuffer, SendPath.Fill;
    match step {
      case StepPollSend(cx, bytes, refused) =>
        SendKeepsPool(w, bytes, refused, PollSendDatagram(w.c, cx, bytes, refused, w.made));
      case StepSend(bytes, refused) =>
        SendKeepsPool(w, bytes, refused, SendDatagram(w.c, bytes, refused, w.made));
      case EventDatagramReturned(i) =>
        WritePool.ReturnKeeps(PoolOf(w), i);
        assert PoolOf(Next(w, step)) == WritePool.Returned(PoolOf(w), i);
      case _ =>
        PoolFrame(w, step);
    }
  }

  lemma {:induction false} PoolFrame(w: World, step: Step)
    requires Enabled(w, step) && !step.StepPollSend? && !step.StepSend? && !step.EventDatagramReturned?
    ensures var v := Next(w, step);
            PoolOf(v) == PoolOf(w) && v.handedOver == w.handedOver && v.submitted == w.submitted
  {
    hide ParksOnly, Waiting;
    hide Gate, PollStart, PollAcceptStream, PollAcceptUniStream, PollReceiveDatagram, PollSendDatagram, SendDatagram,
         PollShutdown, ShutdownNow, PollEvent, Settled, OnConnected, OnShutdownInitiated, OnShutdownComplete,
         OnPeerStreamStarted, OnDatagramReceived, OnDatagramStateChanged, OnNotice;
  }

  lemma {:induction false} SendKeepsPool(w: World, bytes: seq<byte>, refused: Option<nat>, sent: SendStep)
    requires WritePool.Inv(PoolOf(w)) && w.handedOver == w.submitted
    requires sent == SendChecked(w.c, bytes, refused, w.made) || (sent.native.None? && sent.conn.writePool == w.c.writePool)
    ensures var v := Sent(w, bytes, sent); WritePool.Inv(PoolOf(v)) && v.handedOver == v.submitted
  {
    if sent.native.Some? {
      var p := SendPath.Chunks([bytes]);
      WritePool.HandsOverExactly(PoolOf(w), p);
      FlatSingle(bytes);
      WritePool.AttemptKeeps(PoolOf(w), p, refused.None?);
      assert PoolOf(Sent(w, bytes, sent)) == WritePool.Attempted(PoolOf(w), p, refused.None?);
    }
  }

  // ---- Runs ----

  lemma {:induction false} StepKeeps(w: World, step: Step)
    requires Inv(w) && Enabled(w, step)
    ensures Inv(Next(w, step))
  {
    hide Next, Enabled, Settled, InOrder, EventsRefine, WritePool.Inv;
    StaysSettled(w, step);
    OrderKept(w, step);
    EventsStayRefined(w, step);
    PoolKept(w, step);
  }

  ghost predicate Moves(w: World, step: Step, v: World) {
    Enabled(w, step) && v == Next(w, step)
  }

  ghost predicate Reachable(v: World) {
    exists w: World, steps: seq<Step> :: Initial(w) && Runs.Leads(Moves, w, steps, v)
  }

  lemma {:induction false} InitialHolds(w: World)
    requires Initial(w)
    ensures Inv(w)
  {
    hide WritePool.OwnedOnce;
    forall id: nat ensures WritePool.OwnedOnce(PoolOf(w), id) {
      NothingOwned(id);
    }
  }

  lemma {:induction false} ReachableHolds(v: World)
    requires Reachable(v)
    ensures Inv(v)
  {
    hide Inv, Initial, Next;
    var w: World, steps: seq<Step> :| Initial(w) && Runs.Leads(Moves, w, steps, v);
    InitialHolds(w);
    forall a: World, s: Step, b: World | Inv(a) && Moves(a, s, b) ensures Inv(b) {
      StepKeeps(a, s);
    }
    Runs.Keeps(Moves, Inv, w, steps, v);
  }

  lemma {:induction false} NothingOwned(id: nat)
    ensures WritePool.OwnedOnce(WritePool.Pool([], [], 0, 0), id)
  {
  }

  // ---- Main results, for every reachable state ----

  /** Whatever the order of calls and events, no `expect("error")` ever fails, because whoever is
      going down knows why. */
  lemma {:induction false} LossReasonExists(w: World)
    requires Reachable(w)
    ensures !w.panicked
    ensures GoingDown(w.c.state) ==> w.c.error.Some?
  {
    ReachableHolds(w);
  }

  /** Who waits, waits for something that is not there and may still come; each list names a task once. */
  lemma {:induction false} NobodyWaitsInVain(w: World)
    requires Reachable(w)
    ensures WaitersIdle(w.c) && OneEntryEach(w.c)
    ensures w.c.state == ShutdownComplete ==> Waiting(w.c) == multiset(w.c.inboundUniStreamWaiters)
  {
    ReachableHolds(w);
  }

  /** Polled again, a parked task would park again; the exceptions are an accept or receive caught by
      a local shutdown, which sleeps on although its answer is known, and a
      unidirectional accept on a connection going down, which sleeps on. */
  lemma {:induction false} SleepersWouldSleepOn(w: World, t: Task, refused: Option<nat>)
    requires Reachable(w)
    ensures t in w.c.startWaiters ==> PollStart(w.c, t, refused) == (w.c, Parked) && Gate(w.c, t) == (w.c, Parked)
    ensures t in w.c.inboundStreamWaiters ==>
              PollAcceptStream(w.c, t) == (w.c, if w.c.state == Connected then Parked else Failed(Lost(StreamTypes.ShutdownByLocal)))
    ensures t in w.c.recvWaiters ==>
              PollReceiveDatagram(w.c, t) == (w.c, if w.c.state == Connected then Parked else Failed(Lost(StreamTypes.ShutdownByLocal)))
    ensures t in w.c.inboundUniStreamWaiters ==>
              if w.c.state == Connected then PollAcceptUniStream(w.c, t) == (w.c, Parked)
              else w.c.error.Some? && PollAcceptUniStream(w.c, t) == (w.c, Failed(Lost(w.c.error.value)))
    ensures t in w.c.eventWaiters ==> PollEvent(w.c, t) == (w.c, Parked)
    ensures t in w.c.shutdownWaiters ==> PollShutdown(w.c, t).1.Parked?
  {
    ReachableHolds(w);
    hide Settled, PollStart, Gate, PollAcceptStream, PollReceiveDatagram, PollAcceptUniStream, PollEvent, PollShutdown;
    StartersSleepOn(w.c, t, refused);
    AcceptersSleepOn(w.c, t);
    OthersSleepOn(w.c, t);
  }

  lemma {:induction false} StartersSleepOn(c: Conn, t: Task, refused: Option<nat>)
    requires Settled(c)
    ensures t in c.startWaiters ==> PollStart(c, t, refused) == (c, Parked) && Gate(c, t) == (c, Parked)
  {
    hide ParksOnly, SameContents, Waiting, OneEntryEach;
    if t in c.startWaiters {
      assert Registered(c.startWaiters, t) == c.startWaiters && c.(startWaiters := c.startWaiters) == c;
    }
  }

  lemma {:induction false} AcceptersSleepOn(c: Conn, t: Task)
    requires Settled(c)
    ensures t in c.inboundStreamWaiters ==>
              PollAcceptStream(c, t) == (c, if c.state == Connected then Parked else Failed(Lost(StreamTypes.ShutdownByLocal)))
    ensures t in c.inboundUniStreamWaiters ==>
              if c.state == Connected then PollAcceptUniStream(c, t) == (c, Parked)
              else c.error.Some? && PollAcceptUniStream(c, t) == (c, Failed(Lost(c.error.value)))
  {
    hide ParksOnly, SameContents, Waiting, OneEntryEach;
    assert c.(inboundStreamWaiters := c.inboundStreamWaiters) == c && c.(inboundUniStreamWaiters := c.inboundUniStreamWaiters) == c;
  }

  lemma {:induction false} OthersSleepOn(c: Conn, t: Task)
    requires Settled(c)
    ensures t in c.recvWaiters ==>
              PollReceiveDatagram(c, t) == (c, if c.state == Connected then Parked else Failed(Lost(StreamTypes.ShutdownByLocal)))
    ensures t in c.eventWaiters ==> PollEvent(c, t) == (c, Parked)
    ensures t in c.shutdownWaiters ==> PollShutdown(c, t).1.Parked?
  {
    hide ParksOnly, SameContents, Waiting, OneEntryEach;
    assert c.(recvWaiters := c.recvWaiters) == c && c.(eventWaiters := c.eventWaiters) == c;
  }

  /** An event wakes exactly the tasks it takes off the lists: no waker is lost, none is invented. */
  lemma {:induction false} EventsWakeWhomTheyUnpark(w: World, step: Step)
    requires Enabled(w, step) && IsEvent(step)
    ensures Waiting(w.c) == Waiting(Next(w, step).c) + multiset(Indicated(w, step).1)
  {
    hide Waiting, Settled, SameContents, OnConnected, OnShutdownInitiated, OnShutdownComplete, OnPeerStreamStarted,
         OnDatagramReceived, OnDatagramStateChanged, OnNotice;
    match step {
      case EventConnected => NewsWakesWhomItUnparks(w.c, true, 0, 0);
      case EventShutdownInitiated(error) => LossWakesWhomItUnparks(w.c, error);
      case EventShutdownComplete => LossWakesWhomItUnparks(w.c, StreamTypes.ShutdownByLocal);
      case EventPeerStream(stream, uni) => ArrivalWakesWhomItUnparks(w.c, stream, uni, []);
      case EventDatagram(bytes) => ArrivalWakesWhomItUnparks(w.c, 0, true, bytes);
      case EventDatagramState(enabled, max) => NewsWakesWhomItUnparks(w.c, enabled, max, 0);
      case EventNotice(id) => NewsWakesWhomItUnparks(w.c, true, 0, id);
      case EventDatagramReturned(i) => ReturnUnparksNobody(w.c, w.inflight[i]);
    }
  }

  lemma {:induction false} ReturnUnparksNobody(c: Conn, b: SendPath.WBuf)
    ensures Waiting(OnDatagramReturned(c, b).0) == Waiting(c) && OnDatagramReturned(c, b).1 == []
  {
  }

  /** A call takes nobody off a list, and puts at most its own task on one. */
  lemma {:induction false} CallsParkOnlyTheCaller(w: World, step: Step)
    requires Enabled(w, step) && !IsEvent(step)
    ensures if step.StepSend? || step.StepShutdown? then Waiting(Next(w, step).c) == Waiting(w.c)
            else ParksOnly(w.c, Next(w, step).c, step.cx)
  {
    hide Gate, PollStart, PollAcceptStream, PollAcceptUniStream, PollReceiveDatagram, PollSendDatagram, SendDatagram,
         PollShutdown, ShutdownNow, PollEvent, Settled, Waiting, ParksOnly, OnConnected, OnShutdownInitiated, OnShutdownComplete,
         OnPeerStreamStarted, OnDatagramReceived, OnDatagramReturned, OnDatagramStateChanged, OnNotice;
  }

  /** Each stream and each datagram comes out once, in order of arrival. */
  lemma {:induction false} DeliveredInOrder(w: World)
    requires Reachable(w)
    ensures w.streamsAccepted <= w.streamsArrived && w.streamsArrived[|w.streamsAccepted|..] == w.c.inboundStreams
    ensures w.uniAccepted <= w.uniArrived && w.uniArrived[|w.uniAccepted|..] == w.c.inboundUniStreams
    ensures w.dgramsTaken <= w.dgramsArrived && w.dgramsArrived[|w.dgramsTaken|..] == w.c.recvBuffers
  {
    ReachableHolds(w);
  }

  /** However the queue coalesced, it holds at most one datagram state, the one sends are checked against;
      a consumer that drains it has seen every other event in order and ends with the same state as
      one that read the full log. */
  lemma {:induction false} CoalescingIsInvisible(w: World, i: nat)
    requires Reachable(w)
    ensures AtMostOneState(w.c.events)
    ensures i < |w.c.events| && w.c.events[i].DatagramStateChanged? ==>
              w.c.events[i] == DatagramStateChanged(w.c.dgramSendEnabled, w.c.dgramMaxSendLength)
    ensures w.c.events == [] ==>
              && FinalState(w.eventsTaken) == FinalState(w.log) == (w.c.dgramSendEnabled, w.c.dgramMaxSendLength)
              && Notices(w.eventsTaken) == Notices(w.log)
  {
    ReachableHolds(w);
    if i < |w.c.events| && w.c.events[i].DatagramStateChanged? {
      FinalStateAt(w.eventsTaken + w.c.events, |w.eventsTaken| + i);
    }
    if w.c.events == [] {
      assert w.eventsTaken + w.c.events == w.eventsTaken;
    }
  }

  /** MsQuic is handed exactly the datagrams whose send returned Ok; buffers are owned once and bounded. */
  lemma {:induction false} DatagramsAreExact(w: World)
    requires Reachable(w)
    ensures w.handedOver == w.submitted
    ensures WritePool.Inv(PoolOf(w))
  {
    ReachableHolds(w);
  }

  /** A datagram reaches MsQuic only on a connected connection, within the limit last indicated. */
  lemma {:induction false} SendsRespectTheLimit(w: World, step: Step)
    requires Reachable(w) && Enabled(w, step) && Next(w, step).handedOver != w.handedOver
    ensures step.StepPollSend? || step.StepSend?
    ensures w.c.state == Connected && FinalState(w.log).0 && |step.bytes| <= FinalState(w.log).1
    ensures Next(w, step).handedOver == w.handedOver + [step.bytes]
  {
    hide Next, ParksOnly, Waiting, SameContents, Settled, WritePool.Inv, Enabled, Notices, AtMostOneState;
    ReachableHolds(w);
    HandedOverOnlyWhenAllowed(w, step);
    StepKeeps(w, step);
  }

  lemma {:induction false} HandedOverOnlyWhenAllowed(w: World, step: Step)
    requires Enabled(w, step) && Next(w, step).handedOver != w.handedOver
    ensures step.StepPollSend? || step.StepSend?
    ensures w.c.state == Connected && w.c.dgramSendEnabled && |step.bytes| <= w.c.dgramMaxSendLength
    ensures Next(w, step).submitted == w.submitted + [step.bytes]
  {
    hide ParksOnly, Waiting, SameContents, Settled, Gate, SendPath.TakeBuffer, SendPath.Fill;
  }

  /** The reason is set by whoever shuts down, the last one indicated counts, and the completion of a shutdown never
      replaces one. */
  lemma {:induction false} WhoSetsTheReason(w: World, step: Step)
    requires Enabled(w, step)
    ensures Next(w, step).c.error ==
              if step.EventShutdownInitiated? then Some(step.error)
              else if step.EventShutdownComplete? && w.c.error == None then Some(StreamTypes.ShutdownByLocal)
              else if (step.StepPollShutdown? || step.StepShutdown?) && w.c.state == Connected then Some(StreamTypes.ShutdownByLocal)
              else w.c.error
  {
    if IsEvent(step) {
      hide Called, Coalesced, Settled, SameContents;
    } else {
      hide Indicated;
      CallsKeepTheReason(w, step);
    }
  }

  /** What moves the state of the connection: its start, a shutdown from here, and three indications. */
  lemma {:induction false} WhatMovesTheState(w: World, step: Step)
    requires Enabled(w, step)
    ensures Next(w, step).c.state ==
              if step.EventConnected? then Connected
              else if step.EventShutdownInitiated? then Shutdown
              else if step.EventShutdownComplete? then ShutdownComplete
              else if step.StepStart? && w.c.state == Open && step.refused.None? then Connecting
              else if (step.StepPollShutdown? || step.StepShutdown?) && w.c.state == Connected then Shutdown
              else w.c.state
  {
    if IsEvent(step) {
      hide Called, Coalesced, Settled, SameContents;
    } else {
      hide Indicated;
      CallsKeepTheReason(w, step);
      hide Called;
    }
  }

  /** No call but a shutdown of a connected connection changes the reason, and no other but a start the state. */
  lemma {:induction false} CallsKeepTheReason(w: World, step: Step)
    requires !IsEvent(step)
    ensures var c := Called(w, step).c;
            if (step.StepPollShutdown? || step.StepShutdown?) && w.c.state == Connected
            then c.error == Some(StreamTypes.ShutdownByLocal) && c.state == Shutdown
            else c.error == w.c.error
                 && c.state == if step.StepStart? && w.c.state == Open && step.refused.None? then Connecting else w.c.state
  {
    hide Registered, SendChecked, Settled, ParksOnly, Waiting;
  }

  /** On the way down every poll but `poll_event` reports that reason, and once down that one too;
      waiting for the shutdown goes on until then, and a local one counts as done. */
  lemma {:induction false} EveryoneLearnsTheReason(w: World, cx: Task, refused: Option<nat>, bytes: seq<byte>)
    requires Reachable(w) && GoingDown(w.c.state)
    ensures w.c.error.Some?
    ensures var lost := Lost(w.c.error.value);
            && PollStart(w.c, cx, refused).1 == Failed(lost) && PollAcceptStream(w.c, cx).1 == Failed(lost)
            && PollAcceptUniStream(w.c, cx).1 == Failed(lost) && PollReceiveDatagram(w.c, cx).1 == Failed(lost)
            && PollSendDatagram(w.c, cx, bytes, refused, w.made).outcome == Failed(lost)
            && SendDatagram(w.c, bytes, refused, w.made).outcome == Failed(lost)
            && (PollEvent(w.c, cx).1 == Failed(lost) <==> w.c.state == ShutdownComplete)
            && PollShutdown(w.c, cx).1 == if w.c.state == Shutdown then Parked
                                          else if lost.error == StreamTypes.ShutdownByLocal then Done(()) else Failed(lost)
  {
    LossReasonExists(w);
    hide Reachable, PollStart, PollAcceptStream, PollAcceptUniStream, PollReceiveDatagram, PollSendDatagram, SendDatagram,
         PollEvent, PollShutdown, Settled, SameContents, ParksOnly, Waiting;
    CallersLearn(w.c, cx, refused, bytes, w.made);
    WaitersLearn(w.c, cx);
  }

  lemma {:induction false} CallersLearn(c: Conn, cx: Task, refused: Option<nat>, bytes: seq<byte>, next: nat)
    requires GoingDown(c.state) && c.error.Some?
    ensures var lost := Lost(c.error.value);
            && PollStart(c, cx, refused).1 == Failed(lost)
            && PollSendDatagram(c, cx, bytes, refused, next).outcome == Failed(lost)
            && SendDatagram(c, bytes, refused, next).outcome == Failed(lost)
  {
    hide Settled, SameContents, ParksOnly, Waiting, Registered, SendChecked;
  }

  lemma {:induction false} WaitersLearn(c: Conn, cx: Task)
    requires GoingDown(c.state) && c.error.Some?
    ensures var lost := Lost(c.error.value);
            && PollAcceptStream(c, cx).1 == Failed(lost) && PollAcceptUniStream(c, cx).1 == Failed(lost)
            && PollReceiveDatagram(c, cx).1 == Failed(lost)
            && (PollEvent(c, cx).1 == Failed(lost) <==> c.state == ShutdownComplete)
            && PollShutdown(c, cx).1 == if c.state == Shutdown then Parked
                                        else if lost.error == StreamTypes.ShutdownByLocal then Done(()) else Failed(lost)
  {
    hide Settled, SameContents, ParksOnly, Waiting, Registered;
  }

  // ---- Where the guarantees end ----

  /** A shutdown in progress is undone by one step only: a Connected indication that comes after it. */
  lemma {:induction false} OnlyConnectedUndoesShutdown(w: World, step: Step)
    requires Enabled(w, step) && w.c.state == Shutdown
    ensures GoingDown(Next(w, step).c.state) <==> step != EventConnected
    ensures step == EventConnected ==> Next(w, step).c.state == Connected && Next(w, step).c.error == w.c.error
  {
    hide Settled, ParksOnly, SameContents, Waiting;
    hide Registered, Coalesced, SendChecked;
  }

  /** One more step of a witness run. */
  lemma {:induction false} Reach(w: World, step: Step) returns (v: World)
    requires Reachable(w) && Enabled(w, step)
    ensures Reachable(v) && v == Next(w, step)
  {
    hide Next;
    var first: World, steps: seq<Step> :| Initial(first) && Runs.Leads(Moves, first, steps, w);
    v := Next(w, step);
    Runs.Then(Moves, first, steps, w, step, v);
  }

  lemma {:induction false} ReachCall(w: World, step: Step) returns (v: World)
    requires Reachable(w) && !IsEvent(step)
    ensures Reachable(v) && v.c == Called(w, step).c
  {
    hide Called;
    v := Reach(w, step);
  }

  lemma {:induction false} ReachEvent(w: World, step: Step) returns (v: World)
    requires Reachable(w) && IsEvent(step) && !step.EventDatagramReturned?
    ensures Reachable(v) && v.c == Indicated(w, step).0
  {
    hide Indicated;
    v := Reach(w, step);
  }

  /** A connection a listener has just handed over. */
  lemma {:induction false} ReachAccepted() returns (w: World)
    ensures Reachable(w) && w.c == New(Connected)
  {
    hide Next;
    w := World(New(Connected), [], [], [], [], [], [], [], [], [], 0, 0, [], [], false);
    Runs.Stay<World, Step>(Moves, w);
  }

  /** This does happen: an accepted connection is usable before its Connected event, and a shutdown made
      in between is forgotten, so that an accept parks again. */
  lemma {:induction false} ForgottenShutdown(cx: Task) returns (w: World)
    ensures Reachable(w) && w.c.state == Connected && w.c.error == Some(StreamTypes.ShutdownByLocal)
    ensures PollAcceptStream(w.c, cx).1 == Parked
  {
    hide Settled, ParksOnly, SameContents, Waiting, Next;
    w := ReachAccepted();
    w := ReachCall(w, StepShutdown);
    w := ReachEvent(w, EventConnected);
  }

  /** A stream of each kind, a datagram and an event are queued. */
  lemma {:induction false} ReachQueued() returns (w: World)
    ensures Reachable(w)
    ensures w.c == New(Connected).(inboundStreams := [1], inboundUniStreams := [2], recvBuffers := [[]], events := [Notice(3)])
  {
    hide Settled, ParksOnly, SameContents, Waiting, Next;
    w := ReachAccepted();
    w := ReachEvent(w, EventPeerStream(1, false));
    assert w.c == New(Connected).(inboundStreams := [1]);
    w := ReachEvent(w, EventPeerStream(2, true));
    assert w.c == New(Connected).(inboundStreams := [1], inboundUniStreams := [2]);
    w := ReachEvent(w, EventDatagram([]));
    assert w.c == New(Connected).(inboundStreams := [1], inboundUniStreams := [2], recvBuffers := [[]]);
    w := ReachEvent(w, EventNotice(3));
  }

  /** Shut down locally with all that queued: only the event can still be taken, and once the shutdown is
      complete not even that. */
  lemma {:induction false} RefusedThoughQueued(cx: Task) returns (w: World, v: World)
    ensures Reachable(w) && w.c.inboundStreams == [1] && w.c.inboundUniStreams == [2] && w.c.recvBuffers == [[]] && w.c.events == [Notice(3)]
    ensures PollAcceptStream(w.c, cx).1 == Failed(Lost(StreamTypes.ShutdownByLocal))
    ensures PollAcceptUniStream(w.c, cx).1 == Failed(Lost(StreamTypes.ShutdownByLocal))
    ensures PollReceiveDatagram(w.c, cx).1 == Failed(Lost(StreamTypes.ShutdownByLocal))
    ensures PollEvent(w.c, cx).1 == Done(Notice(3))
    ensures Reachable(v) && v.c.events == [Notice(3)] && PollEvent(v.c, cx).1 == Failed(Lost(StreamTypes.ShutdownByLocal))
  {
    hide Settled, ParksOnly, SameContents, Waiting, Next;
    w := ReachQueued();
    w := ReachCall(w, StepShutdown);
    v := ReachEvent(w, EventShutdownComplete);
  }

  /** Two tasks asleep although a local shutdown has settled what they will be told. */
  lemma {:induction false} AsleepOnAnAnswer(a: Task, b: Task) returns (w: World)
    ensures Reachable(w) && w.c.inboundStreamWaiters == [a] && w.c.recvWaiters == [b]
    ensures PollAcceptStream(w.c, a).1 == Failed(Lost(StreamTypes.ShutdownByLocal))
    ensures PollReceiveDatagram(w.c, b).1 == Failed(Lost(StreamTypes.ShutdownByLocal))
  {
    hide Settled, ParksOnly, SameContents, Waiting, Next;
    w := ReachAccepted();
    w := ReachCall(w, StepAcceptStream(a));
    assert w.c == New(Connected).(inboundStreamWaiters := [a]);
    w := ReachCall(w, StepReceiveDatagram(b));
    assert w.c == New(Connected).(inboundStreamWaiters := [a], recvWaiters := [b]);
    w := ReachCall(w, StepShutdown);
  }

  /** They sleep until something arrives on their own queue, or a shutdown or its completion is indicated. */
  lemma {:induction false} WhatWakesThem(w: World, step: Step)
    requires Enabled(w, step)
    ensures w.c.inboundStreamWaiters <= Next(w, step).c.inboundStreamWaiters
       <==> (w.c.inboundStreamWaiters == []
             || !(step.EventShutdownInitiated? || step.EventShutdownComplete? || (step.EventPeerStream? && !step.unidirectional)))
    ensures w.c.recvWaiters <= Next(w, step).c.recvWaiters
       <==> (w.c.recvWaiters == [] || !(step.EventShutdownInitiated? || step.EventShutdownComplete? || step.EventDatagram?))
  {
    hide Called, Indicated;
    if IsEvent(step) {
      EventsThatWakeThem(w, step);
    } else {
      CallsLeaveThem(w, step);
    }
  }

  lemma {:induction false} EventsThatWakeThem(w: World, step: Step)
    requires Enabled(w, step) && IsEvent(step)
    ensures var c := Indicated(w, step).0;
            && c.inboundStreamWaiters == (if step.EventShutdownInitiated? || step.EventShutdownComplete?
                                             || (step.EventPeerStream? && !step.unidirectional)
                                          then [] else w.c.inboundStreamWaiters)
            && c.recvWaiters == (if step.EventShutdownInitiated? || step.EventShutdownComplete? || step.EventDatagram?
                                 then [] else w.c.recvWaiters)
  {
    hide Coalesced, Settled, SameContents, Waiting;
  }

  lemma {:induction false} CallsLeaveThem(w: World, step: Step)
    requires !IsEvent(step)
    ensures w.c.inboundStreamWaiters <= Called(w, step).c.inboundStreamWaiters && w.c.recvWaiters <= Called(w, step).c.recvWaiters
  {
    if step.StepSend? || step.StepShutdown? {
      hide Settled, SameContents, Waiting, SendChecked;
    } else {
      hide Gate, PollStart, PollAcceptStream, PollAcceptUniStream, PollReceiveDatagram, PollSendDatagram, SendDatagram,
           PollShutdown, ShutdownNow, PollEvent, Settled, SameContents, Waiting, SameOrParked;
      ParkingOnlyAdds(w.c.inboundStreamWaiters, Called(w, step).c.inboundStreamWaiters, step.cx);
      ParkingOnlyAdds(w.c.recvWaiters, Called(w, step).c.recvWaiters, step.cx);
    }
  }

  lemma {:induction false} ParkingOnlyAdds(before: seq<Task>, after: seq<Task>, cx: Task)
    requires SameOrParked(before, after, cx)
    ensures before <= after
  {
  }

  /** Nothing but the arrival of a unidirectional stream wakes a task waiting for one. */
  lemma {:induction false} UniWaitersStay(w: World, step: Step)
    requires Enabled(w, step)
    ensures w.c.inboundUniStreamWaiters <= Next(w, step).c.inboundUniStreamWaiters
        <==> (step.EventPeerStream? && step.unidirectional ==> w.c.inboundUniStreamWaiters == [])
  {
    hide Coalesced, Gate, PollStart, PollAcceptStream, PollAcceptUniStream, PollReceiveDatagram, PollSendDatagram, SendDatagram,
         PollShutdown, ShutdownNow, PollEvent, Settled, OnConnected, OnShutdownInitiated, OnShutdownComplete,
         OnPeerStreamStarted, OnDatagramReceived, OnDatagramReturned, OnDatagramStateChanged, OnNotice;
  }

  /** So the end of the connection leaves someone parked exactly when such a task was waiting. */
  lemma {:induction false} WhoIsLeftAtTheEnd(w: World)
    ensures Waiting(Next(w, EventShutdownComplete).c) == multiset(w.c.inboundUniStreamWaiters)
    ensures Waiting(Next(w, EventShutdownComplete).c) == multiset{} <==> w.c.inboundUniStreamWaiters == []
  {
    hide Settled, ParksOnly, SameContents;
    if w.c.inboundUniStreamWaiters != [] {
      assert w.c.inboundUniStreamWaiters[0] in multiset(w.c.inboundUniStreamWaiters);
    }
  }

  lemma {:induction false} StrandedUniAccept(cx: Task) returns (w: World)
    ensures Reachable(w) && w.c.state == ShutdownComplete && w.c.inboundUniStreamWaiters == [cx]
  {
    hide Settled, ParksOnly, SameContents, Waiting, Next;
    w := ReachAccepted();
    w := ReachCall(w, StepAcceptUniStream(cx));
    w := ReachEvent(w, EventShutdownComplete);
  }
}
