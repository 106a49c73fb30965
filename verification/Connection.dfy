/** A connection's mutex-guarded state on values: every poll, and every MsQuic event. */
module Connection {
  import opened Common
  import opened Sync
  import StreamTypes
  import SendPath

  type ConnectionError = StreamTypes.ConnectionError

  datatype State = Open | Connecting | Connected | Shutdown | ShutdownComplete

  /** Still able to receive what MsQuic indicates. */
  predicate Up(s: State) { s == Connected || s == Shutdown }

  /** On the way down; only the reason is left to report. */
  predicate GoingDown(s: State) { s == Shutdown || s == ShutdownComplete }

  /** What `poll_event` reports; `Notice` stands for the address and path indications. */
  datatype Event = DatagramStateChanged(sendEnabled: bool, maxSendLength: nat) | Notice(id: nat)

  datatype Conn = Conn(
    state: State,
    error: Option<ConnectionError>,
    startWaiters: seq<Task>,
    inboundStreamWaiters: seq<Task>,
    inboundUniStreamWaiters: seq<Task>,
    inboundStreams: seq<nat>,
    inboundUniStreams: seq<nat>,
    recvBuffers: seq<seq<byte>>,
    recvWaiters: seq<Task>,
    writePool: seq<SendPath.WBuf>,
    dgramSendEnabled: bool,
    dgramMaxSendLength: nat,
    shutdownWaiters: seq<Task>,
    events: seq<Event>,
    eventWaiters: seq<Task>)

  /** `Open` for a local connection, `Connected` for one a listener hands over. */
  function New(state: State): Conn {
    Conn(state, None, [], [], [], [], [], [], [], [], false, 0, [], [], [])
  }

  datatype Failure = NotStarted | Lost(error: ConnectionError) | Denied | TooBig | Refused(status: nat)

  /** `Panics` is a failing `expect("error")`. */
  datatype Outcome<+T> = Parked | Done(value: T) | Failed(failure: Failure) | Panics

  function LostBy<T>(c: Conn): Outcome<T> {
    if c.error.Some? then Failed(Lost(c.error.value)) else Panics
  }

  function ParkedOnStart(c: Conn, cx: Task): (d: Conn)
    ensures Settled(c) && c.state == Connecting ==> Settled(d)
    ensures d == c.(startWaiters := d.startWaiters) && cx in d.startWaiters
    ensures SameContents(c, d)
    ensures ParksOnly(c, d, cx)
  {
    c.(startWaiters := Registered(c.startWaiters, cx))
  }

  lemma {:induction false} Unmoved(c: Conn, cx: Task)
    ensures SameContents(c, c) && ParksOnly(c, c, cx)
  {
  }

  /** The state check shared by accepting, receiving, sending and opening; Done means go on. */
  function Gate(c: Conn, cx: Task): (r: (Conn, Outcome<()>))
    ensures Settled(c) ==> Settled(r.0) && !r.1.Panics?
    ensures SameContents(c, r.0)
    ensures ParksOnly(c, r.0, cx)
    ensures r.1.Done? ==> r.0 == c
    ensures r.1.Parked? <==> c.state == Connecting
    ensures r.1.Parked? ==> cx in r.0.startWaiters
    ensures r.1 == Failed(NotStarted) <==> c.state == Open
    ensures r.1.Done? <==> c.state == Connected
  {
    match c.state
    case Open => (c, Failed(NotStarted))
    case Connecting => (ParkedOnStart(c, cx), Parked)
    case Connected => (c, Done(()))
    case Shutdown => (c, LostBy(c))
    case ShutdownComplete => (c, LostBy(c))
  }

  /** A refused gate, seen as the outcome of a poll that would return a T. */
  function Halt<T>(o: Outcome<()>): Outcome<T>
    requires !o.Done?
  {
    match o
    case Parked => Parked
    case Failed(f) => Failed(f)
    case Panics => Panics
  }

  // ---- What every operation keeps ----

  /** Waiting means there is nothing to take and something can still happen. */
  ghost predicate WaitersIdle(c: Conn) {
    var holds :=
      && (c.startWaiters != [] ==> c.state == Connecting)
      && (c.inboundStreamWaiters != [] ==> c.inboundStreams == [] && Up(c.state))
      && (c.recvWaiters != [] ==> c.recvBuffers == [] && Up(c.state))
      && (c.eventWaiters != [] ==> c.events == [] && Up(c.state))
      && (c.shutdownWaiters != [] ==> Up(c.state))
      && (c.inboundStreamWaiters != [] && c.state == Shutdown ==> c.error == Some(StreamTypes.ShutdownByLocal))
      && (c.recvWaiters != [] && c.state == Shutdown ==> c.error == Some(StreamTypes.ShutdownByLocal))
      && (c.inboundUniStreamWaiters != [] ==> c.inboundUniStreams == [] && (c.state == Connected || GoingDown(c.state)));
    holds
  }

  ghost predicate OneEntryEach(c: Conn) {
    var holds :=
      && Distinct(c.startWaiters) && Distinct(c.inboundStreamWaiters) && Distinct(c.inboundUniStreamWaiters)
      && Distinct(c.recvWaiters) && Distinct(c.shutdownWaiters) && Distinct(c.eventWaiters);
    holds
  }

  /** A connection that is shutting down, or is down, knows why. */
  ghost predicate LossRecorded(c: Conn) {
    GoingDown(c.state) ==> c.error.Some?
  }

  ghost predicate Settled(c: Conn) {
    var holds :=
      WaitersIdle(c) && OneEntryEach(c) && LossRecorded(c);
    holds
  }

  /** Everyone parked, with the number of lists each task is on. */
  ghost function Waiting(c: Conn): multiset<Task> {
    multiset(c.startWaiters) + multiset(c.inboundStreamWaiters) + multiset(c.inboundUniStreamWaiters)
    + multiset(c.recvWaiters) + multiset(c.shutdownWaiters) + multiset(c.eventWaiters)
  }

  /** A list is as it was, or `cx` has parked on it. */
  ghost predicate SameOrParked(before: seq<Task>, after: seq<Task>, cx: Task) {
    after == before || after == Registered(before, cx)
  }

  /** Nobody is taken off a list, and `cx` is put on one at most. */
  ghost predicate ParksOnly(c: Conn, d: Conn, cx: Task) {
    var holds :=
      && SameOrParked(c.startWaiters, d.startWaiters, cx) && SameOrParked(c.inboundStreamWaiters, d.inboundStreamWaiters, cx)
      && SameOrParked(c.inboundUniStreamWaiters, d.inboundUniStreamWaiters, cx) && SameOrParked(c.recvWaiters, d.recvWaiters, cx)
      && SameOrParked(c.shutdownWaiters, d.shutdownWaiters, cx) && SameOrParked(c.eventWaiters, d.eventWaiters, cx)
      && One(d.startWaiters != c.startWaiters) + One(d.inboundStreamWaiters != c.inboundStreamWaiters)
         + One(d.inboundUniStreamWaiters != c.inboundUniStreamWaiters) + One(d.recvWaiters != c.recvWaiters)
         + One(d.shutdownWaiters != c.shutdownWaiters) + One(d.eventWaiters != c.eventWaiters) <= 1;
    holds
  }

  /** Nothing but the state, the error and waiters other than the unidirectional ones may differ. */
  ghost predicate SameContents(c: Conn, d: Conn) {
    var holds :=
      && d.inboundStreams == c.inboundStreams && d.inboundUniStreams == c.inboundUniStreams
      && d.recvBuffers == c.recvBuffers && d.writePool == c.writePool && d.events == c.events
      && d.dgramSendEnabled == c.dgramSendEnabled && d.dgramMaxSendLength == c.dgramMaxSendLength
      && d.inboundUniStreamWaiters == c.inboundUniStreamWaiters;
    holds
  }

  /** What a poll handed over, as a list. */
  function Taken<T>(o: Outcome<T>): seq<T> {
    if o.Done? then [o.value] else []
  }

  // ---- Polls ----

  /** `poll_start`; `refused` is the status of the native start, if it fails. */
  function PollStart(c: Conn, cx: Task, refused: Option<nat>): (r: (Conn, Outcome<()>))
    ensures Settled(c) ==> Settled(r.0) && !r.1.Panics?
    ensures SameContents(c, r.0)
    ensures ParksOnly(c, r.0, cx)
    ensures r.1.Parked? <==> c.state == Connecting || (c.state == Open && refused.None?)
    ensures r.1.Parked? ==> r.0.state == Connecting && cx in r.0.startWaiters
    ensures r.1.Done? <==> c.state == Connected
    ensures !r.1.Parked? ==> r.0 == c && (c.state == Open ==> r.1 == Failed(Refused(refused.value)))
  {
    match c.state
    case Open =>
      if refused.Some? then (c, Failed(Refused(refused.value)))
      else (ParkedOnStart(c.(state := Connecting), cx), Parked)
    case Connecting => (ParkedOnStart(c, cx), Parked)
    case Connected => (c, Done(()))
    case Shutdown => (c, LostBy(c))
    case ShutdownComplete => (c, LostBy(c))
  }

  lemma {:induction false} FrontAndRest<T>(q: seq<T>)
    ensures [] + q == q
    ensures q != [] ==> [q[0]] + q[1..] == q
  {
  }

  function PollAcceptStream(c: Conn, cx: Task): (r: (Conn, Outcome<nat>))
    ensures Settled(c) ==> Settled(r.0) && !r.1.Panics?
    ensures Taken(r.1) + r.0.inboundStreams == c.inboundStreams
    ensures SameContents(c, r.0.(inboundStreams := c.inboundStreams))
    ensures ParksOnly(c, r.0, cx)
    ensures r.1.Parked? <==> c.state == Connecting || (c.state == Connected && c.inboundStreams == [])
    ensures r.1.Parked? ==> cx in if c.state == Connecting then r.0.startWaiters else r.0.inboundStreamWaiters
    ensures r.1 == Failed(NotStarted) <==> c.state == Open
  {
    FrontAndRest(c.inboundStreams);
    var (d, o) := Gate(c, cx);
    if !o.Done? then (d, Halt(o))
    else if c.inboundStreams != [] then (c.(inboundStreams := c.inboundStreams[1..]), Done(c.inboundStreams[0]))
    else (c.(inboundStreamWaiters := Registered(c.inboundStreamWaiters, cx)), Parked)
  }

  function PollAcceptUniStream(c: Conn, cx: Task): (r: (Conn, Outcome<nat>))
    ensures Settled(c) ==> Settled(r.0) && !r.1.Panics?
    ensures Taken(r.1) + r.0.inboundUniStreams == c.inboundUniStreams
    ensures SameContents(c, r.0.(inboundUniStreams := c.inboundUniStreams, inboundUniStreamWaiters := c.inboundUniStreamWaiters))
    ensures c.inboundUniStreamWaiters <= r.0.inboundUniStreamWaiters
    ensures ParksOnly(c, r.0, cx)
    ensures r.1.Parked? <==> c.state == Connecting || (c.state == Connected && c.inboundUniStreams == [])
    ensures r.1.Parked? ==> cx in if c.state == Connecting then r.0.startWaiters else r.0.inboundUniStreamWaiters
    ensures r.1 == Failed(NotStarted) <==> c.state == Open
  {
    FrontAndRest(c.inboundUniStreams);
    var (d, o) := Gate(c, cx);
    if !o.Done? then (d, Halt(o))
    else if c.inboundUniStreams != [] then (c.(inboundUniStreams := c.inboundUniStreams[1..]), Done(c.inboundUniStreams[0]))
    else (c.(inboundUniStreamWaiters := Registered(c.inboundUniStreamWaiters, cx)), Parked)
  }

  function PollReceiveDatagram(c: Conn, cx: Task): (r: (Conn, Outcome<seq<byte>>))
    ensures Settled(c) ==> Settled(r.0) && !r.1.Panics?
    ensures Taken(r.1) + r.0.recvBuffers == c.recvBuffers
    ensures SameContents(c, r.0.(recvBuffers := c.recvBuffers))
    ensures ParksOnly(c, r.0, cx)
    ensures r.1.Parked? <==> c.state == Connecting || (c.state == Connected && c.recvBuffers == [])
    ensures r.1.Parked? ==> cx in if c.state == Connecting then r.0.startWaiters else r.0.recvWaiters
    ensures r.1 == Failed(NotStarted) <==> c.state == Open
  {
    FrontAndRest(c.recvBuffers);
    var (d, o) := Gate(c, cx);
    if !o.Done? then (d, Halt(o))
    else if c.recvBuffers != [] then (c.(recvBuffers := c.recvBuffers[1..]), Done(c.recvBuffers[0]))
    else (c.(recvWaiters := Registered(c.recvWaiters, cx)), Parked)
  }

  /** A send: what the connection becomes, what MsQuic was handed, and the answer. */
  datatype SendStep = SendStep(conn: Conn, native: Option<SendPath.NativeSend>, outcome: Outcome<()>)

  /** The checks and the native call both datagram sends make once connected. */
  function SendChecked(c: Conn, bytes: seq<byte>, refused: Option<nat>, next: nat): (r: SendStep)
    ensures r.conn == c.(writePool := r.conn.writePool) && !r.outcome.Parked? && !r.outcome.Panics?
    ensures Waiting(r.conn) == Waiting(c)
    ensures r.outcome == Failed(Denied) <==> !c.dgramSendEnabled
    ensures r.outcome == Failed(TooBig) <==> c.dgramSendEnabled && |bytes| > c.dgramMaxSendLength
    ensures r.native.Some? <==> c.dgramSendEnabled && |bytes| <= c.dgramMaxSendLength
    ensures r.native.Some? ==> r.outcome == if refused.Some? then Failed(Refused(refused.value)) else Done(())
  {
    if !c.dgramSendEnabled then SendStep(c, None, Failed(Denied))
    else if |bytes| > c.dgramMaxSendLength then SendStep(c, None, Failed(TooBig))
    else
      var (b, rest) := SendPath.TakeBuffer(c.writePool, next);
      var full := SendPath.Fill(b, SendPath.Chunks([bytes])).WithBuffers();
      if refused.None? then
        SendStep(c.(writePool := rest), Some(SendPath.NativeSend(full, false, true)), Done(()))
      else
        SendStep(c.(writePool := rest + [full.Reset()]), Some(SendPath.NativeSend(full, false, false)), Failed(Refused(refused.value)))
  }

  function PollSendDatagram(c: Conn, cx: Task, bytes: seq<byte>, refused: Option<nat>, next: nat): (r: SendStep)
    ensures Settled(c) ==> Settled(r.conn) && !r.outcome.Panics?
    ensures SameContents(c, r.conn.(writePool := c.writePool)) && (r.native.None? ==> r.conn.writePool == c.writePool)
    ensures ParksOnly(c, r.conn, cx)
    ensures r.outcome.Parked? <==> c.state == Connecting
    ensures r.outcome.Parked? ==> cx in r.conn.startWaiters
    ensures r.outcome == Failed(NotStarted) <==> c.state == Open
    ensures r.outcome == Failed(Denied) <==> c.state == Connected && !c.dgramSendEnabled
    ensures r.outcome == Failed(TooBig) <==> c.state == Connected && c.dgramSendEnabled && |bytes| > c.dgramMaxSendLength
    ensures r.native.Some? <==> c.state == Connected && c.dgramSendEnabled && |bytes| <= c.dgramMaxSendLength
    ensures r.native.Some? ==> r.outcome == if refused.Some? then Failed(Refused(refused.value)) else Done(())
  {
    var (d, o) := Gate(c, cx);
    if !o.Done? then SendStep(d, None, Halt(o)) else SendChecked(c, bytes, refused, next)
  }

  /** `send_datagram`, which never parks. */
  function SendDatagram(c: Conn, bytes: seq<byte>, refused: Option<nat>, next: nat): (r: SendStep)
    ensures Settled(c) ==> Settled(r.conn) && !r.outcome.Panics?
    ensures SameContents(c, r.conn.(writePool := c.writePool)) && (r.native.None? ==> r.conn.writePool == c.writePool)
    ensures Waiting(r.conn) == Waiting(c)
    ensures r.outcome == Failed(NotStarted) <==> c.state == Open || c.state == Connecting
    ensures r.outcome == Failed(Denied) <==> c.state == Connected && !c.dgramSendEnabled
    ensures r.outcome == Failed(TooBig) <==> c.state == Connected && c.dgramSendEnabled && |bytes| > c.dgramMaxSendLength
    ensures r.native.Some? <==> c.state == Connected && c.dgramSendEnabled && |bytes| <= c.dgramMaxSendLength
    ensures r.native.Some? ==> r.outcome == if refused.Some? then Failed(Refused(refused.value)) else Done(())
  {
    match c.state
    case Open => SendStep(c, None, Failed(NotStarted))
    case Connecting => SendStep(c, None, Failed(NotStarted))
    case Connected => SendChecked(c, bytes, refused, next)
    case Shutdown => SendStep(c, None, LostBy(c))
    case ShutdownComplete => SendStep(c, None, LostBy(c))
  }

  function ShutDownLocally(c: Conn): (d: Conn)
    requires c.state == Connected
    ensures Settled(c) ==> Settled(d)
    ensures SameContents(c, d)
    ensures ParksOnly(c, d, 0) && d.shutdownWaiters == c.shutdownWaiters
  {
    c.(state := Shutdown, error := Some(StreamTypes.ShutdownByLocal))
  }

  function ParkedOnShutdown(c: Conn, cx: Task): (d: Conn)
    requires c.state == Shutdown
    ensures Settled(c) ==> Settled(d)
    ensures SameContents(c, d)
    ensures ParksOnly(c, d, cx)
  {
    c.(shutdownWaiters := Registered(c.shutdownWaiters, cx))
  }

  function PollShutdown(c: Conn, cx: Task): (r: (Conn, Outcome<()>))
    ensures Settled(c) ==> Settled(r.0) && !r.1.Panics?
    ensures SameContents(c, r.0)
    ensures ParksOnly(c, r.0, cx)
    ensures r.1.Parked? <==> c.state == Connecting || Up(c.state)
    ensures r.1.Parked? ==> cx in if c.state == Connecting then r.0.startWaiters else r.0.shutdownWaiters
    ensures r.1 == Failed(NotStarted) <==> c.state == Open
    ensures r.1.Done? <==> c.state == ShutdownComplete && c.error == Some(StreamTypes.ShutdownByLocal)
  {
    match c.state
    case Open => (c, Failed(NotStarted))
    case Connecting => (ParkedOnStart(c, cx), Parked)
    case Connected => (ParkedOnShutdown(ShutDownLocally(c), cx), Parked)
    case Shutdown => (ParkedOnShutdown(c, cx), Parked)
    case ShutdownComplete =>
      if c.error == Some(StreamTypes.ShutdownByLocal) then (c, Done(())) else (c, LostBy(c))
  }

  /** `shutdown`, which does not wait. */
  function ShutdownNow(c: Conn): (r: (Conn, Outcome<()>))
    ensures Settled(c) ==> Settled(r.0) && !r.1.Panics?
    ensures SameContents(c, r.0)
    ensures Waiting(r.0) == Waiting(c)
    ensures r.1 == (if c.state == Open || c.state == Connecting then Failed(NotStarted) else Done(()))
    ensures r.0.state == Shutdown <==> Up(c.state)
  {
    match c.state
    case Open => (c, Failed(NotStarted))
    case Connecting => (c, Failed(NotStarted))
    case Connected => (ShutDownLocally(c), Done(()))
    case Shutdown => (c, Done(()))
    case ShutdownComplete => (c, Done(()))
  }

  /** Take the oldest event, or park for the next. */
  function TakeEvent(c: Conn, cx: Task): (r: (Conn, Outcome<Event>))
    requires Up(c.state)
    ensures Settled(c) ==> Settled(r.0) && !r.1.Panics?
    ensures Taken(r.1) + r.0.events == c.events
    ensures SameContents(c, r.0.(events := c.events))
    ensures ParksOnly(c, r.0, cx)
    ensures r.1.Parked? <==> c.events == []
    ensures r.1.Parked? ==> cx in r.0.eventWaiters
    ensures r.1.Done? <==> c.events != []
  {
    FrontAndRest(c.events);
    if c.events == [] then (c.(eventWaiters := Registered(c.eventWaiters, cx)), Parked)
    else (c.(events := c.events[1..]), Done(c.events[0]))
  }

  function PollEvent(c: Conn, cx: Task): (r: (Conn, Outcome<Event>))
    ensures Settled(c) ==> Settled(r.0) && !r.1.Panics?
    ensures Taken(r.1) + r.0.events == c.events
    ensures SameContents(c, r.0.(events := c.events))
    ensures ParksOnly(c, r.0, cx)
    ensures r.1.Parked? <==> c.state == Connecting || (Up(c.state) && c.events == [])
    ensures r.1.Parked? ==> cx in if c.state == Connecting then r.0.startWaiters else r.0.eventWaiters
    ensures r.1 == Failed(NotStarted) <==> c.state == Open
  {
    FrontAndRest(c.events);
    Unmoved(c, cx);
    assert Settled(c) && GoingDown(c.state) ==> c.error.Some?;
    hide Settled, SameContents, ParksOnly, TakeEvent, ParkedOnStart;
    match c.state
    case Open => (c, Failed(NotStarted))
    case Connecting => (ParkedOnStart(c, cx), Parked)
    case Connected => TakeEvent(c, cx)
    case Shutdown => TakeEvent(c, cx)
    case ShutdownComplete => (c, LostBy(c))
  }

  // ---- MsQuic events: the new state, and the tasks woken ----

  function OnConnected(c: Conn): (r: (Conn, seq<Task>))
    ensures Settled(c) ==> Settled(r.0)
    ensures SameContents(c, r.0)
  {
    (c.(state := Connected, startWaiters := []), c.startWaiters)
  }

  /** Shutdown initiated by the transport or by the peer, as `error` says. */
  function OnShutdownInitiated(c: Conn, error: ConnectionError): (r: (Conn, seq<Task>))
    ensures Settled(c) ==> Settled(r.0)
    ensures SameContents(c, r.0)
  {
    (c.(state := Shutdown, error := Some(error), startWaiters := [], inboundStreamWaiters := [], recvWaiters := []),
     c.startWaiters + c.inboundStreamWaiters + c.recvWaiters)
  }

  function OnShutdownComplete(c: Conn): (r: (Conn, seq<Task>))
    ensures Settled(c) ==> Settled(r.0)
    ensures SameContents(c, r.0)
  {
    (c.(state := ShutdownComplete, error := if c.error.None? then Some(StreamTypes.ShutdownByLocal) else c.error,
        startWaiters := [], inboundStreamWaiters := [], recvWaiters := [], shutdownWaiters := [], eventWaiters := []),
     c.startWaiters + c.inboundStreamWaiters + c.recvWaiters + (c.shutdownWaiters + c.eventWaiters))
  }

  /** `Stream::split`: which halves a stream has. */
  function Halves(bidirectional: bool, localOpen: bool): (halves: (bool, bool))
    ensures halves.0 || halves.1
    ensures halves.0 && halves.1 <==> bidirectional
    ensures !bidirectional ==> (halves.0 <==> !localOpen) && (halves.1 <==> localOpen)
  {
    if bidirectional then (true, true) else if localOpen then (false, true) else (true, false)
  }

  /** A stream of the peer is queued by its direction; the branch that rejects a unidirectional stream
      without exactly a read half is never taken. */
  function OnPeerStreamStarted(c: Conn, stream: nat, unidirectional: bool): (r: (Conn, seq<Task>))
    ensures Settled(c) ==> Settled(r.0)
    ensures SameContents(c, r.0.(inboundStreams := c.inboundStreams, inboundUniStreams := c.inboundUniStreams,
                                      inboundUniStreamWaiters := c.inboundUniStreamWaiters))
    ensures r.0.inboundUniStreamWaiters == if unidirectional then [] else c.inboundUniStreamWaiters
    ensures r.0.inboundStreamWaiters == if unidirectional then c.inboundStreamWaiters else []
    ensures r.0.inboundStreams == if unidirectional then c.inboundStreams else c.inboundStreams + [stream]
    ensures r.0.inboundUniStreams == if unidirectional then c.inboundUniStreams + [stream] else c.inboundUniStreams
  {
    if unidirectional then
      if Halves(false, false) == (true, false) then
        (c.(inboundUniStreams := c.inboundUniStreams + [stream], inboundUniStreamWaiters := []), c.inboundUniStreamWaiters)
      else (c, [])
    else
      (c.(inboundStreams := c.inboundStreams + [stream], inboundStreamWaiters := []), c.inboundStreamWaiters)
  }

  /** Overwrite the first waiting datagram-state entry, or queue one. */
  function Coalesced(events: seq<Event>, e: Event): (r: seq<Event>)
    ensures r != []
  {
    if events == [] then [e]
    else if events[0].DatagramStateChanged? then [e] + events[1..]
    else [events[0]] + Coalesced(events[1..], e)
  }

  /** Coalescing touches the first datagram state, or appends one. */
  lemma {:induction false} CoalescedAt(events: seq<Event>, e: Event, i: nat)
    requires i <= |events| && (forall j :: 0 <= j < i ==> events[j].Notice?)
    requires i < |events| ==> events[i].DatagramStateChanged?
    ensures Coalesced(events, e) == if i < |events| then events[i := e] else events + [e]
  {
    if 0 < i {
      var rest := events[1..];
      CoalescedAt(rest, e, i - 1);
      assert Coalesced(events, e) == [events[0]] + Coalesced(rest, e);
      if i < |events| {
        assert [events[0]] + rest[i - 1 := e] == events[i := e];
      } else {
        assert [events[0]] + (rest + [e]) == events + [e];
      }
    } else if events != [] {
      assert [e] + events[1..] == events[0 := e];
    }
  }

  function OnDatagramStateChanged(c: Conn, sendEnabled: bool, maxSendLength: nat): (r: (Conn, seq<Task>))
    ensures Settled(c) ==> Settled(r.0)
    ensures SameContents(c, r.0.(events := c.events, dgramSendEnabled := c.dgramSendEnabled, dgramMaxSendLength := c.dgramMaxSendLength))
  {
    (c.(dgramSendEnabled := sendEnabled, dgramMaxSendLength := maxSendLength,
        events := Coalesced(c.events, DatagramStateChanged(sendEnabled, maxSendLength)), eventWaiters := []),
     c.eventWaiters)
  }

  function OnDatagramReceived(c: Conn, bytes: seq<byte>): (r: (Conn, seq<Task>))
    ensures Settled(c) ==> Settled(r.0)
    ensures SameContents(c, r.0.(recvBuffers := c.recvBuffers))
  {
    (c.(recvBuffers := c.recvBuffers + [bytes], recvWaiters := []), c.recvWaiters)
  }

  /** `Sent` or `Canceled`: the send's buffer comes back. */
  function OnDatagramReturned(c: Conn, b: SendPath.WBuf): (r: (Conn, seq<Task>))
    ensures Settled(c) ==> Settled(r.0)
    ensures SameContents(c, r.0.(writePool := c.writePool))
  {
    (c.(writePool := c.writePool + [b.Reset()]), [])
  }

  function OnNotice(c: Conn, id: nat): (r: (Conn, seq<Task>))
    ensures Settled(c) ==> Settled(r.0)
    ensures SameContents(c, r.0.(events := c.events))
  {
    (c.(events := c.events + [Notice(id)], eventWaiters := []), c.eventWaiters)
  }

  /** Something queued can be taken exactly while the connection is connected; an event also while it is
      shutting down. A parked task's queue is empty, so this says as well when a poll has nothing to wait for. */
  lemma {:induction false} TakenExactlyWhen(c: Conn, cx: Task)
    ensures PollAcceptStream(c, cx).1.Done? <==> c.inboundStreams != [] && c.state == Connected
    ensures PollAcceptUniStream(c, cx).1.Done? <==> c.inboundUniStreams != [] && c.state == Connected
    ensures PollReceiveDatagram(c, cx).1.Done? <==> c.recvBuffers != [] && c.state == Connected
    ensures PollEvent(c, cx).1.Done? <==> c.events != [] && Up(c.state)
  {
    hide Settled, SameContents, ParksOnly, Registered;
  }

  // ---- An event wakes exactly the tasks it takes off the lists ----

  lemma {:induction false} LossWakesWhomItUnparks(c: Conn, error: ConnectionError)
    ensures var r := OnShutdownInitiated(c, error); Waiting(c) == Waiting(r.0) + multiset(r.1)
    ensures var r := OnShutdownComplete(c); Waiting(c) == Waiting(r.0) + multiset(r.1)
  {
    hide Settled, SameContents;
  }

  lemma {:induction false} ArrivalWakesWhomItUnparks(c: Conn, stream: nat, uni: bool, bytes: seq<byte>)
    ensures var r := OnPeerStreamStarted(c, stream, uni); Waiting(c) == Waiting(r.0) + multiset(r.1)
    ensures var r := OnDatagramReceived(c, bytes); Waiting(c) == Waiting(r.0) + multiset(r.1)
  {
    hide Settled, SameContents;
  }

  lemma {:induction false} NewsWakesWhomItUnparks(c: Conn, enabled: bool, max: nat, id: nat)
    ensures var r := OnDatagramStateChanged(c, enabled, max); Waiting(c) == Waiting(r.0) + multiset(r.1)
    ensures var r := OnNotice(c, id); Waiting(c) == Waiting(r.0) + multiset(r.1)
    ensures var r := OnConnected(c); Waiting(c) == Waiting(r.0) + multiset(r.1)
  {
    hide Settled, SameContents;
  }
}
