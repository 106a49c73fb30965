/** The future that opens an outbound stream: it opens one native stream, then polls that stream's start. */
module OpenOutbound {
  import opened Common
  import opened Sync
  import opened StreamTypes
  import opened Connection
  import opened ConnectionInner
  import Runs
  import SendRuns
  import StartPath
  import StreamInner

  datatype Kind = Bidirectional | Unidirectional

  /** The stream inside the future, as far as `poll_start` looks at it. */
  datatype OpenedStream = OpenedStream(id: nat, shared: Shared, recv: Half, send: Half)

  /** `wanted` until the native stream has been asked for; `stream` once it is there. */
  datatype Future = Future(wanted: Option<Kind>, stream: Option<OpenedStream>)

  datatype OpenError = ByConnection(failure: Failure) | ByStart(error: StartPath.StartError)

  datatype Answer = Waits | HandedOver(id: nat) | NotOpened(error: OpenError) | Crashes

  datatype OpenStep = OpenStep(conn: Conn, future: Future, answer: Answer, opens: bool)

  /** A locally opened stream before its start. */
  function Fresh(id: nat, kind: Kind): OpenedStream {
    OpenedStream(id, Shared(kind == Bidirectional, Opened, None, false, None, []), Half.Closed, Half.Closed)
  }

  /** `native` is what the native open answers if asked, `refused` the status of the native start if it is refused. */
  function PollOpen(c: Conn, f: Future, cx: Task, native: Result<nat, Status>, refused: Option<Status>): OpenStep {
    var (d, gate) := Gate(c, cx);
    match gate
    case Parked => OpenStep(d, f, Waits, false)
    case Failed(e) => OpenStep(d, f, NotOpened(ByConnection(e)), false)
    case Panics => OpenStep(d, f, Crashes, false)
    case Done(_) => Advanced(c, f, cx, native, refused)
  }

  /** Past the gate: open the native stream unless it is there, then poll its start. */
  function Advanced(c: Conn, f: Future, cx: Task, native: Result<nat, Status>, refused: Option<Status>): OpenStep {
    if f.stream.Some? then PollTheStart(c, f.wanted, f.stream.value, cx, refused, false)
    else if f.wanted.None? then OpenStep(c, f, Crashes, false)
    else if native.Err? then OpenStep(c, Future(None, None), NotOpened(ByStart(StartPath.StartOther(native.error))), true)
    else PollTheStart(c, None, Fresh(native.value, f.wanted.value), cx, refused, true)
  }

  function PollTheStart(c: Conn, wanted: Option<Kind>, s: OpenedStream, cx: Task, refused: Option<Status>, opens: bool): OpenStep {
    var r := StartPath.PollStart(s.shared, s.recv, s.send, cx, refused);
    var t := OpenedStream(s.id, r.shared, r.recv, r.send);
    match r.result
    case Parked => OpenStep(c, Future(wanted, Some(t)), Waits, opens)
    case Accepted => OpenStep(c, Future(wanted, None), HandedOver(s.id), opens)
    case StartFailed(e) => OpenStep(c, Future(wanted, Some(t)), NotOpened(ByStart(e)), opens)
    case Panics => OpenStep(c, Future(wanted, Some(t)), Crashes, opens)
  }

  /** The state of a future that has not resolved. */
  ghost predicate Unresolved(f: Future) { f.wanted.Some? <==> f.stream.None? }

  /** What `SendRuns.StartPanicsExactlyWhen` says of the stream in the future. */
  predicate StartCrashes(s: OpenedStream) {
    && (s.shared.life == Started || s.shared.life == Completed) && s.shared.startStatus.Some?
    && ((s.shared.startStatus.value == Aborted && s.shared.connError == None) || s.shared.startStatus.value.Unnamed?)
  }

  /** On a connection that is up, polling panics exactly when the future's own stream was reported aborted
      without a connection error or failed without a name, or when the future has nothing left to open or to hand over. */
  lemma {:induction false} OpenPanicsExactlyWhen(c: Conn, f: Future, cx: Task, native: Result<nat, Status>, refused: Option<Status>)
    requires Settled(c)
    ensures PollOpen(c, f, cx, native, refused).answer.Crashes?
       <==> c.state == Connected && (if f.stream.Some? then StartCrashes(f.stream.value) else f.wanted.None?)
  {
    hide ParksOnly, SameContents, WaitersIdle, OneEntryEach;
    if f.stream.Some? {
      var s := f.stream.value;
      SendRuns.StartPanicsExactlyWhen(s.shared, s.recv, s.send, cx, refused);
    } else if f.wanted.Some? && native.Ok? {
      var s := Fresh(native.value, f.wanted.value);
      SendRuns.StartPanicsExactlyWhen(s.shared, s.recv, s.send, cx, refused);
    }
  }

  lemma {:induction false} GateParks(c: Conn, cx: Task)
    ensures Gate(c, cx).1.Parked? ==> cx in Gate(c, cx).0.startWaiters
    ensures Gate(c, cx).1.Done? <==> c.state == Connected
  {
  }

  /** One poll of the stream's start. */
  lemma {:induction false} StartKeepsTheStream(c: Conn, wanted: Option<Kind>, s: OpenedStream, cx: Task, refused: Option<Status>,
                                               opens: bool)
    ensures var r := PollTheStart(c, wanted, s, cx, refused, opens);
            && r.conn == c && r.opens == opens && r.future.wanted == wanted
            && (if r.answer.HandedOver? then r.answer.id == s.id && r.future.stream == None
                else r.future.stream.Some? && r.future.stream.value.id == s.id)
            && (r.answer.HandedOver? <==>
                  && (s.shared.life == Started || s.shared.life == Completed)
                  && (s.shared.startStatus == None || s.shared.startStatus == Some(Success)))
            && (r.answer.Waits? ==> r.future.stream.Some? && cx in r.future.stream.value.shared.startWaiters)
  {
    match s.shared.startStatus
    case None =>
    case Some(_) =>
  }

  /** The native stream is in the future or in the answer, never in both and never lost, and it is handed over
      only once its start has succeeded; a future that waits is parked on the connection or on that stream. */
  lemma {:induction false} OpenKeepsTheStream(c: Conn, f: Future, cx: Task, native: Result<nat, Status>, refused: Option<Status>)
    requires Settled(c) && Unresolved(f)
    ensures var r := PollOpen(c, f, cx, native, refused);
            && Settled(r.conn)
            && (r.opens <==> c.state == Connected && f.wanted.Some?) && (r.opens ==> r.future.wanted.None?)
            && (f.stream.Some? || (r.opens && native.Ok?) ==>
                  var id := if f.stream.Some? then f.stream.value.id else native.value;
                  if r.answer.HandedOver? then r.answer.id == id && r.future.stream == None
                  else r.future.stream.Some? && r.future.stream.value.id == id)
            && (r.answer.HandedOver? <==>
                  && c.state == Connected && f.stream.Some?
                  && (f.stream.value.shared.life == Started || f.stream.value.shared.life == Completed)
                  && (f.stream.value.shared.startStatus == None || f.stream.value.shared.startStatus == Some(Success)))
            && (r.answer.Waits? ==>
                  && Unresolved(r.future)
                  && (cx in r.conn.startWaiters || (r.future.stream.Some? && cx in r.future.stream.value.shared.startWaiters)))
  {
    GateParks(c, cx);
    var kept := Gate(c, cx);
    hide Settled, ParksOnly, SameContents, Gate, PollTheStart;
    if f.stream.Some? {
      StartKeepsTheStream(c, f.wanted, f.stream.value, cx, refused, false);
    } else if f.wanted.Some? && native.Ok? {
      StartKeepsTheStream(c, None, Fresh(native.value, f.wanted.value), cx, refused, true);
    }
  }

  /** Why a poll fails: for the reason its connection gives, because the native open was refused, or because the
      start of its stream failed. */
  lemma {:induction false} OpenAnswers(c: Conn, f: Future, cx: Task, native: Result<nat, Status>, refused: Option<Status>)
    requires Settled(c) && Unresolved(f)
    ensures var a := PollOpen(c, f, cx, native, refused).answer;
            && (c.state == Open <==> a == NotOpened(ByConnection(NotStarted)))
            && (GoingDown(c.state) ==> a == NotOpened(ByConnection(Lost(c.error.value))))
            && (c.state == Connecting ==> a == Waits)
            && (c.state == Connected && f.stream.None? && native.Err? ==> a == NotOpened(ByStart(StartPath.StartOther(native.error))))
            && (c.state == Connected && (f.stream.Some? || native.Ok?) ==>
                  var s := if f.stream.Some? then f.stream.value else Fresh(native.value, f.wanted.value);
                  var r := StartPath.PollStart(s.shared, s.recv, s.send, cx, refused).result;
                  && (a.Waits? <==> r.Parked?)
                  && (a.NotOpened? <==> r.StartFailed?) && (a.NotOpened? ==> a == NotOpened(ByStart(r.error))))
  {
    hide ParksOnly, SameContents, WaitersIdle, OneEntryEach, StartPath.PollStart;
  }

  // ---- Series of polls ----

  /** One poll, after the stream in the future has gone through whatever MsQuic indicated: `now` is its state. */
  datatype Input = Input(conn: Conn, now: OpenedStream, cx: Task, native: Result<nat, Status>, refused: Option<Status>)

  function Poll(f: Future, input: Input): OpenStep {
    var g := if f.stream.Some? then f.(stream := Some(input.now.(id := f.stream.value.id))) else f;
    PollOpen(input.conn, g, input.cx, input.native, input.refused)
  }

  /** How many native streams a series of polls opens. */
  function Opens(f: Future, inputs: seq<Input>): nat
    decreases |inputs|
  {
    if inputs == [] then 0 else One(Poll(f, inputs[0]).opens) + Opens(Poll(f, inputs[0]).future, inputs[1..])
  }

  /** What a series of polls hands over, in order. */
  function Handed(f: Future, inputs: seq<Input>): seq<nat>
    decreases |inputs|
  {
    if inputs == [] then []
    else
      var r := Poll(f, inputs[0]);
      (if r.answer.HandedOver? then [r.answer.id] else []) + Handed(r.future, inputs[1..])
  }

  /** However it is polled, whatever happens to the connection and to the stream in between, it opens at most
      one native stream and hands over at most one: the one it opened. */
  lemma {:induction false} OpensAtMostOnce(f: Future, inputs: seq<Input>)
    requires f.wanted.None? || f.stream.None?
    ensures Opens(f, inputs) <= One(f.wanted.Some?)
    ensures |Handed(f, inputs)| <= 1
    ensures f.wanted.None? ==> Handed(f, inputs) <= (if f.stream.Some? then [f.stream.value.id] else [])
    ensures Handed(f, inputs) != [] && f.wanted.Some? ==>
              exists i :: 0 <= i < |inputs| && inputs[i].native == Ok(Handed(f, inputs)[0])
    decreases |inputs|
  {
    if inputs != [] {
      OnePoll(f, inputs[0]);
      var r := Poll(f, inputs[0]);
      hide Poll;
      OpensAtMostOnce(r.future, inputs[1..]);
      if Handed(f, inputs) != [] && f.wanted.Some? {
        assert Handed(f, inputs) == Handed(r.future, inputs[1..]);
        if r.future.wanted.Some? {
          var i :| 0 <= i < |inputs[1..]| && inputs[1..][i].native == Ok(Handed(f, inputs)[0]);
          assert inputs[i + 1].native == Ok(Handed(f, inputs)[0]);
        } else {
          assert inputs[0].native == Ok(Handed(f, inputs)[0]);
        }
      }
    }
  }

  lemma {:induction false} OnePoll(f: Future, input: Input)
    requires f.wanted.None? || f.stream.None?
    ensures var r := Poll(f, input);
            && (r.future.wanted.None? || r.future.stream.None?)
            && (r.opens ==> f.wanted.Some? && r.future.wanted.None?)
            && (r.future.wanted.Some? ==> r.future == f)
            && (r.answer.HandedOver? ==> f.stream.Some? && f.wanted.None? && r.answer.id == f.stream.value.id && r.future.stream.None?)
            && (r.future.stream.Some? && f.stream.Some? ==> r.future.stream.value.id == f.stream.value.id)
            && (r.future.stream.Some? && f.stream.None? ==> input.native == Ok(r.future.stream.value.id))
            && (f.wanted.None? ==> r.future.wanted.None?)
            && (f.wanted.None? && f.stream.None? ==> r.future.stream.None?)
  {
    hide ParksOnly, SameContents, Settled, Gate, PollTheStart;
    if f.stream.Some? {
      StartKeepsTheStream(input.conn, f.wanted, input.now.(id := f.stream.value.id), input.cx, input.refused, false);
    } else if f.wanted.Some? && input.native.Ok? {
      StartKeepsTheStream(input.conn, None, Fresh(input.native.value, f.wanted.value), input.cx, input.refused, true);
    }
  }

  // ---- Where the guarantee ends ----

  /** The future of a reachable stream that MsQuic first reports aborted and then completes, for no reason that
      concerns its connection: the first poll waits, the second one panics on a connection that is still up. */
  lemma {:induction false} AbortedStartPanics(cx: Task) returns (f: Future, v: SendRuns.World, w: SendRuns.World)
    ensures PollOpen(New(Connected), Future(Some(Bidirectional), None), cx, Ok(0), None) == OpenStep(New(Connected), f, Waits, true)
    ensures SendRuns.Reachable(v) && f.stream == Some(OpenedStream(0, v.sh, Start, v.s.state))
    ensures Runs.Leads(SendRuns.Moves, v,
              [SendRuns.EventStartComplete(Aborted, false), SendRuns.EventShutdownComplete(NoLoss)], w)
    ensures forall recv: Half ::
              PollOpen(New(Connected), f.(stream := Some(OpenedStream(0, w.sh, recv, w.s.state))), cx, Ok(0), None).answer.Crashes?
  {
    hide SendRuns.Reachable;
    v, w := SendRuns.StartCanPanic(cx, Aborted);
    SendRuns.StartPanicsExactlyWhen(w.sh, Half.Closed, w.s.state, cx, None);
    f := PollOpen(New(Connected), Future(Some(Bidirectional), None), cx, Ok(0), None).future;
    assert [] + [cx] == [cx];
  }

  // ---- The future itself ----

  class OpenOutboundStream {
    const conn: ConnectionInnerExclusive
    var wanted: Option<Kind>
    var id: nat
    var stream: StreamInner.StreamInnerExclusive?

    constructor (conn: ConnectionInnerExclusive, kind: Kind)
      ensures this.conn == conn && Valid() && View() == Future(Some(kind), None)
    {
      this.conn, wanted, id, stream := conn, Some(kind), 0, null;
    }

    ghost predicate Valid()
      reads this`stream, stream, if stream == null then [] else stream.recvBuffers
    {
      stream != null ==> stream.Valid()
    }

    ghost function View(): Future
      reads this, stream
    {
      Future(wanted, if stream == null then None else Some(OpenedStream(id, stream.SharedView(), stream.recvState, stream.sendState)))
    }

    method Poll(cx: Task, native: Result<nat, Status>, refused: Option<Status>) returns (a: Answer, opens: bool)
      requires conn.Valid() && Valid()
      modifies this, conn`startWaiters, stream
      ensures conn.Valid() && Valid() && (stream == old(stream) || stream == null || fresh(stream))
      ensures OpenStep(conn.View(), View(), a, opens) == PollOpen(old(conn.View()), old(View()), cx, native, refused)
    {
      hide Settled, ParksOnly, SameContents, Waiting, Gate, PollTheStart;
      opens := false;
      var gate := conn.CheckConnected(cx);
      match gate {
        case Parked => a := Waits;
        case Failed(e) => a := NotOpened(ByConnection(e));
        case Panics => a := Crashes;
        case Done(_) => a, opens := Advance(cx, native, refused, conn.View());
      }
    }

    /** The connection is up: open the native stream unless it is there, then poll its start. */
    method Advance(cx: Task, native: Result<nat, Status>, refused: Option<Status>, ghost c: Conn) returns (a: Answer, opens: bool)
      requires Valid()
      modifies this, stream
      ensures Valid() && (stream == old(stream) || stream == null || fresh(stream))
      ensures OpenStep(c, View(), a, opens) == Advanced(c, old(View()), cx, native, refused)
    {
      hide PollTheStart, StreamInner.StreamInnerExclusive.Valid;
      opens := false;
      if stream == null {
        if wanted.None? {
          return Crashes, false;
        }
        var kind := wanted.value;
        wanted, opens := None, true;
        if native.Err? {
          return NotOpened(ByStart(StartPath.StartOther(native.error))), opens;
        }
        id := native.value;
        stream := new StreamInner.StreamInnerExclusive(kind == Bidirectional, Half.Closed, Half.Closed);
        stream.ViewStates();
      }
      a := PollTheStream(cx, refused, c, opens);
    }

    /** The stream is there: poll its start, and hand it over if that has succeeded. */
    method PollTheStream(cx: Task, refused: Option<Status>, ghost c: Conn, opens: bool) returns (a: Answer)
      requires Valid() && stream != null
      modifies this`stream, stream
      ensures Valid() && (stream == old(stream) || stream == null)
      ensures OpenStep(c, View(), a, opens) == PollTheStart(c, wanted, old(View()).stream.value, cx, refused, opens)
    {
      hide StartPath.PollStart;
      stream.ViewStates();
      var started := stream.PollStart(cx, refused);
      stream.ViewStates();
      hide *;
      match started {
        case Parked => a := Waits;
        case Accepted =>
          a := HandedOver(id);
          stream := null;
        case StartFailed(e) => a := NotOpened(ByStart(e));
        case Panics => a := Crashes;
      }
    }
  }
}
