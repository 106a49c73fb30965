/**
 The mutex-guarded state of a connection. Every method is one critical section of the source and
 does to the value of the state what the value-level definitions say.
 */
module ConnectionInner {
  import opened Common
  import opened Sync
  import opened Connection
  import opened WriteBuffers
  import StreamTypes
  import SendPath

  class ConnectionInnerExclusive {
    var state: State
    var error: Option<ConnectionError>
    var startWaiters: seq<Task>
    var inboundStreamWaiters: seq<Task>
    var inboundUniStreamWaiters: seq<Task>
    var inboundStreams: seq<nat>
    var inboundUniStreams: seq<nat>
    var recvBuffers: seq<seq<byte>>
    var recvWaiters: seq<Task>
    var writePool: seq<WriteBuffer>
    var dgramSendEnabled: bool
    var dgramMaxSendLength: nat
    var shutdownWaiters: seq<Task>
    var events: seq<Event>
    var eventWaiters: seq<Task>

    ghost predicate Valid()
      reads this
    {
      forall i, j :: 0 <= i < j < |writePool| ==> writePool[i] != writePool[j]
    }

    ghost function View(): Conn
      reads this, writePool
    {
      Conn(state, error, startWaiters, inboundStreamWaiters, inboundUniStreamWaiters, inboundStreams, inboundUniStreams,
           recvBuffers, recvWaiters, PoolView(writePool), dgramSendEnabled, dgramMaxSendLength, shutdownWaiters, events, eventWaiters)
    }

    constructor (state: State)
      ensures Valid() && View() == New(state) && writePool == []
    {
      this.state, error := state, None;
      startWaiters, inboundStreamWaiters, inboundUniStreamWaiters := [], [], [];
      inboundStreams, inboundUniStreams, recvBuffers, recvWaiters := [], [], [], [];
      writePool, dgramSendEnabled, dgramMaxSendLength := [], false, 0;
      shutdownWaiters, events, eventWaiters := [], [], [];
    }

    // ---- Polls ----

    method CheckConnected(cx: Task) returns (o: Outcome<()>)
      requires Valid()
      modifies this`startWaiters
      ensures Valid() && (View(), o) == Gate(old(View()), cx)
      ensures Settled(old(View())) ==> Settled(View()) && !o.Panics?
    {
      hide PoolView, Settled, ParksOnly, SameContents, Waiting;
      match state {
        case Open => o := Failed(NotStarted);
        case Connecting =>
          startWaiters := RegisterWaker(startWaiters, cx);
          o := Parked;
        case Connected => o := Done(());
        case _ => o := if error.Some? then Failed(Lost(error.value)) else Panics;
      }
    }

    method PollStart(cx: Task, refused: Option<nat>) returns (o: Outcome<()>)
      requires Valid()
      modifies this`state, this`startWaiters
      ensures Valid() && (View(), o) == Connection.PollStart(old(View()), cx, refused)
      ensures Settled(old(View())) ==> Settled(View()) && !o.Panics?
    {
      hide PoolView, Settled, ParksOnly, SameContents, Waiting;
      match state {
        case Open =>
          if refused.Some? {
            return Failed(Refused(refused.value));
          }
          state := Connecting;
        case Connecting =>
        case Connected => return Done(());
        case _ => return if error.Some? then Failed(Lost(error.value)) else Panics;
      }
      startWaiters := RegisterWaker(startWaiters, cx);
      o := Parked;
    }

    method PollAcceptInboundStream(cx: Task) returns (o: Outcome<nat>)
      requires Valid()
      modifies this`startWaiters, this`inboundStreams, this`inboundStreamWaiters
      ensures Valid() && (View(), o) == PollAcceptStream(old(View()), cx)
      ensures Settled(old(View())) ==> Settled(View()) && !o.Panics?
    {
      hide PoolView, Settled, ParksOnly, SameContents, Waiting;
      var gate := CheckConnected(cx);
      if !gate.Done? {
        return Halt(gate);
      }
      if inboundStreams != [] {
        o := Done(inboundStreams[0]);
        inboundStreams := inboundStreams[1..];
      } else {
        inboundStreamWaiters := RegisterWaker(inboundStreamWaiters, cx);
        o := Parked;
      }
    }

    method PollAcceptInboundUniStream(cx: Task) returns (o: Outcome<nat>)
      requires Valid()
      modifies this`startWaiters, this`inboundUniStreams, this`inboundUniStreamWaiters
      ensures Valid() && (View(), o) == PollAcceptUniStream(old(View()), cx)
      ensures Settled(old(View())) ==> Settled(View()) && !o.Panics?
    {
      hide PoolView, Settled, ParksOnly, SameContents, Waiting;
      var gate := CheckConnected(cx);
      if !gate.Done? {
        return Halt(gate);
      }
      if inboundUniStreams != [] {
        o := Done(inboundUniStreams[0]);
        inboundUniStreams := inboundUniStreams[1..];
      } else {
        inboundUniStreamWaiters := RegisterWaker(inboundUniStreamWaiters, cx);
        o := Parked;
      }
    }

    method PollReceiveDatagram(cx: Task) returns (o: Outcome<seq<byte>>)
      requires Valid()
      modifies this`startWaiters, this`recvBuffers, this`recvWaiters
      ensures Valid() && (View(), o) == Connection.PollReceiveDatagram(old(View()), cx)
      ensures Settled(old(View())) ==> Settled(View()) && !o.Panics?
    {
      hide PoolView, Settled, ParksOnly, SameContents, Waiting;
      var gate := CheckConnected(cx);
      if !gate.Done? {
        return Halt(gate);
      }
      if recvBuffers != [] {
        o := Done(recvBuffers[0]);
        recvBuffers := recvBuffers[1..];
      } else {
        recvWaiters := RegisterWaker(recvWaiters, cx);
        o := Parked;
      }
    }

    /** The checks of a datagram send, then the native call; `refused` is its status if it fails. */
    method SendChecked(bytes: seq<byte>, refused: Option<nat>, next: nat)
      returns (o: Outcome<()>, native: Option<SendPath.NativeSend>)
      requires Valid()
      modifies this`writePool, writePool
      ensures Valid() && SendStep(View(), native, o) == Connection.SendChecked(old(View()), bytes, refused, next)
    {
      native := None;
      if !dgramSendEnabled {
        return Failed(Denied), native;
      }
      if |bytes| > dgramMaxSendLength {
        return Failed(TooBig), native;
      }
      o, native := SendNow(bytes, refused, next);
    }

    method SendNow(bytes: seq<byte>, refused: Option<nat>, next: nat)
      returns (o: Outcome<()>, native: Option<SendPath.NativeSend>)
      requires Valid() && dgramSendEnabled && |bytes| <= dgramMaxSendLength
      modifies this`writePool, writePool
      ensures Valid() && SendStep(View(), native, o) == Connection.SendChecked(old(View()), bytes, refused, next)
    {
      hide Settled, ParksOnly, SameContents, Waiting;
      var b: WriteBuffer;
      if writePool == [] {
        b := new WriteBuffer(next);
      } else {
        var n := |writePool| - 1;
        b := writePool[n];
        writePool := writePool[..n];
      }
      var count := b.PutZerocopy(bytes);
      var buffers := b.GetBuffers();
      native := Some(SendPath.NativeSend(b.View(), false, refused.None?));
      if refused.None? {
        o := Done(());
      } else {
        b.Reset();
        writePool := writePool + [b];
        o := Failed(Refused(refused.value));
      }
    }

    method PollSendDatagram(cx: Task, bytes: seq<byte>, refused: Option<nat>, next: nat)
      returns (o: Outcome<()>, native: Option<SendPath.NativeSend>)
      requires Valid()
      modifies this`startWaiters, this`writePool, writePool
      ensures Valid() && SendStep(View(), native, o) == Connection.PollSendDatagram(old(View()), cx, bytes, refused, next)
      ensures Settled(old(View())) ==> Settled(View()) && !o.Panics?
    {
      hide PoolView, Settled, ParksOnly, SameContents, Waiting;
      var gate := CheckConnected(cx);
      if !gate.Done? {
        return Halt(gate), None;
      }
      o, native := SendChecked(bytes, refused, next);
    }

    method SendDatagram(bytes: seq<byte>, refused: Option<nat>, next: nat)
      returns (o: Outcome<()>, native: Option<SendPath.NativeSend>)
      requires Valid()
      modifies this`writePool, writePool
      ensures Valid() && SendStep(View(), native, o) == Connection.SendDatagram(old(View()), bytes, refused, next)
      ensures Settled(old(View())) ==> Settled(View()) && !o.Panics?
    {
      hide PoolView, Settled, ParksOnly, SameContents, Waiting;
      native := None;
      match state {
        case Open => o := Failed(NotStarted);
        case Connecting => o := Failed(NotStarted);
        case Connected => o, native := SendChecked(bytes, refused, next);
        case _ => o := if error.Some? then Failed(Lost(error.value)) else Panics;
      }
    }

    method PollShutdown(cx: Task) returns (o: Outcome<()>)
      requires Valid()
      modifies this`state, this`error, this`startWaiters, this`shutdownWaiters
      ensures Valid() && (View(), o) == Connection.PollShutdown(old(View()), cx)
      ensures Settled(old(View())) ==> Settled(View()) && !o.Panics?
    {
      hide PoolView, Settled, ParksOnly, SameContents, Waiting;
      match state {
        case Open => return Failed(NotStarted);
        case Connecting =>
          startWaiters := RegisterWaker(startWaiters, cx);
          return Parked;
        case Connected =>
          state := Shutdown;
          error := Some(StreamTypes.ShutdownByLocal);
        case Shutdown =>
        case ShutdownComplete =>
          if error == Some(StreamTypes.ShutdownByLocal) {
            return Done(());
          }
          return if error.Some? then Failed(Lost(error.value)) else Panics;
      }
      shutdownWaiters := RegisterWaker(shutdownWaiters, cx);
      o := Parked;
    }

    method ShutdownNow() returns (o: Outcome<()>)
      requires Valid()
      modifies this`state, this`error
      ensures Valid() && (View(), o) == Connection.ShutdownNow(old(View()))
      ensures Settled(old(View())) ==> Settled(View()) && !o.Panics?
    {
      hide PoolView, Settled, ParksOnly, SameContents, Waiting;
      match state {
        case Open => return Failed(NotStarted);
        case Connecting => return Failed(NotStarted);
        case Connected =>
          state := Shutdown;
          error := Some(StreamTypes.ShutdownByLocal);
        case _ =>
      }
      o := Done(());
    }

    method PollEvent(cx: Task) returns (o: Outcome<Event>)
      requires Valid()
      modifies this`startWaiters, this`events, this`eventWaiters
      ensures Valid() && (View(), o) == Connection.PollEvent(old(View()), cx)
      ensures Settled(old(View())) ==> Settled(View()) && !o.Panics?
    {
      hide PoolView, Settled, ParksOnly, SameContents, Waiting;
      match state {
        case Open => return Failed(NotStarted);
        case Connecting =>
          startWaiters := RegisterWaker(startWaiters, cx);
          return Parked;
        case ShutdownComplete => return if error.Some? then Failed(Lost(error.value)) else Panics;
        case _ =>
      }
      if events == [] {
        eventWaiters := RegisterWaker(eventWaiters, cx);
        o := Parked;
      } else {
        o := Done(events[0]);
        events := events[1..];
      }
    }

    // ---- MsQuic events; `woken` lists the wakers in the order they are woken ----

    method HandleEventConnected() returns (woken: seq<Task>)
      requires Valid()
      modifies this`state, this`startWaiters
      ensures Valid() && (View(), woken) == OnConnected(old(View()))
      ensures Settled(old(View())) ==> Settled(View())
      ensures Waiting(old(View())) == Waiting(View()) + multiset(woken)
    {
      hide PoolView, Settled, ParksOnly, SameContents, Waiting;
      NewsWakesWhomItUnparks(View(), true, 0, 0);
      state := Connected;
      woken := startWaiters;
      startWaiters := [];
    }

    /** The drains every loss of the connection performs. */
    method WakeLost() returns (woken: seq<Task>)
      requires Valid()
      modifies this`startWaiters, this`inboundStreamWaiters, this`recvWaiters
      ensures Valid() && View() == old(View()).(startWaiters := [], inboundStreamWaiters := [], recvWaiters := [])
      ensures woken == old(startWaiters) + old(inboundStreamWaiters) + old(recvWaiters)
    {
      hide PoolView, Settled, ParksOnly, SameContents, Waiting;
      woken := startWaiters + inboundStreamWaiters + recvWaiters;
      startWaiters, inboundStreamWaiters, recvWaiters := [], [], [];
    }

    /** The handlers of shutdowns initiated by the transport and by the peer. */
    method HandleEventShutdownInitiated(reason: ConnectionError) returns (woken: seq<Task>)
      requires Valid()
      modifies this`state, this`error, this`startWaiters, this`inboundStreamWaiters, this`recvWaiters
      ensures Valid() && (View(), woken) == OnShutdownInitiated(old(View()), reason)
      ensures Settled(old(View())) ==> Settled(View())
      ensures Waiting(old(View())) == Waiting(View()) + multiset(woken)
    {
      hide PoolView, Settled, ParksOnly, SameContents, Waiting;
      LossWakesWhomItUnparks(View(), reason);
      state := Shutdown;
      error := Some(reason);
      woken := WakeLost();
    }

    /** Those who wait for the end of the connection itself. */
    method WakeClosers() returns (woken: seq<Task>)
      requires Valid()
      modifies this`shutdownWaiters, this`eventWaiters
      ensures Valid() && View() == old(View()).(shutdownWaiters := [], eventWaiters := [])
      ensures woken == old(shutdownWaiters) + old(eventWaiters)
    {
      hide PoolView, Settled, ParksOnly, SameContents, Waiting;
      woken := shutdownWaiters + eventWaiters;
      shutdownWaiters, eventWaiters := [], [];
    }

    method HandleEventShutdownComplete() returns (woken: seq<Task>)
      requires Valid()
      modifies this`state, this`error, this`startWaiters, this`inboundStreamWaiters, this`recvWaiters
      modifies this`shutdownWaiters, this`eventWaiters
      ensures Valid() && (View(), woken) == OnShutdownComplete(old(View()))
      ensures Settled(old(View())) ==> Settled(View())
      ensures Waiting(old(View())) == Waiting(View()) + multiset(woken)
    {
      hide PoolView, Settled, ParksOnly, SameContents, Waiting;
      LossWakesWhomItUnparks(View(), StreamTypes.ShutdownByLocal);
      state := ShutdownComplete;
      if error.None? {
        error := Some(StreamTypes.ShutdownByLocal);
      }
      woken := WakeLost();
      var closers := WakeClosers();
      woken := woken + closers;
    }

    method HandleEventPeerStreamStarted(stream: nat, unidirectional: bool) returns (woken: seq<Task>)
      requires Valid()
      modifies this`inboundStreams, this`inboundStreamWaiters, this`inboundUniStreams, this`inboundUniStreamWaiters
      ensures Valid() && (View(), woken) == OnPeerStreamStarted(old(View()), stream, unidirectional)
      ensures Settled(old(View())) ==> Settled(View())
      ensures Waiting(old(View())) == Waiting(View()) + multiset(woken)
    {
      hide PoolView, Settled, ParksOnly, SameContents, Waiting;
      ArrivalWakesWhomItUnparks(View(), stream, unidirectional, []);
      woken := [];
      if unidirectional {
        match Halves(false, false) {
          case (true, false) =>
            inboundUniStreams := inboundUniStreams + [stream];
            woken := inboundUniStreamWaiters;
            inboundUniStreamWaiters := [];
          case _ =>
        }
      } else {
        inboundStreams := inboundStreams + [stream];
        woken := inboundStreamWaiters;
        inboundStreamWaiters := [];
      }
    }

    /** Find the entry still waiting and overwrite it, or queue a new one. */
    method Coalesce(e: Event)
      requires Valid() && e.DatagramStateChanged?
      modifies this`events
      ensures Valid() && View() == old(View()).(events := Coalesced(old(events), e))
    {
      hide PoolView, Settled, ParksOnly, SameContents, Waiting, Coalesced;
      var i := 0;
      while i < |events| && !events[i].DatagramStateChanged?
        invariant 0 <= i <= |events|
        invariant forall j :: 0 <= j < i ==> events[j].Notice?
      {
        i := i + 1;
      }
      CoalescedAt(events, e, i);
      events := if i < |events| then events[i := e] else events + [e];
    }

    method HandleEventDatagramStateChanged(sendEnabled: bool, maxSendLength: nat) returns (woken: seq<Task>)
      requires Valid()
      modifies this`dgramSendEnabled, this`dgramMaxSendLength, this`events, this`eventWaiters
      ensures Valid() && (View(), woken) == OnDatagramStateChanged(old(View()), sendEnabled, maxSendLength)
      ensures Settled(old(View())) ==> Settled(View())
      ensures Waiting(old(View())) == Waiting(View()) + multiset(woken)
    {
      hide PoolView, Settled, ParksOnly, SameContents, Waiting, Coalesced;
      NewsWakesWhomItUnparks(View(), sendEnabled, maxSendLength, 0);
      dgramSendEnabled, dgramMaxSendLength := sendEnabled, maxSendLength;
      Coalesce(DatagramStateChanged(sendEnabled, maxSendLength));
      woken := eventWaiters;
      eventWaiters := [];
    }

    method HandleEventDatagramReceived(bytes: seq<byte>) returns (woken: seq<Task>)
      requires Valid()
      modifies this`recvBuffers, this`recvWaiters
      ensures Valid() && (View(), woken) == OnDatagramReceived(old(View()), bytes)
      ensures Settled(old(View())) ==> Settled(View())
      ensures Waiting(old(View())) == Waiting(View()) + multiset(woken)
    {
      hide PoolView, Settled, ParksOnly, SameContents, Waiting;
      ArrivalWakesWhomItUnparks(View(), 0, true, bytes);
      recvBuffers := recvBuffers + [bytes];
      woken := recvWaiters;
      recvWaiters := [];
    }

    /** `Sent` or `Canceled`: MsQuic gives the buffer of a datagram back. */
    method HandleEventDatagramReturned(b: WriteBuffer)
      requires Valid() && b !in writePool
      modifies this`writePool, b
      ensures Valid() && View() == OnDatagramReturned(old(View()), old(b.View())).0
      ensures Settled(old(View())) ==> Settled(View())
    {
      hide Settled, ParksOnly, SameContents, Waiting;
      b.Reset();
      writePool := writePool + [b];
    }

    /** The address and path indications, which are queued as they are. */
    method HandleEventNotice(id: nat) returns (woken: seq<Task>)
      requires Valid()
      modifies this`events, this`eventWaiters
      ensures Valid() && (View(), woken) == OnNotice(old(View()), id)
      ensures Settled(old(View())) ==> Settled(View())
      ensures Waiting(old(View())) == Waiting(View()) + multiset(woken)
    {
      hide PoolView, Settled, ParksOnly, SameContents, Waiting;
      NewsWakesWhomItUnparks(View(), true, 0, id);
      events := events + [Notice(id)];
      woken := eventWaiters;
      eventWaiters := [];
    }
  }
}
