/** A listener: starting, accepting in order of arrival, and stopping in two steps. */
module Listener {
  import opened Common
  import opened Sync
  import Runs

  datatype State = Open | StartComplete | Shutdown | ShutdownComplete

  datatype ListenError = NotStarted | AlreadyStarted | Finished | OtherError(status: nat)

  datatype Listen = Listen(state: State, newConnections: seq<nat>, newConnectionWaiters: seq<Task>, shutdownCompleteWaiters: seq<Task>)

  const NEW := Listen(Open, [], [], [])

  // ---- What every call and event keeps ----

  /** Each waiter list is in use only while its answer is still to come. */
  ghost predicate WaitersIdle(l: Listen) {
    var holds :=
      var holds :=
        && (l.newConnectionWaiters != [] ==> l.newConnections == [] && (l.state == StartComplete || l.state == Shutdown))
        && (l.shutdownCompleteWaiters != [] ==> l.state == Shutdown)
        && Distinct(l.newConnectionWaiters) && Distinct(l.shutdownCompleteWaiters);
      holds;
    holds
  }

  ghost function Parked(l: Listen): multiset<Task> {
    multiset(l.newConnectionWaiters) + multiset(l.shutdownCompleteWaiters)
  }

  // ---- Calls and events on values ----

  /** `start` and `start_on_port`; `refused` is the status of the native start, if it fails. */
  function StartNow(l: Listen, refused: Option<nat>): (r: (Listen, Result<(), ListenError>))
    ensures r.1.Ok? <==> refused.None? && l.state != StartComplete && l.state != Shutdown
    ensures r.1.Err? ==> r.0 == l
    ensures WaitersIdle(l) ==> WaitersIdle(r.0)
    ensures r.1 == Err(AlreadyStarted) <==> l.state == StartComplete || l.state == Shutdown
    ensures r.1.Err? && r.1 != Err(AlreadyStarted) ==> r.1.error.OtherError? && refused == Some(r.1.error.status)
  {
    match l.state
    case StartComplete => (l, Err(AlreadyStarted))
    case Shutdown => (l, Err(AlreadyStarted))
    case _ =>
      if refused.Some? then (l, Err(OtherError(refused.value))) else (l.(state := StartComplete), Ok(()))
  }

  function Accept(l: Listen, cx: Task): (r: (Listen, Poll<Result<nat, ListenError>>))
    ensures r.1.Ready? && r.1.value.Ok? ==> l.newConnections == [r.1.value.value] + r.0.newConnections
    ensures r.1.Pending? ==> l.newConnections == [] && cx in r.0.newConnectionWaiters
    ensures WaitersIdle(l) ==> WaitersIdle(r.0)
    ensures r.1.Pending? <==> l.newConnections == [] && (l.state == StartComplete || l.state == Shutdown)
    ensures r.1 == Ready(Err(NotStarted)) <==> l.newConnections == [] && l.state == Open
    ensures r.1 == Ready(Err(Finished)) <==> l.newConnections == [] && l.state == ShutdownComplete
  {
    if l.newConnections != [] then (l.(newConnections := l.newConnections[1..]), Ready(Ok(l.newConnections[0])))
    else
      match l.state
      case Open => (l, Ready(Err(NotStarted)))
      case ShutdownComplete => (l, Ready(Err(Finished)))
      case _ => (l.(newConnectionWaiters := Registered(l.newConnectionWaiters, cx)), Pending)
  }

  /** `poll_stop`; the last result says that the native stop is called once the lock is released. */
  function Stop(l: Listen, cx: Task): (r: (Listen, Poll<Result<(), ListenError>>, bool))
    ensures r.1.Pending? ==> r.0.state == Shutdown && cx in r.0.shutdownCompleteWaiters
    ensures r.2 <==> l.state == StartComplete
    ensures WaitersIdle(l) ==> WaitersIdle(r.0)
    ensures r.1.Pending? <==> l.state == StartComplete || l.state == Shutdown
    ensures r.1 == Ready(Err(NotStarted)) <==> l.state == Open
    ensures r.1 == Ready(Ok(())) <==> l.state == ShutdownComplete
  {
    match l.state
    case Open => (l, Ready(Err(NotStarted)), false)
    case ShutdownComplete => (l, Ready(Ok(())), false)
    case _ =>
      (l.(state := Shutdown, shutdownCompleteWaiters := Registered(l.shutdownCompleteWaiters, cx)), Pending, l.state == StartComplete)
  }

  /** `NewConnection`, once the configuration has been applied. */
  function OnNewConnection(l: Listen, conn: nat): (r: (Listen, seq<Task>))
    ensures Parked(l) == Parked(r.0) + multiset(r.1)
    ensures WaitersIdle(l) ==> WaitersIdle(r.0)
  {
    (l.(newConnections := l.newConnections + [conn], newConnectionWaiters := []), l.newConnectionWaiters)
  }

  function OnStopComplete(l: Listen): (r: (Listen, seq<Task>))
    ensures Parked(r.0) == multiset{} && Parked(l) == multiset(r.1)
    ensures WaitersIdle(l) ==> WaitersIdle(r.0)
  {
    (l.(state := ShutdownComplete, newConnectionWaiters := [], shutdownCompleteWaiters := []),
     l.newConnectionWaiters + l.shutdownCompleteWaiters)
  }

  // ---- The object of the source ----

  class ListenerInnerExclusive {
    var state: State
    var newConnections: seq<nat>
    var newConnectionWaiters: seq<Task>
    var shutdownCompleteWaiters: seq<Task>

    ghost function View(): Listen
      reads this
    {
      Listen(state, newConnections, newConnectionWaiters, shutdownCompleteWaiters)
    }

    constructor ()
      ensures View() == NEW
    {
      state, newConnections, newConnectionWaiters, shutdownCompleteWaiters := Open, [], [], [];
    }

    method Start(refused: Option<nat>) returns (r: Result<(), ListenError>)
      modifies this`state
      ensures (View(), r) == StartNow(old(View()), refused)
      ensures WaitersIdle(old(View())) ==> WaitersIdle(View())
    {
      match state {
        case Open =>
        case ShutdownComplete =>
        case _ => return Err(AlreadyStarted);
      }
      if refused.Some? {
        return Err(OtherError(refused.value));
      }
      state := StartComplete;
      r := Ok(());
    }

    method PollAccept(cx: Task) returns (r: Poll<Result<nat, ListenError>>)
      modifies this`newConnections, this`newConnectionWaiters
      ensures (View(), r) == Accept(old(View()), cx)
      ensures WaitersIdle(old(View())) ==> WaitersIdle(View())
    {
      if newConnections != [] {
        r := Ready(Ok(newConnections[0]));
        newConnections := newConnections[1..];
        return;
      }
      match state {
        case Open => return Ready(Err(NotStarted));
        case ShutdownComplete => return Ready(Err(Finished));
        case _ =>
      }
      newConnectionWaiters := RegisterWaker(newConnectionWaiters, cx);
      r := Pending;
    }

    /** The locked part of `poll_stop`; `callStop` asks for the native stop after the lock is released. */
    method PollStop(cx: Task) returns (r: Poll<Result<(), ListenError>>, callStop: bool)
      modifies this`state, this`shutdownCompleteWaiters
      ensures (View(), r, callStop) == Stop(old(View()), cx)
      ensures WaitersIdle(old(View())) ==> WaitersIdle(View())
    {
      callStop := false;
      match state {
        case Open => return Ready(Err(NotStarted)), false;
        case StartComplete =>
          callStop := true;
          state := Shutdown;
        case Shutdown =>
        case ShutdownComplete => return Ready(Ok(())), false;
      }
      shutdownCompleteWaiters := RegisterWaker(shutdownCompleteWaiters, cx);
      r := Pending;
    }

    method HandleEventNewConnection(conn: nat) returns (woken: seq<Task>)
      modifies this`newConnections, this`newConnectionWaiters
      ensures (View(), woken) == OnNewConnection(old(View()), conn)
      ensures Parked(old(View())) == Parked(View()) + multiset(woken)
      ensures WaitersIdle(old(View())) ==> WaitersIdle(View())
    {
      newConnections := newConnections + [conn];
      woken := newConnectionWaiters;
      newConnectionWaiters := [];
    }

    method HandleEventStopComplete() returns (woken: seq<Task>)
      modifies this`state, this`newConnectionWaiters, this`shutdownCompleteWaiters
      ensures (View(), woken) == OnStopComplete(old(View()))
      ensures Parked(old(View())) == Parked(View()) + multiset(woken)
      ensures WaitersIdle(old(View())) ==> WaitersIdle(View())
    {
      state := ShutdownComplete;
      woken := newConnectionWaiters + shutdownCompleteWaiters;
      newConnectionWaiters, shutdownCompleteWaiters := [], [];
    }
  }

  // ---- Every interleaving ----

  /** The native listener: MsQuic completes each session it started with one StopComplete. */
  datatype Native = Idle | Listening | Stopping

  /** `stopsDue` counts the native stops decided under the lock and not called yet. */
  datatype World = World(l: Listen, native: Native, stopsDue: nat, arrived: seq<nat>, accepted: seq<nat>)

  datatype Step =
    | StepStart(refused: Option<nat>)
    | StepAccept(cx: Task)
    | StepStop(cx: Task)
    | CallNativeStop
    | EventNewConnection(conn: nat)
    | EventStopComplete

  const INITIAL := World(NEW, Idle, 0, [], [])

  predicate Enabled(w: World, step: Step) {
    match step
    // a native start succeeds only on an idle listener
    case StepStart(refused) => refused.None? && StartNow(w.l, None).1.Ok? ==> w.native == Idle
    case StepAccept(_) => true
    case StepStop(_) => true
    case CallNativeStop => w.stopsDue > 0
    case EventNewConnection(_) => w.native != Idle
    // asked for by a stop, or by the shutdown of the whole registration
    case EventStopComplete => w.native != Idle
  }

  function Next(w: World, step: Step): World
    requires Enabled(w, step)
  {
    match step
    case StepStart(refused) =>
      var (l, r) := StartNow(w.l, refused);
      w.(l := l, native := if r.Ok? then Listening else w.native)
    case StepAccept(cx) =>
      var (l, r) := Accept(w.l, cx);
      w.(l := l, accepted := if r.Ready? && r.value.Ok? then w.accepted + [r.value.value] else w.accepted)
    case StepStop(cx) =>
      var (l, _, call) := Stop(w.l, cx);
      w.(l := l, stopsDue := if call then w.stopsDue + 1 else w.stopsDue)
    case CallNativeStop =>
      w.(stopsDue := w.stopsDue - 1, native := if w.native == Listening then Stopping else w.native)
    case EventNewConnection(conn) => w.(l := OnNewConnection(w.l, conn).0, arrived := w.arrived + [conn])
    case EventStopComplete => w.(l := OnStopComplete(w.l).0, native := Idle)
  }

  /** The state agrees with the native listener; a listener in Shutdown has a StopComplete coming. */
  ghost predicate NativeAgrees(w: World) {
    match w.l.state
    case Open => w.native == Idle
    case StartComplete => w.native != Idle
    case Shutdown => w.native == Stopping || (w.native == Listening && w.stopsDue > 0)
    case ShutdownComplete => w.native == Idle
  }

  ghost predicate Inv(w: World) {
    var holds :=
      WaitersIdle(w.l) && NativeAgrees(w) && w.arrived == w.accepted + w.l.newConnections;
    holds
  }

  lemma {:induction false} AccountKept(w: World, step: Step)
    requires w.arrived == w.accepted + w.l.newConnections && Enabled(w, step)
    ensures Next(w, step).arrived == Next(w, step).accepted + Next(w, step).l.newConnections
  {
    hide WaitersIdle, Parked;
    if step.StepAccept? && w.l.newConnections != [] {
      assert w.accepted + [w.l.newConnections[0]] + w.l.newConnections[1..] == w.accepted + w.l.newConnections;
    }
  }

  lemma {:induction false} NativeKept(w: World, step: Step)
    requires NativeAgrees(w) && Enabled(w, step)
    ensures NativeAgrees(Next(w, step))
  {
    hide WaitersIdle, Parked, Registered;
  }

  lemma {:induction false} StepKeeps(w: World, step: Step)
    requires Inv(w) && Enabled(w, step)
    ensures Inv(Next(w, step))
  {
    AccountKept(w, step);
    NativeKept(w, step);
    hide WaitersIdle, Parked, NativeAgrees, StartNow, Accept, Stop, OnNewConnection, OnStopComplete;
  }

  ghost predicate Moves(w: World, step: Step, v: World) {
    Enabled(w, step) && v == Next(w, step)
  }

  ghost predicate Reachable(v: World) {
    exists steps: seq<Step> :: Runs.Leads(Moves, INITIAL, steps, v)
  }

  lemma {:induction false} ReachableHolds(w: World)
    requires Reachable(w)
    ensures Inv(w)
  {
    var steps: seq<Step> :| Runs.Leads(Moves, INITIAL, steps, w);
    forall a: World, s: Step, b: World | Inv(a) && Moves(a, s, b) ensures Inv(b) {
      StepKeeps(a, s);
    }
    Runs.Keeps(Moves, Inv, INITIAL, steps, w);
  }

  // ---- Main results, for every reachable state ----

  /** Connections come out once each, in order of arrival, across restarts;
      Finished is answered only when all of them have come out. */
  lemma {:induction false} AcceptedInOrder(w: World, cx: Task)
    requires Reachable(w)
    ensures w.accepted <= w.arrived && w.arrived[|w.accepted|..] == w.l.newConnections
    ensures Accept(w.l, cx).1 == Ready(Err(Finished)) ==> w.accepted == w.arrived
  {
    ReachableHolds(w);
  }

  /** Until it is started again, a finished listener stays finished. */
  lemma {:induction false} FinishedStaysFinished(w: World, step: Step, cx: Task)
    requires Reachable(w) && Enabled(w, step) && Accept(w.l, cx).1 == Ready(Err(Finished)) && !step.StepStart?
    ensures Accept(Next(w, step).l, cx).1 == Ready(Err(Finished)) && Next(w, step).arrived == w.arrived
  {
    ReachableHolds(w);
  }

  /** Polled again, a parked task would park again: nobody sleeps on an answer. */
  lemma {:induction false} SleepersWouldSleepOn(w: World, t: Task)
    requires Reachable(w)
    ensures t in w.l.newConnectionWaiters ==> Accept(w.l, t) == (w.l, Pending)
    ensures t in w.l.shutdownCompleteWaiters ==> Stop(w.l, t) == (w.l, Pending, false)
    ensures WaitersIdle(w.l)
  {
    ReachableHolds(w);
  }

  /** A stop that is waited for completes: at most the native stop still due and MsQuic's
      StopComplete separate it from ShutdownComplete with nobody left parked. */
  lemma {:induction false} StopCompletes(w: World) returns (steps: seq<Step>, v: World)
    requires Reachable(w) && w.l.state == Shutdown
    ensures steps == [EventStopComplete] || steps == [CallNativeStop, EventStopComplete]
    ensures Runs.Leads(Moves, w, steps, v) && v.l.state == ShutdownComplete
    ensures v.l.newConnectionWaiters == [] && v.l.shutdownCompleteWaiters == [] && v.l.newConnections == w.l.newConnections
  {
    ReachableHolds(w);
    if w.native == Stopping {
      v := Next(w, EventStopComplete);
      steps := [EventStopComplete];
      Runs.One(Moves, w, EventStopComplete, v);
    } else {
      var u := Next(w, CallNativeStop);
      v := Next(u, EventStopComplete);
      Runs.One(Moves, w, CallNativeStop, u);
      Runs.Then(Moves, w, [CallNativeStop], u, EventStopComplete, v);
      steps := [CallNativeStop] + [EventStopComplete];
    }
  }

  // ---- Where the guarantees end ----

  /** A native stop decided for an earlier session would now stop this one, which nobody is stopping. */
  predicate LateStopPossible(w: World) {
    (w.stopsDue > 0, w.native, w.l.state) == (true, Listening, StartComplete)
  }

  /** The native stop runs after the lock is released. It can come too late exactly because the listener
      is started again, with success, while an earlier `poll_stop` has not made its native call yet. */
  lemma {:induction false} LateStop(w: World, step: Step)
    requires Reachable(w) && Enabled(w, step) && !LateStopPossible(w)
    ensures LateStopPossible(Next(w, step))
       <==> step.StepStart? && StartNow(w.l, step.refused).1.Ok? && w.stopsDue > 0
  {
    ReachableHolds(w);
  }

  /** What it does then: the session ends although its state says that it is running. */
  lemma {:induction false} LateStopStopsTheWrongSession(w: World, cx: Task)
    requires LateStopPossible(w)
    ensures Enabled(w, CallNativeStop)
    ensures var v := Next(w, CallNativeStop);
            && v.native == Stopping && v.l.state == StartComplete
            && Enabled(v, EventStopComplete)
            && (w.l.newConnections == [] ==> Accept(Next(v, EventStopComplete).l, cx).1 == Ready(Err(Finished)))
  {
  }

  lemma {:induction false} ReachNext(w: World, step: Step)
    requires Reachable(w) && Enabled(w, step)
    ensures Reachable(Next(w, step))
  {
    var steps: seq<Step> :| Runs.Leads(Moves, INITIAL, steps, w);
    Runs.Then(Moves, INITIAL, steps, w, step, Next(w, step));
  }

  lemma {:induction false} LateStopHappens(cx: Task) returns (w: World)
    ensures Reachable(w) && LateStopPossible(w)
  {
    var steps: seq<Step> := [];
    Runs.Stay<World, Step>(Moves, INITIAL);
    assert Runs.Leads(Moves, INITIAL, steps, INITIAL);
    ReachNext(INITIAL, StepStart(None));
    w := Next(INITIAL, StepStart(None));
    ReachNext(w, StepStop(cx));
    w := Next(w, StepStop(cx));
    ReachNext(w, EventStopComplete);
    w := Next(w, EventStopComplete);
    ReachNext(w, StepStart(None));
    w := Next(w, StepStart(None));
  }
}
