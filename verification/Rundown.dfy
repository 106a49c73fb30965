/**
 The rundown counter of a registration and the futures that wait for it to reach zero. Each
 atomic operation and each locked section is one step; guards and futures are unbounded.
 */
module Rundown {
  import opened Common
  import Runs

  /** `RundownState`: the counter, the next slot key, and the waker table. */
  datatype State = State(active: int, next: nat, waiters: map<nat, Task>)

  /** Where a `WaitIdle` future stands between two of its atomic operations. */
  datatype Phase =
    | Idle                // not being polled
    | Registering         // the fast-path load saw a non-zero count
    | Rechecking          // the waker is in the table, the second load is next
    | Leaving             // a load saw zero, deregistration is next

  datatype Outcome = Unpolled | WasPending | WasReady

  /** A future; `woken` says its waker has been woken since its last poll began. */
  datatype Future = Future(key: Option<nat>, task: Task, phase: Phase, outcome: Outcome, woken: bool)

  /** A guard drop that took the counter to zero: it drains the table, then wakes one waker at a time. */
  datatype GuardDrop = Draining | Waking(wakers: map<nat, Task>)

  datatype World = World(s: State, guards: set<nat>, drops: map<nat, GuardDrop>, futures: map<nat, Future>)

  datatype Step =
    | NewGuard(g: nat)
    | SubtractGuard(g: nat)
    | DrainTable(g: nat)
    | WakeOne(g: nat, key: nat)
    | EndDrop(g: nat)
    | NewFuture(f: nat)
    | Load(f: nat, cx: Task)
    | Insert(f: nat)
    | Reload(f: nat)
    | Deregister(f: nat)
    | DropFuture(f: nat)

  const INITIAL := World(State(0, 0, map[]), {}, map[], map[])

  predicate Enabled(w: World, step: Step) {
    match step
    case NewGuard(g) => g !in w.guards && g !in w.drops
    case SubtractGuard(g) => g in w.guards
    case DrainTable(g) => g in w.drops && w.drops[g] == Draining
    case WakeOne(g, key) => g in w.drops && w.drops[g].Waking? && key in w.drops[g].wakers
    case EndDrop(g) => g in w.drops && w.drops[g] == Waking(map[])
    case NewFuture(f) => f !in w.futures
    case Load(f, _) => f in w.futures && w.futures[f].phase == Idle
    case Insert(f) => f in w.futures && w.futures[f].phase == Registering
    case Reload(f) => f in w.futures && w.futures[f].phase == Rechecking
    case Deregister(f) => f in w.futures && w.futures[f].phase == Leaving
    case DropFuture(f) => f in w.futures && w.futures[f].phase == Idle
  }

  // ---- The operations of the source on the shared state ----

  function FetchAdd(s: State): State { s.(active := s.active + 1) }

  function FetchSub(s: State): State { s.(active := s.active - 1) }

  function Drained(s: State): State { s.(waiters := map[]) }

  /** The locked insert of `poll`: reuse the future's slot, or allocate the next key. */
  function Inserted(s: State, key: Option<nat>, cx: Task): (State, nat) {
    match key
    case Some(k) => (s.(waiters := s.waiters[k := cx]), k)
    case None => (s.(next := s.next + 1, waiters := s.waiters[s.next := cx]), s.next)
  }

  /** `deregister`: give the slot back, if there is one. */
  function Deregistered(s: State, key: Option<nat>): State {
    if key.Some? then s.(waiters := s.waiters - {key.value}) else s
  }

  // ---- Steps ----

  /** Waking a task wakes every future that was last polled by it. */
  function WokenBy(fs: map<nat, Future>, t: Task): map<nat, Future> {
    map f: nat | f in fs :: if fs[f].task == t then fs[f].(woken := true) else fs[f]
  }

  function Next(w: World, step: Step): World
    requires Enabled(w, step)
  {
    match step
    case NewGuard(g) => w.(s := FetchAdd(w.s), guards := w.guards + {g})
    case SubtractGuard(g) =>
      w.(s := FetchSub(w.s), guards := w.guards - {g},
         drops := if w.s.active == 1 then w.drops[g := Draining] else w.drops)
    case DrainTable(g) => w.(s := Drained(w.s), drops := w.drops[g := Waking(w.s.waiters)])
    case WakeOne(g, key) =>
      var t := w.drops[g].wakers[key];
      w.(drops := w.drops[g := Waking(w.drops[g].wakers - {key})], futures := WokenBy(w.futures, t))
    case EndDrop(g) => w.(drops := w.drops - {g})
    case NewFuture(f) => w.(futures := w.futures[f := Future(None, 0, Idle, Unpolled, false)])
    case Load(f, cx) =>
      var phase := if w.s.active == 0 then Leaving else Registering;
      w.(futures := w.futures[f := w.futures[f].(task := cx, woken := false, phase := phase)])
    case Insert(f) =>
      var (s, k) := Inserted(w.s, w.futures[f].key, w.futures[f].task);
      w.(s := s, futures := w.futures[f := w.futures[f].(key := Some(k), phase := Rechecking)])
    case Reload(f) =>
      w.(futures := w.futures[f := if w.s.active == 0 then w.futures[f].(phase := Leaving)
                                   else w.futures[f].(phase := Idle, outcome := WasPending)])
    case Deregister(f) =>
      w.(s := Deregistered(w.s, w.futures[f].key),
         futures := w.futures[f := w.futures[f].(key := None, phase := Idle, outcome := WasReady)])
    case DropFuture(f) =>
      w.(s := Deregistered(w.s, w.futures[f].key), futures := w.futures - {f})
  }

  // ---- Invariants ----

  /** The counter counts the live guards; a guard being dropped is no longer live. */
  ghost predicate Counted(w: World) {
    w.s.active == |w.guards| && w.guards !! w.drops.Keys
  }

  ghost predicate HoldsKey(w: World, f: nat, k: nat) {
    f in w.futures && w.futures[f].key == Some(k)
  }

  /** Slot keys are allocated once, never shared, and every table entry belongs to a live future. */
  ghost predicate Slotted(w: World) {
    && (forall f: nat, k: nat :: HoldsKey(w, f, k) ==> k < w.s.next)
    && (forall f: nat, g: nat, k: nat :: HoldsKey(w, f, k) && HoldsKey(w, g, k) ==> f == g)
    && (forall k: nat :: k in w.s.waiters ==> exists f: nat :: HoldsKey(w, f, k))
  }

  ghost predicate InTable(w: World, f: nat)
    requires f in w.futures
  {
    var x := w.futures[f];
    x.key.Some? && x.key.value in w.s.waiters && w.s.waiters[x.key.value] == x.task
  }

  ghost predicate InDrop(w: World, f: nat, g: nat)
    requires f in w.futures
  {
    var x := w.futures[f];
    && x.key.Some? && g in w.drops && w.drops[g].Waking?
    && x.key.value in w.drops[g].wakers && w.drops[g].wakers[x.key.value] == x.task
  }

  ghost predicate Waits(x: Future) {
    x.phase == Rechecking || (x.phase == Idle && x.outcome == WasPending)
  }

  /** The waker of a waiting future is in the table, in the hands of a drop, or has been woken. */
  ghost predicate Tracked(w: World, f: nat)
    requires f in w.futures
  {
    w.futures[f].woken || InTable(w, f) || exists g: nat :: InDrop(w, f, g)
  }

  ghost predicate DrainComing(w: World) {
    exists g: nat :: g in w.drops && w.drops[g] == Draining
  }

  /** A future that returned Pending and is still in the table will be seen by a drain yet to come. */
  ghost predicate WillBeSeen(w: World, f: nat)
    requires f in w.futures
  {
    var x := w.futures[f];
    x.phase == Idle && x.outcome == WasPending && !x.woken && InTable(w, f) ==> w.s.active > 0 || DrainComing(w)
  }

  ghost predicate Inv(w: World) {
    var holds :=
      && Counted(w) && Slotted(w)
      && (forall f: nat :: f in w.futures && Waits(w.futures[f]) ==> Tracked(w, f))
      && (forall f: nat :: f in w.futures ==> WillBeSeen(w, f));
    holds
  }

  lemma {:induction false} SlotsKept(w: World, step: Step)
    requires Slotted(w) && Enabled(w, step)
    ensures Slotted(Next(w, step))
  {
    var v := Next(w, step);
    forall k: nat | k in v.s.waiters ensures exists f: nat :: HoldsKey(v, f, k) {
      if k in w.s.waiters {
        var f :| HoldsKey(w, f, k);
        assert HoldsKey(v, f, k);
      } else {
        assert HoldsKey(v, step.f, k);
      }
    }
    forall f: nat, k: nat | HoldsKey(v, f, k) ensures k < v.s.next {
      assert HoldsKey(w, f, k) || (step == Insert(f) && k == w.s.next);
    }
    forall f: nat, g: nat, k: nat | HoldsKey(v, f, k) && HoldsKey(v, g, k) ensures f == g {
      assert HoldsKey(w, f, k) || (step == Insert(f) && k == w.s.next);
      assert HoldsKey(w, g, k) || (step == Insert(g) && k == w.s.next);
    }
  }

  /** Only a future's own steps touch its slot. */
  lemma {:induction false} OwnSlot(w: World, step: Step, f: nat)
    requires Slotted(w) && Enabled(w, step) && f in w.futures && w.futures[f].key.Some?
    requires (step.Insert? || step.Deregister? || step.DropFuture?) && step.f != f
    ensures var k := w.futures[f].key.value;
            var t := Next(w, step).s.waiters;
            (k in t <==> k in w.s.waiters) && (k in t ==> t[k] == w.s.waiters[k])
  {
    var k := w.futures[f].key.value;
    assert HoldsKey(w, f, k);
    assert w.futures[step.f].key.Some? ==> HoldsKey(w, step.f, w.futures[step.f].key.value);
  }

  lemma {:induction false} FutureTracked(w: World, step: Step, f: nat)
    requires Inv(w) && Enabled(w, step)
    requires f in Next(w, step).futures && Waits(Next(w, step).futures[f])
    ensures Tracked(Next(w, step), f)
  {
    var v := Next(w, step);
    if step.Insert? && step.f == f {
      assert InTable(v, f);
    } else {
      assert f in w.futures && Waits(w.futures[f]);
      if (step.Insert? || step.Deregister? || step.DropFuture?) && w.futures[f].key.Some? {
        OwnSlot(w, step, f);
      }
      if !w.futures[f].woken && !InTable(w, f) {
        var g: nat :| InDrop(w, f, g);
        assert InDrop(v, f, g) || v.futures[f].woken;
      } else if step.DrainTable? && InTable(w, f) {
        assert InDrop(v, f, step.g);
      }
    }
  }

  lemma {:induction false} FutureWillBeSeen(w: World, step: Step, f: nat)
    requires Inv(w) && Enabled(w, step) && f in Next(w, step).futures
    ensures WillBeSeen(Next(w, step), f)
  {
    var v := Next(w, step);
    if (step.Insert? || step.Deregister? || step.DropFuture?) && step.f != f && f in w.futures && w.futures[f].key.Some? {
      OwnSlot(w, step, f);
    }
    if DrainComing(w) && !step.DrainTable? {
      var g: nat :| g in w.drops && w.drops[g] == Draining;
      assert g in v.drops && v.drops[g] == Draining;
    }
    if step.SubtractGuard? && w.s.active == 1 {
      assert step.g in v.drops && v.drops[step.g] == Draining;
    }
    assert step.SubtractGuard? ==> |w.guards| >= 1;
    if f in w.futures {
      assert WillBeSeen(w, f);
    }
  }

  lemma {:induction false} CountKept(w: World, step: Step)
    requires Counted(w) && Enabled(w, step)
    ensures Counted(Next(w, step))
  {
  }

  lemma {:induction false} StepKeeps(w: World, step: Step)
    requires Inv(w) && Enabled(w, step)
    ensures Inv(Next(w, step))
  {
    hide Next, WillBeSeen, Tracked, Waits, Slotted;
    var v := Next(w, step);
    SlotsKept(w, step);
    CountKept(w, step);
    forall f: nat | f in v.futures && Waits(v.futures[f]) ensures Tracked(v, f) {
      FutureTracked(w, step, f);
    }
    forall f: nat | f in v.futures ensures WillBeSeen(v, f) {
      FutureWillBeSeen(w, step, f);
    }
  }

  // ---- Runs ----

  ghost predicate Moves(w: World, step: Step, v: World) {
    Enabled(w, step) && v == Next(w, step)
  }

  ghost predicate Reachable(v: World) {
    exists steps: seq<Step> :: Runs.Leads(Moves, INITIAL, steps, v)
  }

  lemma {:induction false} ReachableHolds(w: World)
    requires Reachable(w)
    ensures Inv(w)
  {
    var steps: seq<Step> :| Runs.Leads(Moves, INITIAL, steps, w);
    assert Inv(INITIAL);
    hide Inv, Next, Enabled;
    forall a: World, s: Step, b: World | Inv(a) && Moves(a, s, b) ensures Inv(b) {
      StepKeeps(a, s);
    }
    Runs.Keeps(Moves, Inv, INITIAL, steps, w);
  }

  // ---- Main results, for every reachable state ----

  /** No lost wakeup: once the count is zero and no drop is half done, every future that
      returned Pending has been woken, whatever the count did in between. */
  lemma {:induction false} NoLostWakeup(w: World, f: nat)
    requires Reachable(w) && w.s.active == 0 && w.drops == map[]
    requires f in w.futures && w.futures[f].phase == Idle && w.futures[f].outcome == WasPending
    ensures w.futures[f].woken
  {
    ReachableHolds(w);
    assert Tracked(w, f) && WillBeSeen(w, f);
  }

  /** The counter is the number of live guards in every reachable state, so a decrement never underflows. */
  lemma {:induction false} CounterIsExact(w: World)
    requires Reachable(w)
    ensures w.s.active == |w.guards|
    ensures w.guards != {} ==> w.s.active >= 1
    ensures forall g: nat :: g in w.drops ==> g !in w.guards
  {
    ReachableHolds(w);
    if w.guards != {} {
      var g :| g in w.guards;
      assert |w.guards| == |w.guards - {g}| + 1;
    }
  }

  /** Every table entry belongs to exactly one live future; a dropped future leaves none. */
  lemma {:induction false} SlotsArePrivate(w: World, k: nat)
    requires Reachable(w) && k in w.s.waiters
    ensures exists f: nat :: HoldsKey(w, f, k) && forall g: nat :: HoldsKey(w, g, k) ==> g == f
  {
    ReachableHolds(w);
    var f :| HoldsKey(w, f, k);
    assert forall g: nat :: HoldsKey(w, g, k) ==> g == f;
  }

  /** The count and the futures are as they were, except that some more may have been woken. */
  ghost predicate OnlyWoken(w: World, v: World) {
    var holds :=
      && v.s.active == w.s.active && v.futures.Keys == w.futures.Keys
      && forall f: nat :: f in w.futures ==> v.futures[f] == w.futures[f].(woken := v.futures[f].woken);
    holds
  }

  /** What is left to do of a guard drop. */
  ghost function Left(d: GuardDrop): (nat, nat) {
    if d == Draining then (1, 0) else (0, |d.wakers|)
  }

  /** A guard drop in progress can make its next move: drain, or wake one more. */
  lemma {:induction false} DropMoves(w: World, g: nat) returns (step: Step)
    requires g in w.drops && w.drops[g] != Waking(map[])
    ensures Enabled(w, step)
    ensures var v := Next(w, step);
            && g in v.drops && v.drops - {g} == w.drops - {g} && OnlyWoken(w, v)
            && (Left(v.drops[g]).0 < Left(w.drops[g]).0
                || (Left(v.drops[g]).0 == Left(w.drops[g]).0 && Left(v.drops[g]).1 < Left(w.drops[g]).1))
  {
    if w.drops[g] == Draining {
      step := DrainTable(g);
    } else {
      var key :| key in w.drops[g].wakers;
      step := WakeOne(g, key);
      assert (w.drops[g].wakers - {key}).Keys == w.drops[g].wakers.Keys - {key};
    }
  }

  /** A guard drop in progress can always run to its end by itself. */
  lemma {:induction false} FinishDrop(w: World, g: nat) returns (steps: seq<Step>, v: World)
    requires g in w.drops
    ensures Runs.Leads(Moves, w, steps, v)
    ensures v.drops == w.drops - {g} && OnlyWoken(w, v)
    decreases Left(w.drops[g]).0, Left(w.drops[g]).1
  {
    if w.drops[g] == Waking(map[]) {
      steps, v := [EndDrop(g)], Next(w, EndDrop(g));
      Runs.One(Moves, w, EndDrop(g), v);
    } else {
      hide Next, Enabled, Left;
      var step := DropMoves(w, g);
      var m := Next(w, step);
      Runs.One(Moves, w, step, m);
      var tail;
      tail, v := FinishDrop(m, g);
      steps := [step] + tail;
      Runs.Join(Moves, w, [step], m, tail, v);
    }
  }

  lemma {:induction false} FinishDrops(w: World) returns (steps: seq<Step>, v: World)
    ensures Runs.Leads(Moves, w, steps, v) && v.drops == map[] && OnlyWoken(w, v)
    decreases |w.drops|
  {
    hide Next, Enabled;
    if w.drops == map[] {
      steps, v := [], w;
      Runs.Stay<World, Step>(Moves, w);
    } else {
      var g :| g in w.drops;
      var head, m := FinishDrop(w, g);
      assert m.drops.Keys == w.drops.Keys - {g};
      var tail;
      tail, v := FinishDrops(m);
      steps := head + tail;
      Runs.Join(Moves, w, head, m, tail, v);
    }
  }

  /** From any reachable state with a zero count, the drops under way alone wake everyone who waits. */
  lemma {:induction false} EveryWakeupArrives(w: World) returns (steps: seq<Step>, v: World)
    requires Reachable(w) && w.s.active == 0
    ensures Runs.Leads(Moves, w, steps, v) && v.drops == map[] && OnlyWoken(w, v)
    ensures forall f: nat :: f in v.futures && v.futures[f].phase == Idle && v.futures[f].outcome == WasPending
              ==> v.futures[f].woken
  {
    hide Next, Enabled, Inv;
    var past: seq<Step> :| Runs.Leads(Moves, INITIAL, past, w);
    steps, v := FinishDrops(w);
    Runs.Join(Moves, INITIAL, past, w, steps, v);
    forall f: nat | f in v.futures && v.futures[f].phase == Idle && v.futures[f].outcome == WasPending
      ensures v.futures[f].woken
    {
      NoLostWakeup(v, f);
    }
  }

  /** The second load is needed: the count can reach zero, and be drained, between the first load
      and the insert. This future would sleep for ever; its second load makes it leave instead. */
  lemma {:induction false} RecheckIsNeeded() returns (w: World)
    ensures Reachable(w) && w.s.active == 0 && w.drops == map[]
    ensures 0 in w.futures && w.futures[0].phase == Rechecking && !w.futures[0].woken
    ensures Next(w, Reload(0)).futures[0].phase == Leaving
  {
    w := INITIAL;
    Runs.Stay<World, Step>(Moves, w);
    w := Reach(w, NewGuard(0));
    w := Reach(w, NewFuture(0));
    w := Reach(w, Load(0, 7));
    assert w == World(State(1, 0, map[]), {0}, map[], map[0 := Future(None, 7, Registering, Unpolled, false)]);
    w := Reach(w, SubtractGuard(0));
    w := Reach(w, DrainTable(0));
    w := Reach(w, EndDrop(0));
    assert w == World(State(0, 0, map[]), {}, map[], map[0 := Future(None, 7, Registering, Unpolled, false)]);
    w := Reach(w, Insert(0));
  }

  /** One more step of a witness run. */
  lemma {:induction false} Reach(w: World, step: Step) returns (v: World)
    requires Reachable(w) && Enabled(w, step)
    ensures Reachable(v) && v == Next(w, step)
  {
    hide Next, Enabled;
    var steps: seq<Step> :| Runs.Leads(Moves, INITIAL, steps, w);
    v := Next(w, step);
    Runs.Then(Moves, INITIAL, steps, w, step, v);
  }

  // ---- One poll against its environment ----

  /** What other threads do to the shared state between two atomic operations of one poll: take a guard,
      subtract one, drain the table for a subtraction that reached zero, insert or remove another future's waker. */
  datatype Op = Take | Subtract | Drain | OtherInsert(key: Option<nat>, cx: Task) | OtherRemove(slot: nat)

  function Applied1(s: State, op: Op): State {
    match op
    case Take => FetchAdd(s)
    case Subtract => FetchSub(s)
    case Drain => Drained(s)
    case OtherInsert(key, cx) => Inserted(s, key, cx).0
    case OtherRemove(slot) => Deregistered(s, Some(slot))
  }

  /** The state after those operations, and the wakers the drains among them took and woke. */
  function Applied(s: State, ops: seq<Op>): (State, set<Task>) {
    if ops == [] then (s, {})
    else
      var n := |ops| - 1;
      var (t, woken) := Applied(s, ops[..n]);
      (Applied1(t, ops[n]), if ops[n].Drain? then woken + t.waiters.Values else woken)
  }

  /** The others work on their own slots; a fresh slot is never one that was handed out. */
  predicate Foreign(op: Op, k: nat) {
    match op
    case OtherInsert(key, _) => key != Some(k)
    case OtherRemove(slot) => slot != k
    case _ => true
  }

  /** What others do between the atomic operations of one poll: before its insert, between the insert and
      the second load, and between the load that saw zero and the removal of its slot. */
  datatype Interference = Interference(first: seq<Op>, second: seq<Op>, last: seq<Op>)

  const UNDISTURBED := Interference([], [], [])

  /** The state at the second load, and the slot the insert used. */
  function AtReload(s: State, key: Option<nat>, cx: Task, o: Interference): (State, nat) {
    var (t, k) := Inserted(Applied(s, o.first).0, key, cx);
    (Applied(t, o.second).0, k)
  }

  /** One poll against its environment. */
  function Polled(s: State, key: Option<nat>, cx: Task, o: Interference): (State, Option<nat>, Poll<()>) {
    if s.active == 0 then (Deregistered(Applied(s, o.last).0, key), None, Ready(()))
    else
      var (u, k) := AtReload(s, key, cx, o);
      if u.active == 0 then (Deregistered(Applied(u, o.last).0, Some(k)), None, Ready(())) else (u, Some(k), Pending)
  }

  /** A waker put in a slot of one's own is still there, or one of the drains that followed woke it. */
  lemma {:induction false} StaysOrIsWoken(t: State, ops: seq<Op>, k: nat, cx: Task)
    requires k in t.waiters && t.waiters[k] == cx && k < t.next
    requires forall i :: 0 <= i < |ops| ==> Foreign(ops[i], k)
    ensures var (u, woken) := Applied(t, ops);
            && t.next <= u.next && ((k in u.waiters && u.waiters[k] == cx) || cx in woken)
  {
    if ops != [] {
      var n := |ops| - 1;
      StaysOrIsWoken(t, ops[..n], k, cx);
      var (v, _) := Applied(t, ops[..n]);
      assert k in v.waiters ==> v.waiters[k] in v.waiters.Values;
    }
  }

  /** A poll that returns Pending saw a non-zero count last, and its waker is in its own slot or already woken. */
  lemma {:induction false} PendingIsCovered(s: State, key: Option<nat>, cx: Task, o: Interference)
    requires Polled(s, key, cx, o).2.Pending?
    requires key.Some? ==> key.value < Applied(s, o.first).0.next
    requires forall i :: 0 <= i < |o.second| ==> Foreign(o.second[i], AtReload(s, key, cx, o).1)
    ensures var (u, k, _) := Polled(s, key, cx, o);
            && u.active != 0 && k.Some? && (key.Some? ==> k == key)
            && ((k.value in u.waiters && u.waiters[k.value] == cx)
                || cx in Applied(Inserted(Applied(s, o.first).0, key, cx).0, o.second).1)
  {
    var (t, k) := Inserted(Applied(s, o.first).0, key, cx);
    StaysOrIsWoken(t, o.second, k, cx);
  }

  /** A poll returns Ready exactly if it saw a count of zero at one of its loads, and then holds no slot any more. */
  lemma {:induction false} ReadyLeavesNothing(s: State, key: Option<nat>, cx: Task, o: Interference)
    ensures Polled(s, key, cx, o).2.Ready? <==> s.active == 0 || AtReload(s, key, cx, o).0.active == 0
    ensures var (u, k, r) := Polled(s, key, cx, o);
            r.Ready? ==>
            && k == None && (key.Some? ==> key.value !in u.waiters)
            && (s.active != 0 ==> AtReload(s, key, cx, o).1 !in u.waiters)
  {
  }

  /** The window the second load closes: the count reaches zero before the insert, and the table is drained
      only after it, or has been already. In both cases the poll returns Ready and leaves nothing behind. */
  lemma {:induction false} ZeroBeforeTheInsert(s: State, cx: Task)
    requires s.active == 1
    ensures Polled(s, None, cx, Interference([Subtract], [], [Drain])) == (State(0, s.next + 1, map[]), None, Ready(()))
    ensures Polled(s, None, cx, Interference([Subtract, Drain], [], [])) == (State(0, s.next + 1, map[]), None, Ready(()))
  {
    var t := FetchSub(s);
    Applied2(s, Subtract, Drain);
    assert Applied(s, []) == (s, {}) && [Subtract][..0] == [];
    assert Applied(s, [Subtract]).0 == t;
    var u := Inserted(t, None, cx).0;
    assert Applied(u, []) == (u, {}) && [Drain][..0] == [];
    assert Applied(u, [Drain]).0 == Drained(u);
    var v := Inserted(Drained(t), None, cx).0;
    assert Applied(v, []) == (v, {});
    assert v.waiters - {s.next} == map[];
    var none: map<nat, Task> := map[];
    assert none - {s.next} == none;
  }

  lemma {:induction false} Applied2(s: State, a: Op, b: Op)
    ensures Applied(s, [a, b]).0 == Applied1(Applied1(s, a), b)
  {
    assert [a, b][..1] == [a] && [a][..0] == [];
    assert Applied(s, []) == (s, {});
    assert Applied(s, [a]).0 == Applied1(s, a);
  }

  /** The undisturbed poll is the composition of its atomic steps. */
  lemma {:induction false} PollIsItsSteps(w: World, f: nat, cx: Task)
    requires f in w.futures && w.futures[f].phase == Idle
    ensures var (s, key, r) := Polled(w.s, w.futures[f].key, cx, UNDISTURBED);
            var loaded := Next(w, Load(f, cx));
            var v := if r.Ready? then Next(loaded, Deregister(f)) else Next(Next(loaded, Insert(f)), Reload(f));
            && v.s == s && f in v.futures && v.futures[f].key == key && v.futures[f].phase == Idle
            && v.futures[f].outcome == (if r.Ready? then WasReady else WasPending)
  {
    var loaded := Next(w, Load(f, cx));
    assert Applied(w.s, []) == (w.s, {});
    if w.s.active != 0 {
      var (t, k) := Inserted(w.s, w.futures[f].key, cx);
      assert Applied(t, []) == (t, {});
      assert Next(loaded, Insert(f)).s == t;
    }
  }

  // ---- The objects of the source ----

  /** `RundownState`; each method is one atomic operation or one locked section. */
  class RundownState {
    var active: int
    var next: nat
    var waiters: map<nat, Task>

    ghost function View(): State
      reads this
    {
      State(active, next, waiters)
    }

    constructor ()
      ensures View() == INITIAL.s
    {
      active, next, waiters := 0, 0, map[];
    }

    /** `RundownGuard::new`. */
    method NewGuard()
      modifies this`active
      ensures View() == FetchAdd(old(View()))
    {
      active := active + 1;
    }

    /** The `fetch_sub` of a guard drop; who took the count to zero owes a drain. */
    method SubtractGuard() returns (last: bool)
      modifies this`active
      ensures View() == FetchSub(old(View())) && (last <==> active == 0)
    {
      var previous := active;
      active := active - 1;
      last := previous == 1;
    }

    /** The locked section of a guard drop; what it returns is woken after the lock is released. */
    method DrainTable() returns (wakers: map<nat, Task>)
      modifies this`waiters
      ensures View() == Drained(old(View())) && wakers == old(waiters)
    {
      wakers := waiters;
      waiters := map[];
    }

    /** The locked insert of a poll. */
    method InsertWaker(key: Option<nat>, cx: Task) returns (slot: nat)
      modifies this`next, this`waiters
      ensures (View(), slot) == Inserted(old(View()), key, cx)
    {
      match key {
        case Some(k) => slot := k;
        case None =>
          slot := next;
          next := next + 1;
      }
      waiters := waiters[slot := cx];
    }

    /** The locked removal of `deregister`. */
    method RemoveWaker(key: nat)
      modifies this`waiters
      ensures View() == Deregistered(old(View()), Some(key))
    {
      waiters := waiters - {key};
    }

    /** What other threads get done, one atomic operation at a time. */
    method Interfere(ops: seq<Op>)
      modifies this
      ensures View() == Applied(old(View()), ops).0
    {
      for i := 0 to |ops|
        invariant View() == Applied(old(View()), ops[..i]).0
      {
        assert ops[..i + 1][..i] == ops[..i];
        match ops[i] {
          case Take => NewGuard();
          case Subtract => var _ := SubtractGuard();
          case Drain => var _ := DrainTable();
          case OtherInsert(key, cx) => var _ := InsertWaker(key, cx);
          case OtherRemove(slot) => RemoveWaker(slot);
        }
      }
      assert ops[..|ops|] == ops;
    }
  }

  /** A guard drop alone: it hands the whole table to whoever it wakes exactly if it was the last. */
  method DropGuard(state: RundownState, before: seq<Op>) returns (woken: map<nat, Task>)
    modifies state
    ensures var s := FetchSub(old(state.View()));
            if s.active == 0 then
              state.View() == Drained(Applied(s, before).0) && woken == Applied(s, before).0.waiters
            else state.View() == s && woken == map[]
  {
    woken := map[];
    var last := state.SubtractGuard();
    if last {
      state.Interfere(before);
      woken := state.DrainTable();
    }
  }

  /** `WaitIdle`, polled and dropped by one thread at a time. */
  class WaitIdle {
    const state: RundownState
    var key: Option<nat>

    constructor (state: RundownState)
      ensures this.state == state && key == None
    {
      this.state := state;
      key := None;
    }

    method Deregister()
      modifies this, state
      ensures state.View() == Deregistered(old(state.View()), old(key)) && key == None
    {
      if key.Some? {
        state.RemoveWaker(key.value);
        key := None;
      }
    }

    /** `o` is what other threads get done between the atomic operations of this poll. */
    method Poll(cx: Task, o: Interference) returns (r: Poll<()>)
      modifies this, state
      ensures (state.View(), key, r) == Polled(old(state.View()), old(key), cx, o)
    {
      if state.active == 0 {
        state.Interfere(o.last);
        Deregister();
        return Ready(());
      }
      state.Interfere(o.first);
      var slot := state.InsertWaker(key, cx);
      key := Some(slot);
      state.Interfere(o.second);
      if state.active == 0 {
        state.Interfere(o.last);
        Deregister();
        return Ready(());
      }
      return Pending;
    }

    /** `Drop` of the future. */
    method Drop()
      modifies this, state
      ensures state.View() == Deregistered(old(state.View()), old(key)) && key == None
    {
      Deregister();
    }
  }
}
