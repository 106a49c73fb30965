/**
 Where the rundown guards of connections, listeners and streams sit, and what the drop order of their
 structs is for. An instance is its fields, dropped front to back once its last reference is gone; the
 native handle owns the callback closure, the closure and the `inner` field share the `Inner` object,
 and `Inner` owns the queue of children that nobody has accepted yet.
 */
module RundownHandles {
  import opened Common
  import Rundown
  import Runs

  datatype Field = InnerField | NativeField | GuardField

  /** `inner`, then the native handle, then `_guard`: the order in which all three structs declare them. */
  const SOURCE_ORDER := [InnerField, NativeField, GuardField]

  /** Where a field stands in the order. */
  function At(order: seq<Field>, f: Field): (k: nat)
    ensures Permutation(order) ==> k < 3 && order[k] == f
  {
    if |order| > 0 && order[0] == f then 0 else if |order| > 1 && order[1] == f then 1 else 2
  }

  predicate Permutation(order: seq<Field>) {
    && |order| == 3
    && order[0] != order[1] && order[0] != order[2] && order[1] != order[2]
  }

  datatype Native = Opened | Closing | Shut

  /** Who refers to an instance: the application, the callback that sets it up, the queue of its parent,
      or the teardown of that queue. */
  datatype Home = AtApp | InCallback(parent: nat) | InQueue(parent: nat) | InTeardown(parent: nat)

  /** `refs` counts the references to the instance, `inner` those to its `Inner`; the first `dropped` fields
      are dropped, and `busy` is the queued child that is being destroyed with `Inner`. */
  datatype Instance = Instance(
    refs: nat, dropped: nat, native: Native, closure: bool, inner: nat, queue: seq<nat>, busy: Option<nat>, home: Home)
  {
    /** Nothing that was set off by dropping the last reference to `Inner` is still under way. */
    predicate Still() { inner > 0 || (queue == [] && busy.None?) }
  }

  datatype Handle =
    | Reserved               // a local guard, and the native open is running
    | Incoming(from: nat)    // handed over by a running callback, no instance yet
    | Made(i: Instance)
    | Released

  datatype World = World(rd: Rundown.World, order: seq<Field>, handles: map<nat, Handle>)

  datatype Step =
    | Reserve(h: nat)
    | OpenOk(h: nat)
    | OpenFail(h: nat)
    | Indicate(h: nat, p: nat)
    | Reject(h: nat)
    | Adopt(h: nat)
    | Discard(h: nat)
    | Enqueue(h: nat)
    | Accept(h: nat)       // the front of h's queue is handed to the application
    | CloneRef(h: nat)
    | DropRef(h: nat)
    | DropInner(h: nat)
    | BeginClose(h: nat)
    | DropClosure(h: nat)
    | EndClose(h: nat)
    | DropGuard(h: nat)
    | DropQueued(h: nat)   // the front of h's queue is destroyed with h's `Inner`
    | Finish(h: nat)
    | Waiting(step: Rundown.Step)

  type Handles = map<nat, Handle>

  function Initial(order: seq<Field>): World { World(Rundown.INITIAL, order, map[]) }

  function New(home: Home): Instance {
    Instance(1, 0, Opened, true, 2, [], None, home)
  }

  predicate IsMade(hs: Handles, h: nat) { h in hs && hs[h].Made? }

  /** Field f of instance i is the next to drop: the last reference is gone, and what went before is done. */
  predicate Dropping(order: seq<Field>, i: Instance, f: Field) {
    i.refs == 0 && i.dropped == At(order, f) && i.Still()
  }

  predicate SetUpBy(x: Handle, p: nat) {
    match x
    case Incoming(q) => q == p
    case Made(i) => i.home == InCallback(p)
    case _ => false
  }

  /** The parent a handle still lives under. */
  function Parent(x: Handle): Option<nat> {
    match x
    case Incoming(p) => Some(p)
    case Made(i) => if i.home.AtApp? then None else Some(i.home.parent)
    case _ => None
  }

  ghost predicate Childless(hs: Handles, p: nat) {
    forall h: nat :: h in hs ==> Parent(hs[h]) != Some(p)
  }

  ghost predicate NoCallback(hs: Handles, p: nat) {
    forall h: nat :: h in hs ==> !SetUpBy(hs[h], p)
  }

  /** The move a step makes on the rundown counter, if any. */
  function OnCounter(step: Step): Option<Rundown.Step> {
    match step
    case Reserve(h) => Some(Rundown.NewGuard(h))
    case Adopt(h) => Some(Rundown.NewGuard(h))
    case OpenFail(h) => Some(Rundown.SubtractGuard(h))
    case DropGuard(h) => Some(Rundown.SubtractGuard(h))
    case Waiting(s) => Some(s)
    case _ => None
  }

  /** What the source does, and MsQuic's promise about Close. */
  ghost predicate Allowed(order: seq<Field>, hs: Handles, step: Step) {
    match step
    case Waiting(s) => !s.NewGuard? && !s.SubtractGuard?
    case Reserve(h) => h !in hs
    case Indicate(h, p) => h !in hs && IsMade(hs, p) && hs[p].i.closure
    case OpenOk(h) => h in hs && hs[h].Reserved?
    case OpenFail(h) => h in hs && hs[h].Reserved?
    case Reject(h) => h in hs && hs[h].Incoming?
    case Adopt(h) => h in hs && hs[h].Incoming?
    case _ =>
      // named, so that the case analysis is not unfolded wherever a step is mentioned
      IsMade(hs, step.h) && var allowed := AllowedOf(order, hs, step, step.h, hs[step.h].i); allowed
  }

  ghost predicate AllowedOf(order: seq<Field>, hs: Handles, step: Step, h: nat, i: Instance) {
    match step
    case Discard(_) => i.home.InCallback? && i.refs == 1
    case Enqueue(_) => i.home.InCallback? && i.refs == 1 && IsMade(hs, i.home.parent)
    case Accept(_) => i.refs > 0 && i.queue != [] && IsMade(hs, i.queue[0])
    case CloneRef(_) => i.refs > 0 && i.home == AtApp
    case DropRef(_) => i.refs > 0 && i.home == AtApp
    case DropInner(_) => Dropping(order, i, InnerField) && i.inner > 0
    case BeginClose(_) => Dropping(order, i, NativeField) && i.native == Opened
    // the native Close waits for the callbacks that are running, then drops the closure
    case DropClosure(_) => i.native == Closing && i.closure && i.inner > 0 && NoCallback(hs, h)
    // dropping the closure ends only when everything it was the last to own is gone
    case EndClose(_) => Dropping(order, i, NativeField) && i.native == Closing && !i.closure
    case DropGuard(_) => Dropping(order, i, GuardField)
    case DropQueued(_) => i.inner == 0 && i.queue != [] && i.busy == None && IsMade(hs, i.queue[0])
    case Finish(_) => i.refs == 0 && i.dropped == 3 && i.Still() && (i.home.InTeardown? ==> IsMade(hs, i.home.parent))
    case _ => false
  }

  ghost predicate Enabled(w: World, step: Step) {
    Allowed(w.order, w.handles, step) && (OnCounter(step).Some? ==> Rundown.Enabled(w.rd, OnCounter(step).value))
  }

  /** The steps that concern one existing instance alone. */
  predicate Alone(step: Step) {
    step.Discard? || step.CloneRef? || step.DropRef? || step.DropInner? || step.BeginClose? || step.DropClosure?
    || step.EndClose? || step.DropGuard?
  }

  /** The instance after a step that concerns it alone. */
  function Changed(i: Instance, step: Step): Instance {
    match step
    case Discard(_) => i.(refs := 0)
    case CloneRef(_) => i.(refs := i.refs + 1)
    case DropRef(_) => i.(refs := if i.refs > 0 then i.refs - 1 else 0)
    case DropInner(_) => i.(dropped := i.dropped + 1, inner := if i.inner > 0 then i.inner - 1 else 0)
    case BeginClose(_) => i.(native := Closing)
    case DropClosure(_) => i.(closure := false, inner := if i.inner > 0 then i.inner - 1 else 0)
    case EndClose(_) => i.(native := Shut, dropped := i.dropped + 1)
    case DropGuard(_) => i.(dropped := i.dropped + 1)
    case _ => i
  }

  /** h leaves the callback of p for its queue. */
  function Enqueued(hs: Handles, h: nat, p: nat): Handles
    requires IsMade(hs, h) && IsMade(hs, p)
  {
    hs[h := Made(hs[h].i.(home := InQueue(p)))][p := Made(hs[p].i.(queue := hs[p].i.queue + [h]))]
  }

  /** The front of p's queue goes to the application. */
  function Accepted(hs: Handles, p: nat): Handles
    requires IsMade(hs, p) && hs[p].i.queue != [] && IsMade(hs, hs[p].i.queue[0])
  {
    var c := hs[p].i.queue[0];
    hs[p := Made(hs[p].i.(queue := hs[p].i.queue[1..]))][c := Made(hs[c].i.(home := AtApp))]
  }

  /** The front of p's queue loses its only reference, because p's `Inner` is being destroyed. */
  function QueueDropped(hs: Handles, p: nat): Handles
    requires IsMade(hs, p) && hs[p].i.queue != [] && IsMade(hs, hs[p].i.queue[0])
  {
    var c := hs[p].i.queue[0];
    hs[p := Made(hs[p].i.(queue := hs[p].i.queue[1..], busy := Some(c)))][c := Made(hs[c].i.(refs := 0, home := InTeardown(p)))]
  }

  /** h is gone; if its parent's teardown was waiting for it, that goes on. */
  function Finished(hs: Handles, h: nat): Handles
    requires IsMade(hs, h) && (hs[h].i.home.InTeardown? ==> IsMade(hs, hs[h].i.home.parent))
  {
    var i := hs[h].i;
    if i.home.InTeardown? then hs[i.home.parent := Made(hs[i.home.parent].i.(busy := None))][h := Released]
    else hs[h := Released]
  }

  ghost function After(order: seq<Field>, hs: Handles, step: Step): Handles
    requires Allowed(order, hs, step)
  {
    match step
    case Waiting(_) => hs
    case Reserve(h) => hs[h := Reserved]
    case Indicate(h, p) => hs[h := Incoming(p)]
    case OpenOk(h) => hs[h := Made(New(AtApp))]
    case OpenFail(h) => hs[h := Released]
    case Reject(h) => hs[h := Released]
    case Adopt(h) => hs[h := Made(New(InCallback(hs[h].from)))]
    case Enqueue(h) => Enqueued(hs, h, hs[h].i.home.parent)
    case Accept(h) => Accepted(hs, h)
    case DropQueued(h) => QueueDropped(hs, h)
    case Finish(h) => Finished(hs, h)
    case _ => hs[step.h := Made(Changed(hs[step.h].i, step))]
  }

  ghost function Next(w: World, step: Step): World
    requires Enabled(w, step)
  {
    World(if OnCounter(step).Some? then Rundown.Next(w.rd, OnCounter(step).value) else w.rd,
          w.order, After(w.order, w.handles, step))
  }

  ghost predicate Moves(w: World, step: Step, v: World) {
    Enabled(w, step) && v == Next(w, step)
  }

  ghost predicate Reachable(order: seq<Field>, v: World) {
    exists steps: seq<Step> :: Runs.Leads(Moves, Initial(order), steps, v)
  }

  // ---- Invariant, for every order that drops the guard last ----

  predicate GuardLast(order: seq<Field>) { Permutation(order) && order[2] == GuardField }

  predicate HasGuard(order: seq<Field>, x: Handle) {
    x.Reserved? || (x.Made? && x.i.dropped <= At(order, GuardField))
  }

  /** The native handle exists, or may already exist inside a running open. */
  predicate NativelyOpen(x: Handle) { x.Reserved? || x.Incoming? || (x.Made? && x.i.native != Shut) }

  /** What the fields of one instance say about each other. */
  ghost predicate Sound(order: seq<Field>, i: Instance) {
    var holds :=
      && i.dropped <= 3
      && i.inner == One(i.dropped <= At(order, InnerField)) + One(i.closure)
      && (i.native == Shut <==> i.dropped > At(order, NativeField))
      && (i.native == Opened ==> i.closure) && (i.closure ==> i.native != Shut)
      && (i.native == Closing ==> i.refs == 0 && i.dropped == At(order, NativeField))
      && (i.refs > 0 ==> i.dropped == 0 && i.native == Opened)
      && (i.busy.Some? ==> i.inner == 0)
      && (i.dropped == 3 ==> i.Still())
      && (i.home.InQueue? ==> i.refs == 1) && (i.home.InTeardown? ==> i.refs == 0) && (i.home.InCallback? ==> i.refs <= 1);
    holds
  }

  ghost predicate SoundAt(order: seq<Field>, hs: Handles, h: nat) {
    IsMade(hs, h) ==> Sound(order, hs[h].i)
  }

  /** The parent of a handle is another one, and knows about it. */
  ghost predicate Linked(hs: Handles, h: nat) {
    h in hs ==>
      Parent(hs[h]) != Some(h) &&
      match hs[h]
      case Incoming(p) => IsMade(hs, p) && hs[p].i.closure
      case Made(i) =>
        (match i.home
         case AtApp => true
         case InCallback(p) => IsMade(hs, p) && hs[p].i.closure
         case InQueue(p) => IsMade(hs, p) && h in hs[p].i.queue
         case InTeardown(p) => IsMade(hs, p) && hs[p].i.busy == Some(h))
      case _ => true
  }

  /** An instance knows its queued children, each of them once, and the one it is destroying. */
  ghost predicate Knows(hs: Handles, p: nat) {
    IsMade(hs, p) ==>
      var q := hs[p].i.queue;
      && (forall k :: 0 <= k < |q| ==> IsMade(hs, q[k]) && hs[q[k]].i.home == InQueue(p))
      && (forall j, k :: 0 <= j < k < |q| ==> q[j] != q[k])
      && (hs[p].i.busy.Some? ==> IsMade(hs, hs[p].i.busy.value) && hs[hs[p].i.busy.value].i.home == InTeardown(p))
  }

  ghost predicate Family(hs: Handles) {
    var holds :=
      (forall h: nat :: Linked(hs, h)) && (forall p: nat :: Knows(hs, p));
    holds
  }

  /** The guards of the counter are those of the handles, and a drop under way is of a guard that is gone. */
  ghost predicate GuardMatches(w: World, h: nat) {
    && (h in w.rd.guards <==> h in w.handles && HasGuard(w.order, w.handles[h]))
    && (h in w.rd.drops ==> h in w.handles && !w.handles[h].Incoming? && !HasGuard(w.order, w.handles[h]))
  }

  ghost predicate GuardsMatch(w: World) { forall h: nat :: GuardMatches(w, h) }

  ghost predicate Inv(w: World) {
    var holds :=
      && GuardLast(w.order) && (forall h: nat :: SoundAt(w.order, w.handles, h)) && Family(w.handles) && GuardsMatch(w);
    holds
  }

  // ---- What every step keeps ----

  /** Taking and dropping a guard is never blocked: a handle's identity is not reused. */
  lemma {:induction false} NeverBlocked(w: World, step: Step)
    requires Inv(w) && Allowed(w.order, w.handles, step) && !step.Waiting?
    ensures Enabled(w, step)
  {
    if OnCounter(step).Some? {
      assert GuardMatches(w, step.h);
    }
  }

  lemma {:induction false} StepKeeps(w: World, step: Step)
    requires Inv(w) && Enabled(w, step)
    ensures Inv(Next(w, step))
  {
    hide After, Allowed, Family, GuardsMatch, SoundAt, Rundown.Next, Rundown.Enabled;
    forall h: nat ensures SoundAt(w.order, After(w.order, w.handles, step), h) {
      SoundKept(w.order, w.handles, step, h);
    }
    FamilyKept(w.order, w.handles, step);
    GuardsKept(w, step);
  }

  /** A finished instance has nobody left under it. */
  lemma {:induction false} DoneIsChildless(order: seq<Field>, hs: Handles, h: nat)
    requires GuardLast(order) && Family(hs) && IsMade(hs, h) && Sound(order, hs[h].i) && hs[h].i.dropped >= 2 && hs[h].i.Still()
    ensures hs[h].i.native == Shut && !hs[h].i.closure && hs[h].i.inner == 0 && hs[h].i.queue == []
    ensures Childless(hs, h)
  {
    forall c: nat | c in hs ensures Parent(hs[c]) != Some(h) {
      assert Linked(hs, c);
    }
  }

  // ---- Main results, for every reachable state of every order that drops the guard last ----

  /** Whenever the count is zero, no native handle is open: not one being opened, nor one a
      callback is setting up, nor one queued in another handle, nor one being closed. */
  lemma {:induction false} ZeroMeansAllClosed(order: seq<Field>, w: World)
    requires GuardLast(order) && Reachable(order, w) && w.rd.s.active == 0
    ensures forall h: nat :: h in w.handles ==> !NativelyOpen(w.handles[h])
  {
    ReachableHolds(order, w);
    Rundown.CounterIsExact(w.rd);
    forall h: nat | h in w.handles ensures !NativelyOpen(w.handles[h]) {
      EveryHandleCovered(order, w, h);
    }
  }

  /** Every natively open handle is covered by its own guard, or by that of the handle whose callback sets it up. */
  lemma {:induction false} EveryHandleCovered(order: seq<Field>, w: World, h: nat)
    requires GuardLast(order) && Reachable(order, w)
    ensures h in w.handles && NativelyOpen(w.handles[h]) ==>
              h in w.rd.guards || (w.handles[h].Incoming? && w.handles[h].from in w.rd.guards)
  {
    hide Rundown.Reachable, Knows;
    ReachableHolds(order, w);
    assert SoundAt(order, w.handles, h) && Linked(w.handles, h) && GuardMatches(w, h);
    if h in w.handles && w.handles[h].Incoming? {
      assert SoundAt(order, w.handles, w.handles[h].from) && GuardMatches(w, w.handles[h].from);
    }
  }

  /** The count is the number of guarded handles, no matter how they nest. */
  lemma {:induction false} CountIsGuardedHandles(order: seq<Field>, w: World)
    requires GuardLast(order) && Reachable(order, w)
    ensures w.rd.s.active == |set h: nat | h in w.handles && HasGuard(order, w.handles[h])|
  {
    ReachableHolds(order, w);
    Rundown.CounterIsExact(w.rd);
    forall h: nat ensures h in w.rd.guards <==> h in w.handles && HasGuard(order, w.handles[h]) {
      assert GuardMatches(w, h);
    }
    assert w.rd.guards == set h: nat | h in w.handles && HasGuard(order, w.handles[h]);
  }

  /** A wait resolves only from a load made at an instant at which every native handle was closed. */
  lemma {:induction false} ResolvesOnlyWhenClosed(order: seq<Field>, w: World, step: Rundown.Step, f: nat)
    requires GuardLast(order) && Reachable(order, w) && Enabled(w, Waiting(step))
    requires f in Next(w, Waiting(step)).rd.futures && Next(w, Waiting(step)).rd.futures[f].phase.Leaving?
    requires !(f in w.rd.futures && w.rd.futures[f].phase.Leaving?)
    ensures forall h: nat :: h in w.handles ==> !NativelyOpen(w.handles[h])
  {
    assert step.Load? || step.Reload?;
    ZeroMeansAllClosed(order, w);
  }

  /** A guard goes only when the Close of its handle has returned, its `Inner` is destroyed with the queue it
      owned, and no child lives under it any more; or when there never was a native handle. */
  lemma {:induction false} ReleaseFollowsClose(order: seq<Field>, w: World, step: Step, h: nat)
    requires GuardLast(order) && Reachable(order, w) && Enabled(w, step)
    requires h in w.rd.guards && h !in Next(w, step).rd.guards
    ensures step == OpenFail(h) || step == DropGuard(h)
    ensures step == DropGuard(h) ==>
              && IsMade(w.handles, h) && w.handles[h].i.native == Shut && w.handles[h].i.inner == 0
              && w.handles[h].i.queue == [] && Childless(w.handles, h)
  {
    ReachableHolds(order, w);
    if step == DropGuard(h) {
      assert SoundAt(order, w.handles, h);
      DoneIsChildless(order, w.handles, h);
    }
  }

  /** Once no handle holds a guard, the drops under way alone wake every waiting future. */
  lemma {:induction false} ReleasedAllWakesAll(order: seq<Field>, w: World) returns (steps: seq<Rundown.Step>, v: Rundown.World)
    requires GuardLast(order) && Reachable(order, w)
    requires forall h: nat :: h in w.handles ==> !HasGuard(order, w.handles[h])
    ensures Runs.Leads(Rundown.Moves, w.rd, steps, v) && v.drops == map[] && Rundown.OnlyWoken(w.rd, v)
    ensures forall f: nat :: f in v.futures && v.futures[f].phase.Idle? && v.futures[f].outcome.WasPending? ==> v.futures[f].woken
  {
    ReachableHolds(order, w);
    Rundown.CounterIsExact(w.rd);
    forall h: nat ensures h !in w.rd.guards {
      assert GuardMatches(w, h);
    }
    assert w.rd.guards == {};
    steps, v := Rundown.EveryWakeupArrives(w.rd);
  }

  /** The structs of the source are such an order. */
  lemma {:induction false} SourceDropsTheGuardLast()
    ensures GuardLast(SOURCE_ORDER)
  {
  }

  // ---- What the order is for ----

  /** The guard of an instance is gone although its native handle is open, or a child still lives under it. */
  ghost predicate GuardTooEarly(w: World, h: nat) {
    var holds :=
      && IsMade(w.handles, h) && !HasGuard(w.order, w.handles[h])
      && (NativelyOpen(w.handles[h]) || !Childless(w.handles, h));
    holds
  }

  /** Dropping the guard last is exactly what keeps it from going too early. */
  lemma {:induction false} GuardLastExactly(order: seq<Field>)
    requires Permutation(order)
    ensures GuardLast(order) <==> forall w: World, h: nat :: Reachable(order, w) ==> !GuardTooEarly(w, h)
  {
    if GuardLast(order) {
      forall w: World, h: nat | Reachable(order, w) ensures !GuardTooEarly(w, h) {
        GuardNeverTooEarly(order, w, h);
      }
    } else {
      var w := GuardGoesTooEarly(order);
      assert Reachable(order, w) && GuardTooEarly(w, 0);
    }
  }

  lemma {:induction false} GuardNeverTooEarly(order: seq<Field>, w: World, h: nat)
    requires GuardLast(order) && Reachable(order, w)
    ensures !GuardTooEarly(w, h)
  {
    ReachableHolds(order, w);
    if IsMade(w.handles, h) && !HasGuard(order, w.handles[h]) {
      assert SoundAt(order, w.handles, h);
      DoneIsChildless(order, w.handles, h);
    }
  }

  /** Every other order fails on some run: with the guard before the native handle the count is zero while the
      handle is open, and with `inner` after the guard a queued child outlives its parent's guard. */
  lemma {:induction false} GuardGoesTooEarly(order: seq<Field>) returns (w: World)
    requires Permutation(order) && order[2] != GuardField
    ensures Reachable(order, w) && GuardTooEarly(w, 0)
    ensures order[2] == NativeField || order[0] == GuardField ==> w.rd.s.active == 0 && NativelyOpen(w.handles[0])
    ensures order == [NativeField, GuardField, InnerField] ==> 1 in w.handles && Parent(w.handles[1]) == Some(0)
  {
    hide Reachable;
    if order[0] == NativeField {
      w := InnerTooLate(order);
    } else {
      w := NativeTooLate(order);
    }
  }

  // ---- The fields of an instance stay consistent ----

  lemma {:induction false} ChangedSound(order: seq<Field>, hs: Handles, step: Step, h: nat, i: Instance)
    requires GuardLast(order) && Sound(order, i) && AllowedOf(order, hs, step, h, i) && Alone(step)
    ensures Sound(order, Changed(i, step))
  {
  }

  lemma {:induction false} SoundKept(order: seq<Field>, hs: Handles, step: Step, k: nat)
    requires GuardLast(order) && Allowed(order, hs, step) && Family(hs)
    requires forall h: nat :: SoundAt(order, hs, h)
    ensures SoundAt(order, After(order, hs, step), k)
  {
    assert SoundAt(order, hs, k);
    if Alone(step) {
      assert SoundAt(order, hs, step.h);
      hide Changed, Sound, AllowedOf;
      ChangedSound(order, hs, step, step.h, hs[step.h].i);
    } else if Between(step) {
      assert SoundAt(order, hs, step.h) && Linked(hs, step.h) && Knows(hs, step.h);
      BetweenSound(order, hs, step, k);
    }
  }

  /** The steps between a parent and a child. */
  predicate Between(step: Step) { step.Enqueue? || step.Accept? || step.DropQueued? || step.Finish? }

  lemma {:induction false} BetweenSound(order: seq<Field>, hs: Handles, step: Step, k: nat)
    requires GuardLast(order) && Allowed(order, hs, step) && Between(step)
    requires SoundAt(order, hs, k) && SoundAt(order, hs, step.h) && Linked(hs, step.h) && Knows(hs, step.h)
    ensures SoundAt(order, After(order, hs, step), k)
  {
  }

  // ---- Parents and children stay in agreement ----

  /** A handle nobody refers to yet may become anything that agrees with its own parent. */
  lemma {:induction false} NewFamily(hs: Handles, h: nat, x: Handle)
    requires Family(hs) && !IsMade(hs, h) && Linked(hs[h := x], h)
    requires x.Made? ==> x.i.queue == [] && x.i.busy == None
    ensures Family(hs[h := x])
  {
    var t := hs[h := x];
    forall c: nat ensures Linked(t, c) {
      assert Linked(hs, c);
    }
    forall p: nat ensures Knows(t, p) {
      assert Knows(hs, p);
    }
  }

  /** An instance that keeps its queue and its home, and its closure while it has children in a callback. */
  lemma {:induction false} ChangedFamily(hs: Handles, h: nat, i: Instance)
    requires Family(hs) && IsMade(hs, h)
    requires i.queue == hs[h].i.queue && i.busy == hs[h].i.busy && i.home == hs[h].i.home
    requires i.closure || !hs[h].i.closure || NoCallback(hs, h)
    ensures Family(hs[h := Made(i)])
  {
    var t := hs[h := Made(i)];
    forall c: nat ensures Linked(t, c) {
      assert Linked(hs, c);
    }
    forall p: nat ensures Knows(t, p) {
      assert Knows(hs, p);
    }
  }

  lemma {:induction false} EnqueuedFamily(hs: Handles, h: nat, p: nat)
    requires Family(hs) && IsMade(hs, h) && IsMade(hs, p) && hs[h].i.home == InCallback(p)
    ensures Family(Enqueued(hs, h, p))
  {
    var t := Enqueued(hs, h, p);
    assert Knows(hs, p) && Linked(hs, h);
    forall c: nat ensures Linked(t, c) {
      assert Linked(hs, c);
    }
    forall q: nat ensures Knows(t, q) {
      assert Knows(hs, q);
    }
  }

  lemma {:induction false} AcceptedFamily(hs: Handles, p: nat)
    requires Family(hs) && IsMade(hs, p) && hs[p].i.queue != [] && IsMade(hs, hs[p].i.queue[0])
    ensures Family(Accepted(hs, p))
  {
    var t := Accepted(hs, p);
    assert Knows(hs, p) && Linked(hs, hs[p].i.queue[0]);
    forall c: nat ensures Linked(t, c) {
      assert Linked(hs, c);
      InRest(hs[p].i.queue, c);
    }
    forall q: nat ensures Knows(t, q) {
      assert Knows(hs, q);
    }
  }

  lemma {:induction false} InRest(q: seq<nat>, c: nat)
    requires q != []
    ensures c in q && c != q[0] ==> c in q[1..]
  {
    if c in q && c != q[0] {
      var k :| 0 <= k < |q| && q[k] == c;
      assert q[1..][k - 1] == c;
    }
  }

  lemma {:induction false} QueueDroppedFamily(hs: Handles, p: nat)
    requires Family(hs) && IsMade(hs, p) && hs[p].i.queue != [] && IsMade(hs, hs[p].i.queue[0])
    requires hs[p].i.busy == None
    ensures Family(QueueDropped(hs, p))
  {
    var t := QueueDropped(hs, p);
    assert Knows(hs, p) && Linked(hs, hs[p].i.queue[0]);
    forall c: nat ensures Linked(t, c) {
      assert Linked(hs, c);
      InRest(hs[p].i.queue, c);
    }
    forall q: nat ensures Knows(t, q) {
      assert Knows(hs, q);
    }
  }

  lemma {:induction false} FinishedFamily(hs: Handles, h: nat)
    requires Family(hs) && IsMade(hs, h) && (hs[h].i.home.InTeardown? ==> IsMade(hs, hs[h].i.home.parent))
    requires Childless(hs, h) && !hs[h].i.home.InQueue?
    ensures Family(Finished(hs, h))
  {
    var t := Finished(hs, h);
    assert Linked(hs, h);
    forall c: nat ensures Linked(t, c) {
      assert Linked(hs, c);
      assert c in hs ==> Parent(hs[c]) != Some(h);
    }
    forall q: nat ensures Knows(t, q) {
      assert Knows(hs, q);
    }
  }

  lemma {:induction false} FamilyKept(order: seq<Field>, hs: Handles, step: Step)
    requires GuardLast(order) && Allowed(order, hs, step) && Family(hs)
    requires forall h: nat :: SoundAt(order, hs, h)
    ensures Family(After(order, hs, step))
  {
    hide Family, Sound, NoCallback, Childless;
    match step {
      case Waiting(_) =>
      case Reserve(h) => NewFamily(hs, h, Reserved);
      case Indicate(h, p) => NewFamily(hs, h, Incoming(p));
      case OpenOk(h) => NewFamily(hs, h, Made(New(AtApp)));
      case OpenFail(h) => NewFamily(hs, h, Released);
      case Reject(h) => NewFamily(hs, h, Released);
      case Adopt(h) => AdoptedFamily(hs, h);
      case Enqueue(h) => EnqueueKept(order, hs, h);
      case Accept(h) => AcceptKept(order, hs, h);
      case DropQueued(h) => DropQueuedKept(order, hs, h);
      case Finish(h) => FinishKept(order, hs, h);
      case _ => ChangedFamily(hs, step.h, Changed(hs[step.h].i, step));
    }
  }

  lemma {:induction false} AdoptedFamily(hs: Handles, h: nat)
    requires Family(hs) && h in hs && hs[h].Incoming?
    ensures Family(hs[h := Made(New(InCallback(hs[h].from)))])
  {
    assert Linked(hs, h);
    NewFamily(hs, h, Made(New(InCallback(hs[h].from))));
  }

  lemma {:induction false} EnqueueKept(order: seq<Field>, hs: Handles, h: nat)
    requires Allowed(order, hs, Enqueue(h)) && Family(hs)
    ensures Family(Enqueued(hs, h, hs[h].i.home.parent))
  {
    assert Linked(hs, h);
    EnqueuedFamily(hs, h, hs[h].i.home.parent);
  }

  lemma {:induction false} AcceptKept(order: seq<Field>, hs: Handles, h: nat)
    requires Allowed(order, hs, Accept(h)) && Family(hs)
    ensures Family(Accepted(hs, h))
  {
    assert Knows(hs, h);
    AcceptedFamily(hs, h);
  }

  lemma {:induction false} DropQueuedKept(order: seq<Field>, hs: Handles, h: nat)
    requires Allowed(order, hs, DropQueued(h)) && Family(hs)
    ensures Family(QueueDropped(hs, h))
  {
    assert Knows(hs, h);
    QueueDroppedFamily(hs, h);
  }

  lemma {:induction false} FinishKept(order: seq<Field>, hs: Handles, h: nat)
    requires GuardLast(order) && Allowed(order, hs, Finish(h)) && Family(hs) && SoundAt(order, hs, h)
    ensures Family(Finished(hs, h))
  {
    DoneIsChildless(order, hs, h);
    assert Linked(hs, h);
    FinishedFamily(hs, h);
  }

  // ---- Guards ----

  /** Only opening, adopting and dropping the guard field change who holds a guard. */
  lemma {:induction false} GuardChanges(order: seq<Field>, hs: Handles, step: Step, k: nat)
    requires GuardLast(order) && Allowed(order, hs, step) && (Alone(step) ==> Sound(order, hs[step.h].i))
    ensures var t := After(order, hs, step);
            && (k in t && HasGuard(order, t[k]) <==>
                  (k in hs && HasGuard(order, hs[k]) && !(step == OpenFail(k) || step == DropGuard(k)) && step != Finish(k))
                  || step == Reserve(k) || step == Adopt(k))
            && (k in hs ==> k in t) && (k in hs && !hs[k].Incoming? ==> !t[k].Incoming?)
            && (step == Finish(k) ==> !HasGuard(order, hs[k]))
  {
    if Between(step) {
      BetweenKeepsGuards(order, hs, step, k);
    }
  }

  lemma {:induction false} BetweenKeepsGuards(order: seq<Field>, hs: Handles, step: Step, k: nat)
    requires GuardLast(order) && Allowed(order, hs, step) && Between(step)
    ensures var t := After(order, hs, step);
            && (k in t <==> k in hs)
            && (k in hs ==> (HasGuard(order, t[k]) <==> HasGuard(order, hs[k]) && step != Finish(k))
                            && (!hs[k].Incoming? ==> !t[k].Incoming?))
            && (step == Finish(k) ==> !HasGuard(order, hs[k]))
  {
  }

  /** Who takes a guard has none, who drops one has it. */
  lemma {:induction false} AllowedGuards(order: seq<Field>, hs: Handles, step: Step)
    requires Allowed(order, hs, step)
    ensures step.Reserve? ==> step.h !in hs
    ensures step.Adopt? ==> step.h in hs && hs[step.h].Incoming? && !HasGuard(order, hs[step.h])
    ensures step.OpenFail? || step.DropGuard? ==> step.h in hs && HasGuard(order, hs[step.h]) && !hs[step.h].Incoming?
    ensures step.Waiting? ==> !step.step.NewGuard? && !step.step.SubtractGuard?
  {
  }

  /** What a step does to the guards of the counter, and which drops it can start. */
  lemma {:induction false} GuardMoves(rd: Rundown.World, step: Step, k: nat)
    requires OnCounter(step).Some? ==> Rundown.Enabled(rd, OnCounter(step).value)
    requires step.Waiting? ==> !step.step.NewGuard? && !step.step.SubtractGuard?
    ensures var v := if OnCounter(step).Some? then Rundown.Next(rd, OnCounter(step).value) else rd;
            && (k in v.guards <==> (k in rd.guards && step != OpenFail(k) && step != DropGuard(k)) || step == Reserve(k) || step == Adopt(k))
            && (k in v.drops ==> k in rd.drops || step == OpenFail(k) || step == DropGuard(k))
  {
  }

  lemma {:induction false} GuardKept(w: World, step: Step, k: nat)
    requires GuardLast(w.order) && GuardMatches(w, k) && Enabled(w, step)
    requires Alone(step) ==> SoundAt(w.order, w.handles, step.h)
    ensures GuardMatches(Next(w, step), k)
  {
    AllowedGuards(w.order, w.handles, step);
    GuardChanges(w.order, w.handles, step, k);
    GuardMoves(w.rd, step, k);
    hide After, HasGuard, Allowed, GuardLast, Rundown.Next, Rundown.Enabled;
  }

  lemma {:induction false} GuardsKept(w: World, step: Step)
    requires GuardLast(w.order) && GuardsMatch(w) && Enabled(w, step) && forall h: nat :: SoundAt(w.order, w.handles, h)
    ensures GuardsMatch(Next(w, step))
  {
    hide GuardMatches, Next, Enabled, SoundAt, GuardLast;
    forall k: nat ensures GuardMatches(Next(w, step), k) {
      assert GuardMatches(w, k);
      if Alone(step) {
        assert SoundAt(w.order, w.handles, step.h);
      }
      GuardKept(w, step, k);
    }
  }

  // ---- Runs ----

  /** A run of the handles makes a run of the rundown protocol. */
  lemma {:induction false} CounterFollows(w: World, step: Step)
    requires Rundown.Reachable(w.rd) && Enabled(w, step)
    ensures Rundown.Reachable(Next(w, step).rd) && Next(w, step).order == w.order
  {
    hide After, Allowed, Rundown.Next, Rundown.Enabled, Rundown.Reachable;
    if OnCounter(step).Some? {
      var rd := Rundown.Reach(w.rd, OnCounter(step).value);
    }
  }

  lemma {:induction false} InitialHolds(order: seq<Field>)
    requires GuardLast(order)
    ensures Inv(Initial(order)) && Rundown.Reachable(Rundown.INITIAL)
  {
    Runs.Stay<Rundown.World, Rundown.Step>(Rundown.Moves, Rundown.INITIAL);
  }

  lemma {:induction false} ReachableHolds(order: seq<Field>, w: World)
    requires GuardLast(order) && Reachable(order, w)
    ensures Inv(w) && w.order == order && Rundown.Reachable(w.rd)
  {
    hide Inv, Enabled, Next, Rundown.Reachable;
    var steps: seq<Step> :| Runs.Leads(Moves, Initial(order), steps, w);
    InitialHolds(order);
    var inv := (a: World) => Inv(a) && a.order == order && Rundown.Reachable(a.rd);
    forall a: World, s: Step, b: World | inv(a) && Moves(a, s, b) ensures inv(b) {
      StepKeeps(a, s);
      CounterFollows(a, s);
    }
    Runs.Keeps(Moves, inv, Initial(order), steps, w);
  }

  // ---- Runs of the orders that fail ----

  lemma {:induction false} NativeTooLate(order: seq<Field>) returns (w: World)
    requires Permutation(order) && order[2] != GuardField && order[0] != NativeField
    ensures Reachable(order, w) && GuardTooEarly(w, 0)
    ensures w.rd.s.active == 0 && NativelyOpen(w.handles[0])
  {
    hide Next, Enabled, Reachable;
    w := ReachOpen(order);
    w := ReachAlone(order, w, DropRef(0));
    if order[0] == InnerField {
      w := ReachAlone(order, w, DropInner(0));
    }
    w := ReachDropGuard(order, w, 0);
  }

  lemma {:induction false} InnerTooLate(order: seq<Field>) returns (w: World)
    requires order == [NativeField, GuardField, InnerField]
    ensures Reachable(order, w) && GuardTooEarly(w, 0)
    ensures 1 in w.handles && Parent(w.handles[1]) == Some(0)
  {
    hide Next, Enabled, Reachable;
    w := ReachOpen(order);
    w := WithQueuedChild(order, w);
    w := ReachAlone(order, w, DropRef(0));
    w := ReachAlone(order, w, BeginClose(0));
    w := ReachAlone(order, w, DropClosure(0));
    w := ReachAlone(order, w, EndClose(0));
    assert w.handles[0].i == Instance(0, 1, Shut, false, 1, [1], None, AtApp);
    w := ReachDropGuard(order, w, 0);
    assert w.handles[0].i.dropped == 2;
    assert !Childless(w.handles, 0) by { assert 1 in w.handles && Parent(w.handles[1]) == Some(0); }
  }

  /** A step that concerns the instance alone and leaves the counter alone. */
  lemma {:induction false} ReachAlone(order: seq<Field>, w: World, step: Step) returns (v: World)
    requires Reachable(order, w) && Alone(step) && !step.DropGuard?
    requires IsMade(w.handles, step.h) && AllowedOf(w.order, w.handles, step, step.h, w.handles[step.h].i)
    ensures Reachable(order, v) && v == w.(handles := w.handles[step.h := Made(Changed(w.handles[step.h].i, step))])
  {
    hide AllowedOf, Changed;
    v := ReachPlain(order, w, step);
  }

  lemma {:induction false} Reach(order: seq<Field>, w: World, step: Step) returns (v: World)
    requires Reachable(order, w) && Enabled(w, step)
    ensures Reachable(order, v) && v == Next(w, step)
  {
    hide Next, Enabled;
    var steps: seq<Step> :| Runs.Leads(Moves, Initial(order), steps, w);
    v := Next(w, step);
    Runs.Then(Moves, Initial(order), steps, w, step, v);
  }

  /** A step that leaves the counter alone. */
  lemma {:induction false} ReachPlain(order: seq<Field>, w: World, step: Step) returns (v: World)
    requires Reachable(order, w) && OnCounter(step).None? && Allowed(w.order, w.handles, step)
    ensures Reachable(order, v) && v == w.(handles := After(w.order, w.handles, step))
  {
    hide After, Allowed;
    v := Reach(order, w, step);
  }

  /** A step that takes a guard. */
  lemma {:induction false} ReachGuarded(order: seq<Field>, w: World, step: Step) returns (v: World)
    requires Reachable(order, w) && (step.Reserve? || step.Adopt?) && Allowed(w.order, w.handles, step)
    requires step.h !in w.rd.guards && step.h !in w.rd.drops
    ensures Reachable(order, v)
    ensures v == World(w.rd.(s := Rundown.FetchAdd(w.rd.s), guards := w.rd.guards + {step.h}), w.order, After(w.order, w.handles, step))
  {
    hide After, Allowed;
    v := Reach(order, w, step);
  }

  lemma {:induction false} ReachDropGuard(order: seq<Field>, w: World, h: nat) returns (v: World)
    requires Reachable(order, w) && Allowed(w.order, w.handles, DropGuard(h)) && h in w.rd.guards
    ensures Reachable(order, v)
    ensures (v.order, v.handles, v.rd.s.active) == (w.order, After(w.order, w.handles, DropGuard(h)), w.rd.s.active - 1)
  {
    hide After, Allowed;
    v := Reach(order, w, DropGuard(h));
  }

  /** One handle, opened by the application. */
  function OneOpen(order: seq<Field>): World {
    World(Rundown.INITIAL.(s := Rundown.FetchAdd(Rundown.INITIAL.s), guards := {0}), order, map[0 := Made(New(AtApp))])
  }

  lemma {:induction false} ReachOpen(order: seq<Field>) returns (w: World)
    ensures Reachable(order, w) && w == OneOpen(order)
  {
    hide Next, Enabled;
    w := Initial(order);
    Runs.Stay<World, Step>(Moves, w);
    w := ReachGuarded(order, w, Reserve(0));
    w := ReachPlain(order, w, OpenOk(0));
  }

  /** A callback of that handle queues a child. */
  lemma {:induction false} WithQueuedChild(order: seq<Field>, w: World) returns (v: World)
    requires Reachable(order, w) && w == OneOpen(order)
    ensures Reachable(order, v) && v.order == order && 0 in v.rd.guards
    ensures v.handles == map[0 := Made(New(AtApp).(queue := [1])), 1 := Made(New(InQueue(0)))]
  {
    hide Next, Enabled, Reachable;
    v := ReachPlain(order, w, Indicate(1, 0));
    assert v.handles == map[0 := Made(New(AtApp)), 1 := Incoming(0)];
    v := ReachGuarded(order, v, Adopt(1));
    assert v.handles == map[0 := Made(New(AtApp)), 1 := Made(New(InCallback(0)))];
    v := ReachPlain(order, v, Enqueue(1));
    assert v.handles == Enqueued(map[0 := Made(New(AtApp)), 1 := Made(New(InCallback(0)))], 1, 0);
    assert [] + [1] == [1];
  }
}
