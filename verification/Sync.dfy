/** The waiter lists every blocking poll parks on. */
module Sync {
  import opened Common

  ghost predicate Distinct(waiters: seq<Task>) {
    forall i, j :: 0 <= i < j < |waiters| ==> waiters[i] != waiters[j]
  }

  /** The list after a poll of `cx` has parked on it. */
  function Registered(waiters: seq<Task>, cx: Task): seq<Task> {
    if cx in waiters then waiters else waiters + [cx]
  }

  lemma {:induction false} StillDistinct(waiters: seq<Task>, cx: Task)
    requires Distinct(waiters)
    ensures Distinct(Registered(waiters, cx)) && Registered(waiters, cx) != []
  {
  }

  /** Scan for an entry that wakes the same task; push only if there is none. */
  method RegisterWaker(waiters: seq<Task>, cx: Task) returns (r: seq<Task>)
    ensures r == Registered(waiters, cx)
  {
    var i := 0;
    while i < |waiters|
      invariant 0 <= i <= |waiters|
      invariant cx !in waiters[..i]
    {
      if waiters[i] == cx {
        return waiters;
      }
      i := i + 1;
    }
    assert waiters[..i] == waiters;
    r := waiters + [cx];
  }

  /** The list after a sequence of polls, with nothing drained in between. */
  function RegisteredAll(waiters: seq<Task>, polls: seq<Task>): seq<Task> {
    if polls == [] then waiters
    else Registered(RegisteredAll(waiters, polls[..|polls| - 1]), polls[|polls| - 1])
  }

  /** The tasks of `polls` that are not in `seen`, each of them once, in the order in which they first poll. */
  function FirstPolls(polls: seq<Task>, seen: set<Task>): (r: seq<Task>)
    ensures Distinct(r)
    ensures forall t :: t in r <==> t in polls && t !in seen
  {
    if polls == [] then []
    else if polls[0] in seen then FirstPolls(polls[1..], seen)
    else [polls[0]] + FirstPolls(polls[1..], seen + {polls[0]})
  }

  lemma {:induction false} FirstPollsThen(polls: seq<Task>, t: Task, seen: set<Task>)
    ensures FirstPolls(polls + [t], seen)
         == FirstPolls(polls, seen) + if t in seen || t in polls then [] else [t]
  {
    hide Distinct;
    var last := if t in seen || t in polls then [] else [t];
    if polls == [] {
      assert [t][1..] == [] && polls + [t] == [t];
    } else {
      var first, rest := polls[0], polls[1..];
      assert (polls + [t])[1..] == rest + [t];
      assert t in polls <==> t == first || t in rest;
      if first in seen {
        FirstPollsThen(rest, t, seen);
      } else {
        FirstPollsThen(rest, t, seen + {first});
        assert [first] + (FirstPolls(rest, seen + {first}) + last) == [first] + FirstPolls(rest, seen + {first}) + last;
      }
    }
  }

  lemma {:induction false} RegisteredAllIs(waiters: seq<Task>, polls: seq<Task>)
    ensures RegisteredAll(waiters, polls) == waiters + FirstPolls(polls, set t | t in waiters)
  {
    hide Distinct;
    var seen := set t | t in waiters;
    if polls == [] {
      assert waiters + [] == waiters;
    } else {
      var n := |polls| - 1;
      RegisteredAllIs(waiters, polls[..n]);
      assert polls == polls[..n] + [polls[n]];
      FirstPollsThen(polls[..n], polls[n], seen);
      hide FirstPolls;
      var first := FirstPolls(polls[..n], seen);
      assert (waiters + first) + [polls[n]] == waiters + (first + [polls[n]]);
      assert waiters + (first + []) == waiters + first;
    }
  }

  lemma {:induction false} DistinctSum(a: seq<Task>, b: seq<Task>)
    requires Distinct(a) && Distinct(b) && forall t :: t in a ==> t !in b
    ensures Distinct(a + b)
  {
    forall i, j | 0 <= i < j < |a + b| ensures (a + b)[i] != (a + b)[j] {
      if i < |a| <= j {
        assert (a + b)[i] in a && (a + b)[j] in b;
      }
    }
  }

  /** However often they poll, the list keeps one entry per task: those that were parked, then the others
      in the order of their first poll. */
  lemma {:induction false} OneEntryPerTask(waiters: seq<Task>, polls: seq<Task>)
    requires Distinct(waiters)
    ensures RegisteredAll(waiters, polls) == waiters + FirstPolls(polls, set t | t in waiters)
    ensures Distinct(RegisteredAll(waiters, polls))
    ensures forall t :: t in RegisteredAll(waiters, polls) <==> t in waiters || t in polls
  {
    RegisteredAllIs(waiters, polls);
    hide Distinct;
    DistinctSum(waiters, FirstPolls(polls, set t | t in waiters));
  }
}
