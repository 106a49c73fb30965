/** Finite runs of a step relation, shared by every component that is modelled as a state machine. */
module Runs {

  /** `run` lists the states before, between and after `steps`. */
  ghost predicate Links<W(!new), S(!new)>(moves: (W, S, W) -> bool, run: seq<W>, steps: seq<S>) {
    && |run| == |steps| + 1
    && forall i {:trigger steps[i]} :: 0 <= i < |steps| ==> moves(run[i], steps[i], run[i + 1])
  }

  ghost predicate Leads<W(!new), S(!new)>(moves: (W, S, W) -> bool, w: W, steps: seq<S>, v: W) {
    exists run: seq<W> :: Links(moves, run, steps) && run[0] == w && run[|steps|] == v
  }

  lemma {:induction false} Stay<W(!new), S(!new)>(moves: (W, S, W) -> bool, w: W)
    ensures Leads(moves, w, [], w)
  {
    var steps: seq<S> := [];
    assert Links(moves, [w], steps);
  }

  lemma {:induction false} Join<W(!new), S(!new)>(moves: (W, S, W) -> bool, w: W, a: seq<S>, m: W, b: seq<S>, v: W)
    requires Leads(moves, w, a, m) && Leads(moves, m, b, v)
    ensures Leads(moves, w, a + b, v)
  {
    var first: seq<W> :| Links(moves, first, a) && first[0] == w && first[|a|] == m;
    var second: seq<W> :| Links(moves, second, b) && second[0] == m && second[|b|] == v;
    var run := first + second[1..];
    forall i {:trigger (a + b)[i]} | 0 <= i < |a + b| ensures moves(run[i], (a + b)[i], run[i + 1]) {
      if i < |a| {
        assert (a + b)[i] == a[i];
      } else {
        assert (a + b)[i] == b[i - |a|];
        assert run[i] == second[i - |a|] && run[i + 1] == second[i - |a| + 1];
      }
    }
    assert Links(moves, run, a + b);
  }

  lemma {:induction false} One<W(!new), S(!new)>(moves: (W, S, W) -> bool, w: W, s: S, v: W)
    requires moves(w, s, v)
    ensures Leads(moves, w, [s], v)
  {
    assert Links(moves, [w, v], [s]);
  }

  /** One more step at the end. */
  lemma {:induction false} Then<W(!new), S(!new)>(moves: (W, S, W) -> bool, w: W, steps: seq<S>, m: W, s: S, v: W)
    requires Leads(moves, w, steps, m) && moves(m, s, v)
    ensures Leads(moves, w, steps + [s], v)
  {
    One(moves, m, s, v);
    Join(moves, w, steps, m, [s], v);
  }

  /** What every step keeps, every run keeps. */
  lemma {:induction false} Keeps<W(!new), S(!new)>(moves: (W, S, W) -> bool, inv: W -> bool, w: W, steps: seq<S>, v: W)
    requires forall a: W, s: S, b: W :: inv(a) && moves(a, s, b) ==> inv(b)
    requires Leads(moves, w, steps, v) && inv(w)
    ensures inv(v)
  {
    var run: seq<W> :| Links(moves, run, steps) && run[0] == w && run[|steps|] == v;
    var i := 0;
    while i < |steps|
      invariant 0 <= i <= |steps| && inv(run[i])
    {
      assert moves(run[i], steps[i], run[i + 1]);
      i := i + 1;
    }
  }
}
