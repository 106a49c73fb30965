/** Values shared by every module of the model. */
module Common {

  datatype Option<+T> = None | Some(value: T)

  datatype Result<+T, +E> = Ok(value: T) | Err(error: E)

  /** What one poll of a future returns. */
  datatype Poll<+T> = Pending | Ready(value: T)

  newtype byte = x: int | 0 <= x < 256

  /** A task identity: what a `Waker` wakes. `will_wake` is equality of identities. */
  type Task = nat

  function Min(a: nat, b: nat): (m: nat)
    ensures m <= a && m <= b && (m == a || m == b)
  {
    if a <= b then a else b
  }

  function Max(a: nat, b: nat): (m: nat)
    ensures a <= m && b <= m && (m == a || m == b)
  {
    if a <= b then b else a
  }

  /** One if the condition holds, zero otherwise; used to state conservation laws. */
  function One(b: bool): (n: nat)
    ensures n <= 1 && (n == 1 <==> b)
  {
    if b then 1 else 0
  }

  function Sum(xs: seq<nat>): nat {
    if xs == [] then 0 else Sum(xs[..|xs| - 1]) + xs[|xs| - 1]
  }

  lemma {:induction false} SumAppend(xs: seq<nat>, ys: seq<nat>)
    ensures Sum(xs + ys) == Sum(xs) + Sum(ys)
  {
    if ys == [] {
      assert xs + ys == xs;
    } else {
      var last := |ys| - 1;
      assert (xs + ys)[..|xs + ys| - 1] == xs + ys[..last];
      SumAppend(xs, ys[..last]);
    }
  }

  /** The concatenation of a list of segments. */
  function Flat<T>(segs: seq<seq<T>>): seq<T> {
    if segs == [] then [] else segs[0] + Flat(segs[1..])
  }

  lemma {:induction false} FlatAppend<T>(a: seq<seq<T>>, b: seq<seq<T>>)
    ensures Flat(a + b) == Flat(a) + Flat(b)
  {
    if a == [] {
      assert a + b == b;
    } else {
      assert (a + b)[1..] == a[1..] + b;
      FlatAppend(a[1..], b);
    }
  }

  lemma {:induction false} FlatSingle<T>(s: seq<T>)
    ensures Flat([s]) == s
  {
    assert [s][1..] == [];
  }

  /** Splitting a list of segments around one of them. */
  lemma {:induction false} FlatAt<T>(segs: seq<seq<T>>, i: nat)
    requires i < |segs|
    ensures Flat(segs[i..]) == segs[i] + Flat(segs[i + 1..])
    ensures Flat(segs[..i + 1]) == Flat(segs[..i]) + segs[i]
    ensures Flat(segs) == Flat(segs[..i]) + Flat(segs[i..])
  {
    assert segs[i..][1..] == segs[i + 1..];
    assert segs[..i + 1] == segs[..i] + [segs[i]];
    FlatAppend(segs[..i], [segs[i]]);
    FlatSingle(segs[i]);
    assert segs == segs[..i] + segs[i..];
    FlatAppend(segs[..i], segs[i..]);
  }
}
