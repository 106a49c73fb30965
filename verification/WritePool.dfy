/**
 Ownership of write buffers, for streams and datagrams alike: a buffer is idle in the pool or
 owned by MsQuic, and an idle buffer carries nothing from an earlier send.
 */
module WritePool {
  import opened Common
  import opened SendPath

  datatype Pool = Pool(idle: seq<WBuf>, inflight: seq<WBuf>, made: nat, peak: nat)

  /** The buffer handed to a native send of `p`. */
  function Filled(pool: Pool, p: Payload): WBuf {
    Fill(TakeBuffer(pool.idle, pool.made).0, p).WithBuffers()
  }

  /** A send was attempted; a refused buffer is blanked and pooled at once. */
  function Attempted(pool: Pool, p: Payload, ok: bool): Pool {
    var rest := TakeBuffer(pool.idle, pool.made).1;
    var full := Filled(pool, p);
    Pool(if ok then rest else rest + [full.Reset()],
         if ok then pool.inflight + [full] else pool.inflight,
         if pool.idle == [] then pool.made + 1 else pool.made,
         Max(pool.peak, |pool.inflight| + 1))
  }

  /** MsQuic returned the context of one send. */
  function Returned(pool: Pool, i: nat): Pool
    requires i < |pool.inflight|
  {
    pool.(idle := pool.idle + [pool.inflight[i].Reset()], inflight := pool.inflight[..i] + pool.inflight[i + 1..])
  }

  ghost function Times(bufs: seq<WBuf>, id: nat): nat {
    if bufs == [] then 0 else Times(bufs[..|bufs| - 1], id) + One(bufs[|bufs| - 1].id == id)
  }

  ghost predicate OwnedOnce(pool: Pool, id: nat) {
    Times(pool.idle, id) + Times(pool.inflight, id) == One(id < pool.made)
  }

  /** Each buffer ever allocated is in exactly one place, idle ones are blank, and allocation is bounded. */
  ghost predicate Inv(pool: Pool) {
    var holds :=
      && (forall i :: 0 <= i < |pool.idle| ==> pool.idle[i].Blank())
      && (forall id: nat :: OwnedOnce(pool, id))
      && |pool.idle| + |pool.inflight| == pool.made <= pool.peak;
    holds
  }

  lemma {:induction false} TimesSnoc(bufs: seq<WBuf>, b: WBuf, id: nat)
    ensures Times(bufs + [b], id) == Times(bufs, id) + One(b.id == id)
  {
    assert (bufs + [b])[..|bufs|] == bufs;
  }

  lemma {:induction false} TimesAppend(a: seq<WBuf>, b: seq<WBuf>, id: nat)
    ensures Times(a + b, id) == Times(a, id) + Times(b, id)
  {
    if b == [] {
      assert a + b == a;
    } else {
      TimesAppend(a, b[..|b| - 1], id);
      assert (a + b)[..|a + b| - 1] == a + b[..|b| - 1];
    }
  }

  lemma {:induction false} TimesWithout(bufs: seq<WBuf>, i: nat, id: nat)
    requires i < |bufs|
    ensures Times(bufs, id) == Times(bufs[..i] + bufs[i + 1..], id) + One(bufs[i].id == id)
  {
    hide Times;
    TimesAppend(bufs[..i], bufs[i + 1..], id);
    TimesAppend(bufs[..i + 1], bufs[i + 1..], id);
    TimesSnoc(bufs[..i], bufs[i], id);
    assert bufs[..i + 1] == bufs[..i] + [bufs[i]];
    assert bufs == bufs[..i + 1] + bufs[i + 1..];
  }

  lemma {:induction false} AttemptOwnsOnce(pool: Pool, p: Payload, ok: bool, id: nat)
    requires OwnedOnce(pool, id)
    ensures OwnedOnce(Attempted(pool, p, ok), id)
  {
    var (b, rest) := TakeBuffer(pool.idle, pool.made);
    var full := Filled(pool, p);
    TimesSnoc(rest, full.Reset(), id);
    TimesSnoc(pool.inflight, full, id);
  }

  /** An attempt keeps ownership, allocating only when every buffer is in flight. */
  lemma {:induction false} AttemptKeeps(pool: Pool, p: Payload, ok: bool)
    requires Inv(pool)
    ensures Inv(Attempted(pool, p, ok))
  {
    forall id: nat ensures OwnedOnce(Attempted(pool, p, ok), id) {
      AttemptOwnsOnce(pool, p, ok, id);
    }
  }

  lemma {:induction false} ReturnKeeps(pool: Pool, i: nat)
    requires Inv(pool) && i < |pool.inflight|
    ensures Inv(Returned(pool, i))
  {
    forall id: nat ensures OwnedOnce(Returned(pool, i), id) {
      assert OwnedOnce(pool, id);
      TimesWithout(pool.inflight, i, id);
      TimesSnoc(pool.idle, pool.inflight[i].Reset(), id);
    }
  }

  /** What MsQuic is handed is exactly the caller's bytes: nothing of an earlier send is resent. */
  lemma {:induction false} HandsOverExactly(pool: Pool, p: Payload)
    requires Inv(pool)
    ensures Flat(Filled(pool, p).buffers) == p.Bytes()
    ensures Filled(pool, p).buffers != []
  {
    var b := TakeBuffer(pool.idle, pool.made).0;
    assert b.Blank();
    match p
    case Slice(bytes) => FlatSingle(bytes); assert [] + bytes == bytes;
    case Chunks(cs) => FlatSingle<byte>([]); assert [] + cs == cs;
  }
}
