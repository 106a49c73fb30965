/**
 Receive-completion accounting. MsQuic reclaims received bytes cumulatively from the
 front, so only the contiguous prefix of the released ranges may ever be reported.
 */
module Completion {
  import opened Common
  import opened RangeSet

  datatype Accounting = Accounting(done: seq<Range>, cursor: nat)

  const FRESH := Accounting([], 0)

  /** One buffer has been released: the new accounting, and the length to report, if any. */
  function Register(a: Accounting, range: Range, offset: nat, empty: bool, fin: bool): (Accounting, Option<nat>) {
    var done := if range.start < range.end then Insert(a.done, range) else a.done;
    if done != [] then
      if done[0].start == 0 && a.cursor < done[0].end then
        (Accounting(done, done[0].end), Some(done[0].end - a.cursor))
      else if done[0].start == 0 && a.cursor == done[0].end && offset == done[0].end && empty && fin then
        (Accounting(done, a.cursor), Some(0))
      else
        (Accounting(done, a.cursor), None)
    else if empty && fin then
      (Accounting(done, a.cursor), Some(0))
    else
      (Accounting(done, a.cursor), None)
  }

  function Reported(calls: Option<nat>): nat {
    if calls.Some? then calls.value else 0
  }

  ghost predicate Inv(a: Accounting) {
    var holds :=
      Coalesced(a.done) && a.cursor == Prefix(a.done);
    holds
  }

  /** The cursor is the largest k with every position below k released. */
  lemma {:induction false} CursorIsContiguousPrefix(a: Accounting)
    requires Inv(a)
    ensures forall p: nat :: p < a.cursor ==> Contains(a.done, p)
    ensures !Contains(a.done, a.cursor)
  {
    PrefixIsMaximal(a.done);
  }

  /** Registering adds exactly the range, keeps the cursor maximal and reports exactly its advance. */
  lemma {:induction false} RegisterRefines(a: Accounting, range: Range, offset: nat, empty: bool, fin: bool)
    requires Inv(a) && range.start <= range.end
    ensures var (b, n) := Register(a, range, offset, empty, fin);
            && Inv(b)
            && b.cursor == a.cursor + Reported(n)
            && (forall p: nat :: Contains(b.done, p) <==> Contains(a.done, p) || range.Has(p))
            && (n.None? ==> b.cursor == a.cursor)
  {
    if range.start < range.end {
      InsertKeepsCoalesced(a.done, range, -1);
      forall p: nat ensures Contains(Insert(a.done, range), p) <==> Contains(a.done, p) || range.Has(p) {
        InsertIsUnion(a.done, range, p);
      }
      var done := Insert(a.done, range);
      PrefixIsMaximal(a.done);
      PrefixIsMaximal(done);
      assert Prefix(a.done) <= Prefix(done);
    }
  }

  /** When a call to MsQuic is due: the prefix grew, or an exhausted FIN buffer was released at the
      cursor. While nothing at all has been recorded its offset is not looked at. */
  lemma {:induction false} ReportsExactlyWhen(a: Accounting, range: Range, offset: nat, empty: bool, fin: bool)
    requires Inv(a) && range.start <= range.end
    ensures var (b, n) := Register(a, range, offset, empty, fin);
            && (n.Some? && n.value > 0 <==> b.cursor > a.cursor)
            && (n == Some(0) <==> b.cursor == a.cursor && empty && fin
                                  && (b.done == [] || (b.cursor > 0 && b.cursor == offset)))
  {
    RegisterRefines(a, range, offset, empty, fin);
    var b := Register(a, range, offset, empty, fin).0;
    assert b.done != [] ==> b.done[0].start < b.done[0].end;
  }

  datatype Release = Release(range: Range, offset: nat, empty: bool, fin: bool)

  /** Releases in the given order: final accounting and every length reported. */
  function RegisterAll(a: Accounting, rels: seq<Release>): (Accounting, seq<nat>) {
    if rels == [] then (a, [])
    else
      var n := |rels| - 1;
      var (b, calls) := RegisterAll(a, rels[..n]);
      var (c, call) := Register(b, rels[n].range, rels[n].offset, rels[n].empty, rels[n].fin);
      (c, if call.Some? then calls + [call.value] else calls)
  }

  ghost predicate Released(rels: seq<Release>, p: nat) {
    exists i :: 0 <= i < |rels| && rels[i].range.Has(p)
  }

  lemma {:induction false} ReleasedSplit(rels: seq<Release>, p: nat)
    requires rels != []
    ensures var n := |rels| - 1; Released(rels, p) <==> Released(rels[..n], p) || rels[n].range.Has(p)
  {
    var n := |rels| - 1;
    if Released(rels, p) && !rels[n].range.Has(p) {
      var i :| 0 <= i < |rels| && rels[i].range.Has(p);
      assert rels[..n][i].range.Has(p);
    }
    if Released(rels[..n], p) {
      var i :| 0 <= i < |rels[..n]| && rels[..n][i].range.Has(p);
      assert rels[i].range.Has(p);
    }
  }

  lemma {:induction false} SumSnoc(xs: seq<nat>, x: nat)
    ensures Sum(xs + [x]) == Sum(xs) + x
  {
    assert (xs + [x])[..|xs|] == xs;
  }

  /** Over any order of releases: what is recorded is the union, what is reported sums to the cursor. */
  lemma {:induction false} RegisterAllRefines(rels: seq<Release>)
    requires forall i :: 0 <= i < |rels| ==> rels[i].range.start <= rels[i].range.end
    ensures var (a, calls) := RegisterAll(FRESH, rels);
            && Inv(a)
            && (forall p: nat :: Contains(a.done, p) <==> Released(rels, p))
            && Sum(calls) == a.cursor
  {
    if rels != [] {
      var n := |rels| - 1;
      var (b, calls) := RegisterAll(FRESH, rels[..n]);
      RegisterAllRefines(rels[..n]);
      RegisterRefines(b, rels[n].range, rels[n].offset, rels[n].empty, rels[n].fin);
      var (c, call) := Register(b, rels[n].range, rels[n].offset, rels[n].empty, rels[n].fin);
      assert RegisterAll(FRESH, rels) == (c, if call.Some? then calls + [call.value] else calls);
      forall p: nat ensures Contains(c.done, p) <==> Released(rels, p) {
        ReleasedSplit(rels, p);
      }
      if call.Some? {
        SumSnoc(calls, call.value);
      }
    }
  }

  lemma {:induction false} UpTo(total: nat, p: nat)
    ensures Contains([Range(0, total)], p) <==> p < total
  {
    assert [Range(0, total)][0].Has(p) <==> p < total;
  }

  /**
   Whatever order N received bytes are released in, exactly N bytes are reported, and the
   record is the single range [0, N).
   */
  lemma {:induction false} AnyOrderReportsEverything(rels: seq<Release>, total: nat)
    requires forall i :: 0 <= i < |rels| ==> rels[i].range.start <= rels[i].range.end
    requires forall p: nat :: Released(rels, p) <==> p < total
    ensures var (a, calls) := RegisterAll(FRESH, rels);
            && Sum(calls) == total == a.cursor
            && a.done == if total == 0 then [] else [Range(0, total)]
  {
    var (a, calls) := RegisterAll(FRESH, rels);
    RegisterAllRefines(rels);
    CursorIsContiguousPrefix(a);
    assert !Released(rels, a.cursor) && (total < a.cursor ==> Contains(a.done, total));
    var want := if total == 0 then [] else [Range(0, total)];
    forall p: nat ensures Contains(want, p) <==> p < total {
      UpTo(total, p);
    }
    Canonical(a.done, want);
  }
}
