/**
 The coalescing set of byte ranges that records which received ranges have been
 released. It is kept as the ascending list of its maximal ranges, which is what
 inserting with coalescing maintains; the plain set of byte positions is its meaning.
 */
module RangeSet {
  import opened Common

  datatype Range = Range(start: nat, end: nat) {
    predicate Has(p: nat) { start <= p < end }
  }

  /** Ascending, every range non-empty, and a gap between neighbours: nothing left to coalesce. */
  ghost predicate Coalesced(rs: seq<Range>) {
    && (forall i :: 0 <= i < |rs| ==> rs[i].start < rs[i].end)
    && (forall i, j :: 0 <= i < j < |rs| ==> rs[i].end < rs[j].start)
  }

  /** The positions the list stands for. */
  ghost predicate Contains(rs: seq<Range>, p: nat) {
    exists i :: 0 <= i < |rs| && rs[i].Has(p)
  }

  /** Insert a range, swallowing every range it overlaps or touches. */
  function Insert(rs: seq<Range>, r: Range): (out: seq<Range>)
    ensures out != []
  {
    if rs == [] then [r]
    else if r.end < rs[0].start then [r] + rs
    else if rs[0].end < r.start then [rs[0]] + Insert(rs[1..], r)
    else Insert(rs[1..], Range(Min(rs[0].start, r.start), Max(rs[0].end, r.end)))
  }

  lemma {:induction false} ContainsHead(rs: seq<Range>, p: nat)
    requires rs != []
    ensures Contains(rs, p) <==> rs[0].Has(p) || Contains(rs[1..], p)
  {
    if Contains(rs, p) && !rs[0].Has(p) {
      var i :| 0 <= i < |rs| && rs[i].Has(p);
      assert rs[1..][i - 1].Has(p);
    }
    if Contains(rs[1..], p) {
      var i :| 0 <= i < |rs[1..]| && rs[1..][i].Has(p);
      assert rs[i + 1].Has(p);
    }
  }

  /** A lower bound that every range of the list starts above. */
  ghost predicate Above(rs: seq<Range>, bound: int) {
    forall i :: 0 <= i < |rs| ==> bound < rs[i].start
  }

  lemma {:induction false} InsertKeepsCoalesced(rs: seq<Range>, r: Range, bound: int)
    requires Coalesced(rs) && r.start < r.end && Above(rs, bound) && bound < r.start
    ensures Coalesced(Insert(rs, r)) && Above(Insert(rs, r), bound)
  {
    if rs != [] && r.end >= rs[0].start {
      if rs[0].end < r.start {
        InsertKeepsCoalesced(rs[1..], r, rs[0].end);
      } else {
        InsertKeepsCoalesced(rs[1..], Range(Min(rs[0].start, r.start), Max(rs[0].end, r.end)), bound);
      }
    }
  }

  lemma {:induction false} InsertIsUnion(rs: seq<Range>, r: Range, p: nat)
    requires Coalesced(rs) && r.start < r.end
    ensures Contains(Insert(rs, r), p) <==> Contains(rs, p) || r.Has(p)
  {
    var out := Insert(rs, r);
    ContainsHead(out, p);
    if rs == [] {
    } else {
      ContainsHead(rs, p);
      if r.end < rs[0].start {
        assert out[1..] == rs;
      } else if rs[0].end < r.start {
        assert out[1..] == Insert(rs[1..], r);
        InsertIsUnion(rs[1..], r, p);
      } else {
        InsertIsUnion(rs[1..], Range(Min(rs[0].start, r.start), Max(rs[0].end, r.end)), p);
      }
    }
  }

  /** The end of the first range if it starts at 0: how far the contiguous prefix reaches. */
  function Prefix(rs: seq<Range>): nat {
    if rs != [] && rs[0].start == 0 then rs[0].end else 0
  }

  /** The prefix is the largest k with every position below k present. */
  lemma {:induction false} PrefixIsMaximal(rs: seq<Range>)
    requires Coalesced(rs)
    ensures forall p: nat :: p < Prefix(rs) ==> Contains(rs, p)
    ensures !Contains(rs, Prefix(rs))
  {
    if rs != [] && rs[0].start == 0 {
      forall p: nat | p < rs[0].end ensures Contains(rs, p) {
        assert rs[0].Has(p);
      }
    }
  }

  lemma {:induction false} EmptyMeansNothing(rs: seq<Range>)
    requires Coalesced(rs)
    ensures rs == [] <==> forall p: nat :: !Contains(rs, p)
  {
    if rs != [] {
      assert rs[0].Has(rs[0].start);
      assert Contains(rs, rs[0].start);
    }
  }

  /** Two coalesced lists with the same positions are the same list, so insertion order never shows. */
  lemma {:induction false} Canonical(a: seq<Range>, b: seq<Range>)
    requires Coalesced(a) && Coalesced(b)
    requires forall p: nat :: Contains(a, p) <==> Contains(b, p)
    ensures a == b
  {
    EmptyMeansNothing(a);
    EmptyMeansNothing(b);
    if a != [] && b != [] {
      HeadStartLeast(a, b);
      HeadStartLeast(b, a);
      HeadEndLeast(a, b);
      HeadEndLeast(b, a);
      assert a[0] == b[0];
      forall p: nat ensures Contains(a[1..], p) <==> Contains(b[1..], p) {
        ContainsHead(a, p);
        ContainsHead(b, p);
        HeadApart(a, p);
        HeadApart(b, p);
      }
      Canonical(a[1..], b[1..]);
    }
  }

  lemma {:induction false} HeadApart(a: seq<Range>, p: nat)
    requires Coalesced(a) && a != []
    ensures a[0].Has(p) ==> !Contains(a[1..], p)
  {
  }

  lemma {:induction false} HeadStartLeast(a: seq<Range>, b: seq<Range>)
    requires Coalesced(a) && Coalesced(b) && a != [] && b != []
    requires forall p: nat :: Contains(a, p) <==> Contains(b, p)
    ensures a[0].start <= b[0].start
  {
    var p := b[0].start;
    assert b[0].Has(p);
    assert Contains(b, p);
    var i :| 0 <= i < |a| && a[i].Has(p);
  }

  lemma {:induction false} HeadEndLeast(a: seq<Range>, b: seq<Range>)
    requires Coalesced(a) && Coalesced(b) && a != [] && b != []
    requires a[0].start == b[0].start
    requires forall p: nat :: Contains(a, p) <==> Contains(b, p)
    ensures a[0].end <= b[0].end
  {
    var p := b[0].end;
    assert a[0].Has(p) ==> Contains(a, p);
  }
}
