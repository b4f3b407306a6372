/** Which bytes of the region are referenced, and the range lists the compactor works with. */
module FtwLive {
  import opened FtwFormat

  // ---- the reference notion: byte by byte ----

  predicate InBlock(e: Entry, x: nat) {
    e.off <= x < e.BlockEnd()
  }

  ghost predicate Live(tensors: seq<Entry>, x: nat) {
    exists i :: 0 <= i < |tensors| && InBlock(tensors[i], x)
  }

  /** How many bytes of [lo, hi) some entry references. */
  ghost function LiveCount(tensors: seq<Entry>, lo: nat, hi: nat): nat
    decreases hi
  {
    if hi <= lo then 0
    else LiveCount(tensors, lo, hi - 1) + if Live(tensors, hi - 1) then 1 else 0
  }

  /** The referenced bytes of [lo, hi), in order. */
  ghost function KeepLive(tensors: seq<Entry>, region: Bytes, lo: nat, hi: nat): Bytes
    requires hi <= |region|
    decreases hi
  {
    if hi <= lo then []
    else KeepLive(tensors, region, lo, hi - 1) + if Live(tensors, hi - 1) then [region[hi - 1]] else []
  }

  lemma {:induction false} LiveCountSplit(tensors: seq<Entry>, lo: nat, mid: nat, hi: nat)
    requires lo <= mid <= hi
    ensures LiveCount(tensors, lo, hi) == LiveCount(tensors, lo, mid) + LiveCount(tensors, mid, hi)
    decreases hi
  {
    if mid < hi { LiveCountSplit(tensors, lo, mid, hi - 1); }
  }

  lemma {:induction false} LiveCountBound(tensors: seq<Entry>, lo: nat, hi: nat)
    requires lo <= hi
    ensures LiveCount(tensors, lo, hi) <= hi - lo
    ensures LiveCount(tensors, lo, hi) == hi - lo <==> forall x :: lo <= x < hi ==> Live(tensors, x)
    decreases hi
  {
    if lo < hi { LiveCountBound(tensors, lo, hi - 1); }
  }

  lemma {:induction false} LiveCountNone(tensors: seq<Entry>, lo: nat, hi: nat)
    requires forall x :: lo <= x < hi ==> !Live(tensors, x)
    ensures LiveCount(tensors, lo, hi) == 0
    decreases hi
  {
    if lo < hi { LiveCountNone(tensors, lo, hi - 1); }
  }

  /** Counts over two stretches of equal length agree when liveness agrees byte by byte. */
  lemma {:induction false} LiveCountShift(t: seq<Entry>, u: seq<Entry>, lo: nat, hi: nat, lo': nat, hi': nat)
    requires lo <= hi && lo' <= hi' && hi - lo == hi' - lo'
    requires forall x :: lo <= x < hi ==> (Live(t, x) <==> Live(u, x - lo + lo'))
    ensures LiveCount(t, lo, hi) == LiveCount(u, lo', hi')
    decreases hi
  {
    if lo < hi {
      LiveCountShift(t, u, lo, hi - 1, lo', hi' - 1);
      assert Live(t, hi - 1) <==> Live(u, hi - 1 - lo + lo');
    }
  }

  lemma {:induction false} KeepLiveSplit(tensors: seq<Entry>, region: Bytes, lo: nat, mid: nat, hi: nat)
    requires lo <= mid <= hi <= |region|
    ensures KeepLive(tensors, region, lo, hi) == KeepLive(tensors, region, lo, mid) + KeepLive(tensors, region, mid, hi)
    decreases hi
  {
    if mid < hi { KeepLiveSplit(tensors, region, lo, mid, hi - 1); }
  }

  lemma {:induction false} KeepLiveLength(tensors: seq<Entry>, region: Bytes, lo: nat, hi: nat)
    requires hi <= |region|
    ensures |KeepLive(tensors, region, lo, hi)| == LiveCount(tensors, lo, hi)
    decreases hi
  {
    if lo < hi { KeepLiveLength(tensors, region, lo, hi - 1); }
  }

  lemma {:induction false} KeepLiveAll(tensors: seq<Entry>, region: Bytes, lo: nat, hi: nat)
    requires lo <= hi <= |region|
    requires forall x :: lo <= x < hi ==> Live(tensors, x)
    ensures KeepLive(tensors, region, lo, hi) == region[lo..hi]
    decreases hi
  {
    if lo < hi {
      KeepLiveAll(tensors, region, lo, hi - 1);
      assert region[lo..hi] == region[lo..hi - 1] + [region[hi - 1]];
    }
  }

  lemma {:induction false} KeepLiveNone(tensors: seq<Entry>, region: Bytes, lo: nat, hi: nat)
    requires hi <= |region|
    requires forall x :: lo <= x < hi ==> !Live(tensors, x)
    ensures KeepLive(tensors, region, lo, hi) == []
    decreases hi
  {
    if lo < hi { KeepLiveNone(tensors, region, lo, hi - 1); }
  }

  // ---- range lists ----

  datatype Range = Range(a: nat, b: nat)

  ghost predicate InRange(r: Range, x: nat) { r.a <= x < r.b }

  ghost predicate Covered(rs: seq<Range>, x: nat) {
    exists i :: 0 <= i < |rs| && InRange(rs[i], x)
  }

  predicate RangeLeq(r: Range, s: Range) {
    r.a < s.a || (r.a == s.a && r.b <= s.b)
  }

  /** Nonempty ranges in order, with at least one byte between neighbours. */
  ghost predicate Canonical(rs: seq<Range>) {
    && (forall i :: 0 <= i < |rs| ==> rs[i].a < rs[i].b)
    && (forall i, j :: 0 <= i < j < |rs| ==> rs[i].b < rs[j].a)
  }

  /** `live` is the merged, sorted list of exactly the referenced bytes of [lo, hi). */
  ghost predicate Denotes(live: seq<Range>, tensors: seq<Entry>, lo: nat, hi: nat) {
    && Canonical(live)
    && (forall i :: 0 <= i < |live| ==> lo <= live[i].a && live[i].b <= hi)
    && (forall x :: lo <= x < hi ==> (Covered(live, x) <==> Live(tensors, x)))
  }

  function SumLengths(rs: seq<Range>): nat
    requires forall i :: 0 <= i < |rs| ==> rs[i].a < rs[i].b
  {
    if rs == [] then 0 else (rs[0].b - rs[0].a) + SumLengths(rs[1..])
  }

  function InsertRange(r: Range, sorted: seq<Range>): (out: seq<Range>) {
    if sorted == [] || !RangeLeq(sorted[0], r) then [r] + sorted
    else [sorted[0]] + InsertRange(r, sorted[1..])
  }

  /** `rs.sort()`: tuples in lexicographic order. */
  function SortRanges(rs: seq<Range>): seq<Range> {
    if rs == [] then [] else InsertRange(rs[|rs| - 1], SortRanges(rs[..|rs| - 1]))
  }

  ghost predicate SortedRanges(rs: seq<Range>) {
    forall i, j :: 0 <= i < j < |rs| ==> rs[i].a <= rs[j].a
  }

  lemma {:induction false} InsertRangeSorted(r: Range, sorted: seq<Range>)
    requires SortedRanges(sorted)
    ensures SortedRanges(InsertRange(r, sorted))
    ensures forall x :: x in InsertRange(r, sorted) <==> x == r || x in sorted
  {
    if sorted != [] {
      assert sorted == [sorted[0]] + sorted[1..];
      if RangeLeq(sorted[0], r) {
        InsertRangeSorted(r, sorted[1..]);
        var out := InsertRange(r, sorted[1..]);
        forall j | 0 <= j < |out| ensures sorted[0].a <= out[j].a {
          assert out[j] in out;
        }
      }
    }
  }

  lemma {:induction false} SortRangesSorted(rs: seq<Range>)
    ensures SortedRanges(SortRanges(rs))
    ensures forall x :: x in SortRanges(rs) <==> x in rs
  {
    if rs != [] {
      var n := |rs| - 1;
      SortRangesSorted(rs[..n]);
      InsertRangeSorted(rs[n], SortRanges(rs[..n]));
      assert rs == rs[..n] + [rs[n]];
    }
  }

  lemma CoveredByMembers(rs: seq<Range>, ss: seq<Range>, x: nat)
    requires forall r :: r in rs <==> r in ss
    ensures Covered(rs, x) <==> Covered(ss, x)
  {
    if Covered(rs, x) {
      var i :| 0 <= i < |rs| && InRange(rs[i], x);
      assert rs[i] in rs;
      var j :| 0 <= j < |ss| && ss[j] == rs[i];
      assert InRange(ss[j], x);
    }
    if Covered(ss, x) {
      var i :| 0 <= i < |ss| && InRange(ss[i], x);
      assert ss[i] in ss;
      var j :| 0 <= j < |rs| && rs[j] == ss[i];
      assert InRange(rs[j], x);
    }
  }

  lemma CoveredSnoc(rs: seq<Range>, r: Range, x: nat)
    ensures Covered(rs + [r], x) <==> Covered(rs, x) || InRange(r, x)
  {
    if Covered(rs, x) {
      var i :| 0 <= i < |rs| && InRange(rs[i], x);
      assert (rs + [r])[i] == rs[i];
    }
    if InRange(r, x) { assert InRange((rs + [r])[|rs|], x); }
  }

  /** The range sums and the byte counts agree. */
  lemma {:induction false} SumIsLiveCount(live: seq<Range>, tensors: seq<Entry>, lo: nat, hi: nat)
    requires lo <= hi && Denotes(live, tensors, lo, hi)
    ensures SumLengths(live) == LiveCount(tensors, lo, hi)
    decreases |live|
  {
    if live == [] {
      LiveCountNone(tensors, lo, hi);
    } else {
      var r := live[0];
      DenotesHead(live, tensors, lo, hi);
      DenotesTail(live, tensors, lo, hi);
      LiveCountSplit(tensors, lo, r.a, hi);
      LiveCountSplit(tensors, r.a, r.b, hi);
      LiveCountNone(tensors, lo, r.a);
      LiveCountBound(tensors, r.a, r.b);
      SumIsLiveCount(live[1..], tensors, r.b, hi);
    }
  }

  /** Up to the end of the first range: dead before it starts, live inside it. */
  lemma DenotesHead(live: seq<Range>, tensors: seq<Entry>, lo: nat, hi: nat)
    requires lo <= hi && Denotes(live, tensors, lo, hi) && live != []
    ensures lo <= live[0].a < live[0].b <= hi
    ensures forall x :: lo <= x < live[0].a ==> !Live(tensors, x)
    ensures forall x :: live[0].a <= x < live[0].b ==> Live(tensors, x)
  {
    forall x | lo <= x < live[0].a ensures !Live(tensors, x) {
      assert !Covered(live, x);
    }
    forall x | live[0].a <= x < live[0].b ensures Live(tensors, x) {
      assert InRange(live[0], x);
      assert Covered(live, x);
    }
  }

  lemma DenotesTail(live: seq<Range>, tensors: seq<Entry>, lo: nat, hi: nat)
    requires lo <= hi && Denotes(live, tensors, lo, hi) && live != []
    ensures Denotes(live[1..], tensors, live[0].b, hi)
  {
    var rest := live[1..];
    forall x | live[0].b <= x < hi ensures Covered(rest, x) <==> Live(tensors, x) {
      if Covered(live, x) {
        var i :| 0 <= i < |live| && InRange(live[i], x);
        assert i != 0 && rest[i - 1] == live[i];
      }
      if Covered(rest, x) {
        var i :| 0 <= i < |rest| && InRange(rest[i], x);
        assert live[i + 1] == rest[i];
        assert Covered(live, x);
      }
    }
  }

  // ---- live_ranges ----

  /** Referenced byte ranges of shard [s0, s1), merged and sorted. */
  method LiveRanges(tensors: seq<Entry>, s0: nat, s1: nat) returns (merged: seq<Range>)
    requires s0 <= s1
    ensures Denotes(merged, tensors, s0, s1)
  {
    var rs: seq<Range> := [];
    for k := 0 to |tensors|
      invariant forall i :: 0 <= i < |rs| ==> s0 <= rs[i].a < rs[i].b <= s1
      invariant forall x :: s0 <= x < s1 ==> (Covered(rs, x) <==> Live(tensors[..k], x))
    {
      var e := tensors[k];
      var a := if e.off > s0 then e.off else s0;
      var b := if e.BlockEnd() < s1 then e.BlockEnd() else s1;
      ghost var before := rs;
      if a < b { rs := rs + [Range(a, b)]; }
      forall x: nat | s0 <= x < s1 ensures Covered(rs, x) <==> Live(tensors[..k + 1], x) {
        LiveSnoc(tensors, k, x);
        if a < b { CoveredSnoc(before, Range(a, b), x); }
      }
    }
    assert tensors[..|tensors|] == tensors;
    ghost var unsorted := rs;
    SortRangesSorted(rs);
    rs := SortRanges(rs);
    forall i | 0 <= i < |rs| ensures s0 <= rs[i].a < rs[i].b <= s1 {
      assert rs[i] in rs;
      assert rs[i] in unsorted;
    }
    forall x | s0 <= x < s1 ensures Covered(rs, x) <==> Live(tensors, x) {
      CoveredByMembers(rs, unsorted, x);
    }
    merged := MergeSorted(rs, s0, s1);
  }

  lemma LiveSnoc(tensors: seq<Entry>, k: nat, x: nat)
    requires k < |tensors|
    ensures Live(tensors[..k + 1], x) <==> Live(tensors[..k], x) || InBlock(tensors[k], x)
  {
    if Live(tensors[..k], x) {
      var i :| 0 <= i < k && InBlock(tensors[..k][i], x);
      assert InBlock(tensors[..k + 1][i], x);
    }
    if InBlock(tensors[k], x) { assert InBlock(tensors[..k + 1][k], x); }
    if Live(tensors[..k + 1], x) {
      var i :| 0 <= i < k + 1 && InBlock(tensors[..k + 1][i], x);
      if i < k { assert InBlock(tensors[..k][i], x); }
    }
  }

  /** The merging loop: touching or overlapping neighbours become one range. */
  method MergeSorted(rs: seq<Range>, lo: nat, hi: nat) returns (merged: seq<Range>)
    requires SortedRanges(rs)
    requires forall i :: 0 <= i < |rs| ==> lo <= rs[i].a < rs[i].b <= hi
    ensures Canonical(merged)
    ensures forall i :: 0 <= i < |merged| ==> lo <= merged[i].a && merged[i].b <= hi
    ensures forall x :: Covered(merged, x) <==> Covered(rs, x)
  {
    merged := [];
    for k := 0 to |rs|
      invariant Canonical(merged)
      invariant forall i :: 0 <= i < |merged| ==> lo <= merged[i].a && merged[i].b <= hi
      invariant forall i :: 0 <= i < |merged| ==> forall j :: k <= j < |rs| ==> merged[i].a <= rs[j].a
      invariant forall x :: Covered(merged, x) <==> Covered(rs[..k], x)
    {
      var r := rs[k];
      var n := |merged|;
      ghost var before := merged;
      if n > 0 && r.a <= merged[n - 1].b {
        var last := merged[n - 1];
        var grown := Range(last.a, if last.b < r.b then r.b else last.b);
        merged := merged[n - 1 := grown];
        forall x ensures Covered(merged, x) <==> Covered(before, x) || InRange(r, x) {
          assert merged == before[..n - 1] + [grown];
          assert before == before[..n - 1] + [last];
          CoveredSnoc(before[..n - 1], grown, x);
          CoveredSnoc(before[..n - 1], last, x);
        }
      } else {
        merged := merged + [r];
        forall x ensures Covered(merged, x) <==> Covered(before, x) || InRange(r, x) {
          CoveredSnoc(before, r, x);
        }
      }
      forall x ensures Covered(merged, x) <==> Covered(rs[..k + 1], x) {
        assert rs[..k + 1] == rs[..k] + [r];
        CoveredSnoc(rs[..k], r, x);
      }
    }
    assert rs[..|rs|] == rs;
  }

  // ---- remap ----

  /** `bisect.bisect_right(starts, go)` over the starts of a sorted range list. */
  function BisectRight(live: seq<Range>, go: nat): (i: nat)
    ensures i <= |live|
    ensures forall j :: 0 <= j < i ==> live[j].a <= go
    ensures i < |live| ==> go < live[i].a
  {
    if live == [] || go < live[0].a then 0 else 1 + BisectRight(live[1..], go)
  }

  /** `prefix[i]`: the total length of the first `i` ranges. */
  function Prefix(live: seq<Range>, i: nat): nat
    requires i <= |live| && forall j :: 0 <= j < |live| ==> live[j].a < live[j].b
  {
    SumLengths(live[..i])
  }

  /** The compactor's `remap`, relative to the start of the shard. */
  function RemapByRanges(live: seq<Range>, go: nat): nat
    requires Canonical(live)
  {
    var k := BisectRight(live, go);
    if k == 0 || go >= live[k - 1].b then Prefix(live, k)
    else Prefix(live, k - 1) + (go - live[k - 1].a)
  }

  /** The table lookup moves every offset down by exactly the dead bytes below it. */
  lemma {:induction false} RemapCountsLive(live: seq<Range>, tensors: seq<Entry>, lo: nat, hi: nat, go: nat)
    requires lo <= go < hi && Denotes(live, tensors, lo, hi)
    ensures RemapByRanges(live, go) == LiveCount(tensors, lo, go)
    decreases |live|
  {
    if live == [] {
      LiveCountNone(tensors, lo, go);
      assert live[..0] == [];
    } else {
      var r := live[0];
      DenotesHead(live, tensors, lo, hi);
      if go < r.a {
        LiveCountNone(tensors, lo, go);
        assert live[..0] == [];
      } else {
        LiveCountSplit(tensors, lo, r.a, go);
        LiveCountNone(tensors, lo, r.a);
        var k := BisectRight(live, go);
        var k' := BisectRight(live[1..], go);
        assert live[..k][1..] == live[1..][..k'];
        if go < r.b {
          assert k' == 0;
          assert live[..0] == [];
          LiveCountBound(tensors, r.a, go);
        } else {
          DenotesTail(live, tensors, lo, hi);
          RemapCountsLive(live[1..], tensors, r.b, hi, go);
          LiveCountSplit(tensors, r.a, r.b, go);
          LiveCountBound(tensors, r.a, r.b);
          if k' == 0 {
            assert live[1..][..0] == [];
          } else {
            assert live[1..][k' - 1] == live[k - 1];
            assert live[..k - 1][1..] == live[1..][..k' - 1];
          }
        }
      }
    }
  }
}
