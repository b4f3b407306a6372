/** The repair tool's in-place run with new tensors: entries are dropped and renamed, new ones are
    appended behind the old end, one index swap makes both visible, and the shards are compacted. */
module FtwPatch {
  import opened FtwFormat
  import opened FtwLive
  import opened FtwCompact
  import opened FtwDisk
  import opened FtwLayout
  import opened FtwWriters
  import opened FtwCompactor
  import opened FtwRepair

  // ---- the new index ----

  /** An entry of the old index that stays, under its (possibly new) name. */
  datatype Kept = Kept(pos: nat, name: string)

  /** The kept entries are old ones, in index order, none twice. */
  ghost predicate Keeps(keep: seq<Kept>, n: nat) {
    && (forall i :: 0 <= i < |keep| ==> keep[i].pos < n)
    && (forall i, j :: 0 <= i < j < |keep| ==> keep[i].pos < keep[j].pos)
  }

  function KeptEntries(tensors: seq<Entry>, keep: seq<Kept>): seq<Entry>
    requires forall i :: 0 <= i < |keep| ==> keep[i].pos < |tensors|
  {
    seq(|keep|, i requires 0 <= i < |keep| => tensors[keep[i].pos].(name := keep[i].name))
  }

  /** What the old checkpoint says about the entries that stay. */
  ghost function KeptContents(old_: seq<Tensor>, keep: seq<Kept>): seq<Tensor>
    requires forall i :: 0 <= i < |keep| ==> keep[i].pos < |old_|
  {
    seq(|keep|, i requires 0 <= i < |keep| => old_[keep[i].pos].(name := keep[i].name))
  }

  function SumNbytes(shards: seq<Shard>): nat {
    if shards == [] then 0 else shards[0].nbytes + SumNbytes(shards[1..])
  }

  lemma {:induction false} TilesSum(shards: seq<Shard>, from: nat, to: nat)
    requires Tiles(shards, from, to)
    ensures to == from + SumNbytes(shards)
    decreases |shards|
  {
    if shards != [] { TilesSum(shards[1..], shards[0].End(), to); }
  }

  lemma SortedMembers(shards: seq<Shard>, x: Shard)
    ensures x in SortShards(shards) <==> x in shards
  {
    SortShardsMembers(shards);
    assert x in multiset(shards) <==> x in multiset(SortShards(shards));
  }

  /** One more shard behind all others. */
  lemma SortLast(shards: seq<Shard>, last: Shard)
    requires forall x :: x in SortShards(shards) ==> x.off <= last.off
    ensures SortShards(shards + [last]) == SortShards(shards) + [last]
  {
    var all := shards + [last];
    assert all[..|all| - 1] == shards;
    InsertShardLast(last, SortShards(shards));
  }

  lemma SnocParts(a: seq<Shard>, b: seq<Shard>)
    requires b != []
    ensures a + b == a + b[..|b| - 1] + [b[|b| - 1]]
  {
  }

  lemma BehindAll(a: seq<Shard>, b: seq<Shard>, from: nat)
    requires b != [] && Ascending(b) && (forall s :: s in a ==> s.off <= from) && (forall s :: s in b ==> from <= s.off)
    ensures forall x :: x in SortShards(a) + b[..|b| - 1] ==> x.off <= b[|b| - 1].off
  {
    forall x | x in SortShards(a) + b[..|b| - 1] ensures x.off <= b[|b| - 1].off {
      SortedMembers(a, x);
    }
  }

  /** Shards that start behind all others stay behind them when sorted. */
  lemma {:induction false} SortBehind(a: seq<Shard>, b: seq<Shard>, from: nat)
    requires Ascending(b) && (forall s :: s in a ==> s.off <= from) && (forall s :: s in b ==> from <= s.off)
    ensures SortShards(a + b) == SortShards(a) + b
    decreases |b|
  {
    if b == [] {
      assert a + b == a && SortShards(a) + b == SortShards(a);
    } else {
      var n := |b| - 1;
      SortBehind(a, b[..n], from);
      BehindAll(a, b, from);
      SortLast(a + b[..n], b[n]);
      SnocParts(a, b);
      SnocParts(SortShards(a), b);
    }
  }

  /** Where the new shards go in region order. */
  lemma AppendedOrder(ix: Index, shards: seq<Shard>, total: nat)
    requires WellFormed(ix) && Tiles(shards, ix.totalBytes, total)
    ensures SortShards(ix.shards + shards) == SortShards(ix.shards) + shards
  {
    TilesOrder(shards, ix.totalBytes, total);
    TilesOrder(SortShards(ix.shards), 0, ix.totalBytes);
    forall s | s in ix.shards ensures s.off <= ix.totalBytes {
      SortShardsMembers(ix.shards);
      assert s in multiset(SortShards(ix.shards));
      assert s in SortShards(ix.shards) && s.End() <= ix.totalBytes;
    }
    SortBehind(ix.shards, shards, ix.totalBytes);
  }

  /** Old shards, then new ones: they tile, in whole pages, under distinct numbers. */
  lemma AppendedShards(ix: Index, shards: seq<Shard>, limit: nat, first: nat, total: nat)
    requires WellFormed(ix) && Laid(shards, limit, first, ix.totalBytes, total)
    requires forall s :: s in shards ==> !Names(SortShards(ix.shards), s.file)
    ensures var all := SortShards(ix.shards) + shards;
      Tiles(all, 0, total) && DistinctFiles(all) && AlignedShards(all)
  {
    var front := SortShards(ix.shards);
    TilesSplit(front, shards, 0, ix.totalBytes, total);
    forall i, j | 0 <= i < j < |front + shards| ensures (front + shards)[i].file != (front + shards)[j].file {
      if i < |front| <= j { assert front[i] in front && shards[j - |front|] in shards; }
    }
  }

  /** The kept entries and the new ones fit and do not overlap. */
  lemma AppendedEntries(ix: Index, keep: seq<Kept>, items: seq<Tensor>)
    requires WellFormed(ix) && Keeps(keep, |ix.tensors|)
    ensures var es, total := KeptEntries(ix.tensors, keep) + EntriesOf(items, |items|, ix.totalBytes), OffsetOf(items, |items|, ix.totalBytes);
      (forall e :: e in es ==> EntryFits(e, total)) && Disjoint(es)
  {
    var kept, added := KeptEntries(ix.tensors, keep), EntriesOf(items, |items|, ix.totalBytes);
    TotalAligned(SortShards(ix.shards), 0, ix.totalBytes);
    EntriesTidy(items, ix.totalBytes);
    OffsetGrows(items, 0, |items|, ix.totalBytes);
    forall e | e in kept ensures EntryFits(e, ix.totalBytes) && e.BlockEnd() <= ix.totalBytes {
      var i :| 0 <= i < |kept| && kept[i] == e;
      assert EntryFits(ix.tensors[keep[i].pos], ix.totalBytes);
      BlockFits(e, ix.totalBytes);
    }
    KeptDisjoint(ix.tensors, keep);
    DisjointJoin(kept, added, ix.totalBytes);
  }

  lemma BlockFits(e: Entry, total: nat)
    requires EntryFits(e, total) && total % ALIGN == 0
    ensures e.BlockEnd() <= total
  {
    AlignUpShift(e.off, e.nbytes);
    AlignUpLeast(e.off + e.nbytes, total);
  }

  lemma KeptDisjoint(tensors: seq<Entry>, keep: seq<Kept>)
    requires Disjoint(tensors) && Keeps(keep, |tensors|)
    ensures Disjoint(KeptEntries(tensors, keep))
  {
    var kept := KeptEntries(tensors, keep);
    forall i, j | 0 <= i < |kept| && 0 <= j < |kept| && i != j
      ensures kept[i].BlockEnd() <= kept[j].off || kept[j].BlockEnd() <= kept[i].off
    {
      var a, b := tensors[keep[i].pos], tensors[keep[j].pos];
      assert keep[i].pos != keep[j].pos;
      assert a.BlockEnd() <= b.off || b.BlockEnd() <= a.off;
    }
  }

  lemma DisjointJoin(a: seq<Entry>, b: seq<Entry>, at: nat)
    requires Disjoint(a) && Disjoint(b)
    requires (forall e :: e in a ==> e.BlockEnd() <= at) && (forall e :: e in b ==> at <= e.off)
    ensures Disjoint(a + b)
  {
    var s := a + b;
    forall i, j | 0 <= i < |s| && 0 <= j < |s| && i != j
      ensures s[i].BlockEnd() <= s[j].off || s[j].BlockEnd() <= s[i].off
    {
      if i < |a| { assert s[i] in a; } else { assert s[i] in b && s[i] == b[i - |a|]; }
      if j < |a| { assert s[j] in a; } else { assert s[j] in b && s[j] == b[j - |a|]; }
    }
  }

  ghost function NewIndex(ix: Index, keep: seq<Kept>, items: seq<Tensor>, shards: seq<Shard>): Index
    requires forall i :: 0 <= i < |keep| ==> keep[i].pos < |ix.tensors|
  {
    Index(KeptEntries(ix.tensors, keep) + EntriesOf(items, |items|, ix.totalBytes), ix.shards + shards,
          OffsetOf(items, |items|, ix.totalBytes))
  }

  /** MAIN: append mode extends a well-formed index to a well-formed one, whose checkpoint says what
      the kept entries said and then the new tensors. */
  lemma AppendedIsSafe(f0: Files, f1: Files, ix: Index, keep: seq<Kept>, items: seq<Tensor>, shards: seq<Shard>, limit: nat, first: nat, next: int)
    requires Safe(f0, ix) && Clear(ix, first, next) && Keeps(keep, |ix.tensors|)
    requires forall s :: s in shards ==> s.file < next
    requires Laid(shards, limit, first, ix.totalBytes, OffsetOf(items, |items|, ix.totalBytes))
    requires Holds(f1, shards, RegionOf(items, |items|)) && Around(f0, f1, first, next)
    ensures var ix' := NewIndex(ix, keep, items, shards);
      Safe(f1, ix') && Contents(f1, ix') == KeptContents(Contents(f0, ix), keep) + items
  {
    var ix', front := NewIndex(ix, keep, items, shards), SortShards(ix.shards);
    AppendedOrder(ix, shards, ix'.totalBytes);
    forall s | s in shards ensures !Names(front, s.file) {}
    forall s | s in front ensures s.file in f1 && f1[s.file] == f0[s.file] { assert Names(front, s.file); }
    AppendedShards(ix, shards, limit, first, ix'.totalBytes);
    AppendedEntries(ix, keep, items);
    assert WellFormed(ix');
    AppendedRegion(f0, f1, front, shards, items);
    var region := Region(f0, front) + RegionOf(items, |items|);
    RegionLength(f0, front, 0, ix.totalBytes);
    AppendedContents(f0, ix, keep, items, region);
    ContentsAre(f1, ix', region, KeptContents(Contents(f0, ix), keep) + items);
  }

  lemma AppendedRegion(f0: Files, f1: Files, front: seq<Shard>, shards: seq<Shard>, items: seq<Tensor>)
    requires Complete(f0, front) && Holds(f1, shards, RegionOf(items, |items|))
    requires forall s :: s in front ==> s.file in f1 && f1[s.file] == f0[s.file]
    ensures Holds(f1, front + shards, Region(f0, front) + RegionOf(items, |items|))
  {
    HoldsFrame(f0, f1, front, Region(f0, front));
    RegionSplit(f1, front, shards);
  }

  lemma AppendedContents(f0: Files, ix: Index, keep: seq<Kept>, items: seq<Tensor>, region: Bytes)
    requires Safe(f0, ix) && Keeps(keep, |ix.tensors|)
    requires region == Region(f0, SortShards(ix.shards)) + RegionOf(items, |items|)
    requires |Region(f0, SortShards(ix.shards))| == ix.totalBytes
    ensures var es := KeptEntries(ix.tensors, keep) + EntriesOf(items, |items|, ix.totalBytes);
      var all := KeptContents(Contents(f0, ix), keep) + items;
      && |es| == |all|
      && forall i :: 0 <= i < |all| ==> es[i].off + es[i].nbytes <= |region| && Content(region, es[i]) == all[i]
  {
    var front := Region(f0, SortShards(ix.shards));
    var es := KeptEntries(ix.tensors, keep) + EntriesOf(items, |items|, ix.totalBytes);
    var all := KeptContents(Contents(f0, ix), keep) + items;
    assert region[ix.totalBytes..] == RegionOf(items, |items|);
    forall i | 0 <= i < |all| ensures es[i].off + es[i].nbytes <= |region| && Content(region, es[i]) == all[i] {
      if i < |keep| {
        var e := ix.tensors[keep[i].pos];
        assert EntryFits(e, ix.totalBytes);
        assert region[e.off..e.off + e.nbytes] == front[e.off..e.off + e.nbytes];
      } else {
        EntryReadsBack(items, |items|, ix.totalBytes, region, i - |keep|);
      }
    }
  }

  // ---- the dirty table after the swap ----

  lemma LiveJoin(a: seq<Entry>, b: seq<Entry>, x: nat)
    ensures Live(a + b, x) <==> Live(a, x) || Live(b, x)
  {
    if Live(a, x) {
      var i :| 0 <= i < |a| && InBlock(a[i], x);
      assert InBlock((a + b)[i], x);
    }
    if Live(b, x) {
      var i :| 0 <= i < |b| && InBlock(b[i], x);
      assert InBlock((a + b)[|a| + i], x);
    }
  }

  /** Every byte behind the old end belongs to a new entry's block ... */
  lemma {:induction false} NewIsLive(items: seq<Tensor>, n: nat, base: nat, x: nat)
    requires n <= |items| && base <= x < OffsetOf(items, n, base)
    ensures Live(EntriesOf(items, |items|, base), x)
    decreases n
  {
    if x < OffsetOf(items, n - 1, base) {
      NewIsLive(items, n - 1, base, x);
    } else {
      assert InBlock(EntriesOf(items, |items|, base)[n - 1], x);
    }
  }

  /** ... and no byte in front of it does. */
  lemma OldIsNotNew(items: seq<Tensor>, base: nat, x: nat)
    requires base % ALIGN == 0 && x < base
    ensures !Live(EntriesOf(items, |items|, base), x)
  {
    EntriesTidy(items, base);
    var es := EntriesOf(items, |items|, base);
    forall i | 0 <= i < |es| ensures !InBlock(es[i], x) { assert es[i] in es; }
  }

  /** An old shard's live bytes are those of the kept entries. */
  lemma OldCounts(kept: seq<Entry>, items: seq<Tensor>, base: nat, lo: nat, hi: nat)
    requires base % ALIGN == 0 && lo <= hi <= base
    ensures LiveCount(kept + EntriesOf(items, |items|, base), lo, hi) == LiveCount(kept, lo, hi)
  {
    var added := EntriesOf(items, |items|, base);
    forall x | lo <= x < hi ensures Live(kept, x) <==> Live(kept + added, x) {
      LiveJoin(kept, added, x);
      OldIsNotNew(items, base, x);
    }
    LiveCountShift(kept, kept + added, lo, hi, lo, hi);
  }

  /** A new shard has no dead byte. */
  lemma NewIsClean(kept: seq<Entry>, items: seq<Tensor>, base: nat, s: Shard)
    requires base <= s.off && s.End() <= OffsetOf(items, |items|, base)
    ensures !Dirty(kept + EntriesOf(items, |items|, base), s)
  {
    var added := EntriesOf(items, |items|, base);
    forall x | s.off <= x < s.End() ensures Live(kept + added, x) {
      NewIsLive(items, |items|, base, x);
      LiveJoin(kept, added, x);
    }
    LiveCountBound(kept + added, s.off, s.End());
  }

  /** MAIN: the dirty table behind the swap is the one computed before anything was written: old shards
      against the kept entries. */
  lemma AppendedDirty(kept: seq<Entry>, items: seq<Tensor>, front: seq<Shard>, shards: seq<Shard>, base: nat)
    requires base % ALIGN == 0 && Tiles(front, 0, base) && Tiles(shards, base, OffsetOf(items, |items|, base))
    ensures DirtyLives(kept + EntriesOf(items, |items|, base), front + shards) == DirtyLives(kept, front)
  {
    var all := kept + EntriesOf(items, |items|, base);
    TilesOrder(front, 0, base);
    TilesOrder(shards, base, OffsetOf(items, |items|, base));
    forall i | 0 <= i < |front|
      ensures LiveCount(kept, front[i].off, front[i].End()) == LiveCount(all, front[i].off, front[i].End())
    {
      assert front[i] in front;
      OldCounts(kept, items, base, front[i].off, front[i].End());
    }
    DirtyLivesSame(kept, front, all, front);
    forall s | s in shards ensures !Dirty(all, s) { NewIsClean(kept, items, base, s); }
    NoneDirty(all, shards);
    DirtyLivesSplit(all, front, shards);
  }

  // ---- what a run is asked to do ----

  /** The entries that stay, the new tensors, and whether the n-gram table has to be written (beside the
      shards). */
  datatype Plan = Plan(keep: seq<Kept>, items: seq<Tensor>, table: bool)

  /** Something is renamed, dropped or new. */
  predicate Changes(ix: Index, p: Plan)
    requires forall i :: 0 <= i < |p.keep| ==> p.keep[i].pos < |ix.tensors|
  {
    KeptEntries(ix.tensors, p.keep) != ix.tensors || p.items != []
  }

  /** There is something to do: otherwise the run returns at once. */
  ghost predicate GoesAhead(ix: Index, p: Plan)
    requires Keeps(p.keep, |ix.tensors|)
  {
    Changes(ix, p) || p.table || DirtyLives(ix.tensors, SortShards(ix.shards)) != []
  }

  ghost function Becomes(contents: seq<Tensor>, p: Plan): seq<Tensor>
    requires Keeps(p.keep, |contents|)
  {
    KeptContents(contents, p.keep) + p.items
  }

  /** The dirty table of the old shards against the entries that stay. */
  ghost function DirtyAfter(ix: Index, p: Plan): seq<nat>
    requires Keeps(p.keep, |ix.tensors|)
  {
    DirtyLives(KeptEntries(ix.tensors, p.keep), SortShards(ix.shards))
  }

  /** The disk space set aside before anything is written: the padded new tensors and the most
      expensive rewrite. */
  ghost function Need(ix: Index, p: Plan): nat
    requires Keeps(p.keep, |ix.tensors|)
  {
    OffsetOf(p.items, |p.items|, 0) + MaxOf(DirtyAfter(ix, p))
  }

  /** How many file numbers the run takes: a number for each new shard, and for each rewrite that keeps a
      byte. */
  ghost function Count(ix: Index, p: Plan, limit: nat): nat
    requires Keeps(p.keep, |ix.tensors|) && limit > 0
  {
    ShardsOf(p.items, |p.items|, limit) + Taken(DirtyAfter(ix, p))
  }

  /** The last of them is in front of this one. */
  ghost function LastNumber(d: Disk, p: Plan, limit: nat): nat
    requires Keeps(p.keep, |d.index.tensors|) && limit > 0
  {
    NextNumber(d.files, d.index) + Count(d.index, p, limit)
  }

  /** No shard of the index stands in the run's way: where `FtwRepair.ClearWhen` says when. */
  ghost predicate HasRoom(d: Disk, p: Plan, limit: nat)
    requires Keeps(p.keep, |d.index.tensors|) && limit > 0
  {
    Clear(d.index, NextNumber(d.files, d.index), LastNumber(d, p, limit))
  }

  /** The disk space and the numbers of the run. */
  ghost function Allows(d: Disk, p: Plan, limit: nat): Budget
    requires Keeps(p.keep, |d.index.tensors|) && limit > 0
  {
    Budget(Usage(d.files) + Need(d.index, p),
           KnownNumbers(d.files, d.index) + Span(NextNumber(d.files, d.index), LastNumber(d, p, limit)))
  }

  /** The stray files a run does not see: those of six digits. */
  ghost function Hidden(d: Disk): set<nat> {
    set f | f in Orphans(d.files, d.index) && VISIBLE <= f
  }

  /** Of the stray files `d` had, those are left that the run did not see and did not write over. */
  ghost predicate Swept(now: Disk, d: Disk, p: Plan, limit: nat)
    requires Keeps(p.keep, |d.index.tensors|) && limit > 0
  {
    FewerStray(Orphans(now.files, now.index), Hidden(d), NextNumber(d.files, d.index), LastNumber(d, p, limit))
  }

  /** Keeping as many entries as there are keeps each in its place. */
  lemma {:induction false} PlacesGrow(keep: seq<Kept>, n: nat, i: nat)
    requires Keeps(keep, n) && i < |keep|
    ensures keep[i].pos >= i && keep[i].pos + (|keep| - 1 - i) <= n - 1
    decreases i
  {
    if i > 0 { PlacesGrow(keep, n, i - 1); }
    PlacesEnd(keep, n, i, |keep| - 1);
  }

  lemma {:induction false} PlacesEnd(keep: seq<Kept>, n: nat, i: nat, j: nat)
    requires Keeps(keep, n) && i <= j < |keep|
    ensures keep[i].pos + (j - i) <= keep[j].pos
    decreases j
  {
    if i < j { PlacesEnd(keep, n, i, j - 1); }
  }

  /** No change: the checkpoint goes on saying what it says. */
  lemma UnchangedContents(files: Files, ix: Index, p: Plan)
    requires Safe(files, ix) && Keeps(p.keep, |ix.tensors|) && !Changes(ix, p)
    ensures Becomes(Contents(files, ix), p) == Contents(files, ix)
  {
    var was := Contents(files, ix);
    var kept := KeptEntries(ix.tensors, p.keep);
    assert |kept| == |p.keep| == |was|;
    forall i | 0 <= i < |was| ensures KeptContents(was, p.keep)[i] == was[i] {
      PlacesGrow(p.keep, |was|, i);
      assert p.keep[i].pos == i && kept[i] == ix.tensors[i];
    }
    assert KeptContents(was, p.keep) == was;
  }

  // ---- the run ----

  /** A state a crash may leave during the run: loadable, saying either the old or the new, within the
      bytes and the file numbers of the budget. */
  ghost predicate Loadable(d: Disk, was: seq<Tensor>, becomes: seq<Tensor>, budget: Budget) {
    && Safe(d.files, d.index) && (Contents(d.files, d.index) == was || Contents(d.files, d.index) == becomes)
    && Usage(d.files) <= budget.bytes && KnownNumbers(d.files, d.index) <= budget.numbers
  }

  ghost predicate LoadableTrace(t0: seq<Disk>, t1: seq<Disk>, was: seq<Tensor>, becomes: seq<Tensor>, budget: Budget) {
    && |t0| <= |t1| && t1[..|t0|] == t0
    && forall i :: |t0| <= i < |t1| ==> Loadable(t1[i], was, becomes, budget)
  }

  lemma LoadableJoin(t0: seq<Disk>, t1: seq<Disk>, t2: seq<Disk>, was: seq<Tensor>, becomes: seq<Tensor>, budget: Budget)
    requires LoadableTrace(t0, t1, was, becomes, budget) && LoadableTrace(t1, t2, was, becomes, budget)
    ensures LoadableTrace(t0, t2, was, becomes, budget)
  {
    assert t2[..|t0|] == t2[..|t1|][..|t0|];
    forall i | |t0| <= i < |t2| ensures Loadable(t2[i], was, becomes, budget) {
      if i < |t1| { assert t2[i] == t2[..|t1|][i]; }
    }
  }

  lemma LoadableSnoc(t0: seq<Disk>, t1: seq<Disk>, d: Disk, was: seq<Tensor>, becomes: seq<Tensor>, budget: Budget)
    requires LoadableTrace(t0, t1, was, becomes, budget) && Loadable(d, was, becomes, budget)
    ensures LoadableTrace(t0, t1 + [d], was, becomes, budget)
  {
    assert (t1 + [d])[..|t0|] == t1[..|t0|];
  }

  ghost predicate FitsIn(small: Budget, budget: Budget) {
    small.bytes <= budget.bytes && small.numbers <= budget.numbers
  }

  /** States of a removal or a compaction say what it started from. */
  lemma GoodIsLoadable(t0: seq<Disk>, t1: seq<Disk>, contents: seq<Tensor>, small: Budget, was: seq<Tensor>, becomes: seq<Tensor>, budget: Budget)
    requires GoodTrace(t0, t1, contents, small) && (contents == was || contents == becomes) && FitsIn(small, budget)
    ensures LoadableTrace(t0, t1, was, becomes, budget)
  {
    forall i | |t0| <= i < |t1| ensures Loadable(t1[i], was, becomes, budget) { assert Good(t1[i], contents, small); }
  }

  /** New files beside the old ones leave the old index loadable. */
  lemma BesideIsLoadable(t0: seq<Disk>, d: Disk, room: Room, t1: seq<Disk>, was: seq<Tensor>, becomes: seq<Tensor>, budget: Budget)
    requires BesideTrace(t0, d, room, t1) && Safe(d.files, d.index) && Contents(d.files, d.index) == was
    requires Clear(d.index, room.first, room.next) && Usage(d.files) + room.bytes <= budget.bytes
    requires KnownNumbers(d.files, d.index) + Span(room.first, room.next) <= budget.numbers
    ensures LoadableTrace(t0, t1, was, becomes, budget)
  {
    forall i | |t0| <= i < |t1| ensures Loadable(t1[i], was, becomes, budget) {
      assert Beside(d, room, t1[i]);
      BesideOne(d, room, t1[i]);
    }
  }

  lemma BesideOne(d: Disk, room: Room, snap: Disk)
    requires Beside(d, room, snap) && Safe(d.files, d.index) && Clear(d.index, room.first, room.next)
    ensures Safe(snap.files, snap.index) && Contents(snap.files, snap.index) == Contents(d.files, d.index)
    ensures KnownNumbers(snap.files, snap.index) <= KnownNumbers(d.files, d.index) + Span(room.first, room.next)
  {
    forall s | s in SortShards(d.index.shards) ensures s.file in snap.files && snap.files[s.file] == d.files[s.file] {
      assert Names(SortShards(d.index.shards), s.file);
    }
    UnreferencedIsInvisible(d.files, snap.files, d.index);
  }

  /** The new tensors are laid out behind the old end, in files of their own. */
  ghost predicate Appended(d: Disk, files: Files, items: seq<Tensor>, shards: seq<Shard>, limit: nat, first: nat, next: nat) {
    && Laid(shards, limit, first, d.index.totalBytes, OffsetOf(items, |items|, d.index.totalBytes))
    && Holds(files, shards, RegionOf(items, |items|)) && Around(d.files, files, first, next)
    && first <= next && (forall s :: s in shards ==> s.file < next)
    && (forall k: nat :: first <= k < next ==> Names(shards, k))
    && (items == [] ==> shards == [])
  }

  /** Appends the new tensors. Only the first `available` can be written, and `part` bytes of the next
      one; then what was written is removed again. */
  method AppendTensors(dir: FtwDir, items: seq<Tensor>, available: nat, part: nat, limit: nat, first: nat)
    returns (ok: bool, entries: seq<Entry>, shards: seq<Shard>, next: nat)
    requires limit > 0 && limit % ALIGN == 0
    requires Safe(dir.files, dir.index)
    modifies dir
    ensures ok <==> |items| <= available
    ensures first <= next <= first + ShardsOf(items, |items|, limit) && dir.index == old(dir.index)
    ensures BesideTrace(old(dir.trace), old(dir.State()), Room(first, next, |RegionOf(items, |items|)|), dir.trace)
    ensures !ok ==> dir.files == old(dir.files) - Span(first, next)
    ensures ok ==> next == first + ShardsOf(items, |items|, limit)
    ensures ok ==> entries == EntriesOf(items, |items|, dir.index.totalBytes)
    ensures ok ==> Appended(old(dir.State()), dir.files, items, shards, limit, first, next)
    ensures ok ==> Usage(dir.files) <= old(Usage(dir.files)) + |RegionOf(items, |items|)|
  {
    TotalAligned(SortShards(dir.index.shards), 0, dir.index.totalBytes);
    entries, shards, next := [], [], first;
    if items == [] {
      ok := true;
    } else if |items| <= available {
      var total;
      entries, shards, total, next := WriteShards(dir, items, limit, first, dir.index.totalBytes);
      ok := true;
    } else {
      next := GiveUp(dir, items, available, part, limit, first);
      ok := false;
    }
  }

  /** A write that fails behind `part` bytes of a tensor; where there is nothing left to write, before
      the first. */
  method AddPart(w: ShardWriter, t: Tensor, part: nat)
    requires w.Ok() && w.globalOff % ALIGN == 0
    modifies w, w.dir
    ensures w.Ok() && |w.stored| <= old(|w.stored|) + |Padded(t.data)|
    ensures w.cut == old(w.cut) || (part < |t.data| && w.cut == Push(BeginCut(old(w.cut), |t.data|), part))
  {
    if part < |t.data| {
      ConcatOne(t.data[..part]);
      var got := w.Add(t.name, t.info, |t.data|, [t.data[..part]]);
    }
  }

  /** The failing half: some tensors, part of one more, and the clean-up. */
  method GiveUp(dir: FtwDir, items: seq<Tensor>, available: nat, part: nat, limit: nat, first: nat) returns (next: nat)
    requires limit > 0 && limit % ALIGN == 0 && dir.index.totalBytes % ALIGN == 0 && available < |items|
    modifies dir
    ensures dir.index == old(dir.index) && dir.files == old(dir.files) - Span(first, next)
    ensures first <= next <= first + ShardsOf(items, |items|, limit)
    ensures BesideTrace(old(dir.trace), old(dir.State()), Room(first, next, |RegionOf(items, |items|)|), dir.trace)
  {
    var w := new ShardWriter(dir, limit, first, dir.index.totalBytes);
    WritePart(w, items, available, part);
    ghost var used := w.Used();
    w.Abort();
    next := w.shardIdx + 1;
    BesideTraceMore(old(dir.trace), old(dir.State()), used, dir.trace, Room(first, next, |RegionOf(items, |items|)|));
  }

  /** What is written until the failure. */
  method WritePart(w: ShardWriter, items: seq<Tensor>, available: nat, part: nat)
    requires w.Ok() && w.Done(items, 0) && available < |items|
    modifies w, w.dir
    ensures w.Ok() && w.firstShard - 1 <= w.shardIdx < w.firstShard + ShardsOf(items, |items|, w.shardLimit)
    ensures |w.stored| <= |RegionOf(items, |items|)|
  {
    w.AddFirst(items, available);
    OffsetAligned(items, available, w.origin.base);
    AddPart(w, items[available], part);
    PartOfRun(items, available, part, w.shardLimit, w.firstShard, w.origin.base, w.cut);
    RegionGrows(items, available + 1, |items|);
    w.Reached();
  }

  /** A run that stops inside a tensor has taken no number that the whole run does not take. */
  lemma PartOfRun(items: seq<Tensor>, n: nat, part: nat, limit: nat, first: nat, base: nat, cut: Cut)
    requires limit > 0 && n < |items|
    requires var c := RunCut(items, n, FreshCut(limit, first, base));
      cut == c || (part < |items[n].data| && cut == Push(BeginCut(c, |items[n].data|), part))
    ensures cut.shardIdx < first + ShardsOf(items, |items|, limit)
  {
    var c := FreshCut(limit, first, base);
    PartNumbers(items, n, if part < |items[n].data| then part else 0, c);
    RunNumbers(items, n, |items|, c);
    RunNumbers(items, n + 1, |items|, c);
    RunAlike(items, |items|, limit, first, base);
  }

  lemma {:induction false} RegionGrows(items: seq<Tensor>, i: nat, j: nat)
    requires i <= j <= |items|
    ensures |RegionOf(items, i)| <= |RegionOf(items, j)|
    decreases j
  {
    if i < j { RegionGrows(items, i, j - 1); }
  }

  /** A state that no later repair run cleans up: settled, so nothing goes ahead, but with a stray file. */
  ghost predicate LeavesStray(d: Disk, contents: seq<Tensor>) {
    Settled(d.files, d.index, contents) && Orphans(d.files, d.index) != {}
  }

  ghost predicate PassesStray(t0: seq<Disk>, t1: seq<Disk>, contents: seq<Tensor>) {
    exists i :: |t0| <= i < |t1| && LeavesStray(t1[i], contents)
  }

  /** The state between the last swap and the last deletion is one. */
  lemma LastSwapLeavesStray(t0: seq<Disk>, t1: seq<Disk>, t2: seq<Disk>, ix: Index, contents: seq<Tensor>, budget: Budget)
    requires |t0| <= |t1| && GoodTrace(t1, t2, contents, budget) && StrayBefore(t1, t2, ix)
    requires DirtyLives(ix.tensors, SortShards(ix.shards)) == [] && ix.totalBytes == PaddedSize(ix.tensors)
    ensures PassesStray(t0, t2, contents)
  {
    var i := |t2| - 2;
    assert Good(t2[i], contents, budget);
    assert LeavesStray(t2[i], contents);
  }

  /** MAIN: the in-place run. Of the new tensors the first `available` can be written. If all can, the
      directory ends settled and says the kept entries and the new tensors; if not, it says what it said
      before. A run that goes ahead removes exactly the stray files it can see or writes over. Every state
      on the way is loadable, says the old or the new, stays within the disk space computed before anything
      was written, and has no file number that was not known before or is not one of those counted; and
      whenever a shard was rewritten, one of them leaves a stray file for good. */
  method PatchInPlace(dir: FtwDir, p: Plan, available: nat, part: nat, limit: nat)
    returns (ok: bool, n: nat)
    requires limit > 0 && limit % ALIGN == 0 && Safe(dir.files, dir.index) && Keeps(p.keep, |dir.index.tensors|)
    requires GoesAhead(dir.index, p) ==> HasRoom(dir.State(), p, limit)
    modifies dir
    ensures ok <==> |p.items| <= available
    ensures ok ==> Settled(dir.files, dir.index, Becomes(old(Contents(dir.files, dir.index)), p))
    ensures ok && old(GoesAhead(dir.index, p)) ==> Swept(dir.State(), old(dir.State()), p, limit)
    ensures ok ==> n == old(|DirtyAfter(dir.index, p)|)
    ensures !old(GoesAhead(dir.index, p)) ==> dir.State() == old(dir.State()) && dir.trace == old(dir.trace)
    ensures !ok ==> dir.index == old(dir.index) && Safe(dir.files, dir.index)
    ensures !ok ==> Contents(dir.files, dir.index) == old(Contents(dir.files, dir.index))
    ensures LoadableTrace(old(dir.trace), dir.trace, old(Contents(dir.files, dir.index)),
              Becomes(old(Contents(dir.files, dir.index)), p), old(Allows(dir.State(), p, limit)))
    ensures ok && n > 0 ==> PassesStray(old(dir.trace), dir.trace, Becomes(old(Contents(dir.files, dir.index)), p))
  {
    var next, orphans := StrayAndNext(dir.files, dir.index);
    var idle := FindsNothing(dir.index, p);
    if idle {
      NothingIsSettled(dir.files, dir.index, p);
      return true, 0;
    }
    ok, n := SweepAndGo(dir, p, available, part, limit, next, orphans);
  }

  /** There is nothing to do. */
  method FindsNothing(ix: Index, p: Plan) returns (idle: bool)
    requires Keeps(p.keep, |ix.tensors|)
    ensures idle <==> !GoesAhead(ix, p)
  {
    var dirty := DirtyShards(ix);
    idle := !Changes(ix, p) && !p.table && dirty == [];
  }

  method StrayAndNext(files: Files, ix: Index) returns (next: nat, orphans: set<nat>)
    ensures next == NextNumber(files, ix) && forall f :: f in orphans <==> f in Orphans(files, ix) && f < VISIBLE
  {
    next, orphans := ShardNumbers(files, ix);
  }

  /** A run that has something to do. */
  method SweepAndGo(dir: FtwDir, p: Plan, available: nat, part: nat, limit: nat, next: nat, orphans: set<nat>)
    returns (ok: bool, n: nat)
    requires limit > 0 && limit % ALIGN == 0 && Safe(dir.files, dir.index) && Keeps(p.keep, |dir.index.tensors|)
    requires HasRoom(dir.State(), p, limit) && next == NextNumber(dir.files, dir.index)
    requires forall f :: f in orphans <==> f in Orphans(dir.files, dir.index) && f < VISIBLE
    modifies dir
    ensures ok <==> |p.items| <= available
    ensures ok ==> Settled(dir.files, dir.index, Becomes(old(Contents(dir.files, dir.index)), p))
    ensures ok ==> Swept(dir.State(), old(dir.State()), p, limit) && n == old(|DirtyAfter(dir.index, p)|)
    ensures !ok ==> dir.index == old(dir.index) && Safe(dir.files, dir.index)
    ensures !ok ==> Contents(dir.files, dir.index) == old(Contents(dir.files, dir.index))
    ensures LoadableTrace(old(dir.trace), dir.trace, old(Contents(dir.files, dir.index)),
              Becomes(old(Contents(dir.files, dir.index)), p), old(Allows(dir.State(), p, limit)))
    ensures ok && n > 0 ==> PassesStray(old(dir.trace), dir.trace, Becomes(old(Contents(dir.files, dir.index)), p))
  {
    ghost var d0, t0, was := dir.State(), dir.trace, Contents(dir.files, dir.index);
    RemoveStray(dir, p, orphans, limit);
    ghost var t1 := dir.trace;
    ok, n := GoAhead(dir, d0, p, available, part, limit, next, t1);
    LoadableJoin(t0, t1, dir.trace, was, Becomes(was, p), Allows(d0, p, limit));
    if ok && n > 0 { PassesLater(t0, t1, dir.trace, Becomes(was, p)); }
  }

  /** A run that finds nothing to do leaves what it would make. */
  lemma NothingIsSettled(files: Files, ix: Index, p: Plan)
    requires Safe(files, ix) && Keeps(p.keep, |ix.tensors|) && !GoesAhead(ix, p)
    ensures Settled(files, ix, Becomes(Contents(files, ix), p)) && DirtyAfter(ix, p) == []
  {
    UnchangedContents(files, ix, p);
    CleanIsTight(ix);
  }

  lemma PassesLater(t0: seq<Disk>, t1: seq<Disk>, t2: seq<Disk>, contents: seq<Tensor>)
    requires |t0| <= |t1| && PassesStray(t1, t2, contents)
    ensures PassesStray(t0, t2, contents)
  {
  }

  /** The stray files the run sees go first. */
  method RemoveStray(dir: FtwDir, ghost p: Plan, orphans: set<nat>, ghost limit: nat)
    requires Safe(dir.files, dir.index) && Keeps(p.keep, |dir.index.tensors|) && limit > 0
    requires forall f :: f in orphans <==> f in Orphans(dir.files, dir.index) && f < VISIBLE
    modifies dir
    ensures Cleaned(old(dir.State()), dir.State())
    ensures LoadableTrace(old(dir.trace), dir.trace, old(Contents(dir.files, dir.index)),
              Becomes(old(Contents(dir.files, dir.index)), p), old(Allows(dir.State(), p, limit)))
  {
    ghost var d0, t0, was := dir.State(), dir.trace, Contents(dir.files, dir.index);
    ghost var small := Budget(Usage(dir.files), KnownNumbers(dir.files, dir.index));
    RemoveOrphans(dir, orphans, was, small);
    UsageShrinks(d0.files, orphans);
    GoodIsLoadable(t0, dir.trace, was, small, was, Becomes(was, p), Allows(d0, p, limit));
  }

  /** What is left when they are gone. */
  ghost predicate Cleaned(d0: Disk, d1: Disk)
    requires Safe(d0.files, d0.index)
  {
    && d1.index == d0.index && Usage(d1.files) <= Usage(d0.files)
    && KnownNumbers(d1.files, d1.index) <= KnownNumbers(d0.files, d0.index)
    && Safe(d1.files, d1.index) && Contents(d1.files, d1.index) == Contents(d0.files, d0.index)
    && Orphans(d1.files, d1.index) == Hidden(d0)
  }

  /** The new tensors, then the swap and the compaction. */
  method GoAhead(dir: FtwDir, ghost d0: Disk, p: Plan, available: nat, part: nat, limit: nat, next: nat, ghost t1: seq<Disk>)
    returns (ok: bool, n: nat)
    requires limit > 0 && limit % ALIGN == 0 && Safe(d0.files, d0.index) && Keeps(p.keep, |d0.index.tensors|)
    requires Cleaned(d0, dir.State()) && next == NextNumber(d0.files, d0.index) && HasRoom(d0, p, limit)
    requires t1 == dir.trace
    modifies dir
    ensures ok <==> |p.items| <= available
    ensures ok ==> Settled(dir.files, dir.index, Becomes(Contents(d0.files, d0.index), p))
    ensures ok ==> Swept(dir.State(), d0, p, limit) && n == |DirtyAfter(d0.index, p)|
    ensures !ok ==> dir.index == d0.index && Safe(dir.files, dir.index)
    ensures !ok ==> Contents(dir.files, dir.index) == Contents(d0.files, d0.index)
    ensures LoadableTrace(t1, dir.trace, Contents(d0.files, d0.index), Becomes(Contents(d0.files, d0.index), p), Allows(d0, p, limit))
    ensures ok && n > 0 ==> PassesStray(t1, dir.trace, Becomes(Contents(d0.files, d0.index), p))
  {
    ghost var d1, was, becomes, budget := dir.State(), Contents(d0.files, d0.index), Becomes(Contents(d0.files, d0.index), p), Allows(d0, p, limit);
    var entries, shards, free;
    n := 0;
    ok, entries, shards, free := AppendTensors(dir, p.items, available, part, limit, next);
    OffsetIsLength(p.items, |p.items|, 0);
    RoomAfter(d0, d1, p, limit, free);
    BesideIsLoadable(t1, d1, Room(next, free, |RegionOf(p.items, |p.items|)|), dir.trace, was, becomes, budget);
    if ok {
      n := SwapAndCompact(dir, d1, p, entries, shards, limit, next, free, t1, was, becomes, budget);
    } else {
      WithoutSpan(d1, dir.State(), next, free);
    }
  }

  /** The room of the whole run is that of its new shards, and then that of its rewrites. */
  lemma RoomAfter(d0: Disk, d1: Disk, p: Plan, limit: nat, free: nat)
    requires Safe(d0.files, d0.index) && Keeps(p.keep, |d0.index.tensors|) && limit > 0
    requires Cleaned(d0, d1) && HasRoom(d0, p, limit)
    requires NextNumber(d0.files, d0.index) <= free <= NextNumber(d0.files, d0.index) + ShardsOf(p.items, |p.items|, limit)
    ensures var next, budget := NextNumber(d0.files, d0.index), Allows(d0, p, limit);
      && Clear(d1.index, next, free) && KnownNumbers(d1.files, d1.index) + Span(next, free) <= budget.numbers
      && Way(d1.index, next, LastNumber(d0, p, limit), budget)
  {
  }

  /** What a run that gave up leaves. */
  lemma WithoutSpan(d: Disk, snap: Disk, first: nat, next: nat)
    requires Safe(d.files, d.index) && Clear(d.index, first, next)
    requires snap == Disk(d.files - Span(first, next), d.index)
    ensures Safe(snap.files, snap.index) && Contents(snap.files, snap.index) == Contents(d.files, d.index)
  {
    forall s | s in SortShards(d.index.shards) ensures s.file in snap.files && snap.files[s.file] == d.files[s.file] {
      assert Names(SortShards(d.index.shards), s.file);
    }
    UnreferencedIsInvisible(d.files, snap.files, d.index);
  }

  /** The swap makes the new contents visible in one step; compaction then keeps them. */
  method SwapAndCompact(dir: FtwDir, ghost d1: Disk, p: Plan, entries: seq<Entry>, shards: seq<Shard>, ghost limit: nat, ghost first: nat,
      free: nat, ghost t0: seq<Disk>, ghost was: seq<Tensor>, ghost becomes: seq<Tensor>, ghost budget: Budget) returns (n: nat)
    requires Safe(d1.files, d1.index) && Keeps(p.keep, |d1.index.tensors|) && dir.index == d1.index
    requires Way(d1.index, first, free + Taken(DirtyAfter(d1.index, p)), budget)
    requires KnownNumbers(d1.files, d1.index) <= budget.numbers
    requires Contents(d1.files, d1.index) == was && becomes == Becomes(was, p)
    requires entries == EntriesOf(p.items, |p.items|, d1.index.totalBytes)
    requires Appended(d1, dir.files, p.items, shards, limit, first, free)
    requires LoadableTrace(t0, dir.trace, was, becomes, budget)
    requires Usage(dir.files) + MaxOf(DirtyAfter(d1.index, p)) <= budget.bytes
    modifies dir
    ensures Settled(dir.files, dir.index, becomes) && n == |DirtyAfter(d1.index, p)|
    ensures FewerStray(Orphans(dir.files, dir.index), Orphans(d1.files, d1.index), first, free + Taken(DirtyAfter(d1.index, p)))
    ensures LoadableTrace(t0, dir.trace, was, becomes, budget)
    ensures n > 0 ==> PassesStray(t0, dir.trace, becomes)
  {
    var ix' := PatchedIndex(dir.index, p, entries, shards);
    SwapComesTo(d1, dir.files, ix', p, shards, limit, first, free, budget);
    ghost var stray := Orphans(dir.files, ix');
    SwapIndex(dir, ix', p, t0, was, becomes, budget);
    n := CompactSwapped(dir, p, d1.index, free, t0, was, becomes, budget);
    FewerStrayJoin(Orphans(dir.files, dir.index), stray, Orphans(d1.files, d1.index), first, free, free + Taken(DirtyAfter(d1.index, p)));
  }

  /** The new index, its size counted from the new shards. */
  method PatchedIndex(ix: Index, p: Plan, entries: seq<Entry>, shards: seq<Shard>) returns (ix': Index)
    requires Keeps(p.keep, |ix.tensors|) && entries == EntriesOf(p.items, |p.items|, ix.totalBytes)
    requires Tiles(shards, ix.totalBytes, OffsetOf(p.items, |p.items|, ix.totalBytes))
    ensures ix' == NewIndex(ix, p.keep, p.items, shards)
  {
    TilesSum(shards, ix.totalBytes, OffsetOf(p.items, |p.items|, ix.totalBytes));
    ix' := Index(KeptEntries(ix.tensors, p.keep) + entries, ix.shards + shards, ix.totalBytes + SumNbytes(shards));
  }

  /** The swapped index and what is still to be taken stay within the numbers. */
  lemma SwappedFits(d1: Disk, files: Files, ix': Index, first: nat, free: nat, end: nat, budget: Budget)
    requires Way(d1.index, first, end, budget) && KnownNumbers(d1.files, d1.index) <= budget.numbers && first <= free <= end
    requires forall f: nat :: Names(SortShards(ix'.shards), f) <==> Names(SortShards(d1.index.shards), f) || first <= f < free
    requires KnownNumbers(files, ix') <= KnownNumbers(d1.files, d1.index) + Span(first, free)
    ensures Way(ix', free, end, budget) && KnownNumbers(files, ix') <= budget.numbers
  {
    assert Span(first, free) <= Span(first, end) && Span(free, end) <= Span(first, end);
  }

  /** What the swap comes to. */
  lemma SwapComesTo(d1: Disk, files: Files, ix': Index, p: Plan, shards: seq<Shard>, limit: nat, first: nat, free: nat, budget: Budget)
    requires Safe(d1.files, d1.index) && Keeps(p.keep, |d1.index.tensors|)
    requires Way(d1.index, first, free + Taken(DirtyAfter(d1.index, p)), budget)
    requires KnownNumbers(d1.files, d1.index) <= budget.numbers
    requires ix' == NewIndex(d1.index, p.keep, p.items, shards) && Appended(d1, files, p.items, shards, limit, first, free)
    requires Usage(files) + MaxOf(DirtyAfter(d1.index, p)) <= budget.bytes
    ensures Loadable(Disk(files, ix'), Contents(d1.files, d1.index), Becomes(Contents(d1.files, d1.index), p), budget)
    ensures Contents(files, ix') == Becomes(Contents(d1.files, d1.index), p)
    ensures Way(ix', free, free + Taken(DirtyAfter(d1.index, p)), budget)
    ensures FewerStray(Orphans(files, ix'), Orphans(d1.files, d1.index), first, free)
    ensures DirtyLives(ix'.tensors, SortShards(ix'.shards)) == DirtyAfter(d1.index, p)
    ensures !Changes(d1.index, p) ==> ix' == d1.index
  {
    SwapIsGood(d1, files, ix', p, shards, limit, first, free);
    SwappedFits(d1, files, ix', first, free, free + Taken(DirtyAfter(d1.index, p)), budget);
  }

  /** The compaction behind the swap. */
  method CompactSwapped(dir: FtwDir, ghost p: Plan, ghost ix: Index, free: nat, ghost t0: seq<Disk>, ghost was: seq<Tensor>,
      ghost becomes: seq<Tensor>, ghost budget: Budget) returns (n: nat)
    requires Keeps(p.keep, |ix.tensors|) && Safe(dir.files, dir.index) && Contents(dir.files, dir.index) == becomes
    requires DirtyLives(dir.index.tensors, SortShards(dir.index.shards)) == DirtyAfter(ix, p)
    requires Way(dir.index, free, free + Taken(DirtyAfter(ix, p)), budget) && KnownNumbers(dir.files, dir.index) <= budget.numbers
    requires LoadableTrace(t0, dir.trace, was, becomes, budget)
    requires Usage(dir.files) + MaxOf(DirtyAfter(ix, p)) <= budget.bytes
    modifies dir
    ensures Settled(dir.files, dir.index, becomes) && n == |DirtyAfter(ix, p)|
    ensures FewerStray(Orphans(dir.files, dir.index), old(Orphans(dir.files, dir.index)), free, free + Taken(DirtyAfter(ix, p)))
    ensures LoadableTrace(t0, dir.trace, was, becomes, budget)
    ensures n > 0 ==> PassesStray(t0, dir.trace, becomes)
  {
    ghost var t2, small := dir.trace, BudgetOf(dir.State(), free);
    n := CompactInPlace(dir, free);
    GoodIsLoadable(t2, dir.trace, becomes, small, was, becomes, budget);
    LoadableJoin(t0, t2, dir.trace, was, becomes, budget);
    if n > 0 { LastSwapLeavesStray(t0, t2, dir.trace, dir.index, becomes, small); }
  }

  /** The index is written when something was renamed, dropped or added; otherwise it is the old one. */
  method SwapIndex(dir: FtwDir, ix': Index, p: Plan, ghost t0: seq<Disk>, ghost was: seq<Tensor>,
      ghost becomes: seq<Tensor>, ghost budget: Budget)
    requires Keeps(p.keep, |dir.index.tensors|)
    requires !Changes(dir.index, p) ==> ix' == dir.index
    requires LoadableTrace(t0, dir.trace, was, becomes, budget)
    requires Loadable(Disk(dir.files, ix'), was, becomes, budget)
    modifies dir
    ensures dir.index == ix' && dir.files == old(dir.files)
    ensures LoadableTrace(t0, dir.trace, was, becomes, budget)
  {
    if Changes(dir.index, p) {
      ghost var t1 := dir.trace;
      dir.ReplaceIndex(ix');
      LoadableSnoc(t0, t1, dir.State(), was, becomes, budget);
    }
  }

  /** What the swapped index is. */
  lemma SwapIsGood(d1: Disk, files: Files, ix': Index, p: Plan, shards: seq<Shard>, limit: nat, first: nat, free: nat)
    requires Safe(d1.files, d1.index) && Clear(d1.index, first, free) && Keeps(p.keep, |d1.index.tensors|)
    requires ix' == NewIndex(d1.index, p.keep, p.items, shards)
    requires Appended(d1, files, p.items, shards, limit, first, free)
    ensures Safe(files, ix') && Contents(files, ix') == Becomes(Contents(d1.files, d1.index), p)
    ensures forall f: nat :: Names(SortShards(ix'.shards), f) <==> Names(SortShards(d1.index.shards), f) || first <= f < free
    ensures KnownNumbers(files, ix') <= KnownNumbers(d1.files, d1.index) + Span(first, free)
    ensures FewerStray(Orphans(files, ix'), Orphans(d1.files, d1.index), first, free)
    ensures DirtyLives(ix'.tensors, SortShards(ix'.shards)) == DirtyAfter(d1.index, p)
    ensures !Changes(d1.index, p) ==> ix' == d1.index
  {
    var ix := d1.index;
    AppendedIsSafe(d1.files, files, ix, p.keep, p.items, shards, limit, first, free);
    AppendedOrder(ix, shards, ix'.totalBytes);
    AppendedNames(SortShards(ix.shards), shards, first, free);
    TotalAligned(SortShards(ix.shards), 0, ix.totalBytes);
    AppendedDirty(KeptEntries(ix.tensors, p.keep), p.items, SortShards(ix.shards), shards, ix.totalBytes);
    if !Changes(ix, p) {
      assert EntriesOf(p.items, |p.items|, ix.totalBytes) == [];
      assert ix.tensors + [] == ix.tensors && ix.shards + [] == ix.shards;
    }
  }

  /** The numbers of the old shards and those just taken. */
  lemma AppendedNames(front: seq<Shard>, shards: seq<Shard>, first: nat, free: nat)
    requires forall s :: s in shards ==> first <= s.file < free
    requires forall k: nat :: first <= k < free ==> Names(shards, k)
    ensures forall f: nat :: Names(front + shards, f) <==> Names(front, f) || first <= f < free
  {
    forall f: nat ensures Names(front + shards, f) <==> Names(front, f) || first <= f < free {
      if first <= f < free {
        assert Names(shards, f);
        var s :| s in shards && s.file == f;
        assert s in front + shards;
      }
      if Names(front, f) {
        var s :| s in front && s.file == f;
        assert s in front + shards;
      }
    }
  }

  // ---- a run that only repairs ----

  /** Every entry, under its own name. */
  function All(tensors: seq<Entry>): (keep: seq<Kept>)
    ensures Keeps(keep, |tensors|) && KeptEntries(tensors, keep) == tensors
  {
    seq(|tensors|, i requires 0 <= i < |tensors| => Kept(i, tensors[i].name))
  }

  /** Nothing renamed, dropped or added. */
  function Nothing(ix: Index, table: bool): (p: Plan)
    ensures Keeps(p.keep, |ix.tensors|) && !Changes(ix, p)
  {
    Plan(All(ix.tensors), [], table)
  }

  /** MAIN: a run with nothing to rename, drop or add. It ends settled with the same contents after as
      many rewrites as there were dirty shards, within the disk space of the most expensive one. Without a
      dirty shard, and the table not to be written, nothing is touched; otherwise exactly the stray files
      the run can see or writes over go. */
  method RepairInPlace(dir: FtwDir, table: bool, limit: nat) returns (n: nat)
    requires limit > 0 && limit % ALIGN == 0 && Safe(dir.files, dir.index)
    requires table || DirtyLives(dir.index.tensors, SortShards(dir.index.shards)) != [] ==>
      HasRoom(dir.State(), Nothing(dir.index, table), limit)
    modifies dir
    ensures Settled(dir.files, dir.index, old(Contents(dir.files, dir.index)))
    ensures n == old(|DirtyLives(dir.index.tensors, SortShards(dir.index.shards))|)
    ensures n > 0 || table ==> Swept(dir.State(), old(dir.State()), old(Nothing(dir.index, table)), limit)
    ensures n == 0 && !table ==> dir.State() == old(dir.State()) && dir.trace == old(dir.trace)
    ensures LoadableTrace(old(dir.trace), dir.trace, old(Contents(dir.files, dir.index)), old(Contents(dir.files, dir.index)),
              old(Allows(dir.State(), Nothing(dir.index, table), limit)))
    ensures n > 0 ==> PassesStray(old(dir.trace), dir.trace, old(Contents(dir.files, dir.index)))
  {
    var p := Nothing(dir.index, table);
    UnchangedContents(dir.files, dir.index, p);
    var ok;
    ok, n := PatchInPlace(dir, p, 0, 0, limit);
  }
}
