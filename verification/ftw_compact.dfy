/** What rewriting one dirty shard does to the index and to the region, stated on bytes. */
module FtwCompact {
  import opened FtwFormat
  import opened FtwLive

  /** Where offset `x` goes when the dead bytes of shard `s` are squeezed out. */
  ghost function Remap(tensors: seq<Entry>, s: Shard, x: nat): nat {
    LiveCountBound(tensors, s.off, s.End());
    if x >= s.End() then x - (s.nbytes - LiveCount(tensors, s.off, s.End()))
    else if x >= s.off then s.off + LiveCount(tensors, s.off, x)
    else x
  }

  ghost function MoveEntry(tensors: seq<Entry>, s: Shard, e: Entry): Entry {
    e.(off := Remap(tensors, s, e.off))
  }

  ghost function MoveEntries(tensors: seq<Entry>, s: Shard): seq<Entry> {
    seq(|tensors|, i requires 0 <= i < |tensors| => MoveEntry(tensors, s, tensors[i]))
  }

  /** The shard list after the step: `s` replaced (or dropped, when nothing in it is live) and
      the shards behind it moved down. */
  function MoveShards(shards: seq<Shard>, s: Shard, live: nat, newFile: nat): seq<Shard>
    requires live <= s.nbytes && forall x :: x in shards && x.off > s.off ==> x.off >= s.nbytes
  {
    if shards == [] then []
    else
      var x := shards[0];
      (if x.file == s.file then (if live > 0 then [Shard(newFile, s.off, live)] else [])
       else if x.off > s.off then [x.(off := x.off - (s.nbytes - live))]
       else [x])
      + MoveShards(shards[1..], s, live, newFile)
  }

  ghost predicate Dirty(tensors: seq<Entry>, s: Shard) {
    LiveCount(tensors, s.off, s.End()) < s.nbytes
  }

  // ---- the offset map, one byte at a time ----

  lemma RemapStep(tensors: seq<Entry>, s: Shard, x: nat)
    ensures Remap(tensors, s, x + 1) == Remap(tensors, s, x) +
            if s.off <= x < s.End() && !Live(tensors, x) then 0 else 1
  {
    LiveCountBound(tensors, s.off, s.End());
  }

  lemma {:induction false} RemapMonotone(tensors: seq<Entry>, s: Shard, x: nat, y: nat)
    requires x <= y
    ensures Remap(tensors, s, x) <= Remap(tensors, s, y) <= Remap(tensors, s, x) + (y - x)
    decreases y
  {
    if x < y {
      RemapMonotone(tensors, s, x, y - 1);
      RemapStep(tensors, s, y - 1);
    }
  }

  /** A stretch without dead bytes moves as a block. */
  lemma {:induction false} RemapBlock(tensors: seq<Entry>, s: Shard, x: nat, y: nat)
    requires x <= y && forall z :: x <= z < y ==> Live(tensors, z)
    ensures Remap(tensors, s, y) == Remap(tensors, s, x) + (y - x)
    decreases y
  {
    if x < y {
      RemapBlock(tensors, s, x, y - 1);
      RemapStep(tensors, s, y - 1);
    }
  }

  /** Every byte position of the rewritten shard comes from a live byte of the old one. */
  lemma {:induction false} RemapOnto(tensors: seq<Entry>, s: Shard, y: nat, hi: nat) returns (x: nat)
    requires s.off <= y < Remap(tensors, s, hi) && s.off <= hi <= s.End()
    ensures s.off <= x < hi && Live(tensors, x) && Remap(tensors, s, x) == y
    decreases hi
  {
    RemapMonotone(tensors, s, s.off, hi);
    LiveCountBound(tensors, s.off, s.End());
    assert Remap(tensors, s, s.off) == s.off;
    RemapStep(tensors, s, hi - 1);
    if Remap(tensors, s, hi - 1) == y {
      x := hi - 1;
    } else {
      x := RemapOnto(tensors, s, y, hi - 1);
    }
  }

  lemma BlockIsLive(tensors: seq<Entry>, i: nat)
    requires i < |tensors|
    ensures forall z :: tensors[i].off <= z < tensors[i].BlockEnd() ==> Live(tensors, z)
  {
    forall z | tensors[i].off <= z < tensors[i].BlockEnd() ensures Live(tensors, z) {
      assert InBlock(tensors[i], z);
    }
  }

  /** A whole block moves as one. */
  lemma MovedBlock(tensors: seq<Entry>, s: Shard, i: nat)
    requires i < |tensors|
    ensures MoveEntry(tensors, s, tensors[i]).BlockEnd() == Remap(tensors, s, tensors[i].BlockEnd())
  {
    BlockIsLive(tensors, i);
    RemapBlock(tensors, s, tensors[i].off, tensors[i].BlockEnd());
  }

  lemma MovedDisjoint(tensors: seq<Entry>, s: Shard)
    requires Disjoint(tensors)
    ensures Disjoint(MoveEntries(tensors, s))
  {
    var moved := MoveEntries(tensors, s);
    forall i, j | 0 <= i < |tensors| && 0 <= j < |tensors| && i != j
      ensures moved[i].BlockEnd() <= moved[j].off || moved[j].BlockEnd() <= moved[i].off
    {
      MovedBlock(tensors, s, i);
      MovedBlock(tensors, s, j);
      if tensors[i].BlockEnd() <= tensors[j].off {
        RemapMonotone(tensors, s, tensors[i].BlockEnd(), tensors[j].off);
      } else {
        RemapMonotone(tensors, s, tensors[j].BlockEnd(), tensors[i].off);
      }
    }
  }

  // ---- which bytes are live afterwards ----

  /** Below the shard nothing changes. */
  lemma LiveBelow(tensors: seq<Entry>, s: Shard, y: nat)
    requires y < s.off
    ensures Live(MoveEntries(tensors, s), y) <==> Live(tensors, y)
  {
    var moved := MoveEntries(tensors, s);
    forall i | 0 <= i < |tensors| ensures InBlock(moved[i], y) <==> InBlock(tensors[i], y) {
      RemapMonotone(tensors, s, s.off, if tensors[i].off < s.off then s.off else tensors[i].off);
      LiveCountBound(tensors, s.off, s.End());
    }
    if Live(moved, y) {
      var i :| 0 <= i < |moved| && InBlock(moved[i], y);
      assert InBlock(tensors[i], y);
    }
    if Live(tensors, y) {
      var i :| 0 <= i < |tensors| && InBlock(tensors[i], y);
      assert InBlock(moved[i], y);
    }
  }

  /** Inside the rewritten shard every byte is live. */
  lemma LiveInside(tensors: seq<Entry>, s: Shard, y: nat)
    requires s.off <= y < Remap(tensors, s, s.End())
    ensures Live(MoveEntries(tensors, s), y)
  {
    var moved := MoveEntries(tensors, s);
    var x := RemapOnto(tensors, s, y, s.End());
    var i :| 0 <= i < |tensors| && InBlock(tensors[i], x);
    BlockIsLive(tensors, i);
    RemapBlock(tensors, s, tensors[i].off, x);
    assert InBlock(moved[i], y);
  }

  /** Behind the shard everything moves down together. */
  lemma LiveAbove(tensors: seq<Entry>, s: Shard, x: nat)
    requires s.End() <= x
    ensures Live(MoveEntries(tensors, s), Remap(tensors, s, x)) <==> Live(tensors, x)
  {
    var moved := MoveEntries(tensors, s);
    var y := Remap(tensors, s, x);
    forall i | 0 <= i < |tensors| ensures InBlock(moved[i], y) <==> InBlock(tensors[i], x) {
      var e := tensors[i];
      MovedBlock(tensors, s, i);
      LiveCountBound(tensors, s.off, s.End());
      if e.off <= x { RemapMonotone(tensors, s, e.off, x); } else { RemapMonotone(tensors, s, x, e.off); }
      if e.BlockEnd() <= x {
        RemapMonotone(tensors, s, e.BlockEnd(), x);
      } else {
        assert Remap(tensors, s, e.BlockEnd()) == e.BlockEnd() - x + y;
      }
    }
    if Live(moved, y) {
      var i :| 0 <= i < |moved| && InBlock(moved[i], y);
      assert InBlock(tensors[i], x);
    }
    if Live(tensors, x) {
      var i :| 0 <= i < |tensors| && InBlock(tensors[i], x);
      assert InBlock(moved[i], y);
    }
  }

  /** Every other shard keeps its live-byte count, and the rewritten one has no dead byte. */
  lemma LiveCountMoved(tensors: seq<Entry>, s: Shard, lo: nat, hi: nat)
    requires lo <= hi && (hi <= s.off || s.End() <= lo)
    ensures Remap(tensors, s, hi) - Remap(tensors, s, lo) == hi - lo
    ensures LiveCount(MoveEntries(tensors, s), Remap(tensors, s, lo), Remap(tensors, s, hi)) == LiveCount(tensors, lo, hi)
  {
    var moved := MoveEntries(tensors, s);
    LiveCountBound(tensors, s.off, s.End());
    assert hi == s.off ==> Remap(tensors, s, hi) == hi;
    assert lo == s.off ==> Remap(tensors, s, lo) == lo;
    var lo', hi' := Remap(tensors, s, lo), Remap(tensors, s, hi);
    forall x | lo <= x < hi ensures Live(tensors, x) <==> Live(moved, x - lo + lo') {
      if x < s.off { LiveBelow(tensors, s, x); } else { LiveAbove(tensors, s, x); }
    }
    LiveCountShift(tensors, moved, lo, hi, lo', hi');
  }

  lemma RewrittenShardClean(tensors: seq<Entry>, s: Shard)
    ensures var live := LiveCount(tensors, s.off, s.End());
            LiveCount(MoveEntries(tensors, s), s.off, s.off + live) == live
  {
    var moved := MoveEntries(tensors, s);
    var live := LiveCount(tensors, s.off, s.End());
    LiveCountBound(tensors, s.off, s.End());
    forall y | s.off <= y < s.off + live ensures Live(moved, y) { LiveInside(tensors, s, y); }
    LiveCountBound(moved, s.off, s.off + live);
  }

  // ---- the bytes themselves ----

  ghost function Squeezed(tensors: seq<Entry>, s: Shard, region: Bytes): Bytes
    requires s.End() <= |region|
  {
    region[..s.off] + KeepLive(tensors, region, s.off, s.End()) + region[s.End()..]
  }

  lemma RemapByte(tensors: seq<Entry>, s: Shard, region: Bytes, x: nat)
    requires s.End() <= |region| && x < |region| && Live(tensors, x)
    ensures Remap(tensors, s, x) < |Squeezed(tensors, s, region)|
    ensures Squeezed(tensors, s, region)[Remap(tensors, s, x)] == region[x]
  {
    LiveCountBound(tensors, s.off, s.End());
    KeepLiveLength(tensors, region, s.off, s.End());
    if s.off <= x < s.End() {
      KeepLiveSplit(tensors, region, s.off, x, s.End());
      KeepLiveSplit(tensors, region, x, x + 1, s.End());
      KeepLiveLength(tensors, region, s.off, x);
      assert KeepLive(tensors, region, x, x + 1) == [] + [region[x]];
    }
  }

  /** An entry's bytes at its new offset are its old bytes: straddling entries and entries
      parked out of a dead gap included. */
  lemma MovedContent(tensors: seq<Entry>, s: Shard, region: Bytes, i: nat)
    requires i < |tensors| && s.End() <= |region| && tensors[i].BlockEnd() <= |region|
    ensures MoveEntry(tensors, s, tensors[i]).BlockEnd() <= |Squeezed(tensors, s, region)|
    ensures Content(Squeezed(tensors, s, region), MoveEntry(tensors, s, tensors[i])) == Content(region, tensors[i])
  {
    var e := tensors[i];
    var squeezed := Squeezed(tensors, s, region);
    var off' := Remap(tensors, s, e.off);
    MovedBlock(tensors, s, i);
    RemapMonotone(tensors, s, e.BlockEnd(), |region|);
    SqueezedLength(tensors, s, region);
    var was, now := region[e.off..e.off + e.nbytes], squeezed[off'..off' + e.nbytes];
    forall d | 0 <= d < e.nbytes ensures now[d] == was[d] {
      MovedByte(tensors, s, region, i, d);
    }
    assert now == was;
  }

  lemma SqueezedLength(tensors: seq<Entry>, s: Shard, region: Bytes)
    requires s.End() <= |region|
    ensures |Squeezed(tensors, s, region)| == Remap(tensors, s, |region|)
  {
    KeepLiveLength(tensors, region, s.off, s.End());
    LiveCountBound(tensors, s.off, s.End());
  }

  lemma MovedByte(tensors: seq<Entry>, s: Shard, region: Bytes, i: nat, d: nat)
    requires i < |tensors| && s.End() <= |region| && tensors[i].BlockEnd() <= |region|
    requires d < tensors[i].nbytes
    ensures Remap(tensors, s, tensors[i].off) + d < |Squeezed(tensors, s, region)|
    ensures Squeezed(tensors, s, region)[Remap(tensors, s, tensors[i].off) + d] == region[tensors[i].off + d]
  {
    var e := tensors[i];
    BlockIsLive(tensors, i);
    RemapBlock(tensors, s, e.off, e.off + d);
    RemapByte(tensors, s, region, e.off + d);
  }

  // ---- alignment ----

  /** Blocks start and end on ALIGN boundaries, so liveness is decided per 4096-byte page. */
  lemma LiveByPage(tensors: seq<Entry>, x: nat, y: nat)
    requires forall e :: e in tensors ==> e.off % ALIGN == 0
    requires x / ALIGN == y / ALIGN && Live(tensors, x)
    ensures Live(tensors, y)
  {
    var i :| 0 <= i < |tensors| && InBlock(tensors[i], x);
    assert tensors[i] in tensors;
    SamePage(tensors[i], x, y);
  }

  lemma SamePage(e: Entry, x: nat, y: nat)
    requires e.off % ALIGN == 0 && x / ALIGN == y / ALIGN && InBlock(e, x)
    ensures InBlock(e, y)
  {
    assert e.BlockEnd() % ALIGN == 0;
  }

  lemma {:induction false} LiveCountAligned(tensors: seq<Entry>, lo: nat, hi: nat)
    requires forall e :: e in tensors ==> e.off % ALIGN == 0
    requires lo % ALIGN == 0 && hi % ALIGN == 0
    ensures LiveCount(tensors, lo, hi) % ALIGN == 0
    decreases hi
  {
    if lo < hi {
      var page := hi - ALIGN;
      LiveCountAligned(tensors, lo, page);
      LiveCountSplit(tensors, lo, page, hi);
      LiveCountBound(tensors, page, hi);
      if Live(tensors, page) {
        forall x | page <= x < hi ensures Live(tensors, x) { LiveByPage(tensors, page, x); }
      } else {
        forall x | page <= x < hi ensures !Live(tensors, x) {
          if Live(tensors, x) { LiveByPage(tensors, x, page); }
        }
        LiveCountNone(tensors, page, hi);
      }
    }
  }

  lemma RemapAligned(tensors: seq<Entry>, s: Shard, x: nat)
    requires forall e :: e in tensors ==> e.off % ALIGN == 0
    requires s.off % ALIGN == 0 && s.nbytes % ALIGN == 0 && x % ALIGN == 0
    ensures Remap(tensors, s, x) % ALIGN == 0
  {
    LiveCountBound(tensors, s.off, s.End());
    if x >= s.End() {
      SumAligned(s.off, s.nbytes);
      LiveCountAligned(tensors, s.off, s.End());
      ShiftAligned(x, s.nbytes, LiveCount(tensors, s.off, s.End()));
    } else if x >= s.off {
      LiveCountAligned(tensors, s.off, x);
      SumAligned(s.off, LiveCount(tensors, s.off, x));
    }
  }

  // ---- total size of a fully live region ----

  ghost function PaddedSize(tensors: seq<Entry>): nat {
    if tensors == [] then 0 else PaddedSize(tensors[..|tensors| - 1]) + AlignUp(tensors[|tensors| - 1].nbytes)
  }

  /** Disjoint blocks: the live bytes of the region are the padded sizes added up. */
  lemma {:induction false} LiveIsPadded(tensors: seq<Entry>, total: nat)
    requires Disjoint(tensors) && forall e :: e in tensors ==> e.BlockEnd() <= total
    ensures LiveCount(tensors, 0, total) == PaddedSize(tensors)
    decreases |tensors|
  {
    if tensors == [] {
      LiveCountNone(tensors, 0, total);
    } else {
      var n := |tensors| - 1;
      LiveIsPadded(tensors[..n], total);
      assert tensors[n] in tensors;
      LastIsApart(tensors);
      BlockAdds(tensors, total);
    }
  }

  /** No byte of the last block belongs to an entry before it. */
  lemma LastIsApart(tensors: seq<Entry>)
    requires Disjoint(tensors) && tensors != []
    ensures var n := |tensors| - 1; forall x :: tensors[n].off <= x < tensors[n].BlockEnd() ==> !Live(tensors[..n], x)
  {
    var n := |tensors| - 1;
    forall x | tensors[n].off <= x < tensors[n].BlockEnd() ensures !Live(tensors[..n], x) {
      forall i | 0 <= i < n ensures !InBlock(tensors[..n][i], x) { assert tensors[..n][i] == tensors[i]; }
    }
  }

  /** Then it adds its padded size. */
  lemma BlockAdds(tensors: seq<Entry>, total: nat)
    requires tensors != [] && tensors[|tensors| - 1].BlockEnd() <= total
    requires var n := |tensors| - 1; forall x :: tensors[n].off <= x < tensors[n].BlockEnd() ==> !Live(tensors[..n], x)
    ensures var n := |tensors| - 1; LiveCount(tensors, 0, total) == LiveCount(tensors[..n], 0, total) + AlignUp(tensors[n].nbytes)
  {
    var n := |tensors| - 1;
    var init, e := tensors[..n], tensors[n];
    LiveCountSplit(tensors, 0, e.off, total);
    LiveCountSplit(tensors, e.off, e.BlockEnd(), total);
    LiveCountSplit(init, 0, e.off, total);
    LiveCountSplit(init, e.off, e.BlockEnd(), total);
    forall x ensures Live(tensors, x) <==> Live(init, x) || InBlock(e, x) {
      LiveSnoc(tensors, n, x);
      assert tensors[..n + 1] == tensors;
    }
    LiveCountShift(tensors, init, 0, e.off, 0, e.off);
    LiveCountShift(tensors, init, e.BlockEnd(), total, e.BlockEnd(), total);
    LiveCountNone(init, e.off, e.BlockEnd());
    LiveCountBound(tensors, e.off, e.BlockEnd());
  }

  // ---- the whole step on the index ----

  /** The new index of one compaction step on shard `s`. */
  ghost function CompactIndex(ix: Index, s: Shard, newFile: nat): Index
    requires Tiles(SortShards(ix.shards), 0, ix.totalBytes) && s in SortShards(ix.shards) && Dirty(ix.tensors, s)
  {
    var live := LiveCount(ix.tensors, s.off, s.End());
    TilesOrder(SortShards(ix.shards), 0, ix.totalBytes);
    BehindIsBehind(SortShards(ix.shards), s, ix.totalBytes);
    Index(MoveEntries(ix.tensors, s),
          MoveShards(SortShards(ix.shards), s, live, newFile),
          ix.totalBytes - (s.nbytes - live))
  }

  /** A shard that starts behind `s` starts behind its end. */
  lemma BehindIsBehind(shards: seq<Shard>, s: Shard, total: nat)
    requires Tiles(shards, 0, total) && s in shards
    ensures forall x :: x in shards && x.off > s.off ==> x.off >= s.End()
  {
    TilesOrder(shards, 0, total);
    forall x | x in shards && x.off > s.off ensures x.off >= s.End() {
      var i :| 0 <= i < |shards| && shards[i] == s;
      var j :| 0 <= j < |shards| && shards[j] == x;
    }
  }

  /** The shards behind the rewritten one, moved down. */
  ghost function ShiftDown(shards: seq<Shard>, delta: nat): seq<Shard> {
    seq(|shards|, i requires 0 <= i < |shards| =>
      shards[i].(off := if shards[i].off >= delta then shards[i].off - delta else 0))
  }

  ghost function Rewritten(s: Shard, live: nat, newFile: nat): seq<Shard> {
    if live > 0 then [Shard(newFile, s.off, live)] else []
  }

  /** The new shard list in three parts: in front, the rewritten shard, behind. */
  ghost function NewShards(shards: seq<Shard>, k: nat, live: nat, newFile: nat): seq<Shard>
    requires k < |shards| && live <= shards[k].nbytes
  {
    shards[..k] + Rewritten(shards[k], live, newFile) + ShiftDown(shards[k + 1..], shards[k].nbytes - live)
  }

  lemma {:induction false} MoveShardsKeep(shards: seq<Shard>, rest: seq<Shard>, s: Shard, live: nat, newFile: nat)
    requires live <= s.nbytes && forall x :: x in shards + rest && x.off > s.off ==> x.off >= s.nbytes
    requires forall x :: x in shards ==> x.file != s.file && x.off <= s.off
    ensures MoveShards(shards + rest, s, live, newFile) == shards + MoveShards(rest, s, live, newFile)
    decreases |shards|
  {
    if shards == [] {
      assert shards + rest == rest;
    } else {
      assert (shards + rest)[1..] == shards[1..] + rest;
      MoveShardsKeep(shards[1..], rest, s, live, newFile);
    }
  }

  lemma {:induction false} MoveShardsShift(shards: seq<Shard>, s: Shard, live: nat, newFile: nat)
    requires live <= s.nbytes
    requires forall x :: x in shards ==> x.file != s.file && x.off > s.off && x.off >= s.nbytes
    ensures MoveShards(shards, s, live, newFile) == ShiftDown(shards, s.nbytes - live)
    decreases |shards|
  {
    if shards != [] {
      MoveShardsShift(shards[1..], s, live, newFile);
      assert shards[0] in shards;
    }
  }

  lemma MoveShardsHead(shards: seq<Shard>, s: Shard, live: nat, newFile: nat)
    requires shards != [] && shards[0] == s && live <= s.nbytes
    requires forall x :: x in shards && x.off > s.off ==> x.off >= s.nbytes
    ensures MoveShards(shards, s, live, newFile) == Rewritten(s, live, newFile) + MoveShards(shards[1..], s, live, newFile)
  {
  }

  /** The loop over the shards keeps those in front, replaces `s` and moves those behind. */
  lemma AllBefore(shards: seq<Shard>, k: nat, total: nat)
    requires Tiles(shards, 0, total) && DistinctFiles(shards) && k < |shards|
    ensures forall x :: x in shards[..k] ==> x.file != shards[k].file && x.off <= shards[k].off
  {
    forall x | x in shards[..k] ensures x.file != shards[k].file && x.off <= shards[k].off {
      var i :| 0 <= i < k && shards[i] == x;
      TilesPair(shards, total, i, k);
    }
  }

  lemma AllBehind(shards: seq<Shard>, k: nat, total: nat)
    requires Tiles(shards, 0, total) && DistinctFiles(shards) && k < |shards|
    ensures forall x :: x in shards[k + 1..] ==> x.file != shards[k].file && x.off >= shards[k].End()
  {
    forall x | x in shards[k + 1..] ensures x.file != shards[k].file && x.off >= shards[k].End() {
      var i :| 0 <= i < |shards[k + 1..]| && shards[k + 1..][i] == x;
      assert shards[k + 1 + i] == x;
      TilesPair(shards, total, k, k + 1 + i);
    }
  }

  lemma MovedShards(shards: seq<Shard>, k: nat, live: nat, newFile: nat, total: nat)
    requires Tiles(shards, 0, total) && DistinctFiles(shards) && k < |shards|
    requires live <= shards[k].nbytes && shards[k].nbytes > 0
    requires forall x :: x in shards && x.off > shards[k].off ==> x.off >= shards[k].nbytes
    ensures MoveShards(shards, shards[k], live, newFile) == NewShards(shards, k, live, newFile)
  {
    AllBefore(shards, k, total);
    AllBehind(shards, k, total);
    MovedAround(shards, shards[..k], shards[k], shards[k + 1..], live, newFile);
  }

  lemma MovedAround(shards: seq<Shard>, front: seq<Shard>, s: Shard, behind: seq<Shard>, live: nat, newFile: nat)
    requires shards == front + [s] + behind && live <= s.nbytes && s.nbytes > 0
    requires forall x :: x in shards && x.off > s.off ==> x.off >= s.nbytes
    requires forall x :: x in front ==> x.file != s.file && x.off <= s.off
    requires forall x :: x in behind ==> x.file != s.file && x.off >= s.End()
    ensures MoveShards(shards, s, live, newFile) == front + Rewritten(s, live, newFile) + ShiftDown(behind, s.nbytes - live)
  {
    var rest := [s] + behind;
    assert shards == front + rest && rest[1..] == behind;
    MoveShardsKeep(front, rest, s, live, newFile);
    MoveShardsShift(behind, s, live, newFile);
    MoveShardsHead(rest, s, live, newFile);
  }

  lemma {:induction false} TilesShift(shards: seq<Shard>, from: nat, to: nat, delta: nat)
    requires Tiles(shards, from, to) && from >= delta
    ensures to >= delta && Tiles(ShiftDown(shards, delta), from - delta, to - delta)
    decreases |shards|
  {
    TilesGrow(shards, from, to);
    if shards != [] {
      TilesShift(shards[1..], shards[0].End(), to, delta);
      assert ShiftDown(shards, delta)[1..] == ShiftDown(shards[1..], delta);
    }
  }

  lemma NewShardsTile(shards: seq<Shard>, k: nat, live: nat, newFile: nat, total: nat)
    requires Tiles(shards, 0, total) && k < |shards| && live <= shards[k].nbytes
    ensures total >= shards[k].nbytes - live
    ensures Tiles(NewShards(shards, k, live, newFile), 0, total - (shards[k].nbytes - live))
  {
    var s, delta := shards[k], shards[k].nbytes - live;
    var mid := TilesCut(shards, k, 0, total);
    assert shards[k..][1..] == shards[k + 1..];
    TilesShift(shards[k + 1..], s.End(), total, delta);
    assert Tiles(Rewritten(s, live, newFile), s.off, s.off + live) by {
      assert Rewritten(s, live, newFile)[if live > 0 then 1 else 0..] == [];
    }
    TilesSplit(shards[..k], Rewritten(s, live, newFile), 0, s.off, s.off + live);
    TilesSplit(shards[..k] + Rewritten(s, live, newFile), ShiftDown(shards[k + 1..], delta), 0, s.off + live, total - delta);
  }

  /** Which old shard (if any) the i-th new one is. */
  lemma NewShardAt(shards: seq<Shard>, k: nat, live: nat, newFile: nat, total: nat, i: nat)
    requires Tiles(shards, 0, total) && k < |shards| && live <= shards[k].nbytes
    requires i < |NewShards(shards, k, live, newFile)|
    ensures var x := NewShards(shards, k, live, newFile)[i];
            var j := if i < k || live > 0 then i else i + 1;
            && j < |shards|
            && (i < k ==> x == shards[i])
            && (j == k ==> x == Shard(newFile, shards[k].off, live) && live > 0)
            && (j > k ==> shards[j].off >= shards[k].End()
                          && x == shards[j].(off := shards[j].off - (shards[k].nbytes - live)))
  {
    var j := if i < k || live > 0 then i else i + 1;
    if j > k {
      TilesPair(shards, total, k, j);
      assert shards[k + 1..][j - k - 1] == shards[j];
    }
  }

  lemma NewShardsDistinct(shards: seq<Shard>, k: nat, live: nat, newFile: nat, total: nat)
    requires Tiles(shards, 0, total) && DistinctFiles(shards) && k < |shards| && live <= shards[k].nbytes
    requires forall x :: x in shards ==> x.file != newFile
    ensures DistinctFiles(NewShards(shards, k, live, newFile))
  {
    var new_ := NewShards(shards, k, live, newFile);
    forall i, j | 0 <= i < j < |new_| ensures new_[i].file != new_[j].file {
      NewShardAt(shards, k, live, newFile, total, i);
      NewShardAt(shards, k, live, newFile, total, j);
    }
  }

  lemma NewShardsAligned(shards: seq<Shard>, k: nat, live: nat, newFile: nat, total: nat)
    requires Tiles(shards, 0, total) && AlignedShards(shards) && k < |shards| && live <= shards[k].nbytes
    requires live % ALIGN == 0
    ensures AlignedShards(NewShards(shards, k, live, newFile))
  {
    var new_ := NewShards(shards, k, live, newFile);
    assert shards[k] in shards;
    forall x | x in new_ ensures x.off % ALIGN == 0 && x.nbytes % ALIGN == 0 {
      var i :| 0 <= i < |new_| && new_[i] == x;
      NewShardAt(shards, k, live, newFile, total, i);
      var j := if i < k || live > 0 then i else i + 1;
      assert shards[j] in shards;
      if j > k { ShiftAligned(shards[j].off, shards[k].nbytes, live); }
    }
  }

  lemma ShiftAligned(a: int, b: int, c: int)
    requires a % ALIGN == 0 && b % ALIGN == 0 && c % ALIGN == 0
    ensures (a - (b - c)) % ALIGN == 0
  {
  }

  lemma {:induction false} TotalAligned(shards: seq<Shard>, from: nat, to: nat)
    requires Tiles(shards, from, to) && AlignedShards(shards) && from % ALIGN == 0
    ensures to % ALIGN == 0
    decreases |shards|
  {
    if shards != [] {
      assert shards[0] in shards;
      TotalAligned(shards[1..], shards[0].End(), to);
    }
  }

  lemma MovedEntriesFit(tensors: seq<Entry>, s: Shard, total: nat)
    requires forall e :: e in tensors ==> EntryFits(e, total)
    requires s.End() <= total && total % ALIGN == 0 && s.off % ALIGN == 0 && s.nbytes % ALIGN == 0
    ensures forall e :: e in tensors ==> e.BlockEnd() <= total
    ensures forall e :: e in MoveEntries(tensors, s) ==> EntryFits(e, Remap(tensors, s, total))
  {
    forall e | e in tensors ensures e.BlockEnd() <= total {
      AlignUpShift(e.off, e.nbytes);
      AlignUpLeast(e.off + e.nbytes, total);
    }
    var moved := MoveEntries(tensors, s);
    forall e | e in moved ensures EntryFits(e, Remap(tensors, s, total)) {
      var i :| 0 <= i < |tensors| && e == moved[i];
      assert tensors[i] in tensors;
      MovedBlock(tensors, s, i);
      RemapMonotone(tensors, s, tensors[i].BlockEnd(), total);
      RemapAligned(tensors, s, tensors[i].off);
    }
  }

  /** The shape of the new index. */
  lemma StepShape(ix: Index, k: nat, newFile: nat)
    requires WellFormed(ix) && k < |SortShards(ix.shards)| && Dirty(ix.tensors, SortShards(ix.shards)[k])
    ensures var s := SortShards(ix.shards)[k];
            var live := LiveCount(ix.tensors, s.off, s.End());
            && CompactIndex(ix, s, newFile)
               == Index(MoveEntries(ix.tensors, s), NewShards(SortShards(ix.shards), k, live, newFile),
                        Remap(ix.tensors, s, ix.totalBytes))
            && s.End() <= ix.totalBytes
  {
    var shards := SortShards(ix.shards);
    var s := shards[k];
    assert s in shards;
    BehindIsBehind(shards, s, ix.totalBytes);
    MovedShards(shards, k, LiveCount(ix.tensors, s.off, s.End()), newFile, ix.totalBytes);
    TilesBound(shards, ix.totalBytes, k);
  }

  /** The new shards are in order, tile the shorter region and keep distinct, aligned files. */
  lemma StepShards(ix: Index, k: nat, newFile: nat)
    requires WellFormed(ix) && k < |SortShards(ix.shards)| && Dirty(ix.tensors, SortShards(ix.shards)[k])
    requires forall x :: x in SortShards(ix.shards) ==> x.file != newFile
    ensures var ix' := CompactIndex(ix, SortShards(ix.shards)[k], newFile);
            && SortShards(ix'.shards) == ix'.shards
            && Tiles(ix'.shards, 0, ix'.totalBytes)
            && DistinctFiles(ix'.shards)
            && AlignedShards(ix'.shards)
  {
    var s := SortShards(ix.shards)[k];
    StepShape(ix, k, newFile);
    ShardLiveAligned(ix, k);
    RemapBehind(ix.tensors, s, ix.totalBytes);
    NewShardsFit(SortShards(ix.shards), k, LiveCount(ix.tensors, s.off, s.End()), newFile, ix.totalBytes, Remap(ix.tensors, s, ix.totalBytes));
  }

  lemma ShardLiveAligned(ix: Index, k: nat)
    requires WellFormed(ix) && k < |SortShards(ix.shards)|
    ensures var s := SortShards(ix.shards)[k]; LiveCount(ix.tensors, s.off, s.End()) % ALIGN == 0
  {
    var s := SortShards(ix.shards)[k];
    EndsAligned(SortShards(ix.shards), k);
    EntriesAligned(ix.tensors, ix.totalBytes);
    LiveCountAligned(ix.tensors, s.off, s.End());
  }

  lemma EndsAligned(shards: seq<Shard>, k: nat)
    requires AlignedShards(shards) && k < |shards|
    ensures shards[k].off % ALIGN == 0 && shards[k].End() % ALIGN == 0
  {
    assert shards[k] in shards;
    SumAligned(shards[k].off, shards[k].nbytes);
  }

  lemma EntriesAligned(tensors: seq<Entry>, total: nat)
    requires forall e :: e in tensors ==> EntryFits(e, total)
    ensures forall e :: e in tensors ==> e.off % ALIGN == 0
  {
  }

  lemma RemapBehind(tensors: seq<Entry>, s: Shard, x: nat)
    requires s.End() <= x
    ensures LiveCount(tensors, s.off, s.End()) <= s.nbytes
    ensures Remap(tensors, s, x) == x - (s.nbytes - LiveCount(tensors, s.off, s.End()))
  {
    LiveCountBound(tensors, s.off, s.End());
  }

  lemma NewShardsFit(shards: seq<Shard>, k: nat, live: nat, newFile: nat, total: nat, end: nat)
    requires Tiles(shards, 0, total) && DistinctFiles(shards) && AlignedShards(shards) && k < |shards| && live <= shards[k].nbytes
    requires live % ALIGN == 0 && (forall x :: x in shards ==> x.file != newFile) && end == total - (shards[k].nbytes - live)
    ensures var new_ := NewShards(shards, k, live, newFile);
      && SortShards(new_) == new_ && Tiles(new_, 0, end)
      && DistinctFiles(new_) && AlignedShards(new_)
  {
    NewShardsTile(shards, k, live, newFile, total);
    NewShardsDistinct(shards, k, live, newFile, total);
    NewShardsAligned(shards, k, live, newFile, total);
    TilesAscending(NewShards(shards, k, live, newFile), end);
  }

  lemma TilesAscending(shards: seq<Shard>, total: nat)
    requires Tiles(shards, 0, total)
    ensures SortShards(shards) == shards
  {
    TilesOrder(shards, 0, total);
    SortShardsSorts(shards);
  }

  lemma TilesBound(shards: seq<Shard>, total: nat, k: nat)
    requires Tiles(shards, 0, total) && k < |shards|
    ensures shards[k].End() <= total
  {
    TilesOrder(shards, 0, total);
    assert shards[k] in shards;
  }

  /** One compaction step keeps the checkpoint well-formed. */
  lemma StepWellFormed(ix: Index, k: nat, newFile: nat)
    requires WellFormed(ix) && k < |SortShards(ix.shards)| && Dirty(ix.tensors, SortShards(ix.shards)[k])
    requires forall x :: x in SortShards(ix.shards) ==> x.file != newFile
    ensures WellFormed(CompactIndex(ix, SortShards(ix.shards)[k], newFile))
  {
    var s := SortShards(ix.shards)[k];
    StepShape(ix, k, newFile);
    StepShards(ix, k, newFile);
    assert s in SortShards(ix.shards);
    TotalAligned(SortShards(ix.shards), 0, ix.totalBytes);
    MovedDisjoint(ix.tensors, s);
    MovedEntriesFit(ix.tensors, s, ix.totalBytes);
  }

  // ---- the whole step on the bytes ----

  /** `g` holds the kept shards of `f` unchanged and, under `newFile`, the live bytes of the
      k-th shard. */
  ghost predicate Rewrites(f: Files, g: Files, tensors: seq<Entry>, shards: seq<Shard>, k: nat, newFile: nat)
    requires Complete(f, shards) && k < |shards| && shards[k].End() <= |Region(f, shards)|
  {
    var s := shards[k];
    && (forall i :: 0 <= i < |shards| && i != k ==> shards[i].file in g && g[shards[i].file] == f[shards[i].file])
    && (LiveCount(tensors, s.off, s.End()) > 0 ==>
          newFile in g && g[newFile] == KeepLive(tensors, Region(f, shards), s.off, s.End()))
  }

  lemma ShiftedRegion(f: Files, g: Files, shards: seq<Shard>, delta: nat)
    requires Complete(f, shards)
    requires forall x :: x in shards ==> x.file in g && g[x.file] == f[x.file]
    ensures Complete(g, ShiftDown(shards, delta)) && Complete(g, shards)
    ensures Region(g, ShiftDown(shards, delta)) == Region(f, shards) == Region(g, shards)
  {
    var moved := ShiftDown(shards, delta);
    forall x | x in moved ensures x.file in g && |g[x.file]| == x.nbytes {
      var i :| 0 <= i < |shards| && moved[i] == x;
      assert shards[i] in shards;
    }
    forall i | 0 <= i < |shards| ensures f[shards[i].file] == g[moved[i].file] {
      assert shards[i] in shards;
    }
    RegionFrame(f, g, shards, moved);
    RegionFrame(f, g, shards, shards);
  }

  /** Where the old region is cut by the shard, and what the shard's file holds of it. */
  lemma RegionAround(f: Files, shards: seq<Shard>, k: nat, total: nat)
    requires Complete(f, shards) && Tiles(shards, 0, total) && k < |shards|
    ensures Complete(f, shards[..k]) && Complete(f, shards[k + 1..])
    ensures |Region(f, shards)| == total && shards[k].End() <= total
    ensures Region(f, shards[..k]) == Region(f, shards)[..shards[k].off]
    ensures Region(f, shards[k + 1..]) == Region(f, shards)[shards[k].End()..]
  {
    var mid := TilesCut(shards, k, 0, total);
    RegionLength(f, shards, 0, total);
    RegionLength(f, shards[..k], 0, mid);
    RegionSplit(f, shards[..k], shards[k..]);
    assert shards[..k] + shards[k..] == shards;
    assert shards[k..][1..] == shards[k + 1..];
    assert Region(f, shards[k..]) == f[shards[k].file] + Region(f, shards[k + 1..]);
  }

  /** The new shards, read in order, are the old region without the dead bytes of the shard. */
  lemma NewRegion(f: Files, g: Files, tensors: seq<Entry>, shards: seq<Shard>, k: nat, newFile: nat, total: nat)
    requires Complete(f, shards) && Tiles(shards, 0, total) && k < |shards|
    requires shards[k].End() <= |Region(f, shards)| && Rewrites(f, g, tensors, shards, k, newFile)
    requires LiveCount(tensors, shards[k].off, shards[k].End()) <= shards[k].nbytes
    ensures var new_ := NewShards(shards, k, LiveCount(tensors, shards[k].off, shards[k].End()), newFile);
      Complete(g, new_) && Region(g, new_) == Squeezed(tensors, shards[k], Region(f, shards))
  {
    NewParts(f, g, tensors, shards, k, newFile, total, LiveCount(tensors, shards[k].off, shards[k].End()));
  }

  /** In front, rewritten, behind: together the squeezed region. */
  lemma NewParts(f: Files, g: Files, tensors: seq<Entry>, shards: seq<Shard>, k: nat, newFile: nat, total: nat, live: nat)
    requires Complete(f, shards) && Tiles(shards, 0, total) && k < |shards|
    requires shards[k].End() <= |Region(f, shards)| && Rewrites(f, g, tensors, shards, k, newFile)
    requires live == LiveCount(tensors, shards[k].off, shards[k].End()) <= shards[k].nbytes
    ensures Complete(g, NewShards(shards, k, live, newFile))
    ensures Region(g, NewShards(shards, k, live, newFile)) == Squeezed(tensors, shards[k], Region(f, shards))
  {
    var front, middle, behind := shards[..k], Rewritten(shards[k], live, newFile), ShiftDown(shards[k + 1..], shards[k].nbytes - live);
    assert NewShards(shards, k, live, newFile) == front + middle + behind;
    KeptParts(f, g, tensors, shards, k, newFile, total, live);
    RewrittenRegion(f, g, tensors, shards, k, newFile);
    JoinParts(g, front, middle, behind, tensors, shards[k], Region(f, shards), front + middle + behind);
  }

  /** What lies in front of the shard and behind it. */
  lemma KeptParts(f: Files, g: Files, tensors: seq<Entry>, shards: seq<Shard>, k: nat, newFile: nat, total: nat, live: nat)
    requires Complete(f, shards) && Tiles(shards, 0, total) && k < |shards|
    requires shards[k].End() <= |Region(f, shards)| && Rewrites(f, g, tensors, shards, k, newFile)
    requires live == LiveCount(tensors, shards[k].off, shards[k].End()) <= shards[k].nbytes
    ensures var front, behind := shards[..k], ShiftDown(shards[k + 1..], shards[k].nbytes - live);
      && Complete(g, front) && Region(g, front) == Region(f, shards)[..shards[k].off]
      && Complete(g, behind) && Region(g, behind) == Region(f, shards)[shards[k].End()..]
  {
    RegionAround(f, shards, k, total);
    KeptRegions(f, g, tensors, shards, k, newFile);
  }

  lemma JoinParts(g: Files, a: seq<Shard>, b: seq<Shard>, c: seq<Shard>, tensors: seq<Entry>, s: Shard, region: Bytes, all: seq<Shard>)
    requires Complete(g, a) && Complete(g, b) && Complete(g, c) && s.End() <= |region| && all == a + b + c
    requires Region(g, a) == region[..s.off] && Region(g, b) == KeepLive(tensors, region, s.off, s.End()) && Region(g, c) == region[s.End()..]
    ensures Complete(g, all) && Region(g, all) == Squeezed(tensors, s, region)
  {
    ThreeRegions(g, a, b, c);
  }

  lemma ThreeRegions(g: Files, a: seq<Shard>, b: seq<Shard>, c: seq<Shard>)
    requires Complete(g, a) && Complete(g, b) && Complete(g, c)
    ensures Complete(g, a + b + c) && Region(g, a + b + c) == Region(g, a) + Region(g, b) + Region(g, c)
  {
    RegionSplit(g, a, b);
    RegionSplit(g, a + b, c);
  }

  lemma KeptFiles(f: Files, g: Files, tensors: seq<Entry>, shards: seq<Shard>, k: nat, newFile: nat)
    requires Complete(f, shards) && k < |shards|
    requires shards[k].End() <= |Region(f, shards)| && Rewrites(f, g, tensors, shards, k, newFile)
    ensures Complete(f, shards[..k]) && Complete(f, shards[k + 1..])
    ensures forall x :: x in shards[..k] ==> x.file in g && g[x.file] == f[x.file]
    ensures forall x :: x in shards[k + 1..] ==> x.file in g && g[x.file] == f[x.file]
  {
    forall x | x in shards[..k] ensures x in shards && x.file in g && g[x.file] == f[x.file] {
      var i :| 0 <= i < k && shards[i] == x;
    }
    forall x | x in shards[k + 1..] ensures x in shards && x.file in g && g[x.file] == f[x.file] {
      var i :| 0 <= i < |shards[k + 1..]| && shards[k + 1..][i] == x;
      assert shards[k + 1 + i] == x;
    }
  }

  lemma KeptRegions(f: Files, g: Files, tensors: seq<Entry>, shards: seq<Shard>, k: nat, newFile: nat)
    requires Complete(f, shards) && k < |shards|
    requires shards[k].End() <= |Region(f, shards)| && Rewrites(f, g, tensors, shards, k, newFile)
    requires LiveCount(tensors, shards[k].off, shards[k].End()) <= shards[k].nbytes
    ensures var behind := ShiftDown(shards[k + 1..], shards[k].nbytes - LiveCount(tensors, shards[k].off, shards[k].End()));
      && Complete(f, shards[..k]) && Complete(f, shards[k + 1..]) && Complete(g, shards[..k]) && Complete(g, behind)
      && Region(g, shards[..k]) == Region(f, shards[..k])
      && Region(g, behind) == Region(f, shards[k + 1..])
  {
    KeptFiles(f, g, tensors, shards, k, newFile);
    ShiftedRegion(f, g, shards[..k], 0);
    ShiftedRegion(f, g, shards[k + 1..], shards[k].nbytes - LiveCount(tensors, shards[k].off, shards[k].End()));
  }

  lemma RewrittenRegion(f: Files, g: Files, tensors: seq<Entry>, shards: seq<Shard>, k: nat, newFile: nat)
    requires Complete(f, shards) && k < |shards|
    requires shards[k].End() <= |Region(f, shards)| && Rewrites(f, g, tensors, shards, k, newFile)
    ensures var new_ := Rewritten(shards[k], LiveCount(tensors, shards[k].off, shards[k].End()), newFile);
      Complete(g, new_) && Region(g, new_) == KeepLive(tensors, Region(f, shards), shards[k].off, shards[k].End())
  {
    var s := shards[k];
    var live := LiveCount(tensors, s.off, s.End());
    KeepLiveLength(tensors, Region(f, shards), s.off, s.End());
    if live > 0 {
      assert Rewritten(s, live, newFile)[1..] == [];
      assert Region(g, Rewritten(s, live, newFile)) == g[newFile] + [];
    }
  }

  lemma MovedContents(tensors: seq<Entry>, s: Shard, region: Bytes)
    requires s.End() <= |region|
    requires forall e :: e in tensors ==> e.off + e.nbytes <= e.BlockEnd() <= |region|
    ensures forall e :: e in MoveEntries(tensors, s) ==> e.off + e.nbytes <= |Squeezed(tensors, s, region)|
    ensures ContentsOf(Squeezed(tensors, s, region), MoveEntries(tensors, s)) == ContentsOf(region, tensors)
  {
    var moved := MoveEntries(tensors, s);
    forall i | 0 <= i < |tensors|
      ensures tensors[i].off + tensors[i].nbytes <= |region|
           && moved[i].off + moved[i].nbytes <= moved[i].BlockEnd() <= |Squeezed(tensors, s, region)|
           && Content(Squeezed(tensors, s, region), moved[i]) == Content(region, tensors[i])
    {
      assert tensors[i] in tensors;
      MovedContent(tensors, s, region, i);
    }
  }

  /** MAIN: one compaction step preserves meaning. The new index is well-formed, names only
      complete shards, and every entry reads exactly its old bytes. */
  lemma StepPreservesContents(f: Files, g: Files, ix: Index, k: nat, newFile: nat)
    requires Safe(f, ix) && k < |SortShards(ix.shards)| && Dirty(ix.tensors, SortShards(ix.shards)[k])
    requires forall x :: x in SortShards(ix.shards) ==> x.file != newFile
    requires SortShards(ix.shards)[k].End() <= |Region(f, SortShards(ix.shards))|
    requires Rewrites(f, g, ix.tensors, SortShards(ix.shards), k, newFile)
    ensures Safe(g, CompactIndex(ix, SortShards(ix.shards)[k], newFile))
    ensures Contents(g, CompactIndex(ix, SortShards(ix.shards)[k], newFile)) == Contents(f, ix)
  {
    var shards := SortShards(ix.shards);
    var s := shards[k];
    StepWellFormed(ix, k, newFile);
    StepShape(ix, k, newFile);
    StepShards(ix, k, newFile);
    NewRegion(f, g, ix.tensors, shards, k, newFile, ix.totalBytes);
    RegionLength(f, shards, 0, ix.totalBytes);
    assert s in shards;
    TotalAligned(shards, 0, ix.totalBytes);
    MovedEntriesFit(ix.tensors, s, ix.totalBytes);
    MovedContents(ix.tensors, s, Region(f, shards));
  }

  // ---- progress: the dirty shards and what each costs ----

  /** The live-byte counts of the dirty shards, in region order (the third component of
      `dirty_shards`). */
  ghost function DirtyLives(tensors: seq<Entry>, shards: seq<Shard>): seq<nat> {
    if shards == [] then []
    else (if Dirty(tensors, shards[0]) then [LiveCount(tensors, shards[0].off, shards[0].End())] else [])
         + DirtyLives(tensors, shards[1..])
  }

  lemma {:induction false} NoneDirty(tensors: seq<Entry>, shards: seq<Shard>)
    requires forall s :: s in shards ==> !Dirty(tensors, s)
    ensures DirtyLives(tensors, shards) == []
    decreases |shards|
  {
    if shards != [] { NoneDirty(tensors, shards[1..]); }
  }

  lemma {:induction false} DirtyLivesSplit(tensors: seq<Entry>, a: seq<Shard>, b: seq<Shard>)
    ensures DirtyLives(tensors, a + b) == DirtyLives(tensors, a) + DirtyLives(tensors, b)
    decreases |a|
  {
    if a == [] {
      assert a + b == b;
    } else {
      DirtyLivesSplit(tensors, a[1..], b);
      DirtyLivesCons(tensors, a[0], a[1..]);
      DirtyLivesCons(tensors, a[0], a[1..] + b);
      assert a + b == [a[0]] + (a[1..] + b) && a == [a[0]] + a[1..];
    }
  }

  ghost function DirtyLive(tensors: seq<Entry>, s: Shard): seq<nat> {
    if Dirty(tensors, s) then [LiveCount(tensors, s.off, s.End())] else []
  }

  lemma DirtyLivesCons(tensors: seq<Entry>, s: Shard, rest: seq<Shard>)
    ensures DirtyLives(tensors, [s] + rest) == DirtyLive(tensors, s) + DirtyLives(tensors, rest)
  {
    assert ([s] + rest)[1..] == rest;
  }

  /** Shard by shard equal counts and sizes give equal tables. */
  lemma {:induction false} DirtyLivesSame(t: seq<Entry>, a: seq<Shard>, u: seq<Entry>, b: seq<Shard>)
    requires |a| == |b|
    requires forall i :: 0 <= i < |a| ==> a[i].nbytes == b[i].nbytes
    requires forall i :: 0 <= i < |a| ==> LiveCount(t, a[i].off, a[i].End()) == LiveCount(u, b[i].off, b[i].End())
    ensures DirtyLives(t, a) == DirtyLives(u, b)
    decreases |a|
  {
    if a != [] {
      forall i | 0 <= i < |a| - 1
        ensures a[1..][i].nbytes == b[1..][i].nbytes
             && LiveCount(t, a[1..][i].off, a[1..][i].End()) == LiveCount(u, b[1..][i].off, b[1..][i].End())
      {
        assert a[1..][i] == a[i + 1] && b[1..][i] == b[i + 1];
      }
      DirtyLivesSame(t, a[1..], u, b[1..]);
    }
  }

  lemma FrontDirtyLives(tensors: seq<Entry>, shards: seq<Shard>, k: nat, total: nat)
    requires Tiles(shards, 0, total) && k < |shards|
    ensures DirtyLives(MoveEntries(tensors, shards[k]), shards[..k]) == DirtyLives(tensors, shards[..k])
  {
    var s, front := shards[k], shards[..k];
    var moved := MoveEntries(tensors, s);
    LiveCountBound(tensors, s.off, s.End());
    forall i | 0 <= i < k
      ensures LiveCount(tensors, front[i].off, front[i].End()) == LiveCount(moved, front[i].off, front[i].End())
    {
      TilesPair(shards, total, i, k);
      LiveCountMoved(tensors, s, front[i].off, front[i].End());
    }
    DirtyLivesSame(tensors, front, moved, front);
  }

  lemma BehindDirtyLives(tensors: seq<Entry>, shards: seq<Shard>, k: nat, total: nat)
    requires Tiles(shards, 0, total) && k < |shards|
    requires LiveCount(tensors, shards[k].off, shards[k].End()) <= shards[k].nbytes
    ensures var delta := shards[k].nbytes - LiveCount(tensors, shards[k].off, shards[k].End());
      DirtyLives(MoveEntries(tensors, shards[k]), ShiftDown(shards[k + 1..], delta))
      == DirtyLives(tensors, shards[k + 1..])
  {
    var s, behind := shards[k], shards[k + 1..];
    var moved := MoveEntries(tensors, s);
    var back := ShiftDown(behind, s.nbytes - LiveCount(tensors, s.off, s.End()));
    forall i | 0 <= i < |behind|
      ensures LiveCount(tensors, behind[i].off, behind[i].End()) == LiveCount(moved, back[i].off, back[i].End())
    {
      assert behind[i] == shards[k + 1 + i];
      TilesPair(shards, total, k, k + 1 + i);
      LiveCountMoved(tensors, s, behind[i].off, behind[i].End());
    }
    DirtyLivesSame(tensors, behind, moved, back);
  }

  lemma NewDirtyLives(tensors: seq<Entry>, shards: seq<Shard>, k: nat, newFile: nat, total: nat)
    requires Tiles(shards, 0, total) && k < |shards|
    requires LiveCount(tensors, shards[k].off, shards[k].End()) <= shards[k].nbytes
    ensures var live := LiveCount(tensors, shards[k].off, shards[k].End());
      DirtyLives(MoveEntries(tensors, shards[k]), NewShards(shards, k, live, newFile))
      == DirtyLives(tensors, shards[..k]) + DirtyLives(tensors, shards[k + 1..])
  {
    var s := shards[k];
    var live := LiveCount(tensors, s.off, s.End());
    var moved, new_ := MoveEntries(tensors, s), Rewritten(s, live, newFile);
    FrontDirtyLives(tensors, shards, k, total);
    BehindDirtyLives(tensors, shards, k, total);
    RewrittenShardClean(tensors, s);
    assert DirtyLives(moved, new_) == [] by {
      if live > 0 { assert new_[1..] == []; }
    }
    MiddleClean(moved, shards[..k], new_, ShiftDown(shards[k + 1..], s.nbytes - live));
  }

  lemma MiddleClean(tensors: seq<Entry>, a: seq<Shard>, b: seq<Shard>, c: seq<Shard>)
    requires DirtyLives(tensors, b) == []
    ensures DirtyLives(tensors, a + b + c) == DirtyLives(tensors, a) + DirtyLives(tensors, c)
  {
    DirtyLivesSplit(tensors, a, b);
    DirtyLivesSplit(tensors, a + b, c);
    assert DirtyLives(tensors, a) + [] == DirtyLives(tensors, a);
  }

  /** MAIN: a step removes exactly the rewritten shard from the dirty table; the live-byte count
      of every other shard is unchanged. */
  lemma StepDirtyLives(ix: Index, k: nat, newFile: nat)
    requires WellFormed(ix) && k < |SortShards(ix.shards)| && Dirty(ix.tensors, SortShards(ix.shards)[k])
    requires forall x :: x in SortShards(ix.shards) ==> x.file != newFile
    ensures var shards, ix' := SortShards(ix.shards), CompactIndex(ix, SortShards(ix.shards)[k], newFile);
      DirtyLives(ix'.tensors, SortShards(ix'.shards))
      == DirtyLives(ix.tensors, shards[..k]) + DirtyLives(ix.tensors, shards[k + 1..])
  {
    StepShape(ix, k, newFile);
    StepShards(ix, k, newFile);
    NewDirtyLives(ix.tensors, SortShards(ix.shards), k, newFile, ix.totalBytes);
  }

  /** No dirty shard left: the region is exactly the padded entries. */
  lemma CleanIsTight(ix: Index)
    requires WellFormed(ix) && DirtyLives(ix.tensors, SortShards(ix.shards)) == []
    ensures ix.totalBytes == PaddedSize(ix.tensors)
  {
    var shards := SortShards(ix.shards);
    TotalAligned(shards, 0, ix.totalBytes);
    forall e | e in ix.tensors ensures e.BlockEnd() <= ix.totalBytes {
      AlignUpShift(e.off, e.nbytes);
      AlignUpLeast(e.off + e.nbytes, ix.totalBytes);
    }
    LiveIsPadded(ix.tensors, ix.totalBytes);
    AllLive(ix.tensors, shards, 0, ix.totalBytes);
  }

  lemma {:induction false} AllLive(tensors: seq<Entry>, shards: seq<Shard>, from: nat, to: nat)
    requires Tiles(shards, from, to) && DirtyLives(tensors, shards) == []
    ensures from <= to && LiveCount(tensors, from, to) == to - from
    decreases |shards|
  {
    TilesGrow(shards, from, to);
    if shards != [] {
      AllLive(tensors, shards[1..], shards[0].End(), to);
      LiveCountSplit(tensors, from, shards[0].End(), to);
      LiveCountBound(tensors, from, shards[0].End());
    }
  }
}
