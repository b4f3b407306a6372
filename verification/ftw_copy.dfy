/** The repair tool's `--out` run: the kept entries are streamed out of the old shards, chunk by
    chunk, into a fresh directory, and the new tensors follow. */
module FtwCopy {
  import opened Choice
  import opened FtwFormat
  import opened FtwLive
  import opened FtwCompact
  import opened FtwDisk
  import opened FtwLayout
  import opened FtwWriters
  import opened FtwCompactor
  import opened FtwRepair
  import opened FtwPatch

  // ---- entry_chunks ----

  /** Bytes [a, b) of a file, at most CHUNK at a time; false at the end of the file. */
  method FileChunks(data: Bytes, a: nat, b: nat) returns (ok: bool, chunks: seq<Bytes>)
    requires a < b
    ensures ok <==> b <= |data|
    ensures ok ==> Concat(chunks, |chunks|) == data[a..b]
    ensures forall c :: c in chunks ==> 0 < |c| <= CHUNK
  {
    chunks := [];
    var pos := a;
    while pos < b
      invariant a <= pos <= b && (pos > a ==> pos <= |data|)
      invariant pos <= |data| ==> Concat(chunks, |chunks|) == data[a..pos]
      invariant pos > |data| ==> pos == a && chunks == []
      invariant forall c :: c in chunks ==> 0 < |c| <= CHUNK
    {
      var want := if b - pos < CHUNK then b - pos else CHUNK;
      var got := if pos + want <= |data| then want else if pos < |data| then |data| - pos else 0;
      if got == 0 { return false, chunks; }
      ConcatSnoc(chunks, data[pos..pos + got]);
      assert data[a..pos] + data[pos..pos + got] == data[a..pos + got];
      chunks := chunks + [data[pos..pos + got]];
      pos := pos + got;
    }
    ok := true;
  }

  lemma {:induction false} ConcatPrefix(a: seq<Bytes>, b: seq<Bytes>, n: nat)
    requires n <= |a|
    ensures Concat(a + b, n) == Concat(a, n)
    decreases n
  {
    if n > 0 { ConcatPrefix(a, b, n - 1); }
  }

  lemma ConcatSnoc(chunks: seq<Bytes>, c: Bytes)
    ensures Concat(chunks + [c], |chunks| + 1) == Concat(chunks, |chunks|) + c
  {
    ConcatPrefix(chunks, [c], |chunks|);
  }

  lemma {:induction false} ConcatJoin(a: seq<Bytes>, b: seq<Bytes>, n: nat)
    requires n <= |b|
    ensures Concat(a + b, |a| + n) == Concat(a, |a|) + Concat(b, n)
    decreases n
  {
    if n == 0 {
      ConcatPrefix(a, b, |a|);
      assert Concat(a, |a|) + [] == Concat(a, |a|);
    } else {
      ConcatJoin(a, b, n - 1);
      assert (a + b)[|a| + n - 1] == b[n - 1];
      assert Concat(a, |a|) + Concat(b, n - 1) + b[n - 1] == Concat(a, |a|) + (Concat(b, n - 1) + b[n - 1]);
    }
  }

  lemma JoinChunks(a: seq<Bytes>, b: seq<Bytes>, x: Bytes, y: Bytes)
    requires Concat(a, |a|) == x && Concat(b, |b|) == y
    ensures Concat(a + b, |a + b|) == x + y
  {
    ConcatJoin(a, b, |b|);
  }

  lemma SliceJoin(s: Bytes, a: nat, b: nat, c: nat)
    requires a <= b <= c <= |s|
    ensures s[a..b] + s[b..c] == s[a..c]
  {
  }

  /** A stretch inside one shard reads the same from its file and from the region. */
  lemma ShardSlice(files: Files, shards: seq<Shard>, k: nat, total: nat, pos: nat, n: nat)
    requires Complete(files, shards) && Tiles(shards, 0, total) && k < |shards|
    requires shards[k].off <= pos && pos + n <= shards[k].End()
    ensures shards[k].End() <= |Region(files, shards)| && shards[k].file in files && |files[shards[k].file]| == shards[k].nbytes
    ensures files[shards[k].file][pos - shards[k].off..pos - shards[k].off + n] == Region(files, shards)[pos..pos + n]
  {
    var s := shards[k];
    assert s in shards;
    RegionAtShard(files, shards, k, total);
    SliceOfSlice(Region(files, shards), s.off, s.End(), pos, pos + n);
  }

  /** What one shard holds of `remaining` bytes from `pos` on. */
  method ShardChunks(files: Files, shards: seq<Shard>, k: nat, ghost total: nat, pos: nat, remaining: nat)
    returns (more: seq<Bytes>, take: nat)
    requires Complete(files, shards) && Tiles(shards, 0, total) && k < |shards| && remaining > 0
    requires shards[k].off <= pos < shards[k].End()
    ensures take <= remaining && (take == remaining || pos + take == shards[k].End())
    ensures pos + take <= |Region(files, shards)| == total
    ensures Concat(more, |more|) == Region(files, shards)[pos..pos + take]
  {
    var sh := shards[k];
    RegionLength(files, shards, 0, total);
    take := if sh.End() - pos < remaining then sh.End() - pos else remaining;
    ShardSlice(files, shards, k, total, pos, take);
    var ok;
    ok, more := FileChunks(files[sh.file], pos - sh.off, pos - sh.off + take);
  }

  /** The bytes of [off, off + nbytes) of the region, shard by shard. */
  method RangeChunks(files: Files, shards: seq<Shard>, ghost total: nat, off: nat, nbytes: nat) returns (chunks: seq<Bytes>)
    requires Complete(files, shards) && Tiles(shards, 0, total) && off + nbytes <= total
    ensures |Region(files, shards)| == total
    ensures Concat(chunks, |chunks|) == Region(files, shards)[off..off + nbytes]
  {
    ghost var region := Region(files, shards);
    RegionLength(files, shards, 0, total);
    chunks := [];
    var pos, remaining := off, nbytes;
    ghost var mid: nat := 0;
    for k := 0 to |shards|
      invariant off <= pos && pos + remaining == off + nbytes && remaining >= 0
      invariant Tiles(shards[k..], mid, total) && (remaining > 0 ==> mid <= pos)
      invariant Concat(chunks, |chunks|) == region[off..pos]
    {
      assert shards[k..][0] == shards[k] && shards[k..][1..] == shards[k + 1..];
      if remaining > 0 && pos < shards[k].End() {
        chunks, pos, remaining := MoreChunks(files, shards, k, total, off, pos, remaining, chunks);
      }
      mid := shards[k].End();
    }
    assert shards[|shards|..] == [];
  }

  /** The chunks of one more shard. */
  method MoreChunks(files: Files, shards: seq<Shard>, k: nat, ghost total: nat, ghost off: nat, pos: nat, remaining: nat, chunks: seq<Bytes>)
    returns (all: seq<Bytes>, pos': nat, remaining': nat)
    requires Complete(files, shards) && Tiles(shards, 0, total) && k < |shards| && remaining > 0 && off <= pos
    requires shards[k].off <= pos < shards[k].End() && |Region(files, shards)| == total && pos <= total
    requires Concat(chunks, |chunks|) == Region(files, shards)[off..pos]
    ensures pos <= pos' <= total && pos' + remaining' == pos + remaining && (remaining' > 0 ==> pos' == shards[k].End())
    ensures Concat(all, |all|) == Region(files, shards)[off..pos']
  {
    ghost var region := Region(files, shards);
    var more, take := ShardChunks(files, shards, k, total, pos, remaining);
    JoinChunks(chunks, more, region[off..pos], region[pos..pos + take]);
    SliceJoin(region, off, pos, pos + take);
    all, pos', remaining' := chunks + more, pos + take, remaining - take;
  }

  // ---- the run ----

  /** Streams one kept entry into the new directory: its bytes are the old ones. */
  method CopyEntry(w: ShardWriter, files: Files, ix: Index, k: Kept) returns (ghost data: Bytes)
    requires Safe(files, ix) && k.pos < |ix.tensors| && w.Ok() && w.globalOff % ALIGN == 0
    modifies w, w.dir
    ensures w.Ok() && w.globalOff == old(w.globalOff) + AlignUp(|data|)
    ensures data == Contents(files, ix)[k.pos].data
    ensures w.cut == AddCut(old(w.cut), |data|) && w.stored == old(w.stored) + Padded(data)
    ensures w.entries == old(w.entries) + [Entry(k.name, ix.tensors[k.pos].info, old(w.globalOff), |data|)]
  {
    var e := ix.tensors[k.pos];
    assert EntryFits(e, ix.totalBytes);
    var shards := SortShards(ix.shards);
    var chunks := RangeChunks(files, shards, ix.totalBytes, e.off, e.nbytes);
    data := Concat(chunks, |chunks|);
    assert Contents(files, ix)[k.pos] == Content(Region(files, shards), e);
    var ok := w.Add(k.name, e.info, e.nbytes, chunks);
    assert ok;
  }

  /** The run's tensors: what the kept entries say, then the new ones. */
  ghost function OutItems(files: Files, ix: Index, keep: seq<Kept>, added: seq<Tensor>): seq<Tensor>
    requires Safe(files, ix) && Keeps(keep, |ix.tensors|)
  {
    KeptContents(Contents(files, ix), keep) + added
  }

  /** The run's tensors start with what the kept entries say. */
  ghost predicate StartsKept(items: seq<Tensor>, files: Files, ix: Index, keep: seq<Kept>)
    requires Safe(files, ix) && Keeps(keep, |ix.tensors|)
  {
    |keep| <= |items| && forall i :: 0 <= i < |keep| ==> items[i] == Contents(files, ix)[keep[i].pos].(name := keep[i].name)
  }

  /** Copies all kept entries, in order, into a fresh writer. */
  method CopyKept(w: ShardWriter, files: Files, ix: Index, keep: seq<Kept>, ghost items: seq<Tensor>)
    requires Safe(files, ix) && Keeps(keep, |ix.tensors|) && StartsKept(items, files, ix, keep)
    requires w.Ok() && w.Done(items, 0) && w.origin.base == 0
    modifies w, w.dir
    ensures w.Ok() && w.Done(items, |keep|)
  {
    for i := 0 to |keep|
      invariant w.Ok() && w.Done(items, i)
    {
      CopyNext(w, files, ix, keep, items, i);
    }
  }

  method CopyNext(w: ShardWriter, files: Files, ix: Index, keep: seq<Kept>, ghost items: seq<Tensor>, i: nat)
    requires Safe(files, ix) && Keeps(keep, |ix.tensors|) && StartsKept(items, files, ix, keep) && i < |keep|
    requires w.Ok() && w.Done(items, i) && w.origin.base == 0
    modifies w, w.dir
    ensures w.Ok() && w.Done(items, i + 1)
  {
    OffsetAligned(items, i, 0);
    assert items[i] == Contents(files, ix)[keep[i].pos].(name := keep[i].name);
    assert items[i].info == ix.tensors[keep[i].pos].info;
    ghost var data := CopyEntry(w, files, ix, keep[i]);
    EntriesSnoc(items, i, 0);
  }

  /** No dead byte in the region: no shard is dirty. */
  lemma TightIsClean(ix: Index)
    requires WellFormed(ix) && ix.totalBytes == PaddedSize(ix.tensors)
    ensures DirtyLives(ix.tensors, SortShards(ix.shards)) == []
  {
    var shards, total := SortShards(ix.shards), ix.totalBytes;
    TotalAligned(shards, 0, total);
    forall e | e in ix.tensors ensures e.BlockEnd() <= total {
      assert EntryFits(e, total);
      BlockFits(e, total);
    }
    LiveIsPadded(ix.tensors, total);
    LiveCountBound(ix.tensors, 0, total);
    TilesOrder(shards, 0, total);
    forall s | s in shards ensures !Dirty(ix.tensors, s) {
      LiveCountBound(ix.tensors, s.off, s.End());
    }
    NoneDirty(ix.tensors, shards);
  }

  /** The entries of a run are exactly as large, padded, as the region they were laid out in. */
  lemma {:induction false} EntriesFill(items: seq<Tensor>, n: nat)
    requires n <= |items|
    ensures PaddedSize(EntriesOf(items, n, 0)) == OffsetOf(items, n, 0)
    decreases n
  {
    if n > 0 {
      EntriesFill(items, n - 1);
      EntriesSnoc(items, n - 1, 0);
      var es := EntriesOf(items, n, 0);
      assert es[..n - 1] == EntriesOf(items, n - 1, 0);
    }
  }

  /** The run's tensors end with the new ones. */
  ghost predicate EndsAdded(items: seq<Tensor>, added: seq<Tensor>, from: nat) {
    from + |added| == |items| && forall k :: 0 <= k < |added| ==> items[from + k] == added[k]
  }

  /** Adds the first `n` new tensors behind the kept ones. */
  method AddNew(w: ShardWriter, added: seq<Tensor>, n: nat, ghost items: seq<Tensor>, ghost from: nat)
    requires n <= |added| && EndsAdded(items, added, from)
    requires w.Ok() && w.Done(items, from) && w.origin.base == 0
    modifies w, w.dir
    ensures w.Ok() && w.Done(items, from + n)
  {
    for k := 0 to n
      invariant w.Ok() && w.Done(items, from + k)
    {
      w.AddNext(added[k], items, from + k);
    }
  }

  lemma ItemsAre(files: Files, ix: Index, keep: seq<Kept>, added: seq<Tensor>, items: seq<Tensor>)
    requires Safe(files, ix) && Keeps(keep, |ix.tensors|) && items == OutItems(files, ix, keep, added)
    ensures |items| == |keep| + |added| && StartsKept(items, files, ix, keep) && EndsAdded(items, added, |keep|)
  {
  }

  /** The kept entries, then the first `n` new tensors. */
  method FillOut(w: ShardWriter, files: Files, ix: Index, keep: seq<Kept>, added: seq<Tensor>, n: nat, ghost items: seq<Tensor>)
    requires Safe(files, ix) && Keeps(keep, |ix.tensors|) && n <= |added|
    requires StartsKept(items, files, ix, keep) && EndsAdded(items, added, |keep|)
    requires w.Ok() && w.Done(items, 0) && w.origin.base == 0
    modifies w, w.dir
    ensures w.Ok() && w.Done(items, |keep| + n)
  {
    CopyKept(w, files, ix, keep, items);
    AddNew(w, added, n, items, |keep|);
  }

  /** A state of the run: within the bytes set aside, and without a new index, or else finished. */
  ghost predicate OnTheWay(d: Disk, ix0: Index, items: seq<Tensor>, bytes: nat) {
    Usage(d.files) <= bytes && (d.index == ix0 || Repaired(d.files, d.index, items))
  }

  ghost predicate OutTrace(t0: seq<Disk>, t1: seq<Disk>, ix0: Index, items: seq<Tensor>, bytes: nat) {
    && |t0| <= |t1| && t1[..|t0|] == t0
    && forall i :: |t0| <= i < |t1| ==> OnTheWay(t1[i], ix0, items, bytes)
  }

  lemma OutTraceSnoc(t0: seq<Disk>, t1: seq<Disk>, d: Disk, ix0: Index, items: seq<Tensor>, bytes: nat)
    requires OutTrace(t0, t1, ix0, items, bytes) && OnTheWay(d, ix0, items, bytes)
    ensures OutTrace(t0, t1 + [d], ix0, items, bytes)
  {
    assert (t1 + [d])[..|t0|] == t1[..|t0|];
  }

  /** What a writer beside an empty directory has done so far. */
  lemma BesideIsOut(t0: seq<Disk>, d: Disk, room: Room, t1: seq<Disk>, items: seq<Tensor>, bytes: nat)
    requires BesideTrace(t0, d, room, t1) && d.files == map[] && room.bytes <= bytes
    ensures OutTrace(t0, t1, d.index, items, bytes)
  {
    forall i | |t0| <= i < |t1| ensures OnTheWay(t1[i], d.index, items, bytes) { assert Beside(d, room, t1[i]); }
  }

  /** The directory is removed with all it holds. */
  method RemoveTree(dir: FtwDir, ghost t0: seq<Disk>, ghost items: seq<Tensor>, ghost bytes: nat)
    requires OutTrace(t0, dir.trace, dir.index, items, bytes) && Usage(dir.files) <= bytes
    modifies dir
    ensures dir.files == map[] && dir.index == old(dir.index)
    ensures OutTrace(t0, dir.trace, dir.index, items, bytes)
  {
    while dir.files != map[]
      invariant dir.index == old(dir.index)
      invariant OutTrace(t0, dir.trace, dir.index, items, bytes) && Usage(dir.files) <= bytes
      decreases |dir.files|
    {
      RemoveAny(dir, t0, items, bytes);
    }
  }

  method RemoveAny(dir: FtwDir, ghost t0: seq<Disk>, ghost items: seq<Tensor>, ghost bytes: nat)
    requires dir.files != map[] && OutTrace(t0, dir.trace, dir.index, items, bytes) && Usage(dir.files) <= bytes
    modifies dir
    ensures dir.index == old(dir.index) && |dir.files| < |old(dir.files)|
    ensures OutTrace(t0, dir.trace, dir.index, items, bytes) && Usage(dir.files) <= bytes
  {
    var f := AnyOf(dir.files.Keys);
    var rest := dir.files - {f};
    assert dir.files.Keys == rest.Keys + {f};
    UsageWithout(dir.files, f);
    ghost var t1 := dir.trace;
    dir.Remove(f);
    OutTraceSnoc(t0, t1, dir.State(), dir.index, items, bytes);
  }

  /** A directory of named shards only holds exactly the region. */
  lemma {:induction false} UsageIsRegion(files: Files, shards: seq<Shard>)
    requires Complete(files, shards) && DistinctFiles(shards) && forall f: nat :: f in files ==> Names(shards, f)
    ensures Usage(files) == |Region(files, shards)|
    decreases |shards|
  {
    if shards == [] {
      assert files == map[];
    } else {
      var first, rest := shards[0].file, shards[1..];
      var g := files - {first};
      WithoutFirst(files, shards);
      UsageIsRegion(g, rest);
      assert shards[0] in shards;
      UsageSplit(files, first);
    }
  }

  /** The other shards have their files without the first one's. */
  lemma WithoutFirst(files: Files, shards: seq<Shard>)
    requires shards != [] && Complete(files, shards) && DistinctFiles(shards) && forall f: nat :: f in files ==> Names(shards, f)
    ensures var g, rest := files - {shards[0].file}, shards[1..];
      && Complete(g, rest) && (forall f: nat :: f in g ==> Names(rest, f)) && Region(g, rest) == Region(files, rest)
  {
    var g, rest := files - {shards[0].file}, shards[1..];
    forall s | s in rest ensures s.file in g && g[s.file] == files[s.file] && |g[s.file]| == s.nbytes {
      var i :| 0 <= i < |rest| && rest[i] == s;
      assert shards[i + 1] == s && shards[0].file != shards[i + 1].file;
    }
    forall f: nat | f in g ensures Names(rest, f) {
      assert Names(shards, f);
      var s :| s in shards && s.file == f;
      assert s in rest;
    }
    forall i | 0 <= i < |rest| ensures g[rest[i].file] == files[rest[i].file] { assert rest[i] in rest; }
    RegionFrame(g, files, rest, rest);
  }

  /** A fresh directory that holds a laid-out run, every file named, is repaired. */
  lemma OutIsRepaired(files: Files, items: seq<Tensor>, limit: nat, ix: Index)
    requires ix.tensors == EntriesOf(items, |items|, 0) && ix.totalBytes == OffsetOf(items, |items|, 0)
    requires Laid(ix.shards, limit, 0, 0, ix.totalBytes) && Holds(files, ix.shards, RegionOf(items, |items|))
    requires forall f: nat :: f in files ==> Names(ix.shards, f)
    ensures Repaired(files, ix, items) && Usage(files) == |RegionOf(items, |items|)|
  {
    UsageIsRegion(files, ix.shards);
    RunIsSafe(files, items, limit, ix);
    LaidInOrder(ix.shards, limit, ix.totalBytes);
    EntriesFill(items, |items|);
    TightIsClean(ix);
  }

  /** The disk space set aside for the run: the kept entries and the new tensors, each padded. */
  ghost function OutNeed(ix: Index, keep: seq<Kept>, added: seq<Tensor>): nat
    requires Keeps(keep, |ix.tensors|)
  {
    PaddedSize(KeptEntries(ix.tensors, keep)) + OffsetOf(added, |added|, 0)
  }

  lemma {:induction false} FillSum(items: seq<Tensor>, kept: seq<Entry>, n: nat)
    requires n <= |kept| <= |items| && forall i :: 0 <= i < |kept| ==> |items[i].data| == kept[i].nbytes
    ensures PaddedSize(kept[..n]) == OffsetOf(items, n, 0)
    decreases n
  {
    if n > 0 {
      FillSum(items, kept, n - 1);
      PaddedSnoc(kept, n - 1);
    }
  }

  lemma KeptFill(items: seq<Tensor>, files: Files, ix: Index, keep: seq<Kept>)
    requires Safe(files, ix) && Keeps(keep, |ix.tensors|) && StartsKept(items, files, ix, keep)
    ensures PaddedSize(KeptEntries(ix.tensors, keep)) == OffsetOf(items, |keep|, 0)
  {
    var kept := KeptEntries(ix.tensors, keep);
    forall i | 0 <= i < |kept| ensures |items[i].data| == kept[i].nbytes { KeptLength(items, files, ix, keep, i); }
    FillSum(items, kept, |keep|);
    assert kept[..|keep|] == kept;
  }

  lemma KeptLength(items: seq<Tensor>, files: Files, ix: Index, keep: seq<Kept>, i: nat)
    requires Safe(files, ix) && Keeps(keep, |ix.tensors|) && StartsKept(items, files, ix, keep) && i < |keep|
    ensures |items[i].data| == KeptEntries(ix.tensors, keep)[i].nbytes
  {
    var e, shards := ix.tensors[keep[i].pos], SortShards(ix.shards);
    RegionLength(files, shards, 0, ix.totalBytes);
    assert EntryFits(e, ix.totalBytes);
    assert Contents(files, ix)[keep[i].pos] == Content(Region(files, shards), e);
    assert items[i] == Contents(files, ix)[keep[i].pos].(name := keep[i].name);
  }

  lemma PaddedSnoc(tensors: seq<Entry>, n: nat)
    requires n < |tensors|
    ensures PaddedSize(tensors[..n + 1]) == PaddedSize(tensors[..n]) + AlignUp(tensors[n].nbytes)
  {
    assert tensors[..n + 1][..n] == tensors[..n];
  }

  lemma {:induction false} AddedFill(items: seq<Tensor>, added: seq<Tensor>, from: nat, n: nat)
    requires n <= |added| && EndsAdded(items, added, from)
    ensures OffsetOf(items, from + n, 0) == OffsetOf(items, from, 0) + OffsetOf(added, n, 0)
    decreases n
  {
    if n > 0 { AddedFill(items, added, from, n - 1); }
  }

  /** It is exactly what the run writes when nothing fails. */
  lemma NeedIsWritten(files: Files, ix: Index, keep: seq<Kept>, added: seq<Tensor>, items: seq<Tensor>)
    requires Safe(files, ix) && Keeps(keep, |ix.tensors|) && items == OutItems(files, ix, keep, added)
    ensures OutNeed(ix, keep, added) == |RegionOf(items, |items|)|
  {
    ItemsAre(files, ix, keep, added, items);
    KeptFill(items, files, ix, keep);
    AddedFill(items, added, |keep|, |added|);
    OffsetIsLength(items, |items|, 0);
  }

  /** MAIN: the `--out` run. Of the new tensors the first `available` can be written, and `part` bytes of
      the next one. If all can, the fresh directory ends fully repaired: no dead byte, no stray file, and
      it says what the kept entries said, then the new tensors. If not, nothing is left
      in it. On the way it never holds more than the space set aside, and no index but a finished one. The
      old directory is only read. */
  method CopyOut(files: Files, ix: Index, keep: seq<Kept>, added: seq<Tensor>, available: nat, part: nat, out: FtwDir, limit: nat)
    returns (ok: bool)
    requires limit > 0 && limit % ALIGN == 0 && out.files == map[]
    requires Safe(files, ix) && Keeps(keep, |ix.tensors|)
    modifies out
    ensures ok <==> |added| <= available
    ensures ok ==> Repaired(out.files, out.index, OutItems(files, ix, keep, added))
    ensures ok ==> Usage(out.files) == OutNeed(ix, keep, added)
    ensures !ok ==> out.files == map[] && out.index == old(out.index)
    ensures OutTrace(old(out.trace), out.trace, old(out.index), OutItems(files, ix, keep, added), OutNeed(ix, keep, added))
  {
    ghost var items := OutItems(files, ix, keep, added);
    NeedIsWritten(files, ix, keep, added, items);
    ItemsAre(files, ix, keep, added, items);
    var w := new ShardWriter(out, limit, 0, 0);
    ok := WriteOut(w, files, ix, keep, added, available, part, items);
  }

  /** The run of a fresh writer. */
  method WriteOut(w: ShardWriter, files: Files, ix: Index, keep: seq<Kept>, added: seq<Tensor>, available: nat, part: nat,
      ghost items: seq<Tensor>) returns (ok: bool)
    requires Safe(files, ix) && Keeps(keep, |ix.tensors|) && StartsKept(items, files, ix, keep) && EndsAdded(items, added, |keep|)
    requires w.Ok() && w.Done(items, 0) && w.origin == Origin(0, 0, map[])
    modifies w, w.dir
    ensures ok <==> |added| <= available
    ensures ok ==> Repaired(w.dir.files, w.dir.index, items) && Usage(w.dir.files) == |RegionOf(items, |items|)|
    ensures !ok ==> w.dir.files == map[] && w.dir.index == w.before.index
    ensures OutTrace(w.history, w.dir.trace, w.before.index, items, |RegionOf(items, |items|)|)
  {
    ok := |added| <= available;
    if ok {
      FillOut(w, files, ix, keep, added, |added|, items);
      Finish(w, items);
    } else {
      FillOut(w, files, ix, keep, added, available, items);
      assert items[|keep| + available] == added[available];
      Forsake(w, items, |keep| + available, added[available], part);
    }
  }

  /** A write that fails: part of one more tensor, then the clean-up. */
  method Forsake(w: ShardWriter, ghost items: seq<Tensor>, ghost n: nat, t: Tensor, part: nat)
    requires w.Ok() && n < |items| && w.Done(items, n) && w.origin == Origin(0, 0, map[]) && t == items[n]
    modifies w, w.dir
    ensures w.dir.files == map[] && w.dir.index == w.before.index
    ensures OutTrace(w.history, w.dir.trace, w.before.index, items, |RegionOf(items, |items|)|)
  {
    OffsetAligned(items, n, 0);
    AddPart(w, t, part);
    RegionGrows(items, n + 1, |items|);
    w.Reached();
    BesideIsOut(w.history, w.before, w.Used(), w.dir.trace, items, |RegionOf(items, |items|)|);
    RemoveTree(w.dir, w.history, items, |RegionOf(items, |items|)|);
  }

  /** Closes the writer and writes the index. */
  method Finish(w: ShardWriter, ghost items: seq<Tensor>)
    requires w.Ok() && w.Done(items, |items|) && w.origin == Origin(0, 0, map[])
    modifies w, w.dir
    ensures Repaired(w.dir.files, w.dir.index, items) && Usage(w.dir.files) == |RegionOf(items, |items|)|
    ensures OutTrace(w.history, w.dir.trace, w.before.index, items, |RegionOf(items, |items|)|)
  {
    OffsetAligned(items, |items|, 0);
    w.Gives();
    w.Numbers();
    w.Reached();
    BesideIsOut(w.history, w.before, w.Used(), w.dir.trace, items, |RegionOf(items, |items|)|);
    var entries, total := w.entries, w.globalOff;
    var shards := w.Close();
    ghost var t1 := w.dir.trace;
    w.dir.ReplaceIndex(Index(entries, shards, total));
    OutIsRepaired(w.dir.files, items, w.shardLimit, w.dir.index);
    OutTraceSnoc(w.history, t1, w.dir.State(), w.before.index, items, |RegionOf(items, |items|)|);
  }
}
