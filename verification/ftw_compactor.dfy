/** `compact_in_place` and the run around it, step by step on a directory that may crash. */
module FtwCompactor {
  import opened FtwFormat
  import opened FtwLive
  import opened FtwCompact
  import opened FtwDisk

  const CHUNK: nat := 64 * 1024 * 1024

  // ---- dirty_shards ----

  datatype DirtyShard = DirtyShard(pos: nat, shard: Shard, live: seq<Range>, liveBytes: nat)

  /** `d` describes the dirty shard at position `pos` of the sorted shard list. */
  ghost predicate Describes(d: DirtyShard, ix: Index) {
    var shards := SortShards(ix.shards);
    && d.pos < |shards| && d.shard == shards[d.pos]
    && Denotes(d.live, ix.tensors, d.shard.off, d.shard.End())
    && d.liveBytes == LiveCount(ix.tensors, d.shard.off, d.shard.End()) == SumLengths(d.live)
    && Dirty(ix.tensors, d.shard)
  }

  lemma DirtyLivesSnoc(tensors: seq<Entry>, shards: seq<Shard>, k: nat)
    requires k < |shards|
    ensures |DirtyLives(tensors, shards[..k + 1])| == |DirtyLives(tensors, shards[..k])| + if Dirty(tensors, shards[k]) then 1 else 0
  {
    DirtyLivesSplit(tensors, shards[..k], [shards[k]]);
    DirtyLivesCons(tensors, shards[k], []);
    assert [shards[k]] + [] == [shards[k]] && shards[..k + 1] == shards[..k] + [shards[k]];
  }

  /** One shard with its live ranges and live byte count. */
  method Survey(ix: Index, shards: seq<Shard>, k: nat) returns (d: DirtyShard)
    requires shards == SortShards(ix.shards) && k < |shards|
    ensures d.pos == k && d.shard == shards[k]
    ensures d.liveBytes < d.shard.nbytes <==> Dirty(ix.tensors, d.shard)
    ensures Dirty(ix.tensors, d.shard) ==> Describes(d, ix)
  {
    var s := shards[k];
    var live := LiveRanges(ix.tensors, s.off, s.End());
    SumIsLiveCount(live, ix.tensors, s.off, s.End());
    d := DirtyShard(k, s, live, SumLengths(live));
  }

  /** Shards holding bytes no entry references, in region order. */
  method DirtyShards(ix: Index) returns (out: seq<DirtyShard>)
    ensures |out| == |DirtyLives(ix.tensors, SortShards(ix.shards))|
    ensures forall i :: 0 <= i < |out| ==> Describes(out[i], ix)
    ensures out != [] ==> IsFirst(out[0], ix)
    ensures InOrder(out, |SortShards(ix.shards)|)
  {
    out := [];
    var shards := SortShards(ix.shards);
    for k := 0 to |shards|
      invariant Listed(out, ix, k)
    {
      out := ListNext(ix, shards, k, out);
    }
    ListedAll(out, ix);
  }

  lemma ListedAll(out: seq<DirtyShard>, ix: Index)
    requires Listed(out, ix, |SortShards(ix.shards)|)
    ensures |out| == |DirtyLives(ix.tensors, SortShards(ix.shards))|
    ensures forall i :: 0 <= i < |out| ==> Describes(out[i], ix)
    ensures out != [] ==> IsFirst(out[0], ix)
    ensures InOrder(out, |SortShards(ix.shards)|)
  {
    assert SortShards(ix.shards)[..|SortShards(ix.shards)|] == SortShards(ix.shards);
  }

  /** One turn of that loop. */
  method ListNext(ix: Index, shards: seq<Shard>, k: nat, listed: seq<DirtyShard>) returns (out: seq<DirtyShard>)
    requires shards == SortShards(ix.shards) && k < |shards| && Listed(listed, ix, k)
    ensures Listed(out, ix, k + 1)
  {
    var d := Survey(ix, shards, k);
    ListedNext(listed, d, ix, k);
    out := if d.liveBytes < d.shard.nbytes then listed + [d] else listed;
  }

  /** The dirty ones of the first `n` shards. */
  ghost predicate Listed(out: seq<DirtyShard>, ix: Index, n: nat)
    requires n <= |SortShards(ix.shards)|
  {
    && |out| == |DirtyLives(ix.tensors, SortShards(ix.shards)[..n])|
    && (forall i :: 0 <= i < |out| ==> Describes(out[i], ix))
    && (out != [] ==> IsFirst(out[0], ix)) && InOrder(out, n)
  }

  lemma ListedNext(out: seq<DirtyShard>, d: DirtyShard, ix: Index, k: nat)
    requires k < |SortShards(ix.shards)| && Listed(out, ix, k) && d.pos == k
    requires Dirty(ix.tensors, SortShards(ix.shards)[k]) ==> Describes(d, ix)
    ensures Listed(if Dirty(ix.tensors, SortShards(ix.shards)[k]) then out + [d] else out, ix, k + 1)
  {
    DirtyLivesSnoc(ix.tensors, SortShards(ix.shards), k);
    InOrderSnoc(out, d, k);
    if Dirty(ix.tensors, SortShards(ix.shards)[k]) { FirstStays(out, d, ix); }
  }

  lemma FirstStays(out: seq<DirtyShard>, d: DirtyShard, ix: Index)
    requires out != [] ==> IsFirst(out[0], ix)
    requires d.pos < |SortShards(ix.shards)| && (out == [] ==> DirtyLives(ix.tensors, SortShards(ix.shards)[..d.pos]) == [])
    ensures IsFirst((out + [d])[0], ix)
  {
    assert (out + [d])[0] == if out == [] then d else out[0];
  }

  /** In region order, each once. */
  ghost predicate InOrder(out: seq<DirtyShard>, n: nat) {
    && (forall i, j :: 0 <= i < j < |out| ==> out[i].pos < out[j].pos)
    && (forall i :: 0 <= i < |out| ==> out[i].pos < n)
  }

  lemma InOrderSnoc(out: seq<DirtyShard>, d: DirtyShard, n: nat)
    requires InOrder(out, n) && d.pos == n
    ensures InOrder(out + [d], n + 1) && InOrder(out, n + 1)
  {
  }

  /** No shard before this one is dirty. */
  ghost predicate IsFirst(d: DirtyShard, ix: Index) {
    d.pos < |SortShards(ix.shards)| && DirtyLives(ix.tensors, SortShards(ix.shards)[..d.pos]) == []
  }

  // ---- copying the live ranges ----

  /** The bytes of the ranges, read from the shard's file. */
  ghost function Gather(src: Bytes, live: seq<Range>, s0: nat): Bytes
    requires forall i :: 0 <= i < |live| ==> s0 <= live[i].a <= live[i].b <= s0 + |src|
  {
    if live == [] then []
    else src[live[0].a - s0..live[0].b - s0] + Gather(src, live[1..], s0)
  }

  lemma {:induction false} GatherSnoc(src: Bytes, live: seq<Range>, s0: nat, k: nat)
    requires k < |live| && forall i :: 0 <= i < |live| ==> s0 <= live[i].a <= live[i].b <= s0 + |src|
    ensures Gather(src, live[..k + 1], s0) == Gather(src, live[..k], s0) + src[live[k].a - s0..live[k].b - s0]
    decreases k
  {
    if k == 0 {
      assert live[..1] == [live[0]] && live[..1][1..] == [];
    } else {
      GatherSnoc(src, live[1..], s0, k - 1);
      assert live[..k + 1][1..] == live[1..][..k] && live[..k][1..] == live[1..][..k - 1];
    }
  }

  lemma {:induction false} GatherIsKeepLive(region: Bytes, live: seq<Range>, tensors: seq<Entry>, lo: nat, hi: nat)
    requires lo <= hi <= |region| && Denotes(live, tensors, lo, hi)
    ensures Gather(region, live, 0) == KeepLive(tensors, region, lo, hi)
    decreases |live|
  {
    if live == [] {
      KeepLiveNone(tensors, region, lo, hi);
    } else {
      KeepLiveHead(region, live, tensors, lo, hi);
      DenotesTail(live, tensors, lo, hi);
      GatherIsKeepLive(region, live[1..], tensors, live[0].b, hi);
    }
  }

  lemma SliceOfSlice(s: Bytes, lo: nat, hi: nat, a: nat, b: nat)
    requires lo <= a <= b <= hi <= |s|
    ensures s[lo..hi][a - lo..b - lo] == s[a..b]
  {
    var t := s[lo..hi];
    forall k | 0 <= k < b - a ensures t[a - lo..b - lo][k] == s[a..b][k] {
      assert t[a - lo + k] == s[a + k];
    }
    assert t[a - lo..b - lo] == s[a..b];
  }

  lemma GatherOne(src: Bytes, live: seq<Range>, s0: nat)
    requires live != [] && forall i :: 0 <= i < |live| ==> s0 <= live[i].a <= live[i].b <= s0 + |src|
    ensures Gather(src, live, s0) == src[live[0].a - s0..live[0].b - s0] + Gather(src, live[1..], s0)
  {
  }

  /** Reading the ranges from the shard's own file is reading them from the region. */
  lemma {:induction false} GatherFromShard(region: Bytes, live: seq<Range>, s0: nat, s1: nat)
    requires s0 <= s1 <= |region|
    requires forall i :: 0 <= i < |live| ==> s0 <= live[i].a <= live[i].b <= s1
    ensures Gather(region[s0..s1], live, s0) == Gather(region, live, 0)
    decreases |live|
  {
    if live != [] {
      forall i | 0 <= i < |live[1..]| ensures s0 <= live[1..][i].a <= live[1..][i].b <= s1 { assert live[1..][i] == live[i + 1]; }
      GatherFromShard(region, live[1..], s0, s1);
      GatherOne(region[s0..s1], live, s0);
      GatherOne(region, live, 0);
      SliceOfSlice(region, s0, s1, live[0].a, live[0].b);
    }
  }

  lemma KeepLiveHead(region: Bytes, live: seq<Range>, tensors: seq<Entry>, lo: nat, s1: nat)
    requires lo <= s1 <= |region| && Denotes(live, tensors, lo, s1) && live != []
    ensures lo <= live[0].a <= live[0].b <= s1
    ensures KeepLive(tensors, region, lo, s1) == region[live[0].a..live[0].b] + KeepLive(tensors, region, live[0].b, s1)
  {
    DenotesHead(live, tensors, lo, s1);
    KeepLiveFrom(region, tensors, lo, live[0].a, live[0].b, s1);
  }

  /** Nothing live in [lo, a), everything in [a, b). */
  lemma KeepLiveFrom(region: Bytes, tensors: seq<Entry>, lo: nat, a: nat, b: nat, hi: nat)
    requires lo <= a <= b <= hi <= |region|
    requires (forall x :: lo <= x < a ==> !Live(tensors, x)) && (forall x :: a <= x < b ==> Live(tensors, x))
    ensures KeepLive(tensors, region, lo, hi) == region[a..b] + KeepLive(tensors, region, b, hi)
  {
    KeepLiveNone(tensors, region, lo, a);
    KeepLiveAll(tensors, region, a, b);
    KeepLiveSplit(tensors, region, a, b, hi);
    KeepLiveSplit(tensors, region, lo, a, hi);
    assert [] + KeepLive(tensors, region, a, hi) == KeepLive(tensors, region, a, hi);
  }

  /** A state in which file `n` holds at most `cap` bytes and nothing else differs from `d`. */
  ghost predicate Partial(d: Disk, n: nat, cap: nat, snap: Disk) {
    && snap.index == d.index
    && n in snap.files && |snap.files[n]| <= cap
    && snap.files == d.files[n := snap.files[n]]
  }

  /** `new` extends `old_` by states that all satisfy `Partial`. */
  ghost predicate PartialTrace(old_: seq<Disk>, d: Disk, n: nat, cap: nat, new_: seq<Disk>) {
    && |old_| <= |new_| && new_[..|old_|] == old_
    && forall i :: |old_| <= i < |new_| ==> Partial(d, n, cap, new_[i])
  }

  /** Appends `src[from..from + n]` to an open file, in chunks; false when a read comes back empty
      first (a truncated shard). */
  method CopyRange(dir: FtwDir, src: Bytes, file: nat, from: nat, n: nat) returns (ok: bool)
    requires file in dir.files && n > 0
    modifies dir
    ensures ok <==> from + n <= |src|
    ensures dir.index == old(dir.index) && file in dir.files
    ensures ok ==> dir.files == old(dir.files)[file := old(dir.files)[file] + src[from..from + n]]
    ensures PartialTrace(old(dir.trace), old(dir.State()), file, |old(dir.files)[file]| + n, dir.trace)
  {
    ghost var start := dir.State();
    ghost var written := dir.files[file];
    ghost var tail: Bytes := [];
    assert written + tail == written;
    var left, at := n, from;
    while left > 0
      invariant 0 <= left <= n && at == from + n - left
      invariant if left == n then tail == [] else at <= |src| && tail == src[from..at]
      invariant dir.index == start.index && dir.files == start.files[file := written + tail]
      invariant PartialTrace(old(dir.trace), start, file, |written| + n, dir.trace)
    {
      var want := if left < CHUNK then left else CHUNK;
      var got := if at + want <= |src| then want else if at < |src| then |src| - at else 0;
      if got == 0 {
        return false;
      }
      dir.Append(file, src[at..at + got]);
      assert written + tail + src[at..at + got] == written + (tail + src[at..at + got]);
      assert src[from..at] + src[at..at + got] == src[from..at + got];
      tail := tail + src[at..at + got];
      left, at := left - got, at + got;
    }
    ok := true;
  }

  /** Writes the live ranges of `src` to a new file. */
  method CopyLive(dir: FtwDir, src: Bytes, file: nat, live: seq<Range>, s0: nat) returns (ok: bool)
    requires Canonical(live) && forall i :: 0 <= i < |live| ==> s0 <= live[i].a
    modifies dir
    ensures ok <==> forall i :: 0 <= i < |live| ==> live[i].b <= s0 + |src|
    ensures dir.index == old(dir.index)
    ensures ok ==> dir.files == old(dir.files)[file := Gather(src, live, s0)]
    ensures PartialTrace(old(dir.trace), old(dir.State()), file, SumLengths(live), dir.trace)
  {
    ghost var start := dir.State();
    dir.Create(file);
    assert live[..0] == [];
    for k := 0 to |live|
      invariant forall i :: 0 <= i < k ==> live[i].b <= s0 + |src|
      invariant dir.index == start.index
      invariant dir.files == start.files[file := Gather(src, live[..k], s0)]
      invariant |Gather(src, live[..k], s0)| == SumLengths(live[..k])
      invariant PartialTrace(old(dir.trace), start, file, SumLengths(live), dir.trace)
    {
      var r := live[k];
      SumLengthsPrefix(live, k);
      ghost var before, mid := dir.trace, dir.State();
      ok := CopyRange(dir, src, file, r.a - s0, r.b - r.a);
      PartialTraceJoin(old(dir.trace), start, file, SumLengths(live), before, mid, dir.trace);
      if !ok { return; }
      GatherSnocPrefix(src, live, s0, k);
    }
    assert live[..|live|] == live;
    ok := true;
  }

  /** Continuing from a state that differs from `d` in file `n` only. */
  lemma PartialTraceJoin(t0: seq<Disk>, d: Disk, n: nat, cap: nat, t1: seq<Disk>, mid: Disk, t2: seq<Disk>)
    requires PartialTrace(t0, d, n, cap, t1) && PartialTrace(t1, mid, n, cap, t2)
    requires mid.index == d.index && n in mid.files && mid.files == d.files[n := mid.files[n]]
    ensures PartialTrace(t0, d, n, cap, t2)
  {
    assert t2[..|t0|] == t2[..|t1|][..|t0|];
    forall i | |t0| <= i < |t2| ensures Partial(d, n, cap, t2[i]) {
      if i < |t1| {
        assert t2[i] == t2[..|t1|][i];
      } else {
        assert Partial(mid, n, cap, t2[i]);
      }
    }
  }

  lemma GatherSnocPrefix(src: Bytes, live: seq<Range>, s0: nat, k: nat)
    requires k < |live| && forall i :: 0 <= i <= k ==> s0 <= live[i].a <= live[i].b <= s0 + |src|
    ensures Gather(src, live[..k + 1], s0) == Gather(src, live[..k], s0) + src[live[k].a - s0..live[k].b - s0]
  {
    GatherSnoc(src, live[..k + 1], s0, k);
    assert live[..k + 1][..k + 1] == live[..k + 1] && live[..k + 1][..k] == live[..k];
  }

  lemma {:induction false} SumLengthsPrefix(live: seq<Range>, k: nat)
    requires Canonical(live) && k <= |live|
    ensures SumLengths(live[..k]) <= SumLengths(live)
    ensures k < |live| ==> SumLengths(live[..k + 1]) == SumLengths(live[..k]) + (live[k].b - live[k].a) <= SumLengths(live)
    decreases k
  {
    if k > 0 {
      SumLengthsPrefix(live[1..], k - 1);
      assert live[..k][1..] == live[1..][..k - 1];
      if k < |live| { assert live[..k + 1][1..] == live[1..][..k]; }
    } else {
      assert live[..0] == [];
      if k < |live| { assert live[..1] == [live[0]] && live[..1][1..] == []; }
    }
  }

  // ---- the compaction loop ----

  ghost function MaxOf(s: seq<nat>): nat {
    if s == [] then 0 else if s[0] > MaxOf(s[1..]) then s[0] else MaxOf(s[1..])
  }

  /** How many rewrites of the table need a file: those of shards with a live byte. */
  ghost function Taken(lives: seq<nat>): nat {
    if lives == [] then 0 else (if lives[0] > 0 then 1 else 0) + Taken(lives[1..])
  }

  /** What a run may use: bytes on disk, and file numbers. */
  datatype Budget = Budget(bytes: nat, numbers: set<nat>)

  /** The numbers from `from` up to `end` may be taken: no shard has one, and the budget allows them. */
  ghost predicate Way(ix: Index, from: nat, end: int, budget: Budget) {
    Clear(ix, from, end) && forall f: nat :: from <= f < end ==> f in budget.numbers
  }

  /** A state a crash may leave: the index names only existing, complete shards, every entry reads
      its original bytes, and the directory stays within the budget. */
  ghost predicate Good(d: Disk, contents: seq<Tensor>, budget: Budget) {
    && Safe(d.files, d.index) && Contents(d.files, d.index) == contents
    && Usage(d.files) <= budget.bytes && KnownNumbers(d.files, d.index) <= budget.numbers
  }

  ghost predicate GoodTrace(old_: seq<Disk>, new_: seq<Disk>, contents: seq<Tensor>, budget: Budget) {
    && |old_| <= |new_| && new_[..|old_|] == old_
    && forall i :: |old_| <= i < |new_| ==> Good(new_[i], contents, budget)
  }

  lemma PartialIsGood(d: Disk, n: nat, cap: nat, snap: Disk, contents: seq<Tensor>, budget: Budget)
    requires Good(d, contents, budget) && Usage(d.files) + cap <= budget.bytes && Way(d.index, n, n + 1, budget)
    requires Partial(d, n, cap, snap)
    ensures Good(snap, contents, budget)
  {
    assert !Names(SortShards(d.index.shards), n);
    UnreferencedIsInvisible(d.files, snap.files, d.index);
    UsageUpdate(d.files, n, snap.files[n]);
    UsageWithout(d.files, n);
  }

  lemma PartialTraceIsGood(t0: seq<Disk>, d: Disk, n: nat, cap: nat, t1: seq<Disk>, contents: seq<Tensor>, budget: Budget)
    requires Good(d, contents, budget) && Usage(d.files) + cap <= budget.bytes && Way(d.index, n, n + 1, budget)
    requires PartialTrace(t0, d, n, cap, t1)
    ensures GoodTrace(t0, t1, contents, budget)
  {
    forall i | |t0| <= i < |t1| ensures Good(t1[i], contents, budget) {
      PartialIsGood(d, n, cap, t1[i], contents, budget);
    }
  }

  lemma GoodTraceJoin(t0: seq<Disk>, t1: seq<Disk>, t2: seq<Disk>, contents: seq<Tensor>, budget: Budget)
    requires GoodTrace(t0, t1, contents, budget) && GoodTrace(t1, t2, contents, budget)
    ensures GoodTrace(t0, t2, contents, budget)
  {
    assert t2[..|t0|] == t2[..|t1|][..|t0|];
    forall i | |t0| <= i < |t2| ensures Good(t2[i], contents, budget) {
      if i < |t1| { assert t2[i] == t2[..|t1|][i]; }
    }
  }

  /** One entry after the shard was rewritten: its offset through the range table. */
  method MovedEntry(tensors: seq<Entry>, d: DirtyShard, e: Entry) returns (e': Entry)
    requires Denotes(d.live, tensors, d.shard.off, d.shard.End())
    requires d.liveBytes == LiveCount(tensors, d.shard.off, d.shard.End()) <= d.shard.nbytes
    ensures e' == MoveEntry(tensors, d.shard, e)
  {
    var s := d.shard;
    e' := e;
    if e.off >= s.End() {
      e' := e.(off := e.off - (s.nbytes - d.liveBytes));
    } else if e.off >= s.off {
      RemapCountsLive(d.live, tensors, s.off, s.End(), e.off);
      e' := e.(off := s.off + RemapByRanges(d.live, e.off));
    }
  }

  /** The in-memory index after the shard was rewritten. */
  method MovedIndex(ix: Index, d: DirtyShard, newFile: nat) returns (ix': Index)
    requires Tiles(SortShards(ix.shards), 0, ix.totalBytes) && Describes(d, ix)
    ensures ix' == CompactIndex(ix, d.shard, newFile)
  {
    var shards := SortShards(ix.shards);
    var s := d.shard;
    LiveCountBound(ix.tensors, s.off, s.End());
    var tensors: seq<Entry> := [];
    for i := 0 to |ix.tensors|
      invariant tensors == MoveEntries(ix.tensors, s)[..i]
    {
      var e := MovedEntry(ix.tensors, d, ix.tensors[i]);
      tensors := tensors + [e];
    }
    BehindIsBehind(shards, s, ix.totalBytes);
    TilesBound(shards, ix.totalBytes, d.pos);
    ix' := Index(tensors, MoveShards(shards, s, d.liveBytes, newFile), ix.totalBytes - (s.nbytes - d.liveBytes));
  }

  /** Between two turns: `n` shards are done, the table lists the rest, and the budget still covers
      the most expensive of all. */
  ghost predicate Remaining(d: Disk, contents: seq<Tensor>, budget: Budget, lives: seq<nat>, n: nat, nextNum: nat) {
    && Good(d, contents, budget)
    && n <= |lives| && DirtyLives(d.index.tensors, SortShards(d.index.shards)) == lives[n..]
    && Usage(d.files) + MaxOf(lives) <= budget.bytes && Way(d.index, nextNum, nextNum + Taken(lives[n..]), budget)
  }

  /** What `main` sets aside: the most expensive rewrite on top of what is there, and a number for each
      file it writes. */
  ghost function BudgetOf(d: Disk, firstFree: nat): Budget {
    var lives := DirtyLives(d.index.tensors, SortShards(d.index.shards));
    Budget(Usage(d.files) + MaxOf(lives), KnownNumbers(d.files, d.index) + Span(firstFree, firstFree + Taken(lives)))
  }

  /** Shard files on disk that the index does not name. */
  ghost function Orphans(files: Files, ix: Index): set<nat> {
    set f | f in files && !Names(SortShards(ix.shards), f)
  }

  /** The state before the last one still has a file that the index, which is by then the final one,
      no longer names: where the last turn swaps the index and has yet to delete. */
  ghost predicate StrayBefore(t0: seq<Disk>, trace: seq<Disk>, ix: Index) {
    |trace| >= |t0| + 2 && trace[|trace| - 2].index == ix && Orphans(trace[|trace| - 2].files, ix) != {}
  }

  lemma StrayLater(t0: seq<Disk>, t1: seq<Disk>, t2: seq<Disk>, ix: Index)
    requires |t0| <= |t1| && StrayBefore(t1, t2, ix)
    ensures StrayBefore(t0, t2, ix)
  {
  }

  /** The numbers of the new shards are old ones but the rewritten shard's, and the new file's ... */
  lemma NewNamesOnly(shards: seq<Shard>, k: nat, live: nat, newFile: nat, total: nat, f: nat)
    requires Tiles(shards, 0, total) && DistinctFiles(shards) && k < |shards| && live <= shards[k].nbytes
    requires Names(NewShards(shards, k, live, newFile), f)
    ensures (Names(shards, f) && f != shards[k].file) || (live > 0 && f == newFile)
  {
    var new_ := NewShards(shards, k, live, newFile);
    var i :| 0 <= i < |new_| && new_[i].file == f;
    NewShardAt(shards, k, live, newFile, total, i);
    var j := if i < k || live > 0 then i else i + 1;
    assert j != k ==> shards[j] in shards && shards[j].file != shards[k].file;
  }

  /** ... and all of those. */
  lemma NewNamesAll(shards: seq<Shard>, k: nat, live: nat, newFile: nat, total: nat, f: nat)
    requires Tiles(shards, 0, total) && k < |shards| && live <= shards[k].nbytes
    requires (Names(shards, f) && f != shards[k].file) || (live > 0 && f == newFile)
    ensures Names(NewShards(shards, k, live, newFile), f)
  {
    var new_ := NewShards(shards, k, live, newFile);
    var j := k;
    if Names(shards, f) && f != shards[k].file {
      j :| 0 <= j < |shards| && shards[j].file == f;
    }
    var i := if j < k || live > 0 then j else j - 1;
    NewShardAt(shards, k, live, newFile, total, i);
    assert new_[i] in new_ && new_[i].file == f;
  }

  lemma NewShardsName(shards: seq<Shard>, k: nat, live: nat, newFile: nat, total: nat, f: nat)
    requires Tiles(shards, 0, total) && DistinctFiles(shards) && k < |shards| && live <= shards[k].nbytes
    ensures Names(NewShards(shards, k, live, newFile), f)
       <==> (Names(shards, f) && f != shards[k].file) || (live > 0 && f == newFile)
  {
    if Names(NewShards(shards, k, live, newFile), f) { NewNamesOnly(shards, k, live, newFile, total, f); }
    if (Names(shards, f) && f != shards[k].file) || (live > 0 && f == newFile) {
      NewNamesAll(shards, k, live, newFile, total, f);
    }
  }

  /** ... of the index after a turn. */
  lemma TurnNames(ix: Index, k: nat, n: nat)
    requires WellFormed(ix) && k < |SortShards(ix.shards)| && Dirty(ix.tensors, SortShards(ix.shards)[k])
    requires !Names(SortShards(ix.shards), n)
    ensures var s := SortShards(ix.shards)[k];
      forall f: nat :: Names(SortShards(CompactIndex(ix, s, n).shards), f)
        <==> (Names(SortShards(ix.shards), f) && f != s.file) || (LiveCount(ix.tensors, s.off, s.End()) > 0 && f == n)
  {
    var shards := SortShards(ix.shards);
    var s := shards[k];
    StepShape(ix, k, n);
    StepShards(ix, k, n);
    forall f: nat { NewShardsName(shards, k, LiveCount(ix.tensors, s.off, s.End()), n, ix.totalBytes, f); }
  }

  /** What the old shard's file is after a turn, and the new one. */
  ghost predicate Turned(ix: Index, s: Shard, n: nat, f0: Files, f1: Files) {
    f1 == f0 || (LiveCount(ix.tensors, s.off, s.End()) > 0 && n in f1 && f1 == f0[n := f1[n]])
  }

  /** A turn leaves no new orphan: the new file is named and the old one is gone. */
  lemma TurnOrphans(ix: Index, k: nat, n: nat, f0: Files, f1: Files)
    requires WellFormed(ix) && k < |SortShards(ix.shards)| && Dirty(ix.tensors, SortShards(ix.shards)[k])
    requires !Names(SortShards(ix.shards), n) && Turned(ix, SortShards(ix.shards)[k], n, f0, f1)
    ensures var s := SortShards(ix.shards)[k];
      Orphans(f1 - {s.file}, CompactIndex(ix, s, n))
        == Orphans(f0, ix) - (if LiveCount(ix.tensors, s.off, s.End()) > 0 then {n} else {})
  {
    var s := SortShards(ix.shards)[k];
    assert s in SortShards(ix.shards);
    TurnNames(ix, k, n);
  }

  /** `compact_in_place`. At any state a crash can leave, the checkpoint is loadable with its
      original contents and the disk holds no more than the budget computed before the run; on
      return no shard is dirty and the region is exactly the padded entries. */
  method CompactInPlace(dir: FtwDir, firstFree: nat) returns (n: nat)
    requires Safe(dir.files, dir.index)
    requires Clear(dir.index, firstFree, firstFree + Taken(DirtyLives(dir.index.tensors, SortShards(dir.index.shards))))
    modifies dir
    ensures Safe(dir.files, dir.index) && Contents(dir.files, dir.index) == old(Contents(dir.files, dir.index))
    ensures DirtyLives(dir.index.tensors, SortShards(dir.index.shards)) == []
    ensures dir.index.totalBytes == PaddedSize(dir.index.tensors)
    ensures n == old(|DirtyLives(dir.index.tensors, SortShards(dir.index.shards))|)
    ensures FewerStray(Orphans(dir.files, dir.index), old(Orphans(dir.files, dir.index)),
              firstFree, firstFree + old(Taken(DirtyLives(dir.index.tensors, SortShards(dir.index.shards)))))
    ensures n > 0 ==> StrayBefore(old(dir.trace), dir.trace, dir.index)
    ensures GoodTrace(old(dir.trace), dir.trace, old(Contents(dir.files, dir.index)), old(BudgetOf(dir.State(), firstFree)))
  {
    ghost var contents := Contents(dir.files, dir.index);
    ghost var lives := DirtyLives(dir.index.tensors, SortShards(dir.index.shards));
    ghost var budget := BudgetOf(dir.State(), firstFree);
    assert lives[0..] == lives;
    ghost var next;
    n, next := CompactLoop(dir, firstFree, contents, budget, lives);
    assert lives[|lives|..] == [];
    CleanIsTight(dir.index);
  }

  /** The loop of it. */
  method CompactLoop(dir: FtwDir, firstFree: nat, ghost contents: seq<Tensor>, ghost budget: Budget, ghost lives: seq<nat>)
    returns (n: nat, ghost next: nat)
    requires Remaining(dir.State(), contents, budget, lives, 0, firstFree)
    modifies dir
    ensures n == |lives|
    ensures Turning(dir.State(), dir.trace, contents, budget, lives, n, next, old(dir.trace), old(Orphans(dir.files, dir.index)), firstFree)
  {
    ghost var stray := Orphans(dir.files, dir.index);
    var nextNum: nat := firstFree;
    n := 0;
    NoTurnYet(dir.State(), dir.trace, contents, budget, lives, firstFree);
    var dirty := DirtyShards(dir.index);
    while dirty != []
      invariant Turning(dir.State(), dir.trace, contents, budget, lives, n, nextNum, old(dir.trace), stray, firstFree)
      invariant |dirty| == |lives| - n
      invariant dirty != [] ==> Describes(dirty[0], dir.index) && IsFirst(dirty[0], dir.index)
      decreases |lives| - n
    {
      nextNum := Turn(dir, dirty[0], nextNum, contents, budget, lives, n, old(dir.trace), stray, firstFree);
      n := n + 1;
      dirty := DirtyShards(dir.index);
    }
    next := nextNum;
  }

  lemma NoTurnYet(d: Disk, trace: seq<Disk>, contents: seq<Tensor>, budget: Budget, lives: seq<nat>, from: nat)
    requires Remaining(d, contents, budget, lives, 0, from)
    ensures Turning(d, trace, contents, budget, lives, 0, from, trace, Orphans(d.files, d.index), from)
  {
    FewerStrayNone(Orphans(d.files, d.index), from);
  }

  /** What holds in front of every turn of it, `n` of them done: good states since `t0`, stray files of
      then but those whose numbers were taken since, and as many numbers left as the table asks for. */
  ghost predicate Turning(d: Disk, trace: seq<Disk>, contents: seq<Tensor>, budget: Budget, lives: seq<nat>, n: nat,
      nextNum: nat, t0: seq<Disk>, stray: set<nat>, from: nat)
  {
    && Remaining(d, contents, budget, lives, n, nextNum) && GoodTrace(t0, trace, contents, budget)
    && FewerStray(Orphans(d.files, d.index), stray, from, nextNum)
    && nextNum + Taken(lives[n..]) == from + Taken(lives[0..])
    && (n > 0 ==> StrayBefore(t0, trace, d.index))
  }

  /** The stray files of now are those of before, but those whose numbers were taken since. */
  ghost predicate FewerStray(now: set<nat>, was: set<nat>, from: nat, end: nat) {
    from <= end && forall f: nat :: f in now <==> f in was && !(from <= f < end)
  }

  lemma FewerStrayNone(stray: set<nat>, at: nat)
    ensures FewerStray(stray, stray, at, at)
  {
  }

  lemma FewerStrayJoin(c: set<nat>, b: set<nat>, a: set<nat>, from: nat, mid: nat, end: nat)
    requires FewerStray(b, a, from, mid) && FewerStray(c, b, mid, end)
    ensures FewerStray(c, a, from, end)
  {
  }

  /** One turn of the loop, in terms of what is left to do. */
  method Turn(dir: FtwDir, d: DirtyShard, nextNum: nat, ghost contents: seq<Tensor>, ghost budget: Budget,
      ghost lives: seq<nat>, ghost n: nat, ghost t0: seq<Disk>, ghost stray: set<nat>, ghost from: nat) returns (next: nat)
    requires n < |lives| && Turning(dir.State(), dir.trace, contents, budget, lives, n, nextNum, t0, stray, from)
    requires Describes(d, dir.index) && IsFirst(d, dir.index)
    modifies dir
    ensures Turning(dir.State(), dir.trace, contents, budget, lives, n + 1, next, t0, stray, from)
  {
    ghost var trace, mid := dir.trace, Orphans(dir.files, dir.index);
    MaxOfSuffix(lives, n);
    assert lives[n..][1..] == lives[n + 1..];
    next := RewriteShard(dir, d, nextNum, contents, budget, lives[n..]);
    FewerStrayJoin(Orphans(dir.files, dir.index), mid, stray, from, nextNum, next);
    GoodTraceJoin(t0, trace, dir.trace, contents, budget);
    StrayLater(t0, trace, dir.trace, dir.index);
  }

  lemma {:induction false} MaxOfSuffix(s: seq<nat>, n: nat)
    requires n <= |s|
    ensures MaxOf(s[n..]) <= MaxOf(s)
    ensures n < |s| ==> s[n] <= MaxOf(s)
    decreases n
  {
    if n > 0 {
      MaxOfSuffix(s[1..], n - 1);
      assert s[1..][n - 1..] == s[n..];
    }
  }

  /** The table splits around the first dirty shard. */
  lemma FirstDirty(tensors: seq<Entry>, shards: seq<Shard>, k: nat)
    requires k < |shards| && Dirty(tensors, shards[k]) && DirtyLives(tensors, shards[..k]) == []
    ensures DirtyLives(tensors, shards)
         == [LiveCount(tensors, shards[k].off, shards[k].End())] + DirtyLives(tensors, shards[k + 1..])
  {
    DirtyLivesSplit(tensors, shards[..k], shards[k..]);
    assert shards == shards[..k] + shards[k..];
    assert shards[k..][1..] == shards[k + 1..];
  }

  /** A number that no shard has. */
  ghost function Unused(shards: seq<Shard>): (n: nat)
    ensures forall s :: s in shards ==> s.file < n
  {
    if shards == [] then 0
    else if shards[0].file < Unused(shards[1..]) then Unused(shards[1..])
    else shards[0].file + 1
  }

  /** The number that stands for the rewritten shard; a shard without live bytes takes none. */
  ghost function TurnNumber(ix: Index, d: DirtyShard, nextNum: nat): (n: nat) {
    if d.liveBytes > 0 then nextNum else Unused(SortShards(ix.shards))
  }

  /** The index after a turn does not depend on a number that is not taken. */
  lemma DroppedSame(ix: Index, d: DirtyShard, nextNum: nat)
    requires WellFormed(ix) && Describes(d, ix)
    ensures CompactIndex(ix, d.shard, nextNum) == CompactIndex(ix, d.shard, TurnNumber(ix, d, nextNum))
  {
    StepShape(ix, d.pos, nextNum);
    StepShape(ix, d.pos, TurnNumber(ix, d, nextNum));
  }

  /** Copies the live bytes of a dirty shard to a new file, when there are any. */
  method CopyShard(dir: FtwDir, d: DirtyShard, nextNum: nat) returns (next: nat)
    requires Tiles(SortShards(dir.index.shards), 0, dir.index.totalBytes) && Complete(dir.files, SortShards(dir.index.shards))
    requires Describes(d, dir.index)
    modifies dir
    ensures dir.index == old(dir.index) && next == if d.liveBytes > 0 then nextNum + 1 else nextNum
    ensures d.shard.End() <= |Region(old(dir.files), SortShards(dir.index.shards))|
    ensures dir.files == if d.liveBytes == 0 then old(dir.files)
      else old(dir.files)[nextNum := KeepLive(dir.index.tensors, Region(old(dir.files), SortShards(dir.index.shards)), d.shard.off, d.shard.End())]
    ensures if d.liveBytes == 0 then dir.trace == old(dir.trace)
      else PartialTrace(old(dir.trace), old(dir.State()), nextNum, d.liveBytes, dir.trace)
  {
    ghost var shards := SortShards(dir.index.shards);
    ghost var region := Region(dir.files, shards);
    var s := d.shard;
    RegionAtShard(dir.files, shards, d.pos, dir.index.totalBytes);
    next := nextNum;
    if d.liveBytes > 0 {
      assert s in shards;
      var ok := CopyLive(dir, dir.files[s.file], nextNum, d.live, s.off);
      assert ok;
      GatherFromShard(region, d.live, s.off, s.End());
      GatherIsKeepLive(region, d.live, dir.index.tensors, s.off, s.End());
      next := nextNum + 1;
    }
  }

  /** The same from a good directory: every state on the way is good. */
  method WriteLive(dir: FtwDir, d: DirtyShard, nextNum: nat, ghost contents: seq<Tensor>, ghost budget: Budget)
    returns (next: nat)
    requires Good(dir.State(), contents, budget)
    requires Describes(d, dir.index) && Usage(dir.files) + d.liveBytes <= budget.bytes
    requires d.liveBytes > 0 ==> Way(dir.index, nextNum, nextNum + 1, budget)
    modifies dir
    ensures dir.index == old(dir.index)
    ensures Good(dir.State(), contents, budget)
    ensures next == if d.liveBytes > 0 then nextNum + 1 else nextNum
    ensures d.shard.End() <= |Region(old(dir.files), SortShards(dir.index.shards))|
    ensures dir.files == if d.liveBytes == 0 then old(dir.files)
      else old(dir.files)[nextNum := KeepLive(dir.index.tensors, Region(old(dir.files), SortShards(dir.index.shards)), d.shard.off, d.shard.End())]
    ensures GoodTrace(old(dir.trace), dir.trace, contents, budget)
  {
    ghost var start := dir.State();
    ghost var shards := SortShards(dir.index.shards);
    ghost var region := Region(dir.files, shards);
    var s := d.shard;
    RegionAtShard(dir.files, shards, d.pos, dir.index.totalBytes);
    next := CopyShard(dir, d, nextNum);
    if d.liveBytes > 0 {
      PartialTraceIsGood(old(dir.trace), start, nextNum, d.liveBytes, dir.trace, contents, budget);
      KeepLiveLength(dir.index.tensors, region, s.off, s.End());
      PartialIsGood(start, nextNum, d.liveBytes, dir.State(), contents, budget);
    }
  }

  /** One turn of the loop: write, swap the index, delete the old file. */
  method RewriteShard(dir: FtwDir, d: DirtyShard, nextNum: nat, ghost contents: seq<Tensor>, ghost budget: Budget, ghost lives: seq<nat>)
    returns (next: nat)
    requires Good(dir.State(), contents, budget)
    requires Describes(d, dir.index)
    requires DirtyLives(dir.index.tensors, SortShards(dir.index.shards)) == lives
    requires IsFirst(d, dir.index)
    requires Usage(dir.files) + MaxOf(lives) <= budget.bytes && Way(dir.index, nextNum, nextNum + Taken(lives), budget)
    modifies dir
    ensures Good(dir.State(), contents, budget)
    ensures lives != [] && DirtyLives(dir.index.tensors, SortShards(dir.index.shards)) == lives[1..]
    ensures next + Taken(lives[1..]) == nextNum + Taken(lives) && Way(dir.index, next, next + Taken(lives[1..]), budget)
    ensures FewerStray(Orphans(dir.files, dir.index), old(Orphans(dir.files, dir.index)), nextNum, next)
    ensures Usage(dir.files) <= old(Usage(dir.files))
    ensures GoodTrace(old(dir.trace), dir.trace, contents, budget)
    ensures StrayBefore(old(dir.trace), dir.trace, dir.index)
  {
    var index := dir.index;
    ghost var f0, t0 := dir.files, dir.trace;
    FirstLives(index, d, lives);
    next := WriteLive(dir, d, nextNum, contents, budget);
    var ix' := MovedIndex(index, d, nextNum);
    TurnOutcome(f0, dir.files, index, d, nextNum, next, contents, budget, lives);
    SwapAndRemove(dir, ix', d.shard.file, t0, contents, budget);
  }

  /** What one turn comes to. */
  lemma TurnOutcome(f0: Files, f1: Files, ix: Index, d: DirtyShard, nextNum: nat, next: nat, contents: seq<Tensor>, budget: Budget, lives: seq<nat>)
    requires Good(Disk(f0, ix), contents, budget) && Describes(d, ix) && IsFirst(d, ix)
    requires DirtyLives(ix.tensors, SortShards(ix.shards)) == lives && Usage(f0) + MaxOf(lives) <= budget.bytes
    requires Way(ix, nextNum, nextNum + Taken(lives), budget) && next == if d.liveBytes > 0 then nextNum + 1 else nextNum
    requires d.shard.End() <= |Region(f0, SortShards(ix.shards))|
    requires f1 == if d.liveBytes == 0 then f0
      else f0[nextNum := KeepLive(ix.tensors, Region(f0, SortShards(ix.shards)), d.shard.off, d.shard.End())]
    ensures var ix' := CompactIndex(ix, d.shard, nextNum);
      && Good(Disk(f1, ix'), contents, budget) && Good(Disk(f1 - {d.shard.file}, ix'), contents, budget)
      && lives != [] && DirtyLives(ix'.tensors, SortShards(ix'.shards)) == lives[1..]
      && next + Taken(lives[1..]) == nextNum + Taken(lives) && Way(ix', next, next + Taken(lives[1..]), budget)
      && Usage(f1 - {d.shard.file}) <= Usage(f0) && d.shard.file in Orphans(f1, ix')
      && FewerStray(Orphans(f1 - {d.shard.file}, ix'), Orphans(f0, ix), nextNum, next)
  {
    var num := TurnNumber(ix, d, nextNum);
    LivesAfter(ix, d, nextNum, num, lives);
    DroppedSame(ix, d, nextNum);
    TurnKeepsGood(f0, f1, ix, d, num, contents, budget);
    TurnKeepsWay(ix, d, num, nextNum, next, nextNum + Taken(lives), budget);
    OneTaken(Orphans(f1 - {d.shard.file}, CompactIndex(ix, d.shard, num)), Orphans(f0, ix), d, nextNum, num, next);
  }

  lemma OneTaken(now: set<nat>, was: set<nat>, d: DirtyShard, nextNum: nat, num: nat, next: nat)
    requires next == (if d.liveBytes > 0 then nextNum + 1 else nextNum) && (d.liveBytes > 0 ==> num == nextNum)
    requires now == was - (if d.liveBytes > 0 then {num} else {})
    ensures FewerStray(now, was, nextNum, next)
  {
  }

  /** The index swap, then the deletion of the old file. */
  method SwapAndRemove(dir: FtwDir, ix': Index, file: nat, ghost t0: seq<Disk>, ghost contents: seq<Tensor>, ghost budget: Budget)
    requires GoodTrace(t0, dir.trace, contents, budget)
    requires Good(Disk(dir.files, ix'), contents, budget) && Good(Disk(dir.files - {file}, ix'), contents, budget)
    requires file in Orphans(dir.files, ix')
    modifies dir
    ensures dir.index == ix' && dir.files == old(dir.files) - {file}
    ensures GoodTrace(t0, dir.trace, contents, budget) && StrayBefore(t0, dir.trace, ix')
  {
    ghost var t1 := dir.trace;
    dir.ReplaceIndex(ix');
    GoodTraceSnoc(t0, t1, dir.State(), contents, budget);
    ghost var t2 := dir.trace;
    dir.Remove(file);
    GoodTraceSnoc(t0, t2, dir.State(), contents, budget);
  }

  lemma GoodTraceSnoc(t0: seq<Disk>, t1: seq<Disk>, d: Disk, contents: seq<Tensor>, budget: Budget)
    requires GoodTrace(t0, t1, contents, budget) && Good(d, contents, budget)
    ensures GoodTrace(t0, t1 + [d], contents, budget)
  {
    assert (t1 + [d])[..|t0|] == t1[..|t0|];
  }

  /** The first dirty shard heads the table, which is without it after the turn. */
  lemma LivesAfter(ix: Index, d: DirtyShard, nextNum: nat, n: nat, lives: seq<nat>)
    requires WellFormed(ix) && Describes(d, ix) && DirtyLives(ix.tensors, SortShards(ix.shards)) == lives
    requires IsFirst(d, ix) && n == TurnNumber(ix, d, nextNum) && Clear(ix, nextNum, nextNum + Taken(lives))
    ensures lives != [] && d.liveBytes == lives[0] <= MaxOf(lives)
    ensures Taken(lives) == (if d.liveBytes > 0 then 1 else 0) + Taken(lives[1..]) && !Names(SortShards(ix.shards), n)
    ensures DirtyLives(CompactIndex(ix, d.shard, n).tensors, SortShards(CompactIndex(ix, d.shard, n).shards)) == lives[1..]
  {
    FirstLives(ix, d, lives);
    NumberIsFree(ix, d, nextNum, n, lives);
    StepDirtyLives(ix, d.pos, n);
  }

  lemma FirstLives(ix: Index, d: DirtyShard, lives: seq<nat>)
    requires Describes(d, ix) && DirtyLives(ix.tensors, SortShards(ix.shards)) == lives && IsFirst(d, ix)
    ensures lives != [] && d.liveBytes == lives[0] <= MaxOf(lives)
    ensures lives[1..] == DirtyLives(ix.tensors, SortShards(ix.shards)[d.pos + 1..])
    ensures Taken(lives) == (if d.liveBytes > 0 then 1 else 0) + Taken(lives[1..])
  {
    FirstDirty(ix.tensors, SortShards(ix.shards), d.pos);
  }

  /** The number of a turn is no shard's. */
  lemma NumberIsFree(ix: Index, d: DirtyShard, nextNum: nat, n: nat, lives: seq<nat>)
    requires n == TurnNumber(ix, d, nextNum) && Clear(ix, nextNum, nextNum + Taken(lives)) && (d.liveBytes > 0 ==> Taken(lives) > 0)
    ensures !Names(SortShards(ix.shards), n)
  {
  }

  /** The numbers still to be taken stay clear. */
  lemma TurnKeepsWay(ix: Index, d: DirtyShard, n: nat, nextNum: nat, next: nat, end: nat, budget: Budget)
    requires WellFormed(ix) && Describes(d, ix) && n == TurnNumber(ix, d, nextNum) && !Names(SortShards(ix.shards), n)
    requires Way(ix, nextNum, end, budget) && next == if d.liveBytes > 0 then nextNum + 1 else nextNum
    ensures Way(CompactIndex(ix, d.shard, n), next, end, budget)
  {
    TurnNames(ix, d.pos, n);
  }

  /** After the swap and after the delete the directory is still good. */
  lemma TurnKeepsGood(f0: Files, f1: Files, ix: Index, d: DirtyShard, n: nat, contents: seq<Tensor>, budget: Budget)
    requires Good(Disk(f0, ix), contents, budget) && Describes(d, ix) && !Names(SortShards(ix.shards), n)
    requires Usage(f0) + d.liveBytes <= budget.bytes && (d.liveBytes > 0 ==> n in budget.numbers)
    requires d.shard.End() <= |Region(f0, SortShards(ix.shards))|
    requires f1 == if d.liveBytes == 0 then f0
      else f0[n := KeepLive(ix.tensors, Region(f0, SortShards(ix.shards)), d.shard.off, d.shard.End())]
    ensures WellFormed(ix) && Good(Disk(f1, CompactIndex(ix, d.shard, n)), contents, budget)
    ensures Good(Disk(f1 - {d.shard.file}, CompactIndex(ix, d.shard, n)), contents, budget)
    ensures Usage(f1 - {d.shard.file}) <= Usage(f0)
    ensures Orphans(f1 - {d.shard.file}, CompactIndex(ix, d.shard, n)) == Orphans(f0, ix) - (if d.liveBytes > 0 then {n} else {})
    ensures d.shard.file in Orphans(f1, CompactIndex(ix, d.shard, n))
  {
    var ix' := CompactIndex(ix, d.shard, n);
    assert d.shard in SortShards(ix.shards);
    TurnKeepsContents(f0, f1, ix, d, n, contents);
    TurnNames(ix, d.pos, n);
    LiveCountBound(ix.tensors, d.shard.off, d.shard.End());
    KeepLiveLength(ix.tensors, Region(f0, SortShards(ix.shards)), d.shard.off, d.shard.End());
    RewriteUsage(f0, f1, d.shard, n, d.liveBytes);
    WithoutStray(f1, ix', d.shard.file);
    TurnOrphans(ix, d.pos, n, f0, f1);
  }

  lemma TurnKeepsContents(f0: Files, f1: Files, ix: Index, d: DirtyShard, n: nat, contents: seq<Tensor>)
    requires Safe(f0, ix) && Contents(f0, ix) == contents && Describes(d, ix) && !Names(SortShards(ix.shards), n)
    requires d.shard.End() <= |Region(f0, SortShards(ix.shards))|
    requires f1 == if d.liveBytes == 0 then f0
      else f0[n := KeepLive(ix.tensors, Region(f0, SortShards(ix.shards)), d.shard.off, d.shard.End())]
    ensures Safe(f1, CompactIndex(ix, d.shard, n)) && Contents(f1, CompactIndex(ix, d.shard, n)) == contents
  {
    var shards := SortShards(ix.shards);
    assert Rewrites(f0, f1, ix.tensors, shards, d.pos, n) by {
      forall i | 0 <= i < |shards| && i != d.pos ensures shards[i].file in f1 && f1[shards[i].file] == f0[shards[i].file] {
        assert shards[i] in shards;
      }
    }
    StepPreservesContents(f0, f1, ix, d.pos, n);
  }

  /** Without a file the index does not name. */
  lemma WithoutStray(files: Files, ix: Index, f: nat)
    requires Safe(files, ix) && !Names(SortShards(ix.shards), f)
    ensures Safe(files - {f}, ix) && Contents(files - {f}, ix) == Contents(files, ix)
  {
    UnreferencedIsInvisible(files, files - {f}, ix);
  }

  /** Disk accounting of one turn: the new file costs its live bytes, the old file is given back. */
  lemma RewriteUsage(f0: Files, f1: Files, s: Shard, n: nat, live: nat)
    requires s.file in f0 && |f0[s.file]| == s.nbytes && n != s.file && live <= s.nbytes
    requires if live == 0 then f1 == f0 else n in f1 && |f1[n]| == live && f1 == f0[n := f1[n]]
    ensures Usage(f1) <= Usage(f0) + live
    ensures Usage(f1 - {s.file}) <= Usage(f0) + live - s.nbytes
  {
    UsageSplit(f1, s.file);
    if live > 0 {
      UsageUpdate(f0, n, f1[n]);
      UsageWithout(f0, n);
    }
  }
}
