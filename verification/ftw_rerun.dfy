/** Running the repair tool again after a crash: when that finishes the job, and how it fails where the
    file numbers run out of five digits. */
module FtwRerun {
  import opened FtwFormat
  import opened FtwLive
  import opened FtwCompact
  import opened FtwDisk
  import opened FtwLayout
  import opened FtwWriters
  import opened FtwCompactor
  import opened FtwRepair
  import opened FtwPatch

  // ---- running the same command again ----

  /** What the same command plans when it finds the old contents, or the new: the same, or nothing but
      repair. */
  ghost predicate SamePlan(again: Plan, ix: Index, contents: seq<Tensor>, was: seq<Tensor>, p: Plan)
    requires Keeps(p.keep, |was|)
  {
    || (contents == was && again.keep == p.keep && again.items == p.items)
    || (contents == Becomes(was, p) && again.keep == All(ix.tensors) && again.items == [])
  }

  /** A state that a run with plan `p`, started on `start`, may leave (`PatchInPlace` gives no other). */
  ghost predicate Leaves(start: Disk, p: Plan, limit: nat, crash: Disk)
    requires Safe(start.files, start.index) && Keeps(p.keep, |start.index.tensors|) && limit > 0
  {
    var was := Contents(start.files, start.index);
    Loadable(crash, was, Becomes(was, p), Allows(start, p, limit))
  }

  /** MAIN: an interrupted run is finished by running the same command again, if no shard stands in its way.
      Whatever state the first one left, of those a run can leave, the next settles the directory with the
      new contents, again loadable throughout. Stray files are swept exactly if it still finds something
      to do. */
  method ResumeAfterCrash(crash: FtwDir, ghost start: Disk, ghost p: Plan, again: Plan, limit: nat) returns (n: nat)
    requires limit > 0 && limit % ALIGN == 0 && Safe(start.files, start.index) && Keeps(p.keep, |start.index.tensors|)
    requires Leaves(start, p, limit, crash.State())
    requires SamePlan(again, crash.index, Contents(crash.files, crash.index), Contents(start.files, start.index), p)
    requires GoesAhead(crash.index, again) ==> HasRoom(crash.State(), again, limit)
    modifies crash
    ensures Settled(crash.files, crash.index, Becomes(Contents(start.files, start.index), p))
    ensures if old(GoesAhead(crash.index, again)) then Swept(crash.State(), old(crash.State()), again, limit)
      else crash.State() == old(crash.State())
    ensures LoadableTrace(old(crash.trace), crash.trace, Contents(start.files, start.index),
              Becomes(Contents(start.files, start.index), p), old(Allows(crash.State(), again, limit)))
  {
    if again.keep == All(crash.index.tensors) && again.items == [] {
      UnchangedContents(crash.files, crash.index, again);
    }
    var ok;
    ok, n := PatchInPlace(crash, again, |again.items|, 0, limit);
  }

  /** MAIN: where the first run took only numbers of five digits, nothing stands in the way of the next one
      that was not in the directory from the start. */
  lemma RoomAfterCrash(start: Disk, p: Plan, limit: nat, crash: Disk, end: nat)
    requires Safe(start.files, start.index) && Keeps(p.keep, |start.index.tensors|) && limit > 0
    requires Leaves(start, p, limit, crash) && LastNumber(start, p, limit) <= VISIBLE
    requires forall f: nat :: Known(start.files, start.index, f) ==> f < VISIBLE || end <= f
    ensures Clear(crash.index, NextNumber(crash.files, crash.index), end)
    ensures forall f: nat :: Known(crash.files, crash.index, f) ==> f < VISIBLE || end <= f
  {
    forall f: nat | Known(crash.files, crash.index, f) ensures f < VISIBLE || end <= f {
      assert f in Allows(start, p, limit).numbers;
      if f !in Span(NextNumber(start.files, start.index), LastNumber(start, p, limit)) {
        assert Known(start.files, start.index, f);
      }
    }
  }

  /** MAIN: so a run that starts with five-digit numbers only, and takes no others, can be interrupted
      anywhere and is finished by running the same command again. */
  method FinishAfterCrash(crash: FtwDir, ghost start: Disk, ghost p: Plan, again: Plan, limit: nat) returns (n: nat)
    requires limit > 0 && limit % ALIGN == 0 && Safe(start.files, start.index) && Keeps(p.keep, |start.index.tensors|)
    requires AllVisible(start.files, start.index) && LastNumber(start, p, limit) <= VISIBLE
    requires Leaves(start, p, limit, crash.State())
    requires SamePlan(again, crash.index, Contents(crash.files, crash.index), Contents(start.files, start.index), p)
    modifies crash
    ensures Settled(crash.files, crash.index, Becomes(Contents(start.files, start.index), p))
    ensures Orphans(crash.files, crash.index) == {} <==> old(GoesAhead(crash.index, again)) || old(Orphans(crash.files, crash.index)) == {}
    ensures LoadableTrace(old(crash.trace), crash.trace, Contents(start.files, start.index),
              Becomes(Contents(start.files, start.index), p), old(Allows(crash.State(), again, limit)))
  {
    RoomAfterCrash(start, p, limit, crash.State(), LastNumber(crash.State(), again, limit) + VISIBLE);
    assert Hidden(crash.State()) == {} by {
      forall f | f in crash.files ensures f < VISIBLE {
        RoomAfterCrash(start, p, limit, crash.State(), f + 1);
        assert Known(crash.files, crash.index, f);
      }
    }
    n := ResumeAfterCrash(crash, start, p, again, limit);
  }

  // ---- how it fails otherwise ----

  /** Two shards under the last numbers of five digits, each with a live page and a dead one. */
  function HalfLive(): Index {
    Index([Entry("one", "", 0, ALIGN), Entry("two", "", 2 * ALIGN, ALIGN)],
          [Shard(VISIBLE - 2, 0, 2 * ALIGN), Shard(VISIBLE - 1, 2 * ALIGN, 2 * ALIGN)], 4 * ALIGN)
  }

  function HalfLiveFiles(one: Bytes, two: Bytes): Files {
    map[VISIBLE - 2 := one + Zeros(ALIGN), VISIBLE - 1 := two + Zeros(ALIGN)]
  }

  /** Behind the turn that rewrites the first of them. */
  function Overflowed(): Index {
    Index([Entry("one", "", 0, ALIGN), Entry("two", "", ALIGN, ALIGN)],
          [Shard(VISIBLE, 0, ALIGN), Shard(VISIBLE - 1, ALIGN, 2 * ALIGN)], 3 * ALIGN)
  }

  /** `ts` owns exactly page [at, at + ALIGN) of the two from `at` on. */
  ghost predicate OnePage(ts: seq<Entry>, at: nat) {
    && (forall x :: at <= x < at + ALIGN ==> Live(ts, x))
    && (forall x :: at + ALIGN <= x < at + 2 * ALIGN ==> !Live(ts, x))
  }

  lemma OnePageCount(ts: seq<Entry>, at: nat)
    requires OnePage(ts, at)
    ensures LiveCount(ts, at, at + 2 * ALIGN) == ALIGN
  {
    LiveCountSplit(ts, at, at + ALIGN, at + 2 * ALIGN);
    LiveCountBound(ts, at, at + ALIGN);
    LiveCountNone(ts, at + ALIGN, at + 2 * ALIGN);
  }

  /** What is read from a half-live file of two pages. */
  lemma OnePageKept(ts: seq<Entry>, at: nat, live: seq<Range>, front: Bytes, kept: Bytes, dead: Bytes)
    requires OnePage(ts, at) && Denotes(live, ts, at, at + 2 * ALIGN)
    requires |front| == at && |kept| == |dead| == ALIGN
    ensures Gather(kept + dead, live, at) == kept
  {
    var region := front + (kept + dead);
    assert region[at..at + 2 * ALIGN] == kept + dead && region[at..at + ALIGN] == kept;
    GatherFromShard(region, live, at, at + 2 * ALIGN);
    GatherIsKeepLive(region, live, ts, at, at + 2 * ALIGN);
    PageKept(ts, region, at);
  }

  lemma PageKept(ts: seq<Entry>, region: Bytes, at: nat)
    requires OnePage(ts, at) && at + 2 * ALIGN <= |region|
    ensures KeepLive(ts, region, at, at + 2 * ALIGN) == region[at..at + ALIGN]
  {
    KeepLiveSplit(ts, region, at, at + ALIGN, at + 2 * ALIGN);
    KeepLiveAll(ts, region, at, at + ALIGN);
    KeepLiveNone(ts, region, at + ALIGN, at + 2 * ALIGN);
  }

  lemma TwoPages(a: Entry, b: Entry, at: nat)
    requires a.nbytes == b.nbytes == ALIGN && (a.off == at || b.off == at)
    requires a.off == at || a.off + ALIGN <= at || at + 2 * ALIGN <= a.off
    requires b.off == at || b.off + ALIGN <= at || at + 2 * ALIGN <= b.off
    ensures OnePage([a, b], at)
  {
    var ts := [a, b];
    assert a.BlockEnd() == a.off + ALIGN && b.BlockEnd() == b.off + ALIGN;
    forall x | at <= x < at + ALIGN ensures Live(ts, x) {
      assert InBlock(ts[if a.off == at then 0 else 1], x);
    }
  }

  lemma TwoShards(a: Shard, b: Shard)
    requires a.off == 0 && b.off == a.End() && a.file != b.file && a.nbytes % ALIGN == 0 && b.nbytes % ALIGN == 0
    ensures SortShards([a, b]) == [a, b] && Tiles([a, b], 0, b.End())
    ensures DistinctFiles([a, b]) && AlignedShards([a, b])
  {
    assert Ascending([a, b]);
    SortShardsSorts([a, b]);
    assert [a, b][1..] == [b] && [b][1..] == [];
  }

  lemma HalfLiveShape()
    ensures WellFormed(HalfLive()) && SortShards(HalfLive().shards) == HalfLive().shards
    ensures OnePage(HalfLive().tensors, 0) && OnePage(HalfLive().tensors, 2 * ALIGN)
    ensures DirtyLives(HalfLive().tensors, HalfLive().shards) == [ALIGN, ALIGN]
  {
    var ix := HalfLive();
    TwoShards(ix.shards[0], ix.shards[1]);
    TwoPages(ix.tensors[0], ix.tensors[1], 0);
    TwoPages(ix.tensors[0], ix.tensors[1], 2 * ALIGN);
    OnePageCount(ix.tensors, 0);
    OnePageCount(ix.tensors, 2 * ALIGN);
    assert ix.shards[1..] == [ix.shards[1]] && ix.shards[1..][1..] == [];
  }

  /** The turn gives that index. */
  lemma HalfLiveTurn()
    ensures HalfLive().shards[0] in SortShards(HalfLive().shards) && WellFormed(HalfLive())
    ensures Dirty(HalfLive().tensors, HalfLive().shards[0])
    ensures CompactIndex(HalfLive(), HalfLive().shards[0], VISIBLE) == Overflowed()
  {
    HalfLiveShape();
    var ix := HalfLive();
    var s := ix.shards[0];
    OnePageCount(ix.tensors, 0);
    StepShape(ix, 0, VISIBLE);
    RemapBehind(ix.tensors, s, ix.totalBytes);
    RemapBehind(ix.tensors, s, 2 * ALIGN);
    assert Remap(ix.tensors, s, 0) == 0;
    assert MoveEntries(ix.tensors, s) == Overflowed().tensors;
    assert NewShards(ix.shards, 0, ALIGN, VISIBLE) == Overflowed().shards;
  }

  lemma OverflowedShape()
    ensures WellFormed(Overflowed()) && SortShards(Overflowed().shards) == Overflowed().shards
  {
    HalfLiveTurn();
    HalfLiveShape();
    StepWellFormed(HalfLive(), 0, VISIBLE);
    TwoShards(Overflowed().shards[0], Overflowed().shards[1]);
  }

  lemma OverflowedDirty()
    ensures OnePage(Overflowed().tensors, ALIGN)
    ensures DirtyLives(Overflowed().tensors, Overflowed().shards) == [ALIGN]
    ensures !Dirty(Overflowed().tensors, Overflowed().shards[0])
  {
    var ts, shards := Overflowed().tensors, Overflowed().shards;
    TwoPages(ts[0], ts[1], ALIGN);
    OnePageCount(ts, ALIGN);
    FirstPageLive(ts);
    LiveCountBound(ts, 0, ALIGN);
    DirtyLivesCons(ts, shards[0], [shards[1]]);
    DirtyLivesCons(ts, shards[1], []);
  }

  lemma FirstPageLive(ts: seq<Entry>)
    requires ts != [] && ts[0].off == 0 && ts[0].nbytes == ALIGN
    ensures forall x :: 0 <= x < ALIGN ==> Live(ts, x)
  {
    assert ts[0].BlockEnd() == ALIGN;
    forall x | 0 <= x < ALIGN ensures Live(ts, x) { assert InBlock(ts[0], x); }
  }

  lemma HalfLiveRegion(one: Bytes, two: Bytes)
    requires |one| == |two| == ALIGN
    ensures Complete(HalfLiveFiles(one, two), HalfLive().shards)
    ensures Region(HalfLiveFiles(one, two), HalfLive().shards) == one + Zeros(ALIGN) + (two + Zeros(ALIGN))
  {
    var files, shards := HalfLiveFiles(one, two), HalfLive().shards;
    assert shards[1..] == [shards[1]] && shards[1..][1..] == [];
    assert Region(files, shards[1..]) == two + Zeros(ALIGN) + Region(files, []);
  }

  lemma HalfLiveContents(one: Bytes, two: Bytes)
    requires |one| == |two| == ALIGN
    ensures Safe(HalfLiveFiles(one, two), HalfLive())
    ensures Contents(HalfLiveFiles(one, two), HalfLive()) == [Tensor("one", "", one), Tensor("two", "", two)]
  {
    HalfLiveShape();
    HalfLiveRegion(one, two);
    var region := one + Zeros(ALIGN) + (two + Zeros(ALIGN));
    assert region[0..ALIGN] == one && region[2 * ALIGN..3 * ALIGN] == two;
  }

  /** A turn of the compaction loop up to the index swap, whatever stands in its way. */
  method WriteAndSwap(dir: FtwDir, d: DirtyShard, nextNum: nat)
    requires WellFormed(dir.index) && Describes(d, dir.index)
    requires d.shard.file in dir.files && |dir.files[d.shard.file]| == d.shard.nbytes
    modifies dir
    ensures dir.index == CompactIndex(old(dir.index), d.shard, nextNum)
    ensures forall i :: 0 <= i < |d.live| ==> d.shard.off <= d.live[i].a <= d.live[i].b <= d.shard.End()
    ensures dir.files == old(dir.files)[nextNum := Gather(old(dir.files[d.shard.file]), d.live, d.shard.off)]
  {
    var ok := CopyLive(dir, dir.files[d.shard.file], nextNum, d.live, d.shard.off);
    var ix' := MovedIndex(dir.index, d, nextNum);
    dir.ReplaceIndex(ix');
  }

  /** The state behind that swap loads and says what it said, within the budget of the run. */
  lemma CutShortLoads(one: Bytes, two: Bytes, limit: nat)
    requires |one| == |two| == ALIGN && limit > 0
    ensures var start, crash := Disk(HalfLiveFiles(one, two), HalfLive()), Disk(HalfLiveFiles(one, two)[VISIBLE := one], Overflowed());
      && Safe(start.files, start.index) && Safe(crash.files, crash.index)
      && Contents(crash.files, crash.index) == Contents(start.files, start.index)
      && Leaves(start, Nothing(start.index, false), limit, crash)
  {
    var f0, ix := HalfLiveFiles(one, two), HalfLive();
    var f1, s := f0[VISIBLE := one], ix.shards[0];
    HalfLiveContents(one, two);
    HalfLiveShape();
    HalfLiveTurn();
    HalfLiveRewrites(one, two);
    StepPreservesContents(f0, f1, ix, 0, VISIBLE);
    UsageUpdate(f0, VISIBLE, one);
    HalfLiveNumbers(one, two, limit);
    OverflowedShape();
  }

  lemma HalfLiveRewrites(one: Bytes, two: Bytes)
    requires |one| == |two| == ALIGN
    ensures var f0, ix := HalfLiveFiles(one, two), HalfLive();
      && Complete(f0, ix.shards) && |Region(f0, ix.shards)| == 4 * ALIGN
      && Rewrites(f0, f0[VISIBLE := one], ix.tensors, ix.shards, 0, VISIBLE)
  {
    HalfLiveRegion(one, two);
    assert OnePage(HalfLive().tensors, 0) by { HalfLiveShape(); }
    PageKept(HalfLive().tensors, one + Zeros(ALIGN) + (two + Zeros(ALIGN)), 0);
    assert (one + Zeros(ALIGN) + (two + Zeros(ALIGN)))[0..ALIGN] == one;
  }

  /** Two rewrites, the first of which takes number 100000. */
  lemma HalfLiveNumbers(one: Bytes, two: Bytes, limit: nat)
    requires limit > 0
    ensures AllVisible(HalfLiveFiles(one, two), HalfLive()) && NextNumber(HalfLiveFiles(one, two), HalfLive()) == VISIBLE
    ensures DirtyAfter(HalfLive(), Nothing(HalfLive(), false)) == [ALIGN, ALIGN] && Taken([ALIGN, ALIGN]) == 2
    ensures Count(HalfLive(), Nothing(HalfLive(), false), limit) == 2
  {
    HalfLiveShape();
    assert Known(HalfLiveFiles(one, two), HalfLive(), VISIBLE - 1);
    assert [ALIGN, ALIGN][1..] == [ALIGN] && [ALIGN][1..] == [];
  }

  /** The first run, cut short behind its first index swap. It has taken number 100000. */
  method CutShort(dir: FtwDir, one: Bytes, two: Bytes, ghost limit: nat)
    requires |one| == |two| == ALIGN && limit > 0
    requires dir.files == HalfLiveFiles(one, two) && dir.index == HalfLive()
    modifies dir
    ensures old(Safe(dir.files, dir.index) && AllVisible(dir.files, dir.index))
    ensures old(Contents(dir.files, dir.index)) == [Tensor("one", "", one), Tensor("two", "", two)]
    ensures Leaves(old(dir.State()), old(Nothing(dir.index, false)), limit, dir.State())
    ensures dir.index == Overflowed() && dir.files == HalfLiveFiles(one, two)[VISIBLE := one]
  {
    HalfLiveContents(one, two);
    HalfLiveNumbers(one, two, limit);
    var next, orphans := ShardNumbers(dir.files, dir.index);
    FirstTurn(dir, one, two, next);
    CutShortLoads(one, two, limit);
  }

  method FirstTurn(dir: FtwDir, one: Bytes, two: Bytes, next: nat)
    requires |one| == |two| == ALIGN
    requires dir.files == HalfLiveFiles(one, two) && dir.index == HalfLive() && next == VISIBLE
    modifies dir
    ensures dir.index == Overflowed() && dir.files == HalfLiveFiles(one, two)[VISIBLE := one]
  {
    HalfLiveShape();
    HalfLiveTurn();
    var dirty := DirtyShards(dir.index);
    assert dirty[0].pos == 0 by { assert dirty[0].pos < dirty[1].pos; }
    OnePageKept(dir.index.tensors, 0, dirty[0].live, [], one, Zeros(ALIGN));
    WriteAndSwap(dir, dirty[0], next);
  }

  /** MAIN: the next run, on what that one left. The number it is given is that of the shard just written,
      and the turn that rewrites the second shard truncates the first: the directory loaded and said `one`
      and `two`, and no file holds `one` afterwards. So `ResumeAfterCrash` fails without room. */
  method RerunCanDestroy(dir: FtwDir, one: Bytes, two: Bytes, ghost limit: nat) returns (next: nat)
    requires |one| == |two| == ALIGN && limit > 0
    requires dir.files == HalfLiveFiles(one, two)[VISIBLE := one] && dir.index == Overflowed()
    modifies dir
    ensures old(Safe(dir.files, dir.index))
    ensures old(Contents(dir.files, dir.index)) == [Tensor("one", "", one), Tensor("two", "", two)]
    ensures next == old(NextNumber(dir.files, dir.index)) && old(Names(SortShards(dir.index.shards), next))
    ensures !HasRoom(old(dir.State()), old(Nothing(dir.index, false)), limit)
    ensures dir.files == map[next := two]
  {
    CutShortLoads(one, two, limit);
    HalfLiveContents(one, two);
    OverflowedRoom(dir.State(), limit);
    next := SweepOverflowed(dir, one, two);
    SecondTurn(dir, one, two, next);
  }

  /** It starts by removing the stray file. */
  method SweepOverflowed(dir: FtwDir, one: Bytes, two: Bytes) returns (next: nat)
    requires dir.files == HalfLiveFiles(one, two)[VISIBLE := one] && dir.index == Overflowed()
    requires Safe(dir.files, dir.index)
    modifies dir
    ensures next == old(NextNumber(dir.files, dir.index)) && dir.index == Overflowed()
    ensures dir.files == map[VISIBLE - 1 := two + Zeros(ALIGN), VISIBLE := one]
  {
    OverflowedNames();
    OverflowedShape();
    var orphans;
    next, orphans := ShardNumbers(dir.files, dir.index);
    assert !Names(SortShards(dir.index.shards), VISIBLE - 2);
    assert orphans == {VISIBLE - 2};
    SweptFiles(one + Zeros(ALIGN), two + Zeros(ALIGN), one);
    RemoveOrphans(dir, orphans, Contents(dir.files, dir.index), Budget(Usage(dir.files), KnownNumbers(dir.files, dir.index)));
  }

  lemma SweptFiles(a: Bytes, b: Bytes, c: Bytes)
    ensures map[VISIBLE - 2 := a, VISIBLE - 1 := b][VISIBLE := c] - {VISIBLE - 2} == map[VISIBLE - 1 := b, VISIBLE := c]
  {
  }

  /** The number it is given belongs to a shard, and it needs one. */
  lemma OverflowedRoom(d: Disk, limit: nat)
    requires d.index == Overflowed() && limit > 0
    ensures NextNumber(d.files, d.index) == VISIBLE && Names(SortShards(d.index.shards), VISIBLE)
    ensures !HasRoom(d, Nothing(d.index, false), limit)
  {
    OverflowedNames();
    assert Known(d.files, d.index, VISIBLE - 1);
    OverflowedCount(limit);
    assert VISIBLE < LastNumber(d, Nothing(d.index, false), limit);
  }

  lemma OverflowedNames()
    ensures Names(SortShards(Overflowed().shards), VISIBLE) && Names(SortShards(Overflowed().shards), VISIBLE - 1)
  {
    OverflowedShape();
    var shards := Overflowed().shards;
    assert shards[0] in shards && shards[1] in shards;
  }

  lemma OverflowedCount(limit: nat)
    requires limit > 0
    ensures Count(Overflowed(), Nothing(Overflowed(), false), limit) == 1
  {
    var ix, p := Overflowed(), Nothing(Overflowed(), false);
    OverflowedShape();
    assert DirtyAfter(ix, p) == [ALIGN] by { OverflowedDirty(); }
    assert Taken([ALIGN]) == 1 by { assert [ALIGN][1..] == []; }
    assert ShardsOf(p.items, |p.items|, limit) == 0;
  }

  method DirtyOverflowed() returns (d: DirtyShard)
    ensures Describes(d, Overflowed()) && d.shard == Overflowed().shards[1] && OnePage(Overflowed().tensors, ALIGN)
  {
    OverflowedShape();
    OverflowedDirty();
    var dirty := DirtyShards(Overflowed());
    d := dirty[0];
  }

  method SecondTurn(dir: FtwDir, one: Bytes, two: Bytes, next: nat)
    requires |one| == |two| == ALIGN && next == VISIBLE
    requires dir.files == map[VISIBLE - 1 := two + Zeros(ALIGN), VISIBLE := one] && dir.index == Overflowed()
    modifies dir
    ensures dir.files == map[VISIBLE := two]
  {
    OverflowedShape();
    var d := DirtyOverflowed();
    OnePageKept(dir.index.tensors, ALIGN, d.live, one, two, Zeros(ALIGN));
    OneLeft(two + Zeros(ALIGN), one, two);
    WriteAndSwap(dir, d, next);
    dir.Remove(d.shard.file);
  }

  lemma OneLeft(old_: Bytes, before: Bytes, after: Bytes)
    ensures map[VISIBLE - 1 := old_, VISIBLE := before][VISIBLE := after] - {VISIBLE - 1} == map[VISIBLE := after]
  {
  }
}
