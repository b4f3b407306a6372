/** What the repair tool's runs share: shard numbers, the removal of stray files, and when a directory
    is repaired. */
module FtwRepair {
  import opened Choice
  import opened FtwFormat
  import opened FtwLive
  import opened FtwCompact
  import opened FtwDisk
  import opened FtwLayout
  import opened FtwCompactor

  // ---- shard_numbers ----

  /** A shard name is recognised when its number has exactly five digits. */
  const VISIBLE: nat := 100000

  ghost predicate AllVisible(files: Files, ix: Index) {
    forall f: nat :: Known(files, ix, f) ==> f < VISIBLE
  }

  /** What `shard_numbers` hands out: one more than the largest number it can see. */
  ghost predicate NextOf(files: Files, ix: Index, next: nat) {
    && (forall f: nat :: Known(files, ix, f) && f < VISIBLE ==> f < next)
    && (next > 0 ==> next <= VISIBLE && Known(files, ix, next - 1))
  }

  /** The numbers the index uses. */
  method UsedNumbers(shards: seq<Shard>) returns (used: set<nat>)
    ensures forall f: nat :: f in used <==> Names(shards, f)
  {
    used := {};
    for k := 0 to |shards|
      invariant forall f: nat :: f in used <==> Names(shards[..k], f)
    {
      NamesSnoc(shards, k);
      used := used + {shards[k].file};
    }
    assert shards[..|shards|] == shards;
  }

  /** One more than the largest visible number, zero when there is none. */
  method AboveVisible(known: set<nat>) returns (next: nat)
    ensures forall f: nat :: f in known && f < VISIBLE ==> f < next
    ensures next > 0 ==> next <= VISIBLE && next - 1 in known
  {
    next := 0;
    var rest := known;
    while rest != {}
      invariant rest <= known
      invariant forall f: nat :: f in known && f !in rest && f < VISIBLE ==> f < next
      invariant next > 0 ==> next <= VISIBLE && next - 1 in known
      decreases |rest|
    {
      var f: nat := AnyOf(rest);
      rest := rest - {f};
      if next <= f < VISIBLE { next := f + 1; }
    }
  }

  lemma NamesSnoc(shards: seq<Shard>, k: nat)
    requires k < |shards|
    ensures forall g: nat :: Names(shards[..k + 1], g) <==> Names(shards[..k], g) || g == shards[k].file
  {
    forall g: nat ensures Names(shards[..k + 1], g) <==> Names(shards[..k], g) || g == shards[k].file {
      if Names(shards[..k], g) {
        var s :| s in shards[..k] && s.file == g;
        assert s in shards[..k + 1];
      }
      assert shards[k] in shards[..k + 1];
    }
  }

  ghost function Top(known: set<nat>): (next: nat)
    ensures forall f: nat :: f in known && f < VISIBLE ==> f < next
    ensures next > 0 ==> next <= VISIBLE && next - 1 in known
    decreases |known|
  {
    if known == {} then 0
    else
      var f: nat :| f in known;
      var next := Top(known - {f});
      assert forall g :: g in known ==> g == f || g in known - {f};
      if next <= f < VISIBLE then f + 1 else next
  }

  /** The number a run on this directory starts with. */
  ghost function NextNumber(files: Files, ix: Index): (next: nat)
    ensures NextOf(files, ix, next)
  {
    Top(KnownNumbers(files, ix))
  }

  lemma NextIsOne(files: Files, ix: Index, next: nat)
    requires NextOf(files, ix, next)
    ensures next == NextNumber(files, ix)
  {
    var other := NextNumber(files, ix);
    assert other > 0 ==> Known(files, ix, other - 1);
    assert next > 0 ==> Known(files, ix, next - 1);
  }

  /** The next shard number, and the files on disk that the index does not name. */
  method ShardNumbers(files: Files, ix: Index) returns (next: nat, orphans: set<nat>)
    ensures NextOf(files, ix, next) && next == NextNumber(files, ix)
    ensures forall f: nat :: f in orphans <==> f in files && f < VISIBLE && !Names(SortShards(ix.shards), f)
  {
    var used := UsedNumbers(SortShards(ix.shards));
    next := AboveVisible(files.Keys + used);
    NextIsOne(files, ix, next);
    orphans := set f: nat | f in files && f < VISIBLE && f !in used;
  }

  /** MAIN: the `k` numbers handed out are free of all known files exactly when no known number of six
      digits is below the last one; the very first is already taken exactly when 99999 and 100000 are
      both known. */
  lemma NextIsFree(files: Files, ix: Index, next: nat, k: nat)
    requires NextOf(files, ix, next)
    ensures (forall f: nat :: next <= f < next + k ==> !Known(files, ix, f))
       <==> (forall f: nat :: Known(files, ix, f) && VISIBLE <= f ==> next + k <= f)
    ensures Known(files, ix, next) <==> Known(files, ix, VISIBLE - 1) && Known(files, ix, VISIBLE)
  {
    if next > 0 { assert Known(files, ix, next - 1); }
  }

  /** The checkpoint still loads when the number's file has been opened for writing. */
  ghost predicate Openable(files: Files, ix: Index, f: nat) {
    Safe(files[f := []], ix)
  }

  /** MAIN: every one of the `k` numbers can be opened for writing with the checkpoint still loading
      exactly when no shard with bytes in it has a number of six digits below the last one. */
  lemma OpenedIsSafe(files: Files, ix: Index, next: nat, k: nat)
    requires NextOf(files, ix, next) && Safe(files, ix)
    ensures (forall f: nat :: next <= f < next + k ==> Openable(files, ix, f))
       <==> (forall s :: s in SortShards(ix.shards) && VISIBLE <= s.file && s.nbytes > 0 ==> next + k <= s.file)
  {
    var shards := SortShards(ix.shards);
    if forall s :: s in shards && VISIBLE <= s.file && s.nbytes > 0 ==> next + k <= s.file {
      forall f: nat | next <= f < next + k ensures Openable(files, ix, f) {
        forall s | s in shards && s.file == f ensures files[f] == [] {
          assert Known(files, ix, s.file);
        }
        UnreferencedIsInvisible(files, files[f := []], ix);
      }
    } else {
      var s :| s in shards && VISIBLE <= s.file < next + k && s.nbytes > 0;
      assert !Openable(files, ix, s.file);
    }
  }

  /** What makes room for a run: no shard of six digits is below its last number. */
  lemma ClearWhen(files: Files, ix: Index, next: nat, k: nat)
    requires NextOf(files, ix, next)
    ensures Clear(ix, next, next + k)
       <==> (forall s :: s in SortShards(ix.shards) && VISIBLE <= s.file ==> next + k <= s.file)
  {
    var shards := SortShards(ix.shards);
    forall s | s in shards ensures Names(shards, s.file) && (VISIBLE <= s.file || s.file < next) {
      assert Known(files, ix, s.file);
    }
    if !Clear(ix, next, next + k) {
      var f: nat :| next <= f < next + k && Names(shards, f);
      var s :| s in shards && s.file == f;
    }
  }

  // ---- orphan removal and compaction ----

  /** Removing a file the index does not name. */
  lemma OrphanRemoved(d: Disk, f: nat, contents: seq<Tensor>, budget: Budget)
    requires Good(d, contents, budget) && f in d.files && !Names(SortShards(d.index.shards), f)
    ensures Good(Disk(d.files - {f}, d.index), contents, budget)
  {
    UnreferencedIsInvisible(d.files, d.files - {f}, d.index);
    UsageSplit(d.files, f);
  }

  method RemoveOrphans(dir: FtwDir, orphans: set<nat>, ghost contents: seq<Tensor>, ghost budget: Budget)
    requires Good(dir.State(), contents, budget)
    requires forall f :: f in orphans ==> f in dir.files && !Names(SortShards(dir.index.shards), f)
    modifies dir
    ensures dir.index == old(dir.index) && dir.files == old(dir.files) - orphans
    ensures Good(dir.State(), contents, budget) && GoodTrace(old(dir.trace), dir.trace, contents, budget)
  {
    var rest := orphans;
    while rest != {}
      invariant rest <= orphans && dir.index == old(dir.index)
      invariant dir.files == old(dir.files) - (orphans - rest)
      invariant Good(dir.State(), contents, budget) && GoodTrace(old(dir.trace), dir.trace, contents, budget)
      decreases |rest|
    {
      var f := AnyOf(rest);
      OneLess(old(dir.files), orphans, rest, f);
      RemoveOrphan(dir, f, contents, budget, old(dir.trace));
      rest := rest - {f};
    }
  }

  lemma OneLess(files: Files, orphans: set<nat>, rest: set<nat>, f: nat)
    requires f in rest && rest <= orphans
    ensures files - (orphans - rest) - {f} == files - (orphans - (rest - {f}))
    ensures f in files ==> f in files - (orphans - rest)
  {
  }

  method RemoveOrphan(dir: FtwDir, f: nat, ghost contents: seq<Tensor>, ghost budget: Budget, ghost t0: seq<Disk>)
    requires Good(dir.State(), contents, budget) && GoodTrace(t0, dir.trace, contents, budget)
    requires f in dir.files && !Names(SortShards(dir.index.shards), f)
    modifies dir
    ensures dir.index == old(dir.index) && dir.files == old(dir.files) - {f}
    ensures Good(dir.State(), contents, budget) && GoodTrace(t0, dir.trace, contents, budget)
  {
    OrphanRemoved(dir.State(), f, contents, budget);
    ghost var trace := dir.trace;
    dir.Remove(f);
    GoodTraceSnoc(t0, trace, dir.State(), contents, budget);
  }

  /** A settled directory: loadable, nothing dead in any shard, and the region exactly the padded
      entries. */
  ghost predicate Settled(files: Files, ix: Index, contents: seq<Tensor>) {
    && Safe(files, ix) && Contents(files, ix) == contents
    && DirtyLives(ix.tensors, SortShards(ix.shards)) == []
    && ix.totalBytes == PaddedSize(ix.tensors)
  }

  /** ... without a file the index does not name. */
  ghost predicate Repaired(files: Files, ix: Index, contents: seq<Tensor>) {
    Settled(files, ix, contents) && Orphans(files, ix) == {}
  }

  lemma {:induction false} UsageShrinks(files: Files, gone: set<nat>)
    requires gone <= files.Keys
    ensures Usage(files - gone) <= Usage(files)
    decreases |gone|
  {
    if gone == {} {
      assert files - gone == files;
    } else {
      var f :| f in gone;
      UsageShrinks(files, gone - {f});
      UsageWithout(files - (gone - {f}), f);
      assert files - (gone - {f}) - {f} == files - gone;
    }
  }
}
