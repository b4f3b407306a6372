/** What a compaction does to a shard that has one of the numbers it takes. */
module FtwRoom {
  import opened FtwFormat
  import opened FtwLive
  import opened FtwCompact
  import opened FtwDisk
  import opened FtwCompactor
  import opened FtwPages
  import opened FtwRepair
  import opened FtwPatch

  /** The run from `d` with number `n` comes to state `t` with number `num` behind this many turns, none of
      which takes the number of a shard. */
  ghost predicate Comes(d: Disk, n: nat, turns: nat, t: Disk, num: nat)
    decreases turns
  {
    if turns == 0 then t == d && num == n
    else
      var k := NextDirty(d.index.tensors, SortShards(d.index.shards));
      Turnable(d, k) && Free(d, k, n) && Comes(Removed(d, k, n), NumberAfter(d, k, n), turns - 1, t, num)
  }

  /** A shard with bytes in it, all of them live, has the number `f`. */
  ghost predicate CleanShard(ix: Index, j: nat, f: nat) {
    var shards := SortShards(ix.shards);
    j < |shards| && shards[j].file == f && shards[j].nbytes > 0 && !Dirty(ix.tensors, shards[j])
  }

  /** The next turn takes the number of a shard: its file is opened for writing, and then holds the live
      bytes of the rewritten one. One of the two states does not load. */
  ghost predicate Destroys(t: Disk, k: nat, num: nat) {
    && Turnable(t, k) && !Free(t, k, num)
    && (!Safe(t.files[num := []], t.index) || !Safe(Swapped(t, k, num).files, t.index))
  }

  lemma NotFreeDestroys(t: Disk, k: nat, num: nat)
    requires Turnable(t, k) && !Free(t, k, num)
    ensures Destroys(t, k, num)
  {
    var shards := SortShards(t.index.shards);
    var x :| x in shards && x.file == num;
    SwappedFiles(t, k, num);
    if x.nbytes > 0 {
      assert !Complete(t.files[num := []], shards);
    } else {
      assert !Complete(Swapped(t, k, num).files, shards);
    }
  }

  // ---- a turn that takes a free number ----

  /** A number that stands for the turn's; a turn without live bytes takes none. */
  ghost function Stand(d: Disk, k: nat, n: nat): nat
    requires Turnable(d, k)
  {
    if LiveCount(d.index.tensors, SortShards(d.index.shards)[k].off, SortShards(d.index.shards)[k].End()) > 0 then n
    else Unused(SortShards(d.index.shards))
  }

  lemma StandIsFree(d: Disk, k: nat, n: nat)
    requires Turnable(d, k) && WellFormed(d.index) && Free(d, k, n)
    ensures !Names(SortShards(d.index.shards), Stand(d, k, n)) && Swapped(d, k, n) == Swapped(d, k, Stand(d, k, n))
  {
    StepShape(d.index, k, n);
    StepShape(d.index, k, Stand(d, k, n));
  }

  lemma SwappedSafe(d: Disk, k: nat, n: nat)
    requires Turnable(d, k) && Safe(d.files, d.index) && !Names(SortShards(d.index.shards), n)
    ensures Safe(Swapped(d, k, n).files, Swapped(d, k, n).index)
    ensures Contents(Swapped(d, k, n).files, Swapped(d, k, n).index) == Contents(d.files, d.index)
  {
    var shards, g := SortShards(d.index.shards), Swapped(d, k, n).files;
    RegionAtShard(d.files, shards, k, d.index.totalBytes);
    forall i | 0 <= i < |shards| && i != k ensures shards[i].file in g && g[shards[i].file] == d.files[shards[i].file] {
      assert shards[i] in shards;
    }
    StepPreservesContents(d.files, g, d.index, k, n);
  }

  /** The turn keeps the checkpoint and what it says. */
  lemma TurnSafe(d: Disk, k: nat, n: nat)
    requires Turnable(d, k) && Safe(d.files, d.index) && Free(d, k, n)
    ensures Safe(Removed(d, k, n).files, Removed(d, k, n).index)
    ensures Contents(Removed(d, k, n).files, Removed(d, k, n).index) == Contents(d.files, d.index)
  {
    var s, m := SortShards(d.index.shards)[k], Stand(d, k, n);
    StandIsFree(d, k, n);
    SwappedSafe(d, k, m);
    TurnNames(d.index, k, m);
    assert s in SortShards(d.index.shards);
    WithoutStray(Swapped(d, k, m).files, Swapped(d, k, m).index, s.file);
  }

  /** A clean shard is there after the turn, as clean as before. */
  lemma CleanStays(d: Disk, k: nat, n: nat, j: nat, f: nat) returns (j': nat)
    requires Turnable(d, k) && OwnFile(SortShards(d.index.shards), k) && CleanShard(d.index, j, f)
    ensures CleanShard(Removed(d, k, n).index, j', f)
  {
    var tensors, shards, total := d.index.tensors, SortShards(d.index.shards), d.index.totalBytes;
    OwnShards(d, k, n);
    if j < k {
      j' := j;
      NewShardAt(shards, k, LiveCount(tensors, shards[k].off, shards[k].End()), n, total, j);
      CleanBefore(tensors, shards, k, total, j);
    } else {
      j' := Place(k, LiveCount(tensors, shards[k].off, shards[k].End()), j);
      NewLater(tensors, shards, k, n, total, j);
      MovedLater(tensors, shards[k], shards[j]);
    }
  }

  /** MAIN: a clean shard whose number is among those the run takes does not survive it: for every
      checkpoint that loads, the run comes, over turns that keep it, to one that writes over a shard. */
  lemma {:induction false} WindowDestroys(d: Disk, n: nat, j: nat, f: nat) returns (turns: nat, t: Disk, num: nat)
    requires Safe(d.files, d.index) && CleanShard(d.index, j, f)
    requires n <= f < n + Taken(DirtyLives(d.index.tensors, SortShards(d.index.shards)))
    ensures Comes(d, n, turns, t, num) && num <= f
    ensures Safe(t.files, t.index) && Contents(t.files, t.index) == Contents(d.files, d.index)
    ensures Destroys(t, NextDirty(t.index.tensors, SortShards(t.index.shards)), num)
    decreases |DirtyLives(d.index.tensors, SortShards(d.index.shards))|
  {
    var k := NextDirty(d.index.tensors, SortShards(d.index.shards));
    FirstOfRun(d, k);
    if Free(d, k, n) {
      LivesLater(d, k, n);
      TurnSafe(d, k, n);
      var j' := CleanStays(d, k, n, j, f);
      assert f != n || NumberAfter(d, k, n) == n;
      turns, t, num := WindowDestroys(Removed(d, k, n), NumberAfter(d, k, n), j', f);
      turns := turns + 1;
    } else {
      turns, t, num := 0, d, n;
      NotFreeDestroys(d, k, n);
    }
  }

  lemma FirstOfRun(d: Disk, k: nat)
    requires Safe(d.files, d.index) && k == NextDirty(d.index.tensors, SortShards(d.index.shards))
    requires DirtyLives(d.index.tensors, SortShards(d.index.shards)) != []
    ensures Turnable(d, k) && OwnFile(SortShards(d.index.shards), k)
    ensures DirtyLives(d.index.tensors, SortShards(d.index.shards)[..k]) == []
  {
    var shards := SortShards(d.index.shards);
    NoneDirty(d.index.tensors, shards[..k]);
    assert shards[..|shards|] == shards;
  }

  /** A run that only repairs takes the numbers of its rewrites. */
  lemma NothingCounts(d: Disk, table: bool, limit: nat)
    requires limit > 0
    ensures LastNumber(d, Nothing(d.index, table), limit)
         == NextNumber(d.files, d.index) + Taken(DirtyLives(d.index.tensors, SortShards(d.index.shards)))
  {
    var p := Nothing(d.index, table);
    assert p.items == [] && KeptEntries(d.index.tensors, p.keep) == d.index.tensors;
  }

  /** So for a run that only repairs, `HasRoom` is needed as far as clean shards go: with one of them among
      the numbers counted, the run, once it has removed the stray files `gone`, comes to write over a shard. */
  lemma NoRoomDestroys(d: Disk, table: bool, limit: nat, gone: set<nat>, j: nat, f: nat) returns (turns: nat, t: Disk, num: nat)
    requires Safe(d.files, d.index) && limit > 0 && CleanShard(d.index, j, f)
    requires forall g :: g in gone ==> !Names(SortShards(d.index.shards), g)
    requires NextNumber(d.files, d.index) <= f < LastNumber(d, Nothing(d.index, table), limit)
    ensures !HasRoom(d, Nothing(d.index, table), limit)
    ensures Comes(Disk(d.files - gone, d.index), NextNumber(d.files, d.index), turns, t, num)
    ensures Safe(t.files, t.index) && Contents(t.files, t.index) == Contents(d.files, d.index)
    ensures Destroys(t, NextDirty(t.index.tensors, SortShards(t.index.shards)), num)
  {
    NothingCounts(d, table, limit);
    assert Names(SortShards(d.index.shards), f) by { assert SortShards(d.index.shards)[j] in SortShards(d.index.shards); }
    UnreferencedIsInvisible(d.files, d.files - gone, d.index);
    turns, t, num := WindowDestroys(Disk(d.files - gone, d.index), NextNumber(d.files, d.index), j, f);
  }
}
