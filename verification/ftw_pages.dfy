/** Compaction of a checkpoint that passed `validate_ftw` and need not be more than that: its shards may
    start and end inside a page, and a file may serve two of them. */
module FtwPages {
  import opened Options
  import opened FtwFormat
  import opened FtwLive
  import opened FtwCompact
  import opened FtwDisk
  import opened FtwCompactor
  import opened FtwValidate

  // ---- one turn of the loop ----

  /** The k-th shard can be rewritten: its bytes are there, and some of them are dead. */
  ghost predicate Turnable(d: Disk, k: nat) {
    var shards := SortShards(d.index.shards);
    && Tiles(shards, 0, d.index.totalBytes) && Complete(d.files, shards)
    && k < |shards| && Dirty(d.index.tensors, shards[k])
  }

  /** The live bytes are in the new file, if there are any, and the new index is in place ... */
  ghost function Swapped(d: Disk, k: nat, n: nat): Disk
    requires Turnable(d, k)
  {
    var shards := SortShards(d.index.shards);
    var s := shards[k];
    RegionAtShard(d.files, shards, k, d.index.totalBytes);
    Disk(if LiveCount(d.index.tensors, s.off, s.End()) == 0 then d.files
         else d.files[n := KeepLive(d.index.tensors, Region(d.files, shards), s.off, s.End())],
         CompactIndex(d.index, s, n))
  }

  /** ... and the old file is deleted. */
  ghost function Removed(d: Disk, k: nat, n: nat): Disk
    requires Turnable(d, k)
  {
    var swapped := Swapped(d, k, n);
    swapped.(files := swapped.files - {SortShards(d.index.shards)[k].file})
  }

  /** The turn, step by step: every state before the swap differs from the first in the new file only. */
  method RewriteAny(dir: FtwDir, d: DirtyShard, n: nat) returns (next: nat)
    requires Turnable(dir.State(), d.pos) && Describes(d, dir.index)
    modifies dir
    ensures dir.State() == Removed(old(dir.State()), d.pos, n) && next == NumberAfter(old(dir.State()), d.pos, n)
    ensures |dir.trace| >= |old(dir.trace)| + 2 && dir.trace[|dir.trace| - 1] == dir.State()
    ensures dir.trace[|dir.trace| - 2] == Swapped(old(dir.State()), d.pos, n)
    ensures if d.liveBytes == 0 then dir.trace[..|dir.trace| - 2] == old(dir.trace)
      else PartialTrace(old(dir.trace), old(dir.State()), n, d.liveBytes, dir.trace[..|dir.trace| - 2])
  {
    var index := dir.index;
    next := CopyShard(dir, d, n);
    ghost var copied := dir.trace;
    var ix' := MovedIndex(index, d, n);
    dir.ReplaceIndex(ix');
    dir.Remove(d.shard.file);
    assert dir.trace[..|dir.trace| - 2] == copied;
  }

  ghost function NumberAfter(d: Disk, k: nat, n: nat): nat
    requires Turnable(d, k)
  {
    var s := SortShards(d.index.shards)[k];
    if LiveCount(d.index.tensors, s.off, s.End()) > 0 then n + 1 else n
  }

  /** No shard has the number `n`, if the turn takes it. */
  ghost predicate Free(d: Disk, k: nat, n: nat)
    requires Turnable(d, k)
  {
    var s := SortShards(d.index.shards)[k];
    LiveCount(d.index.tensors, s.off, s.End()) > 0 ==> !Names(SortShards(d.index.shards), n)
  }

  /** The bytes of [lo, hi) that no entry references. */
  ghost function Dead(tensors: seq<Entry>, lo: nat, hi: nat): nat
    requires lo <= hi
  {
    LiveCountBound(tensors, lo, hi);
    hi - lo - LiveCount(tensors, lo, hi)
  }

  /** The dead bytes the turn takes out in front of offset `x` are whole pages: those of the shard when
      `x` is behind it, those in front of `x` when it is inside. */
  ghost predicate WholePages(tensors: seq<Entry>, s: Shard, x: nat) {
    && (x >= s.End() ==> Dead(tensors, s.off, s.End()) % ALIGN == 0)
    && (s.off <= x < s.End() ==> Dead(tensors, s.off, x) % ALIGN == 0)
  }

  ghost predicate OnPages(tensors: seq<Entry>, s: Shard) {
    forall i :: 0 <= i < |tensors| ==> WholePages(tensors, s, tensors[i].off)
  }

  /** No other shard has the file of the k-th. */
  ghost predicate OwnFile(shards: seq<Shard>, k: nat)
    requires k < |shards|
  {
    forall i :: 0 <= i < |shards| && i != k ==> shards[i].file != shards[k].file
  }

  ghost predicate Harmless(ix: Index, k: nat)
    requires k < |SortShards(ix.shards)|
  {
    OwnFile(SortShards(ix.shards), k) && OnPages(ix.tensors, SortShards(ix.shards)[k])
  }

  // ---- the entries ----

  lemma MovedPage(tensors: seq<Entry>, s: Shard, x: nat)
    requires x % ALIGN == 0
    ensures Remap(tensors, s, x) % ALIGN == 0 <==> WholePages(tensors, s, x)
  {
    LiveCountBound(tensors, s.off, s.End());
    if x >= s.End() {
      OffByPages(x, Dead(tensors, s.off, s.End()));
    } else if x >= s.off {
      OffByPages(x, Dead(tensors, s.off, x));
    }
  }

  lemma OffByPages(x: int, dead: int)
    requires x % ALIGN == 0
    ensures (x - dead) % ALIGN == 0 <==> dead % ALIGN == 0
  {
    var r, a := dead % ALIGN, x / ALIGN - dead / ALIGN;
    assert x - dead == ALIGN * a - r;
    if r == 0 {
      assert (ALIGN * a) % ALIGN == 0;
    } else {
      assert x - dead == ALIGN * (a - 1) + (ALIGN - r);
      assert (x - dead) % ALIGN == ALIGN - r;
    }
  }

  /** The end of an entry moves with its start, so it stays inside the shorter region. */
  lemma MovedInside(tensors: seq<Entry>, s: Shard, i: nat, total: nat)
    requires i < |tensors| && tensors[i].off + tensors[i].nbytes <= total
    ensures Remap(tensors, s, tensors[i].off) + tensors[i].nbytes <= Remap(tensors, s, total)
  {
    var e := tensors[i];
    BlockIsLive(tensors, i);
    RemapBlock(tensors, s, e.off, e.off + e.nbytes);
    RemapMonotone(tensors, s, e.off + e.nbytes, total);
  }

  /** The entries of the new index fit exactly when every one of them moves by whole pages. */
  lemma EntriesFitWhen(tensors: seq<Entry>, s: Shard, total: nat)
    requires forall e :: e in tensors ==> EntryFits(e, total)
    ensures (forall e :: e in MoveEntries(tensors, s) ==> EntryFits(e, Remap(tensors, s, total))) <==> OnPages(tensors, s)
  {
    var moved := MoveEntries(tensors, s);
    forall i | 0 <= i < |tensors|
      ensures moved[i] in moved && (EntryFits(moved[i], Remap(tensors, s, total)) <==> WholePages(tensors, s, tensors[i].off))
    {
      assert tensors[i] in tensors;
      MovedInside(tensors, s, i, total);
      MovedPage(tensors, s, tensors[i].off);
    }
  }

  /** Names, sizes and declarations do not move. */
  lemma StillDeclared(tensors: seq<Entry>, s: Shard, m: Model)
    requires DistinctNames(tensors) && Declared(tensors, m)
    ensures DistinctNames(MoveEntries(tensors, s)) && Declared(MoveEntries(tensors, s), m)
  {
    forall e | e in MoveEntries(tensors, s) ensures m.size(e.info) == Some(e.nbytes) && m.agrees(e.name, e.info) {
      var i :| 0 <= i < |tensors| && MoveEntries(tensors, s)[i] == e;
      assert tensors[i] in tensors;
    }
  }

  // ---- the shards, when the file serves only one ----

  lemma TurnShape(d: Disk, k: nat, n: nat)
    requires Turnable(d, k)
    ensures var tensors, shards, ix' := d.index.tensors, SortShards(d.index.shards), Swapped(d, k, n).index;
      var live := LiveCount(tensors, shards[k].off, shards[k].End());
      && live < shards[k].nbytes && shards[k].End() <= d.index.totalBytes
      && (forall x :: x in shards && x.off > shards[k].off ==> x.off >= shards[k].nbytes)
      && ix' == Index(MoveEntries(tensors, shards[k]), MoveShards(shards, shards[k], live, n), Remap(tensors, shards[k], d.index.totalBytes))
      && ix'.totalBytes == d.index.totalBytes - (shards[k].nbytes - live)
  {
    var shards := SortShards(d.index.shards);
    assert shards[k] in shards;
    TilesBound(shards, d.index.totalBytes, k);
    BehindIsBehind(shards, shards[k], d.index.totalBytes);
  }

  lemma OwnShards(d: Disk, k: nat, n: nat)
    requires Turnable(d, k) && OwnFile(SortShards(d.index.shards), k)
    ensures var shards, ix' := SortShards(d.index.shards), Swapped(d, k, n).index;
      && LiveCount(d.index.tensors, shards[k].off, shards[k].End()) < shards[k].nbytes
      && ix'.shards == NewShards(shards, k, LiveCount(d.index.tensors, shards[k].off, shards[k].End()), n)
      && SortShards(ix'.shards) == ix'.shards && Tiles(ix'.shards, 0, ix'.totalBytes)
  {
    TurnShape(d, k, n);
    OwnMoved(SortShards(d.index.shards), k,
      LiveCount(d.index.tensors, SortShards(d.index.shards)[k].off, SortShards(d.index.shards)[k].End()), n, d.index.totalBytes,
      Swapped(d, k, n).index.shards, Swapped(d, k, n).index.totalBytes);
  }

  lemma OwnMoved(shards: seq<Shard>, k: nat, live: nat, n: nat, total: nat, new_: seq<Shard>, end: nat)
    requires Tiles(shards, 0, total) && k < |shards| && OwnFile(shards, k) && live < shards[k].nbytes
    requires forall x :: x in shards && x.off > shards[k].off ==> x.off >= shards[k].nbytes
    requires new_ == MoveShards(shards, shards[k], live, n) && end == total - (shards[k].nbytes - live)
    ensures new_ == NewShards(shards, k, live, n) && SortShards(new_) == new_ && Tiles(new_, 0, end)
  {
    OwnAround(shards, k, total);
    MovedAround(shards, shards[..k], shards[k], shards[k + 1..], live, n);
    NewShardsTile(shards, k, live, n, total);
    TilesAscending(new_, end);
  }

  lemma OwnAround(shards: seq<Shard>, k: nat, total: nat)
    requires Tiles(shards, 0, total) && k < |shards| && OwnFile(shards, k)
    ensures shards == shards[..k] + [shards[k]] + shards[k + 1..]
    ensures forall x :: x in shards[..k] ==> x.file != shards[k].file && x.off <= shards[k].off
    ensures forall x :: x in shards[k + 1..] ==> x.file != shards[k].file && x.off >= shards[k].End()
  {
    forall x | x in shards[..k] ensures x.file != shards[k].file && x.off <= shards[k].off {
      var i :| 0 <= i < k && shards[i] == x;
      TilesPair(shards, total, i, k);
    }
    forall x | x in shards[k + 1..] ensures x.file != shards[k].file && x.off >= shards[k].End() {
      var i :| 0 <= i < |shards[k + 1..]| && shards[k + 1..][i] == x;
      assert shards[k + 1 + i] == x;
      TilesPair(shards, total, k, k + 1 + i);
    }
  }

  /** The files of the new shards are complete, and the deleted one is not among them. */
  lemma OwnComplete(d: Disk, k: nat, n: nat)
    requires Turnable(d, k) && OwnFile(SortShards(d.index.shards), k) && Free(d, k, n)
    ensures var ix' := Swapped(d, k, n).index;
      Complete(Swapped(d, k, n).files, SortShards(ix'.shards)) && Complete(Removed(d, k, n).files, SortShards(ix'.shards))
  {
    OwnShards(d, k, n);
    SwappedFiles(d, k, n);
    NewComplete(d.files, Swapped(d, k, n).files, SortShards(d.index.shards), k,
      LiveCount(d.index.tensors, SortShards(d.index.shards)[k].off, SortShards(d.index.shards)[k].End()), n, d.index.totalBytes);
  }

  /** The new file has the live bytes, the others are as they were. */
  lemma SwappedFiles(d: Disk, k: nat, n: nat)
    requires Turnable(d, k)
    ensures var s, files := SortShards(d.index.shards)[k], Swapped(d, k, n).files;
      var live := LiveCount(d.index.tensors, s.off, s.End());
      && (live > 0 ==> n in files && |files[n]| == live)
      && forall f :: f in d.files && (live > 0 ==> f != n) ==> f in files && files[f] == d.files[f]
  {
    var shards := SortShards(d.index.shards);
    RegionAtShard(d.files, shards, k, d.index.totalBytes);
    KeepLiveLength(d.index.tensors, Region(d.files, shards), shards[k].off, shards[k].End());
  }

  lemma NewComplete(f: Files, g: Files, shards: seq<Shard>, k: nat, live: nat, n: nat, total: nat)
    requires Tiles(shards, 0, total) && Complete(f, shards) && k < |shards| && OwnFile(shards, k) && (live > 0 ==> !Names(shards, n))
    requires live <= shards[k].nbytes && (live > 0 ==> n in g && |g[n]| == live)
    requires forall x :: x in f && (live > 0 ==> x != n) ==> x in g && g[x] == f[x]
    ensures Complete(g, NewShards(shards, k, live, n)) && Complete(g - {shards[k].file}, NewShards(shards, k, live, n))
  {
    var new_ := NewShards(shards, k, live, n);
    forall x | x in new_ ensures x.file in g && |g[x.file]| == x.nbytes && x.file != shards[k].file {
      var i :| 0 <= i < |new_| && new_[i] == x;
      NewShardAt(shards, k, live, n, total, i);
      var j := if i < k || live > 0 then i else i + 1;
      assert shards[j] in shards && shards[k] in shards;
    }
  }

  lemma OwnPasses(d: Disk, m: Model, k: nat, n: nat)
    requires Turnable(d, k) && OwnFile(SortShards(d.index.shards), k) && Free(d, k, n)
    requires Passes(d.files, d.index, m)
    ensures var ix' := Swapped(d, k, n).index; var good := OnPages(d.index.tensors, SortShards(d.index.shards)[k]);
      && (Passes(Swapped(d, k, n).files, ix', m) <==> good)
      && (Passes(Removed(d, k, n).files, ix', m) <==> good)
  {
    var s := SortShards(d.index.shards)[k];
    TurnShape(d, k, n);
    OwnShards(d, k, n);
    OwnComplete(d, k, n);
    StillDeclared(d.index.tensors, s, m);
    MovedDisjoint(d.index.tensors, s);
    EntriesFitWhen(d.index.tensors, s, d.index.totalBytes);
  }

  // ---- the shards, when the file serves another one too ----

  ghost function Sum(shards: seq<Shard>): nat {
    if shards == [] then 0 else shards[0].nbytes + Sum(shards[1..])
  }

  lemma {:induction false} SumSplit(a: seq<Shard>, b: seq<Shard>)
    ensures Sum(a + b) == Sum(a) + Sum(b)
    decreases |a|
  {
    if a == [] {
      assert a + b == b;
    } else {
      SumSplit(a[1..], b);
      assert (a + b)[1..] == a[1..] + b;
    }
  }

  lemma {:induction false} InsertSum(s: Shard, sorted: seq<Shard>)
    ensures Sum(InsertShard(s, sorted)) == s.nbytes + Sum(sorted)
    decreases |sorted|
  {
    if sorted == [] || s.off < sorted[0].off {
      assert ([s] + sorted)[1..] == sorted;
    } else {
      InsertSum(s, sorted[1..]);
      assert ([sorted[0]] + InsertShard(s, sorted[1..]))[1..] == InsertShard(s, sorted[1..]);
    }
  }

  lemma {:induction false} SortSum(shards: seq<Shard>)
    ensures Sum(SortShards(shards)) == Sum(shards)
    decreases |shards|
  {
    if shards != [] {
      var n := |shards| - 1;
      SortSum(shards[..n]);
      InsertSum(shards[n], SortShards(shards[..n]));
      SumSplit(shards[..n], [shards[n]]);
      assert shards == shards[..n] + [shards[n]] && [shards[n]][1..] == [];
    }
  }

  lemma {:induction false} TilesSum(shards: seq<Shard>, from: nat, end: nat)
    requires Tiles(shards, from, end)
    ensures from + Sum(shards) == end
    decreases |shards|
  {
    if shards != [] { TilesSum(shards[1..], shards[0].End(), end); }
  }

  /** What the loop over the shards takes out: `delta` for every record of the file. */
  ghost function Freed(shards: seq<Shard>, f: nat, delta: nat): nat {
    if shards == [] then 0 else (if shards[0].file == f then delta else 0) + Freed(shards[1..], f, delta)
  }

  lemma {:induction false} FreedFrom(shards: seq<Shard>, f: nat, delta: nat, i: nat)
    requires i < |shards| && shards[i].file == f
    ensures Freed(shards, f, delta) >= delta
    ensures forall j :: i < j < |shards| && shards[j].file == f ==> Freed(shards, f, delta) >= delta + delta
    decreases |shards|
  {
    if i > 0 {
      assert shards[1..][i - 1] == shards[i];
      FreedFrom(shards[1..], f, delta, i - 1);
      forall j | i < j < |shards| && shards[j].file == f ensures Freed(shards, f, delta) >= delta + delta {
        assert shards[1..][j - 1] == shards[j];
      }
    } else {
      forall j | 0 < j < |shards| && shards[j].file == f ensures Freed(shards, f, delta) >= delta + delta {
        assert shards[1..][j - 1] == shards[j];
        FreedFrom(shards[1..], f, delta, j - 1);
      }
    }
  }

  lemma {:induction false} MovedSum(shards: seq<Shard>, s: Shard, live: nat, n: nat)
    requires live <= s.nbytes && forall x :: x in shards && x.off > s.off ==> x.off >= s.nbytes
    requires forall x :: x in shards && x.file == s.file ==> x.nbytes == s.nbytes
    ensures Sum(MoveShards(shards, s, live, n)) + Freed(shards, s.file, s.nbytes - live) == Sum(shards)
    decreases |shards|
  {
    if shards != [] {
      MovedSum(shards[1..], s, live, n);
      assert shards[0] in shards;
      var x := shards[0];
      var head := if x.file == s.file then (if live > 0 then [Shard(n, s.off, live)] else [])
        else if x.off > s.off then [x.(off := x.off - (s.nbytes - live))] else [x];
      SumSplit(head, MoveShards(shards[1..], s, live, n));
      assert head != [] ==> head[1..] == [];
    }
  }

  /** Every record of the file is replaced, but the region gets shorter by one shard's dead bytes only:
      the new shards do not tile it. */
  lemma SharedBreaks(d: Disk, k: nat, n: nat)
    requires Turnable(d, k) && !OwnFile(SortShards(d.index.shards), k)
    ensures var ix' := Swapped(d, k, n).index; !Tiles(SortShards(ix'.shards), 0, ix'.totalBytes)
  {
    var shards, ix' := SortShards(d.index.shards), Swapped(d, k, n).index;
    TurnShape(d, k, n);
    SharedSum(shards, k, LiveCount(d.index.tensors, shards[k].off, shards[k].End()), n, d.index.totalBytes);
    SortSum(ix'.shards);
    if Tiles(SortShards(ix'.shards), 0, ix'.totalBytes) { TilesSum(SortShards(ix'.shards), 0, ix'.totalBytes); }
  }

  lemma SharedSum(shards: seq<Shard>, k: nat, live: nat, n: nat, total: nat)
    requires Tiles(shards, 0, total) && k < |shards| && !OwnFile(shards, k) && live < shards[k].nbytes
    requires forall x :: x in shards && x.off > shards[k].off ==> x.off >= shards[k].nbytes
    requires forall x :: x in shards && x.file == shards[k].file ==> x.nbytes == shards[k].nbytes
    ensures Sum(MoveShards(shards, shards[k], live, n)) < total - (shards[k].nbytes - live)
  {
    var i :| 0 <= i < |shards| && i != k && shards[i].file == shards[k].file;
    MovedSum(shards, shards[k], live, n);
    TilesSum(shards, 0, total);
    FreedFrom(shards, shards[k].file, shards[k].nbytes - live, if i < k then i else k);
  }

  /** MAIN: for every checkpoint that passes validation and every dirty shard of it: behind the index
      swap, and again behind the deletion of the old file, validation passes exactly when no other shard
      has that file and the dead bytes in front of every entry are whole pages. Otherwise a run that is
      cut short there cannot be run again. */
  lemma TurnPasses(d: Disk, m: Model, k: nat, n: nat)
    requires Passes(d.files, d.index, m) && Turnable(d, k) && Free(d, k, n)
    ensures Passes(Swapped(d, k, n).files, Swapped(d, k, n).index, m) <==> Harmless(d.index, k)
    ensures Passes(Removed(d, k, n).files, Removed(d, k, n).index, m) <==> Harmless(d.index, k)
  {
    if OwnFile(SortShards(d.index.shards), k) {
      OwnPasses(d, m, k, n);
    } else {
      SharedBreaks(d, k, n);
    }
  }

  // ---- a file that serves two shards ----

  /** Where a record of the new index comes from. */
  lemma {:induction false} MovedFrom(shards: seq<Shard>, s: Shard, live: nat, n: nat, z: Shard) returns (i: nat)
    requires live <= s.nbytes && forall x :: x in shards && x.off > s.off ==> x.off >= s.nbytes
    requires z in MoveShards(shards, s, live, n)
    ensures i < |shards|
    ensures if shards[i].file == s.file then live > 0 && z == Shard(n, s.off, live)
      else z == if shards[i].off > s.off then shards[i].(off := shards[i].off - (s.nbytes - live)) else shards[i]
    decreases |shards|
  {
    if z in MoveShards(shards[1..], s, live, n) {
      i := MovedFrom(shards[1..], s, live, n, z);
      i := i + 1;
    } else {
      i := 0;
    }
  }

  /** MAIN: deleting the old file when another shard has it too: no record of the new index names it,
      and no record holds any byte of the other shard, wherever the entries there have moved. */
  lemma SharedIsLost(d: Disk, k: nat, j: nat, n: nat)
    requires Turnable(d, k) && Free(d, k, n)
    requires j < |SortShards(d.index.shards)| && j != k && SortShards(d.index.shards)[j].file == SortShards(d.index.shards)[k].file
    ensures var s, x, t := SortShards(d.index.shards)[k], SortShards(d.index.shards)[j], Removed(d, k, n);
      && s.file !in t.files && !Names(t.index.shards, s.file)
      && forall y, z :: x.off <= y < x.End() && z in t.index.shards ==> !(z.off <= Remap(d.index.tensors, s, y) < z.End())
  {
    var shards, t := SortShards(d.index.shards), Removed(d, k, n);
    var s, x := shards[k], shards[j];
    var live := LiveCount(d.index.tensors, s.off, s.End());
    assert s in shards;
    BehindIsBehind(shards, s, d.index.totalBytes);
    forall z | z in t.index.shards
      ensures z.file != s.file
      ensures forall y :: x.off <= y < x.End() ==> !(z.off <= Remap(d.index.tensors, s, y) < z.End())
    {
      var i := MovedFrom(shards, s, live, n, z);
      assert shards[i] in shards;
      MissedBy(d.index.tensors, shards, k, j, i, d.index.totalBytes, z);
    }
  }

  lemma MissedBy(tensors: seq<Entry>, shards: seq<Shard>, k: nat, j: nat, i: nat, total: nat, z: Shard)
    requires Tiles(shards, 0, total) && k < |shards| && j < |shards| && i < |shards| && j != k && shards[j].file == shards[k].file
    requires Dirty(tensors, shards[k])
    requires var s := shards[k]; var live := LiveCount(tensors, s.off, s.End());
      if shards[i].file == s.file then z.off == s.off && z.nbytes == live
      else z.nbytes == shards[i].nbytes && z.off == if shards[i].off > s.off then shards[i].off - (s.nbytes - live) else shards[i].off
    ensures forall y :: shards[j].off <= y < shards[j].End() ==> !(z.off <= Remap(tensors, shards[k], y) < z.End())
  {
    TilesOrder(shards, 0, total);
    forall y | shards[j].off <= y < shards[j].End() ensures !(z.off <= Remap(tensors, shards[k], y) < z.End()) {}
  }

  // ---- the whole run ----

  /** The first dirty shard, the one a turn takes. */
  ghost function NextDirty(tensors: seq<Entry>, shards: seq<Shard>): (k: nat)
    ensures k <= |shards| && forall i :: 0 <= i < k ==> !Dirty(tensors, shards[i])
    ensures k < |shards| ==> Dirty(tensors, shards[k])
    decreases |shards|
  {
    if shards == [] || Dirty(tensors, shards[0]) then 0 else 1 + NextDirty(tensors, shards[1..])
  }

  /** Validation passes now, and in every state behind a swap or a deletion of the next `turns` turns. */
  ghost predicate PassesThrough(d: Disk, m: Model, n: nat, turns: nat)
    decreases turns
  {
    && Passes(d.files, d.index, m)
    && var k := NextDirty(d.index.tensors, SortShards(d.index.shards));
    turns > 0 && k < |SortShards(d.index.shards)| ==>
      && Passes(Swapped(d, k, n).files, Swapped(d, k, n).index, m)
      && PassesThrough(Removed(d, k, n), m, NumberAfter(d, k, n), turns - 1)
  }

  /** The first `turns` dirty shards have files of their own and move everything by whole pages. */
  ghost predicate AllHarmless(ix: Index, turns: nat) {
    forall k :: 0 <= k < |SortShards(ix.shards)| && InTurns(ix, k, turns) ==> Harmless(ix, k)
  }

  ghost predicate InTurns(ix: Index, k: nat, turns: nat)
    requires k < |SortShards(ix.shards)|
  {
    Dirty(ix.tensors, SortShards(ix.shards)[k]) && |DirtyLives(ix.tensors, SortShards(ix.shards)[..k])| < turns
  }

  /** Where the j-th shard is once the k-th is rewritten. */
  ghost function Place(k: nat, live: nat, j: nat): nat
    requires j > k
  {
    if live > 0 then j else j - 1
  }

  /** A shard behind the rewritten one moves as it is. */
  lemma PlaceAt(shards: seq<Shard>, k: nat, live: nat, n: nat, total: nat, j: nat)
    requires Tiles(shards, 0, total) && k < j < |shards| && live <= shards[k].nbytes
    ensures var new_ := NewShards(shards, k, live, n);
      && Place(k, live, j) < |new_| && shards[j].off >= shards[k].End()
      && new_[Place(k, live, j)] == shards[j].(off := shards[j].off - (shards[k].nbytes - live))
  {
    NewShardAt(shards, k, live, n, total, Place(k, live, j));
  }

  /** Its pages are the same ones: an entry parked at its start is not moved by it. */
  lemma PagesLater(tensors: seq<Entry>, s: Shard, x: Shard)
    requires x.off >= s.End() && x.nbytes > 0
    ensures OnPages(MoveEntries(tensors, s), x.(off := Remap(tensors, s, x.off))) <==> OnPages(tensors, x)
  {
    var moved, x' := MoveEntries(tensors, s), x.(off := Remap(tensors, s, x.off));
    forall i | 0 <= i < |tensors| ensures WholePages(moved, x', moved[i].off) <==> WholePages(tensors, x, tensors[i].off) {
      PageLater(tensors, s, x, tensors[i].off);
    }
  }

  lemma PageLater(tensors: seq<Entry>, s: Shard, x: Shard, off: nat)
    requires x.off >= s.End() && x.nbytes > 0
    ensures WholePages(MoveEntries(tensors, s), x.(off := Remap(tensors, s, x.off)), Remap(tensors, s, off)) <==> WholePages(tensors, x, off)
  {
    DeadMoved(tensors, s, x.off, x.End());
    if off >= x.End() {
      DeadMoved(tensors, s, x.End(), off);
    } else if off >= x.off {
      DeadMoved(tensors, s, x.off, off);
    } else {
      RemapMonotone(tensors, s, off, x.off);
    }
  }

  /** Behind the rewritten shard distances and dead bytes stay. */
  lemma DeadMoved(tensors: seq<Entry>, s: Shard, lo: nat, hi: nat)
    requires s.End() <= lo <= hi
    ensures Remap(tensors, s, hi) == Remap(tensors, s, lo) + (hi - lo)
    ensures Dead(MoveEntries(tensors, s), Remap(tensors, s, lo), Remap(tensors, s, hi)) == Dead(tensors, lo, hi)
  {
    LiveCountMoved(tensors, s, lo, hi);
  }

  lemma OwnLater(shards: seq<Shard>, k: nat, live: nat, n: nat, total: nat, j: nat)
    requires Tiles(shards, 0, total) && k < j < |shards| && live <= shards[k].nbytes && OwnFile(shards, k) && (live > 0 ==> !Names(shards, n))
    requires Place(k, live, j) < |NewShards(shards, k, live, n)|
    ensures OwnFile(NewShards(shards, k, live, n), Place(k, live, j)) <==> OwnFile(shards, j)
  {
    var new_, j' := NewShards(shards, k, live, n), Place(k, live, j);
    PlaceAt(shards, k, live, n, total, j);
    assert shards[j] in shards;
    forall i | 0 <= i < |new_| && i != j' && OwnFile(shards, j) ensures new_[i].file != new_[j'].file {
      NewShardAt(shards, k, live, n, total, i);
    }
    forall i | 0 <= i < |shards| && i != j && OwnFile(new_, j') ensures shards[i].file != shards[j].file {
      if i != k {
        var i' := if i < k then i else Place(k, live, i);
        NewShardAt(shards, k, live, n, total, i');
        assert new_[i'].file == shards[i].file;
      }
    }
  }

  /** The shards up to a later one, without the rewritten one. */
  lemma CountLater(tensors: seq<Entry>, shards: seq<Shard>, k: nat, n: nat, total: nat, j: nat)
    requires Tiles(shards, 0, total) && k < j <= |shards| && LiveCount(tensors, shards[k].off, shards[k].End()) < shards[k].nbytes
    requires DirtyLives(tensors, shards[..k]) == []
    ensures var live := LiveCount(tensors, shards[k].off, shards[k].End()); var new_ := NewShards(shards, k, live, n);
      && Place(k, live, j) <= |new_|
      && |DirtyLives(tensors, shards[..j])| == 1 + |DirtyLives(MoveEntries(tensors, shards[k]), new_[..Place(k, live, j)])|
  {
    var front := shards[..j];
    var mid := TilesCut(shards, j, 0, total);
    assert front[..k] == shards[..k] && front[k] == shards[k];
    NewDirtyLives(tensors, front, k, n, mid);
    FirstDirty(tensors, front, k);
    NewPrefix(shards, k, LiveCount(tensors, shards[k].off, shards[k].End()), n, j);
  }

  lemma NewPrefix(shards: seq<Shard>, k: nat, live: nat, n: nat, j: nat)
    requires k < j <= |shards| && live <= shards[k].nbytes
    ensures Place(k, live, j) <= |NewShards(shards, k, live, n)|
    ensures NewShards(shards[..j], k, live, n) == NewShards(shards, k, live, n)[..Place(k, live, j)]
  {
    var delta := shards[k].nbytes - live;
    assert ShiftDown(shards[..j][k + 1..], delta) == ShiftDown(shards[k + 1..], delta)[..j - k - 1];
    assert shards[..j][..k] == shards[..k];
  }

  /** A later shard is as dirty as it was, and on pages when it was. */
  lemma MovedLater(tensors: seq<Entry>, s: Shard, x: Shard)
    requires x.off >= s.End()
    ensures var x' := x.(off := Remap(tensors, s, x.off));
      && (Dirty(MoveEntries(tensors, s), x') <==> Dirty(tensors, x))
      && (Dirty(tensors, x) ==> (OnPages(MoveEntries(tensors, s), x') <==> OnPages(tensors, x)))
  {
    LiveCountMoved(tensors, s, x.off, x.End());
    if Dirty(tensors, x) { PagesLater(tensors, s, x); }
  }

  lemma NewLater(tensors: seq<Entry>, shards: seq<Shard>, k: nat, n: nat, total: nat, j: nat)
    requires Tiles(shards, 0, total) && k < j < |shards| && LiveCount(tensors, shards[k].off, shards[k].End()) < shards[k].nbytes
    ensures var live := LiveCount(tensors, shards[k].off, shards[k].End()); var new_ := NewShards(shards, k, live, n);
      && Place(k, live, j) < |new_| && shards[j].off >= shards[k].End()
      && new_[Place(k, live, j)] == shards[j].(off := Remap(tensors, shards[k], shards[j].off))
  {
    PlaceAt(shards, k, LiveCount(tensors, shards[k].off, shards[k].End()), n, total, j);
    RemapBehind(tensors, shards[k], shards[j].off);
  }

  /** A later shard after the turn is what it was before it. */
  lemma ShardLater(d: Disk, k: nat, n: nat, j: nat, turns: nat)
    requires Turnable(d, k) && Harmless(d.index, k) && Free(d, k, n) && k < j < |SortShards(d.index.shards)|
    requires DirtyLives(d.index.tensors, SortShards(d.index.shards)[..k]) == [] && turns > 0
    ensures var shards, ix' := SortShards(d.index.shards), Removed(d, k, n).index;
      var j' := Place(k, LiveCount(d.index.tensors, shards[k].off, shards[k].End()), j);
      && j' < |SortShards(ix'.shards)| && (InTurns(ix', j', turns - 1) <==> InTurns(d.index, j, turns))
      && (InTurns(d.index, j, turns) ==> (Harmless(ix', j') <==> Harmless(d.index, j)))
  {
    var tensors, shards, total := d.index.tensors, SortShards(d.index.shards), d.index.totalBytes;
    OwnShards(d, k, n);
    NewLater(tensors, shards, k, n, total, j);
    OwnLater(shards, k, LiveCount(tensors, shards[k].off, shards[k].End()), n, total, j);
    CountLater(tensors, shards, k, n, total, j);
    MovedLater(tensors, shards[k], shards[j]);
  }

  /** In front of the rewritten shard, and in its place, nothing is dirty after the turn. */
  lemma CleanUpTo(tensors: seq<Entry>, shards: seq<Shard>, k: nat, n: nat, total: nat, i: nat)
    requires Tiles(shards, 0, total) && k < |shards| && LiveCount(tensors, shards[k].off, shards[k].End()) < shards[k].nbytes
    requires forall i :: 0 <= i < k ==> !Dirty(tensors, shards[i])
    ensures var live := LiveCount(tensors, shards[k].off, shards[k].End()); var new_ := NewShards(shards, k, live, n);
      i < |new_| && (i < k || (i == k && live > 0)) ==> !Dirty(MoveEntries(tensors, shards[k]), new_[i])
  {
    var live := LiveCount(tensors, shards[k].off, shards[k].End());
    if i < k {
      CleanBefore(tensors, shards, k, total, i);
    } else {
      RewrittenShardClean(tensors, shards[k]);
    }
  }

  lemma CleanBefore(tensors: seq<Entry>, shards: seq<Shard>, k: nat, total: nat, i: nat)
    requires Tiles(shards, 0, total) && i < k < |shards| && !Dirty(tensors, shards[i])
    ensures !Dirty(MoveEntries(tensors, shards[k]), shards[i])
  {
    var s, x := shards[k], shards[i];
    TilesPair(shards, total, i, k);
    LiveCountBound(tensors, s.off, s.End());
    assert Remap(tensors, s, x.off) == x.off && Remap(tensors, s, x.End()) == x.End();
    LiveCountMoved(tensors, s, x.off, x.End());
  }

  /** What the later turns ask of the index is asked of the old index already. */
  lemma HarmlessLater(d: Disk, k: nat, n: nat, turns: nat)
    requires Turnable(d, k) && Harmless(d.index, k) && Free(d, k, n) && turns > 0
    requires forall i :: 0 <= i < k ==> !Dirty(d.index.tensors, SortShards(d.index.shards)[i])
    ensures AllHarmless(Removed(d, k, n).index, turns - 1) <==> AllHarmless(d.index, turns)
  {
    var shards, ix' := SortShards(d.index.shards), Removed(d, k, n).index;
    NoneDirty(d.index.tensors, shards[..k]);
    if AllHarmless(ix', turns - 1) {
      forall j | 0 <= j < |shards| && InTurns(d.index, j, turns) ensures Harmless(d.index, j) {
        if j > k { ShardLater(d, k, n, j, turns); }
      }
    }
    if AllHarmless(d.index, turns) {
      forall i | 0 <= i < |SortShards(ix'.shards)| && InTurns(ix', i, turns - 1) ensures Harmless(ix', i) {
        var j := DirtyBefore(d, k, n, i);
        ShardLater(d, k, n, j, turns);
      }
    }
  }

  /** A shard that is dirty after the turn was a later one before it. */
  lemma DirtyBefore(d: Disk, k: nat, n: nat, i: nat) returns (j: nat)
    requires Turnable(d, k) && OwnFile(SortShards(d.index.shards), k)
    requires forall i :: 0 <= i < k ==> !Dirty(d.index.tensors, SortShards(d.index.shards)[i])
    requires var ix' := Removed(d, k, n).index; i < |SortShards(ix'.shards)| && Dirty(ix'.tensors, SortShards(ix'.shards)[i])
    ensures k < j < |SortShards(d.index.shards)|
    ensures i == Place(k, LiveCount(d.index.tensors, SortShards(d.index.shards)[k].off, SortShards(d.index.shards)[k].End()), j)
  {
    var shards := SortShards(d.index.shards);
    var live := LiveCount(d.index.tensors, shards[k].off, shards[k].End());
    OwnShards(d, k, n);
    CleanUpTo(d.index.tensors, shards, k, n, d.index.totalBytes, i);
    NewShardAt(shards, k, live, n, d.index.totalBytes, i);
    j := if live > 0 then i else i + 1;
  }

  /** The table of dirty shards loses its head. */
  lemma LivesLater(d: Disk, k: nat, n: nat)
    requires Turnable(d, k) && OwnFile(SortShards(d.index.shards), k)
    requires DirtyLives(d.index.tensors, SortShards(d.index.shards)[..k]) == []
    ensures var s, ix' := SortShards(d.index.shards)[k], Removed(d, k, n).index;
      DirtyLives(d.index.tensors, SortShards(d.index.shards))
      == [LiveCount(d.index.tensors, s.off, s.End())] + DirtyLives(ix'.tensors, SortShards(ix'.shards))
  {
    OwnShards(d, k, n);
    NewDirtyLives(d.index.tensors, SortShards(d.index.shards), k, n, d.index.totalBytes);
    FirstDirty(d.index.tensors, SortShards(d.index.shards), k);
  }

  /** The numbers of the later turns stay free. */
  lemma ClearLater(d: Disk, k: nat, n: nat)
    requires Turnable(d, k) && OwnFile(SortShards(d.index.shards), k)
    requires DirtyLives(d.index.tensors, SortShards(d.index.shards)[..k]) == [] && Numbered(d.index, n)
    ensures Free(d, k, n) && Numbered(Removed(d, k, n).index, NumberAfter(d, k, n))
  {
    var shards, lives, ix' := SortShards(d.index.shards), DirtyLives(d.index.tensors, SortShards(d.index.shards)), Removed(d, k, n).index;
    LivesLater(d, k, n);
    OwnShards(d, k, n);
    forall f: nat | NumberAfter(d, k, n) <= f < n + Taken(lives) ensures !Names(ix'.shards, f) {
      NotNamed(shards, k, LiveCount(d.index.tensors, shards[k].off, shards[k].End()), n, d.index.totalBytes, f);
    }
  }

  lemma NotNamed(shards: seq<Shard>, k: nat, live: nat, n: nat, total: nat, f: nat)
    requires Tiles(shards, 0, total) && k < |shards| && live <= shards[k].nbytes
    requires !Names(shards, f) && (live > 0 ==> f != n)
    ensures !Names(NewShards(shards, k, live, n), f)
  {
    var new_ := NewShards(shards, k, live, n);
    forall x | x in new_ ensures x.file != f {
      var i :| 0 <= i < |new_| && new_[i] == x;
      NewShardAt(shards, k, live, n, total, i);
      var j := if i < k || live > 0 then i else i + 1;
      assert shards[j] in shards;
    }
  }

  /** No shard has any of the numbers the run takes from `n` on. */
  ghost predicate Numbered(ix: Index, n: nat) {
    Clear(ix, n, n + Taken(DirtyLives(ix.tensors, SortShards(ix.shards))))
  }

  /** MAIN: for every checkpoint that passes validation, and any number of turns: validation passes in
      every state behind a swap or a deletion exactly when, in the index before the run, each of the
      shards these turns take has a file of its own, and the dead bytes it holds in front of every
      entry are whole pages. */
  lemma {:induction false} RunPasses(d: Disk, m: Model, n: nat, turns: nat)
    requires Passes(d.files, d.index, m) && Numbered(d.index, n)
    ensures PassesThrough(d, m, n, turns) <==> AllHarmless(d.index, turns)
    decreases turns
  {
    var shards := SortShards(d.index.shards);
    var k := NextDirty(d.index.tensors, shards);
    if turns > 0 && k < |shards| {
      RunTurn(d, m, k, n, turns);
      PassesAfter(d, m, k, n, turns);
      if Harmless(d.index, k) { RunPasses(Removed(d, k, n), m, NumberAfter(d, k, n), turns - 1); }
    } else {
      NoTurn(d, m, n, turns);
    }
  }

  lemma NoTurn(d: Disk, m: Model, n: nat, turns: nat)
    requires Passes(d.files, d.index, m)
    requires turns == 0 || NextDirty(d.index.tensors, SortShards(d.index.shards)) == |SortShards(d.index.shards)|
    ensures PassesThrough(d, m, n, turns) && AllHarmless(d.index, turns)
  {
  }

  lemma PassesAfter(d: Disk, m: Model, k: nat, n: nat, turns: nat)
    requires Passes(d.files, d.index, m) && turns > 0
    requires k == NextDirty(d.index.tensors, SortShards(d.index.shards)) < |SortShards(d.index.shards)|
    ensures PassesThrough(d, m, n, turns) <==>
      && Passes(Swapped(d, k, n).files, Swapped(d, k, n).index, m)
      && PassesThrough(Removed(d, k, n), m, NumberAfter(d, k, n), turns - 1)
    ensures PassesThrough(d, m, n, turns) ==> Passes(Removed(d, k, n).files, Removed(d, k, n).index, m)
  {
  }

  /** The next turn, and what is left behind it. */
  lemma RunTurn(d: Disk, m: Model, k: nat, n: nat, turns: nat)
    requires Passes(d.files, d.index, m) && Numbered(d.index, n) && turns > 0 && Turnable(d, k)
    requires forall i :: 0 <= i < k ==> !Dirty(d.index.tensors, SortShards(d.index.shards)[i])
    ensures Passes(Swapped(d, k, n).files, Swapped(d, k, n).index, m) <==> Harmless(d.index, k)
    ensures Passes(Removed(d, k, n).files, Removed(d, k, n).index, m) <==> Harmless(d.index, k)
    ensures AllHarmless(d.index, turns) ==> Harmless(d.index, k)
    ensures Harmless(d.index, k) ==>
      && Numbered(Removed(d, k, n).index, NumberAfter(d, k, n))
      && (AllHarmless(Removed(d, k, n).index, turns - 1) <==> AllHarmless(d.index, turns))
  {
    NoneDirty(d.index.tensors, SortShards(d.index.shards)[..k]);
    assert InTurns(d.index, k, turns);
    NumberFree(d, k, n);
    TurnPasses(d, m, k, n);
    if Harmless(d.index, k) {
      HarmlessLater(d, k, n, turns);
      ClearLater(d, k, n);
    }
  }

  lemma NumberFree(d: Disk, k: nat, n: nat)
    requires Turnable(d, k) && DirtyLives(d.index.tensors, SortShards(d.index.shards)[..k]) == [] && Numbered(d.index, n)
    ensures Free(d, k, n)
  {
    FirstDirty(d.index.tensors, SortShards(d.index.shards), k);
  }

  /** The guarantee of every writer, shards on pages and a file each, is enough for any run. */
  lemma SafeIsHarmless(ix: Index, turns: nat)
    requires WellFormed(ix)
    ensures AllHarmless(ix, turns)
  {
    var shards := SortShards(ix.shards);
    forall k | 0 <= k < |shards| ensures Harmless(ix, k) {
      forall i | 0 <= i < |ix.tensors| ensures WholePages(ix.tensors, shards[k], ix.tensors[i].off) {
        assert ix.tensors[i] in ix.tensors && shards[k] in shards;
        RemapAligned(ix.tensors, shards[k], ix.tensors[i].off);
        MovedPage(ix.tensors, shards[k], ix.tensors[i].off);
      }
    }
  }

  // ---- two checkpoints that pass ----

  /** Two entries of one page, one at the start and one at `off`. */
  ghost function TwoPages(off: nat): seq<Entry> { [Entry("a", "", 0, 4096), Entry("b", "", off, 4096)] }

  /** Two shards that meet inside a page. */
  ghost function Uneven(): Disk {
    Disk(map[0 := seq(5000, _ => 0), 1 := seq(7288, _ => 0)],
         Index(TwoPages(8192), [Shard(0, 0, 5000), Shard(1, 5000, 7288)], 12288))
  }

  /** One file that serves two shards. */
  ghost function Doubled(): Disk {
    Disk(map[0 := seq(8192, _ => 0)],
         Index(TwoPages(12288), [Shard(0, 0, 8192), Shard(0, 8192, 8192)], 16384))
  }

  /** A model that declares one page each. */
  function PageModel(): Model { Model(_ => Some(4096), (_, _) => true) }

  lemma TwoFit(off: nat, total: nat)
    requires off % ALIGN == 0 && 4096 <= off && off + 4096 <= total
    ensures DistinctNames(TwoPages(off)) && Declared(TwoPages(off), PageModel()) && Disjoint(TwoPages(off))
    ensures forall e :: e in TwoPages(off) ==> EntryFits(e, total)
  {
  }

  lemma TwoShards(d: Disk, a: Shard, b: Shard)
    requires d.index.shards == [a, b] && a.off == 0 && b.off == a.End() && d.index.totalBytes == b.End() && a.nbytes > 0
    requires a.file in d.files && |d.files[a.file]| == a.nbytes && b.file in d.files && |d.files[b.file]| == b.nbytes
    ensures SortShards(d.index.shards) == [a, b] && Tiles([a, b], 0, d.index.totalBytes) && Complete(d.files, [a, b])
  {
    SortShardsSorts([a, b]);
    assert [a, b][1..] == [b] && [b][1..] == [];
  }

  /** The first block is live at the start of the shard and nothing behind it. */
  lemma OneBlock(off: nat, hi: nat)
    requires off >= hi >= 4096
    ensures LiveCount(TwoPages(off), 0, hi) == 4096
  {
    var tensors, mid := TwoPages(off), 4096;
    assert tensors[0].BlockEnd() == mid;
    LiveCountSplit(tensors, 0, mid, hi);
    BlockIsLive(tensors, 0);
    LiveCountBound(tensors, 0, mid);
    forall x | mid <= x < hi ensures !Live(tensors, x) {
      forall i | 0 <= i < |tensors| ensures !InBlock(tensors[i], x) {}
    }
    LiveCountNone(tensors, mid, hi);
  }

  /** It passes, and the first turn moves the second entry by 904 bytes, to an offset that validation
      refuses: a run cut short behind that swap cannot be run again. */
  lemma UnalignedPasses(n: nat)
    requires n > 1
    ensures Passes(Uneven().files, Uneven().index, PageModel()) && Turnable(Uneven(), 0)
    ensures Swapped(Uneven(), 0, n).index.tensors[1].off == 7288
    ensures !Passes(Swapped(Uneven(), 0, n).files, Swapped(Uneven(), 0, n).index, PageModel())
  {
    UnevenPasses();
    TurnShape(Uneven(), 0, n);
    assert Swapped(Uneven(), 0, n).index.tensors[1] == MoveEntry(Uneven().index.tensors, Shard(0, 0, 5000), Uneven().index.tensors[1]);
    assert Swapped(Uneven(), 0, n).index.tensors[1] in Swapped(Uneven(), 0, n).index.tensors;
  }

  lemma UnevenPasses()
    ensures Passes(Uneven().files, Uneven().index, PageModel()) && Turnable(Uneven(), 0)
    ensures SortShards(Uneven().index.shards) == Uneven().index.shards && LiveCount(Uneven().index.tensors, 0, 5000) == 4096
  {
    var d := Uneven();
    TwoShards(d, d.index.shards[0], d.index.shards[1]);
    TwoFit(8192, 12288);
    OneBlock(8192, 5000);
  }

  /** It passes, and an entry lies in the second shard of the file. Behind the first turn its offset is
      8192, no record holds a byte behind 4096, and the file is gone. */
  lemma SharedPasses(n: nat)
    requires n > 0
    ensures Passes(Doubled().files, Doubled().index, PageModel()) && Turnable(Doubled(), 0)
    ensures Removed(Doubled(), 0, n).index.tensors[1].off == 8192 && 0 !in Removed(Doubled(), 0, n).files
    ensures forall z :: z in Removed(Doubled(), 0, n).index.shards ==> z == Shard(n, 0, 4096)
  {
    DoubledPasses();
    DoubledTurn(n);
    OneFile(Doubled().index.shards, Shard(0, 0, 8192), 4096, n);
  }

  lemma DoubledTurn(n: nat)
    requires Turnable(Doubled(), 0) && LiveCount(TwoPages(12288), 0, 8192) == 4096
    requires SortShards(Doubled().index.shards) == Doubled().index.shards
    ensures Swapped(Doubled(), 0, n).index.tensors == MoveEntries(TwoPages(12288), Shard(0, 0, 8192))
    ensures Remap(TwoPages(12288), Shard(0, 0, 8192), 12288) == 8192
    ensures Swapped(Doubled(), 0, n).index.shards == MoveShards(Doubled().index.shards, Shard(0, 0, 8192), 4096, n)
  {
    TurnShape(Doubled(), 0, n);
  }

  /** Only records of the file: only records of the new one. */
  lemma OneFile(shards: seq<Shard>, s: Shard, live: nat, n: nat)
    requires live <= s.nbytes && forall x :: x in shards ==> x.file == s.file && (x.off > s.off ==> x.off >= s.nbytes)
    ensures forall z :: z in MoveShards(shards, s, live, n) ==> z == Shard(n, s.off, live)
  {
    forall z | z in MoveShards(shards, s, live, n) ensures z == Shard(n, s.off, live) {
      var i := MovedFrom(shards, s, live, n, z);
      assert shards[i] in shards;
    }
  }

  lemma DoubledPasses()
    ensures Passes(Doubled().files, Doubled().index, PageModel()) && Turnable(Doubled(), 0)
    ensures SortShards(Doubled().index.shards) == Doubled().index.shards && LiveCount(Doubled().index.tensors, 0, 8192) == 4096
  {
    var d := Doubled();
    TwoShards(d, d.index.shards[0], d.index.shards[1]);
    TwoFit(12288, 16384);
    OneBlock(12288, 8192);
  }
}
