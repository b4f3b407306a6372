/** The FTW checkpoint format: one logical byte region, sliced into shard files, with an
    index that names the entries (tensors) and the shards.

    A shard file is identified by the number in its name (`freetoken-NNNNN.ftw`). */
module FtwFormat {

  const ALIGN: nat := 4096

  newtype Byte = b: int | 0 <= b < 256
  type Bytes = seq<Byte>

  /** `info` stands for the entry's kind, dtype and shape, which no operation here inspects. */
  datatype Entry = Entry(name: string, info: string, off: nat, nbytes: nat) {
    /** The end of the ALIGN-padded block the entry owns. */
    function BlockEnd(): (end: nat)
      ensures end >= off + nbytes
    {
      off + AlignUp(nbytes)
    }
  }

  datatype Shard = Shard(file: nat, off: nat, nbytes: nat) {
    function End(): nat { off + nbytes }
  }

  datatype Index = Index(tensors: seq<Entry>, shards: seq<Shard>, totalBytes: nat)

  type Files = map<nat, Bytes>

  function AlignUp(n: nat): (r: nat)
    ensures n <= r < n + ALIGN && r % ALIGN == 0
  {
    (n + ALIGN - 1) / ALIGN * ALIGN
  }

  lemma AlignUpShift(a: nat, n: nat)
    requires a % ALIGN == 0
    ensures AlignUp(a + n) == a + AlignUp(n)
  {
  }

  lemma AlignUpLeast(n: nat, m: nat)
    requires n <= m && m % ALIGN == 0
    ensures AlignUp(n) <= m
  {
  }

  lemma SumAligned(a: nat, b: nat)
    requires a % ALIGN == 0 && b % ALIGN == 0
    ensures (a + b) % ALIGN == 0
  {
  }

  // ---- shards in offset order ----

  /** Stable insertion: `s` goes after the shards that start at the same offset. */
  function InsertShard(s: Shard, sorted: seq<Shard>): seq<Shard> {
    if sorted == [] || s.off < sorted[0].off then [s] + sorted
    else [sorted[0]] + InsertShard(s, sorted[1..])
  }

  /** `sorted(index["shards"], key=global_off)`. */
  function SortShards(shards: seq<Shard>): seq<Shard> {
    if shards == [] then [] else InsertShard(shards[|shards| - 1], SortShards(shards[..|shards| - 1]))
  }

  ghost predicate Ascending(shards: seq<Shard>) {
    forall i, j :: 0 <= i < j < |shards| ==> shards[i].off <= shards[j].off
  }

  lemma {:induction false} InsertShardMembers(s: Shard, sorted: seq<Shard>)
    ensures multiset(InsertShard(s, sorted)) == multiset(sorted) + multiset{s}
  {
    if sorted != [] && s.off >= sorted[0].off {
      InsertShardMembers(s, sorted[1..]);
      assert sorted == [sorted[0]] + sorted[1..];
    }
  }

  lemma {:induction false} SortShardsMembers(shards: seq<Shard>)
    ensures multiset(SortShards(shards)) == multiset(shards)
  {
    if shards != [] {
      var n := |shards| - 1;
      SortShardsMembers(shards[..n]);
      InsertShardMembers(shards[n], SortShards(shards[..n]));
      assert shards == shards[..n] + [shards[n]];
    }
  }

  lemma {:induction false} InsertShardAscending(s: Shard, sorted: seq<Shard>)
    requires Ascending(sorted)
    ensures Ascending(InsertShard(s, sorted))
  {
    if sorted != [] && s.off >= sorted[0].off {
      InsertShardAscending(s, sorted[1..]);
      InsertShardMembers(s, sorted[1..]);
      var r := InsertShard(s, sorted[1..]);
      forall x | x in r ensures sorted[0].off <= x.off {
        assert x in multiset(r);
        assert x in sorted[1..] || x == s;
      }
    }
  }

  lemma {:induction false} InsertShardLast(s: Shard, sorted: seq<Shard>)
    requires forall x :: x in sorted ==> x.off <= s.off
    ensures InsertShard(s, sorted) == sorted + [s]
  {
    if sorted != [] {
      InsertShardLast(s, sorted[1..]);
      assert sorted == [sorted[0]] + sorted[1..];
    }
  }

  /** Sorting really sorts, and leaves a list that is already in order as it is. */
  lemma {:induction false} SortShardsSorts(shards: seq<Shard>)
    ensures Ascending(SortShards(shards))
    ensures Ascending(shards) ==> SortShards(shards) == shards
  {
    if shards != [] {
      var n := |shards| - 1;
      SortShardsSorts(shards[..n]);
      InsertShardAscending(shards[n], SortShards(shards[..n]));
      if Ascending(shards) {
        InsertShardLast(shards[n], shards[..n]);
        assert shards == shards[..n] + [shards[n]];
      }
    }
  }

  // ---- well-formedness ----

  /** The shards, in this order, tile [from, to) without gap or overlap. */
  ghost predicate Tiles(shards: seq<Shard>, from: nat, to: nat) {
    if shards == [] then from == to
    else shards[0].off == from && Tiles(shards[1..], shards[0].End(), to)
  }

  ghost predicate DistinctFiles(shards: seq<Shard>) {
    forall i, j :: 0 <= i < j < |shards| ==> shards[i].file != shards[j].file
  }

  /** Some shard record names file `f`. */
  ghost predicate Names(shards: seq<Shard>, f: nat) {
    exists s :: s in shards && s.file == f
  }

  ghost predicate AlignedShards(shards: seq<Shard>) {
    forall s :: s in shards ==> s.off % ALIGN == 0 && s.nbytes % ALIGN == 0
  }

  ghost predicate EntryFits(e: Entry, total: nat) {
    e.off % ALIGN == 0 && e.off + e.nbytes <= total
  }

  /** The padded blocks do not overlap; a zero-byte entry lies on no block's inside. */
  ghost predicate Disjoint(tensors: seq<Entry>) {
    forall i, j :: 0 <= i < |tensors| && 0 <= j < |tensors| && i != j ==>
      tensors[i].BlockEnd() <= tensors[j].off || tensors[j].BlockEnd() <= tensors[i].off
  }

  /** What `validate_ftw` checks of the layout, plus the shard alignment every writer gives. */
  ghost predicate WellFormed(ix: Index) {
    var shards := SortShards(ix.shards);
    && Tiles(shards, 0, ix.totalBytes)
    && DistinctFiles(shards)
    && AlignedShards(shards)
    && (forall e :: e in ix.tensors ==> EntryFits(e, ix.totalBytes))
    && Disjoint(ix.tensors)
  }

  /** Every shard the index names exists with exactly the bytes the index says. */
  ghost predicate Complete(files: Files, shards: seq<Shard>) {
    forall s :: s in shards ==> s.file in files && |files[s.file]| == s.nbytes
  }

  ghost predicate Safe(files: Files, ix: Index) {
    WellFormed(ix) && Complete(files, SortShards(ix.shards))
  }

  // ---- the logical region ----

  ghost function Region(files: Files, shards: seq<Shard>): Bytes
    requires Complete(files, shards)
  {
    if shards == [] then [] else files[shards[0].file] + Region(files, shards[1..])
  }

  lemma {:induction false} TilesSplit(a: seq<Shard>, b: seq<Shard>, from: nat, mid: nat, to: nat)
    ensures Tiles(a, from, mid) && Tiles(b, mid, to) ==> Tiles(a + b, from, to)
    decreases |a|
  {
    if a == [] {
      assert a + b == b;
    } else {
      TilesSplit(a[1..], b, a[0].End(), mid, to);
      assert (a + b)[1..] == a[1..] + b;
    }
  }

  /** Cutting a tiling at any shard gives two tilings that meet there. */
  lemma {:induction false} TilesCut(shards: seq<Shard>, k: nat, from: nat, to: nat) returns (mid: nat)
    requires k <= |shards| && Tiles(shards, from, to)
    ensures from <= mid <= to
    ensures Tiles(shards[..k], from, mid) && Tiles(shards[k..], mid, to)
    ensures k < |shards| ==> shards[k].off == mid && shards[k].End() <= to
    decreases k
  {
    TilesGrow(shards, from, to);
    if k == 0 {
      mid := from;
      assert shards[..0] == [] && shards[0..] == shards;
      if shards != [] { TilesGrow(shards[1..], shards[0].End(), to); }
    } else {
      mid := TilesCut(shards[1..], k - 1, shards[0].End(), to);
      assert shards[..k][1..] == shards[1..][..k - 1];
      assert shards[1..][k - 1..] == shards[k..];
    }
  }

  lemma {:induction false} TilesGrow(shards: seq<Shard>, from: nat, to: nat)
    requires Tiles(shards, from, to)
    ensures from <= to
    decreases |shards|
  {
    if shards != [] { TilesGrow(shards[1..], shards[0].End(), to); }
  }

  lemma {:induction false} TilesOrder(shards: seq<Shard>, from: nat, to: nat)
    requires Tiles(shards, from, to)
    ensures forall s :: s in shards ==> from <= s.off && s.End() <= to
    ensures forall i, j :: 0 <= i < j < |shards| ==> shards[i].End() <= shards[j].off
    decreases |shards|
  {
    TilesGrow(shards, from, to);
    if shards != [] {
      TilesGrow(shards[1..], shards[0].End(), to);
      TilesOrder(shards[1..], shards[0].End(), to);
    }
  }

  lemma TilesPair(shards: seq<Shard>, total: nat, i: nat, j: nat)
    requires Tiles(shards, 0, total) && i < j < |shards|
    ensures shards[i].End() <= shards[j].off
  {
    TilesOrder(shards, 0, total);
  }

  lemma {:induction false} RegionSplit(files: Files, a: seq<Shard>, b: seq<Shard>)
    requires Complete(files, a) && Complete(files, b)
    ensures Complete(files, a + b)
    ensures Region(files, a + b) == Region(files, a) + Region(files, b)
    decreases |a|
  {
    if a == [] {
      assert a + b == b;
    } else {
      RegionSplit(files, a[1..], b);
      assert (a + b)[1..] == a[1..] + b;
    }
  }

  lemma {:induction false} RegionLength(files: Files, shards: seq<Shard>, from: nat, to: nat)
    requires Complete(files, shards) && Tiles(shards, from, to)
    ensures |Region(files, shards)| == to - from
    decreases |shards|
  {
    TilesGrow(shards, from, to);
    if shards != [] {
      RegionLength(files, shards[1..], shards[0].End(), to);
      TilesGrow(shards[1..], shards[0].End(), to);
    }
  }

  /** The region depends only on the bytes of the shards it is made of. */
  lemma {:induction false} RegionFrame(f: Files, g: Files, a: seq<Shard>, b: seq<Shard>)
    requires Complete(f, a) && Complete(g, b) && |a| == |b|
    requires forall i :: 0 <= i < |a| ==> f[a[i].file] == g[b[i].file]
    ensures Region(f, a) == Region(g, b)
    decreases |a|
  {
    if a != [] {
      forall i | 0 <= i < |a[1..]| ensures f[a[1..][i].file] == g[b[1..][i].file] {
        assert a[1..][i] == a[i + 1] && b[1..][i] == b[i + 1];
      }
      RegionFrame(f, g, a[1..], b[1..]);
    }
  }

  /** One shard's file is its slice of the region. */
  lemma {:induction false} RegionAtShard(files: Files, shards: seq<Shard>, k: nat, total: nat)
    requires Complete(files, shards) && Tiles(shards, 0, total) && k < |shards|
    ensures |Region(files, shards)| == total
    ensures shards[k].End() <= total
    ensures Region(files, shards)[shards[k].off..shards[k].End()] == files[shards[k].file]
  {
    RegionLength(files, shards, 0, total);
    var mid := TilesCut(shards, k, 0, total);
    RegionLength(files, shards[..k], 0, mid);
    RegionSplit(files, shards[..k], shards[k..]);
    assert shards[..k] + shards[k..] == shards;
  }

  // ---- what a checkpoint says ----

  datatype Tensor = Tensor(name: string, info: string, data: Bytes)

  ghost function Content(region: Bytes, e: Entry): Tensor
    requires e.off + e.nbytes <= |region|
  {
    Tensor(e.name, e.info, region[e.off..e.off + e.nbytes])
  }

  ghost function ContentsOf(region: Bytes, tensors: seq<Entry>): seq<Tensor>
    requires forall e :: e in tensors ==> e.off + e.nbytes <= |region|
  {
    seq(|tensors|, i requires 0 <= i < |tensors| => Content(region, tensors[i]))
  }

  /** The meaning of a checkpoint directory: its entries, in index order, with their bytes. */
  ghost function Contents(files: Files, ix: Index): seq<Tensor>
    requires Safe(files, ix)
  {
    RegionLength(files, SortShards(ix.shards), 0, ix.totalBytes);
    ContentsOf(Region(files, SortShards(ix.shards)), ix.tensors)
  }
}
