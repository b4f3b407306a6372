/** A checkpoint directory: its shard files and the index on disk. Every write goes through one of
    four primitives, and each records the state it leaves, so that `trace` lists every state a
    crash can leave behind. */
module FtwDisk {
  import opened FtwFormat

  datatype Disk = Disk(files: Files, index: Index)

  class FtwDir {
    var files: Files
    var index: Index
    ghost var trace: seq<Disk>

    ghost function State(): Disk
      reads this
    {
      Disk(files, index)
    }

    constructor (files: Files, index: Index)
      ensures this.files == files && this.index == index && trace == []
    {
      this.files, this.index, this.trace := files, index, [];
    }

    /** `open(path, "wb")`: the file exists, empty. */
    method Create(file: nat)
      modifies this
      ensures index == old(index) && files == old(files)[file := []]
      ensures trace == old(trace) + [State()]
    {
      files := files[file := []];
      trace := trace + [State()];
    }

    /** One `write` of `data` at the end of an open file. */
    method Append(file: nat, data: Bytes)
      requires file in files
      modifies this
      ensures index == old(index) && files == old(files)[file := old(files)[file] + data]
      ensures trace == old(trace) + [State()]
    {
      files := files[file := files[file] + data];
      trace := trace + [State()];
    }

    /** `write_index`: the new index is complete before it atomically replaces the old one. */
    method ReplaceIndex(ix: Index)
      modifies this
      ensures index == ix && files == old(files)
      ensures trace == old(trace) + [State()]
    {
      index := ix;
      trace := trace + [State()];
    }

    method Remove(file: nat)
      modifies this
      ensures index == old(index) && files == old(files) - {file}
      ensures trace == old(trace) + [State()]
    {
      files := files - {file};
      trace := trace + [State()];
    }
  }

  // ---- numbers ----

  /** The file numbers from `from` up to `end`. */
  ghost function Span(from: nat, end: int): (r: set<nat>)
    ensures forall f: nat :: f in r <==> from <= f < end
    decreases end - from
  {
    if end <= from then {} else Span(from, end - 1) + {end - 1}
  }

  /** A file has the number, or a shard of the index. */
  ghost predicate Known(files: Files, ix: Index, f: nat) {
    f in files || Names(SortShards(ix.shards), f)
  }

  ghost function KnownNumbers(files: Files, ix: Index): (r: set<nat>)
    ensures forall f: nat :: f in r <==> Known(files, ix, f)
  {
    files.Keys + set s | s in SortShards(ix.shards) :: s.file
  }

  /** No shard of the index has one of these numbers. */
  ghost predicate Clear(ix: Index, from: nat, end: int) {
    forall f: nat :: from <= f < end ==> !Names(SortShards(ix.shards), f)
  }

  // ---- disk usage ----

  ghost function AnyFile(files: Files): nat
    requires files != map[]
    ensures AnyFile(files) in files
  {
    var k :| k in files;
    k
  }

  /** Bytes held by all shard files of the directory, referenced or not. */
  ghost function Usage(files: Files): nat
    decreases |files|
  {
    if files == map[] then 0
    else |files[AnyFile(files)]| + Usage(files - {AnyFile(files)})
  }

  lemma {:induction false} UsageSplit(files: Files, k: nat)
    requires k in files
    ensures Usage(files) == |files[k]| + Usage(files - {k})
    decreases |files|
  {
    var p := AnyFile(files);
    if p != k {
      UsageSplit(files - {p}, k);
      UsageSplit(files - {k}, p);
      assert files - {p} - {k} == files - {k} - {p};
    }
  }

  lemma UsageUpdate(files: Files, k: nat, data: Bytes)
    ensures Usage(files[k := data]) == |data| + Usage(files - {k})
    ensures k !in files ==> Usage(files[k := data]) == |data| + Usage(files)
  {
    var g := files[k := data];
    UsageSplit(g, k);
    assert g - {k} == files - {k};
    if k !in files { assert files - {k} == files; }
  }

  /** Removing a file, there or not, frees what it held. */
  lemma UsageWithout(files: Files, k: nat)
    ensures Usage(files - {k}) <= Usage(files)
  {
    if k in files { UsageSplit(files, k); } else { assert files - {k} == files; }
  }

  /** Files the index does not name change neither safety nor contents. */
  lemma UnreferencedIsInvisible(f: Files, g: Files, ix: Index)
    requires Safe(f, ix)
    requires forall s :: s in SortShards(ix.shards) ==> s.file in g && g[s.file] == f[s.file]
    ensures Safe(g, ix) && Contents(g, ix) == Contents(f, ix)
  {
    var shards := SortShards(ix.shards);
    forall i | 0 <= i < |shards| ensures f[shards[i].file] == g[shards[i].file] {
      assert shards[i] in shards;
    }
    RegionFrame(f, g, shards, shards);
  }
}
