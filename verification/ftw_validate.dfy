/** The structural part of `validate_ftw`. */
module FtwValidate {
  import opened Options
  import opened FtwFormat

  /** A padded block: start and end. */
  datatype Block = Block(a: nat, b: nat)

  predicate Precedes(x: Block, y: Block) { x.a < y.a || (x.a == y.a && x.b <= y.b) }

  function InsertBlock(x: Block, sorted: seq<Block>): seq<Block> {
    if sorted == [] || Precedes(x, sorted[0]) then [x] + sorted else [sorted[0]] + InsertBlock(x, sorted[1..])
  }

  /** `sorted(blocks)`. */
  function SortBlocks(blocks: seq<Block>): seq<Block> {
    if blocks == [] then [] else InsertBlock(blocks[0], SortBlocks(blocks[1..]))
  }

  /** The tool's test: no block of the sorted list starts before the one next to it ends. */
  predicate Consecutive(sorted: seq<Block>) {
    |sorted| <= 1 || (sorted[0].b <= sorted[1].a && Consecutive(sorted[1..]))
  }

  /** Blocks that do not overlap, whichever comes first. */
  predicate Apart(x: Block, y: Block) { x.b <= y.a || y.b <= x.a }

  predicate IsBlock(x: Block) { x.a <= x.b }

  /** `x` is apart from all of them. */
  ghost predicate ApartFrom(x: Block, blocks: seq<Block>) {
    forall y :: y in blocks ==> Apart(x, y)
  }

  ghost predicate AllApart(blocks: seq<Block>)
    decreases |blocks|
  {
    blocks == [] || (ApartFrom(blocks[0], blocks[1..]) && AllApart(blocks[1..]))
  }

  lemma {:induction false} ConsecutiveStarts(sorted: seq<Block>)
    requires Consecutive(sorted) && forall y :: y in sorted ==> IsBlock(y)
    ensures forall y :: y in sorted ==> sorted[0].a <= y.a
    ensures |sorted| > 1 ==> forall y :: y in sorted[1..] ==> sorted[0].b <= y.a
    decreases |sorted|
  {
    if |sorted| > 1 {
      ConsecutiveStarts(sorted[1..]);
      assert IsBlock(sorted[0]) && sorted == [sorted[0]] + sorted[1..];
    } else if |sorted| == 1 {
      assert sorted == [sorted[0]];
    }
  }

  lemma {:induction false} InsertBlockMembers(x: Block, sorted: seq<Block>)
    ensures forall y :: y in InsertBlock(x, sorted) <==> y == x || y in sorted
    decreases |sorted|
  {
    if sorted != [] && !Precedes(x, sorted[0]) {
      InsertBlockMembers(x, sorted[1..]);
      assert sorted == [sorted[0]] + sorted[1..];
    }
  }

  /** Inserting a block into a chain keeps it a chain exactly when the block is apart from all of it. */
  lemma {:induction false} InsertConsecutive(x: Block, sorted: seq<Block>)
    requires IsBlock(x) && Consecutive(sorted) && forall y :: y in sorted ==> IsBlock(y)
    ensures Consecutive(InsertBlock(x, sorted)) <==> ApartFrom(x, sorted)
    decreases |sorted|
  {
    if sorted != [] {
      ConsecutiveStarts(sorted);
      var head, rest := sorted[0], sorted[1..];
      assert sorted == [head] + rest && IsBlock(head);
      assert ApartFrom(x, sorted) <==> Apart(x, head) && ApartFrom(x, rest) by { ApartCons(x, head, rest); }
      if Precedes(x, head) {
        assert ([x] + sorted)[1..] == sorted;
        if x.b <= head.a {
          forall y | y in sorted ensures Apart(x, y) {}
        }
      } else {
        InsertConsecutive(x, rest);
        InsertBlockMembers(x, rest);
        assert ([head] + InsertBlock(x, rest))[1..] == InsertBlock(x, rest);
        InsertHead(x, rest);
      }
    }
  }

  lemma ApartCons(x: Block, head: Block, rest: seq<Block>)
    ensures ApartFrom(x, [head] + rest) <==> Apart(x, head) && ApartFrom(x, rest)
  {
    var all := [head] + rest;
    if ApartFrom(x, all) {
      assert head in all;
      forall y | y in rest ensures Apart(x, y) { assert y in all; }
    }
  }

  lemma InsertHead(x: Block, sorted: seq<Block>)
    ensures InsertBlock(x, sorted) != []
    ensures InsertBlock(x, sorted)[0] == if sorted == [] || Precedes(x, sorted[0]) then x else sorted[0]
  {
  }

  /** A list that is no chain stays none when a block is added. */
  lemma {:induction false} InsertApart(x: Block, sorted: seq<Block>)
    requires IsBlock(x) && !Consecutive(sorted) && Ordered(sorted) && forall y :: y in sorted ==> IsBlock(y)
    ensures !Consecutive(InsertBlock(x, sorted))
    decreases |sorted|
  {
    var head, rest := sorted[0], sorted[1..];
    assert sorted == [head] + rest;
    if Precedes(x, head) {
      assert ([x] + sorted)[1..] == sorted;
    } else {
      assert ([head] + InsertBlock(x, rest))[1..] == InsertBlock(x, rest);
      InsertHead(x, rest);
      if !Consecutive(rest) { InsertApart(x, rest); }
    }
  }

  /** Neighbours in order. */
  predicate Ordered(sorted: seq<Block>) {
    |sorted| <= 1 || (Precedes(sorted[0], sorted[1]) && Ordered(sorted[1..]))
  }

  lemma {:induction false} InsertOrdered(x: Block, sorted: seq<Block>)
    requires Ordered(sorted)
    ensures Ordered(InsertBlock(x, sorted))
    decreases |sorted|
  {
    if sorted != [] {
      var rest := sorted[1..];
      if Precedes(x, sorted[0]) {
        assert ([x] + sorted)[1..] == sorted;
      } else {
        InsertOrdered(x, rest);
        InsertHead(x, rest);
        assert ([sorted[0]] + InsertBlock(x, rest))[1..] == InsertBlock(x, rest);
      }
    }
  }

  /** MAIN: looking at neighbours only is enough: the sorted list is a chain exactly when no two blocks
      overlap, zero-length ones included. */
  lemma {:induction false} NeighboursSuffice(blocks: seq<Block>)
    requires forall y :: y in blocks ==> IsBlock(y)
    ensures Consecutive(SortBlocks(blocks)) <==> AllApart(blocks)
    ensures Ordered(SortBlocks(blocks)) && forall y :: y in SortBlocks(blocks) <==> y in blocks
    decreases |blocks|
  {
    if blocks != [] {
      var rest := blocks[1..];
      NeighboursSuffice(rest);
      assert blocks == [blocks[0]] + rest;
      InsertBlockMembers(blocks[0], SortBlocks(rest));
      InsertOrdered(blocks[0], SortBlocks(rest));
      if Consecutive(SortBlocks(rest)) {
        InsertConsecutive(blocks[0], SortBlocks(rest));
      } else {
        InsertApart(blocks[0], SortBlocks(rest));
      }
    }
  }

  // ---- the tool's checks ----

  function BlocksOf(tensors: seq<Entry>): (r: seq<Block>)
    ensures |r| == |tensors|
  {
    seq(|tensors|, i requires 0 <= i < |tensors| => Block(tensors[i].off, tensors[i].BlockEnd()))
  }

  /** Two blocks of a list that is apart, by their places. */
  lemma {:induction false} ApartAt(blocks: seq<Block>)
    ensures AllApart(blocks) <==> forall i, j :: 0 <= i < j < |blocks| ==> Apart(blocks[i], blocks[j])
    decreases |blocks|
  {
    if blocks != [] {
      var rest := blocks[1..];
      ApartAt(rest);
      assert blocks == [blocks[0]] + rest;
      if AllApart(blocks) {
        forall i, j | 0 <= i < j < |blocks| ensures Apart(blocks[i], blocks[j]) {
          assert blocks[j] == rest[j - 1];
          if i > 0 { assert blocks[i] == rest[i - 1]; }
        }
      }
      if forall i, j :: 0 <= i < j < |blocks| ==> Apart(blocks[i], blocks[j]) {
        forall y | y in rest ensures Apart(blocks[0], y) {
          var j :| 0 <= j < |rest| && rest[j] == y;
          assert blocks[j + 1] == y;
        }
        forall i, j | 0 <= i < j < |rest| ensures Apart(rest[i], rest[j]) {
          assert rest[i] == blocks[i + 1] && rest[j] == blocks[j + 1];
        }
      }
    }
  }

  lemma BlocksDisjoint(tensors: seq<Entry>)
    ensures Consecutive(SortBlocks(BlocksOf(tensors))) <==> Disjoint(tensors)
  {
    var blocks := BlocksOf(tensors);
    NeighboursSuffice(blocks);
    ApartAt(blocks);
    if Disjoint(tensors) {
      forall i, j | 0 <= i < j < |blocks| ensures Apart(blocks[i], blocks[j]) {
        assert tensors[i].BlockEnd() <= tensors[j].off || tensors[j].BlockEnd() <= tensors[i].off;
      }
    }
    if forall i, j :: 0 <= i < j < |blocks| ==> Apart(blocks[i], blocks[j]) {
      forall i, j | 0 <= i < |tensors| && 0 <= j < |tensors| && i != j
        ensures tensors[i].BlockEnd() <= tensors[j].off || tensors[j].BlockEnd() <= tensors[i].off
      {
        if i < j { assert Apart(blocks[i], blocks[j]); } else { assert Apart(blocks[j], blocks[i]); }
      }
    }
  }

  /** The shards one after the other from `pos`; every file there with the size the index says. */
  predicate ShardsCheck(files: Files, shards: seq<Shard>, pos: nat, total: nat) {
    if shards == [] then pos == total
    else
      && shards[0].off == pos && shards[0].file in files && |files[shards[0].file]| == shards[0].nbytes
      && ShardsCheck(files, shards[1..], shards[0].End(), total)
  }

  lemma {:induction false} ShardsCheckMeans(files: Files, shards: seq<Shard>, pos: nat, total: nat)
    ensures ShardsCheck(files, shards, pos, total) <==> Tiles(shards, pos, total) && Complete(files, shards)
    decreases |shards|
  {
    if shards != [] {
      ShardsCheckMeans(files, shards[1..], shards[0].End(), total);
      assert shards == [shards[0]] + shards[1..];
    }
  }

  /** What the model says of kind, dtype and shape: how many bytes they take, unless the dtype is unknown,
      and whether they are what it declares under that name, if it declares any. */
  datatype Model = Model(size: string -> Option<nat>, agrees: (string, string) -> bool)

  /** Size, offset, end and declaration of one entry. */
  predicate EntryChecks(e: Entry, end: nat, m: Model) {
    m.size(e.info) == Some(e.nbytes) && e.off % ALIGN == 0 && e.off + e.nbytes <= end && m.agrees(e.name, e.info)
  }

  /** Each entry has the size its shape and dtype say, and is what the model declares. */
  ghost predicate Declared(tensors: seq<Entry>, m: Model) {
    forall e :: e in tensors ==> m.size(e.info) == Some(e.nbytes) && m.agrees(e.name, e.info)
  }

  ghost predicate DistinctNames(tensors: seq<Entry>) {
    forall i, j :: 0 <= i < j < |tensors| ==> tensors[i].name != tensors[j].name
  }

  /** The names seen so far, and whether one came twice. */
  method NamesDiffer(tensors: seq<Entry>) returns (ok: bool)
    ensures ok <==> DistinctNames(tensors)
  {
    var seen: set<string> := {};
    for k := 0 to |tensors|
      invariant forall i :: 0 <= i < k ==> tensors[i].name in seen
      invariant forall n :: n in seen ==> exists i :: 0 <= i < k && tensors[i].name == n
      invariant DistinctNames(tensors[..k])
    {
      if tensors[k].name in seen {
        ghost var i :| 0 <= i < k && tensors[i].name == tensors[k].name;
        return false;
      }
      assert tensors[..k + 1] == tensors[..k] + [tensors[k]];
      seen := seen + {tensors[k].name};
    }
    assert tensors[..|tensors|] == tensors;
    ok := true;
  }

  /** The shards tile the region and are complete, the entries have different names, each is what the
      model declares, aligned and inside, and no two padded blocks overlap. */
  ghost predicate Passes(files: Files, ix: Index, m: Model) {
    && Tiles(SortShards(ix.shards), 0, ix.totalBytes) && Complete(files, SortShards(ix.shards))
    && DistinctNames(ix.tensors) && Declared(ix.tensors, m)
    && (forall e :: e in ix.tensors ==> EntryFits(e, ix.totalBytes)) && Disjoint(ix.tensors)
  }

  /** No finding exactly when all of that holds. */
  method Validate(files: Files, ix: Index, m: Model) returns (ok: bool)
    ensures ok <==> Passes(files, ix, m)
  {
    var shards := SortShards(ix.shards);
    ok := ShardsCheck(files, shards, 0, ix.totalBytes);
    ShardsCheckMeans(files, shards, 0, ix.totalBytes);
    var named := NamesDiffer(ix.tensors);
    var entries := EntriesCheck(ix, m);
    BlocksDisjoint(ix.tensors);
    ok := ok && named && entries && Consecutive(SortBlocks(BlocksOf(ix.tensors)));
  }

  method EntriesCheck(ix: Index, m: Model) returns (ok: bool)
    ensures ok <==> Declared(ix.tensors, m) && forall e :: e in ix.tensors ==> EntryFits(e, ix.totalBytes)
  {
    ok := true;
    for i := 0 to |ix.tensors|
      invariant ok <==> forall k :: 0 <= k < i ==> EntryChecks(ix.tensors[k], ix.totalBytes, m)
    {
      ok := ok && EntryChecks(ix.tensors[i], ix.totalBytes, m);
    }
    if !ok {
      ghost var k :| 0 <= k < |ix.tensors| && !EntryChecks(ix.tensors[k], ix.totalBytes, m);
      assert ix.tensors[k] in ix.tensors;
    }
  }

  /** What `Safe` asks for on top. */
  lemma ValidatedIsSafe(files: Files, ix: Index)
    requires Tiles(SortShards(ix.shards), 0, ix.totalBytes) && Complete(files, SortShards(ix.shards))
    requires (forall e :: e in ix.tensors ==> EntryFits(e, ix.totalBytes)) && Disjoint(ix.tensors)
    ensures Safe(files, ix) <==> AlignedShards(SortShards(ix.shards)) && DistinctFiles(SortShards(ix.shards))
  {
  }
}
