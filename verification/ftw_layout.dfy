/** How a byte stream is cut into shards, and where a sequence of tensors ends up in it: the
    reference both writers are proved against. */
module FtwLayout {
  import opened FtwFormat

  // ---- cutting, one byte at a time ----

  /** The shards finished so far and the one being filled; `start + cur` is the region offset. */
  datatype Cut = Cut(limit: nat, open: bool, shardIdx: int, start: nat, cur: nat, shards: seq<Shard>)

  ghost predicate Ready(c: Cut) {
    c.limit > 0 && c.cur <= c.limit && c.shardIdx >= -1 && (if c.open then c.shardIdx >= 0 else c.cur == 0)
  }

  /** The finished records and the one of the shard being filled. */
  ghost function AllRecords(c: Cut): seq<Shard>
    requires Ready(c)
  {
    if c.open then c.shards + [Shard(c.shardIdx, c.start, c.cur)] else c.shards
  }

  ghost function RollCut(c: Cut): (r: Cut)
    requires Ready(c)
    ensures Ready(r)
  {
    Cut(c.limit, true, c.shardIdx + 1, c.start + c.cur, 0, AllRecords(c))
  }

  ghost function Grow(c: Cut, n: nat): (r: Cut) {
    c.(cur := c.cur + n)
  }

  /** One more byte goes to the shard being filled, or to a new one when there is none or it is full. */
  ghost function PushByte(c: Cut): (r: Cut)
    requires Ready(c)
    ensures Ready(r)
  {
    if !c.open || c.cur == c.limit then Grow(RollCut(c), 1) else Grow(c, 1)
  }

  ghost function Push(c: Cut, n: nat): (r: Cut)
    requires Ready(c)
    ensures Ready(r)
  {
    if n == 0 then c else PushByte(Push(c, n - 1))
  }

  lemma {:induction false} PushTwice(c: Cut, a: nat, b: nat)
    requires Ready(c)
    ensures Push(Push(c, a), b) == Push(c, a + b)
    decreases b
  {
    if b > 0 { PushTwice(c, a, b - 1); }
  }

  /** Bytes that fit the open shard just make it longer. */
  lemma {:induction false} PushFits(c: Cut, n: nat)
    requires Ready(c) && c.open && c.cur + n <= c.limit
    ensures Push(c, n) == Grow(c, n)
    decreases n
  {
    if n > 0 { PushFits(c, n - 1); }
  }

  /** Starting a new shard by hand when there is none or it is full changes nothing. */
  lemma {:induction false} PushRolls(c: Cut, n: nat)
    requires Ready(c) && n > 0 && (!c.open || c.cur == c.limit)
    ensures Push(c, n) == Push(RollCut(c), n)
    decreases n
  {
    if n == 1 {
      assert Push(c, 0) == c && Push(RollCut(c), 0) == RollCut(c);
    } else {
      PushRolls(c, n - 1);
    }
  }

  /** More bytes never take fewer shards. */
  lemma {:induction false} PushNumbers(c: Cut, a: nat, b: nat)
    requires Ready(c) && a <= b
    ensures c.shardIdx <= Push(c, a).shardIdx <= Push(c, b).shardIdx
    decreases b
  {
    if a < b {
      PushNumbers(c, a, b - 1);
    } else if a > 0 {
      PushNumbers(c, a - 1, a - 1);
    }
  }

  /** Cuts that differ only in where they started to number and to count. */
  ghost predicate Alike(c: Cut, d: Cut, shift: int) {
    c.limit == d.limit && c.open == d.open && c.cur == d.cur && d.shardIdx == c.shardIdx + shift
  }

  lemma {:induction false} PushAlike(c: Cut, d: Cut, shift: nat, n: nat)
    requires Ready(c) && Ready(d) && Alike(c, d, shift)
    ensures Alike(Push(c, n), Push(d, n), shift)
    decreases n
  {
    if n > 0 { PushAlike(c, d, shift, n - 1); }
  }

  // ---- what holds of every cut ----

  lemma DifferenceAligned(a: nat, b: nat)
    requires a % ALIGN == 0 && (a + b) % ALIGN == 0
    ensures b % ALIGN == 0
  {
  }

  /** File numbers from `first` on, below `next`, none twice. */
  ghost predicate Numbered(shards: seq<Shard>, first: nat, next: int) {
    DistinctFiles(shards) && forall s :: s in shards ==> first <= s.file < next
  }

  /** The finished shards tile [base, start), in whole pages, within the limit, with distinct numbers
      from `first` on; the open one continues there. */
  ghost predicate Tidy(c: Cut, first: nat, base: nat) {
    && Ready(c) && c.limit % ALIGN == 0 && base % ALIGN == 0 && c.start % ALIGN == 0
    && Tiles(c.shards, base, c.start)
    && first <= (if c.open then c.shardIdx else c.shardIdx + 1)
    && (!c.open ==> c.shards == [])
    && Numbered(c.shards, first, c.shardIdx)
    && AlignedShards(c.shards)
    && (forall s :: s in c.shards ==> s.nbytes <= c.limit)
  }

  lemma NumberedSnoc(shards: seq<Shard>, last: Shard, first: nat)
    requires Numbered(shards, first, last.file) && first <= last.file
    ensures Numbered(shards + [last], first, last.file + 1)
  {
    var all := shards + [last];
    forall i, j | 0 <= i < j < |all| ensures all[i].file != all[j].file {
      assert all[i] in shards;
    }
  }

  lemma RollTidy(c: Cut, first: nat, base: nat)
    requires Tidy(c, first, base) && c.cur % ALIGN == 0
    ensures Tidy(RollCut(c), first, base)
  {
    if c.open {
      var last := Shard(c.shardIdx, c.start, c.cur);
      assert Tiles([last], c.start, c.start + c.cur) by { assert [last][1..] == []; }
      TilesSplit(c.shards, [last], base, c.start, c.start + c.cur);
      SumAligned(c.start, c.cur);
      NumberedSnoc(c.shards, last, first);
    }
  }

  lemma {:induction false} PushTidy(c: Cut, n: nat, first: nat, base: nat)
    requires Tidy(c, first, base)
    ensures Tidy(Push(c, n), first, base)
    decreases n
  {
    if n > 0 {
      PushTidy(c, n - 1, first, base);
      var p := Push(c, n - 1);
      if !p.open || p.cur == p.limit { RollTidy(p, first, base); }
    }
  }

  /** What a finished layout gives: its shards tile [base, end), in whole pages, within the limit,
      under distinct numbers from `first` on. */
  ghost predicate Laid(shards: seq<Shard>, limit: nat, first: nat, base: nat, end: nat) {
    && Tiles(shards, base, end)
    && AlignedShards(shards) && DistinctFiles(shards)
    && forall s :: s in shards ==> s.nbytes <= limit && first <= s.file
  }

  lemma TidyIsLaid(c: Cut, first: nat, base: nat)
    requires Tidy(c, first, base) && (c.start + c.cur) % ALIGN == 0
    ensures Laid(AllRecords(c), c.limit, first, base, c.start + c.cur)
    ensures forall s :: s in AllRecords(c) ==> s.file <= c.shardIdx
  {
    if c.open {
      DifferenceAligned(c.start, c.cur);
      RollTidy(c, first, base);
      assert RollCut(c).shards == AllRecords(c);
    }
  }

  // ---- padded tensors, one after the other ----

  function Zeros(n: nat): (r: Bytes)
    ensures |r| == n
  {
    seq(n, i => 0)
  }

  function PadOf(n: nat): nat { AlignUp(n) - n }

  /** A padded tensor: its bytes, then zeros up to the next ALIGN boundary. */
  function Padded(data: Bytes): (r: Bytes)
    ensures |r| == AlignUp(|data|)
  {
    data + Zeros(PadOf(|data|))
  }

  /** The bytes of the first `n` tensors, each padded. */
  ghost function RegionOf(items: seq<Tensor>, n: nat): Bytes
    requires n <= |items|
  {
    if n == 0 then [] else RegionOf(items, n - 1) + Padded(items[n - 1].data)
  }

  /** The region offset behind the first `n` tensors. */
  ghost function OffsetOf(items: seq<Tensor>, n: nat, base: nat): nat
    requires n <= |items|
  {
    if n == 0 then base else OffsetOf(items, n - 1, base) + AlignUp(|items[n - 1].data|)
  }

  ghost function EntryOf(items: seq<Tensor>, i: nat, base: nat): Entry
    requires i < |items|
  {
    Entry(items[i].name, items[i].info, OffsetOf(items, i, base), |items[i].data|)
  }

  ghost function EntriesOf(items: seq<Tensor>, n: nat, base: nat): seq<Entry>
    requires n <= |items|
  {
    seq(n, i requires 0 <= i < n => EntryOf(items, i, base))
  }

  // ---- entries ----

  lemma EntriesSnoc(items: seq<Tensor>, n: nat, base: nat)
    requires n < |items|
    ensures EntriesOf(items, n + 1, base) == EntriesOf(items, n, base) + [EntryOf(items, n, base)]
  {
  }

  /** The offsets count exactly the bytes laid out. */
  lemma {:induction false} OffsetIsLength(items: seq<Tensor>, n: nat, base: nat)
    requires n <= |items|
    ensures OffsetOf(items, n, base) == base + |RegionOf(items, n)|
    decreases n
  {
    if n > 0 { OffsetIsLength(items, n - 1, base); }
  }

  lemma {:induction false} OffsetAligned(items: seq<Tensor>, n: nat, base: nat)
    requires n <= |items| && base % ALIGN == 0
    ensures OffsetOf(items, n, base) % ALIGN == 0
    decreases n
  {
    if n > 0 {
      OffsetAligned(items, n - 1, base);
      SumAligned(OffsetOf(items, n - 1, base), AlignUp(|items[n - 1].data|));
    }
  }

  lemma {:induction false} OffsetGrows(items: seq<Tensor>, i: nat, j: nat, base: nat)
    requires i <= j <= |items|
    ensures base <= OffsetOf(items, i, base) <= OffsetOf(items, j, base)
    decreases j
  {
    if i < j {
      OffsetGrows(items, i, j - 1, base);
    } else if i > 0 {
      OffsetGrows(items, i - 1, i - 1, base);
    }
  }

  /** The entries of a run are aligned, fit, and own disjoint blocks. */
  lemma EntriesTidy(items: seq<Tensor>, base: nat)
    requires base % ALIGN == 0
    ensures forall e :: e in EntriesOf(items, |items|, base) ==> base <= e.off && EntryFits(e, OffsetOf(items, |items|, base))
    ensures Disjoint(EntriesOf(items, |items|, base))
  {
    var es := EntriesOf(items, |items|, base);
    forall i, j | 0 <= i < |es| && 0 <= j < |es| && i < j ensures es[i].BlockEnd() <= es[j].off {
      OffsetGrows(items, i + 1, j, base);
    }
    forall e | e in es ensures base <= e.off && EntryFits(e, OffsetOf(items, |items|, base)) {
      var i :| 0 <= i < |es| && es[i] == e;
      OffsetGrows(items, i, i + 1, base);
      OffsetGrows(items, i + 1, |items|, base);
      OffsetAligned(items, i, base);
    }
  }

  ghost predicate StartsWith(all: Bytes, front: Bytes) {
    |front| <= |all| && all[..|front|] == front
  }

  lemma StartsWithMore(all: Bytes, front: Bytes, tail: Bytes)
    requires StartsWith(all, front)
    ensures StartsWith(all + tail, front)
  {
    assert (all + tail)[..|front|] == all[..|front|];
  }

  /** The region always starts with what was laid out first, padding included. */
  lemma {:induction false} TensorInRegion(items: seq<Tensor>, n: nat, i: nat)
    requires i < n <= |items|
    ensures StartsWith(RegionOf(items, n), RegionOf(items, i) + Padded(items[i].data))
    decreases n
  {
    if i < n - 1 {
      TensorInRegion(items, n - 1, i);
      StartsWithMore(RegionOf(items, n - 1), RegionOf(items, i) + Padded(items[i].data), Padded(items[n - 1].data));
    } else {
      var all := RegionOf(items, n);
      assert all[..|all|] == all;
    }
  }

  /** Each entry's block lies inside the region and reads back exactly the bytes that were added. */
  lemma EntryReadsBack(items: seq<Tensor>, n: nat, base: nat, region: Bytes, i: nat)
    requires i < n <= |items|
    requires |region| >= base && region[base..] == RegionOf(items, n)
    ensures var e := EntryOf(items, i, base);
      && base <= e.off && e.off + e.nbytes <= e.BlockEnd() == OffsetOf(items, i + 1, base) <= |region|
      && Content(region, e) == items[i]
  {
    OffsetIsLength(items, i, base);
    TensorInRegion(items, n, i);
    SliceOfRegion(region, base, RegionOf(items, i), items[i].data, RegionOf(items, n));
  }

  lemma SliceOfRegion(region: Bytes, base: nat, before: Bytes, data: Bytes, all: Bytes)
    requires base <= |region| && region[base..] == all
    requires StartsWith(all, before + Padded(data))
    ensures base + |before| + AlignUp(|data|) <= |region|
    ensures region[base + |before|..base + |before| + |data|] == data
  {
    var off := base + |before|;
    forall d | 0 <= d < |data| ensures region[off + d] == data[d] {
      assert region[off + d] == all[|before| + d] == all[..|before + Padded(data)|][|before| + d];
      assert (before + Padded(data))[|before| + d] == data[d];
    }
    assert region[off..off + |data|] == data;
  }
}
