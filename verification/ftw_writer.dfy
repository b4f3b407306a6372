/** The two writers: `FTWWriter` of the converter and `ShardWriter` of the repair tool. Both are
    proved to cut the stream as the byte-at-a-time reference does, and to leave in the shard files
    exactly the padded tensors, one after the other. */
module FtwWriters {
  import opened FtwFormat
  import opened FtwDisk
  import opened FtwLayout

  // ---- where a run of tensors is cut ----

  /** A tensor of `n` bytes that fits a shard but not the room left starts a new one. */
  ghost function BeginCut(c: Cut, n: nat): (r: Cut)
    requires Ready(c)
    ensures Ready(r) && r.open
  {
    if !c.open || (n <= c.limit && c.cur + n > c.limit) then RollCut(c) else c
  }

  ghost function AddCut(c: Cut, n: nat): (r: Cut)
    requires Ready(c)
    ensures Ready(r)
  {
    Push(BeginCut(c, n), AlignUp(n))
  }

  /** The cut behind the first `n` tensors. */
  ghost function RunCut(items: seq<Tensor>, n: nat, c: Cut): (r: Cut)
    requires Ready(c) && n <= |items|
    ensures Ready(r)
  {
    if n == 0 then c else AddCut(RunCut(items, n - 1, c), |items[n - 1].data|)
  }

  /** Nothing written yet; the next shard is number `first` and starts at `base`. */
  ghost function FreshCut(limit: nat, first: nat, base: nat): Cut {
    Cut(limit, false, first - 1, base, 0, [])
  }

  /** How many shards the first `n` tensors of a run fill. */
  ghost function ShardsOf(items: seq<Tensor>, n: nat, limit: nat): nat
    requires n <= |items| && limit > 0
  {
    RunCut(items, n, FreshCut(limit, 0, 0)).shardIdx + 1
  }

  /** It is the same wherever the run starts. */
  lemma {:induction false} RunAlike(items: seq<Tensor>, n: nat, limit: nat, first: nat, base: nat)
    requires n <= |items| && limit > 0
    ensures Alike(RunCut(items, n, FreshCut(limit, 0, 0)), RunCut(items, n, FreshCut(limit, first, base)), first)
    decreases n
  {
    if n > 0 {
      RunAlike(items, n - 1, limit, first, base);
      var c, d := RunCut(items, n - 1, FreshCut(limit, 0, 0)), RunCut(items, n - 1, FreshCut(limit, first, base));
      var k := |items[n - 1].data|;
      PushAlike(BeginCut(c, k), BeginCut(d, k), first, AlignUp(k));
    }
  }

  /** Part of the next tensor takes no number that the run does not take. */
  lemma PartNumbers(items: seq<Tensor>, n: nat, part: nat, c: Cut)
    requires Ready(c) && n < |items| && part <= AlignUp(|items[n].data|)
    ensures var k := |items[n].data|;
      Push(BeginCut(RunCut(items, n, c), k), part).shardIdx <= RunCut(items, n + 1, c).shardIdx
  {
    PushNumbers(BeginCut(RunCut(items, n, c), |items[n].data|), part, AlignUp(|items[n].data|));
  }

  lemma {:induction false} RunNumbers(items: seq<Tensor>, i: nat, j: nat, c: Cut)
    requires Ready(c) && i <= j <= |items|
    ensures RunCut(items, i, c).shardIdx <= RunCut(items, j, c).shardIdx
    decreases j
  {
    if i < j {
      RunNumbers(items, i, j - 1, c);
      PushNumbers(BeginCut(RunCut(items, j - 1, c), |items[j - 1].data|), 0, AlignUp(|items[j - 1].data|));
    }
  }

  ghost function Concat(chunks: seq<Bytes>, n: nat): Bytes
    requires n <= |chunks|
  {
    if n == 0 then [] else Concat(chunks, n - 1) + chunks[n - 1]
  }

  lemma ConcatOne(data: Bytes)
    ensures Concat([data], |[data]|) == data
  {
    assert Concat([data], 0) == [];
  }

  // ---- the loop cuts as the reference does ----

  /** How much one turn of the write loop takes. */
  function Take(room: nat, left: nat): (n: nat)
    ensures n <= left && n <= room && (n == left || n == room)
  {
    if left < room then left else room
  }

  /** The chunk of one turn of the write loop is the reference's byte after byte. */
  lemma ChunkIsPush(c: Cut, v: Cut, n: nat)
    requires Ready(c) && v == (if !c.open || c.cur == c.limit then RollCut(c) else c)
    requires n > 0 && v.cur + n <= c.limit
    ensures Grow(v, n) == Push(c, n)
  {
    if v != c { PushRolls(c, n); }
    PushFits(v, n);
  }

  lemma {:induction false} PushEnd(c: Cut, n: nat)
    requires Ready(c)
    ensures Push(c, n).start + Push(c, n).cur == c.start + c.cur + n && Push(c, n).limit == c.limit
    ensures c.open ==> Push(c, n).open
    decreases n
  {
    if n > 0 { PushEnd(c, n - 1); }
  }

  /** A tensor that fits a shard never straddles two: the write only makes the shard it starts in
      longer, padding included. */
  lemma SmallTensorStaysWhole(c: Cut, n: nat, first: nat, base: nat)
    requires Tidy(c, first, base) && (c.start + c.cur) % ALIGN == 0 && n <= c.limit
    ensures var v := BeginCut(c, n);
      && AddCut(c, n) == Grow(v, AlignUp(n))
      && v.start <= c.start + c.cur && c.start + c.cur + AlignUp(n) <= v.start + c.limit
  {
    var v := BeginCut(c, n);
    DifferenceAligned(c.start, c.cur);
    assert v.cur % ALIGN == 0;
    AlignUpShift(v.cur, n);
    AlignUpLeast(v.cur + n, v.limit);
    PushFits(v, AlignUp(n));
  }

  // ---- the bytes on disk ----

  /** Outside the numbers [first, next) the files are those of `f`. */
  ghost predicate Around(f: Files, g: Files, first: nat, next: int) {
    forall k :: !(first <= k < next) ==> (k in g <==> k in f) && (k in f ==> g[k] == f[k])
  }

  /** The shards, read in order, hold exactly `data`. */
  ghost predicate Holds(files: Files, shards: seq<Shard>, data: Bytes) {
    Complete(files, shards) && Region(files, shards) == data
  }

  lemma HoldsFrame(f: Files, g: Files, shards: seq<Shard>, data: Bytes)
    requires Holds(f, shards, data)
    requires forall x :: x in shards ==> x.file in g && g[x.file] == f[x.file]
    ensures Holds(g, shards, data)
  {
    forall i | 0 <= i < |shards| ensures f[shards[i].file] == g[shards[i].file] { assert shards[i] in shards; }
    RegionFrame(f, g, shards, shards);
  }

  /** One more record at the end, whose file holds `tail`. */
  lemma HoldsSnoc(files: Files, shards: seq<Shard>, data: Bytes, s: Shard, tail: Bytes)
    requires Holds(files, shards, data)
    requires s.file in files && files[s.file] == tail && |tail| == s.nbytes
    ensures Holds(files, shards + [s], data + tail)
  {
    assert [s][1..] == [];
    assert Region(files, [s]) == tail + [];
    RegionSplit(files, shards, [s]);
  }

  /** Files that hold the same data in the same shards are the same files. */
  lemma HoldsDecides(f: Files, g: Files, shards: seq<Shard>, data: Bytes, total: nat)
    requires Holds(f, shards, data) && Holds(g, shards, data) && Tiles(shards, 0, total)
    ensures forall s :: s in shards ==> f[s.file] == g[s.file]
  {
    forall s | s in shards ensures f[s.file] == g[s.file] {
      var k :| 0 <= k < |shards| && shards[k] == s;
      RegionAtShard(f, shards, k, total);
      RegionAtShard(g, shards, k, total);
    }
  }

  /** Where a run starts: its first shard number, its region offset, and the files that were there. */
  datatype Origin = Origin(first: nat, base: nat, files: Files)

  /** What the bytes on disk depend on: the open shard's number is above all finished ones. */
  ghost predicate Placed(c: Cut, first: nat) {
    && Ready(c) && first - 1 <= c.shardIdx && (c.open ==> first <= c.shardIdx)
    && (!c.open ==> c.shards == [])
    && forall s :: s in c.shards ==> first <= s.file < c.shardIdx
  }

  // ---- a writer's history ----

  /** What a writer did: it started shards and wrote chunks. */
  datatype Log = Start | Roll(prev: Log) | Put(prev: Log, chunk: Bytes)

  datatype State = State(cut: Cut, files: Files, data: Bytes)

  /** A roll is due at a page boundary only. */
  ghost predicate MayRoll(c: Cut) { Ready(c) && c.cur % ALIGN == 0 }

  ghost predicate MayPut(c: Cut, files: Files, n: nat) {
    Ready(c) && c.open && c.cur + n <= c.limit && c.shardIdx in files
  }

  /** Where a history leads; a step that is not due changes nothing. */
  ghost function After(o: Origin, limit: nat, log: Log): State {
    match log
    case Start => State(FreshCut(limit, o.first, o.base), o.files, [])
    case Roll(prev) => Rolled(After(o, limit, prev))
    case Put(prev, chunk) => Grown(After(o, limit, prev), chunk)
  }

  ghost function Rolled(s: State): State {
    if MayRoll(s.cut) then State(RollCut(s.cut), s.files[s.cut.shardIdx + 1 := []], s.data) else s
  }

  ghost function Grown(s: State, chunk: Bytes): State {
    if MayPut(s.cut, s.files, |chunk|) then
      State(Grow(s.cut, |chunk|), s.files[s.cut.shardIdx := s.files[s.cut.shardIdx] + chunk], s.data + chunk)
    else s
  }

  /** The data falls into what the finished shards hold and what the open one holds. */
  ghost predicate Stored(s: State, front: Bytes, tail: Bytes) {
    && s.data == front + tail
    && Holds(s.files, s.cut.shards, front)
    && (if s.cut.open then s.cut.shardIdx >= 0 && s.cut.shardIdx in s.files && s.files[s.cut.shardIdx] == tail && |tail| == s.cut.cur
        else front == [] && tail == [])
  }

  lemma RollStored(s: State, first: nat, front: Bytes, tail: Bytes)
    requires Placed(s.cut, first) && Stored(s, front, tail) && MayRoll(s.cut)
    ensures Stored(Rolled(s), front + tail, [])
  {
    var c, g := s.cut, s.files[s.cut.shardIdx + 1 := []];
    HoldsFrame(s.files, g, c.shards, front);
    if c.open {
      HoldsSnoc(g, c.shards, front, Shard(c.shardIdx, c.start, c.cur), tail);
    } else {
      assert front + tail == front;
    }
    assert s.data == front + tail + [];
  }

  lemma PutStored(s: State, first: nat, front: Bytes, tail: Bytes, chunk: Bytes)
    requires Placed(s.cut, first) && Stored(s, front, tail) && MayPut(s.cut, s.files, |chunk|)
    ensures Stored(Grown(s, chunk), front, tail + chunk)
  {
    HoldsFrame(s.files, s.files[s.cut.shardIdx := s.files[s.cut.shardIdx] + chunk], s.cut.shards, front);
    assert s.data + chunk == front + (tail + chunk);
  }

  /** Whatever a writer did, its shards tile what it covered. */
  lemma {:induction false} AfterTidy(o: Origin, limit: nat, log: Log)
    requires limit > 0 && limit % ALIGN == 0 && o.base % ALIGN == 0
    ensures Tidy(After(o, limit, log).cut, o.first, o.base)
    decreases log
  {
    match log
    case Start =>
    case Roll(prev) =>
      AfterTidy(o, limit, prev);
      var c := After(o, limit, prev).cut;
      if MayRoll(c) { RollTidy(c, o.first, o.base); }
    case Put(prev, chunk) =>
      AfterTidy(o, limit, prev);
  }

  lemma AfterPlaced(o: Origin, limit: nat, log: Log)
    requires limit > 0 && limit % ALIGN == 0 && o.base % ALIGN == 0
    ensures Placed(After(o, limit, log).cut, o.first)
  {
    AfterTidy(o, limit, log);
  }

  /** Whatever a writer did, its shards hold exactly what it wrote. */
  lemma {:induction false} AfterStored(o: Origin, limit: nat, log: Log) returns (front: Bytes, tail: Bytes)
    requires limit > 0 && limit % ALIGN == 0 && o.base % ALIGN == 0
    ensures Stored(After(o, limit, log), front, tail)
    decreases log
  {
    match log
    case Start => front, tail := [], [];
    case Roll(prev) =>
      front, tail := AfterStored(o, limit, prev);
      AfterPlaced(o, limit, prev);
      var s := After(o, limit, prev);
      if MayRoll(s.cut) {
        RollStored(s, o.first, front, tail);
        front, tail := front + tail, [];
      }
    case Put(prev, chunk) =>
      front, tail := AfterStored(o, limit, prev);
      AfterPlaced(o, limit, prev);
      var s := After(o, limit, prev);
      if MayPut(s.cut, s.files, |chunk|) {
        PutStored(s, o.first, front, tail, chunk);
        tail := tail + chunk;
      }
  }

  /** Whatever a writer did, it touched no file of another number. */
  lemma {:induction false} AfterAround(o: Origin, limit: nat, log: Log)
    requires limit > 0 && limit % ALIGN == 0 && o.base % ALIGN == 0
    ensures var s := After(o, limit, log); Around(o.files, s.files, o.first, s.cut.shardIdx + 1)
    decreases log
  {
    match log
    case Start =>
    case Roll(prev) =>
      AfterAround(o, limit, prev);
      AfterPlaced(o, limit, prev);
    case Put(prev, chunk) =>
      AfterAround(o, limit, prev);
      AfterPlaced(o, limit, prev);
  }

  /** Whatever a writer did, the disk holds at most what it wrote on top of what was there. */
  lemma {:induction false} AfterUsage(o: Origin, limit: nat, log: Log)
    ensures var s := After(o, limit, log); Usage(s.files) <= Usage(o.files) + |s.data|
    decreases log
  {
    match log
    case Start =>
    case Roll(prev) =>
      AfterUsage(o, limit, prev);
      var s := After(o, limit, prev);
      if MayRoll(s.cut) {
        UsageUpdate(s.files, s.cut.shardIdx + 1, []);
        UsageWithout(s.files, s.cut.shardIdx + 1);
      }
    case Put(prev, chunk) =>
      AfterUsage(o, limit, prev);
      var s := After(o, limit, prev);
      if MayPut(s.cut, s.files, |chunk|) {
        UsageUpdate(s.files, s.cut.shardIdx, s.files[s.cut.shardIdx] + chunk);
        UsageSplit(s.files, s.cut.shardIdx);
      }
  }

  /** The part of it that the writers rely on. */
  lemma AfterAligned(o: Origin, limit: nat, log: Log)
    requires limit > 0 && limit % ALIGN == 0 && o.base % ALIGN == 0
    ensures var s := After(o, limit, log);
      && Ready(s.cut) && s.cut.start % ALIGN == 0
      && (s.cut.open ==> s.cut.shardIdx in s.files)
      && s.cut.shardIdx >= o.first - 1 && Around(o.files, s.files, o.first, s.cut.shardIdx + 1)
  {
    AfterTidy(o, limit, log);
    AfterAround(o, limit, log);
    var front, tail := AfterStored(o, limit, log);
  }

  /** Every file a writer created has its record. */
  lemma {:induction false} AfterNamed(o: Origin, limit: nat, log: Log)
    requires limit > 0 && limit % ALIGN == 0 && o.base % ALIGN == 0
    ensures AllNamed(After(o, limit, log).cut, o.first)
    decreases log
  {
    match log
    case Start =>
    case Roll(prev) =>
      AfterNamed(o, limit, prev);
      AfterPlaced(o, limit, prev);
      var c := After(o, limit, prev).cut;
      if MayRoll(c) && c.open {
        forall k: nat | o.first <= k < c.shardIdx + 1 ensures Names(AllRecords(c), k) {
          RecordNames(c, k);
        }
      }
    case Put(prev, chunk) =>
      AfterNamed(o, limit, prev);
  }

  /** The finished shards carry all numbers from `first` up to the open one's. */
  ghost predicate AllNamed(c: Cut, first: nat) {
    (!c.open ==> c.shardIdx < first) && forall k: nat :: first <= k < c.shardIdx ==> Names(c.shards, k)
  }

  lemma RecordNames(c: Cut, k: nat)
    requires Ready(c) && c.open && (k == c.shardIdx || Names(c.shards, k))
    ensures Names(AllRecords(c), k)
  {
    var last := Shard(c.shardIdx, c.start, c.cur);
    assert last in AllRecords(c);
    if k != c.shardIdx {
      var s :| s in c.shards && s.file == k;
      assert s in AllRecords(c);
    }
  }

  lemma NextSlice(before: Bytes, data: Bytes, off: nat, take: nat)
    requires off + take <= |data|
    ensures before + data[..off] + data[off..off + take] == before + data[..off + take]
  {
  }

  lemma NextChunk(before: Bytes, chunks: seq<Bytes>, k: nat)
    requires k < |chunks|
    ensures before + Concat(chunks, k) + chunks[k] == before + Concat(chunks, k + 1)
    ensures |Concat(chunks, k + 1)| == |Concat(chunks, k)| + |chunks[k]|
  {
  }

  // ---- FTWWriter ----

  class FTWWriter {
    const dir: FtwDir
    const shardLimit: nat
    var tensors: seq<Entry>
    var shards: seq<Shard>
    var globalOff: nat   // running offset, padding included
    var open: bool       // a current shard file exists
    var shardIdx: int
    var shardStart: nat  // where the current shard began
    var cur: nat         // bytes written to it
    ghost const origin: Origin
    ghost var cut: Cut        // the fields above as the reference sees them
    ghost var stored: Bytes   // everything written so far
    ghost var log: Log

    ghost predicate Fields()
      reads this
    {
      && cut == Cut(shardLimit, open, shardIdx, if open then shardStart else globalOff, if open then cur else 0, shards)
      && globalOff == cut.start + cut.cur
      && shardLimit > 0 && shardLimit % ALIGN == 0 && origin.base % ALIGN == 0
    }

    ghost predicate Ok()
      reads this, dir
    {
      Fields() && Ready(cut) && After(origin, shardLimit, log) == State(cut, dir.files, stored)
    }

    constructor (dir: FtwDir, shardLimit: nat)
      requires shardLimit > 0 && shardLimit % ALIGN == 0
      ensures this.dir == dir && this.shardLimit == shardLimit
      ensures Ok() && cut == FreshCut(shardLimit, 0, 0) && origin == Origin(0, 0, dir.files)
      ensures tensors == [] && stored == [] && globalOff == 0
    {
      this.dir, this.shardLimit := dir, shardLimit;
      tensors, shards, globalOff, open := [], [], 0, false;
      shardIdx, shardStart, cur := -1, 0, 0;
      origin, cut, log := Origin(0, 0, dir.files), FreshCut(shardLimit, 0, 0), Start;
      stored := [];
    }

    method Roll()
      requires Ok() && cut.cur % ALIGN == 0
      modifies this, dir
      ensures Ok() && cut == RollCut(old(cut)) && globalOff == old(globalOff)
      ensures stored == old(stored) && tensors == old(tensors) && dir.index == old(dir.index)
    {
      if open {
        shards := shards + [Shard(shardIdx, shardStart, cur)];
      }
      shardIdx := shardIdx + 1;
      shardStart, cur, open := globalOff, 0, true;
      dir.Create(shardIdx);
      cut, log := RollCut(cut), Log.Roll(log);
    }

    /** One turn of the write loop. */
    method WriteSome(data: Bytes, off: nat) returns (take: nat)
      requires Ok() && open && off < |data|
      modifies this, dir
      ensures Ok() && open && 0 < take <= |data| - off && cut == Push(old(cut), take)
      ensures stored == old(stored) + data[off..off + take] && globalOff == old(globalOff) + take
      ensures tensors == old(tensors) && dir.index == old(dir.index)
    {
      if cur == shardLimit { Roll(); }
      take := Take(shardLimit - cur, |data| - off);
      ChunkIsPush(old(cut), cut, take);
      AfterAligned(origin, shardLimit, log);
      dir.Append(shardIdx, data[off..off + take]);
      cur, globalOff := cur + take, globalOff + take;
      ghost var chunk := data[off..off + take];
      cut, stored, log := Grow(cut, take), stored + chunk, Log.Put(log, chunk);
    }

    method WriteRaw(data: Bytes)
      requires Ok() && open
      modifies this, dir
      ensures Ok() && open && cut == Push(old(cut), |data|)
      ensures stored == old(stored) + data && globalOff == old(globalOff) + |data|
      ensures tensors == old(tensors) && dir.index == old(dir.index)
    {
      var off := 0;
      while off < |data|
        invariant 0 <= off <= |data| && Ok() && open && cut == Push(old(cut), off)
        invariant stored == old(stored) + data[..off] && globalOff == old(globalOff) + off
        invariant tensors == old(tensors) && dir.index == old(dir.index)
      {
        var take := WriteSome(data, off);
        PushTwice(old(cut), off, take);
        NextSlice(old(stored), data, off, take);
        off := off + take;
      }
      assert data[..off] == data;
    }

    method Begin(n: nat)
      requires Ok() && globalOff % ALIGN == 0
      modifies this, dir
      ensures Ok() && open && cut == BeginCut(old(cut), n) && globalOff == old(globalOff)
      ensures stored == old(stored) && tensors == old(tensors) && dir.index == old(dir.index)
    {
      assert cut.start % ALIGN == 0 by { AfterAligned(origin, shardLimit, log); }
      DifferenceAligned(cut.start, cut.cur);
      if !open || (n <= shardLimit && cur + n > shardLimit) { Roll(); }
    }

    /** Zeros up to the next boundary behind the `n` bytes that begin at `start`. */
    method Pad(start: nat, n: nat)
      requires Ok() && open && globalOff == start + n && start % ALIGN == 0
      modifies this, dir
      ensures Ok() && cut == Push(old(cut), PadOf(n)) && stored == old(stored) + Zeros(PadOf(n))
      ensures globalOff == start + AlignUp(n)
      ensures tensors == old(tensors) && dir.index == old(dir.index)
    {
      AlignUpShift(start, n);
      var pad := AlignUp(globalOff) - globalOff;
      if pad > 0 { WriteRaw(Zeros(pad)); }
    }

    /** One tensor: rolled early when it fits a shard but not the room left, then its bytes, then
        zeros up to the next boundary. */
    method AddTensor(name: string, info: string, data: Bytes)
      requires Ok() && globalOff % ALIGN == 0
      modifies this, dir
      ensures Ok() && cut == AddCut(old(cut), |data|)
      ensures stored == old(stored) + Padded(data)
      ensures globalOff == old(globalOff) + AlignUp(|data|)
      ensures tensors == old(tensors) + [Entry(name, info, old(globalOff), |data|)]
      ensures dir.index == old(dir.index)
    {
      Begin(|data|);
      ghost var begun := cut;
      var start := globalOff;
      WriteRaw(data);
      tensors := tensors + [Entry(name, info, start, |data|)];
      Pad(start, |data|);
      PushTwice(begun, |data|, PadOf(|data|));
      assert old(stored) + data + Zeros(PadOf(|data|)) == old(stored) + Padded(data);
    }

    /** Every tensor of a run, in order. */
    method AddAll(items: seq<Tensor>)
      requires Ok() && cut == FreshCut(shardLimit, 0, 0) && tensors == [] && stored == []
      modifies this, dir
      ensures Ok() && cut == RunCut(items, |items|, old(cut)) && stored == RegionOf(items, |items|)
      ensures tensors == EntriesOf(items, |items|, 0) && globalOff == OffsetOf(items, |items|, 0)
      ensures dir.index == old(dir.index)
    {
      for k := 0 to |items|
        invariant Ok() && cut == RunCut(items, k, old(cut)) && stored == RegionOf(items, k)
        invariant tensors == EntriesOf(items, k, 0) && globalOff == OffsetOf(items, k, 0)
        invariant dir.index == old(dir.index)
      {
        OffsetAligned(items, k, 0);
        AddTensor(items[k].name, items[k].info, items[k].data);
        EntriesSnoc(items, k, 0);
      }
    }

    /** What the shards hold, and how they tile. */
    lemma Gives()
      requires Ok() && globalOff % ALIGN == 0
      ensures Laid(AllRecords(cut), shardLimit, origin.first, origin.base, globalOff)
      ensures Holds(dir.files, AllRecords(cut), stored)
      ensures forall s :: s in AllRecords(cut) ==> s.file <= shardIdx
    {
      AfterGives(State(cut, dir.files, stored), origin, shardLimit, log);
    }

    /** Closes the last shard and swaps the index in. */
    method Finalize() returns (ix: Index)
      requires Ok()
      modifies this, dir
      ensures ix == Index(old(tensors), AllRecords(old(cut)), old(globalOff))
      ensures dir.index == ix && dir.files == old(dir.files)
    {
      if open {
        shards := shards + [Shard(shardIdx, shardStart, cur)];
        open := false;
      }
      ix := Index(tensors, shards, globalOff);
      dir.ReplaceIndex(ix);
    }
  }

  // ---- ShardWriter ----

  /** What a writer may add: at most `bytes` to the disk, and files numbered from `first` up to `next`. */
  datatype Room = Room(first: nat, next: int, bytes: nat)

  /** A state that differs from `d` only in new files within that room. */
  ghost predicate Beside(d: Disk, room: Room, snap: Disk) {
    && snap.index == d.index
    && Around(d.files, snap.files, room.first, room.next)
    && Usage(snap.files) <= Usage(d.files) + room.bytes
  }

  /** Every state since `t0` is beside `d`. */
  ghost predicate BesideTrace(t0: seq<Disk>, d: Disk, room: Room, t1: seq<Disk>) {
    && |t0| <= |t1| && t1[..|t0|] == t0
    && forall i :: |t0| <= i < |t1| ==> Beside(d, room, t1[i])
  }

  lemma BesideMore(d: Disk, small: Room, room: Room, snap: Disk)
    requires Beside(d, small, snap) && small.first == room.first && small.next <= room.next && small.bytes <= room.bytes
    ensures Beside(d, room, snap)
  {
  }

  /** One more state, which may need more room. */
  lemma BesideSnoc(t0: seq<Disk>, d: Disk, small: Room, t1: seq<Disk>, room: Room, snap: Disk)
    requires BesideTrace(t0, d, small, t1) && Beside(d, room, snap)
    requires small.first == room.first && small.next <= room.next && small.bytes <= room.bytes
    ensures BesideTrace(t0, d, room, t1 + [snap])
  {
    var t2 := t1 + [snap];
    assert t2[..|t0|] == t1[..|t0|];
    forall i | |t0| <= i < |t2| ensures Beside(d, room, t2[i]) {
      if i < |t1| {
        assert Beside(d, small, t1[i]);
        BesideMore(d, small, room, t1[i]);
      }
    }
  }

  lemma BesideTraceMore(t0: seq<Disk>, d: Disk, small: Room, t1: seq<Disk>, room: Room)
    requires BesideTrace(t0, d, small, t1)
    requires small.first == room.first && small.next <= room.next && small.bytes <= room.bytes
    ensures BesideTrace(t0, d, room, t1)
  {
    forall i | |t0| <= i < |t1| ensures Beside(d, room, t1[i]) {
      assert Beside(d, small, t1[i]);
      BesideMore(d, small, room, t1[i]);
    }
  }

  class ShardWriter {
    const dir: FtwDir
    const shardLimit: nat
    const firstShard: nat
    var globalOff: nat
    var shardIdx: int
    var open: bool
    var start: nat
    var cur: nat
    var shards: seq<Shard>
    var entries: seq<Entry>
    ghost const origin: Origin
    ghost const before: Disk        // the directory and its history when this writer was made
    ghost const history: seq<Disk>
    ghost var cut: Cut
    ghost var stored: Bytes
    ghost var log: Log

    ghost predicate Fields()
      reads this
    {
      && cut == Cut(shardLimit, open, shardIdx, if open then start else globalOff, if open then cur else 0, shards)
      && globalOff == cut.start + cut.cur && origin.first == firstShard && origin.files == before.files
      && shardLimit > 0 && shardLimit % ALIGN == 0 && origin.base % ALIGN == 0
    }

    ghost function Used(): Room
      reads this
    {
      Room(firstShard, shardIdx + 1, |stored|)
    }

    /** The index is untouched, and no state since the start changed a file below `firstShard` or held
        more than what has been written by now. */
    ghost predicate Aside()
      reads this, dir
    {
      BesideTrace(history, before, Used(), dir.trace) && dir.index == before.index
    }

    ghost predicate Ok()
      reads this, dir
    {
      Fields() && Ready(cut) && After(origin, shardLimit, log) == State(cut, dir.files, stored) && Aside()
    }

    constructor (dir: FtwDir, shardLimit: nat, firstShard: nat, globalOff: nat)
      requires shardLimit > 0 && shardLimit % ALIGN == 0 && globalOff % ALIGN == 0
      ensures this.dir == dir && this.shardLimit == shardLimit && this.firstShard == firstShard
      ensures Ok() && cut == FreshCut(shardLimit, firstShard, globalOff) && origin == Origin(firstShard, globalOff, dir.files)
      ensures this.globalOff == globalOff && entries == [] && stored == []
      ensures before == dir.State() && history == dir.trace
    {
      this.dir, this.shardLimit, this.firstShard := dir, shardLimit, firstShard;
      this.globalOff := globalOff;
      shardIdx, open, start, cur := firstShard - 1, false, 0, 0;
      shards, entries := [], [];
      origin, cut, log := Origin(firstShard, globalOff, dir.files), FreshCut(shardLimit, firstShard, globalOff), Start;
      stored := [];
      before, history := dir.State(), dir.trace;
    }

    /** A reached state differs from the start only in the files from `firstShard` on. */
    lemma Reached()
      requires Fields() && After(origin, shardLimit, log) == State(cut, dir.files, stored) && dir.index == before.index
      ensures Beside(before, Used(), dir.State())
      ensures Around(before.files, dir.files, firstShard, shardIdx + 1) && shardIdx >= firstShard - 1
    {
      AfterAligned(origin, shardLimit, log);
      AfterUsage(origin, shardLimit, log);
    }

    method Roll()
      requires Ok() && cut.cur % ALIGN == 0
      modifies this, dir
      ensures Ok() && cut == RollCut(old(cut)) && globalOff == old(globalOff)
      ensures stored == old(stored) && entries == old(entries)
    {
      if open {
        shards := shards + [Shard(shardIdx, start, cur)];
      }
      shardIdx := shardIdx + 1;
      start, cur, open := globalOff, 0, true;
      ghost var trace := dir.trace;
      dir.Create(shardIdx);
      cut, log := RollCut(cut), Log.Roll(log);
      assert Beside(before, Used(), dir.State()) by { Reached(); }
      BesideSnoc(history, before, old(Used()), trace, Used(), dir.State());
    }

    /** One turn of the write loop. */
    method WriteSome(data: Bytes, off: nat) returns (take: nat)
      requires Ok() && off < |data|
      modifies this, dir
      ensures Ok() && 0 < take <= |data| - off && cut == Push(old(cut), take)
      ensures stored == old(stored) + data[off..off + take] && globalOff == old(globalOff) + take
      ensures entries == old(entries) && (old(open) ==> open)
    {
      if !open || cur == shardLimit { Roll(); }
      take := Take(shardLimit - cur, |data| - off);
      ChunkIsPush(old(cut), cut, take);
      Put(data[off..off + take]);
    }

    /** The write itself, to a shard with room. */
    method Put(chunk: Bytes)
      requires Ok() && open && cur + |chunk| <= shardLimit
      modifies this, dir
      ensures Ok() && open && cut == Grow(old(cut), |chunk|)
      ensures stored == old(stored) + chunk && globalOff == old(globalOff) + |chunk|
      ensures entries == old(entries)
    {
      assert shardIdx in dir.files by { AfterAligned(origin, shardLimit, log); }
      ghost var trace := dir.trace;
      dir.Append(shardIdx, chunk);
      cur, globalOff := cur + |chunk|, globalOff + |chunk|;
      cut, stored, log := Grow(cut, |chunk|), stored + chunk, Log.Put(log, chunk);
      assert Beside(before, Used(), dir.State()) by { Reached(); }
      BesideSnoc(history, before, old(Used()), trace, Used(), dir.State());
    }

    method Write(data: Bytes)
      requires Ok()
      modifies this, dir
      ensures Ok() && cut == Push(old(cut), |data|) && (old(open) ==> open)
      ensures stored == old(stored) + data && globalOff == old(globalOff) + |data|
      ensures entries == old(entries)
    {
      var off := 0;
      while off < |data|
        invariant 0 <= off <= |data| && Ok() && cut == Push(old(cut), off) && (old(open) ==> open)
        invariant stored == old(stored) + data[..off] && globalOff == old(globalOff) + off
        invariant entries == old(entries)
      {
        var take := WriteSome(data, off);
        PushTwice(old(cut), off, take);
        NextSlice(old(stored), data, off, take);
        off := off + take;
      }
      assert data[..off] == data;
    }

    method WriteChunks(chunks: seq<Bytes>) returns (written: nat)
      requires Ok() && open
      modifies this, dir
      ensures Ok() && open && written == |Concat(chunks, |chunks|)| && cut == Push(old(cut), written)
      ensures stored == old(stored) + Concat(chunks, |chunks|) && globalOff == old(globalOff) + written
      ensures entries == old(entries)
    {
      written := 0;
      for k := 0 to |chunks|
        invariant Ok() && open && written == |Concat(chunks, k)| && cut == Push(old(cut), written)
        invariant stored == old(stored) + Concat(chunks, k) && globalOff == old(globalOff) + written
        invariant entries == old(entries)
      {
        Write(chunks[k]);
        PushTwice(old(cut), written, |chunks[k]|);
        NextChunk(old(stored), chunks, k);
        written := written + |chunks[k]|;
      }
    }

    method Begin(n: nat)
      requires Ok() && globalOff % ALIGN == 0
      modifies this, dir
      ensures Ok() && open && cut == BeginCut(old(cut), n) && globalOff == old(globalOff)
      ensures stored == old(stored) && entries == old(entries)
    {
      assert cut.start % ALIGN == 0 by { AfterAligned(origin, shardLimit, log); }
      DifferenceAligned(cut.start, cut.cur);
      if !open || (n <= shardLimit && cur + n > shardLimit) { Roll(); }
    }

    /** Zeros up to the next boundary behind the `n` bytes that begin at `from`. */
    method Pad(from: nat, n: nat)
      requires Ok() && open && globalOff == from + n && from % ALIGN == 0
      modifies this, dir
      ensures Ok() && cut == Push(old(cut), PadOf(n)) && stored == old(stored) + Zeros(PadOf(n))
      ensures globalOff == from + AlignUp(n) && entries == old(entries)
    {
      AlignUpShift(from, n);
      var pad := AlignUp(globalOff) - globalOff;
      if pad > 0 { Write(Zeros(pad)); }
    }

    /** One entry whose bytes arrive in chunks; false when they do not add up to `nbytes`. */
    method Add(name: string, info: string, nbytes: nat, chunks: seq<Bytes>) returns (ok: bool)
      requires Ok() && globalOff % ALIGN == 0
      modifies this, dir
      ensures Ok() && (ok <==> |Concat(chunks, |chunks|)| == nbytes)
      ensures !ok ==> stored == old(stored) + Concat(chunks, |chunks|)
      ensures !ok ==> cut == Push(BeginCut(old(cut), nbytes), |Concat(chunks, |chunks|)|)
      ensures ok ==> cut == AddCut(old(cut), nbytes) && stored == old(stored) + Padded(Concat(chunks, |chunks|))
      ensures ok ==> globalOff == old(globalOff) + AlignUp(nbytes)
      ensures ok ==> entries == old(entries) + [Entry(name, info, old(globalOff), nbytes)]
    {
      Begin(nbytes);
      ghost var begun := cut;
      var from := globalOff;
      entries := entries + [Entry(name, info, globalOff, nbytes)];
      var written := WriteChunks(chunks);
      if written != nbytes { return false; }
      PadEntry(from, nbytes, begun, old(stored), Concat(chunks, |chunks|));
      ok := true;
    }

    /** Pads the entry just written. */
    method PadEntry(from: nat, n: nat, ghost begun: Cut, ghost front: Bytes, ghost data: Bytes)
      requires Ok() && open && globalOff == from + n && from % ALIGN == 0 && Ready(begun)
      requires cut == Push(begun, n) && stored == front + data && |data| == n
      modifies this, dir
      ensures Ok() && cut == Push(begun, AlignUp(n)) && stored == front + Padded(data)
      ensures globalOff == from + AlignUp(n) && entries == old(entries)
    {
      Pad(from, n);
      PushTwice(begun, n, PadOf(n));
      assert front + data + Zeros(PadOf(n)) == front + Padded(data);
    }

    /** One tensor, in a single chunk. */
    method AddTensor(t: Tensor)
      requires Ok() && globalOff % ALIGN == 0
      modifies this, dir
      ensures Ok() && cut == AddCut(old(cut), |t.data|) && stored == old(stored) + Padded(t.data)
      ensures globalOff == old(globalOff) + AlignUp(|t.data|)
      ensures entries == old(entries) + [Entry(t.name, t.info, old(globalOff), |t.data|)]
    {
      ConcatOne(t.data);
      var ok := Add(t.name, t.info, |t.data|, [t.data]);
      assert ok;
    }

    /** What writing the first `n` tensors of a run leads to. */
    ghost predicate Done(items: seq<Tensor>, n: nat)
      requires n <= |items| && shardLimit > 0
      reads this
    {
      && cut == RunCut(items, n, FreshCut(shardLimit, origin.first, origin.base)) && stored == RegionOf(items, n)
      && entries == EntriesOf(items, n, origin.base) && globalOff == OffsetOf(items, n, origin.base)
    }

    /** The run's next tensor. */
    method AddNext(t: Tensor, ghost items: seq<Tensor>, ghost k: nat)
      requires k < |items| && t == items[k] && Ok() && Done(items, k)
      modifies this, dir
      ensures Ok() && Done(items, k + 1)
    {
      OffsetAligned(items, k, origin.base);
      AddTensor(t);
      EntriesSnoc(items, k, origin.base);
    }

    /** The first `n` tensors of a run. */
    method AddFirst(items: seq<Tensor>, n: nat)
      requires n <= |items| && Ok() && Done(items, 0)
      modifies this, dir
      ensures Ok() && Done(items, n)
    {
      for k := 0 to n
        invariant Ok() && Done(items, k)
      {
        AddNext(items[k], items, k);
      }
    }

    /** What the shards hold, and how they tile. */
    lemma Gives()
      requires Ok() && globalOff % ALIGN == 0
      ensures Laid(AllRecords(cut), shardLimit, origin.first, origin.base, globalOff)
      ensures Holds(dir.files, AllRecords(cut), stored)
      ensures forall s :: s in AllRecords(cut) ==> s.file <= shardIdx
    {
      AfterGives(State(cut, dir.files, stored), origin, shardLimit, log);
    }

    /** Every file from `firstShard` on has its record. */
    lemma Numbers()
      requires Ok()
      ensures forall k: nat :: firstShard <= k <= shardIdx ==> Names(AllRecords(cut), k)
    {
      AfterNamed(origin, shardLimit, log);
      forall k: nat | firstShard <= k <= shardIdx ensures Names(AllRecords(cut), k) {
        RecordNames(cut, k);
      }
    }

    method Close() returns (closed: seq<Shard>)
      requires Ok()
      modifies this
      ensures closed == AllRecords(old(cut)) && cut == old(cut)
      ensures entries == old(entries) && shardIdx == old(shardIdx) && globalOff == old(globalOff)
      ensures stored == old(stored) && Aside()
    {
      if open {
        shards := shards + [Shard(shardIdx, start, cur)];
        open := false;
      }
      closed := shards;
    }

    /** Removes every file this writer created, or found under the numbers it took. */
    method Abort()
      requires Ok()
      modifies this, dir
      ensures Aside() && shardIdx == old(shardIdx) && stored == old(stored)
      ensures dir.index == before.index && dir.files == before.files - Span(firstShard, shardIdx + 1)
    {
      Reached();
      open := false;
      var idx := firstShard;
      while idx <= shardIdx
        invariant firstShard <= idx && Aside() && shardIdx == old(shardIdx) && stored == old(stored)
        invariant Beside(before, Used(), dir.State())
        invariant forall k :: firstShard <= k < idx ==> k !in dir.files
        decreases shardIdx - idx
      {
        if idx in dir.files {
          ghost var trace := dir.trace;
          UsageWithout(dir.files, idx);
          dir.Remove(idx);
          BesideSnoc(history, before, Used(), trace, Used(), dir.State());
        }
        idx := idx + 1;
      }
    }
  }

  // ---- whole runs ----

  /** A converter run: every tensor through `FTWWriter`. The directory it leaves is safe to load and
      says exactly what was added, in order. */
  method WriteCheckpoint(dir: FtwDir, items: seq<Tensor>, shardLimit: nat) returns (ix: Index)
    requires shardLimit > 0 && shardLimit % ALIGN == 0
    modifies dir
    ensures ix == RunIndex(items, shardLimit) && dir.index == ix
    ensures Laid(ix.shards, shardLimit, 0, 0, ix.totalBytes)
    ensures Holds(dir.files, ix.shards, RegionOf(items, |items|))
    ensures Safe(dir.files, ix) && Contents(dir.files, ix) == items
  {
    var w := new FTWWriter(dir, shardLimit);
    w.AddAll(items);
    OffsetAligned(items, |items|, 0);
    w.Gives();
    ix := w.Finalize();
    RunIsSafe(dir.files, items, shardLimit, ix);
  }

  /** The index of a run from offset and shard zero. */
  ghost function RunIndex(items: seq<Tensor>, limit: nat): Index
    requires limit > 0
  {
    Index(EntriesOf(items, |items|, 0), AllRecords(RunCut(items, |items|, FreshCut(limit, 0, 0))), OffsetOf(items, |items|, 0))
  }

  /** The same run through `ShardWriter`, from shard `first` and offset `base` on. */
  method WriteShards(dir: FtwDir, items: seq<Tensor>, shardLimit: nat, first: nat, base: nat)
    returns (entries: seq<Entry>, shards: seq<Shard>, total: nat, next: nat)
    requires shardLimit > 0 && shardLimit % ALIGN == 0 && base % ALIGN == 0
    modifies dir
    ensures entries == EntriesOf(items, |items|, base) && total == OffsetOf(items, |items|, base)
    ensures shards == AllRecords(RunCut(items, |items|, FreshCut(shardLimit, first, base)))
    ensures Laid(shards, shardLimit, first, base, total) && Holds(dir.files, shards, RegionOf(items, |items|))
    ensures next == first + ShardsOf(items, |items|, shardLimit) && (forall s :: s in shards ==> s.file < next)
    ensures forall k: nat :: first <= k < next ==> Names(shards, k)
    ensures Around(old(dir.files), dir.files, first, next)
    ensures dir.index == old(dir.index)
    ensures BesideTrace(old(dir.trace), old(dir.State()), Room(first, next, |RegionOf(items, |items|)|), dir.trace)
    ensures Usage(dir.files) <= old(Usage(dir.files)) + |RegionOf(items, |items|)|
  {
    var w := new ShardWriter(dir, shardLimit, first, base);
    w.AddFirst(items, |items|);
    OffsetAligned(items, |items|, base);
    w.Gives();
    w.Reached();
    w.Numbers();
    RunAlike(items, |items|, shardLimit, first, base);
    shards := w.Close();
    entries, total, next := w.entries, w.globalOff, w.shardIdx + 1;
  }

  lemma StoredGives(s: State, front: Bytes, tail: Bytes)
    requires Ready(s.cut) && Stored(s, front, tail) && (!s.cut.open ==> s.cut.shards == [])
    ensures Holds(s.files, AllRecords(s.cut), s.data)
  {
    if s.cut.open {
      HoldsSnoc(s.files, s.cut.shards, front, Shard(s.cut.shardIdx, s.cut.start, s.cut.cur), tail);
    }
  }

  /** What a finished writer has stored, and where. */
  lemma AfterGives(s: State, o: Origin, limit: nat, log: Log)
    requires limit > 0 && limit % ALIGN == 0 && o.base % ALIGN == 0
    requires s == After(o, limit, log) && Ready(s.cut) && (s.cut.start + s.cut.cur) % ALIGN == 0
    ensures Laid(AllRecords(s.cut), s.cut.limit, o.first, o.base, s.cut.start + s.cut.cur)
    ensures Holds(s.files, AllRecords(s.cut), s.data)
    ensures forall r :: r in AllRecords(s.cut) ==> r.file <= s.cut.shardIdx
  {
    AfterTidy(o, limit, log);
    TidyIsLaid(s.cut, o.first, o.base);
    var front, tail := AfterStored(o, limit, log);
    StoredGives(s, front, tail);
  }

  /** A checkpoint whose entries, one by one, read back `items` from its region says `items`. */
  lemma ContentsAre(files: Files, ix: Index, region: Bytes, items: seq<Tensor>)
    requires Safe(files, ix) && Holds(files, SortShards(ix.shards), region) && |ix.tensors| == |items|
    requires forall e :: e in ix.tensors ==> e.off + e.nbytes <= |region|
    requires forall i :: 0 <= i < |items| ==> Content(region, ix.tensors[i]) == items[i]
    ensures Contents(files, ix) == items
  {
  }

  /** A laid-out run, under its own entries, is a checkpoint that says the items. */
  lemma RunIsSafe(files: Files, items: seq<Tensor>, limit: nat, ix: Index)
    requires ix.tensors == EntriesOf(items, |items|, 0) && ix.totalBytes == OffsetOf(items, |items|, 0)
    requires Laid(ix.shards, limit, 0, 0, ix.totalBytes) && Holds(files, ix.shards, RegionOf(items, |items|))
    ensures Safe(files, ix) && Contents(files, ix) == items
  {
    LaidInOrder(ix.shards, limit, ix.totalBytes);
    EntriesTidy(items, 0);
    RunReadsBack(items, RegionOf(items, |items|));
    ContentsAre(files, ix, RegionOf(items, |items|), items);
  }

  lemma LaidInOrder(shards: seq<Shard>, limit: nat, end: nat)
    requires Laid(shards, limit, 0, 0, end)
    ensures SortShards(shards) == shards
  {
    TilesOrder(shards, 0, end);
    SortShardsSorts(shards);
  }

  lemma RunReadsBack(items: seq<Tensor>, region: Bytes)
    requires region == RegionOf(items, |items|)
    ensures |region| == OffsetOf(items, |items|, 0)
    ensures var es := EntriesOf(items, |items|, 0);
      forall i :: 0 <= i < |items| ==> es[i].off + es[i].nbytes <= |region| && Content(region, es[i]) == items[i]
  {
    OffsetIsLength(items, |items|, 0);
    assert region[0..] == region;
    forall i | 0 <= i < |items|
      ensures var e := EntryOf(items, i, 0); e.off + e.nbytes <= |region| && Content(region, e) == items[i]
    {
      EntryReadsBack(items, |items|, 0, region, i);
    }
  }

  /** The two writers agree: from offset zero, on the same tensors, the same entries, the same shards
      and the same bytes in every shard file. */
  method WriteBoth(dir1: FtwDir, dir2: FtwDir, items: seq<Tensor>, shardLimit: nat)
    returns (ix: Index, entries: seq<Entry>, shards: seq<Shard>, total: nat)
    requires shardLimit > 0 && shardLimit % ALIGN == 0 && dir1 != dir2
    modifies dir1, dir2
    ensures dir1.index == ix == Index(entries, shards, total)
    ensures forall s :: s in shards ==>
      s.file in dir1.files && s.file in dir2.files && dir1.files[s.file] == dir2.files[s.file]
  {
    ix := WriteCheckpoint(dir1, items, shardLimit);
    var next;
    entries, shards, total, next := WriteShards(dir2, items, shardLimit, 0, 0);
    HoldsDecides(dir1.files, dir2.files, shards, RegionOf(items, |items|), total);
  }
}
