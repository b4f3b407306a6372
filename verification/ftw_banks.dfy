/** Expert banks: a flat bank is read layer by layer through page-aligned windows, a streamed one
    from an entry per layer. And the round trip from the writer to the reader. */
module FtwBanks {
  import opened Options
  import opened FtwCompact
  import opened FtwFormat
  import opened FtwDisk
  import opened FtwLayout
  import opened FtwWriters
  import opened FtwReader

  // ---- round trip ----

  /** MAIN: whatever is written comes back: any tensors, any whole-page shard limit, any chunk size that
      suits the backend, any order of the read jobs. */
  method WriteThenRead(dir: FtwDir, items: seq<Tensor>, shardLimit: nat, i: nat, dest: array<Byte>, chunk: nat, how: Backend)
    returns (r: Outcome<()>)
    requires shardLimit > 0 && shardLimit % ALIGN == 0
    requires i < |items| && chunk > 0 && AlignUp(|items[i].data|) <= dest.Length
    modifies dir, dest
    ensures Suits(how, chunk, |items[i].data|) ==> r.Ok?
    ensures r.Ok? ==> dest[..|items[i].data|] == items[i].data
    ensures SameOutside(dest[..], old(dest[..]), 0, AlignUp(|items[i].data|))
  {
    var ix := WriteCheckpoint(dir, items, shardLimit);
    r := ReadEntry(dest, dir.files, ix, i, chunk, how);
  }

  // ---- windows ----

  function AlignDown(n: nat): nat { n / ALIGN * ALIGN }

  /** The page-aligned window around a layer's rows. */
  lemma WindowAround(off: nat, n: nat)
    ensures AlignDown(off) <= off && AlignDown(off) % ALIGN == 0 && off + n <= AlignUp(off + n)
    ensures (AlignUp(off + n) - AlignDown(off)) % ALIGN == 0
  {
  }

  /** Layer `l` of a bank whose layers are `layerBytes` long. */
  function LayerOf(bank: Bytes, layerBytes: nat, l: nat): Bytes
    requires (l + 1) * layerBytes <= |bank|
  {
    assert (l + 1) * layerBytes == l * layerBytes + layerBytes;
    bank[l * layerBytes..(l + 1) * layerBytes]
  }

  lemma LayerFits(layerBytes: nat, l: nat, n: nat)
    requires l < n
    ensures 0 <= l * layerBytes && l * layerBytes + layerBytes == (l + 1) * layerBytes <= n * layerBytes
  {
    assert (l + 1) * layerBytes + (n - l - 1) * layerBytes == n * layerBytes;
  }

  /** Slicing an entry's bytes is slicing the region behind its offset. */
  lemma SliceOfEntry(region: Bytes, off: nat, nbytes: nat, a: nat, b: nat)
    requires a <= b <= nbytes && off + nbytes <= |region|
    ensures region[off..off + nbytes][a..b] == region[off + a..off + b]
  {
    var slice := region[off..off + nbytes];
    forall d | 0 <= d < b - a ensures slice[a..b][d] == region[off + a..off + b][d] {
      assert slice[a + d] == region[off + a + d];
    }
  }

  /** Slicing a window at the head pad gives the rows themselves. */
  lemma CarveWindow(region: Bytes, window: Bytes, win: nat, off: nat, n: nat)
    requires win <= off && win + |window| <= |region| && window == region[win..win + |window|] && off + n <= win + |window|
    ensures window[off - win..off - win + n] == region[off..off + n]
  {
    SliceOfEntry(region, win, |window|, off - win, off - win + n);
  }

  /** What read_into left in a window, carved at the head pad, is the region's bytes at `off`. */
  lemma WindowCarved(files: Files, shards: seq<Shard>, total: nat, window: Bytes, win: nat, off: nat, n: nat)
    requires Complete(files, shards) && Tiles(shards, 0, total)
    requires win <= off && off + n <= win + |window| && off + n <= total
    requires forall d :: 0 <= d < |window| ==> FromShard(window, files, shards, win, d)
    ensures |Region(files, shards)| == total
    ensures window[off - win..off - win + n] == Region(files, shards)[off..off + n]
  {
    RegionLength(files, shards, 0, total);
    FromShardIsRegion(window, files, shards, total, win, |window|);
    if |window| > 0 {
      assert window[..|window|] == window;
      CarveWindow(Region(files, shards), window, win, off, n);
    }
  }

  /** Chunks of whole pages suit any system. */
  predicate WholeChunks(how: Backend, chunk: nat) {
    how == Direct(true) ==> chunk % ALIGN == 0
  }

  /** `n` bytes at region offset `off`, read through the page-aligned window around them. */
  method LoadWindow(files: Files, ix: Index, off: nat, n: nat, chunk: nat, how: Backend) returns (r: Outcome<Bytes>)
    requires Safe(files, ix) && chunk > 0 && off + n <= ix.totalBytes
    ensures |Region(files, SortShards(ix.shards))| == ix.totalBytes
    ensures WholeChunks(how, chunk) ==> r.Ok?
    ensures r.Ok? ==> r.value == Region(files, SortShards(ix.shards))[off..off + n]
    ensures !r.Ok? ==> r.Failed?
  {
    var win, end := AlignDown(off), AlignUp(off + n);
    WindowAround(off, n);
    WindowFits(ix, off + n);
    WholePages(end - win);
    RegionLength(files, SortShards(ix.shards), 0, ix.totalBytes);
    var window := new Byte[end - win];
    var loaded := ReadInto(window, files, ix, win, end - win, chunk, how);
    if !loaded.Ok? { return Failed; }
    WindowCarved(files, SortShards(ix.shards), ix.totalBytes, window[..], win, off, n);
    r := Ok(window[off - win..off - win + n]);
  }

  lemma WholePages(n: nat)
    requires n % ALIGN == 0
    ensures AlignUp(n) == n
  {
  }

  lemma WindowFits(ix: Index, end: nat)
    requires WellFormed(ix) && end <= ix.totalBytes
    ensures AlignUp(end) <= ix.totalBytes
  {
    TotalAligned(SortShards(ix.shards), 0, ix.totalBytes);
    AlignUpLeast(end, ix.totalBytes);
  }

  /** Layer `l` of the flat bank stored as entry `i`. */
  method LoadLayer(files: Files, ix: Index, i: nat, layerBytes: nat, l: nat, n: nat, chunk: nat, how: Backend)
    returns (r: Outcome<Bytes>)
    requires Safe(files, ix) && i < |ix.tensors| && chunk > 0
    requires l < n && ix.tensors[i].nbytes == n * layerBytes
    ensures |Contents(files, ix)[i].data| == n * layerBytes && (l + 1) * layerBytes <= n * layerBytes
    ensures WholeChunks(how, chunk) ==> r.Ok?
    ensures r.Ok? ==> r.value == LayerOf(Contents(files, ix)[i].data, layerBytes, l)
    ensures !r.Ok? ==> r.Failed?
  {
    var e := ix.tensors[i];
    LayerFits(layerBytes, l, n);
    assert EntryFits(e, ix.totalBytes);
    r := LoadWindow(files, ix, e.off + l * layerBytes, layerBytes, chunk, how);
    LayerOfEntry(files, ix, i, layerBytes, l, n);
  }

  lemma LayerOfEntry(files: Files, ix: Index, i: nat, layerBytes: nat, l: nat, n: nat)
    requires Safe(files, ix) && i < |ix.tensors| && l < n && ix.tensors[i].nbytes == n * layerBytes
    ensures |Contents(files, ix)[i].data| == n * layerBytes && 0 <= l * layerBytes && (l + 1) * layerBytes <= n * layerBytes
    ensures var e, region := ix.tensors[i], Region(files, SortShards(ix.shards));
      && e.off + l * layerBytes + layerBytes <= |region|
      && LayerOf(Contents(files, ix)[i].data, layerBytes, l) == region[e.off + l * layerBytes..e.off + l * layerBytes + layerBytes]
  {
    var e, region := ix.tensors[i], Region(files, SortShards(ix.shards));
    RegionLength(files, SortShards(ix.shards), 0, ix.totalBytes);
    assert EntryFits(e, ix.totalBytes);
    assert Contents(files, ix)[i] == Content(region, e);
    LayerInRegion(region, e, layerBytes, l, n);
  }

  /** A layer's stretch of the region is its slice of the entry. */
  lemma LayerInRegion(region: Bytes, e: Entry, layerBytes: nat, l: nat, n: nat)
    requires l < n && e.nbytes == n * layerBytes && e.off + e.nbytes <= |region|
    ensures 0 <= l * layerBytes && l * layerBytes + layerBytes == (l + 1) * layerBytes <= n * layerBytes
    ensures |Content(region, e).data| == n * layerBytes
    ensures LayerOf(Content(region, e).data, layerBytes, l) == region[e.off + l * layerBytes..e.off + l * layerBytes + layerBytes]
  {
    LayerFits(layerBytes, l, n);
    SliceOfEntry(region, e.off, e.nbytes, l * layerBytes, (l + 1) * layerBytes);
  }

  // ---- the layers of a bank ----

  ghost function Joined(layers: seq<Bytes>, n: nat): Bytes
    requires n <= |layers|
  {
    if n == 0 then [] else Joined(layers, n - 1) + layers[n - 1]
  }

  /** The layers are the first slices of the bank. */
  ghost predicate IsSplit(bank: Bytes, layerBytes: nat, layers: seq<Bytes>) {
    forall l :: 0 <= l < |layers| ==> IsLayer(bank, layerBytes, l, layers[l])
  }

  ghost predicate IsLayer(bank: Bytes, layerBytes: nat, l: nat, layer: Bytes) {
    (l + 1) * layerBytes <= |bank| && layer == LayerOf(bank, layerBytes, l)
  }

  /** Layers that are the bank's slices concatenate to the bank. */
  lemma {:induction false} LayersJoin(bank: Bytes, layerBytes: nat, layers: seq<Bytes>, n: nat)
    requires n <= |layers| && |bank| == |layers| * layerBytes
    requires IsSplit(bank, layerBytes, layers)
    ensures n * layerBytes <= |bank| && Joined(layers, n) == bank[..n * layerBytes]
    decreases n
  {
    if n > 0 {
      LayersJoin(bank, layerBytes, layers, n - 1);
      LayerFits(layerBytes, n - 1, |layers|);
      assert bank[..(n - 1) * layerBytes] + bank[(n - 1) * layerBytes..n * layerBytes] == bank[..n * layerBytes];
    }
  }

  method LoadLayers(files: Files, ix: Index, i: nat, numLayers: nat, layerBytes: nat, chunk: nat, how: Backend)
    returns (r: Outcome<seq<Bytes>>)
    requires Safe(files, ix) && i < |ix.tensors| && chunk > 0 && ix.tensors[i].nbytes == numLayers * layerBytes
    ensures WholeChunks(how, chunk) ==> r.Ok?
    ensures !r.Ok? ==> r.Failed?
    ensures r.Ok? ==> |r.value| == numLayers && IsSplit(Contents(files, ix)[i].data, layerBytes, r.value)
    ensures |Contents(files, ix)[i].data| == numLayers * layerBytes
  {
    ghost var bank := Contents(files, ix)[i].data;
    EntryLength(files, ix, i);
    var layers: seq<Bytes> := [];
    for l := 0 to numLayers
      invariant |layers| == l && IsSplit(bank, layerBytes, layers)
    {
      var layer := LoadLayer(files, ix, i, layerBytes, l, numLayers, chunk, how);
      if !layer.Ok? { return Failed; }
      SplitSnoc(bank, layerBytes, layers, layer.value);
      layers := layers + [layer.value];
    }
    r := Ok(layers);
  }

  lemma SplitSnoc(bank: Bytes, layerBytes: nat, layers: seq<Bytes>, layer: Bytes)
    requires IsSplit(bank, layerBytes, layers)
    requires IsLayer(bank, layerBytes, |layers|, layer)
    ensures IsSplit(bank, layerBytes, layers + [layer])
  {
  }

  /** Layers that are all the slices of a bank concatenate to it. */
  lemma SplitJoins(bank: Bytes, layerBytes: nat, layers: seq<Bytes>)
    requires IsSplit(bank, layerBytes, layers) && |bank| == |layers| * layerBytes
    ensures Joined(layers, |layers|) == bank
  {
    LayersJoin(bank, layerBytes, layers, |layers|);
    assert bank[..|layers| * layerBytes] == bank;
  }

  lemma EntryLength(files: Files, ix: Index, i: nat)
    requires Safe(files, ix) && i < |ix.tensors|
    ensures |Contents(files, ix)[i].data| == ix.tensors[i].nbytes
  {
    assert EntryFits(ix.tensors[i], ix.totalBytes);
    RegionLength(files, SortShards(ix.shards), 0, ix.totalBytes);
    assert Contents(files, ix)[i] == Content(Region(files, SortShards(ix.shards)), ix.tensors[i]);
  }

  // ---- names of layer entries ----

  /** What a name says if it is that of a layer entry. */
  datatype Layer = Layer(base: string, layer: nat)

  predicate IsDigit(c: char) { '0' <= c <= '9' }

  predicate AllDigits(s: string) { forall i :: 0 <= i < |s| ==> IsDigit(s[i]) }

  /** `n` in decimal, padded with zeros to `width` digits. */
  function Decimal(n: nat, width: nat): (s: string)
    ensures |s| >= width && AllDigits(s)
    decreases n, width
  {
    if n == 0 && width == 0 then ""
    else Decimal(n / 10, if width > 0 then width - 1 else 0) + [('0' as int + n % 10) as char]
  }

  function Value(s: string): nat
    requires AllDigits(s)
  {
    if s == "" then 0 else Value(s[..|s| - 1]) * 10 + (s[|s| - 1] as int - '0' as int)
  }

  function Pow10(n: nat): nat { if n == 0 then 1 else Pow10(n - 1) * 10 }

  lemma {:induction false} DecimalReads(n: nat, width: nat)
    ensures Value(Decimal(n, width)) == n
    decreases n, width
  {
    if n != 0 || width != 0 {
      var w := if width > 0 then width - 1 else 0;
      DecimalReads(n / 10, w);
      var s := Decimal(n, width);
      assert s[..|s| - 1] == Decimal(n / 10, w);
    }
  }

  lemma {:induction false} DecimalLength(n: nat, width: nat)
    ensures |Decimal(n, width)| == width <==> n < Pow10(width)
    decreases n, width
  {
    if width > 0 { DecimalLength(n / 10, width - 1); }
  }

  /** The name of a layer's entry. */
  function LayerName(base: string, layer: nat): string { base + "#L" + Decimal(layer, 5) }

  /** `^(?P<base>.+)#L(?P<layer>\d{5})$`. */
  function ParseLayer(name: string): Option<Layer> {
    var n := |name|;
    if n >= 8 && name[n - 7..n - 5] == "#L" && AllDigits(name[n - 5..]) then
      Some(Layer(name[..n - 7], Value(name[n - 5..])))
    else None
  }

  /** MAIN: a layer's name is read back as that layer exactly if its number has at most five digits; from
      there on the entry is taken for a flat bank. */
  lemma LayerNameReads(base: string, layer: nat)
    requires base != ""
    ensures ParseLayer(LayerName(base, layer)) == if layer < 100000 then Some(Layer(base, layer)) else None
  {
    var digits := Decimal(layer, 5);
    var name := base + "#L" + digits;
    DecimalLength(layer, 5);
    assert Pow10(5) == 100000 by { assert Pow10(2) == 100; assert Pow10(4) == 10000; }
    if layer < 100000 {
      DecimalReads(layer, 5);
      assert name[|name| - 5..] == digits && name[..|name| - 7] == base && name[|name| - 7..|name| - 5] == "#L";
    } else {
      assert name[|name| - 6] == digits[|digits| - 6];
      assert name[|name| - 7..|name| - 5][1] == name[|name| - 6];
    }
  }

  // ---- what a checkpoint's banks must be ----

  /** The row entries among the entries, and how many layers the checkpoint says it was converted with. */
  datatype Banks = Banks(rows: set<nat>, converted: Option<nat>)

  /** A bank is stored both ways: flat under a name, and a layer at a time under the same. */
  ghost predicate Mixed(ix: Index, rows: set<nat>) {
    exists i: nat, j: nat :: IsFlatEntry(ix, rows, i) && IsOfBank(ix, rows, ix.tensors[i].name, j)
  }

  ghost predicate IsFlatEntry(ix: Index, rows: set<nat>, i: nat) {
    i < |ix.tensors| && i in rows && ParseLayer(ix.tensors[i].name).None?
  }

  ghost predicate IsOfBank(ix: Index, rows: set<nat>, base: string, j: nat) {
    j < |ix.tensors| && j in rows && ParseLayer(ix.tensors[j].name).Some? && ParseLayer(ix.tensors[j].name).value.base == base
  }

  ghost predicate Admitted(ix: Index, b: Banks, numLayers: nat) {
    (b.converted.Some? ==> b.converted.value == numLayers) && !Mixed(ix, b.rows)
  }

  /** The names of the flat banks, and of those stored a layer at a time. */
  method BankNames(ix: Index, rows: set<nat>) returns (flat: set<string>, bases: set<string>)
    ensures forall x :: x in flat <==> exists i: nat :: IsFlatEntry(ix, rows, i) && ix.tensors[i].name == x
    ensures forall x :: x in bases <==> exists j: nat :: IsOfBank(ix, rows, x, j)
  {
    flat, bases := {}, {};
    for k := 0 to |ix.tensors|
      invariant forall x :: x in flat ==> exists i: nat :: IsFlatEntry(ix, rows, i) && ix.tensors[i].name == x
      invariant forall i: nat :: i < k && IsFlatEntry(ix, rows, i) ==> ix.tensors[i].name in flat
      invariant forall x :: x in bases ==> exists j: nat :: IsOfBank(ix, rows, x, j)
      invariant forall x, j: nat :: j < k && IsOfBank(ix, rows, x, j) ==> x in bases
    {
      var name := ix.tensors[k].name;
      var parsed := ParseLayer(name);
      if k in rows && parsed.None? {
        assert IsFlatEntry(ix, rows, k);
        flat := flat + {name};
      } else if k in rows {
        assert IsOfBank(ix, rows, parsed.value.base, k);
        bases := bases + {parsed.value.base};
      }
    }
  }

  /** The checks before anything is read. */
  method Admit(ix: Index, b: Banks, numLayers: nat) returns (ok: bool)
    ensures ok <==> Admitted(ix, b, numLayers)
  {
    if b.converted.Some? && b.converted.value != numLayers { return false; }
    var flat, bases := BankNames(ix, b.rows);
    MixedWhen(ix, b.rows, flat, bases);
    ok := flat * bases == {};
  }

  lemma MixedWhen(ix: Index, rows: set<nat>, flat: set<string>, bases: set<string>)
    requires forall x :: x in flat <==> exists i: nat :: IsFlatEntry(ix, rows, i) && ix.tensors[i].name == x
    requires forall x :: x in bases <==> exists j: nat :: IsOfBank(ix, rows, x, j)
    ensures Mixed(ix, rows) <==> flat * bases != {}
  {
    if Mixed(ix, rows) {
      var i: nat, j: nat :| IsFlatEntry(ix, rows, i) && IsOfBank(ix, rows, ix.tensors[i].name, j);
      assert ix.tensors[i].name in flat * bases;
    }
    if flat * bases != {} {
      var x :| x in flat * bases;
      var i: nat :| IsFlatEntry(ix, rows, i) && ix.tensors[i].name == x;
      var j: nat :| IsOfBank(ix, rows, x, j);
    }
  }

  // ---- the flat layout ----

  /** The bytes of one layer of `total` rows. */
  function LayerBytes(total: nat, rowBytes: nat, numLayers: nat): nat {
    if numLayers == 0 then 0 else total / numLayers * rowBytes
  }

  lemma RowsSplit(total: nat, rowBytes: nat, n: nat)
    requires n > 0 && total % n == 0
    ensures n * LayerBytes(total, rowBytes, n) == LayerBytes(total, rowBytes, n) * n == total * rowBytes
  {
    var q := total / n;
    assert total == q * n;
    assert (q * rowBytes) * n == (q * n) * rowBytes;
  }

  /** MAIN: the flat layout of a bank of `total` rows of `rowBytes` each. It loads exactly when the checkpoint
      is admitted, the rows divide among the layers and are as many bytes as the entry, unless a strict
      system refuses the chunks; then the layers are the bank's slices and join to the bank. */
  method LoadFlat(files: Files, ix: Index, b: Banks, i: nat, total: nat, rowBytes: nat, numLayers: nat, chunk: nat, how: Backend)
    returns (r: Outcome<seq<Bytes>>)
    requires Safe(files, ix) && i < |ix.tensors| && chunk > 0
    ensures !r.BadBank? <==> Admitted(ix, b, numLayers) && numLayers > 0 && total % numLayers == 0 && total * rowBytes == ix.tensors[i].nbytes
    ensures r.Ok? || r.BadBank? || (r.Failed? && !WholeChunks(how, chunk))
    ensures r.Ok? ==> |r.value| == numLayers && Joined(r.value, numLayers) == Contents(files, ix)[i].data
    ensures r.Ok? ==> IsSplit(Contents(files, ix)[i].data, LayerBytes(total, rowBytes, numLayers), r.value)
  {
    var ok := Admit(ix, b, numLayers);
    if !ok || numLayers == 0 || total % numLayers != 0 { return BadBank; }
    var layerBytes := LayerBytes(total, rowBytes, numLayers);
    RowsSplit(total, rowBytes, numLayers);
    if layerBytes * numLayers != ix.tensors[i].nbytes { return BadBank; }
    r := LoadLayers(files, ix, i, numLayers, layerBytes, chunk, how);
    if r.Ok? { SplitJoins(Contents(files, ix)[i].data, layerBytes, r.value); }
  }

  // ---- the per-layer layout ----

  ghost predicate IsLayerEntry(ix: Index, rows: set<nat>, base: string, l: nat, i: nat) {
    i < |ix.tensors| && i in rows && ParseLayer(ix.tensors[i].name) == Some(Layer(base, l))
  }

  /** The entry that counts for a layer: the last of its name. */
  ghost predicate LayerAt(ix: Index, rows: set<nat>, base: string, l: nat, i: nat) {
    IsLayerEntry(ix, rows, base, l, i) && forall k: nat :: i < k ==> !IsLayerEntry(ix, rows, base, l, k)
  }

  ghost predicate HasLayer(ix: Index, rows: set<nat>, base: string, l: nat) { exists i: nat :: IsLayerEntry(ix, rows, base, l, i) }

  /** The table has the last entry of every layer there is. */
  ghost predicate Groups(byLayer: map<nat, nat>, ix: Index, rows: set<nat>, base: string) {
    && (forall l: nat :: l in byLayer ==> LayerAt(ix, rows, base, l, byLayer[l]))
    && (forall l: nat :: HasLayer(ix, rows, base, l) ==> l in byLayer)
  }

  /** Groups a bank's entries by layer. */
  method GroupLayers(ix: Index, rows: set<nat>, base: string) returns (byLayer: map<nat, nat>)
    ensures Groups(byLayer, ix, rows, base)
  {
    byLayer := map[];
    for k := 0 to |ix.tensors|
      invariant forall l: nat :: l in byLayer ==> byLayer[l] < k && IsLayerEntry(ix, rows, base, l, byLayer[l])
      invariant forall l: nat, i: nat :: IsLayerEntry(ix, rows, base, l, i) && i < k ==> l in byLayer && i <= byLayer[l]
    {
      var parsed := ParseLayer(ix.tensors[k].name);
      if k in rows && parsed.Some? && parsed.value.base == base {
        byLayer := byLayer[parsed.value.layer := k];
      }
    }
  }

  /** Exactly the layers below `n` are there. */
  ghost predicate LayersAre(ix: Index, rows: set<nat>, base: string, n: nat) {
    forall l: nat :: HasLayer(ix, rows, base, l) <==> l < n
  }

  /** The layers are what the last entries of their names say. */
  ghost predicate LayersLoaded(files: Files, ix: Index, rows: set<nat>, base: string, layers: seq<Bytes>)
    requires Safe(files, ix)
  {
    forall l: nat, i: nat :: l < |layers| && LayerAt(ix, rows, base, l, i) ==> layers[l] == Contents(files, ix)[i].data
  }

  function Range(n: nat): (r: set<nat>)
    ensures forall l: nat :: l in r <==> l < n
  {
    if n == 0 then {} else Range(n - 1) + {n - 1}
  }

  /** The per-layer layout loads exactly if the checkpoint is admitted and the bank has entries for the layers
      below `numLayers` and no other, unless a strict system refuses the chunks; then each layer is its
      entry. */
  method LoadPerLayer(files: Files, ix: Index, b: Banks, base: string, numLayers: nat, chunk: nat, how: Backend) returns (r: Outcome<seq<Bytes>>)
    requires Safe(files, ix) && chunk > 0
    ensures !r.BadBank? <==> Admitted(ix, b, numLayers) && LayersAre(ix, b.rows, base, numLayers)
    ensures r.Ok? || r.BadBank? || (r.Failed? && !WholeChunks(how, chunk))
    ensures r.Ok? ==> |r.value| == numLayers && LayersLoaded(files, ix, b.rows, base, r.value)
  {
    var ok := Admit(ix, b, numLayers);
    if !ok { return BadBank; }
    var byLayer := GroupLayers(ix, b.rows, base);
    KeysAreLayers(ix, b.rows, base, numLayers, byLayer);
    if byLayer.Keys != Range(numLayers) { return BadBank; }
    var layers: seq<Bytes> := [];
    for l := 0 to numLayers
      invariant |layers| == l && LayersLoaded(files, ix, b.rows, base, layers)
    {
      assert l in byLayer.Keys;
      var i := byLayer[l];
      var e := ix.tensors[i];
      var bank := new Byte[AlignUp(e.nbytes)];
      var loaded := ReadEntry(bank, files, ix, i, chunk, how);
      if !loaded.Ok? { return Failed; }
      OneMoreLayer(files, ix, b.rows, base, layers, bank[..e.nbytes], i);
      layers := layers + [bank[..e.nbytes]];
    }
    r := Ok(layers);
  }

  lemma KeysAreLayers(ix: Index, rows: set<nat>, base: string, n: nat, byLayer: map<nat, nat>)
    requires Groups(byLayer, ix, rows, base)
    ensures byLayer.Keys == Range(n) <==> LayersAre(ix, rows, base, n)
  {
    forall l: nat ensures l in byLayer.Keys <==> HasLayer(ix, rows, base, l) {
      if l in byLayer { assert IsLayerEntry(ix, rows, base, l, byLayer[l]); }
    }
    if byLayer.Keys == Range(n) {
      forall l: nat ensures HasLayer(ix, rows, base, l) <==> l < n { assert l in byLayer.Keys <==> l in Range(n); }
    }
    if LayersAre(ix, rows, base, n) {
      forall l: nat ensures l in byLayer.Keys <==> l in Range(n) { assert HasLayer(ix, rows, base, l) <==> l < n; }
    }
  }

  lemma OneMoreLayer(files: Files, ix: Index, rows: set<nat>, base: string, layers: seq<Bytes>, layer: Bytes, i: nat)
    requires Safe(files, ix) && LayersLoaded(files, ix, rows, base, layers) && LayerAt(ix, rows, base, |layers|, i)
    requires layer == Contents(files, ix)[i].data
    ensures LayersLoaded(files, ix, rows, base, layers + [layer])
  {
    forall l: nat, k: nat | l < |layers| + 1 && LayerAt(ix, rows, base, l, k)
      ensures (layers + [layer])[l] == Contents(files, ix)[k].data
    {
      if l == |layers| { OneLast(ix, rows, base, l, i, k); }
    }
  }

  lemma OneLast(ix: Index, rows: set<nat>, base: string, l: nat, i: nat, k: nat)
    requires LayerAt(ix, rows, base, l, i) && LayerAt(ix, rows, base, l, k)
    ensures i == k
  {
  }

  /** MAIN: one bank converted both ways, flat in one checkpoint and a layer per entry in another,
      loads to the same layers. */
  method LoadBothWays(f1: Files, ix1: Index, b1: Banks, i: nat, total: nat, rowBytes: nat, f2: Files, ix2: Index, b2: Banks,
      base: string, numLayers: nat, chunk1: nat, chunk2: nat, how1: Backend, how2: Backend)
    returns (flat: Outcome<seq<Bytes>>, streamed: Outcome<seq<Bytes>>)
    requires Safe(f1, ix1) && i < |ix1.tensors| && Safe(f2, ix2) && chunk1 > 0 && chunk2 > 0
    requires Admitted(ix1, b1, numLayers) && Admitted(ix2, b2, numLayers) && WholeChunks(how1, chunk1) && WholeChunks(how2, chunk2)
    requires numLayers > 0 && total % numLayers == 0 && ix1.tensors[i].nbytes == total * rowBytes
    requires LayersAre(ix2, b2.rows, base, numLayers)
    requires forall l: nat, k: nat :: l < numLayers && LayerAt(ix2, b2.rows, base, l, k) ==>
      IsLayer(Contents(f1, ix1)[i].data, LayerBytes(total, rowBytes, numLayers), l, Contents(f2, ix2)[k].data)
    ensures flat.Ok? && flat == streamed
  {
    flat := LoadFlat(f1, ix1, b1, i, total, rowBytes, numLayers, chunk1, how1);
    streamed := LoadPerLayer(f2, ix2, b2, base, numLayers, chunk2, how2);
    SameLayers(f1, ix1, i, f2, ix2, b2.rows, base, LayerBytes(total, rowBytes, numLayers), flat.value, streamed.value);
  }

  /** Slices of the flat bank and entries that are its layers are the same bytes. */
  lemma SameLayers(f1: Files, ix1: Index, i: nat, f2: Files, ix2: Index, rows: set<nat>, base: string, layerBytes: nat, flat: seq<Bytes>, streamed: seq<Bytes>)
    requires Safe(f1, ix1) && i < |ix1.tensors| && Safe(f2, ix2) && |flat| == |streamed| && LayersAre(ix2, rows, base, |flat|)
    requires IsSplit(Contents(f1, ix1)[i].data, layerBytes, flat) && LayersLoaded(f2, ix2, rows, base, streamed)
    requires forall l: nat, k: nat :: l < |flat| && LayerAt(ix2, rows, base, l, k) ==>
      IsLayer(Contents(f1, ix1)[i].data, layerBytes, l, Contents(f2, ix2)[k].data)
    ensures flat == streamed
  {
    forall l: nat | l < |flat| ensures flat[l] == streamed[l] {
      assert HasLayer(ix2, rows, base, l);
      var k := LastLayer(ix2, rows, base, l);
      assert IsLayer(Contents(f1, ix1)[i].data, layerBytes, l, flat[l]);
    }
  }

  /** A layer that is there has a last entry. */
  lemma LastLayer(ix: Index, rows: set<nat>, base: string, l: nat) returns (i: nat)
    requires HasLayer(ix, rows, base, l)
    ensures LayerAt(ix, rows, base, l, i)
  {
    i :| IsLayerEntry(ix, rows, base, l, i);
    while exists k: nat :: i < k && IsLayerEntry(ix, rows, base, l, k)
      invariant IsLayerEntry(ix, rows, base, l, i)
      decreases |ix.tensors| - i
    {
      var k: nat :| i < k && IsLayerEntry(ix, rows, base, l, k);
      i := k;
    }
  }
}
