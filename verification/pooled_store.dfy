/** One forward over many requests: compress the groups that close, then refresh the rings. */
module PooledStore {
  import opened Choice
  import opened PooledIndex

  /** The raw keys of all requests of a forward, flattened; `cu[i]..cu[i + 1]` are the rows of
      request `i`, and `who` is the inverse. */
  datatype Forward<K> = Forward(k: seq<K>, cu: seq<nat>, who: seq<nat>)

  ghost predicate Span<K>(f: Forward<K>, i: nat)
    requires i + 1 < |f.cu| && |f.who| == |f.k|
  {
    f.cu[i] <= f.cu[i + 1] <= |f.k| && forall row :: f.cu[i] <= row < f.cu[i + 1] ==> f.who[row] == i
  }

  ghost predicate InSpan<K>(f: Forward<K>, row: nat)
    requires row < |f.who|
  {
    f.who[row] + 1 < |f.cu| && f.cu[f.who[row]] <= row < f.cu[f.who[row] + 1]
  }

  ghost predicate ForwardOk<K>(f: Forward<K>, reqs: seq<Req<K>>, sh: Shape)
    requires ShapeOk(sh)
  {
    && |f.cu| == |reqs| + 1 && |f.who| == |f.k|
    && (forall i :: 0 <= i < |reqs| ==> Span(f, i) && ReqOk(reqs[i], sh) && Fits(f, reqs[i], i))
    && (forall row :: 0 <= row < |f.k| ==> InSpan(f, row))
    && (forall i, j :: 0 <= i < j < |reqs| ==> reqs[i].slot != reqs[j].slot)
  }

  ghost predicate Fits<K>(f: Forward<K>, r: Req<K>, i: nat)
    requires i + 1 < |f.cu|
  {
    |r.keys| + f.cu[i + 1] - f.cu[i] <= |r.loc|
  }

  /** A request after the forward. */
  ghost function After<K>(f: Forward<K>, reqs: seq<Req<K>>, sh: Shape, i: nat): (r: Req<K>)
    requires ShapeOk(sh) && ForwardOk(f, reqs, sh) && i < |reqs|
    ensures ReqOk(r, sh) && r.slot == reqs[i].slot && r.first == reqs[i].first && r.loc == reqs[i].loc
  {
    assert Span(f, i) && Fits(f, reqs[i], i);
    reqs[i].(keys := reqs[i].keys + f.k[f.cu[i]..f.cu[i + 1]])
  }

  // ---- the plan: where each row goes ----

  /** `batch.positions`. */
  function Position<K>(f: Forward<K>, reqs: seq<Req<K>>, row: nat): (p: nat)
    requires row < |f.who| && InSpan(f, row) && |f.cu| == |reqs| + 1
    ensures p >= |reqs[f.who[row]].keys|
  {
    |reqs[f.who[row]].keys| + (row - f.cu[f.who[row]])
  }

  /** The row's place among its request's keys, and its physical slot. */
  lemma RowPlace<K>(f: Forward<K>, reqs: seq<Req<K>>, sh: Shape, row: nat)
    requires ShapeOk(sh) && ForwardOk(f, reqs, sh) && row < |f.k|
    ensures InSpan(f, row) && f.who[row] < |reqs|
    ensures var i, p, r := f.who[row], Position(f, reqs, row), After(f, reqs, sh, f.who[row]);
      && p < |r.keys| && r.keys[p] == f.k[row] && p < |reqs[i].loc|
      && |r.keys| - p == f.cu[i + 1] - row && r.first <= p
  {
    var i := f.who[row];
    assert InSpan(f, row);
    assert Span(f, i) && ReqOk(reqs[i], sh) && Fits(f, reqs[i], i);
    var fresh_ := f.k[f.cu[i]..f.cu[i + 1]];
    assert fresh_[row - f.cu[i]] == f.k[row];
  }

  /** The slab row of a closing token; its request's scratch row otherwise. */
  function CmpRow<K>(f: Forward<K>, reqs: seq<Req<K>>, sh: Shape, row: nat): nat
    requires row < |f.who| && InSpan(f, row) && |f.cu| == |reqs| + 1 && sh.kp > 0
    requires Position(f, reqs, row) < |reqs[f.who[row]].loc|
  {
    var r, p := reqs[f.who[row]], Position(f, reqs, row);
    if Closing(p, sh.kp) then Quo(r.loc[p], sh.kp) else sh.base + r.slot
  }

  /** Only a request's last `cap` rows go to its ring. */
  predicate Keep<K>(f: Forward<K>, sh: Shape, row: nat)
    requires row < |f.who| && InSpan(f, row)
  {
    row >= f.cu[f.who[row] + 1] - sh.cap
  }

  /** Slots of tokens are private: no two tokens of the forward share one, and none is the slot of a
      token some request already has. */
  ghost predicate Private<K>(f: Forward<K>, reqs: seq<Req<K>>, sh: Shape)
    requires ShapeOk(sh) && ForwardOk(f, reqs, sh)
  {
    && (forall a, b :: 0 <= a < b < |f.k| ==> Slot(f, reqs, sh, a) != Slot(f, reqs, sh, b))
    && (forall a, i, q :: 0 <= a < |f.k| && 0 <= i < |reqs| && 0 <= q < |reqs[i].keys| ==> Slot(f, reqs, sh, a) != OldSlot(reqs, sh, i, q))
  }

  ghost function OldSlot<K>(reqs: seq<Req<K>>, sh: Shape, i: nat, q: nat): nat {
    if i < |reqs| && q < |reqs[i].loc| then reqs[i].loc[q] else 0
  }

  ghost function Slot<K>(f: Forward<K>, reqs: seq<Req<K>>, sh: Shape, row: nat): nat
    requires ShapeOk(sh) && ForwardOk(f, reqs, sh) && row < |f.k|
  {
    RowPlace(f, reqs, sh, row);
    reqs[f.who[row]].loc[Position(f, reqs, row)]
  }

  // ---- no two rows meet ----

  /** Closing tokens in different slots have different slab rows, all below the scratch rows. */
  lemma SlabRowsDiffer(a: nat, b: nat, kp: nat)
    requires kp > 0 && a != b && Closing(a, kp) && Closing(b, kp)
    ensures Quo(a, kp) != Quo(b, kp)
  {
    if Quo(a, kp) == Quo(b, kp) { QuoRemDecide(a, b, kp); }
  }

  /** MAIN: no two closing rows of a forward share a slab row, none hits a scratch row, and none hits
      the row of a group completed before. */
  lemma NoSlabCollision<K>(f: Forward<K>, reqs: seq<Req<K>>, sh: Shape, a: nat)
    requires ShapeOk(sh) && ForwardOk(f, reqs, sh) && Private(f, reqs, sh) && a < |f.k|
    requires InSpan(f, a) && Closing(Position(f, reqs, a), sh.kp)
    ensures Position(f, reqs, a) < |reqs[f.who[a]].loc| && CmpRow(f, reqs, sh, a) < sh.base
    ensures forall b :: 0 <= b < |f.k| && b != a ==>
      InSpan(f, b) && Position(f, reqs, b) < |reqs[f.who[b]].loc| && CmpRow(f, reqs, sh, b) != CmpRow(f, reqs, sh, a)
    ensures forall i, q :: 0 <= i < |reqs| && 0 <= q < |reqs[i].keys| && q < |reqs[i].loc| && Closing(q, sh.kp) ==>
      Quo(reqs[i].loc[q], sh.kp) != CmpRow(f, reqs, sh, a)
  {
    RowPlace(f, reqs, sh, a);
    var r, p := reqs[f.who[a]], Position(f, reqs, a);
    assert ReqOk(r, sh);
    forall b: nat | b < |f.k| && b != a
      ensures InSpan(f, b) && Position(f, reqs, b) < |reqs[f.who[b]].loc| && CmpRow(f, reqs, sh, b) != CmpRow(f, reqs, sh, a)
    {
      RowPlace(f, reqs, sh, b);
      assert ReqOk(reqs[f.who[b]], sh);
      if Closing(Position(f, reqs, b), sh.kp) {
        assert Slot(f, reqs, sh, a) != Slot(f, reqs, sh, b);
        SlabRowsDiffer(Slot(f, reqs, sh, a), Slot(f, reqs, sh, b), sh.kp);
      }
    }
    forall i: nat, q: nat | i < |reqs| && q < |reqs[i].keys| && q < |reqs[i].loc| && Closing(q, sh.kp)
      ensures Quo(reqs[i].loc[q], sh.kp) != CmpRow(f, reqs, sh, a)
    {
      assert ReqOk(reqs[i], sh);
      assert Slot(f, reqs, sh, a) != OldSlot(reqs, sh, i, q);
      SlabRowsDiffer(Slot(f, reqs, sh, a), reqs[i].loc[q], sh.kp);
    }
  }

  /** MAIN: no two rows that are kept share a ring row. */
  lemma NoRingCollision<K>(f: Forward<K>, reqs: seq<Req<K>>, sh: Shape, a: nat, b: nat)
    requires ShapeOk(sh) && ForwardOk(f, reqs, sh) && a < b < |f.k|
    requires InSpan(f, a) && InSpan(f, b) && Keep(f, sh, a) && Keep(f, sh, b)
    ensures f.who[a] < |reqs| && f.who[b] < |reqs|
    ensures RingRow(sh, reqs[f.who[a]].slot, Position(f, reqs, a)) != RingRow(sh, reqs[f.who[b]].slot, Position(f, reqs, b))
  {
    var i, j := f.who[a], f.who[b];
    RingRowDistinct(sh, reqs[i].slot, Position(f, reqs, a), reqs[j].slot, Position(f, reqs, b));
  }

  // ---- the store ----

  /** What a closing row must pool: the raw keys of its group. */
  ghost function GroupOf<K>(f: Forward<K>, reqs: seq<Req<K>>, sh: Shape, row: nat): seq<K>
    requires ShapeOk(sh) && ForwardOk(f, reqs, sh) && row < |f.k| && InSpan(f, row) && Closing(Position(f, reqs, row), sh.kp)
  {
    RowPlace(f, reqs, sh, row);
    var p := Position(f, reqs, row);
    After(f, reqs, sh, f.who[row]).keys[p + 1 - sh.kp..p + 1]
  }

  ghost predicate IsClosing<K>(f: Forward<K>, reqs: seq<Req<K>>, sh: Shape, row: nat)
    requires ShapeOk(sh) && ForwardOk(f, reqs, sh) && row < |f.k|
  {
    assert InSpan(f, row);
    Closing(Position(f, reqs, row), sh.kp)
  }

  ghost function SlabRow<K>(f: Forward<K>, reqs: seq<Req<K>>, sh: Shape, row: nat): nat
    requires ShapeOk(sh) && ForwardOk(f, reqs, sh) && row < |f.k|
  {
    RowPlace(f, reqs, sh, row);
    CmpRow(f, reqs, sh, row)
  }

  /** A row that closes has its group in the slab. */
  ghost predicate Pooled<K>(slab: seq<seq<K>>, f: Forward<K>, reqs: seq<Req<K>>, sh: Shape, row: nat)
    requires ShapeOk(sh) && ForwardOk(f, reqs, sh) && row < |f.k|
  {
    IsClosing(f, reqs, sh, row) ==>
      SlabRow(f, reqs, sh, row) < |slab| && slab[SlabRow(f, reqs, sh, row)] == GroupOf(f, reqs, sh, row)
  }

  ghost predicate SlabHit<K>(f: Forward<K>, reqs: seq<Req<K>>, sh: Shape, x: nat)
    requires ShapeOk(sh) && ForwardOk(f, reqs, sh)
  {
    exists a :: 0 <= a < |f.k| && IsClosing(f, reqs, sh, a) && SlabRow(f, reqs, sh, a) == x
  }

  ghost predicate Kept<K>(f: Forward<K>, sh: Shape, row: nat)
    requires row < |f.who|
  {
    InSpan(f, row) && Keep(f, sh, row)
  }

  ghost function RingOf<K>(f: Forward<K>, reqs: seq<Req<K>>, sh: Shape, row: nat): (x: nat)
    requires ShapeOk(sh) && ForwardOk(f, reqs, sh) && row < |f.k|
    ensures x < sh.slots * sh.cap
  {
    RowPlace(f, reqs, sh, row);
    assert ReqOk(reqs[f.who[row]], sh);
    RingRowFits(sh, reqs[f.who[row]].slot, Position(f, reqs, row));
    RingRow(sh, reqs[f.who[row]].slot, Position(f, reqs, row))
  }

  /** A row that is kept has its key in the ring. */
  ghost predicate InRing<K>(ring: seq<K>, f: Forward<K>, reqs: seq<Req<K>>, sh: Shape, row: nat)
    requires ShapeOk(sh) && ForwardOk(f, reqs, sh) && row < |f.k|
  {
    Kept(f, sh, row) ==> RingOf(f, reqs, sh, row) < |ring| && ring[RingOf(f, reqs, sh, row)] == f.k[row]
  }

  ghost predicate RingHit<K>(f: Forward<K>, reqs: seq<Req<K>>, sh: Shape, x: nat)
    requires ShapeOk(sh) && ForwardOk(f, reqs, sh)
  {
    exists a :: 0 <= a < |f.k| && Kept(f, sh, a) && RingOf(f, reqs, sh, a) == x
  }

  class IndexPool<K> {
    const sh: Shape
    const slab: array<seq<K>>
    const ring: array<K>

    ghost predicate Valid() {
      ShapeOk(sh) && slab.Length == sh.base + sh.slots && ring.Length == sh.slots * sh.cap
    }

    /** Slab and ring are right for this request. */
    ghost predicate Holds(r: Req<K>)
      requires Valid() && ReqOk(r, sh)
      reads slab, ring
    {
      RingHolds(ring[..], sh, r) && SlabHolds(slab[..], sh, r)
    }

    constructor (sh: Shape, slab: array<seq<K>>, ring: array<K>)
      requires ShapeOk(sh) && slab.Length == sh.base + sh.slots && ring.Length == sh.slots * sh.cap
      ensures Valid() && this.sh == sh && this.slab == slab && this.ring == ring
    {
      this.sh, this.slab, this.ring := sh, slab, ring;
    }

    /** The members of a row's group: keys of this forward where it has them, older ones from the
        ring. For a row that closes they are exactly its group's raw keys. */
    method Gather(f: Forward<K>, reqs: seq<Req<K>>, row: nat) returns (members: seq<K>)
      requires Valid() && ForwardOk(f, reqs, sh) && row < |f.k|
      requires InSpan(f, row) && RingHolds(ring[..], sh, reqs[f.who[row]])
      ensures Closing(Position(f, reqs, row), sh.kp) ==> members == GroupOf(f, reqs, sh, row)
    {
      var i := f.who[row];
      var r, p := reqs[i], Position(f, reqs, row);
      RowPlace(f, reqs, sh, row);
      assert Span(f, i) && ReqOk(r, sh);
      members := [];
      if p < sh.kp - 1 { return; }
      var chunkStart := p - (row - f.cu[i]);
      ghost var grown := After(f, reqs, sh, i);
      for off := 0 to sh.kp
        invariant Closing(p, sh.kp) ==> members == grown.keys[p + 1 - sh.kp..p + 1 - sh.kp + off]
      {
        var position := p - (sh.kp - 1 - off);
        RingRowFits(sh, r.slot, position);
        var member := if position >= chunkStart then f.k[f.cu[i] + (position - chunkStart)] else ring[RingRow(sh, r.slot, position)];
        if Closing(p, sh.kp) { MemberIsKey(f, reqs, row, position, member); }
        members := members + [member];
      }
    }

    lemma MemberIsKey(f: Forward<K>, reqs: seq<Req<K>>, row: nat, position: nat, member: K)
      requires Valid() && ForwardOk(f, reqs, sh) && row < |f.k| && InSpan(f, row)
      requires RingHolds(ring[..], sh, reqs[f.who[row]])
      requires Closing(Position(f, reqs, row), sh.kp)
      requires position <= Position(f, reqs, row) < position + sh.kp
      requires var i := f.who[row]; var r, p := reqs[i], Position(f, reqs, row);
        var chunkStart := p - (row - f.cu[i]);
        if position >= chunkStart then f.cu[i] + (position - chunkStart) < |f.k| && member == f.k[f.cu[i] + (position - chunkStart)]
        else RingRow(sh, r.slot, position) < ring.Length && member == ring[RingRow(sh, r.slot, position)]
      ensures position < |After(f, reqs, sh, f.who[row]).keys| && member == After(f, reqs, sh, f.who[row]).keys[position]
    {
      var i, p := f.who[row], Position(f, reqs, row);
      var r := reqs[i];
      RowPlace(f, reqs, sh, row);
      assert Span(f, i) && ReqOk(r, sh);
      var fresh_ := f.k[f.cu[i]..f.cu[i + 1]];
      if position >= |r.keys| {
        assert fresh_[position - |r.keys|] == f.k[f.cu[i] + (position - |r.keys|)];
      } else {
        GroupStart(p, position, r.first, sh.kp);
        assert RingHas(ring[..], sh, r, position);
      }
    }

    /** Compress every row, in any order. */
    method Compress(f: Forward<K>, reqs: seq<Req<K>>)
      requires Valid() && ForwardOk(f, reqs, sh) && Private(f, reqs, sh) && slab != ring
      requires forall i :: 0 <= i < |reqs| ==> ReqOk(reqs[i], sh) && RingHolds(ring[..], sh, reqs[i])
      modifies slab
      ensures forall a :: 0 <= a < |f.k| ==> Pooled(slab[..], f, reqs, sh, a)
      ensures forall x :: 0 <= x < sh.base ==> slab[x] == old(slab[x]) || SlabHit(f, reqs, sh, x)
    {
      var pending := set a {:trigger f.k[a]} | 0 <= a < |f.k|;
      while pending != {}
        invariant forall a :: a in pending ==> 0 <= a < |f.k|
        invariant forall a :: 0 <= a < |f.k| && a !in pending ==> Pooled(slab[..], f, reqs, sh, a)
        invariant forall x :: 0 <= x < sh.base ==> slab[x] == old(slab[x]) || SlabHit(f, reqs, sh, x)
        decreases |pending|
      {
        var row := AnyOf(pending);
        RowPlace(f, reqs, sh, row);
        var members := Gather(f, reqs, row);
        ghost var was := slab[..];
        var dest := CmpRow(f, reqs, sh, row);
        DestFits(f, reqs, sh, row);
        slab[dest] := members;
        OthersStay(f, reqs, sh, row, was, slab[..]);
        pending := pending - {row};
      }
    }

    /** Put each request's newest keys in its ring, in any order. */
    method Refresh(f: Forward<K>, reqs: seq<Req<K>>)
      requires Valid() && ForwardOk(f, reqs, sh)
      modifies ring
      ensures forall a :: 0 <= a < |f.k| ==> InRing(ring[..], f, reqs, sh, a)
      ensures forall x :: 0 <= x < ring.Length ==> ring[x] == old(ring[x]) || RingHit(f, reqs, sh, x)
    {
      var pending := set a {:trigger f.k[a]} | 0 <= a < |f.k|;
      while pending != {}
        invariant forall a :: a in pending ==> 0 <= a < |f.k|
        invariant forall a :: 0 <= a < |f.k| && a !in pending ==> InRing(ring[..], f, reqs, sh, a)
        invariant forall x :: 0 <= x < ring.Length ==> ring[x] == old(ring[x]) || RingHit(f, reqs, sh, x)
        decreases |pending|
      {
        var row := AnyOf(pending);
        RowPlace(f, reqs, sh, row);
        if Keep(f, sh, row) {
          ghost var was := ring[..];
          var dest := RingRow(sh, reqs[f.who[row]].slot, Position(f, reqs, row));
          assert dest == RingOf(f, reqs, sh, row) && Kept(f, sh, row);
          ring[dest] := f.k[row];
          RingOthers(f, reqs, sh, row, was, ring[..]);
        }
        pending := pending - {row};
      }
    }
  }

  /** A group that was complete before. */
  lemma OldGroup<K>(f: Forward<K>, reqs: seq<Req<K>>, sh: Shape, i: nat, was: seq<seq<K>>, now: seq<seq<K>>, grown: Req<K>, p: nat)
    requires ShapeOk(sh) && ForwardOk(f, reqs, sh) && Private(f, reqs, sh) && i < |reqs|
    requires |was| == |now| >= sh.base && ReqOk(reqs[i], sh) && SlabHolds(was, sh, reqs[i])
    requires forall x :: 0 <= x < sh.base ==> now[x] == was[x] || SlabHit(f, reqs, sh, x)
    requires grown == After(f, reqs, sh, i) && p < |reqs[i].keys| <= |grown.keys| && Closing(p, sh.kp)
    ensures SlabHas(now, sh, grown, p)
  {
    var r := reqs[i];
    assert SlabHas(was, sh, r, p);
    OldRowStays(f, reqs, sh, i, p);
    SliceOfPrefix(r.keys, f.k[f.cu[i]..f.cu[i + 1]], p + 1 - sh.kp, p + 1);
  }

  lemma SliceOfPrefix<K>(a: seq<K>, b: seq<K>, lo: int, hi: int)
    requires 0 <= lo <= hi <= |a|
    ensures (a + b)[lo..hi] == a[lo..hi]
  {
  }

  /** A group that closes in this forward. */
  lemma NewGroup<K>(f: Forward<K>, reqs: seq<Req<K>>, sh: Shape, i: nat, now: seq<seq<K>>, grown: Req<K>, p: nat)
    requires ShapeOk(sh) && ForwardOk(f, reqs, sh) && i < |reqs| && ReqOk(reqs[i], sh) && |now| >= sh.base
    requires forall a :: 0 <= a < |f.k| ==> Pooled(now, f, reqs, sh, a)
    requires grown == After(f, reqs, sh, i) && |reqs[i].keys| <= p < |grown.keys| && Closing(p, sh.kp)
    ensures SlabHas(now, sh, grown, p)
  {
    assert Span(f, i);
    var a := f.cu[i] + (p - |reqs[i].keys|);
    assert f.who[a] == i && InSpan(f, a);
    assert Pooled(now, f, reqs, sh, a) && IsClosing(f, reqs, sh, a);
  }

  /** After the forward every complete group of a request is pooled in its own row. */
  lemma SlabAfter<K>(f: Forward<K>, reqs: seq<Req<K>>, sh: Shape, i: nat, was: seq<seq<K>>, now: seq<seq<K>>)
    requires ShapeOk(sh) && ForwardOk(f, reqs, sh) && Private(f, reqs, sh) && i < |reqs|
    requires |was| == |now| >= sh.base && ReqOk(reqs[i], sh) && SlabHolds(was, sh, reqs[i])
    requires forall a :: 0 <= a < |f.k| ==> Pooled(now, f, reqs, sh, a)
    requires forall x :: 0 <= x < sh.base ==> now[x] == was[x] || SlabHit(f, reqs, sh, x)
    ensures SlabHolds(now, sh, After(f, reqs, sh, i))
  {
    var grown := After(f, reqs, sh, i);
    forall p: nat | p < |grown.keys| && Closing(p, sh.kp) ensures SlabHas(now, sh, grown, p) {
      if p < |reqs[i].keys| {
        OldGroup(f, reqs, sh, i, was, now, grown, p);
      } else {
        NewGroup(f, reqs, sh, i, now, grown, p);
      }
    }
  }

  /** The row of a group completed before is not written. */
  lemma OldRowStays<K>(f: Forward<K>, reqs: seq<Req<K>>, sh: Shape, i: nat, p: nat)
    requires ShapeOk(sh) && ForwardOk(f, reqs, sh) && Private(f, reqs, sh) && i < |reqs|
    requires ReqOk(reqs[i], sh) && p < |reqs[i].keys| && Closing(p, sh.kp)
    ensures !SlabHit(f, reqs, sh, Quo(reqs[i].loc[p], sh.kp))
  {
    forall a: nat | a < |f.k| && IsClosing(f, reqs, sh, a) ensures SlabRow(f, reqs, sh, a) != Quo(reqs[i].loc[p], sh.kp) {
      assert InSpan(f, a);
      NoSlabCollision(f, reqs, sh, a);
    }
  }

  /** After the forward a request's ring has its newest keys. */
  lemma RingAfter<K>(f: Forward<K>, reqs: seq<Req<K>>, sh: Shape, i: nat, was: seq<K>, now: seq<K>)
    requires ShapeOk(sh) && ForwardOk(f, reqs, sh) && i < |reqs|
    requires |was| == |now| == sh.slots * sh.cap && ReqOk(reqs[i], sh) && RingHolds(was, sh, reqs[i])
    requires forall a :: 0 <= a < |f.k| ==> InRing(now, f, reqs, sh, a)
    requires forall x :: 0 <= x < |now| ==> now[x] == was[x] || RingHit(f, reqs, sh, x)
    ensures RingHolds(now, sh, After(f, reqs, sh, i))
  {
    var r, grown := reqs[i], After(f, reqs, sh, i);
    assert Span(f, i) && ReqOk(r, sh);
    forall p: nat | grown.first <= p < |grown.keys| && |grown.keys| <= p + sh.cap ensures RingHas(now, sh, grown, p) {
      RingRowFits(sh, r.slot, p);
      if p < |r.keys| {
        assert RingHas(was, sh, r, p);
        RingStays(f, reqs, sh, i, p);
      } else {
        var a := f.cu[i] + (p - |r.keys|);
        assert f.who[a] == i && InSpan(f, a) && Kept(f, sh, a);
        assert InRing(now, f, reqs, sh, a);
        RowPlace(f, reqs, sh, a);
      }
    }
  }

  /** A key that is still among the newest is not overwritten. */
  lemma RingStays<K>(f: Forward<K>, reqs: seq<Req<K>>, sh: Shape, i: nat, p: nat)
    requires ShapeOk(sh) && ForwardOk(f, reqs, sh) && i < |reqs| && ReqOk(reqs[i], sh)
    requires p < |reqs[i].keys| && |After(f, reqs, sh, i).keys| <= p + sh.cap
    ensures !RingHit(f, reqs, sh, RingRow(sh, reqs[i].slot, p))
  {
    forall a: nat | a < |f.k| && Kept(f, sh, a) ensures RingOf(f, reqs, sh, a) != RingRow(sh, reqs[i].slot, p) {
      RowPlace(f, reqs, sh, a);
      RingRowDistinct(sh, reqs[i].slot, p, reqs[f.who[a]].slot, Position(f, reqs, a));
    }
  }

  /** MAIN: one forward: compress first, then refresh. Whatever was right for a request before is
      right for it with its new keys. */
  method StoreIndex<K>(pool: IndexPool<K>, f: Forward<K>, reqs: seq<Req<K>>)
    requires pool.Valid() && pool.slab != pool.ring && ForwardOk(f, reqs, pool.sh) && Private(f, reqs, pool.sh)
    requires forall i :: 0 <= i < |reqs| ==> ReqOk(reqs[i], pool.sh) && pool.Holds(reqs[i])
    modifies pool.slab, pool.ring
    ensures forall i :: 0 <= i < |reqs| ==> pool.Holds(After(f, reqs, pool.sh, i))
    ensures forall x :: 0 <= x < pool.sh.base ==> pool.slab[x] == old(pool.slab[x]) || SlabHit(f, reqs, pool.sh, x)
    ensures forall x :: 0 <= x < pool.ring.Length ==> pool.ring[x] == old(pool.ring[x]) || RingHit(f, reqs, pool.sh, x)
  {
    ghost var slab0, ring0 := pool.slab[..], pool.ring[..];
    pool.Compress(f, reqs);
    ghost var slab1 := pool.slab[..];
    pool.Refresh(f, reqs);
    assert pool.slab[..] == slab1;
    forall i: nat | i < |reqs| ensures pool.Holds(After(f, reqs, pool.sh, i)) {
      SlabAfter(f, reqs, pool.sh, i, slab0, slab1);
      RingAfter(f, reqs, pool.sh, i, ring0, pool.ring[..]);
    }
  }

  // ---- forwards one after the other, with requests coming and going ----

  ghost function AllAfter<K>(f: Forward<K>, reqs: seq<Req<K>>, sh: Shape): (r: seq<Req<K>>)
    requires ShapeOk(sh) && ForwardOk(f, reqs, sh)
    ensures |r| == |reqs|
  {
    seq(|reqs|, i requires 0 <= i < |reqs| => After(f, reqs, sh, i))
  }

  /** One forward: the requests that run, the prefixes whose pages the cache keeps, and the new keys. */
  datatype Turn<K> = Turn(reqs: seq<Req<K>>, cached: seq<Req<K>>, f: Forward<K>)

  /** New tokens get pages that neither a running request nor the cache holds. */
  ghost predicate TurnOk<K>(t: Turn<K>, sh: Shape)
    requires ShapeOk(sh)
  {
    && ForwardOk(t.f, t.reqs, sh) && Private(t.f, t.reqs, sh)
    && (forall j :: 0 <= j < |t.cached| ==> ReqOk(t.cached[j], sh))
    && (forall a, j, q :: 0 <= a < |t.f.k| && 0 <= j < |t.cached| && 0 <= q < |t.cached[j].keys| ==>
          Slot(t.f, t.reqs, sh, a) != OldSlot(t.cached, sh, j, q))
  }

  /** What there is behind a turn: the requests with their new keys, and the cache. */
  ghost function Behind<K>(t: Turn<K>, sh: Shape): seq<Req<K>>
    requires ShapeOk(sh) && TurnOk(t, sh)
  {
    AllAfter(t.f, t.reqs, sh) + t.cached
  }

  /** `r` starts with the pages and keys of `o`. */
  ghost predicate SharesPrefix<K>(o: Req<K>, r: Req<K>) {
    && |r.keys| <= |o.keys| && |o.keys| <= |o.loc| && |r.keys| <= |r.loc|
    && r.keys == o.keys[..|r.keys|] && r.loc[..|r.keys|] == o.loc[..|r.keys|]
  }

  /** A request that comes in: it has nothing, or a prefix that is there, and no key in a ring. Its ring slot
      may have been another's. */
  ghost predicate ComesIn<K>(r: Req<K>, there: seq<Req<K>>) {
    r.first == |r.keys| && (r.keys == [] || exists j :: 0 <= j < |there| && SharesPrefix(there[j], r))
  }

  /** The next turn: every request goes on or comes in, others are gone; the cache keeps what it likes. */
  ghost predicate Follows<K>(t: Turn<K>, u: Turn<K>, sh: Shape)
    requires ShapeOk(sh) && TurnOk(t, sh)
  {
    && (forall i :: 0 <= i < |u.reqs| ==> u.reqs[i] in AllAfter(t.f, t.reqs, sh) || ComesIn(u.reqs[i], Behind(t, sh)))
    && (forall j :: 0 <= j < |u.cached| ==> u.cached[j] in Behind(t, sh))
  }

  ghost predicate Session<K>(turns: seq<Turn<K>>, sh: Shape)
    requires ShapeOk(sh)
  {
    && turns != [] && (forall k :: 0 <= k < |turns| ==> TurnOk(turns[k], sh))
    && (forall k :: 0 <= k < |turns| - 1 ==> Follows(turns[k], turns[k + 1], sh))
  }

  /** The requests running at the end, each with all the keys it got. */
  ghost function Served<K>(turns: seq<Turn<K>>, sh: Shape): (r: seq<Req<K>>)
    requires ShapeOk(sh) && Session(turns, sh)
    ensures forall i :: 0 <= i < |r| ==> ReqOk(r[i], sh)
  {
    AllAfter(turns[|turns| - 1].f, turns[|turns| - 1].reqs, sh)
  }

  /** Slab and rings are right for the requests, and the slab for the cache. */
  ghost predicate Right<K>(pool: IndexPool<K>, reqs: seq<Req<K>>, cached: seq<Req<K>>)
    requires pool.Valid()
    reads pool.slab, pool.ring
  {
    && (forall i :: 0 <= i < |reqs| ==> ReqOk(reqs[i], pool.sh) && pool.Holds(reqs[i]))
    && (forall j :: 0 <= j < |cached| ==> ReqOk(cached[j], pool.sh) && SlabHolds(pool.slab[..], pool.sh, cached[j]))
  }

  /** A forward does not touch what the cache keeps. */
  lemma CachedStays<K>(t: Turn<K>, sh: Shape, j: nat, was: seq<seq<K>>, now: seq<seq<K>>)
    requires ShapeOk(sh) && TurnOk(t, sh) && j < |t.cached| && ReqOk(t.cached[j], sh)
    requires |was| == |now| >= sh.base && SlabHolds(was, sh, t.cached[j])
    requires forall x :: 0 <= x < sh.base ==> now[x] == was[x] || SlabHit(t.f, t.reqs, sh, x)
    ensures SlabHolds(now, sh, t.cached[j])
  {
    var c := t.cached[j];
    forall p: nat | p < |c.keys| && Closing(p, sh.kp) ensures SlabHas(now, sh, c, p) {
      assert SlabHas(was, sh, c, p);
      forall a: nat | a < |t.f.k| && IsClosing(t.f, t.reqs, sh, a) ensures SlabRow(t.f, t.reqs, sh, a) != Quo(c.loc[p], sh.kp) {
        RowPlace(t.f, t.reqs, sh, a);
        assert ReqOk(t.reqs[t.f.who[a]], sh);
        assert Slot(t.f, t.reqs, sh, a) != OldSlot(t.cached, sh, j, p);
        SlabRowsDiffer(Slot(t.f, t.reqs, sh, a), c.loc[p], sh.kp);
      }
    }
  }

  /** A prefix that is shared is right for whoever shares it. */
  lemma SharedIsRight<K>(slab: seq<seq<K>>, sh: Shape, o: Req<K>, r: Req<K>)
    requires ShapeOk(sh) && ReqOk(o, sh) && ReqOk(r, sh) && |slab| >= sh.base
    requires SlabHolds(slab, sh, o) && SharesPrefix(o, r)
    ensures SlabHolds(slab, sh, r)
  {
    forall p: nat | p < |r.keys| && Closing(p, sh.kp) ensures SlabHas(slab, sh, r, p) {
      assert SlabHas(slab, sh, o, p);
      SharedGroup(o, r, sh.kp, p);
    }
  }

  /** A group of the shared prefix is in the same row and has the same keys. */
  lemma SharedGroup<K>(o: Req<K>, r: Req<K>, kp: nat, p: nat)
    requires SharesPrefix(o, r) && p < |r.keys| && 0 < kp <= p + 1
    ensures r.loc[p] == o.loc[p] && r.keys[p + 1 - kp..p + 1] == o.keys[p + 1 - kp..p + 1]
  {
    assert r.loc[p] == r.loc[..|r.keys|][p] && o.loc[p] == o.loc[..|r.keys|][p];
    SliceOfTake(o.keys, |r.keys|, p + 1 - kp, p + 1);
  }

  lemma SliceOfTake<K>(s: seq<K>, n: nat, lo: nat, hi: nat)
    requires lo <= hi <= n <= |s|
    ensures s[..n][lo..hi] == s[lo..hi]
  {
  }

  lemma ComesInRight<K>(pool: IndexPool<K>, r: Req<K>, there: seq<Req<K>>)
    requires pool.Valid() && ReqOk(r, pool.sh) && ComesIn(r, there)
    requires forall j :: 0 <= j < |there| ==> ReqOk(there[j], pool.sh) && SlabHolds(pool.slab[..], pool.sh, there[j])
    ensures pool.Holds(r)
  {
    if r.keys != [] {
      var j :| 0 <= j < |there| && SharesPrefix(there[j], r);
      SharedIsRight(pool.slab[..], pool.sh, there[j], r);
    }
  }

  /** From the end of one turn to the beginning of the next nothing is written. */
  lemma NextIsRight<K>(pool: IndexPool<K>, t: Turn<K>, u: Turn<K>)
    requires pool.Valid() && TurnOk(t, pool.sh) && TurnOk(u, pool.sh) && Follows(t, u, pool.sh)
    requires Right(pool, AllAfter(t.f, t.reqs, pool.sh), t.cached)
    ensures Right(pool, u.reqs, u.cached)
  {
    var there := Behind(t, pool.sh);
    forall j | 0 <= j < |there| ensures ReqOk(there[j], pool.sh) && SlabHolds(pool.slab[..], pool.sh, there[j]) {
      if j < |t.reqs| { assert pool.Holds(AllAfter(t.f, t.reqs, pool.sh)[j]); }
    }
    forall i | 0 <= i < |u.reqs| ensures ReqOk(u.reqs[i], pool.sh) && pool.Holds(u.reqs[i]) {
      if u.reqs[i] !in AllAfter(t.f, t.reqs, pool.sh) { ComesInRight(pool, u.reqs[i], there); }
    }
  }

  /** One turn. */
  method ServeTurn<K>(pool: IndexPool<K>, t: Turn<K>)
    requires pool.Valid() && pool.slab != pool.ring && TurnOk(t, pool.sh) && Right(pool, t.reqs, t.cached)
    modifies pool.slab, pool.ring
    ensures Right(pool, AllAfter(t.f, t.reqs, pool.sh), t.cached)
  {
    ghost var slab0 := pool.slab[..];
    StoreIndex(pool, t.f, t.reqs);
    forall j | 0 <= j < |t.cached| ensures SlabHolds(pool.slab[..], pool.sh, t.cached[j]) {
      CachedStays(t, pool.sh, j, slab0, pool.slab[..]);
    }
  }

  /** MAIN: however the prompts are cut into forwards and batched together, and whatever requests come and go
      between them, taking over ring slots and cached prefixes, at the end the slab rows and the ring of each
      running request are those of all the keys it got. */
  method Serve<K>(pool: IndexPool<K>, turns: seq<Turn<K>>)
    requires pool.Valid() && pool.slab != pool.ring && Session(turns, pool.sh)
    requires Right(pool, turns[0].reqs, turns[0].cached)
    modifies pool.slab, pool.ring
    ensures Right(pool, Served(turns, pool.sh), turns[|turns| - 1].cached)
  {
    ServeTurn(pool, turns[0]);
    for k := 1 to |turns|
      invariant Right(pool, AllAfter(turns[k - 1].f, turns[k - 1].reqs, pool.sh), turns[k - 1].cached)
    {
      NextIsRight(pool, turns[k - 1], turns[k]);
      ServeTurn(pool, turns[k]);
    }
  }

  /** Two pools agree on a request, wherever each has put it: on the slab rows of its complete groups, and on
      the live part of its ring. */
  ghost predicate Agree<K>(sh: Shape, r1: Req<K>, slab1: seq<seq<K>>, ring1: seq<K>, r2: Req<K>, slab2: seq<seq<K>>, ring2: seq<K>)
    requires ShapeOk(sh) && ReqOk(r1, sh) && ReqOk(r2, sh) && r1.keys == r2.keys
    requires |slab1| >= sh.base && |slab2| >= sh.base && |ring1| == |ring2| == sh.slots * sh.cap
  {
    && (forall p :: 0 <= p < |r1.keys| && Closing(p, sh.kp) ==> slab1[Quo(r1.loc[p], sh.kp)] == slab2[Quo(r2.loc[p], sh.kp)])
    && (forall p :: r1.first <= p < |r1.keys| && r2.first <= p && |r1.keys| <= p + sh.cap ==>
          RingRow(sh, r1.slot, p) < |ring1| && RingRow(sh, r2.slot, p) < |ring2|
          && ring1[RingRow(sh, r1.slot, p)] == ring2[RingRow(sh, r2.slot, p)])
  }

  lemma BothHold<K>(sh: Shape, r1: Req<K>, slab1: seq<seq<K>>, ring1: seq<K>, r2: Req<K>, slab2: seq<seq<K>>, ring2: seq<K>)
    requires ShapeOk(sh) && ReqOk(r1, sh) && ReqOk(r2, sh) && r1.keys == r2.keys
    requires |slab1| >= sh.base && |slab2| >= sh.base && |ring1| == |ring2| == sh.slots * sh.cap
    requires SlabHolds(slab1, sh, r1) && SlabHolds(slab2, sh, r2) && RingHolds(ring1, sh, r1) && RingHolds(ring2, sh, r2)
    ensures Agree(sh, r1, slab1, ring1, r2, slab2, ring2)
  {
    forall p | 0 <= p < |r1.keys| && Closing(p, sh.kp) ensures slab1[Quo(r1.loc[p], sh.kp)] == slab2[Quo(r2.loc[p], sh.kp)] {
      assert SlabHas(slab1, sh, r1, p) && SlabHas(slab2, sh, r2, p);
    }
    forall p | r1.first <= p < |r1.keys| && r2.first <= p && |r1.keys| <= p + sh.cap
      ensures RingRow(sh, r1.slot, p) < |ring1| && RingRow(sh, r2.slot, p) < |ring2|
        && ring1[RingRow(sh, r1.slot, p)] == ring2[RingRow(sh, r2.slot, p)]
    {
      RingRowFits(sh, r1.slot, p);
      RingRowFits(sh, r2.slot, p);
      assert RingHas(ring1, sh, r1, p) && RingHas(ring2, sh, r2, p);
    }
  }

  /** MAIN: chunking invariance. A request that got the same keys in two pools, in two sessions that cut and
      batch as they like, give it whatever pages and ring slot, and beside whatever other requests, ends with
      the same pooled groups and the same live ring. */
  method ChunkingInvariant<K>(pool1: IndexPool<K>, turns1: seq<Turn<K>>, i1: nat, pool2: IndexPool<K>, turns2: seq<Turn<K>>, i2: nat)
    requires pool1.sh == pool2.sh && pool1.Valid() && pool2.Valid() && pool1.slab != pool1.ring && pool2.slab != pool2.ring
    requires pool1.slab != pool2.slab && pool1.slab != pool2.ring && pool1.ring != pool2.slab && pool1.ring != pool2.ring
    requires Session(turns1, pool1.sh) && Right(pool1, turns1[0].reqs, turns1[0].cached)
    requires Session(turns2, pool2.sh) && Right(pool2, turns2[0].reqs, turns2[0].cached)
    requires i1 < |Served(turns1, pool1.sh)| && i2 < |Served(turns2, pool2.sh)|
    requires Served(turns1, pool1.sh)[i1].keys == Served(turns2, pool2.sh)[i2].keys
    modifies pool1.slab, pool1.ring, pool2.slab, pool2.ring
    ensures Agree(pool1.sh, Served(turns1, pool1.sh)[i1], pool1.slab[..], pool1.ring[..],
              Served(turns2, pool2.sh)[i2], pool2.slab[..], pool2.ring[..])
  {
    ghost var r1, r2 := Served(turns1, pool1.sh)[i1], Served(turns2, pool2.sh)[i2];
    Serve(pool1, turns1);
    assert pool1.Holds(r1);
    ghost var slab1, ring1 := pool1.slab[..], pool1.ring[..];
    Serve(pool2, turns2);
    assert pool2.Holds(r2);
    assert pool1.slab[..] == slab1 && pool1.ring[..] == ring1;
    BothHold(pool1.sh, r1, slab1, ring1, r2, pool2.slab[..], pool2.ring[..]);
  }

  // ---- why the refresh comes last ----

  /** The newest of the positions below `n` that share a ring row with `q`. */
  function Latest(q: nat, n: nat, cap: nat): (p: nat)
    requires cap > 0 && q < n
    ensures q <= p < n <= p + cap
    decreases n - q
  {
    if q + cap < n then Latest(q + cap, n, cap) else q
  }

  lemma {:induction false} LatestSharesRow(sh: Shape, slot: nat, q: nat, n: nat)
    requires sh.cap > 0 && q < n
    ensures RingRow(sh, slot, Latest(q, n, sh.cap)) == RingRow(sh, slot, q)
    decreases n - q
  {
    if q + sh.cap < n {
      LatestSharesRow(sh, slot, q + sh.cap, n);
      RefreshOverwrites(sh, slot, q);
    }
  }

  /** MAIN: what a compression that ran after the refresh would read for an older member of a group: not
      its key, but that of the newest token that shares its ring row. It is the member itself exactly if
      the forward does not reach a capacity beyond it. */
  lemma RefreshFirst<K>(f: Forward<K>, reqs: seq<Req<K>>, sh: Shape, i: nat, was: seq<K>, now: seq<K>, q: nat)
    requires ShapeOk(sh) && ForwardOk(f, reqs, sh) && i < |reqs|
    requires |was| == |now| == sh.slots * sh.cap && ReqOk(reqs[i], sh) && RingHolds(was, sh, reqs[i])
    requires forall a :: 0 <= a < |f.k| ==> InRing(now, f, reqs, sh, a)
    requires forall x :: 0 <= x < |now| ==> now[x] == was[x] || RingHit(f, reqs, sh, x)
    requires reqs[i].first <= q < |reqs[i].keys|
    ensures var r, grown := reqs[i], After(f, reqs, sh, i);
      && q < |grown.keys| && RingRow(sh, r.slot, q) < |now|
      && now[RingRow(sh, r.slot, q)] == grown.keys[Latest(q, |grown.keys|, sh.cap)]
      && (Latest(q, |grown.keys|, sh.cap) == q <==> |grown.keys| <= q + sh.cap)
  {
    var r, grown := reqs[i], After(f, reqs, sh, i);
    RingAfter(f, reqs, sh, i, was, now);
    var p := Latest(q, |grown.keys|, sh.cap);
    assert RingHas(now, sh, grown, p);
    LatestSharesRow(sh, r.slot, q, |grown.keys|);
    RingRowFits(sh, r.slot, q);
  }

  /** A group that closes at `p` begins no earlier than a group boundary before it. */
  lemma GroupStart(p: nat, position: nat, first: nat, kp: nat)
    requires kp > 0 && Closing(p, kp) && position <= p < position + kp && first <= p && Rem(first, kp) == 0
    ensures first <= position
  {
    if position < first { RemBack(p, p - first, kp); }
  }

  lemma DestFits<K>(f: Forward<K>, reqs: seq<Req<K>>, sh: Shape, row: nat)
    requires ShapeOk(sh) && ForwardOk(f, reqs, sh) && row < |f.k|
    ensures SlabRow(f, reqs, sh, row) < sh.base + sh.slots
    ensures IsClosing(f, reqs, sh, row) <==> SlabRow(f, reqs, sh, row) < sh.base
  {
    RowPlace(f, reqs, sh, row);
    assert ReqOk(reqs[f.who[row]], sh);
  }

  /** Writing one row leaves what the others pooled. */
  lemma OthersStay<K>(f: Forward<K>, reqs: seq<Req<K>>, sh: Shape, row: nat, was: seq<seq<K>>, now: seq<seq<K>>)
    requires ShapeOk(sh) && ForwardOk(f, reqs, sh) && Private(f, reqs, sh) && row < |f.k|
    requires |was| == |now| && forall x :: 0 <= x < |was| && x != SlabRow(f, reqs, sh, row) ==> now[x] == was[x]
    ensures forall a :: 0 <= a < |f.k| && a != row && Pooled(was, f, reqs, sh, a) ==> Pooled(now, f, reqs, sh, a)
  {
    forall a | 0 <= a < |f.k| && a != row && Pooled(was, f, reqs, sh, a) ensures Pooled(now, f, reqs, sh, a) {
      if IsClosing(f, reqs, sh, a) {
        NoSlabCollision(f, reqs, sh, a);
      }
    }
  }

  lemma RingOthers<K>(f: Forward<K>, reqs: seq<Req<K>>, sh: Shape, row: nat, was: seq<K>, now: seq<K>)
    requires ShapeOk(sh) && ForwardOk(f, reqs, sh) && row < |f.k| && Kept(f, sh, row)
    requires |was| == |now| && forall x :: 0 <= x < |was| && x != RingOf(f, reqs, sh, row) ==> now[x] == was[x]
    ensures forall a :: 0 <= a < |f.k| && a != row && InRing(was, f, reqs, sh, a) ==> InRing(now, f, reqs, sh, a)
  {
    forall a | 0 <= a < |f.k| && a != row && InRing(was, f, reqs, sh, a) ensures InRing(now, f, reqs, sh, a) {
      if Kept(f, sh, a) {
        if a < row { NoRingCollision(f, reqs, sh, a, row); } else { NoRingCollision(f, reqs, sh, row, a); }
      }
    }
  }
}
