/** The pooled index of sparse attention: every `kp` consecutive tokens of a request fold into one
    slab row; the raw keys of the newest tokens wait in a per-request ring until their group closes.
    A pooled row is kept as the list of the keys it pools, so that the result holds for any pooling. */
module PooledIndex {

  // ---- positions modulo a group or ring size ----

  function Quo(n: nat, k: nat): nat
    requires k > 0
  {
    if n < k then 0 else Quo(n - k, k) + 1
  }

  function Rem(n: nat, k: nat): (r: nat)
    requires k > 0
    ensures r < k && r <= n
  {
    if n < k then n else Rem(n - k, k)
  }

  lemma {:induction false} QuoRem(n: nat, k: nat)
    requires k > 0
    ensures n == Quo(n, k) * k + Rem(n, k)
    decreases n
  {
    if n >= k {
      QuoRem(n - k, k);
      assert (Quo(n - k, k) + 1) * k == Quo(n - k, k) * k + k;
    }
  }

  lemma MulMono(a: nat, b: nat, k: nat)
    requires a <= b
    ensures a * k <= b * k
  {
    assert b * k == a * k + (b - a) * k;
  }

  /** Rows of a lower block lie before those of a higher one. */
  lemma BlockOrder(a: nat, x: nat, b: nat, y: nat, k: nat)
    requires a < b && x < k
    ensures a * k + x < b * k + y
  {
    MulMono(a + 1, b, k);
    assert (a + 1) * k == a * k + k;
  }

  lemma DivModLaw(n: nat, k: nat)
    requires k > 0
    ensures n == (n / k) * k + n % k && 0 <= n % k < k && n / k >= 0
  {
  }

  /** They are division and remainder. */
  lemma QuoRemAreDivMod(n: nat, k: nat)
    requires k > 0
    ensures Quo(n, k) == n / k && Rem(n, k) == n % k
  {
    QuoRem(n, k);
    DivModLaw(n, k);
    if Quo(n, k) < n / k { BlockOrder(Quo(n, k), Rem(n, k), n / k, n % k, k); }
    if n / k < Quo(n, k) { BlockOrder(n / k, n % k, Quo(n, k), Rem(n, k), k); }
  }

  /** Equal quotients and remainders: equal numbers. */
  lemma QuoRemDecide(a: nat, b: nat, k: nat)
    requires k > 0 && Quo(a, k) == Quo(b, k) && Rem(a, k) == Rem(b, k)
    ensures a == b
  {
    QuoRem(a, k);
    QuoRem(b, k);
  }

  /** Fewer than `k` apart: different remainders. */
  lemma {:induction false} RemDistinct(a: nat, b: nat, k: nat)
    requires k > 0 && a < b < a + k
    ensures Rem(a, k) != Rem(b, k)
    decreases a
  {
    if a >= k { RemDistinct(a - k, b - k, k); }
  }

  lemma {:induction false} RemAdd(a: nat, b: nat, k: nat)
    requires k > 0 && Rem(a, k) == 0
    ensures Rem(a + b, k) == Rem(b, k)
    decreases a
  {
    if a >= k { RemAdd(a - k, b, k); }
  }

  /** The member of a group `back` places before the closing one. */
  lemma {:induction false} RemBack(p: nat, back: nat, k: nat)
    requires k > 0 && Rem(p, k) == k - 1 && back < k
    ensures p >= back && Rem(p - back, k) == k - 1 - back && Quo(p - back, k) == Quo(p, k)
    decreases p
  {
    if p >= k { RemBack(p - k, back, k); }
  }

  // ---- where things live ----

  /** Group size, ring capacity, ring slots, and the first scratch row behind the slab. */
  datatype Shape = Shape(kp: nat, cap: nat, slots: nat, base: nat)

  ghost predicate ShapeOk(sh: Shape) { 0 < sh.kp <= sh.cap }

  /** A request: its ring slot, the position its own forwards start at (what lies before is a shared
      prefix), the physical slot of each position, and the raw keys of the tokens so far. */
  datatype Req<K> = Req(slot: nat, first: nat, loc: seq<nat>, keys: seq<K>)

  predicate Closing(p: nat, kp: nat)
    requires kp > 0
  {
    Rem(p, kp) == kp - 1
  }

  function RingRow(sh: Shape, slot: nat, p: nat): nat
    requires sh.cap > 0
  {
    slot * sh.cap + Rem(p, sh.cap)
  }

  ghost predicate ReqOk<K>(r: Req<K>, sh: Shape)
    requires ShapeOk(sh)
  {
    && r.slot < sh.slots && r.first <= |r.keys| <= |r.loc| && Rem(r.first, sh.kp) == 0
    && forall p :: 0 <= p < |r.loc| ==> Rem(r.loc[p], sh.kp) == Rem(p, sh.kp) && Quo(r.loc[p], sh.kp) < sh.base
  }

  /** In a paged cache whose page size is a multiple of the group size, a token's slot closes a group
      exactly when its position does, and all members of a group share a slab row. */
  lemma PagedSlots(page: nat, p: nat, ps: nat, kp: nat)
    requires kp > 0 && ps > 0 && Rem(ps, kp) == 0
    ensures Rem(page * ps + Rem(p, ps), kp) == Rem(p, kp)
  {
    MultipleRem(page, ps, kp);
    RemAdd(page * ps, Rem(p, ps), kp);
    MultipleRem(Quo(p, ps), ps, kp);
    QuoRem(p, ps);
    RemAdd(Quo(p, ps) * ps, Rem(p, ps), kp);
  }

  lemma {:induction false} MultipleRem(n: nat, ps: nat, kp: nat)
    requires kp > 0 && Rem(ps, kp) == 0
    ensures n * ps >= 0 && Rem(n * ps, kp) == 0
    decreases n
  {
    if n > 0 {
      MultipleRem(n - 1, ps, kp);
      assert (n - 1) * ps + ps == n * ps;
      RemAdd((n - 1) * ps, ps, kp);
    }
  }

  lemma RingRowFits(sh: Shape, slot: nat, p: nat)
    requires sh.cap > 0 && slot < sh.slots
    ensures RingRow(sh, slot, p) < sh.slots * sh.cap
  {
    BlockOrder(slot, Rem(p, sh.cap), sh.slots, 0, sh.cap);
  }

  /** Rows of different slots, or of positions fewer than the capacity apart, are different. */
  lemma RingRowDistinct(sh: Shape, slot1: nat, p: nat, slot2: nat, q: nat)
    requires sh.cap > 0 && (slot1 != slot2 || p < q < p + sh.cap || q < p < q + sh.cap)
    ensures RingRow(sh, slot1, p) != RingRow(sh, slot2, q)
  {
    if slot1 < slot2 {
      BlockOrder(slot1, Rem(p, sh.cap), slot2, Rem(q, sh.cap), sh.cap);
    } else if slot2 < slot1 {
      BlockOrder(slot2, Rem(q, sh.cap), slot1, Rem(p, sh.cap), sh.cap);
    } else if p < q {
      RemDistinct(p, q, sh.cap);
    } else {
      RemDistinct(q, p, sh.cap);
    }
  }

  /** A key and the one `cap` positions later share a ring row: a refresh that ran before the
      compression would take a straddling group's older members away. */
  lemma RefreshOverwrites(sh: Shape, slot: nat, p: nat)
    requires sh.cap > 0
    ensures RingRow(sh, slot, p + sh.cap) == RingRow(sh, slot, p)
  {
    assert Rem(p + sh.cap, sh.cap) == Rem(p, sh.cap);
  }

  // ---- what the pool must hold ----

  /** The ring has the newest raw keys, each at its position modulo the capacity. */
  ghost predicate RingHolds<K>(ring: seq<K>, sh: Shape, r: Req<K>)
    requires ShapeOk(sh) && ReqOk(r, sh) && |ring| == sh.slots * sh.cap
  {
    forall p :: r.first <= p < |r.keys| && |r.keys| <= p + sh.cap ==> RingHas(ring, sh, r, p)
  }

  ghost predicate RingHas<K>(ring: seq<K>, sh: Shape, r: Req<K>, p: nat)
    requires ShapeOk(sh) && ReqOk(r, sh) && |ring| == sh.slots * sh.cap && p < |r.keys|
  {
    RingRowFits(sh, r.slot, p);
    ring[RingRow(sh, r.slot, p)] == r.keys[p]
  }

  /** Every complete group's slab row pools exactly its own raw keys. */
  ghost predicate SlabHolds<K>(slab: seq<seq<K>>, sh: Shape, r: Req<K>)
    requires ShapeOk(sh) && ReqOk(r, sh) && |slab| >= sh.base
  {
    forall p :: 0 <= p < |r.keys| && Closing(p, sh.kp) ==> SlabHas(slab, sh, r, p)
  }

  ghost predicate SlabHas<K>(slab: seq<seq<K>>, sh: Shape, r: Req<K>, p: nat)
    requires ShapeOk(sh) && ReqOk(r, sh) && |slab| >= sh.base && p < |r.keys| && Closing(p, sh.kp)
  {
    slab[Quo(r.loc[p], sh.kp)] == r.keys[p + 1 - sh.kp..p + 1]
  }
}
