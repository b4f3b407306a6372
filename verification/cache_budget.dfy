/** Splitting GPU memory between expert slots and KV pages. */
module CacheBudget {
  import opened Options

  datatype Plan = Plan(slots: int, pages: int, overlap: bool)

  /** What a plan is to fit: bytes, bytes a slot and a page take, the experts of a layer and of the
      model, whether prefill overlap is wanted, the KV reserve, and the kernel's slot limit. */
  datatype Budget = Budget(bytes: int, perSlot: int, perPage: int, layerExperts: int, allExperts: int,
                           wantOverlap: bool, reserve: int, maxSlots: int)

  function Min(a: int, b: int): int { if a < b then a else b }
  function Max(a: int, b: int): int { if a < b then b else a }

  function Cap(b: Budget): int { Min(b.allExperts, b.maxSlots) }

  /** Overlap borrows two full expert layers. */
  predicate Overlaps(b: Budget) { b.wantOverlap && Cap(b) >= 2 * b.layerExperts }

  function Floor(b: Budget): int { if Overlaps(b) then 2 * b.layerExperts else b.layerExperts }

  /** The slots the greedy rule settles for: all the budget beyond the reserve, between floor and cap. */
  function Slots(b: Budget): int
    requires b.perSlot > 0
  {
    Max(Floor(b), Min((b.bytes - b.reserve * b.perPage) / b.perSlot, Cap(b)))
  }

  function Bytes(b: Budget, slots: int, pages: int): int {
    slots * b.perSlot + pages * b.perPage
  }

  /** `plan_cache_budget`; None where it raises. */
  function PlanCache(b: Budget): Option<Plan> {
    if b.perSlot <= 0 || b.perPage <= 0 || Cap(b) < Floor(b) then None
    else
      var slots := Slots(b);
      var overlap := Overlaps(b) && slots >= 2 * b.layerExperts;
      var pages := Max((b.bytes - slots * b.perSlot) / b.perPage, b.reserve);
      if Bytes(b, slots, pages) > b.bytes || pages <= 1 then None else Some(Plan(slots, pages, overlap))
  }

  /** A plan that keeps every promise: between floor and cap, within the bytes, with the reserve. */
  predicate Feasible(b: Budget, slots: int, pages: int) {
    Floor(b) <= slots <= Cap(b) && b.reserve <= pages && Bytes(b, slots, pages) <= b.bytes
  }

  lemma DivFloor(x: int, k: int)
    requires k > 0
    ensures (x / k) * k <= x < (x / k) * k + k
  {
  }

  lemma DivLeast(x: int, k: int, q: int)
    requires k > 0 && q * k <= x
    ensures q <= x / k
  {
    DivFloor(x, k);
    if x / k < q { MulStep(x / k, q, k); }
  }

  lemma MulMono(a: int, b: int, k: int)
    requires a <= b && k > 0
    ensures a * k <= b * k
  {
    assert b * k == a * k + (b - a) * k;
  }

  lemma MulStep(a: int, b: int, k: int)
    requires a < b && k > 0
    ensures a * k + k <= b * k
  {
    MulMono(a + 1, b, k);
    assert (a + 1) * k == a * k + k;
  }

  /** When the floor and the reserve fit, the greedy slots leave at least the reserve. */
  lemma SlotsLeaveReserve(b: Budget)
    requires b.perSlot > 0 && b.perPage > 0 && Cap(b) >= Floor(b)
    requires Bytes(b, Floor(b), b.reserve) <= b.bytes
    ensures Floor(b) <= Slots(b) <= Cap(b) && Slots(b) * b.perSlot + b.reserve * b.perPage <= b.bytes
  {
    var room := b.bytes - b.reserve * b.perPage;
    DivFloor(room, b.perSlot);
    DivLeast(room, b.perSlot, Floor(b));
    if Slots(b) < room / b.perSlot { MulStep(Slots(b), room / b.perSlot, b.perSlot); }
  }

  /** MAIN: planning succeeds exactly when the floor plan with its reserve fits and the greedy slots
      leave room for two pages. */
  lemma PlansWhen(b: Budget)
    requires b.perSlot > 0 && b.perPage > 0 && Cap(b) >= Floor(b)
    ensures PlanCache(b).Some? <==>
      Bytes(b, Floor(b), b.reserve) <= b.bytes && (b.reserve >= 2 || Slots(b) * b.perSlot + 2 * b.perPage <= b.bytes)
  {
    var slots := Slots(b);
    var left := b.bytes - slots * b.perSlot;
    DivFloor(left, b.perPage);
    if Bytes(b, Floor(b), b.reserve) <= b.bytes {
      SlotsLeaveReserve(b);
      DivLeast(left, b.perPage, b.reserve);
      if left >= 2 * b.perPage { DivLeast(left, b.perPage, 2); }
      if left / b.perPage >= 2 { MulMono(2, left / b.perPage, b.perPage); }
      if b.reserve >= 2 { MulMono(2, b.reserve, b.perPage); }
    } else {
      FloorTooBig(b);
    }
  }

  /** When they do not fit, the clamped plan is over budget and is rejected. */
  lemma FloorTooBig(b: Budget)
    requires b.perSlot > 0 && b.perPage > 0 && Cap(b) >= Floor(b)
    requires Bytes(b, Floor(b), b.reserve) > b.bytes
    ensures PlanCache(b).None?
  {
    var room := b.bytes - b.reserve * b.perPage;
    DivFloor(room, b.perSlot);
    if Floor(b) <= room / b.perSlot { MulMono(Floor(b), room / b.perSlot, b.perSlot); }
    assert Slots(b) == Floor(b);
    var left := b.bytes - Floor(b) * b.perSlot;
    DivFloor(left, b.perPage);
    if b.reserve <= left / b.perPage { MulMono(b.reserve, left / b.perPage, b.perPage); }
  }

  /** MAIN: a plan is sound, and no other sound one has more slots, or as many slots and more pages. */
  lemma PlanIsBest(b: Budget, slots: int, pages: int)
    requires PlanCache(b).Some?
    ensures var p := PlanCache(b).value;
      && Feasible(b, p.slots, p.pages) && p.pages > 1
      && (p.overlap ==> p.slots >= 2 * b.layerExperts) && (p.overlap <==> Overlaps(b))
      && (Feasible(b, slots, pages) ==> slots <= p.slots && (slots == p.slots ==> pages <= p.pages))
  {
    var p := PlanCache(b).value;
    if Bytes(b, Floor(b), b.reserve) > b.bytes { FloorTooBig(b); }
    SlotsLeaveReserve(b);
    var left := b.bytes - p.slots * b.perSlot;
    DivFloor(left, b.perPage);
    DivLeast(left, b.perPage, b.reserve);
    if Feasible(b, slots, pages) {
      MulMono(b.reserve, pages, b.perPage);
      DivLeast(b.bytes - b.reserve * b.perPage, b.perSlot, slots);
      if slots == p.slots { DivLeast(left, b.perPage, pages); }
    }
  }

  /** One more slot would break the cap or the reserve, one more page the budget. */
  lemma PlanIsTight(b: Budget)
    requires PlanCache(b).Some?
    ensures var p := PlanCache(b).value;
      !Feasible(b, p.slots + 1, b.reserve) && !Feasible(b, p.slots, p.pages + 1)
  {
    var p := PlanCache(b).value;
    PlanIsBest(b, p.slots + 1, b.reserve);
    PlanIsBest(b, p.slots, p.pages + 1);
  }

  /** The second look at overlap changes nothing: whenever overlap was on, the floor already grants it. */
  lemma SecondLookIsIdle(b: Budget)
    requires b.perSlot > 0 && Overlaps(b)
    ensures Slots(b) >= 2 * b.layerExperts
  {
  }

  /** More memory never plans fewer slots. */
  lemma MoreMemoryMoreSlots(b: Budget, more: int)
    requires more >= b.bytes && PlanCache(b).Some? && PlanCache(b.(bytes := more)).Some?
    ensures PlanCache(b).value.slots <= PlanCache(b.(bytes := more)).value.slots
  {
    var p := PlanCache(b).value;
    PlanIsBest(b, p.slots, p.pages);
    PlanIsBest(b.(bytes := more), p.slots, p.pages);
  }

  // ---- resolve_moe_cache_auto ----

  /** `int()`: truncation toward zero. */
  function Truncate(x: real): int {
    if x >= 0.0 then x.Floor else -((-x).Floor)
  }

  /** Whole pages for a number of tokens. */
  function DivCeil(a: nat, k: nat): (pages: nat)
    requires k > 0
    ensures pages * k >= a && (pages > 0 ==> (pages - 1) * k < a)
  {
    DivFloor(a + k - 1, k);
    (a + k - 1) / k
  }

  /** What startup measured. */
  datatype Machine = Machine(baseline: nat, ratio: real, weights: nat, fixedCache: nat)

  /** `net_cache_budget_bytes`. */
  function NetBytes(m: Machine): int {
    Share(m.ratio, m.baseline) - m.weights - m.fixedCache
  }

  function Share(ratio: real, baseline: nat): int { Truncate(ratio * baseline as real) }

  function Resolved(m: Machine, b: Budget, reserveTokens: nat, pageSize: nat): Budget
    requires pageSize > 0
  {
    b.(bytes := NetBytes(m), maxSlots := Min(b.maxSlots, b.allExperts), reserve := DivCeil(reserveTokens, pageSize))
  }

  function Resolve(m: Machine, b: Budget, reserveTokens: nat, pageSize: nat): Option<Plan>
    requires pageSize > 0
  {
    PlanCache(Resolved(m, b, reserveTokens, pageSize))
  }

  lemma ShareFits(ratio: real, baseline: nat)
    requires 0.0 <= ratio <= 1.0
    ensures 0 <= Share(ratio, baseline) <= baseline
  {
    assert 0.0 <= ratio * baseline as real <= baseline as real;
  }

  /** MAIN: weights, fixed cache and plan together stay within the share of the baseline, the head room
      beyond it is untouched, and the KV pages hold the reserved tokens. */
  lemma ResolvedFits(m: Machine, b: Budget, reserveTokens: nat, pageSize: nat)
    requires pageSize > 0 && 0.0 <= m.ratio <= 1.0 && Resolve(m, b, reserveTokens, pageSize).Some?
    ensures var p := Resolve(m, b, reserveTokens, pageSize).value;
      && m.weights + m.fixedCache + Bytes(b, p.slots, p.pages) <= Share(m.ratio, m.baseline) <= m.baseline
      && p.pages * pageSize >= reserveTokens && p.slots <= Min(b.allExperts, b.maxSlots)
  {
    var p := Resolve(m, b, reserveTokens, pageSize).value;
    PlanIsBest(Resolved(m, b, reserveTokens, pageSize), p.slots, p.pages);
    MulMono(DivCeil(reserveTokens, pageSize), p.pages, pageSize);
    ShareFits(m.ratio, m.baseline);
  }
}
