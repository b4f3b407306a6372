/** Sparse-attention selection at pool granularity: the best complete pools of a query, expanded to
    tokens, plus the tokens of the open group. Scores are compared, never computed. */
module PoolSelection {
  import opened PooledIndex

  // ---- top-k over masked scores ----

  datatype Score = NegInf | Fin(value: real)

  predicate AtLeast(a: Score, b: Score) {
    b.NegInf? || (a.Fin? && a.value >= b.value)
  }

  ghost predicate Distinct(s: seq<nat>) {
    forall i, j :: 0 <= i < j < |s| ==> s[i] != s[j]
  }

  /** What the library's top-k promises: `k` different indices, best first, none better left out. Ties
      may fall either way. */
  ghost predicate IsTopK(scores: seq<Score>, k: nat, picks: seq<nat>) {
    && |picks| == k <= |scores| && Distinct(picks)
    && (forall i :: 0 <= i < k ==> picks[i] < |scores|)
    && (forall i, j :: 0 <= i < j < k ==> AtLeast(scores[picks[i]], scores[picks[j]]))
    && (forall i, b :: 0 <= i < k && 0 <= b < |scores| && b !in picks ==> AtLeast(scores[picks[i]], scores[b]))
  }

  /** Blocks past the live count score minus infinity. */
  function Masked(scores: seq<real>, live: nat): (r: seq<Score>)
    ensures |r| == |scores|
  {
    seq(|scores|, b requires 0 <= b < |scores| => if b >= live then NegInf else Fin(scores[b]))
  }

  /** Picks past the live count come back as -1. */
  function Sentinel(picks: seq<nat>, live: nat): (r: seq<int>)
    ensures |r| == |picks|
  {
    seq(|picks|, i requires 0 <= i < |picks| => var p: int := picks[i]; if p >= live then -1 else p)
  }

  function Min(a: nat, b: nat): nat { if a < b then a else b }

  /** A selection of `k` picks among `live` pools: the first min(k, live) are different live pools,
      the others -1. */
  ghost predicate IsSelection(picks: seq<int>, live: nat, k: nat) {
    && |picks| == k
    && (forall i :: 0 <= i < k ==> if i < Min(k, live) then 0 <= picks[i] < live else picks[i] == -1)
    && (forall i, j :: 0 <= i < j < Min(k, live) ==> picks[i] != picks[j])
  }

  function Below(n: nat): (s: set<nat>)
    ensures forall x: nat :: x in s <==> x < n
    ensures |s| == n
  {
    if n == 0 then {} else Below(n - 1) + {n - 1}
  }

  ghost predicate Among(s: seq<nat>, n: nat, x: nat)
    requires n <= |s|
  {
    exists i :: 0 <= i < n && s[i] == x
  }

  ghost function Members(s: seq<nat>, n: nat): set<nat>
    requires n <= |s|
  {
    if n == 0 then {} else Members(s, n - 1) + {s[n - 1]}
  }

  lemma {:induction false} MembersAre(s: seq<nat>, n: nat)
    requires n <= |s|
    ensures forall x: nat :: x in Members(s, n) <==> Among(s, n, x)
    decreases n
  {
    if n > 0 {
      MembersAre(s, n - 1);
      AmongSnoc(s, n - 1);
    }
  }

  lemma AmongSnoc(s: seq<nat>, n: nat)
    requires n < |s|
    ensures forall x: nat :: Among(s, n + 1, x) <==> Among(s, n, x) || x == s[n]
  {
    forall x: nat ensures Among(s, n + 1, x) <==> Among(s, n, x) || x == s[n] {
      if Among(s, n + 1, x) {
        var i :| 0 <= i < n + 1 && s[i] == x;
      }
    }
  }

  lemma {:induction false} MembersCount(s: seq<nat>, n: nat)
    requires n <= |s| && Distinct(s)
    ensures |Members(s, n)| == n
    decreases n
  {
    if n == 0 {
      assert Members(s, 0) == {};
    } else {
      MembersCount(s, n - 1);
      MembersSnoc(s, n);
    }
  }

  lemma MembersSnoc(s: seq<nat>, n: nat)
    requires 0 < n <= |s| && Distinct(s)
    ensures |Members(s, n)| == |Members(s, n - 1)| + 1
  {
    NotAmong(s, n - 1);
    MembersAre(s, n - 1);
    OneMore(Members(s, n - 1), s[n - 1]);
  }

  lemma OneMore(a: set<nat>, x: nat)
    requires x !in a
    ensures |a + {x}| == |a| + 1
  {
  }

  lemma NotAmong(s: seq<nat>, n: nat)
    requires n < |s| && Distinct(s)
    ensures !Among(s, n, s[n])
  {
  }

  lemma SubsetSize(a: set<nat>, b: set<nat>)
    requires a <= b
    ensures |a| <= |b| && (|a| == |b| ==> a == b)
  {
    assert b == a + (b - a);
  }

  /** Different numbers below `live` are at most `live` many. */
  lemma FewBelow(s: seq<nat>, n: nat, live: nat)
    requires n <= |s| && Distinct(s) && forall j :: 0 <= j < n ==> s[j] < live
    ensures n <= live
  {
    MembersCount(s, n);
    MembersAre(s, n);
    forall x | x in Members(s, n) ensures x in Below(live) { assert Among(s, n, x); }
    SubsetSize(Members(s, n), Below(live));
  }

  /** All numbers below `live` are at least `live` many. */
  lemma AllBelow(s: seq<nat>, n: nat, live: nat)
    requires n <= |s| && Distinct(s) && forall b: nat :: b < live ==> Among(s, n, b)
    ensures live <= n
  {
    MembersCount(s, n);
    MembersAre(s, n);
    SubsetSize(Below(live), Members(s, n));
  }

  /** Behind a dead pick all are dead. */
  lemma DeadLast(scores: seq<real>, live: nat, k: nat, picks: seq<nat>, i: nat, j: nat)
    requires IsTopK(Masked(scores, live), k, picks) && i < j < k && picks[i] >= live
    ensures picks[j] >= live
  {
    assert AtLeast(Masked(scores, live)[picks[i]], Masked(scores, live)[picks[j]]);
  }

  /** A dead pick means that every live pool was picked before it. */
  lemma DeadMeansAllLive(scores: seq<real>, live: nat, k: nat, picks: seq<nat>, i: nat)
    requires IsTopK(Masked(scores, live), k, picks) && live <= |scores| && i < k && picks[i] >= live
    ensures live <= i
  {
    forall j: nat | i < j < k ensures picks[j] >= live { DeadLast(scores, live, k, picks, i, j); }
    forall b: nat | b < live ensures Among(picks, i, b) {
      assert !AtLeast(Masked(scores, live)[picks[i]], Masked(scores, live)[b]);
      var j :| 0 <= j < k && picks[j] == b;
    }
    AllBelow(picks, i, live);
  }

  /** More live picks than live pools cannot be. */
  lemma LivePicksFit(scores: seq<real>, live: nat, k: nat, picks: seq<nat>, i: nat)
    requires IsTopK(Masked(scores, live), k, picks) && i < k && picks[i] < live
    ensures i < live
  {
    forall j: nat | j < i + 1 ensures picks[j] < live {
      if j < i && picks[j] >= live { DeadLast(scores, live, k, picks, j, i); }
    }
    FewBelow(picks, i + 1, live);
  }

  /** MAIN: masking and the sentinel make top-k over all blocks a selection among the live ones, the
      best of them: no live pool left out scores more than one picked. */
  lemma TopKSelects(scores: seq<real>, live: nat, k: nat, picks: seq<nat>)
    requires IsTopK(Masked(scores, live), k, picks) && live <= |scores|
    ensures IsSelection(Sentinel(picks, live), live, k)
    ensures forall i, b :: 0 <= i < Min(k, live) && 0 <= b < live && b !in Sentinel(picks, live) ==>
      0 <= Sentinel(picks, live)[i] < |scores| && scores[Sentinel(picks, live)[i]] >= scores[b]
  {
    var sel := Sentinel(picks, live);
    forall i: nat | i < k ensures if i < Min(k, live) then 0 <= sel[i] < live else sel[i] == -1 {
      if picks[i] >= live {
        DeadMeansAllLive(scores, live, k, picks, i);
      } else {
        LivePicksFit(scores, live, k, picks, i);
      }
    }
    forall i: nat, b: nat | i < Min(k, live) && b < live && b !in sel ensures 0 <= sel[i] < |scores| && scores[sel[i]] >= scores[b] {
      forall j | 0 <= j < k ensures picks[j] != b { assert sel[j] in sel; }
      assert AtLeast(Masked(scores, live)[picks[i]], Masked(scores, live)[b]);
    }
  }

  // ---- expansion to tokens ----

  /** The position in column `i`: first the kp - 1 slots of the open group, then kp tokens a pick. */
  function PosAt(picks: seq<int>, kp: nat, qPos: nat, i: nat): int
    requires kp > 0 && i < kp - 1 + |picks| * kp
  {
    if i < kp - 1 then
      var x := Quo(qPos + 1, kp) * kp + i;
      if x <= qPos then x else -1
    else
      var j := i - (kp - 1);
      PickFits(|picks|, kp, j);
      var pick := picks[Quo(j, kp)];
      if pick < 0 then -1 else pick * kp + Rem(j, kp)
  }

  lemma PickFits(n: nat, kp: nat, j: nat)
    requires kp > 0 && j < n * kp
    ensures Quo(j, kp) < n
  {
    QuoRem(j, kp);
    if Quo(j, kp) >= n { MulMono(n, Quo(j, kp), kp); }
  }

  /** How many columns count. */
  function Count(k: nat, kp: nat, qPos: nat): nat
    requires kp > 0
  {
    kp - 1 + Min(Quo(qPos + 1, kp), k) * kp
  }

  /** The physical rows of one query, -1 where there is none. */
  function Expand(picks: seq<int>, kp: nat, rows: seq<nat>, qPos: nat): (r: seq<int>)
    requires kp > 0 && IsSelectionOf(picks, kp, qPos) && qPos < |rows|
    ensures |r| == kp - 1 + |picks| * kp
  {
    seq(kp - 1 + |picks| * kp, i requires 0 <= i < kp - 1 + |picks| * kp =>
      ColumnSound(picks, kp, qPos, i);
      var x := PosAt(picks, kp, qPos, i);
      var row: int := if x < 0 then 0 else rows[x];
      if x < 0 then -1 else row)
  }

  /** A selection among the complete pools of the query. */
  ghost predicate IsSelectionOf(picks: seq<int>, kp: nat, qPos: nat)
    requires kp > 0
  {
    IsSelection(picks, Quo(qPos + 1, kp), |picks|)
  }

  /** The tokens a query is to see: those of the picked pools, and those of the open group. */
  ghost predicate Wanted(picks: seq<int>, kp: nat, qPos: nat, x: nat)
    requires kp > 0
  {
    x <= qPos && (Quo(x, kp) in picks || Quo(x, kp) == Quo(qPos + 1, kp))
  }

  /** Every column inside the bound that is not -1 is a wanted token, at or before the query; every
      column past it is -1. */
  lemma ColumnSound(picks: seq<int>, kp: nat, qPos: nat, i: nat)
    requires kp > 0 && IsSelectionOf(picks, kp, qPos) && i < kp - 1 + |picks| * kp
    ensures PosAt(picks, kp, qPos, i) >= 0 ==> i < Count(|picks|, kp, qPos) && Wanted(picks, kp, qPos, PosAt(picks, kp, qPos, i))
    ensures PosAt(picks, kp, qPos, i) >= -1
  {
    var n := Quo(qPos + 1, kp);
    if i < kp - 1 {
      TailToken(kp, qPos, i);
    } else {
      var j := i - (kp - 1);
      PickFits(|picks|, kp, j);
      var a := Quo(j, kp);
      if picks[a] >= 0 {
        assert a < Min(|picks|, n);
        PickToken(picks[a], n, kp, qPos, Rem(j, kp));
        QuoRem(j, kp);
        BlockOrder(a, Rem(j, kp), Min(|picks|, n), 0, kp);
      }
    }
  }

  /** A slot of the open group that is at or before the query lies in that group. */
  lemma TailToken(kp: nat, qPos: nat, i: nat)
    requires kp > 0 && i < kp - 1
    ensures Quo(qPos + 1, kp) * kp >= 0 && Quo(Quo(qPos + 1, kp) * kp + i, kp) == Quo(qPos + 1, kp)
    ensures Rem(Quo(qPos + 1, kp) * kp + i, kp) == i
  {
    QuoOfBlock(Quo(qPos + 1, kp), i, kp);
  }

  lemma QuoOfBlock(q: nat, r: nat, k: nat)
    requires k > 0 && r < k
    ensures q * k + r >= 0 && Quo(q * k + r, k) == q && Rem(q * k + r, k) == r
  {
    var x := q * k + r;
    QuoRem(x, k);
    if Quo(x, k) < q { BlockOrder(Quo(x, k), Rem(x, k), q, r, k); }
    if q < Quo(x, k) { BlockOrder(q, r, Quo(x, k), Rem(x, k), k); }
  }

  /** Tokens of a complete pool are at or before the query. */
  lemma PickToken(pick: nat, n: nat, kp: nat, qPos: nat, r: nat)
    requires kp > 0 && r < kp && pick < n == Quo(qPos + 1, kp)
    ensures pick * kp + r >= 0 && pick * kp + r <= qPos && Quo(pick * kp + r, kp) == pick && Rem(pick * kp + r, kp) == r
  {
    QuoOfBlock(pick, r, kp);
    QuoRem(qPos + 1, kp);
    BlockOrder(pick, r, n, Rem(qPos + 1, kp), kp);
  }

  // ---- what a query attends to ----

  /** MAIN: every wanted token has a column inside the bound. */
  lemma ColumnComplete(picks: seq<int>, kp: nat, qPos: nat, x: nat) returns (i: nat)
    requires kp > 0 && IsSelectionOf(picks, kp, qPos) && Wanted(picks, kp, qPos, x)
    ensures i < kp - 1 + |picks| * kp && i < Count(|picks|, kp, qPos) && PosAt(picks, kp, qPos, i) == x
  {
    var n := Quo(qPos + 1, kp);
    QuoRem(x, kp);
    if Quo(x, kp) == n {
      i := Rem(x, kp);
      OpenGroupIsShort(x, kp, qPos);
      TailToken(kp, qPos, i);
    } else {
      var a :| 0 <= a < |picks| && picks[a] == Quo(x, kp);
      var r := Rem(x, kp);
      i := kp - 1 + (a * kp + r);
      QuoOfBlock(a, r, kp);
      BlockOrder(a, r, Min(|picks|, n), 0, kp);
      MulMono(Min(|picks|, n), |picks|, kp);
    }
  }

  /** The open group has at most kp - 1 tokens up to the query. */
  lemma OpenGroupIsShort(x: nat, kp: nat, qPos: nat)
    requires kp > 0 && x <= qPos && Quo(x, kp) == Quo(qPos + 1, kp)
    ensures Rem(x, kp) < kp - 1
  {
    QuoRem(x, kp);
    QuoRem(qPos + 1, kp);
  }

  /** MAIN: no token appears in two columns. */
  lemma ColumnsDistinct(picks: seq<int>, kp: nat, qPos: nat, i: nat, j: nat)
    requires kp > 0 && IsSelectionOf(picks, kp, qPos) && i < j < kp - 1 + |picks| * kp
    requires PosAt(picks, kp, qPos, i) >= 0 && PosAt(picks, kp, qPos, j) >= 0
    ensures PosAt(picks, kp, qPos, i) != PosAt(picks, kp, qPos, j)
  {
    ColumnOf(picks, kp, qPos, i);
    ColumnOf(picks, kp, qPos, j);
    if i >= kp - 1 {
      var a, b := i - (kp - 1), j - (kp - 1);
      PickFits(|picks|, kp, a);
      PickFits(|picks|, kp, b);
      if Quo(a, kp) == Quo(b, kp) && Rem(a, kp) == Rem(b, kp) { QuoRemDecide(a, b, kp); }
    }
  }

  /** Group and place in the group of the token in a column. */
  lemma ColumnOf(picks: seq<int>, kp: nat, qPos: nat, i: nat)
    requires kp > 0 && IsSelectionOf(picks, kp, qPos) && i < kp - 1 + |picks| * kp && PosAt(picks, kp, qPos, i) >= 0
    ensures var x := PosAt(picks, kp, qPos, i);
      if i < kp - 1 then Quo(x, kp) == Quo(qPos + 1, kp) && Rem(x, kp) == i
      else
        var j := i - (kp - 1);
        && Quo(j, kp) < Min(|picks|, Quo(qPos + 1, kp)) && Quo(x, kp) == picks[Quo(j, kp)] < Quo(qPos + 1, kp)
        && Rem(x, kp) == Rem(j, kp)
  {
    if i < kp - 1 {
      TailToken(kp, qPos, i);
    } else {
      var j := i - (kp - 1);
      PickFits(|picks|, kp, j);
      QuoOfBlock(picks[Quo(j, kp)], Rem(j, kp), kp);
    }
  }

  /** MAIN: when the complete pools fit the budget, the query sees everything up to itself. */
  lemma DenseWhenShort(picks: seq<int>, kp: nat, qPos: nat, x: nat)
    requires kp > 0 && IsSelectionOf(picks, kp, qPos) && Quo(qPos + 1, kp) <= |picks| && x <= qPos
    ensures Wanted(picks, kp, qPos, x)
  {
    var n := Quo(qPos + 1, kp);
    QuoMono(x, qPos + 1, kp);
    if Quo(x, kp) < n { AllPicked(picks, n, Quo(x, kp)); }
  }

  lemma {:induction false} QuoMono(a: nat, b: nat, k: nat)
    requires k > 0 && a <= b
    ensures Quo(a, k) <= Quo(b, k)
    decreases a
  {
    if a >= k { QuoMono(a - k, b - k, k); }
  }

  /** n different picks below n are all of them. */
  lemma AllPicked(picks: seq<int>, n: nat, x: nat)
    requires n <= |picks| && x < n && IsSelection(picks, n, |picks|)
    ensures x in picks
  {
    var firsts: seq<nat> := seq(n, i requires 0 <= i < n => picks[i]);
    MembersCount(firsts, n);
    MembersAre(firsts, n);
    forall y | y in Members(firsts, n) ensures y in Below(n) { assert Among(firsts, n, y); }
    SubsetSize(Members(firsts, n), Below(n));
    assert Among(firsts, n, x);
    var i :| 0 <= i < n && firsts[i] == x;
    assert picks[i] == x;
  }

  // ---- the selection methods ----

  /** The picks a query settles for: top-k of its masked scores, with the sentinel. `topk` is the
      library's; `cap` is the configured number of pools. */
  ghost function PicksFor(topk: (seq<Score>, nat) -> seq<nat>, scores: seq<real>, live: nat, cap: nat): seq<int> {
    if scores == [] then NoPicks(Min(cap, 1)) else Sentinel(topk(Masked(scores, live), Min(cap, |scores|)), live)
  }

  /** No complete pool to score: a fixed number of columns, all -1. */
  function NoPicks(k: nat): (r: seq<int>)
    ensures |r| == k
  {
    seq(k, i => -1)
  }

  /** The result for one query at `qPos`, whose scores cover at least its complete pools. */
  ghost predicate IsSelected(sel: seq<int>, cnt: nat, picks: seq<int>, kp: nat, rows: seq<nat>, qPos: nat)
    requires kp > 0
  {
    && IsSelectionOf(picks, kp, qPos) && qPos < |rows|
    && sel == Expand(picks, kp, rows, qPos) && cnt == Count(|picks|, kp, qPos)
  }

  /** The top-k of a library call keeps its promise on every row. */
  ghost predicate TopKWorks(topk: (seq<Score>, nat) -> seq<nat>) {
    forall scores: seq<Score>, k: nat :: k <= |scores| ==> IsTopK(scores, k, topk(scores, k))
  }

  /** One query of a prefill chunk: `indexer_select_prefill`, then the expansion. */
  method SelectOne(topk: (seq<Score>, nat) -> seq<nat>, scores: seq<real>, cap: nat, kp: nat, rows: seq<nat>, qPos: nat)
    returns (sel: seq<int>, cnt: nat)
    requires kp > 0 && qPos < |rows| && scores != [] && Quo(qPos + 1, kp) <= |scores| && TopKWorks(topk)
    ensures IsSelected(sel, cnt, PicksFor(topk, scores, Quo(qPos + 1, kp), cap), kp, rows, qPos)
  {
    var live, k := Quo(qPos + 1, kp), Min(cap, |scores|);
    var raw := topk(Masked(scores, live), k);
    TopKSelects(scores, live, k, raw);
    var picks := Sentinel(raw, live);
    sel, cnt := Expand(picks, kp, rows, qPos), Count(k, kp, qPos);
  }

  /** The first `n` queries of a prefill have the selections they would get alone. */
  ghost predicate Prefilled(topk: (seq<Score>, nat) -> seq<nat>, logits: nat -> seq<real>, cap: nat, kp: nat, rows: seq<nat>,
      startPos: nat, n: nat, sel: seq<seq<int>>, cnt: seq<nat>)
    requires kp > 0
  {
    |sel| == |cnt| == n && forall s :: 0 <= s < n ==> SelectedAt(topk, logits, cap, kp, rows, startPos, s, sel[s], cnt[s])
  }

  /** Query `s` has the selection it would get alone. */
  ghost predicate SelectedAt(topk: (seq<Score>, nat) -> seq<nat>, logits: nat -> seq<real>, cap: nat, kp: nat, rows: seq<nat>,
      startPos: nat, s: nat, one: seq<int>, c: nat)
    requires kp > 0
  {
    IsSelected(one, c, PicksFor(topk, logits(s), Quo(startPos + s + 1, kp), cap), kp, rows, startPos + s)
  }

  lemma PrefilledSnoc(topk: (seq<Score>, nat) -> seq<nat>, logits: nat -> seq<real>, cap: nat, kp: nat, rows: seq<nat>,
      startPos: nat, n: nat, sel: seq<seq<int>>, cnt: seq<nat>, one: seq<int>, c: nat)
    requires kp > 0 && Prefilled(topk, logits, cap, kp, rows, startPos, n, sel, cnt)
    requires SelectedAt(topk, logits, cap, kp, rows, startPos, n, one, c)
    ensures Prefilled(topk, logits, cap, kp, rows, startPos, n + 1, sel + [one], cnt + [c])
  {
    forall s | 0 <= s < n + 1
      ensures SelectedAt(topk, logits, cap, kp, rows, startPos, s, (sel + [one])[s], (cnt + [c])[s])
    {
      if s < n { assert SelectedAt(topk, logits, cap, kp, rows, startPos, s, sel[s], cnt[s]); }
    }
  }

  /** No query has a complete pool. */
  method SelectNone(topk: (seq<Score>, nat) -> seq<nat>, logits: nat -> seq<real>, cap: nat, kp: nat, rows: seq<nat>,
      startPos: nat, m: nat)
    returns (sel: seq<seq<int>>, cnt: seq<nat>)
    requires kp > 0 && startPos + m <= |rows| && Quo(|rows|, kp) == 0
    requires forall s :: 0 <= s < m ==> |logits(s)| == 0
    ensures Prefilled(topk, logits, cap, kp, rows, startPos, m, sel, cnt)
  {
    sel, cnt := [], [];
    for s := 0 to m
      invariant Prefilled(topk, logits, cap, kp, rows, startPos, s, sel, cnt)
    {
      QuoMono(startPos + s + 1, |rows|, kp);
      var picks := NoPicks(Min(cap, 1));
      assert picks == PicksFor(topk, logits(s), 0, cap);
      var one, c := Expand(picks, kp, rows, startPos + s), Count(|picks|, kp, startPos + s);
      PrefilledSnoc(topk, logits, cap, kp, rows, startPos, s, sel, cnt, one, c);
      sel, cnt := sel + [one], cnt + [c];
    }
  }

  /** One chunk of queries. */
  method SelectChunk(topk: (seq<Score>, nat) -> seq<nat>, logits: nat -> seq<real>, cap: nat, kp: nat, rows: seq<nat>,
      startPos: nat, s0: nat, s1: nat, sel0: seq<seq<int>>, cnt0: seq<nat>)
    returns (sel: seq<seq<int>>, cnt: seq<nat>)
    requires kp > 0 && s0 <= s1 && startPos + s1 <= |rows| && TopKWorks(topk) && Quo(|rows|, kp) > 0
    requires forall s :: s0 <= s < s1 ==> |logits(s)| == Quo(|rows|, kp)
    requires Prefilled(topk, logits, cap, kp, rows, startPos, s0, sel0, cnt0)
    ensures Prefilled(topk, logits, cap, kp, rows, startPos, s1, sel, cnt)
  {
    sel, cnt := sel0, cnt0;
    for s := s0 to s1
      invariant Prefilled(topk, logits, cap, kp, rows, startPos, s, sel, cnt)
    {
      QuoMono(startPos + s + 1, |rows|, kp);
      var one, c := SelectOne(topk, logits(s), cap, kp, rows, startPos + s);
      PrefilledSnoc(topk, logits, cap, kp, rows, startPos, s, sel, cnt, one, c);
      sel, cnt := sel + [one], cnt + [c];
    }
  }

  /** MAIN: prefill. The queries are scored and selected `chunk` at a time; the outcome is that of each
      query on its own, whatever the chunk. `logits(s)` are the scores of query `s` over all pools. */
  method SelectPrefill(topk: (seq<Score>, nat) -> seq<nat>, logits: nat -> seq<real>, cap: nat, kp: nat, rows: seq<nat>,
      startPos: nat, m: nat, chunk: nat)
    returns (sel: seq<seq<int>>, cnt: seq<nat>)
    requires kp > 0 && chunk > 0 && startPos + m <= |rows| && TopKWorks(topk)
    requires forall s :: 0 <= s < m ==> |logits(s)| == Quo(|rows|, kp)
    ensures Prefilled(topk, logits, cap, kp, rows, startPos, m, sel, cnt)
  {
    if Quo(|rows|, kp) == 0 {
      sel, cnt := SelectNone(topk, logits, cap, kp, rows, startPos, m);
      return;
    }
    sel, cnt := [], [];
    var s0 := 0;
    while s0 < m
      invariant 0 <= s0 <= m && Prefilled(topk, logits, cap, kp, rows, startPos, s0, sel, cnt)
    {
      var s1 := if s0 + chunk < m then s0 + chunk else m;
      sel, cnt := SelectChunk(topk, logits, cap, kp, rows, startPos, s0, s1, sel, cnt);
      s0 := s1;
    }
  }

  /** Decode: one query a request, at its last position; the staged scores may cover more pools than
      are complete. */
  method SelectDecode(topk: (seq<Score>, nat) -> seq<nat>, scores: seq<seq<real>>, cap: nat, kp: nat, rows: seq<seq<nat>>, kvlen: seq<nat>)
    returns (sel: seq<seq<int>>, cnt: seq<nat>)
    requires kp > 0 && TopKWorks(topk) && |scores| == |rows| == |kvlen|
    requires forall b :: 0 <= b < |kvlen| ==> 0 < kvlen[b] <= |rows[b]| && scores[b] != [] && Quo(kvlen[b], kp) <= |scores[b]|
    ensures |sel| == |cnt| == |kvlen|
    ensures forall b :: 0 <= b < |kvlen| ==>
      IsSelected(sel[b], cnt[b], PicksFor(topk, scores[b], Quo(kvlen[b], kp), cap), kp, rows[b], kvlen[b] - 1)
  {
    sel, cnt := [], [];
    for b := 0 to |kvlen|
      invariant |sel| == |cnt| == b
      invariant forall t :: 0 <= t < b ==>
        IsSelected(sel[t], cnt[t], PicksFor(topk, scores[t], Quo(kvlen[t], kp), cap), kp, rows[t], kvlen[t] - 1)
    {
      var one, c := SelectOne(topk, scores[b], cap, kp, rows[b], kvlen[b] - 1);
      sel, cnt := sel + [one], cnt + [c];
    }
  }

  /** MAIN: what a selection means for the attention kernel: inside the bound exactly the wanted
      tokens' rows, each once, and -1; outside nothing. */
  lemma SelectedMeans(sel: seq<int>, cnt: nat, picks: seq<int>, kp: nat, rows: seq<nat>, qPos: nat)
    requires kp > 0 && IsSelected(sel, cnt, picks, kp, rows, qPos) && Distinct(rows)
    ensures forall i :: 0 <= i < |sel| && sel[i] >= 0 ==> i < cnt && IsWantedRow(picks, kp, rows, qPos, sel[i])
    ensures forall x: nat :: x < |rows| && Wanted(picks, kp, qPos, x) ==> rows[x] in sel
    ensures forall i, j :: 0 <= i < j < |sel| && sel[i] >= 0 ==> sel[i] != sel[j]
    ensures Quo(qPos + 1, kp) <= |picks| ==> forall x: nat :: x <= qPos ==> rows[x] in sel
  {
    forall i: nat | i < |sel| && sel[i] >= 0 ensures i < cnt && IsWantedRow(picks, kp, rows, qPos, sel[i]) {
      ColumnSound(picks, kp, qPos, i);
    }
    forall x: nat | x < |rows| && Wanted(picks, kp, qPos, x) ensures rows[x] in sel {
      var i := ColumnComplete(picks, kp, qPos, x);
      assert sel[i] == rows[x];
    }
    forall i: nat, j: nat | i < j < |sel| && sel[i] >= 0 ensures sel[i] != sel[j] {
      ColumnSound(picks, kp, qPos, i);
      ColumnSound(picks, kp, qPos, j);
      if sel[j] >= 0 { ColumnsDistinct(picks, kp, qPos, i, j); }
    }
    if Quo(qPos + 1, kp) <= |picks| {
      forall x: nat | x <= qPos ensures rows[x] in sel { DenseWhenShort(picks, kp, qPos, x); }
    }
  }

  ghost predicate IsWantedRow(picks: seq<int>, kp: nat, rows: seq<nat>, qPos: nat, row: int)
    requires kp > 0
  {
    exists x: nat :: x < |rows| && Wanted(picks, kp, qPos, x) && rows[x] == row
  }
}
