/** The bounded log ring: an all-time counter over a deque that forgets its oldest records. */
module LogRings {

  datatype Rec = Rec(seqNo: nat, text: string)

  /** The records a ring of this capacity still holds. */
  function Kept(history: seq<Rec>, capacity: nat): (r: seq<Rec>)
    ensures |r| <= capacity && |r| <= |history|
  {
    if |history| <= capacity then history else history[|history| - capacity..]
  }

  /** Record `i` carries number `i`. */
  ghost predicate Numbered(history: seq<Rec>) {
    forall i :: 0 <= i < |history| ==> history[i].seqNo == i
  }

  /** What a poll from `cursor` returns: the kept records numbered `cursor` and up. */
  ghost function Polled(history: seq<Rec>, capacity: nat, cursor: int): (r: seq<Rec>)
  {
    var oldest := |history| - |Kept(history, capacity)|;
    history[Clamp(cursor, oldest, |history|)..]
  }

  function Clamp(x: int, lo: int, hi: int): int { if x <= lo then lo else if x < hi then x else hi }

  class LogRing {
    const capacity: nat
    var buf: seq<Rec>
    var next: nat
    ghost var history: seq<Rec>  // everything ever appended

    ghost predicate Valid()
      reads this
    {
      next == |history| && Numbered(history) && buf == Kept(history, capacity)
    }

    constructor (capacity: nat)
      ensures Valid() && this.capacity == capacity && history == []
    {
      this.capacity := capacity;
      buf, next, history := [], 0, [];
    }

    method Append(text: string) returns (rec: Rec)
      requires Valid()
      modifies this
      ensures Valid() && rec == Rec(old(next), text) && history == old(history) + [rec]
    {
      rec := Rec(next, text);
      KeptSnoc(history, rec, capacity);
      buf := buf + [rec];
      if |buf| > capacity { buf := buf[1..]; }
      next := next + 1;
      history := history + [rec];
    }

    /** Exactly the kept records from `cursor` on, whatever the cursor, and the all-time count. */
    method Since(cursor: int) returns (out: seq<Rec>, count: nat)
      requires Valid()
      ensures out == Polled(history, capacity, cursor) && count == |history|
    {
      out := [];
      ghost var oldest := |history| - |buf|;
      for k := 0 to |buf|
        invariant out == history[Clamp(cursor, oldest, oldest + k)..oldest + k]
      {
        KeptAt(history, capacity, k);
        if buf[k].seqNo >= cursor {
          out := out + [buf[k]];
          SliceSnoc(history, Clamp(cursor, oldest, oldest + k), oldest + k);
        }
      }
      SliceToEnd(history, Clamp(cursor, oldest, |history|));
      count := next;
    }
  }

  lemma KeptAt(history: seq<Rec>, capacity: nat, k: nat)
    requires Numbered(history) && k < |Kept(history, capacity)|
    ensures var oldest := |history| - |Kept(history, capacity)|;
      Kept(history, capacity)[k] == history[oldest + k] && history[oldest + k].seqNo == oldest + k
  {
  }

  lemma SliceSnoc(s: seq<Rec>, a: nat, b: nat)
    requires a <= b < |s|
    ensures s[a..b] + [s[b]] == s[a..b + 1]
  {
  }

  lemma SliceToEnd(s: seq<Rec>, a: nat)
    requires a <= |s|
    ensures s[a..|s|] == s[a..]
  {
  }

  lemma KeptSnoc(history: seq<Rec>, rec: Rec, capacity: nat)
    ensures var more := Kept(history, capacity) + [rec];
      Kept(history + [rec], capacity) == if |more| > capacity then more[1..] else more
  {
  }
}
