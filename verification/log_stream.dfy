/** One client's log stream: replay of the ring, then the live tail through a bounded queue that
    drops its oldest records, with gap frames for what was lost. Appends, queue callbacks and the
    generator's turns interleave freely; callbacks run in record order. */
module LogStreams {
  import opened LogRings

  datatype Frame = Record(rec: Rec) | Gap(n: int, from: int, to: int)

  // ---- the queue and its drop counter ----

  const MAX: nat := 1000

  /** The queue; how many records were dropped since the last gap frame, and which. */
  datatype Queue = Queue(q: seq<Rec>, n: nat, from: int, to: int)

  function Enqueue(d: Queue, rec: Rec): Queue {
    if |d.q| >= MAX then
      Queue(d.q[1..] + [rec], d.n + 1, if d.n == 0 then d.q[0].seqNo else d.from, d.q[0].seqNo)
    else d.(q := d.q + [rec])
  }

  // ---- the stream as a state machine ----

  /** Where the handler is: it subscribes, snapshots the ring, replays, and then takes turns: a record
      is taken off the queue, then looked at, and its frame sent. */
  datatype Phase =
    | Fresh | Subscribed | Opened(backlog: seq<Rec>) | Replay(rest: seq<Rec>)
    | Live(last: int) | InHand(rec: Rec, last: int) | Sending(rec: Rec)

  /** `put` is the number of the next record whose callback runs. `late` is set when the queue
      overflows while a record is in hand, `broken` when that record is then looked at. */
  datatype Stream = Stream(
    history: seq<Rec>, since: int, phase: Phase, put: nat, boundary: nat, d: Queue,
    frames: seq<Frame>, late: bool, broken: bool)

  datatype Action = Append(text: string) | Subscribe | Snapshot | Callback | Turn

  function Initial(history: seq<Rec>, since: int): Stream {
    Stream(history, since, Fresh, 0, 0, Queue([], 0, 0, 0), [], false, false)
  }

  ghost function Next(s: Stream, capacity: nat, a: Action): Stream {
    match a
    case Append(text) => s.(history := s.history + [Rec(|s.history|, text)])
    case Subscribe => if s.phase.Fresh? then s.(phase := Subscribed, put := |s.history|) else s
    case Snapshot =>
      if s.phase.Subscribed? then
        s.(phase := Opened(Polled(s.history, capacity, s.since)), boundary := |s.history|)
      else s
    case Callback =>
      if s.phase.Fresh? || s.phase.Subscribed? || s.put >= |s.history| then s else CallbackStep(s)
    case Turn => TurnStep(s)
  }

  ghost function CallbackStep(s: Stream): Stream
    requires s.put < |s.history|
  {
    var rec := s.history[s.put];
    if rec.seqNo < s.boundary then s.(put := s.put + 1)
    else s.(put := s.put + 1, d := Enqueue(s.d, rec), late := s.late || (s.phase.InHand? && |s.d.q| >= MAX))
  }

  /** It changes the queue only, and that only for a record the replay does not cover. */
  lemma CallbackFields(s: Stream)
    requires s.put < |s.history|
    ensures var t, rec := CallbackStep(s), s.history[s.put];
      && t.since == s.since && t.phase == s.phase && t.boundary == s.boundary && t.frames == s.frames
      && t.d == if rec.seqNo < s.boundary then s.d else Enqueue(s.d, rec)
  {
  }

  /** The oldest record still kept, or the ring's cursor. */
  function Oldest(boundary: nat, backlog: seq<Rec>): int {
    if backlog == [] then boundary else backlog[0].seqNo
  }

  /** The lost prefix is announced before the replay. */
  function OpenStep(s: Stream, backlog: seq<Rec>, oldest: int): Stream {
    s.(phase := Replay(backlog),
       frames := if oldest > s.since then s.frames + [Gap(oldest - s.since, s.since, oldest - 1)] else s.frames)
  }

  ghost function TurnStep(s: Stream): Stream {
    match s.phase
    case Opened(backlog) => OpenStep(s, backlog, Oldest(s.boundary, backlog))
    case Replay(rest) =>
      if rest == [] then s.(phase := Live(s.boundary - 1))
      else s.(phase := Replay(rest[1..]), frames := s.frames + [Record(rest[0])])
    case Live(last) =>
      if s.d.q == [] then s else s.(phase := InHand(s.d.q[0], last), d := s.d.(q := s.d.q[1..]), late := false)
    case InHand(rec, last) =>
      if rec.seqNo <= last then s.(phase := Live(last), late := false)
      else
        s.(phase := Sending(rec), d := Queue(s.d.q, 0, 0, 0), late := false, broken := s.broken || s.late,
           frames := if s.d.n == 0 then s.frames else s.frames + [Gap(s.d.n, s.d.from, s.d.to)])
    case Sending(rec) => s.(phase := Live(rec.seqNo), frames := s.frames + [Record(rec)])
    case _ => s
  }

  ghost function Run(s: Stream, capacity: nat, actions: seq<Action>): Stream
    decreases |actions|
  {
    if actions == [] then s else Next(Run(s, capacity, actions[..|actions| - 1]), capacity, actions[|actions| - 1])
  }

  // ---- what the frames must say ----

  datatype End = Lost | At(seqNo: int)

  function Low(f: Frame): int { if f.Record? then f.rec.seqNo else f.from }
  function High(f: Frame): int { if f.Record? then f.rec.seqNo + 1 else f.to + 1 }

  /** A record frame carries the record of that number; a gap frame counts exactly the numbers from
      its first to its last. */
  ghost predicate Honest(f: Frame, history: seq<Rec>) {
    if f.Record? then f.rec.seqNo < |history| && history[f.rec.seqNo] == f.rec
    else f.n > 0 && f.n == f.to - f.from + 1
  }

  /** Where the frames end if, one after the other from `start`, they cover every number exactly once,
      in order and honestly; `Lost` if they do not. */
  ghost function Covered(frames: seq<Frame>, start: int, history: seq<Rec>): End {
    if frames == [] then At(start)
    else
      var before, f := Covered(frames[..|frames| - 1], start, history), frames[|frames| - 1];
      if before == At(Low(f)) && Honest(f, history) then At(High(f)) else Lost
  }

  lemma CoveredSnoc(frames: seq<Frame>, f: Frame, start: int, history: seq<Rec>)
    ensures Covered(frames + [f], start, history)
         == if Covered(frames, start, history) == At(Low(f)) && Honest(f, history) then At(High(f)) else Lost
  {
    assert (frames + [f])[..|frames|] == frames;
  }

  /** More history changes nothing about frames that were right, or wrong. */
  lemma {:induction false} CoveredStays(frames: seq<Frame>, start: int, history: seq<Rec>, rec: Rec)
    requires forall i :: 0 <= i < |frames| && frames[i].Record? ==> frames[i].rec.seqNo < |history|
    ensures Covered(frames, start, history + [rec]) == Covered(frames, start, history)
    decreases |frames|
  {
    if frames != [] { CoveredStays(frames[..|frames| - 1], start, history, rec); }
  }

  /** What coverage means for the client: honest frames in increasing order, none overlapping. */
  lemma {:induction false} CoveredInOrder(frames: seq<Frame>, start: int, history: seq<Rec>, end: int)
    requires Covered(frames, start, history) == At(end)
    ensures start <= end
    ensures forall i :: 0 <= i < |frames| ==> start <= Low(frames[i]) < High(frames[i]) <= end && Honest(frames[i], history)
    ensures forall i, j :: 0 <= i < j < |frames| ==> High(frames[i]) <= Low(frames[j])
    decreases |frames|
  {
    if frames != [] {
      var n := |frames| - 1;
      var init := frames[..n];
      CoveredInOrder(init, start, history, Low(frames[n]));
      forall i | 0 <= i < n
        ensures start <= Low(frames[i]) < High(frames[i]) <= Low(frames[n]) && Honest(frames[i], history)
      {
        assert frames[i] == init[i];
      }
      forall i, j | 0 <= i < j < |frames| ensures High(frames[i]) <= Low(frames[j]) {
        if j < n { assert frames[i] == init[i] && frames[j] == init[j]; }
      }
    }
  }

  /** ... and each number from the start to the end in one of them. */
  lemma {:induction false} CoveredHits(frames: seq<Frame>, start: int, history: seq<Rec>, end: int, x: int) returns (i: nat)
    requires Covered(frames, start, history) == At(end) && start <= x < end
    ensures i < |frames| && Low(frames[i]) <= x < High(frames[i])
    decreases |frames|
  {
    i := |frames| - 1;
    if x < Low(frames[i]) { i := CoveredHits(frames[..i], start, history, Low(frames[i]), x); }
  }

  // ---- the invariant ----

  /** The first number the frames are about. */
  function Start(s: Stream): int { if s.since <= s.boundary then s.since else s.boundary }

  /** The next number that the queue will get. */
  function Edge(s: Stream): nat { if s.put < s.boundary then s.boundary else s.put }

  /** The number the next frame should begin at. */
  function Place(s: Stream): int {
    match s.phase
    case Replay(rest) => s.boundary - |rest|
    case Live(last) => last + 1
    case InHand(rec, last) => last + 1
    case Sending(rec) => rec.seqNo
    case _ => Start(s)
  }

  ghost predicate IsRecord(rec: Rec, history: seq<Rec>) {
    rec.seqNo < |history| && history[rec.seqNo] == rec
  }

  /** The queue holds the newest records, all of them behind what the generator has taken. */
  ghost predicate InOrder(s: Stream) {
    && Numbered(s.history) && s.put <= |s.history| && s.boundary <= |s.history|
    && |s.d.q| <= MAX && |s.d.q| <= Edge(s)
    && (forall i :: 0 <= i < |s.d.q| ==> s.d.q[i] == s.history[Edge(s) - |s.d.q| + i])
    && (forall i :: 0 <= i < |s.frames| && s.frames[i].Record? ==> s.frames[i].rec.seqNo < |s.history|)
    && PhaseInOrder(s, Edge(s) - |s.d.q|)
  }

  /** `head` is the number of the record at the head of the queue. */
  ghost predicate PhaseInOrder(s: Stream, head: int)
    requires s.boundary <= |s.history|
  {
    match s.phase
    case Fresh => s.d == Queue([], 0, 0, 0) && s.frames == [] && s.boundary == 0 && s.put == 0 && !s.broken
    case Subscribed => s.d == Queue([], 0, 0, 0) && s.frames == [] && s.boundary == 0 && !s.broken
    case Opened(backlog) => IsBacklog(s, backlog) && s.boundary <= head && s.frames == [] && (backlog == [] || s.since <= s.boundary - |backlog|)
    case Replay(rest) => IsBacklog(s, rest) && s.boundary <= head
    case Live(last) => s.boundary <= last + 1 <= head
    case InHand(rec, last) => s.boundary <= last + 1 <= rec.seqNo < head && IsRecord(rec, s.history)
    case Sending(rec) => s.boundary <= rec.seqNo < head && IsRecord(rec, s.history)
  }

  ghost predicate IsBacklog(s: Stream, rest: seq<Rec>)
    requires s.boundary <= |s.history|
  {
    |rest| <= s.boundary && rest == s.history[s.boundary - |rest|..s.boundary]
  }

  /** The drop counter tells exactly which records are missing before the head of the queue. */
  ghost predicate Counted(s: Stream) {
    var head := Edge(s) - |s.d.q|;
    match s.phase
    case Fresh => true
    case Subscribed => true
    case Opened(backlog) => Dropped(s.d, s.boundary, head)
    case Replay(rest) => Dropped(s.d, s.boundary, head)
    case Live(last) => Dropped(s.d, last + 1, head)
    case InHand(rec, last) =>
      && s.d.n >= 0 && head == last + 2 + s.d.n
      && (s.late <==> rec.seqNo < last + 1 + s.d.n)
      && (s.d.n > 0 ==> s.d.from == if rec.seqNo == last + 1 then last + 2 else last + 1)
      && (s.d.n > 0 ==> s.d.to == last + s.d.n + if s.late then 1 else 0)
    case Sending(rec) => Dropped(s.d, rec.seqNo + 1, head)
  }

  /** [at, head) was dropped and is counted. */
  ghost predicate Dropped(d: Queue, at: int, head: int) {
    d.n >= 0 && head == at + d.n && (d.n > 0 ==> d.from == at && d.to == head - 1)
  }

  /** Unbroken streams are covered up to where they stand; broken ones are not. */
  ghost predicate Inv(s: Stream) {
    && InOrder(s)
    && (!s.broken ==> Counted(s))
    && Covered(s.frames, Start(s), s.history) == if s.broken then Lost else At(Place(s))
  }

  lemma InitialOk(history: seq<Rec>, since: int)
    requires Numbered(history)
    ensures Inv(Initial(history, since))
  {
  }

  /** More history leaves the positions of the records as they are. */
  lemma AppendInOrder(s: Stream, rec: Rec)
    requires InOrder(s) && rec.seqNo == |s.history|
    ensures InOrder(s.(history := s.history + [rec]))
  {
    var t := s.(history := s.history + [rec]);
    if s.phase.Opened? { SliceStays(s.history, rec, s.boundary - |s.phase.backlog|, s.boundary); }
    if s.phase.Replay? { SliceStays(s.history, rec, s.boundary - |s.phase.rest|, s.boundary); }
  }

  lemma SliceStays(history: seq<Rec>, rec: Rec, a: int, b: int)
    requires 0 <= a <= b <= |history|
    ensures (history + [rec])[a..b] == history[a..b]
  {
  }

  lemma AppendKeeps(s: Stream, text: string)
    requires Inv(s)
    ensures Inv(s.(history := s.history + [Rec(|s.history|, text)]))
  {
    AppendInOrder(s, Rec(|s.history|, text));
    CoveredStays(s.frames, Start(s), s.history, Rec(|s.history|, text));
  }

  lemma SnapshotKeeps(s: Stream, capacity: nat)
    requires Inv(s) && s.phase.Subscribed?
    ensures Inv(Next(s, capacity, Snapshot))
  {
  }

  /** A record the replay covers. */
  lemma SkipKeeps(s: Stream, t: Stream)
    requires Inv(s) && s.put < |s.history| && s.put < s.boundary && !s.phase.Subscribed? && !s.phase.Fresh?
    requires t == s.(put := s.put + 1)
    ensures Inv(t)
  {
  }

  /** A stretch of the history that loses its first `gone` records and gets the next one. */
  lemma StretchGrows(history: seq<Rec>, head: nat, q: seq<Rec>, gone: nat, q': seq<Rec>)
    requires gone <= |q| && head + |q| < |history| && q' == q[gone..] + [history[head + |q|]]
    requires forall i :: 0 <= i < |q| ==> q[i] == history[head + i]
    ensures |q'| == |q| - gone + 1 && forall i :: 0 <= i < |q'| ==> q'[i] == history[head + gone + i]
  {
  }

  /** Where the queue's head is does not change with a record that fits, and moves by one with one that
      pushes the oldest out. */
  lemma QueueGrows(s: Stream, t: Stream)
    requires InOrder(s) && s.boundary <= s.put < |s.history| && t.history == s.history && t.put == s.put + 1 && t.boundary == s.boundary
    requires t.d.q == if |s.d.q| < MAX then s.d.q + [s.history[s.put]] else s.d.q[1..] + [s.history[s.put]]
    ensures |t.d.q| <= MAX && |t.d.q| <= Edge(t)
    ensures Edge(t) - |t.d.q| == Edge(s) - |s.d.q| + if |s.d.q| < MAX then 0 else 1
    ensures forall i :: 0 <= i < |t.d.q| ==> t.d.q[i] == t.history[Edge(t) - |t.d.q| + i]
  {
    var head := Edge(s) - |s.d.q|;
    if |s.d.q| < MAX {
      assert s.d.q[0..] == s.d.q;
      StretchGrows(s.history, head, s.d.q, 0, t.d.q);
    } else {
      StretchGrows(s.history, head, s.d.q, 1, t.d.q);
    }
  }

  /** A record that fits the queue. */
  lemma FitsKeeps(s: Stream, t: Stream)
    requires Inv(s) && s.boundary <= s.put < |s.history| && |s.d.q| < MAX && !s.phase.Subscribed? && !s.phase.Fresh?
    requires t == s.(put := s.put + 1, d := s.d.(q := s.d.q + [s.history[s.put]]))
    ensures Inv(t)
  {
    QueueGrows(s, t);
    assert PhaseInOrder(t, Edge(t) - |t.d.q|);
  }

  /** A record that pushes the oldest out: the head moves by one, and so does the counter. */
  lemma OverflowKeeps(s: Stream, t: Stream)
    requires Inv(s) && s.boundary <= s.put < |s.history| && |s.d.q| == MAX && !s.phase.Subscribed? && !s.phase.Fresh?
    requires t == s.(put := s.put + 1, d := Enqueue(s.d, s.history[s.put]), late := s.late || s.phase.InHand?)
    ensures Inv(t)
  {
    QueueGrows(s, t);
    assert PhaseInOrder(t, Edge(t) - |t.d.q|);
    assert s.d.q[0].seqNo == Edge(s) - |s.d.q|;
    if !s.broken { OverflowCounted(s, t); }
  }

  lemma OverflowCounted(s: Stream, t: Stream)
    requires Counted(s) && !s.phase.Subscribed? && !s.phase.Fresh? && s.d.q != []
    requires t.phase == s.phase && t.boundary == s.boundary && t.late == (s.late || s.phase.InHand?)
    requires Edge(t) - |t.d.q| == Edge(s) - |s.d.q| + 1 && s.d.q[0].seqNo == Edge(s) - |s.d.q|
    requires t.d.n == s.d.n + 1 && t.d.to == s.d.q[0].seqNo && t.d.from == if s.d.n == 0 then s.d.q[0].seqNo else s.d.from
    requires s.phase.InHand? ==> s.phase.last + 1 <= s.phase.rec.seqNo < Edge(s) - |s.d.q|
    ensures Counted(t)
  {
  }

  lemma CallbackKeeps(s: Stream, t: Stream)
    requires Inv(s) && !s.phase.Fresh? && !s.phase.Subscribed? && s.put < |s.history| && t == CallbackStep(s)
    ensures Inv(t)
  {
    if s.put < s.boundary {
      SkipKeeps(s, t);
    } else if |s.d.q| < MAX {
      FitsKeeps(s, t);
    } else {
      OverflowKeeps(s, t);
    }
  }

  /** Sending a frame: the order of the queue does not care. */
  lemma FrameInOrder(s: Stream, t: Stream, f: Frame)
    requires InOrder(s) && (f.Record? ==> IsRecord(f.rec, s.history)) && t.d.q == s.d.q && t.frames == s.frames + [f]
    requires t.history == s.history && t.put == s.put && t.boundary == s.boundary && t.since == s.since
    requires !t.phase.Fresh? && !t.phase.Subscribed? && !t.phase.Opened?
    requires PhaseInOrder(t, Edge(s) - |s.d.q|)
    ensures InOrder(t)
  {
    forall i | 0 <= i < |t.frames| && t.frames[i].Record? ensures t.frames[i].rec.seqNo < |t.history| {
      if i < |s.frames| { assert t.frames[i] == s.frames[i]; }
    }
  }

  /** ... and coverage moves to the frame's end when the frame begins where coverage stood. */
  lemma FrameCovers(s: Stream, t: Stream, f: Frame)
    requires t.frames == s.frames + [f] && t.history == s.history && t.boundary == s.boundary && t.since == s.since
    ensures Covered(t.frames, Start(t), t.history)
         == if Covered(s.frames, Start(s), s.history) == At(Low(f)) && Honest(f, s.history) then At(High(f)) else Lost
  {
    CoveredSnoc(s.frames, f, Start(s), s.history);
  }

  /** The replay begins at the oldest record still kept. */
  lemma BacklogHead(history: seq<Rec>, boundary: nat, backlog: seq<Rec>)
    requires Numbered(history) && |backlog| <= boundary <= |history| && backlog == history[boundary - |backlog|..boundary]
    ensures Oldest(boundary, backlog) == boundary - |backlog|
  {
  }

  lemma OpenGap(s: Stream, t: Stream, backlog: seq<Rec>, oldest: int)
    requires Inv(s) && s.phase == Opened(backlog) && oldest == s.boundary - |backlog| && oldest > s.since
    requires t == s.(phase := Replay(backlog), frames := s.frames + [Gap(oldest - s.since, s.since, oldest - 1)])
    ensures Inv(t)
  {
    var gap := Gap(oldest - s.since, s.since, oldest - 1);
    FrameInOrder(s, t, gap);
    FrameCovers(s, t, gap);
  }

  lemma OpenPlain(s: Stream, t: Stream, backlog: seq<Rec>, oldest: int)
    requires Inv(s) && s.phase == Opened(backlog) && oldest == s.boundary - |backlog| && oldest <= s.since
    requires t == s.(phase := Replay(backlog))
    ensures Inv(t)
  {
  }

  lemma OpenKeeps(s: Stream, t: Stream, backlog: seq<Rec>)
    requires Inv(s) && s.phase == Opened(backlog) && t == OpenStep(s, backlog, Oldest(s.boundary, backlog))
    ensures Inv(t)
  {
    BacklogHead(s.history, s.boundary, backlog);
    if s.boundary - |backlog| > s.since {
      OpenGap(s, t, backlog, s.boundary - |backlog|);
    } else {
      OpenPlain(s, t, backlog, s.boundary - |backlog|);
    }
  }

  /** The rest of a backlog is one, and its head is the record of its number. */
  lemma BacklogTail(s: Stream, rest: seq<Rec>)
    requires Numbered(s.history) && s.boundary <= |s.history| && IsBacklog(s, rest) && rest != []
    ensures IsBacklog(s, rest[1..]) && IsRecord(rest[0], s.history) && rest[0].seqNo == s.boundary - |rest|
  {
    var at := s.boundary - |rest|;
    assert rest[0] == s.history[at];
    SliceTail(s.history, at, s.boundary);
  }

  lemma ReplayRecord(s: Stream, t: Stream, rest: seq<Rec>)
    requires Inv(s) && s.phase == Replay(rest) && rest != []
    requires t == s.(phase := Replay(rest[1..]), frames := s.frames + [Record(rest[0])])
    ensures Inv(t)
  {
    BacklogTail(s, rest);
    FrameInOrder(s, t, Record(rest[0]));
    FrameCovers(s, t, Record(rest[0]));
  }

  lemma ReplayEnd(s: Stream, t: Stream)
    requires Inv(s) && s.phase == Replay([]) && t == s.(phase := Live(s.boundary - 1))
    ensures Inv(t)
  {
  }

  lemma ReplayKeeps(s: Stream, t: Stream)
    requires Inv(s) && s.phase.Replay? && t == TurnStep(s)
    ensures Inv(t)
  {
    var rest := s.phase.rest;
    if rest == [] { ReplayEnd(s, t); } else { ReplayRecord(s, t, rest); }
  }

  lemma SliceTail(history: seq<Rec>, a: int, b: int)
    requires 0 <= a < b <= |history|
    ensures history[a..b][1..] == history[a + 1..b]
  {
  }

  lemma TakeKeeps(s: Stream, t: Stream)
    requires Inv(s) && s.phase.Live? && t == TurnStep(s)
    ensures Inv(t)
  {
  }

  lemma LookPlain(s: Stream, t: Stream, rec: Rec, last: int)
    requires Inv(s) && s.phase == InHand(rec, last) && s.d.n == 0
    requires t == s.(phase := Sending(rec), d := Queue(s.d.q, 0, 0, 0), late := false, broken := s.broken || s.late)
    ensures Inv(t)
  {
  }

  lemma LookGap(s: Stream, t: Stream, rec: Rec, last: int)
    requires Inv(s) && s.phase == InHand(rec, last) && s.d.n != 0
    requires t == s.(phase := Sending(rec), d := Queue(s.d.q, 0, 0, 0), late := false, broken := s.broken || s.late,
                     frames := s.frames + [Gap(s.d.n, s.d.from, s.d.to)])
    ensures Inv(t)
  {
    var gap := Gap(s.d.n, s.d.from, s.d.to);
    FrameInOrder(s, t, gap);
    FrameCovers(s, t, gap);
  }

  /** Looking at the record in hand: the gap frame is right exactly when the queue did not overflow
      since the record was taken. The record is never one the client has. */
  lemma LookKeeps(s: Stream, t: Stream)
    requires Inv(s) && s.phase.InHand? && t == TurnStep(s)
    ensures s.phase.rec.seqNo > s.phase.last && Inv(t)
    ensures !s.broken ==> (Covered(t.frames, Start(t), t.history) == At(s.phase.rec.seqNo) <==> !s.late)
  {
    if s.d.n == 0 { LookPlain(s, t, s.phase.rec, s.phase.last); } else { LookGap(s, t, s.phase.rec, s.phase.last); }
  }

  lemma SendKeeps(s: Stream, t: Stream, rec: Rec)
    requires Inv(s) && s.phase == Sending(rec) && t == s.(phase := Live(rec.seqNo), frames := s.frames + [Record(rec)])
    ensures Inv(t)
  {
    FrameInOrder(s, t, Record(rec));
    FrameCovers(s, t, Record(rec));
  }

  // ---- every run ----

  lemma TurnKeeps(s: Stream, t: Stream)
    requires Inv(s) && t == TurnStep(s)
    ensures Inv(t)
  {
    match s.phase
    case Opened(backlog) => OpenKeeps(s, t, backlog);
    case Replay(rest) => ReplayKeeps(s, t);
    case Live(last) => TakeKeeps(s, t);
    case InHand(rec, last) => LookKeeps(s, t);
    case Sending(rec) => SendKeeps(s, t, rec);
    case _ =>
  }

  lemma NextKeeps(s: Stream, capacity: nat, a: Action)
    requires Inv(s)
    ensures Inv(Next(s, capacity, a))
  {
    match a
    case Append(text) => AppendKeeps(s, text);
    case Subscribe =>
    case Snapshot => if s.phase.Subscribed? { SnapshotKeeps(s, capacity); }
    case Callback => if !s.phase.Fresh? && !s.phase.Subscribed? && s.put < |s.history| { CallbackKeeps(s, CallbackStep(s)); }
    case Turn => TurnKeeps(s, TurnStep(s));
  }

  lemma {:induction false} RunKeeps(s: Stream, capacity: nat, actions: seq<Action>)
    requires Inv(s)
    ensures Inv(Run(s, capacity, actions))
    decreases |actions|
  {
    if actions != [] {
      RunKeeps(s, capacity, actions[..|actions| - 1]);
      NextKeeps(Run(s, capacity, actions[..|actions| - 1]), capacity, actions[|actions| - 1]);
    }
  }

  /** MAIN: for any interleaving, the frames sent so far cover every number from the client's cursor
      (or from the ring's, when the client's is ahead) up to where the stream stands, exactly once, in
      order, with exact counts, if and only if the queue never overflowed between a record being
      taken off it and being looked at. */
  lemma FramesCover(history: seq<Rec>, since: int, capacity: nat, actions: seq<Action>)
    requires Numbered(history)
    ensures var s := Run(Initial(history, since), capacity, actions);
      && (!s.broken ==> Covered(s.frames, Start(s), s.history) == At(Place(s)))
      && (s.broken ==> Covered(s.frames, Start(s), s.history) == Lost)
  {
    InitialOk(history, since);
    RunKeeps(Initial(history, since), capacity, actions);
  }

  // ---- the handler itself ----

  /** The handler: the queue and its drop counter, which the callbacks and the generator share, where the
      generator stands, and what it has yielded. `model` is the same with the ring's history. */
  class LogStream {
    const since: int
    var q: seq<Rec>
    var n: nat
    var from: int
    var to: int
    var boundary: nat
    var phase: Phase
    var frames: seq<Frame>
    ghost var model: Stream

    /** The fields are the model's. */
    ghost predicate Fields()
      reads this
    {
      && model.since == since && model.phase == phase && model.boundary == boundary
      && model.d == Queue(q, n, from, to) && model.frames == frames
    }

    ghost predicate Valid()
      reads this
    {
      Fields() && Inv(model) && (n == 0 ==> from == 0 && to == 0)
    }

    constructor (since: int, ghost history: seq<Rec>)
      requires Numbered(history)
      ensures Valid() && model == Initial(history, since)
    {
      this.since := since;
      q, n, from, to, boundary, phase, frames := [], 0, 0, 0, 0, Fresh, [];
      model := Initial(history, since);
      InitialOk(history, since);
    }

    /** The ring gets one more record. */
    ghost method Appended(text: string)
      requires Valid()
      modifies this`model
      ensures Valid() && model == Next(old(model), 0, Append(text))
    {
      AppendKeeps(model, text);
      model := Next(model, 0, Append(text));
    }

    method SubscribeTo()
      requires Valid() && phase.Fresh?
      modifies this
      ensures Valid() && model == Next(old(model), 0, Subscribe)
    {
      NextKeeps(model, 0, Subscribe);
      model, phase := Next(model, 0, Subscribe), Subscribed;
    }

    /** The backlog from the client's cursor on, and the boundary below which it covers everything. */
    method TakeSnapshot(ring: LogRing)
      requires Valid() && phase.Subscribed? && ring.Valid() && ring.history == model.history
      modifies this
      ensures Valid() && model == Next(old(model), ring.capacity, Snapshot)
    {
      NextKeeps(model, ring.capacity, Snapshot);
      model := Next(model, ring.capacity, Snapshot);
      var backlog;
      backlog, boundary := ring.Since(since);
      phase := Opened(backlog);
    }

    /** The queue callback: records the replay covers are skipped; a full queue loses its oldest. */
    method Put(rec: Rec)
      requires Valid() && !phase.Fresh? && !phase.Subscribed? && model.put < |model.history| && rec == model.history[model.put]
      modifies this
      ensures Valid() && model == CallbackStep(old(model))
    {
      CallbackKeeps(model, CallbackStep(model));
      CallbackFields(model);
      if rec.seqNo >= boundary { PutLive(rec); }
      model := CallbackStep(model);
    }

    method PutLive(rec: Rec)
      requires |q| <= MAX
      modifies this`q, this`n, this`from, this`to
      ensures Queue(q, n, from, to) == Enqueue(old(Queue(q, n, from, to)), rec)
      ensures n == 0 ==> n == old(n) && from == old(from) && to == old(to)
    {
      if |q| == MAX {
        var old_ := q[0];
        q := q[1..];
        if n == 0 { from := old_.seqNo; }
        n, to := n + 1, old_.seqNo;
      }
      q := q + [rec];
    }

    /** Announces the lost prefix. */
    method Open(backlog: seq<Rec>)
      requires Valid() && phase == Opened(backlog)
      modifies this
      ensures Valid() && model == TurnStep(old(model))
    {
      TurnKeeps(model, TurnStep(model));
      model := TurnStep(model);
      var oldest := if backlog == [] then boundary else backlog[0].seqNo;
      if oldest > since {
        frames := frames + [Gap(oldest - since, since, oldest - 1)];
      }
      phase := Replay(backlog);
    }

    /** One record of the replay, or the end of it. */
    method ReplayOne(rest: seq<Rec>)
      requires Valid() && phase == Replay(rest)
      modifies this
      ensures Valid() && model == TurnStep(old(model))
    {
      if rest == [] {
        phase := Live(boundary - 1);
      } else {
        frames := frames + [Record(rest[0])];
        phase := Replay(rest[1..]);
      }
      TurnKeeps(model, TurnStep(model));
      model := TurnStep(model);
    }

    /** `q.get()`; nothing happens while the queue is empty. */
    method Take(last: int)
      requires Valid() && phase == Live(last)
      modifies this
      ensures Valid() && model == TurnStep(old(model))
    {
      TurnKeeps(model, TurnStep(model));
      model := TurnStep(model);
      if q != [] {
        phase := InHand(q[0], last);
        q := q[1..];
      }
    }

    /** Looks at the record in hand, and reports what was dropped: the counter is read and reset before
        anything is yielded. Unless the queue overflowed since the record was taken, the frames then
        cover everything up to the record exactly once. A record the client has never comes up. */
    method Look(rec: Rec, last: int)
      requires Valid() && phase == InHand(rec, last)
      modifies this
      ensures Valid() && model == TurnStep(old(model))
      ensures n == 0 && phase == Sending(rec)
      ensures old(!model.broken) ==> (Covered(frames, Start(model), model.history) == At(rec.seqNo) <==> old(!model.late))
    {
      if rec.seqNo <= last {
        assert false;
      } else {
        LookKeeps(model, TurnStep(model));
        model := TurnStep(model);
        if n > 0 {
          frames := frames + [Gap(n, from, to)];
          n, from, to := 0, 0, 0;
        }
        phase := Sending(rec);
      }
    }

    /** Yields the record. */
    method Send(rec: Rec)
      requires Valid() && phase == Sending(rec)
      modifies this
      ensures Valid() && model == TurnStep(old(model))
    {
      frames := frames + [Record(rec)];
      phase := Live(rec.seqNo);
      TurnKeeps(model, TurnStep(model));
      model := TurnStep(model);
    }
  }

  /** Where taking and looking are one turn (`wait_for` of Python 3.12 and later does not yield when
      the queue has a record), no callback runs in between. */
  ghost predicate Atomic(s: Stream, capacity: nat, actions: seq<Action>) {
    forall k :: 0 <= k < |actions| ==> Polite(s, capacity, actions, k)
  }

  /** Action `k` is no queue callback while a record is in hand. */
  ghost predicate Polite(s: Stream, capacity: nat, actions: seq<Action>, k: nat)
    requires k < |actions|
  {
    Run(s, capacity, actions[..k]).phase.InHand? ==> actions[k] != Callback
  }

  lemma {:induction false} AtomicStaysWhole(s: Stream, capacity: nat, actions: seq<Action>)
    requires !s.late && !s.broken && Atomic(s, capacity, actions)
    ensures !Run(s, capacity, actions).late && !Run(s, capacity, actions).broken
    decreases |actions|
  {
    if actions != [] {
      var n := |actions| - 1;
      forall k: nat | k < n ensures Polite(s, capacity, actions[..n], k) {
        assert actions[..n][..k] == actions[..k] && Polite(s, capacity, actions, k);
      }
      assert Polite(s, capacity, actions, n);
      AtomicStaysWhole(s, capacity, actions[..n]);
    }
  }

  /** MAIN: in such runs the stream is always right. */
  lemma AtomicFramesCover(history: seq<Rec>, since: int, capacity: nat, actions: seq<Action>)
    requires Numbered(history) && Atomic(Initial(history, since), capacity, actions)
    ensures var s := Run(Initial(history, since), capacity, actions);
      Covered(s.frames, Start(s), s.history) == At(Place(s))
  {
    FramesCover(history, since, capacity, actions);
    AtomicStaysWhole(Initial(history, since), capacity, actions);
  }

  /** Elsewhere (3.10 and 3.11 fetch the record in a task of its own): with a full queue, take a record,
      let two more arrive, and look: the gap frame overtakes the record or counts it. */
  lemma OverflowBreaks(s: Stream, capacity: nat)
    requires Inv(s) && !s.broken && s.phase.Live? && |s.d.q| == MAX && s.boundary <= s.put && s.put + 2 <= |s.history|
    ensures var t := Next(Next(Next(Next(s, capacity, Turn), capacity, Callback), capacity, Callback), capacity, Turn);
      t.broken && Inv(t)
  {
    var a := TakeOne(s, capacity);
    var b := Next(a, capacity, Callback);
    var c := Next(b, capacity, Callback);
    ArriveOne(a, b, capacity);
    ArriveLate(b, c, capacity);
    LookKeeps(c, Next(c, capacity, Turn));
  }

  /** Taking a record leaves room for one. */
  lemma TakeOne(s: Stream, capacity: nat) returns (a: Stream)
    requires Inv(s) && s.phase.Live? && |s.d.q| == MAX
    ensures a == Next(s, capacity, Turn) && Inv(a) && a.phase.InHand? && |a.d.q| == MAX - 1 && a.broken == s.broken
    ensures a.put == s.put && a.boundary == s.boundary && a.history == s.history
  {
    a := TurnStep(s);
    TakeKeeps(s, a);
  }

  /** The next one fills it. */
  lemma ArriveOne(a: Stream, b: Stream, capacity: nat)
    requires Inv(a) && a.phase.InHand? && |a.d.q| == MAX - 1 && a.boundary <= a.put < |a.history| && b == Next(a, capacity, Callback)
    ensures Inv(b) && b.phase == a.phase && |b.d.q| == MAX && b.put == a.put + 1
    ensures b.boundary == a.boundary && b.history == a.history
  {
    FitsKeeps(a, b);
  }

  /** The one after that is late. */
  lemma ArriveLate(b: Stream, c: Stream, capacity: nat)
    requires Inv(b) && b.phase.InHand? && |b.d.q| == MAX && b.boundary <= b.put < |b.history| && c == Next(b, capacity, Callback)
    ensures Inv(c) && c.phase == b.phase && c.late
  {
    OverflowKeeps(b, c);
  }

  lemma RunSnoc(s: Stream, capacity: nat, actions: seq<Action>, a: Action)
    ensures Run(s, capacity, actions + [a]) == Next(Run(s, capacity, actions), capacity, a)
  {
    assert (actions + [a])[..|actions|] == actions;
  }

  /** Subscribed to an empty ring and live, with `k` records in the ring and no callback run. */
  lemma {:induction false} Grown(capacity: nat, k: nat) returns (actions: seq<Action>)
    ensures var s := Run(Initial([], 0), capacity, actions);
      s == Stream(s.history, 0, Live(-1), 0, 0, Queue([], 0, 0, 0), [], false, false) && |s.history| == k
    decreases k
  {
    if k == 0 {
      actions := WentLive(capacity);
    } else {
      actions := Grown(capacity, k - 1);
      RunSnoc(Initial([], 0), capacity, actions, Append(""));
      actions := actions + [Append("")];
    }
  }

  lemma WentLive(capacity: nat) returns (actions: seq<Action>)
    ensures Run(Initial([], 0), capacity, actions) == At0(Live(-1))
  {
    var o := At0(Fresh);
    SubscribeAt0(capacity);
    SnapshotAt0(capacity);
    OpenAt0(capacity);
    ReplayAt0(capacity);
    actions := Extended(o, capacity, [], o, Subscribe, At0(Subscribed));
    actions := Extended(o, capacity, actions, At0(Subscribed), Snapshot, At0(Opened([])));
    actions := Extended(o, capacity, actions, At0(Opened([])), Turn, At0(Replay([])));
    actions := Extended(o, capacity, actions, At0(Replay([])), Turn, At0(Live(-1)));
  }

  function At0(phase: Phase): Stream {
    Stream([], 0, phase, 0, 0, Queue([], 0, 0, 0), [], false, false)
  }

  lemma SubscribeAt0(capacity: nat)
    ensures Next(At0(Fresh), capacity, Subscribe) == At0(Subscribed)
  {
  }

  lemma SnapshotAt0(capacity: nat)
    ensures Next(At0(Subscribed), capacity, Snapshot) == At0(Opened([]))
  {
    assert Polled([], capacity, 0) == [];
  }

  lemma OpenAt0(capacity: nat)
    ensures Next(At0(Opened([])), capacity, Turn) == At0(Replay([]))
  {
  }

  lemma ReplayAt0(capacity: nat)
    ensures Next(At0(Replay([])), capacity, Turn) == At0(Live(-1))
  {
  }

  lemma Extended(o: Stream, capacity: nat, actions: seq<Action>, s: Stream, a: Action, t: Stream) returns (more: seq<Action>)
    requires Run(o, capacity, actions) == s && Next(s, capacity, a) == t
    ensures Run(o, capacity, more) == t
  {
    RunSnoc(o, capacity, actions, a);
    more := actions + [a];
  }

  /** ... and `k` callbacks run: they fill the queue. */
  lemma {:induction false} Filled(capacity: nat, k: nat) returns (actions: seq<Action>)
    requires k <= MAX
    ensures var s := Run(Initial([], 0), capacity, actions);
      && Inv(s) && s.phase == Live(-1) && s.put == k && |s.d.q| == k && s.boundary == 0 && !s.broken
      && |s.history| == MAX + 2
    decreases k
  {
    var o := Initial([], 0);
    if k == 0 {
      actions := Grown(capacity, MAX + 2);
    } else {
      actions := Filled(capacity, k - 1);
      RunSnoc(o, capacity, actions, Callback);
      actions := actions + [Callback];
    }
    InitialOk([], 0);
    RunKeeps(o, capacity, actions);
  }

  /** MAIN: the failure is within reach: a run from the start after which the frames do not cover. */
  lemma CanBreak(capacity: nat) returns (actions: seq<Action>)
    ensures var s := Run(Initial([], 0), capacity, actions); s.broken && Covered(s.frames, Start(s), s.history) == Lost
  {
    var o := Initial([], 0);
    var full := Filled(capacity, MAX);
    OverflowBreaks(Run(o, capacity, full), capacity);
    RunSnoc(o, capacity, full, Turn);
    RunSnoc(o, capacity, full + [Turn], Callback);
    RunSnoc(o, capacity, full + [Turn] + [Callback], Callback);
    RunSnoc(o, capacity, full + [Turn] + [Callback] + [Callback], Turn);
    actions := full + [Turn] + [Callback] + [Callback] + [Turn];
  }

  // ---- nothing is lost uncounted ----

  /** Records sent, and records declared lost. */
  function Told(frames: seq<Frame>): int {
    if frames == [] then 0
    else
      var f := frames[|frames| - 1];
      Told(frames[..|frames| - 1]) + if f.Record? then 1 else f.n
  }

  lemma ToldSnoc(frames: seq<Frame>, f: Frame)
    ensures Told(frames + [f]) == Told(frames) + if f.Record? then 1 else f.n
  {
    assert (frames + [f])[..|frames|] == frames;
  }

  /** Numbers the generator still has to tell before it looks at the queue again. */
  function Owed(s: Stream): int {
    match s.phase
    case Opened(backlog) => s.boundary - Start(s)
    case Replay(rest) => |rest|
    case InHand(rec, last) => 1
    case Sending(rec) => 1
    case _ => 0
  }

  ghost predicate Conserved(s: Stream) {
    s.phase.Fresh? || s.phase.Subscribed?
    || Told(s.frames) + Owed(s) + s.d.n + |s.d.q| == Edge(s) - Start(s)
  }

  lemma OpenConserves(s: Stream, t: Stream, backlog: seq<Rec>)
    requires Inv(s) && Conserved(s) && s.phase == Opened(backlog) && t == OpenStep(s, backlog, Oldest(s.boundary, backlog))
    ensures Conserved(t)
  {
    BacklogHead(s.history, s.boundary, backlog);
    var oldest := s.boundary - |backlog|;
    if oldest > s.since {
      ToldSnoc(s.frames, Gap(oldest - s.since, s.since, oldest - 1));
      assert t.frames == s.frames + [Gap(oldest - s.since, s.since, oldest - 1)];
    } else {
      assert t.frames == s.frames;
    }
  }

  lemma ReplayConserves(s: Stream, rest: seq<Rec>)
    requires Conserved(s) && s.phase == Replay(rest)
    ensures Conserved(TurnStep(s))
  {
    if rest != [] { ToldSnoc(s.frames, Record(rest[0])); }
  }

  lemma LookConserves(s: Stream, rec: Rec, last: int)
    requires Conserved(s) && s.phase == InHand(rec, last) && rec.seqNo > last
    ensures Conserved(TurnStep(s))
  {
    if s.d.n != 0 {
      ToldSnoc(s.frames, Gap(s.d.n, s.d.from, s.d.to));
    }
  }

  lemma SendConserves(s: Stream, rec: Rec)
    requires Conserved(s) && s.phase == Sending(rec)
    ensures Conserved(TurnStep(s))
  {
    ToldSnoc(s.frames, Record(rec));
  }

  lemma TurnConserves(s: Stream)
    requires Inv(s) && Conserved(s)
    ensures Conserved(TurnStep(s))
  {
    match s.phase
    case Opened(backlog) => OpenConserves(s, TurnStep(s), backlog);
    case Replay(rest) => ReplayConserves(s, rest);
    case InHand(rec, last) => LookConserves(s, rec, last);
    case Sending(rec) => SendConserves(s, rec);
    case _ =>
  }

  lemma CallbackConserves(s: Stream)
    requires Inv(s) && Conserved(s) && !s.phase.Fresh? && !s.phase.Subscribed? && s.put < |s.history|
    ensures Conserved(CallbackStep(s))
  {
    var t := CallbackStep(s);
    assert t.d.n + |t.d.q| == s.d.n + |s.d.q| + Edge(t) - Edge(s);
  }

  lemma NextConserves(s: Stream, capacity: nat, a: Action)
    requires Inv(s) && Conserved(s)
    ensures Conserved(Next(s, capacity, a))
  {
    match a
    case Turn => TurnConserves(s);
    case Callback => if !s.phase.Fresh? && !s.phase.Subscribed? && s.put < |s.history| { CallbackConserves(s); }
    case Snapshot => if s.phase.Subscribed? { assert Edge(Next(s, capacity, a)) == |s.history|; }
    case _ =>
  }

  /** MAIN: conservation, in every run, broken or not: records sent and declared lost, waiting and in
      hand, add up to all numbers from the start. */
  lemma {:induction false} NothingUncounted(s: Stream, capacity: nat, actions: seq<Action>)
    requires Inv(s) && Conserved(s)
    ensures Conserved(Run(s, capacity, actions))
    decreases |actions|
  {
    if actions != [] {
      NothingUncounted(s, capacity, actions[..|actions| - 1]);
      RunKeeps(s, capacity, actions[..|actions| - 1]);
      NextConserves(Run(s, capacity, actions[..|actions| - 1]), capacity, actions[|actions| - 1]);
    }
  }

  // ---- cursors outside the ring ----

  /** The frames are open once the lost prefix, if any, is announced. */
  predicate IsOpen(s: Stream) { !s.phase.Fresh? && !s.phase.Subscribed? && !s.phase.Opened? }

  /** Nothing is named below the start, also in broken runs; and a negative cursor is where the first gap
      begins. */
  ghost predicate Bounded(s: Stream) {
    && (s.d.n != 0 ==> s.d.from >= Start(s))
    && (forall i :: 0 <= i < |s.frames| ==> Low(s.frames[i]) >= Start(s))
    && (IsOpen(s) && s.since < 0 ==> s.frames != [] && Low(s.frames[0]) == s.since)
  }

  lemma CallbackBounded(s: Stream, t: Stream)
    requires Inv(s) && Bounded(s) && !s.phase.Fresh? && !s.phase.Subscribed? && s.put < |s.history| && t == CallbackStep(s)
    ensures Bounded(t)
  {
    if s.d.q != [] { assert s.d.q[0].seqNo == Edge(s) - |s.d.q| >= s.boundary; }
  }

  lemma SentBounded(s: Stream, t: Stream, f: Frame)
    requires Bounded(s) && t.frames == s.frames + [f] && Low(f) >= Start(s) && t.since == s.since && t.boundary == s.boundary
    requires t.d == s.d || t.d.n == 0
    requires IsOpen(s) || (s.frames == [] && (s.since < 0 ==> Low(f) == s.since))
    ensures Bounded(t)
  {
    forall i | 0 <= i < |t.frames| ensures Low(t.frames[i]) >= Start(t) {
      if i < |s.frames| { assert t.frames[i] == s.frames[i]; }
    }
    if IsOpen(s) && s.since < 0 { assert t.frames[0] == s.frames[0]; }
  }

  lemma OpenBounded(s: Stream, t: Stream, backlog: seq<Rec>)
    requires Inv(s) && Bounded(s) && s.phase == Opened(backlog) && t == OpenStep(s, backlog, Oldest(s.boundary, backlog))
    ensures Bounded(t)
  {
    BacklogHead(s.history, s.boundary, backlog);
    var oldest := s.boundary - |backlog|;
    if oldest > s.since { SentBounded(s, t, Gap(oldest - s.since, s.since, oldest - 1)); }
  }

  lemma ReplayBounded(s: Stream, t: Stream, rest: seq<Rec>)
    requires Inv(s) && Bounded(s) && s.phase == Replay(rest) && rest != [] && !s.broken && t == TurnStep(s)
    ensures Bounded(t)
  {
    BacklogTail(s, rest);
    CoveredInOrder(s.frames, Start(s), s.history, Place(s));
    SentBounded(s, t, Record(rest[0]));
  }

  lemma LookBounded(s: Stream, t: Stream, rec: Rec, last: int)
    requires Inv(s) && Bounded(s) && s.phase == InHand(rec, last) && t == TurnStep(s)
    ensures Bounded(t)
  {
    if s.d.n != 0 { SentBounded(s, t, Gap(s.d.n, s.d.from, s.d.to)); }
  }

  lemma TurnBounded(s: Stream, t: Stream)
    requires Inv(s) && Bounded(s) && (s.phase.Replay? ==> !s.broken) && t == TurnStep(s)
    ensures Bounded(t)
  {
    match s.phase
    case Opened(backlog) => OpenBounded(s, t, backlog);
    case Replay(rest) => if rest != [] { ReplayBounded(s, t, rest); }
    case InHand(rec, last) => LookBounded(s, t, rec, last);
    case Sending(rec) => SentBounded(s, t, Record(rec));
    case _ =>
  }

  lemma NextBounded(s: Stream, capacity: nat, a: Action)
    requires Inv(s) && Bounded(s) && (!IsOpen(s) || s.phase.Replay? ==> !s.broken)
    ensures var t := Next(s, capacity, a); Bounded(t) && (!IsOpen(t) || t.phase.Replay? ==> !t.broken)
  {
    match a
    case Turn => TurnBounded(s, TurnStep(s));
    case Callback => if !s.phase.Fresh? && !s.phase.Subscribed? && s.put < |s.history| { CallbackBounded(s, CallbackStep(s)); }
    case _ =>
  }

  lemma {:induction false} RunBounded(history: seq<Rec>, since: int, capacity: nat, actions: seq<Action>)
    requires Numbered(history)
    ensures var s := Run(Initial(history, since), capacity, actions);
      Inv(s) && Bounded(s) && (!IsOpen(s) || s.phase.Replay? ==> !s.broken)
    decreases |actions|
  {
    InitialOk(history, since);
    RunKeeps(Initial(history, since), capacity, actions);
    if actions != [] {
      RunBounded(history, since, capacity, actions[..|actions| - 1]);
      NextBounded(Run(Initial(history, since), capacity, actions[..|actions| - 1]), capacity, actions[|actions| - 1]);
    }
  }

  /** Some frame sent so far names a number below `x`. */
  ghost predicate NamesBelow(frames: seq<Frame>, x: int) {
    exists i :: 0 <= i < |frames| && Low(frames[i]) < x
  }

  /** MAIN: in every run, once opened, the stream declares numbers lost that never existed exactly if the
      client's cursor is negative; then its first frame is a gap from that cursor on. */
  lemma GapOfNothing(history: seq<Rec>, since: int, capacity: nat, actions: seq<Action>)
    requires Numbered(history)
    ensures var s := Run(Initial(history, since), capacity, actions);
      IsOpen(s) ==> (NamesBelow(s.frames, 0) <==> since < 0) && (since < 0 ==> Low(s.frames[0]) == since)
  {
    RunBounded(history, since, capacity, actions);
    SinceStays(Initial(history, since), capacity, actions);
  }

  /** MAIN: nothing the client already has is sent again or declared lost unless its cursor is ahead of the
      ring; and then, in a run that has not broken, the very first frame is below the cursor. */
  lemma AheadIsIgnored(history: seq<Rec>, since: int, capacity: nat, actions: seq<Action>)
    requires Numbered(history)
    ensures var s := Run(Initial(history, since), capacity, actions);
      && (NamesBelow(s.frames, since) ==> since > s.boundary)
      && (!s.broken ==> (NamesBelow(s.frames, since) <==> since > s.boundary && s.frames != []))
  {
    var s := Run(Initial(history, since), capacity, actions);
    RunBounded(history, since, capacity, actions);
    SinceStays(Initial(history, since), capacity, actions);
    if !s.broken && since > s.boundary && s.frames != [] {
      CoveredStart(s.frames, Start(s), s.history, Place(s));
    }
  }

  /** Covered frames begin at the start. */
  lemma {:induction false} CoveredStart(frames: seq<Frame>, start: int, history: seq<Rec>, end: int)
    requires frames != [] && Covered(frames, start, history) == At(end)
    ensures Low(frames[0]) == start
    decreases |frames|
  {
    var n := |frames| - 1;
    if n > 0 { CoveredStart(frames[..n], start, history, Low(frames[n])); }
  }

  lemma {:induction false} SinceStays(s: Stream, capacity: nat, actions: seq<Action>)
    ensures Run(s, capacity, actions).since == s.since
    decreases |actions|
  {
    if actions != [] { SinceStays(s, capacity, actions[..|actions| - 1]); }
  }
}
