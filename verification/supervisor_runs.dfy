/** What every run of the supervisor guarantees, what a crash can still cost, and progress. */
module SupervisorRuns {
  import opened Options
  import opened Supervisor
  import opened SupervisorFrame

  // ---- theorems over all runs ----

  /** A run from boot, and the state it leads to. */
  ghost predicate Reaches(autoRestart: bool, adopt: bool, cfg: Cfg, actions: seq<Action>, s: State) {
    Run(Boot(autoRestart, adopt, cfg), actions) == Some(s)
  }

  lemma ReachedOk(autoRestart: bool, adopt: bool, cfg: Cfg, actions: seq<Action>, s: State)
    requires Reaches(autoRestart, adopt, cfg, actions, s)
    ensures Inv(s)
  {
    BootOk(autoRestart, adopt, cfg);
    RunKeeps(Boot(autoRestart, adopt, cfg), actions);
  }

  /** One more step of a run. */
  lemma {:induction false} Then(s: State, actions: seq<Action>, t: State, a: Action) returns (more: seq<Action>, u: State)
    requires Run(s, actions) == Some(t) && Next(t, a).Some?
    ensures u == Next(t, a).value && Run(s, more) == Some(u)
    decreases |actions|
  {
    u := Next(t, a).value;
    if actions == [] {
      more := [a];
      assert more[1..] == [];
    } else {
      var rest;
      rest, u := Then(Next(s, actions[0]).value, actions[1..], t, a);
      more := [actions[0]] + rest;
      assert more[1..] == rest;
    }
  }

  lemma BackedAt(log: seq<Event>, i: nat)
    requires History(log) && i < |log|
    ensures Backed(log[..i], log[i])
  {
  }

  /** MAIN: at most one engine process runs, and no stop returns while one does. */
  lemma AtMostOneLive(autoRestart: bool, adopt: bool, cfg: Cfg, actions: seq<Action>, s: State)
    requires Reaches(autoRestart, adopt, cfg, actions, s)
    ensures forall c, d :: c in s.alive && d in s.alive ==> c == d
    ensures forall i :: 0 <= i < |s.log| && s.log[i].Spawn? ==> Running(s.log[..i]) == {}
    ensures forall i :: 0 <= i < |s.log| && (s.log[i].StopReturned? || s.log[i].ShutdownReturned?) ==> Running(s.log[..i]) == {}
  {
    ReachedOk(autoRestart, adopt, cfg, actions, s);
    forall i | 0 <= i < |s.log| ensures Backed(s.log[..i], s.log[i]) { BackedAt(s.log, i); }
  }

  /** MAIN: a signal only ever follows the receipt its own stop made durable; a stop that found no
      receipt never signals. */
  lemma ReceiptBeforeSignal(autoRestart: bool, adopt: bool, cfg: Cfg, actions: seq<Action>, s: State, i: nat)
    requires Reaches(autoRestart, adopt, cfg, actions, s) && i < |s.log| && s.log[i].Signal?
    ensures exists j :: 0 <= j < i && s.log[j] == StopReceipt(s.log[i].c, s.log[i].tx)
    ensures NoReceipt(s.log[i].c, s.log[i].tx) !in s.log
  {
    ReachedOk(autoRestart, adopt, cfg, actions, s);
    BackedAt(s.log, i);
    var c, tx := s.log[i].c, s.log[i].tx;
    var j :| 0 <= j < i && s.log[..i][j] == StopReceipt(c, tx);
    assert s.log[j] == StopReceipt(c, tx);
    NotBefore(s.log, i, NoReceipt(c, tx));
    forall k | 0 <= k < |s.log| ensures s.log[k] != NoReceipt(c, tx) {
      BackedAt(s.log, k);
      if StopReceipt(c, tx) !in s.log[..k] { NotBefore(s.log, k, StopReceipt(c, tx)); }
    }
  }

  lemma NotBefore(log: seq<Event>, i: nat, e: Event)
    requires i <= |log| && e !in log[..i]
    ensures forall k :: 0 <= k < i ==> log[k] != e
  {
    forall k | 0 <= k < i ensures log[k] != e { assert log[..i][k] == log[k]; }
  }

  predicate IsLatch(e: Event) { e.StopLatch? || e.LatchFail? }

  /** Once set, the latch stays until a client start. */
  lemma {:induction false} LatchStays(log: seq<Event>, i: nat, j: nat)
    requires i < j <= |log| && IsLatch(log[i])
    requires forall k :: i < k < j ==> !log[k].ClientStart?
    ensures Latched(log[..j])
    decreases j
  {
    assert log[..j][..j - 1] == log[..j - 1] && log[..j][j - 1] == log[j - 1];
    if i < j - 1 { LatchStays(log, i, j - 1); }
  }

  /** MAIN: no resurrection. Between a stop's latch and an automatic spawn there is an explicit start. */
  lemma NoResurrection(autoRestart: bool, adopt: bool, cfg: Cfg, actions: seq<Action>, s: State, i: nat, j: nat)
    requires Reaches(autoRestart, adopt, cfg, actions, s) && i < j < |s.log|
    requires IsLatch(s.log[i]) && s.log[j].Spawn? && s.log[j].auto
    ensures exists k :: i < k < j && s.log[k].ClientStart?
  {
    ReachedOk(autoRestart, adopt, cfg, actions, s);
    BackedAt(s.log, j);
    if forall k :: i < k < j ==> !s.log[k].ClientStart? { LatchStays(s.log, i, j); }
  }

  /** MAIN: after a shutdown returned, nothing is ever spawned again. */
  lemma ShutdownIsFinal(autoRestart: bool, adopt: bool, cfg: Cfg, actions: seq<Action>, s: State, i: nat, j: nat)
    requires Reaches(autoRestart, adopt, cfg, actions, s) && i < j < |s.log| && s.log[i].ShutdownReturned?
    ensures !s.log[j].Spawn?
  {
    ReachedOk(autoRestart, adopt, cfg, actions, s);
    BackedAt(s.log, j);
    assert s.log[..j][i] == ShutdownReturned;
  }

  /** An open gate with nothing visible lets a client start spawn. */
  lemma OpenGateSpawns(s: State, cfg: Cfg)
    requires Inv(s) && s.life.Free? && !s.shutReq && s.child.None?
    ensures var t := s.(life := StartEnter(cfg, false), tx := s.tx + 1);
      var u := Log(t, ClientStart).(stopReq := false, life := Spawning(cfg, false), starting := true);
      && Next(s, Begin(Start(cfg))) == Some(t) && Next(t, Go(Good)) == Some(u)
      && Next(u, Go(Good)) == Some(SpawnStep(u, cfg, false, true))
  {
  }

  /** ... whereas a failed one reopens admission: a client start is admitted again at once. */
  lemma FailedShutdownReopens(s: State, cfg: Cfg)
    requires Inv(s) && s.life == StopRaise(Shutdown)
    ensures Next(s, Go(Good)).Some?
    ensures var t := Next(s, Go(Good)).value; t.life.Free? && !t.shutReq && !t.stopping
  {
  }

  /** MAIN: a generation is forgotten only when its stop's receipt is durable, or its crash receipt
      is, or the latch is set because neither could be written; and no crash receipt is written
      after a stop's. */
  lemma CrashAccounting(autoRestart: bool, adopt: bool, cfg: Cfg, actions: seq<Action>, s: State, i: nat)
    requires Reaches(autoRestart, adopt, cfg, actions, s) && i < |s.log|
    ensures s.log[i].Forget? ==> Accounted(s.log[..i], s.log[i].c) && s.log[i].c !in Running(s.log[..i])
    ensures s.log[i].CrashReceipt? ==> !HasStop(s.log[..i], s.log[i].c)
  {
    ReachedOk(autoRestart, adopt, cfg, actions, s);
    BackedAt(s.log, i);
  }

  /** MAIN: an automatic restart replaces a generation without a receipt only when a client start
      came in between. */
  lemma RestartAfterReceipt(autoRestart: bool, adopt: bool, cfg: Cfg, actions: seq<Action>, s: State, i: nat, j: nat)
    requires Reaches(autoRestart, adopt, cfg, actions, s) && i < j < |s.log|
    requires s.log[i].Forget? && s.log[j].Spawn? && s.log[j].auto
    ensures var c := s.log[i].c;
      HasStop(s.log[..i], c) || CrashReceipt(c) in s.log[..i]
      || exists l, k :: 0 <= l < i && l < k < j && s.log[l] == LatchFail(c) && s.log[k].ClientStart?
  {
    var c := s.log[i].c;
    CrashAccounting(autoRestart, adopt, cfg, actions, s, i);
    if !HasStop(s.log[..i], c) && CrashReceipt(c) !in s.log[..i] {
      var l :| 0 <= l < i && s.log[..i][l] == LatchFail(c);
      NoResurrection(autoRestart, adopt, cfg, actions, s, l, j);
      var k :| l < k < j && s.log[k].ClientStart?;
      assert s.log[l] == LatchFail(c);
    }
  }

  /** On the stop path the pid file is empty when the stop is done. */
  lemma StoppedIsUnrecorded(autoRestart: bool, adopt: bool, cfg: Cfg, actions: seq<Action>, s: State)
    requires Reaches(autoRestart, adopt, cfg, actions, s) && s.life.StopDone? && s.life.stopped.Some?
    ensures s.pidfile.None? && s.child.None? && s.alive == {}
  {
    ReachedOk(autoRestart, adopt, cfg, actions, s);
  }

  // ---- progress ----

  /** The holder of the lifecycle lock is never stuck: it can step, or the monitor that has the
      guard can. */
  lemma HolderNeverStuck(s: State)
    requires Inv(s) && !s.life.Free?
    ensures LifeStep(s, Engine(Sealed, true, true)).Some?
         || (s.guard.ByMonitor? && s.guard.c in s.mon && MonStep(s, s.guard.c, s.mon[s.guard.c], Good).Some?)
  {
    if s.life.StartEnter? || s.life.StopEnter? { GateNeverWaits(s); }
  }

  /** How far the monitor of a dead generation is from announcing it reaped. */
  function Rank(s: State, c: Cid): nat
    requires c in s.mon
  {
    match s.mon[c]
    case Waiting => 9
    case Seen => 8
    case WantSeal(was) => if s.guard.NoOne? then 6 else 7
    case HasSeal(was) => 5
    case Latching(was) => 4
    case Clearing(was) => 3
    case Unrecord(was) => 2
    case Announce(was) => 1
    case _ => 0
  }

  /** While the guard is with a stop, the stop can give it back. */
  lemma GuardComesBack(s: State, c: Cid)
    requires FlagsOk(s) && s.guard.ByStop?
    ensures LifeStep(s, Engine(Sealed, true, true)).Some?
    ensures var t := LifeStep(s, Engine(Sealed, true, true)).value; t.mon == s.mon && t.alive == s.alive && t.guard.NoOne?
  {
  }

  ghost predicate Nearer(s: State, t: State, c: Cid)
    requires c in s.mon
  {
    && c in t.mon && t.alive == s.alive && Rank(t, c) < Rank(s, c) && !t.mon[c].Crashed?
    && t.life == s.life && t.tx == s.tx
  }

  lemma SealStepsNearer(s: State, t: State, c: Cid)
    requires c in s.mon && s.mon[c].HasSeal? && t == CrashStep(s, c, s.mon[c].was, Good)
    ensures Nearer(s, t, c)
  {
  }

  lemma HeadStepsNearer(s: State, t: State, c: Cid)
    requires c in s.mon && c !in s.alive && (s.mon[c].WantSeal? ==> s.guard.NoOne?)
    requires (s.mon[c].Waiting? || s.mon[c].Seen? || s.mon[c].WantSeal?) && MonStep(s, c, s.mon[c], Good) == Some(t)
    ensures Nearer(s, t, c)
  {
    match s.mon[c]
    case Waiting => assert t == s.(mon := s.mon[c := Seen]);
    case Seen => assert t.alive == s.alive && (t.mon[c].WantSeal? || t.mon[c].Clearing?);
    case WantSeal(was) => assert t == s.(guard := ByMonitor(c), mon := s.mon[c := HasSeal(was)]);
  }

  lemma TailStepsNearer(s: State, t: State, c: Cid)
    requires c in s.mon && (s.mon[c].Latching? || s.mon[c].Clearing? || s.mon[c].Unrecord? || s.mon[c].Announce?)
    requires MonStep(s, c, s.mon[c], Good) == Some(t)
    ensures Nearer(s, t, c)
  {
    if s.mon[c].Latching? {
    } else if s.mon[c].Clearing? {
    } else if s.mon[c].Unrecord? {
    } else {
    }
  }

  /** The monitor itself is never blocked by anything but that. */
  lemma MonitorSteps(s: State, c: Cid) returns (t: State)
    requires c in s.mon && MonOk(s, c) && c !in s.alive && c !in s.reaped && !s.mon[c].Crashed?
    requires s.mon[c].WantSeal? ==> s.guard.NoOne?
    ensures MonStep(s, c, s.mon[c], Good) == Some(t) && Nearer(s, t, c)
  {
    t := MonStep(s, c, s.mon[c], Good).value;
    if s.mon[c].HasSeal? {
      SealStepsNearer(s, t, c);
    } else if s.mon[c].Waiting? || s.mon[c].Seen? || s.mon[c].WantSeal? {
      HeadStepsNearer(s, t, c);
    } else {
      TailStepsNearer(s, t, c);
    }
  }

  /** Only the current child's monitor can have the guard, so its own can only be waiting for a stop. */
  lemma GuardIsFree(s: State, c: Cid)
    requires Inv(s) && c in s.mon && s.mon[c].WantSeal? && !s.guard.ByStop?
    ensures s.guard.NoOne?
  {
    assert forall d :: d in s.mon && !Late(s.mon[d]) ==> s.child == Some(d) by {
      forall d | d in s.mon && !Late(s.mon[d]) ensures s.child == Some(d) { assert MonOk(s, d); }
    }
  }

  /** A step towards it is always enabled: the monitor's own, or the stop's that frees the guard. */
  lemma ReapStep(s: State, c: Cid) returns (a: Action)
    requires Inv(s) && c in s.mon && c !in s.alive && c !in s.reaped && !s.mon[c].Crashed?
    ensures Next(s, a).Some?
    ensures var t := Next(s, a).value; c in t.mon && c !in t.alive && Rank(t, c) < Rank(s, c) && !t.mon[c].Crashed?
  {
    if s.mon[c].WantSeal? && s.guard.ByStop? {
      GuardComesBack(s, c);
      a := Go(Engine(Sealed, true, true));
    } else {
      if s.mon[c].WantSeal? { GuardIsFree(s, c); }
      assert MonOk(s, c);
      var t := MonitorSteps(s, c);
      a := Watch(c, Good);
    }
  }

  /** MAIN: a stop that waits for a dead child can never be in a deadlock with its monitor: from
      every reachable state there is a continuation in which the child is announced reaped. */
  lemma {:induction false} ReapProgress(s: State, c: Cid) returns (actions: seq<Action>)
    requires Inv(s) && c in s.mon && c !in s.alive && !s.mon[c].Crashed?
    ensures Run(s, actions).Some? && c in Run(s, actions).value.reaped
    decreases Rank(s, c)
  {
    if c in s.reaped {
      actions := [];
    } else {
      var a := ReapStep(s, c);
      var t := Next(s, a).value;
      NextKeeps(s, a, t);
      var rest := ReapProgress(t, c);
      actions := [a] + rest;
      assert actions[1..] == rest;
    }
  }

  /** Neither starts nor stops touch the monitor of a generation that has one. */
  ghost predicate SameMonitor(s: State, t: State, c: Cid) {
    && (c in s.mon ==> c in t.mon && t.mon[c] == s.mon[c])
    && (c in t.mon && c !in s.mon ==> t.mon[c].Waiting?)
  }

  lemma StartLeavesMonitors(s: State, t: State, ans: Answer, c: Cid)
    requires LifeOk(s) && IsStart(s.life) && LifeStep(s, ans) == Some(t)
    ensures SameMonitor(s, t, c)
  {
    StartFrames(s, t, ans);
  }

  /** A monitor moves only itself. */
  lemma MonitorLeavesOthers(s: State, t: State, d: Cid, out: Answer, c: Cid)
    requires c != d && d in s.mon && MonStep(s, d, s.mon[d], out) == Some(t)
    ensures SameMonitor(s, t, c)
  {
    WatchFrames(s, t, d, out);
  }

  /** Whoever steps, a monitor that does not keeps its place. */
  lemma MonitorStays(s: State, c: Cid, a: Action, t: State)
    requires LifeOk(s) && Next(s, a) == Some(t) && (a.Watch? ==> a.c != c)
    ensures SameMonitor(s, t, c)
  {
    match a
    case Go(ans) => if IsStart(s.life) { StartLeavesMonitors(s, t, ans, c); } else { StopFrames(s, t, ans); }
    case Watch(d, out) => MonitorLeavesOthers(s, t, d, out, c);
    case _ =>
  }

  lemma CrashedStays(s: State, c: Cid, a: Action, t: State)
    requires LifeOk(s) && c in s.mon && s.mon[c].Crashed? && Next(s, a) == Some(t)
    ensures c in t.mon && t.mon[c].Crashed?
  {
    if !a.Watch? || a.c != c { MonitorStays(s, c, a, t); }
  }

  /** When a monitor thread dies: exactly when it holds the guard, no receipt is durable yet, and the crash
      receipt fails with an error that is not the outbox's own. */
  lemma MonitorDies(s: State, c: Cid, a: Action, t: State)
    requires Inv(s) && Next(s, a) == Some(t) && c in t.mon && (c in s.mon ==> !s.mon[c].Crashed?)
    ensures t.mon[c].Crashed? <==> c in s.mon && s.mon[c].HasSeal? && c !in s.durable && a == Watch(c, Raw)
  {
    if !a.Watch? || a.c != c {
      MonitorStays(s, c, a, t);
    } else if s.mon[c].HasSeal? {
      assert t == CrashStep(s, c, s.mon[c].was, a.out);
    } else {
      OnlyCrashing(s, c, a.out, t);
    }
  }

  lemma OnlyCrashing(s: State, c: Cid, out: Answer, t: State)
    requires c in s.mon && !s.mon[c].HasSeal? && !s.mon[c].Crashed? && MonStep(s, c, s.mon[c], out) == Some(t) && c in t.mon
    ensures !t.mon[c].Crashed?
  {
  }

  // ---- when a dead generation is replaced ----

  /** A stop in progress has latched, and no client start can come before its end. */
  ghost predicate StopLatched(s: State) {
    Holding(s.life) || s.life.StopDone? || s.life.StopRaise? ==> s.stopReq
  }

  lemma StopLatchedKept(s: State, a: Action, t: State)
    requires StopLatched(s) && Next(s, a) == Some(t)
    ensures StopLatched(t)
  {
    match a
    case Go(ans) => GoLatched(s, ans, t);
    case Watch(c, out) => WatchFrames(s, t, c, out);
    case _ =>
  }

  lemma GoLatched(s: State, ans: Answer, t: State)
    requires StopLatched(s) && LifeStep(s, ans) == Some(t)
    ensures StopLatched(t)
  {
    if IsStart(s.life) { StartLatched(s, ans, t); } else { StopStepLatched(s, ans, t); }
  }

  lemma StartLatched(s: State, ans: Answer, t: State)
    requires IsStart(s.life) && LifeStep(s, ans) == Some(t)
    ensures StopLatched(t)
  {
    StartFrames(s, t, ans);
    BeginLatched(t);
  }

  lemma BeginLatched(t: State)
    requires IsStart(t.life) || t.life.Free?
    ensures StopLatched(t)
  {
  }

  lemma StopStepLatched(s: State, ans: Answer, t: State)
    requires StopLatched(s) && InStop(s.life) && StopStep(s, ans) == Some(t)
    ensures StopLatched(t)
  {
    StopFrames(s, t, ans);
  }

  lemma {:induction false} RunLatched(s: State, actions: seq<Action>)
    requires StopLatched(s) && Run(s, actions).Some?
    ensures StopLatched(Run(s, actions).value)
    decreases |actions|
  {
    if actions != [] {
      var t := Next(s, actions[0]).value;
      StopLatchedKept(s, actions[0], t);
      RunLatched(t, actions[1..]);
    }
  }

  /** What the monitor read when it first looked, from then on. */
  ghost predicate Remembers(s: State, c: Cid, was: bool) {
    c in s.mon && !s.mon[c].Waiting? && !s.mon[c].Seen? && (s.mon[c].Ended? || s.mon[c].Crashed? || s.mon[c].was == was)
  }

  lemma CrashRemembers(s: State, c: Cid, was: bool, out: Answer, t: State)
    requires c in s.mon && s.mon[c] == HasSeal(was) && t == CrashStep(s, c, was, out)
    ensures Remembers(t, c, was)
  {
  }

  lemma SealRemembers(s: State, c: Cid, was: bool, out: Answer, t: State)
    requires c in s.mon && (s.mon[c] == WantSeal(was) || s.mon[c] == Latching(was)) && MonStep(s, c, s.mon[c], out) == Some(t)
    ensures Remembers(t, c, was)
  {
  }

  /** A monitor that is about to clear still finds its child. */
  lemma ClearRemembers(s: State, c: Cid, was: bool, out: Answer, t: State)
    requires c in s.mon && s.mon[c] == Clearing(was) && s.child == Some(c) && MonStep(s, c, s.mon[c], out) == Some(t)
    ensures Remembers(t, c, was)
  {
  }

  lemma TailRemembers(s: State, c: Cid, was: bool, out: Answer, t: State)
    requires c in s.mon && (s.mon[c] == Unrecord(was) || s.mon[c] == Announce(was) || s.mon[c] == Closing(was))
    requires MonStep(s, c, s.mon[c], out) == Some(t)
    ensures Remembers(t, c, was)
  {
  }

  lemma RemembersStep(s: State, c: Cid, was: bool, out: Answer, t: State)
    requires c in s.mon && MonOk(s, c) && Remembers(s, c, was) && MonStep(s, c, s.mon[c], out) == Some(t)
    ensures Remembers(t, c, was)
  {
    var m := s.mon[c];
    if m.HasSeal? {
      CrashRemembers(s, c, was, out, t);
    } else if m.WantSeal? || m.Latching? {
      SealRemembers(s, c, was, out, t);
    } else if m.Clearing? {
      ClearRemembers(s, c, was, out, t);
    } else {
      TailRemembers(s, c, was, out, t);
    }
  }

  lemma {:induction false} RunRemembers(s: State, c: Cid, was: bool, actions: seq<Action>)
    requires Inv(s) && Remembers(s, c, was) && Run(s, actions).Some?
    ensures Remembers(Run(s, actions).value, c, was) && Inv(Run(s, actions).value)
    decreases |actions|
  {
    if actions != [] {
      var a := actions[0];
      var t := Next(s, a).value;
      NextKeeps(s, a, t);
      if a.Watch? && a.c == c {
        assert MonOk(s, c);
        RemembersStep(s, c, was, a.out, t);
      } else {
        MonitorStays(s, c, a, t);
      }
      RunRemembers(t, c, was, actions[1..]);
    }
  }

  /** MAIN: when a dead generation is replaced. Its monitor first looks in state `s` and is at its end in
      state `t`, however many steps of whomever later. A restart is queued exactly if the log shows neither a
      stop nor a failed crash receipt in effect then, nor now, and restarts are on. */
  lemma RestartIsQueued(autoRestart: bool, adopt: bool, cfg: Cfg, before: seq<Action>, s: State, c: Cid, out: Answer,
      actions: seq<Action>, t: State)
    requires Reaches(autoRestart, adopt, cfg, before, s) && c in s.mon && s.mon[c].Seen?
    requires Run(s, [Watch(c, out)] + actions) == Some(t) && c in t.mon && t.mon[c].Closing?
    ensures Next(t, Watch(c, Good)).Some?
    ensures Next(t, Watch(c, Good)).value.autos
         == if !Latched(s.log) && !Latched(t.log) && t.autoRestart then t.autos + [t.cfg] else t.autos
  {
    ReachedOk(autoRestart, adopt, cfg, before, s);
    RunLatched(Boot(autoRestart, adopt, cfg), before);
    FirstLookLasts(s, c, out, actions, t);
    ClosingQueues(t, c, Latched(s.log));
  }

  lemma FirstLookLasts(s: State, c: Cid, out: Answer, actions: seq<Action>, t: State)
    requires Inv(s) && StopLatched(s) && c in s.mon && s.mon[c].Seen? && Run(s, [Watch(c, out)] + actions) == Some(t)
    ensures Inv(t) && Remembers(t, c, Latched(s.log))
  {
    var first := Next(s, Watch(c, out)).value;
    assert ([Watch(c, out)] + actions)[1..] == actions;
    NextKeeps(s, Watch(c, out), first);
    FirstLook(s, c, out, first);
    RunRemembers(first, c, Latched(s.log), actions);
  }

  lemma ClosingQueues(t: State, c: Cid, was: bool)
    requires Inv(t) && c in t.mon && t.mon[c] == Closing(was)
    ensures Next(t, Watch(c, Good)).Some?
    ensures Next(t, Watch(c, Good)).value.autos == if !was && !Latched(t.log) && t.autoRestart then t.autos + [t.cfg] else t.autos
  {
  }

  /** A monitor that looks reads whether the log is latched. */
  lemma FirstLook(s: State, c: Cid, out: Answer, t: State)
    requires Inv(s) && StopLatched(s) && c in s.mon && s.mon[c].Seen? && MonStep(s, c, s.mon[c], out) == Some(t)
    ensures Remembers(t, c, Latched(s.log))
  {
    assert s.stopping ==> Holding(s.life);
  }

  /** The exact exception: an error other than the outbox's own ends the monitor thread, and then the
      dead child stays visible for ever. In every later state nothing runs, so nothing was spawned,
      and no stop is at its end. */
  lemma {:induction false} CrashedForEver(s: State, c: Cid, actions: seq<Action>)
    requires Inv(s) && c in s.mon && s.mon[c].Crashed? && Run(s, actions).Some?
    ensures var t := Run(s, actions).value;
      && c in t.mon && t.mon[c].Crashed? && t.child == Some(c) && c !in t.reaped
      && t.alive == {} && !t.life.Spawned? && !t.life.StopDone?
    decreases |actions|
  {
    assert MonOk(s, c);
    if actions != [] {
      var t := Next(s, actions[0]).value;
      NextKeeps(s, actions[0], t);
      CrashedStays(s, c, actions[0], t);
      CrashedForEver(t, c, actions[1..]);
    }
  }
}
