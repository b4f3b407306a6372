/** What a restart of the daemon does to the rule that no crash receipt follows another receipt. */
module SupervisorReceipts {
  import opened Options
  import opened Supervisor
  import opened SupervisorFrame
  import opened SupervisorRuns
  import opened SupervisorRecord

  /** A step of the holder: only a stop that seals makes its own generation durable, and only one that has
      been recorded gets a monitor. */
  ghost predicate GoFrame(s: State, t: State) {
    && NoCrashLogged(s, t)
    && (t.durable == s.durable || (s.life.Sealing? && t.durable == s.durable + {s.life.c}))
    && (t.mon == s.mon || (s.life.Watching? && t.mon == s.mon[s.life.c := Waiting]))
    && (t.life.Watching? ==> s.life.Recording? && s.life.c == t.life.c)
  }

  lemma GoFrames(s: State, t: State, ans: Answer)
    requires LifeStep(s, ans) == Some(t)
    ensures GoFrame(s, t)
  {
    if IsStart(s.life) { StartFrames(s, t, ans); } else { StopFrames(s, t, ans); }
  }

  // ---- receipts are of generations that have a monitor ----

  ghost predicate DurableWatched(s: State) {
    forall d :: d in s.durable ==> d in s.mon
  }

  /** Every run keeps it: from a boot and from a restart, where nothing is durable. */
  lemma {:induction false} RunWatched(s: State, actions: seq<Action>)
    requires Inv(s) && DurableWatched(s) && Run(s, actions).Some?
    ensures Inv(Run(s, actions).value) && DurableWatched(Run(s, actions).value)
    decreases |actions|
  {
    if actions != [] {
      var a := actions[0];
      var t := Next(s, a).value;
      NextKeeps(s, a, t);
      forall d | d in t.durable ensures d in t.mon { StepWatched(s, a, t, d); }
      RunWatched(t, actions[1..]);
    }
  }

  lemma StepWatched(s: State, a: Action, t: State, d: Cid)
    requires Inv(s) && DurableWatched(s) && Next(s, a) == Some(t) && d in t.durable
    ensures d in t.mon
  {
    match a
    case Go(ans) => GoFrames(s, t, ans);
    case Watch(c, out) => WatchFrames(s, t, c, out);
    case _ =>
  }

  // ---- across a restart ----

  /** The engine taken over, if any. */
  function Taken(s: State): Option<Cid> {
    if s.pidfile.Some? && s.pidfile.value in s.alive then s.pidfile else None
  }

  /** Everything this daemon handles is the engine taken over, or newer than anything before it. */
  ghost predicate OnlyNew(s: State, taken: Option<Cid>, from: Cid) {
    && s.next >= from
    && (forall d :: d in s.mon ==> taken == Some(d) || d >= from)
    && (s.life.Spawned? || s.life.Recording? || s.life.Watching? ==> s.life.c >= from)
    && (forall d: Cid :: CrashReceipt(d) in s.log ==> taken == Some(d) || d >= from)
  }

  lemma GoOnlyNew(s: State, ans: Answer, t: State, taken: Option<Cid>, from: Cid)
    requires OnlyNew(s, taken, from) && LifeStep(s, ans) == Some(t)
    ensures OnlyNew(t, taken, from)
  {
    GoFrames(s, t, ans);
    GoStepChanges(s, t, ans);
    NoNewCrash(s, t);
  }

  lemma NoNewCrash(s: State, t: State)
    requires NoCrashLogged(s, t)
    ensures forall d: Cid :: CrashReceipt(d) in t.log ==> CrashReceipt(d) in s.log
  {
  }

  lemma WatchOnlyNew(s: State, c: Cid, out: Answer, t: State, taken: Option<Cid>, from: Cid)
    requires OnlyNew(s, taken, from) && c in s.mon && MonStep(s, c, s.mon[c], out) == Some(t)
    ensures OnlyNew(t, taken, from)
  {
    WatchFrames(s, t, c, out);
    assert forall d :: d in t.mon ==> d in s.mon.Keys + {c};
    if NoCrashLogged(s, t) { NoNewCrash(s, t); }
  }

  lemma StepOnlyNew(s: State, a: Action, t: State, taken: Option<Cid>, from: Cid)
    requires OnlyNew(s, taken, from) && Next(s, a) == Some(t)
    ensures OnlyNew(t, taken, from)
  {
    match a
    case Go(ans) => GoOnlyNew(s, ans, t, taken, from);
    case Watch(c, out) => WatchOnlyNew(s, c, out, t, taken, from);
    case Die(c) => assert NoCrashLogged(s, t); NoNewCrash(s, t);
    case _ =>
  }

  lemma {:induction false} RunOnlyNew(s: State, actions: seq<Action>, taken: Option<Cid>, from: Cid)
    requires OnlyNew(s, taken, from) && Run(s, actions).Some?
    ensures OnlyNew(Run(s, actions).value, taken, from)
    decreases |actions|
  {
    if actions != [] {
      var t := Next(s, actions[0]).value;
      StepOnlyNew(s, actions[0], t, taken, from);
      RunOnlyNew(t, actions[1..], taken, from);
    }
  }

  /** No generation that already had a receipt gets a crash receipt. */
  ghost predicate NoSecondReceipt(s: State, actions: seq<Action>, had: set<Cid>) {
    Run(s, actions).Some? ==> forall d :: d in had ==> CrashReceipt(d) !in Run(s, actions).value.log
  }

  /** The engine taken over dies, and its monitor finds no receipt. */
  lemma CrashesAgain(s: State, autoRestart: bool, cfg: Cfg) returns (actions: seq<Action>)
    requires Taken(s).Some? && Taken(s).value in s.durable
    ensures !NoSecondReceipt(Restart(s, autoRestart, cfg), actions, s.durable)
  {
    var b, c := Restart(s, autoRestart, cfg), Taken(s).value;
    var t;
    actions, t := Then(b, [], b, Die(c));
    actions, t := Then(b, actions, t, Watch(c, Good));
    actions, t := Then(b, actions, t, Watch(c, Good));
    actions, t := Then(b, actions, t, Watch(c, Good));
    assert t == b.(guard := ByMonitor(c), mon := map[c := HasSeal(false)], alive := s.alive - {c}, log := [Adopted(c), Exit(c)]);
    actions, t := Then(b, actions, t, Watch(c, Good));
    assert t.log[2] == CrashReceipt(c);
  }

  /** MAIN: what the daemon had made durable is forgotten with it. After a restart a generation that had a
      receipt, a stop's or its own, never gets a crash receipt on top, whatever happens, exactly if it is
      not the engine taken over. */
  lemma ReceiptsSurvive(s: State, autoRestart: bool, cfg: Cfg)
    requires Inv(s) && DurableWatched(s)
    ensures (forall actions :: NoSecondReceipt(Restart(s, autoRestart, cfg), actions, s.durable))
       <==> !(Taken(s).Some? && Taken(s).value in s.durable)
  {
    var t := Restart(s, autoRestart, cfg);
    if Taken(s).Some? && Taken(s).value in s.durable {
      var actions := CrashesAgain(s, autoRestart, cfg);
      assert !NoSecondReceipt(t, actions, s.durable);
    } else {
      forall actions ensures NoSecondReceipt(t, actions, s.durable) {
        if Run(t, actions).Some? {
          RunOnlyNew(t, actions, Taken(s), s.next);
          forall d | d in s.durable ensures d < s.next { assert MonOk(s, d); }
        }
      }
    }
  }
}
