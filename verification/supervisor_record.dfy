/** When the pid file names the current child, and what that decides about a restart of the daemon. */
module SupervisorRecord {
  import opened Options
  import opened Supervisor
  import opened SupervisorFrame
  import opened SupervisorRuns

  // ---- what a step may change ----

  /** No reaper is between forgetting its generation and clearing the pid file. */
  ghost predicate NoneClearing(s: State) {
    forall d :: d in s.mon ==> !s.mon[d].Unrecord?
  }

  /** What a step of the holder does to the child and its record. */
  ghost predicate GoChanges(s: State, t: State) {
    && (t.child == s.child || (s.life.Spawned? && t.child == Some(s.life.c)))
    && (t.pidfile == s.pidfile || (s.life.Recording? && t.pidfile == Some(s.life.c)))
    && (t.life.Recording? <==> s.life.Spawned? && t.life == Recording(s.life.c))
    && (t.life.Spawned? ==> s.life.Spawning? && t.life.c == s.next)
    && (t.next == s.next || (t.life.Spawned? && t.next == s.next + 1))
    && (s.life.Recording? ==> t.pidfile == Some(s.life.c)) && (s.life.Spawned? ==> t.child == Some(s.life.c))
  }

  lemma GoStepChanges(s: State, t: State, ans: Answer)
    requires LifeStep(s, ans) == Some(t)
    ensures GoChanges(s, t)
  {
    if IsStart(s.life) { StartFrames(s, t, ans); } else { StopFrames(s, t, ans); }
  }

  /** No clearing comes up but where the child is forgotten. */
  lemma ClearingComesFromForgetting(s: State, a: Action, t: State)
    requires LifeOk(s) && Next(s, a) == Some(t) && NoneClearing(s)
    ensures NoneClearing(t) || (a.Watch? && s.child == Some(a.c) && t.child.None?)
  {
    forall d | d in t.mon && t.mon[d].Unrecord? ensures a.Watch? && s.child == Some(a.c) && t.child.None? {
      if a.Watch? && a.c == d { WatchFrames(s, t, d, a.out); } else { MonitorStays(s, d, a, t); }
    }
  }

  // ---- the record of one generation ----

  /** Recorded, and no older reaper can clear it. */
  ghost predicate Named(s: State, c: Cid) {
    s.child == Some(c) && !s.life.Recording? && s.pidfile == Some(c) && NoneClearing(s)
  }

  /** Still to come, made but not published, or published but not recorded. */
  ghost predicate Coming(s: State, c: Cid) {
    && NoneClearing(s)
    && ((s.child.None? && c == s.next && !s.life.Spawned?) || (s.child.None? && s.life.Spawned? && s.life.c == c) || s.life == Recording(c))
  }

  /** It was there and is no more. */
  ghost predicate Past(s: State, c: Cid) {
    c < s.next && s.child != Some(c) && !(s.life.Spawned? && s.life.c == c)
  }

  ghost predicate Tracks(s: State, c: Cid) { Coming(s, c) || Named(s, c) || Past(s, c) }

  lemma PastStays(s: State, a: Action, t: State, c: Cid)
    requires Inv(s) && Past(s, c) && Next(s, a) == Some(t)
    ensures Past(t, c)
  {
    match a
    case Go(ans) => GoStepChanges(s, t, ans);
    case Watch(d, out) => WatchFrames(s, t, d, out);
    case _ =>
  }

  lemma ComingTracks(s: State, a: Action, t: State, c: Cid)
    requires Inv(s) && Coming(s, c) && Next(s, a) == Some(t)
    ensures Tracks(t, c)
  {
    ClearingComesFromForgetting(s, a, t);
    match a
    case Go(ans) => GoStepChanges(s, t, ans);
    case Watch(d, out) => WatchFrames(s, t, d, out);
    case _ =>
  }

  lemma NamedTracks(s: State, a: Action, t: State, c: Cid)
    requires Inv(s) && Named(s, c) && Next(s, a) == Some(t)
    ensures Tracks(t, c)
  {
    ClearingComesFromForgetting(s, a, t);
    match a
    case Go(ans) => GoStepChanges(s, t, ans);
    case Watch(d, out) => WatchFrames(s, t, d, out);
    case _ =>
  }

  lemma {:induction false} RunTracks(s: State, actions: seq<Action>, c: Cid)
    requires Inv(s) && Tracks(s, c) && Run(s, actions).Some?
    ensures Tracks(Run(s, actions).value, c) && Inv(Run(s, actions).value)
    decreases |actions|
  {
    if actions != [] {
      var t := Next(s, actions[0]).value;
      NextKeeps(s, actions[0], t);
      if Coming(s, c) { ComingTracks(s, actions[0], t, c); }
      else if Named(s, c) { NamedTracks(s, actions[0], t, c); }
      else { PastStays(s, actions[0], t, c); }
      RunTracks(t, actions[1..], c);
    }
  }

  /** In the state this run leads to, if `c` is the child and recorded, the pid file names it. */
  ghost predicate RecordKept(s: State, actions: seq<Action>, c: Cid) {
    Run(s, actions).Some? ==> Run(s, actions).value.child == Some(c) ==>
      Run(s, actions).value.life.Recording? || Run(s, actions).value.pidfile == Some(c)
  }

  /** MAIN: when a generation has just been recorded, the pid file names it as long as it is the child, on
      every continuation, exactly if no reaper is between forgetting an older one and clearing. */
  lemma RecordedWhileChild(s: State, c: Cid)
    requires Inv(s) && s.life == Watching(c) && s.pidfile == Some(c)
    ensures (forall actions :: RecordKept(s, actions, c)) <==> NoneClearing(s)
  {
    if NoneClearing(s) {
      forall actions ensures RecordKept(s, actions, c) {
        if Run(s, actions).Some? { RunTracks(s, actions, c); }
      }
    } else {
      var d :| d in s.mon && s.mon[d].Unrecord?;
      var t := s.(pidfile := None, mon := s.mon[d := Announce(s.mon[d].was)]);
      assert Next(s, Watch(d, Good)) == Some(t);
      assert [Watch(d, Good)][1..] == [];
      assert Run(s, [Watch(d, Good)]) == Some(t);
      assert !RecordKept(s, [Watch(d, Good)], c);
    }
  }

  /** ... and recording is what leads there. */
  lemma RecordingRecords(s: State, c: Cid)
    requires Inv(s) && s.life == Recording(c)
    ensures Next(s, Go(Good)).Some?
    ensures var t := Next(s, Go(Good)).value; Inv(t) && t.life == Watching(c) && t.pidfile == Some(c) && t.mon == s.mon
  {
    NextKeeps(s, Go(Good), Next(s, Go(Good)).value);
  }

  /** MAIN: on the switch path: a stop that waited for its child to be reaped leaves that reaper past
      clearing. If no older one lags behind, the next generation stays recorded as long as it is the
      child. */
  lemma SwitchStaysRecorded(s: State, c: Cid, actions: seq<Action>)
    requires Inv(s) && s.life.StopDone? && s.life.stopped == Some(c) && Run(s, actions).Some?
    requires forall d :: d in s.mon && d != c ==> !s.mon[d].Unrecord?
    ensures NoneClearing(s) && RecordKept(s, actions, s.next)
  {
    assert c in s.mon && MonOk(s, c);
    assert Coming(s, s.next);
    RunTracks(s, actions, s.next);
  }

  // ---- a restart of the daemon ----

  /** The daemon comes up again beside whatever still runs: the engine the pid file names is adopted. */
  function Restart(s: State, autoRestart: bool, cfg: Cfg): State {
    if s.pidfile.Some? && s.pidfile.value in s.alive then
      var c := s.pidfile.value;
      State(Free, 0, NoOne, Some(c), cfg, false, false, false, false,
            {}, {}, map[c := Waiting], [], Some(c), s.alive, s.next, autoRestart, [Adopted(c)])
    else
      State(Free, 0, NoOne, None, cfg, false, false, false, false,
            {}, {}, map[], [], None, s.alive, s.next, autoRestart, [])
  }

  ghost predicate AllRecorded(s: State) {
    forall c :: c in s.alive ==> s.pidfile == Some(c)
  }

  ghost predicate OneLive(s: State, actions: seq<Action>) {
    Run(s, actions).Some? ==> forall c, d :: c in Run(s, actions).value.alive && d in Run(s, actions).value.alive ==> c == d
  }

  lemma RestartOk(s: State, autoRestart: bool, cfg: Cfg)
    requires Inv(s) && AllRecorded(s)
    ensures Inv(Restart(s, autoRestart, cfg))
  {
    var t := Restart(s, autoRestart, cfg);
    if t.child.Some? {
      assert t.alive == {t.child.value};
      AdoptedIsOk(t, t.child.value);
    } else {
      assert t.alive == {};
      EmptyIsOk(t);
    }
  }

  lemma AdoptedIsOk(t: State, c: Cid)
    requires t.life.Free? && t.guard.NoOne? && t.child == Some(c) && !t.stopping && !t.starting && !t.stopReq && !t.shutReq
    requires t.durable == {} && t.reaped == {} && t.mon == map[c := Waiting] && t.pidfile == Some(c) && t.alive == {c}
    requires t.next == c + 1 && t.log == [Adopted(c)]
    ensures Inv(t)
  {
    HistorySnoc([], Adopted(c));
    assert [] + [Adopted(c)] == t.log;
    assert MonOk(t, c);
  }

  lemma EmptyIsOk(t: State)
    requires t.life.Free? && t.guard.NoOne? && t.child.None? && !t.stopping && !t.starting && !t.stopReq && !t.shutReq
    requires t.durable == {} && t.reaped == {} && t.mon == map[] && t.pidfile.None? && t.alive == {} && t.log == []
    ensures Inv(t)
  {
  }

  /** MAIN: at most one engine runs after a restart of the daemon, whatever happens then, exactly if the
      pid file named the one that ran. */
  lemma RestartIsSafe(s: State, autoRestart: bool, cfg: Cfg)
    requires Inv(s)
    ensures (forall actions :: OneLive(Restart(s, autoRestart, cfg), actions)) <==> AllRecorded(s)
  {
    var t := Restart(s, autoRestart, cfg);
    if AllRecorded(s) {
      RestartOk(s, autoRestart, cfg);
      forall actions ensures OneLive(t, actions) {
        if Run(t, actions).Some? { RunKeeps(t, actions); }
      }
    } else {
      var actions := SecondSpawn(s, autoRestart, cfg);
      assert !OneLive(t, actions);
    }
  }

  /** An engine that is not recorded runs on beside the next one. */
  lemma SecondSpawn(s: State, autoRestart: bool, cfg: Cfg) returns (actions: seq<Action>)
    requires Inv(s) && !AllRecorded(s)
    ensures !OneLive(Restart(s, autoRestart, cfg), actions)
  {
    var t := Restart(s, autoRestart, cfg);
    var c :| c in s.alive && s.pidfile != Some(c);
    assert t.child.None? && t.alive == s.alive && c < s.next;
    var t1 := t.(life := StartEnter(cfg, false), tx := 1);
    var t2 := Log(t1, ClientStart).(stopReq := false, life := Spawning(cfg, false), starting := true);
    var t3 := SpawnStep(t2, cfg, false, true);
    assert Next(t, Begin(Start(cfg))) == Some(t1) && Next(t1, Go(Good)) == Some(t2) && Next(t2, Go(Good)) == Some(t3);
    var u;
    actions, u := Then(t, [], t, Begin(Start(cfg)));
    actions, u := Then(t, actions, u, Go(Good));
    actions, u := Then(t, actions, u, Go(Good));
    assert c in t3.alive && s.next in t3.alive;
  }
}
