/** Runs that reach what the supervisor does not rule out. */
module SupervisorGaps {
  import opened Options
  import opened Supervisor
  import opened SupervisorRuns

  /** The adopted engine has died and its monitor holds the guard. */
  lemma DeadAndHeld(autoRestart: bool, cfg: Cfg) returns (actions: seq<Action>, s: State)
    ensures Reaches(autoRestart, true, cfg, actions, s)
    ensures s == Boot(autoRestart, true, cfg).(guard := ByMonitor(0), mon := map[0 := HasSeal(false)], alive := {}, log := [Adopted(0), Exit(0)])
  {
    var b := Boot(autoRestart, true, cfg);
    actions := [];
    actions, s := Then(b, actions, b, Die(0));
    actions, s := Then(b, actions, s, Watch(0, Good));
    actions, s := Then(b, actions, s, Watch(0, Good));
    actions, s := Then(b, actions, s, Watch(0, Good));
  }

  /** The monitor thread can die: an error of the crash receipt other than the outbox's own leaves
      the dead child visible for ever. */
  lemma MonitorCanDie(cfg: Cfg) returns (actions: seq<Action>, s: State)
    ensures Reaches(true, true, cfg, actions, s)
    ensures s.child == Some(0) && s.alive == {} && 0 in s.mon && s.mon[0].Crashed?
  {
    actions, s := DeadAndHeld(true, cfg);
    actions, s := Then(Boot(true, true, cfg), actions, s, Watch(0, Raw));
  }

  /** The crash receipt could not be written, so the latch is set. */
  lemma LatchedByFailure(cfg: Cfg) returns (actions: seq<Action>, s: State)
    ensures Reaches(true, true, cfg, actions, s)
    ensures s == Boot(true, true, cfg).(mon := map[0 := Clearing(false)], alive := {}, stopReq := true, log := [Adopted(0), Exit(0), LatchFail(0)])
  {
    var b := Boot(true, true, cfg);
    actions, s := DeadAndHeld(true, cfg);
    actions, s := Then(b, actions, s, Watch(0, Bad));
    actions, s := Then(b, actions, s, Watch(0, Good));
  }

  /** An explicit start between the failed receipt and the clearing is answered "already running",
      but it clears the latch. */
  lemma LatchCleared(cfg: Cfg) returns (actions: seq<Action>, s: State)
    ensures Reaches(true, true, cfg, actions, s)
    ensures s == Boot(true, true, cfg).(tx := 1, mon := map[0 := Clearing(false)], alive := {},
                                        log := [Adopted(0), Exit(0), LatchFail(0), ClientStart])
  {
    var b := Boot(true, true, cfg);
    actions, s := LatchedByFailure(cfg);
    actions, s := Then(b, actions, s, Begin(Start(cfg)));
    actions, s := Then(b, actions, s, Go(Good));
  }

  /** ... so the monitor goes on to restart. */
  lemma RestartQueued(cfg: Cfg) returns (actions: seq<Action>, s: State)
    ensures Reaches(true, true, cfg, actions, s)
    ensures s.log == [Adopted(0), Exit(0), LatchFail(0), ClientStart, Forget(0)]
    ensures s.life.Free? && s.autos == [cfg] && s.child.None? && !s.shutReq && !s.stopReq && !s.starting && s.next == 1
  {
    var b := Boot(true, true, cfg);
    actions, s := LatchCleared(cfg);
    actions, s := Then(b, actions, s, Watch(0, Good));
    actions, s := Then(b, actions, s, Watch(0, Good));
    actions, s := Then(b, actions, s, Watch(0, Good));
    actions, s := Then(b, actions, s, Watch(0, Good));
  }

  /** MAIN: the exception in the restart theorem is real: a generation with no receipt of any kind is
      replaced by an automatic restart, after a client start in between. */
  lemma RestartWithoutReceipt(cfg: Cfg) returns (actions: seq<Action>, s: State)
    ensures Reaches(true, true, cfg, actions, s)
    ensures s.log == [Adopted(0), Exit(0), LatchFail(0), ClientStart, Forget(0), Spawn(1, true)]
    ensures !HasStop(s.log, 0) && CrashReceipt(0) !in s.log
  {
    var b := Boot(true, true, cfg);
    actions, s := RestartQueued(cfg);
    actions, s := Then(b, actions, s, BeginAuto);
    actions, s := Then(b, actions, s, Go(Good));
    actions, s := Then(b, actions, s, Go(Good));
  }

  /** The crashed child is forgotten but still recorded. */
  lemma ForgottenNotCleared(cfg: Cfg) returns (actions: seq<Action>, s: State)
    ensures Reaches(false, true, cfg, actions, s)
    ensures s.life.Free? && s.child.None? && s.pidfile == Some(0) && s.next == 1 && s.alive == {}
    ensures s.mon == map[0 := Unrecord(false)] && !s.shutReq && !s.starting && !s.stopping
  {
    var b := Boot(false, true, cfg);
    actions, s := DeadAndHeld(false, cfg);
    actions, s := Then(b, actions, s, Watch(0, Good));
    actions, s := Then(b, actions, s, Watch(0, Good));
  }

  /** The successor is published and recorded, and the old record is still to be cleared. */
  lemma SuccessorRecorded(cfg: Cfg, cfg2: Cfg) returns (actions: seq<Action>, s: State)
    ensures Reaches(false, true, cfg, actions, s)
    ensures s.life == Watching(1) && s.child == Some(1) && s.pidfile == Some(1) && s.alive == {1}
    ensures s.mon == map[0 := Unrecord(false)]
  {
    var b := Boot(false, true, cfg);
    actions, s := ForgottenNotCleared(cfg);
    actions, s := Then(b, actions, s, Begin(Start(cfg2)));
    actions, s := Then(b, actions, s, Go(Good));
    actions, s := Then(b, actions, s, Go(Good));
    actions, s := Then(b, actions, s, Go(Good));
    actions, s := Then(b, actions, s, Go(Good));
  }

  /** MAIN: the pid file does not always name the current child: the reaper of a crashed generation
      can clear the record of its successor. */
  lemma RecordCanBeLost(cfg: Cfg, cfg2: Cfg) returns (actions: seq<Action>, s: State)
    ensures Reaches(false, true, cfg, actions, s)
    ensures s.life.Free? && s.child == Some(1) && s.alive == {1} && s.pidfile.None?
  {
    var b := Boot(false, true, cfg);
    actions, s := SuccessorRecorded(cfg, cfg2);
    actions, s := Then(b, actions, s, Watch(0, Good));
    actions, s := Then(b, actions, s, Go(Good));
  }
}
