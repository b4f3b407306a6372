/** What one step may change, once for every kind of step: the holder of a start, the holder of a stop, a
    monitor. */
module SupervisorFrame {
  import opened Options
  import opened Supervisor

  /** One more event, no crash receipt, or none. */
  ghost predicate NoCrashLogged(s: State, t: State) {
    t.log == s.log || (t.log != [] && t.log == s.log + [t.log[|t.log| - 1]] && !t.log[|t.log| - 1].CrashReceipt?)
  }

  lemma OneEvent(s: State, t: State, e: Event)
    requires t.log == s.log + [e] && !e.CrashReceipt?
    ensures NoCrashLogged(s, t)
  {
  }

  // ---- the holder of a start ----

  /** A generation is made, becomes the child, is recorded and gets a monitor, one after the other. */
  ghost predicate StartFrame(s: State, t: State) {
    && (IsStart(t.life) || t.life.Free?) && NoCrashLogged(s, t) && t.durable == s.durable
    && (t.child == s.child || (s.life.Spawned? && t.child == Some(s.life.c)))
    && (t.pidfile == s.pidfile || (s.life.Recording? && t.pidfile == Some(s.life.c)))
    && (t.mon == s.mon || (s.life.Watching? && t.mon == s.mon[s.life.c := Waiting]))
    && (t.next == s.next || (t.life.Spawned? && t.next == s.next + 1))
    && (t.life.Spawned? ==> s.life.Spawning? && t.life.c == s.next)
    && (t.life.Recording? <==> s.life.Spawned? && t.life == Recording(s.life.c))
    && (t.life.Watching? ==> s.life.Recording? && s.life.c == t.life.c)
    && (s.life.Spawned? ==> t.child == Some(s.life.c)) && (s.life.Recording? ==> t.pidfile == Some(s.life.c))
  }

  lemma EnterFrame(s: State, t: State)
    requires s.life.StartEnter? && EnterStart(s, s.life.cfg, s.life.auto) == Some(t)
    ensures StartFrame(s, t)
  {
  }

  lemma SpawnFrame(s: State, t: State, ok: bool)
    requires s.life.Spawning? && t == SpawnStep(s, s.life.cfg, s.life.auto, ok)
    ensures StartFrame(s, t)
  {
  }

  lemma ChildFrame(s: State, t: State, ans: Answer)
    requires (s.life.Spawned? || s.life.Recording? || s.life.Watching?) && LifeStep(s, ans) == Some(t)
    ensures StartFrame(s, t)
  {
  }

  lemma StartFrames(s: State, t: State, ans: Answer)
    requires IsStart(s.life) && LifeStep(s, ans) == Some(t)
    ensures StartFrame(s, t)
  {
    if s.life.StartEnter? {
      EnterFrame(s, t);
    } else if s.life.Spawning? {
      SpawnFrame(s, t, ans.Good?);
    } else {
      ChildFrame(s, t, ans);
    }
  }

  // ---- the holder of a stop ----

  predicate InStop(life: Life) { Unsealed(life) || IsWait(life) || IsTail(life) }

  /** How many steps of its own a stop can still take. */
  function OwnRank(life: Life): nat {
    match life
    case ShutEnter(force) => 12
    case StopEnter(plan, force) => 11
    case WantGuard(plan, force, c) => 9
    case Sealing(plan, force, c) => 8
    case CheckReaped(plan, c) => 7
    case Terminate(plan, c) => 6
    case AwaitTerm(plan, c) => 5
    case Kill(plan, c) => 4
    case AwaitKill(plan, c) => 3
    case SealFailed(plan, c) => 2
    case StopFailed(plan, c) => 2
    case StopRaise(plan) => 1
    case StopDone(plan, stopped) => 1
    case _ => 0
  }

  /** The last event of a stop. */
  function LastEvent(s: State): Event
    requires s.life.StopDone? || s.life.StopRaise?
  {
    if s.life.StopDone? then if s.life.plan.Shutdown? then ShutdownReturned else StopReturned(s.tx)
    else if s.life.plan.Shutdown? then ShutdownRaised else StopRaised(s.tx)
  }

  /** The stop comes nearer to its end, whatever the answer, or is there. */
  ghost predicate Shortens(s: State, t: State) {
    if s.life.StopDone? || s.life.StopRaise? then (t.life.Free? || t.life.StartEnter?) && t.log == s.log + [LastEvent(s)]
    else InStop(t.life) && OwnRank(t.life) < OwnRank(s.life)
  }

  /** The latch is set by the entry and left alone by the rest. */
  ghost predicate KeepsLatch(s: State, t: State) {
    if s.life.ShutEnter? || s.life.StopEnter? then t.life.StopEnter? || t.stopReq else t.stopReq == s.stopReq
  }

  /** A stop leaves the monitors, the child, its record and the engines alone, and makes durable only the
      generation it seals. */
  ghost predicate StopFrame(s: State, t: State) {
    && t.mon == s.mon && t.child == s.child && t.pidfile == s.pidfile && t.alive == s.alive && t.next == s.next && t.tx == s.tx
    && !t.life.Spawned? && !t.life.Recording? && !t.life.Watching?
    && NoCrashLogged(s, t) && (t.durable == s.durable || (s.life.Sealing? && t.durable == s.durable + {s.life.c}))
    && KeepsLatch(s, t) && Shortens(s, t)
  }

  lemma EntryFrame(s: State, t: State, ans: Answer)
    requires (s.life.ShutEnter? || s.life.StopEnter?) && StopStep(s, ans) == Some(t)
    ensures StopFrame(s, t)
  {
  }

  lemma GuardFrame(s: State, t: State, ans: Answer)
    requires s.life.WantGuard? && StopStep(s, ans) == Some(t)
    ensures StopFrame(s, t)
  {
  }

  lemma SealFrame(s: State, t: State, ans: Answer)
    requires ans.Engine? && s.life.Sealing? && t == SealStep(s, s.life.plan, s.life.force, s.life.c, ans)
    ensures StopFrame(s, t)
  {
    if t.life.CheckReaped? {
      OneEvent(s, t, StopReceipt(s.life.c, s.tx));
    } else {
      OneEvent(s, t, NoReceipt(s.life.c, s.tx));
    }
  }

  /** A step that only looks. */
  lemma LookFrame(s: State, t: State, plan: Plan, c: Cid, otherwise: Life)
    requires IsWait(s.life) && t == s.(life := Looked(s, plan, c, otherwise))
    requires (otherwise.Terminate? || otherwise.Kill? || otherwise.StopFailed?) && OwnRank(otherwise) < OwnRank(s.life)
    ensures StopFrame(s, t)
  {
  }

  lemma WaitFrame(s: State, t: State, ans: Answer)
    requires IsWait(s.life) && StopStep(s, ans) == Some(t)
    ensures StopFrame(s, t)
  {
    match s.life
    case CheckReaped(plan, c) => LookFrame(s, t, plan, c, Terminate(plan, c));
    case AwaitTerm(plan, c) => LookFrame(s, t, plan, c, Kill(plan, c));
    case AwaitKill(plan, c) => LookFrame(s, t, plan, c, StopFailed(plan, c));
  }

  lemma SignalFrame(s: State, t: State, ans: Answer)
    requires (s.life.Terminate? || s.life.Kill? || s.life.SealFailed? || s.life.StopFailed?) && StopStep(s, ans) == Some(t)
    ensures StopFrame(s, t)
  {
  }

  /** The last step. */
  lemma EndFrame(s: State, t: State, e: Event)
    requires (s.life.StopDone? || s.life.StopRaise?) && (t.life.Free? || t.life.StartEnter?)
    requires e == LastEvent(s) && t.log == s.log + [e] && !e.CrashReceipt? && t.durable == s.durable && t.stopReq == s.stopReq
    requires t.mon == s.mon && t.child == s.child && t.pidfile == s.pidfile && t.alive == s.alive && t.next == s.next && t.tx == s.tx
    ensures StopFrame(s, t)
  {
    OneEvent(s, t, e);
  }

  lemma JustStopFrame(s: State, t: State)
    requires s.life.StopDone? && s.life.plan.JustStop? && t == Finish(s, JustStop)
    ensures StopFrame(s, t)
  {
    EndFrame(s, t, StopReturned(s.tx));
  }

  lemma ThenStartFrame(s: State, t: State)
    requires s.life.StopDone? && s.life.plan.ThenStart? && t == Finish(s, ThenStart(s.life.plan.cfg))
    ensures StopFrame(s, t)
  {
    EndFrame(s, t, StopReturned(s.tx));
  }

  lemma ShutdownFrame(s: State, t: State)
    requires s.life.StopDone? && s.life.plan.Shutdown? && t == Finish(s, Shutdown)
    ensures StopFrame(s, t)
  {
    EndFrame(s, t, ShutdownReturned);
  }

  lemma FinishFrame(s: State, t: State)
    requires s.life.StopDone? && t == Finish(s, s.life.plan)
    ensures StopFrame(s, t)
  {
    match s.life.plan
    case JustStop => JustStopFrame(s, t);
    case ThenStart(cfg) => ThenStartFrame(s, t);
    case Shutdown => ShutdownFrame(s, t);
  }

  lemma ReopenFrame(s: State, t: State)
    requires s.life == StopRaise(Shutdown) && t == Raise(s, Shutdown)
    ensures StopFrame(s, t)
  {
    EndFrame(s, t, ShutdownRaised);
  }

  lemma RaisedFrame(s: State, t: State)
    requires s.life.StopRaise? && !s.life.plan.Shutdown? && t == Raise(s, s.life.plan)
    ensures StopFrame(s, t)
  {
    EndFrame(s, t, StopRaised(s.tx));
  }

  lemma RaiseFrame(s: State, t: State)
    requires s.life.StopRaise? && t == Raise(s, s.life.plan)
    ensures StopFrame(s, t)
  {
    if s.life.plan.Shutdown? { ReopenFrame(s, t); } else { RaisedFrame(s, t); }
  }

  lemma StopFrames(s: State, t: State, ans: Answer)
    requires StopStep(s, ans) == Some(t)
    ensures StopFrame(s, t)
  {
    if s.life.ShutEnter? || s.life.StopEnter? {
      EntryFrame(s, t, ans);
    } else if s.life.WantGuard? {
      GuardFrame(s, t, ans);
    } else if s.life.Sealing? {
      SealFrame(s, t, ans);
    } else if IsWait(s.life) {
      WaitFrame(s, t, ans);
    } else if s.life.StopDone? {
      FinishFrame(s, t);
    } else if s.life.StopRaise? {
      RaiseFrame(s, t);
    } else {
      SignalFrame(s, t, ans);
    }
  }

  // ---- a monitor ----

  /** A monitor moves only itself. It changes the child and its record only where it forgets and where it
      clears, and a crash receipt is its own generation's and becomes durable. */
  ghost predicate WatchFrame(s: State, t: State, c: Cid)
    requires c in s.mon
  {
    && t.life == s.life && t.tx == s.tx && t.next == s.next && (s.stopReq ==> t.stopReq)
    && c in t.mon && t.mon == s.mon[c := t.mon[c]]
    && (t.child == s.child || (t.child.None? && s.child == Some(c)))
    && (t.mon[c].Unrecord? ==> t.child.None? && s.child == Some(c))
    && (t.pidfile == s.pidfile || s.mon[c].Unrecord?)
    && (NoCrashLogged(s, t) || t.log == s.log + [CrashReceipt(c)]) && t.durable <= s.durable + {c}
  }

  lemma CrashFrame(s: State, t: State, c: Cid, out: Answer)
    requires c in s.mon && s.mon[c].HasSeal? && t == CrashStep(s, c, s.mon[c].was, out)
    ensures WatchFrame(s, t, c)
  {
    if c in s.durable {
    } else if out.Good? {
    } else {
    }
  }

  lemma HeadFrame(s: State, t: State, c: Cid, out: Answer)
    requires c in s.mon && (s.mon[c].Waiting? || s.mon[c].Seen? || s.mon[c].WantSeal? || s.mon[c].Latching?)
    requires MonStep(s, c, s.mon[c], out) == Some(t)
    ensures WatchFrame(s, t, c)
  {
  }

  lemma ClearFrame(s: State, t: State, c: Cid, out: Answer)
    requires c in s.mon && (s.mon[c].Clearing? || s.mon[c].Unrecord?) && MonStep(s, c, s.mon[c], out) == Some(t)
    ensures WatchFrame(s, t, c)
  {
  }

  lemma TailFrame(s: State, t: State, c: Cid, out: Answer)
    requires c in s.mon && (s.mon[c].Announce? || s.mon[c].Closing?) && MonStep(s, c, s.mon[c], out) == Some(t)
    ensures WatchFrame(s, t, c)
  {
  }

  lemma WatchFrames(s: State, t: State, c: Cid, out: Answer)
    requires c in s.mon && MonStep(s, c, s.mon[c], out) == Some(t)
    ensures WatchFrame(s, t, c)
  {
    var m := s.mon[c];
    if m.HasSeal? {
      CrashFrame(s, t, c, out);
    } else if m.Waiting? || m.Seen? || m.WantSeal? || m.Latching? {
      HeadFrame(s, t, c, out);
    } else if m.Clearing? || m.Unrecord? {
      ClearFrame(s, t, c, out);
    } else {
      TailFrame(s, t, c, out);
    }
  }
}
