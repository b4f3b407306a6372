/** Every stop that has begun can come to its end, and returns once its child has exited. */
module SupervisorStops {
  import opened Options
  import opened Supervisor
  import opened SupervisorFrame
  import opened SupervisorRuns

  predicate Failing(life: Life) { life.SealFailed? || life.StopFailed? || life.StopRaise? }

  /** How far a stop is from its end, in steps of its own; one more while a monitor has the guard. */
  function StopRank(s: State): nat {
    OwnRank(s.life) + if s.life.WantGuard? && !s.guard.NoOne? then 1 else 0
  }

  predicate Returns(e: Event, tx: nat) { e == StopReturned(tx) || e == ShutdownReturned }

  predicate Raises(e: Event, tx: nat) { e == StopRaised(tx) || e == ShutdownRaised }

  /** The transaction has gone on to the stop's end, with event `e`. */
  ghost predicate EndsWith(s: State, t: State, e: Event) {
    t.log == s.log + [e] && t.tx == s.tx && (t.life.Free? || t.life.StartEnter?)
  }

  /** One step nearer. A stop gets there without failing unless it already was failing. */
  ghost predicate Advances(s: State, t: State) {
    && InStop(t.life) && t.tx == s.tx && t.alive == s.alive && StopRank(t) < StopRank(s)
    && (Failing(t.life) ==> Failing(s.life) || (IsWait(s.life) && s.life.c !in s.reaped))
  }

  function OwnAnswer(life: Life): Answer { if life.Sealing? then Engine(Sealed, true, true) else Good }

  lemma OpeningAdvances(s: State) returns (t: State)
    requires Inv(s) && Unsealed(s.life) && (s.life.WantGuard? ==> s.guard.NoOne?)
    ensures Next(s, Go(OwnAnswer(s.life))) == Some(t) && Advances(s, t)
  {
    if s.life.StopEnter? { GateNeverWaits(s); }
    t := Next(s, Go(OwnAnswer(s.life))).value;
    match s.life
    case StopEnter(plan, force) =>
    case Sealing(plan, force, c) => SealAdvances(s, t, plan, force, c);
    case _ =>
  }

  lemma SealAdvances(s: State, t: State, plan: Plan, force: bool, c: Cid)
    requires s.life == Sealing(plan, force, c) && t == SealStep(s, plan, force, c, Engine(Sealed, true, true))
    ensures Advances(s, t)
  {
  }

  /** The monitor that has the guard gives it back. */
  lemma MonitorGivesBack(s: State) returns (t: State)
    requires Inv(s) && s.life.WantGuard? && s.guard.ByMonitor?
    ensures Next(s, Watch(s.guard.c, Good)) == Some(t) && Advances(s, t)
    ensures s.guard.c in t.mon && !t.mon[s.guard.c].Crashed?
  {
    t := CrashStep(s, s.guard.c, s.mon[s.guard.c].was, Good);
  }

  lemma LookAdvances(s: State) returns (t: State)
    requires IsWait(s.life)
    ensures Next(s, Go(OwnAnswer(s.life))) == Some(t) && Advances(s, t)
  {
    t := Next(s, Go(OwnAnswer(s.life))).value;
    LookedAdvances(s, t, t.life);
  }

  lemma LookedAdvances(s: State, t: State, life: Life)
    requires IsWait(s.life) && t == s.(life := life)
    requires if s.life.c in s.reaped then life == StopDone(s.life.plan, Some(s.life.c))
      else (s.life.CheckReaped? && life.Terminate?) || (s.life.AwaitTerm? && life.Kill?) || (s.life.AwaitKill? && life.StopFailed?)
    ensures Advances(s, t)
  {
  }

  lemma SignalAdvances(s: State, plan: Plan, c: Cid, kill: bool) returns (t: State)
    requires s.life == if kill then Kill(plan, c) else Terminate(plan, c)
    ensures Next(s, Go(OwnAnswer(s.life))) == Some(t) && Advances(s, t)
  {
    t := SignalStep(s, plan, c, kill, true);
  }

  lemma FailedAdvances(s: State, plan: Plan, c: Cid) returns (t: State)
    requires s.life == SealFailed(plan, c) || s.life == StopFailed(plan, c)
    ensures Next(s, Go(OwnAnswer(s.life))) == Some(t) && Advances(s, t)
  {
    t := GiveUp(s, plan, c);
  }

  lemma LastStep(s: State) returns (t: State, e: Event)
    requires s.life.StopDone? || s.life.StopRaise?
    ensures Next(s, Go(Good)) == Some(t) && EndsWith(s, t, e)
    ensures if s.life.StopDone? then Returns(e, s.tx) else Raises(e, s.tx)
  {
    t := if s.life.StopDone? then Finish(s, s.life.plan) else Raise(s, s.life.plan);
    e := LastEvent(s);
    StopFrames(s, t, Good);
  }

  /** MAIN: from every reachable state in which a stop has begun, it can come to its end, returned or raised,
      even if a monitor thread has died. The continuation shown is one in which the engine answers. */
  lemma {:induction false} StopEnds(s: State) returns (actions: seq<Action>, t: State, e: Event)
    requires Inv(s) && InStop(s.life)
    ensures Run(s, actions) == Some(t) && t.tx == s.tx && (t.life.Free? || t.life.StartEnter?)
    ensures t.log != [] && t.log[|t.log| - 1] == e && (Returns(e, s.tx) || Raises(e, s.tx))
    decreases StopRank(s)
  {
    if s.life.StopDone? || s.life.StopRaise? {
      t, e := LastStep(s);
      actions := [Go(Good)];
      OneStep(s, actions, t);
    } else {
      var a, u := StopAdvances(s);
      NextKeeps(s, a, u);
      var rest;
      rest, t, e := StopEnds(u);
      actions := [a] + rest;
      StepThenRun(s, a, u, rest);
    }
  }

  lemma StepThenRun(s: State, a: Action, u: State, rest: seq<Action>)
    requires Next(s, a) == Some(u)
    ensures Run(s, [a] + rest) == Run(u, rest)
  {
    assert ([a] + rest)[1..] == rest;
  }

  lemma StopAdvances(s: State) returns (a: Action, t: State)
    requires Inv(s) && InStop(s.life) && !s.life.StopDone? && !s.life.StopRaise?
    ensures Next(s, a) == Some(t) && Advances(s, t)
    ensures a.Watch? ==> a.c in t.mon && !t.mon[a.c].Crashed?
  {
    if s.life.WantGuard? && !s.guard.NoOne? {
      a := Watch(s.guard.c, Good);
      t := MonitorGivesBack(s);
    } else if Unsealed(s.life) {
      a := Go(OwnAnswer(s.life));
      t := OpeningAdvances(s);
    } else {
      a := Go(OwnAnswer(s.life));
      t := ClosingAdvances(s);
    }
  }

  lemma ClosingAdvances(s: State) returns (t: State)
    requires IsWait(s.life) || (IsTail(s.life) && !s.life.StopDone? && !s.life.StopRaise?)
    ensures Next(s, Go(OwnAnswer(s.life))) == Some(t) && Advances(s, t)
  {
    match s.life
    case Terminate(plan, c) => t := SignalAdvances(s, plan, c, false);
    case Kill(plan, c) => t := SignalAdvances(s, plan, c, true);
    case SealFailed(plan, c) => t := FailedAdvances(s, plan, c);
    case StopFailed(plan, c) => t := FailedAdvances(s, plan, c);
    case _ => t := LookAdvances(s);
  }

  lemma OneStep(s: State, actions: seq<Action>, t: State)
    requires |actions| == 1 && Next(s, actions[0]) == Some(t)
    ensures Run(s, actions) == Some(t)
  {
    assert actions[1..] == [];
  }

  // ---- every step of a stop ----

  /** How many of the actions are the holder's own. */
  function OwnSteps(actions: seq<Action>): nat {
    if actions == [] then 0 else (if actions[0].Go? then 1 else 0) + OwnSteps(actions[1..])
  }

  /** Whatever the answer, a step of the stop's own brings it nearer to its end or is the last. */
  lemma OwnStepShortens(s: State, ans: Answer, t: State)
    requires InStop(s.life) && Next(s, Go(ans)) == Some(t)
    ensures t.tx == s.tx && Shortens(s, t)
  {
    StopFrames(s, t, ans);
  }

  /** Nobody else moves it. */
  lemma OthersWait(s: State, a: Action, t: State)
    requires InStop(s.life) && !a.Go? && Next(s, a) == Some(t)
    ensures t.life == s.life && t.tx == s.tx
  {
    if a.Watch? { WatchFrames(s, t, a.c, a.out); }
  }

  /** `u` is where the stop begun in `s` has just ended. */
  ghost predicate JustEnded(s: State, u: State) {
    && u.tx == s.tx && (u.life.Free? || u.life.StartEnter?)
    && u.log != [] && (Returns(u.log[|u.log| - 1], s.tx) || Raises(u.log[|u.log| - 1], s.tx))
  }

  lemma EitherWay(s: State, a: Action, t: State)
    requires InStop(s.life) && Next(s, a) == Some(t)
    ensures JustEnded(s, t) || (InStop(t.life) && t.tx == s.tx)
    ensures OwnRank(t.life) + (if a.Go? then 1 else 0) <= OwnRank(s.life)
  {
    if a.Go? { OwnStepShortens(s, a.ans, t); } else { OthersWait(s, a, t); }
  }

  /** MAIN: on every run from a state in which a stop has begun, with whatever answers of the engine and
      whatever steps of others in between: the stop ends within its first steps, at most twelve, or the run
      is over before it took that many. */
  lemma {:induction false} StopIsShort(s: State, actions: seq<Action>) returns (k: nat, u: State)
    requires InStop(s.life) && Run(s, actions).Some?
    ensures k <= |actions| && Run(s, actions[..k]) == Some(u)
    ensures OwnSteps(actions[..k]) + OwnRank(u.life) <= OwnRank(s.life) <= 12
    ensures JustEnded(s, u) || (k == |actions| && InStop(u.life) && u.tx == s.tx)
    decreases |actions|
  {
    if actions == [] {
      k, u := 0, s;
    } else {
      var t := Next(s, actions[0]).value;
      EitherWay(s, actions[0], t);
      if InStop(t.life) {
        k, u := StopIsShort(t, actions[1..]);
        assert actions[..k + 1] == [actions[0]] + actions[1..][..k];
        StepThenRun(s, actions[0], t, actions[1..][..k]);
        assert actions[..k + 1][1..] == actions[1..][..k];
        k := k + 1;
      } else {
        k, u := 1, t;
        assert actions[..1] == [actions[0]] && actions[..1][1..] == [];
        OneStep(s, actions[..1], t);
      }
    }
  }

  // ---- a stop whose child has exited ----

  /** Nothing runs, no monitor thread has died, and the stop has not failed. */
  ghost predicate CanReturn(s: State) {
    && Inv(s) && InStop(s.life) && !Failing(s.life) && s.alive == {}
    && forall d :: d in s.mon ==> !s.mon[d].Crashed?
  }

  function ReapRank(s: State): nat {
    if IsWait(s.life) && s.life.c in s.mon then Rank(s, s.life.c) else 0
  }

  lemma NoneCrashes(s: State, a: Action, t: State)
    requires Inv(s) && Next(s, a) == Some(t) && forall d :: d in s.mon ==> !s.mon[d].Crashed?
    requires a.Watch? ==> a.c in t.mon && !t.mon[a.c].Crashed?
    ensures forall d :: d in t.mon ==> !t.mon[d].Crashed?
  {
    forall d | d in t.mon ensures !t.mon[d].Crashed? {
      if !a.Watch? || a.c != d { MonitorStays(s, d, a, t); }
    }
  }

  /** The monitor brings the child a step nearer to being reaped; the stop goes on waiting. */
  lemma WaitStep(s: State) returns (a: Action, t: State)
    requires CanReturn(s) && IsWait(s.life) && s.life.c !in s.reaped
    ensures Next(s, a) == Some(t) && CanReturn(t) && t.tx == s.tx && StopRank(t) == StopRank(s) && ReapRank(t) < ReapRank(s)
  {
    var c := s.life.c;
    assert MonOk(s, c);
    if s.mon[c].WantSeal? { GuardIsFree(s, c); }
    t := MonitorSteps(s, c);
    a := Watch(c, Good);
    NextKeeps(s, a, t);
    NoneCrashes(s, a, t);
  }

  /** The stop's own step, which does not fail. */
  lemma OwnStep(s: State) returns (a: Action, t: State)
    requires CanReturn(s) && !s.life.StopDone? && (IsWait(s.life) ==> s.life.c in s.reaped)
    ensures Next(s, a) == Some(t) && CanReturn(t) && t.tx == s.tx && StopRank(t) < StopRank(s)
  {
    a, t := StopAdvances(s);
    NextKeeps(s, a, t);
    NoneCrashes(s, a, t);
  }

  lemma ReturnStep(s: State) returns (a: Action, t: State)
    requires CanReturn(s) && !s.life.StopDone?
    ensures Next(s, a) == Some(t) && CanReturn(t) && t.tx == s.tx
    ensures StopRank(t) < StopRank(s) || (StopRank(t) == StopRank(s) && ReapRank(t) < ReapRank(s))
  {
    if IsWait(s.life) && s.life.c !in s.reaped { a, t := WaitStep(s); } else { a, t := OwnStep(s); }
  }

  /** MAIN: a stop that has not failed returns, on some continuation from every reachable state in which
      its child has exited and no monitor thread has died. */
  lemma {:induction false} StopReturns(s: State) returns (actions: seq<Action>, t: State, e: Event)
    requires CanReturn(s)
    ensures Run(s, actions) == Some(t) && t.tx == s.tx && (t.life.Free? || t.life.StartEnter?)
    ensures t.log != [] && t.log[|t.log| - 1] == e && Returns(e, s.tx)
    decreases StopRank(s), ReapRank(s)
  {
    if s.life.StopDone? {
      t, e := LastStep(s);
      actions := [Go(Good)];
      OneStep(s, actions, t);
    } else {
      var a, u := ReturnStep(s);
      var rest;
      rest, t, e := StopReturns(u);
      actions := [a] + rest;
      StepThenRun(s, a, u, rest);
    }
  }
}
