/** The serve supervisor as a state machine. A step is one region the program runs under its state
    lock, one blocking call, or one exit of an engine process; steps of the client holding the
    lifecycle lock, of the monitor threads and of the engines interleave freely. */
module Supervisor {
  import opened Options

  /** A generation of the engine; numbers are never reused. */
  type Cid = nat
  /** Model, port and arguments, compared only for equality. */
  type Cfg = nat

  // ---- accounting: what a stop writes before it signals ----

  datatype Prep = Sealed | Unavailable | Refused | Broken
  datatype Receipt = SealedReceipt | SnapshotReceipt | DegradedReceipt

  /** The receipt a stop settles for, if any: the engine's answer, the stats fallback, and force. */
  function ReceiptFor(prep: Prep, stats: bool, force: bool): Option<Receipt> {
    match prep
    case Sealed => Some(SealedReceipt)
    case Unavailable => BestEffort(stats, force)
    case Refused => if force then BestEffort(stats, true) else None
    case Broken => if force then BestEffort(stats, true) else None
  }

  function BestEffort(stats: bool, force: bool): Option<Receipt> {
    if stats then Some(SnapshotReceipt) else if force then Some(DegradedReceipt) else None
  }

  /** A forced stop always finds a receipt to write; an unforced one does unless the engine can
      neither be sealed nor, being too old for it, at least be read. Only a sealed engine gets an
      exact receipt. */
  lemma ReceiptTable(prep: Prep, stats: bool, force: bool)
    ensures ReceiptFor(prep, stats, force).None? <==> !force && !prep.Sealed? && !(prep.Unavailable? && stats)
    ensures ReceiptFor(prep, stats, force) == Some(SealedReceipt) <==> prep.Sealed?
    ensures ReceiptFor(prep, stats, force) == Some(DegradedReceipt) <==> force && !prep.Sealed? && !stats
  {
  }

  // ---- state ----

  /** What follows a stop in the same lifecycle transaction. */
  datatype Plan = JustStop | ThenStart(cfg: Cfg) | Shutdown

  /** Where the holder of the lifecycle lock is. */
  datatype Life =
    | Free
    | StartEnter(cfg: Cfg, auto: bool) | Spawning(cfg: Cfg, auto: bool) | Spawned(cfg: Cfg, auto: bool, c: Cid)
    | Recording(c: Cid) | Watching(c: Cid)
    | ShutEnter(force: bool) | StopEnter(plan: Plan, force: bool)
    | WantGuard(plan: Plan, force: bool, c: Cid) | Sealing(plan: Plan, force: bool, c: Cid) | SealFailed(plan: Plan, c: Cid)
    | CheckReaped(plan: Plan, c: Cid) | Terminate(plan: Plan, c: Cid) | AwaitTerm(plan: Plan, c: Cid)
    | Kill(plan: Plan, c: Cid) | AwaitKill(plan: Plan, c: Cid) | StopFailed(plan: Plan, c: Cid)
    | StopDone(plan: Plan, stopped: Option<Cid>) | StopRaise(plan: Plan)

  /** Where the monitor thread of a generation is; `was` is what it read of the stop flags. */
  datatype Mon =
    | Waiting | Seen | WantSeal(was: bool) | HasSeal(was: bool) | Latching(was: bool) | Clearing(was: bool)
    | Unrecord(was: bool) | Announce(was: bool) | Closing(was: bool) | Ended | Crashed

  datatype Guard = NoOne | ByStop | ByMonitor(c: Cid)

  datatype Event =
    | Adopted(c: Cid) | Spawn(c: Cid, auto: bool) | Exit(c: Cid)
    | ClientStart | StopLatch(tx: nat) | LatchFail(c: Cid)
    | StopReceipt(c: Cid, tx: nat) | CrashReceipt(c: Cid) | NoReceipt(c: Cid, tx: nat)
    | Signal(c: Cid, tx: nat, kill: bool)
    | Forget(c: Cid) | StopReturned(tx: nat) | StopRaised(tx: nat)
    | ShutdownReturned | ShutdownRaised

  datatype State = State(
    life: Life, tx: nat, guard: Guard,
    child: Option<Cid>, cfg: Cfg, stopping: bool, starting: bool, stopReq: bool, shutReq: bool,
    durable: set<Cid>, reaped: set<Cid>, mon: map<Cid, Mon>, autos: seq<Cfg>, pidfile: Option<Cid>,
    alive: set<Cid>, next: Cid, autoRestart: bool, log: seq<Event>)

  /** Boot: nothing runs, or the engine named by the pid file was re-adopted. */
  function Boot(autoRestart: bool, adopt: bool, cfg: Cfg): State {
    if adopt then
      State(Free, 0, NoOne, Some(0), cfg, false, false, false, false,
            {}, {}, map[0 := Waiting], [], Some(0), {0}, 1, autoRestart, [Adopted(0)])
    else
      State(Free, 0, NoOne, None, cfg, false, false, false, false,
            {}, {}, map[], [], None, {}, 0, autoRestart, [])
  }

  // ---- steps ----

  datatype Call = Start(cfg: Cfg) | Stop(force: bool) | Switch(cfg: Cfg, force: bool) | ShutDown(force: bool)

  /** How a blocking call comes out. */
  datatype Answer = Good | Bad | Raw | Engine(prep: Prep, stats: bool, persisted: bool)

  datatype Action = Begin(call: Call) | BeginAuto | Die(c: Cid) | Go(ans: Answer) | Watch(c: Cid, out: Answer)

  function Entry(call: Call): Life {
    match call
    case Start(cfg) => StartEnter(cfg, false)
    case Stop(force) => StopEnter(JustStop, force)
    case Switch(cfg, force) => StopEnter(ThenStart(cfg), force)
    case ShutDown(force) => ShutEnter(force)
  }

  function Log(s: State, e: Event): State { s.(log := s.log + [e]) }

  function Next(s: State, a: Action): Option<State> {
    match a
    case Begin(call) => if s.life.Free? then Some(s.(life := Entry(call), tx := s.tx + 1)) else None
    case BeginAuto =>
      if s.life.Free? && s.autos != [] then
        Some(s.(life := StartEnter(s.autos[0], true), tx := s.tx + 1, autos := s.autos[1..]))
      else None
    case Die(c) => if c in s.alive then Some(Log(s, Exit(c)).(alive := s.alive - {c})) else None
    case Go(ans) => LifeStep(s, ans)
    case Watch(c, out) => if c in s.mon then MonStep(s, c, s.mon[c], out) else None
  }

  function LifeStep(s: State, ans: Answer): Option<State> {
    match s.life
    case Free => None
    case StartEnter(cfg, auto) => EnterStart(s, cfg, auto)
    case Spawning(cfg, auto) => Some(SpawnStep(s, cfg, auto, ans.Good?))
    case Spawned(cfg, auto, c) =>
      Some(s.(life := Recording(c), child := Some(c), cfg := cfg, stopping := false, starting := false))
    case Recording(c) => Some(s.(life := Watching(c), pidfile := Some(c)))
    case Watching(c) => Some(s.(life := Free, mon := s.mon[c := Waiting]))
    case _ => StopStep(s, ans)
  }

  /** The admission gate of a start. The second `starting` test is a wait: no step. */
  function EnterStart(s: State, cfg: Cfg, auto: bool): Option<State> {
    if s.shutReq then Some(s.(life := Free))
    else if auto && s.stopReq then Some(s.(life := Free))
    else
      var t := if auto then s else Log(s, ClientStart).(stopReq := false);
      if t.child.Some? && !t.stopping then Some(t.(life := Free))
      else if t.starting then None
      else Some(t.(life := Spawning(cfg, auto), starting := true))
  }

  function SpawnStep(s: State, cfg: Cfg, auto: bool, ok: bool): State {
    if ok then
      Log(s, Spawn(s.next, auto)).(life := Spawned(cfg, auto, s.next), alive := s.alive + {s.next}, next := s.next + 1)
    else s.(life := Free, starting := false)
  }

  function StopStep(s: State, ans: Answer): Option<State> {
    match s.life
    case ShutEnter(force) => Some(s.(life := StopEnter(Shutdown, force), shutReq := true))
    case StopEnter(plan, force) => EnterStop(s, plan, force)
    case WantGuard(plan, force, c) =>
      if s.guard.NoOne? then Some(s.(life := Sealing(plan, force, c), guard := ByStop)) else None
    case Sealing(plan, force, c) => if ans.Engine? then Some(SealStep(s, plan, force, c, ans)) else None
    case CheckReaped(plan, c) => Some(s.(life := Looked(s, plan, c, Terminate(plan, c))))
    case Terminate(plan, c) => Some(SignalStep(s, plan, c, false, ans.Good?))
    case AwaitTerm(plan, c) => Some(s.(life := Looked(s, plan, c, Kill(plan, c))))
    case Kill(plan, c) => Some(SignalStep(s, plan, c, true, ans.Good?))
    case AwaitKill(plan, c) => Some(s.(life := Looked(s, plan, c, StopFailed(plan, c))))
    case SealFailed(plan, c) => Some(GiveUp(s, plan, c))
    case StopFailed(plan, c) => Some(GiveUp(s, plan, c))
    case StopDone(plan, stopped) => Some(Finish(s, plan))
    case StopRaise(plan) => Some(Raise(s, plan))
    case _ => None
  }

  /** A stop latches first; it waits out a spawn in flight, and has nothing to do without a child. */
  function EnterStop(s: State, plan: Plan, force: bool): Option<State> {
    var t := Log(s, StopLatch(s.tx)).(stopReq := true);
    if s.starting then None
    else match s.child
      case None => Some(t.(life := StopDone(plan, None)))
      case Some(c) => Some(t.(life := WantGuard(plan, force, c), stopping := true))
  }

  /** A look at the reaped event, or a wait for it that ends. */
  function Looked(s: State, plan: Plan, c: Cid, otherwise: Life): Life {
    if c in s.reaped then StopDone(plan, Some(c)) else otherwise
  }

  /** Prepare and persist under the accounting guard. */
  function SealStep(s: State, plan: Plan, force: bool, c: Cid, ans: Answer): State
    requires ans.Engine?
  {
    if ReceiptFor(ans.prep, ans.stats, force).Some? && ans.persisted then
      Log(s, StopReceipt(c, s.tx)).(life := CheckReaped(plan, c), guard := NoOne, durable := s.durable + {c})
    else
      Log(s, NoReceipt(c, s.tx)).(life := SealFailed(plan, c), guard := NoOne)
  }

  function SignalStep(s: State, plan: Plan, c: Cid, kill: bool, ok: bool): State {
    Log(s, Signal(c, s.tx, kill)).(life :=
      if !ok then StopFailed(plan, c) else if kill then AwaitKill(plan, c) else AwaitTerm(plan, c))
  }

  function GiveUp(s: State, plan: Plan, c: Cid): State {
    s.(life := StopRaise(plan), stopping := if s.child == Some(c) then false else s.stopping)
  }

  function Finish(s: State, plan: Plan): State {
    match plan
    case JustStop => Log(s, StopReturned(s.tx)).(life := Free)
    case ThenStart(cfg) => Log(s, StopReturned(s.tx)).(life := StartEnter(cfg, false))
    case Shutdown => Log(s, ShutdownReturned).(life := Free)
  }

  function Raise(s: State, plan: Plan): State {
    if plan.Shutdown? then Log(s, ShutdownRaised).(life := Free, shutReq := false)
    else Log(s, StopRaised(s.tx)).(life := Free)
  }

  /** The one reaper of a generation. */
  function MonStep(s: State, c: Cid, m: Mon, out: Answer): Option<State> {
    match m
    case Waiting => if c in s.alive then None else Some(s.(mon := s.mon[c := Seen]))
    case Seen =>
      var was := s.stopping || s.stopReq;
      Some(s.(mon := s.mon[c := if s.child == Some(c) then WantSeal(was) else Clearing(was)]))
    case WantSeal(was) =>
      if s.guard.NoOne? then Some(s.(guard := ByMonitor(c), mon := s.mon[c := HasSeal(was)])) else None
    case HasSeal(was) => Some(CrashStep(s, c, was, out))
    case Latching(was) => Some(Log(s, LatchFail(c)).(stopReq := true, mon := s.mon[c := Clearing(was)]))
    case Clearing(was) =>
      Some(if s.child == Some(c) then
             Log(s, Forget(c)).(child := None, stopping := false, mon := s.mon[c := Unrecord(was)])
           else s.(mon := s.mon[c := Announce(true)]))
    case Unrecord(was) => Some(s.(pidfile := None, mon := s.mon[c := Announce(was)]))
    case Announce(was) => Some(s.(reaped := s.reaped + {c}, mon := s.mon[c := Closing(was)]))
    case Closing(was) =>
      Some(s.(mon := s.mon[c := Ended],
              autos := if !was && s.autoRestart && !s.stopReq then s.autos + [s.cfg] else s.autos))
    case Ended => None
    case Crashed => None
  }

  /** The crash receipt, unless a stop's receipt is already durable. An outbox error sets the latch;
      any other error ends the thread. */
  function CrashStep(s: State, c: Cid, was: bool, out: Answer): State {
    if c in s.durable then s.(guard := NoOne, mon := s.mon[c := Clearing(was)])
    else if out.Good? then
      Log(s, CrashReceipt(c)).(guard := NoOne, durable := s.durable + {c}, mon := s.mon[c := Clearing(was)])
    else s.(guard := NoOne, mon := s.mon[c := if out.Raw? then Crashed else Latching(was)])
  }

  // ---- runs ----

  /** Where a run leads; an action that is not enabled ends it. */
  function Run(s: State, actions: seq<Action>): Option<State>
    decreases |actions|
  {
    if actions == [] then Some(s)
    else match Next(s, actions[0])
      case None => None
      case Some(t) => Run(t, actions[1..])
  }

  // ---- what the history must satisfy ----

  /** Engine processes running after these events. */
  function Running(log: seq<Event>): set<Cid> {
    if log == [] then {}
    else
      var before, e := Running(log[..|log| - 1]), log[|log| - 1];
      if e.Adopted? || e.Spawn? then before + {e.c} else if e.Exit? then before - {e.c} else before
  }

  /** A stop has latched and no client start came since. */
  predicate Latched(log: seq<Event>) {
    if log == [] then false
    else
      var e := log[|log| - 1];
      if e.StopLatch? || e.LatchFail? then true else if e.ClientStart? then false else Latched(log[..|log| - 1])
  }

  ghost predicate HasStop(log: seq<Event>, c: Cid) {
    exists tx :: StopReceipt(c, tx) in log
  }

  /** Not silently lost: a stop's receipt, a crash receipt, or the latch set because neither could
      be written. */
  ghost predicate Accounted(log: seq<Event>, c: Cid) {
    HasStop(log, c) || CrashReceipt(c) in log || LatchFail(c) in log
  }

  /** What must have happened before an event. */
  ghost predicate Backed(before: seq<Event>, e: Event) {
    match e
    case Spawn(c, auto) => Running(before) == {} && ShutdownReturned !in before && (auto ==> !Latched(before))
    case Exit(c) => c in Running(before)
    case StopReceipt(c, tx) => NoReceipt(c, tx) !in before
    case NoReceipt(c, tx) => StopReceipt(c, tx) !in before
    case Signal(c, tx, kill) => StopReceipt(c, tx) in before && NoReceipt(c, tx) !in before
    case CrashReceipt(c) => c !in Running(before) && !HasStop(before, c) && CrashReceipt(c) !in before
    case Forget(c) => c !in Running(before) && Accounted(before, c)
    case StopReturned(tx) => Running(before) == {}
    case ShutdownReturned => Running(before) == {}
    case _ => true
  }

  ghost predicate History(log: seq<Event>) {
    forall i :: 0 <= i < |log| ==> Backed(log[..i], log[i])
  }

  lemma HistorySnoc(log: seq<Event>, e: Event)
    requires History(log) && Backed(log, e)
    ensures History(log + [e])
    ensures Running(log + [e]) == if e.Adopted? || e.Spawn? then Running(log) + {e.c} else if e.Exit? then Running(log) - {e.c} else Running(log)
    ensures Latched(log + [e]) == ((e.StopLatch? || e.LatchFail?) || (!e.ClientStart? && Latched(log)))
  {
    var all := log + [e];
    assert all[..|log|] == log;
    forall i | 0 <= i < |all| ensures Backed(all[..i], all[i]) {
      if i < |log| { assert all[..i] == log[..i]; }
    }
  }

  // ---- the invariant ----

  /** The monitor is past clearing its child. */
  predicate Late(m: Mon) { m.Unrecord? || m.Announce? || m.Closing? || m.Ended? }

  /** The child a stop works on: still current, or already cleared by its monitor. */
  ghost predicate Target(s: State, c: Cid) {
    c in s.mon && (s.child == Some(c) || (s.child.None? && Late(s.mon[c])))
  }

  ghost predicate Receipted(s: State, c: Cid) {
    Target(s, c) && StopReceipt(c, s.tx) in s.log && NoReceipt(c, s.tx) !in s.log
  }

  predicate Unsealed(life: Life) { life.ShutEnter? || life.StopEnter? || life.WantGuard? || life.Sealing? }

  predicate IsStart(life: Life) {
    life.StartEnter? || life.Spawning? || life.Spawned? || life.Recording? || life.Watching?
  }

  predicate IsWait(life: Life) { life.CheckReaped? || life.AwaitTerm? || life.AwaitKill? }

  predicate IsTail(life: Life) {
    life.Terminate? || life.Kill? || life.SealFailed? || life.StopFailed? || life.StopDone? || life.StopRaise?
  }

  /** The step of a stop that holds `_stopping`. */
  predicate Holding(life: Life) {
    life.WantGuard? || life.Sealing? || life.SealFailed? || life.CheckReaped? || life.Terminate? || life.AwaitTerm?
    || life.Kill? || life.AwaitKill? || life.StopFailed?
  }

  /** The holder is past the latch of a shutdown. */
  predicate InShutdown(life: Life) {
    (Holding(life) || life.StopEnter? || life.StopDone? || life.StopRaise?) && life.plan.Shutdown?
  }

  ghost predicate LifeOk(s: State) {
    match s.life
    case Spawning(cfg, auto) => s.child.None? && !s.shutReq && (auto ==> !s.stopReq)
    case Spawned(cfg, auto, c) => s.child.None? && c + 1 == s.next && c !in s.mon && c !in s.reaped
    case Recording(c) => s.child == Some(c) && c !in s.mon
    case Watching(c) => s.child == Some(c) && c !in s.mon
    case WantGuard(plan, force, c) => Target(s, c)
    case Sealing(plan, force, c) => Target(s, c)
    case SealFailed(plan, c) => Target(s, c) && NoReceipt(c, s.tx) in s.log
    case CheckReaped(plan, c) => Receipted(s, c)
    case Terminate(plan, c) => Receipted(s, c)
    case AwaitTerm(plan, c) => Receipted(s, c)
    case Kill(plan, c) => Receipted(s, c)
    case AwaitKill(plan, c) => Receipted(s, c)
    case StopFailed(plan, c) => Receipted(s, c)
    case StopDone(plan, stopped) => s.child.None? && (stopped.Some? ==> s.pidfile.None? && stopped.value in s.reaped)
    case StopRaise(plan) => !s.stopping
    case _ => true
  }

  ghost predicate FlagsOk(s: State) {
    && (s.starting <==> s.life.Spawning? || s.life.Spawned?)
    && (s.stopping ==> Holding(s.life) && s.child == Some(s.life.c))
    && (s.guard.ByStop? <==> s.life.Sealing?)
    && (s.guard.ByMonitor? ==> s.guard.c in s.mon && s.mon[s.guard.c].HasSeal?)
    && (ShutdownReturned in s.log ==>
         s.shutReq && s.child.None? && (s.life.Free? || s.life.StartEnter? || s.life.ShutEnter? || s.life.StopEnter? || s.life.StopDone?))
    && (InShutdown(s.life) ==> s.shutReq)
    && (s.shutReq ==> !s.life.Recording? && !s.life.Watching? && !s.life.Spawned?)
  }

  ghost predicate MonOk(s: State, c: Cid)
    requires c in s.mon
  {
    var m := s.mon[c];
    && c < s.next
    && (Late(m) <==> s.child != Some(c))
    && (m.Closing? || m.Ended? <==> c in s.reaped)
    && (!m.Waiting? ==> c !in s.alive)
    && (m.HasSeal? ==> s.guard == ByMonitor(c))
    && (m.Clearing? ==> Accounted(s.log, c))
    && (Late(m) && !m.Unrecord? ==> s.pidfile != Some(c))
  }

  ghost predicate ChildrenOk(s: State) {
    && (forall c :: c in s.mon ==> MonOk(s, c))
    && (forall c :: c in s.reaped ==> c in s.mon)
    && (s.child.Some? ==> (s.child.value in s.mon || s.life == Recording(s.child.value) || s.life == Watching(s.child.value)))
    && (forall c :: c in s.alive ==> c < s.next && (s.child == Some(c) || (s.life.Spawned? && s.life.c == c)))
  }

  /** The pid file names no reaped generation, and none but the newest once that is recorded. */
  ghost predicate RecordOk(s: State) {
    && (s.child.Some? ==> s.child.value + 1 == s.next)
    && (Holding(s.life) ==> s.life.c + 1 == s.next)
    && (s.pidfile.Some? ==>
         s.pidfile.value !in s.reaped && (s.pidfile.value + 1 == s.next || s.life.Spawned? || s.life.Recording?))
  }

  ghost predicate LogOk(s: State) {
    && History(s.log)
    && (s.stopReq <==> Latched(s.log))
    && s.alive == Running(s.log)
    && DurableOk(s.durable, s.log) && ReceiptsOk(s.log, s.tx, Unsealed(s.life))
  }

  /** Durable are exactly the generations with a receipt in the log. */
  ghost predicate DurableOk(durable: set<Cid>, log: seq<Event>) {
    forall c: nat :: c in durable <==> HasStop(log, c) || CrashReceipt(c) in log
  }

  /** No receipt is of a later transaction, and none of this one before it seals. */
  ghost predicate ReceiptsOk(log: seq<Event>, now: nat, unsealed: bool) {
    forall c: nat, tx: nat :: StopReceipt(c, tx) in log || NoReceipt(c, tx) in log ==> tx <= now && (unsealed ==> tx < now)
  }

  ghost predicate Inv(s: State) {
    LifeOk(s) && FlagsOk(s) && ChildrenOk(s) && RecordOk(s) && LogOk(s)
  }

  lemma BootOk(autoRestart: bool, adopt: bool, cfg: Cfg)
    ensures Inv(Boot(autoRestart, adopt, cfg))
  {
    if adopt { AdoptedOk(); }
  }

  lemma AdoptedOk()
    ensures History([Adopted(0)]) && Running([Adopted(0)]) == {0} && !Latched([Adopted(0)])
  {
    HistorySnoc([], Adopted(0));
    assert [] + [Adopted(0)] == [Adopted(0)];
  }

  // ---- what a step leaves alone ----

  /** One more event keeps the history's part of the invariant. */
  lemma LogKeeps(s: State, t: State, e: Event)
    requires LogOk(s) && Backed(s.log, e) && t.log == s.log + [e] && t.tx == s.tx
    requires t.stopReq == ((e.StopLatch? || e.LatchFail?) || (!e.ClientStart? && s.stopReq))
    requires t.alive == if e.Adopted? || e.Spawn? then s.alive + {e.c} else if e.Exit? then s.alive - {e.c} else s.alive
    requires t.durable == s.durable + if e.StopReceipt? || e.CrashReceipt? then {e.c} else {}
    requires e.StopReceipt? || e.NoReceipt? ==> e.tx == s.tx && !Unsealed(t.life)
    requires Unsealed(t.life) ==> Unsealed(s.life)
    ensures LogOk(t)
    ensures ShutdownReturned in t.log <==> ShutdownReturned in s.log || e == ShutdownReturned
    ensures Extends(s.log, t.log)
  {
    HistorySnoc(s.log, e);
    DurableSnoc(s.durable, s.log, e);
    ReceiptsSnoc(s.log, s.tx, Unsealed(s.life), Unsealed(t.life), e);
  }

  lemma DurableSnoc(durable: set<Cid>, log: seq<Event>, e: Event)
    requires DurableOk(durable, log)
    ensures DurableOk(durable + if e.StopReceipt? || e.CrashReceipt? then {e.c} else {}, log + [e])
  {
    forall c: nat ensures HasStop(log + [e], c) <==> HasStop(log, c) || (e.StopReceipt? && e.c == c) { HasStopSnoc(log, e, c); }
  }

  lemma ReceiptsSnoc(log: seq<Event>, now: nat, was: bool, is_: bool, e: Event)
    requires ReceiptsOk(log, now, was) && (is_ ==> was)
    requires e.StopReceipt? || e.NoReceipt? ==> e.tx == now && !is_
    ensures ReceiptsOk(log + [e], now, is_)
  {
  }

  lemma HasStopSnoc(log: seq<Event>, e: Event, c: Cid)
    ensures HasStop(log + [e], c) <==> HasStop(log, c) || (e.StopReceipt? && e.c == c)
  {
    if HasStop(log, c) {
      var tx :| StopReceipt(c, tx) in log;
      assert StopReceipt(c, tx) in log + [e];
    }
    if e.StopReceipt? { assert e in log + [e]; }
  }

  /** No event: the history's part is kept. */
  lemma QuietKeeps(s: State, t: State)
    requires LogOk(s) && t.log == s.log && t.tx == s.tx && t.stopReq == s.stopReq && t.alive == s.alive && t.durable == s.durable
    requires Unsealed(t.life) ==> Unsealed(s.life)
    ensures LogOk(t)
  {
  }

  ghost predicate Extends(a: seq<Event>, b: seq<Event>) { |a| <= |b| && b[..|a|] == a }

  lemma AccountedStays(a: seq<Event>, b: seq<Event>, c: Cid)
    requires Accounted(a, c) && Extends(a, b)
    ensures Accounted(b, c)
  {
    forall e | e in a ensures e in b {
      var i :| 0 <= i < |a| && a[i] == e;
      assert b[..|a|][i] == e;
    }
    if HasStop(a, c) {
      var tx :| StopReceipt(c, tx) in a;
      assert StopReceipt(c, tx) in b;
    }
  }

  /** A step that touches neither the children nor their monitors. */
  lemma ChildrenFrame(s: State, t: State)
    requires ChildrenOk(s) && t.mon == s.mon && t.reaped == s.reaped && t.child == s.child && t.next == s.next
    requires t.alive == s.alive && t.pidfile == s.pidfile && (s.guard.ByMonitor? ==> t.guard == s.guard)
    requires Extends(s.log, t.log) && !s.life.Spawned? && !s.life.Recording? && !s.life.Watching?
    ensures ChildrenOk(t)
  {
    forall c | c in t.mon ensures MonOk(t, c) {
      assert MonOk(s, c);
      if Accounted(s.log, c) { AccountedStays(s.log, t.log, c); }
    }
  }

  /** A step that leaves the pid file and the generations, and takes no other child in hand. */
  lemma RecordFrame(s: State, t: State)
    requires RecordOk(s) && t.child == s.child && t.next == s.next && t.pidfile == s.pidfile && t.reaped == s.reaped
    requires !s.life.Spawned? && !s.life.Recording?
    requires Holding(t.life) ==> t.child == Some(t.life.c) || (Holding(s.life) && t.life.c == s.life.c)
    ensures RecordOk(t)
  {
  }

  /** Both: a step of a start before its spawn, or of a stop. */
  lemma LifeFrame(s: State, t: State)
    requires Inv(s) && LogOk(t) && LifeOk(t) && FlagsOk(t)
    requires t.mon == s.mon && t.reaped == s.reaped && t.child == s.child && t.next == s.next
    requires t.alive == s.alive && t.pidfile == s.pidfile && (s.guard.ByMonitor? ==> t.guard == s.guard)
    requires Extends(s.log, t.log) && !s.life.Spawned? && !s.life.Recording? && !s.life.Watching?
    requires Holding(t.life) ==> t.child == Some(t.life.c) || (Holding(s.life) && t.life.c == s.life.c)
    ensures Inv(t)
  {
    ChildrenFrame(s, t);
    RecordFrame(s, t);
  }

  /** Only the monitor of `c` moves. */
  ghost predicate MovesOnly(s: State, t: State, c: Cid) {
    && c in s.mon && c in t.mon && t == t.(mon := s.mon[c := t.mon[c]])
    && t.life == s.life && t.tx == s.tx && t.next == s.next && t.alive == s.alive && t.starting == s.starting && t.shutReq == s.shutReq
  }

  /** A monitor's step that does not clear the child: the other generations are as before. */
  lemma OthersFrame(s: State, t: State, c: Cid)
    requires ChildrenOk(s) && MovesOnly(s, t, c) && t.child == s.child && MonOk(t, c)
    requires t.reaped == s.reaped || t.reaped == s.reaped + {c}
    requires t.pidfile == s.pidfile || t.pidfile.None?
    requires (s.guard.ByMonitor? && s.guard.c != c ==> t.guard == s.guard) && Extends(s.log, t.log)
    ensures ChildrenOk(t)
  {
    forall d | d in t.mon ensures MonOk(t, d) {
      if d != c {
        assert MonOk(s, d);
        if Accounted(s.log, d) { AccountedStays(s.log, t.log, d); }
      }
    }
  }

  /** ... and the holder of the lifecycle lock is where it was. */
  lemma HolderFrame(s: State, t: State, c: Cid, e: Event)
    requires LifeOk(s) && FlagsOk(s) && MovesOnly(s, t, c) && MonOk(s, c) && t.child == s.child && t.stopping == s.stopping
    requires (Late(s.mon[c]) ==> Late(t.mon[c])) && (t.stopReq == s.stopReq || s.life.Spawning? == false)
    requires t.reaped == s.reaped || t.reaped == s.reaped + {c}
    requires t.pidfile == s.pidfile || t.pidfile.None?
    requires t.log == s.log || (t.log == s.log + [e] && !e.NoReceipt?)
    ensures LifeOk(t)
  {
  }

  // ---- steps of the holder ----

  lemma BeginKeeps(s: State, t: State, call: Call)
    requires Inv(s) && Next(s, Begin(call)) == Some(t)
    ensures Inv(t)
  {
    BegunLog(s, t);
    LifeFrame(s, t);
  }

  /** A new transaction: all receipts so far are of older ones. */
  lemma BegunLog(s: State, t: State)
    requires LogOk(s) && t.log == s.log && t.tx == s.tx + 1 && t.stopReq == s.stopReq && t.alive == s.alive && t.durable == s.durable
    ensures LogOk(t)
  {
  }

  lemma BeginAutoKeeps(s: State, t: State)
    requires Inv(s) && Next(s, BeginAuto) == Some(t)
    ensures Inv(t)
  {
    BegunLog(s, t);
    LifeFrame(s, t);
  }

  lemma DieKeeps(s: State, t: State, c: Cid)
    requires Inv(s) && Next(s, Die(c)) == Some(t)
    ensures Inv(t)
  {
    LogKeeps(s, t, Exit(c));
    DeadLife(s, t, c);
    forall d | d in t.mon ensures MonOk(t, d) {
      assert MonOk(s, d);
      if Accounted(s.log, d) { AccountedStays(s.log, t.log, d); }
    }
  }

  lemma DeadLife(s: State, t: State, c: Cid)
    requires LifeOk(s) && FlagsOk(s) && t == Log(s, Exit(c)).(alive := s.alive - {c})
    requires ShutdownReturned in t.log <==> ShutdownReturned in s.log
    ensures LifeOk(t) && FlagsOk(t)
  {
  }

  /** An explicit client start clears the latch. */
  lemma ClearLatchKeeps(s: State, t: State)
    requires Inv(s) && s.life.StartEnter? && !s.shutReq && t == Log(s, ClientStart).(stopReq := false)
    ensures Inv(t)
  {
    LogKeeps(s, t, ClientStart);
    LifeFrame(s, t);
  }

  lemma RejectKeeps(s: State, t: State)
    requires Inv(s) && s.life.StartEnter? && t == s.(life := Free)
    ensures Inv(t)
  {
    QuietKeeps(s, t);
    LifeFrame(s, t);
  }

  lemma AdmitKeeps(s: State, t: State, cfg: Cfg, auto: bool)
    requires Inv(s) && s.life == StartEnter(cfg, auto) && !s.shutReq && (auto ==> !s.stopReq) && s.child.None?
    requires t == s.(life := Spawning(cfg, auto), starting := true)
    ensures Inv(t)
  {
    QuietKeeps(s, t);
    LifeFrame(s, t);
  }

  /** The gate never waits, and lets a spawn through only when no child is visible: the two states the
      gate would wait in or fall through from, a spawn in flight and a child being stopped, exist
      only inside another lifecycle transaction. */
  lemma GateNeverWaits(s: State)
    requires Inv(s) && (s.life.StartEnter? || s.life.StopEnter?)
    ensures !s.starting && !s.stopping
  {
  }

  lemma EnterStartKeeps(s: State, t: State, cfg: Cfg, auto: bool)
    requires Inv(s) && s.life == StartEnter(cfg, auto)
    ensures EnterStart(s, cfg, auto).Some? && (EnterStart(s, cfg, auto) == Some(t) ==> Inv(t))
  {
    GateNeverWaits(s);
    if EnterStart(s, cfg, auto) == Some(t) {
      if s.shutReq || (auto && s.stopReq) {
        RejectKeeps(s, t);
      } else {
        var u := if auto then s else Log(s, ClientStart).(stopReq := false);
        if !auto { ClearLatchKeeps(s, u); }
        if u.child.Some? { RejectKeeps(u, t); } else { AdmitKeeps(u, t, cfg, auto); }
      }
    }
  }

  lemma SpawnKeeps(s: State, t: State, cfg: Cfg, auto: bool, ok: bool)
    requires Inv(s) && s.life == Spawning(cfg, auto) && t == SpawnStep(s, cfg, auto, ok)
    ensures Inv(t)
  {
    if ok {
      assert s.alive == {};
      LogKeeps(s, t, Spawn(s.next, auto));
      SpawnedChildren(s, t);
    } else {
      QuietKeeps(s, t);
      LifeFrame(s, t);
    }
  }

  lemma SpawnedChildren(s: State, t: State)
    requires ChildrenOk(s) && s.life.Spawning? && s.child.None? && s.alive == {}
    requires t.life.Spawned? && t.life.c == s.next && t.alive == {s.next} && t.next == s.next + 1 && Extends(s.log, t.log)
    requires t.mon == s.mon && t.reaped == s.reaped && t.child == s.child && t.pidfile == s.pidfile && t.guard == s.guard
    ensures ChildrenOk(t) && s.next !in t.mon && s.next !in t.reaped
  {
    forall c | c in t.mon ensures MonOk(t, c) {
      assert MonOk(s, c);
      if Accounted(s.log, c) { AccountedStays(s.log, t.log, c); }
    }
    forall c | c in s.mon ensures c < s.next { assert MonOk(s, c); }
  }

  lemma ChildKeeps(s: State, t: State, ans: Answer)
    requires Inv(s) && s.life.Spawned? && LifeStep(s, ans) == Some(t)
    ensures Inv(t)
  {
    QuietKeeps(s, t);
    forall c | c in t.mon ensures MonOk(t, c) { assert MonOk(s, c); }
  }

  lemma RecordKeeps(s: State, t: State, ans: Answer)
    requires Inv(s) && s.life.Recording? && LifeStep(s, ans) == Some(t)
    ensures Inv(t)
  {
    QuietKeeps(s, t);
    forall c | c in t.mon ensures MonOk(t, c) { assert MonOk(s, c); }
  }

  lemma WatchKeeps(s: State, t: State, ans: Answer)
    requires Inv(s) && s.life.Watching? && LifeStep(s, ans) == Some(t)
    ensures Inv(t)
  {
    QuietKeeps(s, t);
    forall c | c in t.mon ensures MonOk(t, c) { if c in s.mon { assert MonOk(s, c); } }
  }

  /** Publishing, recording and watching the child. */
  lemma PublishKeeps(s: State, t: State, ans: Answer)
    requires Inv(s) && (s.life.Spawned? || s.life.Recording? || s.life.Watching?) && LifeStep(s, ans) == Some(t)
    ensures Inv(t)
  {
    if s.life.Spawned? { ChildKeeps(s, t, ans); }
    else if s.life.Recording? { RecordKeeps(s, t, ans); }
    else { WatchKeeps(s, t, ans); }
  }

  lemma ShutEnterKeeps(s: State, t: State, force: bool)
    requires Inv(s) && s.life == ShutEnter(force) && t == s.(life := StopEnter(Shutdown, force), shutReq := true)
    ensures Inv(t)
  {
    QuietKeeps(s, t);
    LifeFrame(s, t);
  }

  lemma EnterStopKeeps(s: State, t: State, plan: Plan, force: bool)
    requires Inv(s) && s.life == StopEnter(plan, force)
    ensures EnterStop(s, plan, force).Some? && (EnterStop(s, plan, force) == Some(t) ==> Inv(t))
  {
    GateNeverWaits(s);
    if EnterStop(s, plan, force) == Some(t) {
      if s.child.None? { IdleStopKeeps(s, t, plan); } else { BeginStopKeeps(s, t, plan, force, s.child.value); }
    }
  }

  lemma IdleStopKeeps(s: State, t: State, plan: Plan)
    requires Inv(s) && s.life.StopEnter? && s.life.plan == plan && s.child.None? && !s.stopping && !s.starting
    requires t == Log(s, StopLatch(s.tx)).(stopReq := true, life := StopDone(plan, None))
    ensures Inv(t)
  {
    LogKeeps(s, t, StopLatch(s.tx));
    LifeFrame(s, t);
  }

  lemma BeginStopKeeps(s: State, t: State, plan: Plan, force: bool, c: Cid)
    requires Inv(s) && s.life == StopEnter(plan, force) && s.child == Some(c) && !s.starting
    requires t == Log(s, StopLatch(s.tx)).(stopReq := true, life := WantGuard(plan, force, c), stopping := true)
    ensures Inv(t)
  {
    LogKeeps(s, t, StopLatch(s.tx));
    LifeFrame(s, t);
  }

  lemma WantGuardKeeps(s: State, t: State, plan: Plan, force: bool, c: Cid)
    requires Inv(s) && s.life == WantGuard(plan, force, c) && s.guard.NoOne?
    requires t == s.(life := Sealing(plan, force, c), guard := ByStop)
    ensures Inv(t)
  {
    QuietKeeps(s, t);
    LifeFrame(s, t);
  }

  lemma SealedKeeps(s: State, t: State, plan: Plan, force: bool, c: Cid)
    requires Inv(s) && s.life == Sealing(plan, force, c)
    requires t == Log(s, StopReceipt(c, s.tx)).(life := CheckReaped(plan, c), guard := NoOne, durable := s.durable + {c})
    ensures Inv(t)
  {
    LogKeeps(s, t, StopReceipt(c, s.tx));
    LifeFrame(s, t);
  }

  lemma UnsealedKeeps(s: State, t: State, plan: Plan, force: bool, c: Cid)
    requires Inv(s) && s.life == Sealing(plan, force, c)
    requires t == Log(s, NoReceipt(c, s.tx)).(life := SealFailed(plan, c), guard := NoOne)
    ensures Inv(t)
  {
    LogKeeps(s, t, NoReceipt(c, s.tx));
    LifeFrame(s, t);
  }

  /** Prepare and persist end with a receipt of this stop, or without one, under the guard. */
  lemma SealKeeps(s: State, t: State, plan: Plan, force: bool, c: Cid, ans: Answer)
    requires Inv(s) && s.life == Sealing(plan, force, c) && ans.Engine? && t == SealStep(s, plan, force, c, ans)
    ensures Inv(t)
  {
    if t.life.CheckReaped? { SealedKeeps(s, t, plan, force, c); } else { UnsealedKeeps(s, t, plan, force, c); }
  }

  lemma SignalKeeps(s: State, t: State, plan: Plan, c: Cid, kill: bool, ok: bool)
    requires Inv(s) && s.life == (if kill then Kill(plan, c) else Terminate(plan, c)) && t == SignalStep(s, plan, c, kill, ok)
    ensures Inv(t)
  {
    LogKeeps(s, t, Signal(c, s.tx, kill));
    SignalledLife(s, t, plan, c, kill);
    LifeFrame(s, t);
  }

  lemma SignalledLife(s: State, t: State, plan: Plan, c: Cid, kill: bool)
    requires LifeOk(s) && FlagsOk(s) && s.life == (if kill then Kill(plan, c) else Terminate(plan, c))
    requires t.life == StopFailed(plan, c) || t.life == AwaitKill(plan, c) || t.life == AwaitTerm(plan, c)
    requires t == Log(s, Signal(c, s.tx, kill)).(life := t.life) && (ShutdownReturned in t.log <==> ShutdownReturned in s.log)
    ensures LifeOk(t) && FlagsOk(t)
  {
  }

  /** Looking at the reaped event. */
  lemma MoveKeeps(s: State, t: State)
    requires Inv(s) && IsWait(s.life) && t == s.(life := t.life)
    requires if s.life.c in s.reaped then t.life == StopDone(s.life.plan, Some(s.life.c))
      else t.life == Terminate(s.life.plan, s.life.c) || t.life == Kill(s.life.plan, s.life.c) || t.life == StopFailed(s.life.plan, s.life.c)
    ensures Inv(t)
  {
    QuietKeeps(s, t);
    if s.life.c in s.reaped { assert MonOk(s, s.life.c); }
    LifeFrame(s, t);
  }

  lemma GiveUpKeeps(s: State, t: State, plan: Plan, c: Cid)
    requires Inv(s) && (s.life == SealFailed(plan, c) || s.life == StopFailed(plan, c)) && t == GiveUp(s, plan, c)
    ensures Inv(t)
  {
    QuietKeeps(s, t);
    LifeFrame(s, t);
  }

  lemma FinishKeeps(s: State, t: State, plan: Plan, stopped: Option<Cid>)
    requires Inv(s) && s.life == StopDone(plan, stopped) && t == Finish(s, plan)
    ensures Inv(t)
  {
    assert s.alive == {};
    match plan
    case JustStop => ReturnKeeps(s, t, plan, stopped, Free);
    case ThenStart(cfg) => ReturnKeeps(s, t, plan, stopped, StartEnter(cfg, false));
    case Shutdown => ShutdownKeeps(s, t, stopped);
  }

  lemma ShutdownKeeps(s: State, t: State, stopped: Option<Cid>)
    requires Inv(s) && s.life == StopDone(Shutdown, stopped) && s.alive == {} && t == Finish(s, Shutdown)
    ensures Inv(t)
  {
    LogKeeps(s, t, ShutdownReturned);
    ShutLife(s, t);
    LifeFrame(s, t);
  }

  lemma ShutLife(s: State, t: State)
    requires LifeOk(s) && FlagsOk(s) && s.life.StopDone? && s.life.plan.Shutdown? && t == s.(life := Free, log := t.log)
    ensures LifeOk(t) && FlagsOk(t)
  {
  }

  lemma ReturnKeeps(s: State, t: State, plan: Plan, stopped: Option<Cid>, life: Life)
    requires Inv(s) && s.life == StopDone(plan, stopped) && s.alive == {} && (life.Free? || life.StartEnter?)
    requires t == Log(s, StopReturned(s.tx)).(life := life)
    ensures Inv(t)
  {
    LogKeeps(s, t, StopReturned(s.tx));
    EndedLife(s, t);
    LifeFrame(s, t);
  }

  /** Behind a stop, returned or raised, the lock is free or the start of a switch follows. */
  lemma EndedLife(s: State, t: State)
    requires FlagsOk(s) && (s.life.StopDone? || s.life.StopRaise?) && !s.stopping && (t.life.Free? || t.life.StartEnter?)
    requires t == s.(life := t.life, log := t.log, shutReq := t.shutReq)
    requires t.shutReq == s.shutReq || (s.life.StopRaise? && !t.shutReq)
    requires ShutdownReturned in t.log <==> ShutdownReturned in s.log
    ensures LifeOk(t) && FlagsOk(t)
  {
  }

  lemma RaiseKeeps(s: State, t: State, plan: Plan)
    requires Inv(s) && s.life == StopRaise(plan) && t == Raise(s, plan)
    ensures Inv(t)
  {
    if plan.Shutdown? { ReopenKeeps(s, t); } else { RaisedKeeps(s, t, plan); }
  }

  lemma ReopenKeeps(s: State, t: State)
    requires Inv(s) && s.life == StopRaise(Shutdown) && t == Log(s, ShutdownRaised).(life := Free, shutReq := false)
    ensures Inv(t)
  {
    LogKeeps(s, t, ShutdownRaised);
    EndedLife(s, t);
    LifeFrame(s, t);
  }

  lemma RaisedKeeps(s: State, t: State, plan: Plan)
    requires Inv(s) && s.life == StopRaise(plan) && t == Log(s, StopRaised(s.tx)).(life := Free)
    ensures Inv(t)
  {
    LogKeeps(s, t, StopRaised(s.tx));
    EndedLife(s, t);
    LifeFrame(s, t);
  }

  // ---- monitor steps ----

  /** A monitor's step that neither clears the child nor holds or frees the guard. */
  lemma MonMoveKeeps(s: State, t: State, c: Cid)
    requires Inv(s) && MovesOnly(s, t, c) && t == s.(mon := t.mon) && MonOk(t, c)
    requires !s.mon[c].HasSeal? && (Late(s.mon[c]) ==> Late(t.mon[c]))
    ensures Inv(t)
  {
    QuietKeeps(s, t);
    OthersFrame(s, t, c);
    HolderFrame(s, t, c, ClientStart);
  }

  lemma WantSealKeeps(s: State, t: State, c: Cid, was: bool)
    requires Inv(s) && c in s.mon && s.mon[c] == WantSeal(was) && s.guard.NoOne?
    requires t == s.(guard := ByMonitor(c), mon := s.mon[c := HasSeal(was)])
    ensures Inv(t)
  {
    QuietKeeps(s, t);
    assert MonOk(s, c);
    OthersFrame(s, t, c);
    HolderFrame(s, t, c, ClientStart);
  }

  lemma CrashWrittenKeeps(s: State, t: State, c: Cid, was: bool)
    requires Inv(s) && c in s.mon && s.mon[c] == HasSeal(was) && c !in s.durable
    requires t == Log(s, CrashReceipt(c)).(guard := NoOne, durable := s.durable + {c}, mon := s.mon[c := Clearing(was)])
    ensures Inv(t)
  {
    assert MonOk(s, c);
    LogKeeps(s, t, CrashReceipt(c));
    OthersFrame(s, t, c);
    HolderFrame(s, t, c, CrashReceipt(c));
  }

  lemma CrashReleaseKeeps(s: State, t: State, c: Cid, was: bool, m: Mon)
    requires Inv(s) && c in s.mon && s.mon[c] == HasSeal(was) && t == s.(guard := NoOne, mon := s.mon[c := m])
    requires m == Latching(was) || m == Crashed || (m == Clearing(was) && c in s.durable)
    ensures Inv(t)
  {
    QuietKeeps(s, t);
    assert MonOk(s, c);
    OthersFrame(s, t, c);
    HolderFrame(s, t, c, ClientStart);
  }

  lemma CrashKeeps(s: State, t: State, c: Cid, was: bool, out: Answer)
    requires Inv(s) && c in s.mon && s.mon[c] == HasSeal(was) && t == CrashStep(s, c, was, out)
    ensures Inv(t)
  {
    if c in s.durable {
      CrashReleaseKeeps(s, t, c, was, Clearing(was));
    } else if out.Good? {
      CrashWrittenKeeps(s, t, c, was);
    } else {
      CrashReleaseKeeps(s, t, c, was, if out.Raw? then Crashed else Latching(was));
    }
  }

  lemma LatchKeeps(s: State, t: State, c: Cid, was: bool)
    requires Inv(s) && c in s.mon && s.mon[c] == Latching(was)
    requires t == Log(s, LatchFail(c)).(stopReq := true, mon := s.mon[c := Clearing(was)])
    ensures Inv(t)
  {
    assert MonOk(s, c);
    LogKeeps(s, t, LatchFail(c));
    OthersFrame(s, t, c);
    HolderFrame(s, t, c, LatchFail(c));
  }

  /** Only a generation's own monitor clears it, when it has exited and is accounted for. */
  lemma ForgetKeeps(s: State, t: State, c: Cid, was: bool)
    requires Inv(s) && c in s.mon && s.mon[c] == Clearing(was)
    requires t == Log(s, Forget(c)).(child := None, stopping := false, mon := s.mon[c := Unrecord(was)])
    ensures s.child == Some(c) && Accounted(s.log, c) && Inv(t)
  {
    assert MonOk(s, c);
    LogKeeps(s, t, Forget(c));
    ForgottenChildren(s, t, c);
    ForgottenLife(s, t, c);
  }

  lemma ForgottenChildren(s: State, t: State, c: Cid)
    requires ChildrenOk(s) && FlagsOk(s) && MovesOnly(s, t, c) && s.child == Some(c) && t.child.None? && t.mon[c].Unrecord?
    requires !s.mon[c].HasSeal? && c !in s.alive && c !in s.reaped && t.guard == s.guard && t.reaped == s.reaped && t.pidfile == s.pidfile
    requires Extends(s.log, t.log) && !s.life.Spawned?
    ensures ChildrenOk(t)
  {
    assert MonOk(s, c);
    forall d | d in t.mon ensures MonOk(t, d) {
      if d != c {
        assert MonOk(s, d);
        if Accounted(s.log, d) { AccountedStays(s.log, t.log, d); }
      }
    }
  }

  lemma ForgottenLife(s: State, t: State, c: Cid)
    requires LifeOk(s) && FlagsOk(s) && c in s.mon && !s.mon[c].HasSeal? && s.child == Some(c)
    requires t == Log(s, Forget(c)).(child := None, stopping := false, mon := t.mon) && (exists was :: t.mon == s.mon[c := Unrecord(was)])
    requires ShutdownReturned in t.log <==> ShutdownReturned in s.log
    ensures LifeOk(t) && FlagsOk(t)
  {
  }

  lemma UnrecordKeeps(s: State, t: State, c: Cid, was: bool)
    requires Inv(s) && c in s.mon && s.mon[c] == Unrecord(was) && t == s.(pidfile := None, mon := s.mon[c := Announce(was)])
    ensures Inv(t)
  {
    QuietKeeps(s, t);
    assert MonOk(s, c);
    OthersFrame(s, t, c);
    HolderFrame(s, t, c, ClientStart);
  }

  lemma AnnounceKeeps(s: State, t: State, c: Cid, was: bool)
    requires Inv(s) && c in s.mon && s.mon[c] == Announce(was) && t == s.(reaped := s.reaped + {c}, mon := s.mon[c := Closing(was)])
    ensures Inv(t)
  {
    QuietKeeps(s, t);
    assert MonOk(s, c);
    OthersFrame(s, t, c);
    HolderFrame(s, t, c, ClientStart);
  }

  lemma CloseKeeps(s: State, t: State, c: Cid, was: bool)
    requires Inv(s) && c in s.mon && s.mon[c] == Closing(was) && MonStep(s, c, Closing(was), Good) == Some(t)
    ensures Inv(t)
  {
    QuietKeeps(s, t);
    assert MonOk(s, c);
    OthersFrame(s, t, c);
    HolderFrame(s, t, c, ClientStart);
  }

  // ---- every run ----

  lemma StartingKeeps(s: State, t: State, ans: Answer)
    requires Inv(s) && IsStart(s.life) && LifeStep(s, ans) == Some(t)
    ensures Inv(t)
  {
    match s.life
    case StartEnter(cfg, auto) => EnterStartKeeps(s, t, cfg, auto);
    case Spawning(cfg, auto) => SpawnKeeps(s, t, cfg, auto, ans.Good?);
    case _ => PublishKeeps(s, t, ans);
  }

  lemma StopHeadKeeps(s: State, t: State, ans: Answer)
    requires Inv(s) && Unsealed(s.life) && StopStep(s, ans) == Some(t)
    ensures Inv(t)
  {
    match s.life
    case ShutEnter(force) => ShutEnterKeeps(s, t, force);
    case StopEnter(plan, force) => EnterStopKeeps(s, t, plan, force);
    case WantGuard(plan, force, c) => WantGuardKeeps(s, t, plan, force, c);
    case Sealing(plan, force, c) => SealKeeps(s, t, plan, force, c, ans);
  }

  lemma StopTailKeeps(s: State, t: State, ans: Answer)
    requires Inv(s) && IsTail(s.life) && StopStep(s, ans) == Some(t)
    ensures Inv(t)
  {
    match s.life
    case Terminate(plan, c) => SignalKeeps(s, t, plan, c, false, ans.Good?);
    case Kill(plan, c) => SignalKeeps(s, t, plan, c, true, ans.Good?);
    case SealFailed(plan, c) => GiveUpKeeps(s, t, plan, c);
    case StopFailed(plan, c) => GiveUpKeeps(s, t, plan, c);
    case StopDone(plan, stopped) => FinishKeeps(s, t, plan, stopped);
    case StopRaise(plan) => RaiseKeeps(s, t, plan);
  }

  lemma StopKeeps(s: State, t: State, ans: Answer)
    requires Inv(s) && StopStep(s, ans) == Some(t)
    ensures Inv(t)
  {
    if Unsealed(s.life) {
      StopHeadKeeps(s, t, ans);
    } else if IsWait(s.life) {
      MoveKeeps(s, t);
    } else {
      StopTailKeeps(s, t, ans);
    }
  }

  lemma LifeKeeps(s: State, t: State, ans: Answer)
    requires Inv(s) && LifeStep(s, ans) == Some(t)
    ensures Inv(t)
  {
    if IsStart(s.life) { StartingKeeps(s, t, ans); } else { StopKeeps(s, t, ans); }
  }

  lemma MonHeadKeeps(s: State, t: State, c: Cid, out: Answer)
    requires Inv(s) && c in s.mon && (s.mon[c].Waiting? || s.mon[c].Seen? || s.mon[c].WantSeal? || s.mon[c].HasSeal? || s.mon[c].Latching?)
    requires MonStep(s, c, s.mon[c], out) == Some(t)
    ensures Inv(t)
  {
    assert MonOk(s, c);
    match s.mon[c]
    case Waiting => MonMoveKeeps(s, t, c);
    case Seen => MonMoveKeeps(s, t, c);
    case WantSeal(was) => WantSealKeeps(s, t, c, was);
    case HasSeal(was) => CrashKeeps(s, t, c, was, out);
    case Latching(was) => LatchKeeps(s, t, c, was);
  }

  lemma MonTailKeeps(s: State, t: State, c: Cid, out: Answer)
    requires Inv(s) && c in s.mon && (s.mon[c].Clearing? || s.mon[c].Unrecord? || s.mon[c].Announce? || s.mon[c].Closing?)
    requires MonStep(s, c, s.mon[c], out) == Some(t)
    ensures Inv(t)
  {
    assert MonOk(s, c);
    match s.mon[c]
    case Clearing(was) => ForgetKeeps(s, t, c, was);
    case Unrecord(was) => UnrecordKeeps(s, t, c, was);
    case Announce(was) => AnnounceKeeps(s, t, c, was);
    case Closing(was) => CloseKeeps(s, t, c, was);
  }

  lemma MonKeeps(s: State, t: State, c: Cid, out: Answer)
    requires Inv(s) && c in s.mon && MonStep(s, c, s.mon[c], out) == Some(t)
    ensures Inv(t)
  {
    if s.mon[c].Clearing? || s.mon[c].Unrecord? || s.mon[c].Announce? || s.mon[c].Closing? {
      MonTailKeeps(s, t, c, out);
    } else {
      MonHeadKeeps(s, t, c, out);
    }
  }

  lemma NextKeeps(s: State, a: Action, t: State)
    requires Inv(s) && Next(s, a) == Some(t)
    ensures Inv(t)
  {
    match a
    case Begin(call) => BeginKeeps(s, t, call);
    case BeginAuto => BeginAutoKeeps(s, t);
    case Die(c) => DieKeeps(s, t, c);
    case Go(ans) => LifeKeeps(s, t, ans);
    case Watch(c, out) => MonKeeps(s, t, c, out);
  }

  /** MAIN: the invariant holds along every run. */
  lemma {:induction false} RunKeeps(s: State, actions: seq<Action>)
    requires Inv(s) && Run(s, actions).Some?
    ensures Inv(Run(s, actions).value)
    decreases |actions|
  {
    if actions != [] {
      NextKeeps(s, actions[0], Next(s, actions[0]).value);
      RunKeeps(Next(s, actions[0]).value, actions[1..]);
    }
  }
}
