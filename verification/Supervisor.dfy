/**
  The crash supervisor (scripts/softcodesolution-crash-supervisor.js).

  A State holds the script's module-level variables together with what the operating system and the event
  loop hold for it: the processes spawned so far (a process is named by its position in `procs`), the armed
  timers, and the health requests still in flight.  Every callback of the script is one step.
 */
module Supervisor {
  import opened Common

  /** `maxOutstanding` bounds how many health requests the timings allow to be in flight at once. */
  datatype Config = Config(initial: int, max: int, maxFailures: int, maxOutstanding: nat)

  predicate ValidConfig(cfg: Config) {
    0 <= cfg.initial <= cfg.max && 1 <= cfg.maxFailures
  }

  datatype Status = Starting | Running | Exited | FailedToStart

  /** `awaited`: restartChild has put its own listener on this process's next exit. */
  datatype Proc = Proc(status: Status, awaited: bool)

  datatype State = State(
    child: Option<nat>, stopping: bool, restarting: bool, backoff: int, healthFailures: nat,
    healthTimer: bool, restartTimer: Option<int>, outstanding: nat, procs: seq<Proc>)

  datatype Event =
    | Spawned(p: nat)
    | SpawnError(p: nat)
    | Exit(p: nat)
    | HealthTick
    | HealthResult(healthy: bool)
    | RestartTimer
    | Signal

  // ---------------------------------------------------------------- the callbacks on values

  predicate Alive(proc: Proc) {
    proc.status.Starting? || proc.status.Running?
  }

  /** `child && child.exitCode === null`, for a child that exists. */
  predicate ChildUp(s: State) {
    s.child.Some? && s.child.value < |s.procs| && Alive(s.procs[s.child.value])
  }

  function ScheduleRestart(s: State): State {
    if s.stopping || s.restartTimer.Some? then s else s.(restartTimer := Some(s.backoff))
  }

  function SpawnApplication(s: State): State {
    if s.stopping || s.restarting then s
    else s.(restarting := true, healthFailures := 0, child := Some(|s.procs|),
            procs := s.procs + [Proc(Starting, false)])
  }

  function RestartChild(s: State): State {
    if s.stopping || s.restarting then s
    else
      var s1 := s.(restarting := true, healthTimer := false, child := None);
      if s.child.None? then ScheduleRestart(s1.(restarting := false))
      else if s.child.value < |s.procs| then
        s1.(procs := s.procs[s.child.value := s.procs[s.child.value].(awaited := true)])
      else s1
  }

  function OnSpawned(cfg: Config, s: State, p: nat): State
    requires p < |s.procs|
  {
    s.(procs := s.procs[p := s.procs[p].(status := Running)],
       restarting := false, backoff := cfg.initial, healthTimer := true)
  }

  function OnSpawnError(s: State, p: nat): State
    requires p < |s.procs|
  {
    ScheduleRestart(s.(procs := s.procs[p := s.procs[p].(status := FailedToStart)], restarting := false))
  }

  /** The exit listener of spawnApplication, then, if restartChild added one, its listener. */
  function OnExit(s: State, p: nat): State
    requires p < |s.procs|
  {
    var s1 := s.(procs := s.procs[p := s.procs[p].(status := Exited)], healthTimer := false, child := None);
    var s2 := if s.stopping then s1 else ScheduleRestart(s1);
    if s.procs[p].awaited then ScheduleRestart(s2.(restarting := false)) else s2
  }

  function OnHealthTick(s: State): State {
    if s.stopping || !ChildUp(s) then s else s.(outstanding := s.outstanding + 1)
  }

  function OnHealthResult(cfg: Config, s: State, healthy: bool): State
    requires s.outstanding > 0
  {
    var s1 := s.(outstanding := s.outstanding - 1);
    if healthy then s1.(healthFailures := 0, backoff := cfg.initial)
    else
      var s2 := s1.(healthFailures := s.healthFailures + 1);
      if s2.healthFailures >= cfg.maxFailures then RestartChild(s2) else s2
  }

  function Min(a: int, b: int): int {
    if a < b then a else b
  }

  function OnRestartTimer(cfg: Config, s: State): State {
    var s1 := s.(restartTimer := None);
    if s.stopping then s1
    else
      var s2 := SpawnApplication(s1);
      s2.(backoff := Min(s2.backoff * 2, cfg.max))
  }

  function OnSignal(s: State): State {
    if s.stopping then s else s.(stopping := true, healthTimer := false, restartTimer := None)
  }

  // ---------------------------------------------------------------- the script itself

  /** The module-level variables, driven by the runtime.  `trace` holds the events delivered so far. */
  class Script {
    const cfg: Config
    var child: Option<nat>
    var stopping: bool
    var restarting: bool
    var backoff: int
    var healthFailures: nat
    var healthTimer: bool
    var restartTimer: Option<int>
    var outstanding: nat
    var procs: seq<Proc>
    ghost var trace: seq<Event>

    function Now(): State
      reads this
    {
      State(child, stopping, restarting, backoff, healthFailures, healthTimer, restartTimer, outstanding, procs)
    }

    /** The variables are where the run of the events so far leads, so whatever holds of runs holds of them. */
    ghost predicate Valid()
      reads this
    {
      After(cfg, trace) == Some(Now())
    }

    constructor (cfg: Config)
      ensures this.cfg == cfg && Now() == Boot(cfg) && trace == [] && Valid()
    {
      this.cfg := cfg;
      child, stopping, restarting := None, false, false;
      backoff, healthFailures, healthTimer, restartTimer := cfg.initial, 0, false, None;
      outstanding, procs, trace := 0, [], [];
      new;
      Spawn();
    }

    method Spawn()
      modifies this
      ensures Now() == SpawnApplication(old(Now())) && trace == old(trace)
    {
      if stopping || restarting {
        return;
      }
      restarting := true;
      healthFailures := 0;
      child := Some(|procs|);
      procs := procs + [Proc(Starting, false)];
    }

    method Schedule()
      modifies this
      ensures Now() == ScheduleRestart(old(Now())) && trace == old(trace)
    {
      if stopping || restartTimer.Some? {
        return;
      }
      restartTimer := Some(backoff);
    }

    method Restart()
      modifies this
      ensures Now() == RestartChild(old(Now())) && trace == old(trace)
    {
      if stopping || restarting {
        return;
      }
      restarting := true;
      healthTimer := false;
      var current := child;
      child := None;
      if current.None? {
        restarting := false;
        Schedule();
        return;
      }
      if current.value < |procs| {
        procs := procs[current.value := procs[current.value].(awaited := true)];
      }
    }

    method SpawnedListener(p: nat)
      requires Valid() && Enabled(cfg, Now(), Spawned(p))
      modifies this
      ensures Now() == OnSpawned(cfg, old(Now()), p)
      ensures Valid() && trace == old(trace) + [Spawned(p)]
    {
      RunGrows(cfg, trace, Spawned(p));
      trace := trace + [Spawned(p)];
      procs := procs[p := procs[p].(status := Running)];
      restarting := false;
      backoff := cfg.initial;
      healthTimer := true;
    }

    method ErrorListener(p: nat)
      requires Valid() && Enabled(cfg, Now(), SpawnError(p))
      modifies this
      ensures Now() == OnSpawnError(old(Now()), p)
      ensures Valid() && trace == old(trace) + [SpawnError(p)]
    {
      RunGrows(cfg, trace, SpawnError(p));
      trace := trace + [SpawnError(p)];
      procs := procs[p := procs[p].(status := FailedToStart)];
      restarting := false;
      Schedule();
    }

    method ExitListeners(p: nat)
      requires Valid() && Enabled(cfg, Now(), Exit(p))
      modifies this
      ensures Now() == OnExit(old(Now()), p)
      ensures Valid() && trace == old(trace) + [Exit(p)]
    {
      RunGrows(cfg, trace, Exit(p));
      trace := trace + [Exit(p)];
      var awaited := procs[p].awaited;
      procs := procs[p := procs[p].(status := Exited)];
      healthTimer := false;
      child := None;
      if !stopping {
        Schedule();
      }
      if awaited {
        restarting := false;
        Schedule();
      }
    }

    method HealthInterval()
      requires Valid() && Enabled(cfg, Now(), HealthTick)
      modifies this
      ensures Now() == OnHealthTick(old(Now()))
      ensures outstanding == old(outstanding) + (if !stopping && child.Some? && child.value < |procs|
          && (procs[child.value].status.Starting? || procs[child.value].status.Running?) then 1 else 0)
      ensures Valid() && trace == old(trace) + [HealthTick]
    {
      RunGrows(cfg, trace, HealthTick);
      trace := trace + [HealthTick];
      if stopping || child.None? || child.value >= |procs| || !Alive(procs[child.value]) {
        return;
      }
      outstanding := outstanding + 1;
    }

    method HealthAnswer(healthy: bool)
      requires Valid() && Enabled(cfg, Now(), HealthResult(healthy))
      modifies this
      ensures Now() == OnHealthResult(cfg, old(Now()), healthy)
      ensures Valid() && trace == old(trace) + [HealthResult(healthy)]
    {
      RunGrows(cfg, trace, HealthResult(healthy));
      trace := trace + [HealthResult(healthy)];
      outstanding := outstanding - 1;
      if healthy {
        healthFailures := 0;
        backoff := cfg.initial;
        return;
      }
      healthFailures := healthFailures + 1;
      if healthFailures >= cfg.maxFailures {
        Restart();
      }
    }

    method RestartTimeout()
      requires Valid() && Enabled(cfg, Now(), RestartTimer)
      modifies this
      ensures Now() == OnRestartTimer(cfg, old(Now()))
      ensures Valid() && trace == old(trace) + [RestartTimer]
    {
      RunGrows(cfg, trace, RestartTimer);
      trace := trace + [RestartTimer];
      restartTimer := None;
      if stopping {
        return;
      }
      Spawn();
      backoff := Min(backoff * 2, cfg.max);
    }

    method Shutdown()
      requires Valid() && Enabled(cfg, Now(), Signal)
      modifies this
      ensures Now() == OnSignal(old(Now()))
      ensures Valid() && trace == old(trace) + [Signal]
    {
      RunGrows(cfg, trace, Signal);
      trace := trace + [Signal];
      if stopping {
        return;
      }
      stopping := true;
      healthTimer := false;
      restartTimer := None;
    }

    /** What the theorems below say about the variables of a driven script. */
    lemma KeepsWatch()
      requires Valid() && ValidConfig(cfg) && cfg.maxOutstanding < cfg.maxFailures
      ensures Inv(cfg, Now()) && Supervised(Now())
    {
      InvReachable(cfg, trace);
      InvSupervised(cfg, Now());
    }
  }

  // ---------------------------------------------------------------- runs

  function Boot(cfg: Config): State {
    SpawnApplication(State(None, false, false, cfg.initial, 0, false, None, 0, []))
  }

  /**
    What the runtime can deliver next.  A process that could not be spawned reports an error and nothing
    else; one that was spawned reports that once and later its exit.
   */
  predicate Enabled(cfg: Config, s: State, e: Event) {
    match e
    case Spawned(p) => p < |s.procs| && s.procs[p].status.Starting?
    case SpawnError(p) => p < |s.procs| && s.procs[p].status.Starting?
    case Exit(p) => p < |s.procs| && s.procs[p].status.Running?
    case HealthTick => s.healthTimer && s.outstanding < cfg.maxOutstanding
    case HealthResult(_) => s.outstanding > 0
    case RestartTimer => s.restartTimer.Some?
    case Signal => true
  }

  function Step(cfg: Config, s: State, e: Event): State
    requires Enabled(cfg, s, e)
  {
    match e
    case Spawned(p) => OnSpawned(cfg, s, p)
    case SpawnError(p) => OnSpawnError(s, p)
    case Exit(p) => OnExit(s, p)
    case HealthTick => OnHealthTick(s)
    case HealthResult(healthy) => OnHealthResult(cfg, s, healthy)
    case RestartTimer => OnRestartTimer(cfg, s)
    case Signal => OnSignal(s)
  }

  /** The state after a run, or None if the runtime cannot deliver these events in this order. */
  function Run(cfg: Config, s: State, events: seq<Event>): Option<State>
    decreases events
  {
    if events == [] then Some(s)
    else if Enabled(cfg, s, events[0]) then Run(cfg, Step(cfg, s, events[0]), events[1..])
    else None
  }

  function After(cfg: Config, events: seq<Event>): Option<State> {
    Run(cfg, Boot(cfg), events)
  }

  function AliveProcs(s: State): set<nat> {
    set p: nat | p < |s.procs| && Alive(s.procs[p])
  }

  /** Never two processes; unless stopping, one process or one armed restart timer, never both, never neither. */
  predicate Supervised(s: State) {
    && |AliveProcs(s)| <= 1
    && (!s.stopping ==> (|AliveProcs(s)| == 1 <==> s.restartTimer.None?))
  }

  // ---------------------------------------------------------------- the inductive invariant

  /** Only the newest process can be alive. */
  predicate OthersDead(s: State) {
    s.procs != [] && forall p :: 0 <= p < |s.procs| - 1 ==> !Alive(s.procs[p])
  }

  function Newest(s: State): Proc
    requires s.procs != []
  {
    s.procs[|s.procs| - 1]
  }

  /** Health answers still to come cannot reach the restart threshold before the next process starts. */
  predicate NoStaleRestart(cfg: Config, s: State) {
    s.healthFailures + s.outstanding <= cfg.maxOutstanding
  }

  predicate IsStarting(cfg: Config, s: State)
    requires s.procs != []
  {
    && Newest(s) == Proc(Starting, false) && s.child == Some(|s.procs| - 1)
    && s.restarting && !s.healthTimer && s.restartTimer.None? && NoStaleRestart(cfg, s)
  }

  predicate IsRunning(cfg: Config, s: State)
    requires s.procs != []
  {
    && Newest(s) == Proc(Running, false) && s.child == Some(|s.procs| - 1)
    && !s.restarting && s.healthTimer && s.restartTimer.None? && s.backoff == cfg.initial
  }

  predicate IsTerminating(cfg: Config, s: State)
    requires s.procs != []
  {
    && Newest(s) == Proc(Running, true) && s.child == None
    && s.restarting && !s.healthTimer && s.restartTimer.None? && s.backoff == cfg.initial
  }

  predicate IsWaiting(cfg: Config, s: State)
    requires s.procs != []
  {
    && !Alive(Newest(s)) && !s.restarting && !s.healthTimer && s.restartTimer.Some?
    && cfg.initial <= s.restartTimer.value <= cfg.max
    && (s.child == None
        || (s.child == Some(|s.procs| - 1) && Newest(s) == Proc(FailedToStart, false) && NoStaleRestart(cfg, s)))
  }

  predicate Inv(cfg: Config, s: State) {
    && OthersDead(s)
    && s.outstanding <= cfg.maxOutstanding
    && cfg.initial <= s.backoff <= cfg.max
    && (if s.stopping then s.restartTimer.None?
        else IsStarting(cfg, s) || IsRunning(cfg, s) || IsTerminating(cfg, s) || IsWaiting(cfg, s))
  }

  lemma InvStep(cfg: Config, s: State, e: Event)
    requires ValidConfig(cfg) && cfg.maxOutstanding < cfg.maxFailures
    requires Inv(cfg, s) && Enabled(cfg, s, e)
    ensures Inv(cfg, Step(cfg, s, e))
  {
    hide Inv, Enabled, Step;
    match e
    case Spawned(p) => InvSpawned(cfg, s, p);
    case SpawnError(p) => InvSpawnError(cfg, s, p);
    case Exit(p) => InvExit(cfg, s, p);
    case HealthTick => InvHealthTick(cfg, s);
    case HealthResult(healthy) => InvHealthResult(cfg, s, healthy);
    case RestartTimer => InvRestartTimer(cfg, s);
    case Signal => InvSignal(cfg, s);
  }

  lemma InvSpawned(cfg: Config, s: State, p: nat)
    requires ValidConfig(cfg) && Inv(cfg, s) && Enabled(cfg, s, Spawned(p))
    ensures Inv(cfg, Step(cfg, s, Spawned(p)))
  {
  }

  lemma InvSpawnError(cfg: Config, s: State, p: nat)
    requires ValidConfig(cfg) && Inv(cfg, s) && Enabled(cfg, s, SpawnError(p))
    ensures Inv(cfg, Step(cfg, s, SpawnError(p)))
  {
  }

  lemma InvExit(cfg: Config, s: State, p: nat)
    requires ValidConfig(cfg) && Inv(cfg, s) && Enabled(cfg, s, Exit(p))
    ensures Inv(cfg, Step(cfg, s, Exit(p)))
  {
  }

  lemma InvHealthTick(cfg: Config, s: State)
    requires ValidConfig(cfg) && Inv(cfg, s) && Enabled(cfg, s, HealthTick)
    ensures Inv(cfg, Step(cfg, s, HealthTick))
  {
  }

  lemma InvHealthResult(cfg: Config, s: State, healthy: bool)
    requires ValidConfig(cfg) && cfg.maxOutstanding < cfg.maxFailures
    requires Inv(cfg, s) && Enabled(cfg, s, HealthResult(healthy))
    ensures Inv(cfg, Step(cfg, s, HealthResult(healthy)))
  {
  }

  lemma InvRestartTimer(cfg: Config, s: State)
    requires ValidConfig(cfg) && Inv(cfg, s) && Enabled(cfg, s, RestartTimer)
    ensures Inv(cfg, Step(cfg, s, RestartTimer))
  {
  }

  lemma InvSignal(cfg: Config, s: State)
    requires ValidConfig(cfg) && Inv(cfg, s)
    ensures Inv(cfg, Step(cfg, s, Signal))
  {
  }

  lemma {:induction false} InvRun(cfg: Config, s: State, events: seq<Event>)
    requires ValidConfig(cfg) && cfg.maxOutstanding < cfg.maxFailures
    requires Inv(cfg, s) && Run(cfg, s, events).Some?
    ensures Inv(cfg, Run(cfg, s, events).value)
    decreases events
  {
    if events != [] {
      InvStep(cfg, s, events[0]);
      InvRun(cfg, Step(cfg, s, events[0]), events[1..]);
    }
  }

  lemma InvReachable(cfg: Config, events: seq<Event>)
    requires ValidConfig(cfg) && cfg.maxOutstanding < cfg.maxFailures
    requires After(cfg, events).Some?
    ensures Inv(cfg, After(cfg, events).value)
  {
    InvRun(cfg, Boot(cfg), events);
  }

  lemma InvSupervised(cfg: Config, s: State)
    requires Inv(cfg, s)
    ensures Supervised(s)
  {
    var last: nat := |s.procs| - 1;
    if Alive(Newest(s)) {
      assert AliveProcs(s) == {last};
    } else {
      assert AliveProcs(s) == {};
    }
  }

  // ---------------------------------------------------------------- one process, whatever the bound

  /** While the newest process is alive, and the script is not stopping, no restart timer is armed. */
  predicate Newcomer(s: State) {
    && OthersDead(s)
    && (!s.stopping && Alive(Newest(s)) ==>
          && s.restartTimer.None?
          && (|| (Newest(s) == Proc(Starting, false) && s.restarting && s.child == Some(|s.procs| - 1))
              || (Newest(s) == Proc(Running, false) && !s.restarting && s.child == Some(|s.procs| - 1))
              || (Newest(s) == Proc(Running, true) && s.restarting && s.child == None)))
    && (s.stopping ==> s.restartTimer.None?)
  }

  lemma NewcomerStep(cfg: Config, s: State, e: Event)
    requires Newcomer(s) && Enabled(cfg, s, e)
    ensures Newcomer(Step(cfg, s, e))
  {
    match e
    case Spawned(p) => NewcomerProcess(cfg, s, e);
    case SpawnError(p) => NewcomerProcess(cfg, s, e);
    case Exit(p) => NewcomerProcess(cfg, s, e);
    case HealthResult(healthy) => NewcomerAnswer(cfg, s, healthy);
    case _ =>
  }

  lemma NewcomerProcess(cfg: Config, s: State, e: Event)
    requires Newcomer(s) && Enabled(cfg, s, e) && (e.Spawned? || e.SpawnError? || e.Exit?)
    ensures Newcomer(Step(cfg, s, e))
  {
  }

  lemma NewcomerAnswer(cfg: Config, s: State, healthy: bool)
    requires Newcomer(s) && Enabled(cfg, s, HealthResult(healthy))
    ensures Newcomer(Step(cfg, s, HealthResult(healthy)))
  {
  }

  lemma {:induction false} NewcomerRun(cfg: Config, s: State, events: seq<Event>)
    requires Newcomer(s) && Run(cfg, s, events).Some?
    ensures Newcomer(Run(cfg, s, events).value)
    decreases events
  {
    hide Newcomer, Enabled, Step;
    if events != [] {
      NewcomerStep(cfg, s, events[0]);
      NewcomerRun(cfg, Step(cfg, s, events[0]), events[1..]);
    }
  }

  /** For every configuration, on every run: never two processes, and never a process beside an armed restart timer. */
  lemma NeverTwoProcesses(cfg: Config, events: seq<Event>)
    requires After(cfg, events).Some?
    ensures var s := After(cfg, events).value;
            |AliveProcs(s)| <= 1 && (AliveProcs(s) == {} || s.restartTimer.None?)
  {
    NewcomerRun(cfg, Boot(cfg), events);
    var s := After(cfg, events).value;
    var last: nat := |s.procs| - 1;
    assert AliveProcs(s) <= {last};
    if AliveProcs(s) != {} {
      assert AliveProcs(s) == {last};
    }
  }

  // ---------------------------------------------------------------- what breaks without the bound

  /** `n` copies of an event. */
  function Times(e: Event, n: nat): seq<Event> {
    if n == 0 then [] else [e] + Times(e, n - 1)
  }

  lemma OneStep(cfg: Config, s: State, e: Event)
    requires Enabled(cfg, s, e)
    ensures Run(cfg, s, [e]) == Some(Step(cfg, s, e))
  {
    assert [e][1..] == [];
  }

  lemma {:induction false} Concat(cfg: Config, s: State, a: seq<Event>, b: seq<Event>)
    requires Run(cfg, s, a).Some?
    ensures Run(cfg, s, a + b) == Run(cfg, Run(cfg, s, a).value, b)
    decreases a
  {
    if a == [] {
      assert a + b == b;
    } else {
      assert (a + b)[1..] == a[1..] + b;
      Concat(cfg, Step(cfg, s, a[0]), a[1..], b);
    }
  }

  /** One more event at the end of a run. */
  lemma RunGrows(cfg: Config, events: seq<Event>, e: Event)
    requires After(cfg, events).Some? && Enabled(cfg, After(cfg, events).value, e)
    ensures After(cfg, events + [e]) == Some(Step(cfg, After(cfg, events).value, e))
  {
    Concat(cfg, Boot(cfg), events, [e]);
    OneStep(cfg, After(cfg, events).value, e);
  }

  /** Health ticks of a running process pile up unanswered requests. */
  lemma {:induction false} TicksPileUp(cfg: Config, s: State, n: nat)
    requires s.healthTimer && ChildUp(s) && !s.stopping && s.outstanding + n <= cfg.maxOutstanding
    ensures Run(cfg, s, Times(HealthTick, n)) == Some(s.(outstanding := s.outstanding + n))
    decreases n
  {
    if n > 0 {
      assert Times(HealthTick, n)[1..] == Times(HealthTick, n - 1);
      TicksPileUp(cfg, s.(outstanding := s.outstanding + 1), n - 1);
    }
  }

  /** Answers below the threshold only count up. */
  lemma {:induction false} FailuresCountUp(cfg: Config, s: State, n: nat)
    requires n <= s.outstanding && s.healthFailures + n < cfg.maxFailures
    ensures Run(cfg, s, Times(HealthResult(false), n))
         == Some(s.(outstanding := s.outstanding - n, healthFailures := s.healthFailures + n))
    decreases n
  {
    if n > 0 {
      assert Times(HealthResult(false), n)[1..] == Times(HealthResult(false), n - 1);
      FailuresCountUp(cfg, s.(outstanding := s.outstanding - 1, healthFailures := s.healthFailures + 1), n - 1);
    }
  }

  /** A healthy start, unanswered requests, an exit, a failed respawn, then the stale failures arrive. */
  function StaleFailures(cfg: Config): seq<Event>
    requires ValidConfig(cfg)
  {
    [Spawned(0)] + (Times(HealthTick, cfg.maxFailures) + ([Exit(0), RestartTimer, SpawnError(1)]
    + (Times(HealthResult(false), cfg.maxFailures - 1) + [HealthResult(false), RestartTimer])))
  }

  /** Nothing is alive, nothing is armed, and `restarting` blocks every later spawn. */
  predicate Wedged(s: State) {
    && (forall p :: 0 <= p < |s.procs| ==> !Alive(s.procs[p]))
    && s.restartTimer.None? && s.restarting && !s.healthTimer && !s.stopping
  }

  lemma WedgedStaysWedged(cfg: Config, s: State, e: Event)
    requires Wedged(s) && Enabled(cfg, s, e) && e != Signal
    ensures Wedged(Step(cfg, s, e))
  {
  }

  lemma WedgedIsUnsupervised(s: State)
    requires Wedged(s)
    ensures !Supervised(s)
  {
    assert AliveProcs(s) == {};
  }

  lemma StaleFailuresWedge(cfg: Config)
    requires ValidConfig(cfg) && cfg.maxOutstanding >= cfg.maxFailures
    ensures After(cfg, StaleFailures(cfg)).Some?
    ensures Wedged(After(cfg, StaleFailures(cfg)).value)
    ensures !Supervised(After(cfg, StaleFailures(cfg)).value)
  {
    hide *;
    StaleFailuresAre(cfg);
    var m := cfg.maxFailures;
    var tail1 := [HealthResult(false), RestartTimer];
    var tail2 := Times(HealthResult(false), m - 1) + tail1;
    var tail3 := [Exit(0), RestartTimer, SpawnError(1)] + tail2;
    var tail4 := Times(HealthTick, m) + tail3;
    BootHasOne(cfg);
    var s1 := OnSpawned(cfg, Boot(cfg), 0);
    FirstSpawn(cfg);
    Concat(cfg, Boot(cfg), [Spawned(0)], tail4);
    TicksPileUp(cfg, s1, m);
    Concat(cfg, s1, Times(HealthTick, m), tail3);
    var s2 := s1.(outstanding := m);
    SameButOutstanding(cfg, s1, m);
    ExitAndFailedRespawn(cfg, s2);
    Concat(cfg, s2, [Exit(0), RestartTimer, SpawnError(1)], tail2);
    var s3 := FailedRespawn(cfg, s2);
    FailedRespawnFacts(cfg, s2);
    FailuresCountUp(cfg, s3, m - 1);
    Concat(cfg, s3, Times(HealthResult(false), m - 1), tail1);
    LastFailureWedges(cfg, s3.(outstanding := 1, healthFailures := m - 1));
    WedgedIsUnsupervised(After(cfg, StaleFailures(cfg)).value);
  }

  lemma StaleFailuresAre(cfg: Config)
    requires ValidConfig(cfg)
    ensures cfg.maxFailures > 0
    ensures StaleFailures(cfg)
         == [Spawned(0)] + (Times(HealthTick, cfg.maxFailures) + ([Exit(0), RestartTimer, SpawnError(1)]
            + (Times(HealthResult(false), cfg.maxFailures - 1) + [HealthResult(false), RestartTimer])))
    ensures After(cfg, StaleFailures(cfg)) == Run(cfg, Boot(cfg), StaleFailures(cfg))
  {
    hide Times, Run;
  }

  lemma BootHasOne(cfg: Config)
    requires ValidConfig(cfg)
    ensures |Boot(cfg).procs| == 1
  {
  }

  lemma FirstSpawn(cfg: Config)
    requires ValidConfig(cfg)
    ensures var s := OnSpawned(cfg, Boot(cfg), 0);
            && Run(cfg, Boot(cfg), [Spawned(0)]) == Some(s)
            && s.healthTimer && ChildUp(s) && !s.stopping && s.outstanding == 0 && |s.procs| == 1 && IsRunning(cfg, s)
  {
    OneStep(cfg, Boot(cfg), Spawned(0));
  }

  lemma SameButOutstanding(cfg: Config, s: State, n: nat)
    requires s.procs != [] && IsRunning(cfg, s)
    ensures IsRunning(cfg, s.(outstanding := n))
  {
  }

  lemma FailedRespawnFacts(cfg: Config, s: State)
    requires |s.procs| == 1
    ensures var r := FailedRespawn(cfg, s);
            && r.outstanding == s.outstanding && r.healthFailures == 0
            && |r.procs| == 2 && r.child == Some(1) && !Alive(r.procs[0]) && r.procs[1].status.FailedToStart?
            && !r.stopping && !r.restarting && !r.healthTimer && r.restartTimer.Some?
  {
  }

  function FailedRespawn(cfg: Config, s: State): State
    requires |s.procs| == 1
  {
    State(Some(1), false, false, Min(2 * cfg.initial, cfg.max), 0, false,
          Some(Min(2 * cfg.initial, cfg.max)), s.outstanding,
          [s.procs[0].(status := Exited), Proc(FailedToStart, false)])
  }

  lemma ExitAndFailedRespawn(cfg: Config, s: State)
    requires |s.procs| == 1 && IsRunning(cfg, s) && !s.stopping
    ensures Run(cfg, s, [Exit(0), RestartTimer, SpawnError(1)]) == Some(FailedRespawn(cfg, s))
  {
    var s1 := OnExit(s, 0);
    var s2 := OnRestartTimer(cfg, s1);
    OneStep(cfg, s, Exit(0));
    OneStep(cfg, s1, RestartTimer);
    OneStep(cfg, s2, SpawnError(1));
    assert OnSpawnError(s2, 1).procs == FailedRespawn(cfg, s).procs;
    Concat(cfg, s, [Exit(0)], [RestartTimer] + [SpawnError(1)]);
    Concat(cfg, s1, [RestartTimer], [SpawnError(1)]);
    assert [Exit(0)] + ([RestartTimer] + [SpawnError(1)]) == [Exit(0), RestartTimer, SpawnError(1)];
  }

  lemma LastFailureWedges(cfg: Config, s: State)
    requires |s.procs| == 2 && s.child == Some(1) && !Alive(s.procs[0]) && s.procs[1].status.FailedToStart?
    requires !s.stopping && !s.restarting && !s.healthTimer && s.restartTimer.Some?
    requires s.outstanding > 0 && s.healthFailures + 1 >= cfg.maxFailures
    ensures Run(cfg, s, [HealthResult(false), RestartTimer]).Some?
    ensures Wedged(Run(cfg, s, [HealthResult(false), RestartTimer]).value)
  {
    var s1 := OnHealthResult(cfg, s, false);
    OneStep(cfg, s, HealthResult(false));
    OneStep(cfg, s1, RestartTimer);
    Concat(cfg, s, [HealthResult(false)], [RestartTimer]);
    assert [HealthResult(false)] + [RestartTimer] == [HealthResult(false), RestartTimer];
  }

  /**
    The supervisor keeps exactly one process or one armed restart timer on every run, if and only if fewer
    health requests can be in flight at once than failures are needed for a restart.
   */
  lemma SupervisedIffNoStaleRestart(cfg: Config)
    requires ValidConfig(cfg)
    ensures (forall events :: After(cfg, events).Some? ==> Supervised(After(cfg, events).value))
            <==> cfg.maxOutstanding < cfg.maxFailures
  {
    if cfg.maxOutstanding < cfg.maxFailures {
      forall events | After(cfg, events).Some?
        ensures Supervised(After(cfg, events).value)
      {
        InvReachable(cfg, events);
        InvSupervised(cfg, After(cfg, events).value);
      }
    } else {
      StaleFailuresWedge(cfg);
    }
  }

  /** The armed restart timer is never a dead end: when it fires a new process starts. */
  lemma RestartTimerSpawns(cfg: Config, events: seq<Event>)
    requires ValidConfig(cfg) && cfg.maxOutstanding < cfg.maxFailures
    requires After(cfg, events).Some? && After(cfg, events).value.restartTimer.Some?
    ensures var s := After(cfg, events).value;
            !s.stopping && OnRestartTimer(cfg, s).procs == s.procs + [Proc(Starting, false)]
  {
    InvReachable(cfg, events);
  }

  /** Once stopping, no run spawns again and no timer is armed again, whatever the configuration. */
  lemma {:induction false} StoppedNeverSpawns(cfg: Config, s: State, events: seq<Event>)
    requires s.stopping && s.restartTimer.None? && Run(cfg, s, events).Some?
    ensures var s' := Run(cfg, s, events).value;
            s'.stopping && |s'.procs| == |s.procs| && s'.restartTimer.None?
    decreases events
  {
    if events != [] {
      StoppedNeverSpawns(cfg, Step(cfg, s, events[0]), events[1..]);
    }
  }

  /** On every run, a script that is stopping has no timer armed. */
  lemma {:induction false} StoppingIsDisarmed(cfg: Config, s: State, events: seq<Event>)
    requires (s.stopping ==> s.restartTimer.None?) && Run(cfg, s, events).Some?
    ensures var s' := Run(cfg, s, events).value; s'.stopping ==> s'.restartTimer.None?
    decreases events
  {
    if events != [] {
      StoppingIsDisarmed(cfg, Step(cfg, s, events[0]), events[1..]);
    }
  }

  /** Whatever happened before a signal and whatever happens after it, from the signal on nothing is spawned. */
  lemma SignalEndsSpawning(cfg: Config, before: seq<Event>, after: seq<Event>)
    requires After(cfg, before + [Signal] + after).Some? && After(cfg, before).Some?
    ensures var s, s' := After(cfg, before).value, After(cfg, before + [Signal] + after).value;
            s'.stopping && |s'.procs| == |s.procs| && s'.restartTimer.None?
  {
    var s := After(cfg, before).value;
    StoppingIsDisarmed(cfg, Boot(cfg), before);
    RunGrows(cfg, before, Signal);
    Concat(cfg, Boot(cfg), before + [Signal], after);
    StoppedNeverSpawns(cfg, OnSignal(s), after);
  }

  // ---------------------------------------------------------------- what the health answers do

  /** How many processes a run has spawned. */
  function SpawnedBy(cfg: Config, events: seq<Event>): nat {
    if After(cfg, events).None? then 0 else |After(cfg, events).value.procs|
  }

  /** The health answers a run has delivered since its last spawn, true for a healthy one. */
  function Answers(cfg: Config, events: seq<Event>): seq<bool> {
    if events == [] then []
    else
      var before, e := events[..|events| - 1], events[|events| - 1];
      if SpawnedBy(cfg, events) != SpawnedBy(cfg, before) then []
      else if e.HealthResult? then Answers(cfg, before) + [e.healthy]
      else Answers(cfg, before)
  }

  /** How many of the last answers in a row were unhealthy. */
  function Unhealthy(answers: seq<bool>): nat {
    if answers == [] || answers[|answers| - 1] then 0 else Unhealthy(answers[..|answers| - 1]) + 1
  }

  lemma {:induction false} UnhealthyAtLeast(answers: seq<bool>, n: nat)
    ensures Unhealthy(answers) >= n <==>
              n <= |answers| && forall i :: |answers| - n <= i < |answers| ==> !answers[i]
  {
    if n > 0 && answers != [] && !answers[|answers| - 1] {
      var before := answers[..|answers| - 1];
      UnhealthyAtLeast(before, n - 1);
      assert forall i :: 0 <= i < |before| ==> before[i] == answers[i];
    }
  }

  /** A prefix of a run is a run. */
  lemma {:induction false} PrefixRuns(cfg: Config, s: State, a: seq<Event>, b: seq<Event>)
    requires Run(cfg, s, a + b).Some?
    ensures Run(cfg, s, a).Some?
    decreases a
  {
    if a != [] {
      assert (a + b)[1..] == a[1..] + b && (a + b)[0] == a[0];
      PrefixRuns(cfg, Step(cfg, s, a[0]), a[1..], b);
    }
  }

  lemma LastStep(cfg: Config, events: seq<Event>)
    requires events != [] && After(cfg, events).Some?
    ensures var before, e := events[..|events| - 1], events[|events| - 1];
            && After(cfg, before).Some? && Enabled(cfg, After(cfg, before).value, e)
            && After(cfg, events) == Some(Step(cfg, After(cfg, before).value, e))
  {
    var before, e := events[..|events| - 1], events[|events| - 1];
    assert events == before + [e];
    PrefixRuns(cfg, Boot(cfg), before, [e]);
    Concat(cfg, Boot(cfg), before, [e]);
    hide Step;
    assert Enabled(cfg, After(cfg, before).value, e);
    OneStep(cfg, After(cfg, before).value, e);
  }

  /** What one event does to the count: a spawn and a healthy answer clear it, an unhealthy one adds to it. */
  lemma CountStep(cfg: Config, s: State, e: Event)
    requires Enabled(cfg, s, e)
    ensures var s' := Step(cfg, s, e);
            if |s'.procs| != |s.procs| then s'.healthFailures == 0
            else if e.HealthResult? then s'.healthFailures == if e.healthy then 0 else s.healthFailures + 1
            else s'.healthFailures == s.healthFailures
  {
  }

  /** On every run the count is the number of unhealthy answers since the last healthy answer and the last spawn. */
  lemma {:induction false} CountIsUnhealthy(cfg: Config, events: seq<Event>)
    requires After(cfg, events).Some?
    ensures After(cfg, events).value.healthFailures == Unhealthy(Answers(cfg, events))
  {
    hide Step, Enabled;
    if events != [] {
      var before, e := events[..|events| - 1], events[|events| - 1];
      LastStep(cfg, events);
      CountIsUnhealthy(cfg, before);
      CountStep(cfg, After(cfg, before).value, e);
      hide After;
      var answers := Answers(cfg, before);
      if e.HealthResult? {
        assert (answers + [e.healthy])[..|answers|] == answers;
      }
    }
  }

  /** The process was asked to terminate, and its exit is awaited. */
  predicate GivenUp(s: State, p: nat) {
    p < |s.procs| && s.procs[p].awaited
  }

  /**
    On every run, a health answer gives up a running child if and only if it is the last of maxFailures answers in a row
    since that child was spawned that were all unhealthy.
   */
  lemma GivesUpIff(cfg: Config, events: seq<Event>, p: nat, healthy: bool)
    requires ValidConfig(cfg) && After(cfg, events + [HealthResult(healthy)]).Some? && After(cfg, events).Some?
    requires var s := After(cfg, events).value;
             p < |s.procs| && s.procs[p] == Proc(Running, false) && !s.stopping
    ensures var answers := Answers(cfg, events) + [healthy];
            GivenUp(After(cfg, events + [HealthResult(healthy)]).value, p) <==>
              && |answers| >= cfg.maxFailures
              && forall i :: |answers| - cfg.maxFailures <= i < |answers| ==> !answers[i]
  {
    var s, answers := After(cfg, events).value, Answers(cfg, events) + [healthy];
    assert (events + [HealthResult(healthy)])[..|events|] == events;
    LastStep(cfg, events + [HealthResult(healthy)]);
    CountIsUnhealthy(cfg, events);
    NewcomerRun(cfg, Boot(cfg), events);
    assert answers[..|answers| - 1] == Answers(cfg, events);
    UnhealthyAtLeast(answers, cfg.maxFailures);
    AnswerGivesUp(cfg, s, p, healthy);
    hide *;
  }

  lemma AnswerGivesUp(cfg: Config, s: State, p: nat, healthy: bool)
    requires ValidConfig(cfg) && Newcomer(s) && s.outstanding > 0 && !s.stopping
    requires p < |s.procs| && s.procs[p] == Proc(Running, false)
    ensures GivenUp(OnHealthResult(cfg, s, healthy), p) <==> !healthy && s.healthFailures + 1 >= cfg.maxFailures
  {
    assert p == |s.procs| - 1;
  }

  // ---------------------------------------------------------------- the backoff

  /**
    A process that did start is always restarted after the initial delay, however often it has crashed
    before: its `spawn` event has reset the backoff.
   */
  lemma CrashRestartsAfterInitialDelay(cfg: Config, events: seq<Event>, p: nat)
    requires ValidConfig(cfg) && cfg.maxOutstanding < cfg.maxFailures
    requires After(cfg, events).Some? && Enabled(cfg, After(cfg, events).value, Exit(p))
    requires !After(cfg, events).value.stopping
    ensures OnExit(After(cfg, events).value, p).restartTimer == Some(cfg.initial)
    ensures AliveProcs(OnExit(After(cfg, events).value, p)) == {}
  {
    InvReachable(cfg, events);
    assert p == |After(cfg, events).value.procs| - 1;
  }

  function Doubled(cfg: Config, delay: int, n: nat): int {
    if n == 0 then delay else Min(2 * Doubled(cfg, delay, n - 1), cfg.max)
  }

  function Pow2(n: nat): int {
    if n == 0 then 1 else 2 * Pow2(n - 1)
  }

  lemma {:induction false} DoubledIsBoundedExponential(cfg: Config, delay: int, n: nat)
    requires 0 <= delay <= cfg.max
    ensures Doubled(cfg, delay, n) == Min(delay * Pow2(n), cfg.max)
    ensures Pow2(n) >= 1
  {
    if n > 0 {
      DoubledIsBoundedExponential(cfg, delay, n - 1);
      assert delay * Pow2(n) == 2 * (delay * Pow2(n - 1));
    }
  }

  /** n spawns in a row that fail, the first of them process p. */
  function FailedSpawns(p: nat, n: nat): seq<Event> {
    if n == 0 then [] else FailedSpawns(p, n - 1) + ([SpawnError(p + n - 1)] + [RestartTimer])
  }

  /** A spawn is under way. */
  predicate Spawning(s: State, p: nat) {
    && |s.procs| == p + 1 && s.procs[p] == Proc(Starting, false)
    && s.restartTimer.None? && !s.stopping
  }

  lemma FailedSpawn(cfg: Config, s: State, p: nat)
    requires Spawning(s, p)
    ensures Run(cfg, s, [SpawnError(p)] + [RestartTimer]).Some?
    ensures var s' := Run(cfg, s, [SpawnError(p)] + [RestartTimer]).value;
            Spawning(s', p + 1) && s'.backoff == Min(2 * s.backoff, cfg.max)
  {
    OneStep(cfg, s, SpawnError(p));
    OneStep(cfg, OnSpawnError(s, p), RestartTimer);
    Concat(cfg, s, [SpawnError(p)], [RestartTimer]);
  }

  /** From any state in which a spawn is under way, n failures in a row double the backoff n times, up to its bound. */
  lemma {:induction false} FailuresDouble(cfg: Config, s: State, p: nat, n: nat)
    requires Spawning(s, p)
    ensures Run(cfg, s, FailedSpawns(p, n)).Some?
    ensures var s' := Run(cfg, s, FailedSpawns(p, n)).value;
            Spawning(s', p + n) && s'.backoff == Doubled(cfg, s.backoff, n)
  {
    hide Spawning, Min;
    if n > 0 {
      FailuresDouble(cfg, s, p, n - 1);
      FailedSpawn(cfg, Run(cfg, s, FailedSpawns(p, n - 1)).value, p + n - 1);
      Concat(cfg, s, FailedSpawns(p, n - 1), [SpawnError(p + n - 1)] + [RestartTimer]);
    }
  }

  /** A spawn that fails is tried again after the current backoff. */
  lemma DelayIsBackoff(s: State, p: nat)
    requires Spawning(s, p)
    ensures OnSpawnError(s, p).restartTimer == Some(s.backoff)
  {
  }

  /** After the boot, n failed spawns in a row: the next delay is min(initial * 2^n, max). */
  lemma FailedSpawnsBackOff(cfg: Config, n: nat)
    requires ValidConfig(cfg)
    ensures After(cfg, FailedSpawns(0, n)).Some?
    ensures var s := After(cfg, FailedSpawns(0, n)).value;
            Spawning(s, n) && OnSpawnError(s, n).restartTimer == Some(Min(cfg.initial * Pow2(n), cfg.max))
  {
    FailuresDouble(cfg, Boot(cfg), 0, n);
    DoubledIsBoundedExponential(cfg, cfg.initial, n);
    DelayIsBackoff(After(cfg, FailedSpawns(0, n)).value, n);
  }

  /**
    After any run that ends in an exit, n failed respawns in a row: the next delay is min(initial * 2^(n + 1), max), for
    the timer of the exit has doubled the backoff already.
   */
  lemma FailedRespawnsBackOff(cfg: Config, events: seq<Event>, p: nat, n: nat)
    requires ValidConfig(cfg) && cfg.maxOutstanding < cfg.maxFailures
    requires After(cfg, events).Some? && Enabled(cfg, After(cfg, events).value, Exit(p))
    requires !After(cfg, events).value.stopping
    ensures After(cfg, events + [Exit(p)] + [RestartTimer] + FailedSpawns(p + 1, n)).Some?
    ensures var s := After(cfg, events + [Exit(p)] + [RestartTimer] + FailedSpawns(p + 1, n)).value;
            && Spawning(s, p + 1 + n)
            && OnSpawnError(s, p + 1 + n).restartTimer == Some(Min(cfg.initial * Pow2(n + 1), cfg.max))
  {
    hide *;
    var s := RespawnAfterExit(cfg, events, p);
    RespawnDelay(cfg, n);
    SpawningHasProcess(s, p + 1);
    FailuresDouble(cfg, s, p + 1, n);
    AfterIsRun(cfg, events + [Exit(p)] + [RestartTimer]);
    AfterIsRun(cfg, events + [Exit(p)] + [RestartTimer] + FailedSpawns(p + 1, n));
    Concat(cfg, Boot(cfg), events + [Exit(p)] + [RestartTimer], FailedSpawns(p + 1, n));
    DelayIsBackoff(After(cfg, events + [Exit(p)] + [RestartTimer] + FailedSpawns(p + 1, n)).value, p + 1 + n);
  }

  lemma AfterIsRun(cfg: Config, events: seq<Event>)
    ensures After(cfg, events) == Run(cfg, Boot(cfg), events)
  {
  }

  lemma SpawningHasProcess(s: State, p: nat)
    requires Spawning(s, p)
    ensures p < |s.procs|
  {
  }

  lemma RespawnDelay(cfg: Config, n: nat)
    requires ValidConfig(cfg)
    ensures Doubled(cfg, Min(2 * cfg.initial, cfg.max), n) == Min(cfg.initial * Pow2(n + 1), cfg.max)
  {
    DoubledIsBoundedExponential(cfg, Min(2 * cfg.initial, cfg.max), n);
    CapTwice(2 * cfg.initial, Pow2(n), cfg.max);
    Reassociate(cfg.initial, Pow2(n));
  }

  lemma CapTwice(a: int, k: int, cap: int)
    requires 0 <= a && 0 <= cap && 1 <= k
    ensures Min(Min(a, cap) * k, cap) == Min(a * k, cap)
  {
    if a > cap {
      assert a * k >= cap * k >= cap;
    }
  }

  lemma Reassociate(a: int, k: int)
    ensures (2 * a) * k == a * (2 * k)
  {
  }

  /** A healthy answer that arrives while a spawn is under way, however late it is, starts the series anew. */
  lemma HealthyAnswerRestartsSeries(cfg: Config, events: seq<Event>, p: nat, n: nat)
    requires ValidConfig(cfg) && After(cfg, events + [HealthResult(true)]).Some? && After(cfg, events).Some?
    requires Spawning(After(cfg, events).value, p)
    ensures After(cfg, events + [HealthResult(true)] + FailedSpawns(p, n)).Some?
    ensures var s := After(cfg, events + [HealthResult(true)] + FailedSpawns(p, n)).value;
            Spawning(s, p + n) && OnSpawnError(s, p + n).restartTimer == Some(Min(cfg.initial * Pow2(n), cfg.max))
  {
    var s := After(cfg, events).value;
    assert (events + [HealthResult(true)])[..|events|] == events;
    LastStep(cfg, events + [HealthResult(true)]);
    var s' := OnHealthResult(cfg, s, true);
    assert Spawning(s', p) && s'.backoff == cfg.initial;
    assert After(cfg, events + [HealthResult(true)]) == Some(s');
    hide *;
    FailuresDouble(cfg, s', p, n);
    CapIsValid(cfg);
    DoubledIsBoundedExponential(cfg, cfg.initial, n);
    AfterIsRun(cfg, events + [HealthResult(true)]);
    AfterIsRun(cfg, events + [HealthResult(true)] + FailedSpawns(p, n));
    Concat(cfg, Boot(cfg), events + [HealthResult(true)], FailedSpawns(p, n));
    DelayIsBackoff(After(cfg, events + [HealthResult(true)] + FailedSpawns(p, n)).value, p + n);
  }

  lemma CapIsValid(cfg: Config)
    requires ValidConfig(cfg)
    ensures 0 <= cfg.initial <= cfg.max
  {
  }

  lemma RespawnAfterExit(cfg: Config, events: seq<Event>, p: nat) returns (s: State)
    requires ValidConfig(cfg) && cfg.maxOutstanding < cfg.maxFailures
    requires After(cfg, events).Some? && Enabled(cfg, After(cfg, events).value, Exit(p))
    requires !After(cfg, events).value.stopping
    ensures After(cfg, events + [Exit(p)] + [RestartTimer]) == Some(s)
    ensures Spawning(s, p + 1) && s.backoff == Min(2 * cfg.initial, cfg.max)
  {
    InvReachable(cfg, events);
    RunGrows(cfg, events, Exit(p));
    RunGrows(cfg, events + [Exit(p)], RestartTimer);
    s := After(cfg, events + [Exit(p)] + [RestartTimer]).value;
  }
}
