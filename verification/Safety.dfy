/** What holds in every run of the daemon. */
module Safety {
  import opened Wrappers
  import opened Network
  import opened Daemon

  predicate IsStopStart(a: Action) {
    a.IpcStop? || a.IpcStart?
  }

  predicate NoStopStart(acts: seq<Action>) {
    forall i :: 0 <= i < |acts| ==> !IsStopStart(acts[i])
  }

  predicate NoStop(acts: seq<Action>) {
    forall i :: 0 <= i < |acts| ==> !acts[i].IpcStop?
  }

  // ------------------------------------------------------- shape of a handler

  /** A handler stays in the state instance it found, or enters exactly one new one. */
  ghost predicate Shape(d: Daemon, after: Daemon) {
    && after.queue == d.queue
    && (after.instance == d.instance ==>
          && after.state == d.state && after.log == d.log && after.boots == d.boots
          && after.ctx.recoveryCount == d.ctx.recoveryCount)
    && (after.instance != d.instance ==>
          && after.instance == d.instance + 1
          && after.log == d.log + [Entered(after.state)]
          && |after.boots| <= |d.boots| + (if after.state == Bootstrapping then 1 else 0)
          && after.ctx.recoveryCount == d.ctx.recoveryCount + (if after.state == Restarting then 1 else 0))
  }

  lemma TransitionShape(d: Daemon, s: State)
    ensures Shape(d, Transition(d, s)) && Transition(d, s).state == s
    ensures Transition(d, s).instance == d.instance + 1
  {
  }

  lemma BootstrappingShape(d: Daemon, e: Event)
    ensures Shape(d, InBootstrapping(d, e))
  {
  }

  lemma HealthyShape(d: Daemon, e: Event)
    ensures Shape(d, InHealthy(d, e))
  {
  }

  lemma DegradedShape(d: Daemon, e: Event)
    ensures Shape(d, InDegraded(d, e))
  {
  }

  lemma RestartingShape(d: Daemon, e: Event)
    ensures Shape(d, InRestarting(d, e))
  {
  }

  lemma HandleShape(d: Daemon, e: Event)
    ensures Shape(d, Handle(d, e))
  {
    BootstrappingShape(d, e);
    HealthyShape(d, e);
    DegradedShape(d, e);
    RestartingShape(d, e);
    TransitionShape(d, Bootstrapping);
  }

  // ---------------------------------------------------------- bootstrap tokens

  function Dones(q: seq<Event>): nat {
    if q == [] then 0 else (if q[0].BootstrapDone? then 1 else 0) + Dones(q[1..])
  }

  /** Bootstraps in flight and finished ones not yet handled. */
  function Tokens(d: Daemon): nat {
    |d.boots| + Dones(d.queue)
  }

  /** Every IPC stop and start is served while no bootstrap is in flight or unreported. */
  predicate Calm(d: Daemon, acts: seq<Action>)
    requires Runs(d, acts)
    decreases |acts|
  {
    acts == [] || ((IsStopStart(acts[0]) ==> Tokens(d) == 0) && Calm(Step(d, acts[0]), acts[1..]))
  }

  lemma {:induction false} NoneIsCalm(d: Daemon, acts: seq<Action>)
    requires Runs(d, acts) && NoStopStart(acts)
    ensures Calm(d, acts)
    decreases |acts|
  {
    if acts != [] {
      assert !IsStopStart(acts[0]);
      NoneIsCalm(Step(d, acts[0]), acts[1..]);
    }
  }

  lemma {:induction false} DonesAppend(q: seq<Event>, e: Event)
    ensures Dones(q + [e]) == Dones(q) + (if e.BootstrapDone? then 1 else 0)
  {
    if q == [] {
      assert q + [e] == [e];
      assert [e][1..] == [];
    } else {
      assert (q + [e])[1..] == q[1..] + [e];
      DonesAppend(q[1..], e);
    }
  }

  lemma {:induction false} NoDones(q: seq<Event>)
    requires Dones(q) == 0
    ensures forall e :: e in q ==> !e.BootstrapDone?
  {
    if q != [] {
      NoDones(q[1..]);
      assert q == [q[0]] + q[1..];
    }
  }

  /** Outside the main loop and IPC stop/start, the machine keeps its state and makes no tokens. */
  ghost predicate Background(d: Daemon, after: Daemon) {
    && after.state == d.state && after.instance == d.instance && after.exited == d.exited
    && after.timer == d.timer && after.tasks == d.tasks && after.log == d.log
    && after.ctx.failStreak == d.ctx.failStreak && after.ctx.recoveryCount == d.ctx.recoveryCount
    && d.queue <= after.queue
    && Tokens(after) <= Tokens(d)
    && after.armed <= d.armed
    && (after.armed == d.armed || Timeout in after.queue)
  }

  lemma AdvanceShape(d: Daemon, i: nat, f: Findings)
    requires i < |d.boots|
    ensures Background(d, Advance(d, i, f))
  {
    DonesAppend(d.queue, BootstrapDone(d.boots[i].origin));
  }

  lemma CrashShape(d: Daemon, i: nat, f: Findings, k: nat)
    requires i < |d.boots| && k <= |Segment(d.boots[i], d.handle, f)|
    ensures Background(d, Crash(d, i, f, k))
  {
    DonesAppend(d.queue, SingboxDied);
  }

  lemma BackgroundStep(d: Daemon, a: Action)
    requires Enabled(d, a) && !a.Dequeue? && !IsStopStart(a)
    ensures Background(d, Step(d, a))
  {
    match a
    case Post(e) => DonesAppend(d.queue, e);
    case Fire(_) => DonesAppend(d.queue, Timeout);
    case AdvanceBoot(i, f) => AdvanceShape(d, i, f);
    case CrashBoot(i, f, k) => CrashShape(d, i, f, k);
    case IpcApply(_, _) =>
    case IpcRoute(_) =>
    case ProcessDies(_) =>
  }

  /** Every token of a BOOTSTRAPPING daemon comes from the state instance it is in. */
  ghost predicate OwnTokens(d: Daemon) {
    && (forall b :: b in d.boots ==> b.origin == d.instance)
    && (forall e :: e in d.queue && e.BootstrapDone? ==> e.origin == d.instance)
  }

  predicate AtRest(s: State) {
    s in {Healthy, Degraded, Stopped}
  }

  ghost predicate TokenInv(d: Daemon) {
    && (d.exited <==> d.state == Failed)
    && (!d.exited ==>
      && Tokens(d) <= 1
      && (AtRest(d.state) ==> Tokens(d) == 0)
      && (d.state == Bootstrapping ==> OwnTokens(d)))
  }

  /** What is left of the tokens once the oldest event is taken. */
  lemma TokensPopped(d: Daemon)
    requires TokenInv(d) && !d.exited && d.queue != []
    ensures var rest := d.queue[1..];
      && Dones(d.queue) == (if d.queue[0].BootstrapDone? then 1 else 0) + Dones(rest)
      && (Dones(rest) == 0 ==> forall e :: e in rest ==> !e.BootstrapDone?)
      && (d.state == Bootstrapping ==> forall e :: e in rest && e.BootstrapDone? ==> e.origin == d.instance)
  {
    assert d.queue == [d.queue[0]] + d.queue[1..];
    if Dones(d.queue[1..]) == 0 {
      NoDones(d.queue[1..]);
    }
  }

  lemma TokenTransition(d: Daemon, s: State)
    requires !d.exited && s != Failed && Tokens(d) <= 1
    requires AtRest(s) || s == Bootstrapping ==> Tokens(d) == 0
    ensures TokenInv(Transition(d, s))
  {
    if s == Bootstrapping {
      NoDones(d.queue);
    }
  }

  lemma TokenTurn(d: Daemon)
    requires TokenInv(d) && !d.exited && d.queue != []
    ensures TokenInv(Turn(d))
  {
    var e := d.queue[0];
    var p := d.(queue := d.queue[1..], log := d.log + [Handled(e)]);
    TokensPopped(d);
    match d.state
    case Bootstrapping => TokenBootstrapping(p, e);
    case Healthy => TokenHealthy(p, e);
    case Degraded => TokenDegraded(p, e);
    case Restarting => TokenRestarting(p, e);
    case Stopped => TokenTransition(p, Bootstrapping);
  }

  lemma TokenBootstrapping(d: Daemon, e: Event)
    requires d.state == Bootstrapping && !d.exited && OwnTokens(d)
    requires Tokens(d) + (if e.BootstrapDone? then 1 else 0) <= 1
    ensures TokenInv(InBootstrapping(d, e))
  {
    if e.BootstrapDone? {
      TokenTransition(d, Healthy);
    } else if e == SingboxDied {
      TokenTransition(d, Restarting);
    }
  }

  lemma TokenHealthy(d: Daemon, e: Event)
    requires d.state == Healthy && !d.exited && Tokens(d) == 0
    ensures TokenInv(InHealthy(d, e))
  {
    match e
    case HealthFail => TokenTransition(Fail(d), Degraded);
    case ServerChangeRequested(server) =>
      TokenTransition(d.(ctx := d.ctx.(targetServer := Some(server))), Bootstrapping);
    case RestartRequested => TokenTransition(d, Restarting);
    case TunnelDied => TokenTransition(d, Restarting);
    case _ =>
  }

  lemma TokenDegraded(d: Daemon, e: Event)
    requires d.state == Degraded && !d.exited && Tokens(d) == 0
    ensures TokenInv(InDegraded(d, e))
  {
    match e
    case HealthOk => TokenTransition(d, Healthy);
    case HealthFail => TokenTransition(Fail(d), Restarting);
    case TunnelDied => TokenTransition(d, Restarting);
    case _ =>
  }

  lemma TokenRestarting(d: Daemon, e: Event)
    requires d.state == Restarting && !d.exited
    requires Tokens(d) + (if e.BootstrapDone? then 1 else 0) <= 1
    ensures TokenInv(InRestarting(d, e))
  {
    if e.BootstrapDone? {
      TokenTransition(d, Healthy);
    }
  }

  lemma TokenAdvance(d: Daemon, i: nat, f: Findings)
    requires TokenInv(d) && !d.exited && i < |d.boots|
    ensures TokenInv(Advance(d, i, f))
  {
    assert i == 0 && |d.boots| == 1;
    var b := d.boots[0];
    assert b in d.boots;
    DonesAppend(d.queue, BootstrapDone(b.origin));
  }

  lemma TokenCrash(d: Daemon, i: nat, f: Findings, k: nat)
    requires TokenInv(d) && !d.exited && i < |d.boots| && k <= |Segment(d.boots[i], d.handle, f)|
    ensures TokenInv(Crash(d, i, f, k))
  {
    assert i == 0 && |d.boots| == 1;
    DonesAppend(d.queue, SingboxDied);
  }

  lemma TokenStep(d: Daemon, a: Action)
    requires TokenInv(d) && Enabled(d, a) && (IsStopStart(a) ==> Tokens(d) == 0)
    ensures TokenInv(Step(d, a))
  {
    match a
    case Dequeue => TokenTurn(d);
    case IpcStop => TokenTransition(d.(host := Run(d.host, StopCommands(d.ctx))), Stopped);
    case IpcStart => TokenTransition(d.(host := Run(d.host, StartOverCommands())), Bootstrapping);
    case AdvanceBoot(i, f) => TokenAdvance(d, i, f);
    case CrashBoot(i, f, k) => TokenCrash(d, i, f, k);
    case Post(e) => DonesAppend(d.queue, e);
    case Fire(_) => DonesAppend(d.queue, Timeout);
    case IpcApply(_, how) =>
    case IpcRoute(_) =>
    case ProcessDies(_) =>
  }

  lemma {:induction false} TokenRun(d: Daemon, acts: seq<Action>)
    requires TokenInv(d) && Runs(d, acts) && Calm(d, acts)
    ensures TokenInv(After(d, acts))
    decreases |acts|
  {
    if acts != [] {
      TokenStep(d, acts[0]);
      TokenRun(Step(d, acts[0]), acts[1..]);
    }
  }

  /**
   As long as IPC stop and start come while no bootstrap is in flight or unreported: at
   most one ever is, none in HEALTHY, DEGRADED or STOPPED, and a BOOTSTRAP_DONE that
   BOOTSTRAPPING is about to handle is that of the bootstrap it spawned itself.
   */
  lemma BootstrapTokens(h: Host, acts: seq<Action>)
    requires Runs(Boots(h), acts) && Calm(Boots(h), acts)
    ensures var d := After(Boots(h), acts);
      !d.exited ==>
        && Tokens(d) <= 1
        && (d.state in {Healthy, Degraded, Stopped} ==> Tokens(d) == 0)
        && (d.state == Bootstrapping && d.queue != [] && d.queue[0].BootstrapDone? ==> d.queue[0].origin == d.instance)
  {
    TokenRun(Boots(h), acts);
    var d := After(Boots(h), acts);
    if d.queue != [] {
      assert d.queue[0] in d.queue;
    }
  }

  // ------------------------------------- recovery needs a bootstrap in flight

  ghost predicate Doomed(d: Daemon) {
    || (d.state == Restarting && !d.exited && Tokens(d) == 0)
    || (d.state == Failed && d.exited)
  }

  lemma DoomedStep(d: Daemon, a: Action)
    requires Doomed(d) && Enabled(d, a) && !IsStopStart(a)
    ensures Doomed(Step(d, a))
  {
    match a
    case Dequeue =>
      assert d.queue == [d.queue[0]] + d.queue[1..];
    case _ => BackgroundStep(d, a);
  }

  lemma {:induction false} DoomedRun(d: Daemon, acts: seq<Action>)
    requires Doomed(d) && Runs(d, acts) && NoStopStart(acts)
    ensures Doomed(After(d, acts))
    decreases |acts|
  {
    if acts != [] {
      assert !IsStopStart(acts[0]);
      DoomedStep(d, acts[0]);
      DoomedRun(Step(d, acts[0]), acts[1..]);
    }
  }

  /**
   RESTARTING starts nothing itself, so entering it from HEALTHY or DEGRADED (a manual
   restart, a dead tunnel or the third failed check) leads nowhere but to FAILED.
   */
  lemma RestartNeverRecovers(h: Host, acts: seq<Action>, more: seq<Action>)
    requires Runs(Boots(h), acts) && Calm(Boots(h), acts)
    requires var d := After(Boots(h), acts);
      && !d.exited && d.state in {Healthy, Degraded} && d.queue != []
      && Turn(d).state == Restarting
      && Runs(Turn(d), more) && NoStopStart(more)
    ensures After(Turn(After(Boots(h), acts)), more).state in {Restarting, Failed}
  {
    TokenRun(Boots(h), acts);
    var d := After(Boots(h), acts);
    TokenTurn(d);
    assert d.queue == [d.queue[0]] + d.queue[1..];
    assert Tokens(Turn(d)) == 0;
    DoomedRun(Turn(d), more);
  }

  // ------------------------------------------------- the same count, with IPC

  /** How often HEALTHY was entered on a BOOTSTRAP_DONE. */
  function HealthyByBootstrap(log: seq<Mark>): nat {
    if |log| < 2 then 0
    else
      var n := |log| - 1;
      HealthyByBootstrap(log[..n])
        + (if log[n] == Entered(Healthy) && log[n - 1].Handled? && log[n - 1].event.BootstrapDone? then 1 else 0)
  }

  function Entries(log: seq<Mark>, s: State): nat {
    if log == [] then 0
    else Entries(log[..|log| - 1], s) + (if log[|log| - 1] == Entered(s) then 1 else 0)
  }

  ghost predicate SpawnInv(d: Daemon) {
    HealthyByBootstrap(d.log) + Tokens(d) <= Entries(d.log, Bootstrapping)
  }

  lemma EntriesOne(log: seq<Mark>, m: Mark, s: State)
    ensures Entries(log + [m], s) == Entries(log, s) + (if m == Entered(s) then 1 else 0)
  {
    assert (log + [m])[..|log|] == log;
  }

  lemma HealthyOne(log: seq<Mark>, m: Mark)
    ensures HealthyByBootstrap(log + [m]) == HealthyByBootstrap(log)
      + (if m == Entered(Healthy) && log != [] && log[|log| - 1].Handled? && log[|log| - 1].event.BootstrapDone? then 1 else 0)
  {
    assert (log + [m])[..|log|] == log;
  }

  lemma SpawnTurn(d: Daemon)
    requires SpawnInv(d) && d.queue != []
    ensures SpawnInv(Turn(d))
  {
    var e := d.queue[0];
    var log := d.log + [Handled(e)];
    var popped := d.(queue := d.queue[1..], log := log);
    HandleShape(popped, e);
    EntriesOne(d.log, Handled(e), Bootstrapping);
    HealthyOne(d.log, Handled(e));
    EntriesOne(log, Entered(Turn(d).state), Bootstrapping);
    HealthyOne(log, Entered(Turn(d).state));
  }

  lemma SpawnStep(d: Daemon, a: Action)
    requires SpawnInv(d) && Enabled(d, a)
    ensures SpawnInv(Step(d, a))
  {
    match a
    case Dequeue => SpawnTurn(d);
    case IpcStop =>
      EntriesOne(d.log, Entered(Stopped), Bootstrapping);
      HealthyOne(d.log, Entered(Stopped));
    case IpcStart =>
      EntriesOne(d.log, Entered(Bootstrapping), Bootstrapping);
      HealthyOne(d.log, Entered(Bootstrapping));
    case _ => BackgroundStep(d, a);
  }

  lemma {:induction false} SpawnRun(d: Daemon, acts: seq<Action>)
    requires SpawnInv(d) && Runs(d, acts)
    ensures SpawnInv(After(d, acts))
    decreases |acts|
  {
    if acts != [] {
      SpawnStep(d, acts[0]);
      SpawnRun(Step(d, acts[0]), acts[1..]);
    }
  }

  lemma FreshSpawnInv(h: Host)
    ensures SpawnInv(Boots(h))
  {
    assert [] + [Entered(Bootstrapping)] == [Entered(Bootstrapping)];
    EntriesOne([], Entered(Bootstrapping), Bootstrapping);
  }

  /** Whatever IPC does, HEALTHY is reached through bootstrap no oftener than bootstraps were spawned. */
  lemma RecoveriesNeedBootstraps(h: Host, acts: seq<Action>)
    requires Runs(Boots(h), acts)
    ensures var d := After(Boots(h), acts);
      HealthyByBootstrap(d.log) + Tokens(d) <= Entries(d.log, Bootstrapping)
  {
    FreshSpawnInv(h);
    SpawnRun(Boots(h), acts);
  }

  // ------------------------------------------------------------------- timers

  predicate Timed(s: State) {
    s == Bootstrapping || s == Restarting
  }

  ghost predicate TimerInv(d: Daemon) {
    && (d.exited <==> d.state == Failed)
    && (d.exited ==> d.armed == {} && d.boots == [])
    && (!d.exited ==>
      && (d.timer.Some? <==> Timed(d.state))
      && d.armed <= (if d.timer.Some? then {d.timer.value} else {})
      && (d.timer.Some? ==> d.timer.value < d.tasks)
      && (Timed(d.state) ==> d.timer.value in d.armed || Timeout in d.queue))
  }

  /** Leaving cancels the old timer and entering arms a new one where the state has one. */
  lemma TimerTransition(d: Daemon, s: State)
    requires !d.exited && d.armed <= (if d.timer.Some? then {d.timer.value} else {})
    ensures TimerInv(Transition(d, s))
  {
  }

  /** The invariant as if the event in hand were still queued is what a handler needs. */
  lemma TimerHandle(d: Daemon, e: Event)
    requires TimerInv(d.(queue := [e] + d.queue)) && !d.exited
    ensures TimerInv(Handle(d, e))
  {
    match d.state
    case Bootstrapping => TimerBootstrapping(d, e);
    case Healthy => TimerHealthy(d, e);
    case Degraded => TimerDegraded(d, e);
    case Restarting => TimerRestarting(d, e);
    case Stopped => TimerTransition(d, Bootstrapping);
  }

  lemma TimerBootstrapping(d: Daemon, e: Event)
    requires TimerInv(d.(queue := [e] + d.queue)) && d.state == Bootstrapping && !d.exited
    ensures TimerInv(InBootstrapping(d, e))
  {
    TimerTransition(d, Healthy);
    TimerTransition(d, Failed);
    TimerTransition(d, Restarting);
    TimerTransition(Error(d, BOOTSTRAP_ERROR), Failed);
  }

  lemma TimerHealthy(d: Daemon, e: Event)
    requires TimerInv(d.(queue := [e] + d.queue)) && d.state == Healthy && !d.exited
    ensures TimerInv(InHealthy(d, e))
  {
    TimerTransition(Fail(d), Degraded);
    TimerTransition(d, Failed);
    TimerTransition(d, Restarting);
    if e.ServerChangeRequested? {
      TimerTransition(d.(ctx := d.ctx.(targetServer := Some(e.server))), Bootstrapping);
    }
  }

  lemma TimerDegraded(d: Daemon, e: Event)
    requires TimerInv(d.(queue := [e] + d.queue)) && d.state == Degraded && !d.exited
    ensures TimerInv(InDegraded(d, e))
  {
    TimerTransition(d, Healthy);
    TimerTransition(d, Failed);
    TimerTransition(d, Restarting);
    TimerTransition(Fail(d), Restarting);
  }

  lemma TimerRestarting(d: Daemon, e: Event)
    requires TimerInv(d.(queue := [e] + d.queue)) && d.state == Restarting && !d.exited
    ensures TimerInv(InRestarting(d, e))
  {
    TimerTransition(d, Healthy);
    TimerTransition(d, Failed);
    TimerTransition(Error(d, RESTART_ERROR), Failed);
    TimerTransition(Error(d, TUNNEL_ERROR), Failed);
  }

  lemma TimerTurn(d: Daemon)
    requires TimerInv(d) && !d.exited && d.queue != []
    ensures TimerInv(Turn(d))
  {
    assert d.queue == [d.queue[0]] + d.queue[1..];
    TimerHandle(d.(queue := d.queue[1..], log := d.log + [Handled(d.queue[0])]), d.queue[0]);
  }

  lemma TimerStep(d: Daemon, a: Action)
    requires TimerInv(d) && Enabled(d, a)
    ensures TimerInv(Step(d, a))
  {
    match a
    case Dequeue => TimerTurn(d);
    case IpcStop =>
    case IpcStart =>
    case _ => BackgroundStep(d, a);
  }

  lemma {:induction false} TimerRun(d: Daemon, acts: seq<Action>)
    requires TimerInv(d) && Runs(d, acts)
    ensures TimerInv(After(d, acts))
    decreases |acts|
  {
    if acts != [] {
      TimerStep(d, acts[0]);
      TimerRun(Step(d, acts[0]), acts[1..]);
    }
  }

  /**
   No silent hang, whatever IPC does: at most one timeout task is ever armed, and in
   BOOTSTRAPPING and RESTARTING the state's own is, or a TIMEOUT waits in the queue. On exit
   no task is left.
   */
  lemma NoSilentHang(h: Host, acts: seq<Action>)
    requires Runs(Boots(h), acts)
    ensures var d := After(Boots(h), acts);
      !d.exited ==>
        && |d.armed| <= 1
        && (d.state in {Bootstrapping, Restarting} ==>
              d.timer.Some? && (d.timer.value in d.armed || Timeout in d.queue))
        && (d.state !in {Bootstrapping, Restarting} ==> d.armed == {})
    ensures After(Boots(h), acts).exited ==> After(Boots(h), acts).armed == {} && After(Boots(h), acts).boots == []
  {
    TimerRun(Boots(h), acts);
    var d := After(Boots(h), acts);
    if !d.exited && d.timer.Some? {
      var own := {d.timer.value};
      assert |own| == 1;
      assert d.armed == {} || d.armed == own;
    }
  }

  function Dequeues(acts: seq<Action>): nat {
    if acts == [] then 0 else (if acts[0].Dequeue? then 1 else 0) + Dequeues(acts[1..])
  }

  lemma InstanceStep(d: Daemon, a: Action)
    requires Enabled(d, a)
    ensures Step(d, a).instance >= d.instance
    ensures Step(d, a).instance == d.instance ==> Step(d, a).state == d.state
    ensures a.Dequeue? ==> Step(d, a).queue == d.queue[1..]
    ensures !a.Dequeue? ==> d.queue <= Step(d, a).queue
  {
    match a
    case Dequeue => HandleShape(d.(queue := d.queue[1..], log := d.log + [Handled(d.queue[0])]), d.queue[0]);
    case IpcStop =>
    case IpcStart =>
    case _ => BackgroundStep(d, a);
  }

  lemma {:induction false} InstanceRun(d: Daemon, acts: seq<Action>)
    requires Runs(d, acts)
    ensures After(d, acts).instance >= d.instance
    decreases |acts|
  {
    if acts != [] {
      InstanceStep(d, acts[0]);
      InstanceRun(Step(d, acts[0]), acts[1..]);
    }
  }

  /** Once its TIMEOUT is at index k of the queue, the state is left within k + 1 handled events. */
  lemma {:induction false} TimeoutLeaves(d: Daemon, acts: seq<Action>, k: nat)
    requires Runs(d, acts) && Timed(d.state)
    requires k < |d.queue| && d.queue[k] == Timeout
    ensures Dequeues(acts) > k ==> After(d, acts).instance > d.instance
    decreases |acts|
  {
    if acts != [] {
      var next := Step(d, acts[0]);
      InstanceStep(d, acts[0]);
      if next.instance > d.instance {
        InstanceRun(next, acts[1..]);
      } else if acts[0].Dequeue? {
        assert k > 0;
        TimeoutLeaves(next, acts[1..], k - 1);
      } else {
        TimeoutLeaves(next, acts[1..], k);
      }
    }
  }

  // ----------------------------------------------------------------- shutdown

  /** With SHUTDOWN_REQUESTED at index k and no IPC stop, the daemon has exited after k + 1 handled events. */
  lemma {:induction false} BoundedShutdown(d: Daemon, acts: seq<Action>, k: nat)
    requires Runs(d, acts) && NoStop(acts)
    requires !d.exited && d.state !in {Stopped, Failed}
    requires k < |d.queue| && d.queue[k] == ShutdownRequested
    ensures Dequeues(acts) > k ==> After(d, acts).exited && After(d, acts).state == Failed
    decreases |acts|
  {
    if acts != [] {
      var next := Step(d, acts[0]);
      assert !acts[0].IpcStop?;
      if next.exited {
        assert acts[1..] == [];
        assert next.state == Failed;
      } else {
        ShutdownStep(d, acts[0], k);
        InstanceStep(d, acts[0]);
        BoundedShutdown(next, acts[1..], if acts[0].Dequeue? then k - 1 else k);
      }
    }
  }

  lemma ShutdownStep(d: Daemon, a: Action, k: nat)
    requires Enabled(d, a) && !a.IpcStop? && d.state !in {Stopped, Failed}
    requires k < |d.queue| && d.queue[k] == ShutdownRequested
    requires !Step(d, a).exited
    ensures Step(d, a).state !in {Stopped, Failed}
    ensures a.Dequeue? ==> k > 0
  {
    match a
    case Dequeue => ShutdownTurn(d, k);
    case IpcStart =>
    case _ => BackgroundStep(d, a);
  }

  lemma ShutdownTurn(d: Daemon, k: nat)
    requires !d.exited && d.state !in {Stopped, Failed}
    requires k < |d.queue| && d.queue[k] == ShutdownRequested
    requires !Turn(d).exited
    ensures Turn(d).state !in {Stopped, Failed} && k > 0
  {
    HandlerStaysOrExits(d.(queue := d.queue[1..], log := d.log + [Handled(d.queue[0])]), d.queue[0]);
  }

  /** A handler outside STOPPED enters no STOPPED, enters FAILED by exiting, and exits on a shutdown request. */
  lemma HandlerStaysOrExits(d: Daemon, e: Event)
    requires !d.exited && d.state !in {Stopped, Failed}
    ensures Handle(d, e).state != Stopped
    ensures Handle(d, e).exited <==> Handle(d, e).state == Failed
    ensures e == ShutdownRequested ==> Handle(d, e).exited
  {
    match d.state
    case Bootstrapping =>
    case Healthy =>
    case Degraded =>
    case Restarting =>
  }

  /** STOPPED is the one state that swallows a shutdown request. */
  lemma ShutdownExitsIff(d: Daemon)
    requires !d.exited && d.state != Failed
    ensures Handle(d, ShutdownRequested).exited <==> d.state != Stopped
    ensures d.state == Stopped ==> Handle(d, ShutdownRequested) == d
  {
  }

  // -------------------------------------------------------------------- streak

  /** Failed checks handled since the last good check or entry to HEALTHY. */
  function Consecutive(log: seq<Mark>): nat {
    if log == [] then 0
    else
      var n := |log| - 1;
      if log[n] == Handled(HealthOk) || log[n] == Entered(Healthy) then 0
      else Consecutive(log[..n]) + (if log[n] == Handled(HealthFail) then 1 else 0)
  }

  /** Every RESTARTING entered on a failed check came at exactly the third in a row. */
  ghost predicate RestartsAtThree(log: seq<Mark>) {
    forall i :: 0 < i < |log| && log[i] == Entered(Restarting) && log[i - 1] == Handled(HealthFail) ==>
      Consecutive(log[..i]) == 3
  }

  ghost predicate StreakInv(d: Daemon) {
    && (d.state == Healthy ==> d.ctx.failStreak == 0 && Consecutive(d.log) == 0)
    && (d.state == Degraded ==> 1 <= d.ctx.failStreak <= 2 && d.ctx.failStreak == Consecutive(d.log))
    && d.ctx.recoveryCount == Entries(d.log, Restarting)
    && RestartsAtThree(d.log)
    && (d.log != [] && d.log[|d.log| - 1] == Handled(HealthFail) ==> d.state != Healthy)
  }

  lemma ConsecutiveOne(log: seq<Mark>, m: Mark)
    ensures Consecutive(log + [m])
         == if m == Handled(HealthOk) || m == Entered(Healthy) then 0
            else Consecutive(log) + (if m == Handled(HealthFail) then 1 else 0)
  {
    assert (log + [m])[..|log|] == log;
  }

  lemma RestartsOne(log: seq<Mark>, m: Mark)
    requires RestartsAtThree(log)
    requires m == Entered(Restarting) && log != [] && log[|log| - 1] == Handled(HealthFail) ==> Consecutive(log) == 3
    ensures RestartsAtThree(log + [m])
  {
    var more := log + [m];
    forall i | 0 < i < |more| && more[i] == Entered(Restarting) && more[i - 1] == Handled(HealthFail)
      ensures Consecutive(more[..i]) == 3
    {
      if i < |log| {
        assert more[..i] == log[..i];
        assert log[i] == more[i] && log[i - 1] == more[i - 1];
      } else {
        assert more[..i] == log;
      }
    }
  }

  lemma StreakHandled(d: Daemon, e: Event)
    requires StreakInv(d)
    ensures var log := d.log + [Handled(e)];
      && RestartsAtThree(log)
      && Entries(log, Restarting) == Entries(d.log, Restarting)
      && Consecutive(log) == if e == HealthOk then 0 else Consecutive(d.log) + (if e == HealthFail then 1 else 0)
  {
    ConsecutiveOne(d.log, Handled(e));
    RestartsOne(d.log, Handled(e));
    EntriesOne(d.log, Handled(e), Restarting);
  }

  lemma StreakEntered(log: seq<Mark>, s: State)
    requires RestartsAtThree(log)
    requires s == Restarting && log != [] && log[|log| - 1] == Handled(HealthFail) ==> Consecutive(log) == 3
    ensures var more := log + [Entered(s)];
      && RestartsAtThree(more)
      && Entries(more, Restarting) == Entries(log, Restarting) + (if s == Restarting then 1 else 0)
      && Consecutive(more) == if s == Healthy then 0 else Consecutive(log)
  {
    ConsecutiveOne(log, Entered(s));
    RestartsOne(log, Entered(s));
    EntriesOne(log, Entered(s), Restarting);
  }

  /** Entering RESTARTING on a failed check happens with the streak at three. */
  lemma HandleStreak(d: Daemon, e: Event, log: seq<Mark>)
    requires StreakInv(d.(log := log))
    requires d.log == log + [Handled(e)]
    ensures var after := Handle(d, e);
      && (after.state == Healthy ==> after.ctx.failStreak == 0)
      && (after.state == Healthy && after.instance == d.instance ==> e != HealthFail)
      && (after.state == Degraded ==> 1 <= after.ctx.failStreak <= 2)
      && (after.state == Degraded ==>
            after.ctx.failStreak == d.ctx.failStreak + (if e == HealthFail then 1 else 0)
            && d.state in {Healthy, Degraded} && (e == HealthOk ==> d.state == Healthy && after.instance == d.instance))
      && (after.state == Restarting && after.instance != d.instance && e == HealthFail ==>
            d.state == Degraded && d.ctx.failStreak == 2)
  {
    match d.state
    case Bootstrapping =>
    case Healthy =>
    case Degraded =>
    case Restarting =>
    case Stopped =>
    case Failed =>
  }

  lemma StreakTurn(d: Daemon)
    requires StreakInv(d) && d.queue != []
    ensures StreakInv(Turn(d))
  {
    var e := d.queue[0];
    var log := d.log + [Handled(e)];
    var popped := d.(queue := d.queue[1..], log := log);
    var after := Turn(d);
    StreakHandled(d, e);
    HandleShape(popped, e);
    HandleStreak(popped, e, d.log);
    if after.instance > d.instance {
      StreakEntered(log, after.state);
    }
  }

  lemma StreakStep(d: Daemon, a: Action)
    requires StreakInv(d) && Enabled(d, a)
    ensures StreakInv(Step(d, a))
  {
    match a
    case Dequeue => StreakTurn(d);
    case IpcStop => StreakTransition(d.(host := Run(d.host, StopCommands(d.ctx))), Stopped);
    case IpcStart => StreakTransition(d.(host := Run(d.host, StartOverCommands())), Bootstrapping);
    case _ =>
      BackgroundStep(d, a);
      StreakStays(d, Step(d, a));
  }

  lemma StreakTransition(d: Daemon, s: State)
    requires StreakInv(d) && s in {Stopped, Bootstrapping}
    ensures StreakInv(Transition(d, s))
  {
    StreakEntered(d.log, s);
  }

  lemma StreakStays(d: Daemon, after: Daemon)
    requires StreakInv(d) && Background(d, after)
    ensures StreakInv(after)
  {
  }

  lemma {:induction false} StreakRun(d: Daemon, acts: seq<Action>)
    requires StreakInv(d) && Runs(d, acts)
    ensures StreakInv(After(d, acts))
    decreases |acts|
  {
    if acts != [] {
      StreakStep(d, acts[0]);
      StreakRun(Step(d, acts[0]), acts[1..]);
    }
  }

  /**
   The fail streak refines the history of every run, IPC included, and the recovery
   counter counts the entries to RESTARTING.
   */
  lemma StreakRefinesHistory(h: Host, acts: seq<Action>)
    requires Runs(Boots(h), acts)
    ensures var d := After(Boots(h), acts);
      && (d.state == Healthy ==> d.ctx.failStreak == 0 == Consecutive(d.log))
      && (d.state == Degraded ==> d.ctx.failStreak == Consecutive(d.log) && 1 <= d.ctx.failStreak <= 2)
      && d.ctx.recoveryCount == Entries(d.log, Restarting)
      && RestartsAtThree(d.log)
  {
    assert [] + [Entered(Bootstrapping)] == [Entered(Bootstrapping)];
    EntriesOne([], Entered(Bootstrapping), Restarting);
    StreakRun(Boots(h), acts);
  }
}
