/** The daemon's state diagram, and what the queue, the log and the context say of every run. */
module Diagram {
  import opened Wrappers
  import opened Network
  import opened Daemon
  import opened Safety

  /** The arrows of the diagram. The third failed check in a row, in DEGRADED, is the one that is not among them. */
  predicate Arrow(s: State, e: Event, t: State) {
    match s
    case Bootstrapping =>
      || (e.BootstrapDone? && t == Healthy)
      || (e == SingboxDied && t == Restarting)
      || (e in {ShutdownRequested, Timeout} && t == Failed)
    case Healthy =>
      || (e == HealthFail && t == Degraded)
      || (e in {RestartRequested, TunnelDied} && t == Restarting)
      || (e.ServerChangeRequested? && t == Bootstrapping)
      || (e == ShutdownRequested && t == Failed)
    case Degraded =>
      || (e == HealthOk && t == Healthy)
      || (e == TunnelDied && t == Restarting)
      || (e == ShutdownRequested && t == Failed)
    case Restarting =>
      || (e.BootstrapDone? && t == Healthy)
      || (e in {Timeout, TunnelDied, ShutdownRequested} && t == Failed)
    case Stopped => e == RestartRequested && t == Bootstrapping
    case Failed => false
  }

  /** What a step that follows an arrow adds to the log and to the recovery counter. */
  ghost predicate Along(d: Daemon, after: Daemon, e: Event, t: State) {
    && after.state == t && after.instance == d.instance + 1
    && after.log == d.log + [Handled(e), Entered(t)]
    && after.ctx.recoveryCount == d.ctx.recoveryCount + (if t == Restarting then 1 else 0)
  }

  lemma ArrowHandled(d: Daemon, e: Event, t: State)
    requires !d.exited && Arrow(d.state, e, t)
    ensures Handle(d, e).state == t && Handle(d, e).instance == d.instance + 1
  {
    match d.state
    case Bootstrapping =>
    case Healthy =>
    case Degraded =>
    case Restarting =>
    case Stopped =>
  }

  lemma ArrowTurn(d: Daemon, t: State)
    requires !d.exited && d.queue != [] && Arrow(d.state, d.queue[0], t)
    ensures Along(d, Turn(d), d.queue[0], t)
  {
    var e := d.queue[0];
    var popped := d.(queue := d.queue[1..], log := d.log + [Handled(e)]);
    HandleShape(popped, e);
    ArrowHandled(popped, e, t);
    assert d.log + [Handled(e)] + [Entered(t)] == d.log + [Handled(e), Entered(t)];
  }

  lemma Grown(d: Daemon, acts: seq<Action>, n: nat)
    requires acts != [] && Enabled(d, acts[0]) && n <= |acts[1..]|
    requires Runs(Step(d, acts[0]), acts[1..][..n])
    ensures Runs(d, acts[..n + 1]) && After(d, acts[..n + 1]) == After(Step(d, acts[0]), acts[1..][..n])
    ensures Dequeues(acts[..n + 1]) == (if acts[0].Dequeue? then 1 else 0) + Dequeues(acts[1..][..n])
  {
    assert acts[..n + 1][0] == acts[0] && acts[..n + 1][1..] == acts[1..][..n];
  }

  /**
   An event at index k of the queue with an arrow from the current state: whatever else
   happens, the state instance is left within k + 1 handled events, and if it still lasts when
   that event is handled, it is left along the arrow.
   */
  lemma {:induction false} ArrowTaken(d: Daemon, acts: seq<Action>, k: nat, t: State) returns (n: nat)
    requires Runs(d, acts) && !d.exited && Dequeues(acts) > k
    requires k < |d.queue| && Arrow(d.state, d.queue[k], t)
    ensures n < |acts| && Runs(d, acts[..n]) && Runs(d, acts[..n + 1]) && Dequeues(acts[..n]) <= k
    ensures var before, after := After(d, acts[..n]), After(d, acts[..n + 1]);
      && before.instance == d.instance && before.state == d.state && after.instance > d.instance
      && (Dequeues(acts[..n]) == k && acts[n].Dequeue? ==> Along(before, after, d.queue[k], t))
    decreases |acts|
  {
    var next := Step(d, acts[0]);
    InstanceStep(d, acts[0]);
    if next.instance > d.instance {
      n := 0;
      assert acts[..0] == [];
      assert acts[1..][..0] == [];
      Grown(d, acts, 0);
      if acts[0].Dequeue? && k == 0 {
        ArrowTurn(d, t);
      }
    } else {
      if acts[0].Dequeue? && k == 0 {
        ArrowTurn(d, t);
        assert false;
      }
      StillAlive(d, acts[0], acts[1..]);
      var j := if acts[0].Dequeue? then k - 1 else k;
      var m := ArrowTaken(next, acts[1..], j, t);
      Grown(d, acts, m);
      Grown(d, acts, m + 1);
      n := m + 1;
    }
  }

  lemma StillAlive(d: Daemon, a: Action, rest: seq<Action>)
    requires Enabled(d, a) && Runs(Step(d, a), rest) && Dequeues(rest) > 0
    ensures !Step(d, a).exited
  {
  }

  /** An event without an arrow is dropped, but for the failed checks that DEGRADED counts. */
  lemma OtherEventsDropped(d: Daemon)
    requires !d.exited && d.queue != [] && d.state != Failed
    requires forall t :: !Arrow(d.state, d.queue[0], t)
    requires !(d.state == Degraded && d.queue[0] == HealthFail)
    ensures Turn(d) == d.(queue := d.queue[1..], log := d.log + [Handled(d.queue[0])])
  {
    var e := d.queue[0];
    assert forall t :: !Arrow(d.state, e, t);
    assert !Arrow(d.state, e, Healthy) && !Arrow(d.state, e, Degraded) && !Arrow(d.state, e, Restarting);
    assert !Arrow(d.state, e, Bootstrapping) && !Arrow(d.state, e, Failed);
    match d.state
    case Bootstrapping =>
    case Healthy =>
    case Degraded =>
    case Restarting =>
    case Stopped =>
  }

  // ------------------------------------------------------- what the context tells

  /** The state a log ends in. */
  function LastEntered(log: seq<Mark>): Option<State> {
    if log == [] then None
    else if log[|log| - 1].Entered? then Some(log[|log| - 1].state)
    else LastEntered(log[..|log| - 1])
  }

  /** The error an event is in a state, if it is one. */
  function ErrorOf(from: Option<State>, e: Event): Option<string> {
    if from == Some(Bootstrapping) && e == Timeout then Some("Bootstrap timed out after 60s")
    else if from == Some(Restarting) && e == Timeout then Some("Restart timed out after 10s")
    else if from == Some(Restarting) && e == TunnelDied then Some("tun2socks died repeatedly during recovery")
    else None
  }

  /** Why the process ended, as far as it says. */
  function Reason(log: seq<Mark>): Option<string> {
    var n := |log|;
    if n < 2 || log[n - 1] != Entered(Failed) || !log[n - 2].Handled? then None
    else ErrorOf(LastEntered(log[..n - 2]), log[n - 2].event)
  }

  /** The server last asked for while HEALTHY. */
  function Asked(log: seq<Mark>): Option<string> {
    if log == [] then None
    else
      var front, last := log[..|log| - 1], log[|log| - 1];
      if last.Handled? && last.event.ServerChangeRequested? && LastEntered(front) == Some(Healthy)
      then Some(last.event.server)
      else Asked(front)
  }

  ghost predicate Told(d: Daemon) {
    && LastEntered(d.log) == Some(d.state)
    && (!d.exited ==> d.ctx.lastError == None)
    && (d.exited ==> d.ctx.lastError == Reason(d.log))
    && d.ctx.targetServer == Asked(d.log)
  }

  lemma OneMore(log: seq<Mark>, m: Mark)
    ensures LastEntered(log + [m]) == if m.Entered? then Some(m.state) else LastEntered(log)
    ensures Asked(log + [m])
         == if m.Handled? && m.event.ServerChangeRequested? && LastEntered(log) == Some(Healthy) then Some(m.event.server)
            else Asked(log)
  {
    assert (log + [m])[..|log|] == log;
  }

  lemma ReasonAfter(log: seq<Mark>, e: Event, t: State)
    ensures Reason(log + [Handled(e)] + [Entered(t)]) == if t == Failed then ErrorOf(LastEntered(log), e) else None
  {
    var more := log + [Handled(e)] + [Entered(t)];
    assert more[..|more| - 2] == log;
    assert more[|more| - 2] == Handled(e) && more[|more| - 1] == Entered(t);
  }

  lemma HandledErrors(d: Daemon, e: Event)
    requires !d.exited && d.ctx.lastError == None && d.state != Failed
    ensures var after := Handle(d, e);
      && (!after.exited ==> after.ctx.lastError == None)
      && (after.exited ==> after.instance != d.instance && after.state == Failed)
      && (after.exited ==> after.ctx.lastError == ErrorOf(Some(d.state), e))
      && after.ctx.targetServer
            == (if d.state == Healthy && e.ServerChangeRequested? then Some(e.server) else d.ctx.targetServer)
  {
    match d.state
    case Bootstrapping =>
    case Healthy =>
    case Degraded =>
    case Restarting =>
    case Stopped =>
  }

  lemma ToldTurn(d: Daemon)
    requires Told(d) && !d.exited && d.state != Failed && d.queue != []
    ensures Told(Turn(d))
  {
    var e := d.queue[0];
    var popped := d.(queue := d.queue[1..], log := d.log + [Handled(e)]);
    HandleShape(popped, e);
    HandledErrors(popped, e);
    OneMore(d.log, Handled(e));
    OneMore(popped.log, Entered(Turn(d).state));
    ReasonAfter(d.log, e, Turn(d).state);
  }

  lemma ToldBackground(d: Daemon, a: Action)
    requires Told(d) && Enabled(d, a) && !a.Dequeue? && !IsStopStart(a)
    ensures Told(Step(d, a))
  {
    BackgroundStep(d, a);
    ContextKept(d, a);
  }

  lemma ContextKept(d: Daemon, a: Action)
    requires Enabled(d, a) && !a.Dequeue?
    ensures Step(d, a).ctx.lastError == d.ctx.lastError && Step(d, a).ctx.targetServer == d.ctx.targetServer
  {
    match a
    case AdvanceBoot(_, _) =>
    case CrashBoot(_, _, _) =>
    case _ =>
  }

  lemma ToldStep(d: Daemon, a: Action)
    requires Told(d) && TimerInv(d) && Enabled(d, a)
    ensures Told(Step(d, a))
  {
    match a
    case Dequeue => ToldTurn(d);
    case IpcStop =>
      ContextKept(d, a);
      OneMore(d.log, Entered(Stopped));
    case IpcStart =>
      ContextKept(d, a);
      OneMore(d.log, Entered(Bootstrapping));
    case _ => ToldBackground(d, a);
  }

  lemma {:induction false} ToldRun(d: Daemon, acts: seq<Action>)
    requires Told(d) && TimerInv(d) && Runs(d, acts)
    ensures Told(After(d, acts))
    decreases |acts|
  {
    if acts != [] {
      ToldStep(d, acts[0]);
      TimerStep(d, acts[0]);
      ToldRun(Step(d, acts[0]), acts[1..]);
    }
  }

  /**
   In every run, IPC included: an error is on record exactly when the process has ended for
   one, and says which, and the target server is the one last asked for while HEALTHY.
   */
  lemma ContextTellsHistory(h: Host, acts: seq<Action>)
    requires Runs(Boots(h), acts)
    ensures var d := After(Boots(h), acts);
      && d.ctx.lastError == (if d.exited then Reason(d.log) else None)
      && d.ctx.targetServer == Asked(d.log)
  {
    assert [] + [Entered(Bootstrapping)] == [Entered(Bootstrapping)];
    OneMore([], Entered(Bootstrapping));
    ToldRun(Boots(h), acts);
  }
  // ------------------------------------------------------- what the context is told

  /** The topology found by the last first segment, and the server of the last bootstrap or switch that got through. */
  datatype News = News(gateway: Option<string>, interface: Option<string>, server: Option<string>)

  function Heard(n: News, d: Daemon, a: Action): News
    requires Enabled(d, a)
  {
    match a
    case AdvanceBoot(i, f) =>
      if d.boots[i].stage == 0 then n.(gateway := Some(f.gateway), interface := Some(f.interface))
      else if d.boots[i].stage >= 2 then n.(server := Some(f.server))
      else n
    case IpcApply(server, Applied(_)) => n.(server := Some(server))
    case _ => n
  }

  function HeardInAll(n: News, d: Daemon, acts: seq<Action>): News
    requires Runs(d, acts)
    decreases |acts|
  {
    if acts == [] then n else HeardInAll(Heard(n, d, acts[0]), Step(d, acts[0]), acts[1..])
  }

  function NewsOf(ctx: Context): News {
    News(ctx.gateway, ctx.interface, ctx.activeServer)
  }

  lemma HandlersTellNothing(d: Daemon, e: Event)
    ensures NewsOf(Handle(d, e).ctx) == NewsOf(d.ctx)
  {
    match d.state
    case Bootstrapping =>
    case Healthy =>
    case Degraded =>
    case Restarting =>
    case Stopped =>
    case Failed =>
  }

  lemma StepTells(d: Daemon, a: Action)
    requires Enabled(d, a)
    ensures NewsOf(Step(d, a).ctx) == Heard(NewsOf(d.ctx), d, a)
  {
    match a
    case Dequeue => HandlersTellNothing(d.(queue := d.queue[1..], log := d.log + [Handled(d.queue[0])]), d.queue[0]);
    case _ =>
  }

  lemma {:induction false} RunTells(d: Daemon, acts: seq<Action>)
    requires Runs(d, acts)
    ensures NewsOf(After(d, acts).ctx) == HeardInAll(NewsOf(d.ctx), d, acts)
    decreases |acts|
  {
    if acts != [] {
      StepTells(d, acts[0]);
      RunTells(Step(d, acts[0]), acts[1..]);
    }
  }

  /** In every run the context names the gateway and interface found last, and the server that got through last. */
  lemma ContextTellsNews(h: Host, acts: seq<Action>)
    requires Runs(Boots(h), acts)
    ensures var ctx := After(Boots(h), acts).ctx;
      News(ctx.gateway, ctx.interface, ctx.activeServer) == HeardInAll(News(None, None, None), Boots(h), acts)
  {
    RunTells(Boots(h), acts);
  }
}
