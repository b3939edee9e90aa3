/**
 The daemon as a transition system: the event queue, the current state, its timer, the
 bootstraps in flight, the shared context and the host they all change.

 Handlers are atomic; a bootstrap is three segments, cut where it yields to the event
 loop, and may crash after any command of a segment.
 */
module Daemon {
  import opened Wrappers
  import opened Network
  import opened Egress
  import opened Managers
  import opened Lifecycle

  datatype State = Bootstrapping | Healthy | Degraded | Restarting | Stopped | Failed

  /** `BootstrapDone` carries the state instance that spawned the bootstrap; no handler looks at it. */
  datatype Event =
    | BootstrapDone(origin: nat)
    | HealthOk
    | HealthFail
    | TunnelDied
    | SingboxDied
    | ShutdownRequested
    | ServerChangeRequested(server: string)
    | Timeout
    | RestartRequested

  datatype Context = Context(
    gateway: Option<string>,
    interface: Option<string>,
    tun2socks: Option<nat>,
    singbox: Option<nat>,
    failStreak: nat,
    recoveryCount: nat,
    activeServer: Option<string>,
    lastError: Option<string>,
    targetServer: Option<string>)

  /** A bootstrap in flight: who spawned it, how many segments it has behind it, the WAN interface it found. */
  datatype Boot = Boot(origin: nat, stage: nat, wan: string)

  /** What happened, in order: states entered and events handled. */
  datatype Mark = Entered(state: State) | Handled(event: Event)

  datatype Daemon = Daemon(
    state: State,
    instance: nat,          // number of the current state instance
    timer: Option<nat>,     // the state's own timeout task
    armed: set<nat>,        // timeout tasks the event loop still holds
    tasks: nat,             // timeout tasks created so far
    queue: seq<Event>,
    boots: seq<Boot>,
    ctx: Context,
    handle: Option<nat>,    // the tun2socks manager's process
    host: Host,
    log: seq<Mark>,
    exited: bool)

  const BOOTSTRAP_ERROR := "Bootstrap timed out after 60s"
  const RESTART_ERROR := "Restart timed out after 10s"
  const TUNNEL_ERROR := "tun2socks died repeatedly during recovery"

  function NoContext(): Context {
    Context(None, None, None, None, 0, 0, None, None, None)
  }

  // -------------------------------------------------------------- transitions

  function Arm(d: Daemon): Daemon {
    d.(timer := Some(d.tasks), armed := d.armed + {d.tasks}, tasks := d.tasks + 1)
  }

  function Leave(d: Daemon): Daemon {
    d.(timer := None, armed := if d.timer.Some? then d.armed - {d.timer.value} else d.armed)
  }

  /** A new state instance, before its `on_enter` runs. */
  function Begin(d: Daemon, s: State): Daemon {
    d.(state := s, instance := d.instance + 1, log := d.log + [Entered(s)])
  }

  /** What `on_enter` does. FAILED tears the network down and exits, which cancels every task. */
  function Settle(d: Daemon, s: State): Daemon {
    match s
    case Bootstrapping => Arm(d).(boots := d.boots + [Boot(d.instance, 0, "")])
    case Healthy => d.(ctx := d.ctx.(failStreak := 0))
    case Restarting => Arm(d.(ctx := d.ctx.(recoveryCount := d.ctx.recoveryCount + 1)))
    case Failed => d.(host := TornDown(d.host), exited := true, boots := [], armed := {})
    case _ => d
  }

  function Enter(d: Daemon, s: State): Daemon {
    Settle(Begin(d, s), s)
  }

  function Transition(d: Daemon, s: State): Daemon {
    Enter(Leave(d), s)
  }

  function Error(d: Daemon, message: string): Daemon {
    d.(ctx := d.ctx.(lastError := Some(message)))
  }

  function Fail(d: Daemon): Daemon {
    d.(ctx := d.ctx.(failStreak := d.ctx.failStreak + 1))
  }

  function InBootstrapping(d: Daemon, e: Event): Daemon {
    match e
    case BootstrapDone(_) => Transition(d, Healthy)
    case ShutdownRequested => Transition(d, Failed)
    case SingboxDied => Transition(d, Restarting)
    case Timeout => Transition(Error(d, BOOTSTRAP_ERROR), Failed)
    case _ => d
  }

  function InHealthy(d: Daemon, e: Event): Daemon {
    match e
    case HealthFail => Transition(Fail(d), Degraded)
    case ShutdownRequested => Transition(d, Failed)
    case ServerChangeRequested(server) => Transition(d.(ctx := d.ctx.(targetServer := Some(server))), Bootstrapping)
    case RestartRequested => Transition(d, Restarting)
    case TunnelDied => Transition(d, Restarting)
    case _ => d
  }

  function InDegraded(d: Daemon, e: Event): Daemon {
    match e
    case HealthOk => Transition(d, Healthy)
    case HealthFail => if Fail(d).ctx.failStreak >= 3 then Transition(Fail(d), Restarting) else Fail(d)
    case ShutdownRequested => Transition(d, Failed)
    case TunnelDied => Transition(d, Restarting)
    case _ => d
  }

  function InRestarting(d: Daemon, e: Event): Daemon {
    match e
    case BootstrapDone(_) => Transition(d, Healthy)
    case Timeout => Transition(Error(d, RESTART_ERROR), Failed)
    case ShutdownRequested => Transition(d, Failed)
    case TunnelDied => Transition(Error(d, TUNNEL_ERROR), Failed)
    case _ => d
  }

  function Handle(d: Daemon, e: Event): Daemon {
    match d.state
    case Bootstrapping => InBootstrapping(d, e)
    case Healthy => InHealthy(d, e)
    case Degraded => InDegraded(d, e)
    case Restarting => InRestarting(d, e)
    case Stopped => if e == RestartRequested then Transition(d, Bootstrapping) else d
    case Failed => d
  }

  /** One turn of the main loop. */
  function Turn(d: Daemon): Daemon
    requires d.queue != []
  {
    Handle(d.(queue := d.queue[1..], log := d.log + [Handled(d.queue[0])]), d.queue[0])
  }

  // ---------------------------------------------------------------- bootstrap

  /** What a bootstrap segment finds out from the host and the profile. */
  datatype Findings = Findings(gateway: string, interface: string, plan: Plan, server: string)

  function Segment(b: Boot, handle: Option<nat>, f: Findings): seq<Command> {
    if b.stage == 0 then StartingCommands()
    else if b.stage == 1 then RoutingCommands(f.plan)
    else FirewallCommands(b.wan) + StartCommands(handle)
  }

  /** The context's and the manager's handles, once all commands of a segment have run. */
  function Handles(d: Daemon, b: Boot, before: nat): Daemon {
    if b.stage == 0 then d.(ctx := d.ctx.(singbox := Some(before)))
    else if b.stage == 1 then d
    else d.(ctx := d.ctx.(tun2socks := Some(before)), handle := Some(before))
  }

  function Without(boots: seq<Boot>, i: nat): seq<Boot>
    requires i < |boots|
  {
    boots[..i] + boots[i + 1..]
  }

  /** Bootstrap `i` runs its next segment to the end. */
  function Advance(d: Daemon, i: nat, f: Findings): Daemon
    requires i < |d.boots|
  {
    var b := d.boots[i];
    var e := Handles(d.(host := Run(d.host, Segment(b, d.handle, f))), b, d.host.nextPid);
    if b.stage == 0 then
      e.(ctx := e.ctx.(gateway := Some(f.gateway), interface := Some(f.interface)),
         boots := d.boots[i := Boot(b.origin, 1, f.interface)])
    else if b.stage == 1 then
      e.(boots := d.boots[i := b.(stage := 2)])
    else
      e.(ctx := e.ctx.(activeServer := Some(f.server)),
         boots := Without(d.boots, i),
         queue := d.queue + [BootstrapDone(b.origin)])
  }

  /** Bootstrap `i` raises after the first `k` commands of its segment. */
  function Crash(d: Daemon, i: nat, f: Findings, k: nat): Daemon
    requires i < |d.boots| && k <= |Segment(d.boots[i], d.handle, f)|
  {
    var b := d.boots[i];
    var cmds := Segment(b, d.handle, f);
    var e := d.(host := Run(d.host, cmds[..k]));
    (if k == |cmds| then Handles(e, b, d.host.nextPid) else e).(
      boots := Without(d.boots, i), queue := d.queue + [SingboxDied])
  }

  // ---------------------------------------------------------------------- IPC

  /** How far a server switch gets. */
  datatype Applying = UnknownServer | SpawnFailed | PortClosed | TunnelFailed | Applied(ips: seq<Addr>)

  function KillOld(pid: Option<nat>): seq<Command> {
    if pid.Some? then [KillSingbox(pid.value)] else []
  }

  function ApplyCommands(d: Daemon, how: Applying): seq<Command> {
    match how
    case UnknownServer => []
    case SpawnFailed => KillOld(d.ctx.singbox)
    case PortClosed => KillOld(d.ctx.singbox) + [SpawnSingbox]
    case TunnelFailed => KillOld(d.ctx.singbox) + [SpawnSingbox] + KillOldTunnel(d.handle)
    case Applied(ips) =>
      KillOld(d.ctx.singbox) + [SpawnSingbox] + StartCommands(d.handle) + [RuleDrain(1)] + ServerCommands(ips)
  }

  function Apply(d: Daemon, server: string, how: Applying): Daemon {
    var e := d.(host := Run(d.host, ApplyCommands(d, how)));
    var pid := d.host.nextPid;
    if how.UnknownServer? || how.SpawnFailed? then e
    else if how.PortClosed? || how.TunnelFailed? then e.(ctx := e.ctx.(singbox := Some(pid)))
    else e.(ctx := e.ctx.(singbox := Some(pid), tun2socks := Some(pid + 1), activeServer := Some(server)),
            handle := Some(pid + 1))
  }

  /** A switch that succeeds, stage by stage. */
  lemma ApplyStages(d: Daemon, server: string, ips: seq<Addr>)
    ensures Apply(d, server, Applied(ips)) == d.(
      host := Run(Run(Run(Run(d.host, KillOld(d.ctx.singbox) + [SpawnSingbox]), StartCommands(d.handle)), [RuleDrain(1)]),
                  ServerCommands(ips)),
      ctx := d.ctx.(singbox := Some(d.host.nextPid), tun2socks := Some(d.host.nextPid + 1), activeServer := Some(server)),
      handle := Some(d.host.nextPid + 1))
  {
    AppliedHost(d, ips);
  }

  lemma AppliedHost(d: Daemon, ips: seq<Addr>)
    ensures Run(d.host, ApplyCommands(d, Applied(ips)))
      == Run(Run(Run(Run(d.host, KillOld(d.ctx.singbox) + [SpawnSingbox]), StartCommands(d.handle)), [RuleDrain(1)]),
             ServerCommands(ips))
  {
    AppliedCommands(d, ips);
    RunStages(d.host, KillOld(d.ctx.singbox) + [SpawnSingbox], StartCommands(d.handle), [RuleDrain(1)],
              ServerCommands(ips));
  }

  lemma AppliedCommands(d: Daemon, ips: seq<Addr>)
    ensures ApplyCommands(d, Applied(ips))
      == KillOld(d.ctx.singbox) + [SpawnSingbox] + StartCommands(d.handle) + [RuleDrain(1)] + ServerCommands(ips)
  {
  }

  /** Restarting sing-box and then the tunnel amounts to the whole switch. */
  lemma ApplyAssembled(before: Daemon, mid: Daemon, after: Daemon, server: string, ips: seq<Addr>, host: Host)
    requires mid == before.(host := mid.host, ctx := before.ctx.(singbox := Some(before.host.nextPid)))
    requires mid.host == Run(before.host, KillOld(before.ctx.singbox) + [SpawnSingbox])
    requires mid.host.nextPid == before.host.nextPid + 1
    requires host == Run(Run(Run(mid.host, StartCommands(mid.handle)), [RuleDrain(1)]), ServerCommands(ips))
    requires after == mid.(host := host,
      ctx := mid.ctx.(tun2socks := Some(mid.host.nextPid), activeServer := Some(server)),
      handle := Some(mid.host.nextPid))
    ensures after == Apply(before, server, Applied(ips))
  {
    ApplyStages(before, server, ips);
  }

  /** A switch that stops after sing-box, with the old tunnel still up or already gone. */
  lemma ApplyHalfway(d: Daemon, server: string)
    ensures var spawned := Run(d.host, KillOld(d.ctx.singbox) + [SpawnSingbox]);
      var ctx := d.ctx.(singbox := Some(d.host.nextPid));
      && Apply(d, server, PortClosed) == d.(host := spawned, ctx := ctx)
      && Apply(d, server, TunnelFailed) == d.(host := Run(spawned, KillOldTunnel(d.handle)), ctx := ctx)
  {
    RunConcat(d.host, KillOld(d.ctx.singbox) + [SpawnSingbox], KillOldTunnel(d.handle));
  }

  function StopCommands(ctx: Context): seq<Command> {
    KillOld(ctx.singbox) + KillOldTunnel(ctx.tun2socks) + [TunDown, TunDelete, RouteFlush, RulesClear] + FIREWALL_OFF
  }

  const LEFTOVERS_OFF: seq<Command> := [TunDelete, RouteFlush, PkillSingbox, PkillTun2socks]

  function StartOverCommands(): seq<Command> {
    LEFTOVERS_OFF + NAT_OFF + [MssDelete, RulesClear]
  }

  lemma StartOverStages(h: Host)
    ensures Run(h, StartOverCommands()) == Run(Run(Run(h, LEFTOVERS_OFF), NAT_OFF), [MssDelete, RulesClear])
  {
    RunConcat(h, LEFTOVERS_OFF + NAT_OFF, [MssDelete, RulesClear]);
    RunConcat(h, LEFTOVERS_OFF, NAT_OFF);
  }

  // -------------------------------------------------------------------- steps

  datatype Action =
    | Dequeue
    | Post(event: Event)
    | Fire(task: nat)
    | AdvanceBoot(boot: nat, findings: Findings)
    | CrashBoot(boot: nat, findings: Findings, after: nat)
    | IpcStop
    | IpcStart
    | IpcApply(server: string, how: Applying)
    | IpcRoute(cmds: seq<Command>)
    | ProcessDies(pid: nat)

  /** Only a finished bootstrap posts BOOTSTRAP_DONE and only a timer posts TIMEOUT. */
  predicate Postable(e: Event) {
    !e.BootstrapDone? && !e.Timeout?
  }

  predicate IsRouteCommand(c: Command) {
    c.RouteAdd? || c.RouteDelete?
  }

  predicate Enabled(d: Daemon, a: Action) {
    !d.exited &&
    match a
    case Dequeue => d.queue != []
    case Post(e) => Postable(e)
    case Fire(t) => t in d.armed
    case AdvanceBoot(i, f) => i < |d.boots|
    case CrashBoot(i, f, k) => i < |d.boots| && k <= |Segment(d.boots[i], d.handle, f)|
    case IpcRoute(cmds) => forall i :: 0 <= i < |cmds| ==> IsRouteCommand(cmds[i])
    case _ => true
  }

  function Step(d: Daemon, a: Action): Daemon
    requires Enabled(d, a)
  {
    match a
    case Dequeue => Turn(d)
    case Post(e) => d.(queue := d.queue + [e])
    case Fire(t) => d.(armed := d.armed - {t}, queue := d.queue + [Timeout])
    case AdvanceBoot(i, f) => Advance(d, i, f)
    case CrashBoot(i, f, k) => Crash(d, i, f, k)
    case IpcStop => Transition(d.(host := Run(d.host, StopCommands(d.ctx))), Stopped)
    case IpcStart => Transition(d.(host := Run(d.host, StartOverCommands())), Bootstrapping)
    case IpcApply(server, how) => Apply(d, server, how)
    case IpcRoute(cmds) => d.(host := Run(d.host, cmds))
    case ProcessDies(pid) => d.(host := d.host.(singbox := d.host.singbox - {pid}, tun2socks := d.host.tun2socks - {pid}))
  }

  /** A fresh daemon enters its initial state before it serves anything. */
  function Boots(h: Host): Daemon {
    Enter(Daemon(Stopped, 0, None, {}, 0, [], [], NoContext(), None, h, [], false), Bootstrapping)
  }

  predicate Runs(d: Daemon, acts: seq<Action>)
    decreases |acts|
  {
    acts == [] || (Enabled(d, acts[0]) && Runs(Step(d, acts[0]), acts[1..]))
  }

  function After(d: Daemon, acts: seq<Action>): Daemon
    requires Runs(d, acts)
    decreases |acts|
  {
    if acts == [] then d else After(Step(d, acts[0]), acts[1..])
  }

  lemma {:induction false} AfterLast(d: Daemon, acts: seq<Action>, a: Action)
    requires Runs(d, acts) && Enabled(After(d, acts), a)
    ensures Runs(d, acts + [a]) && After(d, acts + [a]) == Step(After(d, acts), a)
    decreases |acts|
  {
    var all := acts + [a];
    if acts == [] {
      assert all == [a] && all[1..] == [];
    } else {
      assert all[0] == acts[0] && all[1..] == acts[1..] + [a];
      AfterLast(Step(d, acts[0]), acts[1..], a);
    }
  }
}
