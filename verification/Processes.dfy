/** Which processes are alive, and who holds their handles, over whole runs. */
module Processes {
  import opened Wrappers
  import opened Network
  import opened Egress
  import opened Routes
  import opened Managers
  import opened Lifecycle
  import opened Daemon
  import opened Cleanup

  function Holding(handle: Option<nat>): set<nat> {
    if handle.Some? then {handle.value} else {}
  }

  predicate Spawns(c: Command) {
    c == SpawnSingbox || c == SpawnTun2socks
  }

  /** Without a spawn, processes only go away. */
  ghost predicate Fewer(h: Host, after: Host) {
    after.singbox <= h.singbox && after.tun2socks <= h.tun2socks && after.nextPid == h.nextPid
  }

  lemma {:induction false} NoSpawn(h: Host, cmds: seq<Command>)
    requires forall c :: c in cmds ==> !Spawns(c)
    ensures Fewer(h, Run(h, cmds))
    decreases |cmds|
  {
    if cmds != [] {
      assert !Spawns(cmds[0]);
      NoSpawn(Exec(h, cmds[0]), cmds[1..]);
    }
  }

  /** A prefix that stops short of the last command, where the only spawn is, spawns nothing. */
  lemma PrefixSpawnsNothing(h: Host, cmds: seq<Command>, last: Command, k: nat)
    requires k <= |cmds| && forall c :: c in cmds ==> !Spawns(c)
    ensures Fewer(h, Run(h, (cmds + [last])[..k]))
  {
    assert (cmds + [last])[..k] == cmds[..k];
    NoSpawn(h, cmds[..k]);
  }

  ghost predicate ProcInv(d: Daemon) {
    && d.host.singbox <= Holding(d.ctx.singbox)
    && d.host.tun2socks <= Holding(d.handle)
    && d.ctx.tun2socks == d.handle
  }

  // -------------------------------------------------------- bootstrap segments

  /** Stopping the manager's process leaves no tun2socks, so the one started next is alone. */
  lemma TunnelReplaced(h: Host, handle: Option<nat>)
    requires h.tun2socks <= Holding(handle)
    ensures var after := Run(h, StartCommands(handle));
      after.tun2socks == {h.nextPid} && after.singbox == h.singbox && after.nextPid == h.nextPid + 1
  {
    StartSplits(handle);
    RunConcat(h, KillOldTunnel(handle), [SpawnTun2socks]);
    var stopped := Run(h, KillOldTunnel(handle));
    if handle.Some? {
      RunOne(h, KillTun2socks(handle.value));
      assert h.tun2socks - {handle.value} == {};
    }
    assert stopped.tun2socks == {} && stopped.nextPid == h.nextPid;
    RunOne(stopped, SpawnTun2socks);
    Spawned(stopped);
  }

  lemma RoutingSpawnsNothing(p: Plan)
    ensures forall c :: c in RoutingCommands(p) ==> !Spawns(c)
  {
    ServersAreRules(p.servers);
    DnsAreRules(p.dns);
    LanAreRules(p.lan);
    BatchIsRoutes(Meanings(p.kept));
  }

  lemma StartingProcs(d: Daemon, i: nat, f: Findings)
    requires ProcInv(d) && i < |d.boots| && d.boots[i].stage == 0
    ensures ProcInv(Advance(d, i, f))
  {
    var after := StartingEffect(d.host);
  }

  lemma StartingCrashProcs(d: Daemon, i: nat, f: Findings, k: nat)
    requires ProcInv(d) && i < |d.boots| && d.boots[i].stage == 0 && k <= |Segment(d.boots[i], d.handle, f)|
    ensures ProcInv(Crash(d, i, f, k))
  {
    var cmds := StartingCommands();
    if k == |cmds| {
      assert cmds[..k] == cmds;
      var after := StartingEffect(d.host);
    } else {
      PrefixSpawnsNothing(d.host, TeardownCommands(), SpawnSingbox, k);
    }
  }

  lemma RoutingProcs(d: Daemon, i: nat, f: Findings)
    requires ProcInv(d) && i < |d.boots| && d.boots[i].stage == 1
    ensures ProcInv(Advance(d, i, f))
    ensures forall k :: 0 <= k <= |RoutingCommands(f.plan)| ==> ProcInv(Crash(d, i, f, k))
  {
    var cmds := RoutingCommands(f.plan);
    RoutingSpawnsNothing(f.plan);
    NoSpawn(d.host, cmds);
    forall k | 0 <= k <= |cmds| ensures ProcInv(Crash(d, i, f, k)) {
      NoSpawn(d.host, cmds[..k]);
    }
  }

  lemma FirewallProcs(d: Daemon, i: nat, f: Findings)
    requires ProcInv(d) && i < |d.boots| && d.boots[i].stage >= 2
    ensures ProcInv(Advance(d, i, f))
    ensures forall k :: 0 <= k <= |FirewallCommands(d.boots[i].wan) + StartCommands(d.handle)| ==> ProcInv(Crash(d, i, f, k))
  {
    var wan := d.boots[i].wan;
    var quiet := FirewallCommands(wan) + KillOldTunnel(d.handle);
    var cmds := FirewallCommands(wan) + StartCommands(d.handle);
    StartSplits(d.handle);
    assert cmds == quiet + [SpawnTun2socks];
    NoSpawn(d.host, FirewallCommands(wan));
    RunConcat(d.host, FirewallCommands(wan), StartCommands(d.handle));
    TunnelReplaced(Run(d.host, FirewallCommands(wan)), d.handle);
    forall k | 0 <= k <= |cmds| ensures ProcInv(Crash(d, i, f, k)) {
      if k == |cmds| {
        assert cmds[..k] == cmds;
      } else {
        PrefixSpawnsNothing(d.host, quiet, SpawnTun2socks, k);
      }
    }
  }

  // ------------------------------------------------------------- server switch

  lemma SingboxReplaced(d: Daemon)
    requires ProcInv(d)
    ensures var after := Run(d.host, KillOld(d.ctx.singbox));
      after.singbox == {} && after.tun2socks == d.host.tun2socks && after.nextPid == d.host.nextPid
    ensures var after := Run(d.host, KillOld(d.ctx.singbox) + [SpawnSingbox]);
      after.singbox == {d.host.nextPid} && after.tun2socks == d.host.tun2socks && after.nextPid == d.host.nextPid + 1
  {
    var killed := Run(d.host, KillOld(d.ctx.singbox));
    if d.ctx.singbox.Some? {
      RunOne(d.host, KillSingbox(d.ctx.singbox.value));
    }
    assert killed.singbox == {};
    RunConcat(d.host, KillOld(d.ctx.singbox), [SpawnSingbox]);
    RunOne(killed, SpawnSingbox);
    Spawned(killed);
  }

  lemma ApplyProcs(d: Daemon, server: string, how: Applying)
    requires ProcInv(d)
    ensures ProcInv(Apply(d, server, how))
  {
    SingboxReplaced(d);
    var spawned := KillOld(d.ctx.singbox) + [SpawnSingbox];
    var h := Run(d.host, spawned);
    match how
    case UnknownServer =>
    case SpawnFailed =>
    case PortClosed =>
    case TunnelFailed =>
      RunConcat(d.host, spawned, KillOldTunnel(d.handle));
      NoSpawn(h, KillOldTunnel(d.handle));
    case Applied(ips) =>
      AppliedOutcome(d, spawned, ips);
  }

  /**
   How far a switch gets decides which processes it replaces: sing-box once the server is
   known, and the tunnel only once sing-box answers; the active server changes at the very end.
   */
  lemma SwitchOutcome(d: Daemon, server: string, how: Applying)
    requires ProcInv(d)
    ensures var after, pid := Apply(d, server, how), d.host.nextPid;
      && after.host.singbox == (if how.UnknownServer? then d.host.singbox else if how.SpawnFailed? then {} else {pid})
      && after.host.tun2socks
         == (if how.Applied? then {pid + 1} else if how.TunnelFailed? then {} else d.host.tun2socks)
      && after.ctx.singbox == (if how.UnknownServer? || how.SpawnFailed? then d.ctx.singbox else Some(pid))
      && after.ctx.tun2socks == (if how.Applied? then Some(pid + 1) else d.ctx.tun2socks)
      && after.handle == (if how.Applied? then Some(pid + 1) else d.handle)
      && after.ctx.activeServer == (if how.Applied? then Some(server) else d.ctx.activeServer)
      && after.state == d.state && after.queue == d.queue && after.boots == d.boots
  {
    SingboxReplaced(d);
    var spawned := KillOld(d.ctx.singbox) + [SpawnSingbox];
    match how
    case TunnelFailed =>
      RunConcat(d.host, spawned, KillOldTunnel(d.handle));
      TunnelStopped(Run(d.host, spawned), d.handle);
    case Applied(ips) => AppliedOutcome(d, spawned, ips);
    case _ =>
  }

  lemma TunnelStopped(h: Host, handle: Option<nat>)
    requires h.tun2socks <= Holding(handle)
    ensures var after := Run(h, KillOldTunnel(handle));
      after.tun2socks == {} && after.singbox == h.singbox && after.nextPid == h.nextPid
  {
    if handle.Some? {
      RunOne(h, KillTun2socks(handle.value));
      assert h.tun2socks - {handle.value} == {};
    }
  }

  lemma RulesSpareProcesses(h: Host, ips: seq<Addr>)
    ensures var after := Run(h, [RuleDrain(1)] + ServerCommands(ips));
      after.singbox == h.singbox && after.tun2socks == h.tun2socks && after.nextPid == h.nextPid
  {
    RunConcat(h, [RuleDrain(1)], ServerCommands(ips));
    RunOne(h, RuleDrain(1));
    RunServers(Run(h, [RuleDrain(1)]), ips);
  }

  lemma AppliedOutcome(d: Daemon, spawned: seq<Command>, ips: seq<Addr>)
    requires ProcInv(d) && spawned == KillOld(d.ctx.singbox) + [SpawnSingbox]
    ensures var after := Run(d.host, ApplyCommands(d, Applied(ips)));
      after.singbox == {d.host.nextPid} && after.tun2socks == {d.host.nextPid + 1}
  {
    var rest := [RuleDrain(1)] + ServerCommands(ips);
    SingboxReplaced(d);
    AppliedCommands(d, ips);
    assert ApplyCommands(d, Applied(ips)) == spawned + StartCommands(d.handle) + rest;
    RunConcat(d.host, spawned + StartCommands(d.handle), rest);
    RunConcat(d.host, spawned, StartCommands(d.handle));
    TunnelReplaced(Run(d.host, spawned), d.handle);
    RulesSpareProcesses(Run(Run(d.host, spawned), StartCommands(d.handle)), ips);
  }

  // --------------------------------------------------------------- whole runs

  lemma ProcTurn(d: Daemon)
    requires ProcInv(d) && d.queue != []
    ensures ProcInv(Turn(d))
  {
    var p := d.(queue := d.queue[1..], log := d.log + [Handled(d.queue[0])]);
    var q, s := HandleByTransition(p, d.queue[0]);
    assert ProcInv(q);
    ProcTransition(q, s);
  }

  lemma ProcTransition(d: Daemon, s: State)
    requires ProcInv(d)
    ensures ProcInv(Transition(d, s))
  {
    if s == Failed {
      var torn := TornDownEffect(d.host);
    }
  }

  lemma ProcStep(d: Daemon, a: Action)
    requires ProcInv(d) && Enabled(d, a)
    ensures ProcInv(Step(d, a))
  {
    match a
    case Dequeue => ProcTurn(d);
    case AdvanceBoot(i, f) =>
      if d.boots[i].stage == 0 { StartingProcs(d, i, f); }
      else if d.boots[i].stage == 1 { RoutingProcs(d, i, f); }
      else { FirewallProcs(d, i, f); }
    case CrashBoot(i, f, k) =>
      if d.boots[i].stage == 0 { StartingCrashProcs(d, i, f, k); }
      else if d.boots[i].stage == 1 { RoutingProcs(d, i, f); }
      else { FirewallProcs(d, i, f); }
    case IpcStop => NoSpawn(d.host, StopCommands(d.ctx));
    case IpcStart => NoSpawn(d.host, StartOverCommands());
    case IpcApply(server, how) => ApplyProcs(d, server, how);
    case IpcRoute(cmds) =>
      forall c | c in cmds ensures !Spawns(c) {
        var i :| 0 <= i < |cmds| && cmds[i] == c;
        assert IsRouteCommand(cmds[i]);
      }
      NoSpawn(d.host, cmds);
    case Post(_) =>
    case Fire(_) =>
    case ProcessDies(_) =>
  }

  lemma {:induction false} ProcRun(d: Daemon, acts: seq<Action>)
    requires ProcInv(d) && Runs(d, acts)
    ensures ProcInv(After(d, acts))
    decreases |acts|
  {
    if acts != [] {
      ProcStep(d, acts[0]);
      ProcRun(Step(d, acts[0]), acts[1..]);
    }
  }

  /**
   In every run, IPC included: the only sing-box alive is the context's, the only
   tun2socks the manager's, and the context and the manager agree on it.
   */
  lemma ProcessesAreOwned(h: Host, acts: seq<Action>)
    requires h.singbox == {} && h.tun2socks == {} && Runs(Boots(h), acts)
    ensures ProcInv(After(Boots(h), acts))
  {
    ProcRun(Boots(h), acts);
  }
}
