/** What IPC stop and start leave behind: they do not cancel a bootstrap in flight. */
module Overlap {
  import opened Wrappers
  import opened Network
  import opened Rules
  import opened Egress
  import opened Managers
  import opened Lifecycle
  import opened Daemon
  import opened Safety
  import opened Cleanup
  import opened Processes

  /** A complete firewall segment adds one clamp rule, whatever it finds. */
  lemma FirewallOnMss(h: Host, wan: string)
    ensures Run(h, FirewallCommands(wan)).mss == h.mss + 1
  {
    FirewallStages(h, wan);
    NatOnEffect(h, wan);
  }

  lemma TunnelMss(h: Host, handle: Option<nat>)
    ensures Run(h, StartCommands(handle)).mss == h.mss
  {
    NoAppends(StartCommands(handle));
    MssGrowth(h, StartCommands(handle));
  }

  lemma FirewallMss(h: Host, wan: string, handle: Option<nat>)
    ensures Run(h, FirewallCommands(wan) + StartCommands(handle)).mss == h.mss + 1
  {
    RunConcat(h, FirewallCommands(wan), StartCommands(handle));
    FirewallOnMss(h, wan);
    TunnelMss(Run(h, FirewallCommands(wan)), handle);
  }

  lemma LastSegment(b: Boot, handle: Option<nat>, f: Findings)
    requires b.stage >= 2
    ensures Segment(b, handle, f) == FirewallCommands(b.wan) + StartCommands(handle)
  {
  }

  lemma FirewallAddsClamp(d: Daemon, i: nat, f: Findings)
    requires i < |d.boots| && d.boots[i].stage >= 2
    ensures Advance(d, i, f).host.mss == d.host.mss + 1
  {
    AdvanceKeeps(d, i, f);
    LastSegment(d.boots[i], d.handle, f);
    FirewallMss(d.host, d.boots[i].wan, d.handle);
  }

  lemma RoutingKeepsClamps(d: Daemon, i: nat, f: Findings)
    requires i < |d.boots| && d.boots[i].stage == 1
    ensures Advance(d, i, f).host.mss == d.host.mss
    ensures CATCHALL in Advance(d, i, f).host.rules
  {
    AdvanceKeeps(d, i, f);
    RoutingAdds(d.host, f.plan);
    assert Segment(d.boots[i], d.handle, f) == RoutingCommands(f.plan);
  }

  /** The device is up, and the catch-all and the torrent rule are there whatever the plan. */
  lemma RoutingAdds(h: Host, p: Plan)
    ensures var after := Run(h, RoutingCommands(p));
      after.tun0 == Up && CATCHALL in after.rules && TORRENT in after.rules && after.mss == h.mss
  {
    RunRouting(h, p);
    BothAdded(WithLan(WithDns(WithServers(h.rules, p.servers), p.dns), p.lan), CATCHALL, TORRENT_SELECTOR, TORRENT);
  }

  lemma BothAdded(rules: seq<Rule>, first: Rule, sel: Selector, second: Rule)
    requires !Selects(sel, first)
    ensures var after := AddRule(RemoveFirst(AddRule(rules, first), sel), second);
      first in after && second in after
  {
    InsertMembers(rules, first);
    var added := AddRule(rules, first);
    RemoveMembers(added, sel);
    InsertMembers(RemoveFirst(added, sel), second);
  }

  lemma StartingTakesClamp(d: Daemon, i: nat, f: Findings)
    requires i < |d.boots| && d.boots[i].stage == 0
    ensures Advance(d, i, f).host.mss == if d.host.mss == 0 then 0 else d.host.mss - 1
  {
    var after := StartingEffect(d.host);
  }

  // ------------------------------------------------------------ a stopped daemon

  lemma KillsOwned(h: Host, singbox: Option<nat>, tun2socks: Option<nat>)
    requires h.singbox <= Holding(singbox) && h.tun2socks <= Holding(tun2socks)
    ensures Run(h, KillOld(singbox) + KillOldTunnel(tun2socks)) == h.(singbox := {}, tun2socks := {})
  {
    RunConcat(h, KillOld(singbox), KillOldTunnel(tun2socks));
    if singbox.Some? {
      RunOne(h, KillSingbox(singbox.value));
    }
    var h1 := h.(singbox := {});
    assert Run(h, KillOld(singbox)) == h1;
    if tun2socks.Some? {
      RunOne(h1, KillTun2socks(tun2socks.value));
    }
  }

  lemma NetworkOff(h: Host)
    ensures Run(h, [TunDown, TunDelete, RouteFlush, RulesClear] + FIREWALL_OFF)
         == WithoutFirewall(h.(tun0 := Absent, routes := map[], rules := Outside(h.rules)))
  {
    RunConcat(h, [TunDown, TunDelete, RouteFlush, RulesClear], FIREWALL_OFF);
    assert [TunDown, TunDelete, RouteFlush, RulesClear] == [TunDown, TunDelete] + [RouteFlush] + [RulesClear];
    RunConcat(h, [TunDown, TunDelete] + [RouteFlush], [RulesClear]);
    DeviceGone(h);
    RunOne(h.(tun0 := Absent, routes := map[]), RulesClear);
    RunFirewallOff(h.(tun0 := Absent, routes := map[], rules := Outside(h.rules)));
  }

  /** IPC stop under owned processes does to the host what the teardown does. */
  lemma StopTearsDown(d: Daemon)
    requires !d.exited && ProcInv(d)
    ensures Step(d, IpcStop).host == TornDown(d.host)
  {
    var kills := KillOld(d.ctx.singbox) + KillOldTunnel(d.ctx.tun2socks);
    var rest := [TunDown, TunDelete, RouteFlush, RulesClear] + FIREWALL_OFF;
    assert StopCommands(d.ctx) == kills + rest;
    RunConcat(d.host, kills, rest);
    KillsOwned(d.host, d.ctx.singbox, d.ctx.tun2socks);
    NetworkOff(d.host.(singbox := {}, tun2socks := {}));
  }

  /** IPC stop leaves a clean host if and only if it found at most one clamp and one hook. */
  lemma StopCleansIff(d: Daemon)
    requires !d.exited && ProcInv(d)
    ensures Clean(Step(d, IpcStop).host) <==> d.host.mss <= 1 && Hooks(d.host.postrouting) <= 1
  {
    StopTearsDown(d);
    TeardownCleansIff(d.host);
  }

  lemma LeftoversGone(h: Host)
    ensures Run(h, LEFTOVERS_OFF) == WithoutProcesses(h)
  {
    assert LEFTOVERS_OFF == [TunDelete, RouteFlush] + [PkillSingbox, PkillTun2socks];
    RunConcat(h, [TunDelete, RouteFlush], [PkillSingbox, PkillTun2socks]);
    RunTwo(h, TunDelete, RouteFlush);
    DeviceFlushed(h);
    ProcessesOff(h.(tun0 := Absent, routes := map[]));
  }

  lemma DeviceFlushed(h: Host)
    ensures Exec(Exec(h, TunDelete), RouteFlush) == h.(tun0 := Absent, routes := map[])
  {
  }

  lemma ClampAndRulesOff(h: Host)
    ensures Run(h, [MssDelete, RulesClear])
         == h.(mss := if h.mss == 0 then 0 else h.mss - 1, rules := Outside(h.rules))
  {
    assert [MssDelete, RulesClear] == [MssDelete] + [RulesClear];
    RunConcat(h, [MssDelete], [RulesClear]);
    ClampOff(h);
    RulesOff(Run(h, [MssDelete]));
  }

  lemma ClampOff(h: Host)
    ensures Run(h, [MssDelete]) == h.(mss := if h.mss == 0 then 0 else h.mss - 1)
  {
    RunOne(h, MssDelete);
  }

  lemma RulesOff(h: Host)
    ensures Run(h, [RulesClear]) == h.(rules := Outside(h.rules))
  {
    RunOne(h, RulesClear);
  }

  /** The commands of IPC start do to any host what the teardown does, but for IPv6. */
  lemma StartTearsDown(h: Host)
    ensures Run(h, StartOverCommands()) == TornDown(h).(ipv6 := h.ipv6)
  {
    var bare := WithoutProcesses(h);
    StartOverStages(h);
    LeftoversGone(h);
    RunNatOff(bare);
    ClampAndRulesOff(Run(bare, NAT_OFF));
  }

  /** IPC start leaves a clean host, whoever owns its processes, if and only if it found at most one clamp and one hook. */
  lemma StartCleansIff(d: Daemon)
    requires !d.exited
    ensures Clean(Step(d, IpcStart).host) <==> d.host.mss <= 1 && Hooks(d.host.postrouting) <= 1
    ensures Step(d, IpcStart).host.rules == Outside(d.host.rules)
    ensures Step(d, IpcStart).host.singbox == {} && Step(d, IpcStart).host.tun2socks == {}
  {
    StartTearsDown(d.host);
    TeardownCleansIff(d.host);
  }

  /** Whatever segment a bootstrap runs next, the host is not clean after it. */
  lemma SegmentDirties(d: Daemon, i: nat, f: Findings)
    requires !d.exited && i < |d.boots|
    ensures !Clean(Advance(d, i, f).host)
  {
    if d.boots[i].stage == 0 {
      var after := StartingEffect(d.host);
    } else if d.boots[i].stage == 1 {
      RoutingKeepsClamps(d, i, f);
      assert InBand(CATCHALL);
    } else {
      FirewallAddsClamp(d, i, f);
    }
  }

  /**
   IPC stop does not stop a bootstrap in flight: each one, at whatever segment it is, goes
   on while the daemon is STOPPED and leaves its mark on the host again, the catch-all rule
   if routing is what comes next.
   */
  lemma StopLeavesBootstrapRunning(d: Daemon, i: nat, f: Findings)
    requires !d.exited && i < |d.boots|
    ensures var stopped := Step(d, IpcStop);
      && stopped.state == Stopped
      && Enabled(stopped, AdvanceBoot(i, f))
      && Step(stopped, AdvanceBoot(i, f)).state == Stopped
      && !Clean(Step(stopped, AdvanceBoot(i, f)).host)
      && (d.boots[i].stage == 1 ==> CATCHALL in Step(stopped, AdvanceBoot(i, f)).host.rules)
  {
    var stopped := Step(d, IpcStop);
    assert stopped.boots == d.boots;
    SegmentDirties(stopped, i, f);
    if d.boots[i].stage == 1 {
      RoutingKeepsClamps(stopped, i, f);
    }
  }

  /** A route command as the IPC calls send it: an addition goes through the tunnel. */
  predicate ThroughTunnel(c: Command) {
    c.RouteDelete? || (c.RouteAdd? && c.hop == Device(TUN))
  }

  /** What may happen to a stopped daemon that nobody starts and no switch starts sing-box for. */
  predicate Quiet(a: Action) {
    match a
    case IpcStop => false
    case IpcStart => false
    case IpcApply(_, how) => how.UnknownServer? || how.SpawnFailed?
    case IpcRoute(cmds) => forall i :: 0 <= i < |cmds| ==> ThroughTunnel(cmds[i])
    case _ => true
  }

  lemma {:induction false} RoutesNeedTheTunnel(h: Host, cmds: seq<Command>)
    requires h.tun0 == Absent && h.routes == map[]
    requires forall i :: 0 <= i < |cmds| ==> ThroughTunnel(cmds[i])
    ensures Run(h, cmds) == h
    decreases |cmds|
  {
    if cmds != [] {
      assert ThroughTunnel(cmds[0]);
      assert Exec(h, cmds[0]).routes == map[];
      RoutesNeedTheTunnel(h, cmds[1..]);
    }
  }

  lemma KillsNothing(h: Host, pid: Option<nat>)
    requires h.singbox == {}
    ensures Run(h, KillOld(pid)) == h
  {
    if pid.Some? {
      RunOne(h, KillSingbox(pid.value));
    }
  }

  lemma StoppedStep(d: Daemon, a: Action)
    requires d.state == Stopped && d.boots == [] && Clean(d.host) && Enabled(d, a) && Quiet(a)
    requires Step(d, a).instance == d.instance
    ensures Step(d, a).state == Stopped && Step(d, a).boots == [] && Step(d, a).host == d.host
  {
    match a
    case ProcessDies(pid) =>
      assert d.host.singbox - {pid} == {} && d.host.tun2socks - {pid} == {};
    case IpcApply(_, how) =>
      KillsNothing(d.host, d.ctx.singbox);
    case IpcRoute(cmds) =>
      RoutesNeedTheTunnel(d.host, cmds);
    case _ =>
  }

  /** A continuation that stays in the same STOPPED state instance. */
  ghost predicate Undisturbed(d: Daemon, acts: seq<Action>) {
    Runs(d, acts) && (forall i :: 0 <= i < |acts| ==> Quiet(acts[i])) && After(d, acts).instance == d.instance
  }

  /** With no bootstrap in flight, a clean STOPPED host is untouched in every such continuation. */
  lemma {:induction false} StoppedStaysClean(d: Daemon, acts: seq<Action>)
    requires d.state == Stopped && d.boots == [] && Clean(d.host) && Undisturbed(d, acts)
    ensures After(d, acts).host == d.host
    decreases |acts|
  {
    if acts != [] {
      var next := Step(d, acts[0]);
      assert Quiet(acts[0]);
      InstanceStep(d, acts[0]);
      InstanceRun(next, acts[1..]);
      StoppedStep(d, acts[0]);
      StoppedStaysClean(next, acts[1..]);
    }
  }

  lemma OneStep(d: Daemon, a: Action)
    requires Enabled(d, a)
    ensures Runs(d, [a]) && After(d, [a]) == Step(d, a)
  {
    assert [a][1..] == [];
    assert After(Step(d, a), []) == Step(d, a);
  }

  lemma InFlightDisturbs(d: Daemon) returns (acts: seq<Action>)
    requires !d.exited && d.state == Stopped && d.boots != []
    ensures Undisturbed(d, acts) && !Clean(After(d, acts).host)
  {
    var f := Findings("", "", Plan([], [], [], []), "");
    acts := [AdvanceBoot(0, f)];
    OneStep(d, AdvanceBoot(0, f));
    SegmentDirties(d, 0, f);
  }

  /**
   IPC stop leaves a host that is clean and stays clean, in every continuation that remains
   in STOPPED and in which no switch starts sing-box, if and only if no bootstrap was in
   flight and there was at most one clamp and one hook.
   */
  lemma StopIsFinalIff(d: Daemon)
    requires !d.exited && ProcInv(d)
    ensures var stopped := Step(d, IpcStop);
      (forall acts :: Undisturbed(stopped, acts) ==> Clean(After(stopped, acts).host))
        <==> d.boots == [] && d.host.mss <= 1 && Hooks(d.host.postrouting) <= 1
  {
    var stopped := Step(d, IpcStop);
    StopCleansIff(d);
    assert Undisturbed(stopped, []) && After(stopped, []) == stopped;
    assert stopped.boots == d.boots && stopped.state == Stopped;
    if d.boots != [] {
      var acts := InFlightDisturbs(stopped);
    } else if Clean(stopped.host) {
      forall acts | Undisturbed(stopped, acts) ensures Clean(After(stopped, acts).host) {
        StoppedStaysClean(stopped, acts);
      }
    }
  }

  /** A switch that gets as far as starting sing-box leaves it running, in STOPPED as elsewhere. */
  lemma SwitchStartsSingbox(d: Daemon, server: string, how: Applying)
    requires ProcInv(d) && !how.UnknownServer? && !how.SpawnFailed?
    ensures d.host.nextPid in Apply(d, server, how).host.singbox
  {
    SingboxReplaced(d);
    var spawned := KillOld(d.ctx.singbox) + [SpawnSingbox];
    match how
    case PortClosed =>
    case TunnelFailed =>
      RunConcat(d.host, spawned, KillOldTunnel(d.handle));
      if d.handle.Some? {
        RunOne(Run(d.host, spawned), KillTun2socks(d.handle.value));
      }
    case Applied(ips) =>
      AppliedKeepsSingbox(d, spawned, ips);
  }

  lemma AppliedKeepsSingbox(d: Daemon, spawned: seq<Command>, ips: seq<Addr>)
    requires ProcInv(d) && spawned == KillOld(d.ctx.singbox) + [SpawnSingbox]
    requires Run(d.host, spawned).singbox == {d.host.nextPid} && Run(d.host, spawned).tun2socks == d.host.tun2socks
    ensures Run(d.host, ApplyCommands(d, Applied(ips))).singbox == {d.host.nextPid}
  {
    var h := Run(d.host, spawned);
    RunStages(d.host, spawned, StartCommands(d.handle), [RuleDrain(1)], ServerCommands(ips));
    TunnelReplaced(h, d.handle);
    var started := Run(h, StartCommands(d.handle));
    RunOne(started, RuleDrain(1));
    RunServers(Run(started, [RuleDrain(1)]), ips);
  }
}
