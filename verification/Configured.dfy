/** What a bootstrap that is through leaves on the host, and which steps keep it. */
module Configured {
  import Text
  import opened Wrappers
  import opened Network
  import opened Rules
  import opened Egress
  import opened Routes
  import opened Managers
  import opened Lifecycle
  import opened Switching
  import opened Daemon
  import opened Safety
  import opened Cleanup
  import opened Overlap
  import opened StopStart

  // ---------------------------------------------------- what commands leave alone

  /** Neither rules nor routes nor the device. */
  predicate SparesRouting(c: Command) {
    && !IsRuleCommand(c) && c != RulesClear
    && !IsRouteCommand(c) && c != RouteFlush
    && c != TunAdd && c != TunUp && c != TunDown && c != TunDelete
  }

  /** Neither the NAT chain and its hook nor the clamps nor what sysctl sets. */
  predicate SparesFiltering(c: Command) {
    && !c.NatNew? && !c.NatFlush? && !c.NatAppend? && !c.NatHook? && !c.NatUnhook? && !c.NatDelete?
    && !c.MssAppend? && !c.MssDelete? && !c.IpForward? && !c.Ipv6?
  }

  ghost predicate SameRouting(h: Host, after: Host) {
    after.rules == h.rules && after.routes == h.routes && after.tun0 == h.tun0
  }

  lemma {:induction false} RoutingSpared(h: Host, cmds: seq<Command>)
    requires forall c :: c in cmds ==> SparesRouting(c)
    ensures SameRouting(h, Run(h, cmds))
    decreases |cmds|
  {
    if cmds != [] {
      assert SparesRouting(cmds[0]);
      RoutingSpared(Exec(h, cmds[0]), cmds[1..]);
    }
  }

  ghost predicate SameFiltering(h: Host, after: Host) {
    && after.chain == h.chain && after.postrouting == h.postrouting && after.mss == h.mss
    && after.ipForward == h.ipForward && after.ipv6 == h.ipv6
  }

  lemma {:induction false} FilteringSpared(h: Host, cmds: seq<Command>)
    requires forall c :: c in cmds ==> SparesFiltering(c)
    ensures SameFiltering(h, Run(h, cmds))
    decreases |cmds|
  {
    if cmds != [] {
      assert SparesFiltering(cmds[0]);
      FilteringSpared(Exec(h, cmds[0]), cmds[1..]);
    }
  }

  // -------------------------------------------------------------- configurations

  predicate Routed(h: Host) {
    h.tun0 == Up && CATCHALL in h.rules && TORRENT in h.rules
  }

  /** The chain masquerades the tunnel and the WAN, is hooked and joined by a clamp; packets are forwarded, over IPv4 only. */
  ghost predicate Filtered(h: Host, wan: Option<string>) {
    && wan.Some? && h.chain == Some(["tun0", wan.value])
    && Mentions(h.postrouting, CHAIN) && h.mss >= 1
    && h.ipForward && !h.ipv6
  }

  lemma FirstMentioned(name: string, rest: seq<string>)
    ensures Mentions([name] + rest, name)
  {
    assert Text.Contains(([name] + rest)[0], name);
  }

  lemma FirewallOnFilters(h: Host, wan: string)
    ensures Filtered(Run(h, FirewallCommands(wan)), Some(wan)) && SameRouting(h, Run(h, FirewallCommands(wan)))
  {
    FirewallStages(h, wan);
    NatOnEffect(h, wan);
    FirstMentioned(CHAIN, h.postrouting);
  }

  lemma TunnelSpares(handle: Option<nat>)
    ensures forall c :: c in StartCommands(handle) ==> SparesRouting(c) && SparesFiltering(c)
  {
  }

  lemma FirewallFilters(h: Host, wan: string, handle: Option<nat>)
    ensures var after := Run(h, FirewallCommands(wan) + StartCommands(handle));
      Filtered(after, Some(wan)) && SameRouting(h, after)
  {
    RunConcat(h, FirewallCommands(wan), StartCommands(handle));
    FirewallOnFilters(h, wan);
    TunnelSpares(handle);
    RoutingSpared(Run(h, FirewallCommands(wan)), StartCommands(handle));
    FilteringSpared(Run(h, FirewallCommands(wan)), StartCommands(handle));
  }

  // -------------------------------------------------------------- server switches

  lemma PreludeSpares(d: Daemon)
    ensures var prelude := KillOld(d.ctx.singbox) + [SpawnSingbox] + StartCommands(d.handle);
      forall c :: c in prelude ==> SparesRouting(c) && SparesFiltering(c)
  {
  }

  lemma SwitchSparesFiltering(d: Daemon, how: Applying)
    ensures SameFiltering(d.host, Run(d.host, ApplyCommands(d, how)))
  {
    PreludeSpares(d);
    if how.Applied? {
      ServersAreRules(how.ips);
    }
    FilteringSpared(d.host, ApplyCommands(d, how));
  }

  /** A switch that succeeds replaces the server bypasses; the others leave the routing as it is. */
  lemma SwitchOnRules(d: Daemon, how: Applying)
    ensures var after := Run(d.host, ApplyCommands(d, how));
      && after.rules == (if how.Applied? then Switch(d.host.rules, how.ips) else d.host.rules)
      && after.routes == d.host.routes && after.tun0 == d.host.tun0
  {
    PreludeSpares(d);
    if how.Applied? {
      var prelude := KillOld(d.ctx.singbox) + [SpawnSingbox] + StartCommands(d.handle);
      RunConcat(d.host, prelude + [RuleDrain(1)], ServerCommands(how.ips));
      RunConcat(d.host, prelude, [RuleDrain(1)]);
      RoutingSpared(d.host, prelude);
      RunOne(Run(d.host, prelude), RuleDrain(1));
      RunServers(Run(d.host, prelude + [RuleDrain(1)]), how.ips);
    } else {
      RoutingSpared(d.host, ApplyCommands(d, how));
    }
  }

  lemma {:induction false} ServersSpareUntargeted(rules: seq<Rule>, ips: seq<Addr>, r: Rule)
    requires r in rules && r.to == None
    ensures r in WithServers(rules, ips)
  {
    if ips != [] {
      var n := |ips| - 1;
      ServersSpareUntargeted(rules, ips[..n], r);
      RemoveMembers(WithServers(rules, ips[..n]), To(ips[n]));
      InsertMembers(RemoveFirst(WithServers(rules, ips[..n]), To(ips[n])), BypassRule(ips[n], 1));
    }
  }

  lemma SwitchKeepsRouted(d: Daemon, how: Applying)
    requires Routed(d.host)
    ensures Routed(Run(d.host, ApplyCommands(d, how)))
  {
    SwitchOnRules(d, how);
    if how.Applied? {
      DropMembers(d.host.rules, At(1));
      ServersSpareUntargeted(Drop(d.host.rules, At(1)), how.ips, CATCHALL);
      ServersSpareUntargeted(Drop(d.host.rules, At(1)), how.ips, TORRENT);
    }
  }

  /** Route calls change routes only. */
  lemma {:induction false} RouteCallsSpare(h: Host, cmds: seq<Command>)
    requires forall i :: 0 <= i < |cmds| ==> IsRouteCommand(cmds[i])
    ensures Run(h, cmds) == h.(routes := Run(h, cmds).routes)
    decreases |cmds|
  {
    if cmds != [] {
      assert IsRouteCommand(cmds[0]);
      RouteCallsSpare(Exec(h, cmds[0]), cmds[1..]);
    }
  }

  // ------------------------------------------------------------------ whole runs

  /** A bootstrap is through: reported and handled, or reported and waiting to be. */
  predicate Through(d: Daemon) {
    d.state in {Healthy, Degraded} || Dones(d.queue) > 0
  }

  ghost predicate ConfiguredInv(d: Daemon) {
    !d.exited ==>
      && (forall b :: b in d.boots && b.stage >= 1 ==> d.ctx.interface == Some(b.wan))
      && (forall b :: b in d.boots && b.stage >= 2 ==> Routed(d.host))
      && (Through(d) ==> Routed(d.host) && Filtered(d.host, d.ctx.interface))
  }

  lemma ThroughBefore(d: Daemon, e: Event)
    requires Through(Handle(d, e))
    ensures Through(d.(queue := [e] + d.queue))
  {
    HandleShape(d, e);
    var q := [e] + d.queue;
    assert q[1..] == d.queue;
    if !e.BootstrapDone? && d.state !in {Healthy, Degraded} && !d.exited && d.state != Failed {
      NoDoneNoRest(d, e);
    }
  }

  lemma TurnThrough(d: Daemon)
    requires !d.exited && d.queue != [] && Through(Turn(d))
    ensures Through(d)
  {
    var e := d.queue[0];
    var popped := d.(queue := d.queue[1..], log := d.log + [Handled(e)]);
    assert [e] + popped.queue == d.queue;
    ThroughBefore(popped, e);
  }

  /** Every bootstrap after a handled event was there before it or has done nothing yet. */
  lemma TurnBoots(d: Daemon)
    requires !d.exited && d.queue != []
    ensures forall b :: b in Turn(d).boots ==> b in d.boots || b.stage == 0
  {
    var e := d.queue[0];
    var q, s := HandleByTransition(d.(queue := d.queue[1..], log := d.log + [Handled(e)]), e);
  }

  lemma ConfiguredTurn(d: Daemon)
    requires ConfiguredInv(d) && !d.exited && d.queue != []
    ensures ConfiguredInv(Turn(d))
  {
    TurnKeeps(d);
    TurnBoots(d);
    if Through(Turn(d)) {
      TurnThrough(d);
    }
  }

  /** With one token at most, a bootstrap in flight means none is through. */
  lemma InFlight(d: Daemon)
    requires TokenInv(d) && !d.exited && d.boots != []
    ensures |d.boots| == 1 && !Through(d)
  {
  }

  lemma ConfiguredAdvance(d: Daemon, i: nat, f: Findings)
    requires TokenInv(d) && ConfiguredInv(d) && !d.exited && i < |d.boots|
    ensures ConfiguredInv(Advance(d, i, f))
  {
    InFlight(d);
    var b := d.boots[i];
    assert b in d.boots;
    if b.stage == 1 {
      RoutingAdds(d.host, f.plan);
    } else if b.stage >= 2 {
      FirewallFilters(d.host, b.wan, d.handle);
    }
  }

  lemma ConfiguredCrash(d: Daemon, i: nat, f: Findings, k: nat)
    requires TokenInv(d) && !d.exited && i < |d.boots| && k <= |Segment(d.boots[i], d.handle, f)|
    ensures ConfiguredInv(Crash(d, i, f, k))
  {
    InFlight(d);
    DonesAppend(d.queue, SingboxDied);
  }

  lemma ConfiguredAfter(d: Daemon, after: Daemon)
    requires ConfiguredInv(d) && !d.exited
    requires after.boots == d.boots && after.state == d.state && Dones(after.queue) == Dones(d.queue)
    requires Routed(d.host) ==> Routed(after.host)
    requires SameFiltering(d.host, after.host) && after.ctx.interface == d.ctx.interface
    ensures ConfiguredInv(after)
  {
  }

  lemma ConfiguredStep(d: Daemon, a: Action)
    requires TokenInv(d) && ConfiguredInv(d) && Enabled(d, a) && (IsStopStart(a) ==> Tokens(d) == 0)
    ensures ConfiguredInv(Step(d, a))
  {
    match a
    case Dequeue => ConfiguredTurn(d);
    case Post(e) => DonesAppend(d.queue, e);
    case Fire(_) => DonesAppend(d.queue, Timeout);
    case AdvanceBoot(i, f) => ConfiguredAdvance(d, i, f);
    case CrashBoot(i, f, k) => ConfiguredCrash(d, i, f, k);
    case IpcApply(server, how) =>
      SwitchSparesFiltering(d, how);
      if Routed(d.host) {
        SwitchKeepsRouted(d, how);
      }
      ConfiguredAfter(d, Apply(d, server, how));
    case IpcRoute(cmds) => RouteCallsSpare(d.host, cmds);
    case ProcessDies(_) =>
    case IpcStop =>
    case IpcStart =>
  }
}
