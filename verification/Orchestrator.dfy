/** The sequencer: bootstrap in its three segments, and teardown. */
module Orchestrator {
  import opened Wrappers
  import opened Network
  import opened Egress
  import opened Routes
  import opened Shell
  import opened Managers
  import opened Loading
  import opened Lifecycle
  import opened Daemon

  /** The run state every daemon state updates. */
  class RuntimeContext {
    var gateway: Option<string>
    var interface: Option<string>
    var tun2socks: Option<nat>
    var singbox: Option<nat>
    var failStreak: nat
    var recoveryCount: nat
    var activeServer: Option<string>
    var lastError: Option<string>
    var targetServer: Option<string>

    constructor ()
      ensures View() == NoContext()
    {
      gateway, interface, tun2socks, singbox := None, None, None, None;
      failStreak, recoveryCount := 0, 0;
      activeServer, lastError, targetServer := None, None, None;
    }

    function View(): Context
      reads this
    {
      Context(gateway, interface, tun2socks, singbox, failStreak, recoveryCount, activeServer, lastError, targetServer)
    }
  }

  datatype Topology = Topology(gateway: string, interface: string)

  class VpnOrchestrator {
    const shell: ShellAdapter
    const tun: TunInterface
    const rules: RuleManager
    const routeTable: RouteTable
    const loader: BypassLoader
    const nat_: NatManager
    const mss: MssClamp
    const sysctl: SysctlManager
    const tun2socks: Tun2SocksManager
    const dnsServers: seq<Addr>
    const lanSubnets: seq<Prefix>

    /** Every service drives the same shell. */
    predicate Wired() {
      && tun.shell == shell && rules.shell == shell && routeTable.shell == shell && nat_.shell == shell
      && mss.shell == shell && sysctl.shell == shell && tun2socks.shell == shell
    }

    constructor (shell: ShellAdapter, dnsServers: seq<Addr>, lanSubnets: seq<Prefix>)
      ensures Wired() && this.shell == shell && fresh(loader) && fresh(tun2socks) && tun2socks.handle == None
      ensures this.dnsServers == dnsServers && this.lanSubnets == lanSubnets
    {
      this.shell := shell;
      tun := new TunInterface(shell);
      rules := new RuleManager(shell);
      routeTable := new RouteTable(shell);
      loader := new BypassLoader();
      nat_ := new NatManager(shell);
      mss := new MssClamp(shell);
      sysctl := new SysctlManager(shell);
      tun2socks := new Tun2SocksManager(shell);
      this.dnsServers := dnsServers;
      this.lanSubnets := lanSubnets;
    }

    method TeardownNetwork()
      requires Wired()
      modifies shell
      ensures shell.host == TornDown(old(shell.host))
    {
      StopTunnel();
      rules.ClearAll();
      nat_.Remove();
      mss.Remove();
      sysctl.RestoreIpv6();
    }

    method StopTunnel()
      requires Wired()
      modifies shell
      ensures shell.host == WithoutProcesses(old(shell.host))
    {
      ghost var before := shell.host;
      shell.Execute(PkillSingbox);
      shell.Execute(PkillTun2socks);
      tun.Destroy();
      ghost var gone := DeviceDeleted(before.(singbox := {}, tun2socks := {}));
      routeTable.Flush();
    }

    /**
     Segment 0: teardown, deploy, sing-box, topology. `launched` says whether the process
     could be started, `topology` what discovery found; either may raise.
     */
    method StartSegment(ctx: RuntimeContext, launched: bool, topology: Option<Topology>) returns (ok: bool)
      requires Wired()
      modifies shell, ctx
      ensures ok <==> launched && topology.Some?
      ensures launched ==> shell.host == Run(old(shell.host), StartingCommands())
      ensures !launched ==> shell.host == Run(old(shell.host), TeardownCommands())
      ensures ctx.View() == old(ctx.View()).(
        singbox := if launched then Some(old(shell.host.nextPid)) else old(ctx.singbox),
        gateway := if ok then Some(topology.value.gateway) else old(ctx.gateway),
        interface := if ok then Some(topology.value.interface) else old(ctx.interface))
    {
      if !launched {
        ghost var before := shell.host;
        TeardownNetwork();
        RunTeardown(before);
        return false;
      }
      CleanAndLaunch(ctx);
      if topology.None? {
        return false;
      }
      ctx.gateway := Some(topology.value.gateway);
      ctx.interface := Some(topology.value.interface);
      ok := true;
    }

    method CleanAndLaunch(ctx: RuntimeContext)
      requires Wired()
      modifies shell, ctx`singbox
      ensures shell.host == Run(old(shell.host), StartingCommands())
      ensures ctx.singbox == Some(old(shell.host.nextPid))
    {
      StartingRuns(shell.host);
      TeardownNetwork();
      Launch(ctx);
    }

    method Launch(ctx: RuntimeContext)
      modifies shell, ctx`singbox
      ensures shell.host == Exec(old(shell.host), SpawnSingbox)
      ensures ctx.singbox == Some(old(shell.host.nextPid))
    {
      ctx.singbox := Some(shell.host.nextPid);
      shell.Execute(SpawnSingbox);
    }

    method AddServers(ips: seq<Addr>)
      requires Wired()
      modifies shell
      ensures shell.host == old(shell.host).(rules := WithServers(old(shell.host.rules), ips))
    {
      ghost var before := shell.host;
      for i := 0 to |ips|
        invariant shell.host == before.(rules := WithServers(before.rules, ips[..i]))
      {
        assert ips[..i + 1][..i] == ips[..i];
        rules.AddServerBypass(ips[i]);
      }
      assert ips[..|ips|] == ips;
    }

    method AddDns()
      requires Wired()
      modifies shell
      ensures shell.host == old(shell.host).(rules := WithDns(old(shell.host.rules), dnsServers))
    {
      ghost var before := shell.host;
      for i := 0 to |dnsServers|
        invariant shell.host == before.(rules := WithDns(before.rules, dnsServers[..i]))
      {
        assert dnsServers[..i + 1][..i] == dnsServers[..i];
        rules.AddDnsBypass(dnsServers[i], 3 + i);
      }
      assert dnsServers[..|dnsServers|] == dnsServers;
    }

    method AddLan()
      requires Wired()
      modifies shell
      ensures shell.host == old(shell.host).(rules := WithLan(old(shell.host.rules), lanSubnets))
    {
      ghost var before := shell.host;
      for i := 0 to |lanSubnets|
        invariant shell.host == before.(rules := WithLan(before.rules, lanSubnets[..i]))
      {
        assert lanSubnets[..i + 1][..i] == lanSubnets[..i];
        rules.AddLanBypass(lanSubnets[i], 10 + i);
      }
      assert lanSubnets[..|lanSubnets|] == lanSubnets;
    }

    /**
     Segment 1: device, bypasses, the loaded routes, catch-all, default and torrent rule.
     Without `sources` loading them raises: the device and the bypasses are there by then.
     */
    method RoutingSegment(servers: seq<Addr>, sources: Option<Sources>, dns: Dns) returns (ok: bool)
      requires Wired()
      modifies shell, loader
      ensures ok <==> sources.Some?
      ensures ok ==> shell.host == Run(old(shell.host),
        RoutingCommands(Plan(servers, dnsServers, lanSubnets, FirstTexts(Candidates(sources.value, dns)))))
      ensures !ok ==> shell.host == Run(old(shell.host), StagingCommands(Plan(servers, dnsServers, lanSubnets, [])))
    {
      ghost var before := shell.host;
      StageBypasses(servers);
      if sources.None? {
        return false;
      }
      var kept := loader.LoadAll(sources.value, dns);
      ghost var staged := shell.host;
      var sent := routeTable.LoadBatch(kept);
      RunBatch(staged, Meanings(kept));
      rules.AddCatchall();
      routeTable.SetDefault();
      rules.AddTorrentBypass();
      AddedLast(before.routes, Meanings(kept), DEFAULT);
      RunStaging(before, Plan(servers, dnsServers, lanSubnets, []));
      RunRouting(before, Plan(servers, dnsServers, lanSubnets, kept));
      ok := true;
    }

    method StageBypasses(servers: seq<Addr>)
      requires Wired()
      modifies shell
      ensures shell.host == Run(old(shell.host), StagingCommands(Plan(servers, dnsServers, lanSubnets, [])))
    {
      ghost var before := shell.host;
      tun.Create();
      AddServers(servers);
      AddDns();
      AddLan();
      RunStaging(before, Plan(servers, dnsServers, lanSubnets, []));
    }

    /**
     Segment 2: firewall, tun2socks and the server to show. The tunnel may fail to launch;
     `first` is the catalogue's first name if it has one, and absent when reading it raises.
     */
    method FirewallSegment(ctx: RuntimeContext, wan: string, launches: bool, first: Option<Option<string>>)
      returns (ok: bool)
      requires Wired()
      modifies shell, ctx, tun2socks
      ensures ok <==> launches && first.Some?
      ensures launches ==> shell.host == Run(old(shell.host), FirewallCommands(wan) + StartCommands(old(tun2socks.handle)))
      ensures launches ==> tun2socks.handle == Some(old(shell.host.nextPid))
      ensures !launches ==> shell.host == Run(old(shell.host), FirewallCommands(wan) + KillOldTunnel(old(tun2socks.handle)))
      ensures !launches ==> tun2socks.handle == old(tun2socks.handle)
      ensures ctx.View() == old(ctx.View()).(
        tun2socks := if launches then Some(old(shell.host.nextPid)) else old(ctx.tun2socks),
        activeServer := if ok then Some(if first.value.Some? then first.value.value else "unknown") else old(ctx.activeServer))
    {
      ghost var before := shell.host;
      FirewallOn(wan);
      RunConcat(before, FirewallCommands(wan), StartCommands(tun2socks.handle));
      RunConcat(before, FirewallCommands(wan), KillOldTunnel(tun2socks.handle));
      var pid := tun2socks.Start(launches);
      if pid.None? {
        return false;
      }
      ctx.tun2socks := pid;
      if first.None? {
        return false;
      }
      ctx.activeServer := Some(if first.value.Some? then first.value.value else "unknown");
      ok := true;
    }

    method FirewallOn(wan: string)
      requires Wired()
      modifies shell
      ensures shell.host == Run(old(shell.host), FirewallCommands(wan))
      ensures shell.host.nextPid == old(shell.host.nextPid)
    {
      ghost var before := shell.host;
      nat_.Apply(wan);
      mss.Apply();
      sysctl.EnableIpForward();
      sysctl.DisableIpv6Wan();
      FirewallStages(before, wan);
    }
  }
}
