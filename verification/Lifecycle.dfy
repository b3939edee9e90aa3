/** The command sequences of bootstrap and teardown, and the hosts they leave. */
module Lifecycle {
  import opened Wrappers
  import opened Network
  import opened Rules
  import opened Egress
  import opened Routes
  import opened Managers
  import opened Loading

  const STOPPING: seq<Command> := [PkillSingbox, PkillTun2socks, TunDown, TunDelete, RouteFlush]
  const NAT_OFF: seq<Command> := [NatUnhook, NatFlush, NatDelete]
  const FIREWALL_OFF: seq<Command> := NAT_OFF + [MssDelete, Ipv6(true)]

  function TeardownCommands(): seq<Command> {
    STOPPING + [RulesClear] + FIREWALL_OFF
  }

  /** What bootstrap looks up on its way: addresses and the loaded routes. */
  datatype Plan = Plan(servers: seq<Addr>, dns: seq<Addr>, lan: seq<Prefix>, kept: seq<RouteEntry>)

  function StartingCommands(): seq<Command> {
    TeardownCommands() + [SpawnSingbox]
  }

  const CATCH: seq<Command> := [RuleAdd(CATCHALL), RouteAdd([], Device(TUN))]
  const TORRENT_ON: seq<Command> := [RuleDelete(TORRENT_SELECTOR), RuleAdd(TORRENT)]
  const CATCH_AND_DEFAULT: seq<Command> := CATCH + TORRENT_ON

  function RoutingCommands(p: Plan): seq<Command> {
    StagingCommands(p) + Batch(Meanings(p.kept)) + CATCH_AND_DEFAULT
  }

  /** The device and the destination bypasses. */
  function StagingCommands(p: Plan): seq<Command> {
    [TunAdd, TunUp] + ServerCommands(p.servers) + DnsCommands(p.dns) + LanCommands(p.lan)
  }

  function FirewallCommands(wan: string): seq<Command> {
    NatOn(wan) + [MssAppend] + [IpForward, Ipv6(false)]
  }

  function Hooks(postrouting: seq<string>): nat {
    multiset(postrouting)[CHAIN]
  }

  /** Nothing of the daemon's is left: what "host network restored" promises. */
  predicate Clean(h: Host) {
    && (forall r :: r in h.rules ==> !InBand(r))
    && h.routes == map[]
    && h.tun0 == Absent
    && h.chain == None
    && CHAIN !in h.postrouting
    && h.mss == 0
    && h.singbox == {}
    && h.tun2socks == {}
  }

  // ---------------------------------------------------------------- teardown

  function WithoutProcesses(h: Host): Host {
    h.(singbox := {}, tun2socks := {}, tun0 := Absent, routes := map[])
  }

  function WithoutFirewall(h: Host): Host {
    var hooks := RemoveFirstOf(h.postrouting, CHAIN);
    h.(postrouting := hooks,
       chain := if h.chain == None || CHAIN !in hooks then None else Some([]),
       mss := if h.mss == 0 then 0 else h.mss - 1,
       ipv6 := true)
  }

  function TornDown(h: Host): Host {
    WithoutFirewall(WithoutProcesses(h).(rules := Outside(h.rules)))
  }

  lemma ProcessesOff(h: Host)
    ensures Run(h, [PkillSingbox, PkillTun2socks]) == h.(singbox := {}, tun2socks := {})
  {
    RunTwo(h, PkillSingbox, PkillTun2socks);
  }

  lemma DeviceDeleted(h: Host) returns (gone: Host)
    ensures gone == Run(h, [TunDown, TunDelete])
    ensures gone == h.(tun0 := Absent, routes := gone.routes)
  {
    RunTwo(h, TunDown, TunDelete);
    gone := Exec(Exec(h, TunDown), TunDelete);
  }

  lemma DeviceGone(h: Host)
    ensures Run(h, [TunDown, TunDelete] + [RouteFlush]) == h.(tun0 := Absent, routes := map[])
  {
    RunConcat(h, [TunDown, TunDelete], [RouteFlush]);
    var gone := DeviceDeleted(h);
    RunOne(gone, RouteFlush);
  }

  lemma RunStopping(h: Host)
    ensures Run(h, STOPPING) == WithoutProcesses(h)
  {
    assert STOPPING == [PkillSingbox, PkillTun2socks] + ([TunDown, TunDelete] + [RouteFlush]);
    RunConcat(h, [PkillSingbox, PkillTun2socks], [TunDown, TunDelete] + [RouteFlush]);
    ProcessesOff(h);
    DeviceGone(h.(singbox := {}, tun2socks := {}));
  }

  lemma UnhookAndFlush(h: Host) returns (h': Host)
    ensures h' == Exec(Exec(h, NatUnhook), NatFlush)
    ensures h' == h.(postrouting := RemoveFirstOf(h.postrouting, CHAIN), chain := if h.chain == None then None else Some([]))
  {
    h' := Exec(Exec(h, NatUnhook), NatFlush);
  }

  lemma DeleteEmptyChain(h: Host)
    requires h.chain == None || h.chain == Some([])
    ensures Exec(h, NatDelete) == h.(chain := if h.chain == None || CHAIN !in h.postrouting then None else Some([]))
  {
  }

  lemma RunNatOff(h: Host)
    ensures Run(h, NAT_OFF) == h.(
      postrouting := RemoveFirstOf(h.postrouting, CHAIN),
      chain := if h.chain == None || CHAIN !in RemoveFirstOf(h.postrouting, CHAIN) then None else Some([]))
  {
    RunThree(h, NatUnhook, NatFlush, NatDelete);
    var h' := UnhookAndFlush(h);
    DeleteEmptyChain(h');
  }

  lemma RunFirewallOff(h: Host)
    ensures Run(h, FIREWALL_OFF) == WithoutFirewall(h)
  {
    RunConcat(h, NAT_OFF, [MssDelete, Ipv6(true)]);
    RunNatOff(h);
    RunTwo(Run(h, NAT_OFF), MssDelete, Ipv6(true));
  }

  lemma RunTeardown(h: Host)
    ensures Run(h, TeardownCommands()) == TornDown(h)
  {
    RunConcat(h, STOPPING + [RulesClear], FIREWALL_OFF);
    RunConcat(h, STOPPING, [RulesClear]);
    RunStopping(h);
    RunOne(WithoutProcesses(h), RulesClear);
    RunFirewallOff(WithoutProcesses(h).(rules := Outside(h.rules)));
  }

  lemma Spawned(h: Host)
    ensures Exec(h, SpawnSingbox) == h.(singbox := h.singbox + {h.nextPid}, nextPid := h.nextPid + 1)
    ensures Exec(h, SpawnTun2socks) == h.(tun2socks := h.tun2socks + {h.nextPid}, nextPid := h.nextPid + 1)
  {
  }

  lemma TornDownEffect(h: Host) returns (torn: Host)
    ensures torn == TornDown(h)
    ensures torn.mss == if h.mss == 0 then 0 else h.mss - 1
    ensures torn.singbox == {} && torn.tun2socks == {} && torn.nextPid == h.nextPid
    ensures torn.rules == Outside(h.rules) && torn.routes == map[]
  {
    torn := TornDown(h);
  }

  lemma StartingRuns(h: Host)
    ensures Run(h, StartingCommands()) == Exec(TornDown(h), SpawnSingbox)
    ensures TornDown(h).nextPid == h.nextPid
  {
    RunConcat(h, TeardownCommands(), [SpawnSingbox]);
    RunTeardown(h);
    RunOne(TornDown(h), SpawnSingbox);
  }

  /** The first segment of bootstrap: teardown, then sing-box. */
  lemma StartingEffect(h: Host) returns (after: Host)
    ensures after == Run(h, StartingCommands()) == Exec(TornDown(h), SpawnSingbox)
    ensures after.mss == if h.mss == 0 then 0 else h.mss - 1
    ensures after.singbox == {h.nextPid} && after.tun2socks == {} && after.nextPid == h.nextPid + 1
    ensures after.rules == Outside(h.rules) && after.routes == map[]
  {
    StartingRuns(h);
    var torn := TornDownEffect(h);
    Spawned(torn);
    after := Exec(torn, SpawnSingbox);
  }

  lemma {:induction false} UnhookOne(xs: seq<string>)
    ensures multiset(RemoveFirstOf(xs, CHAIN)) == multiset(xs) - multiset{CHAIN}
    ensures CHAIN !in xs ==> RemoveFirstOf(xs, CHAIN) == xs
  {
    if xs != [] {
      assert xs == [xs[0]] + xs[1..];
      UnhookOne(xs[1..]);
    }
  }

  /** Teardown restores the host if and only if it finds at most one hook and one clamp rule. */
  lemma TeardownCleansIff(h: Host)
    ensures Clean(TornDown(h)) <==> h.mss <= 1 && Hooks(h.postrouting) <= 1
    ensures TornDown(h).rules == Outside(h.rules)
  {
    DropMembers(h.rules, Band(1, 30));
    HookLeftIff(h.postrouting);
  }

  lemma HookLeftIff(postrouting: seq<string>)
    ensures CHAIN in RemoveFirstOf(postrouting, CHAIN) <==> Hooks(postrouting) > 1
  {
    UnhookOne(postrouting);
    var left := RemoveFirstOf(postrouting, CHAIN);
    assert CHAIN in left <==> CHAIN in multiset(left);
  }

  /** It is idempotent, as its comment promises, under exactly the same condition. */
  lemma TeardownIdempotentIff(h: Host)
    ensures TornDown(TornDown(h)) == TornDown(h) <==> h.mss <= 1 && Hooks(h.postrouting) <= 1
  {
    var once := TornDown(h);
    DropMembers(h.rules, Band(1, 30));
    DropNothing(once.rules, Band(1, 30));
    UnhookOne(h.postrouting);
    UnhookOne(once.postrouting);
    if Hooks(h.postrouting) > 1 {
      assert Hooks(once.postrouting) == Hooks(h.postrouting) - 1;
      assert Hooks(TornDown(once).postrouting) == Hooks(h.postrouting) - 2;
    } else {
      assert CHAIN !in once.postrouting;
    }
  }

  // ---------------------------------------------------------------- firewall

  lemma NewAndEmpty(h: Host)
    ensures Run(h, [NatNew, NatFlush]) == h.(chain := Some([]))
  {
    RunTwo(h, NatNew, NatFlush);
  }

  lemma OneAppended(h: Host, dev: string)
    requires h.chain.Some?
    ensures Run(h, [NatAppend(dev)]) == h.(chain := Some(h.chain.value + [dev]))
  {
    RunOne(h, NatAppend(dev));
  }

  /** The chain masquerades the tunnel and the WAN, whatever it did before. */
  lemma NatFilled(h: Host, wan: string)
    ensures Run(h, NatFill(wan)) == h.(chain := Some(["tun0", wan]))
  {
    var h1 := h.(chain := Some([]));
    var h2 := h.(chain := Some(["tun0"]));
    assert NatFill(wan) == [NatNew, NatFlush] + [NatAppend(TUN)] + [NatAppend(wan)];
    RunConcat(h, [NatNew, NatFlush] + [NatAppend(TUN)], [NatAppend(wan)]);
    RunConcat(h, [NatNew, NatFlush], [NatAppend(TUN)]);
    NewAndEmpty(h);
    OneAppended(h1, TUN);
    assert [] + [TUN] == ["tun0"];
    OneAppended(h2, wan);
    assert ["tun0"] + [wan] == ["tun0", wan];
  }

  lemma NatHooked(h: Host)
    requires h.chain.Some?
    ensures Run(h, [NatHook])
         == h.(postrouting := if Mentions(h.postrouting, CHAIN) then h.postrouting else [CHAIN] + h.postrouting)
  {
    RunOne(h, NatHook);
  }

  lemma NatOnEffect(h: Host, wan: string)
    ensures Run(h, NatOn(wan)) == h.(
      chain := Some(["tun0", wan]),
      postrouting := if Mentions(h.postrouting, CHAIN) then h.postrouting else [CHAIN] + h.postrouting)
  {
    RunConcat(h, NatFill(wan), [NatHook]);
    NatFilled(h, wan);
    NatHooked(h.(chain := Some(["tun0", wan])));
  }

  lemma FirewallStages(h: Host, wan: string)
    ensures var hooked := Run(h, NatOn(wan));
      Run(h, FirewallCommands(wan)) == hooked.(mss := hooked.mss + 1, ipForward := true, ipv6 := false)
  {
    var hooked := Run(h, NatOn(wan));
    RunConcat(h, NatOn(wan) + [MssAppend], [IpForward, Ipv6(false)]);
    RunConcat(h, NatOn(wan), [MssAppend]);
    ClampOn(hooked);
    SysctlOn(hooked.(mss := hooked.mss + 1));
  }

  lemma ClampOn(h: Host)
    ensures Run(h, [MssAppend]) == h.(mss := h.mss + 1)
  {
    RunOne(h, MssAppend);
  }

  lemma SysctlOn(h: Host)
    ensures Run(h, [IpForward, Ipv6(false)]) == h.(ipForward := true, ipv6 := false)
  {
    RunTwo(h, IpForward, Ipv6(false));
  }

  // ----------------------------------------------------------------- routing

  /** The routing step of bootstrap, piece by piece. */
  lemma RunRouting(h: Host, p: Plan)
    ensures Run(h, RoutingCommands(p)) == h.(
      tun0 := Up,
      rules := RoutingRules(h.rules, p.servers, p.dns, p.lan),
      routes := FirstWins(h.routes, Up, Meanings(p.kept) + [DEFAULT]))
  {
    var staging := StagingCommands(p);
    var staged := Run(h, staging);
    RunStaging(h, p);
    RunConcat(h, staging + Batch(Meanings(p.kept)), CATCH_AND_DEFAULT);
    RunConcat(h, staging, Batch(Meanings(p.kept)));
    RunBatch(staged, Meanings(p.kept));
    RunCatchAndDefault(Run(staged, Batch(Meanings(p.kept))));
    AddedLast(h.routes, Meanings(p.kept), DEFAULT);
  }

  lemma DeviceUp(h: Host)
    ensures Run(h, [TunAdd, TunUp]) == h.(tun0 := Up)
  {
    RunTwo(h, TunAdd, TunUp);
  }

  lemma RunBypasses(h: Host, servers: seq<Addr>, dns: seq<Addr>, lan: seq<Prefix>)
    ensures Run(Run(Run(h, ServerCommands(servers)), DnsCommands(dns)), LanCommands(lan))
         == h.(rules := WithLan(WithDns(WithServers(h.rules, servers), dns), lan))
  {
    RunServers(h, servers);
    var h1 := h.(rules := WithServers(h.rules, servers));
    RunDns(h1, dns);
    RunLan(h1.(rules := WithDns(h1.rules, dns)), lan);
  }

  lemma RunStaging(h: Host, p: Plan)
    ensures Run(h, StagingCommands(p))
         == h.(tun0 := Up, rules := WithLan(WithDns(WithServers(h.rules, p.servers), p.dns), p.lan))
  {
    RunStages(h, [TunAdd, TunUp], ServerCommands(p.servers), DnsCommands(p.dns), LanCommands(p.lan));
    DeviceUp(h);
    RunBypasses(h.(tun0 := Up), p.servers, p.dns, p.lan);
  }

  lemma RuleAndRoute(h: Host, r: Rule, dst: Prefix, hop: Hop)
    ensures Run(h, [RuleAdd(r), RouteAdd(dst, hop)])
         == h.(rules := AddRule(h.rules, r), routes := AddRoute(h.routes, h.tun0, dst, hop))
  {
    RunTwo(h, RuleAdd(r), RouteAdd(dst, hop));
  }

  lemma RuleReplaced(h: Host, sel: Selector, r: Rule)
    ensures Run(h, [RuleDelete(sel), RuleAdd(r)]) == h.(rules := AddRule(RemoveFirst(h.rules, sel), r))
  {
    RunTwo(h, RuleDelete(sel), RuleAdd(r));
  }

  lemma RouteThenReplace(h: Host, c: Rule, dst: Prefix, hop: Hop, sel: Selector, r: Rule)
    ensures Run(h, [RuleAdd(c), RouteAdd(dst, hop)] + [RuleDelete(sel), RuleAdd(r)]) == h.(
      rules := AddRule(RemoveFirst(AddRule(h.rules, c), sel), r),
      routes := AddRoute(h.routes, h.tun0, dst, hop))
  {
    RunConcat(h, [RuleAdd(c), RouteAdd(dst, hop)], [RuleDelete(sel), RuleAdd(r)]);
    RuleAndRoute(h, c, dst, hop);
    RuleReplaced(Run(h, [RuleAdd(c), RouteAdd(dst, hop)]), sel, r);
  }

  lemma RunCatchAndDefault(h: Host)
    ensures Run(h, CATCH_AND_DEFAULT) == h.(
      rules := AddRule(RemoveFirst(AddRule(h.rules, CATCHALL), TORRENT_SELECTOR), TORRENT),
      routes := AddRoute(h.routes, h.tun0, [], Device(TUN)))
  {
    RouteThenReplace(h, CATCHALL, [], Device(TUN), TORRENT_SELECTOR, TORRENT);
  }

  /**
   Egress after the routing step on a host teardown has just passed over: server IPs,
   DNS IPs, LAN subnets and mark 1 use table main; every other packet goes where the
   deciding candidate of the full, undeduplicated stream sends it, the default being
   the tunnel. At most 28 DNS and 21 LAN entries keep the bypasses inside the band.
   */
  lemma EgressAfterBootstrap(
    h: Host, p: Plan, sources: Sources, dns: Dns, resolves: (string, Addr) -> bool, pkt: Packet)
    returns (i: nat)
    requires Sorted(h.rules) && (forall r :: r in h.rules ==> !InBand(r)) && h.routes == map[]
    requires |p.dns| <= 28 && |p.lan| <= 21
    requires p.kept == FirstTexts(Candidates(sources, dns))
    requires var after := Run(h, RoutingCommands(p));
      LeavesToDaemon(after.rules, after.routes, resolves, pkt)
    ensures var after := Run(h, RoutingCommands(p));
      var all := Meanings(Candidates(sources, dns)) + [DEFAULT];
      && Decides(all, pkt.dst, i)
      && Decide(after.rules, after.routes, resolves, pkt)
        == if Protected(Hosts(p.servers) + Hosts(p.dns) + Ranges(p.lan), pkt) then InMain else Via(all[i].hop)
  {
    var after := Run(h, RoutingCommands(p));
    var entries := Candidates(sources, dns);
    var up := h.(tun0 := Up);
    RunRouting(h, p);
    RoutingInstallsPolicy(h.rules, p.servers, p.dns, p.lan);
    i := EveryAddressDecided(up, entries, pkt.dst);
    LoadedDefault(up, p.kept);
    DefaultLoaded(map[], Meanings(p.kept));
    PolicyDecides(after.rules, Hosts(p.servers) + Hosts(p.dns) + Ranges(p.lan), after.routes, resolves, pkt);
  }

  lemma LoadedDefault(h: Host, kept: seq<RouteEntry>)
    requires h.tun0 == Up && h.routes == map[]
    ensures Run(h, LoadCommands(kept)).routes == FirstWins(map[], Up, Meanings(kept) + [DEFAULT])
  {
    RunBatch(h, Meanings(kept));
    RunConcat(h, Batch(Meanings(kept)), [RouteAdd([], Device(TUN))]);
    RunOne(Run(h, Batch(Meanings(kept))), RouteAdd([], Device(TUN)));
    AddedLast(map[], Meanings(kept), DEFAULT);
  }

  lemma DefaultLoaded(routes: map<Prefix, Hop>, kept: seq<Route>)
    ensures [] in FirstWins(routes, Up, kept + [DEFAULT])
  {
    FirstWinsKeys(routes, kept + [DEFAULT], []);
    assert (kept + [DEFAULT])[|kept|].dst == Some([]);
  }
}
