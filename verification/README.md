# A verified model of the VPN daemon

The daemon turns a host into a VPN client: it rewrites the host's ip rules, one routing
table, a NAT chain and an MSS clamp, runs sing-box and tun2socks, and compiles the
provider's profile into a sing-box configuration. This project models that behaviour in
Dafny 4.11 and proves what it keeps, promises and breaks. `dafny verify dfyconfig.toml`
checks the whole project.

## How the model is built

* **The host** (`Network`, `Rules`, `Egress`) is data: ip rules as the ordered list the
  kernel walks, the VPN table as a map from prefixes with first-wins insertion and longest
  match (section 5.2.4.3 of RFC 1812), tun0, the NAT chain and its hooks, the count of MSS
  clamps, the live processes. `Exec` is the effect of one shell command and `Run` of a list.
* **The objects** (`Shell`, `Managers`, `Loading`, `Orchestrator`, `Machine`) have the
  source's fields and methods. Each method updates its fields and the host step by step and
  is proved to do what a function on values says: `Machine.VpnStateMachine` keeps a
  `View()`, a value of type `Daemon.Daemon`, in step with the functions of `Daemon`.
* **The daemon over whole runs** (`Daemon`, `Safety`, `Diagram`, `Cleanup`, `Overlap`,
  `StopStart`, `Configured`, `Reporting`, `EgressRuns`, `Processes`) is a transition system
  over those values. Its steps are: handling the oldest queued event, posting any event the environment
  may post, a timer firing, a bootstrap task running or crashing in its next segment, IPC
  calls, and a process dying. A bootstrap suspends only at its two yields, so it has three
  segments; it may crash after any command of a segment.
* **Routing** (`Subnets`, `Addresses`, `Routes`, `Directions`, `Lifecycle`, `Sparing`,
  `Switching`, `RouteCommands`) relates what bootstrap, switches and route calls send to a
  reference decision for packets, and that decision to the lists of the configuration.
* **The profile** is modelled twice, as the source handles it twice. `Subscription`,
  `Substitution` and `Groups` work on arbitrary JSON trees and `Documents` on nested lists and
  dictionaries on the heap, where a merge shares containers. `Profile`, `Sanitizing`,
  `Supported`, `DnsServers`, `Provider`, `Pinning` and `Deployer` work on the sections the provider reads, with one
  heap object per dictionary, so that a deep copy, a shared dictionary and an update in
  place are different things.
* **Names and locks**: `Text` and `Tags` (normalisation of tags), `Catalog` and `CatalogTexts`
  (server names),
  `SpeedtestLock` (the lock file, for any number of processes).

Unknown input is quantified over: DNS answers, topology, which files exist, when processes
die, in which order tasks run, what other rules and jumps the host has.

## What the code does that its documentation does not say

* HEALTHY and DEGRADED ignore `SINGBOX_DIED`, while line 213 of the daemon's own README.md
  shows a transition to RESTARTING; in `Daemon.InHealthy` the event changes nothing.
* RESTARTING starts no process (src/vpn/core/state_machine/states/restarting.py:24-32):
  after a failure it can only time out (`Safety.RestartNeverRecovers`).
* Teardown is called idempotent (src/vpn/core/orchestrator.py:212). It is exactly when at most
  one MSS clamp and at most one NAT hook are there (`Lifecycle.TeardownIdempotentIff`).
* IPC stop and start leave a bootstrap in flight alone. Overlapping bootstraps can leave a
  clamp behind (`StopStart.StopStartCleanIff` says exactly when), and a stopped daemon can get
  its catch-all rule back (`Overlap.StopIsFinalIff` says exactly when a stop is final).
  HEALTHY after a start may be the report of an earlier bootstrap, on a host that is not
  configured (`Reporting.StopStartHonestIff`). STOPPED swallows a shutdown request
  (`Safety.ShutdownExitsIff`).
* `ip rule del to X` removes the first rule for X, whoever's it is, and the clearing loops
  take every rule of priorities 1 to 30, those of WireGuard at 8 and 9 included.
* Switching to a profile that lists a DNS server as a VPN server, and then away from it,
  loses that DNS server's own bypass; the VPN table decides for it then, and sends it through
  the tunnel unless a bypass route covers it, when no LAN range does and the packet has no
  mark (`Switching.DnsAroundVpnIff`).
* `route.remove` deletes an address that another domain or a listed subnet is still recorded
  for, and leaves the routes of a domain that came with the configuration
  (`RouteCommands.CallKeepsRecordIff`, `RouteCommands.ConfiguredDomainKeepsRoutes`).
* A flag is looked for anywhere in a tag, not only in front
  (src/vpn/adapters/akonit/catalog.py:103-112).
* `build_singbox_config` is documented to set `urltest_out.default`
  (src/vpn/adapters/akonit/provider.py:95); it rewrites the references to the group instead.
* A deployment from the profile forgets an earlier switch (`Deployer.DeployUnpins`), so a
  restart goes back to the group while the active server's name comes from the catalogue.
* Sanitising removes a selector's default, which may move it to another member
  (`Pinning.SelectorKeepsMemberIff`).
* Merging a subscription renames references inside the baseline object as well
  (`Documents.MergeProfile`, `Documents.BaselineSurvivesIff`).
* Reclaiming a stale speed-test lock is called atomic (src/vpn/core/speedtest/store.py:118); it
  is a look at the age, a removal and a creation (`SpeedtestLock.InterleavedReclaimsCollide`).

The table below lists the results over whole runs first, then teardown and bootstrap, routes,
the objects that carry them out, the profile, the names, the lock and the route calls.
Methods that assign one field or send one command have no row.
Nor have short consequences of the results: `RouteCommands.StartsOnRecord` and
`RouteCommands.NothingLeftIsBase`, `SpeedtestLock.CrashedLockReclaimable` and
`Pinning.PinningAgainDoesNothing`, `Subscription.NormalizeFailsIff`, `Addresses.FilteredChars`, `Text.StripTold` and
`Text.BlanksAreSpaces`, `CatalogTexts.PlainSlug`.

## Model

| member | source | states |
|---|---|---|
| `StopStart.ExitLeavesHostClean` | src/vpn/core/state_machine/states/failed.py:21-37 | In every run from a host with at most one MSS clamp and one NAT hook whose IPC stops and starts are served with no bootstrap in flight and nothing queued that lets a second one in, with bootstraps stopped or crashed after any command and whatever their plans, a daemon in FAILED has exited; no rule of priority 1..30, no route in the VPN table, no tun0, no NAT chain or hook, no MSS clamp and no VPN process is left; and the other POSTROUTING jumps are those of before. |
| `StopStart.StopStartCleanIff` | src/vpn/core/state_machine/machine.py:186-216 | The exact condition for one IPC stop or start: every later exit leaves the host clean (in all continuations whose own stops and starts meet it) if and only if no bootstrap is in flight, handling what is queued neither starts one on a server change nor ends in HEALTHY or DEGRADED, and at most two clamps and two hooks are there. |
| `StopStart.CalmIsCareful` | src/vpn/core/state_machine/machine.py:186-216 | A stop or start served while no bootstrap is in flight and no BOOTSTRAP_DONE is queued meets the first two of those conditions. |
| `Reporting.HealthyMeansConfigured` | src/vpn/core/state_machine/states/bootstrapping.py:43-47 | In every run whose IPC stops and starts are served when nothing queued reports an earlier bootstrap and none is in flight (or what is queued ends the process), HEALTHY and DEGRADED imply that tun0 is up, the catch-all and torrent rules are in force, the NAT chain masquerades tun0 and the interface discovery found and is hooked, an MSS clamp is there, forwarding is on and IPv6 off, whatever switches, route calls, crashes and dying processes came in between. |
| `Reporting.StopStartHonestIff` | src/vpn/core/state_machine/machine.py:186-216 | That condition is exact: after a stop or start HEALTHY and DEGRADED imply a configured host, in all continuations whose own stops and starts meet it, if and only if it held. |
| `EgressRuns.EgressInEveryRun` | src/vpn/core/orchestrator.py:130-162 | In every run whose stops and starts meet that condition, with plans that fit the band, switches that name no address twice, no route call deleting the default and a sorted rule list in which no rule of priority 0 has a destination: in HEALTHY and DEGRADED table main decides for mark 1 and the destinations the history since the last teardown exempts (the last servers, DNS, LAN, with switches between the segments of bootstrap and after them), and every other packet the host's earlier rules leave to the daemon takes the longest match in the VPN table. |
| `EgressRuns.EgressByCandidates` | src/vpn/core/routing/bypass_loader.py:76-143 | When the plan loaded what the lists offer and no route call has come since that teardown, such a packet takes the hop of the route that decides for its destination in the un-deduplicated candidate stream plus default. |
| `Cleanup.ExitLeavesClampsAtMost` | src/vpn/core/orchestrator.py:208-235 | In every run from a host with at most one NAT hook, IPC stop and start included, an exit leaves nothing of the daemon's on the host except possibly surplus MSS clamps; the other POSTROUTING jumps are at all times those of before. |
| `Cleanup.HostRulesKept` | src/vpn/core/orchestrator.py:208-235 | In every run, IPC stop and start included, the host's rules outside priorities 1..30 are at all times those of before and nothing else is left on exit, when no server or DNS address is the destination of one of them and the plans fit the band. |
| `StopStart.OverlapLeavesClamp` | src/vpn/core/state_machine/machine.py:203-216 | On a clean host, two starts served in one go once the first bootstrap is through, whose bootstraps then take turns in the order of their tasks, end in an exit that leaves an MSS clamp behind. |
| `Overlap.StopTearsDown` | src/vpn/core/state_machine/machine.py:186-202 | With processes owned, IPC stop does to the host exactly what the teardown does. |
| `Overlap.StopCleansIff` | src/vpn/core/state_machine/machine.py:186-202 | With processes owned, IPC stop leaves a clean host if and only if it found at most one MSS clamp and one NAT hook. |
| `Overlap.StartCleansIff` | src/vpn/core/state_machine/machine.py:203-216 | IPC start leaves a clean host, whoever owns its processes, if and only if it found at most one MSS clamp and one NAT hook; no sing-box and no tun2socks is left, and the rules outside the band stay. |
| `Overlap.StopLeavesBootstrapRunning` | src/vpn/core/state_machine/machine.py:186-202 | IPC stop cancels no bootstrap in flight: each one, at any segment, runs on in STOPPED and dirties the host, with the catch-all rule if routing comes next. |
| `Overlap.StopIsFinalIff` | src/vpn/core/state_machine/machine.py:186-202 | With processes owned, the stopped host is clean and stays clean in every continuation that remains in STOPPED and in which no switch starts sing-box, if and only if no bootstrap was in flight and there was at most one clamp and one hook. |
| `Overlap.StoppedStaysClean` | src/vpn/core/state_machine/states/stopped.py:20-29 | Without a bootstrap in flight a clean STOPPED host is untouched by events, timers, dying processes, route calls and switches that fail before they start sing-box. |
| `Overlap.SwitchStartsSingbox` | src/vpn/core/state_machine/machine.py:120-148 | A switch that gets as far as starting sing-box leaves it running, in STOPPED as in any state. |
| `Safety.BootstrapTokens` | src/vpn/core/state_machine/states/bootstrapping.py:24-57 | In every run whose IPC stops and starts are served with no bootstrap in flight or unreported, bootstraps in flight plus queued BOOTSTRAP_DONE are at most one, none in HEALTHY, DEGRADED and STOPPED, and the BOOTSTRAP_DONE that BOOTSTRAPPING handles comes from the bootstrap that state instance spawned. |
| `Safety.RestartNeverRecovers` | src/vpn/core/state_machine/states/restarting.py:24-44 | RESTARTING starts nothing: once entered from HEALTHY or DEGRADED, in a run whose stops and starts so far were served with no bootstrap in flight or unreported, no continuation without IPC stop and start returns to HEALTHY; it ends in FAILED or stays. |
| `Safety.RecoveriesNeedBootstraps` | src/vpn/core/state_machine/states/restarting.py:39-44 | In every run, IPC included, entries to HEALTHY by BOOTSTRAP_DONE together with the bootstraps still to report never exceed entries to BOOTSTRAPPING. |
| `Safety.NoSilentHang` | src/vpn/core/state_machine/states/bootstrapping.py:24-41 | In every reachable configuration at most one timer is armed, and in BOOTSTRAPPING and RESTARTING the state's own timer is armed or a TIMEOUT is queued; after an exit no timer and no bootstrap is left. |
| `Safety.TimeoutLeaves` | src/vpn/core/state_machine/states/restarting.py:45-50 | A TIMEOUT at queue index k makes BOOTSTRAPPING and RESTARTING leave within k+1 handled events, whatever the others are. |
| `Safety.BoundedShutdown` | src/vpn/core/state_machine/machine.py:76-91 | In runs without IPC stop, SHUTDOWN_REQUESTED at queue index k has the daemon torn down and exited after at most k+1 handled events. |
| `Safety.StreakRefinesHistory` | src/vpn/core/state_machine/states/degraded.py:27-42 | In every run the streak counter is 0 in HEALTHY and 1 or 2 in DEGRADED and equals the failures handled since the last good sign; a health event enters RESTARTING only after three; recovery_count is the number of entries to RESTARTING. |
| `Diagram.ArrowTaken` | src/vpn/core/state_machine/states/healthy.py:39-67 | For every arrow of the state diagram, in every state (a restart request in HEALTHY leads to RESTARTING, SINGBOX_DIED in BOOTSTRAPPING too): an event at queue index k makes the state instance be left within k+1 handled events, and if it still lasts when that event is handled, the next state entered is the arrow's, and the recovery counter grows exactly if that is RESTARTING. |
| `Diagram.OtherEventsDropped` | src/vpn/core/state_machine/machine.py:81-91 | An event without an arrow from the current state is taken from the queue and changes nothing else, but for the failed checks DEGRADED counts. |
| `Diagram.ContextTellsHistory` | src/vpn/core/state_machine/states/restarting.py:45-60 | In every run an error is in the context exactly when the process has ended for one, with the text for its cause, and the target server is the one last asked for while HEALTHY. |
| `Diagram.ContextTellsNews` | src/vpn/core/orchestrator.py:104-182 | In every run the context's gateway and interface are those the last first segment found, and its active server that of the last bootstrap or switch that got through. |
| `Processes.ProcessesAreOwned` | src/vpn/core/tunnel/tun2socks.py:26-61 | In every run from a host without VPN processes, live sing-box processes are at most the one in the context, live tun2socks at most the manager's handle, and the context's handle is the manager's. |
| `Processes.TunnelReplaced` | src/vpn/core/tunnel/tun2socks.py:35-49 | Starting the tunnel leaves exactly the new tun2socks process alive. |
| `Processes.SwitchOutcome` | src/vpn/core/state_machine/machine.py:120-148 | With processes owned, each way a switch can end, from an unknown server to success, fixes which sing-box and tun2socks are alive, which handles the context and the manager hold, and that the active server changes only at the very end. |
| `Cleanup.RunKeepsJumps` | src/vpn/core/firewall/nat.py:19-55 | No list of commands whatsoever changes another POSTROUTING jump of a host with at most one hook. |
| `Cleanup.RunKeepsRules` | src/vpn/core/routing/rule_manager.py:32-93 | A list of commands that adds rules in the band only, and deletes no rule outside it, leaves the rules outside as they are. |
| `Cleanup.MssGrowth` | src/vpn/core/firewall/mss.py:19-33 | A list of commands adds at most as many MSS clamps as it appends, exactly that many without a delete. |
| `Lifecycle.RunTeardown` | src/vpn/core/orchestrator.py:208-235 | The effect of the whole teardown sequence on any host, in closed form. |
| `Lifecycle.TeardownCleansIff` | src/vpn/core/orchestrator.py:208-235 | Teardown leaves the host clean if and only if it found at most one MSS clamp and at most one NAT hook; the rules outside the band always stay. |
| `Lifecycle.TeardownIdempotentIff` | src/vpn/core/orchestrator.py:208-213 | A second teardown changes nothing under exactly the same condition, though the documentation promises it always. |
| `Lifecycle.RunRouting` | src/vpn/core/orchestrator.py:132-161 | The effect of the routing segment: tun0 up, the rule stages, and the first-wins fold of the kept routes with the default last. |
| `Lifecycle.EgressAfterBootstrap` | src/vpn/core/orchestrator.py:137-161 | After bootstrap, for every packet the host's earlier rules leave to the daemon: server, DNS and LAN destinations and mark 1 resolve in table main, everything else takes the hop of the route that decides for its destination in the un-deduplicated candidate stream plus default; with at most 28 DNS and 21 LAN entries, repeated or overlapping ones included. |
| `Sparing.BootstrapSparesIff` | src/vpn/core/routing/rule_manager.py:32-51 | Bootstrap leaves the host's own rules alone if and only if none of them is `to` a server or DNS address. |
| `Egress.RoutingInstallsPolicy` | src/vpn/core/routing/rule_manager.py:32-75 | The rule stages of bootstrap establish the policy: every protected destination has a rule to table main, the band holds nothing else but torrent and catch-all, and the catch-all is last. |
| `Egress.RulesPlaced` | src/vpn/core/routing/rule_manager.py:32-75 | Where bootstrap puts its rules: LAN subnet j at priority 10+j, DNS address i at 3+i (its last mention), a server that is no DNS address at 1, mark 1 at 20, everything else at 30. |
| `Egress.PolicyDecides` | src/vpn/core/routing/rule_manager.py:70-75 | Any rule list with that policy decides every packet left to it: main if and only if its destination or mark is protected, else longest match in the VPN table. |
| `Egress.DecideFirst` | src/vpn/core/routing/rule_manager.py:70-75 | The verdict of the rule walk is the answer of the first rule that has one. |
| `Switching.SwitchesPolicy` | src/vpn/core/state_machine/machine.py:142-147 | Any sequence of server switches keeps the policy for the last profile's servers and for the destinations whose own rule outlasts the switches. |
| `Switching.AnchorsAfterSwitches` | src/vpn/core/routing/rule_manager.py:32-43 | How many of a destination's own rules are left after any sequence of switches: one less for each profile that lists it. |
| `Switching.EgressAfterSwitches` | src/vpn/core/state_machine/machine.py:142-147 | The egress decision after bootstrap and any sequence of switches, for every packet and with no assumption on how server, DNS and LAN addresses overlap, when no rule of priority 0 has a destination. |
| `Switching.EgressKept` | src/vpn/core/state_machine/machine.py:142-147 | When server addresses avoid DNS addresses and LAN ranges, that decision is bootstrap's with the last profile's servers. |
| `Switching.DnsAroundVpnIff` | src/vpn/core/routing/rule_manager.py:32-51 | After bootstrap and any switches, table main decides for packets to a DNS server that is not itself a LAN entry if and only if they carry mark 1, a LAN range covers the server, the last profile lists it as a server, or none ever did; they go around the VPN exactly in these cases and when their longest match in the VPN table does not use tun0. |
| `Switching.DnsBypassKeptIff` | src/vpn/core/routing/rule_manager.py:32-51 | Such a DNS server keeps a rule of its own after any switches if and only if the last profile lists it as a server or none ever did. |
| `Switching.SwitchesSpareOthersIff` | src/vpn/core/routing/rule_manager.py:90-93 | Switches leave every rule of priority other than 1 as it was if and only if no profile lists the destination of such a rule; they never add one. |
| `Subnets.HostTextsCoincide` | src/vpn/core/topology/discovery.py:16 | An address with and without "/32" are different texts for one prefix, and both are accepted: why duplicates by text are not duplicates by meaning. |
| `Addresses.PrefixReads` | src/vpn/core/topology/discovery.py:16 | Every prefix, written as dotted quad with length, passes the loader's filter and is read as that prefix. |
| `Routes.DedupPreservesRoutes` | src/vpn/core/routing/bypass_loader.py:86-95 | Dropping repeated texts never changes the table the first-wins kernel ends with, whatever it held before. |
| `Routes.LoadRefinesFirstWins` | src/vpn/core/routing/route_table.py:56-79 | The batch of kept entries and the default leave exactly the first-wins fold over all candidates. |
| `Routes.TableDecides` | src/vpn/core/routing/route_table.py:56-79 | Longest match in that table is the hop of the reference decision: the longest covering prefix, earliest candidate first. |
| `Routes.SomeDecides` | src/vpn/core/routing/route_table.py:74-79 | Some route decides for every covered address. |
| `Routes.EveryAddressDecided` | src/vpn/core/routing/bypass_loader.py:76-143 | After loading, every address has a deciding candidate and the kernel answers with its hop. |
| `Directions.KeptEntryPoints` | src/vpn/core/routing/bypass_loader.py:76-143 | An entry the loader keeps goes to the gateway on the physical interface if its text comes from the RU list, a bypass subnet or the answers for a bypass domain, even if it is forced as well; otherwise to tun0. |
| `Directions.KeptTexts` | src/vpn/core/routing/bypass_loader.py:76-143 | Every valid text of every list and every answer is kept, once, and nothing else. |
| `Directions.ExpandedNames` | src/vpn/core/routing/bypass_loader.py:134-141 | A wildcard with ".*" stands for its base under each of the eleven listed domains, and other patterns for nothing. |
| `Directions.EgressByLists` | src/vpn/core/routing/bypass_loader.py:76-143 | After bootstrap a packet that is not protected goes to the gateway if the longest prefix of its destination in the lists is bypassed, and into the tunnel if that prefix is only forced or none is listed. |
| `Directions.EgressByListsInRuns` | src/vpn/core/orchestrator.py:130-162 | The same in HEALTHY and DEGRADED of every run of EgressRuns.EgressByCandidates. |
| `Loading.BypassLoader.LoadAll` | src/vpn/core/routing/bypass_loader.py:76-143 | The loops over RU subnets, bypass subnets and domains, VPN subnets, domains and wildcards return the first entry of each text of the whole candidate stream, in order of precedence; what that is, the Directions rows say without the stream. |
| `Loading.BypassLoader.ResolveAndAdd` | src/vpn/core/routing/bypass_loader.py:145-174 | One resolved name offers a /32 for each of its addresses, in order; without DNS it offers nothing and asks nothing. |
| `Loading.RouteList.Offer` | src/vpn/core/routing/bypass_loader.py:86-95 | The shared list and set stay in step: the list is the first entries of all texts offered so far. |
| `Loading.RouteTable.LoadBatch` | src/vpn/core/routing/route_table.py:38-72 | The batch file carries every entry, in order, and the count returned is theirs. |
| `Managers.RuleManager.AddServerBypass` | src/vpn/core/routing/rule_manager.py:32-43 | Removes the first rule `to` the address, whatever its priority, and adds one of priority 1. |
| `Managers.RuleManager.AddDnsBypass` | src/vpn/core/routing/rule_manager.py:45-51 | The same at the given priority. |
| `Managers.RuleManager.AddTorrentBypass` | src/vpn/core/routing/rule_manager.py:60-68 | Replaces the mark-1 rule of priority 20. |
| `Managers.RuleManager.ClearAll` | src/vpn/core/routing/rule_manager.py:77-88 | The delete-until-fail loops leave exactly the rules outside priorities 1..30, duplicates and others' rules in the band included. |
| `Managers.RuleManager.ClearServerBypasses` | src/vpn/core/routing/rule_manager.py:90-93 | Exactly the rules of priority 1 go. |
| `Shell.ShellAdapter.Drain` | src/vpn/core/routing/rule_manager.py:85-87 | The shell loop ends with no rule of that priority and the others in order. |
| `Managers.TunInterface.Create` | src/vpn/core/routing/tun_interface.py:20-29 | tun0 is up, whatever it was. |
| `Managers.TunInterface.Destroy` | src/vpn/core/routing/tun_interface.py:31-35 | tun0 is gone, and its routes with it. |
| `Managers.NatManager.Apply` | src/vpn/core/firewall/nat.py:19-42 | The chain masquerades tun0 and the WAN exactly once each; the hook is inserted first, and only if no listed jump mentions the chain. |
| `Managers.NatManager.Remove` | src/vpn/core/firewall/nat.py:44-55 | One hook goes; the chain goes with it unless another hook still uses it. |
| `Managers.Tun2SocksManager.Start` | src/vpn/core/tunnel/tun2socks.py:26-49 | Stops the old process only if it is alive, then holds the handle of the one it started; a failed launch keeps the old handle. |
| `Orchestrator.VpnOrchestrator.TeardownNetwork` | src/vpn/core/orchestrator.py:208-235 | The object's teardown has exactly the closed-form effect. |
| `Orchestrator.VpnOrchestrator.StartSegment` | src/vpn/core/orchestrator.py:104-128 | The first segment tears down, starts sing-box and records handle, gateway and interface, or stops at the step that failed with everything before it done. |
| `Orchestrator.VpnOrchestrator.RoutingSegment` | src/vpn/core/orchestrator.py:130-162 | The second segment sends exactly the routing commands for its findings, or the device and the bypasses only when loading the routes raises. |
| `Orchestrator.VpnOrchestrator.FirewallSegment` | src/vpn/core/orchestrator.py:164-182 | The third segment sends the firewall commands, starts the tunnel and records its handle and the first server's name, or stops at the step that failed with everything before it done. |
| `Machine.VpnStateMachine.constructor` | src/vpn/core/state_machine/machine.py:76-79 | The machine starts as the booted daemon: BOOTSTRAPPING, one timer, one bootstrap. |
| `Machine.VpnStateMachine.TransitionTo` | src/vpn/core/state_machine/machine.py:68-74 | Leaves the old state and enters the new one as the transition function says, timer and tasks included. |
| `Machine.VpnStateMachine.HandleBootstrapping` | src/vpn/core/state_machine/states/bootstrapping.py:43-63 | The handler is the BOOTSTRAPPING transition table. |
| `Machine.VpnStateMachine.HandleHealthy` | src/vpn/core/state_machine/states/healthy.py:39-67 | The handler is the HEALTHY transition table; SINGBOX_DIED is ignored. |
| `Machine.VpnStateMachine.HandleDegraded` | src/vpn/core/state_machine/states/degraded.py:27-51 | The handler is the DEGRADED transition table with the threshold of three. |
| `Machine.VpnStateMachine.HandleRestarting` | src/vpn/core/state_machine/states/restarting.py:39-60 | The handler is the RESTARTING transition table. |
| `Machine.VpnStateMachine.RunOnce` | src/vpn/core/state_machine/machine.py:81-91 | One turn of the loop takes the oldest event and handles it in the current state. |
| `Machine.VpnStateMachine.Expire` | src/vpn/core/state_machine/states/bootstrapping.py:64-66 | An armed timer fires once, as a queued TIMEOUT. |
| `Machine.VpnStateMachine.Exit` | src/vpn/core/state_machine/states/failed.py:30-37 | FAILED tears the network down and leaves the process with every task cancelled. |
| `Machine.VpnStateMachine.ResumeStart` | src/vpn/core/orchestrator.py:104-128 | A bootstrap task resumed for its first segment is the model's first segment, or its crash there. |
| `Machine.VpnStateMachine.ResumeRouting` | src/vpn/core/orchestrator.py:130-162 | Resumed for its second segment, it is the model's second segment, or its crash after the bypasses when loading the routes raises. |
| `Machine.VpnStateMachine.ResumeFirewall` | src/vpn/core/orchestrator.py:164-182 | Resumed for its third segment, it ends and posts BOOTSTRAP_DONE, or crashes before tun2socks is launched, or after, when the catalogue cannot be read. |
| `Machine.VpnStateMachine.ApplyServer` | src/vpn/core/state_machine/machine.py:120-148 | A server switch, wherever it stops: unknown name, failed start, closed port, failed tunnel or done. |
| `Machine.VpnStateMachine.Stop` | src/vpn/core/state_machine/machine.py:186-202 | IPC stop: kills by handle, removes the network set-up and enters STOPPED, leaving bootstraps in flight alone. |
| `Machine.VpnStateMachine.Start` | src/vpn/core/state_machine/machine.py:203-216 | IPC start: the mini-cleanup, then BOOTSTRAPPING, whatever the state was. |
| `Subscription.ReplaceRemoves` | src/vpn/core/subscription.py:55-69 | After a replacement no dictionary in the tree holds the old name as a value. |
| `Subscription.ReplaceTouchesReferencesOnly` | src/vpn/core/subscription.py:55-69 | It changes nothing else: same keys, same shape, same strings in lists. |
| `Subscription.NormalizeIdempotent` | src/vpn/core/subscription.py:72-87 | Normalising twice is normalising once, on every JSON profile the loop accepts. |
| `Subscription.MergeOverlays` | src/vpn/core/subscription.py:90-93 | A merge normalises the overlay in which the subscription's keys win and the baseline supplies the rest. |
| `Groups.GroupsHaveSwitchTag` | src/vpn/core/subscription.py:72-87 | After normalising, every outbound of type "urltest" or "selector" with a truthy tag has the tag "urltest_out". |
| `Groups.EveryGroupRenamed` | src/vpn/core/subscription.py:72-87 | Unless such a group is called "urltest" or "selector" like a group's own type, every outbound that was one with a truthy tag, string or not, has that tag afterwards. |
| `Groups.OtherTagsKept` | src/vpn/core/subscription.py:72-87 | Under string tags an outbound whose tag no such group bears keeps it. |
| `Substitution.NormalizeIsSubstitution` | src/vpn/core/subscription.py:72-87 | The loop of interleaved renames equals one simultaneous substitution of the groups' tags, when group tags are strings and no group is called like the type of a group. |
| `Substitution.FieldReferencesFollow` | src/vpn/core/subscription.py:72-77 | Every dictionary field that named an outbound, at any path of any profile but inside the tag of a group, still names that outbound. |
| `Substitution.ReferencesInGroupTagsLost` | src/vpn/core/subscription.py:82-86 | Inside the tag of a group, one that is a list or dictionary, the reference is lost with the tag, when no group is called like the type of one. |
| `Substitution.ListReferencesDangleIff` | src/vpn/core/subscription.py:67-69 | A list element that named an outbound is left as it is, and names nothing afterwards if and only if it was a group's tag. |
| `Substitution.TagsStayDistinctIff` | src/vpn/core/subscription.py:82-86 | Distinct outbounds keep distinct tags if and only if at most one of them ends up with the switch tag. |
| `Substitution.GroupsStayGroupsIff` | src/vpn/core/subscription.py:79-86 | Every group is still a group afterwards if and only if no group is called like the type of one. |
| `Documents.ReplaceRefs` | src/vpn/core/subscription.py:55-69 | The recursive in-place walk over nested lists and dictionaries does what the function on values says, and never moves a container. |
| `Documents.NormalizeProfile` | src/vpn/core/subscription.py:72-87 | The in-place loop does what normalisation on values says, or fails before the first assignment. |
| `Documents.MergeProfile` | src/vpn/core/subscription.py:90-93 | The result is the normalised overlay; and because it shares the baseline's nested containers, the baseline itself is renamed in exactly the containers it lends. |
| `Documents.BaselineSurvivesIff` | src/vpn/core/subscription.py:90-93 | The baseline is unchanged by a merge if and only if no container it lends refers to a group of the merged profile. |
| `Tags.NormalForm` | src/vpn/adapters/akonit/catalog.py:96-100 | A normal form is words without emoji or white space, joined by single spaces. |
| `Tags.NormalizeIdempotentIff` | src/vpn/adapters/akonit/catalog.py:96-100 | Normalising again changes nothing if and only if the normal form does not contain the boilerplate. |
| `Tags.NormalizeTwiceDiffers` | src/vpn/adapters/akonit/catalog.py:96-100 | A tag with nested boilerplate whose second normalisation differs from the first. |
| `Tags.PlainTagUnchanged` | src/vpn/adapters/akonit/catalog.py:96-100 | Tags without emoji, white space and opening parenthesis, `urltest_out` among them, are their own normal form. |
| `Tags.FlagsGone` | src/vpn/adapters/akonit/catalog.py:30-41 | No flag, and no picture of the emoji blocks, is left in a normal form. |
| `Tags.LettersStay` | src/vpn/adapters/akonit/catalog.py:96-100 | A word of characters below U+1680 other than space, the opening parenthesis and the two signs © and ® is its own normal form. |
| `Catalog.Slugify` | src/vpn/adapters/akonit/catalog.py:128-136 | The loop spells the lower-cased text character by character, the two characters included whose lower case turns into a Latin letter. |
| `Catalog.SlugChars` | src/vpn/adapters/akonit/catalog.py:128-136 | A slug has lower-case ASCII letters and digits only. |
| `Catalog.BaseHasNoUnderscore` | src/vpn/adapters/akonit/catalog.py:139-145 | A base name has no underscore. |
| `Catalog.BuildCatalog` | src/vpn/adapters/akonit/catalog.py:148-180 | The loops return the catalogue of the specification. |
| `Catalog.NamesDistinctIff` | src/vpn/adapters/akonit/catalog.py:171-179 | Names are pairwise distinct if and only if the pairs of base name and country are. |
| `Catalog.CatalogueIsSortedPermutation` | src/vpn/adapters/akonit/catalog.py:174-180 | The catalogue holds the tagged proxy outbounds, each once, ordered by name. |
| `Catalog.SameNameInOrder` | src/vpn/adapters/akonit/catalog.py:180 | Servers of one name keep the order of the profile, and a lookup finds the first of them. |
| `Catalog.ServersAreOutbounds` | src/vpn/adapters/akonit/catalog.py:155-169 | Every server of the catalogue has an outbound with its tag, and the tag is not empty. |
| `CatalogTexts.ServerIsNamed` | src/vpn/adapters/akonit/catalog.py:148-180 | Every tagged outbound of one of the ten proxy types is in the catalogue with its tag, host and port (or "unknown" and 443), called by its base name, and by base name and country exactly if another one has that base name and its country is known. |
| `CatalogTexts.ServersServe` | src/vpn/adapters/akonit/catalog.py:148-180 | Every server of the catalogue is such an outbound. |
| `CatalogTexts.BaseIsFirstWord` | src/vpn/adapters/akonit/catalog.py:139-145 | A tag "word - anything" in normal form gives the slug of its first word, and that of the whole tag if the word has none. |
| `CatalogTexts.BaseFallsBack` | src/vpn/adapters/akonit/catalog.py:139-145 | A tag without a letter or digit to build on is called "server". |
| `CatalogTexts.AlphabetSlug` | src/vpn/adapters/akonit/catalog.py:87-93 | The slug of the whole Russian alphabet. |
| `CatalogTexts.FlagIsCountry` | src/vpn/adapters/akonit/catalog.py:103-112 | The first two regional indicators of a tag, whatever stands around and between them, are its country. |
| `CatalogTexts.CountryByName` | src/vpn/adapters/akonit/catalog.py:115-125 | Without a flag the country is that of the name after the last dash, in any case of letters. |
| `CatalogTexts.CountryNamedIff` | src/vpn/adapters/akonit/catalog.py:44-85 | A name is read as a country exactly if it is among that country's names. |
| `CatalogTexts.CountryIsTwoLetters` | src/vpn/adapters/akonit/catalog.py:103-125 | A country is unknown or two lower-case Latin letters. |
| `Catalog.LookupUnderDistinctPairs` | src/vpn/adapters/akonit/provider.py:87-90 | When no two servers share base name and country, `get_server(s.name)` is `s`. |
| `Provider.SanitizeConfig` | src/vpn/adapters/akonit/provider.py:124-218 | The in-place rewriting of a document's dictionaries equals the specification on values, section by section. |
| `Supported.SanitizeSupports` | src/vpn/adapters/akonit/provider.py:124-218 | A sanitised configuration has no statistics section, no rule names, no sniff fields, no batch or predefined DNS server, no default in a group, and no remote rule set whose file is cached. |
| `Supported.SanitizeUnchangedIff` | src/vpn/adapters/akonit/provider.py:124-218 | Sanitising leaves a configuration as it is if and only if it is free of these already and its tags and references are in normal form. |
| `Supported.RestKept` | src/vpn/adapters/akonit/provider.py:124-218 | Everything else is kept: every field of outbounds, rules, rule sets and heads besides names, what is removed, and cached rule sets, which become local ones of the same tag. |
| `DnsServers.ServersReplaced` | src/vpn/adapters/akonit/provider.py:132-155 | Predefined DNS servers go; of the others, in order, a batch server called "dns_proxy_out" becomes udp 8.8.8.8 port 53, any other batch server the host's resolver, called "unknown" if it has no tag, and the rest are the same. |
| `DnsServers.AnswererAfter` | src/vpn/adapters/akonit/provider.py:132-155 | After sanitising a DNS query matches the same rule, and is answered by the first server of the rule's name that was not predefined, or by what replaces it, or by nobody. |
| `DnsServers.AnswererKeptIff` | src/vpn/adapters/akonit/provider.py:132-155 | Unless a nameless batch server stands before one called "unknown", a query keeps its answerer if and only if that one is neither batch nor predefined. |
| `Provider.SanitizeServers` | src/vpn/adapters/akonit/provider.py:133-155 | Predefined DNS servers go, batch ones are converted into new dictionaries, the others keep theirs, in order. |
| `Provider.NormalizeTags` | src/vpn/adapters/akonit/provider.py:171-176 | Every outbound's tag is normalised in place. |
| `Provider.NormalizeRuleReferences` | src/vpn/adapters/akonit/provider.py:183-186 | Every non-empty rule outbound but the switch tag is normalised in place. |
| `Provider.NormalizeMembers` | src/vpn/adapters/akonit/provider.py:189-193 | The members of urltest and selector groups are normalised. |
| `Provider.RemoveDefaults` | src/vpn/adapters/akonit/provider.py:196-199 | Groups, `url-test` ones included, lose their default. |
| `Provider.LocalizeRuleSets` | src/vpn/adapters/akonit/provider.py:205-215 | A remote rule set becomes local if and only if its cached file exists. |
| `Provider.PinConfig` | src/vpn/adapters/akonit/provider.py:115-119 | Rules and final that named the switch group name the target; nothing else changes. |
| `Provider.Tree.DeepCopy` | src/vpn/adapters/akonit/provider.py:107-108 | A copy of the document in dictionaries of its own. |
| `Provider.AkonitProvider.LoadProfile` | src/vpn/adapters/akonit/provider.py:52-57 | Reads the file at most once. |
| `Provider.AkonitProvider.ListServers` | src/vpn/adapters/akonit/provider.py:65-72 | The catalogue of the current profile. |
| `Provider.AkonitProvider.GetServer` | src/vpn/adapters/akonit/provider.py:74-90 | The first server of that name, or an error. |
| `Provider.AkonitProvider.BuildSingboxConfig` | src/vpn/adapters/akonit/provider.py:92-122 | The result is a function of the profile, the name and the rule-set cache, and no dictionary of the cached profile is assigned. |
| `Provider.Configure` | src/vpn/adapters/akonit/provider.py:110-122 | On the copy: pins, sanitises and returns; the guard for a missing outbound never fires for a catalogued server. |
| `Provider.AnswersIgnoreHistory` | src/vpn/adapters/akonit/provider.py:52-61 | Over any session of calls and file rewrites, once a profile is cached and until a reload, each answer is the one a fresh provider gives on that profile. |
| `Provider.ReloadSeesPublished` | src/vpn/adapters/akonit/provider.py:59-61 | After any session, a published file and a reload, the next call answers from the published file. |
| `Pinning.BuiltConfigurationMeans` | src/vpn/adapters/akonit/provider.py:107-122 | For every packet the configuration built for a server matches the same rule as the profile; packets of the switch group go to that server's outbound and every other packet to the outbound it went to, when normalisation tells the tags apart; and outbounds, rules and route section are otherwise the same. |
| `Pinning.PinningPreservesMeaning` | src/vpn/adapters/akonit/provider.py:114-119 | The same for pinning to any existing tag. |
| `Pinning.NamesResolveIff` | src/vpn/adapters/akonit/provider.py:170-176 | Every name stands for the outbound it stood for if and only if no two different tags have one normal form. |
| `Pinning.ReferencesStayClosed` | src/vpn/adapters/akonit/provider.py:178-193 | final, rule outbounds and group members that named an outbound before name one after, with no condition. |
| `Pinning.MembersResolve` | src/vpn/adapters/akonit/provider.py:189-193 | Group members stand for the same outbounds, when normalisation tells the tags apart. |
| `Pinning.RuleReference` | src/vpn/adapters/akonit/provider.py:183-186 | The exception for the switch tag is sound: its normal form is itself. |
| `Pinning.DetourSurvivesIff` | src/vpn/adapters/akonit/provider.py:170-176 | An outbound's detour, which is not normalised, still names its outbound if and only if it was in normal form. |
| `Pinning.SelectorKeepsMemberIff` | src/vpn/adapters/akonit/provider.py:195-199 | Removing its default keeps a selector on the member it used if and only if it had none, the default is the first member, or there is no member. |
| `Pinning.DnsReferenceSurvivesIff` | src/vpn/adapters/akonit/provider.py:136-160 | A DNS rule still finds its server if and only if a server that is not predefined provides the name. |
| `Pinning.SanitizeIdempotentIff` | src/vpn/core/server_manager/deployer.py:50-55 | Sanitising a sanitised configuration changes nothing if and only if no normalised text leaves boilerplate behind. |
| `Deployer.ConfigFiles.Deploy` | src/vpn/core/server_manager/deployer.py:28-60 | Copies the profile if there is one, sanitises what is there, and fails when there is neither or the text cannot be read, which then stays as copied. |
| `Deployer.ConfigFiles.Switch` | src/vpn/core/server_manager/switcher.py:30-61 | Writes the pinned configuration, kills sing-box if a restart is asked for and returns the server's tag; or fails, writes nothing and kills nothing. |
| `Deployer.DeployUnpins` | src/vpn/core/server_manager/deployer.py:43-55 | A deployment from a profile forgets a switch: packets of the switch group go to the group again. |
| `Deployer.SwitchSurvivesDeployIff` | src/vpn/core/server_manager/deployer.py:37-55 | Without a profile a deployment keeps the pinned configuration if and only if its texts are stable. |
| `Deployer.ReloadTargetExists` | src/vpn/core/state_machine/machine.py:150-158 | A reload finds no target only in a profile without servers; else its target is a server of the new profile: the active one if it still exists, and the first by name if not. |
| `SpeedtestLock.SparingRunsExclude` | src/vpn/core/speedtest/store.py:117-152 | For any number of processes, crashes and interleavings: as long as no reclaim removes a live holder's lock, at most one process holds it. |
| `SpeedtestLock.ReclaimSafeIff` | src/vpn/core/speedtest/store.py:139-146 | A reclaim ends with one holder if and only if no live process held the lock it removed. |
| `SpeedtestLock.MutualExclusion` | src/vpn/core/speedtest/store.py:117-152 | If live holders refresh before the lock is 900 s old and reclaims do not interleave, at most one process holds it in every run. |
| `SpeedtestLock.InterleavedReclaimsCollide` | src/vpn/core/speedtest/store.py:133-146 | Two reclaims of one stale lock that interleave both win, without any time passing. |
| `SpeedtestLock.ReleasedLockWins` | src/vpn/core/speedtest/store.py:150-152 | A lock its holder has released is won by whoever asks next. |
| `SpeedtestLock.SpeedtestStore.Acquire` | src/vpn/core/speedtest/store.py:117-148 | The sequential form of the same condition, with the new lock's time. |
| `SpeedtestLock.SpeedtestStore.WriteStatus` | src/vpn/core/speedtest/store.py:75-86 | Refreshes a lock that exists and creates none. |
| `SpeedtestLock.SpeedtestStore.IsRunning` | src/vpn/core/speedtest/store.py:99-114 | A lock of age up to and including 900 s with the running flag set, although at exactly 900 s it may already be reclaimed. |
| `RouteCommands.AddThenRemoveRestoresIff` | src/vpn/core/state_machine/machine.py:223-247 | Adding a domain and removing it puts the VPN table back if and only if none of its addresses was routed there; the domains are always put back. |
| `RouteCommands.CallOnLists` | src/vpn/core/state_machine/machine.py:223-254 | An addition lists one entry more in the list of its kind, a removal takes one, and a removal answers exactly if there was one to take. |
| `RouteCommands.CallKeepsRecordIff` | src/vpn/core/state_machine/machine.py:223-254 | When the table holds exactly what is due (from before the calls, for a recorded address, for a listed subnet), a call keeps it so if and only if: an addition has the tunnel up or the route already, a domain added again strands no former address, and a removal takes no route that is due for another reason. |
| `RouteCommands.DynamicRoutesAreOnRecord` | src/vpn/core/state_machine/machine.py:223-254 | Over any sequence of route calls, subnets and shared or repeated addresses included, the table is on record after each call if and only if each call meets that condition. |
| `RouteCommands.SharedAddressLost` | src/vpn/core/state_machine/machine.py:240-247 | Removing one of two domains that share an address takes the route the other one is recorded for. |
| `RouteCommands.RepeatedAddStrands` | src/vpn/core/state_machine/machine.py:226-232 | A domain added twice with different addresses strands the first ones after its removal. |
| `RouteCommands.AddedDomainLookup` | src/vpn/core/state_machine/machine.py:226-230 | After adding a domain its addresses go through the tunnel unless they had a host route; every other address is routed as before. |
| `RouteCommands.RouteControl.RouteAddDomain` | src/vpn/core/state_machine/machine.py:226-232 | Routes each address, lists the domain and records the addresses. |
| `RouteCommands.RouteControl.RouteRemoveDomain` | src/vpn/core/state_machine/machine.py:243-247 | Deletes the recorded addresses first and fails afterwards if the domain is not listed. |
| `RouteCommands.RouteControl.RouteAddSubnet` | src/vpn/core/state_machine/machine.py:236-239 | Routes the subnet if the kernel accepts its text, however it reads it, and lists it. |
| `RouteCommands.RouteControl.RouteRemoveSubnet` | src/vpn/core/state_machine/machine.py:251-254 | Deletes the route first and fails afterwards if the subnet is not listed. |

## Left out

- Lifecycle.EgressAfterBootstrap: assumes what the source assumes of the network configuration, that DNS priorities 3.. and LAN priorities 10.. stay below the catch-all's 30 (at most 28 and 21 entries), and that table main has a route for what it is asked.
- EgressRuns.EgressInEveryRun: assumes the same of the network configuration, and that addresses come from the resolver as a set; a route call that deletes the default leaves packets without an answer in the VPN table.
- Cleanup.HostRulesKept: assumes that no server or DNS address is the destination of a rule of the host's own; without that, deleting `to` the address takes such a rule, as Sparing.BootstrapSparesIff says of one bootstrap and Switching.SwitchesSpareOthersIff of switches.
- Safety.TimeoutLeaves: timers fire at an arbitrary moment; the 60 s and 10 s are not modelled.
- Substitution.NormalizeIsSubstitution: group tags that are neither strings nor empty values keep their one-by-one meaning in Subscription.Pass; Substitution.FieldReferencesFollow covers them.
- Pinning.BuiltConfigurationMeans: which packets a rule matches is abstract (a packet is the set of criteria it meets); sing-box itself is not part of this model.
- Shell commands that fail for other reasons than the modelled ones, time out or return no output.
- Crash points inside a segment for the class methods: `Daemon.Crash` covers every command of a segment, the methods of `Machine` the points at which the source can raise (starting sing-box, discovery, loading the routes, starting tun2socks, reading the catalogue).
- `ip_forward` and IPv6 as they were before: the code does not restore them.
- `startup_time`, the background task that refreshes the RU list, the watcher tasks (their events are posted by the environment), the notifier's message.
- The IPC socket, its framing and the calls that only report; the health checker, which is built but never started.
- `context.route_ips` is a field of `RouteCommands.RouteControl`, not of the daemon value; in whole runs route calls are arbitrary additions and deletions of routes.
- Subnets with host bits set in the LAN list and octets with leading zeros, which the kernel may read differently from `Subnets.Parse`.
- JSON text: parsing, printing and the order of keys. A provider profile has the types sing-box documents for it; a section of another type raises in the source.
- Missing lists of a provider profile read as empty ones, so writing an empty list back is not told apart from leaving it out.
- Lower case of letters that lower to neither a Latin nor a Russian letter: it reaches no slug and no country.
- The writing of a configuration file that fails; `time.sleep` in a switch that restarts.
- `validate_profile` and the removal of old profile files: one test of two fields, and file deletion.
- Writing speed-test results and wiping their directory at daemon start, which also removes a lock.
- The command line, topology discovery, DNS resolution and its cache, the SSH proxy, the container and deployment scripts: easy members or input and output.
