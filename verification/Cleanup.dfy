/** What the daemon leaves behind on the host, over whole runs. */
module Cleanup {
  import opened Wrappers
  import opened Network
  import opened Rules
  import opened Egress
  import opened Routes
  import opened Managers
  import opened Lifecycle
  import opened Daemon
  import opened Safety

  // ---------------------------------------------------- one command at a time

  /** The command cannot touch `rules`, the host's own rules outside the band. */
  predicate Safe(c: Command, rules: seq<Rule>) {
    match c
    case RuleAdd(r) => InBand(r)
    case RuleDelete(sel) => forall r :: r in rules ==> !Selects(sel, r)
    case RuleDrain(p) => 1 <= p <= 30
    case _ => true
  }

  predicate AllSafe(cmds: seq<Command>, rules: seq<Rule>) {
    forall c :: c in cmds ==> Safe(c, rules)
  }

  /** The POSTROUTING jumps are as they were, up to one hook of the daemon's. */
  predicate JumpsKept(h: Host, postrouting: seq<string>) {
    RemoveFirstOf(h.postrouting, CHAIN) == postrouting && CHAIN !in postrouting
  }

  lemma ChainMentioned(postrouting: seq<string>)
    ensures CHAIN in postrouting ==> Mentions(postrouting, CHAIN)
  {
    if CHAIN in postrouting {
      var i :| 0 <= i < |postrouting| && postrouting[i] == CHAIN;
      assert Text.Contains(postrouting[i], CHAIN);
    }
  }

  lemma ExecKeepsJumps(h: Host, c: Command, postrouting: seq<string>)
    requires JumpsKept(h, postrouting)
    ensures JumpsKept(Exec(h, c), postrouting)
  {
    match c
    case NatHook =>
      ChainMentioned(h.postrouting);
      UnhookOne(h.postrouting);
    case NatUnhook =>
      UnhookOne(postrouting);
    case _ =>
  }

  /** No command, of the daemon's or not, changes another jump of a host with at most one hook. */
  lemma {:induction false} RunKeepsJumps(h: Host, cmds: seq<Command>, postrouting: seq<string>)
    requires JumpsKept(h, postrouting)
    ensures JumpsKept(Run(h, cmds), postrouting)
    decreases |cmds|
  {
    if cmds != [] {
      ExecKeepsJumps(h, cmds[0], postrouting);
      RunKeepsJumps(Exec(h, cmds[0]), cmds[1..], postrouting);
    }
  }

  lemma ExecKeepsRules(h: Host, c: Command)
    requires Safe(c, Outside(h.rules))
    ensures Outside(Exec(h, c).rules) == Outside(h.rules)
  {
    match c
    case RuleAdd(r) =>
      DropInsert(h.rules, r, Band(1, 30));
    case RuleDelete(sel) =>
      DropMembers(h.rules, Band(1, 30));
      DropRemove(h.rules, sel, Band(1, 30));
    case RuleDrain(p) =>
      DropDrop(h.rules, At(p), Band(1, 30));
    case RulesClear =>
      DropDrop(h.rules, Band(1, 30), Band(1, 30));
    case _ =>
  }

  /** Commands that add inside the band and delete no rule outside it leave the rules outside alone. */
  lemma {:induction false} RunKeepsRules(h: Host, cmds: seq<Command>, rules: seq<Rule>)
    requires Outside(h.rules) == rules && AllSafe(cmds, rules)
    ensures Outside(Run(h, cmds).rules) == rules
    decreases |cmds|
  {
    if cmds != [] {
      assert Safe(cmds[0], rules);
      ExecKeepsRules(h, cmds[0]);
      RunKeepsRules(Exec(h, cmds[0]), cmds[1..], rules);
    }
  }

  /** Clamp rules come from MssAppend only. */
  lemma {:induction false} MssGrowth(h: Host, cmds: seq<Command>)
    ensures Run(h, cmds).mss <= h.mss + Appends(cmds)
    ensures MssDelete !in cmds ==> Run(h, cmds).mss == h.mss + Appends(cmds)
    decreases |cmds|
  {
    if cmds != [] {
      MssGrowth(Exec(h, cmds[0]), cmds[1..]);
      MssOne(h, cmds[0]);
      assert cmds == [cmds[0]] + cmds[1..];
      assert multiset(cmds) == multiset{cmds[0]} + multiset(cmds[1..]);
    }
  }

  lemma MssOne(h: Host, c: Command)
    ensures Exec(h, c).mss <= h.mss + (if c == MssAppend then 1 else 0)
    ensures c != MssDelete ==> Exec(h, c).mss == h.mss + (if c == MssAppend then 1 else 0)
  {
  }

  lemma MssPrefix(h: Host, cmds: seq<Command>, k: nat)
    requires k <= |cmds|
    ensures Run(h, cmds[..k]).mss <= h.mss + Appends(cmds)
  {
    assert cmds == cmds[..k] + cmds[k..];
    assert multiset(cmds) == multiset(cmds[..k]) + multiset(cmds[k..]);
    MssGrowth(h, cmds[..k]);
  }

  // ------------------------------------------------------- the daemon's lists

  /** Clamp rules the commands append. */
  function Appends(cmds: seq<Command>): nat {
    multiset(cmds)[MssAppend]
  }

  lemma AppendsJoined(a: seq<Command>, b: seq<Command>)
    ensures Appends(a + b) == Appends(a) + Appends(b)
  {
    assert multiset(a + b) == multiset(a) + multiset(b);
  }

  lemma Joined(a: seq<Command>, b: seq<Command>, rules: seq<Rule>)
    requires AllSafe(a, rules) && AllSafe(b, rules)
    ensures AllSafe(a + b, rules)
  {
  }

  lemma Plain(cmds: seq<Command>, rules: seq<Rule>)
    requires forall c :: c in cmds ==> !c.RuleAdd? && !c.RuleDelete? && !c.RuleDrain?
    ensures AllSafe(cmds, rules)
  {
  }

  lemma NoAppends(cmds: seq<Command>)
    requires MssAppend !in cmds
    ensures Appends(cmds) == 0
  {
    assert MssAppend !in multiset(cmds);
  }

  /** No rule of the host's own is for one of the addresses. */
  predicate Avoids(ips: seq<Addr>, rules: seq<Rule>) {
    forall r :: r in rules ==> r.to.None? || r.to.value !in ips
  }

  predicate IsRuleCommand(c: Command) {
    c.RuleAdd? || c.RuleDelete? || c.RuleDrain?
  }

  lemma {:induction false} ServersAreRules(ips: seq<Addr>)
    ensures forall c :: c in ServerCommands(ips) ==> IsRuleCommand(c)
  {
    if ips != [] {
      ServersAreRules(ips[..|ips| - 1]);
    }
  }

  lemma {:induction false} DnsAreRules(ips: seq<Addr>)
    ensures forall c :: c in DnsCommands(ips) ==> IsRuleCommand(c)
  {
    if ips != [] {
      DnsAreRules(ips[..|ips| - 1]);
    }
  }

  lemma {:induction false} LanAreRules(subnets: seq<Prefix>)
    ensures forall c :: c in LanCommands(subnets) ==> IsRuleCommand(c)
  {
    if subnets != [] {
      LanAreRules(subnets[..|subnets| - 1]);
    }
  }

  lemma {:induction false} BatchIsRoutes(routes: seq<Route>)
    ensures forall c :: c in Batch(routes) ==> c.RouteAdd?
  {
    if routes != [] {
      BatchIsRoutes(routes[..|routes| - 1]);
    }
  }

  lemma {:induction false} ServersSafe(ips: seq<Addr>, rules: seq<Rule>)
    requires Avoids(ips, rules)
    ensures AllSafe(ServerCommands(ips), rules)
  {
    if ips != [] {
      ServersSafe(ips[..|ips| - 1], rules);
    }
  }

  lemma {:induction false} DnsSafe(ips: seq<Addr>, rules: seq<Rule>)
    requires Avoids(ips, rules) && |ips| <= 28
    ensures AllSafe(DnsCommands(ips), rules)
  {
    if ips != [] {
      DnsSafe(ips[..|ips| - 1], rules);
    }
  }

  lemma {:induction false} LanSafe(subnets: seq<Prefix>, rules: seq<Rule>)
    requires |subnets| <= 21
    ensures AllSafe(LanCommands(subnets), rules)
  {
    if subnets != [] {
      LanSafe(subnets[..|subnets| - 1], rules);
    }
  }

  /** The configuration fits the band and the profile stays off the host's own rules. */
  predicate PlanFits(p: Plan, rules: seq<Rule>) {
    |p.dns| <= 28 && |p.lan| <= 21 && Avoids(p.servers, rules) && Avoids(p.dns, rules)
  }

  lemma CatchSafe(rules: seq<Rule>)
    requires forall r :: r in rules ==> !InBand(r)
    ensures AllSafe(CATCH_AND_DEFAULT, rules)
  {
  }

  lemma RoutingSafe(p: Plan, rules: seq<Rule>)
    requires PlanFits(p, rules) && forall r :: r in rules ==> !InBand(r)
    ensures AllSafe(RoutingCommands(p), rules)
  {
    ServersSafe(p.servers, rules);
    DnsSafe(p.dns, rules);
    LanSafe(p.lan, rules);
    BatchIsRoutes(Meanings(p.kept));
    CatchSafe(rules);
  }

  lemma RoutingAppends(p: Plan)
    ensures Appends(RoutingCommands(p)) == 0
  {
    ServersAreRules(p.servers);
    DnsAreRules(p.dns);
    LanAreRules(p.lan);
    BatchIsRoutes(Meanings(p.kept));
    NoAppends(RoutingCommands(p));
  }

  lemma FirewallAppends(wan: string)
    ensures Appends(FirewallCommands(wan)) == 1
  {
    var natOn, forward := NatOn(wan), [IpForward, Ipv6(false)];
    NoAppends(natOn);
    NoAppends(forward);
    AppendsJoined(natOn, [MssAppend]);
    AppendsJoined(natOn + [MssAppend], forward);
  }

  lemma TunnelAppends(wan: string, handle: Option<nat>)
    ensures Appends(FirewallCommands(wan) + StartCommands(handle)) == 1
  {
    FirewallAppends(wan);
    NoAppends(StartCommands(handle));
    AppendsJoined(FirewallCommands(wan), StartCommands(handle));
  }

  lemma StartingAppends()
    ensures Appends(StartingCommands()) == 0
  {
    NoAppends(STOPPING + [RulesClear]);
    NoAppends(FIREWALL_OFF);
    NoAppends([SpawnSingbox]);
    AppendsJoined(STOPPING + [RulesClear], FIREWALL_OFF);
    AppendsJoined(TeardownCommands(), [SpawnSingbox]);
  }

  lemma SegmentAppends(b: Boot, handle: Option<nat>, f: Findings)
    ensures Appends(Segment(b, handle, f)) == if b.stage <= 1 then 0 else 1
  {
    if b.stage == 0 {
      StartingAppends();
    } else if b.stage == 1 {
      RoutingAppends(f.plan);
    } else {
      TunnelAppends(b.wan, handle);
    }
  }

  lemma SegmentSafe(b: Boot, handle: Option<nat>, f: Findings, rules: seq<Rule>)
    requires PlanFits(f.plan, rules) && forall r :: r in rules ==> !InBand(r)
    ensures AllSafe(Segment(b, handle, f), rules)
  {
    if b.stage == 0 {
      Plain(StartingCommands(), rules);
    } else if b.stage == 1 {
      RoutingSafe(f.plan, rules);
    } else {
      Plain(FirewallCommands(b.wan) + StartCommands(handle), rules);
    }
  }

  lemma ApplySafe(d: Daemon, how: Applying, rules: seq<Rule>)
    requires how.Applied? ==> Avoids(how.ips, rules)
    ensures AllSafe(ApplyCommands(d, how), rules)
  {
    if how.Applied? {
      var prelude := KillOld(d.ctx.singbox) + [SpawnSingbox] + StartCommands(d.handle);
      Plain(prelude, rules);
      Joined(prelude, [RuleDrain(1)], rules);
      ServersSafe(how.ips, rules);
      Joined(prelude + [RuleDrain(1)], ServerCommands(how.ips), rules);
    } else {
      Plain(ApplyCommands(d, how), rules);
    }
  }

  lemma ApplyAppends(d: Daemon, how: Applying)
    ensures Appends(ApplyCommands(d, how)) == 0
  {
    if how.Applied? {
      ServersAreRules(how.ips);
    }
    NoAppends(ApplyCommands(d, how));
  }

  // ----------------------------------------------------- one step of the daemon

  /** The commands a step sends to the host. */
  function Sent(d: Daemon, a: Action): seq<Command>
    requires Enabled(d, a)
  {
    match a
    case AdvanceBoot(i, f) => Segment(d.boots[i], d.handle, f)
    case CrashBoot(i, f, k) => Segment(d.boots[i], d.handle, f)[..k]
    case IpcStop => StopCommands(d.ctx)
    case IpcStart => StartOverCommands()
    case IpcApply(_, how) => ApplyCommands(d, how)
    case IpcRoute(cmds) => cmds
    case _ => []
  }

  predicate SameHost(p: Daemon, q: Daemon) {
    && q.host == p.host && q.boots == p.boots && q.exited == p.exited
    && q.ctx.singbox == p.ctx.singbox && q.ctx.tun2socks == p.ctx.tun2socks && q.handle == p.handle
    && q.ctx.interface == p.ctx.interface
  }

  /** `after` is `d` with its context edited, and at most then in another state. */
  predicate ByTransition(d: Daemon, after: Daemon, q: Daemon) {
    SameHost(d, q) && (after == q || after == Transition(q, after.state))
  }

  lemma BootstrappingByTransition(d: Daemon, e: Event) returns (q: Daemon)
    ensures ByTransition(d, InBootstrapping(d, e), q)
  {
    q := if e == Timeout then Error(d, BOOTSTRAP_ERROR) else d;
  }

  lemma HealthyByTransition(d: Daemon, e: Event) returns (q: Daemon)
    ensures ByTransition(d, InHealthy(d, e), q)
  {
    q := if e == HealthFail then Fail(d)
      else if e.ServerChangeRequested? then d.(ctx := d.ctx.(targetServer := Some(e.server)))
      else d;
  }

  lemma DegradedByTransition(d: Daemon, e: Event) returns (q: Daemon)
    ensures ByTransition(d, InDegraded(d, e), q)
  {
    q := if e == HealthFail then Fail(d) else d;
  }

  lemma RestartingByTransition(d: Daemon, e: Event) returns (q: Daemon)
    ensures ByTransition(d, InRestarting(d, e), q)
  {
    q := if e == Timeout then Error(d, RESTART_ERROR) else if e == TunnelDied then Error(d, TUNNEL_ERROR) else d;
  }

  /** A handler edits the context, and at most then changes the state. */
  lemma HandleByTransition(d: Daemon, e: Event) returns (q: Daemon, s: State)
    ensures SameHost(d, q) && (Handle(d, e) == q || Handle(d, e) == Transition(q, s))
  {
    s := Handle(d, e).state;
    q := d;
    match d.state
    case Bootstrapping => q := BootstrappingByTransition(d, e);
    case Healthy => q := HealthyByTransition(d, e);
    case Degraded => q := DegradedByTransition(d, e);
    case Restarting => q := RestartingByTransition(d, e);
    case _ =>
  }

  /** A handled event leaves the host alone, or tears it down on the way out. */
  lemma TurnHost(d: Daemon)
    requires !d.exited && d.queue != []
    ensures if Turn(d).exited then Turn(d).host == TornDown(d.host) else Turn(d).host == d.host
  {
    var e := d.queue[0];
    var q, s := HandleByTransition(d.(queue := d.queue[1..], log := d.log + [Handled(e)]), e);
  }

  lemma AdvanceKeeps(d: Daemon, i: nat, f: Findings)
    requires i < |d.boots|
    ensures var after := Advance(d, i, f);
      && after.host == Run(d.host, Segment(d.boots[i], d.handle, f))
      && after.exited == d.exited
      && (d.boots[i].stage <= 1 ==> |after.boots| == |d.boots| && after.boots[i].stage == d.boots[i].stage + 1)
      && (d.boots[i].stage > 1 ==> |after.boots| == |d.boots| - 1)
  {
  }

  lemma CrashKeeps(d: Daemon, i: nat, f: Findings, k: nat)
    requires i < |d.boots| && k <= |Segment(d.boots[i], d.handle, f)|
    ensures var after := Crash(d, i, f, k);
      && after.host == Run(d.host, Segment(d.boots[i], d.handle, f)[..k])
      && after.exited == d.exited
      && |after.boots| == |d.boots| - 1
  {
  }

  /** What a step other than handling an event does to the host, processes that die aside. */
  lemma SentHost(d: Daemon, a: Action)
    requires Enabled(d, a) && !a.Dequeue? && !a.ProcessDies?
    ensures Step(d, a).host == Run(d.host, Sent(d, a)) && !Step(d, a).exited
  {
    match a
    case AdvanceBoot(i, f) => AdvanceKeeps(d, i, f);
    case CrashBoot(i, f, k) => CrashKeeps(d, i, f, k);
    case _ =>
  }

  // -------------------------------------------------- jumps, over all runs

  ghost predicate JumpInv(d: Daemon, postrouting: seq<string>) {
    && JumpsKept(d.host, postrouting)
    && (d.exited ==> Clean(d.host.(mss := 0)))
  }

  /** Teardown under a single hook removes everything, surplus clamps aside. */
  lemma TornDownUnderOneHook(h: Host, postrouting: seq<string>)
    requires JumpsKept(h, postrouting)
    ensures Clean(TornDown(h).(mss := 0)) && TornDown(h).postrouting == postrouting
    ensures JumpsKept(TornDown(h), postrouting)
  {
    UnhookOne(h.postrouting);
    UnhookOne(postrouting);
    assert CHAIN !in multiset(postrouting);
    assert Hooks(h.postrouting) <= 1;
    TeardownCleansIff(h.(mss := 0));
    assert TornDown(h.(mss := 0)) == TornDown(h).(mss := 0);
  }

  lemma JumpStep(d: Daemon, a: Action, postrouting: seq<string>)
    requires JumpInv(d, postrouting) && Enabled(d, a)
    ensures JumpInv(Step(d, a), postrouting)
  {
    match a
    case Dequeue =>
      TurnHost(d);
      TornDownUnderOneHook(d.host, postrouting);
    case ProcessDies(_) =>
    case _ =>
      SentHost(d, a);
      RunKeepsJumps(d.host, Sent(d, a), postrouting);
  }

  lemma {:induction false} JumpRun(d: Daemon, acts: seq<Action>, postrouting: seq<string>)
    requires JumpInv(d, postrouting) && Runs(d, acts)
    ensures JumpInv(After(d, acts), postrouting)
    decreases |acts|
  {
    if acts != [] {
      JumpStep(d, acts[0], postrouting);
      JumpRun(Step(d, acts[0]), acts[1..], postrouting);
    }
  }

  lemma FreshJumps(h: Host)
    requires Hooks(h.postrouting) <= 1
    ensures JumpInv(Boots(h), RemoveFirstOf(h.postrouting, CHAIN))
  {
    OneHookKept(h);
  }

  lemma OneHookKept(h: Host)
    requires Hooks(h.postrouting) <= 1
    ensures JumpsKept(h, RemoveFirstOf(h.postrouting, CHAIN))
  {
    UnhookOne(h.postrouting);
    var left := RemoveFirstOf(h.postrouting, CHAIN);
    assert multiset(left)[CHAIN] == 0;
    assert CHAIN !in multiset(left);
  }

  /**
   In every run, IPC stop and start included and whatever the plans are, the process
   leaves nothing of its own on the host it exits from except possibly clamp rules, and
   the other POSTROUTING jumps are those it found.
   */
  lemma ExitLeavesClampsAtMost(h: Host, acts: seq<Action>)
    requires Runs(Boots(h), acts) && Hooks(h.postrouting) <= 1
    ensures var d := After(Boots(h), acts);
      && RemoveFirstOf(d.host.postrouting, CHAIN) == RemoveFirstOf(h.postrouting, CHAIN)
      && (d.exited ==> Clean(d.host.(mss := 0)))
  {
    FreshJumps(h);
    JumpRun(Boots(h), acts, RemoveFirstOf(h.postrouting, CHAIN));
  }

  // -------------------------------------- the host's own rules, over all runs

  predicate Fits(a: Action, rules: seq<Rule>) {
    match a
    case AdvanceBoot(_, f) => PlanFits(f.plan, rules)
    case CrashBoot(_, f, _) => PlanFits(f.plan, rules)
    case IpcApply(_, Applied(ips)) => Avoids(ips, rules)
    case _ => true
  }

  ghost predicate RuleInv(d: Daemon, rules: seq<Rule>) {
    && Outside(d.host.rules) == rules
    && (d.exited ==> d.host.rules == rules)
  }

  lemma SentSafe(d: Daemon, a: Action, rules: seq<Rule>)
    requires Enabled(d, a) && Fits(a, rules) && forall r :: r in rules ==> !InBand(r)
    ensures AllSafe(Sent(d, a), rules)
  {
    match a
    case AdvanceBoot(i, f) => SegmentSafe(d.boots[i], d.handle, f, rules);
    case CrashBoot(i, f, k) => SegmentSafe(d.boots[i], d.handle, f, rules);
    case IpcStop => Plain(StopCommands(d.ctx), rules);
    case IpcStart => Plain(StartOverCommands(), rules);
    case IpcApply(_, how) => ApplySafe(d, how, rules);
    case IpcRoute(cmds) => RoutesArePlain(cmds, rules);
    case _ =>
  }

  lemma RoutesArePlain(cmds: seq<Command>, rules: seq<Rule>)
    requires forall i :: 0 <= i < |cmds| ==> IsRouteCommand(cmds[i])
    ensures AllSafe(cmds, rules) && MssAppend !in cmds
  {
    forall c | c in cmds ensures IsRouteCommand(c) {
      var i :| 0 <= i < |cmds| && cmds[i] == c;
    }
  }

  lemma RuleStep(d: Daemon, a: Action, rules: seq<Rule>)
    requires RuleInv(d, rules) && Enabled(d, a) && Fits(a, rules)
    ensures RuleInv(Step(d, a), rules)
  {
    DropMembers(d.host.rules, Band(1, 30));
    match a
    case Dequeue =>
      TurnHost(d);
      DropDrop(d.host.rules, Band(1, 30), Band(1, 30));
    case ProcessDies(_) =>
    case _ =>
      SentHost(d, a);
      SentSafe(d, a, rules);
      RunKeepsRules(d.host, Sent(d, a), rules);
  }

  lemma {:induction false} RuleRun(d: Daemon, acts: seq<Action>, rules: seq<Rule>)
    requires RuleInv(d, rules) && Runs(d, acts) && forall i :: 0 <= i < |acts| ==> Fits(acts[i], rules)
    ensures RuleInv(After(d, acts), rules)
    decreases |acts|
  {
    if acts != [] {
      assert Fits(acts[0], rules);
      RuleStep(d, acts[0], rules);
      RuleRun(Step(d, acts[0]), acts[1..], rules);
    }
  }

  /**
   In every run, IPC stop and start included, the host's rules outside the band are at all
   times those the daemon found, and on exit no other rule is there, as long as no server
   or DNS address is the destination of one of them and the plans fit the band.
   */
  lemma HostRulesKept(h: Host, acts: seq<Action>)
    requires Runs(Boots(h), acts) && forall i :: 0 <= i < |acts| ==> Fits(acts[i], Outside(h.rules))
    ensures var d := After(Boots(h), acts);
      Outside(d.host.rules) == Outside(h.rules) && (d.exited ==> d.host.rules == Outside(h.rules))
  {
    RuleRun(Boots(h), acts, Outside(h.rules));
  }

  // --------------------- clamps, with at most one bootstrap in flight at a time

  ghost predicate ClampInv(d: Daemon) {
    if d.exited then d.host.mss == 0
    else d.host.mss <= 1 && forall b :: b in d.boots && b.stage >= 1 ==> d.host.mss == 0
  }

  /** The clamps the next segment of the only bootstrap leaves. */
  lemma SegmentMss(h: Host, b: Boot, handle: Option<nat>, f: Findings)
    requires h.mss <= 1 && (b.stage >= 1 ==> h.mss == 0)
    ensures Run(h, Segment(b, handle, f)).mss <= if b.stage <= 1 then 0 else 1
  {
    SegmentAppends(b, handle, f);
    MssGrowth(h, Segment(b, handle, f));
    if b.stage == 0 {
      var started := StartingEffect(h);
    }
  }

  lemma ClampAdvance(d: Daemon, i: nat, f: Findings)
    requires ClampInv(d) && !d.exited && i < |d.boots| == 1
    ensures ClampInv(Advance(d, i, f))
  {
    assert d.boots[i] in d.boots;
    SegmentMss(d.host, d.boots[i], d.handle, f);
    AdvanceKeeps(d, i, f);
  }

  lemma ClampCrash(d: Daemon, i: nat, f: Findings, k: nat)
    requires ClampInv(d) && !d.exited && i < |d.boots| == 1
    requires k <= |Segment(d.boots[i], d.handle, f)|
    ensures ClampInv(Crash(d, i, f, k))
  {
    assert d.boots[i] in d.boots;
    SegmentAppends(d.boots[i], d.handle, f);
    MssPrefix(d.host, Segment(d.boots[i], d.handle, f), k);
    CrashKeeps(d, i, f, k);
  }

  lemma ClampTurn(d: Daemon)
    requires ClampInv(d) && !d.exited && d.queue != []
    ensures ClampInv(Turn(d))
  {
    var e := d.queue[0];
    var q, s := HandleByTransition(d.(queue := d.queue[1..], log := d.log + [Handled(e)]), e);
    assert ClampInv(q);
    ClampTransition(q, s);
  }

  lemma ClampTransition(d: Daemon, s: State)
    requires ClampInv(d) && !d.exited
    ensures ClampInv(Transition(d, s))
  {
    if s == Failed {
      var torn := TornDownEffect(d.host);
    }
  }

  /** A stop or start with no bootstrap in flight: its commands append no clamp. */
  lemma ClampAtRest(d: Daemon, cmds: seq<Command>, s: State)
    requires ClampInv(d) && !d.exited && d.boots == [] && s != Failed && MssAppend !in cmds
    ensures ClampInv(Transition(d.(host := Run(d.host, cmds)), s))
  {
    NoAppends(cmds);
    MssGrowth(d.host, cmds);
    ClampTransition(d.(host := Run(d.host, cmds)), s);
  }

  lemma ClampStep(d: Daemon, a: Action)
    requires ClampInv(d) && |d.boots| <= 1 && Enabled(d, a) && (IsStopStart(a) ==> d.boots == [])
    ensures ClampInv(Step(d, a))
  {
    match a
    case IpcStop => ClampAtRest(d, StopCommands(d.ctx), Stopped);
    case IpcStart => ClampAtRest(d, StartOverCommands(), Bootstrapping);
    case Dequeue => ClampTurn(d);
    case AdvanceBoot(i, f) => ClampAdvance(d, i, f);
    case CrashBoot(i, f, k) => ClampCrash(d, i, f, k);
    case IpcApply(server, how) =>
      ApplyAppends(d, how);
      MssGrowth(d.host, ApplyCommands(d, how));
    case IpcRoute(cmds) =>
      RoutesArePlain(cmds, []);
      NoAppends(cmds);
      MssGrowth(d.host, cmds);
    case _ =>
  }
}
