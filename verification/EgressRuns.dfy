/** Where packets leave the host over whole runs, server switches between the segments of a bootstrap included. */
module EgressRuns {
  import opened Wrappers
  import opened Network
  import opened Rules
  import opened Egress
  import opened Routes
  import opened Managers
  import opened Loading
  import opened Lifecycle
  import opened Switching
  import opened Daemon
  import opened Safety
  import opened Cleanup
  import opened StopStart
  import opened Configured
  import opened Reporting

  // --------------------------------------------------------------------- history

  /**
   What a run has told the routing since the last teardown by a bootstrap: the host's rules
   then, the switches before the routing segment, its plan, the switches since, and whether
   a route call came in between.
   */
  datatype Trail = Trail(
    base: seq<Rule>,
    before: seq<seq<Addr>>,
    plan: Option<Plan>,
    since: seq<seq<Addr>>,
    called: bool)

  function Switched(t: Trail, ips: seq<Addr>): Trail {
    if t.plan.None? then t.(before := t.before + [ips]) else t.(since := t.since + [ips])
  }

  function Traced(t: Trail, d: Daemon, a: Action): Trail
    requires Enabled(d, a)
  {
    match a
    case AdvanceBoot(i, f) =>
      if d.boots[i].stage == 0 then Trail(Outside(d.host.rules), [], None, [], false)
      else if d.boots[i].stage == 1 then t.(plan := Some(f.plan))
      else t
    case IpcApply(_, Applied(ips)) => Switched(t, ips)
    case IpcRoute(_) => t.(called := true)
    case _ => t
  }

  function TraceRun(t: Trail, d: Daemon, acts: seq<Action>): Trail
    requires Runs(d, acts)
    decreases |acts|
  {
    if acts == [] then t else TraceRun(Traced(t, d, acts[0]), Step(d, acts[0]), acts[1..])
  }

  const NO_TRAIL := Trail([], [], None, [], false)

  function TrailOf(h: Host, acts: seq<Action>): Trail
    requires Runs(Boots(h), acts)
  {
    TraceRun(NO_TRAIL, Boots(h), acts)
  }

  function Booted(t: Trail, p: Plan): seq<Rule> {
    RoutingRules(Switches(t.base, t.before), p.servers, p.dns, p.lan)
  }

  /** The rules the trail leads to. */
  function RulesOf(t: Trail): seq<Rule> {
    if t.plan.None? then Switches(t.base, t.before) else Switches(Booted(t, t.plan.value), t.since)
  }

  /** The VPN table it leads to without route calls. */
  function TableOf(t: Trail): map<Prefix, Hop> {
    if t.plan.None? then map[] else FirstWins(map[], Up, Meanings(t.plan.value.kept) + [DEFAULT])
  }

  function LastOf(profiles: seq<seq<Addr>>): set<Prefix> {
    if profiles == [] then {} else Hosts(profiles[|profiles| - 1])
  }

  /** The destinations it exempts from the VPN. */
  function Exempt(t: Trail): set<Prefix>
    requires t.plan.Some?
  {
    var p := t.plan.value;
    if t.since == [] then LastOf(t.before) + Hosts(p.servers) + Hosts(p.dns) + Ranges(p.lan)
    else LastOf(t.since) + Outlasting(Booted(t, p), Hosts(p.dns) + Ranges(p.lan), t.since)
  }

  ghost predicate Sound(t: Trail) {
    && Sorted(t.base) && PlainFront(t.base) && (forall r :: r in t.base ==> !InBand(r))
    && (t.plan.Some? ==> |t.plan.value.dns| <= 28 && |t.plan.value.lan| <= 21)
    && (forall i :: 0 <= i < |t.since| ==> Distinct(t.since[i]))
    && (t.plan.None? ==> t.since == [])
  }

  // ----------------------------------------------------------- what a trail leads to

  /** Before the routing segment the band holds the last switch's bypasses and nothing else. */
  lemma {:induction false} BeforeRouting(base: seq<Rule>, before: seq<seq<Addr>>)
    requires Sorted(base) && PlainFront(base) && forall r :: r in base ==> !InBand(r)
    ensures var rules := Switches(base, before);
      && Staged(rules, LastOf(before)) && PlainFront(rules)
      && forall r :: r in rules && InBand(r) ==> r.priority == 1
    decreases |before|
  {
    if before != [] {
      var n := |before| - 1;
      BeforeRouting(base, before[..n]);
      OneMoreBefore(Switches(base, before[..n]), before[n]);
    }
  }

  lemma OneMoreBefore(rules: seq<Rule>, ips: seq<Addr>)
    requires Sorted(rules) && PlainFront(rules)
    requires forall r :: r in rules && InBand(r) ==> r.priority == 1
    ensures var after := Switch(rules, ips);
      && Staged(after, Hosts(ips)) && PlainFront(after)
      && forall r :: r in after && InBand(r) ==> r.priority == 1
  {
    var drained := Drop(rules, At(1));
    DropMembers(rules, At(1));
    DropSorted(rules, At(1));
    ServersStaged(drained, {}, ips);
    assert {} + Hosts(ips) == Hosts(ips);
    ServersOrigin(drained, ips);
  }

  /** The rules a trail with a plan leads to decide as the policy for what it exempts. */
  lemma TrailPolicy(t: Trail)
    requires Sound(t) && t.plan.Some?
    ensures Policy(RulesOf(t), Exempt(t))
  {
    var p := t.plan.value;
    var staged := Switches(t.base, t.before);
    var prot := LastOf(t.before) + Hosts(p.servers) + Hosts(p.dns) + Ranges(p.lan);
    BeforeRouting(t.base, t.before);
    RoutingAddsPolicy(staged, LastOf(t.before), p.servers, p.dns, p.lan);
    if t.since != [] {
      RoutingPlainFront(staged, p.servers, p.dns, p.lan);
      SwitchesPolicy(Booted(t, p), prot, t.since);
      AnchoredOnly(staged, p.servers, p.dns, p.lan);
      assert Outlasting(Booted(t, p), prot, t.since) == Outlasting(Booted(t, p), Hosts(p.dns) + Ranges(p.lan), t.since);
    }
  }

  // ------------------------------------------------------------- the host follows it

  ghost predicate Orderly(rules: seq<Rule>) {
    Sorted(rules) && PlainFront(rules)
  }

  lemma ExecKeepsOrder(h: Host, c: Command)
    requires Safe(c, []) && Orderly(h.rules)
    ensures Orderly(Exec(h, c).rules)
  {
    match c
    case RuleAdd(r) => AddMembers(h.rules, r);
    case RuleDelete(sel) =>
      RemoveMembers(h.rules, sel);
      RemoveSorted(h.rules, sel);
    case RuleDrain(p) =>
      DropMembers(h.rules, At(p));
      DropSorted(h.rules, At(p));
    case RulesClear =>
      DropMembers(h.rules, Band(1, 30));
      DropSorted(h.rules, Band(1, 30));
    case _ =>
  }

  lemma {:induction false} RunKeepsOrder(h: Host, cmds: seq<Command>)
    requires AllSafe(cmds, []) && Orderly(h.rules)
    ensures Orderly(Run(h, cmds).rules)
    decreases |cmds|
  {
    if cmds != [] {
      assert Safe(cmds[0], []);
      ExecKeepsOrder(h, cmds[0]);
      RunKeepsOrder(Exec(h, cmds[0]), cmds[1..]);
    }
  }

  /** The plans fit the band, a switch names no address twice, and no route call deletes the default. */
  predicate Ordinary(a: Action) {
    && Fits(a, [])
    && (a.IpcApply? && a.how.Applied? ==> Distinct(a.how.ips))
    && (a.IpcRoute? ==> RouteDelete([]) !in a.cmds)
  }

  ghost predicate Follows(h: Host, t: Trail) {
    && Sound(t)
    && h.rules == RulesOf(t)
    && (t.plan.Some? ==> [] in h.routes)
    && (!t.called ==> h.routes == TableOf(t))
  }

  /** While a bootstrap has its teardown behind it, or is through, the host is what the trail says. */
  ghost predicate TrailInv(d: Daemon, t: Trail) {
    && Orderly(d.host.rules)
    && (!d.exited ==>
      && (forall b :: b in d.boots && b.stage >= 1 ==> Follows(d.host, t) && (t.plan.Some? <==> b.stage >= 2))
      && (Through(d) ==> Follows(d.host, t) && t.plan.Some?))
  }

  lemma OrderStep(d: Daemon, a: Action)
    requires Enabled(d, a) && Ordinary(a) && Orderly(d.host.rules)
    ensures Orderly(Step(d, a).host.rules)
  {
    match a
    case Dequeue =>
      TurnHost(d);
      DropMembers(d.host.rules, Band(1, 30));
      DropSorted(d.host.rules, Band(1, 30));
    case ProcessDies(_) =>
    case _ =>
      SentHost(d, a);
      SentSafe(d, a, []);
      RunKeepsOrder(d.host, Sent(d, a));
  }

  lemma TrailTurn(d: Daemon, t: Trail)
    requires TrailInv(d, t) && !d.exited && d.queue != []
    requires Orderly(Turn(d).host.rules)
    ensures TrailInv(Turn(d), t)
  {
    TurnKeeps(d);
    TurnBoots(d);
    if Through(Turn(d)) {
      TurnThrough(d);
    }
  }

  /** The first segment starts a new trail. */
  lemma TrailStarts(rules: seq<Rule>, after: Host)
    requires Orderly(rules) && after.rules == Outside(rules) && after.routes == map[]
    ensures Follows(after, Trail(Outside(rules), [], None, [], false))
  {
    DropMembers(rules, Band(1, 30));
    DropSorted(rules, Band(1, 30));
  }

  /** The second adds its plan. */
  lemma TrailRouted(h: Host, t: Trail, p: Plan)
    requires Follows(h, t) && t.plan.None?
    requires |p.dns| <= 28 && |p.lan| <= 21
    ensures Follows(Run(h, RoutingCommands(p)), t.(plan := Some(p)))
  {
    RunRouting(h, p);
    DefaultLoaded(h.routes, Meanings(p.kept));
    assert Switches(Booted(t, p), []) == Booted(t, p);
  }

  lemma TrailAdvance(d: Daemon, i: nat, f: Findings, t: Trail)
    requires TokenInv(d) && TrailInv(d, t) && !d.exited && i < |d.boots|
    requires Ordinary(AdvanceBoot(i, f)) && Orderly(Advance(d, i, f).host.rules)
    ensures TrailInv(Advance(d, i, f), Traced(t, d, AdvanceBoot(i, f)))
  {
    InFlight(d);
    var b := d.boots[i];
    assert b in d.boots;
    AdvanceKeeps(d, i, f);
    if b.stage == 0 {
      var after := StartingEffect(d.host);
      TrailStarts(d.host.rules, after);
    } else if b.stage == 1 {
      TrailRouted(d.host, t, f.plan);
    } else {
      FirewallFilters(d.host, b.wan, d.handle);
    }
  }

  lemma TrailCrash(d: Daemon, i: nat, f: Findings, k: nat, t: Trail)
    requires TokenInv(d) && !d.exited && i < |d.boots| && k <= |Segment(d.boots[i], d.handle, f)|
    requires Orderly(Crash(d, i, f, k).host.rules)
    ensures TrailInv(Crash(d, i, f, k), t)
  {
    InFlight(d);
    DonesAppend(d.queue, SingboxDied);
  }

  lemma SwitchesOneMore(rules: seq<Rule>, profiles: seq<seq<Addr>>, ips: seq<Addr>)
    ensures Switches(rules, profiles + [ips]) == Switch(Switches(rules, profiles), ips)
  {
    assert (profiles + [ips])[..|profiles|] == profiles;
  }

  /** A switch goes on record, before or since the routing segment. */
  lemma TrailSwitched(h: Host, t: Trail, after: Host, ips: seq<Addr>)
    requires Follows(h, t) && Distinct(ips)
    requires after.rules == Switch(h.rules, ips) && after.routes == h.routes
    ensures Follows(after, Switched(t, ips))
  {
    if t.plan.None? {
      SwitchesOneMore(t.base, t.before, ips);
    } else {
      SwitchesOneMore(Booted(t, t.plan.value), t.since, ips);
      StillDistinct(t.since, ips);
      assert Booted(Switched(t, ips), t.plan.value) == Booted(t, t.plan.value);
    }
  }

  lemma StillDistinct(profiles: seq<seq<Addr>>, ips: seq<Addr>)
    requires Distinct(ips) && forall i :: 0 <= i < |profiles| ==> Distinct(profiles[i])
    ensures forall i :: 0 <= i < |profiles + [ips]| ==> Distinct((profiles + [ips])[i])
  {
  }

  lemma TrailApplied(d: Daemon, t: Trail, server: string, how: Applying)
    requires Follows(d.host, t) && (how.Applied? ==> Distinct(how.ips)) && !d.exited
    ensures Follows(Apply(d, server, how).host, Traced(t, d, IpcApply(server, how)))
  {
    SwitchOnRules(d, how);
    var after := Apply(d, server, how).host;
    assert after == Run(d.host, ApplyCommands(d, how));
    if how.Applied? {
      TrailSwitched(d.host, t, after, how.ips);
    }
  }

  lemma {:induction false} DefaultStays(h: Host, cmds: seq<Command>)
    requires [] in h.routes && RouteDelete([]) !in cmds
    requires forall i :: 0 <= i < |cmds| ==> IsRouteCommand(cmds[i])
    ensures [] in Run(h, cmds).routes
    decreases |cmds|
  {
    if cmds != [] {
      assert IsRouteCommand(cmds[0]);
      assert cmds[0] in cmds;
      DefaultStays(Exec(h, cmds[0]), cmds[1..]);
    }
  }

  lemma TrailCalled(d: Daemon, t: Trail, cmds: seq<Command>)
    requires Follows(d.host, t) && Enabled(d, IpcRoute(cmds)) && Ordinary(IpcRoute(cmds))
    ensures Follows(Run(d.host, cmds), t.(called := true))
  {
    RouteCallsSpare(d.host, cmds);
    if t.plan.Some? {
      DefaultStays(d.host, cmds);
    }
  }

  lemma TrailAfter(d: Daemon, t: Trail, after: Daemon, u: Trail)
    requires TrailInv(d, t) && !d.exited && Orderly(after.host.rules)
    requires after.boots == d.boots && after.state == d.state && Dones(after.queue) == Dones(d.queue)
    requires Follows(d.host, t) ==> Follows(after.host, u)
    requires u.plan == t.plan
    ensures TrailInv(after, u)
  {
  }

  lemma TrailApply(d: Daemon, t: Trail, server: string, how: Applying)
    requires TrailInv(d, t) && !d.exited && Ordinary(IpcApply(server, how)) && Orderly(Apply(d, server, how).host.rules)
    ensures TrailInv(Apply(d, server, how), Traced(t, d, IpcApply(server, how)))
  {
    if Follows(d.host, t) {
      TrailApplied(d, t, server, how);
    }
    TrailAfter(d, t, Apply(d, server, how), Traced(t, d, IpcApply(server, how)));
  }

  lemma TrailRoute(d: Daemon, t: Trail, cmds: seq<Command>)
    requires TrailInv(d, t) && Enabled(d, IpcRoute(cmds)) && Ordinary(IpcRoute(cmds))
    requires Orderly(Step(d, IpcRoute(cmds)).host.rules)
    ensures TrailInv(Step(d, IpcRoute(cmds)), Traced(t, d, IpcRoute(cmds)))
  {
    if Follows(d.host, t) {
      TrailCalled(d, t, cmds);
    }
    TrailAfter(d, t, Step(d, IpcRoute(cmds)), Traced(t, d, IpcRoute(cmds)));
  }

  lemma TrailStep(d: Daemon, t: Trail, a: Action)
    requires TokenInv(d) && TrailInv(d, t) && Enabled(d, a) && Ordinary(a) && (IsStopStart(a) ==> Tokens(d) == 0)
    ensures TrailInv(Step(d, a), Traced(t, d, a))
  {
    OrderStep(d, a);
    match a
    case Dequeue => TrailTurn(d, t);
    case Post(e) => DonesAppend(d.queue, e);
    case Fire(_) => DonesAppend(d.queue, Timeout);
    case AdvanceBoot(i, f) => TrailAdvance(d, i, f, t);
    case CrashBoot(i, f, k) => TrailCrash(d, i, f, k, t);
    case IpcApply(server, how) => TrailApply(d, t, server, how);
    case IpcRoute(cmds) => TrailRoute(d, t, cmds);
    case ProcessDies(_) =>
    case IpcStop =>
    case IpcStart =>
  }

  /** The same while events from before a stop or start wait to be handled. */
  ghost predicate TrailPending(d: Daemon, t: Trail, n: nat) {
    Waiting(d, n) && Orderly(d.host.rules) && (Dies(Front(d, n)) || TrailInv(Back(d, n), t))
  }

  lemma TrailKept(d: Daemon, t: Trail, a: Action, n: nat)
    requires TrailPending(d, t, n) && Enabled(d, a) && Ordinary(a) && !a.Dequeue? && !IsStopStart(a)
    ensures TrailPending(Step(d, a), Traced(t, d, a), n)
  {
    OrderStep(d, a);
    WaitingKept(d, a, n);
    if !Dies(Front(d, n)) {
      TrailStep(Back(d, n), t, a);
    }
  }

  lemma TrailBegins(d: Daemon, t: Trail, a: Action)
    requires Enabled(d, a) && IsStopStart(a) && Sure(d, a) && Orderly(d.host.rules)
    ensures TrailPending(Step(d, a), t, |d.queue|)
  {
    OrderStep(d, a);
    WaitingBegins(d, a);
  }

  lemma TrailWaited(d: Daemon, t: Trail, n: nat)
    requires TrailPending(d, t, n) && n > 0 && !Turn(d).exited
    ensures TrailPending(Turn(d), t, n - 1)
  {
    WaitingTurn(d, n);
  }

  /** What the trail says of the host whenever the daemon is HEALTHY or DEGRADED. */
  ghost predicate Reflected(d: Daemon, t: Trail) {
    d.state in {Healthy, Degraded} ==> Follows(d.host, t) && t.plan.Some?
  }

  ghost predicate TrailAny(d: Daemon, t: Trail, n: nat) {
    (TokenInv(d) && TrailInv(d, t)) || TrailPending(d, t, n)
  }

  /** Any step keeps one or the other, or ends the process. */
  lemma TrailMoves(d: Daemon, t: Trail, a: Action, n: nat) returns (m: nat)
    requires TrailAny(d, t, n) && Enabled(d, a) && Ordinary(a) && (IsStopStart(a) ==> Sure(d, a))
    ensures var next := Step(d, a);
      if next.exited then next.state == Failed else TrailAny(next, Traced(t, d, a), m)
  {
    m := n;
    if TrailPending(d, t, n) && n == 0 {
      WaitingOver(d);
    }
    if IsStopStart(a) {
      m := |d.queue|;
      TrailBegins(d, t, a);
    } else if TokenInv(d) && TrailInv(d, t) {
      TokenStep(d, a);
      TrailStep(d, t, a);
    } else if !a.Dequeue? {
      TrailKept(d, t, a, n);
    } else if Turn(d).exited {
      TurnDeath(d);
    } else {
      m := n - 1;
      TrailWaited(d, t, n);
    }
  }

  lemma {:induction false} TrailRun(d: Daemon, t: Trail, acts: seq<Action>, n: nat)
    requires TrailAny(d, t, n) && Runs(d, acts) && Steady(d, acts)
    requires forall i :: 0 <= i < |acts| ==> Ordinary(acts[i])
    ensures Reflected(After(d, acts), TraceRun(t, d, acts))
    decreases |acts|
  {
    if acts != [] {
      var next := Step(d, acts[0]);
      var m := TrailMoves(d, t, acts[0], n);
      if next.exited {
        assert acts[1..] == [];
        assert After(d, acts) == next;
      } else {
        TrailRun(next, Traced(t, d, acts[0]), acts[1..], m);
      }
    }
  }

  ghost predicate Regular(h: Host, acts: seq<Action>) {
    && Runs(Boots(h), acts) && Steady(Boots(h), acts)
    && (forall i :: 0 <= i < |acts| ==> Ordinary(acts[i]))
    && Orderly(h.rules)
  }

  lemma UpFollows(h: Host, acts: seq<Action>)
    requires Regular(h, acts) && After(Boots(h), acts).state in {Healthy, Degraded}
    ensures Follows(After(Boots(h), acts).host, TrailOf(h, acts)) && TrailOf(h, acts).plan.Some?
  {
    TrailRun(Boots(h), NO_TRAIL, acts, 0);
  }

  lemma EgressOnTrail(h: Host, t: Trail, resolves: (string, Addr) -> bool, pkt: Packet)
    requires Follows(h, t) && t.plan.Some? && LeavesToDaemon(h.rules, h.routes, resolves, pkt)
    ensures Lookup(h.routes, pkt.dst).Some?
    ensures Decide(h.rules, h.routes, resolves, pkt)
         == if Protected(Exempt(t), pkt) then InMain else Via(Lookup(h.routes, pkt.dst).value)
  {
    TrailPolicy(t);
    PolicyDecides(h.rules, Exempt(t), h.routes, resolves, pkt);
  }

  /**
   Egress in HEALTHY and DEGRADED, in every run whose stops and starts find what `Sure`
   says, wherever server switches fall: what the history since the last teardown exempts, and
   mark 1, use table main, and every other packet the longest match in the VPN table.
   */
  lemma EgressInEveryRun(h: Host, acts: seq<Action>, resolves: (string, Addr) -> bool, pkt: Packet)
    requires Regular(h, acts)
    requires var d := After(Boots(h), acts);
      d.state in {Healthy, Degraded} && LeavesToDaemon(d.host.rules, d.host.routes, resolves, pkt)
    ensures var d, t := After(Boots(h), acts), TrailOf(h, acts);
      && t.plan.Some?
      && Lookup(d.host.routes, pkt.dst).Some?
      && Decide(d.host.rules, d.host.routes, resolves, pkt)
        == if Protected(Exempt(t), pkt) then InMain else Via(Lookup(d.host.routes, pkt.dst).value)
  {
    UpFollows(h, acts);
    EgressOnTrail(After(Boots(h), acts).host, TrailOf(h, acts), resolves, pkt);
  }

  lemma LoadedDecides(h: Host, entries: seq<RouteEntry>, a: Addr) returns (i: nat)
    ensures var all := Meanings(entries) + [DEFAULT];
      && Decides(all, a, i)
      && Lookup(FirstWins(map[], Up, Meanings(FirstTexts(entries)) + [DEFAULT]), a) == Some(all[i].hop)
  {
    var up := h.(tun0 := Up, routes := map[]);
    i := EveryAddressDecided(up, entries, a);
    LoadedDefault(up, FirstTexts(entries));
  }

  /** No route call has come since that teardown, and the plan loaded what the profile's lists offer. */
  predicate LoadedFrom(t: Trail, entries: seq<RouteEntry>) {
    !t.called && t.plan.Some? && t.plan.value.kept == FirstTexts(entries)
  }

  lemma CandidatesOnTrail(h: Host, t: Trail, entries: seq<RouteEntry>, resolves: (string, Addr) -> bool, pkt: Packet)
    returns (i: nat)
    requires Follows(h, t) && LoadedFrom(t, entries) && LeavesToDaemon(h.rules, h.routes, resolves, pkt)
    ensures var all := Meanings(entries) + [DEFAULT];
      && Decides(all, pkt.dst, i)
      && Decide(h.rules, h.routes, resolves, pkt) == if Protected(Exempt(t), pkt) then InMain else Via(all[i].hop)
  {
    EgressOnTrail(h, t, resolves, pkt);
    i := LoadedDecides(h, entries, pkt.dst);
  }

  /** Then a packet that is not exempt goes where the deciding candidate of the full, undeduplicated stream sends it. */
  lemma EgressByCandidates(
    h: Host, acts: seq<Action>, sources: Sources, dns: Dns, resolves: (string, Addr) -> bool, pkt: Packet)
    returns (i: nat)
    requires Regular(h, acts) && LoadedFrom(TrailOf(h, acts), Candidates(sources, dns))
    requires var d := After(Boots(h), acts);
      d.state in {Healthy, Degraded} && LeavesToDaemon(d.host.rules, d.host.routes, resolves, pkt)
    ensures var d, all := After(Boots(h), acts), Meanings(Candidates(sources, dns)) + [DEFAULT];
      && Decides(all, pkt.dst, i)
      && Decide(d.host.rules, d.host.routes, resolves, pkt)
        == if Protected(Exempt(TrailOf(h, acts)), pkt) then InMain else Via(all[i].hop)
  {
    UpFollows(h, acts);
    i := CandidatesOnTrail(After(Boots(h), acts).host, TrailOf(h, acts), Candidates(sources, dns), resolves, pkt);
  }
}
