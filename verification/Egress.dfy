/**
 Where a packet leaves the host: the kernel's walk over ip rules and the longest
 match in the VPN table, and what bootstrap and server switches make of it.
 */
module Egress {
  import opened Wrappers
  import opened Network
  import opened Rules

  const CATCHALL := Rule(30, None, None, None, Vpn)
  const TORRENT := Rule(20, None, None, Some(1), Main)
  const TORRENT_SELECTOR := Marked(1, Main, 20)

  datatype Packet = Packet(src: Addr, dst: Addr, mark: nat)
  datatype Verdict = InMain | Via(hop: Hop) | InOther(id: string) | Unreachable

  predicate Tunnels(v: Verdict) {
    v.Via? && v.hop.dev == TUN
  }

  predicate Matches(r: Rule, pkt: Packet) {
    && (r.from.Some? ==> r.from.value <= pkt.src)
    && (r.to.Some? ==> r.to.value <= pkt.dst)
    && (r.mark.Some? ==> r.mark.value == pkt.mark)
  }

  /** Longest match among the prefixes of `a` of length at most `n`. */
  function LookupUpTo(routes: map<Prefix, Hop>, a: Addr, n: nat): Option<Hop>
    requires n <= 32
  {
    if a[..n] in routes then Some(routes[a[..n]])
    else if n == 0 then None
    else LookupUpTo(routes, a, n - 1)
  }

  function Lookup(routes: map<Prefix, Hop>, a: Addr): Option<Hop> {
    LookupUpTo(routes, a, 32)
  }

  /**
   The rule's own answer for the packet, if it has one. Table main holds the host's
   default route; `resolves` says which of the host's other tables answer.
   */
  function Answer(r: Rule, routes: map<Prefix, Hop>, resolves: (string, Addr) -> bool, pkt: Packet): Option<Verdict> {
    if !Matches(r, pkt) then None
    else match r.table
      case Main => Some(InMain)
      case Vpn => (match Lookup(routes, pkt.dst) case Some(h) => Some(Via(h)) case None => None)
      case Other(id) => if resolves(id, pkt.dst) then Some(InOther(id)) else None
  }

  /** The kernel's decision: the first rule whose table has a route. */
  function Decide(rules: seq<Rule>, routes: map<Prefix, Hop>, resolves: (string, Addr) -> bool, pkt: Packet): Verdict {
    if rules == [] then Unreachable
    else match Answer(rules[0], routes, resolves, pkt)
      case Some(v) => v
      case None => Decide(rules[1..], routes, resolves, pkt)
  }

  lemma {:induction false} DecideFirst(
    rules: seq<Rule>, routes: map<Prefix, Hop>, resolves: (string, Addr) -> bool, pkt: Packet, k: nat)
    returns (i: nat)
    requires k < |rules| && Answer(rules[k], routes, resolves, pkt).Some?
    ensures i <= k && Answer(rules[i], routes, resolves, pkt) == Some(Decide(rules, routes, resolves, pkt))
    ensures forall j :: 0 <= j < i ==> Answer(rules[j], routes, resolves, pkt).None?
  {
    if Answer(rules[0], routes, resolves, pkt).Some? {
      i := 0;
    } else {
      var i' := DecideFirst(rules[1..], routes, resolves, pkt, k - 1);
      i := i' + 1;
      forall j | 0 <= j < i ensures Answer(rules[j], routes, resolves, pkt).None? {
        assert j > 0 ==> rules[j] == rules[1..][j - 1];
      }
    }
  }

  // ---------------------------------------------------------------- commands

  function BypassRule(dst: Prefix, priority: nat): Rule {
    Rule(priority, None, Some(dst), None, Main)
  }

  function BypassCommands(dst: Prefix, priority: nat): seq<Command> {
    [RuleDelete(To(dst)), RuleAdd(BypassRule(dst, priority))]
  }

  function ServerCommands(ips: seq<Addr>): seq<Command> {
    if ips == [] then [] else ServerCommands(ips[..|ips| - 1]) + BypassCommands(ips[|ips| - 1], 1)
  }

  function DnsCommands(ips: seq<Addr>): seq<Command> {
    if ips == [] then [] else DnsCommands(ips[..|ips| - 1]) + BypassCommands(ips[|ips| - 1], 3 + |ips| - 1)
  }

  function LanCommands(subnets: seq<Prefix>): seq<Command> {
    if subnets == [] then []
    else LanCommands(subnets[..|subnets| - 1]) + [RuleAdd(BypassRule(subnets[|subnets| - 1], 10 + |subnets| - 1))]
  }

  // ------------------------------------------------------- the same on rules

  function Bypassed(rules: seq<Rule>, dst: Prefix, priority: nat): seq<Rule> {
    AddRule(RemoveFirst(rules, To(dst)), BypassRule(dst, priority))
  }

  function WithServers(rules: seq<Rule>, ips: seq<Addr>): seq<Rule> {
    if ips == [] then rules else Bypassed(WithServers(rules, ips[..|ips| - 1]), ips[|ips| - 1], 1)
  }

  function WithDns(rules: seq<Rule>, ips: seq<Addr>): seq<Rule> {
    if ips == [] then rules else Bypassed(WithDns(rules, ips[..|ips| - 1]), ips[|ips| - 1], 3 + |ips| - 1)
  }

  function WithLan(rules: seq<Rule>, subnets: seq<Prefix>): seq<Rule> {
    if subnets == [] then rules
    else AddRule(WithLan(rules, subnets[..|subnets| - 1]), BypassRule(subnets[|subnets| - 1], 10 + |subnets| - 1))
  }

  lemma {:induction false} RunServers(h: Host, ips: seq<Addr>)
    ensures Run(h, ServerCommands(ips)) == h.(rules := WithServers(h.rules, ips))
  {
    if ips != [] {
      var n := |ips| - 1;
      RunServers(h, ips[..n]);
      RunConcat(h, ServerCommands(ips[..n]), BypassCommands(ips[n], 1));
      RunBypass(Run(h, ServerCommands(ips[..n])), ips[n], 1);
    }
  }

  lemma {:induction false} RunDns(h: Host, ips: seq<Addr>)
    ensures Run(h, DnsCommands(ips)) == h.(rules := WithDns(h.rules, ips))
  {
    if ips != [] {
      var n := |ips| - 1;
      RunDns(h, ips[..n]);
      RunConcat(h, DnsCommands(ips[..n]), BypassCommands(ips[n], 3 + n));
      RunBypass(Run(h, DnsCommands(ips[..n])), ips[n], 3 + n);
    }
  }

  lemma {:induction false} RunLan(h: Host, subnets: seq<Prefix>)
    ensures Run(h, LanCommands(subnets)) == h.(rules := WithLan(h.rules, subnets))
  {
    if subnets != [] {
      var n := |subnets| - 1;
      var c := RuleAdd(BypassRule(subnets[n], 10 + n));
      RunLan(h, subnets[..n]);
      RunConcat(h, LanCommands(subnets[..n]), [c]);
      RunOne(Run(h, LanCommands(subnets[..n])), c);
    }
  }

  lemma RunBypass(h: Host, dst: Prefix, priority: nat)
    ensures Run(h, BypassCommands(dst, priority)) == h.(rules := Bypassed(h.rules, dst, priority))
  {
    RunTwo(h, RuleDelete(To(dst)), RuleAdd(BypassRule(dst, priority)));
  }

  // ------------------------------------------------------------------ policy

  predicate IsBypass(r: Rule, p: Prefix) {
    InBand(r) && r == BypassRule(p, r.priority)
  }

  ghost predicate Covered(rules: seq<Rule>, p: Prefix) {
    exists r :: r in rules && IsBypass(r, p)
  }

  predicate Bypasses(r: Rule, prot: set<Prefix>) {
    r.to.Some? && r.to.value in prot && IsBypass(r, r.to.value)
  }

  /** Behind the catch-all there is nothing of its priority or a smaller one. */
  ghost predicate CatchallLast(rules: seq<Rule>) {
    forall i, j :: 0 <= i < j < |rules| && rules[i] == CATCHALL ==> rules[j].priority > 30
  }

  /** The band holds destination bypasses for `prot` and nothing else. */
  ghost predicate Staged(rules: seq<Rule>, prot: set<Prefix>) {
    && Sorted(rules)
    && (forall r :: r in rules && InBand(r) ==> Bypasses(r, prot))
    && (forall p :: p in prot ==> Covered(rules, p))
  }

  /** The band holds bypasses for `prot`, the torrent rule and, behind them, the catch-all. */
  ghost predicate Policy(rules: seq<Rule>, prot: set<Prefix>) {
    && Sorted(rules)
    && CATCHALL in rules
    && TORRENT in rules
    && (forall r :: r in rules && InBand(r) && r != CATCHALL && r != TORRENT ==> Bypasses(r, prot))
    && (forall p :: p in prot ==> Covered(rules, p))
    && CatchallLast(rules)
  }

  /** The host's own rules in front of the band leave the packet to the daemon. */
  ghost predicate LeavesToDaemon(rules: seq<Rule>, routes: map<Prefix, Hop>, resolves: (string, Addr) -> bool, pkt: Packet) {
    forall r :: r in rules && r.priority == 0 ==> Answer(r, routes, resolves, pkt).None?
  }

  ghost predicate Protected(prot: set<Prefix>, pkt: Packet) {
    pkt.mark == 1 || exists p :: p in prot && p <= pkt.dst
  }

  lemma DefaultAnswers(routes: map<Prefix, Hop>, a: Addr, n: nat)
    requires n <= 32 && [] in routes
    ensures LookupUpTo(routes, a, n).Some?
  {
    assert a[..0] == [];
  }

  /** Under the policy, protected destinations and mark 1 use table main, all else the VPN table. */
  lemma PolicyDecides(
    rules: seq<Rule>, prot: set<Prefix>, routes: map<Prefix, Hop>, resolves: (string, Addr) -> bool, pkt: Packet)
    requires Policy(rules, prot) && [] in routes
    requires LeavesToDaemon(rules, routes, resolves, pkt)
    ensures Lookup(routes, pkt.dst).Some?
    ensures Decide(rules, routes, resolves, pkt)
         == if Protected(prot, pkt) then InMain else Via(Lookup(routes, pkt.dst).value)
  {
    DefaultAnswers(routes, pkt.dst, 32);
    var k :| 0 <= k < |rules| && rules[k] == CATCHALL;
    var i := DecideFirst(rules, routes, resolves, pkt, k);
    var found := rules[i];
    assert found in rules && found.priority <= rules[k].priority;
    assert InBand(found);
    if Protected(prot, pkt) {
      var r := MainRule(rules, prot, pkt);
      var j :| 0 <= j < |rules| && rules[j] == r;
      assert Answer(r, routes, resolves, pkt) == Some(InMain);
      assert j != k;
      assert j < k;
      assert i <= j;
      assert found != CATCHALL;
    } else {
      assert found != TORRENT;
      assert found == CATCHALL;
    }
  }

  lemma MainRule(rules: seq<Rule>, prot: set<Prefix>, pkt: Packet) returns (r: Rule)
    requires Policy(rules, prot) && Protected(prot, pkt)
    ensures r in rules && InBand(r) && r.table == Main && Matches(r, pkt)
  {
    if pkt.mark == 1 {
      r := TORRENT;
    } else {
      var p :| p in prot && p <= pkt.dst;
      assert Covered(rules, p);
      r :| r in rules && IsBypass(r, p);
    }
  }

  // --------------------------------------------------- bootstrap builds it

  lemma AddMembers(rules: seq<Rule>, r: Rule)
    requires Sorted(rules)
    ensures Sorted(AddRule(rules, r))
    ensures forall x :: x in AddRule(rules, r) <==> x == r || x in rules
  {
    InsertMembers(rules, r);
    InsertSorted(rules, r);
  }

  lemma AddStaged(rules: seq<Rule>, prot: set<Prefix>, dst: Prefix, priority: nat)
    requires 1 <= priority <= 30
    requires Sorted(rules)
    requires forall r :: r in rules && InBand(r) ==> Bypasses(r, prot)
    requires forall p :: p in prot && p != dst ==> Covered(rules, p)
    ensures Staged(AddRule(rules, BypassRule(dst, priority)), prot + {dst})
  {
    var b := BypassRule(dst, priority);
    AddMembers(rules, b);
    var after := AddRule(rules, b);
    assert b in after && IsBypass(b, dst);
    forall p | p in prot + {dst} ensures Covered(after, p) {
      if p != dst {
        var r :| r in rules && IsBypass(r, p);
        assert r in after;
      }
    }
  }

  lemma BypassStaged(rules: seq<Rule>, prot: set<Prefix>, dst: Prefix, priority: nat)
    requires Staged(rules, prot) && 1 <= priority <= 30
    ensures Staged(Bypassed(rules, dst, priority), prot + {dst})
  {
    var rest := RemoveFirst(rules, To(dst));
    RemoveMembers(rules, To(dst));
    RemoveSorted(rules, To(dst));
    forall p | p in prot && p != dst ensures Covered(rest, p) {
      var r :| r in rules && IsBypass(r, p);
      assert r in rest;
    }
    AddStaged(rest, prot, dst, priority);
  }

  function Hosts(ips: seq<Addr>): set<Prefix> {
    set a: Prefix | a in ips
  }

  function Ranges(ps: seq<Prefix>): set<Prefix> {
    set p | p in ps
  }

  lemma HostsGrow(prot: set<Prefix>, ips: seq<Addr>)
    requires ips != []
    ensures var n := |ips| - 1;
      prot + Hosts(ips) == prot + Hosts(ips[..n]) + {ips[n]}
  {
    var n := |ips| - 1;
    assert ips == ips[..n] + [ips[n]];
  }

  lemma {:induction false} ServersStaged(rules: seq<Rule>, prot: set<Prefix>, ips: seq<Addr>)
    requires Staged(rules, prot)
    ensures Staged(WithServers(rules, ips), prot + Hosts(ips))
  {
    if ips == [] {
      assert prot + Hosts(ips) == prot;
    } else {
      var n := |ips| - 1;
      ServersStaged(rules, prot, ips[..n]);
      BypassStaged(WithServers(rules, ips[..n]), prot + Hosts(ips[..n]), ips[n], 1);
      HostsGrow(prot, ips);
    }
  }

  lemma {:induction false} DnsStaged(rules: seq<Rule>, prot: set<Prefix>, ips: seq<Addr>)
    requires Staged(rules, prot) && |ips| <= 28
    ensures Staged(WithDns(rules, ips), prot + Hosts(ips))
  {
    if ips == [] {
      assert prot + Hosts(ips) == prot;
    } else {
      var n := |ips| - 1;
      DnsStaged(rules, prot, ips[..n]);
      BypassStaged(WithDns(rules, ips[..n]), prot + Hosts(ips[..n]), ips[n], 3 + n);
      assert ips == ips[..n] + [ips[n]];
      assert prot + Hosts(ips) == prot + Hosts(ips[..n]) + {ips[n]};
    }
  }

  lemma {:induction false} LanStaged(rules: seq<Rule>, prot: set<Prefix>, subnets: seq<Prefix>)
    requires Staged(rules, prot) && |subnets| <= 21
    ensures Staged(WithLan(rules, subnets), prot + Ranges(subnets))
  {
    if subnets == [] {
      assert prot + Ranges(subnets) == prot;
    } else {
      var n := |subnets| - 1;
      LanStaged(rules, prot, subnets[..n]);
      AddStaged(WithLan(rules, subnets[..n]), prot + Ranges(subnets[..n]), subnets[n], 10 + n);
      assert subnets == subnets[..n] + [subnets[n]];
      assert prot + Ranges(subnets) == prot + Ranges(subnets[..n]) + {subnets[n]};
    }
  }

  /** The rules `bootstrap` leaves: bypasses, then the catch-all, then the torrent rule. */
  function RoutingRules(rules: seq<Rule>, servers: seq<Addr>, dns: seq<Addr>, lan: seq<Prefix>): seq<Rule> {
    var staged := WithLan(WithDns(WithServers(rules, servers), dns), lan);
    AddRule(RemoveFirst(AddRule(staged, CATCHALL), TORRENT_SELECTOR), TORRENT)
  }

  lemma {:induction false} CatchallInsertedLast(rules: seq<Rule>)
    requires Sorted(rules) && CATCHALL !in rules
    ensures CatchallLast(InsertRule(rules, CATCHALL))
  {
    if rules != [] && rules[0].priority <= 30 {
      CatchallInsertedLast(rules[1..]);
      LastUnderHead(rules[0], InsertRule(rules[1..], CATCHALL));
    }
  }

  lemma {:induction false} InsertKeepsLast(rules: seq<Rule>, r: Rule)
    requires Sorted(rules) && CatchallLast(rules) && r.priority < 30
    ensures CatchallLast(InsertRule(rules, r))
  {
    if rules != [] && rules[0].priority <= r.priority {
      var rest := rules[1..];
      forall i, j | 0 <= i < j < |rest| && rest[i] == CATCHALL ensures rest[j].priority > 30 {
        assert rest[i] == rules[i + 1] && rest[j] == rules[j + 1];
      }
      InsertKeepsLast(rest, r);
      LastUnderHead(rules[0], InsertRule(rest, r));
    } else {
      LastUnderHead(r, rules);
    }
  }

  lemma LastUnderHead(head: Rule, rest: seq<Rule>)
    requires CatchallLast(rest) && head != CATCHALL
    ensures CatchallLast([head] + rest)
  {
    var all := [head] + rest;
    forall i, j | 0 <= i < j < |all| && all[i] == CATCHALL ensures all[j].priority > 30 {
      assert i > 0;
      assert all[i] == rest[i - 1] && all[j] == rest[j - 1];
    }
  }

  lemma RoutingStaged(rules: seq<Rule>, prot: set<Prefix>, servers: seq<Addr>, dns: seq<Addr>, lan: seq<Prefix>)
    requires Staged(rules, prot)
    requires |dns| <= 28 && |lan| <= 21
    ensures Staged(WithLan(WithDns(WithServers(rules, servers), dns), lan), prot + Hosts(servers) + Hosts(dns) + Ranges(lan))
  {
    ServersStaged(rules, prot, servers);
    DnsStaged(WithServers(rules, servers), prot + Hosts(servers), dns);
    LanStaged(WithDns(WithServers(rules, servers), dns), prot + Hosts(servers) + Hosts(dns), lan);
  }

  /** The routing step protects its servers, DNS IPs and LAN subnets besides what was bypassed before it. */
  lemma RoutingAddsPolicy(rules: seq<Rule>, prot: set<Prefix>, servers: seq<Addr>, dns: seq<Addr>, lan: seq<Prefix>)
    requires Staged(rules, prot)
    requires |dns| <= 28 && |lan| <= 21
    ensures Policy(RoutingRules(rules, servers, dns, lan), prot + Hosts(servers) + Hosts(dns) + Ranges(lan))
  {
    RoutingStaged(rules, prot, servers, dns, lan);
    StagedToPolicy(WithLan(WithDns(WithServers(rules, servers), dns), lan),
      prot + Hosts(servers) + Hosts(dns) + Ranges(lan));
  }

  /**
   After the routing step of bootstrap on a host with an empty band, the policy
   protects exactly the server IPs, the DNS IPs and the LAN subnets.
   */
  lemma RoutingInstallsPolicy(rules: seq<Rule>, servers: seq<Addr>, dns: seq<Addr>, lan: seq<Prefix>)
    requires Sorted(rules) && forall r :: r in rules ==> !InBand(r)
    requires |dns| <= 28 && |lan| <= 21
    ensures Policy(RoutingRules(rules, servers, dns, lan), Hosts(servers) + Hosts(dns) + Ranges(lan))
  {
    RoutingAddsPolicy(rules, {}, servers, dns, lan);
    assert {} + Hosts(servers) + Hosts(dns) + Ranges(lan) == Hosts(servers) + Hosts(dns) + Ranges(lan);
  }

  // ------------------------------------------------------------- who sits where

  lemma {:induction false} ServersPlaced(rules: seq<Rule>, ips: seq<Addr>)
    ensures forall ip :: ip in ips ==> Rule(1, None, Some(ip), None, Main) in WithServers(rules, ips)
  {
    if ips != [] {
      var n := |ips| - 1;
      var before := WithServers(rules, ips[..n]);
      assert ips == ips[..n] + [ips[n]];
      ServersPlaced(rules, ips[..n]);
      RemoveMembers(before, To(ips[n]));
      InsertMembers(RemoveFirst(before, To(ips[n])), BypassRule(ips[n], 1));
    }
  }

  /** Rules to other addresses survive the DNS bypasses. */
  lemma {:induction false} DnsSpares(rules: seq<Rule>, dns: seq<Addr>, r: Rule)
    requires r in rules && forall ip :: ip in dns ==> r.to != Some(ip)
    ensures r in WithDns(rules, dns)
  {
    if dns != [] {
      var n := |dns| - 1;
      var before := WithDns(rules, dns[..n]);
      assert dns == dns[..n] + [dns[n]];
      DnsSpares(rules, dns[..n], r);
      RemoveMembers(before, To(dns[n]));
      InsertMembers(RemoveFirst(before, To(dns[n])), BypassRule(dns[n], 3 + n));
    }
  }

  lemma {:induction false} DnsPlaced(rules: seq<Rule>, dns: seq<Addr>, i: nat)
    requires i < |dns| && forall j :: i < j < |dns| ==> dns[j] != dns[i]
    ensures Rule(3 + i, None, Some(dns[i]), None, Main) in WithDns(rules, dns)
  {
    var n := |dns| - 1;
    var before := WithDns(rules, dns[..n]);
    RemoveMembers(before, To(dns[n]));
    InsertMembers(RemoveFirst(before, To(dns[n])), BypassRule(dns[n], 3 + n));
    if i < n {
      DnsPlaced(rules, dns[..n], i);
    }
  }

  lemma {:induction false} LanSpares(rules: seq<Rule>, lan: seq<Prefix>, r: Rule)
    requires r in rules
    ensures r in WithLan(rules, lan)
  {
    if lan != [] {
      var n := |lan| - 1;
      LanSpares(rules, lan[..n], r);
      InsertMembers(WithLan(rules, lan[..n]), BypassRule(lan[n], 10 + n));
    }
  }

  lemma {:induction false} LanPlaced(rules: seq<Rule>, lan: seq<Prefix>, j: nat)
    requires j < |lan|
    ensures Rule(10 + j, None, Some(lan[j]), None, Main) in WithLan(rules, lan)
  {
    var n := |lan| - 1;
    InsertMembers(WithLan(rules, lan[..n]), BypassRule(lan[n], 10 + n));
    if j < n {
      LanPlaced(rules, lan[..n], j);
    }
  }

  lemma EndSpares(rules: seq<Rule>, r: Rule)
    requires r in rules && !Selects(TORRENT_SELECTOR, r)
    ensures r in AddRule(RemoveFirst(AddRule(rules, CATCHALL), TORRENT_SELECTOR), TORRENT)
  {
    InsertMembers(rules, CATCHALL);
    var caught := AddRule(rules, CATCHALL);
    RemoveMembers(caught, TORRENT_SELECTOR);
    InsertMembers(RemoveFirst(caught, TORRENT_SELECTOR), TORRENT);
  }

  lemma EndPlaced(rules: seq<Rule>)
    ensures var after := AddRule(RemoveFirst(AddRule(rules, CATCHALL), TORRENT_SELECTOR), TORRENT);
      Rule(20, None, None, Some(1), Main) in after && Rule(30, None, None, None, Vpn) in after
  {
    InsertMembers(rules, CATCHALL);
    var caught := AddRule(rules, CATCHALL);
    RemoveMembers(caught, TORRENT_SELECTOR);
    InsertMembers(RemoveFirst(caught, TORRENT_SELECTOR), TORRENT);
  }

  /**
   Where bootstrap puts its rules: LAN subnet j at 10 + j, DNS address i at 3 + i (at its last
   mention), a server that is no DNS address at 1, marked packets at 20 and all else at 30.
   */
  lemma RulesPlaced(rules: seq<Rule>, servers: seq<Addr>, dns: seq<Addr>, lan: seq<Prefix>)
    ensures var after := RoutingRules(rules, servers, dns, lan);
      && (forall j :: 0 <= j < |lan| ==> Rule(10 + j, None, Some(lan[j]), None, Main) in after)
      && (forall i :: 0 <= i < |dns| && dns[i] !in dns[i + 1..] ==> Rule(3 + i, None, Some(dns[i]), None, Main) in after)
      && (forall ip :: ip in servers && ip !in dns ==> Rule(1, None, Some(ip), None, Main) in after)
      && Rule(20, None, None, Some(1), Main) in after && Rule(30, None, None, None, Vpn) in after
  {
    var s := WithServers(rules, servers);
    var d := WithDns(s, dns);
    var l := WithLan(d, lan);
    EndPlaced(l);
    forall j | 0 <= j < |lan| ensures Rule(10 + j, None, Some(lan[j]), None, Main) in RoutingRules(rules, servers, dns, lan) {
      LanPlaced(d, lan, j);
      EndSpares(l, Rule(10 + j, None, Some(lan[j]), None, Main));
    }
    forall i | 0 <= i < |dns| && dns[i] !in dns[i + 1..]
      ensures Rule(3 + i, None, Some(dns[i]), None, Main) in RoutingRules(rules, servers, dns, lan)
    {
      var r := Rule(3 + i, None, Some(dns[i]), None, Main);
      assert forall j :: i < j < |dns| ==> dns[j] == dns[i + 1..][j - i - 1];
      DnsPlaced(s, dns, i);
      LanSpares(d, lan, r);
      EndSpares(l, r);
    }
    forall ip | ip in servers && ip !in dns
      ensures Rule(1, None, Some(ip), None, Main) in RoutingRules(rules, servers, dns, lan)
    {
      var r := Rule(1, None, Some(ip), None, Main);
      ServersPlaced(rules, servers);
      DnsSpares(s, dns, r);
      LanSpares(d, lan, r);
      EndSpares(l, r);
    }
  }

  lemma StagedToPolicy(staged: seq<Rule>, prot: set<Prefix>)
    requires Staged(staged, prot)
    ensures Policy(AddRule(RemoveFirst(AddRule(staged, CATCHALL), TORRENT_SELECTOR), TORRENT), prot)
  {
    assert CATCHALL !in staged;
    AddMembers(staged, CATCHALL);
    CatchallInsertedLast(staged);
    var caught := AddRule(staged, CATCHALL);
    CoveredBySuperset(staged, caught, prot);
    RemoveNothing(caught, TORRENT_SELECTOR);
    TorrentAdded(caught, prot);
  }

  lemma TorrentAdded(caught: seq<Rule>, prot: set<Prefix>)
    requires Sorted(caught) && CATCHALL in caught && CatchallLast(caught)
    requires forall r :: r in caught && InBand(r) && r != CATCHALL ==> Bypasses(r, prot)
    requires forall p :: p in prot ==> Covered(caught, p)
    ensures Policy(AddRule(caught, TORRENT), prot)
  {
    AddMembers(caught, TORRENT);
    InsertKeepsLast(caught, TORRENT);
    CoveredBySuperset(caught, AddRule(caught, TORRENT), prot);
  }

  lemma CoveredBySuperset(rules: seq<Rule>, more: seq<Rule>, prot: set<Prefix>)
    requires forall r :: r in rules ==> r in more
    requires forall p :: p in prot ==> Covered(rules, p)
    ensures forall p :: p in prot ==> Covered(more, p)
  {
    forall p | p in prot ensures Covered(more, p) {
      var r :| r in rules && IsBypass(r, p);
      assert r in more;
    }
  }
}
