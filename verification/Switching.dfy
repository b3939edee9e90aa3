/**
 Server switches on a running daemon: every switch drains the priority-1 bypasses
 and adds one per server IP of the new profile.
 */
module Switching {
  import opened Wrappers
  import opened Network
  import opened Rules
  import opened Egress

  /** The effect of one switch; `ips` is a set in the source, so it repeats nothing. */
  function Switch(rules: seq<Rule>, ips: seq<Addr>): seq<Rule> {
    WithServers(Drop(rules, At(1)), ips)
  }

  function Switches(rules: seq<Rule>, profiles: seq<seq<Addr>>): seq<Rule> {
    if profiles == [] then rules
    else Switch(Switches(rules, profiles[..|profiles| - 1]), profiles[|profiles| - 1])
  }

  predicate Distinct(ips: seq<Addr>) {
    forall i, j :: 0 <= i < j < |ips| ==> ips[i] != ips[j]
  }

  /** The rules in front of the band have no destination, as the kernel's local rule. */
  ghost predicate PlainFront(rules: seq<Rule>) {
    forall r :: r in rules && r.priority == 0 ==> r.to == None
  }

  predicate IsAnchor(r: Rule, p: Prefix) {
    2 <= r.priority <= 30 && r.to == Some(p)
  }

  /** How many bypasses for `p` sit outside priority 1. */
  function Anchors(rules: seq<Rule>, p: Prefix): nat {
    if rules == [] then 0 else (if IsAnchor(rules[0], p) then 1 else 0) + Anchors(rules[1..], p)
  }

  /** In how many of the profiles `p` is a server address. */
  function Times(p: Prefix, profiles: seq<seq<Addr>>): nat {
    if profiles == [] then 0
    else Times(p, profiles[..|profiles| - 1]) + (if p in Hosts(profiles[|profiles| - 1]) then 1 else 0)
  }

  lemma {:induction false} AnchorsPositive(rules: seq<Rule>, p: Prefix)
    ensures Anchors(rules, p) > 0 <==> exists r :: r in rules && IsAnchor(r, p)
  {
    if rules != [] {
      AnchorsPositive(rules[1..], p);
      assert rules == [rules[0]] + rules[1..];
    }
  }

  lemma {:induction false} AnchorsInsert(rules: seq<Rule>, r: Rule, p: Prefix)
    requires r.priority == 1
    ensures Anchors(InsertRule(rules, r), p) == Anchors(rules, p)
  {
    if rules != [] && rules[0].priority <= r.priority {
      AnchorsInsert(rules[1..], r, p);
    }
  }

  lemma {:induction false} AnchorsDrop(rules: seq<Rule>, p: Prefix)
    ensures Anchors(Drop(rules, At(1)), p) == Anchors(rules, p)
  {
    if rules != [] {
      AnchorsDrop(rules[1..], p);
      if rules[0].priority == 1 {
        assert Drop(rules, At(1)) == Drop(rules[1..], At(1));
      }
    }
  }

  /** `ip rule del to dst` takes an anchor of `dst` as long as there is one. */
  lemma {:induction false} AnchorsRemove(rules: seq<Rule>, dst: Prefix, p: Prefix)
    requires Sorted(rules)
    requires forall r :: r in rules && r.to == Some(dst) ==> r.priority >= 2
    ensures Anchors(RemoveFirst(rules, To(dst)), p)
         == Anchors(rules, p) - (if p == dst && Anchors(rules, dst) > 0 then 1 else 0)
  {
    if rules != [] {
      assert rules == [rules[0]] + rules[1..];
      if !Selects(To(dst), rules[0]) {
        AnchorsRemove(rules[1..], dst, p);
      } else if rules[0].priority > 30 {
        AnchorsPositive(rules, dst);
      }
    }
  }

  lemma {:induction false} LastAfterRemove(rules: seq<Rule>, sel: Selector)
    requires CatchallLast(rules)
    ensures CatchallLast(RemoveFirst(rules, sel))
  {
    if rules != [] {
      LastInTail(rules);
      if !Selects(sel, rules[0]) {
        LastAfterRemove(rules[1..], sel);
        RemoveMembers(rules[1..], sel);
        LastUnderAnyHead(rules[0], rules[1..], RemoveFirst(rules[1..], sel));
      }
    }
  }

  lemma {:induction false} LastAfterDrop(rules: seq<Rule>, sel: Selector)
    requires CatchallLast(rules)
    ensures CatchallLast(Drop(rules, sel))
  {
    if rules != [] {
      LastInTail(rules);
      LastAfterDrop(rules[1..], sel);
      DropMembers(rules[1..], sel);
      LastUnderAnyHead(rules[0], rules[1..], Drop(rules[1..], sel));
    }
  }

  lemma LastInTail(rules: seq<Rule>)
    requires rules != [] && CatchallLast(rules)
    ensures CatchallLast(rules[1..])
    ensures rules[0] == CATCHALL ==> forall r :: r in rules[1..] ==> r.priority > 30
  {
    var rest := rules[1..];
    forall i, j | 0 <= i < j < |rest| && rest[i] == CATCHALL ensures rest[j].priority > 30 {
      assert rest[i] == rules[i + 1] && rest[j] == rules[j + 1];
    }
  }

  lemma LastUnderAnyHead(head: Rule, rest: seq<Rule>, kept: seq<Rule>)
    requires CatchallLast(kept) && forall r :: r in kept ==> r in rest
    requires head == CATCHALL ==> forall r :: r in rest ==> r.priority > 30
    ensures CatchallLast([head] + kept)
  {
    var all := [head] + kept;
    forall i, j | 0 <= i < j < |all| && all[i] == CATCHALL ensures all[j].priority > 30 {
      assert all[j] == kept[j - 1];
      assert i > 0 ==> all[i] == kept[i - 1];
    }
  }

  // ------------------------------------------------------ one switch, in full

  /** What holds while a switch is adding the bypasses of `done`, a prefix of the new server IPs. */
  ghost predicate Switching(rules: seq<Rule>, prot: set<Prefix>, done: seq<Addr>) {
    && Sorted(rules)
    && CATCHALL in rules
    && TORRENT in rules
    && CatchallLast(rules)
    && PlainFront(rules)
    && (forall r :: r in rules && InBand(r) && r != CATCHALL && r != TORRENT ==> Bypasses(r, prot))
    && (forall r :: r in rules && r.priority == 1 ==> Bypasses(r, Hosts(done)))
    && (forall p :: p in Hosts(done) ==> Covered(rules, p))
  }

  lemma SwitchDrains(rules: seq<Rule>, prot: set<Prefix>)
    requires Policy(rules, prot) && PlainFront(rules)
    ensures Switching(Drop(rules, At(1)), prot, [])
  {
    DropMembers(rules, At(1));
    DropSorted(rules, At(1));
    LastAfterDrop(rules, At(1));
  }

  lemma SwitchAddsOne(rules: seq<Rule>, prot: set<Prefix>, done: seq<Addr>, ip: Addr)
    requires Switching(rules, prot, done) && ip !in done
    ensures Switching(Bypassed(rules, ip, 1), prot + {ip}, done + [ip])
  {
    var rest := RemoveFirst(rules, To(ip));
    var b := BypassRule(ip, 1);
    RemoveMembers(rules, To(ip));
    RemoveSorted(rules, To(ip));
    LastAfterRemove(rules, To(ip));
    assert Hosts(done + [ip]) == Hosts(done) + {ip};
    assert Switching(rest, prot, done) by {
      forall p | p in Hosts(done) ensures Covered(rest, p) {
        var r :| r in rules && IsBypass(r, p);
        assert r in rest;
      }
    }
    InsertKeepsLast(rest, b);
    AddOwnBypass(rest, prot, done, ip);
  }

  lemma AddOwnBypass(rest: seq<Rule>, prot: set<Prefix>, done: seq<Addr>, ip: Addr)
    requires Switching(rest, prot, done)
    requires CatchallLast(InsertRule(rest, BypassRule(ip, 1)))
    ensures Switching(AddRule(rest, BypassRule(ip, 1)), prot + {ip}, done + [ip])
  {
    var b := BypassRule(ip, 1);
    var after := AddRule(rest, b);
    AddMembers(rest, b);
    assert b in after && IsBypass(b, ip);
    assert Hosts(done + [ip]) == Hosts(done) + {ip};
    CoveredBySuperset(rest, after, Hosts(done));
    forall p | p in Hosts(done + [ip]) ensures Covered(after, p) {}
  }

  lemma LastHost(ips: seq<Addr>)
    requires ips != [] && Distinct(ips)
    ensures var n := |ips| - 1;
      && ips[..n] + [ips[n]] == ips
      && ips[n] !in ips[..n]
      && Distinct(ips[..n])
      && Hosts(ips) == Hosts(ips[..n]) + {ips[n]}
  {
    var n := |ips| - 1;
    assert ips[..n] + [ips[n]] == ips;
  }

  lemma {:induction false} SwitchAddsAll(rules: seq<Rule>, prot: set<Prefix>, ips: seq<Addr>)
    requires Switching(rules, prot, []) && Distinct(ips)
    ensures Switching(WithServers(rules, ips), prot + Hosts(ips), ips)
    decreases |ips|
  {
    if ips == [] {
      assert prot + Hosts(ips) == prot;
    } else {
      var n, last := |ips| - 1, ips[|ips| - 1];
      var before := ips[..n];
      LastHost(ips);
      SwitchAddsAll(rules, prot, before);
      SwitchAddsOne(WithServers(rules, before), prot + Hosts(before), before, last);
      assert prot + Hosts(before) + {last} == prot + Hosts(ips);
    }
  }

  /** Every server IP takes one anchor of its own address, if there is one, and no other. */
  lemma {:induction false} AnchorsAfterServers(rules: seq<Rule>, prot: set<Prefix>, ips: seq<Addr>, p: Prefix)
    requires Switching(rules, prot, []) && Distinct(ips)
    ensures Anchors(WithServers(rules, ips), p)
         == Anchors(rules, p) - (if p in Hosts(ips) && Anchors(rules, p) > 0 then 1 else 0)
    decreases |ips|
  {
    if ips != [] {
      var last := ips[|ips| - 1];
      var earlier := ips[..|ips| - 1];
      LastHost(ips);
      AnchorsAfterServers(rules, prot, earlier, p);
      SwitchAddsAll(rules, prot, earlier);
      AnchorsAfterBypass(WithServers(rules, earlier), prot + Hosts(earlier), earlier, last, p);
    }
  }

  lemma AnchorsAfterBypass(rules: seq<Rule>, prot: set<Prefix>, done: seq<Addr>, ip: Addr, p: Prefix)
    requires Switching(rules, prot, done) && ip !in done
    ensures Anchors(Bypassed(rules, ip, 1), p) == Anchors(rules, p) - (if p == ip && Anchors(rules, p) > 0 then 1 else 0)
  {
    AnchorsRemove(rules, ip, p);
    AnchorsInsert(RemoveFirst(rules, To(ip)), BypassRule(ip, 1), p);
  }

  function StillAnchored(rules: seq<Rule>, prot: set<Prefix>): set<Prefix> {
    set p | p in prot && Anchors(rules, p) > 0
  }

  lemma SwitchingToPolicy(rules: seq<Rule>, prot: set<Prefix>, ips: seq<Addr>)
    requires Switching(rules, prot, ips)
    ensures Policy(rules, Hosts(ips) + StillAnchored(rules, prot))
  {
    var kept := Hosts(ips) + StillAnchored(rules, prot);
    forall r | r in rules && InBand(r) && r != CATCHALL && r != TORRENT ensures Bypasses(r, kept) {
      if r.priority != 1 {
        AnchorsPositive(rules, r.to.value);
        assert IsAnchor(r, r.to.value);
      }
    }
    forall p | p in kept ensures Covered(rules, p) {
      if p !in Hosts(ips) {
        AnchorsPositive(rules, p);
        var r :| r in rules && IsAnchor(r, p);
        assert Bypasses(r, prot);
        assert IsBypass(r, p);
      }
    }
  }

  /** One switch: the new servers are protected, and of the rest exactly what keeps an anchor. */
  lemma SwitchPolicy(rules: seq<Rule>, prot: set<Prefix>, ips: seq<Addr>)
    requires Policy(rules, prot) && PlainFront(rules) && Distinct(ips)
    ensures Policy(Switch(rules, ips), Hosts(ips) + StillAnchored(Switch(rules, ips), prot))
    ensures PlainFront(Switch(rules, ips))
  {
    SwitchDrains(rules, prot);
    var drained := Drop(rules, At(1));
    SwitchAddsAll(drained, prot, ips);
    var after := WithServers(drained, ips);
    SwitchingToPolicy(after, prot + Hosts(ips), ips);
    assert Hosts(ips) + StillAnchored(after, prot + Hosts(ips)) == Hosts(ips) + StillAnchored(after, prot);
  }

  lemma AnchorsAfterSwitch(rules: seq<Rule>, prot: set<Prefix>, ips: seq<Addr>, p: Prefix)
    requires Policy(rules, prot) && PlainFront(rules) && Distinct(ips)
    ensures Anchors(Switch(rules, ips), p)
         == Anchors(rules, p) - (if p in Hosts(ips) && Anchors(rules, p) > 0 then 1 else 0)
  {
    SwitchDrains(rules, prot);
    AnchorsDrop(rules, p);
    AnchorsAfterServers(Drop(rules, At(1)), prot, ips, p);
  }

  lemma AnchorsProtected(rules: seq<Rule>, prot: set<Prefix>, p: Prefix)
    requires Policy(rules, prot)
    ensures Anchors(rules, p) > 0 ==> p in prot
  {
    AnchorsPositive(rules, p);
    if Anchors(rules, p) > 0 {
      var r :| r in rules && IsAnchor(r, p);
      assert Bypasses(r, prot);
    }
  }

  /** What any number of switches protects: the last servers, and what had more anchors than it was a server. */
  function Kept(rules: seq<Rule>, prot: set<Prefix>, profiles: seq<seq<Addr>>): set<Prefix>
    requires profiles != []
  {
    Hosts(profiles[|profiles| - 1]) + Outlasting(rules, prot, profiles)
  }

  /** The entries of `base` with more anchors than profiles that used them as a server. */
  function Outlasting(rules: seq<Rule>, base: set<Prefix>, profiles: seq<seq<Addr>>): set<Prefix> {
    set p | p in base && Anchors(rules, p) > Times(p, profiles)
  }

  /** Any number of switches leaves the policy, protecting exactly `Kept`. */
  lemma {:induction false} SwitchesPolicy(rules: seq<Rule>, prot: set<Prefix>, profiles: seq<seq<Addr>>)
    requires Policy(rules, prot) && PlainFront(rules) && profiles != []
    requires forall i :: 0 <= i < |profiles| ==> Distinct(profiles[i])
    ensures Policy(Switches(rules, profiles), Kept(rules, prot, profiles)) && PlainFront(Switches(rules, profiles))
    decreases |profiles|, 1
  {
    var n := |profiles| - 1;
    var last := profiles[n];
    var before := Switches(rules, profiles[..n]);
    var earlier := if n == 0 then prot else Kept(rules, prot, profiles[..n]);
    if n == 0 {
      assert profiles[..0] == [];
    } else {
      SwitchesPolicy(rules, prot, profiles[..n]);
    }
    SwitchPolicy(before, earlier, last);
    var now := Hosts(last) + StillAnchored(Switch(before, last), earlier);
    forall p ensures p in now <==> p in Kept(rules, prot, profiles) {
      AnchorsAfterSwitches(rules, prot, profiles[..n], p);
      AnchorsAfterSwitch(before, earlier, last, p);
      AnchorsProtected(rules, prot, p);
      KeptByLast(rules, prot, profiles, before, earlier, p);
    }
    assert now == Kept(rules, prot, profiles);
  }

  /** An address is protected by the last switch of several exactly if it is by all of them. */
  lemma KeptByLast(rules: seq<Rule>, prot: set<Prefix>, profiles: seq<seq<Addr>>, before: seq<Rule>, earlier: set<Prefix>, p: Prefix)
    requires profiles != []
    requires var n := |profiles| - 1;
      && Anchors(before, p) == (if Anchors(rules, p) > Times(p, profiles[..n]) then Anchors(rules, p) - Times(p, profiles[..n]) else 0)
      && Anchors(Switch(before, profiles[n]), p)
         == Anchors(before, p) - (if p in Hosts(profiles[n]) && Anchors(before, p) > 0 then 1 else 0)
      && earlier == (if n == 0 then prot else Kept(rules, prot, profiles[..n]))
    requires Anchors(rules, p) > 0 ==> p in prot
    ensures p in Hosts(profiles[|profiles| - 1]) + StillAnchored(Switch(before, profiles[|profiles| - 1]), earlier)
      <==> p in Kept(rules, prot, profiles)
  {
    var n := |profiles| - 1;
    assert Times(p, profiles) == Times(p, profiles[..n]) + (if p in Hosts(profiles[n]) then 1 else 0);
  }

  lemma {:induction false} AnchorsAfterSwitches(rules: seq<Rule>, prot: set<Prefix>, profiles: seq<seq<Addr>>, p: Prefix)
    requires Policy(rules, prot) && PlainFront(rules)
    requires forall i :: 0 <= i < |profiles| ==> Distinct(profiles[i])
    ensures Anchors(Switches(rules, profiles), p)
         == if Anchors(rules, p) > Times(p, profiles) then Anchors(rules, p) - Times(p, profiles) else 0
    decreases |profiles|, 0
  {
    if profiles != [] {
      var n := |profiles| - 1;
      AnchorsAfterSwitches(rules, prot, profiles[..n], p);
      if n == 0 {
        assert profiles[..0] == [];
        AnchorsAfterSwitch(rules, prot, profiles[n], p);
      } else {
        SwitchesPolicy(rules, prot, profiles[..n]);
        AnchorsAfterSwitch(Switches(rules, profiles[..n]), Kept(rules, prot, profiles[..n]), profiles[n], p);
      }
    }
  }

  // ------------------------------------------- what bootstrap anchored to begin with

  ghost predicate Anchored(rules: seq<Rule>, p: Prefix) {
    exists r :: r in rules && IsAnchor(r, p)
  }

  lemma AnchoredByAdd(rules: seq<Rule>, keep: set<Prefix>, p: Prefix, priority: nat)
    requires 2 <= priority <= 30 && Sorted(rules)
    requires forall q :: q in keep && q != p ==> Anchored(rules, q)
    ensures forall q :: q in keep + {p} ==> Anchored(AddRule(rules, BypassRule(p, priority)), q)
  {
    var b := BypassRule(p, priority);
    AddMembers(rules, b);
    assert IsAnchor(b, p);
    forall q | q in keep + {p} ensures Anchored(AddRule(rules, b), q) {
      if q == p {
        assert b in AddRule(rules, b);
      } else {
        var r :| r in rules && IsAnchor(r, q);
        assert r in AddRule(rules, b);
      }
    }
  }

  lemma {:induction false} DnsAnchored(rules: seq<Rule>, prot: set<Prefix>, dns: seq<Addr>)
    requires Staged(rules, prot) && |dns| <= 28
    ensures forall p :: p in Hosts(dns) ==> Anchored(WithDns(rules, dns), p)
  {
    if dns != [] {
      var n := |dns| - 1;
      DnsAnchored(rules, prot, dns[..n]);
      DnsStaged(rules, prot, dns[..n]);
      var before := WithDns(rules, dns[..n]);
      var rest := RemoveFirst(before, To(dns[n]));
      RemoveMembers(before, To(dns[n]));
      RemoveSorted(before, To(dns[n]));
      forall q | q in Hosts(dns[..n]) && q != dns[n] ensures Anchored(rest, q) {
        var r :| r in before && IsAnchor(r, q);
        assert r in rest;
      }
      AnchoredByAdd(rest, Hosts(dns[..n]), dns[n], 3 + n);
      assert dns == dns[..n] + [dns[n]];
      assert Hosts(dns) == Hosts(dns[..n]) + {dns[n]};
    }
  }

  lemma RangesGrow(keep: set<Prefix>, lan: seq<Prefix>)
    requires lan != []
    ensures var n := |lan| - 1;
      keep + Ranges(lan) == keep + Ranges(lan[..n]) + {lan[n]}
  {
    var n := |lan| - 1;
    assert lan == lan[..n] + [lan[n]];
  }

  lemma {:induction false} LanAnchored(rules: seq<Rule>, prot: set<Prefix>, keep: set<Prefix>, lan: seq<Prefix>)
    requires Staged(rules, prot) && |lan| <= 21
    requires forall p :: p in keep ==> Anchored(rules, p)
    ensures forall p :: p in keep + Ranges(lan) ==> Anchored(WithLan(rules, lan), p)
  {
    if lan != [] {
      var n := |lan| - 1;
      LanAnchored(rules, prot, keep, lan[..n]);
      LanStaged(rules, prot, lan[..n]);
      AnchoredByAdd(WithLan(rules, lan[..n]), keep + Ranges(lan[..n]), lan[n], 10 + n);
      RangesGrow(keep, lan);
    }
  }

  /** Bootstrap anchors every DNS IP and every LAN subnet. */
  lemma RoutingAnchors(rules: seq<Rule>, servers: seq<Addr>, dns: seq<Addr>, lan: seq<Prefix>)
    requires Sorted(rules) && forall r :: r in rules ==> !InBand(r)
    requires |dns| <= 28 && |lan| <= 21
    ensures forall p :: p in Hosts(dns) + Ranges(lan) ==> Anchors(RoutingRules(rules, servers, dns, lan), p) > 0
  {
    assert Staged(rules, {});
    ServersStaged(rules, {}, servers);
    var s := WithServers(rules, servers);
    DnsStaged(s, {} + Hosts(servers), dns);
    DnsAnchored(s, {} + Hosts(servers), dns);
    var d := WithDns(s, dns);
    LanAnchored(d, {} + Hosts(servers) + Hosts(dns), Hosts(dns), lan);
    LanStaged(d, {} + Hosts(servers) + Hosts(dns), lan);
    var staged := WithLan(d, lan);
    AddMembers(staged, CATCHALL);
    var caught := AddRule(staged, CATCHALL);
    RemoveMembers(caught, TORRENT_SELECTOR);
    RemoveSorted(caught, TORRENT_SELECTOR);
    AddMembers(RemoveFirst(caught, TORRENT_SELECTOR), TORRENT);
    forall p | p in Hosts(dns) + Ranges(lan) ensures Anchors(RoutingRules(rules, servers, dns, lan), p) > 0 {
      var r :| r in staged && IsAnchor(r, p);
      assert r in caught && !Selects(TORRENT_SELECTOR, r);
      assert r in RoutingRules(rules, servers, dns, lan);
      AnchorsPositive(RoutingRules(rules, servers, dns, lan), p);
    }
  }

  /**
   Bootstrap, then any server switches: table main serves the last servers, mark 1 and
   the DNS and LAN entries that keep an anchor; all else takes the longest match in the
   VPN table.
   */
  lemma EgressAfterSwitches(
    rules: seq<Rule>, servers: seq<Addr>, dns: seq<Addr>, lan: seq<Prefix>, profiles: seq<seq<Addr>>,
    routes: map<Prefix, Hop>, resolves: (string, Addr) -> bool, pkt: Packet)
    requires Sorted(rules) && PlainFront(rules) && forall r :: r in rules ==> !InBand(r)
    requires |dns| <= 28 && |lan| <= 21 && [] in routes
    requires profiles != [] && forall i :: 0 <= i < |profiles| ==> Distinct(profiles[i])
    requires LeavesToDaemon(Switches(RoutingRules(rules, servers, dns, lan), profiles), routes, resolves, pkt)
    ensures var booted := RoutingRules(rules, servers, dns, lan);
      var kept := Hosts(profiles[|profiles| - 1]) + Outlasting(booted, Hosts(dns) + Ranges(lan), profiles);
      Lookup(routes, pkt.dst).Some?
      && Decide(Switches(booted, profiles), routes, resolves, pkt)
        == if Protected(kept, pkt) then InMain else Via(Lookup(routes, pkt.dst).value)
  {
    var booted := RoutingRules(rules, servers, dns, lan);
    var prot := Hosts(servers) + Hosts(dns) + Ranges(lan);
    RoutingInstallsPolicy(rules, servers, dns, lan);
    RoutingPlainFront(rules, servers, dns, lan);
    SwitchesPolicy(booted, prot, profiles);
    AnchoredOnly(rules, servers, dns, lan);
    assert Outlasting(booted, prot, profiles) == Outlasting(booted, Hosts(dns) + Ranges(lan), profiles);
    PolicyDecides(Switches(booted, profiles), Kept(booted, prot, profiles), routes, resolves, pkt);
  }

  /** No profile shares an address with DNS or a /32 LAN entry: the egress decision is kept. */
  lemma EgressKept(
    rules: seq<Rule>, servers: seq<Addr>, dns: seq<Addr>, lan: seq<Prefix>, profiles: seq<seq<Addr>>,
    routes: map<Prefix, Hop>, resolves: (string, Addr) -> bool, pkt: Packet)
    requires Sorted(rules) && PlainFront(rules) && forall r :: r in rules ==> !InBand(r)
    requires |dns| <= 28 && |lan| <= 21 && [] in routes
    requires profiles != [] && forall i :: 0 <= i < |profiles| ==> Distinct(profiles[i])
    requires forall i :: 0 <= i < |profiles| ==> Hosts(profiles[i]) !! Hosts(dns) + Ranges(lan)
    requires LeavesToDaemon(Switches(RoutingRules(rules, servers, dns, lan), profiles), routes, resolves, pkt)
    ensures Lookup(routes, pkt.dst).Some?
    ensures Decide(Switches(RoutingRules(rules, servers, dns, lan), profiles), routes, resolves, pkt)
        == if Protected(Hosts(profiles[|profiles| - 1]) + Hosts(dns) + Ranges(lan), pkt) then InMain
           else Via(Lookup(routes, pkt.dst).value)
  {
    EgressAfterSwitches(rules, servers, dns, lan, profiles, routes, resolves, pkt);
    RoutingAnchors(rules, servers, dns, lan);
    AllOutlast(RoutingRules(rules, servers, dns, lan), Hosts(dns) + Ranges(lan), profiles);
    var now := Hosts(profiles[|profiles| - 1]);
    assert now + (Hosts(dns) + Ranges(lan)) == now + Hosts(dns) + Ranges(lan);
  }

  lemma AllOutlast(rules: seq<Rule>, base: set<Prefix>, profiles: seq<seq<Addr>>)
    requires forall p :: p in base ==> Anchors(rules, p) > 0
    requires forall i :: 0 <= i < |profiles| ==> Hosts(profiles[i]) !! base
    ensures Outlasting(rules, base, profiles) == base
  {
    forall p | p in base ensures Times(p, profiles) == 0 {
      NeverAServer(p, profiles);
    }
  }

  /**
   Without that condition a DNS server's own bypass can be lost: listed once and not itself
   a LAN entry, it keeps a rule of its own over a run of switches if and only if no profile
   used it as a server or the last profile still does.
   */
  lemma DnsBypassKeptIff(
    rules: seq<Rule>, servers: seq<Addr>, dns: seq<Addr>, lan: seq<Prefix>, profiles: seq<seq<Addr>>, d: Addr)
    requires Sorted(rules) && PlainFront(rules) && forall r :: r in rules ==> !InBand(r)
    requires |dns| <= 28 && |lan| <= 21 && Distinct(dns)
    requires d in dns && d !in Ranges(lan)
    requires profiles != [] && forall i :: 0 <= i < |profiles| ==> Distinct(profiles[i])
    ensures Covered(Switches(RoutingRules(rules, servers, dns, lan), profiles), d)
      <==> d in profiles[|profiles| - 1] || forall i :: 0 <= i < |profiles| ==> d !in profiles[i]
  {
    var booted := RoutingRules(rules, servers, dns, lan);
    var prot := Hosts(servers) + Hosts(dns) + Ranges(lan);
    var after := Switches(booted, profiles);
    RoutingInstallsPolicy(rules, servers, dns, lan);
    RoutingPlainFront(rules, servers, dns, lan);
    SwitchesPolicy(booted, prot, profiles);
    DnsAnchorCount(rules, servers, dns, lan, d);
    TimesPositive(d, profiles);
    assert Covered(after, d) <==> d in Kept(booted, prot, profiles) by {
      if Covered(after, d) {
        var r :| r in after && IsBypass(r, d);
        assert Bypasses(r, Kept(booted, prot, profiles));
      }
    }
  }

  /** A LAN range larger than one address outlasts every switch. */
  lemma RangeOutlasts(
    rules: seq<Rule>, servers: seq<Addr>, dns: seq<Addr>, lan: seq<Prefix>, profiles: seq<seq<Addr>>, p: Prefix)
    requires Sorted(rules) && forall r :: r in rules ==> !InBand(r)
    requires |dns| <= 28 && |lan| <= 21 && p in Ranges(lan) && |p| < 32
    ensures p in Outlasting(RoutingRules(rules, servers, dns, lan), Hosts(dns) + Ranges(lan), profiles)
  {
    RoutingAnchors(rules, servers, dns, lan);
    NeverAServer(p, profiles);
  }

  /**
   After any switches table main decides about packets to a DNS server if and only if they
   are marked, a LAN range covers the server, the last profile uses it, or none ever did.
   They go around the VPN in these cases and where a route of the VPN table for the server
   leaves the tunnel, and in no other.
   */
  lemma DnsAroundVpnIff(
    rules: seq<Rule>, servers: seq<Addr>, dns: seq<Addr>, lan: seq<Prefix>, profiles: seq<seq<Addr>>,
    routes: map<Prefix, Hop>, resolves: (string, Addr) -> bool, pkt: Packet)
    requires Sorted(rules) && PlainFront(rules) && forall r :: r in rules ==> !InBand(r)
    requires |dns| <= 28 && |lan| <= 21 && [] in routes && Distinct(dns)
    requires pkt.dst in dns && pkt.dst !in Ranges(lan)
    requires profiles != [] && forall i :: 0 <= i < |profiles| ==> Distinct(profiles[i])
    requires LeavesToDaemon(Switches(RoutingRules(rules, servers, dns, lan), profiles), routes, resolves, pkt)
    ensures Decide(Switches(RoutingRules(rules, servers, dns, lan), profiles), routes, resolves, pkt) == InMain
      <==> || pkt.mark == 1
           || (exists p :: p in Ranges(lan) && p <= pkt.dst)
           || pkt.dst in profiles[|profiles| - 1]
           || (forall i :: 0 <= i < |profiles| ==> pkt.dst !in profiles[i])
    ensures Lookup(routes, pkt.dst).Some?
    ensures !Tunnels(Decide(Switches(RoutingRules(rules, servers, dns, lan), profiles), routes, resolves, pkt))
      <==> || pkt.mark == 1
           || (exists p :: p in Ranges(lan) && p <= pkt.dst)
           || pkt.dst in profiles[|profiles| - 1]
           || (forall i :: 0 <= i < |profiles| ==> pkt.dst !in profiles[i])
           || Lookup(routes, pkt.dst).value.dev != TUN
  {
    var booted := RoutingRules(rules, servers, dns, lan);
    var outlasting := Outlasting(booted, Hosts(dns) + Ranges(lan), profiles);
    var kept := Hosts(profiles[|profiles| - 1]) + outlasting;
    EgressAfterSwitches(rules, servers, dns, lan, profiles, routes, resolves, pkt);
    DnsAnchorCount(rules, servers, dns, lan, pkt.dst);
    TimesPositive(pkt.dst, profiles);
    assert pkt.dst in outlasting <==> forall i :: 0 <= i < |profiles| ==> pkt.dst !in profiles[i];
    forall p | p in kept && p <= pkt.dst && p !in Ranges(lan) ensures p == pkt.dst {
      assert |p| == 32;
    }
    forall p | p in Ranges(lan) && p <= pkt.dst ensures p in outlasting {
      assert |p| == 32 ==> p == pkt.dst;
      RangeOutlasts(rules, servers, dns, lan, profiles, p);
    }
  }

  lemma {:induction false} TimesPositive(p: Prefix, profiles: seq<seq<Addr>>)
    ensures Times(p, profiles) > 0 <==> exists i :: 0 <= i < |profiles| && p in Hosts(profiles[i])
  {
    if profiles != [] {
      var n := |profiles| - 1;
      TimesPositive(p, profiles[..n]);
      assert forall i :: 0 <= i < n ==> profiles[i] == profiles[..n][i];
      assert p in Hosts(profiles[n]) ==> exists i :: 0 <= i < |profiles| && p in Hosts(profiles[i]);
    }
  }

  lemma {:induction false} AnchorsOfAdd(rules: seq<Rule>, r: Rule, p: Prefix)
    ensures Anchors(InsertRule(rules, r), p) == Anchors(rules, p) + (if IsAnchor(r, p) then 1 else 0)
  {
    if rules != [] && rules[0].priority <= r.priority {
      AnchorsOfAdd(rules[1..], r, p);
    }
  }

  lemma {:induction false} AnchorsOfRemove(rules: seq<Rule>, sel: Selector, p: Prefix)
    ensures Anchors(RemoveFirst(rules, sel), p) <= Anchors(rules, p)
    ensures (forall r :: r in rules && Selects(sel, r) ==> r.to != Some(p)) ==>
      Anchors(RemoveFirst(rules, sel), p) == Anchors(rules, p)
  {
    if rules != [] {
      assert rules == [rules[0]] + rules[1..];
      if !Selects(sel, rules[0]) {
        AnchorsOfRemove(rules[1..], sel, p);
      }
    }
  }

  lemma {:induction false} DnsCount(rules: seq<Rule>, dns: seq<Addr>, d: Addr)
    requires Anchors(rules, d) == 0 && Distinct(dns) && |dns| <= 28
    ensures Anchors(WithDns(rules, dns), d) == if d in dns then 1 else 0
  {
    if dns != [] {
      var n := |dns| - 1;
      LastHost(dns);
      DnsCount(rules, dns[..n], d);
      var before := WithDns(rules, dns[..n]);
      var rest := RemoveFirst(before, To(dns[n]));
      var b := BypassRule(dns[n], 3 + n);
      AnchorsOfRemove(before, To(dns[n]), d);
      AnchorsOfAdd(rest, b, d);
      AnchorsPositive(rest, d);
      assert IsAnchor(b, dns[n]);
    }
  }

  lemma {:induction false} LanCount(rules: seq<Rule>, lan: seq<Prefix>, d: Addr)
    requires d !in lan
    ensures Anchors(WithLan(rules, lan), d) == Anchors(rules, d)
  {
    if lan != [] {
      var n := |lan| - 1;
      LanCount(rules, lan[..n], d);
      AnchorsOfAdd(WithLan(rules, lan[..n]), BypassRule(lan[n], 10 + n), d);
    }
  }

  lemma DnsAnchorCount(rules: seq<Rule>, servers: seq<Addr>, dns: seq<Addr>, lan: seq<Prefix>, d: Addr)
    requires Sorted(rules) && forall r :: r in rules ==> !InBand(r)
    requires |dns| <= 28 && |lan| <= 21 && Distinct(dns) && d in dns && d !in lan
    ensures Anchors(RoutingRules(rules, servers, dns, lan), d) == 1
  {
    var s := WithServers(rules, servers);
    ServersOrigin(rules, servers);
    AnchorsPositive(s, d);
    DnsCount(s, dns, d);
    var w := WithDns(s, dns);
    LanCount(w, lan, d);
    RoutingStaged(rules, {}, servers, dns, lan);
    EndKeepsAnchors(WithLan(w, lan), {} + Hosts(servers) + Hosts(dns) + Ranges(lan), d);
  }

  /** The catch-all and the torrent rule are nobody's anchor. */
  lemma EndKeepsAnchors(staged: seq<Rule>, prot: set<Prefix>, d: Addr)
    requires Staged(staged, prot)
    ensures Anchors(AddRule(RemoveFirst(AddRule(staged, CATCHALL), TORRENT_SELECTOR), TORRENT), d) == Anchors(staged, d)
  {
    AnchorsOfAdd(staged, CATCHALL, d);
    var caught := AddRule(staged, CATCHALL);
    AddMembers(staged, CATCHALL);
    AnchorsOfRemove(caught, TORRENT_SELECTOR, d);
    AnchorsOfAdd(RemoveFirst(caught, TORRENT_SELECTOR), TORRENT, d);
  }

  lemma {:induction false} NeverAServer(p: Prefix, profiles: seq<seq<Addr>>)
    requires forall i :: 0 <= i < |profiles| ==> p !in Hosts(profiles[i])
    ensures Times(p, profiles) == 0
  {
    if profiles != [] {
      NeverAServer(p, profiles[..|profiles| - 1]);
    }
  }

  /** A server IP's own bypass sits at priority 1, so it is no anchor. */
  lemma AnchoredOnly(rules: seq<Rule>, servers: seq<Addr>, dns: seq<Addr>, lan: seq<Prefix>)
    requires forall r :: r in rules && InBand(r) ==> r.priority == 1
    ensures forall p :: Anchors(RoutingRules(rules, servers, dns, lan), p) > 0 ==> p in Hosts(dns) + Ranges(lan)
  {
    forall p | Anchors(RoutingRules(rules, servers, dns, lan), p) > 0 ensures p in Hosts(dns) + Ranges(lan) {
      AnchorsPositive(RoutingRules(rules, servers, dns, lan), p);
      var r :| r in RoutingRules(rules, servers, dns, lan) && IsAnchor(r, p);
      RoutingOrigin(rules, servers, dns, lan, r);
    }
  }

  lemma RoutingOrigin(rules: seq<Rule>, servers: seq<Addr>, dns: seq<Addr>, lan: seq<Prefix>, r: Rule)
    requires r in RoutingRules(rules, servers, dns, lan)
    ensures
      || r in rules || r == CATCHALL || r == TORRENT
      || (r.to.Some? && (
          || (r.to.value in Hosts(servers) && r.priority == 1)
          || r.to.value in Hosts(dns) + Ranges(lan)))
  {
    var s := WithServers(rules, servers);
    var d := WithDns(s, dns);
    var l := WithLan(d, lan);
    InsertMembers(l, CATCHALL);
    var caught := AddRule(l, CATCHALL);
    RemoveMembers(caught, TORRENT_SELECTOR);
    InsertMembers(RemoveFirst(caught, TORRENT_SELECTOR), TORRENT);
    LanOrigin(d, lan);
    DnsOrigin(s, dns);
    ServersOrigin(rules, servers);
  }

  lemma {:induction false} ServersOrigin(rules: seq<Rule>, ips: seq<Addr>)
    ensures forall r :: r in WithServers(rules, ips) ==>
      r in rules || (r.to.Some? && r.to.value in Hosts(ips) && r.priority == 1)
  {
    if ips != [] {
      var n := |ips| - 1;
      ServersOrigin(rules, ips[..n]);
      RemoveMembers(WithServers(rules, ips[..n]), To(ips[n]));
      InsertMembers(RemoveFirst(WithServers(rules, ips[..n]), To(ips[n])), BypassRule(ips[n], 1));
    }
  }

  lemma {:induction false} DnsOrigin(rules: seq<Rule>, ips: seq<Addr>)
    ensures forall r :: r in WithDns(rules, ips) ==> r in rules || (r.to.Some? && r.to.value in Hosts(ips) && r.priority >= 3)
  {
    if ips != [] {
      var n := |ips| - 1;
      DnsOrigin(rules, ips[..n]);
      RemoveMembers(WithDns(rules, ips[..n]), To(ips[n]));
      InsertMembers(RemoveFirst(WithDns(rules, ips[..n]), To(ips[n])), BypassRule(ips[n], 3 + n));
    }
  }

  lemma {:induction false} LanOrigin(rules: seq<Rule>, subnets: seq<Prefix>)
    ensures forall r :: r in WithLan(rules, subnets) ==>
      r in rules || (r.to.Some? && r.to.value in Ranges(subnets) && r.priority >= 10)
  {
    if subnets != [] {
      var n := |subnets| - 1;
      LanOrigin(rules, subnets[..n]);
      InsertMembers(WithLan(rules, subnets[..n]), BypassRule(subnets[n], 10 + n));
    }
  }

  lemma RoutingPlainFront(rules: seq<Rule>, servers: seq<Addr>, dns: seq<Addr>, lan: seq<Prefix>)
    requires PlainFront(rules)
    ensures PlainFront(RoutingRules(rules, servers, dns, lan))
  {
    forall r | r in RoutingRules(rules, servers, dns, lan) && r.priority == 0 ensures r.to == None {
      var s := WithServers(rules, servers);
      var d := WithDns(s, dns);
      var l := WithLan(d, lan);
      InsertMembers(l, CATCHALL);
      var caught := AddRule(l, CATCHALL);
      RemoveMembers(caught, TORRENT_SELECTOR);
      InsertMembers(RemoveFirst(caught, TORRENT_SELECTOR), TORRENT);
      LanOrigin(d, lan);
      DnsOrigin(s, dns);
      ServersOrigin(rules, servers);
    }
  }

  // ------------------------------------- the rules a switch should not touch

  /** The rules of every other priority, after deleting the first match of each IP in turn. */
  function Forget(others: seq<Rule>, ips: seq<Addr>): seq<Rule> {
    if ips == [] then others else RemoveFirst(Forget(others, ips[..|ips| - 1]), To(ips[|ips| - 1]))
  }

  predicate Hits(others: seq<Rule>, ips: seq<Addr>) {
    exists r :: r in others && r.to.Some? && r.to.value in Hosts(ips)
  }

  lemma {:induction false} ForgetIff(others: seq<Rule>, ips: seq<Addr>)
    ensures !Hits(others, ips) ==> Forget(others, ips) == others
    ensures Hits(others, ips) ==> |Forget(others, ips)| < |others|
  {
    if ips != [] {
      var n := |ips| - 1;
      ForgetIff(others, ips[..n]);
      RemoveLength(Forget(others, ips[..n]), To(ips[n]));
      assert ips == ips[..n] + [ips[n]];
      assert Hosts(ips) == Hosts(ips[..n]) + {ips[n]};
      if Hits(others, ips) && !Hits(others, ips[..n]) {
        var r :| r in others && r.to.Some? && r.to.value in Hosts(ips);
        assert Selects(To(ips[n]), r);
      }
    }
  }

  /** Past a head of priority 1 that is not for `dst`, deletion and the filter commute. */
  lemma {:induction false} RemoveCommutes(rules: seq<Rule>, dst: Prefix)
    requires forall r :: r in rules && r.priority == 1 ==> r.to != Some(dst)
    ensures Drop(RemoveFirst(rules, To(dst)), At(1)) == RemoveFirst(Drop(rules, At(1)), To(dst))
  {
    if rules != [] {
      assert rules == [rules[0]] + rules[1..];
      if !Selects(To(dst), rules[0]) {
        RemoveCommutes(rules[1..], dst);
        if rules[0].priority == 1 {
          assert Drop(rules, At(1)) == Drop(rules[1..], At(1));
        }
      }
    }
  }

  lemma {:induction false} OthersAfterServers(rules: seq<Rule>, ips: seq<Addr>)
    requires Distinct(ips) && forall r :: r in rules ==> r.priority != 1
    ensures Drop(WithServers(rules, ips), At(1)) == Forget(rules, ips)
  {
    if ips == [] {
      DropNothing(rules, At(1));
    } else {
      var n := |ips| - 1;
      OthersAfterServers(rules, ips[..n]);
      ServersOrigin(rules, ips[..n]);
      var before := WithServers(rules, ips[..n]);
      RemoveCommutes(before, ips[n]);
      RemoveMembers(before, To(ips[n]));
      DropInsert(RemoveFirst(before, To(ips[n])), BypassRule(ips[n], 1), At(1));
    }
  }

  /** No switch leaves more rules outside priority 1 than it found. */
  lemma SwitchOthers(rules: seq<Rule>, ips: seq<Addr>)
    requires Distinct(ips)
    ensures Drop(Switch(rules, ips), At(1)) == Forget(Drop(rules, At(1)), ips)
  {
    DropMembers(rules, At(1));
    OthersAfterServers(Drop(rules, At(1)), ips);
  }

  /** One more profile: the others are spared so far and by it, or some are gone for good. */
  lemma SparedByOneMore(others: seq<Rule>, before: seq<Rule>, ips: seq<Addr>)
    requires |before| <= |others| && (|before| == |others| ==> before == others)
    ensures Forget(before, ips) == others <==> before == others && !Hits(others, ips)
    ensures |Forget(before, ips)| <= |others|
    ensures |Forget(before, ips)| == |others| ==> Forget(before, ips) == others
  {
    ForgetIff(before, ips);
  }

  /** No profile names a server that one of the rules is for. */
  ghost predicate AllSpare(others: seq<Rule>, profiles: seq<seq<Addr>>) {
    forall i :: 0 <= i < |profiles| ==> !Hits(others, profiles[i])
  }

  lemma AllSpareSplit(others: seq<Rule>, profiles: seq<seq<Addr>>)
    requires profiles != []
    ensures var n := |profiles| - 1;
      AllSpare(others, profiles) <==> AllSpare(others, profiles[..n]) && !Hits(others, profiles[n])
  {
    var n := |profiles| - 1;
    assert forall i :: 0 <= i < n ==> profiles[i] == profiles[..n][i];
  }

  /**
   A run of switches leaves every rule of another priority as it was if and only if
   no profile names a server that one of those rules is for.
   */
  lemma {:induction false} SwitchesSpareOthersIff(rules: seq<Rule>, profiles: seq<seq<Addr>>)
    requires forall i :: 0 <= i < |profiles| ==> Distinct(profiles[i])
    ensures Drop(Switches(rules, profiles), At(1)) == Drop(rules, At(1)) <==> AllSpare(Drop(rules, At(1)), profiles)
    ensures |Drop(Switches(rules, profiles), At(1))| <= |Drop(rules, At(1))|
    ensures |Drop(Switches(rules, profiles), At(1))| == |Drop(rules, At(1))|
      ==> Drop(Switches(rules, profiles), At(1)) == Drop(rules, At(1))
    decreases |profiles|
  {
    if profiles != [] {
      var n := |profiles| - 1;
      var before := Switches(rules, profiles[..n]);
      SwitchesSpareOthersIff(rules, profiles[..n]);
      SwitchOthers(before, profiles[n]);
      SparedByOneMore(Drop(rules, At(1)), Drop(before, At(1)), profiles[n]);
      AllSpareSplit(Drop(rules, At(1)), profiles);
    }
  }
}
