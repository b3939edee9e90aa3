/** When bootstrap spares the rules of the host that are not the daemon's. */
module Sparing {
  import opened Wrappers
  import opened Network
  import opened Rules
  import opened Egress

  /** The band holds destinations from `done` only; the rest is whole, or already short. */
  ghost predicate Sparing(rules: seq<Rule>, foreign: seq<Rule>, done: set<Prefix>) {
    && (forall r :: r in rules && InBand(r) && r.to.Some? ==> r.to.value in done)
    && (|Outside(rules)| < |foreign| ||
        (Outside(rules) == foreign && forall r :: r in foreign && r.to.Some? ==> r.to.value !in done))
  }

  lemma {:induction false} OutsideShrinks(rules: seq<Rule>, sel: Selector)
    ensures |Outside(RemoveFirst(rules, sel))| <= |Outside(rules)|
    ensures (exists r :: r in rules && Selects(sel, r)) && (forall r :: r in rules && Selects(sel, r) ==> !InBand(r))
      ==> |Outside(RemoveFirst(rules, sel))| < |Outside(rules)|
  {
    if rules != [] {
      OutsideShrinks(rules[1..], sel);
      assert rules == [rules[0]] + rules[1..];
    }
  }

  /** Deleting `to dst` takes one of the host's rules unless the band has its own, or none is for it. */
  lemma SparingBypass(rules: seq<Rule>, foreign: seq<Rule>, done: set<Prefix>, dst: Prefix, priority: nat)
    requires Sparing(rules, foreign, done) && 1 <= priority <= 30
    ensures Sparing(Bypassed(rules, dst, priority), foreign, done + {dst})
  {
    var rest := RemoveFirst(rules, To(dst));
    var b := BypassRule(dst, priority);
    RemoveMembers(rules, To(dst));
    InsertMembers(rest, b);
    DropInsert(rest, b, Band(1, 30));
    OutsideShrinks(rules, To(dst));
    DropMembers(rules, Band(1, 30));
    if |Outside(rules)| == |foreign| {
      if exists r :: r in foreign && r.to == Some(dst) {
        var r :| r in foreign && r.to == Some(dst);
        assert r in rules && Selects(To(dst), r);
        assert dst !in done;
      } else {
        DropRemove(rules, To(dst), Band(1, 30));
      }
    }
  }

  lemma {:induction false} SparingServers(rules: seq<Rule>, foreign: seq<Rule>, done: set<Prefix>, ips: seq<Addr>)
    requires Sparing(rules, foreign, done)
    ensures Sparing(WithServers(rules, ips), foreign, done + Hosts(ips))
  {
    if ips == [] {
      assert done + Hosts(ips) == done;
    } else {
      var n := |ips| - 1;
      SparingServers(rules, foreign, done, ips[..n]);
      SparingBypass(WithServers(rules, ips[..n]), foreign, done + Hosts(ips[..n]), ips[n], 1);
      assert ips == ips[..n] + [ips[n]];
      assert done + Hosts(ips[..n]) + {ips[n]} == done + Hosts(ips);
    }
  }

  lemma {:induction false} SparingDns(rules: seq<Rule>, foreign: seq<Rule>, done: set<Prefix>, ips: seq<Addr>)
    requires Sparing(rules, foreign, done) && |ips| <= 28
    ensures Sparing(WithDns(rules, ips), foreign, done + Hosts(ips))
  {
    if ips == [] {
      assert done + Hosts(ips) == done;
    } else {
      var n := |ips| - 1;
      SparingDns(rules, foreign, done, ips[..n]);
      SparingBypass(WithDns(rules, ips[..n]), foreign, done + Hosts(ips[..n]), ips[n], 3 + n);
      assert ips == ips[..n] + [ips[n]];
      assert done + Hosts(ips[..n]) + {ips[n]} == done + Hosts(ips);
    }
  }

  lemma {:induction false} LanSpares(rules: seq<Rule>, subnets: seq<Prefix>)
    requires |subnets| <= 21
    ensures Outside(WithLan(rules, subnets)) == Outside(rules)
  {
    if subnets != [] {
      var n := |subnets| - 1;
      LanSpares(rules, subnets[..n]);
      DropInsert(WithLan(rules, subnets[..n]), BypassRule(subnets[n], 10 + n), Band(1, 30));
    }
  }

  lemma FinalRulesSpare(staged: seq<Rule>)
    ensures Outside(AddRule(RemoveFirst(AddRule(staged, CATCHALL), TORRENT_SELECTOR), TORRENT)) == Outside(staged)
  {
    var caught := AddRule(staged, CATCHALL);
    DropInsert(staged, CATCHALL, Band(1, 30));
    DropRemove(caught, TORRENT_SELECTOR, Band(1, 30));
    DropInsert(RemoveFirst(caught, TORRENT_SELECTOR), TORRENT, Band(1, 30));
  }

  /**
   `ip rule del to IP` names no priority. On a host with an empty band, bootstrap leaves
   the host's own rules alone if and only if none of them is for a server or DNS address.
   */
  lemma BootstrapSparesIff(rules: seq<Rule>, servers: seq<Addr>, dns: seq<Addr>, lan: seq<Prefix>)
    requires forall r :: r in rules ==> !InBand(r)
    requires |dns| <= 28 && |lan| <= 21
    ensures Outside(RoutingRules(rules, servers, dns, lan)) == rules
      <==> forall r :: r in rules && r.to.Some? ==> r.to.value !in Hosts(servers) + Hosts(dns)
  {
    DropNothing(rules, Band(1, 30));
    assert Sparing(rules, rules, {});
    SparingServers(rules, rules, {}, servers);
    SparingDns(WithServers(rules, servers), rules, {} + Hosts(servers), dns);
    LanSpares(WithDns(WithServers(rules, servers), dns), lan);
    FinalRulesSpare(WithLan(WithDns(WithServers(rules, servers), dns), lan));
    assert {} + Hosts(servers) + Hosts(dns) == Hosts(servers) + Hosts(dns);
    AvoidedRulesStay(rules, servers, dns);
  }

  lemma AvoidedRulesStay(rules: seq<Rule>, servers: seq<Addr>, dns: seq<Addr>)
    requires forall r :: r in rules ==> !InBand(r)
    requires |dns| <= 28
    requires Sparing(WithDns(WithServers(rules, servers), dns), rules, Hosts(servers) + Hosts(dns))
    ensures (forall r :: r in rules && r.to.Some? ==> r.to.value !in Hosts(servers) + Hosts(dns)) ==>
      Outside(WithDns(WithServers(rules, servers), dns)) == rules
  {
    if forall r :: r in rules && r.to.Some? ==> r.to.value !in Hosts(servers) + Hosts(dns) {
      DropNothing(rules, Band(1, 30));
      BypassesSpare(rules, rules, servers, dns);
    }
  }

  lemma {:induction false} BypassesSpare(rules: seq<Rule>, foreign: seq<Rule>, servers: seq<Addr>, dns: seq<Addr>)
    requires Outside(rules) == foreign && |dns| <= 28
    requires forall r :: r in foreign && r.to.Some? ==> r.to.value !in Hosts(servers) + Hosts(dns)
    ensures Outside(WithDns(WithServers(rules, servers), dns)) == foreign
    decreases |servers| + |dns|
  {
    if dns != [] {
      var n := |dns| - 1;
      assert dns == dns[..n] + [dns[n]];
      BypassesSpare(rules, foreign, servers, dns[..n]);
      OneBypassSpares(WithDns(WithServers(rules, servers), dns[..n]), foreign, dns[n], 3 + n);
    } else if servers != [] {
      var n := |servers| - 1;
      assert servers == servers[..n] + [servers[n]];
      BypassesSpare(rules, foreign, servers[..n], []);
      OneBypassSpares(WithServers(rules, servers[..n]), foreign, servers[n], 1);
    }
  }

  lemma OneBypassSpares(rules: seq<Rule>, foreign: seq<Rule>, dst: Prefix, priority: nat)
    requires Outside(rules) == foreign && 1 <= priority <= 30
    requires forall r :: r in foreign ==> r.to != Some(dst)
    ensures Outside(Bypassed(rules, dst, priority)) == foreign
  {
    DropMembers(rules, Band(1, 30));
    DropRemove(rules, To(dst), Band(1, 30));
    DropInsert(RemoveFirst(rules, To(dst)), BypassRule(dst, priority), Band(1, 30));
  }
}
