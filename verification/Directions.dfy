/** Which way a loaded route points, from the lists of the configuration alone. */
module Directions {
  import opened Wrappers
  import opened Network
  import opened Rules
  import opened Subnets
  import opened Egress
  import opened Routes
  import opened Loading
  import opened Lifecycle
  import opened Daemon
  import opened EgressRuns
  import Text

  // ---------------------------------------------------------------- what the lists hold

  ghost predicate Listed(texts: seq<string>, t: string) {
    IsIpv4Text(t) && t in texts
  }

  ghost predicate ListedLine(lines: seq<string>, t: string) {
    IsIpv4Text(t) && exists i :: 0 <= i < |lines| && Text.Strip(lines[i]) == t
  }

  ghost predicate IsHostOf(ips: seq<string>, t: string) {
    exists ip :: ip in ips && t == ip + "/32"
  }

  /** One of the answers to the queries for `domains`, the first of them number `first`. */
  ghost predicate Answered(domains: seq<string>, dns: Dns, first: nat, t: string) {
    exists i :: 0 <= i < |domains| && IsHostOf(dns(first + i, domains[i]), t)
  }

  /** The text comes from the RU list, a bypass subnet or a bypass domain. */
  ghost predicate Bypassed(s: Sources, dns: Dns, t: string) {
    || (s.ru.Some? && ListedLine(s.ru.value, t))
    || Listed(s.bypassSubnets, t)
    || (s.dnsOk && Answered(s.bypassDomains, dns, 0, t))
  }

  /** The text comes from a forced subnet, domain or wildcard. */
  ghost predicate Forced(s: Sources, dns: Dns, t: string) {
    || Listed(s.vpnSubnets, t)
    || (s.dnsOk && Answered(s.vpnDomains, dns, |s.bypassDomains|, t))
    || (s.dnsOk && Answered(Expanded(s.vpnWildcards), dns, |s.bypassDomains| + |s.vpnDomains|, t))
  }

  /** Without a gateway's address the route is one to the interface. */
  function AroundVpn(s: Sources): Hop {
    if s.gateway == "" then Device(s.interface) else Gateway(s.gateway, s.interface)
  }

  predicate IsTld(tld: string) {
    tld in ["lu", "is", "fi", "nl", "me", "shop", "cc", "to", "li", "se", "ch"]
  }

  ghost predicate StandsFor(wildcard: string, name: string) {
    Text.Contains(wildcard, ".*") && exists tld :: IsTld(tld) && name == Text.Erase(wildcard, ".*") + "." + tld
  }

  lemma {:induction false} TldNames(base: string, n: nat, name: string)
    requires n <= |COMMON_TLDS|
    ensures name in WithTlds(base, n) <==> exists k :: 0 <= k < n && name == base + "." + COMMON_TLDS[k]
  {
    if n > 0 {
      TldNames(base, n - 1, name);
      assert COMMON_TLDS[n - 1] == COMMON_TLDS[n - 1];
    }
  }

  lemma WildcardNames(wildcard: string, name: string)
    requires Text.Contains(wildcard, ".*")
    ensures name in WithTlds(Text.Erase(wildcard, ".*"), |COMMON_TLDS|) <==> StandsFor(wildcard, name)
  {
    var base := Text.Erase(wildcard, ".*");
    TldNames(base, |COMMON_TLDS|, name);
    if StandsFor(wildcard, name) {
      var tld :| IsTld(tld) && name == base + "." + tld;
      var k :| 0 <= k < |COMMON_TLDS| && COMMON_TLDS[k] == tld;
    }
    if k :| 0 <= k < |COMMON_TLDS| && name == base + "." + COMMON_TLDS[k] {
      assert IsTld(COMMON_TLDS[k]);
    }
  }

  /** A pattern with ".*" stands for its base under each of the eleven domains; other patterns for nothing. */
  lemma {:induction false} ExpandedNames(wildcards: seq<string>, name: string)
    ensures name in Expanded(wildcards) <==> exists w :: w in wildcards && StandsFor(w, name)
  {
    if wildcards != [] {
      var front, w := wildcards[..|wildcards| - 1], wildcards[|wildcards| - 1];
      assert wildcards == front + [w];
      ExpandedNames(front, name);
      if Text.Contains(w, ".*") {
        WildcardNames(w, name);
      }
      assert w in wildcards;
    }
  }

  // --------------------------------------------------------- what the stream offers

  /** Every entry goes to the target, and the texts are those of the list. */
  ghost predicate Aimed(entries: seq<RouteEntry>, via: Option<string>, dev: string, tableId: string) {
    forall i :: 0 <= i < |entries| ==> entries[i] == RouteEntry(entries[i].subnet, via, dev, tableId)
  }

  lemma SeenBoth(a: seq<RouteEntry>, b: seq<RouteEntry>, t: string)
    ensures SeenText(a + b, t) <==> SeenText(a, t) || SeenText(b, t)
  {
    var all := a + b;
    if SeenText(a, t) {
      var i :| 0 <= i < |a| && a[i].subnet == t;
      assert all[i].subnet == t;
    }
    if SeenText(b, t) {
      var i :| 0 <= i < |b| && b[i].subnet == t;
      assert all[|a| + i].subnet == t;
    }
  }

  lemma SeenThrice(a: seq<RouteEntry>, b: seq<RouteEntry>, c: seq<RouteEntry>, t: string)
    ensures SeenText(a + b + c, t) <==> SeenText(a, t) || SeenText(b, t) || SeenText(c, t)
  {
    SeenBoth(a + b, c, t);
    SeenBoth(a, b, t);
  }

  lemma SeenOne(e: RouteEntry, t: string)
    ensures SeenText([e], t) <==> e.subnet == t
  {
    assert [e][0] == e;
  }

  lemma {:induction false} SubnetsOffered(texts: seq<string>, x: Target, t: string)
    ensures Aimed(SubnetCandidates(texts, x), x.via, x.dev, x.tableId)
    ensures SeenText(SubnetCandidates(texts, x), t) <==> Listed(texts, t)
  {
    if texts != [] {
      var front, last := texts[..|texts| - 1], texts[|texts| - 1];
      assert texts == front + [last];
      SubnetsOffered(front, x, t);
      var tail := if IsIpv4Text(last) then [EntryFor(last, x)] else [];
      SeenBoth(SubnetCandidates(front, x), tail, t);
      SeenOne(EntryFor(last, x), t);
    }
  }

  lemma {:induction false} HostsOffered(ips: seq<string>, x: Target, t: string)
    ensures Aimed(HostCandidates(ips, x), x.via, x.dev, x.tableId)
    ensures SeenText(HostCandidates(ips, x), t) <==> IsHostOf(ips, t)
  {
    if ips != [] {
      var front, last := ips[..|ips| - 1], ips[|ips| - 1];
      assert ips == front + [last];
      HostsOffered(front, x, t);
      SeenBoth(HostCandidates(front, x), [EntryFor(last + "/32", x)], t);
      SeenOne(EntryFor(last + "/32", x), t);
    }
  }

  lemma {:induction false} DomainsOffered(domains: seq<string>, x: Target, dns: Dns, first: nat, t: string)
    ensures Aimed(DomainCandidates(domains, x, dns, first), x.via, x.dev, x.tableId)
    ensures SeenText(DomainCandidates(domains, x, dns, first), t) <==> Answered(domains, dns, first, t)
  {
    if domains != [] {
      var n := |domains| - 1;
      DomainsOffered(domains[..n], x, dns, first, t);
      HostsOffered(dns(first + n, domains[n]), x, t);
      SeenBoth(DomainCandidates(domains[..n], x, dns, first), HostCandidates(dns(first + n, domains[n]), x), t);
      AnsweredLast(domains, dns, first, t);
    }
  }

  lemma AnsweredLast(domains: seq<string>, dns: Dns, first: nat, t: string)
    requires domains != []
    ensures var n := |domains| - 1;
      Answered(domains, dns, first, t) <==> (Answered(domains[..n], dns, first, t) || IsHostOf(dns(first + n, domains[n]), t))
  {
    var n := |domains| - 1;
    var front := domains[..n];
    assert forall i :: 0 <= i < n ==> front[i] == domains[i];
    if Answered(front, dns, first, t) {
      var i :| 0 <= i < |front| && IsHostOf(dns(first + i, front[i]), t);
      assert front[i] == domains[i];
    }
    if Answered(domains, dns, first, t) {
      var i :| 0 <= i < |domains| && IsHostOf(dns(first + i, domains[i]), t);
      assert i < n ==> front[i] == domains[i];
    }
  }

  lemma {:induction false} StrippedAt(lines: seq<string>, t: string)
    ensures t in Stripped(lines) <==> exists i :: 0 <= i < |lines| && Text.Strip(lines[i]) == t
  {
    if lines != [] {
      var front := lines[..|lines| - 1];
      StrippedAt(front, t);
      assert forall i :: 0 <= i < |front| ==> front[i] == lines[i];
    }
  }

  lemma BypassOffered(s: Sources, dns: Dns, t: string)
    ensures Aimed(BypassCandidates(s, dns), Some(s.gateway), s.interface, s.tableId)
    ensures SeenText(BypassCandidates(s, dns), t) <==> Bypassed(s, dns, t)
  {
    var x := Target(Some(s.gateway), s.interface, s.tableId);
    var lines := if s.ru.Some? then Stripped(s.ru.value) else [];
    var a, b, c := SubnetCandidates(lines, x), SubnetCandidates(s.bypassSubnets, x), Resolved(s.dnsOk, s.bypassDomains, x, dns, 0);
    SubnetsOffered(lines, x, t);
    SubnetsOffered(s.bypassSubnets, x, t);
    ResolvedOffered(s.dnsOk, s.bypassDomains, x, dns, 0, t);
    if s.ru.Some? {
      StrippedAt(s.ru.value, t);
    }
    SeenThrice(a, b, c, t);
    AimedThrice(a, b, c, x);
  }

  lemma ResolvedOffered(dnsOk: bool, domains: seq<string>, x: Target, dns: Dns, first: nat, t: string)
    ensures Aimed(Resolved(dnsOk, domains, x, dns, first), x.via, x.dev, x.tableId)
    ensures SeenText(Resolved(dnsOk, domains, x, dns, first), t) <==> dnsOk && Answered(domains, dns, first, t)
  {
    DomainsOffered(domains, x, dns, first, t);
  }

  lemma AimedThrice(a: seq<RouteEntry>, b: seq<RouteEntry>, c: seq<RouteEntry>, x: Target)
    requires Aimed(a, x.via, x.dev, x.tableId) && Aimed(b, x.via, x.dev, x.tableId) && Aimed(c, x.via, x.dev, x.tableId)
    ensures Aimed(a + b + c, x.via, x.dev, x.tableId)
  {
  }

  lemma ForcedOffered(s: Sources, dns: Dns, t: string)
    ensures Aimed(ForcedCandidates(s, dns, |s.bypassDomains|), None, "tun0", s.tableId)
    ensures SeenText(ForcedCandidates(s, dns, |s.bypassDomains|), t) <==> Forced(s, dns, t)
  {
    var x := Target(None, "tun0", s.tableId);
    var first := |s.bypassDomains|;
    var a := SubnetCandidates(s.vpnSubnets, x);
    var b := Resolved(s.dnsOk, s.vpnDomains, x, dns, first);
    var c := Resolved(s.dnsOk, Expanded(s.vpnWildcards), x, dns, first + |s.vpnDomains|);
    SubnetsOffered(s.vpnSubnets, x, t);
    ResolvedOffered(s.dnsOk, s.vpnDomains, x, dns, first, t);
    ResolvedOffered(s.dnsOk, Expanded(s.vpnWildcards), x, dns, first + |s.vpnDomains|, t);
    SeenThrice(a, b, c, t);
    AimedThrice(a, b, c, x);
  }

  // ------------------------------------------------------------ what the loader keeps

  lemma {:induction false} FirstOfEach(entries: seq<RouteEntry>, t: string)
    ensures SeenText(FirstTexts(entries), t) <==> SeenText(entries, t)
    ensures forall i, j :: 0 <= i < j < |FirstTexts(entries)| ==> FirstTexts(entries)[i].subnet != FirstTexts(entries)[j].subnet
  {
    if entries != [] {
      var front, last := entries[..|entries| - 1], entries[|entries| - 1];
      assert entries == front + [last];
      FirstOfEach(front, t);
      FirstOfEach(front, last.subnet);
      SeenBoth(front, [last], t);
      SeenOne(last, t);
      SeenBoth(FirstTexts(front), [last], t);
      if !SeenText(front, last.subnet) {
        assert forall i :: 0 <= i < |FirstTexts(front)| ==> FirstTexts(front)[i].subnet != last.subnet;
      }
    }
  }

  lemma {:induction false} FirstsOfBoth(a: seq<RouteEntry>, b: seq<RouteEntry>, e: RouteEntry)
    requires e in FirstTexts(a + b)
    ensures if SeenText(a, e.subnet) then e in a else e in b
  {
    if b == [] {
      assert a + b == a;
      FirstsAreOld(a, e);
    } else {
      var front, last := b[..|b| - 1], b[|b| - 1];
      assert (a + b)[..|a + b| - 1] == a + front && (a + b)[|a + b| - 1] == last;
      if e in FirstTexts(a + front) {
        FirstsOfBoth(a, front, e);
      } else {
        SeenBoth(a, front, e.subnet);
        assert last in b;
      }
    }
  }

  lemma {:induction false} FirstsAreOld(entries: seq<RouteEntry>, e: RouteEntry)
    requires e in FirstTexts(entries)
    ensures e in entries && SeenText(entries, e.subnet)
  {
    var front := entries[..|entries| - 1];
    if e in FirstTexts(front) {
      FirstsAreOld(front, e);
      assert e in entries;
    }
    var i :| 0 <= i < |entries| && entries[i] == e;
  }

  /** The hop of a kept entry: a text of a bypass list goes around the VPN, even if it is forced as well. */
  lemma KeptEntryPoints(s: Sources, dns: Dns, e: RouteEntry)
    requires e in FirstTexts(Candidates(s, dns))
    ensures HopOf(e) == if Bypassed(s, dns, e.subnet) then AroundVpn(s) else Device("tun0")
    ensures e.tableId == s.tableId
  {
    var a, b := BypassCandidates(s, dns), ForcedCandidates(s, dns, |s.bypassDomains|);
    FirstsOfBoth(a, b, e);
    BypassOffered(s, dns, e.subnet);
    ForcedOffered(s, dns, e.subnet);
  }

  /** Every valid text of every list is kept once, and nothing else. */
  lemma KeptTexts(s: Sources, dns: Dns, t: string)
    ensures SeenText(FirstTexts(Candidates(s, dns)), t) <==> Bypassed(s, dns, t) || Forced(s, dns, t)
    ensures forall i, j :: 0 <= i < j < |FirstTexts(Candidates(s, dns))| ==>
      FirstTexts(Candidates(s, dns))[i].subnet != FirstTexts(Candidates(s, dns))[j].subnet
  {
    var a, b := BypassCandidates(s, dns), ForcedCandidates(s, dns, |s.bypassDomains|);
    FirstOfEach(a + b, t);
    SeenBoth(a, b, t);
    BypassOffered(s, dns, t);
    ForcedOffered(s, dns, t);
  }

  // ---------------------------------------------------------------- where packets go

  ghost predicate BypassedPrefix(s: Sources, dns: Dns, p: Prefix) {
    exists t :: Bypassed(s, dns, t) && Parse(t) == Some(p)
  }

  ghost predicate ForcedPrefix(s: Sources, dns: Dns, p: Prefix) {
    exists t :: Forced(s, dns, t) && Parse(t) == Some(p)
  }

  /** The longest listed prefix of the address, of length `n` at most, is one of a bypass list. */
  ghost predicate GoesAround(s: Sources, dns: Dns, a: Addr, n: nat)
    requires n <= 32
  {
    BypassedPrefix(s, dns, a[..n]) || (!ForcedPrefix(s, dns, a[..n]) && n > 0 && GoesAround(s, dns, a, n - 1))
  }

  /** No route covers the address more tightly than the one that decides, or as tightly before it. */
  lemma DeciderBeats(routes: seq<Route>, a: Addr, i: nat, j: nat, p: Prefix)
    requires Decides(routes, a, i)
    requires j < |routes| && routes[j].dst == Some(p) && p <= a
    ensures |p| < |routes[i].dst.value| || (|p| == |routes[i].dst.value| && i <= j)
  {
    assert Covers(routes[j], a);
  }

  function Stream(b: seq<RouteEntry>, c: seq<RouteEntry>): seq<Route> {
    Meanings(b + c) + [DEFAULT]
  }

  lemma StreamAt(b: seq<RouteEntry>, c: seq<RouteEntry>)
    ensures |Stream(b, c)| == |b| + |c| + 1
    ensures forall j :: 0 <= j < |b| ==> Stream(b, c)[j].dst == Parse(b[j].subnet)
    ensures forall k :: 0 <= k < |c| ==> Stream(b, c)[|b| + k].dst == Parse(c[k].subnet)
  {
    assert forall j :: 0 <= j < |b| ==> (b + c)[j] == b[j];
    assert forall k :: 0 <= k < |c| ==> (b + c)[|b| + k] == c[k];
  }

  lemma NoLongerBypass(b: seq<RouteEntry>, c: seq<RouteEntry>, a: Addr, i: nat, t: string, p: Prefix)
    requires Decides(Stream(b, c), a, i)
    requires SeenText(b, t) && Parse(t) == Some(p) && p <= a
    ensures var m := |Stream(b, c)[i].dst.value|;
      |p| < m || (|p| == m && i < |b|)
  {
    var j :| 0 <= j < |b| && b[j].subnet == t;
    StreamAt(b, c);
    DeciderBeats(Stream(b, c), a, i, j, p);
  }

  lemma NoLongerForced(b: seq<RouteEntry>, c: seq<RouteEntry>, a: Addr, i: nat, t: string, p: Prefix)
    requires Decides(Stream(b, c), a, i)
    requires SeenText(c, t) && Parse(t) == Some(p) && p <= a
    ensures var m := |Stream(b, c)[i].dst.value|;
      |p| < m || (|p| == m && i < |b| + |c|)
  {
    var k :| 0 <= k < |c| && c[k].subnet == t;
    StreamAt(b, c);
    DeciderBeats(Stream(b, c), a, i, |b| + k, p);
  }

  lemma DeciderPoints(s: Sources, dns: Dns, a: Addr, i: nat)
    requires Decides(Meanings(Candidates(s, dns)) + [DEFAULT], a, i)
    ensures var r := (Meanings(Candidates(s, dns)) + [DEFAULT])[i];
      && r.hop == (if i < |BypassCandidates(s, dns)| then AroundVpn(s) else Device("tun0"))
      && (i < |BypassCandidates(s, dns)| ==> BypassedPrefix(s, dns, r.dst.value))
      && (|BypassCandidates(s, dns)| <= i < |Candidates(s, dns)| ==> ForcedPrefix(s, dns, r.dst.value))
      && (i == |Candidates(s, dns)| ==> r.dst.value == [])
  {
    var es, all := Candidates(s, dns), Meanings(Candidates(s, dns)) + [DEFAULT];
    var b, c := BypassCandidates(s, dns), ForcedCandidates(s, dns, |s.bypassDomains|);
    if i < |es| {
      var e := es[i];
      assert all[i] == Meaning(e);
      BypassOffered(s, dns, e.subnet);
      ForcedOffered(s, dns, e.subnet);
      if i < |b| {
        assert b[i] == e && SeenText(b, e.subnet);
      } else {
        assert c[i - |b|] == e && SeenText(c, e.subnet);
      }
    }
  }

  /** With `p` the longest listed prefix of the address, the walk down to it finds out whether it is bypassed. */
  lemma {:induction false} LongestFound(s: Sources, dns: Dns, a: Addr, p: Prefix, n: nat)
    requires p <= a && |p| <= n <= 32
    requires forall k :: |p| < k <= 32 ==> !BypassedPrefix(s, dns, a[..k]) && !ForcedPrefix(s, dns, a[..k])
    requires BypassedPrefix(s, dns, p) || ForcedPrefix(s, dns, p) || p == []
    ensures GoesAround(s, dns, a, n) <==> BypassedPrefix(s, dns, p)
  {
    assert a[..|p|] == p;
    if n > |p| {
      LongestFound(s, dns, a, p, n - 1);
    }
  }

  lemma DeciderIsLongest(s: Sources, dns: Dns, a: Addr, i: nat)
    requires Decides(Meanings(Candidates(s, dns)) + [DEFAULT], a, i)
    ensures var p := (Meanings(Candidates(s, dns)) + [DEFAULT])[i].dst.value;
      && p <= a
      && (forall k :: |p| < k <= 32 ==> !BypassedPrefix(s, dns, a[..k]) && !ForcedPrefix(s, dns, a[..k]))
      && (BypassedPrefix(s, dns, p) ==> i < |BypassCandidates(s, dns)|)
  {
    var b, c := BypassCandidates(s, dns), ForcedCandidates(s, dns, |s.bypassDomains|);
    var p := Stream(b, c)[i].dst.value;
    assert a[..|p|] == p;
    forall k | |p| <= k <= 32 && BypassedPrefix(s, dns, a[..k]) ensures k == |p| && i < |b| {
      var t :| Bypassed(s, dns, t) && Parse(t) == Some(a[..k]);
      BypassOffered(s, dns, t);
      NoLongerBypass(b, c, a, i, t, a[..k]);
    }
    forall k | |p| <= k <= 32 && ForcedPrefix(s, dns, a[..k]) ensures k == |p| {
      var t :| Forced(s, dns, t) && Parse(t) == Some(a[..k]);
      ForcedOffered(s, dns, t);
      NoLongerForced(b, c, a, i, t, a[..k]);
    }
  }

  /** The deciding candidate points around the VPN exactly when the longest listed prefix is bypassed. */
  lemma HopByLists(s: Sources, dns: Dns, a: Addr, i: nat)
    requires Decides(Meanings(Candidates(s, dns)) + [DEFAULT], a, i)
    ensures (Meanings(Candidates(s, dns)) + [DEFAULT])[i].hop
         == if GoesAround(s, dns, a, 32) then AroundVpn(s) else Device("tun0")
  {
    DeciderIsLongest(s, dns, a, i);
    DeciderPoints(s, dns, a, i);
    LongestFound(s, dns, a, (Meanings(Candidates(s, dns)) + [DEFAULT])[i].dst.value, 32);
  }

  /**
   After bootstrap, a packet that is neither for a server, a DNS address or the LAN nor marked
   goes to the gateway if the longest prefix of its destination in the lists is bypassed, and
   into the tunnel if that prefix is only forced, or none is listed.
   */
  lemma EgressByLists(h: Host, p: Plan, s: Sources, dns: Dns, resolves: (string, Addr) -> bool, pkt: Packet)
    requires Sorted(h.rules) && (forall r :: r in h.rules ==> !InBand(r)) && h.routes == map[]
    requires |p.dns| <= 28 && |p.lan| <= 21
    requires p.kept == FirstTexts(Candidates(s, dns))
    requires var after := Run(h, RoutingCommands(p));
      LeavesToDaemon(after.rules, after.routes, resolves, pkt)
    ensures var after := Run(h, RoutingCommands(p));
      Decide(after.rules, after.routes, resolves, pkt)
        == if Protected(Hosts(p.servers) + Hosts(p.dns) + Ranges(p.lan), pkt) then InMain
           else if GoesAround(s, dns, pkt.dst, 32) then Via(AroundVpn(s))
           else Via(Device("tun0"))
  {
    var i := EgressAfterBootstrap(h, p, s, dns, resolves, pkt);
    HopByLists(s, dns, pkt.dst, i);
  }

  /** The same in HEALTHY and DEGRADED of every regular run, as long as no route call has come since the last teardown. */
  lemma EgressByListsInRuns(h: Host, acts: seq<Action>, s: Sources, dns: Dns, resolves: (string, Addr) -> bool, pkt: Packet)
    requires Regular(h, acts) && LoadedFrom(TrailOf(h, acts), Candidates(s, dns))
    requires var d := After(Boots(h), acts);
      d.state in {Healthy, Degraded} && LeavesToDaemon(d.host.rules, d.host.routes, resolves, pkt)
    ensures var d := After(Boots(h), acts);
      && TrailOf(h, acts).plan.Some?
      && Decide(d.host.rules, d.host.routes, resolves, pkt)
        == if Protected(Exempt(TrailOf(h, acts)), pkt) then InMain
           else if GoesAround(s, dns, pkt.dst, 32) then Via(AroundVpn(s))
           else Via(Device("tun0"))
  {
    var i := EgressByCandidates(h, acts, s, dns, resolves, pkt);
    HopByLists(s, dns, pkt.dst, i);
  }
}
