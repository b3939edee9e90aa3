/** What a sanitised configuration is free of, and what sanitising leaves as it was. */
module Supported {
  import opened Profile
  import opened Sanitizing
  import opened Wrappers
  import DnsServers
  import Tags

  // ------------------------------------------------------------ what sing-box accepts

  /** A group, by the two spellings of its type that carry a list of members. */
  predicate Grouped(o: Outbound) {
    o.kind == Some("urltest") || o.kind == Some("selector")
  }

  predicate OutboundSupported(o: Outbound) {
    Grouped(o) || o.kind == Some("url-test") ==> o.default == None
  }

  /** The file a rule set's tag is cached under. */
  predicate CachedAs(tag: string, path: string) {
    && |path| == |"/var/lib/sing-box/"| + |tag| + |".srs"|
    && "/var/lib/sing-box/" <= path
    && path[|path| - |".srs"|..] == ".srs"
    && forall i :: 0 <= i < |tag| ==> path[|"/var/lib/sing-box/"| + i] == if tag[i] == ':' then '-' else tag[i]
  }

  /** No remote rule set whose file is cached. */
  ghost predicate SetSupported(rs: RuleSet, cache: set<string>) {
    rs.kind == Some("remote") ==> forall path :: CachedAs(OrElse(rs.tag, ""), path) ==> path !in cache
  }

  ghost predicate Supported(p: Profile, cache: set<string>) {
    && p.experimental.statistics == None && p.route.sniff == None && p.route.sniffOverride == None
    && (forall r <- p.rules :: r.name == None)
    && (forall r <- p.dnsRules :: r.name == None)
    && (forall s <- p.dnsServers :: s.kind != Some("batch") && s.kind != Some("predefined"))
    && (forall o <- p.outbounds :: OutboundSupported(o))
    && (forall rs <- p.ruleSets :: SetSupported(rs, cache))
  }

  predicate IsNormal(name: string) {
    Tags.NormalizeTag(name) == name
  }

  predicate OutboundNormal(o: Outbound) {
    && (o.tag.Some? ==> IsNormal(o.tag.value))
    && (Grouped(o) ==> forall k :: 0 <= k < |o.members| ==> IsNormal(o.members[k]))
  }

  /** Tags and the references to them are in normal form. */
  ghost predicate NamesNormal(p: Profile) {
    && (forall o <- p.outbounds :: OutboundNormal(o))
    && (forall r <- p.rules :: r.outbound.Some? ==> IsNormal(r.outbound.value))
    && (p.route.final.Some? ==> IsNormal(p.route.final.value))
  }

  lemma CachePathTold(tag: string, path: string)
    ensures CachedAs(tag, path) <==> path == CachePath(tag)
  {
    var prefix, suffix := "/var/lib/sing-box/", ".srs";
    assert CachePath(tag) == prefix + Dashed(tag) + suffix;
    if CachedAs(tag, path) {
      var middle := path[|prefix|..|path| - |suffix|];
      assert middle == Dashed(tag);
      assert path == prefix + middle + suffix;
    }
  }

  lemma PlainNamesNormal()
    ensures IsNormal("") && IsNormal(SWITCH_TAG)
  {
    Tags.PlainTagUnchanged("");
    Tags.PlainTagUnchanged(SWITCH_TAG);
  }

  // ------------------------------------------------------------------ main results

  lemma OutboundTold(o: Outbound)
    ensures OutboundSupported(SanitizedOutbound(o))
    ensures SanitizedOutbound(o) == o <==> OutboundSupported(o) && OutboundNormal(o)
  {
    var after := SanitizedOutbound(o);
    assert after.tag == o.tag <==> (o.tag.Some? ==> IsNormal(o.tag.value));
    if Grouped(o) {
      forall k | 0 <= k < |o.members| ensures after.members[k] == o.members[k] <==> IsNormal(o.members[k]) {
      }
    }
  }

  lemma SetTold(rs: RuleSet, cache: set<string>)
    ensures SetSupported(Localized(rs, cache), cache)
    ensures Localized(rs, cache) == rs <==> SetSupported(rs, cache)
  {
    var tag := OrElse(rs.tag, "");
    CachePathTold(tag, CachePath(tag));
    forall path | CachedAs(tag, path) ensures path == CachePath(tag) {
      CachePathTold(tag, path);
    }
  }

  lemma RuleTold(r: Rule)
    ensures SanitizedRule(r).name == None
    ensures SanitizedRule(r) == r <==> r.name == None && (r.outbound.Some? ==> IsNormal(r.outbound.value))
  {
    PlainNamesNormal();
  }

  lemma HeadTold(h: RouteHead)
    ensures SanitizedHead(h).sniff == None && SanitizedHead(h).sniffOverride == None
    ensures SanitizedHead(h) == h <==>
      h.sniff == None && h.sniffOverride == None && (h.final.Some? ==> IsNormal(h.final.value))
  {
    PlainNamesNormal();
  }

  lemma ServersTold(servers: seq<DnsServer>)
    ensures SanitizedServers(servers) == servers
       <==> forall s <- servers :: s.kind != Some("batch") && s.kind != Some("predefined")
  {
    DnsServers.ServersReplaced(servers);
    DnsServers.KeptFromServers(servers);
    if SanitizedServers(servers) == servers {
      DnsServers.NoneLeft(servers);
    } else if forall s <- servers :: s.kind != Some("batch") && s.kind != Some("predefined") {
      AllKept(servers);
      assert forall i :: 0 <= i < |servers| ==> SanitizedServers(servers)[i] == servers[i];
    }
  }

  lemma {:induction false} AllKept(servers: seq<DnsServer>)
    requires forall s <- servers :: s.kind != Some("predefined")
    ensures DnsServers.Kept(servers) == servers
  {
    if servers != [] {
      AllKept(servers[1..]);
    }
  }

  /** Nothing the runtime does not support is left. */
  lemma SanitizeSupports(p: Profile, cache: set<string>)
    ensures Supported(Sanitize(p, cache), cache)
  {
    var q := Sanitize(p, cache);
    DnsServers.NoneUnsupported(p, cache);
    HeadTold(p.route);
    forall r | r in q.rules ensures r.name == None {
      var i :| 0 <= i < |q.rules| && q.rules[i] == r;
      RuleTold(p.rules[i]);
    }
    forall o | o in q.outbounds ensures OutboundSupported(o) {
      var i :| 0 <= i < |q.outbounds| && q.outbounds[i] == o;
      OutboundTold(p.outbounds[i]);
    }
    forall rs | rs in q.ruleSets ensures SetSupported(rs, cache) {
      var i :| 0 <= i < |q.ruleSets| && q.ruleSets[i] == rs;
      SetTold(p.ruleSets[i], cache);
    }
  }

  lemma OutboundsTold(outbounds: seq<Outbound>)
    ensures SanitizedOutbounds(outbounds) == outbounds
       <==> forall o <- outbounds :: OutboundSupported(o) && OutboundNormal(o)
  {
    forall i | 0 <= i < |outbounds|
      ensures SanitizedOutbounds(outbounds)[i] == outbounds[i]
         <==> OutboundSupported(outbounds[i]) && OutboundNormal(outbounds[i])
    {
      OutboundTold(outbounds[i]);
    }
    if forall o <- outbounds :: OutboundSupported(o) && OutboundNormal(o) {
      assert forall i :: 0 <= i < |outbounds| ==> SanitizedOutbounds(outbounds)[i] == outbounds[i];
    }
  }

  lemma RulesTold(rules: seq<Rule>)
    ensures SanitizedRules(rules) == rules
       <==> forall r <- rules :: r.name == None && (r.outbound.Some? ==> IsNormal(r.outbound.value))
  {
    forall i | 0 <= i < |rules|
      ensures SanitizedRules(rules)[i] == rules[i]
         <==> rules[i].name == None && (rules[i].outbound.Some? ==> IsNormal(rules[i].outbound.value))
    {
      RuleTold(rules[i]);
    }
    if forall r <- rules :: r.name == None && (r.outbound.Some? ==> IsNormal(r.outbound.value)) {
      assert forall i :: 0 <= i < |rules| ==> SanitizedRules(rules)[i] == rules[i];
    }
  }

  lemma SetsTold(ruleSets: seq<RuleSet>, cache: set<string>)
    ensures LocalizedSets(ruleSets, cache) == ruleSets <==> forall rs <- ruleSets :: SetSupported(rs, cache)
  {
    forall i | 0 <= i < |ruleSets|
      ensures LocalizedSets(ruleSets, cache)[i] == ruleSets[i] <==> SetSupported(ruleSets[i], cache)
    {
      SetTold(ruleSets[i], cache);
    }
    if forall rs <- ruleSets :: SetSupported(rs, cache) {
      assert forall i :: 0 <= i < |ruleSets| ==> LocalizedSets(ruleSets, cache)[i] == ruleSets[i];
    }
  }

  lemma DnsRulesTold(rules: seq<DnsRule>)
    ensures NamelessDnsRules(rules) == rules <==> forall r <- rules :: r.name == None
  {
    forall i | 0 <= i < |rules| ensures NamelessDnsRules(rules)[i] == rules[i] <==> rules[i].name == None {
    }
    if forall r <- rules :: r.name == None {
      assert forall i :: 0 <= i < |rules| ==> NamelessDnsRules(rules)[i] == rules[i];
    }
  }

  /** Sanitising leaves a configuration alone if and only if it is supported already and its names are normal. */
  lemma SanitizeUnchangedIff(p: Profile, cache: set<string>)
    ensures Sanitize(p, cache) == p <==> Supported(p, cache) && NamesNormal(p)
  {
    OutboundsTold(p.outbounds);
    HeadTold(p.route);
    RulesTold(p.rules);
    SetsTold(p.ruleSets, cache);
    ServersTold(p.dnsServers);
    DnsRulesTold(p.dnsRules);
  }

  // --------------------------------------------------------------- what stays

  /** A rule set is the same, or a cached one that is now read from its file. */
  ghost predicate SetKept(rs: RuleSet, after: RuleSet, cache: set<string>) {
    if SetSupported(rs, cache) then after == rs
    else
      && after.path.Some? && CachedAs(OrElse(rs.tag, ""), after.path.value)
      && after == RuleSet(Some("local"), rs.tag, after.path, None, None, None, rs.other)
  }

  predicate OutboundKept(o: Outbound, after: Outbound) {
    && after == o.(tag := after.tag, members := after.members, default := after.default)
    && (after.tag.None? <==> o.tag.None?) && (o.tag.Some? ==> after.tag.value == Tags.NormalizeTag(o.tag.value))
    && (!Grouped(o) ==> after.members == o.members)
    && (!Grouped(o) && o.kind != Some("url-test") ==> after.default == o.default)
  }

  /** Besides names, what the runtime does not support, and the cached rule sets, everything is as it was. */
  lemma RestKept(p: Profile, cache: set<string>)
    ensures var q := Sanitize(p, cache);
      && |q.outbounds| == |p.outbounds| && (forall i :: 0 <= i < |p.outbounds| ==> OutboundKept(p.outbounds[i], q.outbounds[i]))
      && |q.rules| == |p.rules| && (forall i :: 0 <= i < |p.rules| ==>
            q.rules[i] == p.rules[i].(name := None, outbound := q.rules[i].outbound))
      && |q.ruleSets| == |p.ruleSets| && (forall i :: 0 <= i < |p.ruleSets| ==> SetKept(p.ruleSets[i], q.ruleSets[i], cache))
      && |q.dnsRules| == |p.dnsRules| && (forall i :: 0 <= i < |p.dnsRules| ==> q.dnsRules[i] == p.dnsRules[i].(name := None))
      && q.route == p.route.(final := q.route.final, sniff := None, sniffOverride := None)
      && q.experimental == p.experimental.(statistics := None) && q.other == p.other
  {
    var q := Sanitize(p, cache);
    forall i | 0 <= i < |p.ruleSets| ensures SetKept(p.ruleSets[i], q.ruleSets[i], cache) {
      SetTold(p.ruleSets[i], cache);
      var tag := OrElse(p.ruleSets[i].tag, "");
      CachePathTold(tag, CachePath(tag));
      assert q.ruleSets[i] == Localized(p.ruleSets[i], cache);
    }
    forall i | 0 <= i < |p.outbounds| ensures OutboundKept(p.outbounds[i], q.outbounds[i]) {
      assert q.outbounds[i] == SanitizedOutbound(p.outbounds[i]);
    }
    forall i | 0 <= i < |p.rules| ensures q.rules[i] == p.rules[i].(name := None, outbound := q.rules[i].outbound) {
      assert q.rules[i] == SanitizedRule(p.rules[i]);
    }
  }
}
