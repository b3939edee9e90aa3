/** What a pinned and sanitised configuration means. */
module Pinning {
  import opened Profile
  import opened Sanitizing
  import opened Wrappers
  import Catalog
  import Provider
  import Tags
  import Text

  /** The criteria a packet meets. */
  type Packet = set<Criteria>

  /** The first rule that matches, or the number of rules. */
  function Chosen(rules: seq<Rule>, p: Packet): (r: nat)
    ensures r <= |rules|
  {
    if rules == [] || rules[0].criteria in p then 0 else 1 + Chosen(rules[1..], p)
  }

  /** The outbound a packet is sent to: that of the first matching rule, else the final one. */
  function Outlet(p: Profile, packet: Packet): Option<string> {
    var i := Chosen(p.rules, packet);
    if i < |p.rules| then p.rules[i].outbound else p.route.final
  }

  /** The outbound a name stands for: the first one of that tag. */
  function Position(outbounds: seq<Outbound>, name: string): (r: Option<nat>)
    ensures r.Some? ==> r.value < |outbounds| && outbounds[r.value].tag == Some(name)
    ensures r.Some? ==> forall i :: 0 <= i < r.value ==> outbounds[i].tag != Some(name)
    ensures r.None? ==> forall i :: 0 <= i < |outbounds| ==> outbounds[i].tag != Some(name)
  {
    if outbounds == [] then None
    else
      var front := Position(outbounds[..|outbounds| - 1], name);
      if front.Some? then front
      else if outbounds[|outbounds| - 1].tag == Some(name) then Some(|outbounds| - 1)
      else None
  }

  predicate Known(outbounds: seq<Outbound>, name: string) {
    Position(outbounds, name).Some?
  }

  /** No two different tags of the profile have the same normal form. */
  ghost predicate Injective(outbounds: seq<Outbound>) {
    forall o, q :: o in outbounds && q in outbounds && o.tag.Some? && q.tag.Some? && Normalized(o.tag) == Normalized(q.tag) ==>
      o.tag == q.tag
  }

  // ------------------------------------------------------------------------ names

  lemma TagsAfter(outbounds: seq<Outbound>)
    ensures |SanitizedOutbounds(outbounds)| == |outbounds|
    ensures forall i :: 0 <= i < |outbounds| ==> SanitizedOutbounds(outbounds)[i].tag == Normalized(outbounds[i].tag)
  {
  }

  /** A name that stood for some outbound still does, after normalisation. */
  lemma KnownAfter(outbounds: seq<Outbound>, name: string)
    requires Known(outbounds, name)
    ensures Known(SanitizedOutbounds(outbounds), Tags.NormalizeTag(name))
  {
    TagsAfter(outbounds);
    var i := Position(outbounds, name).value;
    assert SanitizedOutbounds(outbounds)[i].tag == Some(Tags.NormalizeTag(name));
  }

  lemma SamePosition(outbounds: seq<Outbound>, name: string)
    requires Injective(outbounds) && Known(outbounds, name)
    ensures Position(SanitizedOutbounds(outbounds), Tags.NormalizeTag(name)) == Position(outbounds, name)
  {
    TagsAfter(outbounds);
    KnownAfter(outbounds, name);
    var i := Position(outbounds, name).value;
    var j := Position(SanitizedOutbounds(outbounds), Tags.NormalizeTag(name)).value;
    assert outbounds[i] in outbounds && outbounds[j] in outbounds;
    assert Normalized(outbounds[j].tag) == Normalized(outbounds[i].tag);
  }

  /** Every name stands for the outbound it stood for if and only if normalisation tells the tags apart. */
  lemma NamesResolveIff(outbounds: seq<Outbound>)
    ensures (forall name :: Known(outbounds, name) ==>
               Position(SanitizedOutbounds(outbounds), Tags.NormalizeTag(name)) == Position(outbounds, name))
       <==> Injective(outbounds)
  {
    if Injective(outbounds) {
      forall name | Known(outbounds, name)
        ensures Position(SanitizedOutbounds(outbounds), Tags.NormalizeTag(name)) == Position(outbounds, name)
      {
        SamePosition(outbounds, name);
      }
    } else {
      var o, q :| o in outbounds && q in outbounds && o.tag.Some? && q.tag.Some?
               && Normalized(o.tag) == Normalized(q.tag) && o.tag != q.tag;
      var a, b := o.tag.value, q.tag.value;
      assert Known(outbounds, a) && Known(outbounds, b);
      assert Position(outbounds, a) != Position(outbounds, b);
    }
  }

  lemma SwitchTagIsNormal()
    ensures Tags.NormalizeTag(SWITCH_TAG) == SWITCH_TAG
  {
    Tags.PlainTagUnchanged(SWITCH_TAG);
  }

  // ------------------------------------------------------------- which rule matches

  lemma {:induction false} SameChoice(a: seq<Rule>, b: seq<Rule>, p: Packet)
    requires |a| == |b| && forall i :: 0 <= i < |a| ==> a[i].criteria == b[i].criteria
    ensures Chosen(a, p) == Chosen(b, p)
  {
    if a != [] {
      assert a[0].criteria == b[0].criteria;
      SameChoice(a[1..], b[1..], p);
    }
  }

  /** Sanitising a reference in a rule: the exception for the switch tag changes nothing. */
  lemma RuleReference(r: Rule)
    ensures SanitizedRule(r).outbound == NormalizedReference(r.outbound) && SanitizedRule(r).criteria == r.criteria
  {
    SwitchTagIsNormal();
  }

  lemma OutletAfter(p: Profile, packet: Packet, cache: set<string>)
    ensures Outlet(Sanitize(p, cache), packet) == NormalizedReference(Outlet(p, packet))
    ensures Chosen(Sanitize(p, cache).rules, packet) == Chosen(p.rules, packet)
  {
    forall i | 0 <= i < |p.rules|
      ensures SanitizedRules(p.rules)[i].outbound == NormalizedReference(p.rules[i].outbound)
      ensures SanitizedRules(p.rules)[i].criteria == p.rules[i].criteria
    {
      RuleReference(p.rules[i]);
    }
    SameChoice(SanitizedRules(p.rules), p.rules, packet);
  }

  lemma OutletPinned(p: Profile, packet: Packet, target: string)
    ensures Outlet(Pin(p, target), packet) == PinnedName(Outlet(p, packet), target)
    ensures Chosen(Pin(p, target).rules, packet) == Chosen(p.rules, packet)
  {
    SameChoice(Pin(p, target).rules, p.rules, packet);
  }

  // ------------------------------------------------------------------ main results

  /** An outbound but for its tag, members and default. */
  predicate SameOutbound(o: Outbound, q: Outbound) {
    q == o.(tag := q.tag, members := q.members, default := q.default) && |q.members| == |o.members|
  }

  /** A rule but for its outbound and name. */
  predicate SameRule(r: Rule, q: Rule) {
    q == r.(outbound := q.outbound, name := q.name)
  }

  /** Nothing but names, DNS servers, rule sets and the fields sanitising removes has changed. */
  ghost predicate OtherwiseSame(p: Profile, q: Profile) {
    && |q.outbounds| == |p.outbounds| && (forall i :: 0 <= i < |p.outbounds| ==> SameOutbound(p.outbounds[i], q.outbounds[i]))
    && |q.rules| == |p.rules| && (forall i :: 0 <= i < |p.rules| ==> SameRule(p.rules[i], q.rules[i]))
    && q.route.other == p.route.other && q.experimental.other == p.experimental.other && q.other == p.other
  }

  lemma PinnedOtherwiseSame(p: Profile, target: string, cache: set<string>)
    ensures OtherwiseSame(p, Sanitize(Pin(p, target), cache))
  {
    var q := Sanitize(Pin(p, target), cache);
    forall i | 0 <= i < |p.rules| ensures SameRule(p.rules[i], q.rules[i]) {
      assert q.rules[i] == SanitizedRule(PinnedRule(p.rules[i], target));
    }
    forall i | 0 <= i < |p.outbounds| ensures SameOutbound(p.outbounds[i], q.outbounds[i]) {
      assert q.outbounds[i] == SanitizedOutbound(p.outbounds[i]);
    }
  }

  /**
   Nothing else changed, and for every packet the same rule matches before and after; where the profile used the
   switch group the configuration uses the target, and where it used any other outbound
   it still uses that one.
   */
  lemma PinningPreservesMeaning(p: Profile, target: string, cache: set<string>, packet: Packet)
    requires Injective(p.outbounds) && Known(p.outbounds, target) && target != ""
    ensures var q := Sanitize(Pin(p, target), cache);
      && OtherwiseSame(p, q)
      && Chosen(q.rules, packet) == Chosen(p.rules, packet)
      && (Outlet(q, packet).None? <==> Outlet(p, packet).None?)
      && (Outlet(p, packet) == Some("urltest_out") ==>
            Position(q.outbounds, Outlet(q, packet).value) == Position(p.outbounds, target))
      && (Outlet(p, packet).Some? && Outlet(p, packet) != Some("urltest_out") && Known(p.outbounds, Outlet(p, packet).value) ==>
            Position(q.outbounds, Outlet(q, packet).value) == Position(p.outbounds, Outlet(p, packet).value))
  {
    PinnedOtherwiseSame(p, target, cache);
    OutletPinned(p, packet, target);
    OutletAfter(Pin(p, target), packet, cache);
    SamePosition(p.outbounds, target);
    var o := Outlet(p, packet);
    if o.Some? && o != Some(SWITCH_TAG) && Known(p.outbounds, o.value) {
      SamePosition(p.outbounds, o.value);
      EmptyIsNormal();
    }
  }

  lemma EmptyIsNormal()
    ensures Tags.NormalizeTag("") == ""
  {
    Tags.PlainTagUnchanged("");
  }

  /**
   The configuration built for a server name sends exactly the packets of the switch group
   to that server's outbound, and leaves every other packet where it was.
   */
  lemma BuiltConfigurationMeans(p: Profile, name: string, cache: set<string>, packet: Packet)
    requires Injective(p.outbounds) && Provider.Built(p, name, cache).Ok?
    ensures Provider.Server(p, name).Ok? && Known(p.outbounds, Provider.Server(p, name).value.tag)
    ensures var q := Provider.Built(p, name, cache).value;
      && OtherwiseSame(p, q)
      && Chosen(q.rules, packet) == Chosen(p.rules, packet)
      && (Outlet(q, packet).None? <==> Outlet(p, packet).None?)
      && (Outlet(p, packet) == Some("urltest_out") ==>
            Position(q.outbounds, Outlet(q, packet).value) == Position(p.outbounds, Provider.Server(p, name).value.tag))
      && (Outlet(p, packet).Some? && Outlet(p, packet) != Some("urltest_out") && Known(p.outbounds, Outlet(p, packet).value) ==>
            Position(q.outbounds, Outlet(q, packet).value) == Position(p.outbounds, Outlet(p, packet).value))
  {
    var s := Provider.Server(p, name).value;
    Catalog.ServersAreOutbounds(p.outbounds, s);
    PinningPreservesMeaning(p, s.tag, cache, packet);
  }

  ghost predicate Names(outbounds: seq<Outbound>, reference: Option<string>) {
    reference.Some? && Known(outbounds, reference.value)
  }

  ghost predicate RulesClosed(p: Profile, q: Profile) {
    |q.rules| == |p.rules| && forall i :: 0 <= i < |p.rules| ==>
      (Names(p.outbounds, p.rules[i].outbound) ==> Names(q.outbounds, q.rules[i].outbound))
  }

  ghost predicate MembersClosed(outbounds: seq<Outbound>, before: Outbound, after: Outbound, q: seq<Outbound>) {
    |after.members| == |before.members| && forall k :: 0 <= k < |before.members| ==>
      (Known(outbounds, before.members[k]) ==> Known(q, after.members[k]))
  }

  ghost predicate GroupsClosed(outbounds: seq<Outbound>, q: seq<Outbound>) {
    |q| == |outbounds| && forall i :: 0 <= i < |outbounds| && outbounds[i].kind in GROUP_KINDS ==>
      MembersClosed(outbounds, outbounds[i], q[i], q)
  }

  /** Every reference that named an outbound before names one after: final, rules and group members. */
  lemma ReferencesStayClosed(p: Profile, cache: set<string>)
    ensures var q := Sanitize(p, cache);
      && (Names(p.outbounds, p.route.final) ==> Names(q.outbounds, q.route.final))
      && RulesClosed(p, q)
      && GroupsClosed(p.outbounds, q.outbounds)
  {
    var q := Sanitize(p, cache);
    EmptyIsNormal();
    forall name | Known(p.outbounds, name) ensures Known(q.outbounds, Tags.NormalizeTag(name)) {
      KnownAfter(p.outbounds, name);
    }
    forall i | 0 <= i < |p.rules| ensures q.rules[i].outbound == NormalizedReference(p.rules[i].outbound) {
      RuleReference(p.rules[i]);
    }
  }

  /** A group member stands for the outbound it stood for. */
  lemma MembersResolve(p: Profile, cache: set<string>, i: nat, k: nat)
    requires Injective(p.outbounds) && i < |p.outbounds| && p.outbounds[i].kind in GROUP_KINDS
    requires k < |p.outbounds[i].members| && Known(p.outbounds, p.outbounds[i].members[k])
    ensures var q := Sanitize(p, cache).outbounds;
      k < |q[i].members| && Position(q, q[i].members[k]) == Position(p.outbounds, p.outbounds[i].members[k])
  {
    SamePosition(p.outbounds, p.outbounds[i].members[k]);
  }

  /** A detour is not normalised: it still names its outbound if and only if it was in normal form. */
  lemma DetourSurvivesIff(p: Profile, cache: set<string>, i: nat)
    requires Injective(p.outbounds) && i < |p.outbounds| && p.outbounds[i].detour.Some?
    requires Known(p.outbounds, p.outbounds[i].detour.value)
    ensures var q := Sanitize(p, cache).outbounds;
      var d := p.outbounds[i].detour.value;
      && q[i].detour == Some(d)
      && (Position(q, d) == Position(p.outbounds, d) <==> Tags.NormalizeTag(d) == d)
  {
    var d := p.outbounds[i].detour.value;
    TagsAfter(p.outbounds);
    SamePosition(p.outbounds, d);
  }

  // ------------------------------------------------------- the default of a selector

  /** The member a selector uses: the first one of the default's name, or the first one without a default. */
  function Picked(o: Outbound): Option<nat> {
    match o.default
    case Some(d) => IndexOf(o.members, d)
    case None => if o.members == [] then None else Some(0)
  }

  function IndexOf(names: seq<string>, name: string): (r: Option<nat>)
    ensures r.Some? ==> r.value < |names| && names[r.value] == name
    ensures r.None? <==> name !in names
  {
    if names == [] then None
    else if names[0] == name then Some(0)
    else
      match IndexOf(names[1..], name)
      case Some(i) => Some(i + 1)
      case None => None
  }

  /**
   Removing the default keeps a selector on its member if and only if there was none, or
   the default is its first member, or it has no member at all.
   */
  lemma SelectorKeepsMemberIff(o: Outbound)
    requires o.kind == Some("selector")
    ensures Picked(SanitizedOutbound(o)) == Picked(o)
       <==> o.default.None? || o.members == [] || o.members[0] == o.default.value
  {
    var after := SanitizedOutbound(o);
    assert o.kind in GROUP_KINDS && o.kind in DEFAULT_KINDS;
    assert after.default.None? && |after.members| == |o.members|;
  }

  // --------------------------------------------------------------------- DNS servers

  ghost predicate HasServer(servers: seq<DnsServer>, name: string) {
    exists s :: s in servers && s.tag == Some(name)
  }

  /** A server that is kept under that name, or a nameless batch server that gets it. */
  predicate Provides(s: DnsServer, name: string) {
    s.kind != Some("predefined") && (s.tag == Some(name) || (s.kind == Some("batch") && s.tag == None && name == "unknown"))
  }

  lemma {:induction false} ServersAfter(servers: seq<DnsServer>, name: string)
    ensures HasServer(SanitizedServers(servers), name) <==> exists s :: s in servers && Provides(s, name)
  {
    if servers != [] {
      var front, s := servers[..|servers| - 1], servers[|servers| - 1];
      ServersAfter(front, name);
      assert servers == front + [s];
      var tail := if s.kind == Some("predefined") then [] else if s.kind == Some("batch") then [Converted(s)] else [s];
      var after := SanitizedServers(front);
      assert SanitizedServers(servers) == after + tail;
      assert HasServer(tail, name) <==> Provides(s, name) by {
        if tail != [] {
          assert tail[0] in tail;
        }
      }
      assert HasServer(after + tail, name) <==> HasServer(after, name) || HasServer(tail, name);
      assert (exists t :: t in servers && Provides(t, name))
        <==> (exists t :: t in front && Provides(t, name)) || Provides(s, name);
    }
  }

  /** A DNS rule still finds its server if and only if a server of that name is not a predefined one. */
  lemma DnsReferenceSurvivesIff(p: Profile, cache: set<string>, i: nat)
    requires i < |p.dnsRules| && p.dnsRules[i].server.Some? && HasServer(p.dnsServers, p.dnsRules[i].server.value)
    ensures var q := Sanitize(p, cache);
      var t := p.dnsRules[i].server.value;
      && q.dnsRules[i].server == Some(t)
      && (HasServer(q.dnsServers, t) <==> exists s :: s in p.dnsServers && Provides(s, t))
  {
    ServersAfter(p.dnsServers, p.dnsRules[i].server.value);
  }

  // ------------------------------------------------------------- sanitising again

  predicate Stable(name: string) {
    !Text.Contains(Tags.NormalizeTag(name), Tags.BOILERPLATE)
  }

  predicate StableReference(name: Option<string>) {
    name.Some? && name.value != "" ==> Stable(name.value)
  }

  /** No text of the profile that is normalised leaves boilerplate behind. */
  ghost predicate AllStable(p: Profile) {
    && (forall i :: 0 <= i < |p.outbounds| ==> StableOutbound(p.outbounds[i]))
    && StableReference(p.route.final)
    && (forall i :: 0 <= i < |p.rules| ==> StableReference(p.rules[i].outbound))
  }

  ghost predicate StableOutbound(o: Outbound) {
    && (o.tag.Some? ==> Stable(o.tag.value))
    && (o.kind in GROUP_KINDS ==> forall k :: 0 <= k < |o.members| ==> Stable(o.members[k]))
  }

  lemma ReferenceAgainIff(name: Option<string>)
    ensures NormalizedReference(NormalizedReference(name)) == NormalizedReference(name) <==> StableReference(name)
  {
    if name.Some? {
      Tags.NormalizeIdempotentIff(name.value);
      EmptyIsNormal();
    }
  }

  lemma OutboundAgainIff(o: Outbound)
    ensures SanitizedOutbound(SanitizedOutbound(o)) == SanitizedOutbound(o) <==> StableOutbound(o)
  {
    var once := SanitizedOutbound(o);
    var twice := SanitizedOutbound(once);
    if o.tag.Some? {
      Tags.NormalizeIdempotentIff(o.tag.value);
    }
    assert twice.tag == once.tag <==> (o.tag.Some? ==> Stable(o.tag.value));
    if o.kind in GROUP_KINDS {
      forall k | 0 <= k < |o.members| ensures twice.members[k] == once.members[k] <==> Stable(o.members[k]) {
        Tags.NormalizeIdempotentIff(o.members[k]);
      }
      if forall k :: 0 <= k < |o.members| ==> Stable(o.members[k]) {
        assert twice.members == once.members;
      }
    }
  }

  lemma RuleAgainIff(r: Rule)
    ensures SanitizedRule(SanitizedRule(r)) == SanitizedRule(r) <==> StableReference(r.outbound)
  {
    RuleReference(r);
    RuleReference(SanitizedRule(r));
    ReferenceAgainIff(r.outbound);
  }

  lemma {:induction false} ServersAgain(servers: seq<DnsServer>)
    ensures SanitizedServers(SanitizedServers(servers)) == SanitizedServers(servers)
  {
    if servers != [] {
      var front, s := servers[..|servers| - 1], servers[|servers| - 1];
      ServersAgain(front);
      var once := SanitizedServers(front);
      if s.kind != Some("predefined") {
        var kept := if s.kind == Some("batch") then Converted(s) else s;
        assert SanitizedServers(servers) == once + [kept];
        assert (once + [kept])[..|once|] == once && (once + [kept])[|once|] == kept;
        assert SanitizedServers(once + [kept]) == SanitizedServers(once) + [kept];
      } else {
        assert once + [] == once;
        assert SanitizedServers(servers) == once;
      }
    }
  }

  /**
   Sanitising a sanitised configuration, as redeploying without a profile does, changes
   nothing if and only if no normalised text contains boilerplate again.
   */
  lemma SanitizeIdempotentIff(p: Profile, cache: set<string>)
    ensures Sanitize(Sanitize(p, cache), cache) == Sanitize(p, cache) <==> AllStable(p)
  {
    ServersAgain(p.dnsServers);
    ReferenceAgainIff(p.route.final);
    OutboundsAgainIff(p.outbounds);
    RulesAgainIff(p.rules);
    ListsAgain(p.dnsRules, p.ruleSets, cache);
  }

  lemma ListsAgain(dnsRules: seq<DnsRule>, ruleSets: seq<RuleSet>, cache: set<string>)
    ensures NamelessDnsRules(NamelessDnsRules(dnsRules)) == NamelessDnsRules(dnsRules)
    ensures LocalizedSets(LocalizedSets(ruleSets, cache), cache) == LocalizedSets(ruleSets, cache)
  {
  }

  lemma OutboundsAgainIff(outbounds: seq<Outbound>)
    ensures SanitizedOutbounds(SanitizedOutbounds(outbounds)) == SanitizedOutbounds(outbounds)
       <==> forall i :: 0 <= i < |outbounds| ==> StableOutbound(outbounds[i])
  {
    var once := SanitizedOutbounds(outbounds);
    var twice := SanitizedOutbounds(once);
    forall i | 0 <= i < |outbounds| ensures twice[i] == once[i] <==> StableOutbound(outbounds[i]) {
      OutboundAgainIff(outbounds[i]);
    }
    if forall i :: 0 <= i < |outbounds| ==> StableOutbound(outbounds[i]) {
      assert twice == once;
    }
  }

  lemma RulesAgainIff(rules: seq<Rule>)
    ensures SanitizedRules(SanitizedRules(rules)) == SanitizedRules(rules)
       <==> forall i :: 0 <= i < |rules| ==> StableReference(rules[i].outbound)
  {
    var once := SanitizedRules(rules);
    var twice := SanitizedRules(once);
    forall i | 0 <= i < |rules| ensures twice[i] == once[i] <==> StableReference(rules[i].outbound) {
      RuleAgainIff(rules[i]);
    }
    if forall i :: 0 <= i < |rules| ==> StableReference(rules[i].outbound) {
      assert twice == once;
    }
  }

  /**
   Why the copy is needed: pinning a configuration that was pinned and sanitised before
   does nothing, because no reference to the switch group is left.
   */
  lemma PinningAgainDoesNothing(p: Profile, first: string, second: string, cache: set<string>)
    requires Tags.NormalizeTag(first) != SWITCH_TAG && first != SWITCH_TAG
    requires forall i :: 0 <= i < |p.rules| && p.rules[i].outbound.Some? && p.rules[i].outbound.value != SWITCH_TAG ==>
      Tags.NormalizeTag(p.rules[i].outbound.value) != SWITCH_TAG
    requires p.route.final.Some? && p.route.final.value != SWITCH_TAG ==>
      Tags.NormalizeTag(p.route.final.value) != SWITCH_TAG
    ensures Pin(Sanitize(Pin(p, first), cache), second) == Sanitize(Pin(p, first), cache)
  {
    var q := Sanitize(Pin(p, first), cache);
    forall i | 0 <= i < |p.rules| ensures q.rules[i].outbound != Some(SWITCH_TAG) {
      RuleReference(PinnedRule(p.rules[i], first));
    }
    assert Pin(q, second).rules == q.rules;
  }
}
