/** What pinning and sanitising make of a profile. */
module Sanitizing {
  import opened Profile
  import opened Wrappers
  import Tags

  const SWITCH_TAG := "urltest_out"
  const GROUP_KINDS: set<Option<string>> := {Some("urltest"), Some("selector")}
  const DEFAULT_KINDS: set<Option<string>> := {Some("urltest"), Some("selector"), Some("url-test")}

  function Normalized(tag: Option<string>): Option<string> {
    match tag
    case None => None
    case Some(t) => Some(Tags.NormalizeTag(t))
  }

  /** A reference that is missing or empty is left as it is. */
  function NormalizedReference(name: Option<string>): Option<string> {
    if name == None || name == Some("") then name else Normalized(name)
  }

  // ------------------------------------------------------------------------ pinning

  function PinnedName(name: Option<string>, target: string): Option<string> {
    if name == Some(SWITCH_TAG) then Some(target) else name
  }

  function PinnedRule(r: Rule, target: string): Rule {
    r.(outbound := PinnedName(r.outbound, target))
  }

  function Pin(p: Profile, target: string): Profile {
    p.(rules := seq(|p.rules|, i requires 0 <= i < |p.rules| => PinnedRule(p.rules[i], target)),
       route := p.route.(final := PinnedName(p.route.final, target)))
  }

  // --------------------------------------------------------------------- sanitising

  /** What a batch server turns into. */
  function Converted(s: DnsServer): DnsServer {
    var tag := OrElse(s.tag, "unknown");
    if tag == "dns_proxy_out" then DnsServer(Some("udp"), Some(tag), Some("8.8.8.8"), Some(53), None, map[])
    else DnsServer(Some("local"), Some(tag), None, None, None, map[])
  }

  function SanitizedServers(servers: seq<DnsServer>): seq<DnsServer> {
    if servers == [] then []
    else
      var s := servers[|servers| - 1];
      SanitizedServers(servers[..|servers| - 1])
        + if s.kind == Some("predefined") then [] else if s.kind == Some("batch") then [Converted(s)] else [s]
  }

  function NamelessDnsRule(r: DnsRule): DnsRule {
    r.(name := None)
  }

  function NamelessRule(r: Rule): Rule {
    r.(name := None)
  }

  function StrippedHead(h: RouteHead): RouteHead {
    h.(sniff := None, sniffOverride := None)
  }

  function Retagged(o: Outbound): Outbound {
    o.(tag := Normalized(o.tag))
  }

  function Redirected(r: Rule): Rule {
    if r.outbound == Some(SWITCH_TAG) then r else r.(outbound := NormalizedReference(r.outbound))
  }

  function NormalizedAll(names: seq<string>): seq<string> {
    seq(|names|, i requires 0 <= i < |names| => Tags.NormalizeTag(names[i]))
  }

  function Regrouped(o: Outbound): Outbound {
    if o.kind in GROUP_KINDS then o.(members := NormalizedAll(o.members)) else o
  }

  function Undefaulted(o: Outbound): Outbound {
    if o.kind in DEFAULT_KINDS then o.(default := None) else o
  }

  function Dashed(tag: string): string {
    seq(|tag|, i requires 0 <= i < |tag| => if tag[i] == ':' then '-' else tag[i])
  }

  function CachePath(tag: string): string {
    "/var/lib/sing-box/" + Dashed(tag) + ".srs"
  }

  /** A remote rule set whose cached file exists becomes a local one. */
  function Localized(rs: RuleSet, cache: set<string>): RuleSet {
    var path := CachePath(OrElse(rs.tag, ""));
    if rs.kind == Some("remote") && path in cache then
      rs.(kind := Some("local"), path := Some(path), url := None, downloadDetour := None, updateInterval := None)
    else rs
  }

  function SanitizedOutbound(o: Outbound): Outbound {
    Undefaulted(Regrouped(Retagged(o)))
  }

  function SanitizedRule(r: Rule): Rule {
    Redirected(NamelessRule(r))
  }

  function SanitizedHead(h: RouteHead): RouteHead {
    StrippedHead(h).(final := NormalizedReference(h.final))
  }

  function SanitizedOutbounds(s: seq<Outbound>): seq<Outbound> {
    seq(|s|, i requires 0 <= i < |s| => SanitizedOutbound(s[i]))
  }

  function SanitizedRules(s: seq<Rule>): seq<Rule> {
    seq(|s|, i requires 0 <= i < |s| => SanitizedRule(s[i]))
  }

  function LocalizedSets(s: seq<RuleSet>, cache: set<string>): seq<RuleSet> {
    seq(|s|, i requires 0 <= i < |s| => Localized(s[i], cache))
  }

  function NamelessDnsRules(s: seq<DnsRule>): seq<DnsRule> {
    seq(|s|, i requires 0 <= i < |s| => NamelessDnsRule(s[i]))
  }

  function Sanitize(p: Profile, cache: set<string>): Profile {
    p.(outbounds := SanitizedOutbounds(p.outbounds),
       route := SanitizedHead(p.route),
       rules := SanitizedRules(p.rules),
       ruleSets := LocalizedSets(p.ruleSets, cache),
       dnsServers := SanitizedServers(p.dnsServers),
       dnsRules := NamelessDnsRules(p.dnsRules),
       experimental := p.experimental.(statistics := None))
  }
}
