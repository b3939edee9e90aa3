/** The parts of a sing-box profile the provider reads or rewrites. */
module Profile {
  import opened Wrappers

  /** Fields nothing in the provider touches. */
  type Other = map<string, string>

  /** A list that is missing from the document reads as an empty one. */
  datatype Outbound = Outbound(
    kind: Option<string>, tag: Option<string>, server: Option<string>, port: Option<nat>,
    members: seq<string>, default: Option<string>, detour: Option<string>, other: Other)

  /** What a rule matches; a packet is known by the criteria it meets. */
  type Criteria = nat

  datatype Rule = Rule(criteria: Criteria, outbound: Option<string>, name: Option<string>, other: Other)

  datatype RuleSet = RuleSet(
    kind: Option<string>, tag: Option<string>, path: Option<string>, url: Option<string>,
    downloadDetour: Option<string>, updateInterval: Option<string>, other: Other)

  /** The fields of the route section besides its two lists. */
  datatype RouteHead = RouteHead(final: Option<string>, sniff: Option<bool>, sniffOverride: Option<bool>, other: Other)

  datatype DnsServer = DnsServer(
    kind: Option<string>, tag: Option<string>, address: Option<string>, port: Option<nat>,
    detour: Option<string>, other: Other)

  datatype DnsRule = DnsRule(criteria: Criteria, server: Option<string>, name: Option<string>, other: Other)

  datatype Experimental = Experimental(statistics: Option<string>, other: Other)

  datatype Profile = Profile(
    outbounds: seq<Outbound>,
    route: RouteHead, rules: seq<Rule>, ruleSets: seq<RuleSet>,
    dnsServers: seq<DnsServer>, dnsRules: seq<DnsRule>,
    experimental: Experimental, other: Other)

  /** dict.get(key, default) */
  function OrElse<T>(o: Option<T>, default: T): T {
    if o.Some? then o.value else default
  }
}
