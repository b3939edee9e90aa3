/** What sanitising makes of the DNS section, and who answers a query afterwards. */
module DnsServers {
  import opened Profile
  import opened Sanitizing
  import opened Wrappers
  import Provider

  /** The server that takes the place of `s`, in the literal terms of sing-box. */
  predicate Replaces(s: DnsServer, after: DnsServer) {
    if s.kind != Some("batch") then after == s
    else if s.tag == Some("dns_proxy_out") then
      after == DnsServer(Some("udp"), Some("dns_proxy_out"), Some("8.8.8.8"), Some(53), None, map[])
    else after == DnsServer(Some("local"), if s.tag.Some? then s.tag else Some("unknown"), None, None, None, map[])
  }

  /** The servers that are not predefined, in their order. */
  function Kept(servers: seq<DnsServer>): seq<DnsServer> {
    if servers == [] then []
    else (if servers[0].kind == Some("predefined") then [] else [servers[0]]) + Kept(servers[1..])
  }

  lemma {:induction false} KeptLast(servers: seq<DnsServer>, s: DnsServer)
    ensures Kept(servers + [s]) == Kept(servers) + if s.kind == Some("predefined") then [] else [s]
  {
    if servers == [] {
      assert servers + [s] == [s] && [s][1..] == [];
    } else {
      assert (servers + [s])[1..] == servers[1..] + [s];
      KeptLast(servers[1..], s);
    }
  }

  /**
   The predefined servers go; of the others, in the same order, those of type batch become
   udp to 8.8.8.8 port 53 if they are "dns_proxy_out" and the host's resolver if not, and the
   rest are the same.
   */
  lemma {:induction false} ServersReplaced(servers: seq<DnsServer>)
    ensures |SanitizedServers(servers)| == |Kept(servers)|
    ensures forall i :: 0 <= i < |Kept(servers)| ==> Replaces(Kept(servers)[i], SanitizedServers(servers)[i])
  {
    if servers != [] {
      var front, s := servers[..|servers| - 1], servers[|servers| - 1];
      assert servers == front + [s];
      ServersReplaced(front);
      KeptLast(front, s);
    }
  }

  lemma {:induction false} KeptFromServers(servers: seq<DnsServer>)
    ensures forall s :: s in Kept(servers) <==> s in servers && s.kind != Some("predefined")
  {
    if servers != [] {
      assert servers == [servers[0]] + servers[1..];
      KeptFromServers(servers[1..]);
    }
  }

  lemma NoneLeft(servers: seq<DnsServer>)
    ensures forall s <- SanitizedServers(servers) :: s.kind != Some("batch") && s.kind != Some("predefined")
  {
    ServersReplaced(servers);
    KeptFromServers(servers);
    forall s | s in SanitizedServers(servers) ensures s.kind != Some("batch") && s.kind != Some("predefined") {
      var i :| 0 <= i < |SanitizedServers(servers)| && SanitizedServers(servers)[i] == s;
      assert Kept(servers)[i] in Kept(servers);
    }
  }

  /** No server of an unsupported type is left. */
  lemma NoneUnsupported(p: Profile, cache: set<string>)
    ensures forall s <- Sanitize(p, cache).dnsServers :: s.kind != Some("batch") && s.kind != Some("predefined")
  {
    NoneLeft(p.dnsServers);
  }

  // ------------------------------------------------------------------ who answers

  /** The first server of that tag. */
  function Named(servers: seq<DnsServer>, name: string): Option<DnsServer> {
    if servers == [] then None
    else if servers[0].tag == Some(name) then Some(servers[0])
    else Named(servers[1..], name)
  }

  /** The name a server goes by once it is sanitised. */
  function NameOf(s: DnsServer): Option<string> {
    if s.kind == Some("batch") && s.tag.None? then Some("unknown") else s.tag
  }

  /** The first server that is not predefined and will go by that name. */
  function Stays(servers: seq<DnsServer>, name: string): Option<DnsServer> {
    if servers == [] then None
    else if servers[0].kind != Some("predefined") && NameOf(servers[0]) == Some(name) then Some(servers[0])
    else Stays(servers[1..], name)
  }

  lemma {:induction false} NamedInKept(servers: seq<DnsServer>, after: seq<DnsServer>, name: string)
    requires |after| == |Kept(servers)|
    requires forall i :: 0 <= i < |after| ==> Replaces(Kept(servers)[i], after[i])
    ensures Named(after, name).Some? <==> Stays(servers, name).Some?
    ensures Named(after, name).Some? ==> Replaces(Stays(servers, name).value, Named(after, name).value)
  {
    if servers != [] {
      if servers[0].kind == Some("predefined") {
        NamedInKept(servers[1..], after, name);
      } else {
        assert Kept(servers)[0] == servers[0] && Kept(servers)[1..] == Kept(servers[1..]);
        assert forall i :: 0 <= i < |after[1..]| ==> after[1..][i] == after[i + 1] && Kept(servers[1..])[i] == Kept(servers)[i + 1];
        NamedInKept(servers[1..], after[1..], name);
      }
    }
  }

  type Query = set<Criteria>

  /** The first DNS rule a query matches, or the number of rules. */
  function Matching(rules: seq<DnsRule>, q: Query): (r: nat)
    ensures r <= |rules|
  {
    if rules == [] || rules[0].criteria in q then 0 else 1 + Matching(rules[1..], q)
  }

  /** The server the rules send a query to, if one matches and its server exists. */
  function Answerer(p: Profile, q: Query): Option<DnsServer> {
    var i := Matching(p.dnsRules, q);
    if i == |p.dnsRules| || p.dnsRules[i].server.None? then None
    else Named(p.dnsServers, p.dnsRules[i].server.value)
  }

  lemma {:induction false} SameMatch(a: seq<DnsRule>, b: seq<DnsRule>, q: Query)
    requires |a| == |b| && forall i :: 0 <= i < |a| ==> a[i].criteria == b[i].criteria
    ensures Matching(a, q) == Matching(b, q)
  {
    if a != [] {
      assert a[0].criteria == b[0].criteria;
      SameMatch(a[1..], b[1..], q);
    }
  }

  /**
   Sanitising leaves a query with the same rule and the same name. Who answers is the first
   server of that name that was not predefined, and of those of type batch what replaces them.
   */
  lemma AnswererAfter(p: Profile, cache: set<string>, q: Query)
    ensures var after := Sanitize(p, cache);
      var i := Matching(p.dnsRules, q);
      && Matching(after.dnsRules, q) == i
      && (i == |p.dnsRules| || p.dnsRules[i].server.None? ==> Answerer(after, q).None?)
      && (i < |p.dnsRules| && p.dnsRules[i].server.Some? ==>
            var stays := Stays(p.dnsServers, p.dnsRules[i].server.value);
            && (Answerer(after, q).Some? <==> stays.Some?)
            && (stays.Some? ==> Replaces(stays.value, Answerer(after, q).value)))
  {
    var after := Sanitize(p, cache);
    var i := Matching(p.dnsRules, q);
    SameMatch(p.dnsRules, after.dnsRules, q);
    ServersReplaced(p.dnsServers);
    if i < |p.dnsRules| && p.dnsRules[i].server.Some? {
      NamedInKept(p.dnsServers, after.dnsServers, p.dnsRules[i].server.value);
    }
  }

  /**
   Unless a nameless batch server stands before one called "unknown", a query keeps its
   answerer if and only if that one is neither batch nor predefined.
   */
  lemma AnswererKeptIff(p: Profile, cache: set<string>, q: Query)
    requires Answerer(p, q).Some? && !Shadowed(p.dnsServers)
    ensures Answerer(Sanitize(p, cache), q) == Answerer(p, q)
       <==> Answerer(p, q).value.kind != Some("batch") && Answerer(p, q).value.kind != Some("predefined")
  {
    AnswererAfter(p, cache, q);
    NoneUnsupported(p, cache);
    var name := p.dnsRules[Matching(p.dnsRules, q)].server.value;
    NamedStays(p.dnsServers, name);
    var after := Sanitize(p, cache);
    NamedIsServer(after.dnsServers, name);
  }

  /** A nameless batch server stands before one called "unknown". */
  ghost predicate Shadowed(servers: seq<DnsServer>) {
    exists i, j :: 0 <= i < j < |servers| && servers[i].kind == Some("batch") && servers[i].tag.None?
                && servers[j].tag == Some("unknown")
  }

  lemma {:induction false} NamedIsServer(servers: seq<DnsServer>, name: string)
    ensures Named(servers, name).Some? ==> Named(servers, name).value in servers && Named(servers, name).value.tag == Some(name)
  {
    if servers != [] && servers[0].tag != Some(name) {
      NamedIsServer(servers[1..], name);
      assert servers == [servers[0]] + servers[1..];
    }
  }

  lemma ShadowedFurther(servers: seq<DnsServer>, s: DnsServer)
    requires servers != [] && s in servers[1..]
    ensures Shadowed(servers[1..]) ==> Shadowed(servers)
    ensures servers[0].kind == Some("batch") && servers[0].tag.None? && s.tag == Some("unknown") ==> Shadowed(servers)
  {
    var rest := servers[1..];
    if Shadowed(rest) {
      var i, j :| 0 <= i < j < |rest| && rest[i].kind == Some("batch") && rest[i].tag.None? && rest[j].tag == Some("unknown");
      assert servers[i + 1] == rest[i] && servers[j + 1] == rest[j];
    }
    var k :| 0 <= k < |rest| && rest[k] == s;
    assert servers[k + 1] == s;
  }

  lemma {:induction false} NamedStays(servers: seq<DnsServer>, name: string)
    requires Named(servers, name).Some? && !Shadowed(servers)
    ensures Named(servers, name).value.kind != Some("predefined") ==> Stays(servers, name) == Named(servers, name)
  {
    if servers[0].tag != Some(name) {
      NamedIsServer(servers[1..], name);
      ShadowedFurther(servers, Named(servers[1..], name).value);
      NamedStays(servers[1..], name);
    }
  }
}
