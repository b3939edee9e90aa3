/** Building the route list from every source, and sending it to the kernel in one batch. */
module Loading {
  import opened Wrappers
  import opened Network
  import opened Subnets
  import opened Routes
  import opened Shell
  import Text

  const COMMON_TLDS := ["lu", "is", "fi", "nl", "me", "shop", "cc", "to", "li", "se", "ch"]

  /**
   Everything the loader reads. `ru` holds the lines of the RU cache, if the file exists;
   `dnsOk` is the answer of the one availability probe.
   */
  datatype Sources = Sources(
    ru: Option<seq<string>>,
    bypassSubnets: seq<string>,
    bypassDomains: seq<string>,
    vpnSubnets: seq<string>,
    vpnDomains: seq<string>,
    vpnWildcards: seq<string>,
    gateway: string,
    interface: string,
    tableId: string,
    dnsOk: bool)

  /** The n-th query and its name give the addresses; answers may change from query to query. */
  type Dns = (nat, string) -> seq<string>

  datatype Target = Target(via: Option<string>, dev: string, tableId: string)

  function EntryFor(text: string, t: Target): RouteEntry {
    RouteEntry(text, t.via, t.dev, t.tableId)
  }

  // ------------------------------------------------- the full candidate stream

  function SubnetCandidates(texts: seq<string>, t: Target): seq<RouteEntry> {
    if texts == [] then []
    else
      var last := texts[|texts| - 1];
      SubnetCandidates(texts[..|texts| - 1], t) + if IsIpv4Text(last) then [EntryFor(last, t)] else []
  }

  function HostCandidates(ips: seq<string>, t: Target): seq<RouteEntry> {
    if ips == [] then []
    else HostCandidates(ips[..|ips| - 1], t) + [EntryFor(ips[|ips| - 1] + "/32", t)]
  }

  /** One query per domain, the first of them number `first`. */
  function DomainCandidates(domains: seq<string>, t: Target, dns: Dns, first: nat): seq<RouteEntry> {
    if domains == [] then []
    else
      var n := |domains| - 1;
      DomainCandidates(domains[..n], t, dns, first) + HostCandidates(dns(first + n, domains[n]), t)
  }

  function Stripped(lines: seq<string>): (r: seq<string>)
    ensures |r| == |lines|
  {
    if lines == [] then [] else Stripped(lines[..|lines| - 1]) + [Text.Strip(lines[|lines| - 1])]
  }

  function WithTlds(base: string, n: nat): (r: seq<string>)
    requires n <= |COMMON_TLDS|
    ensures |r| == n
  {
    if n == 0 then [] else WithTlds(base, n - 1) + [base + "." + COMMON_TLDS[n - 1]]
  }

  /** The concrete names a list of wildcard patterns stands for. */
  function Expanded(wildcards: seq<string>): seq<string> {
    if wildcards == [] then []
    else
      var w := wildcards[|wildcards| - 1];
      Expanded(wildcards[..|wildcards| - 1])
        + if Text.Contains(w, ".*") then WithTlds(Text.Erase(w, ".*"), |COMMON_TLDS|) else []
  }

  function Bypass(s: Sources): Target {
    Target(Some(s.gateway), s.interface, s.tableId)
  }

  function Tunnel(s: Sources): Target {
    Target(None, TUN, s.tableId)
  }

  /** Without DNS the domains are skipped. */
  function Resolved(dnsOk: bool, domains: seq<string>, t: Target, dns: Dns, first: nat): seq<RouteEntry> {
    if dnsOk then DomainCandidates(domains, t, dns, first) else []
  }

  function BypassCandidates(s: Sources, dns: Dns): seq<RouteEntry> {
    SubnetCandidates(if s.ru.Some? then Stripped(s.ru.value) else [], Bypass(s))
      + SubnetCandidates(s.bypassSubnets, Bypass(s))
      + Resolved(s.dnsOk, s.bypassDomains, Bypass(s), dns, 0)
  }

  function ForcedCandidates(s: Sources, dns: Dns, first: nat): seq<RouteEntry> {
    SubnetCandidates(s.vpnSubnets, Tunnel(s))
      + Resolved(s.dnsOk, s.vpnDomains, Tunnel(s), dns, first)
      + Resolved(s.dnsOk, Expanded(s.vpnWildcards), Tunnel(s), dns, first + |s.vpnDomains|)
  }

  /** Every candidate of every source, nothing dropped, in order of precedence. */
  function Candidates(s: Sources, dns: Dns): seq<RouteEntry> {
    BypassCandidates(s, dns) + ForcedCandidates(s, dns, |s.bypassDomains|)
  }

  // ---------------------------------------------------------------- the loader

  /** The list and the set of texts that `load_all` and `_resolve_and_add` both grow. */
  class RouteList {
    var entries: seq<RouteEntry>
    var added: set<string>
    ghost var offered: seq<RouteEntry>

    ghost predicate Valid()
      reads this
    {
      && entries == FirstTexts(offered)
      && forall t :: t in added <==> SeenText(offered, t)
    }

    constructor ()
      ensures Valid() && offered == []
    {
      entries, added, offered := [], {}, [];
    }

    method Offer(e: RouteEntry)
      requires Valid()
      modifies this
      ensures Valid() && offered == old(offered) + [e]
    {
      var before := offered;
      if e.subnet !in added {
        entries := entries + [e];
        added := added + {e.subnet};
      }
      offered := offered + [e];
      assert offered[..|before|] == before;
      forall t ensures SeenText(offered, t) <==> SeenText(before, t) || t == e.subnet {
        if SeenText(before, t) {
          var i :| 0 <= i < |before| && before[i].subnet == t;
          assert offered[i].subnet == t;
        }
        assert offered[|before|].subnet == e.subnet;
      }
    }
  }

  lemma Regrouped(before: seq<RouteEntry>, a: seq<RouteEntry>, b: seq<RouteEntry>, c: seq<RouteEntry>)
    ensures before + a + b + c == before + (a + b + c)
  {
  }

  class BypassLoader {
    var queries: nat    // DNS queries sent by the current load

    constructor () {
      queries := 0;
    }

    method AddSubnets(list: RouteList, texts: seq<string>, t: Target)
      requires list.Valid()
      modifies list
      ensures list.Valid() && list.offered == old(list.offered) + SubnetCandidates(texts, t)
    {
      ghost var before := list.offered;
      for i := 0 to |texts|
        invariant list.Valid() && list.offered == before + SubnetCandidates(texts[..i], t)
      {
        assert texts[..i + 1][..i] == texts[..i];
        if IsIpv4Text(texts[i]) {
          list.Offer(EntryFor(texts[i], t));
        }
      }
      assert texts[..|texts|] == texts;
    }

    method ResolveAndAdd(list: RouteList, domain: string, t: Target, dns: Dns, dnsOk: bool)
      requires list.Valid()
      modifies this, list
      ensures list.Valid()
      ensures dnsOk ==> list.offered == old(list.offered) + HostCandidates(dns(old(queries), domain), t)
      ensures !dnsOk ==> list.offered == old(list.offered)
      ensures queries == old(queries) + if dnsOk then 1 else 0
    {
      if !dnsOk {
        return;
      }
      var ips := dns(queries, domain);
      queries := queries + 1;
      ghost var before := list.offered;
      for i := 0 to |ips|
        invariant list.Valid() && list.offered == before + HostCandidates(ips[..i], t)
        invariant queries == old(queries) + 1
      {
        assert ips[..i + 1][..i] == ips[..i];
        list.Offer(EntryFor(ips[i] + "/32", t));
      }
      assert ips[..|ips|] == ips;
    }

    method AddDomains(list: RouteList, domains: seq<string>, t: Target, dns: Dns, dnsOk: bool)
      requires list.Valid()
      modifies this, list
      ensures list.Valid()
      ensures list.offered == old(list.offered) + Resolved(dnsOk, domains, t, dns, old(queries))
      ensures queries == old(queries) + if dnsOk then |domains| else 0
    {
      ghost var before := list.offered;
      ghost var first := queries;
      for i := 0 to |domains|
        invariant list.Valid()
        invariant list.offered == before + Resolved(dnsOk, domains[..i], t, dns, first)
        invariant queries == first + if dnsOk then i else 0
      {
        assert domains[..i + 1][..i] == domains[..i];
        ResolveAndAdd(list, domains[i], t, dns, dnsOk);
      }
      assert domains[..|domains|] == domains;
    }

    method ExpandWildcards(wildcards: seq<string>) returns (names: seq<string>)
      ensures names == Expanded(wildcards)
    {
      names := [];
      for i := 0 to |wildcards|
        invariant names == Expanded(wildcards[..i])
      {
        assert wildcards[..i + 1][..i] == wildcards[..i];
        if Text.Contains(wildcards[i], ".*") {
          var base := Text.Erase(wildcards[i], ".*");
          var found := names;
          for j := 0 to |COMMON_TLDS|
            invariant names == found + WithTlds(base, j)
          {
            names := names + [base + "." + COMMON_TLDS[j]];
          }
        }
      }
      assert wildcards[..|wildcards|] == wildcards;
    }

    method StripLines(lines: seq<string>) returns (r: seq<string>)
      ensures r == Stripped(lines)
    {
      r := [];
      for i := 0 to |lines|
        invariant r == Stripped(lines[..i])
      {
        assert lines[..i + 1][..i] == lines[..i];
        r := r + [Text.Strip(lines[i])];
      }
      assert lines[..|lines|] == lines;
    }

    method AddBypasses(list: RouteList, s: Sources, dns: Dns)
      requires list.Valid() && list.offered == [] && queries == 0
      modifies this, list
      ensures list.Valid() && list.offered == BypassCandidates(s, dns)
      ensures queries == if s.dnsOk then |s.bypassDomains| else 0
    {
      var lines := [];
      if s.ru.Some? {
        lines := StripLines(s.ru.value);
      }
      AddSubnets(list, lines, Bypass(s));
      AddSubnets(list, s.bypassSubnets, Bypass(s));
      AddDomains(list, s.bypassDomains, Bypass(s), dns, s.dnsOk);
      assert [] + SubnetCandidates(lines, Bypass(s)) == SubnetCandidates(lines, Bypass(s));
    }

    method AddForced(list: RouteList, s: Sources, dns: Dns)
      requires list.Valid()
      modifies this, list
      ensures list.Valid() && list.offered == old(list.offered) + ForcedCandidates(s, dns, old(queries))
    {
      ghost var before, first := list.offered, queries;
      AddSubnets(list, s.vpnSubnets, Tunnel(s));
      var names := ExpandWildcards(s.vpnWildcards);
      AddBothDomains(list, s.vpnDomains, names, Tunnel(s), dns, s.dnsOk);
      ghost var a := SubnetCandidates(s.vpnSubnets, Tunnel(s));
      ghost var b := Resolved(s.dnsOk, s.vpnDomains, Tunnel(s), dns, first);
      ghost var c := Resolved(s.dnsOk, names, Tunnel(s), dns, first + |s.vpnDomains|);
      Regrouped(before, a, b, c);
    }

    /** The listed domains, then those the wildcards stand for. */
    method AddBothDomains(list: RouteList, domains: seq<string>, more: seq<string>, t: Target, dns: Dns, dnsOk: bool)
      requires list.Valid()
      modifies this, list
      ensures list.Valid()
      ensures list.offered == old(list.offered) + Resolved(dnsOk, domains, t, dns, old(queries))
        + Resolved(dnsOk, more, t, dns, old(queries) + |domains|)
    {
      AddDomains(list, domains, t, dns, dnsOk);
      AddDomains(list, more, t, dns, dnsOk);
    }

    /** Keeps the first entry of every text of the full candidate stream. */
    method LoadAll(s: Sources, dns: Dns) returns (entries: seq<RouteEntry>)
      modifies this
      ensures entries == FirstTexts(Candidates(s, dns))
    {
      var list := new RouteList();
      queries := 0;
      AddBypasses(list, s, dns);
      AddForced(list, s, dns);
      if !s.dnsOk {
        assert ForcedCandidates(s, dns, queries) == ForcedCandidates(s, dns, |s.bypassDomains|);
      }
      entries := list.entries;
    }
  }

  // ----------------------------------------------------------- the route table

  class RouteTable {
    const shell: ShellAdapter

    constructor (shell: ShellAdapter)
      ensures this.shell == shell
    {
      this.shell := shell;
    }

    /** Reports how many entries it sent, not how many the kernel took. */
    method LoadBatch(entries: seq<RouteEntry>) returns (count: nat)
      modifies shell
      ensures count == |entries|
      ensures shell.host == Run(old(shell.host), Batch(Meanings(entries)))
    {
      if entries == [] {
        return 0;
      }
      var lines := Render(entries);
      Send(lines);
      count := |entries|;
    }

    static method Render(entries: seq<RouteEntry>) returns (lines: seq<Route>)
      ensures lines == Meanings(entries)
    {
      lines := [];
      for i := 0 to |entries|
        invariant lines == Meanings(entries[..i])
      {
        MeaningsOfLast(entries[..i], entries[i]);
        assert entries[..i + 1] == entries[..i] + [entries[i]];
        lines := lines + [Meaning(entries[i])];
      }
      assert entries[..|entries|] == entries;
    }

    /** `ip -force -batch`: a line that fails does not stop the ones behind it. */
    method Send(lines: seq<Route>)
      modifies shell
      ensures shell.host == Run(old(shell.host), Batch(lines))
    {
      ghost var before := shell.host;
      for i := 0 to |lines|
        invariant shell.host == Run(before, Batch(lines[..i]))
      {
        assert lines[..i + 1][..i] == lines[..i];
        if lines[i].dst.Some? {
          var c := RouteAdd(lines[i].dst.value, lines[i].hop);
          RunConcat(before, Batch(lines[..i]), [c]);
          RunOne(shell.host, c);
          shell.Execute(c);
        } else {
          assert Batch(lines[..i + 1]) == Batch(lines[..i]);
        }
      }
      assert lines[..|lines|] == lines;
    }

    method SetDefault()
      modifies shell
      ensures shell.host == old(shell.host).(routes :=
        AddRoute(old(shell.host.routes), old(shell.host.tun0), [], Device(TUN)))
    {
      shell.Execute(RouteAdd([], Device(TUN)));
    }

    method Flush()
      modifies shell
      ensures shell.host == old(shell.host).(routes := map[])
    {
      shell.Execute(RouteFlush);
    }
  }
}
