/** The IPC calls `route.add` and `route.remove`: routes through the tunnel added while it runs. */
module RouteCommands {
  import opened Wrappers
  import opened Network
  import opened Egress
  import opened Shell

  datatype Call =
    | AddDomain(name: string, ips: seq<Addr>)    // with what the name resolves to
    | AddWildcard(pattern: string)
    | AddSubnet(text: string)
    | RemoveDomain(name: string)
    | RemoveWildcard(pattern: string)
    | RemoveSubnet(text: string)

  /** How the kernel reads the text of a destination, None when it refuses it. */
  type Reading = string -> Option<Prefix>

  /** What the calls work on: the host, the configured lists and the addresses each domain added. */
  datatype Control = Control(
    host: Host, reading: Reading,
    domains: seq<string>, wildcards: seq<string>, subnets: seq<string>, routeIps: map<string, seq<Addr>>)

  function Adds(ips: seq<Addr>): seq<Command> {
    if ips == [] then [] else Adds(ips[..|ips| - 1]) + [RouteAdd(ips[|ips| - 1], Device(TUN))]
  }

  function Deletes(ips: seq<Addr>): seq<Command> {
    if ips == [] then [] else Deletes(ips[..|ips| - 1]) + [RouteDelete(ips[|ips| - 1])]
  }

  function Added(h: Host, dst: Option<Prefix>): Host {
    match dst
    case Some(p) => Exec(h, RouteAdd(p, Device(TUN)))
    case None => h
  }

  function Deleted(h: Host, dst: Option<Prefix>): Host {
    match dst
    case Some(p) => Exec(h, RouteDelete(p))
    case None => h
  }

  function IpsOf(c: Control, name: string): seq<Addr> {
    if name in c.routeIps then c.routeIps[name] else []
  }

  /** The state after a call. Removing something unlisted fails, but only after its routes are gone. */
  function Served(c: Control, call: Call): Control {
    match call
    case AddDomain(name, ips) =>
      c.(host := Run(c.host, Adds(ips)), domains := c.domains + [name], routeIps := c.routeIps[name := ips])
    case AddWildcard(pattern) => c.(wildcards := c.wildcards + [pattern])
    case AddSubnet(text) => c.(host := Added(c.host, c.reading(text)), subnets := c.subnets + [text])
    case RemoveDomain(name) =>
      c.(host := Run(c.host, Deletes(IpsOf(c, name))), domains := RemoveFirstOf(c.domains, name),
         routeIps := c.routeIps - {name})
    case RemoveWildcard(pattern) => c.(wildcards := RemoveFirstOf(c.wildcards, pattern))
    case RemoveSubnet(text) => c.(host := Deleted(c.host, c.reading(text)), subnets := RemoveFirstOf(c.subnets, text))
  }

  /** Does the call answer, rather than raise? */
  predicate Answers(c: Control, call: Call) {
    match call
    case RemoveDomain(name) => name in c.domains
    case RemoveWildcard(pattern) => pattern in c.wildcards
    case RemoveSubnet(text) => text in c.subnets
    case _ => true
  }

  class RouteControl {
    const shell: ShellAdapter
    const reading: Reading
    var domains: seq<string>
    var wildcards: seq<string>
    var subnets: seq<string>
    var routeIps: map<string, seq<Addr>>

    constructor (shell: ShellAdapter, reading: Reading, domains: seq<string>, wildcards: seq<string>, subnets: seq<string>)
      ensures this.shell == shell
      ensures View() == Control(shell.host, reading, domains, wildcards, subnets, map[])
    {
      this.shell, this.reading := shell, reading;
      this.domains, this.wildcards, this.subnets, routeIps := domains, wildcards, subnets, map[];
    }

    ghost function View(): Control
      reads this, shell
    {
      Control(shell.host, reading, domains, wildcards, subnets, routeIps)
    }

    method RouteAddDomain(name: string, ips: seq<Addr>)
      modifies this, shell
      ensures View() == Served(old(View()), AddDomain(name, ips))
    {
      for i := 0 to |ips|
        invariant shell.host == Run(old(shell.host), Adds(ips[..i]))
        modifies shell
      {
        assert ips[..i + 1][..i] == ips[..i];
        RunConcat(old(shell.host), Adds(ips[..i]), [RouteAdd(ips[i], Device(TUN))]);
        RunOne(shell.host, RouteAdd(ips[i], Device(TUN)));
        shell.Execute(RouteAdd(ips[i], Device(TUN)));
      }
      assert ips[..|ips|] == ips;
      domains := domains + [name];
      routeIps := routeIps[name := ips];
    }

    method RouteRemoveDomain(name: string) returns (ok: bool)
      modifies this, shell
      ensures View() == Served(old(View()), RemoveDomain(name))
      ensures ok <==> Answers(old(View()), RemoveDomain(name))
    {
      var ips := if name in routeIps then routeIps[name] else [];
      routeIps := routeIps - {name};
      for i := 0 to |ips|
        invariant shell.host == Run(old(shell.host), Deletes(ips[..i]))
        modifies shell
      {
        assert ips[..i + 1][..i] == ips[..i];
        RunConcat(old(shell.host), Deletes(ips[..i]), [RouteDelete(ips[i])]);
        RunOne(shell.host, RouteDelete(ips[i]));
        shell.Execute(RouteDelete(ips[i]));
      }
      assert ips[..|ips|] == ips;
      ok := name in domains;
      NothingToRemove(domains, name);
      if ok {
        domains := RemoveFirstOf(domains, name);
      }
    }

    /** A wildcard is only listed: it takes effect when bootstrap loads the routes again. */
    method RouteAddWildcard(pattern: string)
      modifies this`wildcards
      ensures View() == Served(old(View()), AddWildcard(pattern))
    {
      wildcards := wildcards + [pattern];
    }

    method RouteRemoveWildcard(pattern: string) returns (ok: bool)
      modifies this`wildcards
      ensures View() == Served(old(View()), RemoveWildcard(pattern))
      ensures ok <==> Answers(old(View()), RemoveWildcard(pattern))
    {
      ok := pattern in wildcards;
      NothingToRemove(wildcards, pattern);
      if ok {
        wildcards := RemoveFirstOf(wildcards, pattern);
      }
    }

    method RouteAddSubnet(text: string)
      modifies this, shell
      ensures View() == Served(old(View()), AddSubnet(text))
    {
      var p := reading(text);
      if p.Some? {
        shell.Execute(RouteAdd(p.value, Device(TUN)));
      }
      subnets := subnets + [text];
    }

    method RouteRemoveSubnet(text: string) returns (ok: bool)
      modifies this, shell
      ensures View() == Served(old(View()), RemoveSubnet(text))
      ensures ok <==> Answers(old(View()), RemoveSubnet(text))
    {
      var p := reading(text);
      if p.Some? {
        shell.Execute(RouteDelete(p.value));
      }
      ok := text in subnets;
      NothingToRemove(subnets, text);
      if ok {
        subnets := RemoveFirstOf(subnets, text);
      }
    }
  }

  /** The entries a call lists, or takes from the lists. */
  function ListedBy(call: Call): (seq<string>, seq<string>, seq<string>) {
    match call
    case AddDomain(name, _) => ([name], [], [])
    case RemoveDomain(name) => ([name], [], [])
    case AddWildcard(pattern) => ([], [pattern], [])
    case RemoveWildcard(pattern) => ([], [pattern], [])
    case AddSubnet(text) => ([], [], [text])
    case RemoveSubnet(text) => ([], [], [text])
  }

  predicate Removes(call: Call) {
    call.RemoveDomain? || call.RemoveWildcard? || call.RemoveSubnet?
  }

  lemma {:induction false} OneTaken(xs: seq<string>, x: string)
    ensures multiset(RemoveFirstOf(xs, x)) == multiset(xs) - multiset{x}
    ensures x !in xs ==> RemoveFirstOf(xs, x) == xs
  {
    if xs != [] {
      assert xs == [xs[0]] + xs[1..];
      OneTaken(xs[1..], x);
    }
  }

  /** The lists before and after, with what a call added or took. */
  ghost predicate OneMore(before: seq<string>, after: seq<string>, xs: seq<string>) {
    multiset(after) == multiset(before) + multiset(xs)
  }

  ghost predicate OneLess(before: seq<string>, after: seq<string>, xs: seq<string>) {
    multiset(after) == multiset(before) - multiset(xs)
  }

  lemma AdditionOnLists(c: Control, call: Call)
    requires !Removes(call)
    ensures OneMore(c.domains, Served(c, call).domains, ListedBy(call).0)
    ensures OneMore(c.wildcards, Served(c, call).wildcards, ListedBy(call).1)
    ensures OneMore(c.subnets, Served(c, call).subnets, ListedBy(call).2)
  {
  }

  lemma RemovalOnLists(c: Control, call: Call)
    requires Removes(call)
    ensures OneLess(c.domains, Served(c, call).domains, ListedBy(call).0)
    ensures OneLess(c.wildcards, Served(c, call).wildcards, ListedBy(call).1)
    ensures OneLess(c.subnets, Served(c, call).subnets, ListedBy(call).2)
  {
    match call
    case RemoveDomain(name) => OneTaken(c.domains, name);
    case RemoveWildcard(pattern) => OneTaken(c.wildcards, pattern);
    case RemoveSubnet(text) => OneTaken(c.subnets, text);
  }

  lemma RemovalAnswersIff(c: Control, call: Call)
    requires Removes(call)
    ensures Answers(c, call) <==> Entries(Served(c, call)) < Entries(c)
  {
    match call
    case RemoveDomain(name) => Counted(c.domains, name);
    case RemoveWildcard(pattern) => Counted(c.wildcards, pattern);
    case RemoveSubnet(text) => Counted(c.subnets, text);
  }

  /** Additions list one entry more; removals take one, and answer exactly if there was one to take. */
  lemma CallOnLists(c: Control, call: Call)
    ensures var after, xs := Served(c, call), ListedBy(call);
      if Removes(call) then
        OneLess(c.domains, after.domains, xs.0) && OneLess(c.wildcards, after.wildcards, xs.1) && OneLess(c.subnets, after.subnets, xs.2)
      else
        OneMore(c.domains, after.domains, xs.0) && OneMore(c.wildcards, after.wildcards, xs.1) && OneMore(c.subnets, after.subnets, xs.2)
    ensures Removes(call) ==> (Answers(c, call) <==> Entries(Served(c, call)) < Entries(c))
  {
    if Removes(call) {
      RemovalOnLists(c, call);
      RemovalAnswersIff(c, call);
    } else {
      AdditionOnLists(c, call);
    }
  }

  function Entries(c: Control): nat {
    |c.domains| + |c.wildcards| + |c.subnets|
  }

  lemma {:induction false} Counted(xs: seq<string>, x: string)
    ensures |RemoveFirstOf(xs, x)| == |xs| - (if x in xs then 1 else 0)
  {
    if xs != [] {
      Counted(xs[1..], x);
    }
  }

  lemma {:induction false} NothingToRemove(xs: seq<string>, x: string)
    ensures x !in xs ==> RemoveFirstOf(xs, x) == xs
  {
    if x !in xs && xs != [] {
      NothingToRemove(xs[1..], x);
      assert xs == [xs[0]] + xs[1..];
    }
  }

  // ------------------------------------------------------- what the commands do

  function Tunneled(routes: map<Prefix, Hop>, tun0: Link, ips: seq<Addr>): map<Prefix, Hop> {
    if ips == [] then routes
    else AddRoute(Tunneled(routes, tun0, ips[..|ips| - 1]), tun0, ips[|ips| - 1], Device(TUN))
  }

  lemma {:induction false} RunAdds(h: Host, ips: seq<Addr>)
    ensures Run(h, Adds(ips)) == h.(routes := Tunneled(h.routes, h.tun0, ips))
  {
    if ips != [] {
      RunAdds(h, ips[..|ips| - 1]);
      RunConcat(h, Adds(ips[..|ips| - 1]), [RouteAdd(ips[|ips| - 1], Device(TUN))]);
      RunOne(Run(h, Adds(ips[..|ips| - 1])), RouteAdd(ips[|ips| - 1], Device(TUN)));
    }
  }

  lemma {:induction false} RunDeletes(h: Host, ips: seq<Addr>)
    ensures Run(h, Deletes(ips)) == h.(routes := h.routes - (set a | a in ips))
  {
    if ips == [] {
      assert h.routes - (set a | a in ips) == h.routes;
    } else {
      var front, last := ips[..|ips| - 1], ips[|ips| - 1];
      RunDeletes(h, front);
      RunConcat(h, Deletes(front), [RouteDelete(last)]);
      RunOne(Run(h, Deletes(front)), RouteDelete(last));
      assert ips == front + [last];
      assert h.routes - (set a | a in front) - {last} == h.routes - (set a | a in ips);
    }
  }

  /** With the tunnel up, exactly the addresses without a route get one, through the tunnel. */
  lemma {:induction false} TunneledUp(routes: map<Prefix, Hop>, ips: seq<Addr>)
    ensures forall p :: p in Tunneled(routes, Up, ips) <==> p in routes || p in ips
    ensures forall p :: p in Tunneled(routes, Up, ips) ==>
      Tunneled(routes, Up, ips)[p] == if p in routes then routes[p] else Device(TUN)
  {
    if ips != [] {
      TunneledUp(routes, ips[..|ips| - 1]);
      assert ips == ips[..|ips| - 1] + [ips[|ips| - 1]];
    }
  }

  lemma {:induction false} TunneledDown(routes: map<Prefix, Hop>, tun0: Link, ips: seq<Addr>)
    requires tun0 != Up
    ensures Tunneled(routes, tun0, ips) == routes
  {
    if ips != [] {
      TunneledDown(routes, tun0, ips[..|ips| - 1]);
    }
  }

  // -------------------------------------------------------------- add, then remove

  lemma RemoveAppended(xs: seq<string>, x: string)
    ensures multiset(RemoveFirstOf(xs + [x], x)) == multiset(xs)
  {
    RemoveKeepsRest(xs + [x], x);
  }

  lemma {:induction false} RemoveKeepsRest(xs: seq<string>, x: string)
    requires x in xs
    ensures multiset(RemoveFirstOf(xs, x)) == multiset(xs) - multiset{x}
  {
    assert xs == [xs[0]] + xs[1..];
    if xs[0] != x {
      RemoveKeepsRest(xs[1..], x);
    }
  }

  /** The VPN table once `ips` have been added and deleted again. */
  lemma TableAfterBoth(routes: map<Prefix, Hop>, tun0: Link, ips: seq<Addr>)
    ensures Tunneled(routes, tun0, ips) - (set a | a in ips) == routes - (set a | a in ips)
  {
    if tun0 == Up {
      TunneledUp(routes, ips);
    } else {
      TunneledDown(routes, tun0, ips);
    }
  }

  /**
   Adding a domain and removing it again puts the VPN table back if and only if none of
   the addresses it resolved to was routed there before; the domains are always put back.
   */
  lemma AddThenRemoveRestoresIff(c: Control, name: string, ips: seq<Addr>)
    ensures var added := Served(c, AddDomain(name, ips));
      && Answers(added, RemoveDomain(name))
      && (Served(added, RemoveDomain(name)).host == c.host <==> forall a :: a in ips ==> a !in c.host.routes)
      && multiset(Served(added, RemoveDomain(name)).domains) == multiset(c.domains)
      && name !in Served(added, RemoveDomain(name)).routeIps
  {
    var gone := set a | a in ips;
    RunAdds(c.host, ips);
    RunDeletes(Run(c.host, Adds(ips)), ips);
    TableAfterBoth(c.host.routes, c.host.tun0, ips);
    RemoveAppended(c.domains, name);
    if forall a :: a in ips ==> a !in c.host.routes {
      assert c.host.routes - gone == c.host.routes;
    } else {
      var a :| a in ips && a in c.host.routes;
      assert a in gone && a !in c.host.routes - gone;
    }
  }

  // ------------------------------------------------------ the table on record

  predicate Routed(routeIps: map<string, seq<Addr>>, p: Prefix) {
    exists name :: name in routeIps && p in routeIps[name]
  }

  predicate Listed(c: Control, p: Prefix) {
    exists t :: t in c.subnets && c.reading(t) == Some(p)
  }

  /** The prefix has a reason to be in the table: from before the calls, a domain, or a listed subnet. */
  predicate Due(c: Control, base: map<Prefix, Hop>, p: Prefix) {
    p in base || Routed(c.routeIps, p) || Listed(c, p)
  }

  /** The table holds exactly what is due, and sends what the calls added through the tunnel. */
  ghost predicate OnRecord(c: Control, base: map<Prefix, Hop>) {
    && (forall p :: p in c.host.routes <==> Due(c, base, p))
    && (forall p :: p in c.host.routes ==> c.host.routes[p] == if p in base then base[p] else Device(TUN))
  }

  function Forgotten(c: Control, name: string): Control {
    c.(routeIps := c.routeIps - {name})
  }

  function Unlisted(c: Control, text: string): Control {
    c.(subnets := RemoveFirstOf(c.subnets, text))
  }

  /**
   What a call must meet for the table to stay on record. An addition needs the tunnel, or
   the route already; a domain added again must not strand its former addresses; a removal
   must not take a route that something else is the reason for.
   */
  predicate Accounted(c: Control, base: map<Prefix, Hop>, call: Call) {
    match call
    case AddDomain(name, ips) =>
      && (c.host.tun0 == Up || forall a :: a in ips ==> a in c.host.routes)
      && (forall a :: a in IpsOf(c, name) ==> a in ips || Due(Forgotten(c, name), base, a))
    case AddSubnet(text) =>
      c.host.tun0 == Up || c.reading(text).None? || c.reading(text).value in c.host.routes
    case RemoveDomain(name) =>
      forall a :: a in IpsOf(c, name) ==> !Due(Forgotten(c, name), base, a)
    case RemoveSubnet(text) =>
      c.reading(text).None? || !Due(Unlisted(c, text), base, c.reading(text).value)
    case _ => true
  }

  /** A domain's addresses come on top of whatever else is due. */
  lemma DueAfterAdd(c: Control, base: map<Prefix, Hop>, name: string, ips: seq<Addr>, p: Prefix)
    ensures Due(Served(c, AddDomain(name, ips)), base, p) <==> p in ips || Due(Forgotten(c, name), base, p)
    ensures Due(c, base, p) <==> p in IpsOf(c, name) || Due(Forgotten(c, name), base, p)
  {
    var after, rest := c.routeIps[name := ips], c.routeIps - {name};
    RoutedSplit(after, name, p);
    RoutedSplit(c.routeIps, name, p);
    assert after - {name} == rest;
    assert Listed(Served(c, AddDomain(name, ips)), p) == Listed(c, p) == Listed(Forgotten(c, name), p);
  }

  lemma RoutedSplit(routeIps: map<string, seq<Addr>>, name: string, p: Prefix)
    ensures Routed(routeIps, p) <==> (name in routeIps && p in routeIps[name]) || Routed(routeIps - {name}, p)
  {
    if Routed(routeIps, p) && !(name in routeIps && p in routeIps[name]) {
      var n :| n in routeIps && p in routeIps[n];
      assert n in routeIps - {name} && p in (routeIps - {name})[n];
    }
    if Routed(routeIps - {name}, p) {
      var n :| n in routeIps - {name} && p in (routeIps - {name})[n];
      assert n in routeIps && p in routeIps[n];
    }
  }

  lemma AddedRoutes(c: Control, name: string, ips: seq<Addr>)
    ensures var routes := Served(c, AddDomain(name, ips)).host.routes;
      && (forall p :: p in routes <==> p in c.host.routes || (c.host.tun0 == Up && p in ips))
      && (forall p :: p in routes ==> routes[p] == if p in c.host.routes then c.host.routes[p] else Device(TUN))
  {
    RunAdds(c.host, ips);
    if c.host.tun0 == Up {
      TunneledUp(c.host.routes, ips);
    } else {
      TunneledDown(c.host.routes, c.host.tun0, ips);
    }
  }

  lemma AddDomainKeepsIff(c: Control, base: map<Prefix, Hop>, name: string, ips: seq<Addr>)
    requires OnRecord(c, base)
    ensures OnRecord(Served(c, AddDomain(name, ips)), base) <==> Accounted(c, base, AddDomain(name, ips))
  {
    var after := Served(c, AddDomain(name, ips));
    AddedRoutes(c, name, ips);
    forall p ensures Due(after, base, p) <==> p in ips || Due(Forgotten(c, name), base, p)
      ensures Due(c, base, p) <==> p in IpsOf(c, name) || Due(Forgotten(c, name), base, p)
    {
      DueAfterAdd(c, base, name, ips, p);
    }
    if OnRecord(after, base) {
      forall a | a in IpsOf(c, name) ensures a in ips || Due(Forgotten(c, name), base, a) {
        assert a in c.host.routes && a in after.host.routes;
      }
      forall a | a in ips ensures a in after.host.routes {
      }
    }
  }

  /** A domain's addresses are all that its removal takes from the table and from what is due. */
  lemma RemovedRoutes(c: Control, base: map<Prefix, Hop>, name: string)
    ensures var after := Served(c, RemoveDomain(name));
      && after.host.routes == c.host.routes - (set a | a in IpsOf(c, name))
      && (forall p :: Due(after, base, p) <==> Due(Forgotten(c, name), base, p))
  {
    var after := Served(c, RemoveDomain(name));
    RunDeletes(c.host, IpsOf(c, name));
    forall p ensures Due(after, base, p) <==> Due(Forgotten(c, name), base, p) {
      assert Listed(after, p) == Listed(Forgotten(c, name), p);
    }
  }

  lemma RemoveDomainKeepsIff(c: Control, base: map<Prefix, Hop>, name: string)
    requires OnRecord(c, base)
    ensures OnRecord(Served(c, RemoveDomain(name)), base) <==> Accounted(c, base, RemoveDomain(name))
  {
    var ips := IpsOf(c, name);
    var after := Served(c, RemoveDomain(name));
    RemovedRoutes(c, base, name);
    forall p ensures Due(c, base, p) <==> p in ips || Due(Forgotten(c, name), base, p) {
      DueAfterAdd(c, base, name, [], p);
    }
    if OnRecord(after, base) {
      forall a | a in ips ensures !Due(Forgotten(c, name), base, a) {
        assert a !in after.host.routes;
      }
    }
  }

  lemma {:induction false} UnlistedKeepsOthers(xs: seq<string>, x: string, t: string)
    ensures t in RemoveFirstOf(xs, x) ==> t in xs
    ensures t in xs && t != x ==> t in RemoveFirstOf(xs, x)
  {
    if xs != [] {
      UnlistedKeepsOthers(xs[1..], x, t);
    }
  }

  /** Unlisting a text takes the reason from no other prefix than its own. */
  lemma DueAfterUnlisting(c: Control, base: map<Prefix, Hop>, text: string, p: Prefix)
    ensures Due(Unlisted(c, text), base, p) ==> Due(c, base, p)
    ensures Due(c, base, p) && c.reading(text) != Some(p) ==> Due(Unlisted(c, text), base, p)
  {
    var after := Unlisted(c, text);
    if Listed(after, p) {
      var t :| t in after.subnets && c.reading(t) == Some(p);
      UnlistedKeepsOthers(c.subnets, text, t);
    }
    if Listed(c, p) && c.reading(text) != Some(p) {
      var t :| t in c.subnets && c.reading(t) == Some(p);
      UnlistedKeepsOthers(c.subnets, text, t);
      assert t in after.subnets;
    }
  }

  lemma UnlistedRoutes(c: Control, base: map<Prefix, Hop>, text: string)
    ensures var after := Served(c, RemoveSubnet(text));
      && (forall p :: Due(after, base, p) == Due(Unlisted(c, text), base, p))
      && (forall p :: p in after.host.routes <==> p in c.host.routes && c.reading(text) != Some(p))
      && (forall p :: p in after.host.routes ==> after.host.routes[p] == c.host.routes[p])
  {
    var after := Served(c, RemoveSubnet(text));
    forall p ensures Due(after, base, p) == Due(Unlisted(c, text), base, p) {
      assert Listed(after, p) == Listed(Unlisted(c, text), p);
    }
  }

  lemma RemoveSubnetKeepsIff(c: Control, base: map<Prefix, Hop>, text: string)
    requires OnRecord(c, base)
    ensures OnRecord(Served(c, RemoveSubnet(text)), base) <==> Accounted(c, base, RemoveSubnet(text))
  {
    var after := Served(c, RemoveSubnet(text));
    UnlistedRoutes(c, base, text);
    forall p ensures Due(Unlisted(c, text), base, p) ==> Due(c, base, p)
      ensures Due(c, base, p) && c.reading(text) != Some(p) ==> Due(Unlisted(c, text), base, p)
    {
      DueAfterUnlisting(c, base, text, p);
    }
    if c.reading(text).Some? {
      var dst := c.reading(text).value;
      assert OnRecord(after, base) ==> (dst in after.host.routes <==> Due(after, base, dst));
    }
  }

  lemma AddSubnetKeepsIff(c: Control, base: map<Prefix, Hop>, text: string)
    requires OnRecord(c, base)
    ensures OnRecord(Served(c, AddSubnet(text)), base) <==> Accounted(c, base, AddSubnet(text))
  {
    var after := Served(c, AddSubnet(text));
    forall p ensures Due(after, base, p) <==> Due(c, base, p) || c.reading(text) == Some(p) {
      if Listed(c, p) {
        var t :| t in c.subnets && c.reading(t) == Some(p);
        assert t in after.subnets;
      }
      if c.reading(text) == Some(p) {
        assert text in after.subnets;
      }
    }
    if c.reading(text).Some? {
      var dst := c.reading(text).value;
      assert after.host.routes == AddRoute(c.host.routes, c.host.tun0, dst, Device(TUN));
      assert OnRecord(after, base) ==> (dst in after.host.routes <==> Due(after, base, dst));
    }
  }

  lemma WildcardsKeep(c: Control, base: map<Prefix, Hop>, call: Call)
    requires OnRecord(c, base) && (call.AddWildcard? || call.RemoveWildcard?)
    ensures OnRecord(Served(c, call), base)
  {
    var after := Served(c, call);
    forall p ensures Due(after, base, p) == Due(c, base, p) {
      assert Listed(after, p) == Listed(c, p);
    }
  }

  /** A call keeps the table on record if and only if it is accounted for, whatever the call. */
  lemma CallKeepsRecordIff(c: Control, base: map<Prefix, Hop>, call: Call)
    requires OnRecord(c, base)
    ensures OnRecord(Served(c, call), base) <==> Accounted(c, base, call)
  {
    match call
    case AddDomain(name, ips) => AddDomainKeepsIff(c, base, name, ips);
    case RemoveDomain(name) => RemoveDomainKeepsIff(c, base, name);
    case AddSubnet(text) => AddSubnetKeepsIff(c, base, text);
    case RemoveSubnet(text) => RemoveSubnetKeepsIff(c, base, text);
    case AddWildcard(_) => WildcardsKeep(c, base, call);
    case RemoveWildcard(_) => WildcardsKeep(c, base, call);
  }

  // ----------------------------------------------------------- sequences of calls

  function Session(c: Control, calls: seq<Call>): Control
    decreases |calls|
  {
    if calls == [] then c else Session(Served(c, calls[0]), calls[1..])
  }

  ghost predicate AllAccounted(c: Control, base: map<Prefix, Hop>, calls: seq<Call>)
    decreases |calls|
  {
    calls == [] || (Accounted(c, base, calls[0]) && AllAccounted(Served(c, calls[0]), base, calls[1..]))
  }

  ghost predicate AlwaysOnRecord(c: Control, base: map<Prefix, Hop>, calls: seq<Call>) {
    forall k :: 0 <= k <= |calls| ==> OnRecord(Session(c, calls[..k]), base)
  }

  lemma SessionTail(c: Control, calls: seq<Call>, k: nat)
    requires 0 < k <= |calls|
    ensures Session(c, calls[..k]) == Session(Served(c, calls[0]), calls[1..][..k - 1])
  {
    assert calls[..k][1..] == calls[1..][..k - 1];
  }

  /**
   Over any sequence of calls, subnets and shared or repeated addresses included, the table
   is on record after each one if and only if each one is accounted for.
   */
  lemma {:induction false} DynamicRoutesAreOnRecord(c: Control, base: map<Prefix, Hop>, calls: seq<Call>)
    requires OnRecord(c, base)
    ensures AlwaysOnRecord(c, base, calls) <==> AllAccounted(c, base, calls)
    decreases |calls|
  {
    if calls == [] {
      assert calls[..0] == [];
    } else {
      var next := Served(c, calls[0]);
      CallKeepsRecordIff(c, base, calls[0]);
      SessionTail(c, calls, 1);
      assert calls[1..][..0] == [] && Session(c, calls[..1]) == next;
      if OnRecord(next, base) {
        DynamicRoutesAreOnRecord(next, base, calls[1..]);
        RecordLater(c, base, calls);
      }
    }
  }

  lemma RecordLater(c: Control, base: map<Prefix, Hop>, calls: seq<Call>)
    requires calls != [] && OnRecord(c, base)
    ensures AlwaysOnRecord(c, base, calls) <==> AlwaysOnRecord(Served(c, calls[0]), base, calls[1..])
  {
    var next := Served(c, calls[0]);
    assert calls[..0] == [];
    forall k | 0 < k <= |calls| ensures Session(c, calls[..k]) == Session(next, calls[1..][..k - 1]) {
      SessionTail(c, calls, k);
    }
    if AlwaysOnRecord(c, base, calls) {
      forall k | 0 <= k <= |calls[1..]| ensures OnRecord(Session(next, calls[1..][..k]), base) {
        assert OnRecord(Session(c, calls[..k + 1]), base);
      }
    }
  }

  /** When bootstrap has routed what is listed, the table starts on record with itself. */
  lemma StartsOnRecord(c: Control)
    requires c.routeIps == map[] && forall p :: Listed(c, p) ==> p in c.host.routes
    ensures OnRecord(c, c.host.routes)
  {
    assert forall p :: !Routed(c.routeIps, p);
  }

  /** On record, with no domain and no further subnet left, the table is the one it started from. */
  lemma NothingLeftIsBase(c: Control, base: map<Prefix, Hop>)
    requires OnRecord(c, base) && c.routeIps == map[] && forall p :: Listed(c, p) ==> p in base
    ensures c.host.routes == base
  {
    assert forall p :: !Routed(c.routeIps, p);
    forall p ensures p in c.host.routes <==> p in base {
      assert p in c.host.routes <==> Due(c, base, p);
    }
  }

  /** Two domains that share an address: removing the one takes the route the other is recorded for. */
  lemma SharedAddressLost(c: Control, name: string, other: string, first: seq<Addr>, second: seq<Addr>, a: Addr)
    requires name != other && a in first && a in second
    ensures var end := Session(c, [AddDomain(name, first), AddDomain(other, second), RemoveDomain(name)]);
      Routed(end.routeIps, a) && a !in end.host.routes
  {
    var c1 := Served(c, AddDomain(name, first));
    var c2 := Served(c1, AddDomain(other, second));
    ThreeCalls(c, AddDomain(name, first), AddDomain(other, second), RemoveDomain(name));
    RunDeletes(c2.host, first);
    var end := Served(c2, RemoveDomain(name));
    assert other in end.routeIps && a in end.routeIps[other];
  }

  lemma ThreeCalls(c: Control, x: Call, y: Call, z: Call)
    ensures Session(c, [x, y, z]) == Served(Served(Served(c, x), y), z)
  {
    var c1, c2, c3 := Served(c, x), Served(Served(c, x), y), Served(Served(Served(c, x), y), z);
    assert [x, y, z][1..] == [y, z] && [y, z][1..] == [z] && [z][1..] == [];
    assert Session(c3, []) == c3;
    assert Session(c2, [z]) == c3;
    assert Session(c1, [y, z]) == c3;
  }

  /** Adding a domain again, resolved elsewhere, strands the first addresses: no removal deletes them. */
  lemma RepeatedAddStrands(c: Control, name: string, first: seq<Addr>, second: seq<Addr>, a: Addr)
    requires c.host.tun0 == Up && a in first && a !in second
    ensures var end := Session(c, [AddDomain(name, first), AddDomain(name, second), RemoveDomain(name)]);
      a in end.host.routes && name !in end.routeIps
  {
    var c1 := Served(c, AddDomain(name, first));
    var c2 := Served(c1, AddDomain(name, second));
    ThreeCalls(c, AddDomain(name, first), AddDomain(name, second), RemoveDomain(name));
    AddedRoutes(c, name, first);
    AddedRoutes(c1, name, second);
    RunDeletes(c2.host, second);
  }

  /** A domain that came with the configuration has no addresses on record: removing it leaves its routes. */
  lemma ConfiguredDomainKeepsRoutes(c: Control, name: string)
    requires name !in c.routeIps
    ensures Served(c, RemoveDomain(name)).host == c.host
  {
    RunDeletes(c.host, []);
  }

  // ---------------------------------------------------------------- what is routed

  lemma {:induction false} OtherAddresses(routes: map<Prefix, Hop>, after: map<Prefix, Hop>, a: Addr, n: nat)
    requires n <= 32
    requires forall k :: 0 <= k <= n ==> (a[..k] in routes <==> a[..k] in after)
    requires forall k :: 0 <= k <= n && a[..k] in routes ==> routes[a[..k]] == after[a[..k]]
    ensures LookupUpTo(after, a, n) == LookupUpTo(routes, a, n)
  {
    if n > 0 {
      OtherAddresses(routes, after, a, n - 1);
    }
  }

  /**
   After adding a domain its addresses go through the tunnel, unless they had a host route
   of their own; every other address is routed as before, whatever prefixes cover it.
   */
  lemma AddedDomainLookup(c: Control, name: string, ips: seq<Addr>, a: Addr)
    requires c.host.tun0 == Up
    ensures Lookup(Served(c, AddDomain(name, ips)).host.routes, a)
         == if a in ips && a !in c.host.routes then Some(Device(TUN)) else Lookup(c.host.routes, a)
  {
    RunAdds(c.host, ips);
    TunneledUp(c.host.routes, ips);
    var after := Served(c, AddDomain(name, ips)).host.routes;
    assert a[..32] == a;
    if !(a in ips && a !in c.host.routes) {
      forall k | 0 <= k <= 32 ensures a[..k] in c.host.routes <==> a[..k] in after {
        if a[..k] in ips {
          assert |a[..k]| == 32 && a[..k] == a;
        }
      }
      OtherAddresses(c.host.routes, after, a, 32);
    }
  }
}
