/** The provider: a cached profile, pinned and sanitised in deep copies. */
module Provider {
  import opened Catalog
  import opened Profile
  import opened Sanitizing
  import opened Wrappers
  import Tags

  // ------------------------------------------------------- the profile on the heap

  /** One dictionary of the parsed document. */
  class Cell<T> {
    var value: T

    constructor (value: T)
      ensures this.value == value
    {
      this.value := value;
    }
  }

  function Values<T>(cells: seq<Cell<T>>): (r: seq<T>)
    reads cells
    ensures |r| == |cells|
  {
    seq(|cells|, i requires 0 <= i < |cells| reads cells => cells[i].value)
  }

  ghost predicate Distinct<T>(cells: seq<Cell<T>>) {
    forall i, j :: 0 <= i < j < |cells| ==> cells[i] != cells[j]
  }

  ghost function Objects<T>(cells: seq<Cell<T>>): (r: set<object>)
    ensures forall c <- cells :: c in r
  {
    set c: Cell<T> | c in cells :: c as object
  }

  method NewCells<T>(values: seq<T>) returns (cells: seq<Cell<T>>)
    ensures fresh(cells) && Distinct(cells) && Values(cells) == values
  {
    cells := [];
    for i := 0 to |values|
      invariant |cells| == i && fresh(cells) && Distinct(cells)
      invariant forall k :: 0 <= k < i ==> cells[k].value == values[k]
    {
      var c := new Cell(values[i]);
      cells := cells + [c];
    }
  }

  method NewRoute(p: Profile) returns (rules: seq<Cell<Rule>>, ruleSets: seq<Cell<RuleSet>>, route: Cell<RouteHead>)
    ensures fresh(rules) && Distinct(rules) && Values(rules) == p.rules
    ensures fresh(ruleSets) && Distinct(ruleSets) && Values(ruleSets) == p.ruleSets
    ensures fresh(route) && route.value == p.route
  {
    rules := NewCells(p.rules);
    ruleSets := NewCells(p.ruleSets);
    route := new Cell(p.route);
  }

  /** A parsed document: its dictionaries, and the lists that hold them. */
  class Tree {
    const outbounds: seq<Cell<Outbound>>
    const route: Cell<RouteHead>
    const rules: seq<Cell<Rule>>
    const ruleSets: seq<Cell<RuleSet>>
    var dnsServers: seq<Cell<DnsServer>>
    const dnsRules: seq<Cell<DnsRule>>
    const experimental: Cell<Experimental>
    const other: Other

    ghost function Cells(): set<object>
      reads this
    {
      Objects(outbounds) + {route} + Objects(rules) + Objects(ruleSets) + Objects(dnsServers) + Objects(dnsRules)
      + {experimental}
    }

    /** No dictionary occurs twice in the tree. */
    ghost predicate Valid()
      reads this
    {
      Distinct(outbounds) && Distinct(rules) && Distinct(ruleSets) && Distinct(dnsServers) && Distinct(dnsRules)
    }

    function View(): Profile
      reads this, outbounds, route, rules, ruleSets, dnsServers, dnsRules, experimental
    {
      Profile(Values(outbounds), route.value, Values(rules), Values(ruleSets), Values(dnsServers),
              Values(dnsRules), experimental.value, other)
    }

    /** json.load: every dictionary is new. */
    constructor Parse(p: Profile)
      ensures Valid() && View() == p
      ensures fresh(outbounds) && fresh(route) && fresh(rules) && fresh(ruleSets) && fresh(dnsServers)
      ensures fresh(dnsRules) && fresh(experimental)
    {
      var os := NewCells(p.outbounds);
      var rs, ss, r := NewRoute(p);
      var ds := NewCells(p.dnsServers);
      var qs := NewCells(p.dnsRules);
      var e := new Cell(p.experimental);
      outbounds, rules, ruleSets, dnsServers, dnsRules, route, experimental, other := os, rs, ss, ds, qs, r, e, p.other;
    }

    /** copy.deepcopy: the same document in dictionaries of its own. */
    method DeepCopy() returns (copy: Tree)
      ensures fresh(copy) && copy.Valid() && copy.View() == View()
      ensures fresh(copy.outbounds) && fresh(copy.route) && fresh(copy.rules) && fresh(copy.ruleSets)
      ensures fresh(copy.dnsServers) && fresh(copy.dnsRules) && fresh(copy.experimental)
    {
      copy := new Tree.Parse(View());
    }
  }

  // ------------------------------------------------------------ sanitising in place

  method RemoveDnsRuleNames(rules: seq<Cell<DnsRule>>)
    requires Distinct(rules)
    modifies rules
    ensures Values(rules) == NamelessDnsRules(old(Values(rules)))
  {
    for i := 0 to |rules|
      invariant forall k :: 0 <= k < i ==> rules[k].value == NamelessDnsRule(old(rules[k].value))
      invariant forall k :: i <= k < |rules| ==> rules[k].value == old(rules[k].value)
    {
      rules[i].value := rules[i].value.(name := None);
    }
  }

  method RemoveRuleNames(rules: seq<Cell<Rule>>)
    requires Distinct(rules)
    modifies rules
    ensures forall k :: 0 <= k < |rules| ==> rules[k].value == NamelessRule(old(rules[k].value))
  {
    for i := 0 to |rules|
      invariant forall k :: 0 <= k < i ==> rules[k].value == NamelessRule(old(rules[k].value))
      invariant forall k :: i <= k < |rules| ==> rules[k].value == old(rules[k].value)
    {
      rules[i].value := rules[i].value.(name := None);
    }
  }

  method NormalizeTags(outbounds: seq<Cell<Outbound>>)
    requires Distinct(outbounds)
    modifies outbounds
    ensures forall k :: 0 <= k < |outbounds| ==> outbounds[k].value == Retagged(old(outbounds[k].value))
  {
    for i := 0 to |outbounds|
      invariant forall k :: 0 <= k < i ==> outbounds[k].value == Retagged(old(outbounds[k].value))
      invariant forall k :: i <= k < |outbounds| ==> outbounds[k].value == old(outbounds[k].value)
    {
      var tag := OrElse(outbounds[i].value.tag, "");
      var normalized := Tags.NormalizeTag(tag);
      EmptyTagIsNormal();
      if normalized != tag {
        outbounds[i].value := outbounds[i].value.(tag := Some(normalized));
      }
    }
  }

  lemma EmptyTagIsNormal()
    ensures Tags.NormalizeTag("") == ""
  {
    Tags.PlainTagUnchanged("");
  }

  method NormalizeRuleReferences(rules: seq<Cell<Rule>>)
    requires Distinct(rules)
    modifies rules
    ensures forall k :: 0 <= k < |rules| ==> rules[k].value == Redirected(old(rules[k].value))
  {
    for i := 0 to |rules|
      invariant forall k :: 0 <= k < i ==> rules[k].value == Redirected(old(rules[k].value))
      invariant forall k :: i <= k < |rules| ==> rules[k].value == old(rules[k].value)
    {
      var name := OrElse(rules[i].value.outbound, "");
      if name != "" && name != SWITCH_TAG {
        rules[i].value := rules[i].value.(outbound := Some(Tags.NormalizeTag(name)));
      }
    }
  }

  method NormalizeMembers(outbounds: seq<Cell<Outbound>>)
    requires Distinct(outbounds)
    modifies outbounds
    ensures forall k :: 0 <= k < |outbounds| ==> outbounds[k].value == Regrouped(old(outbounds[k].value))
  {
    for i := 0 to |outbounds|
      invariant forall k :: 0 <= k < i ==> outbounds[k].value == Regrouped(old(outbounds[k].value))
      invariant forall k :: i <= k < |outbounds| ==> outbounds[k].value == old(outbounds[k].value)
    {
      var o := outbounds[i].value;
      if o.kind in GROUP_KINDS {
        outbounds[i].value := o.(members := NormalizedAll(o.members));
      }
    }
  }

  method RemoveDefaults(outbounds: seq<Cell<Outbound>>)
    requires Distinct(outbounds)
    modifies outbounds
    ensures forall k :: 0 <= k < |outbounds| ==> outbounds[k].value == Undefaulted(old(outbounds[k].value))
  {
    for i := 0 to |outbounds|
      invariant forall k :: 0 <= k < i ==> outbounds[k].value == Undefaulted(old(outbounds[k].value))
      invariant forall k :: i <= k < |outbounds| ==> outbounds[k].value == old(outbounds[k].value)
    {
      if outbounds[i].value.kind in DEFAULT_KINDS {
        outbounds[i].value := outbounds[i].value.(default := None);
      }
    }
  }

  method LocalizeRuleSets(ruleSets: seq<Cell<RuleSet>>, cache: set<string>)
    requires Distinct(ruleSets)
    modifies ruleSets
    ensures Values(ruleSets) == LocalizedSets(old(Values(ruleSets)), cache)
  {
    for i := 0 to |ruleSets|
      invariant forall k :: 0 <= k < i ==> ruleSets[k].value == Localized(old(ruleSets[k].value), cache)
      invariant forall k :: i <= k < |ruleSets| ==> ruleSets[k].value == old(ruleSets[k].value)
    {
      var rs := ruleSets[i].value;
      if rs.kind == Some("remote") {
        var path := CachePath(OrElse(rs.tag, ""));
        if path in cache {
          ruleSets[i].value := rs.(kind := Some("local"), path := Some(path));
          ruleSets[i].value := ruleSets[i].value.(url := None, downloadDetour := None, updateInterval := None);
        }
      }
    }
  }

  /** Servers that stay keep their dictionary; a converted one gets a new dictionary. */
  method SanitizeServers(servers: seq<Cell<DnsServer>>) returns (r: seq<Cell<DnsServer>>)
    requires Distinct(servers)
    ensures Values(r) == SanitizedServers(Values(servers)) && Distinct(r)
    ensures forall c <- r :: c in servers || fresh(c)
  {
    r := [];
    for i := 0 to |servers|
      invariant Values(r) == SanitizedServers(Values(servers)[..i]) && Distinct(r)
      invariant forall c <- r :: c in servers[..i] || fresh(c)
    {
      var s := servers[i].value;
      assert Values(servers)[..i + 1][..i] == Values(servers)[..i];
      if s.kind == Some("batch") {
        var c := new Cell(Converted(s));
        r := r + [c];
      } else if s.kind != Some("predefined") {
        assert servers[i] !in servers[..i] && servers[i] !in r;
        r := r + [servers[i]];
      }
    }
    assert Values(servers)[..|servers|] == Values(servers);
  }

  method SanitizeOutbounds(outbounds: seq<Cell<Outbound>>)
    requires Distinct(outbounds)
    modifies outbounds
    ensures Values(outbounds) == SanitizedOutbounds(old(Values(outbounds)))
  {
    NormalizeTags(outbounds);
    NormalizeMembers(outbounds);
    RemoveDefaults(outbounds);
  }

  method SanitizeRules(rules: seq<Cell<Rule>>)
    requires Distinct(rules)
    modifies rules
    ensures Values(rules) == SanitizedRules(old(Values(rules)))
  {
    RemoveRuleNames(rules);
    NormalizeRuleReferences(rules);
  }

  method SanitizeHead(route: Cell<RouteHead>)
    modifies route
    ensures route.value == SanitizedHead(old(route.value))
  {
    route.value := StrippedHead(route.value);
    if route.value.final.Some? && route.value.final.value != "" {
      route.value := route.value.(final := Some(Tags.NormalizeTag(route.value.final.value)));
    }
  }

  /** The experimental and DNS sections. */
  method SanitizeDns(raw: Tree)
    requires raw.Valid()
    modifies raw, raw.dnsRules, raw.experimental
    ensures raw.Valid()
    ensures raw.experimental.value == old(raw.experimental.value).(statistics := None)
    ensures Values(raw.dnsServers) == SanitizedServers(old(Values(raw.dnsServers)))
    ensures Values(raw.dnsRules) == NamelessDnsRules(old(Values(raw.dnsRules)))
  {
    raw.experimental.value := raw.experimental.value.(statistics := None);
    var kept := SanitizeServers(raw.dnsServers);
    raw.dnsServers := kept;
    RemoveDnsRuleNames(raw.dnsRules);
  }

  method SanitizeRoute(raw: Tree, cache: set<string>)
    requires raw.Valid()
    modifies raw.outbounds, raw.route, raw.rules, raw.ruleSets
    ensures Values(raw.outbounds) == SanitizedOutbounds(old(Values(raw.outbounds)))
    ensures raw.route.value == SanitizedHead(old(raw.route.value))
    ensures Values(raw.rules) == SanitizedRules(old(Values(raw.rules)))
    ensures Values(raw.ruleSets) == LocalizedSets(old(Values(raw.ruleSets)), cache)
  {
    SanitizeOutbounds(raw.outbounds);
    SanitizeHead(raw.route);
    SanitizeRules(raw.rules);
    LocalizeRuleSets(raw.ruleSets, cache);
  }

  method SanitizeConfig(raw: Tree, cache: set<string>)
    requires raw.Valid()
    modifies raw, raw.outbounds, raw.route, raw.rules, raw.ruleSets, raw.dnsRules, raw.experimental
    ensures raw.Valid() && raw.View() == Sanitize(old(raw.View()), cache)
  {
    SanitizeDns(raw);
    SanitizeRoute(raw, cache);
  }

  // ------------------------------------------------------------------- pinning

  method PinConfig(config: Tree, target: string)
    requires config.Valid()
    modifies config.rules, config.route
    ensures config.View() == Pin(old(config.View()), target)
  {
    var rules := config.rules;
    for i := 0 to |rules|
      invariant forall k :: 0 <= k < i ==> rules[k].value == PinnedRule(old(rules[k].value), target)
      invariant forall k :: i <= k < |rules| ==> rules[k].value == old(rules[k].value)
      modifies rules
    {
      if rules[i].value.outbound == Some(SWITCH_TAG) {
        rules[i].value := rules[i].value.(outbound := Some(target));
      }
    }
    if config.route.value.final == Some(SWITCH_TAG) {
      config.route.value := config.route.value.(final := Some(target));
    }
  }

  // --------------------------------------------------------------- the provider

  datatype Error = NoProfile | UnknownServer(name: string)

  /** The server a name stands for in a profile. */
  function Server(p: Profile, name: string): Result<ServerInfo, Error> {
    match Lookup(Catalogue(p.outbounds), name)
    case Some(s) => Ok(s)
    case None => Err(UnknownServer(name))
  }

  /** The configuration for a server, as a function of the profile alone. */
  function Built(p: Profile, name: string, cache: set<string>): Result<Profile, Error> {
    match Server(p, name)
    case Ok(s) => Ok(Sanitize(Pin(p, s.tag), cache))
    case Err(e) => Err(e)
  }

  // ------------------------------------------------------------ sessions of calls

  /** The profile file, absent when it cannot be read, and the parsed copy kept in memory. */
  datatype Store = Store(file: Option<Profile>, cached: Option<Profile>)

  datatype Call =
    | List
    | Get(name: string)
    | Build(name: string, cache: set<string>)
    | Reload
    | Publish(profile: Profile)

  datatype Answer =
    | Servers(servers: Result<seq<ServerInfo>, Error>)
    | Found(server: Result<ServerInfo, Error>)
    | Config(config: Result<Profile, Error>)
    | Done

  /** The profile calls work on: the cached one, else the one on disk. */
  function Current(s: Store): Option<Profile> {
    if s.cached.Some? then s.cached else s.file
  }

  function AnswerOn(current: Option<Profile>, call: Call): Answer {
    match call
    case List => Servers(match current case Some(p) => Ok(Catalogue(p.outbounds)) case None => Err(NoProfile))
    case Get(name) => Found(match current case Some(p) => Server(p, name) case None => Err(NoProfile))
    case Build(name, cache) => Config(match current case Some(p) => Built(p, name, cache) case None => Err(NoProfile))
    case Reload => Done
    case Publish(_) => Done
  }

  /** The store after a call; Publish is the subscription updater writing a new file. */
  function Served(s: Store, call: Call): Store {
    match call
    case Reload => s.(cached := None)
    case Publish(p) => s.(file := Some(p))
    case _ => s.(cached := Current(s))
  }

  function Session(s: Store, calls: seq<Call>): (r: (Store, seq<Answer>))
    ensures |r.1| == |calls|
    decreases |calls|
  {
    if calls == [] then (s, [])
    else
      var rest := Session(Served(s, calls[0]), calls[1..]);
      (rest.0, [AnswerOn(Current(s), calls[0])] + rest.1)
  }

  /**
   Cache isolation over any session: once a profile is loaded, and until a reload, every
   answer is the one a fresh provider gives on that profile, whatever was built before it
   and whatever is written to the file meanwhile.
   */
  lemma {:induction false} AnswersIgnoreHistory(s: Store, calls: seq<Call>, k: nat)
    requires s.cached.Some? && k < |calls| && forall i :: 0 <= i < k ==> calls[i] != Reload
    ensures Session(s, calls).1[k] == AnswerOn(s.cached, calls[k])
    decreases k
  {
    if k > 0 {
      var next := Served(s, calls[0]);
      assert next.cached == s.cached;
      assert calls[1..][k - 1] == calls[k];
      AnswersIgnoreHistory(next, calls[1..], k - 1);
    }
  }

  lemma {:induction false} SessionConcat(s: Store, before: seq<Call>, after: seq<Call>)
    ensures Session(s, before + after).0 == Session(Session(s, before).0, after).0
    ensures Session(s, before + after).1 == Session(s, before).1 + Session(Session(s, before).0, after).1
    decreases |before|
  {
    if before == [] {
      assert before + after == after;
    } else {
      assert (before + after)[1..] == before[1..] + after;
      SessionConcat(Served(s, before[0]), before[1..], after);
    }
  }

  /** After a published profile and a reload, calls answer from the published profile. */
  lemma ReloadSeesPublished(s: Store, before: seq<Call>, p: Profile, call: Call)
    ensures Session(s, before + [Publish(p), Reload, call]).1[|before| + 2] == AnswerOn(Some(p), call)
  {
    var now := Session(s, before).0;
    SessionConcat(s, before, [Publish(p), Reload, call]);
    assert [Publish(p), Reload, call][1..] == [Reload, call] && [Reload, call][1..] == [call];
    var reloaded := Served(Served(now, Publish(p)), Reload);
    assert Current(reloaded) == Some(p);
    assert Session(reloaded, [call]).1[0] == AnswerOn(Some(p), call);
    assert Session(now, [Publish(p), Reload, call]).1[2] == Session(reloaded, [call]).1[0];
  }

  // --------------------------------------------------------------- the provider

  class Disk {
    var profile: Option<Profile>
  }

  class AkonitProvider {
    const disk: Disk
    var profileData: Tree?

    constructor (disk: Disk)
      ensures this.disk == disk && profileData == null
    {
      this.disk := disk;
      profileData := null;
    }

    ghost predicate Valid()
      reads this, if profileData == null then {} else {profileData}
    {
      profileData != null ==> profileData.Valid()
    }

    ghost function State(): Store
      reads this, disk, if profileData == null then {} else {profileData} + profileData.Cells()
    {
      Store(disk.profile, if profileData == null then None else Some(profileData.View()))
    }

    method LoadProfile() returns (r: Result<Tree, Error>)
      requires Valid()
      modifies this`profileData
      ensures Valid() && State() == old(State()).(cached := Current(old(State())))
      ensures r.Ok? <==> Current(old(State())).Some?
      ensures r.Ok? ==> profileData == r.value
    {
      if profileData == null {
        if disk.profile == None {
          return Err(NoProfile);
        }
        profileData := new Tree.Parse(disk.profile.value);
      }
      r := Ok(profileData);
    }

    /** Only the reference is dropped; the next call reads the disk again. */
    method Reload()
      requires Valid()
      modifies this`profileData
      ensures Valid() && State() == Served(old(State()), Call.Reload)
    {
      profileData := null;
    }

    method ListServers() returns (r: Result<seq<ServerInfo>, Error>)
      requires Valid()
      modifies this`profileData
      ensures Valid() && State() == Served(old(State()), List)
      ensures Servers(r) == AnswerOn(Current(old(State())), List)
    {
      var loaded := LoadProfile();
      if loaded.Err? {
        return Err(NoProfile);
      }
      var servers := BuildCatalog(Values(loaded.value.outbounds));
      r := Ok(servers);
    }

    method GetServer(name: string) returns (r: Result<ServerInfo, Error>)
      requires Valid()
      modifies this`profileData
      ensures Valid() && State() == Served(old(State()), Get(name))
      ensures Found(r) == AnswerOn(Current(old(State())), Get(name))
    {
      var servers := ListServers();
      if servers.Err? {
        return Err(NoProfile);
      }
      r := FindServer(servers.value, name);
    }

    /** No dictionary of the cached profile is assigned: the copy alone is pinned and sanitised. */
    method BuildSingboxConfig(name: string, cache: set<string>) returns (r: Result<Profile, Error>)
      requires Valid()
      modifies this`profileData
      ensures Valid() && State() == Served(old(State()), Build(name, cache))
      ensures Config(r) == AnswerOn(Current(old(State())), Build(name, cache))
    {
      var loaded := LoadProfile();
      if loaded.Err? {
        return Err(NoProfile);
      }
      r := BuildFrom(loaded.value, name, cache);
    }
  }

  method FindServer(servers: seq<ServerInfo>, name: string) returns (r: Result<ServerInfo, Error>)
    ensures r == match Lookup(servers, name) case Some(s) => Ok(s) case None => Err(UnknownServer(name))
  {
    for i := 0 to |servers|
      invariant Lookup(servers, name) == Lookup(servers[i..], name)
    {
      if servers[i].name == name {
        return Ok(servers[i]);
      }
    }
    r := Err(UnknownServer(name));
  }

  /** On the copy alone. The guard for a missing outbound never fires. */
  method Configure(config: Tree, server: ServerInfo, cache: set<string>) returns (r: Result<Profile, Error>)
    requires config.Valid() && server in Catalogue(Values(config.outbounds))
    modifies config, config.outbounds, config.route, config.rules, config.ruleSets, config.dnsRules, config.experimental
    ensures r == Ok(Sanitize(Pin(old(config.View()), server.tag), cache))
  {
    ServersAreOutbounds(Values(config.outbounds), server);
    if forall i :: 0 <= i < |config.outbounds| ==> config.outbounds[i].value.tag != Some(server.tag) {
      assert false;
      return Err(UnknownServer(server.name));
    }
    PinConfig(config, server.tag);
    SanitizeConfig(config, cache);
    r := Ok(config.View());
  }

  method ConfigureCopy(tree: Tree, server: ServerInfo, cache: set<string>) returns (r: Result<Profile, Error>)
    requires server in Catalogue(tree.View().outbounds)
    ensures r == Ok(Sanitize(Pin(tree.View(), server.tag), cache))
  {
    var config := tree.DeepCopy();
    r := Configure(config, server, cache);
  }

  /** `build_singbox_config` once the profile is loaded: nothing that existed before is assigned. */
  method BuildFrom(tree: Tree, name: string, cache: set<string>) returns (r: Result<Profile, Error>)
    ensures r == Built(tree.View(), name, cache)
  {
    var servers := BuildCatalog(Values(tree.outbounds));
    var server := FindServer(servers, name);
    if server.Err? {
      return Err(server.error);
    }
    r := ConfigureCopy(tree, server.value, cache);
  }
}
