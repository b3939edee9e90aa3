/**
 The routes bootstrap puts into the VPN table, from the candidate stream of every
 source to the route the kernel picks for an address.
 */
module Routes {
  import opened Wrappers
  import opened Network
  import opened Subnets
  import opened Egress

  datatype RouteEntry = RouteEntry(subnet: string, via: Option<string>, dev: string, tableId: string)

  /** A route line as the kernel reads it: no destination when the text is refused. */
  datatype Route = Route(dst: Option<Prefix>, hop: Hop)

  function HopOf(e: RouteEntry): Hop {
    if e.via.Some? && e.via.value != "" then Gateway(e.via.value, e.dev) else Device(e.dev)
  }

  function Meaning(e: RouteEntry): Route {
    Route(Parse(e.subnet), HopOf(e))
  }

  function Meanings(entries: seq<RouteEntry>): (r: seq<Route>)
    ensures |r| == |entries| && forall i :: 0 <= i < |entries| ==> r[i] == Meaning(entries[i])
  {
    if entries == [] then [] else Meanings(entries[..|entries| - 1]) + [Meaning(entries[|entries| - 1])]
  }

  // --------------------------------------------------- deduplication by text

  predicate SeenText(entries: seq<RouteEntry>, text: string) {
    exists i :: 0 <= i < |entries| && entries[i].subnet == text
  }

  /** What the loader keeps: the first entry of every text. */
  function FirstTexts(entries: seq<RouteEntry>): seq<RouteEntry> {
    if entries == [] then []
    else
      var n := |entries| - 1;
      if SeenText(entries[..n], entries[n].subnet) then FirstTexts(entries[..n])
      else FirstTexts(entries[..n]) + [entries[n]]
  }

  // ---------------------------------------------------- what the kernel keeps

  function Batch(routes: seq<Route>): seq<Command> {
    if routes == [] then []
    else
      var last := routes[|routes| - 1];
      Batch(routes[..|routes| - 1]) + if last.dst.Some? then [RouteAdd(last.dst.value, last.hop)] else []
  }

  function AddOne(table: map<Prefix, Hop>, tun0: Link, r: Route): map<Prefix, Hop> {
    if r.dst.Some? then AddRoute(table, tun0, r.dst.value, r.hop) else table
  }

  /** The simple form: each route in turn takes its prefix if nothing has it yet. */
  function FirstWins(table: map<Prefix, Hop>, tun0: Link, routes: seq<Route>): map<Prefix, Hop> {
    if routes == [] then table
    else AddOne(FirstWins(table, tun0, routes[..|routes| - 1]), tun0, routes[|routes| - 1])
  }

  lemma {:induction false} RunBatch(h: Host, routes: seq<Route>)
    ensures Run(h, Batch(routes)) == h.(routes := FirstWins(h.routes, h.tun0, routes))
  {
    if routes != [] {
      var before, last := routes[..|routes| - 1], routes[|routes| - 1];
      RunBatch(h, before);
      if last.dst.Some? {
        RunConcat(h, Batch(before), [RouteAdd(last.dst.value, last.hop)]);
        RunOne(Run(h, Batch(before)), RouteAdd(last.dst.value, last.hop));
      } else {
        assert Batch(routes) == Batch(before);
      }
    }
  }

  lemma {:induction false} FirstWinsKeys(table: map<Prefix, Hop>, routes: seq<Route>, p: Prefix)
    ensures p in FirstWins(table, Up, routes) <==>
      p in table || exists i :: 0 <= i < |routes| && routes[i].dst == Some(p)
  {
    if routes != [] {
      var n := |routes| - 1;
      FirstWinsKeys(table, routes[..n], p);
      assert forall i :: 0 <= i < n ==> routes[..n][i] == routes[i];
    }
  }

  /** The table holds the hop of the first route for the prefix. */
  lemma {:induction false} FirstWinsIsFirst(routes: seq<Route>, p: Prefix, i: nat)
    requires i < |routes| && routes[i].dst == Some(p)
    requires forall j :: 0 <= j < i ==> routes[j].dst != Some(p)
    ensures p in FirstWins(map[], Up, routes) && FirstWins(map[], Up, routes)[p] == routes[i].hop
  {
    var n := |routes| - 1;
    if i == n {
      FirstWinsKeys(map[], routes[..n], p);
    } else {
      FirstWinsIsFirst(routes[..n], p, i);
    }
  }

  lemma AddedLast(table: map<Prefix, Hop>, routes: seq<Route>, r: Route)
    ensures FirstWins(table, Up, routes + [r]) == AddOne(FirstWins(table, Up, routes), Up, r)
  {
    assert (routes + [r])[..|routes|] == routes;
  }

  /** A second route for a destination changes nothing. */
  lemma RepeatChangesNothing(table: map<Prefix, Hop>, routes: seq<Route>, r: Route, k: nat)
    requires k < |routes| && routes[k].dst == r.dst
    ensures FirstWins(table, Up, routes + [r]) == FirstWins(table, Up, routes)
  {
    AddedLast(table, routes, r);
    if r.dst.Some? {
      FirstWinsKeys(table, routes, r.dst.value);
    }
  }

  lemma MeaningsOfLast(entries: seq<RouteEntry>, e: RouteEntry)
    ensures Meanings(entries + [e]) == Meanings(entries) + [Meaning(e)]
  {
    assert (entries + [e])[..|entries|] == entries;
  }

  /** Dropping repeated texts never changes the table. */
  lemma {:induction false} DedupPreservesRoutes(table: map<Prefix, Hop>, entries: seq<RouteEntry>)
    ensures FirstWins(table, Up, Meanings(FirstTexts(entries))) == FirstWins(table, Up, Meanings(entries))
  {
    if entries != [] {
      var before, last := entries[..|entries| - 1], entries[|entries| - 1];
      assert entries == before + [last];
      DedupPreservesRoutes(table, before);
      MeaningsOfLast(before, last);
      if SeenText(before, last.subnet) {
        var k :| 0 <= k < |before| && before[k].subnet == last.subnet;
        RepeatChangesNothing(table, Meanings(before), Meaning(last), k);
      } else {
        MeaningsOfLast(FirstTexts(before), last);
        AddedLast(table, Meanings(FirstTexts(before)), Meaning(last));
        AddedLast(table, Meanings(before), Meaning(last));
      }
    }
  }

  // ------------------------------------------------------ reference definition

  predicate Covers(r: Route, a: Addr) {
    r.dst.Some? && r.dst.value <= a
  }

  /** Route `i` decides for `a`: it covers `a`, none covers it more tightly, none as tightly earlier. */
  predicate Decides(routes: seq<Route>, a: Addr, i: nat) {
    && i < |routes|
    && Covers(routes[i], a)
    && forall j :: 0 <= j < |routes| && Covers(routes[j], a) ==>
         || |routes[j].dst.value| < |routes[i].dst.value|
         || (|routes[j].dst.value| == |routes[i].dst.value| && i <= j)
  }

  /** Lookup finds the longest prefix of `a` in the table. */
  lemma {:induction false} LookupIsLongest(routes: map<Prefix, Hop>, a: Addr, n: nat, p: Prefix)
    requires n <= 32 && p in routes && p <= a && |p| <= n
    requires forall q :: q in routes && q <= a && |q| <= n ==> |q| <= |p|
    ensures LookupUpTo(routes, a, n) == Some(routes[p])
  {
    assert a[..|p|] == p;
    if |p| < n {
      assert a[..n] !in routes;
      LookupIsLongest(routes, a, n - 1, p);
    }
  }

  /** Longest match in the first-wins table is the hop of the deciding route. */
  lemma TableDecides(routes: seq<Route>, a: Addr, i: nat)
    requires Decides(routes, a, i)
    ensures Lookup(FirstWins(map[], Up, routes), a) == Some(routes[i].hop)
  {
    var table := FirstWins(map[], Up, routes);
    var p := routes[i].dst.value;
    forall j | 0 <= j < i ensures routes[j].dst != Some(p) {}
    FirstWinsIsFirst(routes, p, i);
    forall q | q in table && q <= a ensures |q| <= |p| {
      FirstWinsKeys(map[], routes, q);
    }
    LookupIsLongest(table, a, 32, p);
  }

  /** Some route decides as soon as one covers the address. */
  lemma {:induction false} SomeDecides(routes: seq<Route>, a: Addr) returns (i: nat)
    requires exists j :: 0 <= j < |routes| && Covers(routes[j], a)
    ensures Decides(routes, a, i)
  {
    var n := |routes| - 1;
    var before := routes[..n];
    assert forall j :: 0 <= j < n ==> before[j] == routes[j];
    if k :| 0 <= k < n && Covers(before[k], a) {
      i := SomeDecides(before, a);
      if Covers(routes[n], a) && |routes[n].dst.value| > |routes[i].dst.value| {
        i := n;
      }
    } else {
      i := n;
    }
  }

  // ------------------------------------------------- with the default route

  const DEFAULT := Route(Some([]), Device(TUN))

  /** `load_batch` of what the loader kept, then `set_default`. */
  function LoadCommands(kept: seq<RouteEntry>): seq<Command> {
    Batch(Meanings(kept)) + [RouteAdd([], Device(TUN))]
  }

  lemma BatchThenRoute(h: Host, routes: seq<Route>, dst: Prefix, hop: Hop)
    ensures Run(h, Batch(routes) + [RouteAdd(dst, hop)])
         == h.(routes := AddRoute(FirstWins(h.routes, h.tun0, routes), h.tun0, dst, hop))
  {
    RunBatch(h, routes);
    RunConcat(h, Batch(routes), [RouteAdd(dst, hop)]);
    RunOne(Run(h, Batch(routes)), RouteAdd(dst, hop));
  }

  /** Loading the deduplicated stream and the default is the fold over the full stream and the default. */
  lemma LoadRefinesFirstWins(h: Host, entries: seq<RouteEntry>)
    requires h.tun0 == Up
    ensures Run(h, LoadCommands(FirstTexts(entries)))
         == h.(routes := FirstWins(h.routes, Up, Meanings(entries) + [DEFAULT]))
  {
    var kept := Meanings(FirstTexts(entries));
    BatchThenRoute(h, kept, [], Device(TUN));
    DedupPreservesRoutes(h.routes, entries);
    AddedLast(h.routes, Meanings(entries), DEFAULT);
  }

  /** Every address is routed, by the candidate that decides in the full stream or else by the default. */
  lemma EveryAddressDecided(h: Host, entries: seq<RouteEntry>, a: Addr) returns (i: nat)
    requires h.tun0 == Up && h.routes == map[]
    ensures var all := Meanings(entries) + [DEFAULT];
      Decides(all, a, i) && Lookup(Run(h, LoadCommands(FirstTexts(entries))).routes, a) == Some(all[i].hop)
  {
    var all := Meanings(entries) + [DEFAULT];
    assert Covers(all[|entries|], a);
    i := SomeDecides(all, a);
    LoadRefinesFirstWins(h, entries);
    TableDecides(all, a, i);
  }
}
