/**
 The part of the Linux network stack the daemon changes, as data, and the effect
 of each command it sends to the shell.

 Addresses are 32 bits, most significant first, so that a prefix covers an
 address exactly when it is a prefix of it as a sequence.
 */
module Network {
  import Text
  import opened Wrappers

  type Addr = a: seq<bool> | |a| == 32 witness seq(32, _ => false)
  type Prefix = p: seq<bool> | |p| <= 32 witness []

  const TUN := "tun0"
  const CHAIN := "VPN_ASUS_OUTPUT"

  datatype Hop = Gateway(via: string, dev: string) | Device(dev: string)
  datatype Table = Main | Vpn | Other(id: string)
  datatype Link = Absent | Down | Up

  /** One `ip rule`; an absent selector matches every packet. */
  datatype Rule = Rule(priority: nat, from: Option<Prefix>, to: Option<Prefix>, mark: Option<nat>, table: Table)

  /** What `ip rule del` is told to look for; attributes it leaves out match anything. */
  datatype Selector =
    | To(dst: Prefix)
    | At(priority: nat)
    | Marked(mark: nat, table: Table, priority: nat)
    | Band(low: nat, high: nat)

  datatype Host = Host(
    rules: seq<Rule>,             // ip rules, in the order the kernel walks them
    routes: map<Prefix, Hop>,     // the VPN routing table
    tun0: Link,
    chain: Option<seq<string>>,   // NAT chain: the interfaces it masquerades
    postrouting: seq<string>,     // jump targets of nat POSTROUTING
    mss: nat,                     // copies of the MSS clamp rule
    ipForward: bool,
    ipv6: bool,
    singbox: set<nat>,            // live sing-box processes
    tun2socks: set<nat>,          // live tun2socks processes
    nextPid: nat
  )

  datatype Command =
    | RuleAdd(rule: Rule)
    | RuleDelete(sel: Selector)
    | RuleDrain(priority: nat)    // while ip rule del priority N; do :; done
    | RulesClear                  // that loop for every priority from 1 to 30
    | RouteAdd(dst: Prefix, hop: Hop)
    | RouteDelete(dst: Prefix)
    | RouteFlush
    | TunAdd
    | TunUp
    | TunDown
    | TunDelete
    | NatNew
    | NatFlush
    | NatAppend(dev: string)
    | NatHook                     // insert the POSTROUTING jump unless the listing mentions the chain
    | NatUnhook
    | NatDelete
    | MssAppend
    | MssDelete
    | IpForward
    | Ipv6(on: bool)
    | PkillSingbox
    | PkillTun2socks
    | KillSingbox(pid: nat)
    | KillTun2socks(pid: nat)
    | SpawnSingbox
    | SpawnTun2socks

  predicate InBand(r: Rule) {
    1 <= r.priority <= 30
  }

  predicate Selects(sel: Selector, r: Rule) {
    match sel
    case To(dst) => r.to == Some(dst)
    case At(p) => r.priority == p
    case Marked(m, t, p) => r.mark == Some(m) && r.table == t && r.priority == p
    case Band(low, high) => low <= r.priority <= high
  }

  /** A new rule goes behind every rule of the same or a smaller priority number. */
  function InsertRule(rules: seq<Rule>, r: Rule): seq<Rule> {
    if rules == [] || r.priority < rules[0].priority then [r] + rules
    else [rules[0]] + InsertRule(rules[1..], r)
  }

  /** `ip rule add`: an identical rule makes it fail. */
  function AddRule(rules: seq<Rule>, r: Rule): seq<Rule> {
    if r in rules then rules else InsertRule(rules, r)
  }

  /** `ip rule del`: only the first match goes. */
  function RemoveFirst(rules: seq<Rule>, sel: Selector): seq<Rule> {
    if rules == [] then []
    else if Selects(sel, rules[0]) then rules[1..]
    else [rules[0]] + RemoveFirst(rules[1..], sel)
  }

  /** Every rule the selector does not match, in order. */
  function Drop(rules: seq<Rule>, sel: Selector): seq<Rule> {
    if rules == [] then []
    else (if Selects(sel, rules[0]) then [] else [rules[0]]) + Drop(rules[1..], sel)
  }

  /** The rules outside the priorities the daemon owns. */
  function Outside(rules: seq<Rule>): seq<Rule> {
    Drop(rules, Band(1, 30))
  }

  /** `ip route add`: first wins, and a route needs its device up. */
  function AddRoute(routes: map<Prefix, Hop>, tun0: Link, dst: Prefix, hop: Hop): map<Prefix, Hop> {
    if dst in routes || (hop.dev == TUN && tun0 != Up) then routes else routes[dst := hop]
  }

  /** Taking the device down removes the routes that use it. */
  function WithoutTun(routes: map<Prefix, Hop>): map<Prefix, Hop> {
    map p | p in routes && routes[p].dev != TUN :: routes[p]
  }

  function RemoveFirstOf(xs: seq<string>, x: string): seq<string> {
    if xs == [] then [] else if xs[0] == x then xs[1..] else [xs[0]] + RemoveFirstOf(xs[1..], x)
  }

  /** Does the text of some POSTROUTING rule contain the chain's name? */
  predicate Mentions(postrouting: seq<string>, name: string) {
    exists i :: 0 <= i < |postrouting| && Text.Contains(postrouting[i], name)
  }

  function Exec(h: Host, c: Command): Host {
    match c
    case RuleAdd(r) => h.(rules := AddRule(h.rules, r))
    case RuleDelete(sel) => h.(rules := RemoveFirst(h.rules, sel))
    case RuleDrain(p) => h.(rules := Drop(h.rules, At(p)))
    case RulesClear => h.(rules := Outside(h.rules))
    case RouteAdd(dst, hop) => h.(routes := AddRoute(h.routes, h.tun0, dst, hop))
    case RouteDelete(dst) => h.(routes := h.routes - {dst})
    case RouteFlush => h.(routes := map[])
    case TunAdd => if h.tun0 == Absent then h.(tun0 := Down) else h
    case TunUp => if h.tun0 == Absent then h else h.(tun0 := Up)
    case TunDown => if h.tun0 == Absent then h else h.(tun0 := Down, routes := WithoutTun(h.routes))
    case TunDelete => if h.tun0 == Absent then h else h.(tun0 := Absent, routes := WithoutTun(h.routes))
    case NatNew => if h.chain == None then h.(chain := Some([])) else h
    case NatFlush => if h.chain == None then h else h.(chain := Some([]))
    case NatAppend(dev) => if h.chain == None then h else h.(chain := Some(h.chain.value + [dev]))
    case NatHook =>
      if h.chain == None || Mentions(h.postrouting, CHAIN) then h
      else h.(postrouting := [CHAIN] + h.postrouting)
    case NatUnhook => h.(postrouting := RemoveFirstOf(h.postrouting, CHAIN))
    case NatDelete => if h.chain == Some([]) && CHAIN !in h.postrouting then h.(chain := None) else h
    case MssAppend => h.(mss := h.mss + 1)
    case MssDelete => if h.mss == 0 then h else h.(mss := h.mss - 1)
    case IpForward => h.(ipForward := true)
    case Ipv6(on) => h.(ipv6 := on)
    case PkillSingbox => h.(singbox := {})
    case PkillTun2socks => h.(tun2socks := {})
    case KillSingbox(pid) => h.(singbox := h.singbox - {pid})
    case KillTun2socks(pid) => h.(tun2socks := h.tun2socks - {pid})
    case SpawnSingbox => h.(singbox := h.singbox + {h.nextPid}, nextPid := h.nextPid + 1)
    case SpawnTun2socks => h.(tun2socks := h.tun2socks + {h.nextPid}, nextPid := h.nextPid + 1)
  }

  function Run(h: Host, cmds: seq<Command>): Host
    decreases |cmds|
  {
    if cmds == [] then h else Run(Exec(h, cmds[0]), cmds[1..])
  }

  lemma {:induction false} RunConcat(h: Host, a: seq<Command>, b: seq<Command>)
    ensures Run(h, a + b) == Run(Run(h, a), b)
    decreases |a|
  {
    if a == [] {
      assert a + b == b;
    } else {
      assert (a + b)[1..] == a[1..] + b;
      RunConcat(Exec(h, a[0]), a[1..], b);
    }
  }

  lemma RunOne(h: Host, c: Command)
    ensures Run(h, [c]) == Exec(h, c)
  {
    assert [c][1..] == [];
    assert Run(Exec(h, c), []) == Exec(h, c);
  }

  lemma RunTwo(h: Host, c: Command, d: Command)
    ensures Run(h, [c, d]) == Exec(Exec(h, c), d)
  {
    assert [c, d] == [c] + [d];
    RunConcat(h, [c], [d]);
    RunOne(h, c);
    RunOne(Exec(h, c), d);
  }

  lemma RunThree(h: Host, c: Command, d: Command, e: Command)
    ensures Run(h, [c, d, e]) == Exec(Exec(Exec(h, c), d), e)
  {
    assert [c, d, e] == [c, d] + [e];
    RunConcat(h, [c, d], [e]);
    RunTwo(h, c, d);
    RunOne(Exec(Exec(h, c), d), e);
  }

  lemma RunStages(h: Host, a: seq<Command>, b: seq<Command>, c: seq<Command>, d: seq<Command>)
    ensures Run(h, a + b + c + d) == Run(Run(Run(Run(h, a), b), c), d)
  {
    RunConcat(h, a + b + c, d);
    RunConcat(h, a + b, c);
    RunConcat(h, a, b);
  }
}
