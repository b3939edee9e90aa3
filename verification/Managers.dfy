/** The services that turn one concern each into shell commands. */
module Managers {
  import opened Wrappers
  import opened Network
  import opened Rules
  import opened Egress
  import opened Shell

  const PRIO_SERVER_IPS := 1
  const PRIO_TORRENT := 20
  const PRIO_CATCHALL := 30

  class RuleManager {
    const shell: ShellAdapter

    constructor (shell: ShellAdapter)
      ensures this.shell == shell
    {
      this.shell := shell;
    }

    method AddServerBypass(ip: Addr)
      modifies shell
      ensures shell.host == old(shell.host).(rules := Bypassed(old(shell.host.rules), ip, 1))
    {
      shell.Execute(RuleDelete(To(ip)));
      shell.Execute(RuleAdd(Rule(PRIO_SERVER_IPS, None, Some(ip), None, Main)));
    }

    method AddDnsBypass(ip: Addr, priority: nat)
      modifies shell
      ensures shell.host == old(shell.host).(rules := Bypassed(old(shell.host.rules), ip, priority))
    {
      shell.Execute(RuleDelete(To(ip)));
      shell.Execute(RuleAdd(Rule(priority, None, Some(ip), None, Main)));
    }

    method AddLanBypass(subnet: Prefix, priority: nat)
      modifies shell
      ensures shell.host == old(shell.host).(rules := AddRule(old(shell.host.rules), BypassRule(subnet, priority)))
    {
      shell.Execute(RuleAdd(Rule(priority, None, Some(subnet), None, Main)));
    }

    method AddTorrentBypass()
      modifies shell
      ensures shell.host == old(shell.host).(rules :=
        AddRule(RemoveFirst(old(shell.host.rules), TORRENT_SELECTOR), TORRENT))
    {
      shell.Execute(RuleDelete(Marked(1, Main, PRIO_TORRENT)));
      shell.Execute(RuleAdd(Rule(PRIO_TORRENT, None, None, Some(1), Main)));
    }

    method AddCatchall()
      modifies shell
      ensures shell.host == old(shell.host).(rules := AddRule(old(shell.host.rules), CATCHALL))
    {
      shell.Execute(RuleAdd(Rule(PRIO_CATCHALL, None, None, None, Vpn)));
    }

    /** Drains priorities 1 to 30; every other rule stays, in order. */
    method ClearAll()
      modifies shell
      ensures shell.host == Exec(old(shell.host), RulesClear)
      ensures forall r :: r in shell.host.rules <==> r in old(shell.host.rules) && !InBand(r)
    {
      ghost var before := shell.host;
      DropNothing(before.rules, Band(1, 0));
      for p := 1 to 31
        invariant shell.host == before.(rules := Drop(before.rules, Band(1, p - 1)))
      {
        shell.Drain(p);
        DropBandStep(before.rules, 1, p - 1);
      }
      DropMembers(before.rules, Band(1, 30));
    }

    method ClearServerBypasses()
      modifies shell
      ensures shell.host == old(shell.host).(rules := Drop(old(shell.host.rules), At(1)))
    {
      shell.Drain(1);
    }
  }

  class TunInterface {
    const shell: ShellAdapter

    constructor (shell: ShellAdapter)
      ensures this.shell == shell
    {
      this.shell := shell;
    }

    method Create()
      modifies shell
      ensures shell.host == old(shell.host).(tun0 := Up)
    {
      shell.Execute(TunAdd);
      shell.Execute(TunUp);
    }

    method Destroy()
      modifies shell
      ensures shell.host == Run(old(shell.host), [TunDown, TunDelete])
      ensures shell.host.tun0 == Absent
    {
      RunTwo(shell.host, TunDown, TunDelete);
      shell.Execute(TunDown);
      shell.Execute(TunDelete);
    }
  }

  class NatManager {
    const shell: ShellAdapter

    constructor (shell: ShellAdapter)
      ensures this.shell == shell
    {
      this.shell := shell;
    }

    /** However often it runs, the chain masquerades the tunnel and the WAN once each and gains at most one hook. */
    method Apply(wan: string)
      modifies shell
      ensures shell.host == old(shell.host).(chain := Some([TUN, wan]), postrouting := shell.host.postrouting)
      ensures shell.host == Run(old(shell.host), NatOn(wan))
      ensures shell.host.postrouting
           == if Mentions(old(shell.host.postrouting), CHAIN) then old(shell.host.postrouting)
              else [CHAIN] + old(shell.host.postrouting)
    {
      ghost var before := shell.host;
      Fill(wan);
      RunConcat(before, NatFill(wan), [NatHook]);
      RunOne(shell.host, NatHook);
      shell.Execute(NatHook);
    }

    /** Creates the chain if need be and rebuilds its contents. */
    method Fill(wan: string)
      modifies shell
      ensures shell.host == old(shell.host).(chain := Some([TUN, wan]))
      ensures shell.host == Run(old(shell.host), NatFill(wan))
    {
      ghost var before := shell.host;
      shell.Execute(NatNew);
      shell.Execute(NatFlush);
      assert shell.host == before.(chain := Some([]));
      shell.Execute(NatAppend(TUN));
      shell.Execute(NatAppend(wan));
      assert [] + [TUN] + [wan] == [TUN, wan];
      RunStages(before, [NatNew], [NatFlush], [NatAppend(TUN)], [NatAppend(wan)]);
      RunOne(before, NatNew);
      RunOne(Exec(before, NatNew), NatFlush);
      RunOne(Exec(Exec(before, NatNew), NatFlush), NatAppend(TUN));
      RunOne(Exec(Exec(Exec(before, NatNew), NatFlush), NatAppend(TUN)), NatAppend(wan));
    }

    /** Gone altogether if it was hooked at most once; otherwise the chain is empty and still hooked. */
    method Remove()
      modifies shell
      ensures shell.host == old(shell.host).(chain := shell.host.chain, postrouting := shell.host.postrouting)
      ensures shell.host.postrouting == RemoveFirstOf(old(shell.host.postrouting), CHAIN)
      ensures shell.host.chain
           == if old(shell.host.chain) == None || CHAIN !in shell.host.postrouting then None else Some([])
    {
      shell.Execute(NatUnhook);
      shell.Execute(NatFlush);
      shell.Execute(NatDelete);
    }
  }

  class MssClamp {
    const shell: ShellAdapter

    constructor (shell: ShellAdapter)
      ensures this.shell == shell
    {
      this.shell := shell;
    }

    method Apply()
      modifies shell
      ensures shell.host == old(shell.host).(mss := old(shell.host.mss) + 1)
    {
      shell.Execute(MssAppend);
    }

    method Remove()
      modifies shell
      ensures shell.host == old(shell.host).(mss := if old(shell.host.mss) == 0 then 0 else old(shell.host.mss) - 1)
    {
      shell.Execute(MssDelete);
    }
  }

  class SysctlManager {
    const shell: ShellAdapter

    constructor (shell: ShellAdapter)
      ensures this.shell == shell
    {
      this.shell := shell;
    }

    method EnableIpForward()
      modifies shell
      ensures shell.host == old(shell.host).(ipForward := true)
    {
      shell.Execute(IpForward);
    }

    method DisableIpv6Wan()
      modifies shell
      ensures shell.host == old(shell.host).(ipv6 := false)
    {
      shell.Execute(Ipv6(false));
    }

    method RestoreIpv6()
      modifies shell
      ensures shell.host == old(shell.host).(ipv6 := true)
    {
      shell.Execute(Ipv6(true));
    }
  }

  /** Owns the one tun2socks process. */
  class Tun2SocksManager {
    const shell: ShellAdapter
    var handle: Option<nat>

    constructor (shell: ShellAdapter)
      ensures this.shell == shell && handle == None
    {
      this.shell := shell;
      handle := None;
    }

    predicate IsAlive()
      reads this, shell
    {
      handle.Some? && handle.value in shell.host.tun2socks
    }

    /**
     Stops the old process first, so that starting leaves exactly one more than the strangers.
     When the new one cannot be launched the old handle stays.
     */
    method Start(launches: bool) returns (pid: Option<nat>)
      modifies this, shell
      ensures launches ==> shell.host == Run(old(shell.host), StartCommands(old(handle)))
      ensures launches ==> handle == pid == Some(old(shell.host.nextPid))
      ensures !launches ==> shell.host == Run(old(shell.host), KillOldTunnel(old(handle)))
      ensures !launches ==> handle == old(handle) && pid == None
    {
      ghost var before := shell.host;
      StopOld();
      StartSplits(handle);
      RunConcat(before, KillOldTunnel(handle), [SpawnTun2socks]);
      if !launches {
        return None;
      }
      RunOne(shell.host, SpawnTun2socks);
      pid := Some(shell.host.nextPid);
      KillsKeepPid(before, handle);
      shell.Execute(SpawnTun2socks);
      handle := pid;
    }

    method StopOld()
      modifies shell
      ensures shell.host == Run(old(shell.host), KillOldTunnel(handle))
    {
      if handle.Some? {
        RunOne(shell.host, KillTun2socks(handle.value));
        if IsAlive() {
          shell.Execute(KillTun2socks(handle.value));
        } else {
          KillDead(shell.host, handle.value);
        }
      }
    }
  }

  /** What a start does before it launches the new process. */
  function KillOldTunnel(handle: Option<nat>): seq<Command> {
    if handle.Some? then [KillTun2socks(handle.value)] else []
  }

  lemma StartSplits(handle: Option<nat>)
    ensures StartCommands(handle) == KillOldTunnel(handle) + [SpawnTun2socks]
  {
  }

  lemma KillsKeepPid(h: Host, handle: Option<nat>)
    ensures Run(h, KillOldTunnel(handle)).nextPid == h.nextPid
  {
    if handle.Some? {
      RunOne(h, KillTun2socks(handle.value));
    }
  }

  function NatFill(wan: string): seq<Command> {
    [NatNew] + [NatFlush] + [NatAppend(TUN)] + [NatAppend(wan)]
  }

  function NatOn(wan: string): seq<Command> {
    NatFill(wan) + [NatHook]
  }

  function StartCommands(handle: Option<nat>): seq<Command> {
    if handle.Some? then [KillTun2socks(handle.value), SpawnTun2socks] else [SpawnTun2socks]
  }

  /** Signalling a process that is already gone changes nothing. */
  lemma KillDead(h: Host, pid: nat)
    requires pid !in h.tun2socks
    ensures Exec(h, KillTun2socks(pid)) == h
  {
    assert h.tun2socks - {pid} == h.tun2socks;
  }
}
