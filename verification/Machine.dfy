/** The state machine engine: the object whose handlers and IPC calls drive the daemon. */
module Machine {
  import opened Wrappers
  import opened Network
  import opened Egress
  import opened Routes
  import opened Managers
  import opened Loading
  import opened Lifecycle
  import opened Daemon
  import opened Orchestrator

  class VpnStateMachine {
    const ctx: RuntimeContext
    const orchestrator: VpnOrchestrator
    var state: State
    var instance: nat
    var timer: Option<nat>
    var armed: set<nat>
    var tasks: nat
    var queue: seq<Event>
    var boots: seq<Boot>
    var exited: bool
    ghost var log: seq<Mark>

    ghost predicate Valid() {
      orchestrator.Wired()
    }

    ghost function View(): Daemon
      reads this, ctx, orchestrator.shell, orchestrator.tun2socks
    {
      Daemon(state, instance, timer, armed, tasks, queue, boots, ctx.View(), orchestrator.tun2socks.handle,
             orchestrator.shell.host, log, exited)
    }

    /** Builds the machine and enters BOOTSTRAPPING, as `run` does first. */
    constructor (orchestrator: VpnOrchestrator)
      requires orchestrator.Wired() && orchestrator.tun2socks.handle == None
      ensures Valid() && this.orchestrator == orchestrator && fresh(ctx)
      ensures View() == Boots(orchestrator.shell.host)
    {
      ctx := new RuntimeContext();
      this.orchestrator := orchestrator;
      state, instance, timer, armed, tasks := Bootstrapping, 1, Some(0), {0}, 1;
      queue, boots, exited := [], [Boot(1, 0, "")], false;
      log := [Entered(Bootstrapping)];
      new;
      assert [] + [Entered(Bootstrapping)] == [Entered(Bootstrapping)];
      assert [] + [Boot(1, 0, "")] == [Boot(1, 0, "")];
      assert {} + {0} == {0};
    }

    method ArmTimer()
      modifies this`timer, this`armed, this`tasks
      ensures View() == Arm(old(View()))
    {
      timer := Some(tasks);
      armed := armed + {tasks};
      tasks := tasks + 1;
    }

    method CancelTimer()
      modifies this`timer, this`armed
      ensures View() == Leave(old(View()))
    {
      if timer.Some? {
        armed := armed - {timer.value};
        timer := None;
      }
    }

    /** Exits the current state, then enters the new one; FAILED tears down and exits the process. */
    method TransitionTo(s: State)
      requires Valid()
      modifies this, ctx, orchestrator.shell
      ensures View() == Transition(old(View()), s)
    {
      CancelTimer();
      OnEnter(s);
    }

    method OnEnter(s: State)
      requires Valid()
      modifies this, ctx, orchestrator.shell
      ensures View() == Enter(old(View()), s)
    {
      NewInstance(s);
      match s {
        case Bootstrapping => StartBootstrap();
        case Healthy => ctx.failStreak := 0;
        case Restarting => CountRecovery();
        case Failed => Exit();
        case Degraded =>
        case Stopped =>
      }
    }

    method NewInstance(s: State)
      modifies this`state, this`instance, this`log
      ensures View() == Begin(old(View()), s)
    {
      state := s;
      instance := instance + 1;
      log := log + [Entered(s)];
    }

    /** Arms the timer and spawns a bootstrap task. */
    method StartBootstrap()
      modifies this`timer, this`armed, this`tasks, this`boots
      ensures View() == Settle(old(View()), Bootstrapping)
    {
      ArmTimer();
      boots := boots + [Boot(instance, 0, "")];
    }

    /** Counts the recovery and arms the timer; nothing is restarted. */
    method CountRecovery()
      modifies this`timer, this`armed, this`tasks, ctx
      ensures View() == Settle(old(View()), Restarting)
    {
      ctx.recoveryCount := ctx.recoveryCount + 1;
      ArmTimer();
    }

    /** Tears the network down; leaving the process cancels every task of the loop. */
    method Exit()
      requires Valid()
      modifies this`exited, this`boots, this`armed, orchestrator.shell
      ensures View() == old(View()).(host := TornDown(old(orchestrator.shell.host)), exited := true, boots := [], armed := {})
    {
      orchestrator.TeardownNetwork();
      exited, boots, armed := true, [], {};
    }

    method HandleBootstrapping(e: Event)
      requires Valid()
      modifies this, ctx, orchestrator.shell
      ensures View() == InBootstrapping(old(View()), e)
    {
      if e.BootstrapDone? {
        TransitionTo(Healthy);
      } else if e == ShutdownRequested {
        TransitionTo(Failed);
      } else if e == SingboxDied {
        TransitionTo(Restarting);
      } else if e == Timeout {
        ctx.lastError := Some(BOOTSTRAP_ERROR);
        TransitionTo(Failed);
      }
    }

    method HandleHealthy(e: Event)
      requires Valid()
      modifies this, ctx, orchestrator.shell
      ensures View() == InHealthy(old(View()), e)
    {
      if e == HealthFail {
        ctx.failStreak := ctx.failStreak + 1;
        TransitionTo(Degraded);
      } else if e == ShutdownRequested {
        TransitionTo(Failed);
      } else if e.ServerChangeRequested? {
        ctx.targetServer := Some(e.server);
        TransitionTo(Bootstrapping);
      } else if e == RestartRequested {
        TransitionTo(Restarting);
      } else if e == TunnelDied {
        TransitionTo(Restarting);
      }
    }

    method HandleDegraded(e: Event)
      requires Valid()
      modifies this, ctx, orchestrator.shell
      ensures View() == InDegraded(old(View()), e)
    {
      if e == HealthOk {
        TransitionTo(Healthy);
      } else if e == HealthFail {
        ctx.failStreak := ctx.failStreak + 1;
        if ctx.failStreak >= 3 {
          TransitionTo(Restarting);
        }
      } else if e == ShutdownRequested {
        TransitionTo(Failed);
      } else if e == TunnelDied {
        TransitionTo(Restarting);
      }
    }

    method HandleRestarting(e: Event)
      requires Valid()
      modifies this, ctx, orchestrator.shell
      ensures View() == InRestarting(old(View()), e)
    {
      if e.BootstrapDone? {
        TransitionTo(Healthy);
      } else if e == Timeout {
        ctx.lastError := Some(RESTART_ERROR);
        TransitionTo(Failed);
      } else if e == ShutdownRequested {
        TransitionTo(Failed);
      } else if e == TunnelDied {
        ctx.lastError := Some(TUNNEL_ERROR);
        TransitionTo(Failed);
      }
    }

    /** One turn of the loop in `run`: take an event, let the current state handle it. */
    method RunOnce()
      requires Valid() && queue != []
      modifies this, ctx, orchestrator.shell
      ensures View() == Turn(old(View()))
    {
      var e := queue[0];
      queue := queue[1..];
      log := log + [Handled(e)];
      match state {
        case Bootstrapping => HandleBootstrapping(e);
        case Healthy => HandleHealthy(e);
        case Degraded => HandleDegraded(e);
        case Restarting => HandleRestarting(e);
        case Stopped =>
          if e == RestartRequested {
            TransitionTo(Bootstrapping);
          }
        case Failed =>
      }
    }

    method PostEvent(e: Event)
      modifies this`queue
      ensures View() == old(View()).(queue := old(queue) + [e])
    {
      queue := queue + [e];
    }

    /** The timeout task wakes up: it is done, and its event is queued. */
    method Expire(task: nat)
      requires task in armed && !exited
      modifies this`queue, this`armed
      ensures View() == Step(old(View()), Fire(task))
    {
      armed := armed - {task};
      queue := queue + [Timeout];
    }

    // ------------------------------------------------------ bootstrap segments

    /** Bootstrap `i` resumes at its first segment. */
    method ResumeStart(i: nat, launched: bool, topology: Option<Topology>)
      requires Valid() && i < |boots| && boots[i].stage == 0
      modifies this, ctx, orchestrator.shell
      ensures forall f: Findings ::
        launched && topology.Some? && f.gateway == topology.value.gateway && f.interface == topology.value.interface ==>
          View() == Advance(old(View()), i, f)
      ensures launched && topology.None? ==> forall f: Findings ::
        View() == Crash(old(View()), i, f, |StartingCommands()|)
      ensures !launched ==> forall f: Findings ::
        View() == Crash(old(View()), i, f, |TeardownCommands()|)
    {
      ghost var before := View();
      var ok := orchestrator.StartSegment(ctx, launched, topology);
      if ok {
        boots := boots[i := Boot(boots[i].origin, 1, topology.value.interface)];
        StartedSegment(before, i, topology.value, View());
      } else {
        LoseBoot(i);
        StartCut(before, i, launched, View());
      }
    }

    /** Bootstrap `i` resumes at its second segment, in which loading the routes may raise. */
    method ResumeRouting(i: nat, servers: seq<Addr>, sources: Option<Sources>, dns: Dns)
      requires Valid() && i < |boots| && boots[i].stage == 1
      modifies this, orchestrator.shell, orchestrator.loader
      ensures sources.Some? ==> forall f: Findings ::
        f.plan == Plan(servers, orchestrator.dnsServers, orchestrator.lanSubnets, FirstTexts(Candidates(sources.value, dns))) ==>
          View() == Advance(old(View()), i, f)
      ensures sources.None? ==> forall f: Findings ::
        f.plan.servers == servers && f.plan.dns == orchestrator.dnsServers && f.plan.lan == orchestrator.lanSubnets ==>
          View() == Crash(old(View()), i, f, |StagingCommands(f.plan)|)
    {
      ghost var before := View();
      var ok := orchestrator.RoutingSegment(servers, sources, dns);
      if ok {
        NextStage(i);
        RoutedSegment(before, i, Plan(servers, orchestrator.dnsServers, orchestrator.lanSubnets,
          FirstTexts(Candidates(sources.value, dns))), View());
      } else {
        LoseBoot(i);
        StagedHalf(before, i, servers, orchestrator.dnsServers, orchestrator.lanSubnets, View());
      }
    }

    method NextStage(i: nat)
      requires i < |boots|
      modifies this`boots
      ensures View() == old(View()).(boots := old(boots)[i := old(boots[i]).(stage := old(boots[i]).stage + 1)])
    {
      boots := boots[i := boots[i].(stage := boots[i].stage + 1)];
    }

    /** A bootstrap that raised is gone, and its wrapper has reported a dead sing-box. */
    method LoseBoot(i: nat)
      requires i < |boots|
      modifies this`boots, this`queue
      ensures View() == old(View()).(boots := Without(old(boots), i), queue := old(queue) + [SingboxDied])
    {
      boots := boots[..i] + boots[i + 1..];
      queue := queue + [SingboxDied];
    }

    /** Bootstrap `i` resumes at its third segment, in which tun2socks or the catalogue may fail. */
    method ResumeFirewall(i: nat, launches: bool, first: Option<Option<string>>)
      requires Valid() && i < |boots| && boots[i].stage >= 2
      modifies this, ctx, orchestrator.shell, orchestrator.tun2socks
      ensures launches && first.Some? ==> forall f: Findings ::
        f.server == (if first.value.Some? then first.value.value else "unknown") ==> View() == Advance(old(View()), i, f)
      ensures launches && first.None? ==> forall f: Findings ::
        View() == Crash(old(View()), i, f, |Segment(old(boots[i]), old(View()).handle, f)|)
      ensures !launches ==> forall f: Findings ::
        View() == Crash(old(View()), i, f, |Segment(old(boots[i]), old(View()).handle, f)| - 1)
    {
      var origin := boots[i].origin;
      ghost var wan := boots[i].wan;
      var ok := orchestrator.FirewallSegment(ctx, boots[i].wan, launches, first);
      boots := boots[..i] + boots[i + 1..];
      if ok {
        queue := queue + [BootstrapDone(origin)];
      } else {
        queue := queue + [SingboxDied];
        LastCommandLeft(wan, old(View()).handle);
      }
    }

    // -------------------------------------------------------------------- IPC

    /** `_apply_server`: each exception leaves what was done before it. */
    method ApplyServer(server: string, how: Applying) returns (ok: bool)
      requires Valid()
      modifies ctx, orchestrator.shell, orchestrator.tun2socks
      ensures ok <==> how.Applied?
      ensures View() == Apply(old(View()), server, how)
    {
      if how.UnknownServer? {
        return false;
      }
      if how.SpawnFailed? {
        KillCurrent();
        return false;
      }
      ghost var before := View();
      RestartSingbox();
      ghost var mid := View();
      ok := ApplyTunnel(server, how);
      if how.Applied? {
        ApplyAssembled(before, mid, View(), server, how.ips, View().host);
      } else {
        ApplyHalfway(before, server);
        assert how.PortClosed? || how == TunnelFailed;
      }
    }

    /** From the wait for the SOCKS port on. */
    method ApplyTunnel(server: string, how: Applying) returns (ok: bool)
      requires Valid() && !how.UnknownServer? && !how.SpawnFailed?
      modifies ctx`tun2socks, ctx`activeServer, orchestrator.shell, orchestrator.tun2socks
      ensures ok <==> how.Applied?
      ensures how.PortClosed? ==> View() == old(View())
      ensures how.TunnelFailed? ==> View() == old(View()).(
        host := Run(old(View()).host, KillOldTunnel(old(View()).handle)))
      ensures how.Applied? ==> View() == old(View()).(
        host := Run(Run(Run(old(View()).host, StartCommands(old(View()).handle)), [RuleDrain(1)]), ServerCommands(how.ips)),
        ctx := old(View()).ctx.(tun2socks := Some(old(View()).host.nextPid), activeServer := Some(server)),
        handle := Some(old(View()).host.nextPid))
    {
      if how.PortClosed? {
        return false;
      }
      if how.TunnelFailed? {
        var none := orchestrator.tun2socks.Start(false);
        return false;
      }
      FinishApply(server, how.ips);
      ok := true;
    }

    method RestartSingbox()
      requires Valid()
      modifies ctx`singbox, orchestrator.shell
      ensures orchestrator.shell.host == Run(old(orchestrator.shell.host), KillOld(old(ctx.singbox)) + [SpawnSingbox])
      ensures orchestrator.shell.host.nextPid == old(orchestrator.shell.host.nextPid) + 1
      ensures ctx.singbox == Some(old(orchestrator.shell.host.nextPid))
    {
      RunConcat(orchestrator.shell.host, KillOld(ctx.singbox), [SpawnSingbox]);
      KillCurrent();
      RunOne(orchestrator.shell.host, SpawnSingbox);
      Spawned(orchestrator.shell.host);
      orchestrator.Launch(ctx);
    }

    method FinishApply(server: string, ips: seq<Addr>)
      requires Valid()
      modifies ctx`tun2socks, ctx`activeServer, orchestrator.shell, orchestrator.tun2socks
      ensures orchestrator.shell.host
           == Run(Run(Run(old(orchestrator.shell.host), StartCommands(old(orchestrator.tun2socks.handle))), [RuleDrain(1)]),
                  ServerCommands(ips))
      ensures ctx.tun2socks == orchestrator.tun2socks.handle == Some(old(orchestrator.shell.host.nextPid))
      ensures ctx.activeServer == Some(server)
    {
      ctx.tun2socks := orchestrator.tun2socks.Start(true);
      RebypassServers(ips);
      ctx.activeServer := Some(server);
    }

    method KillCurrent()
      requires Valid()
      modifies orchestrator.shell
      ensures orchestrator.shell.host == Run(old(orchestrator.shell.host), KillOld(ctx.singbox))
      ensures orchestrator.shell.host.nextPid == old(orchestrator.shell.host.nextPid)
    {
      if ctx.singbox.Some? {
        RunOne(orchestrator.shell.host, KillSingbox(ctx.singbox.value));
        orchestrator.shell.Execute(KillSingbox(ctx.singbox.value));
      }
    }

    method RebypassServers(ips: seq<Addr>)
      requires Valid()
      modifies orchestrator.shell
      ensures orchestrator.shell.host
           == Run(Run(old(orchestrator.shell.host), [RuleDrain(1)]), ServerCommands(ips))
    {
      ghost var before := orchestrator.shell.host;
      RunOne(before, RuleDrain(1));
      orchestrator.rules.ClearServerBypasses();
      RunServers(orchestrator.shell.host, ips);
      orchestrator.AddServers(ips);
    }

    /** `stop`: kills both processes, removes every trace and parks in STOPPED. */
    method Stop()
      requires Valid()
      modifies this, ctx, orchestrator.shell
      ensures View() == Transition(old(View()).(host := Run(old(View()).host, StopCommands(old(ctx.View())))), Stopped)
    {
      ghost var before := orchestrator.shell.host;
      ghost var kill, killTunnel := KillOld(ctx.singbox), KillOldTunnel(ctx.tun2socks);
      RunStages(before, kill, killTunnel, [TunDown, TunDelete, RouteFlush, RulesClear], FIREWALL_OFF);
      KillCurrent();
      if ctx.tun2socks.Some? {
        RunOne(orchestrator.shell.host, KillTun2socks(ctx.tun2socks.value));
        orchestrator.shell.Execute(KillTun2socks(ctx.tun2socks.value));
      }
      StopNetwork();
      TransitionTo(Stopped);
    }

    method StopNetwork()
      requires Valid()
      modifies orchestrator.shell
      ensures orchestrator.shell.host
           == Run(Run(old(orchestrator.shell.host), [TunDown, TunDelete, RouteFlush, RulesClear]), FIREWALL_OFF)
    {
      ghost var before := orchestrator.shell.host;
      assert [TunDown, TunDelete, RouteFlush, RulesClear] == [TunDown, TunDelete] + [RouteFlush, RulesClear];
      RunConcat(before, [TunDown, TunDelete], [RouteFlush, RulesClear]);
      orchestrator.tun.Destroy();
      RunTwo(orchestrator.shell.host, RouteFlush, RulesClear);
      orchestrator.routeTable.Flush();
      orchestrator.rules.ClearAll();
      RunFirewallOff(orchestrator.shell.host);
      orchestrator.nat_.Remove();
      orchestrator.mss.Remove();
      orchestrator.sysctl.RestoreIpv6();
    }

    /** `start`: an idempotent mini-cleanup, then BOOTSTRAPPING, whatever the state was. */
    method Start()
      requires Valid()
      modifies this, ctx, orchestrator.shell
      ensures View() == Transition(old(View()).(host := Run(old(View()).host, StartOverCommands())), Bootstrapping)
    {
      StartNetwork();
      TransitionTo(Bootstrapping);
    }

    method StartNetwork()
      requires Valid()
      modifies orchestrator.shell
      ensures orchestrator.shell.host == Run(old(orchestrator.shell.host), StartOverCommands())
    {
      StartOverStages(orchestrator.shell.host);
      StartCleanup();
      RunNatOff(orchestrator.shell.host);
      orchestrator.nat_.Remove();
      ClearClampAndRules();
    }

    method ClearClampAndRules()
      requires Valid()
      modifies orchestrator.shell
      ensures orchestrator.shell.host == Run(old(orchestrator.shell.host), [MssDelete, RulesClear])
    {
      RunTwo(orchestrator.shell.host, MssDelete, RulesClear);
      orchestrator.mss.Remove();
      orchestrator.rules.ClearAll();
    }

    method StartCleanup()
      modifies orchestrator.shell
      ensures orchestrator.shell.host
           == Run(old(orchestrator.shell.host), LEFTOVERS_OFF)
    {
      ghost var before := orchestrator.shell.host;
      assert LEFTOVERS_OFF
        == [TunDelete, RouteFlush] + [PkillSingbox, PkillTun2socks];
      RunConcat(before, [TunDelete, RouteFlush], [PkillSingbox, PkillTun2socks]);
      RunTwo(before, TunDelete, RouteFlush);
      orchestrator.shell.Execute(TunDelete);
      orchestrator.shell.Execute(RouteFlush);
      RunTwo(orchestrator.shell.host, PkillSingbox, PkillTun2socks);
      orchestrator.shell.Execute(PkillSingbox);
      orchestrator.shell.Execute(PkillTun2socks);
    }
  }

  /** A complete first segment, of whose findings only the topology matters. */
  lemma StartedSegment(d: Daemon, i: nat, t: Topology, after: Daemon)
    requires i < |d.boots| && d.boots[i].stage == 0
    requires after == d.(
      host := Run(d.host, StartingCommands()),
      ctx := d.ctx.(singbox := Some(d.host.nextPid), gateway := Some(t.gateway), interface := Some(t.interface)),
      boots := d.boots[i := Boot(d.boots[i].origin, 1, t.interface)])
    ensures forall f: Findings :: f.gateway == t.gateway && f.interface == t.interface ==> after == Advance(d, i, f)
  {
  }

  /** A first segment cut off before the launch of sing-box or right after it. */
  lemma StartCut(d: Daemon, i: nat, launched: bool, after: Daemon)
    requires i < |d.boots| && d.boots[i].stage == 0
    requires after == d.(
      host := Run(d.host, if launched then StartingCommands() else TeardownCommands()),
      ctx := d.ctx.(singbox := if launched then Some(d.host.nextPid) else d.ctx.singbox),
      boots := Without(d.boots, i), queue := d.queue + [SingboxDied])
    ensures launched ==> forall f: Findings :: after == Crash(d, i, f, |StartingCommands()|)
    ensures !launched ==> forall f: Findings :: after == Crash(d, i, f, |TeardownCommands()|)
  {
    assert StartingCommands()[..|StartingCommands()|] == StartingCommands();
    assert StartingCommands()[..|TeardownCommands()|] == TeardownCommands();
  }

  /** A complete routing segment, of whose findings only the plan matters. */
  lemma RoutedSegment(d: Daemon, i: nat, p: Plan, after: Daemon)
    requires i < |d.boots| && d.boots[i].stage == 1
    requires after == d.(host := Run(d.host, RoutingCommands(p)), boots := d.boots[i := d.boots[i].(stage := 2)])
    ensures forall f: Findings :: f.plan == p ==> after == Advance(d, i, f)
  {
  }

  /** A routing segment cut off after its bypasses. */
  lemma StagedHalf(d: Daemon, i: nat, servers: seq<Addr>, dns: seq<Addr>, lan: seq<Prefix>, after: Daemon)
    requires i < |d.boots| && d.boots[i].stage == 1
    requires after == d.(
      host := Run(d.host, StagingCommands(Plan(servers, dns, lan, []))),
      boots := Without(d.boots, i), queue := d.queue + [SingboxDied])
    ensures forall f: Findings :: f.plan.servers == servers && f.plan.dns == dns && f.plan.lan == lan ==>
      && |StagingCommands(f.plan)| <= |Segment(d.boots[i], d.handle, f)|
      && after == Crash(d, i, f, |StagingCommands(f.plan)|)
  {
    forall f: Findings | f.plan.servers == servers && f.plan.dns == dns && f.plan.lan == lan
      ensures |StagingCommands(f.plan)| <= |Segment(d.boots[i], d.handle, f)|
      ensures after == Crash(d, i, f, |StagingCommands(f.plan)|)
    {
      var staging := StagingCommands(f.plan);
      assert staging == StagingCommands(Plan(servers, dns, lan, []));
      assert RoutingCommands(f.plan)[..|staging|] == staging;
    }
  }

  /** The last command of the third segment is the launch of tun2socks. */
  lemma LastCommandLeft(wan: string, handle: Option<nat>)
    ensures var cmds := FirewallCommands(wan) + StartCommands(handle);
      && cmds != []
      && cmds[..|cmds| - 1] == FirewallCommands(wan) + KillOldTunnel(handle)
      && cmds[..|cmds|] == cmds
  {
    StartSplits(handle);
  }
}
