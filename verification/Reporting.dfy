/** When a HEALTHY that follows a stop or start over IPC can be trusted. */
module Reporting {
  import opened Wrappers
  import opened Network
  import opened Rules
  import opened Egress
  import opened Managers
  import opened Lifecycle
  import opened Daemon
  import opened Safety
  import opened Cleanup
  import opened Overlap
  import opened StopStart
  import opened Configured

  /** HEALTHY and DEGRADED imply that routing and firewall are configured. */
  ghost predicate Honest(d: Daemon) {
    d.state in {Healthy, Degraded} ==> Routed(d.host) && Filtered(d.host, d.ctx.interface)
  }

  /** Handling what is queued passes through HEALTHY or DEGRADED. */
  predicate Reports(d: Daemon)
    decreases |d.queue|
  {
    !d.exited && (d.state in {Healthy, Degraded} || (d.queue != [] && (TurnQueue(d); Reports(Turn(d)))))
  }

  /** Handling what is queued ends the process. */
  predicate Dies(d: Daemon)
    decreases |d.queue|
  {
    d.exited || (d.queue != [] && (TurnQueue(d); Dies(Turn(d))))
  }

  lemma {:induction false} AlikeEnds(p: Daemon, q: Daemon)
    requires Alike(p, q) && p.queue == q.queue
    ensures Reports(p) == Reports(q) && Dies(p) == Dies(q)
    decreases |p.queue|
  {
    if p.queue != [] {
      TurnQueue(p);
      TurnQueue(q);
      AlikeTurns(p, q);
      AlikeEnds(Turn(p), Turn(q));
    }
  }

  lemma {:induction false} UnreportedNotReopened(d: Daemon)
    requires !Reports(d)
    ensures !Reopens(d)
    decreases |d.queue|
  {
    if !d.exited && d.queue != [] {
      TurnQueue(d);
      UnreportedNotReopened(Turn(d));
    }
  }

  lemma {:induction false} NoDoneNoReport(d: Daemon)
    requires d.state !in {Healthy, Degraded} && (d.exited <==> d.state == Failed) && Dones(d.queue) == 0
    ensures !Reports(d)
    decreases |d.queue|
  {
    if !d.exited && d.queue != [] {
      TurnQueue(d);
      var e := d.queue[0];
      NoDoneNoRest(d.(queue := d.queue[1..], log := d.log + [Handled(e)]), e);
      NoDoneNoReport(Turn(d));
    }
  }

  /**
   What a stop or start must find: no earlier bootstrap is reported afterwards, because none is
   queued that would be and none is in flight, or because what is queued ends the process first.
   */
  predicate Sure(d: Daemon, a: Action) {
    var e := d.(state := if a.IpcStop? then Stopped else Bootstrapping);
    !Reports(e) && (d.boots == [] || Dies(e))
  }

  predicate Steady(d: Daemon, acts: seq<Action>)
    requires Runs(d, acts)
    decreases |acts|
  {
    acts == [] || ((IsStopStart(acts[0]) ==> Sure(d, acts[0])) && Steady(Step(d, acts[0]), acts[1..]))
  }

  lemma {:induction false} CalmIsSteady(d: Daemon, acts: seq<Action>)
    requires Runs(d, acts) && Calm(d, acts)
    ensures Steady(d, acts)
    decreases |acts|
  {
    if acts != [] {
      if IsStopStart(acts[0]) {
        NoDoneNoReport(d.(state := if acts[0].IpcStop? then Stopped else Bootstrapping));
      }
      CalmIsSteady(Step(d, acts[0]), acts[1..]);
    }
  }

  lemma {:induction false} NoneIsSteady(d: Daemon, acts: seq<Action>)
    requires Runs(d, acts) && NoStopStart(acts)
    ensures Steady(d, acts)
    decreases |acts|
  {
    if acts != [] {
      assert !IsStopStart(acts[0]);
      NoneIsSteady(Step(d, acts[0]), acts[1..]);
    }
  }

  // ---------------------------------------------------- until the old events are handled

  function Front(d: Daemon, n: nat): Daemon
    requires n <= |d.queue|
  {
    d.(queue := d.queue[..n])
  }

  function Back(d: Daemon, n: nat): Daemon
    requires n <= |d.queue|
  {
    d.(queue := d.queue[n..])
  }

  /** The first `n` queued events report nothing, and end the process or leave one bootstrap to wait for. */
  ghost predicate Waiting(d: Daemon, n: nat) {
    && n <= |d.queue| && !d.exited && d.state != Failed
    && !Reports(Front(d, n))
    && (Dies(Front(d, n)) || Phase(d, n))
  }

  ghost predicate Pending(d: Daemon, n: nat) {
    Waiting(d, n) && (Dies(Front(d, n)) || ConfiguredInv(Back(d, n)))
  }

  lemma WaitingOver(d: Daemon)
    requires Waiting(d, 0)
    ensures TokenInv(d) && Back(d, 0) == d && !Dies(Front(d, 0))
  {
    PhaseOver(d);
    assert d.queue[0..] == d.queue;
  }

  lemma FrontTurn(d: Daemon, n: nat)
    requires 0 < n <= |d.queue|
    ensures var next := Turn(d);
      && next.queue == d.queue[1..]
      && Reports(Front(next, n - 1)) == Reports(Turn(Front(d, n)))
      && Dies(Front(next, n - 1)) == Dies(Turn(Front(d, n)))
      && next.queue[n - 1..] == d.queue[n..]
  {
    var front := Front(d, n);
    TurnQueue(d);
    TurnQueue(front);
    assert d.queue[..n][1..] == d.queue[1..][..n - 1];
    AlikeTurns(d, front);
    AlikeEnds(Front(Turn(d), n - 1), Turn(front));
  }

  /** One old event less; the host and the new events stay, and a bootstrap that joins has done nothing yet. */
  lemma WaitingTurn(d: Daemon, n: nat)
    requires Waiting(d, n) && n > 0 && !Turn(d).exited
    ensures var next := Turn(d);
      && Waiting(next, n - 1)
      && Dies(Front(next, n - 1)) == Dies(Front(d, n))
      && next.host == d.host && next.ctx.interface == d.ctx.interface && next.state !in {Healthy, Degraded}
      && Back(next, n - 1).queue == Back(d, n).queue
      && (forall b :: b in next.boots ==> b in d.boots || b.stage == 0)
  {
    FrontTurn(d, n);
    StillGoing(d, n);
    TurnKeeps(d);
    TurnBoots(d);
    if !Dies(Front(d, n)) {
      PhaseTurn(d, n);
    }
  }

  lemma PendingTurn(d: Daemon, n: nat)
    requires Pending(d, n) && n > 0 && !Turn(d).exited
    ensures Pending(Turn(d), n - 1)
  {
    WaitingTurn(d, n);
  }

  lemma StillGoing(d: Daemon, n: nat)
    requires Waiting(d, n) && n > 0 && !Turn(d).exited
    ensures Turn(d).state != Failed
    ensures Turn(Front(d, n)).exited == Turn(d).exited
  {
    AlikeTurns(d, Front(d, n));
    var e := d.queue[0];
    var popped := d.(queue := d.queue[1..], log := d.log + [Handled(e)]);
    if d.state != Stopped {
      HandlerStaysOrExits(popped, e);
    }
  }

  /** A background step does not see the old events. */
  lemma BackStep(d: Daemon, a: Action, n: nat)
    requires n <= |d.queue| && Enabled(d, a) && !a.Dequeue? && !IsStopStart(a)
    ensures Enabled(Back(d, n), a) && d.queue <= Step(d, a).queue
    ensures Step(Back(d, n), a) == Back(Step(d, a), n)
  {
    match a
    case Post(e) => assert (d.queue + [e])[n..] == d.queue[n..] + [e];
    case Fire(_) => assert (d.queue + [Timeout])[n..] == d.queue[n..] + [Timeout];
    case AdvanceBoot(i, f) => BackAdvance(d, i, f, n);
    case CrashBoot(i, f, k) => BackCrash(d, i, f, k, n);
    case IpcApply(server, how) => BackApply(d, server, how, n);
    case IpcRoute(_) =>
    case ProcessDies(_) =>
  }

  lemma BackApply(d: Daemon, server: string, how: Applying, n: nat)
    requires n <= |d.queue|
    ensures Apply(d, server, how).queue == d.queue
    ensures Apply(Back(d, n), server, how) == Back(Apply(d, server, how), n)
  {
    assert ApplyCommands(Back(d, n), how) == ApplyCommands(d, how);
  }

  lemma BackAdvance(d: Daemon, i: nat, f: Findings, n: nat)
    requires n <= |d.queue| && i < |d.boots|
    ensures d.queue <= Advance(d, i, f).queue
    ensures Advance(Back(d, n), i, f) == Back(Advance(d, i, f), n)
  {
    var done := BootstrapDone(d.boots[i].origin);
    assert (d.queue + [done])[n..] == d.queue[n..] + [done];
  }

  lemma BackCrash(d: Daemon, i: nat, f: Findings, k: nat, n: nat)
    requires n <= |d.queue| && i < |d.boots| && k <= |Segment(d.boots[i], d.handle, f)|
    ensures d.queue <= Crash(d, i, f, k).queue
    ensures Crash(Back(d, n), i, f, k) == Back(Crash(d, i, f, k), n)
  {
    assert (d.queue + [SingboxDied])[n..] == d.queue[n..] + [SingboxDied];
  }

  lemma WaitingKept(d: Daemon, a: Action, n: nat)
    requires Waiting(d, n) && Enabled(d, a) && !a.Dequeue? && !IsStopStart(a)
    ensures Waiting(Step(d, a), n)
    ensures Dies(Front(Step(d, a), n)) == Dies(Front(d, n))
    ensures !Dies(Front(d, n)) ==> TokenInv(Back(d, n)) && Enabled(Back(d, n), a)
    ensures Enabled(Back(d, n), a) && Step(Back(d, n), a) == Back(Step(d, a), n)
  {
    var next := Step(d, a);
    BackgroundStep(d, a);
    assert next.queue[..n] == d.queue[..n];
    AlikeEnds(Front(d, n), Front(next, n));
    BackStep(d, a, n);
    if !Dies(Front(d, n)) {
      PhaseKept(d, a, n);
    }
  }

  lemma PendingKept(d: Daemon, a: Action, n: nat)
    requires Pending(d, n) && Enabled(d, a) && !a.Dequeue? && !IsStopStart(a)
    ensures Pending(Step(d, a), n)
  {
    WaitingKept(d, a, n);
    if !Dies(Front(d, n)) {
      ConfiguredStep(Back(d, n), a);
    }
  }

  /** With what `Sure` says, the wait begins; no bootstrap has done anything or the end is near. */
  lemma WaitingBegins(d: Daemon, a: Action)
    requires Enabled(d, a) && IsStopStart(a) && Sure(d, a)
    ensures var next := Step(d, a);
      && Waiting(next, |d.queue|)
      && Back(next, |d.queue|).queue == [] && next.state !in {Healthy, Degraded}
      && (Dies(Front(next, |d.queue|)) || forall b :: b in next.boots ==> b.stage == 0)
  {
    var next := Step(d, a);
    var e := d.(state := if a.IpcStop? then Stopped else Bootstrapping);
    assert next.queue == d.queue && d.queue[..|d.queue|] == d.queue && d.queue[|d.queue|..] == [];
    AlikeEnds(e, Front(next, |d.queue|));
    if d.boots == [] {
      UnreportedNotReopened(e);
      PhaseBegins(d, a);
    }
  }

  ghost predicate ConfiguredAny(d: Daemon, n: nat) {
    (TokenInv(d) && ConfiguredInv(d)) || Pending(d, n)
  }

  /** Any step keeps one or the other, or ends the process. */
  lemma ConfiguredMoves(d: Daemon, a: Action, n: nat) returns (m: nat)
    requires ConfiguredAny(d, n) && Enabled(d, a) && (IsStopStart(a) ==> Sure(d, a))
    ensures if Step(d, a).exited then Step(d, a).state == Failed else ConfiguredAny(Step(d, a), m)
  {
    m := n;
    if Pending(d, n) && n == 0 {
      WaitingOver(d);
    }
    if IsStopStart(a) {
      m := |d.queue|;
      WaitingBegins(d, a);
    } else if TokenInv(d) && ConfiguredInv(d) {
      TokenStep(d, a);
      ConfiguredStep(d, a);
    } else if !a.Dequeue? {
      PendingKept(d, a, n);
    } else if Turn(d).exited {
      TurnDeath(d);
    } else {
      m := n - 1;
      PendingTurn(d, n);
    }
  }

  lemma {:induction false} SteadyHonest(d: Daemon, acts: seq<Action>, n: nat)
    requires ConfiguredAny(d, n) && Runs(d, acts) && Steady(d, acts)
    ensures Honest(After(d, acts))
    decreases |acts|
  {
    if acts != [] {
      var next := Step(d, acts[0]);
      var m := ConfiguredMoves(d, acts[0], n);
      if next.exited {
        assert acts[1..] == [];
        assert After(d, acts) == next;
      } else {
        SteadyHonest(next, acts[1..], m);
      }
    }
  }

  lemma TurnDeath(d: Daemon)
    requires !d.exited && d.queue != [] && d.state != Failed && Turn(d).exited
    ensures Turn(d).state == Failed
  {
    var e := d.queue[0];
    if d.state == Stopped {
      StoppedTurn(d);
    } else {
      HandlerStaysOrExits(d.(queue := d.queue[1..], log := d.log + [Handled(e)]), e);
    }
  }

  /**
   Whenever the daemon is HEALTHY or DEGRADED the tunnel device is up, the catch-all and
   torrent rules are in force, the NAT chain masquerades the tunnel and the interface that
   discovery found and is hooked, there is a clamp, forwarding is on and IPv6 off, in every
   run whose stops and starts find what `Sure` says.
   */
  lemma HealthyMeansConfigured(h: Host, acts: seq<Action>)
    requires Runs(Boots(h), acts) && Steady(Boots(h), acts)
    requires After(Boots(h), acts).state in {Healthy, Degraded}
    ensures var host, wan := After(Boots(h), acts).host, After(Boots(h), acts).ctx.interface;
      && host.tun0 == Up && CATCHALL in host.rules && TORRENT in host.rules
      && wan.Some? && host.chain == Some(["tun0", wan.value]) && Mentions(host.postrouting, CHAIN) && host.mss >= 1
      && host.ipForward && !host.ipv6
  {
    SteadyHonest(Boots(h), acts, 0);
  }

  // ------------------------------------------------------------- the exact condition

  lemma DeviceOff(d: Daemon, a: Action)
    requires Enabled(d, a) && IsStopStart(a)
    ensures Step(d, a).host.tun0 == Absent
  {
    if a.IpcStop? {
      var kills := KillOld(d.ctx.singbox) + KillOldTunnel(d.ctx.tun2socks);
      var rest := [TunDown, TunDelete, RouteFlush, RulesClear] + FIREWALL_OFF;
      assert StopCommands(d.ctx) == kills + rest;
      RunConcat(d.host, kills, rest);
      NetworkOff(Run(d.host, kills));
    } else {
      assert LEFTOVERS_OFF[0] == TunDelete;
      assert StartOverCommands() == [TunDelete] + StartOverCommands()[1..];
      RunConcat(d.host, [TunDelete], StartOverCommands()[1..]);
      RunOne(d.host, TunDelete);
      StaysAbsent(Run(d.host, [TunDelete]), StartOverCommands()[1..]);
    }
  }

  lemma {:induction false} StaysAbsent(h: Host, cmds: seq<Command>)
    requires h.tun0 == Absent && TunAdd !in cmds
    ensures Run(h, cmds).tun0 == Absent
    decreases |cmds|
  {
    if cmds != [] {
      assert cmds[0] != TunAdd;
      StaysAbsent(Exec(h, cmds[0]), cmds[1..]);
    }
  }

  /** What is queued reports a bootstrap while the device is gone. */
  lemma {:induction false} ReportedTooEarly(d: Daemon) returns (acts: seq<Action>)
    requires Reports(d) && d.host.tun0 == Absent
    ensures Runs(d, acts) && NoStopStart(acts)
    ensures !Honest(After(d, acts))
    decreases |d.queue|
  {
    if d.state in {Healthy, Degraded} {
      acts := [];
    } else {
      TurnQueue(d);
      TurnKeeps(d);
      var rest := ReportedTooEarly(Turn(d));
      ConsRun(d, Dequeue, rest);
      acts := [Dequeue] + rest;
    }
  }

  lemma TurnLast(d: Daemon)
    requires !d.exited && d.queue != [] && !Turn(d).exited
    ensures Turn(d).boots == d.boots
      || (|Turn(d).boots| == |d.boots| + 1 && d.boots <= Turn(d).boots && Turn(d).boots[|d.boots|].stage == 0)
  {
    var e := d.queue[0];
    var q, s := HandleByTransition(d.(queue := d.queue[1..], log := d.log + [Handled(e)]), e);
  }

  /** An older bootstrap ends, a younger one tears down, and the older one's report is handled. */
  lemma OlderReported(d: Daemon) returns (acts: seq<Action>)
    requires !d.exited && d.state in {Bootstrapping, Restarting} && d.queue == []
    requires |d.boots| >= 2 && d.boots[|d.boots| - 1].stage == 0
    ensures Runs(d, acts) && NoStopStart(acts)
    ensures !Honest(After(d, acts))
  {
    var up := Raise(d, 0);
    var d1 := After(d, up);
    var end := Finish(d1);
    var d2 := After(d1, end);
    assert d2.boots[|d2.boots| - 1] == d.boots[|d.boots| - 1];
    var rest := TornThenReported(d2);
    JoinRuns(d1, end, rest);
    JoinRuns(d, up, end + rest);
    acts := up + (end + rest);
  }

  lemma TornThenReported(d: Daemon) returns (acts: seq<Action>)
    requires !d.exited && d.state in {Bootstrapping, Restarting}
    requires |d.queue| == 1 && d.queue[0].BootstrapDone?
    requires d.boots != [] && d.boots[|d.boots| - 1].stage == 0
    ensures Runs(d, acts) && NoStopStart(acts)
    ensures !Honest(After(d, acts))
  {
    var tear := AdvanceBoot(|d.boots| - 1, NOTHING_FOUND);
    AdvanceTears(d, |d.boots| - 1);
    TwoSteps(d, tear, Dequeue);
    acts := [tear, Dequeue];
  }

  lemma AdvanceTears(d: Daemon, i: nat)
    requires !d.exited && i < |d.boots| && d.boots[i].stage == 0
    ensures var next := Step(d, AdvanceBoot(i, NOTHING_FOUND));
      CATCHALL !in next.host.rules && next.state == d.state && next.queue == d.queue && !next.exited
  {
    var torn := StartingEffect(d.host);
    DropMembers(d.host.rules, Band(1, 30));
  }

  lemma {:induction false} InFlightReported(d: Daemon) returns (acts: seq<Action>)
    requires !d.exited && d.state != Failed && !Reports(d) && !Dies(d) && d.boots != []
    requires d.state == Stopped || (|d.boots| >= 2 && d.boots[|d.boots| - 1].stage == 0)
    ensures Runs(d, acts) && NoStopStart(acts)
    ensures !Honest(After(d, acts))
    decreases |d.queue|
  {
    if d.queue == [] {
      if d.state == Stopped {
        var wake := Request(d, RestartRequested);
        var rest := OlderReported(After(d, wake));
        JoinRuns(d, wake, rest);
        acts := wake + rest;
      } else {
        acts := OlderReported(d);
      }
    } else {
      TurnQueue(d);
      TurnLast(d);
      if d.state == Stopped {
        StoppedTurn(d);
      } else {
        AwakeTurn(d);
      }
      var rest := InFlightReported(Turn(d));
      ConsRun(d, Dequeue, rest);
      acts := [Dequeue] + rest;
    }
  }

  lemma OtherwiseDishonest(d: Daemon, a: Action) returns (acts: seq<Action>)
    requires Enabled(d, a) && IsStopStart(a) && !Sure(d, a)
    ensures Runs(Step(d, a), acts) && NoStopStart(acts)
    ensures !Honest(After(Step(d, a), acts))
  {
    var begun := Step(d, a);
    AlikeEnds(d.(state := if a.IpcStop? then Stopped else Bootstrapping), begun);
    if Reports(begun) {
      DeviceOff(d, a);
      acts := ReportedTooEarly(begun);
    } else {
      acts := InFlightReported(begun);
    }
  }

  /**
   After an IPC stop or start HEALTHY and DEGRADED imply that the host is configured, in all
   continuations whose own stops and starts are sure, if and only if nothing queued reports an
   earlier bootstrap, and none is in flight or what is queued ends the process.
   */
  lemma StopStartHonestIff(d: Daemon, a: Action)
    requires Enabled(d, a) && IsStopStart(a)
    ensures (forall acts :: Runs(Step(d, a), acts) && Steady(Step(d, a), acts) ==> Honest(After(Step(d, a), acts)))
      <==> Sure(d, a)
  {
    if Sure(d, a) {
      WaitingBegins(d, a);
      forall acts | Runs(Step(d, a), acts) && Steady(Step(d, a), acts) ensures Honest(After(Step(d, a), acts)) {
        SteadyHonest(Step(d, a), acts, |d.queue|);
      }
    } else {
      var acts := OtherwiseDishonest(d, a);
      NoneIsSteady(Step(d, a), acts);
    }
  }
}
