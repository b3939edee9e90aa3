/** When a stop or start over IPC still lets every later exit leave the host clean. */
module StopStart {
  import opened Wrappers
  import opened Network
  import opened Egress
  import opened Managers
  import opened Lifecycle
  import opened Daemon
  import opened Safety
  import opened Cleanup
  import opened Overlap

  // -------------------------------------------------------------- pasting runs

  lemma ConsRun(d: Daemon, a: Action, acts: seq<Action>)
    requires Enabled(d, a) && Runs(Step(d, a), acts)
    ensures Runs(d, [a] + acts) && After(d, [a] + acts) == After(Step(d, a), acts)
  {
    assert ([a] + acts)[0] == a && ([a] + acts)[1..] == acts;
  }

  lemma {:induction false} JoinRuns(d: Daemon, a: seq<Action>, b: seq<Action>)
    requires Runs(d, a) && Runs(After(d, a), b)
    ensures Runs(d, a + b) && After(d, a + b) == After(After(d, a), b)
    decreases |a|
  {
    if a == [] {
      assert a + b == b;
    } else {
      var all := a + b;
      assert all[0] == a[0] && all[1..] == a[1..] + b && all != [];
      JoinRuns(Step(d, a[0]), a[1..], b);
    }
  }

  lemma TwoSteps(d: Daemon, a: Action, b: Action)
    requires Enabled(d, a) && Enabled(Step(d, a), b)
    ensures Runs(d, [a, b]) && After(d, [a, b]) == Step(Step(d, a), b)
  {
    OneStep(Step(d, a), b);
    ConsRun(d, a, [b]);
    assert [a] + [b] == [a, b];
  }

  // ------------------------------------------------------- what is queued leads to

  lemma TurnQueue(d: Daemon)
    requires d.queue != []
    ensures Turn(d).queue == d.queue[1..]
  {
    HandleShape(d.(queue := d.queue[1..], log := d.log + [Handled(d.queue[0])]), d.queue[0]);
  }

  /**
   Handling what is queued, while the bootstrap in flight stays where it is, meets a server
   change in HEALTHY, which starts another one, or comes to rest where one still can.
   */
  predicate Reopens(d: Daemon)
    decreases |d.queue|
  {
    !d.exited &&
    if d.queue == [] then d.state in {Healthy, Degraded}
    else
      TurnQueue(d);
      (d.state == Healthy && d.queue[0].ServerChangeRequested?) || Reopens(Turn(d))
  }

  /** The same to every handler: only the state and the fail streak decide what it enters. */
  ghost predicate Alike(p: Daemon, q: Daemon) {
    p.state == q.state && p.exited == q.exited && p.ctx.failStreak == q.ctx.failStreak
  }

  lemma AlikeHandled(p: Daemon, q: Daemon, e: Event)
    requires Alike(p, q)
    ensures Alike(Handle(p, e), Handle(q, e))
  {
    match p.state
    case Bootstrapping =>
    case Healthy =>
    case Degraded =>
    case Restarting =>
    case Stopped =>
    case Failed =>
  }

  lemma {:induction false} AlikeReopens(p: Daemon, q: Daemon)
    requires Alike(p, q) && p.queue == q.queue
    ensures Reopens(p) == Reopens(q)
    decreases |p.queue|
  {
    if !p.exited && p.queue != [] {
      TurnQueue(p);
      TurnQueue(q);
      AlikeTurns(p, q);
      AlikeReopens(Turn(p), Turn(q));
    }
  }

  lemma AlikeTurns(p: Daemon, q: Daemon)
    requires Alike(p, q) && p.queue != [] && q.queue != [] && p.queue[0] == q.queue[0]
    ensures Alike(Turn(p), Turn(q))
  {
    var e := p.queue[0];
    AlikeHandled(p.(queue := p.queue[1..], log := p.log + [Handled(e)]), q.(queue := q.queue[1..], log := q.log + [Handled(e)]), e);
  }

  /** Without a queued BOOTSTRAP_DONE nothing leads there from BOOTSTRAPPING, RESTARTING or STOPPED. */
  lemma {:induction false} NoDoneNoReopening(d: Daemon)
    requires d.state !in {Healthy, Degraded} && (d.exited <==> d.state == Failed) && Dones(d.queue) == 0
    ensures !Reopens(d)
    decreases |d.queue|
  {
    if !d.exited && d.queue != [] {
      TurnQueue(d);
      var e := d.queue[0];
      NoDoneNoRest(d.(queue := d.queue[1..], log := d.log + [Handled(e)]), e);
      NoDoneNoReopening(Turn(d));
    }
  }

  lemma NoDoneNoRest(d: Daemon, e: Event)
    requires d.state !in {Healthy, Degraded} && !d.exited && d.state != Failed && !e.BootstrapDone?
    ensures Handle(d, e).state !in {Healthy, Degraded}
    ensures Handle(d, e).exited <==> Handle(d, e).state == Failed
  {
    match d.state
    case Bootstrapping =>
    case Restarting =>
    case Stopped =>
  }

  // ------------------------------------------------------------- the way to exit

  /** Neither stopped nor over: here a shutdown request exits. */
  predicate Awake(d: Daemon) {
    !d.exited && d.state !in {Stopped, Failed}
  }

  lemma TurnKeeps(d: Daemon)
    requires !d.exited && d.queue != []
    ensures !Turn(d).exited ==> Turn(d).host == d.host && d.boots <= Turn(d).boots
    ensures Turn(d).exited ==> Turn(d).host == TornDown(d.host)
    ensures Turn(d).ctx.interface == d.ctx.interface
  {
    TurnHost(d);
    var e := d.queue[0];
    var q, s := HandleByTransition(d.(queue := d.queue[1..], log := d.log + [Handled(e)]), e);
  }

  lemma AwakeTurn(d: Daemon)
    requires Awake(d) && d.queue != []
    ensures Awake(Turn(d)) || Turn(d).exited
    ensures d.queue[0] == ShutdownRequested ==> Turn(d).exited
  {
    HandlerStaysOrExits(d.(queue := d.queue[1..], log := d.log + [Handled(d.queue[0])]), d.queue[0]);
  }

  lemma {:induction false} Drain(d: Daemon) returns (acts: seq<Action>)
    requires Awake(d) && ShutdownRequested in d.queue
    ensures Runs(d, acts) && NoStopStart(acts)
    ensures After(d, acts).exited && After(d, acts).host == TornDown(d.host)
    decreases |d.queue|
  {
    var next := Turn(d);
    TurnKeeps(d);
    AwakeTurn(d);
    TurnQueue(d);
    if next.exited {
      acts := [Dequeue];
      OneStep(d, Dequeue);
    } else {
      assert d.queue == [d.queue[0]] + d.queue[1..];
      var rest := Drain(next);
      acts := [Dequeue] + rest;
      ConsRun(d, Dequeue, rest);
    }
  }

  /** A shutdown request, with no bootstrap making progress any more. */
  lemma ExitNow(d: Daemon) returns (acts: seq<Action>)
    requires Awake(d)
    ensures Runs(d, acts) && NoStopStart(acts)
    ensures After(d, acts).exited && After(d, acts).host == TornDown(d.host)
  {
    var asked := Step(d, Post(ShutdownRequested));
    assert asked.queue[|d.queue|] == ShutdownRequested;
    var rest := Drain(asked);
    acts := [Post(ShutdownRequested)] + rest;
    ConsRun(d, Post(ShutdownRequested), rest);
  }

  // ------------------------------------------------- two bootstraps leave a clamp

  const NOTHING_FOUND := Findings("", "", Plan([], [], [], []), "")

  /** Bootstrap `i` gets as far as its last segment, and no other moves. */
  lemma {:induction false} Raise(d: Daemon, i: nat) returns (acts: seq<Action>)
    requires Awake(d) && i < |d.boots|
    ensures Runs(d, acts) && NoStopStart(acts)
    ensures var after := After(d, acts);
      && Awake(after) && |after.boots| == |d.boots| && after.boots[i].stage >= 2
      && after.state == d.state && after.queue == d.queue
      && forall k :: 0 <= k < |d.boots| && k != i ==> after.boots[k] == d.boots[k]
    decreases if d.boots[i].stage < 2 then 2 - d.boots[i].stage else 0
  {
    if d.boots[i].stage >= 2 {
      acts := [];
    } else {
      var step := AdvanceBoot(i, NOTHING_FOUND);
      var rest := Raise(Step(d, step), i);
      acts := [step] + rest;
      ConsRun(d, step, rest);
    }
  }

  /** The oldest bootstrap ends. */
  lemma Finish(d: Daemon) returns (acts: seq<Action>)
    requires Awake(d) && d.boots != [] && d.boots[0].stage >= 2
    ensures Runs(d, acts) && NoStopStart(acts)
    ensures var after := After(d, acts);
      && Awake(after) && after.boots == d.boots[1..] && after.host.mss == d.host.mss + 1
      && after.state == d.state && after.queue == d.queue + [BootstrapDone(d.boots[0].origin)]
  {
    var step := AdvanceBoot(0, NOTHING_FOUND);
    acts := [step];
    OneStep(d, step);
    FirewallAddsClamp(d, 0, NOTHING_FOUND);
    assert d.boots[..0] + d.boots[1..] == d.boots[1..];
  }

  lemma RaiseBoth(d: Daemon) returns (acts: seq<Action>)
    requires Awake(d) && |d.boots| >= 2
    ensures Runs(d, acts) && NoStopStart(acts)
    ensures var after := After(d, acts);
      Awake(after) && |after.boots| >= 2 && after.boots[0].stage >= 2 && after.boots[1].stage >= 2
  {
    var first := Raise(d, 0);
    var second := Raise(After(d, first), 1);
    acts := first + second;
    JoinRuns(d, first, second);
  }

  lemma FinishBoth(d: Daemon) returns (acts: seq<Action>)
    requires Awake(d) && |d.boots| >= 2 && d.boots[0].stage >= 2 && d.boots[1].stage >= 2
    ensures Runs(d, acts) && NoStopStart(acts)
    ensures Awake(After(d, acts)) && After(d, acts).host.mss >= 2
  {
    var first := Finish(d);
    var second := Finish(After(d, first));
    acts := first + second;
    JoinRuns(d, first, second);
  }

  lemma TwoBootsLeaveClamp(d: Daemon) returns (acts: seq<Action>)
    requires Awake(d) && |d.boots| >= 2
    ensures Runs(d, acts) && NoStopStart(acts)
    ensures After(d, acts).exited && After(d, acts).host.mss >= 1
  {
    var raised := RaiseBoth(d);
    var d1 := After(d, raised);
    var finished := FinishBoth(d1);
    var d2 := After(d1, finished);
    var out := ExitNow(d2);
    JoinRuns(d1, finished, out);
    JoinRuns(d, raised, finished + out);
    acts := raised + (finished + out);
    var torn := TornDownEffect(d2.host);
  }

  /** One request, handled at once. */
  lemma Request(d: Daemon, e: Event) returns (acts: seq<Action>)
    requires !d.exited && d.queue == [] && Postable(e)
    ensures Runs(d, acts) && NoStopStart(acts)
    ensures After(d, acts) == Handle(d.(log := d.log + [Handled(e)]), e)
  {
    acts := [Post(e), Dequeue];
    var asked := Step(d, Post(e));
    assert asked.queue == [e] && asked.queue[1..] == [];
    TwoSteps(d, Post(e), Dequeue);
    assert d.(queue := []) == d;
  }

  lemma AnotherFromRest(d: Daemon) returns (acts: seq<Action>)
    requires !d.exited && d.queue == [] && d.state in {Healthy, Degraded} && d.boots != []
    ensures Runs(d, acts) && NoStopStart(acts)
    ensures Awake(After(d, acts)) && |After(d, acts).boots| >= 2
  {
    if d.state == Degraded {
      var better := Request(d, HealthOk);
      var d1 := After(d, better);
      var change := Request(d1, ServerChangeRequested(""));
      JoinRuns(d, better, change);
      acts := better + change;
    } else {
      acts := Request(d, ServerChangeRequested(""));
    }
  }

  lemma StoppedTurn(d: Daemon)
    requires !d.exited && d.state == Stopped && d.queue != []
    ensures !Turn(d).exited && Turn(d).host == d.host && Turn(d).queue == d.queue[1..]
    ensures Turn(d).state == Stopped ==> Turn(d).boots == d.boots
    ensures Turn(d).state != Stopped ==> Awake(Turn(d)) && |Turn(d).boots| == |d.boots| + 1
  {
  }

  /** Reopened, the way leads to two bootstraps in flight and from there to a surplus clamp. */
  lemma {:induction false} ReopenedLeavesClamp(d: Daemon) returns (acts: seq<Action>)
    requires Reopens(d) && d.state != Failed && (d.state == Stopped || d.boots != [])
    ensures Runs(d, acts) && NoStopStart(acts)
    ensures After(d, acts).exited && After(d, acts).host.mss >= 1
    decreases |d.queue|
  {
    if d.queue == [] {
      var another := AnotherFromRest(d);
      var rest := TwoBootsLeaveClamp(After(d, another));
      JoinRuns(d, another, rest);
      acts := another + rest;
    } else {
      TurnKeeps(d);
      TurnQueue(d);
      var rest;
      if d.state == Healthy && d.queue[0].ServerChangeRequested? {
        rest := TwoBootsLeaveClamp(Turn(d));
      } else {
        if d.state == Stopped {
          StoppedTurn(d);
        } else {
          AwakeTurn(d);
        }
        rest := ReopenedLeavesClamp(Turn(d));
      }
      ConsRun(d, Dequeue, rest);
      acts := [Dequeue] + rest;
    }
  }

  /** A restart request wakes a stopped daemon, beside whatever is in flight. */
  lemma {:induction false} Wake(d: Daemon) returns (acts: seq<Action>)
    requires !d.exited && d.state == Stopped
    ensures Runs(d, acts) && NoStopStart(acts)
    ensures var after := After(d, acts);
      Awake(after) && after.host == d.host && |after.boots| == |d.boots| + 1
    decreases |d.queue|
  {
    if d.queue == [] {
      acts := Request(d, RestartRequested);
    } else {
      StoppedTurn(d);
      if Turn(d).state == Stopped {
        var rest := Wake(Turn(d));
        ConsRun(d, Dequeue, rest);
        acts := [Dequeue] + rest;
      } else {
        acts := [Dequeue];
        OneStep(d, Dequeue);
      }
    }
  }

  // ------------------------------------------------------- one bootstrap at a time

  /**
   The first `n` queued events were there at the stop or start. What is not of them tells
   of at most one bootstrap, and they do not reopen the way for another.
   */
  ghost predicate Phase(d: Daemon, n: nat) {
    && n <= |d.queue| && !d.exited && d.state != Failed
    && |d.boots| + Dones(d.queue[n..]) <= (if d.state == Stopped then 0 else 1)
    && (d.state == Bootstrapping ==> OwnTokens(d.(queue := d.queue[n..])))
    && !Reopens(d.(queue := d.queue[..n]))
  }

  lemma PhaseOver(d: Daemon)
    requires Phase(d, 0)
    ensures TokenInv(d)
  {
    assert d.queue[0..] == d.queue;
    assert d.(queue := d.queue) == d;
  }

  lemma PhaseTurn(d: Daemon, n: nat)
    requires Phase(d, n) && n > 0 && !Turn(d).exited
    ensures Phase(Turn(d), n - 1)
  {
    var old_ := d.(queue := d.queue[..n]);
    var e := d.queue[0];
    TurnQueue(d);
    TurnQueue(old_);
    assert d.queue[n..] == d.queue[1..][n - 1..];
    assert d.queue[..n][1..] == d.queue[1..][..n - 1];
    AlikeTurns(d, old_);
    AlikeReopens(Turn(old_), Turn(d).(queue := d.queue[1..][..n - 1]));
    PhaseHandled(d.(queue := d.queue[1..], log := d.log + [Handled(e)]), e, d.queue[n..]);
  }

  /** What a handler that opens no way for a second bootstrap does to the count. */
  lemma PhaseHandled(d: Daemon, e: Event, later: seq<Event>)
    requires !d.exited && d.state != Failed && !(d.state == Healthy && e.ServerChangeRequested?)
    requires |d.boots| + Dones(later) <= (if d.state == Stopped then 0 else 1)
    requires d.state == Bootstrapping ==> OwnTokens(d.(queue := later))
    ensures var after := Handle(d, e);
      !after.exited ==>
        && after.state != Failed
        && |after.boots| + Dones(later) <= (if after.state == Stopped then 0 else 1)
        && (after.state == Bootstrapping ==> OwnTokens(after.(queue := later)))
  {
    match d.state
    case Bootstrapping =>
    case Healthy =>
    case Degraded =>
    case Restarting =>
    case Stopped => NoDones(later);
  }

  lemma PhaseKept(d: Daemon, a: Action, n: nat)
    requires Phase(d, n) && Enabled(d, a) && !a.Dequeue? && !IsStopStart(a)
    ensures Phase(Step(d, a), n)
  {
    var next := Step(d, a);
    BackgroundStep(d, a);
    assert next.queue[..n] == d.queue[..n];
    AlikeReopens(d.(queue := d.queue[..n]), next.(queue := next.queue[..n]));
    PhaseTokens(d, a, n);
  }

  lemma PhaseTokens(d: Daemon, a: Action, n: nat)
    requires Phase(d, n) && Enabled(d, a) && !a.Dequeue? && !IsStopStart(a)
    ensures var next := Step(d, a);
      && |next.boots| + Dones(next.queue[n..]) <= |d.boots| + Dones(d.queue[n..])
      && (d.state == Bootstrapping ==> OwnTokens(next.(queue := next.queue[n..])))
  {
    var next := Step(d, a);
    BackgroundStep(d, a);
    var more := Appended(d, a);
    if more == [] {
      assert d.queue + [] == d.queue;
    } else {
      assert more == [more[0]];
      assert next.queue[n..] == d.queue[n..] + [more[0]];
      DonesAppend(d.queue[n..], more[0]);
      DonesAppend([], more[0]);
    }
  }

  /** A background step posts at most one event, which takes over a bootstrap's token if it is a BOOTSTRAP_DONE. */
  lemma Appended(d: Daemon, a: Action) returns (more: seq<Event>)
    requires Enabled(d, a) && !a.Dequeue? && !IsStopStart(a)
    ensures Step(d, a).queue == d.queue + more && |more| <= 1
    ensures |Step(d, a).boots| + Dones(more) <= |d.boots|
    ensures (forall b :: b in d.boots ==> b.origin == d.instance) ==>
      && (forall b :: b in Step(d, a).boots ==> b.origin == d.instance)
      && (forall e :: e in more && e.BootstrapDone? ==> e.origin == d.instance)
  {
    match a
    case Post(e) => more := [e]; DonesAppend([], e);
    case Fire(_) => more := [Timeout]; DonesAppend([], Timeout);
    case AdvanceBoot(i, f) => more := AppendedByAdvance(d, i, f);
    case CrashBoot(i, f, k) => more := AppendedByCrash(d, i, f, k);
    case IpcApply(_, _) => more := [];
    case IpcRoute(_) => more := [];
    case ProcessDies(_) => more := [];
  }

  lemma AppendedByAdvance(d: Daemon, i: nat, f: Findings) returns (more: seq<Event>)
    requires i < |d.boots|
    ensures Advance(d, i, f).queue == d.queue + more && |more| <= 1
    ensures |Advance(d, i, f).boots| + Dones(more) <= |d.boots|
    ensures (forall b :: b in d.boots ==> b.origin == d.instance) ==>
      && (forall b :: b in Advance(d, i, f).boots ==> b.origin == d.instance)
      && (forall e :: e in more && e.BootstrapDone? ==> e.origin == d.instance)
  {
    var b := d.boots[i];
    assert b in d.boots;
    var done := BootstrapDone(b.origin);
    more := if b.stage <= 1 then [] else [done];
    DonesAppend([], done);
    assert [] + [done] == [done];
  }

  lemma AppendedByCrash(d: Daemon, i: nat, f: Findings, k: nat) returns (more: seq<Event>)
    requires i < |d.boots| && k <= |Segment(d.boots[i], d.handle, f)|
    ensures Crash(d, i, f, k).queue == d.queue + more && |more| <= 1
    ensures |Crash(d, i, f, k).boots| + Dones(more) <= |d.boots|
    ensures forall b :: b in Crash(d, i, f, k).boots ==> b in d.boots
    ensures forall e :: e in more ==> !e.BootstrapDone?
  {
    more := [SingboxDied];
    DonesAppend([], SingboxDied);
    assert [] + [SingboxDied] == [SingboxDied];
  }

  // ------------------------------------------------ stops and starts, served alone

  predicate Lone(d: Daemon, a: Action) {
    d.boots == [] && !Reopens(d.(state := if a.IpcStop? then Stopped else Bootstrapping))
  }

  /** Every stop and start comes while no bootstrap is in flight and what is queued lets no second one in. */
  predicate Careful(d: Daemon, acts: seq<Action>)
    requires Runs(d, acts)
    decreases |acts|
  {
    acts == [] || ((IsStopStart(acts[0]) ==> Lone(d, acts[0])) && Careful(Step(d, acts[0]), acts[1..]))
  }

  lemma {:induction false} CalmIsCareful(d: Daemon, acts: seq<Action>)
    requires Runs(d, acts) && Calm(d, acts)
    ensures Careful(d, acts)
    decreases |acts|
  {
    if acts != [] {
      if IsStopStart(acts[0]) {
        NoDoneNoReopening(d.(state := if acts[0].IpcStop? then Stopped else Bootstrapping));
      }
      CalmIsCareful(Step(d, acts[0]), acts[1..]);
    }
  }

  lemma {:induction false} NoneIsCareful(d: Daemon, acts: seq<Action>)
    requires Runs(d, acts) && NoStopStart(acts)
    ensures Careful(d, acts)
    decreases |acts|
  {
    if acts != [] {
      assert !IsStopStart(acts[0]);
      NoneIsCareful(Step(d, acts[0]), acts[1..]);
    }
  }

  lemma PhaseBegins(d: Daemon, a: Action)
    requires Enabled(d, a) && IsStopStart(a) && Lone(d, a)
    ensures Phase(Step(d, a), |d.queue|)
  {
    var next := Step(d, a);
    assert next.queue == d.queue && d.queue[..|d.queue|] == d.queue && d.queue[|d.queue|..] == [];
    AlikeReopens(d.(state := if a.IpcStop? then Stopped else Bootstrapping), next.(queue := next.queue[..|d.queue|]));
  }

  /** With careful stops and starts a bootstrap finds no clamp when it appends its own. */
  lemma {:induction false} CarefulClamps(d: Daemon, acts: seq<Action>, n: nat)
    requires TokenInv(d) || Phase(d, n)
    requires ClampInv(d) && Runs(d, acts) && Careful(d, acts)
    ensures ClampInv(After(d, acts))
    decreases |acts|
  {
    if acts != [] {
      var next, rest := Step(d, acts[0]), acts[1..];
      ClampStep(d, acts[0]);
      if Phase(d, n) && n == 0 {
        PhaseOver(d);
      }
      if IsStopStart(acts[0]) {
        PhaseBegins(d, acts[0]);
        CarefulClamps(next, rest, |d.queue|);
      } else if TokenInv(d) {
        TokenStep(d, acts[0]);
        CarefulClamps(next, rest, n);
      } else if next.exited {
        assert rest == [];
      } else if acts[0].Dequeue? {
        PhaseTurn(d, n);
        CarefulClamps(next, rest, n - 1);
      } else {
        PhaseKept(d, acts[0], n);
        CarefulClamps(next, rest, n);
      }
    }
  }

  /**
   Exit leaves the host clean. In every run in which IPC stop and start come while no
   bootstrap is in flight and what is queued lets no second one in, with bootstraps that
   stop or crash anywhere and whatever their plans are, a daemon in FAILED has exited,
   nothing of its own is left (not even what an earlier unclean shutdown had left), and the
   POSTROUTING jumps are those it found.
   */
  lemma ExitLeavesHostClean(h: Host, acts: seq<Action>)
    requires Runs(Boots(h), acts) && Careful(Boots(h), acts)
    requires h.mss <= 1 && Hooks(h.postrouting) <= 1
    ensures var d := After(Boots(h), acts);
      d.state == Failed ==> d.exited && Clean(d.host) && d.host.postrouting == RemoveFirstOf(h.postrouting, CHAIN)
  {
    var d := After(Boots(h), acts);
    ExitLeavesClampsAtMost(h, acts);
    CarefulClamps(Boots(h), acts, 0);
    TimerRun(Boots(h), acts);
    UnhookOne(d.host.postrouting);
    assert d.state == Failed ==> d.host.(mss := 0) == d.host;
  }

  // ------------------------------------------------ what one stop or start takes off

  predicate SparesFirewall(c: Command) {
    c != NatHook && c != NatUnhook && c != MssAppend && c != MssDelete
  }

  lemma ExecSparesFirewall(h: Host, c: Command)
    requires SparesFirewall(c)
    ensures Exec(h, c).mss == h.mss && Exec(h, c).postrouting == h.postrouting
  {
  }

  lemma {:induction false} FirewallSpared(h: Host, cmds: seq<Command>)
    requires forall c :: c in cmds ==> SparesFirewall(c)
    ensures Run(h, cmds).mss == h.mss && Run(h, cmds).postrouting == h.postrouting
    decreases |cmds|
  {
    if cmds != [] {
      ExecSparesFirewall(h, cmds[0]);
      FirewallSpared(Exec(h, cmds[0]), cmds[1..]);
    }
  }

  /** One clamp and one hook less, if there were any. */
  predicate OneLess(h: Host, after: Host) {
    && after.mss == (if h.mss == 0 then 0 else h.mss - 1)
    && after.postrouting == RemoveFirstOf(h.postrouting, CHAIN)
  }

  lemma StopTakesOne(d: Daemon)
    ensures OneLess(d.host, Run(d.host, StopCommands(d.ctx)))
  {
    var kills := KillOld(d.ctx.singbox) + KillOldTunnel(d.ctx.tun2socks) + [TunDown, TunDelete, RouteFlush, RulesClear];
    RunConcat(d.host, kills, FIREWALL_OFF);
    FirewallSpared(d.host, kills);
    RunFirewallOff(Run(d.host, kills));
  }

  lemma StartTakesOne(h: Host)
    ensures OneLess(h, Run(h, StartOverCommands()))
  {
    StartTearsDown(h);
  }

  lemma StepTakesOne(d: Daemon, a: Action)
    requires Enabled(d, a) && IsStopStart(a)
    ensures OneLess(d.host, Step(d, a).host)
    ensures var hooks := Hooks(d.host.postrouting);
      Hooks(Step(d, a).host.postrouting) == if hooks == 0 then 0 else hooks - 1
  {
    if a.IpcStop? {
      StopTakesOne(d);
    } else {
      StartTakesOne(d.host);
    }
    UnhookOne(d.host.postrouting);
  }

  // ----------------------------------------------------------- the exact condition

  /** Every careful continuation that exits leaves a clean host. */
  ghost predicate ExitsClean(d: Daemon) {
    forall acts :: Runs(d, acts) && Careful(d, acts) && After(d, acts).exited ==> Clean(After(d, acts).host)
  }

  lemma LoneExitsClean(d: Daemon, a: Action, acts: seq<Action>)
    requires Enabled(d, a) && IsStopStart(a) && Lone(d, a)
    requires d.host.mss <= 2 && Hooks(d.host.postrouting) <= 2
    requires Runs(Step(d, a), acts) && Careful(Step(d, a), acts) && After(Step(d, a), acts).exited
    ensures Clean(After(Step(d, a), acts).host)
  {
    var begun := Step(d, a);
    var after := After(begun, acts);
    StepTakesOne(d, a);
    PhaseBegins(d, a);
    OneHookKept(begun.host);
    JumpRun(begun, acts, RemoveFirstOf(begun.host.postrouting, CHAIN));
    CarefulClamps(begun, acts, |d.queue|);
    assert after.host.(mss := 0) == after.host;
  }

  /** Where the condition fails, some continuation without a further stop or start exits with something left. */
  lemma OtherwiseExitsDirty(d: Daemon, a: Action) returns (acts: seq<Action>)
    requires Enabled(d, a) && IsStopStart(a)
    requires !Lone(d, a) || d.host.mss > 2 || Hooks(d.host.postrouting) > 2
    ensures Runs(Step(d, a), acts) && NoStopStart(acts)
    ensures After(Step(d, a), acts).exited && !Clean(After(Step(d, a), acts).host)
  {
    var begun := Step(d, a);
    StepTakesOne(d, a);
    if d.boots == [] && !Lone(d, a) {
      AlikeReopens(d.(state := if a.IpcStop? then Stopped else Bootstrapping), begun);
      acts := ReopenedLeavesClamp(begun);
    } else {
      var awake := [];
      if a.IpcStop? {
        awake := Wake(begun);
      }
      var up := After(begun, awake);
      var out;
      if d.boots != [] {
        out := TwoBootsLeaveClamp(up);
      } else {
        out := ExitNow(up);
        TeardownCleansIff(up.host);
      }
      JoinRuns(begun, awake, out);
      acts := awake + out;
    }
  }

  /**
   After an IPC stop or start every exit leaves the host clean, in all continuations whose
   own stops and starts are careful, if and only if no bootstrap was in flight, what was
   queued lets no second one in, and there were at most two clamps and two hooks, one of
   which each goes at once.
   */
  lemma StopStartCleanIff(d: Daemon, a: Action)
    requires Enabled(d, a) && IsStopStart(a)
    ensures ExitsClean(Step(d, a)) <==> Lone(d, a) && d.host.mss <= 2 && Hooks(d.host.postrouting) <= 2
  {
    if Lone(d, a) && d.host.mss <= 2 && Hooks(d.host.postrouting) <= 2 {
      forall acts | Runs(Step(d, a), acts) && Careful(Step(d, a), acts) && After(Step(d, a), acts).exited
        ensures Clean(After(Step(d, a), acts).host)
      {
        LoneExitsClean(d, a, acts);
      }
    } else {
      var acts := OtherwiseExitsDirty(d, a);
      NoneIsCareful(Step(d, a), acts);
    }
  }
  // -------------------------------------------------------- two starts in a row

  /**
   The first bootstrap ends and is handled; two starts are served in one go, and the two
   bootstraps then take turns in the order they were started.
   */
  function TwoStarts(f: Findings): seq<Action> {
    [AdvanceBoot(0, f), AdvanceBoot(0, f), AdvanceBoot(0, f), Dequeue] + [IpcStart, IpcStart]
      + [AdvanceBoot(0, f), AdvanceBoot(1, f)] + [AdvanceBoot(0, f), AdvanceBoot(1, f)]
      + [AdvanceBoot(0, f), AdvanceBoot(0, f)]
  }

  lemma FirstBootstrap(d: Daemon, f: Findings)
    requires !d.exited && d.state == Bootstrapping && d.queue == [] && d.host.mss == 0
    requires |d.boots| == 1 && d.boots[0].stage == 0
    ensures var acts := [AdvanceBoot(0, f), AdvanceBoot(0, f), AdvanceBoot(0, f), Dequeue];
      && Runs(d, acts)
      && var after := After(d, acts);
        !after.exited && after.state == Healthy && after.queue == [] && after.boots == [] && after.host.mss == 1
  {
    var a := AdvanceBoot(0, f);
    StartingTakesClamp(d, 0, f);
    RoutingKeepsClamps(Step(d, a), 0, f);
    TwoSteps(d, a, a);
    LastOfBootstrap(After(d, [a, a]), f);
    JoinRuns(d, [a, a], [a, Dequeue]);
    assert [a, a] + [a, Dequeue] == [a, a, a, Dequeue];
  }

  lemma LastOfBootstrap(d: Daemon, f: Findings)
    requires !d.exited && d.state == Bootstrapping && d.queue == [] && d.host.mss == 0
    requires |d.boots| == 1 && d.boots[0].stage == 2
    ensures var acts := [AdvanceBoot(0, f), Dequeue];
      && Runs(d, acts)
      && var after := After(d, acts);
        !after.exited && after.state == Healthy && after.queue == [] && after.boots == [] && after.host.mss == 1
  {
    var a := AdvanceBoot(0, f);
    FirewallAddsClamp(d, 0, f);
    TwoSteps(d, a, Dequeue);
    assert Step(d, a).queue[1..] == [];
  }

  lemma StartedTwice(d: Daemon)
    requires !d.exited && d.queue == [] && d.boots == [] && d.host.mss == 1
    ensures Runs(d, [IpcStart, IpcStart])
    ensures var after := After(d, [IpcStart, IpcStart]);
      && !after.exited && after.state == Bootstrapping && after.queue == [] && after.host.mss == 0
      && |after.boots| == 2 && after.boots[0].stage == 0 && after.boots[1].stage == 0
  {
    TwoSteps(d, IpcStart, IpcStart);
    StartTakesOne(d.host);
    StartTakesOne(Step(d, IpcStart).host);
  }

  lemma BothAdvance(d: Daemon, f: Findings)
    requires Awake(d) && |d.boots| == 2 && d.host.mss == 0
    requires d.boots[0].stage == d.boots[1].stage <= 1
    ensures Runs(d, [AdvanceBoot(0, f), AdvanceBoot(1, f)])
    ensures var after := After(d, [AdvanceBoot(0, f), AdvanceBoot(1, f)]);
      && Awake(after) && |after.boots| == 2 && after.host.mss == 0
      && after.boots[0].stage == after.boots[1].stage == d.boots[0].stage + 1
  {
    var next := Step(d, AdvanceBoot(0, f));
    TwoSteps(d, AdvanceBoot(0, f), AdvanceBoot(1, f));
    if d.boots[0].stage == 0 {
      StartingTakesClamp(d, 0, f);
      StartingTakesClamp(next, 1, f);
    } else {
      RoutingKeepsClamps(d, 0, f);
      RoutingKeepsClamps(next, 1, f);
    }
  }

  lemma BothFinish(d: Daemon, f: Findings)
    requires Awake(d) && |d.boots| == 2 && d.host.mss == 0
    requires d.boots[0].stage == d.boots[1].stage == 2
    ensures Runs(d, [AdvanceBoot(0, f), AdvanceBoot(0, f)])
    ensures var after := After(d, [AdvanceBoot(0, f), AdvanceBoot(0, f)]);
      Awake(after) && after.host.mss == 2
  {
    var next := Step(d, AdvanceBoot(0, f));
    TwoSteps(d, AdvanceBoot(0, f), AdvanceBoot(0, f));
    FirewallAddsClamp(d, 0, f);
    FirewallAddsClamp(next, 0, f);
  }

  lemma TwoStartsRun(d: Daemon, f: Findings)
    requires !d.exited && d.state == Bootstrapping && d.queue == [] && d.host.mss == 0
    requires |d.boots| == 1 && d.boots[0].stage == 0
    ensures Runs(d, TwoStarts(f))
    ensures Awake(After(d, TwoStarts(f))) && After(d, TwoStarts(f)).host.mss == 2
  {
    var first := [AdvanceBoot(0, f), AdvanceBoot(0, f), AdvanceBoot(0, f), Dequeue];
    var starts := [IpcStart, IpcStart];
    var turns := [AdvanceBoot(0, f), AdvanceBoot(1, f)];
    var ends := [AdvanceBoot(0, f), AdvanceBoot(0, f)];
    FirstBootstrap(d, f);
    StartedTwice(After(d, first));
    JoinRuns(d, first, starts);
    BothAdvance(After(d, first + starts), f);
    JoinRuns(d, first + starts, turns);
    BothAdvance(After(d, first + starts + turns), f);
    JoinRuns(d, first + starts + turns, turns);
    BothFinish(After(d, first + starts + turns + turns), f);
    JoinRuns(d, first + starts + turns + turns, ends);
  }

  /**
   A run an event loop produces in which the condition fails: on a clean host, two starts
   served in one go leave a clamp behind at exit.
   */
  lemma OverlapLeavesClamp(h: Host, f: Findings) returns (acts: seq<Action>)
    requires h.mss == 0
    ensures Runs(Boots(h), acts) && NoStop(acts) && TwoStarts(f) <= acts
    ensures After(Boots(h), acts).exited && After(Boots(h), acts).host.mss == 1
  {
    var d := Boots(h);
    TwoStartsRun(d, f);
    var out := ExitNow(After(d, TwoStarts(f)));
    JoinRuns(d, TwoStarts(f), out);
    acts := TwoStarts(f) + out;
    var torn := TornDownEffect(After(d, TwoStarts(f)).host);
    assert NoStop(TwoStarts(f));
    forall i | 0 <= i < |acts| ensures !acts[i].IpcStop? {
      if i >= |TwoStarts(f)| {
        assert acts[i] == out[i - |TwoStarts(f)|];
        assert !IsStopStart(out[i - |TwoStarts(f)|]);
      } else {
        assert acts[i] == TwoStarts(f)[i];
      }
    }
  }
}
