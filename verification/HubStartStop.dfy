/**
 What a Start has done when it returns, in every run, and that neither Start nor Stop ever
 gets stuck: the hub that Stop is waiting for can always come to rest and its store be closed.
 */
module HubStartStop {
  import opened Options
  import opened HubLifecycle

  ghost predicate StepBy(acts: seq<Action>, k: nat, pid: nat) {
    k < |acts| && acts[k].Run? && acts[k].pid == pid
  }

  lemma Stands(hs: seq<Hub>, acts: seq<Action>, j: nat, pid: nat)
    requires IsRun(hs, acts) && j < |acts| && pid in hs[j].procs && !StepBy(acts, j, pid)
    ensures pid in hs[j + 1].procs && hs[j + 1].procs[pid] == hs[j].procs[pid]
  {
    assert Next(hs[j], acts[j], hs[j + 1]);
  }

  lemma Moves(hs: seq<Hub>, acts: seq<Action>, j: nat, pid: nat)
    requires IsRun(hs, acts) && StepBy(acts, j, pid)
    ensures pid in hs[j].procs && pid in hs[j + 1].procs && MayStep(hs[j].procs[pid], hs[j].life, acts[j].ch)
    ensures (hs[j + 1].procs[pid], hs[j + 1].life) == Exec(pid, hs[j].procs[pid], hs[j].life, acts[j].ch)
  {
    assert Next(hs[j], acts[j], hs[j + 1]);
  }

  // ---- A Start ----

  /** At step `k` something the call does fails: the reconcile, Listen or Serve. */
  ghost predicate FailsAt(hs: seq<Hub>, acts: seq<Action>, k: nat, pid: nat)
    requires |hs| == |acts| + 1
  {
    && StepBy(acts, k, pid) && acts[k].ch.fail && pid in hs[k].procs
    && hs[k].procs[pid] in {Start(SReconcile), Start(SListen), Start(SServing)}
  }

  ghost predicate HasFailed(hs: seq<Hub>, acts: seq<Action>, s: nat, j: nat, pid: nat)
    requires |hs| == |acts| + 1
  {
    exists k :: s < k < j && FailsAt(hs, acts, k, pid)
  }

  /** At step `k` the call finds the hub started by an earlier one, or stopped. */
  ghost predicate NotNeededAt(hs: seq<Hub>, acts: seq<Action>, k: nat, pid: nat)
    requires |hs| == |acts| + 1
  {
    && StepBy(acts, k, pid) && pid in hs[k].procs
    && (hs[k].life.state == Stopped || (hs[k].procs[pid] == Start(SEnter) && hs[k].life.state == Started))
  }

  ghost predicate NotNeeded(hs: seq<Hub>, acts: seq<Action>, s: nat, j: nat, pid: nat)
    requires |hs| == |acts| + 1
  {
    exists k :: s < k < j && NotNeededAt(hs, acts, k, pid)
  }

  /** Step `k` makes the hub ready: its goroutines are counted and OnReady has run, for the first time. */
  ghost predicate PublishesAt(hs: seq<Hub>, acts: seq<Action>, k: nat, pid: nat)
    requires |hs| == |acts| + 1
  {
    && StepBy(acts, k, pid) && hs[k].life.state == Started && hs[k].life.readies == 0 && hs[k + 1].life.readies == 1
    && hs[k + 1].life.grpc && hs[k + 1].life.monitor == Added && hs[k + 1].life.sweeper == Added
  }

  ghost predicate Published(hs: seq<Hub>, acts: seq<Action>, s: nat, j: nat, pid: nat)
    requires |hs| == |acts| + 1
  {
    exists k :: s < k < j && PublishesAt(hs, acts, k, pid)
  }

  ghost predicate StartSoFar(hs: seq<Hub>, acts: seq<Action>, s: nat, j: nat, pid: nat)
    requires |hs| == |acts| + 1 && j < |hs|
  {
    && pid in hs[j].procs && hs[j].procs[pid].Start?
    && match hs[j].procs[pid].s
       case SReconcileErr(cause) => cause == StoreClosed || HasFailed(hs, acts, s, j, pid)
       case SAbandon => NotNeeded(hs, acts, s, j, pid)
       case SSpawnMonitor => Published(hs, acts, s, j, pid)
       case SSpawnSweeper => Published(hs, acts, s, j, pid)
       case SServe => Published(hs, acts, s, j, pid)
       case SServing => Published(hs, acts, s, j, pid)
       case SServeErr(cause) => cause == ServerStopped || HasFailed(hs, acts, s, j, pid)
       case SReturned(error, _) => if error then HasFailed(hs, acts, s, j, pid) else NotNeeded(hs, acts, s, j, pid)
       case _ => true
  }

  lemma StartMoves(hs: seq<Hub>, acts: seq<Action>, s: nat, j: nat, pid: nat)
    requires IsRun(hs, acts) && s < j < |acts| && StartSoFar(hs, acts, s, j, pid) && StepBy(acts, j, pid)
    ensures StartSoFar(hs, acts, s, j + 1, pid)
  {
    Moves(hs, acts, j, pid);
    RunsKeepInv(hs, acts, j);
    assert PcOk(pid, hs[j].procs[pid], hs[j].life);
    assert acts[j].ch.fail && hs[j].procs[pid].s in {SReconcile, SListen, SServing} ==> FailsAt(hs, acts, j, pid);
    assert hs[j].life.state == Stopped ==> NotNeededAt(hs, acts, j, pid);
    if hs[j].procs[pid].s == SPublish && hs[j].life.state != Stopped {
      assert PublishesAt(hs, acts, j, pid);
    }
    if hs[j].procs[pid].s == SEnter && hs[j].life.state == Started {
      assert NotNeededAt(hs, acts, j, pid);
    }
  }

  lemma {:induction false} StartReaches(hs: seq<Hub>, acts: seq<Action>, s: nat, j: nat, pid: nat)
    requires IsRun(hs, acts) && s < j < |hs| && acts[s] == CallStart(pid)
    ensures StartSoFar(hs, acts, s, j, pid)
  {
    if j == s + 1 {
      assert Next(hs[s], acts[s], hs[s + 1]);
    } else {
      var k := j - 1;
      StartReaches(hs, acts, s, k, pid);
      if StepBy(acts, k, pid) {
        StartMoves(hs, acts, s, k, pid);
      } else {
        Stands(hs, acts, k, pid);
      }
    }
  }

  /**
   A Start that has returned reports an error only if its reconcile, its Listen or its Serve
   failed, and nil only if the hub had been started by an earlier call or was stopped. So
   with no failure, and before any Stop, the first Start does not return.
   */
  lemma StartStory(hs: seq<Hub>, acts: seq<Action>, s: nat, j: nat, pid: nat)
    requires IsRun(hs, acts) && s < j < |hs| && acts[s] == CallStart(pid)
    requires pid in hs[j].procs && HasReturned(hs[j].procs[pid])
    ensures if hs[j].procs[pid].s.error
            then exists k :: s < k < j && FailsAt(hs, acts, k, pid)
            else exists k :: s < k < j && NotNeededAt(hs, acts, k, pid)
  {
    StartReaches(hs, acts, s, j, pid);
  }

  /** A Start that serves has made the hub ready before, with both background goroutines counted. */
  lemma ServesOnlyWhenReady(hs: seq<Hub>, acts: seq<Action>, s: nat, j: nat, pid: nat)
    requires IsRun(hs, acts) && s < j < |hs| && acts[s] == CallStart(pid)
    requires pid in hs[j].procs && hs[j].procs[pid] == Start(SServing)
    ensures exists k :: s < k < j && PublishesAt(hs, acts, k, pid)
    ensures hs[j].life.served && hs[j].life.monitor in {Alive, Exited} && hs[j].life.sweeper in {Alive, Exited}
  {
    StartReaches(hs, acts, s, j, pid);
    RunsAreSpawned(hs, acts, j);
    RunsKeepInv(hs, acts, j);
    assert PcOk(pid, hs[j].procs[pid], hs[j].life);
  }

  // ---- The goroutines ----

  predicate StillSpawns(pc: Pc) {
    pc == Start(SSpawnMonitor) || pc == Start(SSpawnSweeper)
  }

  /** A goroutine that is counted but not yet running is about to be spawned. */
  ghost predicate Spawned(h: Hub) {
    && (h.life.grpc <==> h.life.monitor != Unborn) && (h.life.grpc <==> h.life.sweeper != Unborn)
    && (h.life.monitor == Added ==> exists p :: p in h.procs && h.procs[p] == Start(SSpawnMonitor))
    && (h.life.sweeper == Added ==> exists p :: p in h.procs && StillSpawns(h.procs[p]))
  }

  /** A step spawns what it is about to spawn, and counts what it goes on to spawn. */
  lemma ExecSpawns(pid: nat, pc: Pc, l: Life, ch: Choice)
    requires PcOk(pid, pc, l) && LifeOk(l)
    requires (l.grpc <==> l.monitor != Unborn) && (l.grpc <==> l.sweeper != Unborn)
    ensures var (pc', l') := Exec(pid, pc, l, ch);
            && (l'.grpc <==> l'.monitor != Unborn) && (l'.grpc <==> l'.sweeper != Unborn)
            && (l'.monitor == Added ==>
                  (l.monitor == Added && pc != Start(SSpawnMonitor)) || pc' == Start(SSpawnMonitor))
            && (l'.sweeper == Added ==> (l.sweeper == Added && pc != Start(SSpawnSweeper)) || StillSpawns(pc'))
  {
    match pc
    case Start(at) => StartSpawns(at, l, ch);
    case Stop(at) => StopSparesGoroutines(pid, at, l, ch);
  }

  lemma StopSparesGoroutines(pid: nat, at: StopAt, l: Life, ch: Choice)
    ensures var l' := ExecStop(pid, at, l, ch).1;
            l'.grpc == l.grpc && l'.monitor == l.monitor && l'.sweeper == l.sweeper
  {
    match at
    case TEnter =>
    case TMark =>
    case TCancel(_, _) =>
    case TServer(_) =>
    case TQuit =>
    case TWait =>
    case TClose =>
    case TFinish(_) =>
    case _ =>
  }

  lemma StartSpawns(at: StartAt, l: Life, ch: Choice)
    requires StartOk(at, l) && LifeOk(l)
    requires (l.grpc <==> l.monitor != Unborn) && (l.grpc <==> l.sweeper != Unborn)
    ensures var (at', l') := ExecStart(at, l, ch);
            && (l'.grpc <==> l'.monitor != Unborn) && (l'.grpc <==> l'.sweeper != Unborn)
            && (l'.monitor == Added ==> (l.monitor == Added && at != SSpawnMonitor) || at' == SSpawnMonitor)
            && (l'.sweeper == Added ==>
                  (l.sweeper == Added && at != SSpawnSweeper) || at' == SSpawnMonitor || at' == SSpawnSweeper)
  {
    match at
    case SEnter =>
    case SPublish =>
    case SSpawnMonitor =>
    case SSpawnSweeper =>
    case SServe =>
    case _ =>
  }

  lemma RunSpawns(h: Hub, pid: nat, ch: Choice)
    requires Inv(h) && Spawned(h) && Enabled(h, Run(pid, ch))
    ensures Spawned(Apply(h, Run(pid, ch)))
  {
    var h' := Apply(h, Run(pid, ch));
    var pc := h.procs[pid];
    ExecSpawns(pid, pc, h.life, ch);
    if h'.life.monitor == Added && h'.procs[pid] != Start(SSpawnMonitor) {
      var p :| p in h.procs && h.procs[p] == Start(SSpawnMonitor);
      assert h'.procs[p] == h.procs[p];
    }
    if h'.life.sweeper == Added && !StillSpawns(h'.procs[pid]) {
      var p :| p in h.procs && StillSpawns(h.procs[p]);
      assert p != pid;
      assert StillSpawns(h'.procs[p]);
    }
  }

  lemma StepSpawns(h: Hub, a: Action)
    requires Inv(h) && Spawned(h) && Enabled(h, a)
    ensures Spawned(Apply(h, a))
  {
    if a.Run? {
      RunSpawns(h, a.pid, a.ch);
    } else {
      var h' := Apply(h, a);
      forall p | p in h.procs ensures p in h'.procs && h'.procs[p] == h.procs[p] {
      }
    }
  }

  lemma {:induction false} RunsAreSpawned(hs: seq<Hub>, acts: seq<Action>, i: nat)
    requires IsRun(hs, acts) && i < |hs|
    ensures Spawned(hs[i])
  {
    if i > 0 {
      RunsAreSpawned(hs, acts, i - 1);
      RunsKeepInv(hs, acts, i - 1);
      assert Next(hs[i - 1], acts[i - 1], hs[i]);
      StepSpawns(hs[i - 1], acts[i - 1]);
    }
  }

  // ---- Nothing gets stuck ----

  /** How many more steps of its own a Start takes at most, its waiting in Serve being one. */
  function StartSteps(at: StartAt): nat {
    match at
    case SReturned(_, _) => 0
    case SServeErr(_) => 1
    case SServing => 2
    case SServe => 3
    case SSpawnSweeper => 4
    case SSpawnMonitor => 5
    case SAbandon => 1
    case SPublish => 6
    case SListen => 7
    case SReconcileErr(_) => 1
    case SReconcile => 8
    case SEnter => 9
  }

  function StopSteps(at: StopAt): nat {
    match at
    case TReturned(_) => 0
    case TFinish(_) => 1
    case TClose => 2
    case TWait => 3
    case TResult(_) => 4
    case TQuit => 5
    case TServer(_) => 6
    case TSweep(_) => 7
    case TCancel(_, _) => 8
    case TDrain(_, _) => 9
    case TMark => 10
    case TEnter => 11
  }

  function StepsLeft(pc: Pc): nat {
    match pc case Start(at) => StartSteps(at) case Stop(at) => StopSteps(at)
  }

  /** A call comes closer to its return with every step: nine are enough for a Start, eleven for a Stop. */
  lemma EveryStepGetsCloser(pid: nat, pc: Pc, l: Life, ch: Choice)
    requires MayStep(pc, l, ch)
    ensures StepsLeft(Exec(pid, pc, l, ch).0) < StepsLeft(pc) <= 11
  {
    match pc
    case Start(at) => StartGetsCloser(at, l, ch);
    case Stop(at) => StopGetsCloser(pid, at, l, ch);
  }

  lemma StartGetsCloser(at: StartAt, l: Life, ch: Choice)
    requires MayStart(at, l, ch)
    ensures StartSteps(ExecStart(at, l, ch).0) < StartSteps(at)
  {
    match at case _ =>
  }

  lemma StopGetsCloser(pid: nat, at: StopAt, l: Life, ch: Choice)
    requires MayStop(at, l, ch)
    ensures StopSteps(ExecStop(pid, at, l, ch).0) < StopSteps(at)
  {
    match at case _ =>
  }

  /** The Once that is running belongs to a Stop that is under way. */
  ghost predicate RunnerThere(h: Hub) {
    h.life.once.Running? ==> h.life.once.pid in h.procs && IsStopper(h.procs[h.life.once.pid])
  }

  lemma StepKeepsRunner(h: Hub, a: Action)
    requires Inv(h) && RunnerThere(h) && Enabled(h, a)
    ensures RunnerThere(Apply(h, a))
  {
    if a.Run? {
      assert PcOk(a.pid, h.procs[a.pid], h.life);
      var pc := h.procs[a.pid];
      match pc
      case Start(at) => assert ExecStart(at, h.life, a.ch).1.once == h.life.once;
      case Stop(at) => StopKeepsRunner(a.pid, at, h.life, a.ch);
    }
  }

  lemma StopKeepsRunner(pid: nat, at: StopAt, l: Life, ch: Choice)
    requires MayStop(at, l, ch) && (IsStopper(Stop(at)) ==> l.once == Running(pid))
    ensures var (at', l') := ExecStop(pid, at, l, ch);
            l'.once.Running? ==> if l'.once == l.once then IsStopper(Stop(at)) ==> IsStopper(Stop(at'))
                                 else l'.once.pid == pid && IsStopper(Stop(at'))
  {
    match at
    case TEnter =>
    case TFinish(_) =>
    case _ =>
  }

  lemma {:induction false} RunsKeepRunner(hs: seq<Hub>, acts: seq<Action>, i: nat)
    requires IsRun(hs, acts) && i < |hs|
    ensures RunnerThere(hs[i])
  {
    if i > 0 {
      RunsKeepRunner(hs, acts, i - 1);
      RunsKeepInv(hs, acts, i - 1);
      assert Next(hs[i - 1], acts[i - 1], hs[i]);
      StepKeepsRunner(hs[i - 1], acts[i - 1]);
    }
  }

  /**
   In no run does a Start or a Stop get stuck: while it has not returned, a step is possible,
   of its own or of the Stop that it waits for.
   */
  lemma NoDeadlock(hs: seq<Hub>, acts: seq<Action>, i: nat, pid: nat) returns (q: nat, ch: Choice)
    requires IsRun(hs, acts) && i < |hs| && pid in hs[i].procs
    requires !HasStopped(hs[i].procs[pid]) && !HasReturned(hs[i].procs[pid])
    ensures Enabled(hs[i], Run(q, ch)) && (q == pid || hs[i].life.once == Running(q))
  {
    RunsKeepRunner(hs, acts, i);
    q := if hs[i].procs[pid] == Stop(TEnter) && hs[i].life.once.Running? then hs[i].life.once.pid else pid;
    ch := Choice(true, false, StopHung, true);
  }

  /** The Stop `p` waits for the goroutines at the end of the run. */
  ghost predicate WaitsAtEnd(hs: seq<Hub>, acts: seq<Action>, p: nat) {
    IsRun(hs, acts) && p in hs[|acts|].procs && hs[|acts|].procs[p] == Stop(TWait)
  }

  ghost predicate Continues(hs: seq<Hub>, acts: seq<Action>, hs': seq<Hub>, acts': seq<Action>) {
    IsRun(hs', acts') && hs <= hs' && acts <= acts'
  }

  lemma CtxIsDone(hs: seq<Hub>, acts: seq<Action>, p: nat)
    requires WaitsAtEnd(hs, acts, p)
    ensures hs[|acts|].life.grpc ==> RunCtxDone(hs[|acts|].life)
    ensures hs[|acts|].life.monitor != Unborn || hs[|acts|].life.sweeper != Unborn ==> hs[|acts|].life.grpc
  {
    RunsKeepInv(hs, acts, |acts|);
    assert PcOk(p, hs[|acts|].procs[p], hs[|acts|].life);
  }

  /** Whoever has yet to spawn the monitor does so. */
  lemma MonitorSpawns(hs: seq<Hub>, acts: seq<Action>, p: nat) returns (hs': seq<Hub>, acts': seq<Action>)
    requires WaitsAtEnd(hs, acts, p)
    ensures Continues(hs, acts, hs', acts') && WaitsAtEnd(hs', acts', p) && hs'[|acts'|].life.monitor != Added
  {
    hs', acts' := hs, acts;
    if hs[|acts|].life.monitor == Added {
      RunsAreSpawned(hs, acts, |acts|);
      var q :| q in hs[|acts|].procs && hs[|acts|].procs[q] == Start(SSpawnMonitor);
      hs', acts' := Extend(hs, acts, Run(q, FINE));
    }
  }

  lemma SweeperSpawns(hs: seq<Hub>, acts: seq<Action>, p: nat) returns (hs': seq<Hub>, acts': seq<Action>)
    requires WaitsAtEnd(hs, acts, p) && hs[|acts|].life.monitor != Added
    ensures Continues(hs, acts, hs', acts') && WaitsAtEnd(hs', acts', p)
    ensures hs'[|acts'|].life.monitor != Added && hs'[|acts'|].life.sweeper != Added
  {
    hs', acts' := hs, acts;
    if hs[|acts|].life.sweeper == Added {
      RunsAreSpawned(hs, acts, |acts|);
      RunsKeepInv(hs, acts, |acts|);
      var q :| q in hs[|acts|].procs && StillSpawns(hs[|acts|].procs[q]);
      assert PcOk(q, hs[|acts|].procs[q], hs[|acts|].life);
      hs', acts' := Extend(hs, acts, Run(q, FINE));
    }
  }

  lemma GoroutinesExit(hs: seq<Hub>, acts: seq<Action>, p: nat) returns (hs': seq<Hub>, acts': seq<Action>)
    requires WaitsAtEnd(hs, acts, p) && hs[|acts|].life.monitor != Added && hs[|acts|].life.sweeper != Added
    ensures Continues(hs, acts, hs', acts') && WaitsAtEnd(hs', acts', p) && WaitOver(hs'[|acts'|].life)
  {
    hs', acts' := hs, acts;
    CtxIsDone(hs, acts, p);
    if hs[|acts|].life.monitor == Alive {
      hs', acts' := Extend(hs', acts', MonitorExits);
    }
    if hs[|acts|].life.sweeper == Alive {
      hs', acts' := Extend(hs', acts', SweeperExits);
    }
  }

  /**
   A Stop that waits for the goroutines never waits in vain: from any state of any run the
   goroutines can come to their end, and then the store is closed.
   */
  lemma StopCanCloseTheStore(hs: seq<Hub>, acts: seq<Action>, p: nat) returns (hs': seq<Hub>, acts': seq<Action>)
    requires WaitsAtEnd(hs, acts, p)
    ensures Continues(hs, acts, hs', acts') && hs'[|acts'|].life.closes == 1
  {
    hs', acts' := MonitorSpawns(hs, acts, p);
    hs', acts' := SweeperSpawns(hs', acts', p);
    hs', acts' := GoroutinesExit(hs', acts', p);
    hs', acts' := Extend(hs', acts', Run(p, FINE));
    RunsKeepInv(hs', acts', |acts'|);
    assert PcOk(p, hs'[|acts'|].procs[p], hs'[|acts'|].life);
    hs', acts' := Extend(hs', acts', Run(p, FINE));
  }
}
