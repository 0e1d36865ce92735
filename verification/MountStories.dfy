/**
 What a call of the mounter has done when it returns, in every run and whatever runs
 beside it: a Mount has installed its mount, or it met one of the reasons not to; an
 Unmount has run its command for every entry it was called for. And no call gets stuck.
 */
module MountStories {
  import opened Options
  import opened MountTable
  import opened MountMachine
  import opened MountTheorems

  ghost predicate StepBy(acts: seq<Action>, k: nat, pid: nat) {
    k < |acts| && acts[k].Run? && acts[k].pid == pid
  }

  /** Step `k` is one of the call `pid`, which stands at `at` with a `c` to mount. */
  ghost predicate MountStep(ys: seq<Sys>, acts: seq<Action>, k: nat, pid: nat, c: Call, at: MAt)
    requires |ys| == |acts| + 1
  {
    StepBy(acts, k, pid) && pid in ys[k].procs && ys[k].procs[pid].Mounting?
    && ys[k].procs[pid].call == c && ys[k].procs[pid].at == at
  }

  lemma Stands(ys: seq<Sys>, acts: seq<Action>, j: nat, pid: nat)
    requires IsRun(ys, acts) && j < |acts| && pid in ys[j].procs && !StepBy(acts, j, pid)
    ensures pid in ys[j + 1].procs && ys[j + 1].procs[pid] == ys[j].procs[pid]
  {
    assert Next(ys[j], acts[j], ys[j + 1]);
  }

  lemma Moves(ys: seq<Sys>, acts: seq<Action>, j: nat, pid: nat)
    requires IsRun(ys, acts) && StepBy(acts, j, pid)
    ensures pid in ys[j].procs && pid in ys[j + 1].procs && MayStep(ys[j].procs[pid], ys[j].s, acts[j].ch)
    ensures var step := Exec(pid, ys[j].procs[pid], ys[j].s, acts[j].ch);
            ys[j + 1].procs[pid] == step.pc && ys[j + 1].s == step.s
  {
    assert Next(ys[j], acts[j], ys[j + 1]);
  }

  // ---- A dead mount is torn down ----

  /**
   When a Mount call has the lock again and its entry is still the one it probed, it goes
   on to the teardown if and only if the verdict it was given is dead; and a verdict it was
   given, unless it is unknown, is the one the stat's answer shows.
   */
  lemma DeadRecheckTearsDown(ys: seq<Sys>, acts: seq<Action>, i: nat, pid: nat, c: Call, g: nat, p: nat, h: Health)
    requires IsRun(ys, acts) && MountStep(ys, acts, i, pid, c, MRecheck(g, p, h))
    requires c.key in ys[i].s.m.active && ys[i].s.m.active[c.key] == g
    ensures pid in ys[i + 1].procs && ys[i + 1].procs[pid].Mounting?
    ensures ys[i + 1].procs[pid].at.MTear? <==> h == Dead
    ensures h != Dead ==> ys[i + 1].procs[pid].at == MRelease
    ensures var m := ys[i].s.m;
            p < |m.probes| && m.probes[p].gen == g
            && (h == Dead ==> m.probes[p].answer in {Some(IsNotMount), Some(NotConnected), Some(Missing)})
            && (h == Healthy ==> m.probes[p].answer == Some(IsMount))
  {
    RunsKeepInv(ys, acts, i);
    Moves(ys, acts, i, pid);
    assert PcOk(pid, ys[i].procs[pid], ys[i].s);
    assert VerdictsOk(ys[i].s.m);
  }

  /** A teardown that works leaves the key free and goes on to mount; one that does not leaves the entry. */
  lemma TeardownDecides(ys: seq<Sys>, acts: seq<Action>, i: nat, pid: nat, c: Call, g: nat, why: Evidence)
    requires IsRun(ys, acts) && MountStep(ys, acts, i, pid, c, MTear(g, why))
    ensures c.key in ys[i].s.m.active && ys[i].s.m.active[c.key] == g
    ensures pid in ys[i + 1].procs && ys[i + 1].procs[pid].Mounting?
    ensures var u := acts[i].ch.unmounting;
            if u.ok || (u.recheck.Answered? && u.recheck.check != IsMount)
            then c.key !in ys[i + 1].s.m.active && ys[i + 1].procs[pid].at == MGuard
            else ys[i + 1].s == ys[i].s && ys[i + 1].procs[pid].at == MRelease
  {
    RunsKeepInv(ys, acts, i);
    Moves(ys, acts, i, pid);
    assert PcOk(pid, ys[i].procs[pid], ys[i].s);
  }

  /** A stat may come back at any time, and decides its probe for all who wait; then the slot is given up. */
  lemma ProbesEnd(ys: seq<Sys>, acts: seq<Action>, i: nat, p: nat)
    requires IsRun(ys, acts) && i < |acts| && p < |ys[i].s.m.probes|
    ensures ys[i].s.m.probes[p].flight == Stat ==> forall c :: Enabled(ys[i], Answer(p, c))
    ensures ys[i].s.m.probes[p].flight == Closed ==> Enabled(ys[i], Retire(p))
    ensures p < |ys[i + 1].s.m.probes|
    ensures var m' := ys[i + 1].s.m;
            && (acts[i].Answer? && acts[i].p == p ==>
                  m'.probes[p].flight == Closed && m'.probes[p].answer == Some(acts[i].c))
            && (acts[i] == Retire(p) ==> m'.probes[p].flight == Gone && p !in m'.probeOf.Values)
  {
    RunsKeepInv(ys, acts, i);
    assert Next(ys[i], acts[i], ys[i + 1]);
    if acts[i].Run? {
      ProbesNeverGo(acts[i].pid, ys[i].procs[acts[i].pid], ys[i].s, acts[i].ch);
    }
  }

  lemma ProbesNeverGo(pid: nat, pc: Pc, s: State, ch: Choice)
    ensures |s.m.probes| <= |Exec(pid, pc, s, ch).s.m.probes|
  {
  }

  // ---- A Mount ----

  /** The call may have to take the probe for undecided: it stopped waiting, or the stat met another error. */
  ghost predicate UndecidedAt(ys: seq<Sys>, acts: seq<Action>, k: nat, pid: nat, p: nat)
    requires |ys| == |acts| + 1
  {
    && StepBy(acts, k, pid) && p < |ys[k].s.m.probes| && pid in ys[k].procs && ys[k].procs[pid].Mounting?
    && (ys[k].procs[pid].at.MArrive? || ys[k].procs[pid].at.MAwait?) && ys[k].procs[pid].at.p == p
    && (|| ys[k].s.m.probes[p].deadline <= ys[k].s.clock || acts[k].ch.wake == ByCaller
        || ys[k].s.m.probes[p].answer == Some(OtherError))
  }

  ghost predicate Undecided(ys: seq<Sys>, acts: seq<Action>, s: nat, j: nat, pid: nat, p: nat)
    requires |ys| == |acts| + 1
  {
    exists k :: s < k < j && UndecidedAt(ys, acts, k, pid, p)
  }

  /** At step `k` the call finds its share mounted at its endpoint; a probe found the mount, or nothing conclusive. */
  ghost predicate KeepsAt(ys: seq<Sys>, acts: seq<Action>, s: nat, k: nat, pid: nat, c: Call)
    requires |ys| == |acts| + 1
  {
    && StepBy(acts, k, pid) && pid in ys[k].procs && ys[k].procs[pid].Mounting? && ys[k].procs[pid].at.MRecheck?
    && var m := ys[k].s.m;
       && c.key in m.active && m.active[c.key] < |m.gens| && m.gens[m.active[c.key]].ep == c.ep
       && exists p :: && 0 <= p < |m.probes| && m.probes[p].gen == m.active[c.key]
                      && (m.probes[p].answer == Some(IsMount) || Undecided(ys, acts, s, k, pid, p))
  }

  /** At step `k` the entry it had probed is no longer the key's: another call replaced or removed it. */
  ghost predicate OvertakenAt(ys: seq<Sys>, acts: seq<Action>, k: nat, pid: nat, c: Call)
    requires |ys| == |acts| + 1
  {
    && StepBy(acts, k, pid) && pid in ys[k].procs && ys[k].procs[pid].Mounting? && ys[k].procs[pid].at.MRecheck?
    && (c.key in ys[k].s.m.active ==> ys[k].s.m.active[c.key] != ys[k].procs[pid].at.g)
  }

  /** At step `k` something fails: a check, a chmod, the command, or the unmount of the old entry. */
  ghost predicate FailsAt(ys: seq<Sys>, acts: seq<Action>, k: nat, pid: nat)
    requires |ys| == |acts| + 1
  {
    && StepBy(acts, k, pid) && pid in ys[k].procs && ys[k].procs[pid].Mounting?
    && var ch := acts[k].ch;
       match ys[k].procs[pid].at
       case MTear(_, _) =>
         !ch.unmounting.ok && (ch.unmounting.recheck == TimedOut || ch.unmounting.recheck == Answered(IsMount))
       case MGuard => !ch.chmod
       case MContents => ch.fail
       case MKnownHosts => ch.fail
       case MMountable => ch.fail
       case MStart => ch.fail
       case MPoll => ch.poll == GaveUp
       case _ => false
  }

  /** Step `k` makes the call's own mount the entry of its key, which had none. */
  ghost predicate InstallsAt(ys: seq<Sys>, acts: seq<Action>, k: nat, pid: nat, c: Call)
    requires |ys| == |acts| + 1
  {
    && StepBy(acts, k, pid) && c.key !in ys[k].s.m.active
    && var m := ys[k + 1].s.m;
       c.key in m.active && m.active[c.key] < |m.gens| && m.gens[m.active[c.key]] == Gen(c.key, c.path, c.ep)
       && c.path in m.mountable
  }

  ghost predicate SettledAt(ys: seq<Sys>, acts: seq<Action>, s: nat, k: nat, pid: nat, c: Call)
    requires |ys| == |acts| + 1
  {
    || KeepsAt(ys, acts, s, k, pid, c) || OvertakenAt(ys, acts, k, pid, c) || FailsAt(ys, acts, k, pid)
    || InstallsAt(ys, acts, k, pid, c)
  }

  ghost predicate Settled(ys: seq<Sys>, acts: seq<Action>, s: nat, j: nat, pid: nat, c: Call)
    requires |ys| == |acts| + 1
  {
    exists k :: s < k < j && SettledAt(ys, acts, s, k, pid, c)
  }

  /** How far the Mount called at step `s` has come in state `j`. */
  ghost predicate MountSoFar(ys: seq<Sys>, acts: seq<Action>, s: nat, j: nat, pid: nat, c: Call)
    requires |ys| == |acts| + 1 && j < |ys|
  {
    && pid in ys[j].procs
    && match ys[j].procs[pid]
       case Returned => Settled(ys, acts, s, j, pid, c)
       case Unmounting(_, _, _) => false
       case Mounting(call, _, at) =>
         && call == c
         && (at == MRelease || at == MReguard ==> Settled(ys, acts, s, j, pid, c))
         && (at.MRelock? && at.h == Unknown ==> Undecided(ys, acts, s, j, pid, at.p))
         && (at.MRecheck? && at.h == Unknown ==> Undecided(ys, acts, s, j, pid, at.p))
  }

  lemma MountWaits(ys: seq<Sys>, acts: seq<Action>, s: nat, j: nat, pid: nat, c: Call)
    requires IsRun(ys, acts) && s < j < |acts| && MountSoFar(ys, acts, s, j, pid, c) && StepBy(acts, j, pid)
    requires ys[j].procs[pid].Mounting? && (ys[j].procs[pid].at.MArrive? || ys[j].procs[pid].at.MAwait?)
    ensures MountSoFar(ys, acts, s, j + 1, pid, c)
  {
    Moves(ys, acts, j, pid);
    RunsKeepInv(ys, acts, j);
    assert PcOk(pid, ys[j].procs[pid], ys[j].s);
    var at, m := ys[j].procs[pid].at, ys[j].s.m;
    assert VerdictsOk(m);
    var at' := ys[j + 1].procs[pid].at;
    if at'.MRelock? && at'.h == Unknown {
      assert UndecidedAt(ys, acts, j, pid, at.p);
    }
  }

  lemma MountRechecks(ys: seq<Sys>, acts: seq<Action>, s: nat, j: nat, pid: nat, c: Call)
    requires IsRun(ys, acts) && s < j < |acts| && MountSoFar(ys, acts, s, j, pid, c) && StepBy(acts, j, pid)
    requires ys[j].procs[pid].Mounting? && ys[j].procs[pid].at.MRecheck?
    ensures MountSoFar(ys, acts, s, j + 1, pid, c)
  {
    Moves(ys, acts, j, pid);
    RunsKeepInv(ys, acts, j);
    assert PcOk(pid, ys[j].procs[pid], ys[j].s);
    var at, m := ys[j].procs[pid].at, ys[j].s.m;
    assert VerdictsOk(m);
    if ys[j + 1].procs[pid].at == MRelease {
      if c.key in m.active && m.active[c.key] == at.g {
        assert KeepsAt(ys, acts, s, j, pid, c);
      } else {
        assert OvertakenAt(ys, acts, j, pid, c);
      }
      assert SettledAt(ys, acts, s, j, pid, c);
    }
  }

  lemma MountInstalls(ys: seq<Sys>, acts: seq<Action>, s: nat, j: nat, pid: nat, c: Call)
    requires IsRun(ys, acts) && s < j < |acts| && MountSoFar(ys, acts, s, j, pid, c) && StepBy(acts, j, pid)
    requires ys[j].procs[pid].Mounting? && ys[j].procs[pid].at.MInstall?
    ensures MountSoFar(ys, acts, s, j + 1, pid, c)
  {
    Moves(ys, acts, j, pid);
    RunsKeepInv(ys, acts, j);
    assert PcOk(pid, ys[j].procs[pid], ys[j].s);
    InstallKeeps(ys[j].s.m, ys[j].s.owner, Gen(c.key, c.path, c.ep));
    assert InstallsAt(ys, acts, j, pid, c);
    assert SettledAt(ys, acts, s, j, pid, c);
  }

  lemma MountMoves(ys: seq<Sys>, acts: seq<Action>, s: nat, j: nat, pid: nat, c: Call)
    requires IsRun(ys, acts) && s < j < |acts| && MountSoFar(ys, acts, s, j, pid, c) && StepBy(acts, j, pid)
    requires ys[j].procs[pid].Mounting?
    requires var at := ys[j].procs[pid].at; !at.MArrive? && !at.MAwait? && !at.MRecheck? && !at.MInstall?
    ensures MountSoFar(ys, acts, s, j + 1, pid, c)
  {
    Moves(ys, acts, j, pid);
    assert FailsAt(ys, acts, j, pid) ==> SettledAt(ys, acts, s, j, pid, c);
  }

  lemma MountGoesOn(ys: seq<Sys>, acts: seq<Action>, s: nat, j: nat, pid: nat, c: Call)
    requires IsRun(ys, acts) && s < j < |acts| && MountSoFar(ys, acts, s, j, pid, c)
    ensures MountSoFar(ys, acts, s, j + 1, pid, c)
  {
    if !StepBy(acts, j, pid) {
      Stands(ys, acts, j, pid);
    } else {
      Moves(ys, acts, j, pid);
      var at := ys[j].procs[pid].at;
      if at.MArrive? || at.MAwait? {
        MountWaits(ys, acts, s, j, pid, c);
      } else if at.MRecheck? {
        MountRechecks(ys, acts, s, j, pid, c);
      } else if at.MInstall? {
        MountInstalls(ys, acts, s, j, pid, c);
      } else {
        MountMoves(ys, acts, s, j, pid, c);
      }
    }
  }

  lemma {:induction false} MountReaches(ys: seq<Sys>, acts: seq<Action>, s: nat, j: nat, pid: nat, c: Call)
    requires IsRun(ys, acts) && s < j < |ys| && acts[s] == Spawn(pid, Mounting(c, Unlooked, MLock))
    ensures MountSoFar(ys, acts, s, j, pid, c)
  {
    if j == s + 1 {
      assert Next(ys[s], acts[s], ys[s + 1]);
    } else {
      var k := j - 1;
      MountReaches(ys, acts, s, k, pid, c);
      MountGoesOn(ys, acts, s, k, pid, c);
    }
  }

  /**
   A Mount that has returned has made its mount the entry of its key; or it found the share
   mounted at that endpoint and not shown to be dead, was overtaken by another call while
   it probed, or met a failure.
   */
  lemma MountStory(ys: seq<Sys>, acts: seq<Action>, s: nat, j: nat, pid: nat, c: Call)
    requires IsRun(ys, acts) && s < j < |ys| && acts[s] == Spawn(pid, Mounting(c, Unlooked, MLock))
    requires pid in ys[j].procs && ys[j].procs[pid].Returned?
    ensures || (exists k :: s < k < j && InstallsAt(ys, acts, k, pid, c))
            || (exists k :: s < k < j && KeepsAt(ys, acts, s, k, pid, c))
            || (exists k :: s < k < j && OvertakenAt(ys, acts, k, pid, c))
            || (exists k :: s < k < j && FailsAt(ys, acts, k, pid))
  {
    MountReaches(ys, acts, s, j, pid, c);
    var k :| s < k < j && SettledAt(ys, acts, s, k, pid, c);
  }

  /** A Mount call that has given up: all it may still do is guard its target again. */
  predicate GaveUpOrOver(pc: Pc) {
    IsOver(pc) || (pc.Mounting? && pc.at.MReguard?)
  }

  lemma {:induction false} GivenUpStays(ys: seq<Sys>, acts: seq<Action>, i: nat, j: nat, pid: nat)
    requires IsRun(ys, acts) && i <= j < |ys| && pid in ys[i].procs && GaveUpOrOver(ys[i].procs[pid])
    ensures pid in ys[j].procs && GaveUpOrOver(ys[j].procs[pid])
  {
    if i < j {
      GivenUpStays(ys, acts, i, j - 1, pid);
      assert Next(ys[j - 1], acts[j - 1], ys[j]);
    }
  }

  /**
   A Mount that met a failure mounts nothing: from then on it neither adds nor removes an
   entry. So one that installed its mount met none: every check, the command and the wait
   for the mount to appear went well.
   */
  lemma FailureIsFinal(ys: seq<Sys>, acts: seq<Action>, k: nat, n: nat, pid: nat)
    requires IsRun(ys, acts) && k <= n && FailsAt(ys, acts, k, pid) && StepBy(acts, n, pid)
    ensures ys[n + 1].s.m.active == ys[n].s.m.active && ys[n + 1].s.m.gens == ys[n].s.m.gens
  {
    RunsKeepInv(ys, acts, k);
    Moves(ys, acts, k, pid);
    assert PcOk(pid, ys[k].procs[pid], ys[k].s);
    if k < n {
      GivenUpStays(ys, acts, k + 1, n, pid);
      Moves(ys, acts, n, pid);
    }
  }

  // ---- An Unmount ----

  /** Step `k` runs the unmount command for the entry. */
  ghost predicate UnmountsAt(ys: seq<Sys>, acts: seq<Action>, k: nat, pid: nat, key: Key)
    requires |ys| == |acts| + 1
  {
    StepBy(acts, k, pid) && pid in ys[k].procs && Unmounts(ys[k].procs[pid], key)
  }

  ghost predicate UnmountSoFar(ys: seq<Sys>, acts: seq<Action>, s: nat, j: nat, pid: nat, key: Key)
    requires |ys| == |acts| + 1 && j < |ys|
  {
    && pid in ys[j].procs
    && (|| (ys[j].procs[pid].Unmounting? && !ys[j].procs[pid].u.USnap? && key in ys[j].procs[pid].todo)
        || exists k :: s < k < j && UnmountsAt(ys, acts, k, pid, key))
  }

  lemma {:induction false} UnmountReaches(ys: seq<Sys>, acts: seq<Action>, l: nat, j: nat, pid: nat, key: Key)
    requires IsRun(ys, acts) && l < j < |ys| && pid in ys[l + 1].procs
    requires ys[l + 1].procs[pid].Unmounting? && !ys[l + 1].procs[pid].u.USnap? && key in ys[l + 1].procs[pid].todo
    ensures UnmountSoFar(ys, acts, l, j, pid, key)
  {
    if l + 1 < j {
      var k := j - 1;
      UnmountReaches(ys, acts, l, k, pid, key);
      if StepBy(acts, k, pid) {
        Moves(ys, acts, k, pid);
        var pc := ys[k].procs[pid];
        if pc.Unmounting? && pc.u.UOne? && key in pc.todo {
          assert pc.todo[0] == key ==> UnmountsAt(ys, acts, k, pid, key);
          assert pc.todo == [pc.todo[0]] + pc.todo[1..];
        }
      } else {
        Stands(ys, acts, k, pid);
      }
    }
  }

  /**
   UnmountDevice and UnmountAll run the command for every entry of the device, or every
   entry, that there was when they took their snapshot; whatever fails on the way.
   */
  lemma UnmountStory(ys: seq<Sys>, acts: seq<Action>, l: nat, j: nat, pid: nat, reguard: bool, device: string,
                     all: bool, key: Key)
    requires IsRun(ys, acts) && l < j < |ys| && StepBy(acts, l, pid) && pid in ys[l].procs
    requires ys[l].procs[pid] == Unmounting([], reguard, USnap(device, all))
    requires key in ys[l].s.m.active && (all || key.device == device)
    requires pid in ys[j].procs && ys[j].procs[pid].Returned?
    ensures exists k :: l < k < j && UnmountsAt(ys, acts, k, pid, key)
  {
    Moves(ys, acts, l, pid);
    UnmountReaches(ys, acts, l, j, pid, key);
  }

  // ---- Nothing gets stuck ----

  /**
   In no run does the mounter get stuck: while a call has not returned, a step is possible.
   It is one of that call, or of the one that holds the lock.
   */
  lemma NoDeadlock(ys: seq<Sys>, acts: seq<Action>, i: nat, pid: nat) returns (q: nat, ch: Choice)
    requires IsRun(ys, acts) && i < |ys| && pid in ys[i].procs && !ys[i].procs[pid].Returned?
    ensures Enabled(ys[i], Run(q, ch)) && (q == pid || ys[i].s.lock == HeldBy(q))
  {
    RunsKeepInv(ys, acts, i);
    q := if ys[i].s.lock.HeldBy? then ys[i].s.lock.pid else pid;
    assert PcOk(q, ys[i].procs[q], ys[i].s);
    ch := FINE;
    if ys[i].procs[q].Unmounting? && ys[i].procs[q].u.USnap? {
      var keys := Listing(ys[i].s.m.active.Keys, ys[i].procs[q].u.device, ys[i].procs[q].u.all);
      ch := FINE.(keys := keys);
    }
  }

  function MountSteps(at: MAt): nat {
    match at
    case MLock => 17
    case MLook => 16
    case MProbe(_) => 15
    case MUnlock(_, _) => 14
    case MArrive(_, _) => 13
    case MAwait(_, _) => 12
    case MRelock(_, _, _) => 11
    case MRecheck(_, _, _) => 10
    case MTear(_, _) => 9
    case MGuard => 8
    case MContents => 7
    case MKnownHosts => 6
    case MMountable => 5
    case MStart => 4
    case MPoll => 3
    case MReguard => 2
    case MInstall => 2
    case MRelease => 1
  }

  /** How many more steps a call takes at most that knows its entries and does not wait for its mount to appear. */
  function StepsLeft(pc: Pc): nat {
    match pc
    case Returned => 0
    case Mounting(_, _, at) => MountSteps(at)
    case Unmounting(todo, _, u) =>
      match u
      case USnap(_, _) => 0
      case ULock => 3 * |todo| + 1
      case UOne => 3 * |todo| + if todo == [] then 3 else 0
      case URelease => 3 * |todo| + 2
  }

  /**
   Every step brings a call closer to its return, but for the one that takes the snapshot of
   the entries and a look for a mount that has not appeared yet; none else is repeated.
   */
  lemma EveryStepGetsCloser(pid: nat, pc: Pc, s: State, ch: Choice)
    requires MayStep(pc, s, ch) && !(pc.Unmounting? && pc.u.USnap?)
    requires !(pc.Mounting? && pc.at.MPoll? && ch.poll == NotYet)
    ensures StepsLeft(Exec(pid, pc, s, ch).pc) < StepsLeft(pc)
  {
    if pc.Mounting? {
      MountGetsCloser(pid, pc, s, ch);
    }
  }

  lemma MountGetsCloser(pid: nat, pc: Pc, s: State, ch: Choice)
    requires pc.Mounting? && !(pc.at.MPoll? && ch.poll == NotYet)
    ensures StepsLeft(ExecMount(pid, pc, s, ch).pc) < StepsLeft(pc)
  {
    match pc.at case _ =>
  }

  /** Some order of the keys a snapshot takes. */
  lemma {:induction false} Listing(keys: set<Key>, device: string, all: bool) returns (list: seq<Key>)
    ensures forall k :: k in list <==> k in keys && (all || k.device == device)
  {
    if keys == {} {
      list := [];
    } else {
      var k :| k in keys;
      list := Listing(keys - {k}, device, all);
      if all || k.device == device {
        list := list + [k];
      }
    }
  }
}
