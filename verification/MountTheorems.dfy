/** The mounter's invariant, and what follows for every run. */
module MountTheorems {
  import opened Options
  import opened MountTable
  import opened MountMachine

  /** What no step takes back: generations stay, and a probe's answer, once given, is final. */
  ghost predicate Grows(m: Mounts, m': Mounts) {
    && m.gens <= m'.gens
    && |m.probes| <= |m'.probes|
    && (forall p | 0 <= p < |m.probes| ::
          && m'.probes[p].gen == m.probes[p].gen && m'.probes[p].deadline == m.probes[p].deadline
          && (m.probes[p].flight != Stat ==>
                && m'.probes[p].flight != Stat && m'.probes[p].health == m.probes[p].health
                && m'.probes[p].answer == m.probes[p].answer))
  }

  /** Only the probe registry differs. */
  ghost predicate ProbesOnly(m: Mounts, m': Mounts) {
    Grows(m, m') && m' == m.(probes := m'.probes, probeOf := m'.probeOf)
  }

  lemma ExecGrows(pid: nat, pc: Pc, s: State, ch: Choice)
    ensures Grows(s.m, Exec(pid, pc, s, ch).s.m)
  {
    if pc.Mounting? && pc.at.MProbe? {
      ProbeGrows(s.m, pc.call.key, pc.at.g, s.clock);
    } else if pc.Mounting? && pc.at.MInstall? {
      InstallChanges(s.m, Gen(pc.call.key, pc.call.path, pc.call.ep));
    } else {
      SparesProbes(pid, pc, s, ch);
    }
  }

  lemma ProbeGrows(m: Mounts, k: Key, g: nat, now: int)
    ensures Grows(m, BegunProbe(m, k, g, now))
  {
  }

  lemma SparesProbes(pid: nat, pc: Pc, s: State, ch: Choice)
    requires !(pc.Mounting? && (pc.at.MProbe? || pc.at.MInstall?))
    ensures Exec(pid, pc, s, ch).s.m.gens == s.m.gens && Exec(pid, pc, s, ch).s.m.probes == s.m.probes
  {
  }

  lemma StaysWaiting(pc: Pc, s: State, s': State)
    requires pc.Mounting? && MountingOk(pc, s) && !HoldsLock(pc)
    requires Grows(s.m, s'.m) && s'.owner == s.owner
    ensures MountingOk(pc, s')
  {
  }

  lemma StaysHolding(pc: Pc, s: State, s': State)
    requires pc.Mounting? && MountingOk(pc, s) && OldTarget(pc, s)
    requires ProbesOnly(s.m, s'.m) && s'.owner == s.owner && s'.badChmod == s.badChmod
    ensures MountingOk(pc, s') && OldTarget(pc, s')
  {
  }

  lemma ModesStay(m: Mounts, m': Mounts, open: set<Path>)
    requires ModesOk(m, open) && ProbesOnly(m, m')
    ensures ModesOk(m', open)
  {
    assert ActivePaths(m') == ActivePaths(m);
  }

  /** While a call holds the lock, no other changes anything but its own wait. */
  lemma LockExcludes(pid: nat, pc: Pc, s: State, ch: Choice, q: nat)
    requires (HoldsLock(pc) <==> s.lock == HeldBy(pid)) && MayStep(pc, s, ch) && s.lock == HeldBy(q) && q != pid
    ensures Exec(pid, pc, s, ch).s == s
  {
  }

  lemma LockMoves(pid: nat, pc: Pc, s: State, ch: Choice, q: nat)
    requires (HoldsLock(pc) <==> s.lock == HeldBy(pid)) && s.lock != HeldBy(q) && q != pid
    ensures Exec(pid, pc, s, ch).s.lock != HeldBy(q) && Exec(pid, pc, s, ch).s.owner == s.owner
  {
  }

  lemma OtherStays(pid: nat, pc: Pc, s: State, ch: Choice, q: nat, qc: Pc)
    requires HoldsLock(pc) <==> s.lock == HeldBy(pid)
    requires PcOk(q, qc, s) && pid != q && MayStep(pc, s, ch)
    ensures PcOk(q, qc, Exec(pid, pc, s, ch).s)
  {
    if HoldsLock(qc) {
      LockExcludes(pid, pc, s, ch, q);
    } else {
      LockMoves(pid, pc, s, ch, q);
      if qc.Mounting? {
        ExecGrows(pid, pc, s, ch);
        StaysWaiting(qc, s, Exec(pid, pc, s, ch).s);
      }
    }
  }

  lemma LookKeeps(pid: nat, pc: Pc, s: State, ch: Choice)
    requires StateOk(s) && PcOk(pid, pc, s) && MayStep(pc, s, ch)
    requires pc.Mounting? && (pc.at.MLock? || pc.at.MLook?)
    ensures var step := Exec(pid, pc, s, ch); StateOk(step.s) && PcOk(pid, step.pc, step.s)
  {
    assert Exec(pid, pc, s, ch).s.m == s.m;
  }

  lemma RecheckKeeps(pid: nat, pc: Pc, s: State, ch: Choice)
    requires StateOk(s) && PcOk(pid, pc, s) && MayStep(pc, s, ch)
    requires pc.Mounting? && (pc.at.MRelock? || pc.at.MRecheck?)
    ensures var step := Exec(pid, pc, s, ch); StateOk(step.s) && PcOk(pid, step.pc, step.s)
  {
    assert Exec(pid, pc, s, ch).s.m == s.m;
  }

  lemma WaitKeeps(pid: nat, pc: Pc, s: State, ch: Choice)
    requires StateOk(s) && PcOk(pid, pc, s) && MayStep(pc, s, ch)
    requires pc.Mounting? && (pc.at.MUnlock? || pc.at.MArrive? || pc.at.MAwait? || pc.at.MRelease?)
    ensures var step := Exec(pid, pc, s, ch); StateOk(step.s) && PcOk(pid, step.pc, step.s)
  {
    assert Exec(pid, pc, s, ch).s.m == s.m;
  }

  lemma ProbeStepKeeps(pid: nat, pc: Pc, s: State, ch: Choice)
    requires StateOk(s) && PcOk(pid, pc, s) && pc.Mounting? && pc.at.MProbe?
    ensures var step := Exec(pid, pc, s, ch); StateOk(step.s) && PcOk(pid, step.pc, step.s)
  {
    ProbeKeeps(s.m, s.owner, pc.call.key, s.clock, {});
  }

  lemma TearKeeps(pid: nat, pc: Pc, s: State, ch: Choice)
    requires StateOk(s) && PcOk(pid, pc, s) && pc.Mounting? && pc.at.MTear?
    ensures var step := Exec(pid, pc, s, ch); StateOk(step.s) && PcOk(pid, step.pc, step.s)
  {
    UnmountKeeps(s.m, s.owner, pc.call.key, ch.unmounting, false, true);
    assert s.m.gens[pc.at.g].path in ActivePaths(s.m);
  }

  /** A target owned by a key without an entry is not mounted. */
  lemma OwnedIdle(m: Mounts, owner: map<Path, Key>, p: Path)
    requires TableOk(m, owner) && p in owner && owner[p] !in m.active
    ensures p !in ActivePaths(m)
  {
  }

  lemma GuardStepKeeps(pid: nat, pc: Pc, s: State, ch: Choice)
    requires StateOk(s) && PcOk(pid, pc, s) && pc.Mounting? && (pc.at.MGuard? || pc.at.MReguard?)
    ensures var step := Exec(pid, pc, s, ch); StateOk(step.s) && PcOk(pid, step.pc, step.s)
  {
    OwnedIdle(s.m, s.owner, pc.call.path);
    GuardKeeps(s.m, s.owner, pc.call.path, ch.chmod, OpenBy(pc));
  }

  lemma PrepareKeeps(pid: nat, pc: Pc, s: State, ch: Choice)
    requires StateOk(s) && PcOk(pid, pc, s) && pc.Mounting? && (pc.at.MContents? || pc.at.MKnownHosts?)
    ensures var step := Exec(pid, pc, s, ch); StateOk(step.s) && PcOk(pid, step.pc, step.s)
  {
    assert Exec(pid, pc, s, ch).s == s;
  }

  lemma AttachKeeps(pid: nat, pc: Pc, s: State, ch: Choice)
    requires StateOk(s) && PcOk(pid, pc, s) && pc.Mounting? && (pc.at.MStart? || pc.at.MPoll?)
    ensures var step := Exec(pid, pc, s, ch); StateOk(step.s) && PcOk(pid, step.pc, step.s)
  {
    assert Exec(pid, pc, s, ch).s == s;
  }

  lemma MountableStepKeeps(pid: nat, pc: Pc, s: State, ch: Choice)
    requires StateOk(s) && PcOk(pid, pc, s) && pc.Mounting? && pc.at.MMountable?
    ensures var step := Exec(pid, pc, s, ch); StateOk(step.s) && PcOk(pid, step.pc, step.s)
  {
    MountableKeeps(s.m, s.owner, pc.call.path);
  }

  lemma InstallStepKeeps(pid: nat, pc: Pc, s: State, ch: Choice)
    requires StateOk(s) && PcOk(pid, pc, s) && pc.Mounting? && pc.at.MInstall?
    ensures var step := Exec(pid, pc, s, ch); StateOk(step.s) && PcOk(pid, step.pc, step.s)
  {
    InstallKeeps(s.m, s.owner, Gen(pc.call.key, pc.call.path, pc.call.ep));
  }

  lemma UnmountStepKeeps(pid: nat, pc: Pc, s: State, ch: Choice)
    requires StateOk(s) && PcOk(pid, pc, s) && MayStep(pc, s, ch) && pc.Unmounting?
    ensures var step := Exec(pid, pc, s, ch); StateOk(step.s) && PcOk(pid, step.pc, step.s)
  {
    if pc.u.UOne? && pc.todo != [] {
      UnmountKeeps(s.m, s.owner, pc.todo[0], ch.unmounting, pc.reguard, ch.chmod);
    }
  }

  lemma ExecKeeps(pid: nat, pc: Pc, s: State, ch: Choice)
    requires StateOk(s) && PcOk(pid, pc, s) && MayStep(pc, s, ch)
    ensures var step := Exec(pid, pc, s, ch); StateOk(step.s) && PcOk(pid, step.pc, step.s)
  {
    if pc.Unmounting? {
      UnmountStepKeeps(pid, pc, s, ch);
    } else if pc.Mounting? {
      match pc.at
      case MProbe(_) => ProbeStepKeeps(pid, pc, s, ch);
      case MTear(_, _) => TearKeeps(pid, pc, s, ch);
      case MGuard => GuardStepKeeps(pid, pc, s, ch);
      case MReguard => GuardStepKeeps(pid, pc, s, ch);
      case MContents => PrepareKeeps(pid, pc, s, ch);
      case MKnownHosts => PrepareKeeps(pid, pc, s, ch);
      case MStart => AttachKeeps(pid, pc, s, ch);
      case MPoll => AttachKeeps(pid, pc, s, ch);
      case MMountable => MountableStepKeeps(pid, pc, s, ch);
      case MInstall => InstallStepKeeps(pid, pc, s, ch);
      case MUnlock(_, _) => WaitKeeps(pid, pc, s, ch);
      case MArrive(_, _) => WaitKeeps(pid, pc, s, ch);
      case MAwait(_, _) => WaitKeeps(pid, pc, s, ch);
      case MRelease => WaitKeeps(pid, pc, s, ch);
      case MRelock(_, _, _) => RecheckKeeps(pid, pc, s, ch);
      case MRecheck(_, _, _) => RecheckKeeps(pid, pc, s, ch);
      case _ => LookKeeps(pid, pc, s, ch);
    }
  }

  ghost predicate Inv(y: Sys) {
    && StateOk(y.s)
    && (forall q | q in y.procs :: PcOk(q, y.procs[q], y.s))
    && (y.s.lock.HeldBy? ==> y.s.lock.pid in y.procs)
  }

  lemma RunStepKeeps(y: Sys, pid: nat, ch: Choice)
    requires Inv(y) && Enabled(y, Run(pid, ch))
    ensures Inv(Apply(y, Run(pid, ch)))
  {
    var y' := Apply(y, Run(pid, ch));
    ExecKeeps(pid, y.procs[pid], y.s, ch);
    forall q | q in y'.procs ensures PcOk(q, y'.procs[q], y'.s) {
      if q != pid { OtherStays(pid, y.procs[pid], y.s, ch, q, y.procs[q]); }
    }
  }

  lemma OutsideKeeps(y: Sys, m': Mounts, clock: int)
    requires Inv(y) && ProbesOnly(y.s.m, m') && TableOk(m', y.s.owner)
    requires y.s.clock <= clock && |m'.probes| == |y.s.m.probes|
    ensures Inv(y.(s := y.s.(m := m', clock := clock)))
  {
    var s' := y.s.(m := m', clock := clock);
    forall q | q in y.procs ensures PcOk(q, y.procs[q], s') {
      if HoldsLock(y.procs[q]) {
        ModesStay(y.s.m, m', OpenBy(y.procs[q]));
        if y.procs[q].Mounting? { StaysHolding(y.procs[q], y.s, s'); }
      } else if y.procs[q].Mounting? {
        StaysWaiting(y.procs[q], y.s, s');
      }
    }
    if y.s.lock == Free { ModesStay(y.s.m, m', {}); }
  }

  lemma StepKeepsInv(y: Sys, a: Action)
    requires Inv(y) && Enabled(y, a)
    ensures Inv(Apply(y, a))
  {
    match a
    case Run(pid, ch) => RunStepKeeps(y, pid, ch);
    case Answer(p, c) =>
      AnswerKeepsTable(y.s.m, y.s.owner, p, c);
      OutsideKeeps(y, AnsweredProbe(y.s.m, p, c), y.s.clock);
    case Retire(p) =>
      RetireKeepsTable(y.s.m, y.s.owner, p);
      OutsideKeeps(y, RetiredProbe(y.s.m, p), y.s.clock);
    case Tick(to) => OutsideKeeps(y, y.s.m, to);
    case Spawn(pid, pc) =>
  }

  lemma {:induction false} RunsKeepInv(ys: seq<Sys>, acts: seq<Action>, i: nat)
    requires IsRun(ys, acts) && i < |ys|
    ensures Inv(ys[i])
  {
    if i > 0 {
      RunsKeepInv(ys, acts, i - 1);
      assert Next(ys[i - 1], acts[i - 1], ys[i]);
      StepKeepsInv(ys[i - 1], acts[i - 1]);
    }
  }

  // ---------------------------------------------------------------- teardown

  /**
   Whatever happened while the lock was released for a probe, a Mount call tears down an
   entry only if its endpoint differs from the requested one, or a probe of that very
   generation came back with no mount there, a dead transport or a missing path.
   */
  lemma TeardownNeedsEvidence(ys: seq<Sys>, acts: seq<Action>, i: nat, k: Key)
    requires IsRun(ys, acts) && i < |acts| && acts[i].Run? && acts[i].pid in ys[i].procs
    requires ys[i].procs[acts[i].pid].Mounting?
    requires k in ys[i].s.m.active && k !in ys[i + 1].s.m.active
    ensures var m := ys[i].s.m;
            var call := ys[i].procs[acts[i].pid].call;
            && k == call.key && Removes(acts[i].ch.unmounting) && m.active[k] < |m.gens|
            && (m.gens[m.active[k]].ep != call.ep
                || exists p :: 0 <= p < |m.probes| && m.probes[p].gen == m.active[k]
                               && m.probes[p].answer in {Some(IsNotMount), Some(NotConnected), Some(Missing)})
  {
    RunsKeepInv(ys, acts, i);
    assert Next(ys[i], acts[i], ys[i + 1]);
    var pc := ys[i].procs[acts[i].pid];
    assert PcOk(acts[i].pid, pc, ys[i].s);
    MountRemovesOne(acts[i].pid, pc, ys[i].s, acts[i].ch, k);
  }

  lemma MountRemovesOne(pid: nat, pc: Pc, s: State, ch: Choice, k: Key)
    requires pc.Mounting? && k in s.m.active && k !in Exec(pid, pc, s, ch).s.m.active
    ensures pc.at.MTear? && k == pc.call.key && Removes(ch.unmounting)
  {
  }

  /** The step runs the unmount command for this key. */
  predicate Unmounts(pc: Pc, k: Key) {
    || (pc.Mounting? && pc.at.MTear? && pc.call.key == k)
    || (pc.Unmounting? && pc.u.UOne? && pc.todo != [] && pc.todo[0] == k)
  }

  /**
   Whoever removes it, an entry leaves at a step if and only if that step runs the unmount
   command for it and the command succeeds, or fails and the re-check answers anything but
   a mount. A re-check that times out removes nothing, and no entry is ever overwritten.
   */
  lemma EntriesLeaveExactlyWhen(ys: seq<Sys>, acts: seq<Action>, i: nat, k: Key)
    requires IsRun(ys, acts) && i < |acts| && k in ys[i].s.m.active
    ensures k !in ys[i + 1].s.m.active <==>
              && acts[i].Run? && acts[i].pid in ys[i].procs && Unmounts(ys[i].procs[acts[i].pid], k)
              && var u := acts[i].ch.unmounting; u.ok || (u.recheck.Answered? && u.recheck.check != IsMount)
    ensures acts[i].Run? && acts[i].ch.unmounting == Command(false, TimedOut) ==> k in ys[i + 1].s.m.active
    ensures k in ys[i + 1].s.m.active ==> ys[i + 1].s.m.active[k] == ys[i].s.m.active[k]
  {
    RunsKeepInv(ys, acts, i);
    assert Next(ys[i], acts[i], ys[i + 1]);
    if acts[i].Run? {
      assert PcOk(acts[i].pid, ys[i].procs[acts[i].pid], ys[i].s);
      StepKeepsEntry(acts[i].pid, ys[i].procs[acts[i].pid], ys[i].s, acts[i].ch, k);
    }
  }

  lemma StepKeepsEntry(pid: nat, pc: Pc, s: State, ch: Choice, k: Key)
    requires k in s.m.active && s.m.active[k] < |s.m.gens| && (pc.Mounting? && pc.at.MInstall? ==> pc.call.key != k)
    ensures var m' := Exec(pid, pc, s, ch).s.m;
            && (k !in m'.active <==> Unmounts(pc, k) && Removes(ch.unmounting))
            && (k in m'.active ==> m'.active[k] == s.m.active[k])
  {
  }

  /**
   So an entry can leave although nothing shows that its mount is gone. That happens
   exactly when the command fails and the re-check meets an error which, as the answer of
   a liveness probe, would count as unknown and tear nothing down.
   */
  lemma LeavesWithoutEvidenceExactlyWhen(ys: seq<Sys>, acts: seq<Action>, i: nat, k: Key)
    requires IsRun(ys, acts) && i < |acts| && k in ys[i].s.m.active && acts[i].Run?
    ensures k !in ys[i + 1].s.m.active && !Evidenced(acts[i].ch.unmounting) <==>
              && acts[i].pid in ys[i].procs && Unmounts(ys[i].procs[acts[i].pid], k)
              && var u := acts[i].ch.unmounting;
                 !u.ok && u.recheck.Answered? && Classify(u.recheck.check) == Unknown
  {
    EntriesLeaveExactlyWhen(ys, acts, i, k);
  }

  /** A Mount call that is done mounts nothing any more. */
  predicate IsOver(pc: Pc) {
    pc.Returned? || (pc.Mounting? && pc.at.MRelease?)
  }

  lemma {:induction false} OverStaysOver(ys: seq<Sys>, acts: seq<Action>, i: nat, j: nat, pid: nat)
    requires IsRun(ys, acts) && i <= j < |ys| && pid in ys[i].procs && IsOver(ys[i].procs[pid])
    ensures pid in ys[j].procs && IsOver(ys[j].procs[pid])
  {
    if i < j {
      OverStaysOver(ys, acts, i, j - 1, pid);
      assert Next(ys[j - 1], acts[j - 1], ys[j]);
    }
  }

  /**
   A Mount call whose entry was replaced or removed while it waited, or whose probe said
   healthy or unknown, neither tears down nor mounts anything from then on: no later step
   of that call changes the table at all.
   */
  lemma NeverFightsOrResurrects(ys: seq<Sys>, acts: seq<Action>, i: nat, j: nat, pid: nat, ch: Choice)
    requires IsRun(ys, acts) && i < j < |ys| && acts[i] == Run(pid, ch) && pid in ys[i].procs
    requires ys[i].procs[pid].Mounting? && ys[i].procs[pid].at.MRecheck?
    requires var at, k := ys[i].procs[pid].at, ys[i].procs[pid].call.key;
             at.h != Dead || k !in ys[i].s.m.active || ys[i].s.m.active[k] != at.g
    ensures pid in ys[j].procs && IsOver(ys[j].procs[pid])
    ensures forall n | i <= n < |acts| && acts[n].Run? && acts[n].pid == pid :: ys[n + 1].s.m == ys[n].s.m
  {
    assert Next(ys[i], acts[i], ys[i + 1]);
    OverStaysOver(ys, acts, i + 1, j, pid);
    forall n | i < n < |acts| && acts[n].Run? && acts[n].pid == pid ensures ys[n + 1].s.m == ys[n].s.m {
      OverStaysOver(ys, acts, i + 1, n, pid);
      assert Next(ys[n], acts[n], ys[n + 1]);
    }
  }

  /** A new generation is only ever installed where there is no entry, on a target nobody else has mounted. */
  lemma InstallsOnlyWhereFree(ys: seq<Sys>, acts: seq<Action>, i: nat, k: Key)
    requires IsRun(ys, acts) && i < |acts| && k !in ys[i].s.m.active && k in ys[i + 1].s.m.active
    ensures acts[i].Run? && acts[i].pid in ys[i].procs
    ensures var pc := ys[i].procs[acts[i].pid];
            pc.Mounting? && pc.at.MInstall? && pc.call.key == k && pc.call.path !in ActivePaths(ys[i].s.m)
  {
    RunsKeepInv(ys, acts, i);
    assert Next(ys[i], acts[i], ys[i + 1]);
    if acts[i].Run? {
      assert PcOk(acts[i].pid, ys[i].procs[acts[i].pid], ys[i].s);
      StepAddsEntry(acts[i].pid, ys[i].procs[acts[i].pid], ys[i].s, acts[i].ch, k);
    }
  }

  lemma StepAddsEntry(pid: nat, pc: Pc, s: State, ch: Choice, k: Key)
    requires k !in s.m.active && k in Exec(pid, pc, s, ch).s.m.active
    ensures pc.Mounting? && pc.at.MInstall? && pc.call.key == k
  {
  }

  // ------------------------------------------------------------------ probes

  /** At most one goroutine is ever blocked in a stat for one generation, however many callers arrive. */
  lemma OneProbePerGeneration(ys: seq<Sys>, acts: seq<Action>, i: nat, p: nat, q: nat)
    requires IsRun(ys, acts) && i < |ys| && p < |ys[i].s.m.probes| && q < |ys[i].s.m.probes|
    requires ys[i].s.m.probes[p].flight == Stat && ys[i].s.m.probes[q].flight == Stat
    requires ys[i].s.m.probes[p].gen == ys[i].s.m.probes[q].gen
    ensures p == q
  {
    RunsKeepInv(ys, acts, i);
    assert SingleFlight(ys[i].s.m);
  }

  lemma {:induction false} RunsGrow(ys: seq<Sys>, acts: seq<Action>, i: nat, j: nat)
    requires IsRun(ys, acts) && i <= j < |ys|
    ensures Grows(ys[i].s.m, ys[j].s.m) && ys[i].s.clock <= ys[j].s.clock
  {
    if i < j {
      RunsGrow(ys, acts, i, j - 1);
      StepGrows(ys, acts, j - 1);
    }
  }

  lemma StepGrows(ys: seq<Sys>, acts: seq<Action>, k: nat)
    requires IsRun(ys, acts) && k < |acts|
    ensures Grows(ys[k].s.m, ys[k + 1].s.m) && ys[k].s.clock <= ys[k + 1].s.clock
  {
    assert Next(ys[k], acts[k], ys[k + 1]);
    if acts[k].Run? {
      ExecGrows(acts[k].pid, ys[k].procs[acts[k].pid], ys[k].s, acts[k].ch);
      assert Exec(acts[k].pid, ys[k].procs[acts[k].pid], ys[k].s, acts[k].ch).s.clock == ys[k].s.clock;
    }
  }

  /** Every caller that reads a result of one probe, at any time, reads the same one. */
  lemma JoinersAgree(ys: seq<Sys>, acts: seq<Action>, i: nat, j: nat, a: nat, b: nat)
    requires IsRun(ys, acts) && i <= j < |ys| && a in ys[i].procs && b in ys[j].procs
    requires ys[i].procs[a].Mounting? && ys[i].procs[a].at.MRecheck? && ys[i].procs[a].at.h != Unknown
    requires ys[j].procs[b].Mounting? && ys[j].procs[b].at.MRecheck? && ys[j].procs[b].at.h != Unknown
    requires ys[i].procs[a].at.p == ys[j].procs[b].at.p
    ensures ys[i].procs[a].at.h == ys[j].procs[b].at.h && ys[i].procs[a].at.g == ys[j].procs[b].at.g
  {
    RunsKeepInv(ys, acts, i);
    RunsKeepInv(ys, acts, j);
    assert PcOk(a, ys[i].procs[a], ys[i].s) && PcOk(b, ys[j].procs[b], ys[j].s);
    RunsGrow(ys, acts, i, j);
  }

  ghost predicate AllInTime(y: Sys) {
    forall q | q in y.procs :: InTime(y.procs[q], y.s.m, y.s.clock)
  }

  lemma StepInTime(y: Sys, a: Action)
    requires Inv(y) && AllInTime(y) && Enabled(y, a)
    ensures AllInTime(Apply(y, a))
  {
    var y' := Apply(y, a);
    if a.Run? {
      ExecGrows(a.pid, y.procs[a.pid], y.s, a.ch);
      ExecInTime(a.pid, y.procs[a.pid], y.s, a.ch);
    }
    forall q | q in y'.procs ensures InTime(y'.procs[q], y'.s.m, y'.s.clock) {
      assert q in y.procs ==> InTime(y.procs[q], y.s.m, y.s.clock);
    }
  }

  /** Only a caller that arrives before the deadline begins to wait. */
  lemma ExecInTime(pid: nat, pc: Pc, s: State, ch: Choice)
    requires InTime(pc, s.m, s.clock)
    ensures var step := Exec(pid, pc, s, ch); InTime(step.pc, step.s.m, step.s.clock) && step.s.clock == s.clock
  {
  }

  lemma {:induction false} RunsInTime(ys: seq<Sys>, acts: seq<Action>, i: nat)
    requires IsRun(ys, acts) && i < |ys|
    ensures AllInTime(ys[i])
  {
    if i > 0 {
      RunsInTime(ys, acts, i - 1);
      RunsKeepInv(ys, acts, i - 1);
      assert Next(ys[i - 1], acts[i - 1], ys[i]);
      StepInTime(ys[i - 1], acts[i - 1]);
    }
  }

  /**
   No caller waits past the entry's shared deadline, which is fixed when its probe begins:
   whenever a caller waits it is not later than that; at the deadline it can go on,
   whatever the lock, the other callers and the probe do.
   */
  lemma WaitsAreBounded(ys: seq<Sys>, acts: seq<Action>, i: nat, j: nat, pid: nat, ch: Choice)
    requires IsRun(ys, acts) && i <= j < |ys| && pid in ys[j].procs
    requires ys[j].procs[pid].Mounting? && ys[j].procs[pid].at.MAwait? && ys[j].procs[pid].at.p < |ys[i].s.m.probes|
    ensures var deadline := ys[i].s.m.probes[ys[j].procs[pid].at.p].deadline;
            && deadline <= ys[i].s.clock + PROBE_TIMEOUT
            && ys[j].s.clock <= deadline
            && (ys[j].s.clock == deadline ==>
                  && Enabled(ys[j], Run(pid, ch.(wake := ByDeadline)))
                  && Apply(ys[j], Run(pid, ch.(wake := ByDeadline))).procs[pid].at.MRelock?)
  {
    RunsKeepInv(ys, acts, i);
    RunsInTime(ys, acts, j);
    RunsGrow(ys, acts, i, j);
    assert InTime(ys[j].procs[pid], ys[j].s.m, ys[j].s.clock);
  }

  /** A caller that joins at or past the deadline does not wait at all. */
  lemma LateJoinersDoNotWait(ys: seq<Sys>, acts: seq<Action>, i: nat, pid: nat, ch: Choice)
    requires IsRun(ys, acts) && i < |acts| && acts[i] == Run(pid, ch) && pid in ys[i].procs
    requires ys[i].procs[pid].Mounting? && ys[i].procs[pid].at.MArrive?
    ensures var p := ys[i].procs[pid].at.p;
            && p < |ys[i].s.m.probes| && pid in ys[i + 1].procs && ys[i + 1].procs[pid].Mounting?
            && (ys[i + 1].procs[pid].at.MAwait? <==> ys[i].s.clock < ys[i].s.m.probes[p].deadline)
            && (!ys[i + 1].procs[pid].at.MAwait? ==> ys[i + 1].procs[pid].at.MRelock?)
  {
    RunsKeepInv(ys, acts, i);
    assert Next(ys[i], acts[i], ys[i + 1]);
    assert PcOk(pid, ys[i].procs[pid], ys[i].s);
  }

  // ----------------------------------------------------------- target modes

  /**
   While the lock is free, the targets writable by the owner are exactly those mounted now
   and the stray ones; and without failed chmods, without UnmountAllForce and without a
   re-mount onto another target, none is stray.
   */
  lemma NoTargetLeftWritable(ys: seq<Sys>, acts: seq<Action>, i: nat)
    requires IsRun(ys, acts) && i < |ys| && ys[i].s.lock == Free
    ensures ys[i].s.m.mountable == ActivePaths(ys[i].s.m) + ys[i].s.m.stray
    ensures ActivePaths(ys[i].s.m) !! ys[i].s.m.stray
    ensures !ys[i].s.badChmod && !ys[i].s.unguarded ==> ys[i].s.m.stray <= ys[i].s.moved
  {
    RunsKeepInv(ys, acts, i);
  }

  /**
   A Mount call that tore an entry down leaves the old target writable and unmounted if
   and only if it was asked to mount on a different target than the entry it replaced.
   */
  lemma RemountLeavesOldTargetIffMoved(ys: seq<Sys>, acts: seq<Action>, i: nat, pid: nat)
    requires IsRun(ys, acts) && i < |ys| && pid in ys[i].procs && !ys[i].s.badChmod
    requires ys[i].procs[pid].Mounting? && ys[i].procs[pid].at.MRelease? && ys[i].procs[pid].from.Replacing?
    ensures var pc, m := ys[i].procs[pid], ys[i].s.m;
            pc.from.gen < |m.gens| &&
            var before := m.gens[pc.from.gen].path;
            before in m.mountable && before !in ActivePaths(m) <==> before != pc.call.path
  {
    RunsKeepInv(ys, acts, i);
    assert PcOk(pid, ys[i].procs[pid], ys[i].s);
  }

  // A concrete run in which a re-mount leaves its old target writable.

  lemma Extend(ys: seq<Sys>, acts: seq<Action>, a: Action) returns (ys': seq<Sys>, acts': seq<Action>)
    requires IsRun(ys, acts) && Enabled(ys[|acts|], a)
    ensures IsRun(ys', acts') && ys' == ys + [Apply(ys[|acts|], a)] && acts' == acts + [a]
  {
    ys', acts' := ys + [Apply(ys[|acts|], a)], acts + [a];
    forall i | 0 <= i < |acts'| ensures Next(ys'[i], acts'[i], ys'[i + 1]) {
      assert i < |acts| ==> Next(ys[i], acts[i], ys[i + 1]);
    }
  }

  const SHARE: Key := Key("peer", "docs")
  const OLD: Path := Path("/mnt/old")
  const NEW: Path := Path("/mnt/new")
  const SUCCESS: Unmounting := Command(true, TimedOut)
  const FINE: Choice := Choice(false, true, SUCCESS, ByCaller, Appeared, [])

  /** One step of call `pid` with nothing failing, from `y` to the given counter and state. */
  lemma Walk(ys: seq<Sys>, acts: seq<Action>, pid: nat, pc: Pc, s: State)
    returns (ys': seq<Sys>, acts': seq<Action>)
    requires IsRun(ys, acts) && pid in ys[|acts|].procs
    requires MayStep(ys[|acts|].procs[pid], ys[|acts|].s, FINE)
    requires Exec(pid, ys[|acts|].procs[pid], ys[|acts|].s, FINE) == Step(pc, s)
    ensures IsRun(ys', acts') && |acts'| >= |acts| && ys'[|acts'|] == Sys(s, ys[|acts|].procs[pid := pc])
  {
    ys', acts' := Extend(ys, acts, Run(pid, FINE));
  }

  /** An undisturbed Mount, from its guard until the target is open. */
  lemma Prepare(ys: seq<Sys>, acts: seq<Action>, pid: nat, call: Call, from: From)
    returns (ys': seq<Sys>, acts': seq<Action>)
    requires IsRun(ys, acts) && pid in ys[|acts|].procs && ys[|acts|].procs[pid] == Mounting(call, from, MGuard)
    requires !ys[|acts|].s.badChmod
    ensures IsRun(ys', acts')
    ensures var s := ys[|acts|].s;
            ys'[|acts'|] == Sys(s.(m := MadeMountable(Guarded(s.m, call.path, true), call.path)),
                                ys[|acts|].procs[pid := Mounting(call, from, MStart)])
  {
    var s := ys[|acts|].s;
    var s1 := s.(m := Guarded(s.m, call.path, true));
    var s2 := s1.(m := MadeMountable(s1.m, call.path));
    ys', acts' := Walk(ys, acts, pid, Mounting(call, from, MContents), s1);
    ys', acts' := Walk(ys', acts', pid, Mounting(call, from, MKnownHosts), s1);
    ys', acts' := Walk(ys', acts', pid, Mounting(call, from, MMountable), s1);
    ys', acts' := Walk(ys', acts', pid, Mounting(call, from, MStart), s2);
    assert ys'[|acts'|].procs == ys[|acts|].procs[pid := Mounting(call, from, MStart)];
  }

  /** An undisturbed Mount, from the start of its command to its return. */
  lemma Finish(ys: seq<Sys>, acts: seq<Action>, pid: nat, call: Call, from: From)
    returns (ys': seq<Sys>, acts': seq<Action>)
    requires IsRun(ys, acts) && pid in ys[|acts|].procs && ys[|acts|].procs[pid] == Mounting(call, from, MInstall)
    ensures IsRun(ys', acts')
    ensures var s := ys[|acts|].s;
            ys'[|acts'|] == Sys(s.(m := Installed(s.m, Gen(call.key, call.path, call.ep)), lock := Free),
                                ys[|acts|].procs[pid := Returned])
  {
    var s := ys[|acts|].s;
    var s1 := s.(m := Installed(s.m, Gen(call.key, call.path, call.ep)));
    ys', acts' := Walk(ys, acts, pid, Mounting(call, from, MRelease), s1);
    ys', acts' := Walk(ys', acts', pid, Returned, s1.(lock := Free));
    assert ys'[|acts'|].procs == ys[|acts|].procs[pid := Returned];
  }

  lemma Attach(ys: seq<Sys>, acts: seq<Action>, pid: nat, call: Call, from: From)
    returns (ys': seq<Sys>, acts': seq<Action>)
    requires IsRun(ys, acts) && pid in ys[|acts|].procs && ys[|acts|].procs[pid] == Mounting(call, from, MStart)
    ensures IsRun(ys', acts')
    ensures var s := ys[|acts|].s;
            ys'[|acts'|] == Sys(s.(m := Installed(s.m, Gen(call.key, call.path, call.ep)), lock := Free),
                                ys[|acts|].procs[pid := Returned])
  {
    var s := ys[|acts|].s;
    ys', acts' := Walk(ys, acts, pid, Mounting(call, from, MPoll), s);
    ys', acts' := Walk(ys', acts', pid, Mounting(call, from, MInstall), s);
    ys', acts' := Finish(ys', acts', pid, call, from);
    assert ys'[|acts'|].procs == ys[|acts|].procs[pid := Returned];
  }

  const OWNERS: map<Path, Key> := map[OLD := SHARE, NEW := SHARE]
  const FIRST: Call := Call(SHARE, OLD, Endpoint("10.0.0.1", 22))
  const SECOND: Call := Call(SHARE, NEW, Endpoint("10.0.0.2", 22))

  /** A first Mount of the share, undisturbed. */
  lemma MountedOnce() returns (ys: seq<Sys>, acts: seq<Action>)
    ensures IsRun(ys, acts) && ys[|acts|].procs == map[0 := Returned]
    ensures ys[|acts|].s == State(Mounts(map[SHARE := 0], [Gen(SHARE, OLD, FIRST.ep)], {OLD}, {}, map[], []),
                                  OWNERS, Free, 0, false, false, {})
  {
    ys, acts := [Sys(State(EMPTY, OWNERS, Free, 0, false, false, {}), map[])], [];
    ys, acts := Extend(ys, acts, Spawn(0, Mounting(FIRST, Unlooked, MLock)));
    var s := State(EMPTY, OWNERS, HeldBy(0), 0, false, false, {});
    ys, acts := Walk(ys, acts, 0, Mounting(FIRST, Unlooked, MLook), s);
    ys, acts := Walk(ys, acts, 0, Mounting(FIRST, Fresh, MGuard), s);
    ys, acts := Prepare(ys, acts, 0, FIRST, Fresh);
    ys, acts := Attach(ys, acts, 0, FIRST, Fresh);
  }

  /**
   The peer roams and the configuration now names another target: after the second Mount
   the first target is unmounted, not guarded, and the lock is free.
   */
  lemma MovedRemountLeavesTargetWritable() returns (ys: seq<Sys>, acts: seq<Action>)
    ensures IsRun(ys, acts) && ys[|acts|].s.lock == Free && !ys[|acts|].s.badChmod && !ys[|acts|].s.unguarded
    ensures OLD in ys[|acts|].s.m.mountable && OLD !in ActivePaths(ys[|acts|].s.m)
  {
    ys, acts := MountedOnce();
    var s := ys[|acts|].s.(lock := HeldBy(1));
    ys, acts := Extend(ys, acts, Spawn(1, Mounting(SECOND, Unlooked, MLock)));
    ys, acts := Walk(ys, acts, 1, Mounting(SECOND, Unlooked, MLook), s);
    ys, acts := Walk(ys, acts, 1, Mounting(SECOND, Unlooked, MTear(0, Roamed)), s);
    var torn := UnmountedKey(s.m, SHARE, SUCCESS, false, true);
    ys, acts := Walk(ys, acts, 1, Mounting(SECOND, Replacing(0), MGuard), s.(m := torn, moved := {OLD}));
    ys, acts := Prepare(ys, acts, 1, SECOND, Replacing(0));
    ys, acts := Attach(ys, acts, 1, SECOND, Replacing(0));
    assert OLD != NEW && torn.mountable == {OLD};
  }

  /**
   The unmount command fails and the re-check is interrupted: the entry is dropped, though
   the same answer to a probe would have left it alone.
   */
  lemma EntryLostWithoutEvidence() returns (ys: seq<Sys>, acts: seq<Action>)
    ensures IsRun(ys, acts) && |acts| > 0 && acts[|acts| - 1].Run?
    ensures acts[|acts| - 1].ch.unmounting == Command(false, Answered(OtherError)) && Classify(OtherError) == Unknown
    ensures SHARE in ys[|acts| - 1].s.m.active && SHARE !in ys[|acts|].s.m.active
  {
    ys, acts := MountedOnce();
    var s := ys[|acts|].s.(lock := HeldBy(1));
    ys, acts := Extend(ys, acts, Spawn(1, Unmounting([SHARE], true, ULock)));
    ys, acts := Walk(ys, acts, 1, Unmounting([SHARE], true, UOne), s);
    ys, acts := Extend(ys, acts, Run(1, FINE.(unmounting := Command(false, Answered(OtherError)))));
  }
}
