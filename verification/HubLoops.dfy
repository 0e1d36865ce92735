/**
 The hub's loops followed to their end in every run: the monitor's sweep, the prune, Stop
 and the Subscribe stream. Then that no run can get stuck while a process still has
 something to do.
 */
module HubLoops {
  import opened DeviceTable
  import opened Subscribers
  import opened HubMachine
  import opened HubInvariant
  import opened HubSteps
  import opened HubTheorems
  import opened HubEffects
  import opened HubStories
  import opened HubDepartures

  // ---- A monitor sweep ----

  /** At step `k` the device is next on the sweep's list. */
  ghost predicate HasNextAt(hs: seq<Hub>, acts: seq<Action>, k: nat, pid: nat, d: Device)
    requires |hs| == |acts| + 1
  {
    && StepBy(acts, k, pid) && pid in hs[k].procs && hs[k].procs[pid].Sweep?
    && var at := hs[k].procs[pid].mn; at.MnEach? && at.todo != [] && at.todo[0] == d
  }

  /** Step `k` leaves the device alone: its statement fails, or finds the row not online or heard of since. */
  ghost predicate SparesAt(hs: seq<Hub>, acts: seq<Action>, k: nat, pid: nat, d: Device, threshold: int)
    requires |hs| == |acts| + 1
  {
    && HasNextAt(hs, acts, k, pid, d)
    && (|| acts[k].ch.fail || d !in hs[k].sh.table || hs[k].sh.table[d].status != Online
        || hs[k].sh.table[d].beat >= threshold)
  }

  ghost predicate DemotesAt(hs: seq<Hub>, acts: seq<Action>, k: nat, pid: nat, d: Device, threshold: int)
    requires |hs| == |acts| + 1
  {
    && StepBy(acts, k, pid) && IsOnline(hs[k].sh.table, d) && hs[k].sh.table[d].beat < threshold
    && d in hs[k + 1].sh.table && hs[k + 1].sh.table[d].status == Offline
  }

  /** The step has judged the device; one it demoted is about to be announced. */
  ghost predicate JudgesAt(hs: seq<Hub>, acts: seq<Action>, k: nat, pid: nat, d: Device, threshold: int)
    requires |hs| == |acts| + 1
  {
    || SparesAt(hs, acts, k, pid, d, threshold)
    || (&& DemotesAt(hs, acts, k, pid, d, threshold)
        && pid in hs[k + 1].procs && hs[k + 1].procs[pid].Want?
        && hs[k + 1].procs[pid].e == DeviceOffline(d, ByMonitor))
  }

  /** A loop over listed devices, at its head or in the broadcast of one of them. */
  function Loop(pc: Pc): Pc {
    match pc
    case Want(_, _, next) => next
    case Sending(_, _, next) => next
    case Release(next) => if next.Want? then next.next else pc
    case _ => pc
  }

  predicate StillToJudge(pc: Pc, d: Device, threshold: int) {
    && Loop(pc).Sweep? && Loop(pc).begun - Loop(pc).timeout == threshold
    && Loop(pc).mn.MnEach? && d in Loop(pc).mn.todo
  }

  ghost predicate SweepSoFar(hs: seq<Hub>, acts: seq<Action>, l: nat, j: nat, pid: nat, d: Device, threshold: int)
    requires |hs| == |acts| + 1 && j < |hs|
  {
    && pid in hs[j].procs
    && (|| StillToJudge(hs[j].procs[pid], d, threshold)
        || exists k :: l < k < j && JudgesAt(hs, acts, k, pid, d, threshold))
  }

  lemma SweepExec(pc: Pc, s: Shared, ch: Choice, d: Device, threshold: int)
    requires StillToJudge(pc, d, threshold)
    ensures var pc' := Exec(pc, s, ch).pc;
            || StillToJudge(pc', d, threshold)
            || (pc.Sweep? && pc.mn.todo[0] == d && (ch.fail || !Stale(s.table, d, threshold)))
            || (pc.Sweep? && TakesOffline(pc, s.table, ch, d) && pc'.Want? && pc'.e == DeviceOffline(d, ByMonitor))
  {
    if pc.Sweep? && pc.mn.todo[0] != d {
      assert d in pc.mn.todo[1..];
    }
  }

  lemma SweepMoves(hs: seq<Hub>, acts: seq<Action>, l: nat, j: nat, pid: nat, d: Device, threshold: int)
    requires IsRun(hs, acts) && l < j < |acts| && StepBy(acts, j, pid)
    requires pid in hs[j].procs && StillToJudge(hs[j].procs[pid], d, threshold)
    ensures SweepSoFar(hs, acts, l, j + 1, pid, d, threshold)
  {
    Moves(hs, acts, j, pid);
    var pc, pc', ch := hs[j].procs[pid], hs[j + 1].procs[pid], acts[j].ch;
    SweepExec(pc, hs[j].sh, ch, d, threshold);
    if !StillToJudge(pc', d, threshold) {
      RowsChangeExactlyWhen(hs, acts, j, pid, pc, ch, d);
      assert JudgesAt(hs, acts, j, pid, d, threshold);
    }
  }

  lemma {:induction false} SweepReaches(hs: seq<Hub>, acts: seq<Action>, l: nat, j: nat, pid: nat, d: Device,
                                        threshold: int)
    requires IsRun(hs, acts) && l < j < |hs| && SameEpoch(hs, l, j)
    requires pid in hs[l + 1].procs && StillToJudge(hs[l + 1].procs[pid], d, threshold)
    ensures SweepSoFar(hs, acts, l, j, pid, d, threshold)
  {
    if l + 1 < j {
      var k := j - 1;
      EpochBetween(hs, acts, l, k, j);
      SweepReaches(hs, acts, l, k, pid, d, threshold);
      if !StepBy(acts, k, pid) {
        Stands(hs, acts, k, pid);
      } else if StillToJudge(hs[k].procs[pid], d, threshold) {
        SweepMoves(hs, acts, l, k, pid, d, threshold);
      } else {
        Moves(hs, acts, k, pid);
      }
    }
  }

  lemma SweepTells(hs: seq<Hub>, acts: seq<Action>, k: nat, j: nat, pid: nat, d: Device) returns (m: nat)
    requires IsRun(hs, acts) && k < |acts| && k + 1 <= j < |hs| && SameEpoch(hs, k, j)
    requires pid in hs[k + 1].procs && hs[k + 1].procs[pid].Want?
    requires hs[k + 1].procs[pid].e == DeviceOffline(d, ByMonitor)
    requires pid in hs[j].procs && hs[j].procs[pid] == Done
    ensures k < m < j && Announces(hs, acts, m, pid, DeviceOffline(d, ByMonitor))
  {
    EpochBetween(hs, acts, k, k + 1, j);
    var next := hs[k + 1].procs[pid].next;
    m := BroadcastIsOver(hs, acts, k + 1, j, pid, DeviceOffline(d, ByMonitor), next);
  }

  /**
   A sweep that is finished has judged every device it listed: it demoted the device and
   told everyone else, or its statement failed or found the row no longer online and stale.
   */
  lemma SweepStory(hs: seq<Hub>, acts: seq<Action>, l: nat, j: nat, pid: nat, sweep: Pc, ch: Choice,
                   d: Device, threshold: int)
    requires IsRun(hs, acts) && l < j < |hs| && SameEpoch(hs, l, j)
    requires StepOf(hs, acts, l, pid, sweep, ch) && !ch.fail
    requires sweep.Sweep? && sweep.mn == MnList && threshold == sweep.begun - sweep.timeout
    requires d in hs[l].sh.table && hs[l].sh.table[d].status == Online && hs[l].sh.table[d].beat < threshold
    requires pid in hs[j].procs && hs[j].procs[pid] == Done
    ensures || (exists k :: l < k < j && SparesAt(hs, acts, k, pid, d, threshold))
            || (exists k, m :: && l < k < m < j && DemotesAt(hs, acts, k, pid, d, threshold)
                               && Announces(hs, acts, m, pid, DeviceOffline(d, ByMonitor)))
  {
    Moves(hs, acts, l, pid);
    assert d in ch.rows;
    SweepReaches(hs, acts, l, j, pid, d, threshold);
    var k :| l < k < j && JudgesAt(hs, acts, k, pid, d, threshold);
    if !SparesAt(hs, acts, k, pid, d, threshold) {
      EpochBetween(hs, acts, l, k, j);
      var m := SweepTells(hs, acts, k, j, pid, d);
    }
  }

  /** At step `a` the process reads the clock. */
  ghost predicate ReadsClock(hs: seq<Hub>, acts: seq<Action>, a: nat, pid: nat, now: int)
    requires |hs| == |acts| + 1
  {
    StepBy(acts, a, pid) && hs[a].sh.clock == now
  }

  ghost predicate SweepBegan(hs: seq<Hub>, acts: seq<Action>, s: nat, j: nat, pid: nat, timeout: int)
    requires |hs| == |acts| + 1 && j < |hs|
  {
    && pid in hs[j].procs
    && (Loop(hs[j].procs[pid]).Sweep? ==>
          && Loop(hs[j].procs[pid]).timeout == timeout
          && (Loop(hs[j].procs[pid]).mn != MnStart ==>
                exists a :: s < a < j && ReadsClock(hs, acts, a, pid, Loop(hs[j].procs[pid]).begun)))
  }

  /** A sweep keeps its beginning, which is the clock at its first step. */
  lemma SweepKeepsBegun(pid: nat, pc: Pc, s: Shared, ch: Choice)
    requires BodyOk(pid, pc, s)
    ensures var l, l' := Loop(pc), Loop(Exec(pc, s, ch).pc);
            l'.Sweep? ==>
              && l.Sweep? && l'.timeout == l.timeout
              && (if pc.Sweep? && pc.mn == MnStart then l'.begun == s.clock && l'.mn != MnStart
                  else l'.begun == l.begun && (l'.mn == MnStart <==> l.mn == MnStart))
  {
  }

  lemma SweepBeginsStep(hs: seq<Hub>, acts: seq<Action>, s: nat, j: nat, pid: nat, timeout: int)
    requires IsRun(hs, acts) && s < j < |acts| && SweepBegan(hs, acts, s, j, pid, timeout) && SameEpoch(hs, j, j + 1)
    ensures SweepBegan(hs, acts, s, j + 1, pid, timeout)
  {
    if StepBy(acts, j, pid) {
      Moves(hs, acts, j, pid);
      RunsKeepInv(hs, acts, j);
      assert PcOk(pid, hs[j].procs[pid], hs[j].sh);
      SweepKeepsBegun(pid, hs[j].procs[pid], hs[j].sh, acts[j].ch);
      assert ReadsClock(hs, acts, j, pid, hs[j].sh.clock);
    } else {
      Stands(hs, acts, j, pid);
    }
  }

  lemma {:induction false} SweepBegins(hs: seq<Hub>, acts: seq<Action>, s: nat, j: nat, pid: nat, timeout: int, b: int)
    requires IsRun(hs, acts) && s < j < |hs| && SameEpoch(hs, s, j) && acts[s] == Spawn(pid, Sweep(timeout, b, MnStart))
    ensures SweepBegan(hs, acts, s, j, pid, timeout)
  {
    if j == s + 1 {
      Called(hs, acts, s, pid, Sweep(timeout, b, MnStart));
    } else {
      var k := j - 1;
      EpochBetween(hs, acts, s, k, j);
      SweepBegins(hs, acts, s, k, pid, timeout, b);
      SweepBeginsStep(hs, acts, s, k, pid, timeout);
    }
  }

  /** A sweep judges by the clock it read at its beginning, less the timeout it was called with. */
  lemma SweepJudgesByItsStart(hs: seq<Hub>, acts: seq<Action>, s: nat, j: nat, pid: nat, timeout: int, b: int)
    requires IsRun(hs, acts) && s < j < |hs| && SameEpoch(hs, s, j) && acts[s] == Spawn(pid, Sweep(timeout, b, MnStart))
    requires pid in hs[j].procs && hs[j].procs[pid].Sweep? && hs[j].procs[pid].mn != MnStart
    ensures hs[j].procs[pid].timeout == timeout
    ensures exists a :: s < a < j && ReadsClock(hs, acts, a, pid, hs[j].procs[pid].begun)
  {
    SweepBegins(hs, acts, s, j, pid, timeout, b);
  }

  // ---- A prune ----

  /** The step unsubscribes a device whose row was pruned, and the device is about to be announced as removed. */
  ghost predicate ForgetsAt(hs: seq<Hub>, acts: seq<Action>, k: nat, pid: nat, d: Device)
    requires |hs| == |acts| + 1
  {
    && DropsAt(hs, acts, k, pid, d)
    && pid in hs[k + 1].procs && hs[k + 1].procs[pid].Want? && hs[k + 1].procs[pid].e == DeviceRemoved(d)
  }

  predicate StillToForget(pc: Pc, d: Device) {
    Loop(pc).Prune? && Loop(pc).pr.PrEach? && d in Loop(pc).pr.rest
  }

  lemma PruneExec(pc: Pc, s: Shared, ch: Choice, d: Device)
    requires StillToForget(pc, d)
    ensures var pc' := Exec(pc, s, ch).pc;
            || StillToForget(pc', d)
            || (&& pc.Prune? && pc.pr.rest != [] && pc.pr.rest[0] == d
                && pc'.Want? && pc'.e == DeviceRemoved(d))
  {
    if pc.Prune? && pc.pr.rest[0] != d {
      assert d in pc.pr.rest[1..];
    }
  }

  ghost predicate PruneSoFar(hs: seq<Hub>, acts: seq<Action>, l: nat, j: nat, pid: nat, d: Device)
    requires |hs| == |acts| + 1 && j < |hs|
  {
    && pid in hs[j].procs
    && (StillToForget(hs[j].procs[pid], d) || exists k :: l < k < j && ForgetsAt(hs, acts, k, pid, d))
  }

  lemma PruneMoves(hs: seq<Hub>, acts: seq<Action>, l: nat, j: nat, pid: nat, d: Device)
    requires IsRun(hs, acts) && l < j < |acts| && StepBy(acts, j, pid)
    requires pid in hs[j].procs && StillToForget(hs[j].procs[pid], d)
    ensures PruneSoFar(hs, acts, l, j + 1, pid, d)
  {
    Moves(hs, acts, j, pid);
    var pc, ch := hs[j].procs[pid], acts[j].ch;
    PruneExec(pc, hs[j].sh, ch, d);
    if !StillToForget(hs[j + 1].procs[pid], d) {
      DropEffect(hs, acts, j, pid, pc, ch, d);
      assert ForgetsAt(hs, acts, j, pid, d);
    }
  }

  lemma {:induction false} PruneReaches(hs: seq<Hub>, acts: seq<Action>, l: nat, j: nat, pid: nat, d: Device)
    requires IsRun(hs, acts) && l < j < |hs| && SameEpoch(hs, l, j)
    requires pid in hs[l + 1].procs && StillToForget(hs[l + 1].procs[pid], d)
    ensures PruneSoFar(hs, acts, l, j, pid, d)
  {
    if l + 1 < j {
      var k := j - 1;
      EpochBetween(hs, acts, l, k, j);
      PruneReaches(hs, acts, l, k, pid, d);
      if !StepBy(acts, k, pid) {
        Stands(hs, acts, k, pid);
      } else if StillToForget(hs[k].procs[pid], d) {
        PruneMoves(hs, acts, l, k, pid, d);
      } else {
        Moves(hs, acts, k, pid);
      }
    }
  }

  lemma PruneTells(hs: seq<Hub>, acts: seq<Action>, k: nat, j: nat, pid: nat, d: Device) returns (m: nat)
    requires IsRun(hs, acts) && k < |acts| && k + 1 <= j < |hs| && SameEpoch(hs, k, j) && ForgetsAt(hs, acts, k, pid, d)
    requires pid in hs[j].procs && hs[j].procs[pid] == Done
    ensures k < m < j && Announces(hs, acts, m, pid, DeviceRemoved(d))
  {
    EpochBetween(hs, acts, k, k + 1, j);
    var next := hs[k + 1].procs[pid].next;
    m := BroadcastIsOver(hs, acts, k + 1, j, pid, DeviceRemoved(d), next);
  }

  /**
   A prune that is finished has unsubscribed every device whose row its DELETE took, and
   told everyone else of each; the DELETE took the rows it was given, all offline, last
   heard of before the threshold and not among the devices subscribed when it looked.
   */
  lemma PruneStory(hs: seq<Hub>, acts: seq<Action>, l: nat, j: nat, pid: nat, prune: Pc, ch: Choice, d: Device)
    requires IsRun(hs, acts) && l < j < |hs| && SameEpoch(hs, l, j)
    requires StepOf(hs, acts, l, pid, prune, ch) && prune.Prune? && prune.pr.PrDelete? && !ch.fail && d in ch.rows
    requires pid in hs[j].procs && hs[j].procs[pid] == Done
    ensures d in hs[l].sh.table && d !in hs[l + 1].sh.table && hs[l].sh.table[d].status == Offline
    ensures hs[l].sh.table[d].beat < prune.pr.threshold && d !in prune.pr.active
    ensures exists k, m :: && l < k < m < j && DropsAt(hs, acts, k, pid, d)
                           && Announces(hs, acts, m, pid, DeviceRemoved(d))
  {
    Moves(hs, acts, l, pid);
    RowsChangeExactlyWhen(hs, acts, l, pid, prune, ch, d);
    PruneReaches(hs, acts, l, j, pid, d);
    var k :| l < k < j && ForgetsAt(hs, acts, k, pid, d);
    EpochBetween(hs, acts, l, k, j);
    var m := PruneTells(hs, acts, k, j, pid, d);
  }

  /** At step `b` the process reads who is subscribed. */
  ghost predicate ReadsSubscribers(hs: seq<Hub>, acts: seq<Action>, b: nat, pid: nat, active: set<Device>)
    requires |hs| == |acts| + 1
  {
    StepBy(acts, b, pid) && hs[b].sh.reg.subs.Keys == active
  }

  /** At step `a` the process sets its threshold by the clock. */
  ghost predicate SetsThreshold(hs: seq<Hub>, acts: seq<Action>, a: nat, pid: nat, retention: int, threshold: int)
    requires |hs| == |acts| + 1
  {
    StepBy(acts, a, pid) && threshold == hs[a].sh.clock - retention
  }

  ghost predicate PruneBegan(hs: seq<Hub>, acts: seq<Action>, s: nat, j: nat, pid: nat, retention: int)
    requires |hs| == |acts| + 1 && j < |hs|
  {
    && pid in hs[j].procs
    && (Loop(hs[j].procs[pid]).Prune? ==>
          match Loop(hs[j].procs[pid]).pr
          case PrStart(r) => r == retention
          case PrActive(threshold) => exists a :: s < a < j && SetsThreshold(hs, acts, a, pid, retention, threshold)
          case PrDelete(threshold, active) =>
            exists a, b :: && s < a < b < j && SetsThreshold(hs, acts, a, pid, retention, threshold)
                           && ReadsSubscribers(hs, acts, b, pid, active)
          case PrEach(_) => true)
  }

  lemma PruneAt(pid: nat, pc: Pc, s: Shared, ch: Choice)
    requires BodyOk(pid, pc, s)
    ensures var l, l' := Loop(pc), Loop(Exec(pc, s, ch).pc);
            l'.Prune? ==>
              && l.Prune?
              && (l' == l || match l'.pr
                             case PrStart(_) => false
                             case PrActive(threshold) => l.pr.PrStart? && threshold == s.clock - l.pr.retention
                             case PrDelete(threshold, active) =>
                               l.pr == PrActive(threshold) && active == s.reg.subs.Keys
                             case PrEach(_) => true)
  {
  }

  lemma PruneBeginsStep(hs: seq<Hub>, acts: seq<Action>, s: nat, j: nat, pid: nat, retention: int)
    requires IsRun(hs, acts) && s < j < |acts| && PruneBegan(hs, acts, s, j, pid, retention) && SameEpoch(hs, j, j + 1)
    ensures PruneBegan(hs, acts, s, j + 1, pid, retention)
  {
    if StepBy(acts, j, pid) {
      Moves(hs, acts, j, pid);
      RunsKeepInv(hs, acts, j);
      assert PcOk(pid, hs[j].procs[pid], hs[j].sh);
      PruneAt(pid, hs[j].procs[pid], hs[j].sh, acts[j].ch);
      assert SetsThreshold(hs, acts, j, pid, retention, hs[j].sh.clock - retention);
      assert ReadsSubscribers(hs, acts, j, pid, hs[j].sh.reg.subs.Keys);
    } else {
      Stands(hs, acts, j, pid);
    }
  }

  lemma {:induction false} PruneBegins(hs: seq<Hub>, acts: seq<Action>, s: nat, j: nat, pid: nat, retention: int)
    requires IsRun(hs, acts) && s < j < |hs| && SameEpoch(hs, s, j) && acts[s] == Spawn(pid, Prune(PrStart(retention)))
    ensures PruneBegan(hs, acts, s, j, pid, retention)
  {
    if j == s + 1 {
      Called(hs, acts, s, pid, Prune(PrStart(retention)));
    } else {
      var k := j - 1;
      EpochBetween(hs, acts, s, k, j);
      PruneBegins(hs, acts, s, k, pid, retention);
      PruneBeginsStep(hs, acts, s, k, pid, retention);
    }
  }

  /** What the DELETE may take. */
  lemma PrunedRow(hs: seq<Hub>, acts: seq<Action>, l: nat, pid: nat, pr: PrAt, ch: Choice, d: Device)
    requires IsRun(hs, acts) && StepOf(hs, acts, l, pid, Prune(pr), ch) && pr.PrDelete? && !ch.fail
    requires d in hs[l].sh.table && d !in hs[l + 1].sh.table
    ensures hs[l].sh.table[d].status == Offline && d in hs[l].sh.hist.beats && d !in pr.active
    ensures forall k | 0 <= k < |hs[l].sh.hist.beats[d]| :: hs[l].sh.hist.beats[d][k] < pr.threshold
  {
    Moves(hs, acts, l, pid);
    RowsChangeExactlyWhen(hs, acts, l, pid, Prune(pr), ch, d);
    RunsKeepInv(hs, acts, l);
    assert BeatsOk(hs[l].sh.table, hs[l].sh.hist.beats, hs[l].sh.clock);
  }

  /**
   A pruned row was offline and had not been heard of for the retention time when the prune
   began, and its device was not subscribed when, after that, it looked: no heartbeat was
   recorded from then on up to the DELETE.
   */
  lemma PruneIsJustified(hs: seq<Hub>, acts: seq<Action>, s: nat, l: nat, pid: nat, retention: int, pr: PrAt,
                         ch: Choice, d: Device) returns (a: nat, b: nat)
    requires IsRun(hs, acts) && s < l < |acts| && SameEpoch(hs, s, l)
    requires acts[s] == Spawn(pid, Prune(PrStart(retention))) && StepOf(hs, acts, l, pid, Prune(pr), ch)
    requires pr.PrDelete? && !ch.fail && d in hs[l].sh.table && d !in hs[l + 1].sh.table
    ensures hs[l].sh.table[d].status == Offline && d in hs[l].sh.hist.beats
    ensures s < a < b < l && StepBy(acts, a, pid) && StepBy(acts, b, pid) && d !in hs[b].sh.reg.subs
    ensures forall k | 0 <= k < |hs[l].sh.hist.beats[d]| :: hs[l].sh.hist.beats[d][k] < hs[a].sh.clock - retention
  {
    PruneBegins(hs, acts, s, l, pid, retention);
    a, b :| && s < a < b < l && SetsThreshold(hs, acts, a, pid, retention, pr.threshold)
            && ReadsSubscribers(hs, acts, b, pid, pr.active);
    PrunedRow(hs, acts, l, pid, pr, ch, d);
    assert d !in hs[b].sh.reg.subs.Keys;
  }

  /**
   What a prune leaves: an offline row as old as those it may take stays only if the batch of
   500 is full, of rows that are no younger.
   */
  lemma PruneTakesTheOldest(hs: seq<Hub>, acts: seq<Action>, l: nat, pid: nat, pr: PrAt, ch: Choice, d: Device)
    requires IsRun(hs, acts) && StepOf(hs, acts, l, pid, Prune(pr), ch) && pr.PrDelete? && !ch.fail
    requires d in hs[l].sh.table && hs[l].sh.table[d].status == Offline
    requires hs[l].sh.table[d].beat < pr.threshold && d !in pr.active
    ensures |ch.rows| <= 500
    ensures d in hs[l + 1].sh.table ==>
              && |ch.rows| == 500
              && forall e | e in ch.rows :: e in hs[l].sh.table && hs[l].sh.table[e].beat <= hs[l].sh.table[d].beat
  {
    Moves(hs, acts, l, pid);
    RowsChangeExactlyWhen(hs, acts, l, pid, Prune(pr), ch, d);
    assert MayPrune(hs[l].sh.table, pr.threshold, pr.active, ch.rows);
    assert Prunable(hs[l].sh.table, d, pr.threshold, pr.active);
  }

  // ---- Stop ----

  /** At step `k` the list of the shutdown sweep fails, or its write. */
  ghost predicate StatementFails(hs: seq<Hub>, acts: seq<Action>, k: nat, pid: nat)
    requires |hs| == |acts| + 1
  {
    && StepBy(acts, k, pid) && acts[k].ch.fail && pid in hs[k].procs && hs[k].procs[pid].Stop?
    && (hs[k].procs[pid].st == StList || hs[k].procs[pid].st == StWrite)
  }

  ghost predicate StopSoFar(hs: seq<Hub>, acts: seq<Action>, s: nat, j: nat, pid: nat)
    requires |hs| == |acts| + 1 && j < |hs|
  {
    && pid in hs[j].procs && Loop(hs[j].procs[pid]).Stop?
    && match Loop(hs[j].procs[pid]).st
       case StClose(quiet) => quiet || exists k :: s < k < j && StatementFails(hs, acts, k, pid)
       case StDone(quiet) => quiet || exists k :: s < k < j && StatementFails(hs, acts, k, pid)
       case _ => true
  }

  lemma StopExec(pid: nat, pc: Pc, s: Shared, ch: Choice)
    requires BodyOk(pid, pc, s) && Loop(pc).Stop?
    ensures var l, l' := Loop(pc), Loop(Exec(pc, s, ch).pc);
            && l'.Stop?
            && (l'.st == StClose(false) ==>
                  l.st == StClose(false) || (pc == l && ch.fail && (l.st == StList || l.st == StWrite)))
            && (l'.st == StDone(false) ==> l.st == StDone(false) || l.st == StClose(false))
  {
  }

  lemma StopStep(hs: seq<Hub>, acts: seq<Action>, s: nat, j: nat, pid: nat)
    requires IsRun(hs, acts) && s < j < |acts| && StopSoFar(hs, acts, s, j, pid) && SameEpoch(hs, j, j + 1)
    ensures StopSoFar(hs, acts, s, j + 1, pid)
  {
    if StepBy(acts, j, pid) {
      Moves(hs, acts, j, pid);
      RunsKeepInv(hs, acts, j);
      assert PcOk(pid, hs[j].procs[pid], hs[j].sh);
      StopExec(pid, hs[j].procs[pid], hs[j].sh, acts[j].ch);
      assert hs[j].procs[pid].Stop? && (hs[j].procs[pid].st == StList || hs[j].procs[pid].st == StWrite) ==>
               (acts[j].ch.fail ==> StatementFails(hs, acts, j, pid));
    } else {
      Stands(hs, acts, j, pid);
    }
  }

  lemma {:induction false} StopReaches(hs: seq<Hub>, acts: seq<Action>, s: nat, j: nat, pid: nat)
    requires IsRun(hs, acts) && s < j < |hs| && SameEpoch(hs, s, j) && acts[s] == SpawnStop(pid)
    ensures StopSoFar(hs, acts, s, j, pid)
  {
    if j == s + 1 {
      assert StepAt(hs, acts, s);
    } else {
      var k := j - 1;
      EpochBetween(hs, acts, s, k, j);
      StopReaches(hs, acts, s, k, pid);
      StopStep(hs, acts, s, k, pid);
    }
  }

  /**
   A Stop that is finished leaves the hub draining, with nobody subscribed and every channel
   closed. Unless its list or its write failed, no device is online.
   */
  lemma StopStory(hs: seq<Hub>, acts: seq<Action>, s: nat, j: nat, pid: nat)
    requires IsRun(hs, acts) && s < j < |hs| && SameEpoch(hs, s, j) && acts[s] == SpawnStop(pid)
    requires pid in hs[j].procs && hs[j].procs[pid].Stop? && hs[j].procs[pid].st.StDone?
    ensures hs[j].sh.reg.draining && hs[j].sh.reg.subs == map[]
    ensures forall c | 0 <= c < |hs[j].sh.reg.chans| :: !hs[j].sh.reg.chans[c].open
    ensures OnlineOf(hs[j].sh.table) == {} || exists k :: s < k < j && StatementFails(hs, acts, k, pid)
  {
    StopReaches(hs, acts, s, j, pid);
    RunsKeepInv(hs, acts, j);
    assert PcOk(pid, hs[j].procs[pid], hs[j].sh);
  }

  // ---- A Subscribe stream ----

  /** With step `k` the stream ends early: a send fails, or its client's context is done. */
  ghost predicate StreamCutAt(hs: seq<Hub>, acts: seq<Action>, k: nat, pid: nat)
    requires |hs| == |acts| + 1
  {
    && StepBy(acts, k, pid) && (acts[k].ch.fail || acts[k].ch.stream.CtxDone?)
    && pid in hs[k + 1].procs && hs[k + 1].procs[pid].Stream? && hs[k + 1].procs[pid].sb == SbEnd(false)
  }

  ghost predicate RefusesSubscribeAt(hs: seq<Hub>, acts: seq<Action>, k: nat, pid: nat)
    requires |hs| == |acts| + 1
  {
    GivesUpAt(hs, acts, k, pid) && hs[k].sh.reg.draining
  }

  /** Step `k` subscribes the device on a new channel, which is `c`. */
  ghost predicate SubscribesAt(hs: seq<Hub>, acts: seq<Action>, k: nat, pid: nat, d: Device, c: nat)
    requires |hs| == |acts| + 1
  {
    && StepBy(acts, k, pid) && d in hs[k + 1].sh.reg.subs && hs[k + 1].sh.reg.subs[d] == c
    && c == |hs[k].sh.reg.chans| < |hs[k + 1].sh.reg.chans|
  }

  ghost predicate StreamSoFar(hs: seq<Hub>, acts: seq<Action>, s: nat, j: nat, pid: nat, d: Device)
    requires |hs| == |acts| + 1 && j < |hs|
  {
    && pid in hs[j].procs
    && match hs[j].procs[pid]
       case Done => exists k :: s < k < j && RefusesSubscribeAt(hs, acts, k, pid)
       case Stream(x, c, _, sb) =>
         && x == d
         && (sb != SbOpen ==> exists k :: s < k < j && SubscribesAt(hs, acts, k, pid, d, c))
         && (sb == SbEnd(false) || sb == SbGone(false) ==> exists k :: s < k < j && StreamCutAt(hs, acts, k, pid))
       case _ => false
  }

  lemma StreamExec(pc: Pc, s: Shared, ch: Choice)
    requires pc.Stream? && MayStep(pc, s, ch)
    ensures var pc' := Exec(pc, s, ch).pc;
            || (pc' == Done && s.reg.draining && pc.sb == SbOpen)
            || (&& pc'.Stream? && pc'.d == pc.d
                && (if OpensChannel(pc, s.reg) then pc'.c == |s.reg.chans| && pc'.sb == SbReady
                    else pc'.c == pc.c && pc.sb != SbOpen && pc'.sb != SbOpen)
                && (pc'.sb == SbEnd(false) ==> ch.fail || ch.stream.CtxDone?)
                && (pc'.sb == SbGone(false) ==> pc.sb == SbEnd(false) || pc.sb == SbGone(false)))
  {
  }

  lemma OpenEffect(hs: seq<Hub>, acts: seq<Action>, j: nat, pid: nat, pc: Pc, ch: Choice)
    requires IsRun(hs, acts) && StepOf(hs, acts, j, pid, pc, ch) && OpensChannel(pc, hs[j].sh.reg)
    ensures SubscribesAt(hs, acts, j, pid, pc.d, |hs[j].sh.reg.chans|)
  {
    SubsChangeExactlyWhen(hs, acts, j, pid, pc, ch);
  }

  lemma StreamMoves(hs: seq<Hub>, acts: seq<Action>, s: nat, j: nat, pid: nat, d: Device)
    requires IsRun(hs, acts) && s < j < |acts| && StreamSoFar(hs, acts, s, j, pid, d) && StepBy(acts, j, pid)
    requires hs[j].procs[pid].Stream?
    ensures StreamSoFar(hs, acts, s, j + 1, pid, d)
  {
    Moves(hs, acts, j, pid);
    var pc, ch := hs[j].procs[pid], acts[j].ch;
    StreamExec(pc, hs[j].sh, ch);
    if OpensChannel(pc, hs[j].sh.reg) {
      OpenEffect(hs, acts, j, pid, pc, ch);
    }
    assert pc.sb == SbOpen && hs[j].sh.reg.draining ==> RefusesSubscribeAt(hs, acts, j, pid);
    assert hs[j + 1].procs[pid].Stream? && hs[j + 1].procs[pid].sb == SbEnd(false) ==> StreamCutAt(hs, acts, j, pid);
  }

  lemma {:induction false} StreamReaches(hs: seq<Hub>, acts: seq<Action>, s: nat, j: nat, pid: nat, pc: Pc)
    requires IsRun(hs, acts) && s < j < |hs| && SameEpoch(hs, s, j) && acts[s] == Spawn(pid, pc) && pc.Stream?
    ensures StreamSoFar(hs, acts, s, j, pid, pc.d)
  {
    if j == s + 1 {
      Called(hs, acts, s, pid, pc);
    } else {
      var k := j - 1;
      EpochBetween(hs, acts, s, k, j);
      StreamReaches(hs, acts, s, k, pid, pc);
      if !StepBy(acts, k, pid) {
        Stands(hs, acts, k, pid);
      } else {
        Moves(hs, acts, k, pid);
        if hs[k].procs[pid].Stream? { StreamMoves(hs, acts, s, k, pid, pc.d); }
      }
    }
  }

  /**
   A stream that is finished was refused because the hub was draining; or it subscribed its
   device on a channel of its own and sent, in order, all that this channel ever accepted,
   unless a send failed or its client went away.
   */
  lemma StreamStory(hs: seq<Hub>, acts: seq<Action>, s: nat, j: nat, pid: nat, pc: Pc)
    requires IsRun(hs, acts) && s < j < |hs| && SameEpoch(hs, s, j) && acts[s] == Spawn(pid, pc) && pc.Stream?
    requires pid in hs[j].procs && Finished(hs[j].procs[pid])
    ensures || (exists k :: s < k < j && RefusesSubscribeAt(hs, acts, k, pid))
            || (&& hs[j].procs[pid].Stream?
                && var at := hs[j].procs[pid];
                   && at.c < |hs[j].sh.reg.chans| && !hs[j].sh.reg.chans[at.c].open
                   && (exists k :: s < k < j && SubscribesAt(hs, acts, k, pid, pc.d, at.c))
                   && (|| at.out == hs[j].sh.reg.chans[at.c].sent
                       || exists k :: s < k < j && StreamCutAt(hs, acts, k, pid)))
  {
    StreamReaches(hs, acts, s, j, pid, pc);
    if hs[j].procs[pid].Stream? {
      StreamsAreFaithful(hs, acts, j, pid);
    }
  }

  // ---- Nothing gets stuck ----

  /** Nothing is left to do. */
  predicate Finished(pc: Pc) {
    pc.Done? || (pc.Stream? && pc.sb.SbGone?) || (pc.Stop? && pc.st.StDone?)
  }

  /** Whatever a process waits for, a failing statement or a departing client always lets it go on. */
  lemma CanMove(pid: nat, pc: Pc, s: Shared) returns (ch: Choice)
    requires !Finished(pc)
    ensures MayStep(pc, s, ch)
    ensures HoldsLock(pc) ==> !Exec(pc, s, ch).op.Locked?
  {
    ch := Choice(true, Device(""), [], CtxDone);
    if pc.Sending? && pc.left != {} {
      var who :| who in pc.left;
      ch := ch.(who := who);
    }
  }

  /**
   In no run does the hub get stuck: while a process has something left to do, a step is
   possible. It is one of that process, or of one that holds the read lock it waits for.
   */
  lemma NoDeadlock(hs: seq<Hub>, acts: seq<Action>, i: nat, pid: nat) returns (q: nat, ch: Choice)
    requires IsRun(hs, acts) && i < |hs| && pid in hs[i].procs && !Finished(hs[i].procs[pid])
    ensures Enabled(hs[i], Run(q, ch)) && (q == pid || q in hs[i].sh.readers)
  {
    RunsKeepInv(hs, acts, i);
    q := pid;
    if hs[i].sh.readers != {} {
      q :| q in hs[i].sh.readers;
    }
    ch := CanMove(q, hs[i].procs[q], hs[i].sh);
  }

  // ---- Nothing runs forever ----

  /** How many steps there are before a handler knows how many rows it has to deal with. */
  function Phases(pc: Pc): nat {
    match pc
    case Sweep(_, _, mn) => (match mn case MnStart => 2 case MnList => 1 case MnEach(_) => 0)
    case Prune(pr) => (match pr case PrStart(_) => 3 case PrActive(_) => 2 case PrDelete(_, _) => 1 case PrEach(_) => 0)
    case Stop(_, st) => (match st case StDrain => 2 case StList => 1 case _ => 0)
    case Want(_, _, next) => Phases(next)
    case Sending(_, _, next) => Phases(next)
    case Release(next) => Phases(next)
    case _ => 0
  }

  function HeartbeatSteps(hb: HbAt): nat {
    match hb
    case HbBeat => 10
    case HbGet => 9
    case HbLoad => 8
    case HbLook => 7
    case HbShares => 6
    case HbLock => 5
    case HbDrainCheck => 4
    case HbSubCheck => 3
    case HbPromote => 2
  }

  function RegisterSteps(rg: RgAt): nat {
    match rg
    case RgLoad => 11
    case RgGet => 10
    case RgList => 9
    case RgShares => 8
    case RgBeat => 7
    case RgLock => 6
    case RgDrainCheck => 5
    case RgWrite => 4
  }

  function StopSteps(listed: nat, st: StAt): nat {
    match st
    case StDrain => 0
    case StList => 0
    case StWrite => 4 * listed + 3
    case StTell(told) => 4 * (if told < listed then listed - told else 0) + 2
    case StClose(_) => 1
    case StDone(_) => 0
  }

  /** How many more steps a handler takes at most, a broadcast's sends counted as one. */
  function Steps(pc: Pc): nat {
    match pc
    case Heartbeat(_, _, _, hb) => HeartbeatSteps(hb)
    case Register(_, _, _, rg) => RegisterSteps(rg)
    case Deregister(_, _, _, dr) => (match dr case DrGet => 5 case DrClose => 4 case DrWrite => 3)
    case Leave(_, lv) => (match lv case LvGet => 5 case LvDelete => 4 case LvClose => 1)
    case Stream(_, _, _, _) => 0
    case Sweep(_, _, mn) => if mn.MnEach? then 4 * |mn.todo| + 1 else 0
    case Prune(pr) => if pr.PrEach? then 4 * |pr.rest| + 1 else 0
    case Stop(listed, st) => StopSteps(|listed|, st)
    case Join(_, _, _) => 1
    case Want(_, _, next) => Steps(next) + 2
    case Sending(_, _, next) => Steps(next) + 1
    case Release(next) => Steps(next) + 1
    case Done => 0
  }

  function SendsLeft(pc: Pc): nat {
    if pc.Sending? then |pc.left| else 0
  }

  /** Leaving a phase, or else taking one of the steps there are to take, or else sending to one more of those left. */
  predicate Closer(pc': Pc, pc: Pc) {
    || Phases(pc') < Phases(pc)
    || (&& Phases(pc') == Phases(pc)
        && (Steps(pc') < Steps(pc) || (Steps(pc') == Steps(pc) && SendsLeft(pc') < SendsLeft(pc))))
  }

  lemma HeartbeatGetsCloser(pc: Pc, s: Shared, ch: Choice)
    requires pc.Heartbeat?
    ensures Closer(ExecHeartbeat(pc, s, ch).pc, pc)
  {
    match pc.hb case _ =>
  }

  lemma RegisterGetsCloser(pc: Pc, s: Shared, ch: Choice)
    requires pc.Register?
    ensures Closer(ExecRegister(pc, s, ch).pc, pc)
  {
    match pc.rg case _ =>
  }

  lemma RoutineGetsCloser(pc: Pc, s: Shared, ch: Choice)
    requires MayStep(pc, s, ch) && (pc.Sweep? || pc.Prune? || pc.Stop?)
    ensures Closer(Exec(pc, s, ch).pc, pc)
  {
    match pc
    case Sweep(_, _, mn) => assert Closer(ExecSweep(pc, s, ch).pc, pc);
    case Prune(pr) => assert Closer(ExecPrune(pc, s, ch).pc, pc);
    case Stop(_, st) => assert Closer(ExecStop(pc, s, ch).pc, pc);
  }

  /**
   Every step of a handler, other than a stream that waits for its client, brings it closer
   to its end; none is repeated or gone back to.
   */
  lemma EveryStepGetsCloser(pc: Pc, s: Shared, ch: Choice)
    requires MayStep(pc, s, ch) && !pc.Stream?
    ensures Closer(Exec(pc, s, ch).pc, pc)
  {
    if pc.Heartbeat? {
      HeartbeatGetsCloser(pc, s, ch);
    } else if pc.Register? {
      RegisterGetsCloser(pc, s, ch);
    } else if pc.Sweep? || pc.Prune? || pc.Stop? {
      RoutineGetsCloser(pc, s, ch);
    } else if pc.Sending? && pc.left != {} {
      assert |pc.left - {ch.who}| < |pc.left|;
    }
  }

  /** A hub process that comes up serves after two steps: the reconcile and the start of the server. */
  lemma RestartServes(hs: seq<Hub>, acts: seq<Action>, i: nat)
    requires IsRun(hs, acts) && i + 2 <= |acts| && (i == 0 || acts[i - 1] == Crash)
    ensures Enabled(hs[i], Reconcile)
    ensures acts[i] == Reconcile ==> Enabled(hs[i + 1], Serve)
    ensures acts[i] == Reconcile && acts[i + 1] == Serve ==> hs[i + 2].phase == Serving && !hs[i + 2].stopping
  {
    assert i > 0 ==> StepAt(hs, acts, i - 1);
    assert StepAt(hs, acts, i) && StepAt(hs, acts, i + 1);
  }

  /** And a hub that serves takes every call, from any handler's entry, with a fresh process. */
  lemma ServingHubTakesCalls(h: Hub, pid: nat, d: Device, text: string, n: int)
    requires h.phase == Serving && pid !in h.procs
    ensures forall pc | pc in {Heartbeat(d, text, n, HbBeat), Register(d, text, n, RgLoad),
                               Deregister(d, text, n, DrGet), Leave(d, LvGet), Stream(d, 0, [], SbOpen),
                               Sweep(n, n, MnStart), Prune(PrStart(n)), Join(d, text, text)} ::
              Enabled(h, Spawn(pid, pc))
    ensures !h.stopping ==> Enabled(h, SpawnStop(pid))
  {
  }
}
