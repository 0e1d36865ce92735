/**
 The handlers by which a device goes, Deregister and Leave, followed to their end in every
 run: what each has removed, written and announced, and in which order.
 */
module HubDepartures {
  import opened DeviceTable
  import opened Subscribers
  import opened HubMachine
  import opened HubInvariant
  import opened HubSteps
  import opened HubTheorems
  import opened HubEffects
  import opened HubStories

  /** With step `k` the handler gives up, and then its statement fails or finds no such device. */
  ghost predicate FailsAt(hs: seq<Hub>, acts: seq<Action>, k: nat, pid: nat, d: Device)
    requires |hs| == |acts| + 1
  {
    GivesUpAt(hs, acts, k, pid) && (acts[k].ch.fail || d !in hs[k].sh.table)
  }

  ghost predicate HasFailed(hs: seq<Hub>, acts: seq<Action>, s: nat, j: nat, pid: nat, d: Device)
    requires |hs| == |acts| + 1
  {
    exists k :: s < k < j && FailsAt(hs, acts, k, pid, d)
  }

  /** Step `m` unsubscribes the device: it is out of the map, and the channel it had is closed. */
  ghost predicate DropsAt(hs: seq<Hub>, acts: seq<Action>, m: nat, pid: nat, d: Device)
    requires |hs| == |acts| + 1
  {
    && StepBy(acts, m, pid) && d !in hs[m + 1].sh.reg.subs
    && (d in hs[m].sh.reg.subs && hs[m].sh.reg.subs[d] < |hs[m + 1].sh.reg.chans| ==>
          !hs[m + 1].sh.reg.chans[hs[m].sh.reg.subs[d]].open)
  }

  lemma DropEffect(hs: seq<Hub>, acts: seq<Action>, m: nat, pid: nat, pc: Pc, ch: Choice, d: Device)
    requires IsRun(hs, acts) && StepOf(hs, acts, m, pid, pc, ch) && !pc.Stream?
    requires ClosedBy(pc, hs[m].sh.reg) == CurrentOf(hs[m].sh.reg, d)
    ensures DropsAt(hs, acts, m, pid, d)
  {
    RunsKeepInv(hs, acts, m);
    var r := hs[m].sh.reg;
    if d in r.subs {
      ChannelsChangeExactlyWhen(hs, acts, m, pid, pc, ch, r.subs[d]);
    } else {
      SubsChangeExactlyWhen(hs, acts, m, pid, pc, ch);
    }
  }

  // ---- A Deregister ----

  /** At step `g` the process reads the row's address. */
  ghost predicate ReadsAddress(hs: seq<Hub>, acts: seq<Action>, g: nat, pid: nat, d: Device, ip: string, port: int)
    requires |hs| == |acts| + 1
  {
    && StepBy(acts, g, pid) && d in hs[g].sh.table
    && hs[g].sh.table[d].ip == ip && hs[g].sh.table[d].port == port
  }

  ghost predicate WritesOffline(hs: seq<Hub>, acts: seq<Action>, w: nat, pid: nat, d: Device, ip: string, port: int)
    requires |hs| == |acts| + 1
  {
    && StepBy(acts, w, pid) && d in hs[w + 1].sh.table && hs[w + 1].sh.table[d].status == Offline
    && hs[w + 1].sh.table[d].ip == ip && hs[w + 1].sh.table[d].port == port
  }

  ghost predicate AddressRead(hs: seq<Hub>, acts: seq<Action>, s: nat, j: nat, pid: nat, d: Device,
                              ip: string, port: int)
    requires |hs| == |acts| + 1
  {
    exists g :: s < g < j && ReadsAddress(hs, acts, g, pid, d, ip, port)
  }

  ghost predicate Dropped(hs: seq<Hub>, acts: seq<Action>, s: nat, j: nat, pid: nat, d: Device, ip: string, port: int)
    requires |hs| == |acts| + 1
  {
    exists m :: s < m < j && AddressRead(hs, acts, s, m, pid, d, ip, port) && DropsAt(hs, acts, m, pid, d)
  }

  ghost predicate DeregistersAt(hs: seq<Hub>, acts: seq<Action>, s: nat, w: nat, pid: nat, d: Device)
    requires |hs| == |acts| + 1
  {
    && (exists ip, port :: && WritesOffline(hs, acts, w, pid, d, ip, port)
                           && Dropped(hs, acts, s, w, pid, d, ip, port))
    && AtBroadcast(hs[w + 1], pid, DeviceOffline(d, ByDeregister), Done)
  }

  ghost predicate Deregistering(hs: seq<Hub>, acts: seq<Action>, s: nat, j: nat, pid: nat, d: Device)
    requires |hs| == |acts| + 1 && j < |hs|
  {
    && pid in hs[j].procs && hs[j].procs[pid].Deregister?
    && var pc := hs[j].procs[pid];
       && pc.d == d
       && (pc.dr == DrClose ==> AddressRead(hs, acts, s, j, pid, d, pc.ip, pc.port))
       && (pc.dr == DrWrite ==> Dropped(hs, acts, s, j, pid, d, pc.ip, pc.port))
  }

  ghost predicate DeregisterSoFar(hs: seq<Hub>, acts: seq<Action>, s: nat, j: nat, pid: nat, d: Device)
    requires |hs| == |acts| + 1 && j < |hs|
  {
    && pid in hs[j].procs
    && (|| (exists w :: s < w < j && DeregistersAt(hs, acts, s, w, pid, d))
        || (IsEnd(hs[j].procs[pid]) && HasFailed(hs, acts, s, j, pid, d))
        || Deregistering(hs, acts, s, j, pid, d))
  }

  lemma DeregisterExec(pc: Pc, s: Shared, ch: Choice)
    requires pc.Deregister?
    ensures var pc' := Exec(pc, s, ch).pc;
            || (&& pc.dr == DrGet && pc'.Deregister? && pc.d in s.table
                && pc' == Deregister(pc.d, s.table[pc.d].ip, s.table[pc.d].port, DrClose))
            || (pc.dr == DrClose && pc' == pc.(dr := DrWrite))
            || (pc.dr != DrClose && pc' == Done && (ch.fail || pc.d !in s.table))
            || (&& pc.dr == DrWrite && TakesOffline(pc, s.table, ch, pc.d)
                && Broadcasting(pc', DeviceOffline(pc.d, ByDeregister), Done))
  {
  }

  lemma DeregisterWrites(hs: seq<Hub>, acts: seq<Action>, j: nat, pid: nat, pc: Pc, ch: Choice)
    requires IsRun(hs, acts) && StepOf(hs, acts, j, pid, pc, ch) && pc.Deregister?
    requires TakesOffline(pc, hs[j].sh.table, ch, pc.d)
    ensures WritesOffline(hs, acts, j, pid, pc.d, pc.ip, pc.port)
  {
    RowsChangeExactlyWhen(hs, acts, j, pid, pc, ch, pc.d);
  }

  lemma DeregisterMoves(hs: seq<Hub>, acts: seq<Action>, s: nat, j: nat, pid: nat, d: Device)
    requires IsRun(hs, acts) && s < j < |acts| && Deregistering(hs, acts, s, j, pid, d) && StepBy(acts, j, pid)
    ensures DeregisterSoFar(hs, acts, s, j + 1, pid, d)
  {
    Moves(hs, acts, j, pid);
    var pc, pc', ch := hs[j].procs[pid], hs[j + 1].procs[pid], acts[j].ch;
    DeregisterExec(pc, hs[j].sh, ch);
    match pc.dr
    case DrGet =>
      assert pc' != Done ==> ReadsAddress(hs, acts, j, pid, d, pc'.ip, pc'.port);
      assert pc' == Done ==> FailsAt(hs, acts, j, pid, d);
    case DrClose =>
      DropEffect(hs, acts, j, pid, pc, ch, d);
      assert Dropped(hs, acts, s, j + 1, pid, d, pc.ip, pc.port);
    case DrWrite =>
      if pc' == Done {
        assert FailsAt(hs, acts, j, pid, d);
      } else {
        DeregisterWrites(hs, acts, j, pid, pc, ch);
        assert DeregistersAt(hs, acts, s, j, pid, d);
      }
  }

  lemma DeregisterStep(hs: seq<Hub>, acts: seq<Action>, s: nat, j: nat, pid: nat, d: Device)
    requires IsRun(hs, acts) && s < j < |acts| && DeregisterSoFar(hs, acts, s, j, pid, d) && SameEpoch(hs, j, j + 1)
    ensures DeregisterSoFar(hs, acts, s, j + 1, pid, d)
  {
    if !StepBy(acts, j, pid) {
      Stands(hs, acts, j, pid);
    } else if Deregistering(hs, acts, s, j, pid, d) {
      DeregisterMoves(hs, acts, s, j, pid, d);
    } else {
      Moves(hs, acts, j, pid);
      if IsEnd(hs[j].procs[pid]) { EndExec(hs[j].procs[pid], hs[j].sh, acts[j].ch); }
    }
  }

  lemma DeregisterBegins(hs: seq<Hub>, acts: seq<Action>, s: nat, pid: nat, dereg: Pc)
    requires IsRun(hs, acts) && s < |acts| && acts[s] == Spawn(pid, dereg) && dereg.Deregister?
    ensures DeregisterSoFar(hs, acts, s, s + 1, pid, dereg.d)
  {
    Called(hs, acts, s, pid, dereg);
    assert Deregistering(hs, acts, s, s + 1, pid, dereg.d);
  }

  lemma {:induction false} DeregisterReaches(hs: seq<Hub>, acts: seq<Action>, s: nat, j: nat, pid: nat, d: Device)
    requires IsRun(hs, acts) && s < j < |hs| && SameEpoch(hs, s, j) && DeregisterSoFar(hs, acts, s, s + 1, pid, d)
    ensures DeregisterSoFar(hs, acts, s, j, pid, d)
  {
    if s + 1 < j {
      var k := j - 1;
      EpochBetween(hs, acts, s, k, j);
      DeregisterReaches(hs, acts, s, k, pid, d);
      DeregisterStep(hs, acts, s, k, pid, d);
    }
  }

  /**
   A Deregister that is finished has read the row's address, then unsubscribed the device,
   then left the row offline at that address, and then told everyone else; or a statement
   failed, or there was no such device.
   */
  lemma DeregisterStory(hs: seq<Hub>, acts: seq<Action>, s: nat, j: nat, pid: nat, dereg: Pc)
    requires IsRun(hs, acts) && s < j < |hs| && SameEpoch(hs, s, j)
    requires acts[s] == Spawn(pid, dereg) && dereg.Deregister?
    requires pid in hs[j].procs && hs[j].procs[pid] == Done
    ensures var d := dereg.d;
            || (exists k :: s < k < j && FailsAt(hs, acts, k, pid, d))
            || (exists w, k, ip, port :: && s < w < k < j && Dropped(hs, acts, s, w, pid, d, ip, port)
                                         && WritesOffline(hs, acts, w, pid, d, ip, port)
                                         && Announces(hs, acts, k, pid, DeviceOffline(d, ByDeregister)))
  {
    DeregisterBegins(hs, acts, s, pid, dereg);
    DeregisterReaches(hs, acts, s, j, pid, dereg.d);
    if w :| s < w < j && DeregistersAt(hs, acts, s, w, pid, dereg.d) {
      var k := ToldBy(hs, acts, s, w, j, pid, DeviceOffline(dereg.d, ByDeregister));
    }
  }

  // ---- A Leave ----

  ghost predicate DeletesAt(hs: seq<Hub>, acts: seq<Action>, w: nat, pid: nat, d: Device)
    requires |hs| == |acts| + 1
  {
    StepBy(acts, w, pid) && d !in hs[w + 1].sh.table
  }

  ghost predicate LeavesAt(hs: seq<Hub>, acts: seq<Action>, w: nat, pid: nat, d: Device)
    requires |hs| == |acts| + 1
  {
    && DeletesAt(hs, acts, w, pid, d)
    && AtBroadcast(hs[w + 1], pid, DeviceRemoved(d), Leave(d, LvClose))
  }

  ghost predicate LeaveSoFar(hs: seq<Hub>, acts: seq<Action>, s: nat, j: nat, pid: nat, d: Device)
    requires |hs| == |acts| + 1 && j < |hs|
  {
    && pid in hs[j].procs
    && (|| (exists w :: s < w < j && LeavesAt(hs, acts, w, pid, d))
        || (IsEnd(hs[j].procs[pid]) && HasFailed(hs, acts, s, j, pid, d))
        || hs[j].procs[pid] == Leave(d, LvGet) || hs[j].procs[pid] == Leave(d, LvDelete))
  }

  lemma LeaveExec(d: Device, at: LvAt, s: Shared, ch: Choice)
    requires at != LvClose
    ensures var pc' := Exec(Leave(d, at), s, ch).pc;
            || (at == LvGet && pc' == Leave(d, LvDelete))
            || (pc' == Done && (ch.fail || d !in s.table))
            || (Deletes(Leave(d, at), ch, d) && Broadcasting(pc', DeviceRemoved(d), Leave(d, LvClose)))
  {
  }

  lemma DeleteEffect(hs: seq<Hub>, acts: seq<Action>, j: nat, pid: nat, pc: Pc, ch: Choice, d: Device)
    requires IsRun(hs, acts) && StepOf(hs, acts, j, pid, pc, ch) && Deletes(pc, ch, d)
    ensures DeletesAt(hs, acts, j, pid, d)
  {
    RowsChangeExactlyWhen(hs, acts, j, pid, pc, ch, d);
  }

  lemma LeaveStep(hs: seq<Hub>, acts: seq<Action>, s: nat, j: nat, pid: nat, d: Device)
    requires IsRun(hs, acts) && s < j < |acts| && LeaveSoFar(hs, acts, s, j, pid, d) && SameEpoch(hs, j, j + 1)
    ensures LeaveSoFar(hs, acts, s, j + 1, pid, d)
  {
    if !StepBy(acts, j, pid) {
      Stands(hs, acts, j, pid);
    } else {
      Moves(hs, acts, j, pid);
      var pc, pc', ch := hs[j].procs[pid], hs[j + 1].procs[pid], acts[j].ch;
      if IsEnd(pc) {
        EndExec(pc, hs[j].sh, ch);
      } else if pc == Leave(d, LvGet) || pc == Leave(d, LvDelete) {
        LeaveExec(d, pc.lv, hs[j].sh, ch);
        if pc' == Done {
          assert FailsAt(hs, acts, j, pid, d);
        } else if Deletes(pc, ch, d) {
          DeleteEffect(hs, acts, j, pid, pc, ch, d);
          assert LeavesAt(hs, acts, j, pid, d);
        }
      }
    }
  }

  lemma {:induction false} LeaveReaches(hs: seq<Hub>, acts: seq<Action>, s: nat, j: nat, pid: nat, d: Device)
    requires IsRun(hs, acts) && s < j < |hs| && SameEpoch(hs, s, j) && LeaveSoFar(hs, acts, s, s + 1, pid, d)
    ensures LeaveSoFar(hs, acts, s, j, pid, d)
  {
    if s + 1 < j {
      var k := j - 1;
      EpochBetween(hs, acts, s, k, j);
      LeaveReaches(hs, acts, s, k, pid, d);
      LeaveStep(hs, acts, s, k, pid, d);
    }
  }

  /** The last step of a Leave unsubscribes the device. */
  lemma {:induction false} LeaveCloses(hs: seq<Hub>, acts: seq<Action>, i: nat, j: nat, pid: nat, d: Device)
    requires IsRun(hs, acts) && i <= j < |hs| && SameEpoch(hs, i, j)
    requires pid in hs[i].procs && hs[i].procs[pid] == Leave(d, LvClose)
    ensures || (pid in hs[j].procs && hs[j].procs[pid] == Leave(d, LvClose))
            || (exists m :: i <= m < j && DropsAt(hs, acts, m, pid, d))
  {
    if i < j {
      var k := j - 1;
      EpochBetween(hs, acts, i, k, j);
      LeaveCloses(hs, acts, i, k, pid, d);
      if pid in hs[k].procs && hs[k].procs[pid] == Leave(d, LvClose) {
        if StepBy(acts, k, pid) {
          Moves(hs, acts, k, pid);
          DropEffect(hs, acts, k, pid, Leave(d, LvClose), acts[k].ch, d);
        } else {
          Stands(hs, acts, k, pid);
        }
      }
    }
  }

  lemma LeaveEnds(hs: seq<Hub>, acts: seq<Action>, w: nat, j: nat, pid: nat, d: Device) returns (k: nat, m: nat)
    requires IsRun(hs, acts) && w < j < |hs| && SameEpoch(hs, w, j) && LeavesAt(hs, acts, w, pid, d)
    requires pid in hs[j].procs && hs[j].procs[pid] == Done
    ensures w < k < m < j && Announces(hs, acts, k, pid, DeviceRemoved(d)) && DropsAt(hs, acts, m, pid, d)
  {
    EpochBetween(hs, acts, w, w + 1, j);
    k := BroadcastIsOver(hs, acts, w + 1, j, pid, DeviceRemoved(d), Leave(d, LvClose));
    EpochBetween(hs, acts, w, k + 1, j);
    LeaveCloses(hs, acts, k + 1, j, pid, d);
    m :| k + 1 <= m < j && DropsAt(hs, acts, m, pid, d);
  }

  /**
   A Leave that is finished has deleted the row, told everyone else, and then unsubscribed
   the device; or a statement failed, or there was no such device.
   */
  lemma LeaveStory(hs: seq<Hub>, acts: seq<Action>, s: nat, j: nat, pid: nat, d: Device)
    requires IsRun(hs, acts) && s < j < |hs| && SameEpoch(hs, s, j) && acts[s] == Spawn(pid, Leave(d, LvGet))
    requires pid in hs[j].procs && hs[j].procs[pid] == Done
    ensures || (exists k :: s < k < j && FailsAt(hs, acts, k, pid, d))
            || (exists w, k, m :: && s < w < k < m < j && DeletesAt(hs, acts, w, pid, d)
                                  && Announces(hs, acts, k, pid, DeviceRemoved(d)) && DropsAt(hs, acts, m, pid, d))
  {
    Called(hs, acts, s, pid, Leave(d, LvGet));
    LeaveReaches(hs, acts, s, j, pid, d);
    if w :| s < w < j && LeavesAt(hs, acts, w, pid, d) {
      EpochBetween(hs, acts, s, w, j);
      var k, m := LeaveEnds(hs, acts, w, j, pid, d);
    }
  }
}
