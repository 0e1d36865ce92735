/**
 What holds in every run of the hub, for any number of handlers in any interleaving and
 any failures: shutdown leaves nothing online, a device that left is not resurrected, no
 channel is misused, the shutdown announcements arrive, recoveries are announced exactly
 once, and the monitor never demotes a device whose heartbeats keep coming.
 */
module HubTheorems {
  import opened DeviceTable
  import opened Subscribers
  import opened HubMachine
  import opened HubInvariant
  import opened HubSteps

  ghost predicate SameEpoch(hs: seq<Hub>, i: nat, j: nat)
    requires i < |hs| && j < |hs|
  {
    hs[i].epoch == hs[j].epoch
  }

  lemma {:induction false} EpochsGrow(hs: seq<Hub>, acts: seq<Action>, i: nat, j: nat)
    requires IsRun(hs, acts) && i <= j < |hs|
    ensures hs[i].epoch <= hs[j].epoch
  {
    if i < j {
      EpochsGrow(hs, acts, i, j - 1);
      assert StepAt(hs, acts, j - 1);
    }
  }

  /** Between two states of one hub process there is no crash. */
  lemma NoCrashWithin(hs: seq<Hub>, acts: seq<Action>, i: nat, j: nat)
    requires IsRun(hs, acts) && i < j < |hs| && SameEpoch(hs, i, j)
    ensures SameEpoch(hs, i, j - 1) && acts[j - 1] != Crash
  {
    EpochsGrow(hs, acts, i, j - 1);
    assert StepAt(hs, acts, j - 1);
  }

  // ---------------------------------------------------------------- shutdown

  lemma DrainedStep(h: Hub, a: Action)
    requires Inv(h) && Enabled(h, a) && a != Crash && h.sh.reg.draining
    ensures var h' := Apply(h, a);
            h'.sh.reg.draining && OnlineOf(h'.sh.table) <= OnlineOf(h.sh.table)
  {
    if a.Run? {
      var op := Exec(h.procs[a.pid], h.sh, a.ch).op;
      assert PcOk(a.pid, h.procs[a.pid], h.sh);
      ExecIsLegal(a.pid, h.procs[a.pid], h.sh, a.ch);
      OnlineOnlyShrinks(h.sh, a.pid, op);
      OpFrame(h.sh, a.pid, op);
    }
  }

  lemma DrainedStepAt(hs: seq<Hub>, acts: seq<Action>, k: nat)
    requires IsRun(hs, acts) && k < |acts| && acts[k] != Crash && hs[k].sh.reg.draining
    ensures hs[k + 1].sh.reg.draining && OnlineOf(hs[k + 1].sh.table) <= OnlineOf(hs[k].sh.table)
  {
    RunsKeepInv(hs, acts, k);
    assert StepAt(hs, acts, k);
    DrainedStep(hs[k], acts[k]);
  }

  /** Once Drain has returned, no row of the table becomes online in the rest of that hub's life. */
  lemma {:induction false} DrainedNeverGrows(hs: seq<Hub>, acts: seq<Action>, i: nat, j: nat)
    requires IsRun(hs, acts) && i <= j < |hs| && SameEpoch(hs, i, j)
    requires hs[i].sh.reg.draining
    ensures hs[j].sh.reg.draining && OnlineOf(hs[j].sh.table) <= OnlineOf(hs[i].sh.table)
  {
    if i < j {
      NoCrashWithin(hs, acts, i, j);
      DrainedNeverGrows(hs, acts, i, j - 1);
      DrainedStepAt(hs, acts, j - 1);
    }
  }

  /**
   Once the sweep's MarkAllOffline has succeeded, or the sweep found nothing online, no
   device is online in any later state of that hub, whatever was still in flight.
   */
  lemma SweptStaysOffline(hs: seq<Hub>, acts: seq<Action>, i: nat, j: nat, pid: nat)
    requires IsRun(hs, acts) && i <= j < |hs| && SameEpoch(hs, i, j)
    requires pid in hs[i].sh.hist.sweeps
             || (pid in hs[i].procs && hs[i].procs[pid].Stop? && hs[i].procs[pid].st == StClose(true))
    ensures OnlineOf(hs[j].sh.table) == {}
  {
    RunsKeepInv(hs, acts, i);
    if pid in hs[i].procs { assert PcOk(pid, hs[i].procs[pid], hs[i].sh); }
    DrainedNeverGrows(hs, acts, i, j);
  }

  /** However the previous hub process ended, the next one has no online row when it starts serving. */
  lemma ServesWithNothingOnline(hs: seq<Hub>, acts: seq<Action>, i: nat)
    requires IsRun(hs, acts) && i < |acts| && acts[i] == Serve
    ensures OnlineOf(hs[i].sh.table) == {} && OnlineOf(hs[i + 1].sh.table) == {}
  {
    RunsKeepInv(hs, acts, i);
    assert StepAt(hs, acts, i);
  }

  /**
   The sweep announces every row it demotes: once it has told its list, each device
   subscribed then has been offered the DeviceOffline of each demoted device, and its
   channel accepted it unless its buffer was full.
   */
  lemma SweepAnnouncesWhatItDemotes(hs: seq<Hub>, acts: seq<Action>, i: nat, pid: nat, d: Device, x: Device)
    requires IsRun(hs, acts) && i < |hs|
    requires pid in hs[i].procs && hs[i].procs[pid].Stop? && hs[i].procs[pid].st == StClose(true)
    requires pid in hs[i].sh.hist.sweeps && d in hs[i].sh.hist.sweeps[pid] && x in hs[i].sh.reg.subs
    ensures var sh := hs[i].sh;
            var o := Offer(pid, sh.reg.subs[x], DeviceOffline(d, BySweep));
            o.chan < |sh.reg.chans| && (o.event in sh.reg.chans[o.chan].sent || o in sh.hist.drops)
  {
    RunsKeepInv(hs, acts, i);
    var sh := hs[i].sh;
    assert PcOk(pid, hs[i].procs[pid], sh);
    assert d in hs[i].procs[pid].listed;
    assert Told(pid, DeviceOffline(d, BySweep), {}, sh);
  }

  /** The durable write precedes every sweep event: none is on a channel before a sweep has written. */
  lemma SweepWritesFirst(hs: seq<Hub>, acts: seq<Action>, i: nat, o: Offer)
    requires IsRun(hs, acts) && i < |hs| && o in hs[i].sh.hist.offers && IsSweep(o.event)
    ensures o.pid in hs[i].sh.hist.sweeps && OnlineOf(hs[i].sh.table) == {}
  {
    RunsKeepInv(hs, acts, i);
  }

  // ------------------------------------------------------------- subscribers

  /**
   In every reachable state: nothing was ever sent on, or closed while, a closed channel;
   open channels are exactly those in the map, and distinct devices hold distinct ones.
   */
  lemma ChannelsNeverMisused(hs: seq<Hub>, acts: seq<Action>, i: nat)
    requires IsRun(hs, acts) && i < |hs|
    ensures var r := hs[i].sh.reg;
            && !r.panicked
            && (forall c | 0 <= c < |r.chans| :: r.chans[c].open <==> c in r.subs.Values)
            && (forall d, e | d in r.subs && e in r.subs && d != e :: r.subs[d] != r.subs[e])
  {
    RunsKeepInv(hs, acts, i);
    var r := hs[i].sh.reg;
    forall c | 0 <= c < |r.chans| ensures r.chans[c].open <==> c in r.subs.Values {
      if c in r.subs.Values {
        var d :| d in r.subs && r.subs[d] == c;
      }
    }
  }

  lemma StepExtends(h: Hub, a: Action)
    requires Inv(h) && Enabled(h, a) && a != Crash
    ensures Extends(h.sh.reg, Apply(h, a).sh.reg)
    ensures h.sh.hist.allClosed ==> Apply(h, a).sh.hist.allClosed
  {
    if a.Run? {
      assert PcOk(a.pid, h.procs[a.pid], h.sh);
      ExecIsLegal(a.pid, h.procs[a.pid], h.sh, a.ch);
      OpFrame(h.sh, a.pid, Exec(h.procs[a.pid], h.sh, a.ch).op);
    }
  }

  lemma StepExtendsAt(hs: seq<Hub>, acts: seq<Action>, k: nat)
    requires IsRun(hs, acts) && k < |acts| && acts[k] != Crash
    ensures Extends(hs[k].sh.reg, hs[k + 1].sh.reg)
    ensures hs[k].sh.hist.allClosed ==> hs[k + 1].sh.hist.allClosed
  {
    RunsKeepInv(hs, acts, k);
    assert StepAt(hs, acts, k);
    StepExtends(hs[k], acts[k]);
  }

  /** A closed channel never reopens or receives another event, and what was sent is never rewritten. */
  lemma {:induction false} ChannelsOnlyMoveOn(hs: seq<Hub>, acts: seq<Action>, i: nat, j: nat)
    requires IsRun(hs, acts) && i <= j < |hs| && SameEpoch(hs, i, j)
    ensures Extends(hs[i].sh.reg, hs[j].sh.reg)
    ensures hs[i].sh.hist.allClosed ==> hs[j].sh.hist.allClosed
  {
    if i < j {
      NoCrashWithin(hs, acts, i, j);
      ChannelsOnlyMoveOn(hs, acts, i, j - 1);
      StepExtendsAt(hs, acts, j - 1);
      ExtendsCompose(hs[i].sh.reg, hs[j - 1].sh.reg, hs[j].sh.reg);
    }
  }

  /** After CloseAllSubscribers the map stays empty and every channel closed for the rest of that hub's life. */
  lemma ClosedStaysClosed(hs: seq<Hub>, acts: seq<Action>, i: nat, j: nat)
    requires IsRun(hs, acts) && i <= j < |hs| && SameEpoch(hs, i, j)
    requires hs[i].sh.hist.allClosed
    ensures hs[j].sh.reg.subs == map[] && forall c | 0 <= c < |hs[j].sh.reg.chans| :: !hs[j].sh.reg.chans[c].open
  {
    ChannelsOnlyMoveOn(hs, acts, i, j);
    RunsKeepInv(hs, acts, j);
  }

  /**
   A Subscribe handler sends events in the order its channel accepted them, and one that
   returns because its channel was closed has sent all of them; either way its channel is
   closed when it has returned.
   */
  lemma StreamsAreFaithful(hs: seq<Hub>, acts: seq<Action>, i: nat, pid: nat)
    requires IsRun(hs, acts) && i < |hs|
    requires pid in hs[i].procs && hs[i].procs[pid].Stream? && hs[i].procs[pid].sb != SbOpen
    ensures var pc := hs[i].procs[pid];
            && pc.c < |hs[i].sh.reg.chans|
            && pc.out <= hs[i].sh.reg.chans[pc.c].sent
            && (pc.sb.SbGone? ==> !hs[i].sh.reg.chans[pc.c].open)
            && (pc.sb == SbGone(true) ==> pc.out == hs[i].sh.reg.chans[pc.c].sent)
  {
    RunsKeepInv(hs, acts, i);
    var pc := hs[i].procs[pid];
    assert PcOk(pid, pc, hs[i].sh);
    assert ChanOk(hs[i].sh.reg.chans[pc.c]);
  }

  // -------------------------------------------------------------- departure

  /** No Register of `d` is under way and no Subscribe of `d` is about to open its channel. */
  ghost predicate Quiescent(h: Hub, d: Device) {
    forall p | p in h.procs ::
      && !(h.procs[p].Register? && h.procs[p].d == d)
      && !(h.procs[p].Stream? && h.procs[p].d == d && h.procs[p].sb == SbOpen)
  }

  /** No Subscribe of `d` is about to open its channel. */
  ghost predicate NotOpening(h: Hub, d: Device) {
    forall p | p in h.procs :: !(h.procs[p].Stream? && h.procs[p].d == d && h.procs[p].sb == SbOpen)
  }

  /** Nothing accepted in `r'` beyond `r` is a recovery announcement of `d`. */
  ghost predicate NoRecoverySince(r: Reg, r': Reg, d: Device) {
    && |r.chans| <= |r'.chans|
    && (forall c, k | 0 <= c < |r.chans| && |r.chans[c].sent| <= k < |r'.chans[c].sent| ::
          r'.chans[c].sent[k] != DeviceOnline(d, ByRecovery))
    && (forall c, k | |r.chans| <= c < |r'.chans| && 0 <= k < |r'.chans[c].sent| ::
          r'.chans[c].sent[k] != DeviceOnline(d, ByRecovery))
  }

  /** The operations that could bring `d` back. */
  predicate Revives(op: Op, d: Device) {
    || op == Locked(AddSub(d))
    || (op.Store? && op.store.WriteStatus? && op.store.d == d && op.store.status == Online)
    || (op.Store? && op.store.WritePromotion? && op.store.d == d)
    || (op.OfferTo? && op.e == DeviceOnline(d, ByRecovery))
  }

  /** The operations that could subscribe or announce `d` again. */
  predicate Readmits(op: Op, d: Device) {
    op == Locked(AddSub(d)) || (op.OfferTo? && op.e == DeviceOnline(d, ByRecovery))
  }

  lemma UnsubscribedExec(s: Shared, pid: nat, pc: Pc, ch: Choice, d: Device)
    requires BodyOk(pid, pc, s) && d !in s.reg.subs && !(pc.Stream? && pc.d == d && pc.sb == SbOpen)
    ensures !Readmits(Exec(pc, s, ch).op, d)
  {
  }

  lemma DepartedExec(s: Shared, pid: nat, pc: Pc, ch: Choice, d: Device)
    requires BodyOk(pid, pc, s) && d !in s.reg.subs
    requires !(pc.Register? && pc.d == d) && !(pc.Stream? && pc.d == d && pc.sb == SbOpen)
    ensures !Revives(Exec(pc, s, ch).op, d)
  {
  }

  lemma DepartedTable(s: Shared, pid: nat, op: Op, d: Device)
    requires !Revives(op, d)
    ensures IsOnline(ApplyOp(s, pid, op).table, d) ==> IsOnline(s.table, d)
  {
  }

  lemma DepartedSubs(r: Reg, op: LockOp, d: Device)
    requires d !in r.subs && op != AddSub(d)
    ensures d !in LockedReg(r, op).subs
  {
  }

  lemma ClosingKeepsSent(r: Reg, op: LockOp, c: nat)
    requires Consistent(r) && c < |r.chans| && !op.AddSub?
    ensures |LockedReg(r, op).chans| == |r.chans| && LockedReg(r, op).chans[c].sent == r.chans[c].sent
  {
  }

  lemma LockedKeepsSent(r: Reg, op: LockOp)
    requires Consistent(r)
    ensures var r' := LockedReg(r, op);
            && |r.chans| <= |r'.chans|
            && (forall c | 0 <= c < |r.chans| :: r'.chans[c].sent == r.chans[c].sent)
            && (forall c | |r.chans| <= c < |r'.chans| :: r'.chans[c].sent == [])
  {
    if op.AddSub? {
      SubscribedKeeps(r, op.d);
    } else {
      LockedKeepsReg(r, op);
      forall c | 0 <= c < |r.chans| ensures LockedReg(r, op).chans[c].sent == r.chans[c].sent {
        ClosingKeepsSent(r, op, c);
      }
    }
  }

  lemma DepartedReg(s: Shared, pid: nat, op: Op, d: Device)
    requires Consistent(s.reg) && d !in s.reg.subs && !Readmits(op, d)
    ensures var r' := ApplyOp(s, pid, op).reg; d !in r'.subs && NoRecoverySince(s.reg, r', d)
  {
    match op
    case Locked(locked) =>
      DepartedSubs(s.reg, locked, d);
      LockedKeepsSent(s.reg, locked);
    case Store(store) => assert ApplyOp(s, pid, op).reg == s.reg;
    case _ =>
  }

  lemma UnsubscribedStep(h: Hub, a: Action, d: Device)
    requires Inv(h) && Enabled(h, a) && d !in h.sh.reg.subs && NotOpening(h, d)
    ensures var h' := Apply(h, a);
            d !in h'.sh.reg.subs && (a != Crash ==> NoRecoverySince(h.sh.reg, h'.sh.reg, d))
  {
    if a.Run? {
      assert PcOk(a.pid, h.procs[a.pid], h.sh);
      UnsubscribedExec(h.sh, a.pid, h.procs[a.pid], a.ch, d);
      DepartedReg(h.sh, a.pid, Exec(h.procs[a.pid], h.sh, a.ch).op, d);
    }
  }

  lemma DepartedStep(h: Hub, a: Action, d: Device)
    requires Inv(h) && Enabled(h, a) && d !in h.sh.reg.subs && Quiescent(h, d)
    ensures var h' := Apply(h, a);
            d !in h'.sh.reg.subs && (IsOnline(h'.sh.table, d) ==> IsOnline(h.sh.table, d))
  {
    UnsubscribedStep(h, a, d);
    if a.Run? {
      assert PcOk(a.pid, h.procs[a.pid], h.sh);
      DepartedExec(h.sh, a.pid, h.procs[a.pid], a.ch, d);
      DepartedTable(h.sh, a.pid, Exec(h.procs[a.pid], h.sh, a.ch).op, d);
    }
  }

  lemma DepartedStepAt(hs: seq<Hub>, acts: seq<Action>, k: nat, d: Device)
    requires IsRun(hs, acts) && k < |acts| && d !in hs[k].sh.reg.subs && Quiescent(hs[k], d)
    ensures d !in hs[k + 1].sh.reg.subs
    ensures IsOnline(hs[k + 1].sh.table, d) ==> IsOnline(hs[k].sh.table, d)
  {
    RunsKeepInv(hs, acts, k);
    assert StepAt(hs, acts, k);
    DepartedStep(hs[k], acts[k], d);
  }

  /**
   After Deregister (or Leave, or a prune) has removed the subscription of `d`, and while
   no Register or Subscribe of `d` runs, nothing makes its row online, crashes included.
   */
  lemma {:induction false} DepartedStaysOffline(hs: seq<Hub>, acts: seq<Action>, i: nat, j: nat, d: Device)
    requires IsRun(hs, acts) && i <= j < |hs|
    requires d !in hs[i].sh.reg.subs && forall k | i <= k <= j :: Quiescent(hs[k], d)
    ensures d !in hs[j].sh.reg.subs
    ensures IsOnline(hs[j].sh.table, d) ==> IsOnline(hs[i].sh.table, d)
  {
    if i < j {
      DepartedStaysOffline(hs, acts, i, j - 1, d);
      DepartedStepAt(hs, acts, j - 1, d);
    }
  }

  /**
   Deregister's two writes, at steps `i` and `k` with anything in between: from then on
   the row stays offline until the device registers again.
   */
  lemma DeregisterIsFinal(hs: seq<Hub>, acts: seq<Action>, i: nat, k: nat, j: nat, pid: nat,
                          first: Choice, second: Choice, d: Device, ip: string, port: int)
    requires IsRun(hs, acts) && i < k < j < |hs|
    requires acts[i] == Run(pid, first) && pid in hs[i].procs && hs[i].procs[pid] == Deregister(d, ip, port, DrClose)
    requires acts[k] == Run(pid, second) && pid in hs[k].procs && hs[k].procs[pid] == Deregister(d, ip, port, DrWrite)
    requires !second.fail
    requires forall m | i < m <= j :: Quiescent(hs[m], d)
    ensures d !in OnlineOf(hs[j].sh.table)
  {
    DeregisterDrops(hs, acts, i, pid, first, d, ip, port);
    DepartedStaysOffline(hs, acts, i + 1, k, d);
    DepartedStepAt(hs, acts, k, d);
    DeregisterTakesOffline(hs, acts, k, pid, second, d, ip, port);
    DepartedStaysOffline(hs, acts, k + 1, j, d);
  }

  lemma DeregisterDrops(hs: seq<Hub>, acts: seq<Action>, i: nat, pid: nat, ch: Choice,
                        d: Device, ip: string, port: int)
    requires IsRun(hs, acts) && i < |acts| && acts[i] == Run(pid, ch)
    requires pid in hs[i].procs && hs[i].procs[pid] == Deregister(d, ip, port, DrClose)
    ensures d !in hs[i + 1].sh.reg.subs
  {
    RunsKeepInv(hs, acts, i);
    RemovedKeeps(hs[i].sh.reg, d);
    assert StepAt(hs, acts, i);
    assert hs[i + 1].sh.reg == Removed(hs[i].sh.reg, d);
  }

  lemma DeregisterTakesOffline(hs: seq<Hub>, acts: seq<Action>, k: nat, pid: nat, ch: Choice,
                               d: Device, ip: string, port: int)
    requires IsRun(hs, acts) && k < |acts| && acts[k] == Run(pid, ch) && !ch.fail
    requires pid in hs[k].procs && hs[k].procs[pid] == Deregister(d, ip, port, DrWrite)
    ensures !IsOnline(hs[k + 1].sh.table, d)
  {
    assert StepAt(hs, acts, k);
    assert hs[k + 1].sh.table == SetStatus(hs[k].sh.table, d, Offline, ip, port);
  }

  lemma NoRecoveryAtOnce(r: Reg, d: Device)
    ensures NoRecoverySince(r, r, d)
  {
  }

  lemma NoRecoveryInStep(r: Reg, h: Hub, a: Action, h': Hub, d: Device)
    requires Inv(h) && Next(h, a, h') && a != Crash && d !in h.sh.reg.subs && NotOpening(h, d)
    requires NoRecoverySince(r, h.sh.reg, d)
    ensures NoRecoverySince(r, h'.sh.reg, d) && d !in h'.sh.reg.subs
  {
    UnsubscribedStep(h, a, d);
    StepExtends(h, a);
    NoRecoveryComposes(r, h.sh.reg, h'.sh.reg, d);
  }

  lemma NoRecoveryStepAt(hs: seq<Hub>, acts: seq<Action>, r: Reg, j: nat, d: Device)
    requires IsRun(hs, acts) && 0 < j < |hs| && acts[j - 1] != Crash
    requires d !in hs[j - 1].sh.reg.subs && NotOpening(hs[j - 1], d) && NoRecoverySince(r, hs[j - 1].sh.reg, d)
    ensures NoRecoverySince(r, hs[j].sh.reg, d) && d !in hs[j].sh.reg.subs
  {
    RunsKeepInv(hs, acts, j - 1);
    assert StepAt(hs, acts, j - 1);
    NoRecoveryInStep(r, hs[j - 1], acts[j - 1], hs[j], d);
  }

  /**
   On every channel, each recovery announcement of `d` precedes whatever is sent after the
   subscription was removed, and so precedes Deregister's own DeviceOffline. Registers of
   the device may run meanwhile; only a new Subscribe readmits it.
   */
  lemma {:induction false} NoRecoveryAfterDeparture(hs: seq<Hub>, acts: seq<Action>, i: nat, j: nat, d: Device)
    requires IsRun(hs, acts) && i <= j < |hs| && SameEpoch(hs, i, j)
    requires d !in hs[i].sh.reg.subs && forall k | i <= k <= j :: NotOpening(hs[k], d)
    ensures NoRecoverySince(hs[i].sh.reg, hs[j].sh.reg, d) && d !in hs[j].sh.reg.subs
  {
    if i < j {
      NoCrashWithin(hs, acts, i, j);
      NoRecoveryAfterDeparture(hs, acts, i, j - 1, d);
      NoRecoveryStepAt(hs, acts, hs[i].sh.reg, j, d);
    } else {
      NoRecoveryAtOnce(hs[i].sh.reg, d);
    }
  }

  lemma NoRecoveryComposes(r: Reg, r': Reg, r'': Reg, d: Device)
    requires NoRecoverySince(r, r', d) && NoRecoverySince(r', r'', d) && Extends(r', r'')
    ensures NoRecoverySince(r, r'', d)
  {
    forall c, k | 0 <= c < |r.chans| && |r.chans[c].sent| <= k < |r''.chans[c].sent|
      ensures r''.chans[c].sent[k] != DeviceOnline(d, ByRecovery)
    {
      if k < |r'.chans[c].sent| { assert r''.chans[c].sent[k] == r'.chans[c].sent[k]; }
    }
    forall c, k | |r.chans| <= c < |r''.chans| && 0 <= k < |r''.chans[c].sent|
      ensures r''.chans[c].sent[k] != DeviceOnline(d, ByRecovery)
    {
      if c < |r'.chans| && k < |r'.chans[c].sent| { assert r''.chans[c].sent[k] == r'.chans[c].sent[k]; }
    }
  }

  // --------------------------------------------------------------- recovery

  /**
   When its handler has finished, a heartbeat that flipped its device's row has offered
   its DeviceOnline exactly once to every channel that was open to another device at the
   flip, and to no other channel; one that flipped nothing has announced nothing.
   */
  lemma RecoveryAnnouncedExactlyOnce(hs: seq<Hub>, acts: seq<Action>, i: nat, pid: nat, c: nat, d: Device)
    requires IsRun(hs, acts) && i < |hs| && pid in hs[i].procs && hs[i].procs[pid].Done?
    ensures var h := hs[i].sh.hist;
            h.offers[Offer(pid, c, DeviceOnline(d, ByRecovery))] ==
            if pid in h.flips && h.flips[pid].dev == d && c in h.flips[pid].audience then 1 else 0
  {
    RunsKeepInv(hs, acts, i);
    assert PcOk(pid, hs[i].procs[pid], hs[i].sh);
    assert EntryOk(pid, hs[i].procs[pid], hs[i].sh, c, d);
  }

  ghost function FlipsOf(h: Hub, d: Device): set<nat> {
    set p | p in h.sh.hist.flips && h.sh.hist.flips[p].dev == d
  }

  /** The only two statements that turn a row online, and who runs them. */
  lemma RevivingOp(s: Shared, pid: nat, op: Op, d: Device)
    requires !IsOnline(s.table, d) && IsOnline(ApplyOp(s, pid, op).table, d)
    ensures op.Store? && (op.store.WritePromotion? || op.store.WriteStatus?) && op.store.d == d
    ensures op.store.WriteStatus? ==> op.store.status == Online
    ensures op.store.WritePromotion? ==> Promotable(s.table, d)
  {
  }

  predicate TurnsOnline(pc: Pc, d: Device) {
    (pc.Heartbeat? && pc.hb == HbPromote && pc.d == d) || (pc.Register? && pc.rg == RgWrite && pc.d == d)
  }

  lemma RevivingExec(s: Shared, pc: Pc, ch: Choice, d: Device)
    requires var op := Exec(pc, s, ch).op;
             op.Store? && ((op.store.WritePromotion? && op.store.d == d)
                           || (op.store.WriteStatus? && op.store.d == d && op.store.status == Online))
    ensures TurnsOnline(pc, d) && (pc.Heartbeat? <==> Exec(pc, s, ch).op.store.WritePromotion?)
  {
  }

  /** A row that a step turns online is turned by a heartbeat, which then records its flip, or by a Register. */
  lemma RevivalStep(h: Hub, pid: nat, ch: Choice, d: Device)
    requires Inv(h) && Enabled(h, Run(pid, ch))
    ensures !IsOnline(h.sh.table, d) && IsOnline(Apply(h, Run(pid, ch)).sh.table, d) ==>
              && TurnsOnline(h.procs[pid], d)
              && (h.procs[pid].Heartbeat? ==> pid !in FlipsOf(h, d) && pid in FlipsOf(Apply(h, Run(pid, ch)), d))
  {
    if !IsOnline(h.sh.table, d) && IsOnline(Apply(h, Run(pid, ch)).sh.table, d) {
      RevivedBy(h, pid, ch, d);
    }
  }

  lemma RevivedBy(h: Hub, pid: nat, ch: Choice, d: Device)
    requires pid in h.procs && PcOk(pid, h.procs[pid], h.sh)
    requires !IsOnline(h.sh.table, d) && IsOnline(Apply(h, Run(pid, ch)).sh.table, d)
    ensures TurnsOnline(h.procs[pid], d)
    ensures h.procs[pid].Heartbeat? ==> pid !in FlipsOf(h, d) && pid in FlipsOf(Apply(h, Run(pid, ch)), d)
  {
    var pc := h.procs[pid];
    var op := Exec(pc, h.sh, ch).op;
    RevivingOp(h.sh, pid, op, d);
    RevivingExec(h.sh, pc, ch, d);
    assert PcOk(pid, pc, h.sh);
    if pc.Heartbeat? {
      RecordedFlip(h.sh, pid, op);
      assert LedgerOk(pid, pc, h.sh);
      assert pid !in h.sh.hist.flips;
    }
  }

  lemma RecordedFlip(s: Shared, pid: nat, op: Op)
    requires op.Store? && op.store.WritePromotion? && Promotable(s.table, op.store.d)
    ensures ApplyOp(s, pid, op).hist.flips == s.hist.flips[pid := Flip(op.store.d, AudienceOf(s.reg, op.store.d))]
  {
  }

  lemma FlipsOnlyGrow(h: Hub, a: Action, d: Device)
    requires Inv(h) && Enabled(h, a) && a != Crash
    ensures var h' := Apply(h, a);
            && FlipsOf(h, d) <= FlipsOf(h', d)
            && (FlipsOf(h', d) != FlipsOf(h, d) ==>
                  && a.Run? && a.pid in h.procs && h.procs[a.pid].Heartbeat?
                  && FlipsOf(h', d) == FlipsOf(h, d) + {a.pid}
                  && !IsOnline(h.sh.table, d) && IsOnline(h'.sh.table, d))
  {
    if a.Run? {
      var pc := h.procs[a.pid];
      assert PcOk(a.pid, pc, h.sh);
      var h' := Apply(h, a);
      assert pc.Heartbeat? && pc.hb == HbPromote ==> a.pid !in h.sh.hist.flips;
      if h'.sh.hist.flips != h.sh.hist.flips {
        PromotionStep(h, a.pid, a.ch);
      }
    }
  }

  /**
   A flip is recorded for a device exactly when a heartbeat's write turns its offline row
   online; and nothing turns a row online but that write of a heartbeat and a Register's.
   */
  lemma FlipStep(h: Hub, a: Action, d: Device)
    requires Inv(h) && Enabled(h, a) && a != Crash
    ensures var h' := Apply(h, a);
            && (FlipsOf(h', d) != FlipsOf(h, d) <==>
                  && !IsOnline(h.sh.table, d) && IsOnline(h'.sh.table, d)
                  && a.Run? && a.pid in h.procs && h.procs[a.pid].Heartbeat?)
            && FlipsOf(h', d) == (if FlipsOf(h', d) != FlipsOf(h, d) then FlipsOf(h, d) + {a.pid} else FlipsOf(h, d))
            && (!IsOnline(h.sh.table, d) && IsOnline(h'.sh.table, d) ==>
                  a.Run? && a.pid in h.procs && TurnsOnline(h.procs[a.pid], d))
  {
    FlipsOnlyGrow(h, a, d);
    if !IsOnline(h.sh.table, d) && IsOnline(Apply(h, a).sh.table, d) {
      TurnedByARun(h, a, d);
      RevivalStep(h, a.pid, a.ch, d);
    }
  }

  lemma TurnedByARun(h: Hub, a: Action, d: Device)
    requires Enabled(h, a) && !IsOnline(h.sh.table, d) && IsOnline(Apply(h, a).sh.table, d)
    ensures a.Run?
  {
  }

  lemma FlippingOp(s: Shared, pid: nat, op: Op)
    requires ApplyOp(s, pid, op).hist.flips != s.hist.flips
    ensures op.Store? && op.store.WritePromotion? && Promotable(s.table, op.store.d)
    ensures ApplyOp(s, pid, op).hist.flips == s.hist.flips[pid := Flip(op.store.d, AudienceOf(s.reg, op.store.d))]
    ensures IsOnline(ApplyOp(s, pid, op).table, op.store.d)
  {
  }

  lemma PromotionStep(h: Hub, pid: nat, ch: Choice)
    requires pid in h.procs && LedgerOk(pid, h.procs[pid], h.sh)
    requires Apply(h, Run(pid, ch)).sh.hist.flips != h.sh.hist.flips
    ensures var pc := h.procs[pid];
            var sh' := Apply(h, Run(pid, ch)).sh;
            && pc.Heartbeat? && pc.hb == HbPromote && pid !in h.sh.hist.flips
            && sh'.hist.flips == h.sh.hist.flips[pid := Flip(pc.d, AudienceOf(h.sh.reg, pc.d))]
            && !IsOnline(h.sh.table, pc.d) && IsOnline(sh'.table, pc.d)
  {
    FlippingOp(h.sh, pid, Exec(h.procs[pid], h.sh, ch).op);
  }

  lemma FlipStepAt(hs: seq<Hub>, acts: seq<Action>, k: nat, d: Device)
    requires IsRun(hs, acts) && k < |acts| && acts[k] != Crash
    ensures FlipsOf(hs[k], d) <= FlipsOf(hs[k + 1], d)
    ensures FlipsOf(hs[k + 1], d) != FlipsOf(hs[k], d) ==>
              && acts[k].Run? && FlipsOf(hs[k + 1], d) == FlipsOf(hs[k], d) + {acts[k].pid}
              && !IsOnline(hs[k].sh.table, d) && IsOnline(hs[k + 1].sh.table, d)
  {
    RunsKeepInv(hs, acts, k);
    assert StepAt(hs, acts, k);
    FlipsOnlyGrow(hs[k], acts[k], d);
  }

  /** The row of `d` never leaves online between states `i` and `j`. */
  ghost predicate NeverDemoted(hs: seq<Hub>, i: nat, j: nat, d: Device)
    requires i <= j < |hs|
  {
    forall k | i <= k < j :: IsOnline(hs[k].sh.table, d) ==> IsOnline(hs[k + 1].sh.table, d)
  }

  /**
   However many heartbeats and Registers of one offline device race, at most one recovery
   wins per outage, and none wins once the row is online.
   */
  lemma {:induction false} AtMostOneRecoveryPerOutage(hs: seq<Hub>, acts: seq<Action>, i: nat, j: nat, d: Device)
    requires IsRun(hs, acts) && i <= j < |hs| && SameEpoch(hs, i, j) && NeverDemoted(hs, i, j, d)
    ensures FlipsOf(hs[i], d) <= FlipsOf(hs[j], d)
    ensures |FlipsOf(hs[j], d) - FlipsOf(hs[i], d)| <= 1
    ensures IsOnline(hs[i].sh.table, d) ==> FlipsOf(hs[j], d) == FlipsOf(hs[i], d) && IsOnline(hs[j].sh.table, d)
    ensures FlipsOf(hs[j], d) != FlipsOf(hs[i], d) ==> IsOnline(hs[j].sh.table, d)
  {
    if i < j {
      NoCrashWithin(hs, acts, i, j);
      AtMostOneRecoveryPerOutage(hs, acts, i, j - 1, d);
      FlipStepAt(hs, acts, j - 1, d);
      assert IsOnline(hs[j - 1].sh.table, d) ==> IsOnline(hs[j].sh.table, d);
      if FlipsOf(hs[j], d) != FlipsOf(hs[j - 1], d) {
        AtMostOneMore(FlipsOf(hs[i], d), FlipsOf(hs[j], d), acts[j - 1].pid);
      }
    }
  }

  lemma AtMostOneMore(f: set<nat>, f': set<nat>, pid: nat)
    requires f' == f + {pid}
    ensures f <= f' && |f' - f| <= 1
  {
    assert f' - f == if pid in f then {} else {pid};
  }

  // ---------------------------------------------------------------- monitor

  /** Process `pid` is a monitor sweep about to write the demotion of `d`, which is online and stale. */
  ghost predicate Demotes(h: Hub, a: Action, d: Device) {
    && a.Run? && a.pid in h.procs && h.procs[a.pid].Sweep? && h.procs[a.pid].mn.MnEach?
    && IsOnline(h.sh.table, d) && !IsOnline(Apply(h, a).sh.table, d)
  }

  /**
   A demotion written by a sweep begun at time s means that no heartbeat of the device
   was recorded from s - timeout up to the write.
   */
  lemma DemotionIsJustified(hs: seq<Hub>, acts: seq<Action>, i: nat, d: Device)
    requires IsRun(hs, acts) && i < |acts| && Demotes(hs[i], acts[i], d)
    ensures var sweep := hs[i].procs[acts[i].pid];
            && sweep.begun <= hs[i].sh.clock
            && d in hs[i].sh.hist.beats
            && forall k | 0 <= k < |hs[i].sh.hist.beats[d]| :: hs[i].sh.hist.beats[d][k] < sweep.begun - sweep.timeout
  {
    RunsKeepInv(hs, acts, i);
    assert PcOk(acts[i].pid, hs[i].procs[acts[i].pid], hs[i].sh);
    assert BeatsOk(hs[i].sh.table, hs[i].sh.hist.beats, hs[i].sh.clock);
  }

  lemma BeatsOp(s: Shared, pid: nat, op: Op, d: Device)
    requires d in s.hist.beats
    ensures var s' := ApplyOp(s, pid, op);
            && d in s'.hist.beats && s'.clock == s.clock
            && (s'.hist.beats[d] == s.hist.beats[d] || s'.hist.beats[d] == s.hist.beats[d] + [s.clock])
  {
  }

  lemma BeatsStep(h: Hub, a: Action, d: Device)
    requires Enabled(h, a) && d in h.sh.hist.beats
    ensures var h' := Apply(h, a);
            && d in h'.sh.hist.beats && h.sh.clock <= h'.sh.clock
            && (h'.sh.hist.beats[d] == h.sh.hist.beats[d]
                || h'.sh.hist.beats[d] == h.sh.hist.beats[d] + [h.sh.clock])
  {
    if a.Run? {
      BeatsOp(h.sh, a.pid, Exec(h.procs[a.pid], h.sh, a.ch).op, d);
    }
  }

  lemma {:induction false} BeatsGrow(hs: seq<Hub>, acts: seq<Action>, i: nat, j: nat, d: Device)
    requires IsRun(hs, acts) && i <= j < |hs| && d in hs[i].sh.hist.beats
    ensures d in hs[j].sh.hist.beats && hs[i].sh.hist.beats[d] <= hs[j].sh.hist.beats[d]
    ensures hs[i].sh.clock <= hs[j].sh.clock
    ensures forall k | |hs[i].sh.hist.beats[d]| <= k < |hs[j].sh.hist.beats[d]| ::
              hs[i].sh.clock <= hs[j].sh.hist.beats[d][k]
  {
    if i < j {
      BeatsGrow(hs, acts, i, j - 1, d);
      assert StepAt(hs, acts, j - 1);
      BeatsStep(hs[j - 1], acts[j - 1], d);
    }
  }

  /** Recorded heartbeats are at most `timeout` apart, and the last at most `timeout` before `now`. */
  ghost predicate Steady(beats: seq<int>, timeout: int, now: int) {
    && beats != []
    && (forall k | 0 < k < |beats| :: beats[k] - beats[k - 1] <= timeout)
    && now - beats[|beats| - 1] <= timeout
  }

  /** A device whose recorded heartbeats are never more than the timeout apart is never demoted by the monitor. */
  lemma SteadyDeviceNeverDemoted(hs: seq<Hub>, acts: seq<Action>, i: nat, d: Device)
    requires IsRun(hs, acts) && i < |acts| && Demotes(hs[i], acts[i], d)
    requires d in hs[|acts|].sh.hist.beats
    ensures !Steady(hs[|acts|].sh.hist.beats[d], hs[i].procs[acts[i].pid].timeout, hs[|acts|].sh.clock)
  {
    DemotionIsJustified(hs, acts, i, d);
    BeatsGrow(hs, acts, i, |acts|, d);
    RunsKeepInv(hs, acts, i);
    var before, all := hs[i].sh.hist.beats[d], hs[|acts|].sh.hist.beats[d];
    var n := |before|;
    assert all[n - 1] == before[n - 1];
    if n < |all| {
      assert all[n] - all[n - 1] > hs[i].procs[acts[i].pid].timeout;
    }
  }
}
