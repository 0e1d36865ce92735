/** Every step establishes the next assertion of the process that takes it. */
module HubSteps {
  import opened DeviceTable
  import opened Subscribers
  import opened HubMachine
  import opened HubInvariant

  /** The shared state after the step. */
  function After(pid: nat, pc: Pc, s: Shared, ch: Choice): Shared {
    ApplyOp(s, pid, Exec(pc, s, ch).op)
  }

  lemma StoreKeepsReg(s: Shared, pid: nat, op: Op)
    requires op.Store? || op.Nop? || op.RLock? || op.RUnlock?
    ensures ApplyOp(s, pid, op).reg == s.reg && ApplyOp(s, pid, op).clock == s.clock
  {
  }

  lemma HeartbeatEstablishes(pid: nat, pc: Pc, s: Shared, ch: Choice)
    requires pc.Heartbeat? && PlainOk(pid, pc, s)
    ensures BodyOk(pid, Exec(pc, s, ch).pc, After(pid, pc, s, ch))
  {
    StoreKeepsReg(s, pid, Exec(pc, s, ch).op);
  }

  lemma RegisterEstablishes(pid: nat, pc: Pc, s: Shared, ch: Choice)
    requires pc.Register? && PlainOk(pid, pc, s)
    ensures BodyOk(pid, Exec(pc, s, ch).pc, After(pid, pc, s, ch))
  {
    StoreKeepsReg(s, pid, Exec(pc, s, ch).op);
  }

  lemma DepartEstablishes(pid: nat, pc: Pc, s: Shared, ch: Choice)
    requires pc.Deregister? || pc.Leave? || pc.Prune? || pc.Join?
    ensures BodyOk(pid, Exec(pc, s, ch).pc, After(pid, pc, s, ch))
  {
  }

  lemma OpenEstablishes(pid: nat, pc: Pc, s: Shared, ch: Choice)
    requires Consistent(s.reg) && HandlersOk(s.reg, s.hist.handlers)
    requires pc.Stream? && pc.sb == SbOpen
    ensures BodyOk(pid, Exec(pc, s, ch).pc, After(pid, pc, s, ch))
  {
    if !s.reg.draining {
      SubscribedKeeps(s.reg, pc.d);
      assert Subscribed(s.reg, pc.d).chans[|s.reg.chans|] == FRESH;
    }
  }

  lemma ReceiveEstablishes(pid: nat, pc: Pc, s: Shared, ch: Choice)
    requires Consistent(s.reg)
    requires pc.Stream? && pc.sb == SbWait && PlainOk(pid, pc, s) && MayStream(pc, s.reg, ch)
    ensures BodyOk(pid, Exec(pc, s, ch).pc, After(pid, pc, s, ch))
  {
    assert ChanOk(s.reg.chans[pc.c]);
  }

  /** Unsubscribing leaves the handler's own channel closed, whoever closed it. */
  lemma EndEstablishes(pid: nat, pc: Pc, s: Shared, ch: Choice)
    requires Consistent(s.reg) && HandlersOk(s.reg, s.hist.handlers)
    requires pc.Stream? && pc.sb.SbEnd? && PlainOk(pid, pc, s)
    ensures BodyOk(pid, Exec(pc, s, ch).pc, After(pid, pc, s, ch))
  {
    var s' := After(pid, pc, s, ch);
    assert s'.reg == Unsubscribed(s.reg, pc.d, pc.c);
    if s.reg.chans[pc.c].open {
      var x :| x in s.reg.subs && s.reg.subs[x] == pc.c;
      assert x == pc.d;
    }
    assert !s'.reg.chans[pc.c].open;
  }

  lemma StreamEstablishes(pid: nat, pc: Pc, s: Shared, ch: Choice)
    requires SharedOk(s) && pc.Stream? && PlainOk(pid, pc, s) && MayStream(pc, s.reg, ch)
    ensures BodyOk(pid, Exec(pc, s, ch).pc, After(pid, pc, s, ch))
  {
    match pc.sb
    case SbOpen => OpenEstablishes(pid, pc, s, ch);
    case SbWait => ReceiveEstablishes(pid, pc, s, ch);
    case SbEnd(_) => EndEstablishes(pid, pc, s, ch);
    case SbReady => assert After(pid, pc, s, ch) == s;
    case SbSend(_) => assert After(pid, pc, s, ch) == s;
    case SbGone(_) =>
  }

  lemma SweepEstablishes(pid: nat, pc: Pc, s: Shared, ch: Choice)
    requires pc.Sweep? && PlainOk(pid, pc, s)
    ensures BodyOk(pid, Exec(pc, s, ch).pc, After(pid, pc, s, ch))
  {
    StoreKeepsReg(s, pid, Exec(pc, s, ch).op);
  }

  lemma StopEstablishes(pid: nat, pc: Pc, s: Shared, ch: Choice)
    requires SweepHistOk(s) && pc.Stop? && PlainOk(pid, pc, s) && MayStep(pc, s, ch)
    ensures BodyOk(pid, Exec(pc, s, ch).pc, After(pid, pc, s, ch))
  {
    match pc.st
    case StTell(told) =>
      if told == |pc.listed| {
        forall d | d in pc.listed ensures Told(pid, DeviceOffline(d, BySweep), {}, s) {
          var k :| 0 <= k < |pc.listed| && pc.listed[k] == d;
        }
      }
    case StClose(quiet) => assert After(pid, pc, s, ch).reg == AllClosed(s.reg);
    case _ =>
  }

  lemma WantEstablishes(pid: nat, pc: Pc, s: Shared, ch: Choice)
    requires pc.Want? && WantOk(pid, pc, s)
    ensures BodyOk(pid, Exec(pc, s, ch).pc, After(pid, pc, s, ch))
  {
  }

  lemma OfferKeepsNext(pid: nat, e: Event, next: Pc, s: Shared, d: Device)
    requires Consistent(s.reg) && NextOk(pid, e, next, s) && d in s.reg.subs
    ensures NextOk(pid, e, next, ApplyOp(s, pid, OfferTo(d, e)))
  {
    var s' := ApplyOp(s, pid, OfferTo(d, e));
    OfferedKeeps(s.reg, d, e);
    if next.Stop? {
      forall k | 0 <= k < next.st.told - 1 ensures Told(pid, DeviceOffline(next.listed[k], BySweep), {}, s') {
        assert Told(pid, DeviceOffline(next.listed[k], BySweep), {}, s);
      }
    }
  }

  lemma OfferTells(pid: nat, e: Event, left: set<Device>, s: Shared, d: Device)
    requires Consistent(s.reg) && d in s.reg.subs && Told(pid, e, left, s)
    ensures Told(pid, e, left - {d}, ApplyOp(s, pid, OfferTo(d, e)))
  {
    OfferedKeeps(s.reg, d, e);
  }

  lemma OfferEstablishes(pid: nat, pc: Pc, s: Shared, ch: Choice)
    requires Consistent(s.reg) && pc.Sending? && SendingOk(pid, pc, s) && ch.who in pc.left
    ensures BodyOk(pid, Exec(pc, s, ch).pc, After(pid, pc, s, ch))
  {
    var s' := After(pid, pc, s, ch);
    assert s' == ApplyOp(s, pid, OfferTo(ch.who, pc.e));
    OfferKeepsNext(pid, pc.e, pc.next, s, ch.who);
    OfferedKeeps(s.reg, ch.who, pc.e);
    if IsSweep(pc.e) {
      OfferTells(pid, pc.e, pc.left, s, ch.who);
    }
  }

  /** The last send of a sweep announcement completes one more device of the list. */
  lemma UnlockEstablishes(pid: nat, pc: Pc, s: Shared, ch: Choice)
    requires pc.Sending? && SendingOk(pid, pc, s) && pc.left == {}
    ensures BodyOk(pid, Exec(pc, s, ch).pc, After(pid, pc, s, ch))
  {
    var s' := After(pid, pc, s, ch);
    var next := pc.next;
    if next.Stop? {
      forall k | 0 <= k < next.st.told ensures Told(pid, DeviceOffline(next.listed[k], BySweep), {}, s') {
        if k < next.st.told - 1 {
          assert Told(pid, DeviceOffline(next.listed[k], BySweep), {}, s);
        } else {
          assert pc.e == DeviceOffline(next.listed[k], BySweep);
        }
      }
    }
  }

  lemma ExecEstablishes(pid: nat, pc: Pc, s: Shared, ch: Choice)
    requires SharedOk(s) && BodyOk(pid, pc, s) && MayStep(pc, s, ch)
    ensures BodyOk(pid, Exec(pc, s, ch).pc, After(pid, pc, s, ch))
  {
    match pc
    case Heartbeat(_, _, _, _) => HeartbeatEstablishes(pid, pc, s, ch);
    case Register(_, _, _, _) => RegisterEstablishes(pid, pc, s, ch);
    case Stream(_, _, _, _) => StreamEstablishes(pid, pc, s, ch);
    case Sweep(_, _, _) => SweepEstablishes(pid, pc, s, ch);
    case Stop(_, _) => StopEstablishes(pid, pc, s, ch);
    case Want(_, _, _) => WantEstablishes(pid, pc, s, ch);
    case Sending(_, left, _) =>
      if left == {} { UnlockEstablishes(pid, pc, s, ch); } else { OfferEstablishes(pid, pc, s, ch); }
    case Release(_) =>
    case Done =>
    case _ => DepartEstablishes(pid, pc, s, ch);
  }

  /** The lock bookkeeping follows the program counter. */
  lemma ExecTracksLock(pid: nat, pc: Pc, s: Shared, ch: Choice)
    requires BodyOk(pid, pc, s) && (HoldsLock(pc) <==> pid in s.readers)
    ensures var s' := After(pid, pc, s, ch);
            && (HoldsLock(Exec(pc, s, ch).pc) <==> pid in s'.readers)
            && (forall p | p != pid :: p in s'.readers <==> p in s.readers)
  {
  }

  // The recovery ledger, case by case.

  lemma LedgerIdle(pid: nat, pc: Pc, pc': Pc, s: Shared, s': Shared)
    requires LedgerOk(pid, pc, s) && pid !in s.hist.flips && pid !in s'.hist.flips
    requires pc'.Sending? ==> !IsRecovery(pc'.e)
    requires forall c: nat, d :: s'.hist.offers[Offer(pid, c, DeviceOnline(d, ByRecovery))]
                                 == s.hist.offers[Offer(pid, c, DeviceOnline(d, ByRecovery))]
    ensures LedgerOk(pid, pc', s')
  {
    forall c: nat, d ensures EntryOk(pid, pc', s', c, d) {
      assert EntryOk(pid, pc, s, c, d);
    }
  }

  lemma LedgerPromoted(pid: nat, pc: Pc, s: Shared, ch: Choice)
    requires pc.Heartbeat? && pc.hb == HbPromote && LedgerOk(pid, pc, s) && Consistent(s.reg)
    requires !ch.fail && Promotable(s.table, pc.d)
    ensures LedgerOk(pid, Exec(pc, s, ch).pc, After(pid, pc, s, ch))
  {
    var pc' := Exec(pc, s, ch).pc;
    var s' := After(pid, pc, s, ch);
    assert s'.reg == s.reg && s'.hist.offers == s.hist.offers;
    assert s'.hist.flips[pid] == Flip(pc.d, AudienceOf(s.reg, pc.d));
    forall c: nat, d ensures EntryOk(pid, pc', s', c, d) {
      assert EntryOk(pid, pc, s, c, d);
      if c in AudienceOf(s.reg, pc.d) {
        var x :| x in s.reg.subs && x != pc.d && s.reg.subs[x] == c;
        assert x in pc'.left;
      }
    }
  }

  lemma LedgerOffered(pid: nat, pc: Pc, s: Shared, ch: Choice)
    requires pc.Sending? && IsRecovery(pc.e) && LedgerOk(pid, pc, s) && Consistent(s.reg)
    requires ch.who in pc.left && pc.left <= s.reg.subs.Keys
    ensures LedgerOk(pid, Exec(pc, s, ch).pc, After(pid, pc, s, ch))
  {
    var pc' := Exec(pc, s, ch).pc;
    var s' := After(pid, pc, s, ch);
    OfferedKeeps(s.reg, ch.who, pc.e);
    var paid := s.reg.subs[ch.who];
    assert s'.hist.offers == s.hist.offers + multiset{Offer(pid, paid, pc.e)};
    forall c: nat, d ensures EntryOk(pid, pc', s', c, d) {
      assert EntryOk(pid, pc, s, c, d);
      if c == paid {
        assert Owes(pc, s.reg, c) && !Owes(pc', s'.reg, c);
      } else {
        assert Owes(pc, s.reg, c) ==> Owes(pc', s'.reg, c);
      }
    }
  }

  lemma LedgerFinished(pid: nat, pc: Pc, s: Shared, ch: Choice)
    requires pc.Sending? && IsRecovery(pc.e) && LedgerOk(pid, pc, s) && pc.next == Done && pc.left == {}
    ensures LedgerOk(pid, Exec(pc, s, ch).pc, After(pid, pc, s, ch))
  {
    forall c: nat, d ensures EntryOk(pid, Done, After(pid, pc, s, ch), c, d) {
      assert EntryOk(pid, pc, s, c, d);
    }
  }

  predicate IsRecoveryOp(s: Shared, op: Op) {
    || (op.Store? && op.store.WritePromotion? && Promotable(s.table, op.store.d))
    || (op.OfferTo? && IsRecovery(op.e))
  }

  lemma OtherOpsKeepLedger(s: Shared, pid: nat, op: Op, c: nat, d: Device)
    requires !IsRecoveryOp(s, op)
    ensures var h' := ApplyOp(s, pid, op).hist;
            && h'.flips == s.hist.flips
            && h'.offers[Offer(pid, c, DeviceOnline(d, ByRecovery))]
               == s.hist.offers[Offer(pid, c, DeviceOnline(d, ByRecovery))]
  {
    match op
    case Store(store) => OtherStoresKeepLedger(s, pid, store);
    case OfferTo(_, _) =>
    case _ =>
  }

  lemma OtherStoresKeepLedger(s: Shared, pid: nat, op: StoreOp)
    requires !IsRecoveryOp(s, Store(op))
    ensures ApplyStore(s, pid, op).hist.flips == s.hist.flips && ApplyStore(s, pid, op).hist.offers == s.hist.offers
  {
  }

  lemma LedgerOther(pid: nat, pc: Pc, s: Shared, ch: Choice)
    requires LedgerOk(pid, pc, s) && BodyOk(pid, pc, s) && MayStep(pc, s, ch)
    requires !IsRecoveryOp(s, Exec(pc, s, ch).op) && !(pc.Sending? && IsRecovery(pc.e))
    ensures LedgerOk(pid, Exec(pc, s, ch).pc, After(pid, pc, s, ch))
  {
    var op := Exec(pc, s, ch).op;
    var pc' := Exec(pc, s, ch).pc;
    forall c: nat, d {
      OtherOpsKeepLedger(s, pid, op, c, d);
    }
    assert pc'.Sending? ==> !IsRecovery(pc'.e);
    LedgerIdle(pid, pc, pc', s, ApplyOp(s, pid, op));
  }

  lemma ExecKeepsLedger(pid: nat, pc: Pc, s: Shared, ch: Choice)
    requires SharedOk(s) && PcOk(pid, pc, s) && MayStep(pc, s, ch)
    ensures LedgerOk(pid, Exec(pc, s, ch).pc, After(pid, pc, s, ch))
  {
    if pc.Heartbeat? && pc.hb == HbPromote && !ch.fail && Promotable(s.table, pc.d) {
      LedgerPromoted(pid, pc, s, ch);
    } else if pc.Sending? && IsRecovery(pc.e) {
      if pc.left == {} {
        LedgerFinished(pid, pc, s, ch);
      } else {
        LedgerOffered(pid, pc, s, ch);
      }
    } else {
      LedgerOther(pid, pc, s, ch);
    }
  }

  ghost predicate PcOk(pid: nat, pc: Pc, s: Shared) {
    BodyOk(pid, pc, s) && LedgerOk(pid, pc, s)
  }

  predicate IsShutdown(pc: Pc) {
    match pc
    case Stop(_, _) => true
    case Want(_, _, next) => next.Stop?
    case Sending(_, _, next) => next.Stop?
    case _ => false
  }

  ghost predicate ProcsOk(procs: map<nat, Pc>, s: Shared) {
    && (forall p | p in procs :: PcOk(p, procs[p], s))
    && (forall p :: p in s.readers <==> p in procs && HoldsLock(procs[p]))
    && (forall o | o in s.hist.offers :: o.pid in procs)
    && s.hist.flips.Keys <= procs.Keys
    && s.hist.sweeps.Keys <= procs.Keys
  }

  /** The invariant of the hub machine. */
  ghost predicate Inv(h: Hub) {
    && SharedOk(h.sh)
    && ProcsOk(h.procs, h.sh)
    && (h.phase == Reconciled ==> OnlineOf(h.sh.table) == {})
    && (h.phase != Serving ==> forall p | p in h.procs :: IsShutdown(h.procs[p]))
  }

  lemma InitHolds(h: Hub)
    requires Init(h)
    ensures Inv(h)
  {
  }

  /** A change of the shared state by none of the processes, such as time passing. */
  lemma OutsideKeepsProcs(procs: map<nat, Pc>, s: Shared, s': Shared)
    requires SharedOk(s) && SharedOk(s') && ProcsOk(procs, s)
    requires s' == s.(table := s'.table, clock := s'.clock)
    requires s.clock <= s'.clock && (s.reg.draining ==> OnlineOf(s'.table) <= OnlineOf(s.table))
    ensures ProcsOk(procs, s')
  {
    forall p | p in procs ensures PcOk(p, procs[p], s') {
      BodyStays(p, procs[p], p + 1, s, s');
      LedgerStays(p, procs[p], p + 1, s, s');
    }
  }

  lemma RunKeepsOthers(procs: map<nat, Pc>, pid: nat, s: Shared, ch: Choice, p: nat)
    requires SharedOk(s) && ProcsOk(procs, s) && pid in procs && MayStep(procs[pid], s, ch)
    requires OpEnabled(s, Exec(procs[pid], s, ch).op) && p in procs && p != pid
    ensures PcOk(p, procs[p], After(pid, procs[pid], s, ch))
  {
    var op := Exec(procs[pid], s, ch).op;
    assert PcOk(pid, procs[pid], s) && PcOk(p, procs[p], s);
    ExecIsLegal(pid, procs[pid], s, ch);
    OpKeepsShared(s, pid, op);
    OpFrame(s, pid, op);
    BodyStays(p, procs[p], pid, s, ApplyOp(s, pid, op));
    LedgerStays(p, procs[p], pid, s, ApplyOp(s, pid, op));
  }

  /** History only mentions the process that acted. */
  lemma OpNamesItself(s: Shared, pid: nat, op: Op)
    ensures var h' := ApplyOp(s, pid, op).hist;
            && (forall o | o in h'.offers :: o in s.hist.offers || o.pid == pid)
            && h'.flips.Keys <= s.hist.flips.Keys + {pid}
            && h'.sweeps.Keys <= s.hist.sweeps.Keys + {pid}
  {
  }

  lemma RunKeepsSelf(pid: nat, pc: Pc, s: Shared, ch: Choice)
    requires SharedOk(s) && PcOk(pid, pc, s) && MayStep(pc, s, ch)
    ensures PcOk(pid, Exec(pc, s, ch).pc, After(pid, pc, s, ch))
  {
    ExecEstablishes(pid, pc, s, ch);
    ExecKeepsLedger(pid, pc, s, ch);
  }

  lemma RunTracksLocks(procs: map<nat, Pc>, pid: nat, s: Shared, ch: Choice)
    requires pid in procs && BodyOk(pid, procs[pid], s)
    requires forall p :: p in s.readers <==> p in procs && HoldsLock(procs[p])
    ensures var procs' := procs[pid := Exec(procs[pid], s, ch).pc];
            forall p :: p in After(pid, procs[pid], s, ch).readers <==> p in procs' && HoldsLock(procs'[p])
  {
    ExecTracksLock(pid, procs[pid], s, ch);
  }

  lemma RunKeepsShared(pid: nat, pc: Pc, s: Shared, ch: Choice)
    requires SharedOk(s) && BodyOk(pid, pc, s) && MayStep(pc, s, ch)
    ensures SharedOk(After(pid, pc, s, ch))
  {
    ExecIsLegal(pid, pc, s, ch);
    OpKeepsShared(s, pid, Exec(pc, s, ch).op);
  }

  lemma RunKeepsAll(procs: map<nat, Pc>, pid: nat, s: Shared, ch: Choice)
    requires SharedOk(s) && ProcsOk(procs, s) && pid in procs && MayStep(procs[pid], s, ch)
    requires OpEnabled(s, Exec(procs[pid], s, ch).op)
    ensures forall p | p in procs ::
              PcOk(p, if p == pid then Exec(procs[pid], s, ch).pc else procs[p], After(pid, procs[pid], s, ch))
  {
    forall p | p in procs
      ensures PcOk(p, if p == pid then Exec(procs[pid], s, ch).pc else procs[p], After(pid, procs[pid], s, ch))
    {
      if p == pid {
        RunKeepsSelf(pid, procs[pid], s, ch);
      } else {
        RunKeepsOthers(procs, pid, s, ch, p);
      }
    }
  }

  /** What the parts amount to, whatever the step was. */
  lemma ProcsAfter(procs: map<nat, Pc>, pid: nat, pc: Pc, s: Shared, s': Shared)
    requires ProcsOk(procs, s) && pid in procs
    requires forall p | p in procs :: PcOk(p, if p == pid then pc else procs[p], s')
    requires forall p :: p in s'.readers <==> p in procs[pid := pc] && HoldsLock(procs[pid := pc][p])
    requires forall o | o in s'.hist.offers :: o in s.hist.offers || o.pid == pid
    requires s'.hist.flips.Keys <= s.hist.flips.Keys + {pid} && s'.hist.sweeps.Keys <= s.hist.sweeps.Keys + {pid}
    ensures ProcsOk(procs[pid := pc], s')
  {
  }

  lemma RunKeepsProcs(procs: map<nat, Pc>, pid: nat, s: Shared, ch: Choice)
    requires SharedOk(s) && ProcsOk(procs, s) && pid in procs && MayStep(procs[pid], s, ch)
    requires OpEnabled(s, Exec(procs[pid], s, ch).op)
    ensures ProcsOk(procs[pid := Exec(procs[pid], s, ch).pc], After(pid, procs[pid], s, ch))
  {
    assert PcOk(pid, procs[pid], s);
    RunKeepsAll(procs, pid, s, ch);
    RunTracksLocks(procs, pid, s, ch);
    OpNamesItself(s, pid, Exec(procs[pid], s, ch).op);
    ProcsAfter(procs, pid, Exec(procs[pid], s, ch).pc, s, After(pid, procs[pid], s, ch));
  }

  lemma RunStepKeepsInv(h: Hub, pid: nat, ch: Choice)
    requires Inv(h) && Enabled(h, Run(pid, ch))
    ensures Inv(Apply(h, Run(pid, ch)))
  {
    assert PcOk(pid, h.procs[pid], h.sh);
    RunKeepsShared(pid, h.procs[pid], h.sh, ch);
    RunKeepsProcs(h.procs, pid, h.sh, ch);
    if h.phase != Serving { ShutdownOnly(pid, h.procs[pid], h.sh, ch); }
  }

  /** Shutdown adds no online row, and what it goes on to is still shutdown. */
  lemma ShutdownOnly(pid: nat, pc: Pc, s: Shared, ch: Choice)
    requires IsShutdown(pc)
    ensures IsShutdown(Exec(pc, s, ch).pc)
    ensures OnlineOf(After(pid, pc, s, ch).table) <= OnlineOf(s.table)
  {
  }

  lemma SpawnKeepsProcs(procs: map<nat, Pc>, s: Shared, pid: nat, pc: Pc)
    requires ProcsOk(procs, s) && pid !in procs && (IsEntry(pc) || pc == Stop([], StDrain))
    ensures ProcsOk(procs[pid := pc], s)
  {
    var procs' := procs[pid := pc];
    assert !HoldsLock(pc) && BodyOk(pid, pc, s);
    forall c: nat, d ensures EntryOk(pid, pc, s, c, d) {
      assert Offer(pid, c, DeviceOnline(d, ByRecovery)) !in s.hist.offers;
    }
    forall p | p in procs' ensures PcOk(p, procs'[p], s) {
      assert p != pid ==> PcOk(p, procs[p], s);
    }
  }

  lemma StepKeepsInv(h: Hub, a: Action)
    requires Inv(h) && Enabled(h, a)
    ensures Inv(Apply(h, a))
  {
    match a
    case Spawn(pid, pc) => SpawnKeepsProcs(h.procs, h.sh, pid, pc);
    case SpawnStop(pid) => SpawnKeepsProcs(h.procs, h.sh, pid, Stop([], StDrain));
    case Run(pid, ch) => RunStepKeepsInv(h, pid, ch);
    case Tick(to) => OutsideKeepsProcs(h.procs, h.sh, h.sh.(clock := to));
    case Reconcile =>
      SubTableKeepsBeats(h.sh.table, DemoteAll(h.sh.table), h.sh.hist.beats, h.sh.clock);
      OutsideKeepsProcs(h.procs, h.sh, h.sh.(table := DemoteAll(h.sh.table)));
    case Serve =>
    case Crash =>
  }

  /** Every state of every run satisfies the invariant. */
  lemma {:induction false} RunsKeepInv(hs: seq<Hub>, acts: seq<Action>, i: nat)
    requires IsRun(hs, acts) && i < |hs|
    ensures Inv(hs[i])
  {
    if i == 0 {
      InitHolds(hs[0]);
    } else {
      RunsKeepInv(hs, acts, i - 1);
      assert StepAt(hs, acts, i - 1);
      StepKeepsInv(hs[i - 1], acts[i - 1]);
    }
  }
}
