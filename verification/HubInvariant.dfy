/**
 The inductive invariant of the hub machine. Each program counter carries an assertion
 about the shared state (`BodyOk`). Two obligations make it inductive: a process
 establishes its own next assertion (HubSteps), and no step of another process breaks
 it (here). The second is where the read lock matters: what a reader has checked can
 only be changed by a write-lock section.
 */
module HubInvariant {
  import opened DeviceTable
  import opened Subscribers
  import opened HubMachine

  predicate HoldsLock(pc: Pc) {
    match pc
    case Heartbeat(_, _, _, hb) => hb == HbDrainCheck || hb == HbSubCheck || hb == HbPromote
    case Register(_, _, _, rg) => rg == RgDrainCheck || rg == RgWrite
    case Sending(_, _, _) => true
    case Release(_) => true
    case _ => false
  }

  predicate IsRecovery(e: Event) {
    e.DeviceOnline? && e.via == ByRecovery
  }

  predicate IsSweep(e: Event) {
    e.DeviceOffline? && e.via == BySweep
  }

  /** The heartbeats recorded for a device are in time order, and the row shows the last. */
  ghost predicate BeatsOk(t: Table, beats: map<Device, seq<int>>, clock: int) {
    && (forall d | d in t :: d in beats && beats[d] != [] && beats[d][|beats[d]| - 1] == t[d].beat)
    && (forall d | d in beats :: forall i | 0 <= i < |beats[d]| :: beats[d][i] <= clock)
    && (forall d | d in beats :: forall i, j | 0 <= i < j < |beats[d]| :: beats[d][i] <= beats[d][j])
  }

  ghost predicate HandlersOk(r: Reg, handlers: seq<Handler>) {
    && |handlers| == |r.chans|
    && (forall x | x in r.subs :: r.subs[x] < |handlers| && handlers[r.subs[x]].dev == x)
  }

  ghost predicate SweepHistOk(s: Shared) {
    && (s.hist.sweeps != map[] ==> s.reg.draining && OnlineOf(s.table) == {})
    && (forall o | o in s.hist.offers && IsSweep(o.event) :: o.pid in s.hist.sweeps)
    && (s.hist.allClosed ==> s.reg.draining && s.reg.subs == map[])
  }

  /** An offered event was accepted by its channel, or dropped because the buffer was full. */
  ghost predicate OffersOk(r: Reg, h: Hist) {
    forall o | o in h.offers :: o.chan < |r.chans| && (o.event in r.chans[o.chan].sent || o in h.drops)
  }

  ghost predicate SharedOk(s: Shared) {
    && Consistent(s.reg)
    && OffersOk(s.reg, s.hist)
    && HandlersOk(s.reg, s.hist.handlers)
    && BeatsOk(s.table, s.hist.beats, s.clock)
    && SweepHistOk(s)
  }

  /** Process `pid` has tried to send `e` to every device now subscribed, except those in `left`. */
  ghost predicate Told(pid: nat, e: Event, left: set<Device>, s: Shared) {
    forall x | x in s.reg.subs && x !in left :: Offer(pid, s.reg.subs[x], e) in s.hist.offers
  }

  ghost predicate TellOk(pid: nat, listed: seq<Device>, told: int, s: Shared) {
    && pid in s.hist.sweeps && s.hist.sweeps[pid] <= (set d | d in listed)
    && 0 <= told <= |listed|
    && forall k | 0 <= k < told :: Told(pid, DeviceOffline(listed[k], BySweep), {}, s)
  }

  /** Shutdown: draining, and if the sweep was `quiet`, nothing is online and all it demoted was announced. */
  ghost predicate QuietOk(pid: nat, listed: seq<Device>, quiet: bool, s: Shared) {
    && s.reg.draining
    && (quiet ==>
          && OnlineOf(s.table) == {}
          && (pid in s.hist.sweeps ==> s.hist.sweeps[pid] <= (set d | d in listed))
          && forall d | d in listed :: Told(pid, DeviceOffline(d, BySweep), {}, s))
  }

  ghost predicate StopOk(pid: nat, pc: Pc, s: Shared)
    requires pc.Stop?
  {
    match pc.st
    case StDrain => pid !in s.hist.sweeps
    case StList => s.reg.draining && pid !in s.hist.sweeps
    case StWrite => s.reg.draining && OnlineOf(s.table) <= (set d | d in pc.listed)
    case StTell(told) => TellOk(pid, pc.listed, told, s)
    case StClose(quiet) => QuietOk(pid, pc.listed, quiet, s)
    case StDone(quiet) => QuietOk(pid, pc.listed, quiet, s) && s.hist.allClosed
  }

  ghost predicate StreamOk(pid: nat, pc: Pc, s: Shared)
    requires pc.Stream?
  {
    pc.sb == SbOpen ||
    (&& pc.c < |s.reg.chans| && pc.c < |s.hist.handlers|
     && s.hist.handlers[pc.c] == Handler(pid, pc.d)
     && ChannelOk(pc, s.reg.chans[pc.c]))
  }

  /** How a handler's progress relates to its channel. */
  ghost predicate ChannelOk(pc: Pc, ch: Chan)
    requires pc.Stream?
  {
    match pc.sb
    case SbOpen => true
    case SbReady => ch.taken == [] && pc.out == []
    case SbWait => ch.taken == pc.out
    case SbSend(e) => ch.taken == pc.out + [e]
    case SbEnd(drained) => pc.out <= ch.taken && (drained ==> !ch.open && ch.sent == pc.out)
    case SbGone(drained) => !ch.open && pc.out <= ch.taken && (drained ==> ch.sent == pc.out)
  }

  /** The assertion at a program counter that is not part of a broadcast. */
  ghost predicate PlainOk(pid: nat, pc: Pc, s: Shared) {
    match pc
    case Heartbeat(d, _, _, hb) =>
      && (hb == HbSubCheck || hb == HbPromote ==> !s.reg.draining)
      && (hb == HbPromote ==> d in s.reg.subs)
    case Register(_, _, _, rg) => rg == RgWrite ==> !s.reg.draining
    case Stream(_, _, _, _) => StreamOk(pid, pc, s)
    case Sweep(_, begun, mn) => mn == MnStart || begun <= s.clock
    case Stop(_, _) => StopOk(pid, pc, s)
    case Want(_, _, _) => false
    case Sending(_, _, _) => false
    case Release(_) => false
    case _ => true
  }

  /** Where a broadcast may go on to. */
  predicate IsNext(pc: Pc) {
    pc.Done? || pc.Leave? || pc.Sweep? || pc.Prune? || (pc.Stop? && pc.st.StTell?)
  }

  /** What must hold at `next` while the broadcast of `e` is under way. */
  ghost predicate NextOk(pid: nat, e: Event, next: Pc, s: Shared) {
    && IsNext(next)
    && (IsSweep(e) <==> next.Stop?)
    && if next.Stop?
       then
         && 1 <= next.st.told <= |next.listed| && e.dev == next.listed[next.st.told - 1]
         && TellOk(pid, next.listed, next.st.told - 1, s)
       else PlainOk(pid, next, s)
  }

  ghost predicate WantOk(pid: nat, pc: Pc, s: Shared)
    requires pc.Want?
  {
    NextOk(pid, pc.e, pc.next, s) && !IsRecovery(pc.e) && (IsSweep(pc.e) ==> pc.skip == {})
  }

  ghost predicate SendingOk(pid: nat, pc: Pc, s: Shared)
    requires pc.Sending?
  {
    && NextOk(pid, pc.e, pc.next, s)
    && pc.left <= s.reg.subs.Keys
    && (IsSweep(pc.e) ==> Told(pid, pc.e, pc.left, s))
    && (IsRecovery(pc.e) ==> pc.next == Done && pc.e.dev in s.reg.subs)
  }

  ghost predicate BodyOk(pid: nat, pc: Pc, s: Shared) {
    match pc
    case Want(_, _, _) => WantOk(pid, pc, s)
    case Sending(_, _, _) => SendingOk(pid, pc, s)
    case Release(next) => next.Done? || (next.Want? && WantOk(pid, next, s))
    case _ => PlainOk(pid, pc, s)
  }

  /** A recovering process still owes channel `c` its announcement. */
  ghost predicate Owes(pc: Pc, r: Reg, c: nat) {
    pc.Sending? && exists x :: x in pc.left && x in r.subs && r.subs[x] == c
  }

  ghost predicate EntryOk(pid: nat, pc: Pc, s: Shared, c: nat, d: Device) {
    s.hist.offers[Offer(pid, c, DeviceOnline(d, ByRecovery))] ==
    if pid in s.hist.flips && d == s.hist.flips[pid].dev && c in s.hist.flips[pid].audience
       && !Owes(pc, s.reg, c) then 1 else 0
  }

  /**
   The recovery ledger of one process: it has offered its announcement exactly once to
   each channel of the audience that it does not still owe, and to no other channel.
   */
  ghost predicate LedgerOk(pid: nat, pc: Pc, s: Shared) {
    && (pid in s.hist.flips ==>
          pc.Done? || (pc.Sending? && pc.e == DeviceOnline(s.hist.flips[pid].dev, ByRecovery)))
    && (pc.Sending? && IsRecovery(pc.e) ==>
          pid in s.hist.flips && forall x | x in pc.left && x in s.reg.subs ::
            s.reg.subs[x] in s.hist.flips[pid].audience)
    && forall c: nat, d :: EntryOk(pid, pc, s, c, d)
  }

  /** What a process may do to the shared state, whatever its program. */
  ghost predicate Legal(s: Shared, pid: nat, op: Op) {
    match op
    case Store(store) =>
      && (store.WriteStatus? && store.status == Online ==> !s.reg.draining)
      && (store.WritePromotion? ==> !s.reg.draining && store.d in s.reg.subs)
      && (store.WriteSweep? ==> s.reg.draining)
    case Locked(locked) => locked.DropAll? ==> s.reg.draining
    case OfferTo(d, e) => d in s.reg.subs && (IsSweep(e) ==> pid in s.hist.sweeps)
    case Receive(c) => c < |s.hist.handlers| && s.hist.handlers[c].pid == pid
    case _ => true
  }

  lemma ExecIsLegal(pid: nat, pc: Pc, s: Shared, ch: Choice)
    requires BodyOk(pid, pc, s)
    requires pc.Sending? && pc.left != {} ==> ch.who in pc.left
    ensures Legal(s, pid, Exec(pc, s, ch).op)
  {
  }

  /** Once draining, no legal step adds an online row. */
  lemma OnlineOnlyShrinks(s: Shared, pid: nat, op: Op)
    requires Legal(s, pid, op) && s.reg.draining
    ensures OnlineOf(ApplyOp(s, pid, op).table) <= OnlineOf(s.table)
    ensures op.Store? && op.store.WriteSweep? ==> OnlineOf(ApplyOp(s, pid, op).table) == {}
  {
  }

  lemma LoggedKeepsBeats(t: Table, t': Table, beats: map<Device, seq<int>>, clock: int, d: Device)
    requires BeatsOk(t, beats, clock)
    requires t'.Keys == t.Keys + {d} && t'[d].beat == clock
    requires forall e | e in t && e != d :: t'[e].beat == t[e].beat
    ensures BeatsOk(t', Logged(beats, d, clock), clock)
  {
    var logged := Logged(beats, d, clock)[d];
    forall i, j | 0 <= i < j < |logged| ensures logged[i] <= logged[j] {
      assert d in beats ==> beats[d][i] <= clock;
    }
  }

  lemma SubTableKeepsBeats(t: Table, t': Table, beats: map<Device, seq<int>>, clock: int)
    requires BeatsOk(t, beats, clock)
    requires t'.Keys <= t.Keys && forall e | e in t' :: t'[e].beat == t[e].beat
    ensures BeatsOk(t', beats, clock)
  {
  }

  lemma StoreKeepsBeats(s: Shared, pid: nat, op: StoreOp)
    requires BeatsOk(s.table, s.hist.beats, s.clock)
    ensures var s' := ApplyStore(s, pid, op); BeatsOk(s'.table, s'.hist.beats, s'.clock)
  {
    var s' := ApplyStore(s, pid, op);
    if (op.WriteBeat? && op.d in s.table) || (op.WriteInsert? && Insertable(s.table, op.d, op.nickname)) {
      LoggedKeepsBeats(s.table, s'.table, s.hist.beats, s.clock, op.d);
    } else {
      SubTableKeepsBeats(s.table, s'.table, s.hist.beats, s.clock);
    }
  }

  lemma StoreKeepsSweeps(s: Shared, pid: nat, op: StoreOp)
    requires SharedOk(s) && Legal(s, pid, Store(op))
    ensures SweepHistOk(ApplyStore(s, pid, op))
  {
    StoreSparesReg(s, pid, op);
    if s.reg.draining {
      OnlineOnlyShrinks(s, pid, Store(op));
    }
  }

  lemma StoreKeepsShared(s: Shared, pid: nat, op: StoreOp)
    requires SharedOk(s) && Legal(s, pid, Store(op))
    ensures SharedOk(ApplyStore(s, pid, op))
  {
    StoreKeepsBeats(s, pid, op);
    StoreKeepsSweeps(s, pid, op);
    StoreSparesReg(s, pid, op);
  }

  lemma StoreSparesReg(s: Shared, pid: nat, op: StoreOp)
    ensures var s' := ApplyStore(s, pid, op);
            && s'.reg == s.reg && s'.hist.handlers == s.hist.handlers && s'.hist.allClosed == s.hist.allClosed
            && s'.hist.offers == s.hist.offers && s'.hist.drops == s.hist.drops
  {
  }

  lemma LockedKeepsReg(r: Reg, op: LockOp)
    requires Consistent(r)
    ensures Consistent(LockedReg(r, op)) && Extends(r, LockedReg(r, op))
  {
    match op
    case AddSub(d) => SubscribedKeeps(r, d);
    case DropSub(d) => RemovedKeeps(r, d);
    case DropIfCurrent(d, c) => UnsubscribedKeeps(r, d, c);
    case DropAll => AllClosedKeeps(r);
    case SetDraining =>
  }

  lemma LockedKeepsHandlers(s: Shared, pid: nat, op: LockOp)
    requires Consistent(s.reg) && HandlersOk(s.reg, s.hist.handlers)
    ensures HandlersOk(LockedReg(s.reg, op), LockedHist(s, pid, op).handlers)
  {
    if op.AddSub? {
      SubscribedKeeps(s.reg, op.d);
    }
  }

  lemma LockedKeepsShared(s: Shared, pid: nat, op: LockOp)
    requires SharedOk(s) && Legal(s, pid, Locked(op))
    ensures SharedOk(ApplyOp(s, pid, Locked(op)))
  {
    LockedKeepsReg(s.reg, op);
    LockedKeepsHandlers(s, pid, op);
    ExtendsKeepsOffers(s.reg, LockedReg(s.reg, op), s.hist);
  }

  lemma ExtendsKeepsOffers(r: Reg, r': Reg, h: Hist)
    requires OffersOk(r, h) && Extends(r, r')
    ensures OffersOk(r', h)
  {
    forall o | o in h.offers && o.event in r.chans[o.chan].sent ensures o.event in r'.chans[o.chan].sent {
      assert r.chans[o.chan].sent <= r'.chans[o.chan].sent;
      var k :| 0 <= k < |r.chans[o.chan].sent| && r.chans[o.chan].sent[k] == o.event;
      assert r'.chans[o.chan].sent[k] == o.event;
    }
  }

  lemma OfferKeepsShared(s: Shared, pid: nat, d: Device, e: Event)
    requires SharedOk(s) && Legal(s, pid, OfferTo(d, e))
    ensures SharedOk(ApplyOp(s, pid, OfferTo(d, e)))
  {
    var s' := ApplyOp(s, pid, OfferTo(d, e));
    var o := Offer(pid, s.reg.subs[d], e);
    OfferedKeeps(s.reg, d, e);
    ExtendsKeepsOffers(s.reg, s'.reg, s.hist);
    assert s'.hist == OfferHist(s, o);
    assert o.event in s'.reg.chans[o.chan].sent || o in s'.hist.drops by {
      if |s.reg.chans[o.chan].buf| < CAPACITY {
        assert s'.reg.chans[o.chan].sent == s.reg.chans[o.chan].sent + [e];
      }
    }
    assert forall p | p in s'.hist.offers :: p == o || p in s.hist.offers;
  }

  lemma OpKeepsShared(s: Shared, pid: nat, op: Op)
    requires SharedOk(s) && Legal(s, pid, op)
    ensures SharedOk(ApplyOp(s, pid, op))
  {
    match op
    case Store(store) => StoreKeepsShared(s, pid, store);
    case Locked(locked) => LockedKeepsShared(s, pid, locked);
    case OfferTo(d, e) => OfferKeepsShared(s, pid, d, e);
    case Receive(c) =>
      ReceivedKeeps(s.reg, c);
      ExtendsKeepsOffers(s.reg, Received(s.reg, c), s.hist);
    case _ =>
  }

  ghost predicate OnlyRemoved(m: map<Device, nat>, m': map<Device, nat>) {
    forall x | x in m' :: x in m && m'[x] == m[x]
  }

  ghost predicate HistFrame(pid: nat, h: Hist, h': Hist) {
    && h.handlers <= h'.handlers
    && (h.allClosed ==> h'.allClosed)
    && h.offers <= h'.offers && h.drops <= h'.drops
    && (forall o | o in h'.offers && o.pid != pid :: h'.offers[o] == h.offers[o])
    && (forall p | p != pid :: p in h'.flips <==> p in h.flips)
    && (forall p | p in h.flips && p != pid :: h'.flips[p] == h.flips[p])
    && (forall p | p != pid :: p in h'.sweeps <==> p in h.sweeps)
    && (forall p | p in h.sweeps && p != pid :: h'.sweeps[p] == h.sweeps[p])
  }

  ghost predicate RegFrame(pid: nat, s: Shared, s': Shared)
    requires |s.hist.handlers| == |s.reg.chans|
  {
    && Extends(s.reg, s'.reg)
    && (s.reg.draining ==> OnlyRemoved(s.reg.subs, s'.reg.subs))
    && (s.readers != {} ==> s'.reg.subs == s.reg.subs && s'.reg.draining == s.reg.draining)
    && (forall c | 0 <= c < |s.reg.chans| && s.hist.handlers[c].pid != pid ::
          s'.reg.chans[c].taken == s.reg.chans[c].taken)
  }

  /**
   What a step of process `pid` leaves alone, seen from any other process: its ledger,
   the progress of its stream, and everything already closed, offered or drained.
   */
  ghost predicate Frame(pid: nat, s: Shared, s': Shared)
    requires |s.hist.handlers| == |s.reg.chans|
  {
    && s.clock <= s'.clock
    && RegFrame(pid, s, s')
    && HistFrame(pid, s.hist, s'.hist)
    && (s.reg.draining ==> OnlineOf(s'.table) <= OnlineOf(s.table))
  }

  lemma StoreHistFrame(s: Shared, pid: nat, op: StoreOp)
    ensures HistFrame(pid, s.hist, ApplyStore(s, pid, op).hist)
  {
  }

  lemma OfferHistFrame(s: Shared, o: Offer)
    ensures HistFrame(o.pid, s.hist, OfferHist(s, o))
  {
  }

  lemma OpHistFrame(s: Shared, pid: nat, op: Op)
    ensures HistFrame(pid, s.hist, ApplyOp(s, pid, op).hist)
  {
    match op
    case Store(store) => StoreHistFrame(s, pid, store);
    case OfferTo(d, e) => if d in s.reg.subs { OfferHistFrame(s, Offer(pid, s.reg.subs[d], e)); }
    case _ =>
  }

  lemma LockedOnlyRemoves(r: Reg, op: LockOp)
    requires Consistent(r)
    ensures r.draining ==> OnlyRemoved(r.subs, LockedReg(r, op).subs)
    ensures forall c | 0 <= c < |r.chans| ::
              c < |LockedReg(r, op).chans| && LockedReg(r, op).chans[c].taken == r.chans[c].taken
  {
    match op
    case SetDraining =>
    case AddSub(d) => SubscribedKeeps(r, d);
    case DropSub(d) => RemovedKeeps(r, d); assert LockedReg(r, op) == Removed(r, d);
    case DropIfCurrent(d, c) =>
      RemovedKeeps(r, d);
      assert LockedReg(r, op) == if d in r.subs && r.subs[d] == c then Removed(r, d) else r;
    case DropAll => AllClosedKeeps(r); assert LockedReg(r, op) == AllClosed(r);
  }

  lemma LockedRegFrame(s: Shared, pid: nat, op: LockOp)
    requires Consistent(s.reg) && |s.hist.handlers| == |s.reg.chans| && s.readers == {}
    ensures RegFrame(pid, s, ApplyOp(s, pid, Locked(op)))
  {
    LockedKeepsReg(s.reg, op);
    LockedOnlyRemoves(s.reg, op);
    assert ApplyOp(s, pid, Locked(op)).reg == LockedReg(s.reg, op);
  }

  lemma OfferRegFrame(s: Shared, pid: nat, d: Device, e: Event)
    requires Consistent(s.reg) && |s.hist.handlers| == |s.reg.chans|
    ensures RegFrame(pid, s, ApplyOp(s, pid, OfferTo(d, e)))
  {
    OfferedKeeps(s.reg, d, e);
  }

  lemma ReceiveRegFrame(s: Shared, pid: nat, c: nat)
    requires Consistent(s.reg) && |s.hist.handlers| == |s.reg.chans| && Legal(s, pid, Receive(c))
    ensures RegFrame(pid, s, ApplyOp(s, pid, Receive(c)))
  {
    ReceivedKeeps(s.reg, c);
  }

  lemma OpRegFrame(s: Shared, pid: nat, op: Op)
    requires Consistent(s.reg) && |s.hist.handlers| == |s.reg.chans| && Legal(s, pid, op) && OpEnabled(s, op)
    ensures RegFrame(pid, s, ApplyOp(s, pid, op))
  {
    match op
    case Locked(locked) => LockedRegFrame(s, pid, locked);
    case OfferTo(d, e) => OfferRegFrame(s, pid, d, e);
    case Receive(c) => ReceiveRegFrame(s, pid, c);
    case _ => assert ApplyOp(s, pid, op).reg == s.reg;
  }

  lemma OpFrame(s: Shared, pid: nat, op: Op)
    requires SharedOk(s) && Legal(s, pid, op) && OpEnabled(s, op)
    ensures Frame(pid, s, ApplyOp(s, pid, op))
  {
    OpHistFrame(s, pid, op);
    OpRegFrame(s, pid, op);
    if s.reg.draining { OnlineOnlyShrinks(s, pid, op); }
  }

  lemma ToldStays(p: nat, e: Event, left: set<Device>, pid: nat, s: Shared, s': Shared)
    requires |s.hist.handlers| == |s.reg.chans| && Frame(pid, s, s')
    requires s.reg.draining && Told(p, e, left, s)
    ensures Told(p, e, left, s')
  {
  }

  lemma TellStays(p: nat, listed: seq<Device>, told: int, pid: nat, s: Shared, s': Shared)
    requires SharedOk(s) && Frame(pid, s, s') && p != pid && TellOk(p, listed, told, s)
    ensures TellOk(p, listed, told, s')
  {
    forall k | 0 <= k < told ensures Told(p, DeviceOffline(listed[k], BySweep), {}, s') {
      ToldStays(p, DeviceOffline(listed[k], BySweep), {}, pid, s, s');
    }
  }

  lemma QuietStays(p: nat, listed: seq<Device>, quiet: bool, pid: nat, s: Shared, s': Shared)
    requires SharedOk(s) && Frame(pid, s, s') && p != pid && QuietOk(p, listed, quiet, s)
    ensures QuietOk(p, listed, quiet, s')
  {
    if quiet {
      forall d | d in listed ensures Told(p, DeviceOffline(d, BySweep), {}, s') {
        ToldStays(p, DeviceOffline(d, BySweep), {}, pid, s, s');
      }
    }
  }

  lemma StreamStays(p: nat, pc: Pc, pid: nat, s: Shared, s': Shared)
    requires SharedOk(s) && SharedOk(s') && Frame(pid, s, s') && p != pid
    requires pc.Stream? && StreamOk(p, pc, s)
    ensures StreamOk(p, pc, s')
  {
    if pc.sb != SbOpen {
      assert s'.hist.handlers[pc.c] == s.hist.handlers[pc.c];
      assert s'.reg.chans[pc.c].taken == s.reg.chans[pc.c].taken;
    }
  }

  lemma PlainStays(p: nat, pc: Pc, pid: nat, s: Shared, s': Shared)
    requires SharedOk(s) && SharedOk(s') && Frame(pid, s, s') && p != pid
    requires HoldsLock(pc) ==> p in s.readers
    requires PlainOk(p, pc, s)
    ensures PlainOk(p, pc, s')
  {
    if pc.Stream? {
      StreamStays(p, pc, pid, s, s');
    } else if pc.Stop? {
      match pc.st
      case StTell(told) => TellStays(p, pc.listed, told, pid, s, s');
      case StClose(quiet) => QuietStays(p, pc.listed, quiet, pid, s, s');
      case StDone(quiet) => QuietStays(p, pc.listed, quiet, pid, s, s');
      case _ =>
    }
  }

  lemma NextStays(p: nat, e: Event, next: Pc, pid: nat, s: Shared, s': Shared)
    requires SharedOk(s) && SharedOk(s') && Frame(pid, s, s') && p != pid
    requires NextOk(p, e, next, s)
    ensures NextOk(p, e, next, s')
  {
    if next.Stop? {
      TellStays(p, next.listed, next.st.told - 1, pid, s, s');
    } else {
      PlainStays(p, next, pid, s, s');
    }
  }

  lemma BodyStays(p: nat, pc: Pc, pid: nat, s: Shared, s': Shared)
    requires SharedOk(s) && SharedOk(s') && Frame(pid, s, s') && p != pid
    requires HoldsLock(pc) ==> p in s.readers
    requires BodyOk(p, pc, s)
    ensures BodyOk(p, pc, s')
  {
    match pc
    case Want(e, _, next) => NextStays(p, e, next, pid, s, s');
    case Sending(e, left, next) =>
      NextStays(p, e, next, pid, s, s');
      if IsSweep(e) {
        ToldStays(p, e, left, pid, s, s');
      }
    case Release(next) =>
      if next.Want? {
        NextStays(p, next.e, next.next, pid, s, s');
      }
    case _ => PlainStays(p, pc, pid, s, s');
  }

  lemma LedgerStays(p: nat, pc: Pc, pid: nat, s: Shared, s': Shared)
    requires |s.hist.handlers| == |s.reg.chans| && Frame(pid, s, s') && p != pid
    requires HoldsLock(pc) ==> p in s.readers
    requires LedgerOk(p, pc, s)
    ensures LedgerOk(p, pc, s')
  {
    forall c: nat, d ensures EntryOk(p, pc, s', c, d) {
      var o := Offer(p, c, DeviceOnline(d, ByRecovery));
      assert EntryOk(p, pc, s, c, d);
      assert s'.hist.offers[o] == s.hist.offers[o] by {
        assert s.hist.offers[o] <= s'.hist.offers[o];
      }
      assert Owes(pc, s'.reg, c) == Owes(pc, s.reg, c);
    }
  }
}
