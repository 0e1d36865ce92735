/**
 What a handler of the hub has done when it is finished, in every run and whatever runs
 beside it: either it met one of the reasons it has to give up, or it has written what it
 was called to write and told everyone else. A handler never stops early for no reason,
 and no announcement misses a subscriber.
 */
module HubStories {
  import opened DeviceTable
  import opened Subscribers
  import opened HubMachine
  import opened HubInvariant
  import opened HubSteps
  import opened HubTheorems
  import opened HubEffects

  // ---- Announcements reach everyone ----

  /** An announcement is not sent to the device it is about; the shutdown sweep sends to all. */
  function Skipped(e: Event): set<Device> {
    if e.DeviceOffline? && e.via == BySweep then {} else {e.dev}
  }

  /** Everyone subscribed now, but for `but`, has been offered `e` by process `pid`. */
  ghost predicate ToldBut(pid: nat, e: Event, but: set<Device>, s: Shared) {
    forall x | x in s.reg.subs && x !in but :: Offer(pid, s.reg.subs[x], e) in s.hist.offers
  }

  ghost predicate TellingOk(pid: nat, pc: Pc, s: Shared) {
    match pc
    case Want(e, skip, _) => skip == Skipped(e)
    case Release(next) => next.Want? ==> next.skip == Skipped(next.e)
    case Sending(e, left, _) => left !! Skipped(e) && ToldBut(pid, e, left + Skipped(e), s)
    case _ => true
  }

  ghost predicate AllTelling(h: Hub) {
    forall p | p in h.procs :: TellingOk(p, h.procs[p], h.sh)
  }

  lemma OfferTellsMore(pid: nat, e: Event, left: set<Device>, s: Shared, d: Device)
    requires Consistent(s.reg) && d in s.reg.subs && ToldBut(pid, e, left, s)
    ensures ToldBut(pid, e, left - {d}, ApplyOp(s, pid, OfferTo(d, e)))
  {
    OfferedKeeps(s.reg, d, e);
  }

  lemma SendingTells(pid: nat, pc: Pc, s: Shared, ch: Choice)
    requires Consistent(s.reg) && pc.Sending? && SendingOk(pid, pc, s) && ch.who in pc.left && TellingOk(pid, pc, s)
    ensures TellingOk(pid, Exec(pc, s, ch).pc, After(pid, pc, s, ch))
  {
    OfferTellsMore(pid, pc.e, pc.left + Skipped(pc.e), s, ch.who);
    assert pc.left + Skipped(pc.e) - {ch.who} == pc.left - {ch.who} + Skipped(pc.e);
  }

  /** A broadcast begins with everyone else still to be told. */
  lemma BeginTells(pid: nat, pc: Pc, s: Shared, ch: Choice)
    requires pc.Want? || pc.Heartbeat?
    requires TellingOk(pid, pc, s)
    ensures TellingOk(pid, Exec(pc, s, ch).pc, After(pid, pc, s, ch))
  {
    assert After(pid, pc, s, ch).reg == s.reg;
  }

  lemma PlainTells(pid: nat, pc: Pc, s: Shared, ch: Choice)
    requires !pc.Want? && !pc.Heartbeat? && !pc.Sending? && !pc.Release?
    ensures TellingOk(pid, Exec(pc, s, ch).pc, After(pid, pc, s, ch))
  {
    assert !Exec(pc, s, ch).pc.Sending?;
  }

  lemma ExecTells(pid: nat, pc: Pc, s: Shared, ch: Choice)
    requires SharedOk(s) && BodyOk(pid, pc, s) && MayStep(pc, s, ch) && TellingOk(pid, pc, s)
    ensures TellingOk(pid, Exec(pc, s, ch).pc, After(pid, pc, s, ch))
  {
    match pc
    case Want(_, _, _) => BeginTells(pid, pc, s, ch);
    case Heartbeat(_, _, _, _) => BeginTells(pid, pc, s, ch);
    case Sending(_, left, _) => if left != {} { SendingTells(pid, pc, s, ch); }
    case Release(_) =>
    case _ => PlainTells(pid, pc, s, ch);
  }

  lemma TellingStays(p: nat, pc: Pc, pid: nat, s: Shared, s': Shared)
    requires |s.hist.handlers| == |s.reg.chans| && Frame(pid, s, s') && (HoldsLock(pc) ==> p in s.readers)
    requires TellingOk(p, pc, s)
    ensures TellingOk(p, pc, s')
  {
  }

  lemma StepTells(h: Hub, a: Action)
    requires Inv(h) && Enabled(h, a) && AllTelling(h)
    ensures AllTelling(Apply(h, a))
  {
    var h' := Apply(h, a);
    if a.Run? {
      var pc := h.procs[a.pid];
      assert PcOk(a.pid, pc, h.sh);
      ExecIsLegal(a.pid, pc, h.sh, a.ch);
      OpFrame(h.sh, a.pid, Exec(pc, h.sh, a.ch).op);
      ExecTells(a.pid, pc, h.sh, a.ch);
      forall p | p in h'.procs ensures TellingOk(p, h'.procs[p], h'.sh) {
        if p != a.pid {
          TellingStays(p, h.procs[p], a.pid, h.sh, h'.sh);
        }
      }
    } else {
      forall p | p in h'.procs ensures TellingOk(p, h'.procs[p], h'.sh) {
        assert p in h.procs ==> TellingOk(p, h.procs[p], h.sh);
      }
    }
  }

  lemma {:induction false} RunsTell(hs: seq<Hub>, acts: seq<Action>, i: nat)
    requires IsRun(hs, acts) && i < |hs|
    ensures AllTelling(hs[i])
  {
    if i > 0 {
      RunsTell(hs, acts, i - 1);
      RunsKeepInv(hs, acts, i - 1);
      assert StepAt(hs, acts, i - 1);
      StepTells(hs[i - 1], acts[i - 1]);
    }
  }

  /**
   Step `k` ends a broadcast of `e` by process `pid`: everyone subscribed then, the device
   itself apart, has been offered the event, and its channel took it unless its buffer was full.
   */
  ghost predicate Announces(hs: seq<Hub>, acts: seq<Action>, k: nat, pid: nat, e: Event)
    requires |hs| == |acts| + 1
  {
    && k < |acts| && acts[k].Run? && acts[k].pid == pid
    && forall x | x in hs[k].sh.reg.subs && x !in Skipped(e) ::
         var o := Offer(pid, hs[k].sh.reg.subs[x], e);
         && o in hs[k].sh.hist.offers && o.chan < |hs[k].sh.reg.chans|
         && (e in hs[k].sh.reg.chans[o.chan].sent || o in hs[k].sh.hist.drops)
  }

  lemma BroadcastsReachEveryone(hs: seq<Hub>, acts: seq<Action>, k: nat, pid: nat, e: Event, next: Pc, ch: Choice)
    requires IsRun(hs, acts) && StepOf(hs, acts, k, pid, Sending(e, {}, next), ch)
    ensures Announces(hs, acts, k, pid, e)
    ensures pid in hs[k + 1].procs && hs[k + 1].procs[pid] == next
  {
    RunsTell(hs, acts, k);
    RunsKeepInv(hs, acts, k);
    assert StepAt(hs, acts, k);
    assert TellingOk(pid, hs[k].procs[pid], hs[k].sh);
    assert {} + Skipped(e) == Skipped(e);
  }

  ghost predicate StepBy(acts: seq<Action>, k: nat, pid: nat) {
    k < |acts| && acts[k].Run? && acts[k].pid == pid
  }

  /** In a broadcast of `e`, to go on at `next`. */
  predicate Broadcasting(pc: Pc, e: Event, next: Pc) {
    match pc
    case Want(x, _, n) => x == e && n == next
    case Sending(x, _, n) => x == e && n == next
    case Release(n) => n.Want? && n.e == e && n.next == next
    case _ => false
  }

  ghost predicate AtBroadcast(h: Hub, pid: nat, e: Event, next: Pc) {
    pid in h.procs && Broadcasting(h.procs[pid], e, next)
  }

  lemma BroadcastStep(hs: seq<Hub>, acts: seq<Action>, j: nat, pid: nat, e: Event, next: Pc)
    requires IsRun(hs, acts) && j < |acts| && SameEpoch(hs, j, j + 1) && AtBroadcast(hs[j], pid, e, next)
    ensures AtBroadcast(hs[j + 1], pid, e, next) || EndsBroadcast(hs, acts, j, pid, e, next)
  {
    assert StepAt(hs, acts, j);
    if StepBy(acts, j, pid) {
      var pc := hs[j].procs[pid];
      if pc.Sending? && pc.left == {} {
        BroadcastsReachEveryone(hs, acts, j, pid, e, next, acts[j].ch);
      }
    }
  }

  ghost predicate EndsBroadcast(hs: seq<Hub>, acts: seq<Action>, k: nat, pid: nat, e: Event, next: Pc)
    requires |hs| == |acts| + 1
  {
    Announces(hs, acts, k, pid, e) && pid in hs[k + 1].procs && hs[k + 1].procs[pid] == next
  }

  /** A broadcast once begun is either still going on, or it has reached everyone. */
  lemma {:induction false} BroadcastGoesOn(hs: seq<Hub>, acts: seq<Action>, w: nat, j: nat, pid: nat,
                                           e: Event, next: Pc)
    requires IsRun(hs, acts) && w <= j < |hs| && SameEpoch(hs, w, j) && AtBroadcast(hs[w], pid, e, next)
    ensures AtBroadcast(hs[j], pid, e, next) || exists k :: w <= k < j && EndsBroadcast(hs, acts, k, pid, e, next)
  {
    if w < j {
      var k := j - 1;
      EpochBetween(hs, acts, w, k, j);
      BroadcastGoesOn(hs, acts, w, k, pid, e, next);
      if AtBroadcast(hs[k], pid, e, next) {
        BroadcastStep(hs, acts, k, pid, e, next);
      }
    }
  }

  /** A process that is elsewhere at `j` has finished the broadcast it was at in state `w`. */
  lemma BroadcastIsOver(hs: seq<Hub>, acts: seq<Action>, w: nat, j: nat, pid: nat, e: Event, next: Pc) returns (k: nat)
    requires IsRun(hs, acts) && w <= j < |hs| && SameEpoch(hs, w, j) && AtBroadcast(hs[w], pid, e, next)
    requires pid in hs[j].procs && !Broadcasting(hs[j].procs[pid], e, next)
    ensures w <= k < j && EndsBroadcast(hs, acts, k, pid, e, next)
  {
    BroadcastGoesOn(hs, acts, w, j, pid, e, next);
    k :| w <= k < j && EndsBroadcast(hs, acts, k, pid, e, next);
  }

  /** A process that has finished told everyone of the event whose broadcast it began at step `w`. */
  lemma ToldBy(hs: seq<Hub>, acts: seq<Action>, s: nat, w: nat, j: nat, pid: nat, e: Event) returns (k: nat)
    requires IsRun(hs, acts) && s <= w < j < |hs| && SameEpoch(hs, s, j) && AtBroadcast(hs[w + 1], pid, e, Done)
    requires pid in hs[j].procs && hs[j].procs[pid] == Done
    ensures w < k < j && Announces(hs, acts, k, pid, e)
  {
    EpochBetween(hs, acts, s, w + 1, j);
    k := BroadcastIsOver(hs, acts, w + 1, j, pid, e, Done);
  }

  lemma EpochBetween(hs: seq<Hub>, acts: seq<Action>, i: nat, k: nat, j: nat)
    requires IsRun(hs, acts) && i <= k <= j < |hs| && SameEpoch(hs, i, j)
    ensures SameEpoch(hs, i, k) && SameEpoch(hs, k, j)
  {
    EpochsGrow(hs, acts, i, k);
    EpochsGrow(hs, acts, k, j);
  }

  /** What a process is at does not change at a step that is not its own. */
  lemma Stands(hs: seq<Hub>, acts: seq<Action>, j: nat, pid: nat)
    requires IsRun(hs, acts) && j < |acts| && SameEpoch(hs, j, j + 1) && pid in hs[j].procs && !StepBy(acts, j, pid)
    ensures pid in hs[j + 1].procs && hs[j + 1].procs[pid] == hs[j].procs[pid]
  {
    assert StepAt(hs, acts, j);
  }

  lemma Moves(hs: seq<Hub>, acts: seq<Action>, j: nat, pid: nat)
    requires IsRun(hs, acts) && StepBy(acts, j, pid)
    ensures pid in hs[j].procs && pid in hs[j + 1].procs
    ensures StepOf(hs, acts, j, pid, hs[j].procs[pid], acts[j].ch) && MayStep(hs[j].procs[pid], hs[j].sh, acts[j].ch)
    ensures hs[j + 1].procs[pid] == Exec(hs[j].procs[pid], hs[j].sh, acts[j].ch).pc
  {
    assert StepAt(hs, acts, j);
  }

  lemma Called(hs: seq<Hub>, acts: seq<Action>, s: nat, pid: nat, pc: Pc)
    requires IsRun(hs, acts) && s < |acts| && acts[s] == Spawn(pid, pc)
    ensures pid in hs[s + 1].procs && hs[s + 1].procs[pid] == pc && IsEntry(pc)
  {
    assert StepAt(hs, acts, s);
  }

  predicate IsEnd(pc: Pc) {
    pc == Done || pc == Release(Done)
  }

  /** With step `k` the handler ends early, without a broadcast. */
  ghost predicate GivesUpAt(hs: seq<Hub>, acts: seq<Action>, k: nat, pid: nat)
    requires |hs| == |acts| + 1
  {
    && StepBy(acts, k, pid) && pid in hs[k].procs && !IsEnd(hs[k].procs[pid])
    && pid in hs[k + 1].procs && IsEnd(hs[k + 1].procs[pid])
  }

  lemma EndExec(pc: Pc, s: Shared, ch: Choice)
    requires IsEnd(pc)
    ensures IsEnd(Exec(pc, s, ch).pc)
  {
  }

  ghost predicate RecordsBeatAt(hs: seq<Hub>, acts: seq<Action>, k: nat, pid: nat, d: Device)
    requires |hs| == |acts| + 1
  {
    StepBy(acts, k, pid) && d in hs[k + 1].sh.table && hs[k + 1].sh.table[d].beat == hs[k].sh.clock
  }

  ghost predicate Beaten(hs: seq<Hub>, acts: seq<Action>, s: nat, j: nat, pid: nat, d: Device)
    requires |hs| == |acts| + 1
  {
    exists b :: s < b < j && RecordsBeatAt(hs, acts, b, pid, d)
  }

  // ---- A Register ----

  /** With step `k` the handler refuses, and then a statement fails, the hub is draining, or the device is unknown. */
  ghost predicate RefusesAt(hs: seq<Hub>, acts: seq<Action>, k: nat, pid: nat, d: Device)
    requires |hs| == |acts| + 1
  {
    GivesUpAt(hs, acts, k, pid) && (acts[k].ch.fail || hs[k].sh.reg.draining || d !in hs[k].sh.table)
  }

  ghost predicate Refused(hs: seq<Hub>, acts: seq<Action>, s: nat, j: nat, pid: nat, d: Device)
    requires |hs| == |acts| + 1
  {
    exists k :: s < k < j && RefusesAt(hs, acts, k, pid, d)
  }

  /** Step `k` leaves the row online at this address. */
  ghost predicate WritesOnline(hs: seq<Hub>, acts: seq<Action>, k: nat, pid: nat, d: Device, ip: string, port: int)
    requires |hs| == |acts| + 1
  {
    && StepBy(acts, k, pid) && IsOnline(hs[k + 1].sh.table, d)
    && hs[k + 1].sh.table[d].ip == ip && hs[k + 1].sh.table[d].port == port
  }

  ghost predicate RegistersAt(hs: seq<Hub>, acts: seq<Action>, s: nat, w: nat, pid: nat, reg: Pc)
    requires |hs| == |acts| + 1 && reg.Register?
  {
    && WritesOnline(hs, acts, w, pid, reg.d, reg.ip, reg.port) && Beaten(hs, acts, s, w, pid, reg.d)
    && AtBroadcast(hs[w + 1], pid, DeviceOnline(reg.d, ByRegister), Done)
  }

  predicate PastBeat(rg: RgAt) {
    rg == RgLock || rg == RgDrainCheck || rg == RgWrite
  }

  /** How far the Register called at step `s` has come in state `j`. */
  ghost predicate RegisterSoFar(hs: seq<Hub>, acts: seq<Action>, s: nat, j: nat, pid: nat, reg: Pc)
    requires |hs| == |acts| + 1 && j < |hs| && reg.Register?
  {
    && pid in hs[j].procs
    && (|| (exists w :: s < w < j && RegistersAt(hs, acts, s, w, pid, reg))
        || (IsEnd(hs[j].procs[pid]) && Refused(hs, acts, s, j, pid, reg.d))
        || Registering(hs, acts, s, j, pid, reg))
  }

  ghost predicate Registering(hs: seq<Hub>, acts: seq<Action>, s: nat, j: nat, pid: nat, reg: Pc)
    requires |hs| == |acts| + 1 && j < |hs| && reg.Register?
  {
    && pid in hs[j].procs && hs[j].procs[pid].Register? && hs[j].procs[pid] == reg.(rg := hs[j].procs[pid].rg)
    && (PastBeat(hs[j].procs[pid].rg) ==> Beaten(hs, acts, s, j, pid, reg.d))
  }

  /** Where one step of a Register leads. */
  lemma RegisterExec(pc: Pc, s: Shared, ch: Choice)
    requires pc.Register?
    ensures var pc' := Exec(pc, s, ch).pc;
            || (&& pc'.Register? && pc' == pc.(rg := pc'.rg)
                && (PastBeat(pc'.rg) ==> PastBeat(pc.rg) || (RecordsBeat(pc, ch, pc.d) && pc.d in s.table)))
            || (IsEnd(pc') && (ch.fail || s.reg.draining || pc.d !in s.table))
            || (&& BringsOnline(pc, s.table, ch, pc.d) && PastBeat(pc.rg)
                && Broadcasting(pc', DeviceOnline(pc.d, ByRegister), Done))
  {
  }

  /** What it writes on the way. */
  lemma RegisterEffect(hs: seq<Hub>, acts: seq<Action>, j: nat, pid: nat, pc: Pc, ch: Choice)
    requires IsRun(hs, acts) && StepOf(hs, acts, j, pid, pc, ch) && pc.Register? && pc.d in hs[j].sh.table
    ensures RecordsBeat(pc, ch, pc.d) ==> RecordsBeatAt(hs, acts, j, pid, pc.d)
    ensures BringsOnline(pc, hs[j].sh.table, ch, pc.d) ==> WritesOnline(hs, acts, j, pid, pc.d, pc.ip, pc.port)
  {
    RowsChangeExactlyWhen(hs, acts, j, pid, pc, ch, pc.d);
  }

  lemma RegisterMoves(hs: seq<Hub>, acts: seq<Action>, s: nat, j: nat, pid: nat, reg: Pc)
    requires IsRun(hs, acts) && s < j < |acts| && reg.Register? && Registering(hs, acts, s, j, pid, reg)
    requires StepBy(acts, j, pid)
    ensures RegisterSoFar(hs, acts, s, j + 1, pid, reg)
  {
    Moves(hs, acts, j, pid);
    var pc, pc', ch := hs[j].procs[pid], hs[j + 1].procs[pid], acts[j].ch;
    RegisterExec(pc, hs[j].sh, ch);
    if pc.d in hs[j].sh.table {
      RegisterEffect(hs, acts, j, pid, pc, ch);
    }
    if IsEnd(pc') {
      assert RefusesAt(hs, acts, j, pid, pc.d);
    } else if Broadcasting(pc', DeviceOnline(reg.d, ByRegister), Done) {
      assert RegistersAt(hs, acts, s, j, pid, reg);
    }
  }

  lemma RegisterStep(hs: seq<Hub>, acts: seq<Action>, s: nat, j: nat, pid: nat, reg: Pc)
    requires IsRun(hs, acts) && s < j < |acts| && reg.Register? && RegisterSoFar(hs, acts, s, j, pid, reg)
    requires SameEpoch(hs, j, j + 1)
    ensures RegisterSoFar(hs, acts, s, j + 1, pid, reg)
  {
    if !StepBy(acts, j, pid) {
      Stands(hs, acts, j, pid);
    } else if Registering(hs, acts, s, j, pid, reg) {
      RegisterMoves(hs, acts, s, j, pid, reg);
    } else {
      Moves(hs, acts, j, pid);
      if IsEnd(hs[j].procs[pid]) { EndExec(hs[j].procs[pid], hs[j].sh, acts[j].ch); }
    }
  }

  lemma RegisterBegins(hs: seq<Hub>, acts: seq<Action>, s: nat, pid: nat, reg: Pc)
    requires IsRun(hs, acts) && s < |acts| && acts[s] == Spawn(pid, reg) && reg.Register?
    ensures RegisterSoFar(hs, acts, s, s + 1, pid, reg)
  {
    Called(hs, acts, s, pid, reg);
    assert Registering(hs, acts, s, s + 1, pid, reg);
  }

  lemma {:induction false} RegisterReaches(hs: seq<Hub>, acts: seq<Action>, s: nat, j: nat, pid: nat, reg: Pc)
    requires IsRun(hs, acts) && s < j < |hs| && SameEpoch(hs, s, j)
    requires reg.Register? && RegisterSoFar(hs, acts, s, s + 1, pid, reg)
    ensures RegisterSoFar(hs, acts, s, j, pid, reg)
  {
    if s + 1 < j {
      var k := j - 1;
      EpochBetween(hs, acts, s, k, j);
      RegisterReaches(hs, acts, s, k, pid, reg);
      RegisterStep(hs, acts, s, k, pid, reg);
    }
  }

  /**
   A Register that is finished has recorded the heartbeat, then left the row online at the
   address it reported, and then told everyone else; or it met a reason to refuse: the hub
   draining, the device unknown, or a statement that failed.
   */
  lemma RegisterStory(hs: seq<Hub>, acts: seq<Action>, s: nat, j: nat, pid: nat, d: Device, ip: string, port: int)
    requires IsRun(hs, acts) && s < j < |hs| && SameEpoch(hs, s, j)
    requires acts[s] == Spawn(pid, Register(d, ip, port, RgLoad))
    requires pid in hs[j].procs && hs[j].procs[pid] == Done
    ensures || (exists k :: s < k < j && RefusesAt(hs, acts, k, pid, d))
            || (exists b, w, k :: && s < b < w < k < j && RecordsBeatAt(hs, acts, b, pid, d)
                                  && WritesOnline(hs, acts, w, pid, d, ip, port)
                                  && Announces(hs, acts, k, pid, DeviceOnline(d, ByRegister)))
  {
    var reg := Register(d, ip, port, RgLoad);
    RegisterBegins(hs, acts, s, pid, reg);
    RegisterReaches(hs, acts, s, j, pid, reg);
    if w :| s < w < j && RegistersAt(hs, acts, s, w, pid, reg) {
      var k := ToldBy(hs, acts, s, w, j, pid, DeviceOnline(d, ByRegister));
    }
  }

  // ---- A Heartbeat ----

  /** At step `g` the process sees an offline row without a port. */
  ghost predicate SeesNoPortAt(hs: seq<Hub>, acts: seq<Action>, g: nat, pid: nat, d: Device)
    requires |hs| == |acts| + 1
  {
    StepBy(acts, g, pid) && d in hs[g].sh.table && hs[g].sh.table[d].status == Offline && hs[g].sh.table[d].port == 0
  }

  ghost predicate PortUnknown(hs: seq<Hub>, acts: seq<Action>, s: nat, j: nat, pid: nat, d: Device)
    requires |hs| == |acts| + 1
  {
    exists g :: s < g < j && SeesNoPortAt(hs, acts, g, pid, d)
  }

  /**
   With step `k` the process leaves it at that, and then a statement fails, the device is
   unknown or not offline, its port was unknown, the hub is draining, or the device is not
   subscribed.
   */
  ghost predicate LeavesItAt(hs: seq<Hub>, acts: seq<Action>, s: nat, k: nat, pid: nat, d: Device)
    requires |hs| == |acts| + 1
  {
    && GivesUpAt(hs, acts, k, pid)
    && var sh := hs[k].sh;
       || acts[k].ch.fail || sh.reg.draining || d !in sh.reg.subs
       || d !in sh.table || sh.table[d].status != Offline || PortUnknown(hs, acts, s, k, pid, d)
  }

  ghost predicate NothingToRecover(hs: seq<Hub>, acts: seq<Action>, s: nat, j: nat, pid: nat, d: Device)
    requires |hs| == |acts| + 1
  {
    exists k :: s < k < j && LeavesItAt(hs, acts, s, k, pid, d)
  }

  /** Step `w` turns the offline row of a subscribed device online, before the hub drains. */
  ghost predicate RecoversAt(hs: seq<Hub>, acts: seq<Action>, w: nat, pid: nat, d: Device, ip: string)
    requires |hs| == |acts| + 1
  {
    && StepBy(acts, w, pid) && d in hs[w].sh.table && hs[w].sh.table[d].status == Offline
    && IsOnline(hs[w + 1].sh.table, d) && (ip != "" ==> hs[w + 1].sh.table[d].ip == ip)
    && d in hs[w].sh.reg.subs && !hs[w].sh.reg.draining
  }

  ghost predicate Recovering(hs: seq<Hub>, acts: seq<Action>, s: nat, w: nat, pid: nat, hb: Pc)
    requires |hs| == |acts| + 1 && hb.Heartbeat?
  {
    && RecoversAt(hs, acts, w, pid, hb.d, hb.ip) && Beaten(hs, acts, s, w, pid, hb.d)
    && AtBroadcast(hs[w + 1], pid, DeviceOnline(hb.d, ByRecovery), Done)
  }

  predicate PastGet(hb: HbAt) {
    hb != HbBeat && hb != HbGet
  }

  ghost predicate Beating(hs: seq<Hub>, acts: seq<Action>, s: nat, j: nat, pid: nat, hb: Pc)
    requires |hs| == |acts| + 1 && j < |hs| && hb.Heartbeat?
  {
    && pid in hs[j].procs && hs[j].procs[pid].Heartbeat?
    && var pc := hs[j].procs[pid];
       && pc.d == hb.d && pc.ip == hb.ip
       && (pc.hb != HbBeat ==> Beaten(hs, acts, s, j, pid, hb.d))
       && (PastGet(pc.hb) && pc.port == 0 ==> PortUnknown(hs, acts, s, j, pid, hb.d))
  }

  ghost predicate HeartbeatSoFar(hs: seq<Hub>, acts: seq<Action>, s: nat, j: nat, pid: nat, hb: Pc)
    requires |hs| == |acts| + 1 && j < |hs| && hb.Heartbeat?
  {
    && pid in hs[j].procs
    && (|| (exists w :: s < w < j && Recovering(hs, acts, s, w, pid, hb))
        || (IsEnd(hs[j].procs[pid]) && NothingToRecover(hs, acts, s, j, pid, hb.d))
        || Beating(hs, acts, s, j, pid, hb))
  }

  lemma HeartbeatExec(pc: Pc, s: Shared, ch: Choice)
    requires pc.Heartbeat?
    ensures var pc' := Exec(pc, s, ch).pc;
            || (&& pc'.Heartbeat? && pc' == pc.(hb := pc'.hb, port := pc'.port)
                && pc'.hb != HbBeat && (pc.hb == HbBeat ==> RecordsBeat(pc, ch, pc.d) && pc.d in s.table)
                && (PastGet(pc'.hb) && !PastGet(pc.hb) ==>
                      && pc.hb == HbGet && pc.d in s.table && s.table[pc.d].status == Offline
                      && pc'.port == s.table[pc.d].port)
                && (PastGet(pc.hb) ==> PastGet(pc'.hb) && pc'.port == pc.port))
            || (&& IsEnd(pc')
                && (|| ch.fail || pc.d !in s.table || s.table[pc.d].status != Offline || s.reg.draining
                    || pc.d !in s.reg.subs || (PastGet(pc.hb) && pc.port == 0)))
            || (&& BringsOnline(pc, s.table, ch, pc.d) && pc.hb == HbPromote
                && Broadcasting(pc', DeviceOnline(pc.d, ByRecovery), Done))
  {
  }

  lemma HeartbeatEffect(hs: seq<Hub>, acts: seq<Action>, j: nat, pid: nat, pc: Pc, ch: Choice)
    requires IsRun(hs, acts) && StepOf(hs, acts, j, pid, pc, ch) && pc.Heartbeat? && pc.d in hs[j].sh.table
    ensures RecordsBeat(pc, ch, pc.d) ==> RecordsBeatAt(hs, acts, j, pid, pc.d)
    ensures BringsOnline(pc, hs[j].sh.table, ch, pc.d) ==> RecoversAt(hs, acts, j, pid, pc.d, pc.ip)
  {
    RowsChangeExactlyWhen(hs, acts, j, pid, pc, ch, pc.d);
    RunsKeepInv(hs, acts, j);
    assert PcOk(pid, pc, hs[j].sh);
  }

  lemma HeartbeatMoves(hs: seq<Hub>, acts: seq<Action>, s: nat, j: nat, pid: nat, hb: Pc)
    requires IsRun(hs, acts) && s < j < |acts| && hb.Heartbeat? && Beating(hs, acts, s, j, pid, hb)
    requires StepBy(acts, j, pid)
    ensures HeartbeatSoFar(hs, acts, s, j + 1, pid, hb)
  {
    Moves(hs, acts, j, pid);
    var pc, pc', ch := hs[j].procs[pid], hs[j + 1].procs[pid], acts[j].ch;
    HeartbeatExec(pc, hs[j].sh, ch);
    if pc.d in hs[j].sh.table {
      HeartbeatEffect(hs, acts, j, pid, pc, ch);
    }
    if Broadcasting(pc', DeviceOnline(hb.d, ByRecovery), Done) {
      assert Recovering(hs, acts, s, j, pid, hb);
    } else if IsEnd(pc') {
      assert LeavesItAt(hs, acts, s, j, pid, pc.d);
    } else {
      assert SeesNoPortAt(hs, acts, j, pid, pc.d) ==> PortUnknown(hs, acts, s, j + 1, pid, pc.d);
    }
  }

  lemma HeartbeatStep(hs: seq<Hub>, acts: seq<Action>, s: nat, j: nat, pid: nat, hb: Pc)
    requires IsRun(hs, acts) && s < j < |acts| && hb.Heartbeat? && HeartbeatSoFar(hs, acts, s, j, pid, hb)
    requires SameEpoch(hs, j, j + 1)
    ensures HeartbeatSoFar(hs, acts, s, j + 1, pid, hb)
  {
    if !StepBy(acts, j, pid) {
      Stands(hs, acts, j, pid);
    } else if Beating(hs, acts, s, j, pid, hb) {
      HeartbeatMoves(hs, acts, s, j, pid, hb);
    } else {
      Moves(hs, acts, j, pid);
      if IsEnd(hs[j].procs[pid]) { EndExec(hs[j].procs[pid], hs[j].sh, acts[j].ch); }
    }
  }

  lemma {:induction false} HeartbeatReaches(hs: seq<Hub>, acts: seq<Action>, s: nat, j: nat, pid: nat, hb: Pc)
    requires IsRun(hs, acts) && s < j < |hs| && SameEpoch(hs, s, j)
    requires hb.Heartbeat? && HeartbeatSoFar(hs, acts, s, s + 1, pid, hb)
    ensures HeartbeatSoFar(hs, acts, s, j, pid, hb)
  {
    if s + 1 < j {
      var k := j - 1;
      EpochBetween(hs, acts, s, k, j);
      HeartbeatReaches(hs, acts, s, k, pid, hb);
      HeartbeatStep(hs, acts, s, k, pid, hb);
    }
  }

  lemma HeartbeatBegins(hs: seq<Hub>, acts: seq<Action>, s: nat, pid: nat, hb: Pc)
    requires IsRun(hs, acts) && s < |acts| && acts[s] == Spawn(pid, hb) && hb.Heartbeat?
    ensures HeartbeatSoFar(hs, acts, s, s + 1, pid, hb)
  {
    Called(hs, acts, s, pid, hb);
    assert Beating(hs, acts, s, s + 1, pid, hb);
  }

  /**
   A heartbeat that is finished has been recorded, has turned the offline row of its
   subscribed device online and told everyone else; or it met a reason not to.
   */
  lemma HeartbeatStory(hs: seq<Hub>, acts: seq<Action>, s: nat, j: nat, pid: nat, d: Device, ip: string, port: int)
    requires IsRun(hs, acts) && s < j < |hs| && SameEpoch(hs, s, j)
    requires acts[s] == Spawn(pid, Heartbeat(d, ip, port, HbBeat))
    requires pid in hs[j].procs && hs[j].procs[pid] == Done
    ensures || (exists k :: s < k < j && LeavesItAt(hs, acts, s, k, pid, d))
            || (exists b, w, k :: && s < b < w < k < j && RecordsBeatAt(hs, acts, b, pid, d)
                                  && RecoversAt(hs, acts, w, pid, d, ip)
                                  && Announces(hs, acts, k, pid, DeviceOnline(d, ByRecovery)))
  {
    var hb := Heartbeat(d, ip, port, HbBeat);
    HeartbeatBegins(hs, acts, s, pid, hb);
    HeartbeatReaches(hs, acts, s, j, pid, hb);
    if w :| s < w < j && Recovering(hs, acts, s, w, pid, hb) {
      var k := ToldBy(hs, acts, s, w, j, pid, DeviceOnline(d, ByRecovery));
    }
  }
}
