/**
 What a step of the hub changes, and which step changes it: when a row of the device
 table comes online, goes offline, appears or goes, what its columns are then, when a
 channel is opened or closed and what is sent on it. Each is an equivalence over every
 step of every run, in terms of where the process stands and what the statement met.
 */
module HubEffects {
  import opened DeviceTable
  import opened Subscribers
  import opened HubMachine
  import opened HubInvariant
  import opened HubSteps

  /** Step `i` is one of process `pid`, which stands at `pc`. */
  ghost predicate StepOf(hs: seq<Hub>, acts: seq<Action>, i: nat, pid: nat, pc: Pc, ch: Choice)
    requires |hs| == |acts| + 1
  {
    i < |acts| && acts[i] == Run(pid, ch) && pid in hs[i].procs && hs[i].procs[pid] == pc
  }

  // ---- Rows ----

  /** The process writes `d` online, over a row that exists: a Register's write, or a recovery of an offline row. */
  predicate BringsOnline(pc: Pc, t: Table, ch: Choice, d: Device) {
    && !ch.fail && d in t
    && match pc
       case Heartbeat(x, _, _, hb) => x == d && hb == HbPromote && t[d].status == Offline
       case Register(x, _, _, rg) => x == d && rg == RgWrite
       case _ => false
  }

  /** The process writes `d` offline: its Deregister, a monitor sweep that finds it stale, or the shutdown sweep. */
  predicate TakesOffline(pc: Pc, t: Table, ch: Choice, d: Device) {
    && !ch.fail && d in t
    && match pc
       case Deregister(x, _, _, dr) => x == d && dr == DrWrite
       case Sweep(timeout, begun, mn) =>
         && mn.MnEach? && mn.todo != [] && mn.todo[0] == d
         && t[d].status == Online && t[d].beat < begun - timeout
       case Stop(_, st) => st == StWrite && t[d].status == Online
       case _ => false
  }

  /** The process deletes the row: Leave, or a prune that was given it by its DELETE. */
  predicate Deletes(pc: Pc, ch: Choice, d: Device) {
    && !ch.fail
    && match pc
       case Leave(x, lv) => x == d && lv == LvDelete
       case Prune(pr) => pr.PrDelete? && d in ch.rows
       case _ => false
  }

  predicate Inserts(pc: Pc, t: Table, ch: Choice, d: Device) {
    && !ch.fail && pc.Join? && pc.d == d && d !in t && forall e | e in t :: t[e].nickname != pc.nickname
  }

  /** The columns a step writes into the row of `d`: status, ip and port; the heartbeat's time. */
  function RowAfter(pc: Pc, t: Table, now: int, ch: Choice, d: Device): Row
    requires d in t
  {
    var r := t[d];
    if BringsOnline(pc, t, ch, d) then
      Row(r.nickname, if pc.Heartbeat? && pc.ip == "" then r.ip else pc.ip,
          if pc.Heartbeat? then r.port else pc.port, Online, r.beat)
    else if TakesOffline(pc, t, ch, d) then
      Row(r.nickname, if pc.Deregister? then pc.ip else r.ip,
          if pc.Deregister? then pc.port else r.port, Offline, r.beat)
    else if RecordsBeat(pc, ch, d) then Row(r.nickname, r.ip, r.port, r.status, now)
    else r
  }

  predicate RecordsBeat(pc: Pc, ch: Choice, d: Device) {
    && !ch.fail
    && ((pc.Heartbeat? && pc.d == d && pc.hb == HbBeat) || (pc.Register? && pc.d == d && pc.rg == RgBeat))
  }

  lemma HandlerRow(pid: nat, pc: Pc, s: Shared, ch: Choice, d: Device)
    requires pc.Heartbeat? || pc.Register? || pc.Deregister?
    ensures var t' := After(pid, pc, s, ch).table;
            t'.Keys == s.table.Keys && (d in t' ==> t'[d] == RowAfter(pc, s.table, s.clock, ch, d))
  {
  }

  lemma SweeperRow(pid: nat, pc: Pc, s: Shared, ch: Choice, d: Device)
    requires pc.Sweep? || pc.Stop?
    ensures var t' := After(pid, pc, s, ch).table;
            t'.Keys == s.table.Keys && (d in t' ==> t'[d] == RowAfter(pc, s.table, s.clock, ch, d))
  {
  }

  lemma OtherRow(pid: nat, pc: Pc, s: Shared, ch: Choice, d: Device)
    requires !pc.Heartbeat? && !pc.Register? && !pc.Deregister? && !pc.Sweep? && !pc.Stop?
    ensures var t' := After(pid, pc, s, ch).table;
            && (d in t' <==> (d in s.table && !Deletes(pc, ch, d)) || Inserts(pc, s.table, ch, d))
            && (d in t' && d in s.table ==> t'[d] == s.table[d])
            && (d in t' && d !in s.table ==> t'[d] == Row(pc.nickname, pc.ip, 0, Registered, s.clock))
  {
  }

  /** The row of any device after a step of any process. */
  lemma ExecRow(pid: nat, pc: Pc, s: Shared, ch: Choice, d: Device)
    ensures var t' := After(pid, pc, s, ch).table;
            && (d in t' <==> (d in s.table && !Deletes(pc, ch, d)) || Inserts(pc, s.table, ch, d))
            && (d in t' && d in s.table ==> t'[d] == RowAfter(pc, s.table, s.clock, ch, d))
            && (d in t' && d !in s.table ==> t'[d] == Row(pc.nickname, pc.ip, 0, Registered, s.clock))
  {
    if pc.Heartbeat? || pc.Register? || pc.Deregister? {
      HandlerRow(pid, pc, s, ch, d);
    } else if pc.Sweep? || pc.Stop? {
      SweeperRow(pid, pc, s, ch, d);
    } else {
      OtherRow(pid, pc, s, ch, d);
    }
  }

  /** The row of every device after every step of a run. */
  lemma RowsChangeExactlyWhen(hs: seq<Hub>, acts: seq<Action>, i: nat, pid: nat, pc: Pc, ch: Choice, d: Device)
    requires IsRun(hs, acts) && StepOf(hs, acts, i, pid, pc, ch)
    ensures var t, t' := hs[i].sh.table, hs[i + 1].sh.table;
            && (d in t && d !in t' <==> d in t && Deletes(pc, ch, d))
            && (d !in t && d in t' <==> Inserts(pc, t, ch, d))
            && (!IsOnline(t, d) && IsOnline(t', d) <==> BringsOnline(pc, t, ch, d) && t[d].status != Online)
            && (d in t' && IsOnline(t, d) && !IsOnline(t', d) <==> IsOnline(t, d) && TakesOffline(pc, t, ch, d))
            && (d in t && d in t' ==> t'[d] == RowAfter(pc, t, hs[i].sh.clock, ch, d))
            && (d !in t && d in t' ==> t'[d] == Row(pc.nickname, pc.ip, 0, Registered, hs[i].sh.clock))
  {
    RunsKeepInv(hs, acts, i);
    assert StepAt(hs, acts, i);
    assert PcOk(pid, pc, hs[i].sh);
    ExecRow(pid, pc, hs[i].sh, ch, d);
  }

  /** A Register that reaches its write on an existing row leaves the row online, at the address it reported. */
  lemma RegisterBringsOnline(hs: seq<Hub>, acts: seq<Action>, i: nat, pid: nat, ch: Choice,
                             d: Device, ip: string, port: int)
    requires IsRun(hs, acts) && StepOf(hs, acts, i, pid, Register(d, ip, port, RgWrite), ch)
    requires !ch.fail && d in hs[i].sh.table
    ensures IsOnline(hs[i + 1].sh.table, d)
    ensures hs[i + 1].sh.table[d].ip == ip && hs[i + 1].sh.table[d].port == port
    ensures !hs[i + 1].sh.reg.draining
  {
    RowsChangeExactlyWhen(hs, acts, i, pid, Register(d, ip, port, RgWrite), ch, d);
    RunsKeepInv(hs, acts, i);
    assert PcOk(pid, hs[i].procs[pid], hs[i].sh);
    assert StepAt(hs, acts, i);
  }

  /**
   Beside the steps of processes only a reconcile at startup touches the table, taking every
   online row offline; and only a crash touches the registry, which it empties.
   */
  lemma OutsideSteps(hs: seq<Hub>, acts: seq<Action>, i: nat, d: Device)
    requires IsRun(hs, acts) && i < |acts| && !acts[i].Run?
    ensures hs[i + 1].sh.reg == if acts[i] == Crash then Reg(false, map[], [], false) else hs[i].sh.reg
    ensures var t, t' := hs[i].sh.table, hs[i + 1].sh.table;
            && t'.Keys == t.Keys
            && (d in t ==> t'[d] == if acts[i].Reconcile? && t[d].status == Online
                                    then Row(t[d].nickname, t[d].ip, t[d].port, Offline, t[d].beat) else t[d])
  {
    assert StepAt(hs, acts, i);
  }

  // ---- Channels ----

  /** The channels this step closes: a replaced or removed device's, a finished handler's own, or all. */
  function ClosedBy(pc: Pc, r: Reg): set<nat> {
    match pc
    case Stream(d, mine, _, sb) =>
      if sb == SbOpen && !r.draining then CurrentOf(r, d) else if sb.SbEnd? then {mine} else {}
    case Deregister(d, _, _, dr) => if dr == DrClose then CurrentOf(r, d) else {}
    case Leave(d, lv) => if lv == LvClose then CurrentOf(r, d) else {}
    case Prune(pr) => if pr.PrEach? && pr.rest != [] then CurrentOf(r, pr.rest[0]) else {}
    case Stop(_, st) => if st.StClose? then r.subs.Values else {}
    case _ => {}
  }

  predicate OpensChannel(pc: Pc, r: Reg) {
    pc.Stream? && pc.sb == SbOpen && !r.draining
  }

  predicate SendsOn(pc: Pc, r: Reg, ch: Choice, c: nat)
    requires c < |r.chans|
  {
    pc.Sending? && pc.left != {} && ch.who in r.subs && r.subs[ch.who] == c && |r.chans[c].buf| < 64
  }

  predicate TakesFrom(pc: Pc, r: Reg, ch: Choice, c: nat)
    requires c < |r.chans|
  {
    pc.Stream? && pc.sb == SbWait && pc.c == c && ch.stream.ChanEvent? && r.chans[c].buf != []
  }

  /** One channel before and after the step. */
  ghost predicate ChannelAfter(pc: Pc, r: Reg, r': Reg, ch: Choice, c: nat)
    requires c < |r.chans|
  {
    && c < |r'.chans|
    && (r'.chans[c].open <==> r.chans[c].open && c !in ClosedBy(pc, r))
    && r'.chans[c].sent == r.chans[c].sent + (if SendsOn(pc, r, ch, c) then [pc.e] else [])
    && r'.chans[c].taken == r.chans[c].taken + (if TakesFrom(pc, r, ch, c) then [r.chans[c].buf[0]] else [])
  }

  /** Who is on none of these channels keeps its subscription, and nobody else has one. */
  ghost predicate KeepsOthers(r: Reg, r': Reg, cs: set<nat>) {
    && (forall x | x in r'.subs :: x in r.subs && r'.subs[x] == r.subs[x] && r.subs[x] !in cs)
    && (forall x | x in r.subs && r.subs[x] !in cs :: x in r'.subs)
  }

  /** Who is subscribed after the step, and on which channel. */
  ghost predicate SubsAfter(pc: Pc, r: Reg, r': Reg) {
    && (r'.draining <==> r.draining || (pc.Stop? && pc.st == StDrain))
    && if OpensChannel(pc, r)
       then
         && |r'.chans| == |r.chans| + 1 && r'.chans[|r.chans|] == Chan(true, [], [], [])
         && r'.subs == r.subs[pc.d := |r.chans|]
       else |r'.chans| == |r.chans| && KeepsOthers(r, r', ClosedBy(pc, r))
  }

  lemma OpenChannel(pid: nat, pc: Pc, s: Shared, ch: Choice)
    requires Consistent(s.reg) && pc.Stream? && pc.sb == SbOpen
    ensures var r' := After(pid, pc, s, ch).reg;
            SubsAfter(pc, s.reg, r') && OnlyCloses(s.reg, r', ClosedBy(pc, s.reg))
  {
    SubscribedKeeps(s.reg, pc.d);
    assert After(pid, pc, s, ch).reg == Subscribed(s.reg, pc.d);
  }

  lemma DropKeepsOthers(r: Reg, d: Device)
    requires Consistent(r)
    ensures KeepsOthers(r, Removed(r, d), CurrentOf(r, d))
  {
    RemovedKeeps(r, d);
  }

  lemma EndKeepsOthers(r: Reg, d: Device, c: nat)
    requires Consistent(r) && forall x | x in r.subs && r.subs[x] == c :: x == d
    ensures KeepsOthers(r, Unsubscribed(r, d, c), {c}) && OnlyCloses(r, Unsubscribed(r, d, c), {c})
  {
    UnsubscribedKeeps(r, d, c);
    if c < |r.chans| && r.chans[c].open {
      assert c in r.subs.Values;
    }
  }

  /** Unsubscribing closes the handler's own channel, and only that: who is subscribed on another one stays. */
  lemma EndChannel(pid: nat, pc: Pc, s: Shared, ch: Choice)
    requires SharedOk(s) && pc.Stream? && pc.sb.SbEnd? && StreamOk(pid, pc, s)
    ensures var r' := After(pid, pc, s, ch).reg;
            SubsAfter(pc, s.reg, r') && OnlyCloses(s.reg, r', ClosedBy(pc, s.reg))
  {
    OwnChannel(pid, pc, s);
    EndKeepsOthers(s.reg, pc.d, pc.c);
    EndSubs(pc, s.reg);
    assert After(pid, pc, s, ch).reg == Unsubscribed(s.reg, pc.d, pc.c);
  }

  lemma OwnChannel(pid: nat, pc: Pc, s: Shared)
    requires SharedOk(s) && pc.Stream? && pc.sb.SbEnd? && StreamOk(pid, pc, s)
    ensures pc.c < |s.reg.chans| && forall x | x in s.reg.subs && s.reg.subs[x] == pc.c :: x == pc.d
  {
  }

  lemma EndSubs(pc: Pc, r: Reg)
    requires Consistent(r) && pc.Stream? && pc.sb.SbEnd?
    requires KeepsOthers(r, Unsubscribed(r, pc.d, pc.c), {pc.c})
    ensures SubsAfter(pc, r, Unsubscribed(r, pc.d, pc.c))
  {
    UnsubscribedKeeps(r, pc.d, pc.c);
  }

  lemma DropsWhom(pid: nat, pc: Pc, s: Shared, ch: Choice, d: Device)
    requires Exec(pc, s, ch).op == Locked(DropSub(d))
    ensures After(pid, pc, s, ch).reg == Removed(s.reg, d) && ClosedBy(pc, s.reg) == CurrentOf(s.reg, d)
    ensures !pc.Stream? && !pc.Stop?
  {
  }

  lemma DropChannel(pc: Pc, r: Reg, d: Device)
    requires Consistent(r) && !pc.Stream? && !pc.Stop? && ClosedBy(pc, r) == CurrentOf(r, d)
    ensures SubsAfter(pc, r, Removed(r, d)) && OnlyCloses(r, Removed(r, d), ClosedBy(pc, r))
  {
    RemovedKeeps(r, d);
    DropKeepsOthers(r, d);
  }

  lemma StopChannel(pid: nat, pc: Pc, s: Shared, ch: Choice)
    requires Consistent(s.reg) && pc.Stop?
    ensures var r' := After(pid, pc, s, ch).reg;
            SubsAfter(pc, s.reg, r') && OnlyCloses(s.reg, r', ClosedBy(pc, s.reg))
  {
    AllClosedKeeps(s.reg);
    if pc.st.StClose? {
      assert After(pid, pc, s, ch).reg == AllClosed(s.reg);
    }
  }

  lemma OtherChannel(pid: nat, pc: Pc, s: Shared, ch: Choice)
    requires !Exec(pc, s, ch).op.Locked? && !pc.Sending? && !pc.Stream? && !pc.Stop?
    ensures After(pid, pc, s, ch).reg == s.reg && ClosedBy(pc, s.reg) == {}
  {
  }

  /** The lock sections, the environment's part of a broadcast or a receive apart. */
  lemma LockChannels(pid: nat, pc: Pc, s: Shared, ch: Choice)
    requires SharedOk(s) && BodyOk(pid, pc, s) && !pc.Sending? && !(pc.Stream? && pc.sb != SbOpen && !pc.sb.SbEnd?)
    ensures var r' := After(pid, pc, s, ch).reg;
            SubsAfter(pc, s.reg, r') && OnlyCloses(s.reg, r', ClosedBy(pc, s.reg))
  {
    if pc.Stream? {
      if pc.sb == SbOpen { OpenChannel(pid, pc, s, ch); } else { EndChannel(pid, pc, s, ch); }
    } else if pc.Stop? {
      StopChannel(pid, pc, s, ch);
    } else if Exec(pc, s, ch).op.Locked? {
      var d := Exec(pc, s, ch).op.locked.d;
      DropsWhom(pid, pc, s, ch, d);
      DropChannel(pc, s.reg, d);
    } else {
      OtherChannel(pid, pc, s, ch);
    }
  }

  lemma SendChannel(pid: nat, pc: Pc, s: Shared, ch: Choice)
    requires Consistent(s.reg) && pc.Sending?
    ensures var r' := After(pid, pc, s, ch).reg;
            && SubsAfter(pc, s.reg, r')
            && forall c | 0 <= c < |s.reg.chans| :: ChannelAfter(pc, s.reg, r', ch, c)
  {
    OfferedKeeps(s.reg, ch.who, pc.e);
    assert After(pid, pc, s, ch).reg == if pc.left == {} then s.reg else Offered(s.reg, ch.who, pc.e);
  }

  lemma ReceiveChannel(pid: nat, pc: Pc, s: Shared, ch: Choice)
    requires Consistent(s.reg) && pc.Stream? && !pc.sb.SbEnd? && pc.sb != SbOpen
    ensures var r' := After(pid, pc, s, ch).reg;
            && SubsAfter(pc, s.reg, r')
            && forall c | 0 <= c < |s.reg.chans| :: ChannelAfter(pc, s.reg, r', ch, c)
  {
    ReceivedKeeps(s.reg, pc.c);
    assert After(pid, pc, s, ch).reg == s.reg || After(pid, pc, s, ch).reg == Received(s.reg, pc.c);
  }

  lemma ExecSubs(pid: nat, pc: Pc, s: Shared, ch: Choice)
    requires SharedOk(s) && BodyOk(pid, pc, s)
    ensures SubsAfter(pc, s.reg, After(pid, pc, s, ch).reg)
  {
    if pc.Sending? {
      SendChannel(pid, pc, s, ch);
    } else if pc.Stream? && pc.sb != SbOpen && !pc.sb.SbEnd? {
      ReceiveChannel(pid, pc, s, ch);
    } else {
      LockChannels(pid, pc, s, ch);
    }
  }

  lemma ExecChannel(pid: nat, pc: Pc, s: Shared, ch: Choice, c: nat)
    requires SharedOk(s) && BodyOk(pid, pc, s) && c < |s.reg.chans|
    ensures var r' := After(pid, pc, s, ch).reg; SubsAfter(pc, s.reg, r') && ChannelAfter(pc, s.reg, r', ch, c)
  {
    if pc.Sending? {
      SendChannel(pid, pc, s, ch);
    } else if pc.Stream? && pc.sb != SbOpen && !pc.sb.SbEnd? {
      ReceiveChannel(pid, pc, s, ch);
    } else {
      LockChannels(pid, pc, s, ch);
    }
  }

  /**
   Every channel after every step of a run: when it is closed, what it accepts and what is
   received from it; and who is subscribed then, on which channel.
   */
  lemma ChannelsChangeExactlyWhen(hs: seq<Hub>, acts: seq<Action>, i: nat, pid: nat, pc: Pc, ch: Choice, c: nat)
    requires IsRun(hs, acts) && StepOf(hs, acts, i, pid, pc, ch) && c < |hs[i].sh.reg.chans|
    ensures ChannelAfter(pc, hs[i].sh.reg, hs[i + 1].sh.reg, ch, c)
    ensures SubsAfter(pc, hs[i].sh.reg, hs[i + 1].sh.reg)
  {
    RunsKeepInv(hs, acts, i);
    assert StepAt(hs, acts, i);
    assert PcOk(pid, pc, hs[i].sh);
    ExecChannel(pid, pc, hs[i].sh, ch, c);
  }

  lemma SubsChangeExactlyWhen(hs: seq<Hub>, acts: seq<Action>, i: nat, pid: nat, pc: Pc, ch: Choice)
    requires IsRun(hs, acts) && StepOf(hs, acts, i, pid, pc, ch)
    ensures SubsAfter(pc, hs[i].sh.reg, hs[i + 1].sh.reg)
  {
    RunsKeepInv(hs, acts, i);
    assert StepAt(hs, acts, i);
    assert PcOk(pid, pc, hs[i].sh);
    ExecSubs(pid, pc, hs[i].sh, ch);
  }

  /**
   A Subscribe handler that ends closes its own channel and no other, and a device that has
   subscribed anew meanwhile keeps its subscription.
   */
  lemma LateUnsubscribeIsHarmless(hs: seq<Hub>, acts: seq<Action>, i: nat, pid: nat, pc: Pc, ch: Choice)
    requires IsRun(hs, acts) && StepOf(hs, acts, i, pid, pc, ch) && pc.Stream? && pc.sb.SbEnd?
    ensures var r, r' := hs[i].sh.reg, hs[i + 1].sh.reg;
            && |r'.chans| == |r.chans| && pc.c < |r.chans| && !r'.chans[pc.c].open
            && (forall c | 0 <= c < |r.chans| && c != pc.c :: r'.chans[c] == r.chans[c])
            && (forall x | x in r.subs && r.subs[x] != pc.c :: x in r'.subs && r'.subs[x] == r.subs[x])
            && (forall x | x in r'.subs :: x in r.subs && r.subs[x] != pc.c)
  {
    RunsKeepInv(hs, acts, i);
    assert StepAt(hs, acts, i);
    assert PcOk(pid, pc, hs[i].sh);
    EndChannel(pid, pc, hs[i].sh, ch);
  }
}
