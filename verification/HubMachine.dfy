/**
 The hub as a step machine. Any number of RPC handlers, monitor sweeps, prunes and one
 Stop run at once; each is a program counter (`Pc`) whose next step is one SQL
 statement, one write-lock section, or one step inside a read-lock section. A process
 that holds the read lock is in `readers`; a write-lock section needs `readers` empty.
 Every statement may fail (a cancelled context, a busy database), at the choice of the
 environment. The hub process may crash at any moment and start again on the same table.
 */
module HubMachine {
  import opened DeviceTable
  import opened Subscribers

  const PRUNE_BATCH_LIMIT := 500

  /** A promotion by heartbeat recovery: the device, and the channels open to other devices then. */
  datatype Flip = Flip(dev: Device, audience: set<nat>)

  /** One attempted send: process `pid` offered `event` to channel `chan`. */
  datatype Offer = Offer(pid: nat, chan: nat, event: Event)

  /** The Subscribe handler a channel was made for. */
  datatype Handler = Handler(pid: nat, dev: Device)

  /**
   What the theorems talk about beside the hub's own variables: heartbeats recorded for
   a device, promotions by recovery, attempted sends, those of them a full buffer dropped,
   who serves which channel, which rows a shutdown sweep demoted, and whether CloseAllSubscribers ran.
   Only `beats` survives a crash.
   */
  datatype Hist = Hist(beats: map<Device, seq<int>>, flips: map<nat, Flip>, offers: multiset<Offer>,
                       drops: set<Offer>,
                       handlers: seq<Handler>, sweeps: map<nat, set<Device>>, allClosed: bool)

  function Forgotten(beats: map<Device, seq<int>>): Hist {
    Hist(beats, map[], multiset{}, {}, [], map[], false)
  }

  datatype Shared = Shared(table: Table, clock: int, reg: Reg, readers: set<nat>, hist: Hist)

  // Where a process stands in its handler: the statement it will execute next.
  datatype HbAt = HbBeat | HbGet | HbLoad | HbLook | HbShares | HbLock | HbDrainCheck | HbSubCheck | HbPromote
  datatype RgAt = RgLoad | RgGet | RgList | RgShares | RgBeat | RgLock | RgDrainCheck | RgWrite
  datatype DrAt = DrGet | DrClose | DrWrite
  datatype LvAt = LvGet | LvDelete | LvClose
  datatype SbAt = SbOpen | SbReady | SbWait | SbSend(e: Event) | SbEnd(drained: bool) | SbGone(drained: bool)
  datatype MnAt = MnStart | MnList | MnEach(todo: seq<Device>)
  datatype PrAt = PrStart(retention: int) | PrActive(threshold: int)
                | PrDelete(threshold: int, active: set<Device>) | PrEach(rest: seq<Device>)
  datatype StAt = StDrain | StList | StWrite | StTell(told: nat) | StClose(quiet: bool) | StDone(quiet: bool)

  /**
   A process. `Stream` is Server.Subscribe on channel `c`, and `out` what it has sent to
   its client. `Sweep` is HeartbeatMonitor.checkStale begun at `begun`. In `Stop`,
   `quiet` says that the shutdown sweep wrote, or found nothing online. The last four are
   shared: a broadcast waits for the read lock (`Want`), sends to each subscriber that is
   `left` (`Sending`), releases, and goes on at `next`.
   */
  datatype Pc =
    | Heartbeat(d: Device, ip: string, port: int, hb: HbAt)
    | Register(d: Device, ip: string, port: int, rg: RgAt)
    | Deregister(d: Device, ip: string, port: int, dr: DrAt)
    | Leave(d: Device, lv: LvAt)
    | Stream(d: Device, c: nat, out: seq<Event>, sb: SbAt)
    | Sweep(timeout: int, begun: int, mn: MnAt)
    | Prune(pr: PrAt)
    | Stop(listed: seq<Device>, st: StAt)
    | Join(d: Device, nickname: string, ip: string)
    | Want(e: Event, skip: set<Device>, next: Pc)
    | Sending(e: Event, left: set<Device>, next: Pc)
    | Release(next: Pc)
    | Done

  datatype StoreOp =
    | WriteBeat(d: Device)
    | WriteStatus(d: Device, status: Status, ip: string, port: int)
    | WritePromotion(d: Device, ip: string)
    | WriteDemotion(d: Device, threshold: int)
    | WriteSweep
    | WriteDelete(ds: set<Device>)
    | WriteInsert(d: Device, nickname: string, ip: string)

  /** Write-lock sections. */
  datatype LockOp =
    | SetDraining
    | AddSub(d: Device)
    | DropSub(d: Device)
    | DropIfCurrent(d: Device, c: nat)
    | DropAll

  /** What one step does to the shared state. */
  datatype Op =
    | Nop
    | RLock
    | RUnlock
    | Store(store: StoreOp)
    | Locked(locked: LockOp)
    | OfferTo(d: Device, e: Event)
    | Receive(c: nat)

  datatype StreamCase = CtxDone | ChanClosed | ChanEvent

  /** The environment's part of a step: errors, orders of iteration and of rows, select's pick. */
  datatype Choice = Choice(fail: bool, who: Device, rows: seq<Device>, stream: StreamCase)

  datatype Step = Step(pc: Pc, op: Op)

  function Announce(e: Event, next: Pc): Pc {
    Want(e, {e.dev}, next)
  }

  function ExecHeartbeat(pc: Pc, s: Shared, ch: Choice): Step
    requires pc.Heartbeat?
  {
    var d := pc.d;
    match pc.hb
    case HbBeat =>
      if ch.fail then Step(Done, Nop)
      else Step(if d in s.table then pc.(hb := HbGet) else Done, Store(WriteBeat(d)))
    case HbGet =>
      if !ch.fail && Promotable(s.table, d)
      then Step(pc.(hb := HbLoad, port := s.table[d].port), Nop)
      else Step(Done, Nop)
    case HbLoad => Step(if s.reg.draining then Done else pc.(hb := HbLook), Nop)
    case HbLook => Step(if d !in s.reg.subs || pc.port == 0 then Done else pc.(hb := HbShares), Nop)
    case HbShares => Step(if ch.fail then Done else pc.(hb := HbLock), Nop)
    case HbLock => Step(pc.(hb := HbDrainCheck), RLock)
    case HbDrainCheck => Step(if s.reg.draining then Release(Done) else pc.(hb := HbSubCheck), Nop)
    case HbSubCheck => Step(if d !in s.reg.subs then Release(Done) else pc.(hb := HbPromote), Nop)
    case HbPromote =>
      if ch.fail then Step(Release(Done), Nop)
      else Step(if Promotable(s.table, d)
                then Sending(DeviceOnline(d, ByRecovery), s.reg.subs.Keys - {d}, Done)
                else Release(Done), Store(WritePromotion(d, pc.ip)))
  }

  function ExecRegister(pc: Pc, s: Shared, ch: Choice): Step
    requires pc.Register?
  {
    var d := pc.d;
    match pc.rg
    case RgLoad => Step(if s.reg.draining then Done else pc.(rg := RgGet), Nop)
    case RgGet => Step(if ch.fail || d !in s.table then Done else pc.(rg := RgList), Nop)
    case RgList => Step(if ch.fail then Done else pc.(rg := RgShares), Nop)
    case RgShares => Step(if ch.fail then Done else pc.(rg := RgBeat), Nop)
    case RgBeat =>
      if ch.fail then Step(Done, Nop)
      else Step(if d in s.table then pc.(rg := RgLock) else Done, Store(WriteBeat(d)))
    case RgLock => Step(pc.(rg := RgDrainCheck), RLock)
    case RgDrainCheck => Step(if s.reg.draining then Release(Done) else pc.(rg := RgWrite), Nop)
    case RgWrite =>
      if ch.fail then Step(Release(Done), Nop)
      else Step(Release(if d in s.table then Announce(DeviceOnline(d, ByRegister), Done) else Done),
                Store(WriteStatus(d, Online, pc.ip, pc.port)))
  }

  function ExecDeregister(pc: Pc, s: Shared, ch: Choice): Step
    requires pc.Deregister?
  {
    var d := pc.d;
    match pc.dr
    case DrGet =>
      if !ch.fail && d in s.table
      then Step(pc.(dr := DrClose, ip := s.table[d].ip, port := s.table[d].port), Nop)
      else Step(Done, Nop)
    case DrClose => Step(pc.(dr := DrWrite), Locked(DropSub(d)))
    case DrWrite =>
      if ch.fail then Step(Done, Nop)
      else Step(if d in s.table then Announce(DeviceOffline(d, ByDeregister), Done) else Done,
                Store(WriteStatus(d, Offline, pc.ip, pc.port)))
  }

  function ExecLeave(pc: Pc, s: Shared, ch: Choice): Step
    requires pc.Leave?
  {
    match pc.lv
    case LvGet => Step(if ch.fail || pc.d !in s.table then Done else pc.(lv := LvDelete), Nop)
    case LvDelete =>
      if ch.fail then Step(Done, Nop)
      else Step(Announce(DeviceRemoved(pc.d), pc.(lv := LvClose)), Store(WriteDelete({pc.d})))
    case LvClose => Step(Done, Locked(DropSub(pc.d)))
  }

  function ExecStream(pc: Pc, s: Shared, ch: Choice): Step
    requires pc.Stream?
  {
    match pc.sb
    case SbOpen =>
      Step(if s.reg.draining then Done else Stream(pc.d, |s.reg.chans|, [], SbReady), Locked(AddSub(pc.d)))
    case SbReady => Step(pc.(sb := if ch.fail then SbEnd(false) else SbWait), Nop)
    case SbWait =>
      if ch.stream.ChanEvent? && pc.c < |s.reg.chans| && s.reg.chans[pc.c].buf != []
      then Step(pc.(sb := SbSend(s.reg.chans[pc.c].buf[0])), Receive(pc.c))
      else Step(pc.(sb := SbEnd(ch.stream.ChanClosed?)), Nop)
    case SbSend(e) =>
      Step(if ch.fail then pc.(sb := SbEnd(false)) else pc.(sb := SbWait, out := pc.out + [e]), Nop)
    case SbEnd(drained) => Step(pc.(sb := SbGone(drained)), Locked(DropIfCurrent(pc.d, pc.c)))
    case SbGone(_) => Step(pc, Nop)
  }

  function ExecSweep(pc: Pc, s: Shared, ch: Choice): Step
    requires pc.Sweep?
  {
    match pc.mn
    case MnStart => Step(pc.(begun := s.clock, mn := MnList), Nop)
    case MnList => Step(if ch.fail then Done else pc.(mn := MnEach(ch.rows)), Nop)
    case MnEach(todo) =>
      if todo == [] then Step(Done, Nop)
      else
        var rest := pc.(mn := MnEach(todo[1..]));
        if ch.fail then Step(rest, Nop)
        else Step(if Stale(s.table, todo[0], pc.begun - pc.timeout)
                  then Announce(DeviceOffline(todo[0], ByMonitor), rest) else rest,
                  Store(WriteDemotion(todo[0], pc.begun - pc.timeout)))
  }

  function ExecPrune(pc: Pc, s: Shared, ch: Choice): Step
    requires pc.Prune?
  {
    match pc.pr
    case PrStart(retention) => Step(Prune(PrActive(s.clock - retention)), Nop)
    case PrActive(threshold) => Step(Prune(PrDelete(threshold, s.reg.subs.Keys)), Nop)
    case PrDelete(threshold, active) =>
      if ch.fail then Step(Done, Nop)
      else Step(Prune(PrEach(ch.rows)), Store(WriteDelete(set d | d in ch.rows)))
    case PrEach(rest) =>
      if rest == [] then Step(Done, Nop)
      else Step(Announce(DeviceRemoved(rest[0]), Prune(PrEach(rest[1..]))), Locked(DropSub(rest[0])))
  }

  function ExecStop(pc: Pc, s: Shared, ch: Choice): Step
    requires pc.Stop?
  {
    match pc.st
    case StDrain => Step(pc.(st := StList), Locked(SetDraining))
    case StList =>
      Step(if ch.fail || ch.rows == [] then Stop([], StClose(!ch.fail)) else Stop(ch.rows, StWrite), Nop)
    case StWrite =>
      if ch.fail then Step(pc.(st := StClose(false)), Nop)
      else Step(pc.(st := StTell(0)), Store(WriteSweep))
    case StTell(told) =>
      Step(if told < |pc.listed|
           then Want(DeviceOffline(pc.listed[told], BySweep), {}, pc.(st := StTell(told + 1)))
           else pc.(st := StClose(true)), Nop)
    case StClose(quiet) => Step(pc.(st := StDone(quiet)), Locked(DropAll))
    case StDone(_) => Step(pc, Nop)
  }

  function Exec(pc: Pc, s: Shared, ch: Choice): Step {
    match pc
    case Heartbeat(_, _, _, _) => ExecHeartbeat(pc, s, ch)
    case Register(_, _, _, _) => ExecRegister(pc, s, ch)
    case Deregister(_, _, _, _) => ExecDeregister(pc, s, ch)
    case Leave(_, _) => ExecLeave(pc, s, ch)
    case Stream(_, _, _, _) => ExecStream(pc, s, ch)
    case Sweep(_, _, _) => ExecSweep(pc, s, ch)
    case Prune(_) => ExecPrune(pc, s, ch)
    case Stop(_, _) => ExecStop(pc, s, ch)
    case Join(d, nickname, ip) => Step(Done, if ch.fail then Nop else Store(WriteInsert(d, nickname, ip)))
    case Want(e, skip, next) => Step(Sending(e, s.reg.subs.Keys - skip, next), RLock)
    case Sending(e, left, next) =>
      if left == {} then Step(next, RUnlock)
      else Step(Sending(e, left - {ch.who}, next), OfferTo(ch.who, e))
    case Release(next) => Step(next, RUnlock)
    case Done => Step(Done, Nop)
  }

  ghost predicate MayStream(pc: Pc, r: Reg, ch: Choice)
    requires pc.Stream?
  {
    match pc.sb
    case SbGone(_) => false
    case SbWait =>
      && (ch.stream.ChanClosed? ==> pc.c < |r.chans| && !r.chans[pc.c].open && r.chans[pc.c].buf == [])
      && (ch.stream.ChanEvent? ==> pc.c < |r.chans| && r.chans[pc.c].buf != [])
    case _ => true
  }

  /** The select of a prune: up to 500 prunable rows, those last heard of the longest ago, in that order. */
  ghost predicate MayPrune(t: Table, threshold: int, active: set<Device>, rows: seq<Device>) {
    && |rows| <= PRUNE_BATCH_LIMIT
    && (forall d | d in rows :: Prunable(t, d, threshold, active))
    && (forall i, j | 0 <= i < j < |rows| ::
          rows[i] != rows[j] && rows[i] in t && rows[j] in t && t[rows[i]].beat <= t[rows[j]].beat)
    && (forall d | d in t && Prunable(t, d, threshold, active) && d !in rows ::
          |rows| == PRUNE_BATCH_LIMIT && forall e | e in rows :: t[e].beat <= t[d].beat)
  }

  /** Which choices the environment may make at a program counter. */
  ghost predicate MayStep(pc: Pc, s: Shared, ch: Choice) {
    match pc
    case Done => false
    case Stop(_, st) =>
      !st.StDone? && (st.StList? && !ch.fail ==> Lists(ch.rows, OnlineOf(s.table)))
    case Sending(_, left, _) => left != {} ==> ch.who in left
    case Stream(_, _, _, _) => MayStream(pc, s.reg, ch)
    case Sweep(timeout, begun, mn) =>
      mn.MnList? && !ch.fail ==> Lists(ch.rows, StaleOf(s.table, begun - timeout))
    case Prune(pr) => pr.PrDelete? && !ch.fail ==> MayPrune(s.table, pr.threshold, pr.active, ch.rows)
    case _ => true
  }

  predicate OpEnabled(s: Shared, op: Op) {
    op.Locked? ==> s.readers == {}
  }

  function AudienceOf(r: Reg, d: Device): set<nat> {
    set x | x in r.subs && x != d :: r.subs[x]
  }

  function Logged(beats: map<Device, seq<int>>, d: Device, now: int): map<Device, seq<int>> {
    beats[d := (if d in beats then beats[d] else []) + [now]]
  }

  function ApplyStore(s: Shared, pid: nat, op: StoreOp): Shared {
    match op
    case WriteBeat(d) =>
      if d in s.table
      then s.(table := Beat(s.table, d, s.clock), hist := s.hist.(beats := Logged(s.hist.beats, d, s.clock)))
      else s
    case WriteStatus(d, status, ip, port) => s.(table := SetStatus(s.table, d, status, ip, port))
    case WritePromotion(d, ip) =>
      if Promotable(s.table, d)
      then s.(table := Promote(s.table, d, ip),
              hist := s.hist.(flips := s.hist.flips[pid := Flip(d, AudienceOf(s.reg, d))]))
      else s
    case WriteDemotion(d, threshold) => s.(table := DemoteIfStale(s.table, d, threshold))
    case WriteSweep =>
      s.(table := DemoteAll(s.table),
         hist := s.hist.(sweeps := s.hist.sweeps[pid := OnlineOf(s.table)]))
    case WriteDelete(ds) => s.(table := Delete(s.table, ds))
    case WriteInsert(d, nickname, ip) =>
      if Insertable(s.table, d, nickname)
      then s.(table := Insert(s.table, d, Row(nickname, ip, 0, Registered, s.clock)),
              hist := s.hist.(beats := Logged(s.hist.beats, d, s.clock)))
      else s
  }

  function LockedReg(r: Reg, op: LockOp): Reg {
    match op
    case SetDraining => Drained(r)
    case AddSub(d) => Subscribed(r, d)
    case DropSub(d) => Removed(r, d)
    case DropIfCurrent(d, c) => Unsubscribed(r, d, c)
    case DropAll => AllClosed(r)
  }

  function LockedHist(s: Shared, pid: nat, op: LockOp): Hist {
    match op
    case AddSub(d) =>
      if s.reg.draining then s.hist
      else s.hist.(handlers := s.hist.handlers + [Handler(pid, d)])
    case DropAll => s.hist.(allClosed := true)
    case _ => s.hist
  }

  function OfferHist(s: Shared, o: Offer): Hist {
    s.hist.(offers := s.hist.offers + multiset{o},
            drops := if o.chan < |s.reg.chans| && |s.reg.chans[o.chan].buf| >= CAPACITY
                     then s.hist.drops + {o} else s.hist.drops)
  }

  function ApplyOp(s: Shared, pid: nat, op: Op): Shared {
    match op
    case Nop => s
    case RLock => s.(readers := s.readers + {pid})
    case RUnlock => s.(readers := s.readers - {pid})
    case Store(store) => ApplyStore(s, pid, store)
    case Locked(locked) => s.(reg := LockedReg(s.reg, locked), hist := LockedHist(s, pid, locked))
    case OfferTo(d, e) =>
      s.(reg := Offered(s.reg, d, e),
         hist := if d in s.reg.subs then OfferHist(s, Offer(pid, s.reg.subs[d], e)) else s.hist)
    case Receive(c) => s.(reg := Received(s.reg, c))
  }

  /** A hub process is Down until ReconcileDeviceStatuses succeeds, then Reconciled, then Serving. */
  datatype Phase = Down | Reconciled | Serving

  datatype Hub = Hub(sh: Shared, procs: map<nat, Pc>, phase: Phase, stopping: bool, epoch: nat)

  datatype Action =
    | Spawn(pid: nat, pc: Pc)
    | SpawnStop(pid: nat)
    | Run(pid: nat, ch: Choice)
    | Tick(to: int)
    | Reconcile
    | Serve
    | Crash

  predicate IsEntry(pc: Pc) {
    match pc
    case Heartbeat(_, _, _, hb) => hb == HbBeat
    case Register(_, _, _, rg) => rg == RgLoad
    case Deregister(_, _, _, dr) => dr == DrGet
    case Leave(_, lv) => lv == LvGet
    case Stream(_, _, _, sb) => sb == SbOpen
    case Sweep(_, _, mn) => mn == MnStart
    case Prune(pr) => pr.PrStart?
    case Join(_, _, _) => true
    case _ => false
  }

  ghost predicate Enabled(h: Hub, a: Action) {
    match a
    case Spawn(pid, pc) => pid !in h.procs && h.phase == Serving && IsEntry(pc)
    case SpawnStop(pid) => pid !in h.procs && !h.stopping
    case Run(pid, ch) =>
      && pid in h.procs
      && MayStep(h.procs[pid], h.sh, ch)
      && OpEnabled(h.sh, Exec(h.procs[pid], h.sh, ch).op)
    case Tick(to) => h.sh.clock <= to
    case Reconcile => h.phase == Down
    case Serve => h.phase == Reconciled && !h.stopping
    case Crash => true
  }

  function Ran(h: Hub, pid: nat, ch: Choice): Hub
    requires pid in h.procs
  {
    var step := Exec(h.procs[pid], h.sh, ch);
    h.(sh := ApplyOp(h.sh, pid, step.op), procs := h.procs[pid := step.pc])
  }

  function Restarted(h: Hub): Hub {
    Hub(h.sh.(reg := EMPTY, readers := {}, hist := Forgotten(h.sh.hist.beats)),
        map[], Down, false, h.epoch + 1)
  }

  function Apply(h: Hub, a: Action): Hub {
    match a
    case Spawn(pid, pc) => h.(procs := h.procs[pid := pc])
    case SpawnStop(pid) => h.(procs := h.procs[pid := Stop([], StDrain)], stopping := true)
    case Run(pid, ch) => if pid in h.procs then Ran(h, pid, ch) else h
    case Tick(to) => h.(sh := h.sh.(clock := to))
    case Reconcile => h.(sh := h.sh.(table := DemoteAll(h.sh.table)), phase := Reconciled)
    case Serve => h.(phase := Serving)
    case Crash => Restarted(h)
  }

  /** A first hub process on any table whose heartbeats lie in the past. */
  ghost predicate Init(h: Hub) {
    && h.sh.reg == EMPTY && h.sh.readers == {} && h.procs == map[] && h.phase == Down && !h.stopping
    && h.sh.hist == Forgotten(map d | d in h.sh.table :: [h.sh.table[d].beat])
    && forall d | d in h.sh.table :: h.sh.table[d].beat <= h.sh.clock
  }

  ghost predicate Next(h: Hub, a: Action, h': Hub) {
    Enabled(h, a) && h' == Apply(h, a)
  }

  ghost predicate StepAt(hs: seq<Hub>, acts: seq<Action>, i: nat)
    requires |hs| == |acts| + 1 && i < |acts|
  {
    Next(hs[i], acts[i], hs[i + 1])
  }

  /** A run: the states it goes through and the actions between them. */
  ghost predicate IsRun(hs: seq<Hub>, acts: seq<Action>) {
    && |hs| == |acts| + 1
    && Init(hs[0])
    && forall i | 0 <= i < |acts| :: StepAt(hs, acts, i)
  }
}
