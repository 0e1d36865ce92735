/**
 The mounter as a step machine (internal/agent/mounter.go): any number of Mount, Unmount,
 UnmountDevice and UnmountAll calls, probe goroutines that may never answer, and time.
 m.mu is released while a probe is awaited; whatever the other calls did meanwhile is
 seen only when the lock is taken again.
 */
module MountMachine {
  import opened MountTable

  datatype Call = Call(key: Key, path: Path, ep: Endpoint)

  /** Why a Mount call tears an entry down. */
  datatype Evidence = Roamed | ProbedDead(probe: nat)

  /** What a Mount call found before it started to mount: nothing, or a generation it tore down. */
  datatype From = Unlooked | Fresh | Replacing(gen: nat)

  datatype MAt =
    | MLock
    | MLook
    | MProbe(g: nat)
    | MUnlock(g: nat, p: nat)
    | MArrive(g: nat, p: nat)
    | MAwait(g: nat, p: nat)
    | MRelock(g: nat, p: nat, h: Health)
    | MRecheck(g: nat, p: nat, h: Health)
    | MTear(g: nat, why: Evidence)
    | MGuard
    | MContents
    | MKnownHosts
    | MMountable
    | MStart
    | MPoll
    | MReguard
    | MInstall
    | MRelease

  /** Unmount of a snapshot of keys, each in a lock section of its own. */
  datatype UAt = USnap(device: string, all: bool) | ULock | UOne | URelease

  datatype Pc =
    | Mounting(call: Call, from: From, at: MAt)
    | Unmounting(todo: seq<Key>, reguard: bool, u: UAt)
    | Returned

  datatype Lock = Free | HeldBy(pid: nat)

  /**
   History: `badChmod`, a guard that failed; `unguarded`, a removal by UnmountAllForce;
   `moved`, targets of entries torn down by a Mount call for another target.
   */
  datatype State = State(m: Mounts, owner: map<Path, Key>, lock: Lock, clock: int,
                         badChmod: bool, unguarded: bool, moved: set<Path>)

  datatype Wake = ByResult | ByDeadline | ByCaller
  datatype Poll = Appeared | NotYet | GaveUp

  /** The environment's part of a step. */
  datatype Choice = Choice(fail: bool, chmod: bool, unmounting: Unmounting, wake: Wake, poll: Poll, keys: seq<Key>)

  datatype Step = Step(pc: Pc, s: State)

  function Unlocked(s: State): State {
    s.(lock := Free)
  }

  function GuardStep(s: State, p: Path, chmod: bool): State {
    s.(m := Guarded(s.m, p, chmod), badChmod := s.badChmod || !chmod)
  }

  function TearStep(pc: Pc, g: nat, s: State, ch: Choice): Step
    requires pc.Mounting?
  {
    var m' := UnmountedKey(s.m, pc.call.key, ch.unmounting, false, true);
    if Removes(ch.unmounting)
    then Step(pc.(from := Replacing(g), at := MGuard),
              s.(m := m',
                 moved := if g < |s.m.gens| && s.m.gens[g].path != pc.call.path
                          then s.moved + {s.m.gens[g].path} else s.moved))
    else Step(pc.(at := MRelease), s)
  }

  /** awaitProbe, past the entry's shared deadline or before it. */
  function WaitStep(pc: Pc, s: State, ch: Choice): Step
    requires pc.Mounting? && (pc.at.MArrive? || pc.at.MAwait?)
  {
    var g, p := pc.at.g, pc.at.p;
    var h := if p < |s.m.probes| && s.m.probes[p].flight != Stat then s.m.probes[p].health else Unknown;
    if pc.at.MArrive? then
      if p < |s.m.probes| && s.clock < s.m.probes[p].deadline
      then Step(pc.(at := MAwait(g, p)), s)
      else Step(pc.(at := MRelock(g, p, h)), s)
    else Step(pc.(at := MRelock(g, p, if ch.wake == ByResult then h else Unknown)), s)
  }

  function ExecMount(pid: nat, pc: Pc, s: State, ch: Choice): Step
    requires pc.Mounting?
  {
    var k := pc.call.key;
    match pc.at
    case MLock => Step(pc.(at := MLook), s.(lock := HeldBy(pid)))
    case MLook =>
      if k !in s.m.active then Step(pc.(from := Fresh, at := MGuard), s)
      else
        var g := s.m.active[k];
        if g < |s.m.gens| && s.m.gens[g].ep == pc.call.ep then Step(pc.(at := MProbe(g)), s)
        else Step(pc.(at := MTear(g, Roamed)), s)
    case MProbe(g) =>
      var m' := BegunProbe(s.m, k, g, s.clock);
      Step(pc.(at := MUnlock(g, if k in m'.probeOf then m'.probeOf[k] else 0)), s.(m := m'))
    case MUnlock(g, p) => Step(pc.(at := MArrive(g, p)), Unlocked(s))
    case MArrive(g, p) => WaitStep(pc, s, ch)
    case MAwait(g, p) => WaitStep(pc, s, ch)
    case MRelock(g, p, h) => Step(pc.(at := MRecheck(g, p, h)), s.(lock := HeldBy(pid)))
    case MRecheck(g, p, h) =>
      if k !in s.m.active then Step(pc.(at := MRelease), s)
      else if s.m.active[k] != g then Step(pc.(at := MRelease), s)
      else if h == Healthy || h == Unknown then Step(pc.(at := MRelease), s)
      else Step(pc.(at := MTear(g, ProbedDead(p))), s)
    case MTear(g, _) => TearStep(pc, g, s, ch)
    case MGuard =>
      Step(pc.(at := if ch.chmod then MContents else MRelease), GuardStep(s, pc.call.path, ch.chmod))
    case MContents => Step(pc.(at := if ch.fail then MRelease else MKnownHosts), s)
    case MKnownHosts => Step(pc.(at := if ch.fail then MRelease else MMountable), s)
    case MMountable =>
      if ch.fail then Step(pc.(at := MRelease), s)
      else Step(pc.(at := MStart), s.(m := MadeMountable(s.m, pc.call.path)))
    case MStart => Step(pc.(at := if ch.fail then MReguard else MPoll), s)
    case MPoll =>
      Step(pc.(at := match ch.poll case Appeared => MInstall case NotYet => MPoll case GaveUp => MReguard), s)
    case MReguard => Step(pc.(at := MRelease), GuardStep(s, pc.call.path, ch.chmod))
    case MInstall =>
      Step(pc.(at := MRelease), s.(m := Installed(s.m, Gen(k, pc.call.path, pc.call.ep))))
    case MRelease => Step(Returned, Unlocked(s))
  }

  function ExecUnmount(pid: nat, pc: Pc, s: State, ch: Choice): Step
    requires pc.Unmounting?
  {
    match pc.u
    case USnap(_, _) => Step(pc.(todo := ch.keys, u := ULock), s)
    case ULock => if pc.todo == [] then Step(Returned, s) else Step(pc.(u := UOne), s.(lock := HeldBy(pid)))
    case UOne =>
      if pc.todo == [] then Step(pc.(u := URelease), s)
      else
        var m' := UnmountedKey(s.m, pc.todo[0], ch.unmounting, pc.reguard, ch.chmod);
        Step(pc.(todo := pc.todo[1..], u := URelease),
             s.(m := m',
                badChmod := s.badChmod || (pc.reguard && !ch.chmod),
                unguarded := s.unguarded || (!pc.reguard && m'.active != s.m.active)))
    case URelease => Step(pc.(u := ULock), Unlocked(s))
  }

  function Exec(pid: nat, pc: Pc, s: State, ch: Choice): Step {
    match pc
    case Mounting(_, _, _) => ExecMount(pid, pc, s, ch)
    case Unmounting(_, _, _) => ExecUnmount(pid, pc, s, ch)
    case Returned => Step(pc, s)
  }

  ghost predicate MayStep(pc: Pc, s: State, ch: Choice) {
    match pc
    case Mounting(_, _, at) =>
      && (at.MLock? || at.MRelock? ==> s.lock == Free)
      && (at.MAwait? && ch.wake == ByResult ==> at.p < |s.m.probes| && s.m.probes[at.p].flight != Stat)
      && (at.MAwait? && ch.wake == ByDeadline ==> at.p < |s.m.probes| && s.m.probes[at.p].deadline <= s.clock)
    case Unmounting(todo, _, u) =>
      && (u.USnap? ==>
            && s.lock == Free
            && forall k :: k in ch.keys <==> k in s.m.active && (u.all || k.device == u.device))
      && (u.ULock? && todo != [] ==> s.lock == Free)
    case Returned => false
  }

  datatype Sys = Sys(s: State, procs: map<nat, Pc>)

  datatype Action =
    | Spawn(pid: nat, pc: Pc)
    | Run(pid: nat, ch: Choice)
    | Answer(p: nat, c: Check)
    | Retire(p: nat)
    | Tick(to: int)

  /**
   Mount, with its target owned by its key; Unmount of one key; UnmountDevice and
   UnmountAll re-guard, UnmountAllForce does not.
   */
  predicate IsEntry(pc: Pc, owner: map<Path, Key>) {
    match pc
    case Mounting(call, from, at) =>
      at == MLock && from == Unlooked && call.path in owner && owner[call.path] == call.key
    case Unmounting(todo, reguard, u) =>
      (u == ULock && reguard && |todo| == 1) || (u.USnap? && todo == [] && (reguard || u.all))
    case Returned => false
  }

  /** Timers fire when they are due: time does not pass the deadline of a probe while a caller awaits it. */
  predicate InTime(pc: Pc, m: Mounts, now: int) {
    pc.Mounting? && pc.at.MAwait? ==> pc.at.p < |m.probes| && now <= m.probes[pc.at.p].deadline
  }

  ghost predicate Enabled(y: Sys, a: Action) {
    match a
    case Spawn(pid, pc) => pid !in y.procs && IsEntry(pc, y.s.owner)
    case Run(pid, ch) => pid in y.procs && MayStep(y.procs[pid], y.s, ch)
    case Answer(p, c) => p < |y.s.m.probes| && y.s.m.probes[p].flight == Stat
    case Retire(p) => p < |y.s.m.probes| && y.s.m.probes[p].flight == Closed
    case Tick(to) => y.s.clock <= to && forall q | q in y.procs :: InTime(y.procs[q], y.s.m, to)
  }

  function Apply(y: Sys, a: Action): Sys {
    match a
    case Spawn(pid, pc) => y.(procs := y.procs[pid := pc])
    case Run(pid, ch) =>
      if pid in y.procs then
        var step := Exec(pid, y.procs[pid], y.s, ch);
        Sys(step.s, y.procs[pid := step.pc])
      else y
    case Answer(p, c) => y.(s := y.s.(m := AnsweredProbe(y.s.m, p, c)))
    case Retire(p) => y.(s := y.s.(m := RetiredProbe(y.s.m, p)))
    case Tick(to) => y.(s := y.s.(clock := to))
  }

  ghost predicate Next(y: Sys, a: Action, y': Sys) {
    Enabled(y, a) && y' == Apply(y, a)
  }

  ghost predicate Init(y: Sys) {
    y.s == State(EMPTY, y.s.owner, Free, y.s.clock, false, false, {}) && y.procs == map[]
  }

  ghost predicate IsRun(ys: seq<Sys>, acts: seq<Action>) {
    && |ys| == |acts| + 1 && Init(ys[0])
    && forall i {:trigger acts[i]} | 0 <= i < |acts| :: Next(ys[i], acts[i], ys[i + 1])
  }

  // ---------------------------------------------------------------- invariant

  predicate HoldsLock(pc: Pc) {
    match pc
    case Mounting(_, _, at) => !(at.MLock? || at.MArrive? || at.MAwait? || at.MRelock?)
    case Unmounting(_, _, u) => u.UOne? || u.URelease?
    case Returned => false
  }

  /** The target a lock holder has open at mode 0700 while it mounts. */
  function OpenBy(pc: Pc): set<Path> {
    if pc.Mounting? && (pc.at.MStart? || pc.at.MPoll? || pc.at.MReguard? || pc.at.MInstall?)
    then {pc.call.path} else {}
  }

  /** A probe of generation `g`, and a health read from it unless unknown. */
  ghost predicate Evident(m: Mounts, g: nat, p: nat, h: Health) {
    && p < |m.probes| && m.probes[p].gen == g
    && (h != Unknown ==> m.probes[p].flight != Stat && m.probes[p].health == h)
  }

  ghost predicate Sought(m: Mounts, call: Call, g: nat) {
    g < |m.gens| && m.gens[g].key == call.key && m.gens[g].ep == call.ep
  }

  /** Everything torn down so far has its reason: the generation's own death, or a changed endpoint. */
  ghost predicate Justified(m: Mounts, call: Call, g: nat, why: Evidence) {
    match why
    case Roamed => g < |m.gens| && m.gens[g].ep != call.ep
    case ProbedDead(p) => Sought(m, call, g) && Evident(m, g, p, Dead)
  }

  /** A re-mount on another target leaves the old one stray; on the same target it does not. */
  ghost predicate OldTarget(pc: Pc, s: State)
    requires pc.Mounting?
  {
    pc.from.Replacing? ==>
      && pc.from.gen < |s.m.gens|
      && (pc.at.MGuard? || s.m.gens[pc.from.gen].path != pc.call.path ==>
            s.m.gens[pc.from.gen].path in s.m.stray)
      && (!pc.at.MGuard? && s.m.gens[pc.from.gen].path == pc.call.path && !s.badChmod ==>
            pc.call.path !in s.m.stray)
  }

  ghost predicate MountingOk(pc: Pc, s: State)
    requires pc.Mounting?
  {
    && pc.call.path in s.owner && s.owner[pc.call.path] == pc.call.key
    && match pc.at
       case MLock => pc.from == Unlooked
       case MLook => pc.from == Unlooked
       case MProbe(g) =>
         pc.from == Unlooked && Sought(s.m, pc.call, g) && pc.call.key in s.m.active && s.m.active[pc.call.key] == g
       case MUnlock(g, p) => pc.from == Unlooked && Sought(s.m, pc.call, g) && Evident(s.m, g, p, Unknown)
       case MArrive(g, p) => pc.from == Unlooked && Sought(s.m, pc.call, g) && Evident(s.m, g, p, Unknown)
       case MAwait(g, p) => pc.from == Unlooked && Sought(s.m, pc.call, g) && Evident(s.m, g, p, Unknown)
       case MRelock(g, p, h) => pc.from == Unlooked && Sought(s.m, pc.call, g) && Evident(s.m, g, p, h)
       case MRecheck(g, p, h) => pc.from == Unlooked && Sought(s.m, pc.call, g) && Evident(s.m, g, p, h)
       case MTear(g, why) =>
         && pc.from == Unlooked && Justified(s.m, pc.call, g, why)
         && pc.call.key in s.m.active && s.m.active[pc.call.key] == g
       case MGuard => pc.from != Unlooked && pc.call.key !in s.m.active
       case MContents => pc.from != Unlooked && pc.call.key !in s.m.active && pc.call.path !in s.m.mountable
       case MKnownHosts => pc.from != Unlooked && pc.call.key !in s.m.active && pc.call.path !in s.m.mountable
       case MMountable => pc.from != Unlooked && pc.call.key !in s.m.active && pc.call.path !in s.m.mountable
       case MRelease => true
       case _ => pc.from != Unlooked && pc.call.key !in s.m.active
  }

  /** The target a re-mount has torn down and is about to guard again. */
  function InTransit(pc: Pc): set<Path> {
    if pc.Mounting? && pc.at.MGuard? then {pc.call.path} else {}
  }

  /** Without failed chmods and without UnmountAllForce, only a moved re-mount leaves a target stray. */
  ghost predicate StrayOk(s: State, transit: set<Path>) {
    !s.badChmod && !s.unguarded ==> s.m.stray <= s.moved + transit
  }

  ghost predicate PcOk(pid: nat, pc: Pc, s: State) {
    && (HoldsLock(pc) <==> s.lock == HeldBy(pid))
    && (HoldsLock(pc) ==> ModesOk(s.m, OpenBy(pc)) && StrayOk(s, InTransit(pc)))
    && (pc.Mounting? ==> MountingOk(pc, s) && (HoldsLock(pc) ==> OldTarget(pc, s)))
  }

  ghost predicate StateOk(s: State) {
    && TableOk(s.m, s.owner)
    && (s.lock == Free ==> ModesOk(s.m, {}) && StrayOk(s, {}))
    && (forall p | 0 <= p < |s.m.probes| :: s.m.probes[p].deadline <= s.clock + PROBE_TIMEOUT)
  }
}
