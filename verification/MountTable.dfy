/**
 What the mounter keeps (internal/agent/mounter.go): active mounts, the permission mode
 of their target directories, and the single-flight probe registry. A *Mount pointer is
 a generation: an index into every mount ever made. The functions here are the steps
 taken under m.mu or probeMu; the machine (MountMachine) interleaves them and the class
 (MounterObject) performs them in place.
 */
module MountTable {
  import opened Options

  datatype Path = Path(name: string)
  datatype Key = Key(device: string, share: string)
  datatype Endpoint = Endpoint(ip: string, port: int)

  /** A generation: one mount that was established. */
  datatype Gen = Gen(key: Key, path: Path, ep: Endpoint)

  datatype Health = Healthy | Dead | Unknown

  /** What checkMountpoint answered. `NotConnected` and `Missing` are ENOTCONN and ENOENT. */
  datatype Check = IsMount | IsNotMount | NotConnected | Missing | OtherError

  /** mounter.go classifyMountHealth: only positive evidence is Dead. */
  function Classify(c: Check): Health {
    match c
    case IsMount => Healthy
    case IsNotMount => Dead
    case NotConnected => Dead
    case Missing => Dead
    case OtherError => Unknown
  }

  /** A probe's goroutine: in the stat, after it closed `done`, and after it left the registry. */
  datatype Flight = Stat | Closed | Gone

  /** `answer` is history: what the stat brought, once it has returned. */
  datatype Probe = Probe(gen: nat, deadline: int, flight: Flight, health: Health, answer: Option<Check>)

  const PROBE_TIMEOUT := 3000

  /**
   `mountable`: the targets now at mode 0700, writable by the owner. `stray` remembers
   the targets left at that mode without a mount: by a removal that was not asked to
   re-guard, or by a chmod that failed; guarding a target clears it.
   */
  datatype Mounts = Mounts(active: map<Key, nat>, gens: seq<Gen>, mountable: set<Path>, stray: set<Path>,
                           probeOf: map<Key, nat>, probes: seq<Probe>)

  const EMPTY: Mounts := Mounts(map[], [], {}, {}, map[], [])

  /** What the re-check of a mountpoint brings before its context ends: checkMountpoint's answer, or nothing. */
  datatype Recheck = Answered(check: Check) | TimedOut

  /** mountpointGoneCtx: any error counts as gone, also one that Classify calls Unknown; a timeout does not. */
  predicate MountpointGone(r: Recheck) {
    match r
    case TimedOut => false
    case Answered(check) => check != IsMount
  }

  /** Whether the unmount command succeeded, and what a re-check after a failed one brings. */
  datatype Unmounting = Command(ok: bool, recheck: Recheck)

  predicate Removes(u: Unmounting) {
    u.ok || MountpointGone(u.recheck)
  }

  /** Success, or an answer that a liveness probe would also take for a dead mount. */
  predicate Evidenced(u: Unmounting) {
    u.ok || (u.recheck.Answered? && Classify(u.recheck.check) == Dead)
  }

  /** guardTarget: mkdir and chmod 0500. */
  function Guarded(m: Mounts, p: Path, chmod: bool): Mounts {
    if chmod then m.(mountable := m.mountable - {p}, stray := m.stray - {p})
    else m.(stray := if p in m.mountable then m.stray + {p} else m.stray)
  }

  /** makeMountable: chmod 0700. */
  function MadeMountable(m: Mounts, p: Path): Mounts {
    m.(mountable := m.mountable + {p})
  }

  /** unmountKey: the entry goes on success, or if the re-check takes the mount for gone. */
  function UnmountedKey(m: Mounts, k: Key, u: Unmounting, reguard: bool, chmod: bool): Mounts {
    if k in m.active && m.active[k] < |m.gens| && Removes(u)
    then
      var p := m.gens[m.active[k]].path;
      var removed := m.(active := m.active - {k});
      if reguard then Guarded(removed, p, chmod)
      else removed.(stray := if p in m.mountable then m.stray + {p} else m.stray)
    else m
  }

  /** The end of Mount: a new generation becomes the key's entry. */
  function Installed(m: Mounts, g: Gen): Mounts {
    m.(gens := m.gens + [g], active := m.active[g.key := |m.gens|])
  }

  /** Whether probeGenerationLocked joins the registered probe rather than starting one. */
  predicate Joins(m: Mounts, k: Key, g: nat) {
    k in m.probeOf && m.probeOf[k] < |m.probes| && m.probes[m.probeOf[k]].gen == g
  }

  function BegunProbe(m: Mounts, k: Key, g: nat, now: int): Mounts {
    if Joins(m, k, g) then m
    else m.(probes := m.probes + [Probe(g, now + PROBE_TIMEOUT, Stat, Unknown, None)],
            probeOf := m.probeOf[k := |m.probes|])
  }

  /** runProbe: publish the classified answer, then close done. */
  function AnsweredProbe(m: Mounts, p: nat, c: Check): Mounts {
    if p < |m.probes| && m.probes[p].flight == Stat
    then m.(probes := m.probes[p := m.probes[p].(flight := Closed, health := Classify(c), answer := Some(c))])
    else m
  }

  /** runProbe: leave the registry, unless another generation's probe took the slot. */
  function RetiredProbe(m: Mounts, p: nat): Mounts {
    if p < |m.probes| && m.probes[p].gen < |m.gens| && m.probes[p].flight == Closed
    then
      var k := m.gens[m.probes[p].gen].key;
      m.(probes := m.probes[p := m.probes[p].(flight := Gone)],
         probeOf := if k in m.probeOf && m.probeOf[k] == p then m.probeOf - {k} else m.probeOf)
    else m
  }

  function ActivePaths(m: Mounts): set<Path> {
    set k | k in m.active && m.active[k] < |m.gens| :: m.gens[m.active[k]].path
  }

  ghost predicate EntriesOk(m: Mounts) {
    && (forall k | k in m.active :: m.active[k] < |m.gens| && m.gens[m.active[k]].key == k)
    && (forall k | k in m.probeOf :: m.probeOf[k] < |m.probes|)
    && (forall p | 0 <= p < |m.probes| :: m.probes[p].gen < |m.gens|)
    && (forall k | k in m.probeOf ::
          m.gens[m.probes[m.probeOf[k]].gen].key == k && m.probes[m.probeOf[k]].flight != Gone)
  }

  /** The probe of the active generation, if any is still in the registry, is the registered one. */
  ghost predicate SingleFlight(m: Mounts)
    requires EntriesOk(m)
  {
    && (forall p | 0 <= p < |m.probes| && m.probes[p].flight != Gone ::
          var k := m.gens[m.probes[p].gen].key;
          k in m.active && m.active[k] == m.probes[p].gen ==> k in m.probeOf && m.probeOf[k] == p)
    && (forall p, q | 0 <= p < q < |m.probes| && m.probes[p].gen == m.probes[q].gen :: m.probes[p].flight == Gone)
  }

  /** What the answer of a stat is evidence for. */
  predicate ShowsMount(c: Check) {
    c == IsMount
  }

  predicate ShowsDeath(c: Check) {
    c == IsNotMount || c == NotConnected || c == Missing
  }

  /** A probe's verdict comes from its answer: healthy, dead, or unknown for every other error. */
  ghost predicate VerdictsOk(m: Mounts) {
    forall p | 0 <= p < |m.probes| ::
      var probe := m.probes[p];
      && (probe.flight == Stat <==> probe.answer.None?)
      && (probe.answer.Some? ==>
            && (probe.health == Healthy <==> ShowsMount(probe.answer.value))
            && (probe.health == Dead <==> ShowsDeath(probe.answer.value))
            && (probe.health == Unknown <==> probe.answer.value == OtherError))
  }

  /** Each target belongs to one key. */
  ghost predicate Owned(m: Mounts, owner: map<Path, Key>) {
    forall g | 0 <= g < |m.gens| :: m.gens[g].path in owner && owner[m.gens[g].path] == m.gens[g].key
  }

  /** Besides `open`, the targets at mode 0700 are those mounted now and the stray ones. */
  ghost predicate ModesOk(m: Mounts, open: set<Path>) {
    && m.mountable == ActivePaths(m) + m.stray + open
    && ActivePaths(m) !! m.stray
    && open !! ActivePaths(m) && open !! m.stray
  }

  ghost predicate TableOk(m: Mounts, owner: map<Path, Key>) {
    EntriesOk(m) && SingleFlight(m) && Owned(m, owner) && VerdictsOk(m)
  }

  lemma UnmountKeepsTable(m: Mounts, owner: map<Path, Key>, k: Key, u: Unmounting, reguard: bool, chmod: bool)
    requires TableOk(m, owner)
    ensures TableOk(UnmountedKey(m, k, u, reguard, chmod), owner)
  {
  }

  lemma RemovedPaths(m: Mounts, m': Mounts, k: Key)
    requires EntriesOk(m) && k in m.active && m'.active == m.active - {k} && m'.gens == m.gens
    requires forall e, f | e in m.active && f in m.active && e != f ::
               m.gens[m.active[e]].path != m.gens[m.active[f]].path
    ensures ActivePaths(m') == ActivePaths(m) - {m.gens[m.active[k]].path}
    ensures m.gens[m.active[k]].path in ActivePaths(m)
  {
    forall q | q in ActivePaths(m) && q != m.gens[m.active[k]].path ensures q in ActivePaths(m') {
      var e :| e in m.active && m.gens[m.active[e]].path == q;
      assert e in m'.active;
    }
  }

  lemma UnmountKeeps(m: Mounts, owner: map<Path, Key>, k: Key, u: Unmounting, reguard: bool, chmod: bool)
    requires TableOk(m, owner) && ModesOk(m, {})
    ensures var m' := UnmountedKey(m, k, u, reguard, chmod);
            && TableOk(m', owner) && ModesOk(m', {})
            && (k in m.active ==>
                  (k !in m'.active <==> u.ok || (u.recheck.Answered? && u.recheck.check != IsMount)))
            && (m'.active != m.active ==> k in m.active && m'.active == m.active - {k})
            && m'.stray <= m.stray + (if k in m.active && (!reguard || !chmod) then {m.gens[m.active[k]].path} else {})
            && (k in m.active && k !in m'.active ==>
                  m'.mountable == if reguard && chmod then m.mountable - {m.gens[m.active[k]].path} else m.mountable)
            && (m'.active == m.active ==> m' == m)
            && m'.gens == m.gens && m'.probes == m.probes && m'.probeOf == m.probeOf
  {
    UnmountKeepsTable(m, owner, k, u, reguard, chmod);
    if k in m.active && Removes(u) {
      RemovedPaths(m, UnmountedKey(m, k, u, reguard, chmod), k);
    }
  }

  lemma InstallKeeps(m: Mounts, owner: map<Path, Key>, g: Gen)
    requires TableOk(m, owner) && ModesOk(m, {g.path}) && g.key !in m.active
    requires g.path in owner && owner[g.path] == g.key
    ensures TableOk(Installed(m, g), owner) && ModesOk(Installed(m, g), {})
  {
    var m' := Installed(m, g);
    assert m'.gens[m'.active[g.key]] == g;
    InstalledPaths(m, g);
  }

  lemma InstalledPaths(m: Mounts, g: Gen)
    requires EntriesOk(m) && g.key !in m.active
    ensures ActivePaths(Installed(m, g)) == ActivePaths(m) + {g.path}
  {
    var m' := Installed(m, g);
    assert m'.gens[m'.active[g.key]] == g;
    forall q | q in ActivePaths(m) ensures q in ActivePaths(m') {
      var e :| e in m.active && m.gens[m.active[e]].path == q;
      assert m'.active[e] == m.active[e];
    }
  }

  lemma InstallChanges(m: Mounts, g: Gen)
    ensures var m' := Installed(m, g);
            && g.key in m'.active && m'.active[g.key] == |m.gens| && m'.gens == m.gens + [g]
            && (forall k | k in m.active && k != g.key :: k in m'.active && m'.active[k] == m.active[k])
            && m'.active.Keys == m.active.Keys + {g.key}
            && m'.mountable == m.mountable && m'.probes == m.probes && m'.probeOf == m.probeOf
  {
  }

  lemma GuardKeeps(m: Mounts, owner: map<Path, Key>, p: Path, chmod: bool, open: set<Path>)
    requires TableOk(m, owner) && ModesOk(m, open) && p !in ActivePaths(m) && open <= {p}
    ensures var m' := Guarded(m, p, chmod);
            && TableOk(m', owner) && ModesOk(m', {}) && m'.active == m.active
            && m'.mountable == (if chmod then m.mountable - {p} else m.mountable)
            && m'.gens == m.gens && m'.probes == m.probes && m'.probeOf == m.probeOf
  {
    var m' := Guarded(m, p, chmod);
    assert ActivePaths(m') == ActivePaths(m);
  }

  lemma MountableKeeps(m: Mounts, owner: map<Path, Key>, p: Path)
    requires TableOk(m, owner) && ModesOk(m, {}) && p !in m.mountable
    ensures TableOk(MadeMountable(m, p), owner) && ModesOk(MadeMountable(m, p), {p})
    ensures MadeMountable(m, p).mountable == m.mountable + {p} && MadeMountable(m, p).active == m.active
  {
    assert ActivePaths(MadeMountable(m, p)) == ActivePaths(m);
  }

  lemma ProbeKeepsEntries(m: Mounts, k: Key, now: int)
    requires EntriesOk(m) && k in m.active
    ensures EntriesOk(BegunProbe(m, k, m.active[k], now))
  {
  }

  lemma ProbeKeepsTable(m: Mounts, owner: map<Path, Key>, k: Key, now: int)
    requires TableOk(m, owner) && k in m.active
    ensures TableOk(BegunProbe(m, k, m.active[k], now), owner)
  {
    ProbeKeepsEntries(m, k, now);
    ProbeStaysSingle(m, k, now);
  }

  lemma ProbeStaysSingle(m: Mounts, k: Key, now: int)
    requires EntriesOk(m) && SingleFlight(m) && k in m.active && EntriesOk(BegunProbe(m, k, m.active[k], now))
    ensures SingleFlight(BegunProbe(m, k, m.active[k], now))
  {
  }

  lemma ProbeKeeps(m: Mounts, owner: map<Path, Key>, k: Key, now: int, open: set<Path>)
    requires TableOk(m, owner) && ModesOk(m, open) && k in m.active
    ensures var m' := BegunProbe(m, k, m.active[k], now);
            && TableOk(m', owner) && ModesOk(m', open) && Joins(m', k, m.active[k])
            && m'.active == m.active && m'.gens == m.gens && m'.mountable == m.mountable
            && if k in m.probeOf && m.probes[m.probeOf[k]].gen == m.active[k] then m' == m
               else
                 && m'.probes == m.probes + [Probe(m.active[k], now + 3000, Stat, Unknown, None)]
                 && m'.probeOf == m.probeOf[k := |m.probes|]
  {
    ProbeKeepsTable(m, owner, k, now);
    assert ActivePaths(BegunProbe(m, k, m.active[k], now)) == ActivePaths(m);
  }

  lemma AnswerChanges(m: Mounts, p: nat, c: Check)
    ensures var m' := AnsweredProbe(m, p, c);
            && m' == m.(probes := m'.probes) && |m'.probes| == |m.probes|
            && (forall q | 0 <= q < |m.probes| && q != p :: m'.probes[q] == m.probes[q])
            && (p < |m.probes| && m.probes[p].flight == Stat ==>
                  && m'.probes[p] == m.probes[p].(flight := Closed, health := m'.probes[p].health, answer := Some(c))
                  && (m'.probes[p].health == Healthy <==> ShowsMount(c))
                  && (m'.probes[p].health == Dead <==> ShowsDeath(c))
                  && (m'.probes[p].health == Unknown <==> c == OtherError))
            && (p < |m.probes| && m.probes[p].flight != Stat ==> m' == m)
  {
  }

  lemma AnswerKeepsTable(m: Mounts, owner: map<Path, Key>, p: nat, c: Check)
    requires TableOk(m, owner)
    ensures TableOk(AnsweredProbe(m, p, c), owner)
  {
    AnswerChanges(m, p, c);
  }

  /** Only this probe leaves, and the slot of its key is freed only if the slot is its own. */
  lemma RetireChanges(m: Mounts, p: nat)
    requires EntriesOk(m)
    ensures var m' := RetiredProbe(m, p);
            && m' == m.(probes := m'.probes, probeOf := m'.probeOf) && |m'.probes| == |m.probes|
            && (forall q | 0 <= q < |m.probes| && q != p :: m'.probes[q] == m.probes[q])
            && (p < |m.probes| && m.probes[p].flight == Closed ==>
                  && m'.probes[p] == m.probes[p].(flight := Gone)
                  && m'.probeOf == map k | k in m.probeOf && m.probeOf[k] != p :: m.probeOf[k])
            && (p < |m.probes| && m.probes[p].flight != Closed ==> m' == m)
  {
  }

  lemma RetireKeepsTable(m: Mounts, owner: map<Path, Key>, p: nat)
    requires TableOk(m, owner)
    ensures TableOk(RetiredProbe(m, p), owner)
    ensures var m' := RetiredProbe(m, p);
            && m'.active == m.active
            && (forall k | k in m.probeOf && m.probeOf[k] != p :: k in m'.probeOf && m'.probeOf[k] == m.probeOf[k])
            && (p < |m.probes| && m.probes[p].flight == Closed ==>
                  m'.probes[p].flight == Gone && forall k | k in m'.probeOf :: m'.probeOf[k] != p)
  {
    RetireChanges(m, p);
  }
}
