/**
 The mounter's lock sections as they are written (internal/agent/mounter.go): methods that
 update the maps of Mount and probeEntry objects in place. Each is proved to perform the
 step of MountTable that the machine interleaves. Object identity is the generation.
 */
module MounterObject {
  import opened Options
  import opened MountTable

  /** An established mount; a *Mount in the source. */
  class Mount {
    ghost const id: nat
    const key: Key
    const path: Path
    const ep: Endpoint

    constructor (ghost id: nat, key: Key, path: Path, ep: Endpoint)
      ensures this.id == id && this.key == key && this.path == path && this.ep == ep
    {
      this.id, this.key, this.path, this.ep := id, key, path, ep;
    }
  }

  /** One in-flight probe, shared by every caller that joins it; `retired` is its leaving the registry. */
  class ProbeEntry {
    ghost const id: nat
    const mount: Mount
    const deadline: int
    var done: bool
    var health: Health
    ghost var answer: Option<Check>
    ghost var retired: bool

    ghost function View(): Probe
      reads this
    {
      Probe(mount.id, deadline, if retired then Gone else if done then Closed else Stat, health, answer)
    }

    constructor (ghost id: nat, mount: Mount, deadline: int)
      ensures this.id == id && this.mount == mount && this.deadline == deadline
      ensures View() == Probe(mount.id, deadline, Stat, Unknown, None)
    {
      this.id, this.mount, this.deadline := id, mount, deadline;
      done, health, answer, retired := false, Unknown, None, false;
    }
  }

  /** Per key: what the unmount command and its re-check find, and whether the chmod after it works. */
  datatype Outcome = Outcome(unmounting: Unmounting, chmod: bool)

  function UnmountedEach(m: Mounts, keys: seq<Key>, outs: seq<Outcome>, reguard: bool): Mounts
    requires |keys| == |outs|
  {
    if keys == [] then m
    else
      var n := |keys| - 1;
      UnmountedKey(UnmountedEach(m, keys[..n], outs[..n], reguard), keys[n], outs[n].unmounting, reguard, outs[n].chmod)
  }

  lemma UnmountedEachNext(m: Mounts, keys: seq<Key>, outs: seq<Outcome>, reguard: bool, i: nat)
    requires |keys| == |outs| && i < |keys|
    ensures UnmountedEach(m, keys[..i + 1], outs[..i + 1], reguard) ==
              UnmountedKey(UnmountedEach(m, keys[..i], outs[..i], reguard),
                           keys[i], outs[i].unmounting, reguard, outs[i].chmod)
  {
    assert keys[..i + 1][..i] == keys[..i] && outs[..i + 1][..i] == outs[..i];
  }

  predicate AllRemove(outs: seq<Outcome>) {
    forall i | 0 <= i < |outs| ::
      var u := outs[i].unmounting; u.ok || (u.recheck.Answered? && u.recheck.check != IsMount)
  }

  /** An entry survives a sweep exactly if each command on it failed and each re-check timed out or found a mount. */
  lemma {:induction false} UnmountedEachKeeps(m: Mounts, keys: seq<Key>, outs: seq<Outcome>, reguard: bool, k: Key)
    requires |keys| == |outs| && EntriesOk(m)
    ensures EntriesOk(UnmountedEach(m, keys, outs, reguard))
    ensures k in UnmountedEach(m, keys, outs, reguard).active <==>
              k in m.active && forall i | 0 <= i < |keys| && keys[i] == k ::
                !outs[i].unmounting.ok
                && (outs[i].unmounting.recheck == TimedOut || outs[i].unmounting.recheck == Answered(IsMount))
  {
    if keys != [] {
      var n := |keys| - 1;
      UnmountedEachKeeps(m, keys[..n], outs[..n], reguard, k);
      assert forall i | 0 <= i < n :: keys[..n][i] == keys[i] && outs[..n][i] == outs[i];
    }
  }

  class Mounter {
    var activeMounts: map<Key, Mount>
    var probes: map<Key, ProbeEntry>
    /** The targets whose directory is at mode 0700. */
    var writable: set<Path>
    ghost var stray: set<Path>
    ghost var made: seq<Mount>
    ghost var started: seq<ProbeEntry>

    ghost predicate Made(mnt: Mount)
      reads this
    {
      mnt.id < |made| && made[mnt.id] == mnt
    }

    ghost predicate Started(e: ProbeEntry)
      reads this
    {
      e.id < |started| && started[e.id] == e && Made(e.mount)
    }

    ghost predicate Valid()
      reads this
    {
      && (forall i | 0 <= i < |made| :: made[i].id == i)
      && (forall i | 0 <= i < |started| :: started[i].id == i && Made(started[i].mount))
      && (forall k | k in activeMounts :: Made(activeMounts[k]) && activeMounts[k].key == k)
      && (forall k | k in probes :: Started(probes[k]) && probes[k].mount.key == k)
    }

    ghost function View(): Mounts
      reads this, started
    {
      Mounts(map k | k in activeMounts :: activeMounts[k].id,
             seq(|made|, i requires 0 <= i < |made| reads this => Gen(made[i].key, made[i].path, made[i].ep)),
             writable, stray,
             map k | k in probes :: probes[k].id,
             seq(|started|, i requires 0 <= i < |started| reads this, started => started[i].View()))
    }

    constructor ()
      ensures Valid() && View() == EMPTY
    {
      activeMounts, probes, writable := map[], map[], {};
      stray, made, started := {}, [], [];
    }

    method GuardTarget(p: Path, chmod: bool) returns (ok: bool)
      requires Valid()
      modifies this`writable, this`stray
      ensures Valid() && View() == Guarded(old(View()), p, chmod) && ok == chmod
      ensures writable == if chmod then old(writable) - {p} else old(writable)
    {
      ok := chmod;
      if chmod {
        writable := writable - {p};
        stray := stray - {p};
      } else if p in writable {
        stray := stray + {p};
      }
      assert View() == old(View()).(mountable := writable, stray := stray);
    }

    method MakeMountable(p: Path)
      requires Valid()
      modifies this`writable
      ensures Valid() && View() == MadeMountable(old(View()), p) && writable == old(writable) + {p}
    {
      writable := writable + {p};
      assert View() == old(View()).(mountable := writable);
    }

    method Drop(k: Key)
      requires Valid() && k in activeMounts
      modifies this`activeMounts
      ensures Valid() && View() == old(View()).(active := old(View()).active - {k})
      ensures activeMounts == old(activeMounts) - {k}
    {
      activeMounts := activeMounts - {k};
      assert View().active == old(View()).active - {k};
    }

    /** The re-check after a failed unmount command; `r` is what it brings before its context ends. */
    static method MountpointGoneCtx(r: Recheck) returns (gone: bool)
      ensures gone <==> r.Answered? && r.check != IsMount
    {
      if r == TimedOut {
        return false;
      }
      var err := r.check == NotConnected || r.check == Missing || r.check == OtherError;
      if err {
        return true;
      }
      return r.check != IsMount;
    }

    method Remove(k: Key, reguard: bool, chmod: bool)
      requires Valid() && k in activeMounts
      modifies this`activeMounts, this`writable, this`stray
      ensures Valid() && View() == UnmountedKey(old(View()), k, Command(true, TimedOut), reguard, chmod)
      ensures activeMounts == old(activeMounts) - {k}
      ensures writable == if reguard && chmod then old(writable) - {old(activeMounts)[k].path} else old(writable)
    {
      var mnt := activeMounts[k];
      assert View().active[k] == mnt.id && made[mnt.id] == mnt && View().gens[mnt.id].path == mnt.path;
      Drop(k);
      if reguard {
        var _ := GuardTarget(mnt.path, chmod);
      } else {
        stray := if mnt.path in writable then stray + {mnt.path} else stray;
        assert View() == old(View()).(active := old(View()).active - {k}, stray := stray);
      }
    }

    /** Whether the command succeeds, and what the re-check brings, is the environment's. */
    method UnmountKey(k: Key, ok: bool, recheck: Recheck, reguard: bool, chmod: bool) returns (err: bool)
      requires Valid()
      modifies this`activeMounts, this`writable, this`stray
      ensures Valid() && View() == UnmountedKey(old(View()), k, Command(ok, recheck), reguard, chmod)
      ensures err <==> k !in old(activeMounts) || (!ok && (recheck == TimedOut || recheck == Answered(IsMount)))
      ensures activeMounts == if err then old(activeMounts) else old(activeMounts) - {k}
      ensures writable == if !err && reguard && chmod then old(writable) - {old(activeMounts)[k].path}
                          else old(writable)
    {
      if k !in activeMounts {
        return true;
      }
      if !ok {
        var gone := MountpointGoneCtx(recheck);
        if gone {
          Remove(k, reguard, chmod);
          return false;
        }
        return true;
      }
      Remove(k, reguard, chmod);
      return false;
    }

    /** The keys of the entries of one device, or of all. */
    method Snapshot(device: string, all: bool) returns (keys: seq<Key>)
      ensures forall k :: k in keys <==> k in activeMounts && (all || k.device == device)
      ensures forall i, j | 0 <= i < j < |keys| :: keys[i] != keys[j]
    {
      keys := [];
      var todo := activeMounts.Keys;
      while todo != {}
        invariant todo <= activeMounts.Keys
        invariant forall k :: k in keys <==> k in activeMounts && k !in todo && (all || k.device == device)
        invariant forall i, j | 0 <= i < j < |keys| :: keys[i] != keys[j]
      {
        var k :| k in todo;
        todo := todo - {k};
        if all || k.device == device {
          keys := keys + [k];
        }
      }
    }

    method UnmountNext(keys: seq<Key>, outs: seq<Outcome>, reguard: bool, i: nat, ghost m: Mounts) returns (err: bool)
      requires Valid() && |keys| == |outs| && i < |keys|
      requires View() == UnmountedEach(m, keys[..i], outs[..i], reguard)
      modifies this`activeMounts, this`writable, this`stray
      ensures Valid() && View() == UnmountedEach(m, keys[..i + 1], outs[..i + 1], reguard)
      ensures !err ==> AllRemove([outs[i]])
    {
      UnmountedEachNext(m, keys, outs, reguard, i);
      err := UnmountKey(keys[i], outs[i].unmounting.ok, outs[i].unmounting.recheck, reguard, outs[i].chmod);
    }

    /** The loop of unmountAll and UnmountDevice over its snapshot, uninterrupted. */
    method UnmountEach(keys: seq<Key>, outs: seq<Outcome>, reguard: bool) returns (errs: nat)
      requires Valid() && |keys| == |outs|
      modifies this`activeMounts, this`writable, this`stray
      ensures Valid() && View() == UnmountedEach(old(View()), keys, outs, reguard)
      ensures errs == 0 ==> AllRemove(outs)
    {
      errs := 0;
      ghost var m := View();
      for i := 0 to |keys|
        invariant Valid() && View() == UnmountedEach(m, keys[..i], outs[..i], reguard)
        invariant errs == 0 ==> AllRemove(outs[..i])
      {
        var err := UnmountNext(keys, outs, reguard, i, m);
        assert outs[..i + 1] == outs[..i] + [outs[i]];
        if err {
          errs := errs + 1;
        }
      }
      assert keys[..|keys|] == keys && outs[..|outs|] == outs;
    }

    /** The end of a successful Mount. */
    method Install(key: Key, path: Path, ep: Endpoint) returns (mnt: Mount)
      requires Valid()
      modifies this`activeMounts, this`made
      ensures Valid() && View() == Installed(old(View()), Gen(key, path, ep))
      ensures fresh(mnt) && activeMounts == old(activeMounts)[key := mnt]
      ensures mnt.key == key && mnt.path == path && mnt.ep == ep
    {
      mnt := new Mount(|made|, key, path, ep);
      activeMounts := activeMounts[key := mnt];
      made := made + [mnt];
      assert View().gens == old(View()).gens + [Gen(key, path, ep)];
      assert View().active == old(View()).active[key := |old(made)|];
    }

    /** A new entry takes the key's slot, and its goroutine is started. */
    method StartProbe(mnt: Mount, now: int) returns (entry: ProbeEntry)
      requires Valid() && Made(mnt)
      modifies this`probes, this`started
      ensures Valid() && fresh(entry) && entry.mount == mnt && !entry.done && entry.deadline == now + 3000
      ensures probes == old(probes)[mnt.key := entry] && started == old(started) + [entry]
      ensures View() == old(View()).(
                probes := old(View()).probes + [Probe(mnt.id, now + PROBE_TIMEOUT, Stat, Unknown, None)],
                probeOf := old(View()).probeOf[mnt.key := |old(started)|])
    {
      entry := new ProbeEntry(|started|, mnt, now + PROBE_TIMEOUT);
      probes := probes[mnt.key := entry];
      started := started + [entry];
      assert View().probes == old(View()).probes + [Probe(mnt.id, now + PROBE_TIMEOUT, Stat, Unknown, None)];
      assert View().probeOf == old(View()).probeOf[mnt.key := |old(started)|];
    }

    /** Comparing *Mount pointers is comparing generations. */
    lemma JoinsIff(mnt: Mount)
      requires Valid() && Made(mnt)
      ensures Joins(View(), mnt.key, mnt.id) <==> mnt.key in probes && probes[mnt.key].mount == mnt
    {
      if mnt.key in probes {
        var e := probes[mnt.key];
        assert View().probeOf[mnt.key] == e.id && started[e.id] == e && View().probes[e.id] == e.View();
        assert made[mnt.id] == mnt && made[e.mount.id] == e.mount;
      }
    }

    /** Join the registered probe of this generation, or register a new one. */
    method BeginProbe(mnt: Mount, now: int) returns (entry: ProbeEntry, joined: bool)
      requires Valid() && Made(mnt)
      modifies this`probes, this`started
      ensures Valid() && View() == BegunProbe(old(View()), mnt.key, mnt.id, now)
      ensures entry.mount == mnt && probes == old(probes)[mnt.key := entry]
      ensures joined <==> mnt.key in old(probes) && old(probes)[mnt.key].mount == mnt
      ensures !joined ==> fresh(entry) && !entry.done && entry.deadline == now + 3000
    {
      JoinsIff(mnt);
      joined := mnt.key in probes && probes[mnt.key].mount == mnt;
      if joined {
        entry := probes[mnt.key];
      } else {
        entry := StartProbe(mnt, now);
      }
    }

    /** runProbe's first half: write health, then close done, exactly once. */
    method Answer(entry: ProbeEntry, c: Check)
      requires Valid() && Started(entry) && !entry.done && !entry.retired
      modifies entry
      ensures Valid() && View() == AnsweredProbe(old(View()), entry.id, c) && entry.done
      ensures entry.health == Healthy <==> c == IsMount
      ensures entry.health == Dead <==> c == IsNotMount || c == NotConnected || c == Missing
      ensures entry.health == Unknown <==> c == OtherError
    {
      assert started[entry.id] == entry && View().probes[entry.id] == entry.View();
      entry.health := Classify(c);
      entry.answer := Some(c);
      entry.done := true;
      assert View().probes == AnsweredProbe(old(View()), entry.id, c).probes;
    }

    /** delete(m.probes, key), if the slot is still this entry's. */
    method LeaveRegistry(entry: ProbeEntry)
      requires Valid() && Started(entry)
      modifies this`probes
      ensures Valid()
      ensures probes == if entry in old(probes).Values then old(probes) - {entry.mount.key} else old(probes)
      ensures var k, v := entry.mount.key, old(View());
              View() == v.(probeOf := if k in v.probeOf && v.probeOf[k] == entry.id then v.probeOf - {k} else v.probeOf)
    {
      var k := entry.mount.key;
      if k in probes {
        assert View().probeOf[k] == probes[k].id && started[probes[k].id] == probes[k] && started[entry.id] == entry;
      }
      assert entry in probes.Values <==> k in probes && probes[k] == entry;
      if k in probes && probes[k] == entry {
        probes := probes - {k};
        assert View().probeOf == old(View()).probeOf - {k};
      }
    }

    /** runProbe's second half: de-register, unless another generation's entry has the slot. */
    method Retire(entry: ProbeEntry)
      requires Valid() && Started(entry) && entry.done && !entry.retired
      modifies this`probes, entry`retired
      ensures Valid() && View() == RetiredProbe(old(View()), entry.id) && entry.retired
      ensures probes == if entry in old(probes).Values then old(probes) - {entry.mount.key} else old(probes)
    {
      assert started[entry.id] == entry && View().probes[entry.id] == entry.View();
      assert made[entry.mount.id] == entry.mount && View().gens[entry.mount.id].key == entry.mount.key;
      LeaveRegistry(entry);
      entry.retired := true;
      assert View().probes == RetiredProbe(old(View()), entry.id).probes;
    }
  }
}
