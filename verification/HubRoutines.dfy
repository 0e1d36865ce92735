/**
 The hub's loops as they are written: the monitor's checkStale (internal/hub/heartbeat.go),
 the shutdown sweep (internal/hub/hub.go) and the end of a Subscribe stream
 (internal/hub/server.go), here with nothing in between; the hub machine interleaves them.
 */
module HubRoutines {
  import opened DeviceTable
  import opened Subscribers
  import opened HubRegistry

  /** The rows after a demotion attempt on each listed device whose statement did not fail. */
  function DemoteEach(t: Table, list: seq<Device>, threshold: int, fails: set<Device>): Table {
    if list == [] then t
    else
      var d, before := list[|list| - 1], DemoteEach(t, list[..|list| - 1], threshold, fails);
      if d in fails then before else DemoteIfStale(before, d, threshold)
  }

  /** Exactly the listed, stale, unfailing rows go offline, and nothing else about the table changes. */
  lemma {:induction false} DemoteEachIs(t: Table, list: seq<Device>, threshold: int, fails: set<Device>)
    ensures var t' := DemoteEach(t, list, threshold, fails);
            && t'.Keys == t.Keys
            && forall d | d in t :: t'[d] == if Stale(t, d, threshold) && d in list && d !in fails
                                             then t[d].(status := Offline) else t[d]
  {
    if list != [] {
      var front := list[..|list| - 1];
      DemoteEachIs(t, front, threshold, fails);
      assert list == front + [list[|list| - 1]];
    }
  }

  lemma DemoteEachOnline(t: Table, list: seq<Device>, threshold: int, fails: set<Device>)
    requires Lists(list, StaleOf(t, threshold))
    ensures OnlineOf(DemoteEach(t, list, threshold, fails)) == OnlineOf(t) - (StaleOf(t, threshold) - fails)
  {
    DemoteEachIs(t, list, threshold, fails);
  }

  /** The listed devices whose statement did not fail, in order. */
  function Unfailed(list: seq<Device>, fails: set<Device>): seq<Device> {
    if list == [] then []
    else
      var d := list[|list| - 1];
      Unfailed(list[..|list| - 1], fails) + (if d in fails then [] else [d])
  }

  lemma {:induction false} UnfailedLists(list: seq<Device>, fails: set<Device>)
    requires forall i, j | 0 <= i < j < |list| :: list[i] != list[j]
    ensures Lists(Unfailed(list, fails), (set d | d in list) - fails)
  {
    if list != [] {
      var front, d := list[..|list| - 1], list[|list| - 1];
      assert list == front + [d];
      UnfailedLists(front, fails);
      assert d !in front;
      var before, wanted := Unfailed(front, fails), (set e | e in front) - fails;
      forall e ensures e in Unfailed(list, fails) <==> e in list && e !in fails {
        assert e in before <==> e in wanted;
      }
      assert d !in before by { assert d !in wanted; }
      var after := Unfailed(list, fails);
      forall i, j | 0 <= i < j < |after| ensures after[i] != after[j] {
        assert after[i] == before[i];
        assert j < |before| ==> after[j] == before[j];
      }
    }
  }

  /** One more device of the list. */
  lemma CheckStep(t: Table, list: seq<Device>, i: nat, threshold: int, fails: set<Device>)
    requires i < |list| && Lists(list, StaleOf(t, threshold))
    ensures var d, before := list[i], DemoteEach(t, list[..i], threshold, fails);
            && Stale(before, d, threshold)
            && DemoteEach(t, list[..i + 1], threshold, fails) ==
                 (if d in fails then before else DemoteIfStale(before, d, threshold))
            && Unfailed(list[..i + 1], fails) == Unfailed(list[..i], fails) + (if d in fails then [] else [d])
  {
    DemoteEachIs(t, list[..i], threshold, fails);
    assert list[..i + 1][..i] == list[..i];
    assert list[i] in list && list[i] !in list[..i];
  }

  /** The registry after these announcements, in this order; `others`: each skips its own device. */
  function Announced(r: Reg, list: seq<Device>, source: Source, others: bool): Reg {
    if list == [] then r
    else
      var d := list[|list| - 1];
      Broadcasted(Announced(r, list[..|list| - 1], source, others),
                  r.subs.Keys - (if others then {d} else {}), DeviceOffline(d, source))
  }

  lemma AnnouncedAppend(r: Reg, list: seq<Device>, d: Device, source: Source, others: bool)
    ensures Announced(r, list + [d], source, others) ==
              Broadcasted(Announced(r, list, source, others),
                          r.subs.Keys - (if others then {d} else {}), DeviceOffline(d, source))
  {
    assert (list + [d])[..|list|] == list;
  }

  /** The announcements that are for the subscriber `x`, in order. */
  function EventsFor(list: seq<Device>, source: Source, others: bool, x: Device): seq<Event> {
    if list == [] then []
    else
      var d := list[|list| - 1];
      EventsFor(list[..|list| - 1], source, others, x) + (if others && d == x then [] else [DeviceOffline(d, source)])
  }

  /** A buffer of 64 after these events: as many of the first as fit. */
  function Filled(buf: seq<Event>, events: seq<Event>): seq<Event> {
    var room := if |buf| < 64 then 64 - |buf| else 0;
    buf + events[..if |events| <= room then |events| else room]
  }

  lemma FilledOnce(buf: seq<Event>, events: seq<Event>, e: Event)
    requires |buf| <= 64
    ensures Filled(buf, events + [e]) == Filled(buf, events) + (if |Filled(buf, events)| < 64 then [e] else [])
  {
    var room := 64 - |buf|;
    if |events| < room {
      assert (events + [e])[..|events| + 1] == events + [e] && events[..|events|] == events;
    } else {
      assert (events + [e])[..room] == events[..room];
    }
  }

  /**
   However many announcements, a subscriber's channel ends up with those that are for it, in
   the order of the list, until its buffer is full.
   */
  lemma {:induction false} AnnouncedFills(r: Reg, list: seq<Device>, source: Source, others: bool, x: Device)
    requires Consistent(r) && x in r.subs
    ensures var r', c := Announced(r, list, source, others), r.subs[x];
            && r'.subs == r.subs && |r'.chans| == |r.chans| && r'.chans[c].open
            && r'.chans[c].buf == Filled(r.chans[c].buf, EventsFor(list, source, others, x))
  {
    var c := r.subs[x];
    assert ChanOk(r.chans[c]);
    if list != [] {
      var front, d := list[..|list| - 1], list[|list| - 1];
      AnnouncedFills(r, front, source, others, x);
      var before := Announced(r, front, source, others);
      var ds := r.subs.Keys - (if others then {d} else {});
      assert c in ChansOf(before, ds) <==> x in ds by {
        assert forall y | y in r.subs && r.subs[y] == c :: y == x;
        assert x in ds ==> before.subs[x] == c;
      }
      FilledOnce(r.chans[c].buf, EventsFor(front, source, others, x), DeviceOffline(d, source));
    }
  }

  /** On the channel objects. */
  twostate lemma BuffersFill(registry: Registry, new list: seq<Device>, new source: Source, new others: bool)
    requires old(registry.Valid()) && registry.Numbered()
    requires registry.subscribers == old(registry.subscribers)
    requires registry.View() == Announced(old(registry.View()), list, source, others)
    ensures forall x | x in registry.subscribers ::
              registry.subscribers[x].buf ==
              Filled(old(registry.subscribers[x].buf), EventsFor(list, source, others, x))
  {
    forall x | x in registry.subscribers
      ensures registry.subscribers[x].buf ==
              Filled(old(registry.subscribers[x].buf), EventsFor(list, source, others, x))
    {
      var ch := registry.subscribers[x];
      AnnouncedFills(old(registry.View()), list, source, others, x);
      assert old(registry.View()).subs[x] == ch.id && old(registry.View()).chans[ch.id] == old(ch.View());
      assert registry.View().chans[ch.id] == ch.View();
    }
  }

  class HeartbeatMonitor {
    const registry: Registry
    const timeout: int

    constructor (registry: Registry, timeout: int)
      ensures this.registry == registry && this.timeout == timeout
    {
      this.registry, this.timeout := registry, timeout;
    }

    /** Demote, and announce only a demotion that happened. */
    method MarkOffline(d: Device, threshold: int, fail: bool) returns (demoted: bool)
      requires registry.Valid()
      modifies registry.made, registry.store
      ensures registry.Valid()
      ensures demoted <==>
                && !fail && d in old(registry.store.rows) && old(registry.store.rows)[d].status == Online
                && old(registry.store.rows)[d].beat < threshold
      ensures registry.store.rows ==
                if fail then old(registry.store.rows) else DemoteIfStale(old(registry.store.rows), d, threshold)
      ensures registry.View() ==
                if demoted
                then Broadcasted(old(registry.View()), registry.subscribers.Keys - {d}, DeviceOffline(d, ByMonitor))
                else old(registry.View())
    {
      demoted := false;
      if !fail {
        demoted := registry.store.MarkOfflineIfStale(d, threshold);
      }
      assert registry.View() == old(registry.View());
      if demoted {
        registry.BroadcastLocked(DeviceOffline(d, ByMonitor), {d});
      }
    }

    /** One iteration, `done` devices having been announced so far. */
    method CheckOne(d: Device, threshold: int, fail: bool, done: seq<Device>, ghost r: Reg) returns (done': seq<Device>)
      requires registry.Valid() && Stale(registry.store.rows, d, threshold)
      requires registry.View() == Announced(r, done, ByMonitor, true) && r.subs.Keys == registry.subscribers.Keys
      modifies registry.made, registry.store
      ensures registry.Valid()
      ensures done' == if fail then done else done + [d]
      ensures registry.store.rows ==
                if fail then old(registry.store.rows) else DemoteIfStale(old(registry.store.rows), d, threshold)
      ensures registry.View() == Announced(r, done', ByMonitor, true)
    {
      var demoted := MarkOffline(d, threshold, fail);
      done' := if demoted then done + [d] else done;
      AnnouncedAppend(r, done, d, ByMonitor, true);
    }

    method CheckEach(stale: seq<Device>, threshold: int, fails: set<Device>) returns (demoted: seq<Device>)
      requires registry.Valid() && Lists(stale, StaleOf(registry.store.rows, threshold))
      modifies registry.made, registry.store
      ensures registry.Valid() && demoted == Unfailed(stale, fails)
      ensures registry.store.rows == DemoteEach(old(registry.store.rows), stale, threshold, fails)
      ensures registry.View() == Announced(old(registry.View()), demoted, ByMonitor, true)
    {
      demoted := [];
      ghost var rows, r := registry.store.rows, registry.View();
      for i := 0 to |stale|
        invariant registry.Valid() && demoted == Unfailed(stale[..i], fails)
        invariant registry.store.rows == DemoteEach(rows, stale[..i], threshold, fails)
        invariant registry.View() == Announced(r, demoted, ByMonitor, true)
      {
        CheckStep(rows, stale, i, threshold, fails);
        demoted := CheckOne(stale[i], threshold, stale[i] in fails, demoted, r);
      }
      assert stale[..|stale|] == stale;
    }

    /**
     Uninterrupted, a sweep takes offline exactly the devices that were stale, save those
     whose write failed, and tells the others of each one, once and in the order listed.
     */
    method CheckStale(now: int, listFails: bool, fails: set<Device>) returns (demoted: seq<Device>)
      requires registry.Valid()
      modifies registry.made, registry.store
      ensures registry.Valid()
      ensures listFails ==> demoted == [] && registry.store.rows == old(registry.store.rows)
      ensures !listFails ==>
                && Lists(demoted, StaleOf(old(registry.store.rows), now - timeout) - fails)
                && OnlineOf(registry.store.rows) ==
                     OnlineOf(old(registry.store.rows)) - (StaleOf(old(registry.store.rows), now - timeout) - fails)
      ensures registry.View() == Announced(old(registry.View()), demoted, ByMonitor, true)
      ensures forall x | x in registry.subscribers ::
                registry.subscribers[x].buf ==
                Filled(old(registry.subscribers[x].buf), EventsFor(demoted, ByMonitor, true, x))
    {
      demoted := [];
      if listFails {
        BuffersFill(registry, [], ByMonitor, true);
        return;
      }
      var stale := registry.store.ListStaleDevices(now - timeout);
      demoted := CheckEach(stale, now - timeout, fails);
      DemoteEachOnline(old(registry.store.rows), stale, now - timeout, fails);
      UnfailedLists(stale, fails);
      BuffersFill(registry, demoted, ByMonitor, true);
      assert (set d | d in stale) == StaleOf(old(registry.store.rows), now - timeout);
    }
  }

  method AnnounceOne(registry: Registry, d: Device, ghost done: seq<Device>, ghost r: Reg)
    requires registry.Valid() && r.subs.Keys == registry.subscribers.Keys
    requires registry.View() == Announced(r, done, BySweep, false)
    modifies registry.made
    ensures registry.Valid() && registry.View() == Announced(r, done + [d], BySweep, false)
  {
    AnnouncedAppend(r, done, d, BySweep, false);
    registry.BroadcastLocked(DeviceOffline(d, BySweep), {});
  }

  /** Tell everyone, each device in turn. */
  method AnnounceEach(registry: Registry, online: seq<Device>)
    requires registry.Valid()
    modifies registry.made
    ensures registry.Valid() && registry.View() == Announced(old(registry.View()), online, BySweep, false)
  {
    ghost var r := registry.View();
    for i := 0 to |online|
      invariant registry.Valid() && registry.View() == Announced(r, online[..i], BySweep, false)
    {
      assert online[..i + 1] == online[..i] + [online[i]];
      AnnounceOne(registry, online[i], online[..i], r);
    }
    assert online[..|online|] == online;
  }

  /**
   The shutdown sweep: list, one write, then the announcements, in that order. If the list
   or the write fails nothing is announced; otherwise every demoted row is, and the table
   has no online row left.
   */
  method SweepOnlineDevices(registry: Registry, listFails: bool, writeFails: bool) returns (told: seq<Device>)
    requires registry.Valid()
    modifies registry.made, registry.store
    ensures registry.Valid()
    ensures listFails || writeFails ==> told == [] && registry.store.rows == old(registry.store.rows)
    ensures !listFails && !writeFails ==>
              Lists(told, OnlineOf(old(registry.store.rows))) && OnlineOf(registry.store.rows) == {}
    ensures registry.View() == Announced(old(registry.View()), told, BySweep, false)
    ensures forall x | x in registry.subscribers ::
              registry.subscribers[x].buf ==
              Filled(old(registry.subscribers[x].buf), EventsFor(told, BySweep, false, x))
  {
    told := [];
    BuffersFill(registry, told, BySweep, false);
    if listFails { return; }
    var online := registry.store.ListOnlineDevices();
    if online == [] {
      assert OnlineOf(registry.store.rows) == {} by {
        assert forall d :: d in OnlineOf(registry.store.rows) <==> d in online;
      }
      return;
    }
    if writeFails { return; }
    var _ := registry.store.MarkAllOffline();
    assert registry.View() == old(registry.View());
    AnnounceEach(registry, online);
    told := online;
    BuffersFill(registry, told, BySweep, false);
  }

  /** The loop of a Subscribe handler from the close of its channel: what is buffered still goes out, in order. */
  method DrainClosed(ch: Channel, sendFailsAt: nat) returns (out: seq<Event>, err: bool)
    requires ch.closed
    modifies ch
    ensures ch.closed && ch.sent == old(ch.sent)
    ensures err <==> sendFailsAt < |old(ch.buf)|
    ensures out == if err then old(ch.buf)[..sendFailsAt] else old(ch.buf)
    ensures !err ==> ch.buf == []
  {
    out, err := [], false;
    while ch.buf != []
      invariant ch.closed && ch.sent == old(ch.sent)
      invariant out + ch.buf == old(ch.buf) && |out| <= sendFailsAt
      decreases |ch.buf|
    {
      var event := ch.Take();
      if |out| == sendFailsAt {
        return out, true;
      }
      out := out + [event];
    }
  }
}
