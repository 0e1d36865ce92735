/**
 The registry's lock sections as they are written (internal/hub/registry.go): methods
 that update a map of channel objects in place. Each is proved to perform the step the
 hub machine takes; closing or sending on a closed channel, which panics in Go, is a
 precondition of `Channel`, so these methods are also proved never to do it.
 */
module HubRegistry {
  import opened DeviceTable
  import opened Subscribers
  import opened HubMachine

  /** A Go channel of capacity 64, with everything it ever accepted and delivered. */
  class Channel {
    ghost const id: nat
    var closed: bool
    var buf: seq<Event>
    ghost var sent: seq<Event>
    ghost var taken: seq<Event>

    ghost function View(): Chan
      reads this
    {
      Chan(!closed, buf, sent, taken)
    }

    constructor (ghost id: nat)
      ensures this.id == id && View() == FRESH
    {
      this.id := id;
      closed, buf, sent, taken := false, [], [], [];
    }

    method Close()
      requires !closed
      modifies this
      ensures View() == old(View()).(open := false)
    {
      closed := true;
    }

    /** A receive that finds an event. */
    method Take() returns (e: Event)
      requires buf != []
      modifies this
      ensures e == old(buf)[0] && View() == old(View()).(buf := old(buf)[1..], taken := old(taken) + [e])
    {
      e := buf[0];
      buf := buf[1..];
      taken := taken + [e];
    }

    /** A select with a default: sends unless the buffer is full. */
    method TrySend(e: Event) returns (ok: bool)
      requires !closed
      modifies this
      ensures ok <==> |old(buf)| < CAPACITY
      ensures View() == if ok then old(View()).(buf := old(buf) + [e], sent := old(sent) + [e]) else old(View())
    {
      ok := |buf| < CAPACITY;
      if ok {
        buf := buf + [e];
        sent := sent + [e];
      }
    }
  }

  function Accepted(ch: Chan, e: Event): Chan {
    if |ch.buf| < CAPACITY then ch.(buf := ch.buf + [e], sent := ch.sent + [e]) else ch
  }

  /** A whole broadcast to the devices `ds`: what it leaves does not depend on the order of the sends. */
  function Broadcasted(r: Reg, ds: set<Device>, e: Event): Reg {
    r.(chans := seq(|r.chans|, i requires 0 <= i < |r.chans| =>
      if i in ChansOf(r, ds) then Accepted(r.chans[i], e) else r.chans[i]))
  }

  function ChansOf(r: Reg, ds: set<Device>): set<nat> {
    set d | d in ds && d in r.subs :: r.subs[d]
  }

  lemma ChansStep(r: Reg, ds: set<Device>, d: Device, c: nat)
    requires Closable(r) && d in ds && d in r.subs
    ensures c in ChansOf(r, ds - {d}) <==> c in ChansOf(r, ds) && c != r.subs[d]
  {
  }

  lemma BroadcastStep(r: Reg, ds: set<Device>, d: Device, e: Event)
    requires Consistent(r) && ds <= r.subs.Keys && d in ds
    ensures Broadcasted(Offered(r, d, e), ds - {d}, e) == Broadcasted(r, ds, e)
  {
    var r1 := Offered(r, d, e);
    assert r.subs[d] in ChansOf(r, ds);
    var a, b := Broadcasted(r1, ds - {d}, e), Broadcasted(r, ds, e);
    forall i | 0 <= i < |r.chans| ensures a.chans[i] == b.chans[i] {
      ChansStep(r, ds, d, i);
      assert ChansOf(r1, ds - {d}) == ChansOf(r, ds - {d});
    }
  }

  /** Deleting and closing one entry first changes nothing for CloseAllSubscribers. */
  lemma CloseStep(r: Reg, d: Device)
    requires Consistent(r) && d in r.subs
    ensures AllClosed(Removed(r, d)) == AllClosed(r)
  {
    RemovedKeeps(r, d);
    var r1 := Removed(r, d);
    assert r.subs[d] in r.subs.Values;
    forall i | 0 <= i < |r.chans| ensures AllClosed(r1).chans[i] == AllClosed(r).chans[i] {
      if i in r.subs.Values && i != r.subs[d] {
        var x :| x in r.subs && r.subs[x] == i;
        assert r1.subs[x] == i;
      }
    }
    assert AllClosed(r1).chans == AllClosed(r).chans;
  }

  lemma AllClosedOfNone(r: Reg)
    requires Consistent(r) && r.subs == map[]
    ensures AllClosed(r) == r
  {
    assert AllClosed(r).chans == r.chans;
  }

  class Registry {
    const store: DeviceStore
    var subscribers: map<Device, Channel>
    var draining: bool
    ghost var made: seq<Channel>

    /** Channels are numbered in the order they were made, and the map only holds such channels. */
    ghost predicate Numbered()
      reads this, made
    {
      && (forall i | 0 <= i < |made| :: made[i].id == i)
      && (forall d | d in subscribers :: subscribers[d].id < |made| && made[subscribers[d].id] == subscribers[d])
    }

    ghost predicate Valid()
      reads this, made
    {
      Numbered() && Consistent(View())
    }

    /** The value the specification and the hub machine speak about. */
    ghost function View(): Reg
      reads this, made
    {
      Reg(draining,
          map d | d in subscribers :: subscribers[d].id,
          seq(|made|, i requires 0 <= i < |made| reads this, made => made[i].View()),
          false)
    }

    /** Of the channels there were, exactly those in `cs` were closed meanwhile; what was sent and buffered stays. */
    twostate predicate OnlyCloses(cs: set<Channel>)
      reads this, made
    {
      && (forall c | c in old(made) :: c in made)
      && forall c | c in old(made) ::
           && (c.closed <==> old(c.closed) || c in cs)
           && c.buf == old(c.buf) && c.sent == old(c.sent) && c.taken == old(c.taken)
    }

    /** The channel of one of these devices. */
    ghost predicate Reaches(c: Channel, ds: set<Device>)
      reads this
    {
      exists d :: d in ds && d in subscribers && subscribers[d] == c
    }

    /** What a broadcast does to each channel: the devices of `ds` get the event if there is room, nobody else does. */
    twostate predicate OnlyOffers(ds: set<Device>, e: Event)
      reads this, made
    {
      && made == old(made) && subscribers == old(subscribers)
      && (forall c | c in made :: c.closed == old(c.closed) && c.taken == old(c.taken))
      && (forall c | c in made ::
            && c.buf == old(c.buf) + (if Reaches(c, ds) && |old(c.buf)| < 64 then [e] else [])
            && c.sent == old(c.sent) + (if Reaches(c, ds) && |old(c.buf)| < 64 then [e] else []))
    }

    ghost function Ids(cs: set<Channel>): set<nat> {
      set c | c in cs :: c.id
    }

    twostate lemma ClosesByView(cs: set<Channel>)
      requires old(Numbered()) && Numbered() && old(made) <= made && forall c | c in cs :: c in old(made)
      requires Subscribers.OnlyCloses(old(View()), View(), Ids(cs))
      ensures OnlyCloses(cs)
    {
      forall c | c in old(made)
        ensures c in made && (c.closed <==> old(c.closed) || c in cs)
        ensures c.buf == old(c.buf) && c.sent == old(c.sent) && c.taken == old(c.taken)
      {
        var i :| 0 <= i < |old(made)| && old(made)[i] == c;
        assert made[i] == c && c.id == i;
        assert View().chans[i] == c.View() && old(View()).chans[i] == old(c.View());
        assert i in Ids(cs) <==> c in cs;
      }
    }

    twostate lemma OffersByChannel(new ds: set<Device>, new e: Event)
      requires old(Numbered()) && made == old(made) && View() == Broadcasted(old(View()), ds, e)
      ensures forall c | c in made ::
                && c.closed == old(c.closed) && c.taken == old(c.taken)
                && c.buf == old(c.buf) + (if c.id in ChansOf(old(View()), ds) && |old(c.buf)| < 64 then [e] else [])
                && c.sent == old(c.sent) + (if c.id in ChansOf(old(View()), ds) && |old(c.buf)| < 64 then [e] else [])
    {
      forall c | c in made
        ensures c.closed == old(c.closed) && c.taken == old(c.taken)
        ensures c.buf == old(c.buf) + (if c.id in ChansOf(old(View()), ds) && |old(c.buf)| < 64 then [e] else [])
        ensures c.sent == old(c.sent) + (if c.id in ChansOf(old(View()), ds) && |old(c.buf)| < 64 then [e] else [])
      {
        assert made[c.id] == c && View().chans[c.id] == c.View() && old(View()).chans[c.id] == old(c.View());
      }
    }

    lemma ReachedById(c: Channel, ds: set<Device>)
      requires Numbered() && c in made
      ensures c.id in ChansOf(View(), ds) <==> Reaches(c, ds)
    {
      forall d | d in ds && d in subscribers ensures View().subs[d] == c.id <==> subscribers[d] == c {
        assert View().subs[d] == subscribers[d].id && made[c.id] == c;
      }
      if c.id in ChansOf(View(), ds) {
        var d :| d in ds && d in View().subs && View().subs[d] == c.id;
        assert subscribers[d] == c;
      }
    }

    twostate lemma OffersByView(new ds: set<Device>, new e: Event)
      requires old(Valid()) && made == old(made) && subscribers == old(subscribers) && ds <= subscribers.Keys
      requires View() == Broadcasted(old(View()), ds, e)
      ensures OnlyOffers(ds, e)
    {
      OffersByChannel(ds, e);
      forall c | c in made ensures c.id in ChansOf(old(View()), ds) <==> Reaches(c, ds) {
        ReachedById(c, ds);
      }
    }

    constructor (store: DeviceStore)
      ensures Valid() && View() == EMPTY && this.store == store
    {
      this.store := store;
      subscribers, draining, made := map[], false, [];
    }

    method Drain()
      requires Valid()
      modifies this`draining
      ensures Valid() && View() == Drained(old(View())) && draining
    {
      draining := true;
      assert View() == Drained(old(View()));
    }

    /** close(ch), for a channel of the registry. */
    method CloseOne(ch: Channel)
      requires Numbered() && ch.id < |made| && made[ch.id] == ch && !ch.closed
      modifies ch
      ensures Numbered() && View() == CloseChan(old(View()), ch.id)
    {
      assert View().chans[ch.id] == ch.View();
      ch.Close();
      assert View().chans == old(View()).chans[ch.id := old(View()).chans[ch.id].(open := false)];
    }

    /** One send of a broadcast, for a device of the map. */
    method SendOne(d: Device, e: Event)
      requires Valid() && d in subscribers
      modifies made
      ensures Valid() && View() == Offered(old(View()), d, e)
    {
      OfferedKeeps(View(), d, e);
      var ch := subscribers[d];
      assert View().subs[d] == ch.id && View().chans[ch.id] == ch.View();
      var ok := ch.TrySend(e);
      assert View().chans == Offered(old(View()), d, e).chans;
    }

    /** delete(r.subscribers, d) */
    method Forget(d: Device)
      requires Numbered()
      modifies this`subscribers
      ensures Numbered() && subscribers == old(subscribers) - {d}
      ensures View() == old(View()).(subs := old(View()).subs - {d})
    {
      subscribers := subscribers - {d};
      assert View().subs == old(View()).subs - {d};
    }

    method RemoveSubscriber(d: Device)
      requires Valid()
      modifies this`subscribers, made
      ensures Valid() && View() == Removed(old(View()), d) && subscribers == old(subscribers) - {d}
      ensures OnlyCloses(if d in old(subscribers) then {old(subscribers)[d]} else {})
    {
      RemovedKeeps(View(), d);
      if d in subscribers {
        var ch := subscribers[d];
        assert View().subs[d] == ch.id && View().chans[ch.id] == ch.View();
        CloseOne(ch);
        Forget(d);
      } else {
        assert subscribers - {d} == subscribers;
      }
      ghost var cs := if d in old(subscribers) then {old(subscribers)[d]} else {};
      assert Ids(cs) == CurrentOf(old(View()), d);
      ClosesByView(cs);
    }

    method Install(d: Device) returns (ch: Channel)
      requires Numbered()
      modifies this`subscribers, this`made
      ensures Numbered() && fresh(ch) && made == old(made) + [ch] && subscribers == old(subscribers)[d := ch]
      ensures !ch.closed && ch.buf == []
      ensures View() == old(View()).(subs := old(View()).subs[d := |old(made)|],
                                     chans := old(View()).chans + [FRESH])
    {
      ch := new Channel(|made|);
      subscribers := subscribers[d := ch];
      made := made + [ch];
      assert View().chans == old(View()).chans + [FRESH];
    }

    /** The part of Subscribe after its draining check: the old channel, if any, is closed and replaced. */
    method Renew(d: Device) returns (ch: Channel)
      requires Valid() && !draining
      modifies this`subscribers, this`made, made
      ensures Valid() && View() == Subscribed(old(View()), d) && draining == old(draining)
      ensures fresh(ch) && subscribers == old(subscribers)[d := ch] && made == old(made) + [ch]
      ensures !ch.closed && ch.buf == []
      ensures Subscribers.OnlyCloses(old(View()), View(), CurrentOf(old(View()), d))
    {
      SubscribedKeeps(View(), d);
      if d in subscribers {
        var replaced := subscribers[d];
        assert View().subs[d] == replaced.id && View().chans[replaced.id] == replaced.View();
        CloseOne(replaced);
      }
      ch := Install(d);
    }

    /** Refused while draining. */
    method Subscribe(d: Device) returns (ch: Channel?)
      requires Valid()
      modifies this`subscribers, this`made, made
      ensures Valid() && View() == Subscribed(old(View()), d) && draining == old(draining)
      ensures ch == null <==> old(draining)
      ensures ch == null ==> subscribers == old(subscribers) && made == old(made)
      ensures ch != null ==> fresh(ch) && subscribers == old(subscribers)[d := ch] && made == old(made) + [ch]
      ensures ch != null ==> !ch.closed && ch.buf == []
      ensures OnlyCloses(if ch != null && d in old(subscribers) then {old(subscribers)[d]} else {})
    {
      if draining {
        return null;
      }
      ch := Renew(d);
      ghost var cs := if d in old(subscribers) then {old(subscribers)[d]} else {};
      assert Ids(cs) == CurrentOf(old(View()), d);
      ClosesByView(cs);
    }

    /** The function Subscribe returns: it compares channel identity before it closes. */
    method Unsubscribe(d: Device, ch: Channel)
      requires Valid() && ch in made
      modifies this`subscribers, made
      ensures Valid() && View() == Unsubscribed(old(View()), d, ch.id)
      ensures var current := d in old(subscribers) && old(subscribers)[d] == ch;
              && subscribers == (if current then old(subscribers) - {d} else old(subscribers))
              && OnlyCloses(if current then {ch} else {})
    {
      if d in subscribers && subscribers[d] == ch {
        assert View().subs[d] == ch.id;
        RemoveSubscriber(d);
      } else {
        assert d in subscribers ==> View().subs[d] == subscribers[d].id;
      }
    }

    /** One iteration of CloseAllSubscribers; the final state does not depend on the order. */
    method CloseNext()
      requires Valid() && subscribers != map[]
      modifies this`subscribers, made
      ensures Valid() && AllClosed(View()) == AllClosed(old(View()))
      ensures |subscribers| == |old(subscribers)| - 1
      ensures exists d :: d in old(subscribers) && subscribers == old(subscribers) - {d}
                          && OnlyCloses({old(subscribers)[d]})
    {
      var d :| d in subscribers;
      assert View().subs[d] == subscribers[d].id;
      CloseStep(View(), d);
      RemoveSubscriber(d);
      assert subscribers.Keys == old(subscribers).Keys - {d};
    }

    method CloseAllSubscribers() returns (closed: nat)
      requires Valid()
      modifies this`subscribers, made
      ensures Valid() && View() == AllClosed(old(View()))
      ensures closed == |old(subscribers)| && subscribers == map[]
      ensures OnlyCloses(old(subscribers).Values)
    {
      closed := |subscribers|;
      while subscribers != map[]
        invariant Valid() && AllClosed(View()) == AllClosed(old(View()))
        invariant forall d | d in subscribers :: d in old(subscribers) && subscribers[d] == old(subscribers)[d]
        invariant OnlyCloses(set d | d in old(subscribers) && d !in subscribers :: old(subscribers)[d])
        decreases |subscribers|
      {
        CloseNext();
      }
      assert View().subs == map[];
      AllClosedOfNone(View());
    }

    /** One iteration of a broadcast to the devices `left`. */
    method SendNext(d: Device, e: Event, ghost left: set<Device>)
      requires Valid() && d in left && left <= subscribers.Keys
      modifies made
      ensures Valid() && View().subs == old(View()).subs
      ensures Broadcasted(View(), left - {d}, e) == Broadcasted(old(View()), left, e)
    {
      BroadcastStep(View(), left, d, e);
      SendOne(d, e);
    }

    method SendEach(e: Event, skip: set<Device>)
      requires Valid()
      modifies made
      ensures Valid() && View() == Broadcasted(old(View()), old(subscribers).Keys - skip, e)
    {
      var left := subscribers.Keys;
      while left != {}
        invariant Valid() && left <= subscribers.Keys
        invariant Broadcasted(View(), left - skip, e) == Broadcasted(old(View()), subscribers.Keys - skip, e)
      {
        var d :| d in left;
        if d in skip {
          assert left - skip == (left - {d}) - skip;
        } else {
          SendNext(d, e, left - skip);
          assert left - skip - {d} == (left - {d}) - skip;
        }
        left := left - {d};
      }
      assert Broadcasted(View(), left - skip, e).chans == View().chans;
    }

    /** The body of every broadcast; the caller holds the lock. */
    method BroadcastLocked(e: Event, skip: set<Device>)
      requires Valid()
      modifies made
      ensures Valid() && View() == Broadcasted(old(View()), old(subscribers).Keys - skip, e)
      ensures OnlyOffers(subscribers.Keys - skip, e)
    {
      SendEach(e, skip);
      OffersByView(subscribers.Keys - skip, e);
    }

    /**
     Guard, promotion and announcement in one read-lock section. `fail` is the
     environment's: the statement reports an error and has no effect.
     */
    method RecoverAndAnnounce(d: Device, ip: string, fail: bool) returns (recovered: bool)
      requires Valid()
      modifies made, store
      ensures Valid()
      ensures recovered <==> && !draining && d in subscribers && !fail
                              && d in old(store.rows) && old(store.rows)[d].status == Offline
      ensures OnlineOf(store.rows) == OnlineOf(old(store.rows)) + (if recovered then {d} else {})
      ensures forall x | x in old(store.rows) && x != d :: x in store.rows && store.rows[x] == old(store.rows)[x]
      ensures recovered && ip != "" ==> store.rows[d].ip == ip
      ensures OnlyOffers(if recovered then subscribers.Keys - {d} else {}, DeviceOnline(d, ByRecovery))
      ensures store.rows == if recovered then Promote(old(store.rows), d, ip) else old(store.rows)
      ensures View() == if recovered
                        then Broadcasted(old(View()), subscribers.Keys - {d}, DeviceOnline(d, ByRecovery))
                        else old(View())
    {
      recovered := false;
      if draining || d !in subscribers || fail { return; }
      recovered := store.MarkOnlineIfOffline(d, ip);
      assert View() == old(View());
      if recovered {
        BroadcastLocked(DeviceOnline(d, ByRecovery), {d});
      }
    }

    /** Register's write, refused while draining. */
    method MarkOnlineUnlessDraining(d: Device, ip: string, port: int, fail: bool) returns (ok: bool)
      requires Valid()
      modifies store
      ensures Valid() && View() == old(View())
      ensures ok <==> !draining && !fail && d in old(store.rows)
      ensures store.rows == if ok then SetStatus(old(store.rows), d, Online, ip, port) else old(store.rows)
      ensures store.rows.Keys == old(store.rows).Keys
      ensures forall x | x in store.rows && (x != d || !ok) :: store.rows[x] == old(store.rows)[x]
      ensures ok ==> store.rows[d] == Row(old(store.rows)[d].nickname, ip, port, Online, old(store.rows)[d].beat)
    {
      ok := false;
      if !draining && !fail {
        ok := store.UpdateDeviceStatus(d, Online, ip, port);
      }
      assert View() == old(View());
    }
  }
}
