/**
 The registry's event subscriptions (internal/hub/registry.go): a map from device to
 a buffered channel, replaced, closed and sent on by several RPC handlers. Go panics
 on a send to, or a second close of, a closed channel; the specification records such
 a fault in `panicked`, and `Consistent` says it never happens.
 */
module Subscribers {
  import opened DeviceTable

  /** Which statement of the hub published an event. The wire message does not carry it. */
  datatype Source = ByRegister | ByRecovery | ByDeregister | ByMonitor | BySweep

  datatype Event =
    | DeviceOnline(dev: Device, via: Source)
    | DeviceOffline(dev: Device, via: Source)
    | DeviceRemoved(dev: Device)

  const CAPACITY := 64

  /** `sent` and `taken` remember every event ever accepted and ever received. */
  datatype Chan = Chan(open: bool, buf: seq<Event>, sent: seq<Event>, taken: seq<Event>)

  /** Every channel ever made has an index in `chans`; `subs` is the registry's map. */
  datatype Reg = Reg(draining: bool, subs: map<Device, nat>, chans: seq<Chan>, panicked: bool)

  const EMPTY: Reg := Reg(false, map[], [], false)
  const FRESH: Chan := Chan(true, [], [], [])

  function Drained(r: Reg): Reg {
    r.(draining := true)
  }

  function CloseChan(r: Reg, c: nat): Reg {
    if c < |r.chans| && r.chans[c].open
    then r.(chans := r.chans[c := r.chans[c].(open := false)])
    else r.(panicked := true)
  }

  /** registry.go Subscribe: refused while draining; an existing channel is closed and replaced. */
  function Subscribed(r: Reg, d: Device): Reg {
    if r.draining then r
    else
      var closed := if d in r.subs then CloseChan(r, r.subs[d]) else r;
      closed.(subs := closed.subs[d := |closed.chans|], chans := closed.chans + [FRESH])
  }

  /** registry.go removeSubscriber, and the tail of Leave. */
  function Removed(r: Reg, d: Device): Reg {
    if d in r.subs
    then CloseChan(r, r.subs[d]).(subs := r.subs - {d})
    else r
  }

  /** The unsubscribe function Subscribe returns: acts only if the channel is still the current one. */
  function Unsubscribed(r: Reg, d: Device, c: nat): Reg {
    if d in r.subs && r.subs[d] == c then Removed(r, d) else r
  }

  function ClosedIf(r: Reg, cs: set<nat>): seq<Chan>
    ensures |ClosedIf(r, cs)| == |r.chans|
  {
    seq(|r.chans|, i requires 0 <= i < |r.chans| =>
      if i in cs then r.chans[i].(open := false) else r.chans[i])
  }

  predicate Closable(r: Reg) {
    && (forall d | d in r.subs :: r.subs[d] < |r.chans| && r.chans[r.subs[d]].open)
    && (forall d, e | d in r.subs && e in r.subs && r.subs[d] == r.subs[e] :: d == e)
  }

  /** registry.go CloseAllSubscribers. */
  function AllClosed(r: Reg): Reg {
    r.(subs := map[], chans := ClosedIf(r, r.subs.Values), panicked := r.panicked || !Closable(r))
  }

  /** One iteration of broadcastLocked: a send that is skipped when the buffer is full. */
  function Offered(r: Reg, d: Device, e: Event): Reg {
    if d !in r.subs then r
    else
      var c := r.subs[d];
      if c < |r.chans| && r.chans[c].open
      then if |r.chans[c].buf| < CAPACITY
        then r.(chans := r.chans[c := r.chans[c].(buf := r.chans[c].buf + [e], sent := r.chans[c].sent + [e])])
        else r
      else r.(panicked := true)
  }

  /** A receive takes the oldest buffered event, also after the channel was closed. */
  function Received(r: Reg, c: nat): Reg {
    if c < |r.chans| && r.chans[c].buf != []
    then r.(chans := r.chans[c := r.chans[c].(buf := r.chans[c].buf[1..],
                                              taken := r.chans[c].taken + [r.chans[c].buf[0]])])
    else r
  }

  ghost predicate ChanOk(ch: Chan) {
    ch.sent == ch.taken + ch.buf && |ch.buf| <= CAPACITY
  }

  /**
   The subscriber invariant: nothing ever panicked, a channel is open exactly when it
   is in the map, and distinct devices hold distinct channels.
   */
  ghost predicate Consistent(r: Reg) {
    && !r.panicked
    && Closable(r)
    && (forall c | 0 <= c < |r.chans| && r.chans[c].open :: c in r.subs.Values)
    && (forall c | 0 <= c < |r.chans| :: ChanOk(r.chans[c]))
  }

  /**
   What any change keeps of the past: no channel disappears or reopens, accepted events
   are never rewritten and none is added to a channel that is closed, and draining is final.
   */
  ghost predicate Extends(r: Reg, r': Reg) {
    && |r.chans| <= |r'.chans|
    && (r.draining ==> r'.draining)
    && (forall c | 0 <= c < |r.chans| ::
          && r.chans[c].sent <= r'.chans[c].sent
          && r.chans[c].taken <= r'.chans[c].taken
          && (!r.chans[c].open ==> !r'.chans[c].open && r'.chans[c].sent == r.chans[c].sent))
  }

  /** Exactly the channels `cs` of `r` are closed in `r'`; what they still buffer stays, and no other one changes. */
  ghost predicate OnlyCloses(r: Reg, r': Reg, cs: set<nat>) {
    && |r.chans| <= |r'.chans| && r'.panicked == r.panicked
    && forall c | 0 <= c < |r.chans| ::
         r'.chans[c] == Chan(c !in cs && r.chans[c].open, r.chans[c].buf, r.chans[c].sent, r.chans[c].taken)
  }

  /** The channel of `d`, if it is subscribed. */
  function CurrentOf(r: Reg, d: Device): set<nat> {
    if d in r.subs then {r.subs[d]} else {}
  }

  lemma ExtendsCompose(r: Reg, r': Reg, r'': Reg)
    requires Extends(r, r') && Extends(r', r'')
    ensures Extends(r, r'')
  {
  }

  lemma RemovedExtends(r: Reg, d: Device)
    requires Closable(r)
    ensures Extends(r, Removed(r, d)) && Removed(r, d).subs == r.subs - {d}
  {
  }

  lemma RemovedKeeps(r: Reg, d: Device)
    requires Consistent(r)
    ensures Consistent(Removed(r, d)) && Extends(r, Removed(r, d))
    ensures d !in Removed(r, d).subs && Removed(r, d).subs == r.subs - {d}
    ensures OnlyCloses(r, Removed(r, d), CurrentOf(r, d)) && |Removed(r, d).chans| == |r.chans|
    ensures Removed(r, d).draining == r.draining
  {
    RemovedExtends(r, d);
    if d in r.subs {
      RemovedConsistent(r, d);
    }
  }

  lemma RemovedConsistent(r: Reg, d: Device)
    requires Consistent(r) && d in r.subs
    ensures Consistent(Removed(r, d))
  {
    var r' := Removed(r, d);
    forall c | 0 <= c < |r'.chans| && r'.chans[c].open ensures c in r'.subs.Values {
      var e :| e in r.subs && r.subs[e] == c;
      assert r'.subs[e] == c;
    }
  }

  lemma AddedKeeps(r: Reg, d: Device)
    requires Consistent(r) && d !in r.subs
    ensures var r' := r.(subs := r.subs[d := |r.chans|], chans := r.chans + [FRESH]);
            Consistent(r') && Extends(r, r')
  {
    AddedClosable(r, d);
    var r' := r.(subs := r.subs[d := |r.chans|], chans := r.chans + [FRESH]);
    assert r'.subs[d] in r'.subs.Values;
    forall c | 0 <= c < |r.chans| && r'.chans[c].open ensures c in r'.subs.Values {
      var e :| e in r.subs && r.subs[e] == c;
      assert r'.subs[e] == c;
    }
  }

  lemma AddedClosable(r: Reg, d: Device)
    requires Closable(r) && d !in r.subs
    ensures Closable(r.(subs := r.subs[d := |r.chans|], chans := r.chans + [FRESH]))
  {
  }

  /** Replacing a channel is closing the old one, then adding a fresh one. */
  lemma SubscribedIsAdded(r: Reg, d: Device)
    requires Closable(r) && !r.draining
    ensures var mid := Removed(r, d);
            && |mid.chans| == |r.chans| && mid.subs == r.subs - {d}
            && Subscribed(r, d) == mid.(subs := r.subs[d := |r.chans|], chans := mid.chans + [FRESH])
            && r.subs[d := |r.chans|] == mid.subs[d := |mid.chans|]
  {
    assert (r.subs - {d})[d := |r.chans|] == r.subs[d := |r.chans|];
  }

  lemma SubscribedKeeps(r: Reg, d: Device)
    requires Consistent(r)
    ensures Consistent(Subscribed(r, d)) && Extends(r, Subscribed(r, d))
    ensures !r.draining ==>
              Subscribed(r, d).subs == r.subs[d := |r.chans|] && |Subscribed(r, d).chans| == |r.chans| + 1
    ensures OnlyCloses(r, Subscribed(r, d), if r.draining then {} else CurrentOf(r, d))
    ensures !r.draining ==> Subscribed(r, d).chans[|r.chans|] == Chan(true, [], [], [])
    ensures r.draining ==> Subscribed(r, d).subs == r.subs && |Subscribed(r, d).chans| == |r.chans|
    ensures Subscribed(r, d).draining == r.draining
  {
    if !r.draining {
      RemovedKeeps(r, d);
      SubscribedIsAdded(r, d);
      AddedKeeps(Removed(r, d), d);
      ExtendsCompose(r, Removed(r, d), Subscribed(r, d));
    }
  }

  /** Only the channel the caller was given is closed, and only a device that still holds it is unsubscribed. */
  lemma UnsubscribedKeeps(r: Reg, d: Device, c: nat)
    requires Consistent(r)
    ensures Consistent(Unsubscribed(r, d, c)) && Extends(r, Unsubscribed(r, d, c))
    ensures Unsubscribed(r, d, c).subs == if d in r.subs && r.subs[d] == c then r.subs - {d} else r.subs
    ensures OnlyCloses(r, Unsubscribed(r, d, c), if d in r.subs && r.subs[d] == c then {c} else {})
    ensures |Unsubscribed(r, d, c).chans| == |r.chans| && Unsubscribed(r, d, c).draining == r.draining
  {
    RemovedKeeps(r, d);
  }

  lemma AllClosedKeeps(r: Reg)
    requires Consistent(r)
    ensures Consistent(AllClosed(r)) && Extends(r, AllClosed(r))
    ensures AllClosed(r).subs == map[] && OnlyCloses(r, AllClosed(r), r.subs.Values)
    ensures |AllClosed(r).chans| == |r.chans| && AllClosed(r).draining == r.draining
  {
    var r' := AllClosed(r);
    forall c | 0 <= c < |r'.chans| ensures !r'.chans[c].open && ChanOk(r'.chans[c]) {
      assert ChanOk(r.chans[c]);
    }
  }

  lemma OfferedKeeps(r: Reg, d: Device, e: Event)
    requires Consistent(r)
    ensures Consistent(Offered(r, d, e)) && Extends(r, Offered(r, d, e))
    ensures Offered(r, d, e).subs == r.subs && Offered(r, d, e).draining == r.draining
    ensures |Offered(r, d, e).chans| == |r.chans|
    ensures forall c | 0 <= c < |r.chans| ::
              var ch := r.chans[c];
              if d in r.subs && r.subs[d] == c && |ch.buf| < 64
              then Offered(r, d, e).chans[c] == Chan(ch.open, ch.buf + [e], ch.sent + [e], ch.taken)
              else Offered(r, d, e).chans[c] == ch
  {
    OfferedConsistent(r, d, e);
  }

  lemma OfferedConsistent(r: Reg, d: Device, e: Event)
    requires Consistent(r)
    ensures Consistent(Offered(r, d, e)) && Extends(r, Offered(r, d, e))
  {
  }

  lemma ReceivedKeeps(r: Reg, c: nat)
    requires Consistent(r)
    ensures Consistent(Received(r, c)) && Extends(r, Received(r, c))
    ensures Received(r, c).subs == r.subs && Received(r, c).draining == r.draining
    ensures |Received(r, c).chans| == |r.chans|
    ensures forall x | 0 <= x < |r.chans| ::
              var ch := r.chans[x];
              if x == c && ch.buf != []
              then Received(r, c).chans[x] == Chan(ch.open, ch.buf[1..], ch.sent, ch.taken + [ch.buf[0]])
              else Received(r, c).chans[x] == ch
  {
    if c < |r.chans| && r.chans[c].buf != [] {
      assert ChanOk(r.chans[c]);
    }
  }
}
