/**
 The one send that is not made under the registry lock (internal/hub/pairing.go
 sendToDevice): the channel is looked up under the read lock and sent on after it is
 released. Any number of such senders run against any sequence of the registry's lock
 sections, broadcasts and receives. A send on a closed channel panics and ends the hub.
 */
module PairingSend {
  import opened DeviceTable
  import opened Subscribers
  import opened HubMachine
  import opened HubInvariant

  datatype Sender = Looking(d: Device, e: Event) | Holding(c: nat, e: Event) | Finished

  datatype State = State(reg: Reg, senders: map<nat, Sender>)

  datatype Action =
    | Section(op: LockOp)
    | Broadcast(d: Device, e: Event)
    | Receive(c: nat)
    | Begin(pid: nat, d: Device, e: Event)
    | Go(pid: nat)

  /** A select with a default on a channel value: it panics if the channel is closed, full or not. */
  function SentOn(r: Reg, c: nat, e: Event): Reg {
    if c >= |r.chans| || !r.chans[c].open then r.(panicked := true)
    else if |r.chans[c].buf| < CAPACITY
    then r.(chans := r.chans[c := r.chans[c].(buf := r.chans[c].buf + [e], sent := r.chans[c].sent + [e])])
    else r
  }

  function Stepped(s: State, pid: nat): State
    requires pid in s.senders
  {
    match s.senders[pid]
    case Looking(d, e) =>
      s.(senders := s.senders[pid := if d in s.reg.subs then Holding(s.reg.subs[d], e) else Finished])
    case Holding(c, e) => State(SentOn(s.reg, c, e), s.senders[pid := Finished])
    case Finished => s
  }

  predicate Enabled(s: State, a: Action) {
    && !s.reg.panicked
    && match a
       case Begin(pid, _, _) => pid !in s.senders
       case Go(pid) => pid in s.senders
       case _ => true
  }

  function Apply(s: State, a: Action): State
    requires Enabled(s, a)
  {
    match a
    case Section(op) => s.(reg := LockedReg(s.reg, op))
    case Broadcast(d, e) => s.(reg := Offered(s.reg, d, e))
    case Receive(c) => s.(reg := Received(s.reg, c))
    case Begin(pid, d, e) => s.(senders := s.senders[pid := Looking(d, e)])
    case Go(pid) => Stepped(s, pid)
  }

  ghost predicate Next(s: State, a: Action, s': State) {
    Enabled(s, a) && s' == Apply(s, a)
  }

  ghost predicate IsRun(ss: seq<State>, acts: seq<Action>) {
    && |ss| == |acts| + 1 && ss[0] == State(EMPTY, map[])
    && forall i {:trigger acts[i]} | 0 <= i < |acts| :: Next(ss[i], acts[i], ss[i + 1])
  }

  // ---- Until a panic the subscriber invariant holds ----

  ghost predicate Inv(s: State) {
    !s.reg.panicked ==> Consistent(s.reg)
  }

  predicate SendsOnClosed(s: State, a: Action) {
    && a.Go? && a.pid in s.senders && s.senders[a.pid].Holding?
    && var c := s.senders[a.pid].c; c >= |s.reg.chans| || !s.reg.chans[c].open
  }

  lemma SendKeeps(r: Reg, c: nat, e: Event)
    requires Consistent(r) && c < |r.chans| && r.chans[c].open
    ensures Consistent(SentOn(r, c, e)) && Extends(r, SentOn(r, c, e))
  {
  }

  /** Every step but a send on a closed channel keeps the invariant and moves the channels on. */
  lemma StepKeeps(s: State, a: Action)
    requires Consistent(s.reg) && Enabled(s, a)
    ensures Apply(s, a).reg.panicked <==> SendsOnClosed(s, a)
    ensures !SendsOnClosed(s, a) ==> Consistent(Apply(s, a).reg) && Extends(s.reg, Apply(s, a).reg)
  {
    match a
    case Section(op) => LockedKeepsReg(s.reg, op);
    case Broadcast(d, e) => OfferedKeeps(s.reg, d, e);
    case Receive(c) => ReceivedKeeps(s.reg, c);
    case Begin(_, _, _) =>
    case Go(pid) =>
      if s.senders[pid].Holding? && !SendsOnClosed(s, a) {
        SendKeeps(s.reg, s.senders[pid].c, s.senders[pid].e);
      }
  }

  lemma {:induction false} RunsKeepInv(ss: seq<State>, acts: seq<Action>, i: nat)
    requires IsRun(ss, acts) && i < |ss|
    ensures Inv(ss[i])
  {
    if i > 0 {
      RunsKeepInv(ss, acts, i - 1);
      assert Next(ss[i - 1], acts[i - 1], ss[i]);
      StepKeeps(ss[i - 1], acts[i - 1]);
    }
  }

  /** A state with a successor has not panicked, and the step to it moves the channels on. */
  lemma StepExtends(ss: seq<State>, acts: seq<Action>, k: nat)
    requires IsRun(ss, acts) && k < |acts| && !ss[k + 1].reg.panicked
    ensures Consistent(ss[k].reg) && Extends(ss[k].reg, ss[k + 1].reg)
  {
    RunsKeepInv(ss, acts, k);
    assert Next(ss[k], acts[k], ss[k + 1]);
    StepKeeps(ss[k], acts[k]);
  }

  lemma NotYetPanicked(ss: seq<State>, acts: seq<Action>, k: nat)
    requires IsRun(ss, acts) && k < |acts|
    ensures !ss[k].reg.panicked
  {
    assert Next(ss[k], acts[k], ss[k + 1]);
  }

  predicate IsOpen(s: State, c: nat) {
    c < |s.reg.chans| && s.reg.chans[c].open
  }

  /** Step `k` closes the channel. */
  ghost predicate Closes(ss: seq<State>, k: nat, c: nat)
    requires k + 1 < |ss|
  {
    IsOpen(ss[k], c) && !IsOpen(ss[k + 1], c)
  }

  /** Between two states a channel that was open is closed if and only if some step closed it. */
  lemma {:induction false} ClosedBetween(ss: seq<State>, acts: seq<Action>, i: nat, j: nat, c: nat)
    requires IsRun(ss, acts) && i <= j < |acts| && IsOpen(ss[i], c)
    ensures !IsOpen(ss[j], c) <==> exists k | i <= k < j :: Closes(ss, k, c)
    ensures c < |ss[j].reg.chans|
  {
    if i < j {
      ClosedBetween(ss, acts, i, j - 1, c);
      NotYetPanicked(ss, acts, j);
      StepExtends(ss, acts, j - 1);
      if IsOpen(ss[j - 1], c) && !IsOpen(ss[j], c) {
        assert Closes(ss, j - 1, c);
      }
    }
  }

  /** A sender that makes no step keeps what it holds. */
  lemma {:induction false} StillHolds(ss: seq<State>, acts: seq<Action>, i: nat, j: nat, pid: nat)
    requires IsRun(ss, acts) && i <= j < |ss| && pid in ss[i].senders
    requires forall k | i <= k < j :: acts[k] != Go(pid)
    ensures pid in ss[j].senders && ss[j].senders[pid] == ss[i].senders[pid]
  {
    if i < j {
      StillHolds(ss, acts, i, j - 1, pid);
      assert Next(ss[j - 1], acts[j - 1], ss[j]);
    }
  }

  /** The look-up of sender `pid` is step `i`, and its send step `j`. */
  ghost predicate SendsTo(ss: seq<State>, acts: seq<Action>, i: nat, j: nat, pid: nat, d: Device)
    requires |ss| == |acts| + 1
  {
    && i < j < |acts| && acts[i] == Go(pid) && acts[j] == Go(pid) && (forall k | i < k < j :: acts[k] != Go(pid))
    && pid in ss[i].senders && ss[i].senders[pid].Looking? && ss[i].senders[pid].d == d && d in ss[i].reg.subs
  }

  /**
   In every run, a send to a device panics if and only if the channel that was looked up
   is closed between the look-up and the send, by whatever section.
   */
  lemma PanicsExactlyWhen(ss: seq<State>, acts: seq<Action>, i: nat, j: nat, pid: nat, d: Device)
    requires IsRun(ss, acts) && SendsTo(ss, acts, i, j, pid, d)
    ensures ss[j + 1].reg.panicked <==> exists k | i < k < j :: Closes(ss, k, ss[i].reg.subs[d])
  {
    var c := ss[i].reg.subs[d];
    NotYetPanicked(ss, acts, i);
    NotYetPanicked(ss, acts, j);
    RunsKeepInv(ss, acts, i);
    RunsKeepInv(ss, acts, j);
    assert Next(ss[i], acts[i], ss[i + 1]) && Next(ss[j], acts[j], ss[j + 1]);
    StillHolds(ss, acts, i + 1, j, pid);
    ClosedBetween(ss, acts, i + 1, j, c);
    StepKeeps(ss[j], acts[j]);
  }

  /**
   A send that does not panic puts the event into the channel that was looked up if there is
   room, and otherwise drops it; no other channel and no subscription changes.
   */
  lemma SendsWhereItLooked(ss: seq<State>, acts: seq<Action>, i: nat, j: nat, pid: nat, d: Device)
    requires IsRun(ss, acts) && SendsTo(ss, acts, i, j, pid, d) && !ss[j + 1].reg.panicked
    ensures var c, e, r, r' := ss[i].reg.subs[d], ss[i].senders[pid].e, ss[j].reg, ss[j + 1].reg;
            && c < |r.chans| && r.chans[c].open && r'.subs == r.subs && |r'.chans| == |r.chans|
            && (forall x | 0 <= x < |r.chans| && x != c :: r'.chans[x] == r.chans[x])
            && r'.chans[c] == (if |r.chans[c].buf| < 64
                               then Chan(true, r.chans[c].buf + [e], r.chans[c].sent + [e], r.chans[c].taken)
                               else r.chans[c])
  {
    NotYetPanicked(ss, acts, i);
    NotYetPanicked(ss, acts, j);
    assert Next(ss[i], acts[i], ss[i + 1]) && Next(ss[j], acts[j], ss[j + 1]);
    StillHolds(ss, acts, i + 1, j, pid);
  }

  /** Nothing else makes the hub panic: every panic is a send by a sender that had looked its channel up. */
  lemma OnlySendersPanic(ss: seq<State>, acts: seq<Action>, j: nat)
    requires IsRun(ss, acts) && j < |acts|
    ensures ss[j + 1].reg.panicked <==> SendsOnClosed(ss[j], acts[j])
  {
    NotYetPanicked(ss, acts, j);
    RunsKeepInv(ss, acts, j);
    assert Next(ss[j], acts[j], ss[j + 1]);
    StepKeeps(ss[j], acts[j]);
  }

  lemma Extend(ss: seq<State>, acts: seq<Action>, a: Action) returns (ss': seq<State>, acts': seq<Action>)
    requires IsRun(ss, acts) && Enabled(ss[|acts|], a)
    ensures IsRun(ss', acts') && ss' == ss + [Apply(ss[|acts|], a)] && acts' == acts + [a]
  {
    ss', acts' := ss + [Apply(ss[|acts|], a)], acts + [a];
    forall i | 0 <= i < |acts'| ensures Next(ss'[i], acts'[i], ss'[i + 1]) {
      assert i < |acts| ==> Next(ss[i], acts[i], ss[i + 1]);
    }
  }

  /** Such a run: the device deregisters between the look-up and the send. */
  lemma PairingCanPanic(d: Device, e: Event) returns (ss: seq<State>, acts: seq<Action>)
    ensures IsRun(ss, acts) && SendsTo(ss, acts, 2, 4, 0, d) && acts[3] == Section(DropSub(d))
    ensures |ss| == 6 && ss[5].reg.panicked
  {
    ss, acts := [State(EMPTY, map[])], [];
    ss, acts := Extend(ss, acts, Section(AddSub(d)));
    ss, acts := Extend(ss, acts, Begin(0, d, e));
    ss, acts := Extend(ss, acts, Go(0));
    ss, acts := Extend(ss, acts, Section(DropSub(d)));
    ss, acts := Extend(ss, acts, Go(0));
  }
  /** Beside the senders, a broadcast's send reaches the channel of its device, and a receive takes the oldest event. */
  lemma OthersSendAndReceive(ss: seq<State>, acts: seq<Action>, i: nat, c: nat)
    requires IsRun(ss, acts) && i < |acts| && c < |ss[i].reg.chans|
    ensures c < |ss[i + 1].reg.chans|
    ensures var r, ch, ch' := ss[i].reg, ss[i].reg.chans[c], ss[i + 1].reg.chans[c];
            && (acts[i].Broadcast? && acts[i].d in r.subs && r.subs[acts[i].d] == c && |ch.buf| < 64 ==>
                  ch' == Chan(true, ch.buf + [acts[i].e], ch.sent + [acts[i].e], ch.taken))
            && (acts[i] == Action.Receive(c) && ch.buf != [] ==>
                  ch' == Chan(ch.open, ch.buf[1..], ch.sent, ch.taken + [ch.buf[0]]))
  {
    NotYetPanicked(ss, acts, i);
    RunsKeepInv(ss, acts, i);
    assert Next(ss[i], acts[i], ss[i + 1]);
    StepKeeps(ss[i], acts[i]);
  }
}
