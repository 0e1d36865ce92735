/**
 Ownership of the agent's hub connection (internal/agent/daemon.go): the daemon's Run,
 which dials the first client and may end in Shutdown, against any number of reconnect
 episodes, each of which may replace the client. Interleaved at sections of sessionMu,
 dials and closes. Clients are numbered in the order they were dialled.
 */
module HubConnection {
  import opened Options
  import opened ReconnectEpisode

  /** `closes[c]`: how often client c was closed. */
  datatype Conn = Conn(hub: Option<nat>, claimed: bool, closes: seq<nat>)

  const UNCONNECTED: Conn := Conn(None, false, [])

  // ---- Lock sections and calls ----

  function Dialled(s: Conn): Conn {
    s.(closes := s.closes + [0])
  }

  function ClientSet(s: Conn, c: nat): Conn {
    s.(hub := Some(c))
  }

  predicate MaySwap(s: Conn, condemned: Option<nat>) {
    !s.claimed && s.hub == condemned
  }

  function Swapped(s: Conn, condemned: Option<nat>, spare: nat): Conn {
    if MaySwap(s, condemned) then s.(hub := Some(spare)) else s
  }

  function Taken(s: Conn): Conn {
    s.(claimed := true)
  }

  function Closed(s: Conn, c: nat): Conn {
    if c < |s.closes| then s.(closes := s.closes[c := s.closes[c] + 1]) else s
  }

  predicate Open(s: Conn, c: nat) {
    c < |s.closes| && s.closes[c] == 0
  }

  // ---- Processes ----

  datatype RunPc =
    | Connecting
    | Installing(c: nat)
    | Up
    | Deregistering(snapshot: Option<nat>)
    | Closing(snapshot: Option<nat>)
    | ShutDown(snapshot: Option<nat>)
    | Gone
    | NeverConnected

  /** A reconnect episode's place in its loop. */
  datatype At =
    | Top
    | Trying(attempted: Option<nat>)
    | Replacing(attempted: Option<nat>)
    | Swapping(condemned: nat, spare: nat)
    | ClosingOld(former: nat)
    | ClosingSpare(spare: nat)
    | Resting
    | Ended

  datatype Proc = Proc(ep: Episode, at: At)

  datatype Daemon = Daemon(minInterval: int, conn: Conn, run: RunPc, procs: map<nat, Proc>)

  /** The environment: how an attempt goes, whether a dial works, whether the context is cancelled. */
  datatype Choice = Choice(attempt: Attempt, dials: bool, cancelled: bool)

  datatype Action = StepRun(ch: Choice) | Launch(pid: nat) | Step(pid: nat, ch: Choice)

  function ExecRun(run: RunPc, s: Conn, ch: Choice): (RunPc, Conn) {
    match run
    case Connecting => if ch.dials then (Installing(|s.closes|), Dialled(s)) else (NeverConnected, s)
    case Installing(c) => (Up, ClientSet(s, c))
    case Up => if ch.cancelled then (Deregistering(s.hub), Taken(s)) else (Gone, s)
    case Deregistering(snapshot) => (Closing(snapshot), s)
    case Closing(snapshot) =>
      (ShutDown(snapshot), if snapshot.Some? then Closed(s, snapshot.value) else s)
    case _ => (run, s)
  }

  /** From a verdict to the next place of the loop. */
  function AfterTry(e: Episode, attempted: Option<nat>, v: Verdict): At {
    if v == Established then Ended
    else if WantsReplacement(e, v) then Replacing(attempted)
    else Resting
  }

  function Exec(p: Proc, s: Conn, ch: Choice): (Proc, Conn) {
    match p.at
    case Top => (p.(at := Trying(s.hub)), s)
    case Trying(attempted) =>
      var v := SessionOnce(ch.attempt);
      (Proc(Noted(p.ep, Tried(attempted, ch.attempt)), AfterTry(p.ep, attempted, v)), s)
    case Replacing(attempted) =>
      if attempted.None? || !ch.dials then (p.(at := Resting), s)
      else (p.(at := Swapping(attempted.value, |s.closes|)), Dialled(s))
    case Swapping(condemned, spare) =>
      if MaySwap(s, Some(condemned)) then
        (Proc(Noted(p.ep, Replaced(condemned, spare)), ClosingOld(condemned)), Swapped(s, Some(condemned), spare))
      else (p.(at := ClosingSpare(spare)), s)
    case ClosingOld(former) => (Proc(p.ep.(swapSpent := true), Resting), Closed(s, former))
    case ClosingSpare(spare) => (p.(at := Resting), Closed(s, spare))
    case Resting => if ch.cancelled then (p.(at := Ended), s) else (Proc(Rested(p.ep), Top), s)
    case Ended => (p, s)
  }

  predicate Terminal(run: RunPc) {
    run.ShutDown? || run.Gone? || run.NeverConnected?
  }

  predicate Enabled(d: Daemon, a: Action) {
    match a
    case StepRun(_) => !Terminal(d.run)
    case Launch(pid) => pid !in d.procs
    case Step(pid, _) => pid in d.procs && !d.procs[pid].at.Ended?
  }

  function Apply(d: Daemon, a: Action): Daemon
    requires Enabled(d, a)
  {
    match a
    case StepRun(ch) =>
      var (run, s) := ExecRun(d.run, d.conn, ch);
      d.(run := run, conn := s)
    case Launch(pid) => d.(procs := d.procs[pid := Proc(Begin(d.minInterval), Top)])
    case Step(pid, ch) =>
      var (p, s) := Exec(d.procs[pid], d.conn, ch);
      d.(procs := d.procs[pid := p], conn := s)
  }

  ghost predicate Next(d: Daemon, a: Action, d': Daemon) {
    Enabled(d, a) && d' == Apply(d, a)
  }

  ghost predicate Init(d: Daemon) {
    d.conn == UNCONNECTED && d.run == Connecting && d.procs == map[]
  }

  ghost predicate IsRun(ds: seq<Daemon>, acts: seq<Action>) {
    && |ds| == |acts| + 1 && Init(ds[0])
    && forall i {:trigger acts[i]} | 0 <= i < |acts| :: Next(ds[i], acts[i], ds[i + 1])
  }

  // ---- Ownership ----

  /** The client this episode has in its hand and has yet to install or close. */
  function Hand(at: At): Option<nat> {
    match at
    case Swapping(_, spare) => Some(spare)
    case ClosingOld(former) => Some(former)
    case ClosingSpare(spare) => Some(spare)
    case _ => None
  }

  ghost predicate Holds(procs: map<nat, Proc>, p: nat, c: nat) {
    p in procs && Hand(procs[p].at) == Some(c)
  }

  predicate Installed(s: Conn, c: nat) {
    s.hub == Some(c) && Open(s, c)
  }

  ghost predicate InHand(d: Daemon, c: nat) {
    d.run == Installing(c) || exists p :: Holds(d.procs, p, c)
  }

  predicate ConnOk(s: Conn) {
    && (s.hub.Some? ==> s.hub.value < |s.closes|)
    && (forall c | 0 <= c < |s.closes| :: s.closes[c] <= 1)
  }

  predicate RunOk(run: RunPc, s: Conn) {
    match run
    case Connecting => s.hub.None? && !s.claimed
    case NeverConnected => s.hub.None? && !s.claimed
    case Installing(c) => s.hub.None? && !s.claimed && Open(s, c)
    case Up => s.hub.Some? && !s.claimed && Open(s, s.hub.value)
    case Gone => s.hub.Some? && !s.claimed && Open(s, s.hub.value)
    case Deregistering(snapshot) => s.hub.Some? && s.claimed && snapshot == s.hub && Open(s, s.hub.value)
    case Closing(snapshot) => s.hub.Some? && s.claimed && snapshot == s.hub && Open(s, s.hub.value)
    case ShutDown(snapshot) =>
      s.hub.Some? && s.claimed && snapshot == s.hub && s.hub.value < |s.closes| && s.closes[s.hub.value] == 1
  }

  /** What an episode holds is open and nobody else's. */
  predicate HandOk(at: At, run: RunPc, s: Conn) {
    match Hand(at)
    case None => true
    case Some(c) => Open(s, c) && s.hub != Some(c) && run != Installing(c)
  }

  predicate MayReplace(e: Episode, client: Option<nat>) {
    !e.swapSpent && |e.log| > 0 && TimedOutOn(e.log[|e.log| - 1], client)
  }

  /** What an episode is about to do follows from the last thing it logged. */
  ghost predicate LoopOk(minInterval: int, p: Proc) {
    && EpisodeOk(minInterval, p.ep, p.ep.swapSpent || p.at.ClosingOld?)
    && (p.at.Replacing? ==> MayReplace(p.ep, p.at.attempted))
    && (p.at.Swapping? ==> MayReplace(p.ep, Some(p.at.condemned)))
    && (p.at.Top? || p.at.Trying? <==> EndsAsleep(p.ep.log))
    && (EndsAnswered(p.ep.log) ==> p.at.Ended?)
  }

  ghost predicate OneHolder(procs: map<nat, Proc>) {
    forall p: nat, q: nat, c: nat | Holds(procs, p, c) && Holds(procs, q, c) :: p == q
  }

  ghost predicate Accounted(d: Daemon) {
    forall c: nat | Open(d.conn, c) :: Installed(d.conn, c) || InHand(d, c)
  }

  ghost predicate Inv(d: Daemon) {
    && ConnOk(d.conn) && RunOk(d.run, d.conn)
    && (forall p | p in d.procs :: HandOk(d.procs[p].at, d.run, d.conn))
    && OneHolder(d.procs)
    && Accounted(d)
  }

  ghost predicate LoopsOk(d: Daemon) {
    forall p | p in d.procs :: LoopOk(d.minInterval, d.procs[p])
  }

  lemma RunStepKeeps(d: Daemon, ch: Choice)
    requires Inv(d) && Enabled(d, StepRun(ch))
    ensures Inv(Apply(d, StepRun(ch)))
  {
    var d' := Apply(d, StepRun(ch));
    forall c: nat | Open(d'.conn, c) ensures Installed(d'.conn, c) || InHand(d', c) {
      if d'.run != Installing(c) {
        assert Open(d.conn, c);
        if exists p :: Holds(d.procs, p, c) {
          var p :| Holds(d.procs, p, c);
          assert Holds(d'.procs, p, c);
        }
      }
    }
  }

  /** The stepping episode's own hand, and nobody else's, may change. */
  lemma StepKeepsHands(p: Proc, s: Conn, run: RunPc, ch: Choice)
    requires ConnOk(s) && RunOk(run, s) && HandOk(p.at, run, s)
    ensures var (p', s') := Exec(p, s, ch);
            ConnOk(s') && RunOk(run, s') && HandOk(p'.at, run, s')
  {
  }

  lemma StepSparesOthers(p: Proc, s: Conn, run: RunPc, ch: Choice, other: At)
    requires ConnOk(s) && RunOk(run, s) && HandOk(p.at, run, s) && HandOk(other, run, s)
    requires Hand(other).Some? ==> Hand(other) != Hand(p.at)
    ensures var (p', s') := Exec(p, s, ch);
            HandOk(other, run, s') && (Hand(other).Some? ==> Hand(other) != Hand(p'.at))
  {
  }

  /** Whatever the stepping episode lets go of is installed or closed, and what was let go is picked up. */
  lemma StepHandsOver(p: Proc, s: Conn, run: RunPc, ch: Choice, c: nat)
    requires ConnOk(s) && RunOk(run, s) && HandOk(p.at, run, s)
    ensures var (p', s') := Exec(p, s, ch);
            Open(s', c) && Hand(p'.at) != Some(c) && !Installed(s', c) ==>
              Open(s, c) && Hand(p.at) != Some(c) && !Installed(s, c)
  {
  }

  lemma StepKeepsOneHolder(d: Daemon, pid: nat, ch: Choice)
    requires Inv(d) && Enabled(d, Step(pid, ch))
    ensures OneHolder(Apply(d, Step(pid, ch)).procs)
  {
    var d' := Apply(d, Step(pid, ch));
    forall p: nat, q: nat, c: nat | Holds(d'.procs, p, c) && Holds(d'.procs, q, c) ensures p == q {
      if p != pid && q != pid {
        assert Holds(d.procs, p, c) && Holds(d.procs, q, c);
      } else if p != q {
        var o := if p == pid then q else p;
        assert Holds(d.procs, o, c) && HandOk(d.procs[o].at, d.run, d.conn);
        assert Hand(d.procs[pid].at) == Some(c) ==> Holds(d.procs, pid, c);
        StepSparesOthers(d.procs[pid], d.conn, d.run, ch, d.procs[o].at);
      }
    }
  }

  lemma StepKeepsAccounted(d: Daemon, pid: nat, ch: Choice)
    requires Inv(d) && Enabled(d, Step(pid, ch))
    ensures Accounted(Apply(d, Step(pid, ch)))
  {
    var d' := Apply(d, Step(pid, ch));
    forall c: nat | Open(d'.conn, c) && !Installed(d'.conn, c) ensures InHand(d', c) {
      if Hand(d'.procs[pid].at) == Some(c) {
        assert Holds(d'.procs, pid, c);
      } else {
        StepHandsOver(d.procs[pid], d.conn, d.run, ch, c);
        assert InHand(d, c);
        if d.run != Installing(c) {
          var p :| Holds(d.procs, p, c);
          assert Holds(d'.procs, p, c);
        }
      }
    }
  }

  lemma EpisodeStepKeeps(d: Daemon, pid: nat, ch: Choice)
    requires Inv(d) && Enabled(d, Step(pid, ch))
    ensures Inv(Apply(d, Step(pid, ch)))
  {
    var d' := Apply(d, Step(pid, ch));
    StepKeepsHands(d.procs[pid], d.conn, d.run, ch);
    forall q | q in d'.procs && q != pid ensures HandOk(d'.procs[q].at, d'.run, d'.conn) {
      var hand := Hand(d.procs[q].at);
      if hand.Some? {
        assert Holds(d.procs, q, hand.value);
        assert Hand(d.procs[pid].at) == hand ==> Holds(d.procs, pid, hand.value);
      }
      StepSparesOthers(d.procs[pid], d.conn, d.run, ch, d.procs[q].at);
    }
    StepKeepsOneHolder(d, pid, ch);
    StepKeepsAccounted(d, pid, ch);
  }

  lemma LaunchKeeps(d: Daemon, pid: nat)
    requires Inv(d) && Enabled(d, Launch(pid))
    ensures Inv(Apply(d, Launch(pid)))
  {
    var d' := Apply(d, Launch(pid));
    forall p, c ensures Holds(d'.procs, p, c) <==> Holds(d.procs, p, c) {
    }
  }

  lemma TryingLoops(minInterval: int, p: Proc, s: Conn, ch: Choice)
    requires LoopOk(minInterval, p) && p.at.Trying?
    ensures LoopOk(minInterval, Exec(p, s, ch).0)
  {
    TryKeeps(minInterval, p.ep, p.ep.swapSpent, p.at.attempted, ch.attempt);
    TriedIsLast(p.ep.log, Tried(p.at.attempted, ch.attempt));
    var p' := Exec(p, s, ch).0;
    assert p' == Proc(Noted(p.ep, Tried(p.at.attempted, ch.attempt)),
                      AfterTry(p.ep, p.at.attempted, SessionOnce(ch.attempt)));
  }

  lemma TriedIsLast(log: seq<Event>, ev: Event)
    requires ev.Tried?
    ensures (log + [ev])[|log + [ev]| - 1] == ev && !EndsAsleep(log + [ev])
    ensures EndsAnswered(log + [ev]) <==> SessionOnce(ev.attempt) == Established
  {
    VerdictsExactlyWhen(ev.attempt);
  }

  lemma SwappingLoops(minInterval: int, p: Proc, s: Conn, ch: Choice)
    requires LoopOk(minInterval, p) && p.at.Swapping?
    ensures LoopOk(minInterval, Exec(p, s, ch).0)
  {
    ReplaceKeeps(minInterval, p.ep, p.at.condemned, p.at.spare);
  }

  lemma RestingLoops(minInterval: int, p: Proc, s: Conn, ch: Choice)
    requires LoopOk(minInterval, p) && p.at.Resting?
    ensures LoopOk(minInterval, Exec(p, s, ch).0)
  {
    RestKeeps(minInterval, p.ep, p.ep.swapSpent);
  }

  lemma QuietLoops(minInterval: int, p: Proc, s: Conn, ch: Choice)
    requires LoopOk(minInterval, p) && !p.at.Trying? && !p.at.Swapping? && !p.at.Resting?
    ensures LoopOk(minInterval, Exec(p, s, ch).0)
  {
  }

  lemma LoopStep(minInterval: int, p: Proc, s: Conn, ch: Choice)
    requires LoopOk(minInterval, p)
    ensures LoopOk(minInterval, Exec(p, s, ch).0)
  {
    match p.at
    case Trying(_) => TryingLoops(minInterval, p, s, ch);
    case Swapping(_, _) => SwappingLoops(minInterval, p, s, ch);
    case Resting => RestingLoops(minInterval, p, s, ch);
    case _ => QuietLoops(minInterval, p, s, ch);
  }

  lemma {:induction false} RunsKeepInv(ds: seq<Daemon>, acts: seq<Action>, i: nat)
    requires IsRun(ds, acts) && i < |ds|
    ensures Inv(ds[i])
  {
    if i > 0 {
      RunsKeepInv(ds, acts, i - 1);
      assert Next(ds[i - 1], acts[i - 1], ds[i]);
      match acts[i - 1]
      case StepRun(ch) => RunStepKeeps(ds[i - 1], ch);
      case Launch(pid) => LaunchKeeps(ds[i - 1], pid);
      case Step(pid, ch) => EpisodeStepKeeps(ds[i - 1], pid, ch);
    }
  }

  lemma {:induction false} RunsKeepLoops(ds: seq<Daemon>, acts: seq<Action>, i: nat)
    requires IsRun(ds, acts) && i < |ds|
    ensures LoopsOk(ds[i])
  {
    if i > 0 {
      RunsKeepLoops(ds, acts, i - 1);
      assert Next(ds[i - 1], acts[i - 1], ds[i]);
      match acts[i - 1]
      case StepRun(_) =>
      case Launch(pid) => BeginOk(ds[i - 1].minInterval);
      case Step(pid, ch) => LoopStep(ds[i - 1].minInterval, ds[i - 1].procs[pid], ds[i - 1].conn, ch);
    }
  }

  // ---- Theorems ----

  /**
   Every client ever dialled is at all times exactly one of: installed and open; in the
   hand of exactly one process and open; closed, exactly once.
   */
  lemma OwnershipIsLinear(ds: seq<Daemon>, acts: seq<Action>, i: nat, c: nat)
    requires IsRun(ds, acts) && i < |ds| && c < |ds[i].conn.closes|
    ensures var d := ds[i];
            || (Installed(d.conn, c) && !InHand(d, c))
            || (!Installed(d.conn, c) && InHand(d, c) && d.conn.closes[c] == 0)
            || (!Installed(d.conn, c) && !InHand(d, c) && d.conn.closes[c] == 1)
    ensures forall p, q | Holds(ds[i].procs, p, c) && Holds(ds[i].procs, q, c) :: p == q
    ensures forall p | Holds(ds[i].procs, p, c) :: ds[i].run != Installing(c)
  {
    RunsKeepInv(ds, acts, i);
    var d := ds[i];
    forall p | Holds(d.procs, p, c)
      ensures Open(d.conn, c) && d.conn.hub != Some(c) && d.run != Installing(c)
    {
      assert HandOk(d.procs[p].at, d.run, d.conn);
    }
  }

  /** A client that was installed and is no longer: nothing can install it again. */
  ghost predicate Retired(d: Daemon, c: nat) {
    && c < |d.conn.closes| && d.conn.hub != Some(c) && d.run != Installing(c)
    && forall p | p in d.procs && d.procs[p].at.Swapping? :: d.procs[p].at.spare != c
  }

  lemma RetiredStays(d: Daemon, a: Action, c: nat)
    requires Enabled(d, a) && Retired(d, c)
    ensures Retired(Apply(d, a), c)
  {
  }

  /** The installed client changes only when an episode swaps out the client it condemned. */
  lemma OnlyTheCondemnedIsRemoved(d: Daemon, a: Action, c: nat)
    requires Inv(d) && Enabled(d, a) && d.conn.hub == Some(c) && Apply(d, a).conn.hub != Some(c)
    ensures a.Step? && d.procs[a.pid].at.Swapping? && d.procs[a.pid].at.condemned == c && !d.conn.claimed
    ensures Retired(Apply(d, a), c)
  {
    var d' := Apply(d, a);
    forall p | p in d'.procs && d'.procs[p].at.Swapping? ensures d'.procs[p].at.spare != c {
      assert p in d.procs && d.procs[p].at.Swapping? ==> HandOk(d.procs[p].at, d.run, d.conn);
    }
    assert HandOk(d.procs[a.pid].at, d.run, d.conn);
  }

  lemma {:induction false} RetiredForGood(ds: seq<Daemon>, acts: seq<Action>, i: nat, j: nat, c: nat)
    requires IsRun(ds, acts) && i <= j < |ds| && Retired(ds[i], c)
    ensures Retired(ds[j], c)
  {
    if i < j {
      RetiredForGood(ds, acts, i, j - 1, c);
      assert Next(ds[j - 1], acts[j - 1], ds[j]);
      RetiredStays(ds[j - 1], acts[j - 1], c);
    }
  }

  /**
   A client found installed twice was installed all the time in between, so a swap that
   goes through condemns the very connection on which the whole failed attempt ran.
   */
  lemma {:induction false} NoReinstall(ds: seq<Daemon>, acts: seq<Action>, i: nat, k: nat, j: nat, c: nat)
    requires IsRun(ds, acts) && i <= k <= j < |ds|
    requires ds[i].conn.hub == Some(c) && ds[j].conn.hub == Some(c)
    ensures ds[k].conn.hub == Some(c)
  {
    if i < k {
      NoReinstall(ds, acts, i, k - 1, j, c);
      RunsKeepInv(ds, acts, k - 1);
      assert Next(ds[k - 1], acts[k - 1], ds[k]);
      if ds[k].conn.hub != Some(c) {
        OnlyTheCondemnedIsRemoved(ds[k - 1], acts[k - 1], c);
        RetiredForGood(ds, acts, k, j, c);
      }
    }
  }

  /** One step by anyone leaves a claimed connection alone, Shutdown's own Close excepted. */
  lemma ClaimHolds(d: Daemon, a: Action)
    requires Inv(d) && Enabled(d, a) && d.conn.claimed
    ensures var d' := Apply(d, a); d'.conn.claimed && d'.conn.hub == d.conn.hub
    ensures var d' := Apply(d, a); var c := d.conn.hub.value;
            d'.conn.closes[c] == d.conn.closes[c] || (a.StepRun? && d.run == Closing(Some(c)))
  {
    if a.Step? {
      assert HandOk(d.procs[a.pid].at, d.run, d.conn);
    }
  }

  /**
   From the moment Shutdown claims the connection no other path replaces or closes it:
   Deregister and Close run on one and the same client, which is open until that Close.
   */
  lemma {:induction false} ShutdownOwnsTheConnection(ds: seq<Daemon>, acts: seq<Action>, i: nat, j: nat)
    requires IsRun(ds, acts) && i <= j < |ds| && ds[i].run.Deregistering?
    ensures ds[i].run.snapshot.Some?
    ensures ds[j].conn.claimed && ds[j].conn.hub == ds[i].run.snapshot
    ensures ds[j].run.Deregistering? || ds[j].run.Closing? || ds[j].run.ShutDown?
    ensures ds[j].run.snapshot == ds[i].run.snapshot
    ensures Open(ds[j].conn, ds[i].run.snapshot.value) <==> !ds[j].run.ShutDown?
  {
    RunsKeepInv(ds, acts, j);
    if i < j {
      ShutdownOwnsTheConnection(ds, acts, i, j - 1);
      RunsKeepInv(ds, acts, j - 1);
      assert Next(ds[j - 1], acts[j - 1], ds[j]);
      ClaimHolds(ds[j - 1], acts[j - 1]);
    }
  }

  /**
   When everything has come to rest, every client that was ever dialled has been closed
   exactly once, if and only if the daemon ended in Shutdown or never had a connection.
   */
  lemma NothingLeaks(ds: seq<Daemon>, acts: seq<Action>, i: nat)
    requires IsRun(ds, acts) && i < |ds|
    requires Terminal(ds[i].run) && forall p | p in ds[i].procs :: ds[i].procs[p].at.Ended?
    ensures (forall c | 0 <= c < |ds[i].conn.closes| :: ds[i].conn.closes[c] == 1) <==> !ds[i].run.Gone?
  {
    RunsKeepInv(ds, acts, i);
    var d := ds[i];
    forall c | 0 <= c < |d.conn.closes| ensures d.conn.closes[c] == 1 <==> !(d.run.Gone? && d.conn.hub == Some(c)) {
      assert Open(d.conn, c) ==> Installed(d.conn, c) || InHand(d, c);
      assert !InHand(d, c) by {
        assert forall p | p in d.procs :: Hand(d.procs[p].at) == None;
      }
    }
  }

  /**
   A replacement comes after a refusal by the hub in one case only: the attempt before it
   registered, and its Subscribe was refused when the set-up budget had already fired.
   The agent's own client reports no such refusal, so with it no replacement follows one.
   */
  lemma RefusalsCondemnOnlyLate(ds: seq<Daemon>, acts: seq<Action>, i: nat, p: nat, n: nat)
    requires IsRun(ds, acts) && i < |ds| && p in ds[i].procs
    requires n < |ds[i].procs[p].ep.log| && ds[i].procs[p].ep.log[n].Replaced?
    ensures var log := ds[i].procs[p].ep.log;
            && n > 0 && log[n - 1].Tried? && log[n - 1].client == Some(log[n].condemned)
            && (RefusedByHub(log[n - 1].attempt) <==> RefusedLate(log[n - 1].attempt))
            && (FromHubClient(log[n - 1].attempt) ==> !RefusedByHub(log[n - 1].attempt))
  {
    EpisodesAreDisciplined(ds, acts, i, p);
    var log := ds[i].procs[p].ep.log;
    assert TimedOutOn(log[n - 1], Some(log[n].condemned));
    TimedOutIsOurOwnVerdict(log[n - 1].attempt);
  }

  const REFUSED_LATE: Attempt := Attempt(Answered, NoError, true, Errored(true), true, true)
  const WORKS: Choice := Choice(REFUSED_LATE, true, true)

  lemma Extend(ds: seq<Daemon>, acts: seq<Action>, a: Action) returns (ds': seq<Daemon>, acts': seq<Action>)
    requires IsRun(ds, acts) && Enabled(ds[|acts|], a)
    ensures IsRun(ds', acts') && ds' == ds + [Apply(ds[|acts|], a)] && acts' == acts + [a]
  {
    ds', acts' := ds + [Apply(ds[|acts|], a)], acts + [a];
    forall i | 0 <= i < |acts'| ensures Next(ds'[i], acts'[i], ds'[i + 1]) {
      assert i < |acts| ==> Next(ds[i], acts[i], ds[i + 1]);
    }
  }

  /** Such a run: the connection is replaced right after an attempt that the hub refused. */
  lemma LateRefusalCondemns() returns (ds: seq<Daemon>, acts: seq<Action>)
    ensures IsRun(ds, acts) && 0 in ds[|acts|].procs && RefusedByHub(REFUSED_LATE)
    ensures ds[|acts|].procs[0].ep.log == [Tried(Some(0), REFUSED_LATE), Replaced(0, 1)]
  {
    ds, acts := [Daemon(0, UNCONNECTED, Connecting, map[])], [];
    ds, acts := Extend(ds, acts, StepRun(WORKS));
    ds, acts := Extend(ds, acts, StepRun(WORKS));
    ds, acts := Extend(ds, acts, Launch(0));
    ds, acts := Extend(ds, acts, Step(0, WORKS));
    ds, acts := Extend(ds, acts, Step(0, WORKS));
    ds, acts := Extend(ds, acts, Step(0, WORKS));
    ds, acts := Extend(ds, acts, Step(0, WORKS));
  }

  /**
   In any reconnect episode, of any length and however interleaved: at most one
   replacement, made only right after an attempt that our own budget ended, condemning
   the client which that attempt took; attempts are one sleep apart; and the k-th delay is
   the first one doubled k times, up to the cap.
   */
  lemma EpisodesAreDisciplined(ds: seq<Daemon>, acts: seq<Action>, i: nat, p: nat)
    requires IsRun(ds, acts) && i < |ds| && p in ds[i].procs
    ensures AtMostOneReplacement(ds[i].procs[p].ep.log)
    ensures CondemnsWhatTimedOut(ds[i].procs[p].ep.log)
    ensures Spaced(ds[i].procs[p].ep.log)
    ensures DoublesUpToTheCap(ds[i].minInterval, ds[i].procs[p].ep.log)
  {
    RunsKeepLoops(ds, acts, i);
  }

  /** At step `k` the episode finds its context cancelled while it rests. */
  ghost predicate CancelledAt(ds: seq<Daemon>, acts: seq<Action>, k: nat, p: nat)
    requires |ds| == |acts| + 1
  {
    && k < |acts| && acts[k].Step? && acts[k].pid == p && acts[k].ch.cancelled
    && p in ds[k].procs && ds[k].procs[p].at.Resting?
  }

  /** An episode that has not been launched has done nothing. */
  lemma {:induction false} NotYetLaunched(ds: seq<Daemon>, acts: seq<Action>, i: nat, p: nat)
    requires IsRun(ds, acts) && i < |ds| && p !in ds[i].procs
    ensures forall k | 0 <= k <= i :: p !in ds[k].procs
  {
    if i > 0 {
      assert Next(ds[i - 1], acts[i - 1], ds[i]);
      NotYetLaunched(ds, acts, i - 1, p);
    }
  }

  /** One step ends an episode exactly if it answers both calls in time, or finds the context cancelled at rest. */
  lemma EndStep(d: Daemon, a: Action, p: nat)
    requires LoopsOk(d) && Enabled(d, a) && p in d.procs
    ensures var d' := Apply(d, a);
            && p in d'.procs
            && (d'.procs[p].at.Ended? <==>
                  || d.procs[p].at.Ended? || EndsAnswered(d'.procs[p].ep.log)
                  || (a.Step? && a.pid == p && a.ch.cancelled && d.procs[p].at.Resting?))
            && (EndsAnswered(d.procs[p].ep.log) ==> EndsAnswered(d'.procs[p].ep.log))
  {
    if a.Step? && a.pid == p && d.procs[p].at.Trying? {
      VerdictsExactlyWhen(a.ch.attempt);
    }
  }

  /**
   In every run an episode is over if and only if the last thing it logged is an attempt
   whose Register and Subscribe were both answered, the latter in time, or it was cancelled
   between attempts.
   */
  lemma {:induction false} EpisodeEndsExactlyWhen(ds: seq<Daemon>, acts: seq<Action>, i: nat, p: nat)
    requires IsRun(ds, acts) && i < |ds| && p in ds[i].procs
    ensures ds[i].procs[p].at.Ended? <==>
              EndsAnswered(ds[i].procs[p].ep.log) || exists k :: 0 <= k < i && CancelledAt(ds, acts, k, p)
  {
    if i > 0 {
      RunsKeepLoops(ds, acts, i - 1);
      assert Next(ds[i - 1], acts[i - 1], ds[i]);
      if p in ds[i - 1].procs {
        EpisodeEndsExactlyWhen(ds, acts, i - 1, p);
        EndStep(ds[i - 1], acts[i - 1], p);
        assert CancelledAt(ds, acts, i - 1, p) ==> ds[i].procs[p].at.Ended?;
      } else {
        NotYetLaunched(ds, acts, i - 1, p);
      }
    }
  }

  /**
   What follows an attempt, in every run: the end, if both calls were answered in time; a
   replacement of its client, if one of our own budgets ended it and the episode has made
   none; and a rest otherwise. The replacement is given up only for want of a client to
   condemn, of a spare, or because the client is no longer the one installed.
   */
  lemma AttemptsAreFollowedUp(ds: seq<Daemon>, acts: seq<Action>, i: nat, p: nat, ch: Choice)
    requires IsRun(ds, acts) && i < |acts| && acts[i] == Step(p, ch) && p in ds[i].procs
    requires ds[i].procs[p].at.Trying?
    ensures p in ds[i + 1].procs
    ensures var a, at, at', log := ch.attempt, ds[i].procs[p].at, ds[i + 1].procs[p].at, ds[i].procs[p].ep.log;
            && ds[i + 1].procs[p].ep.log == log + [Tried(at.attempted, a)]
            && (at'.Ended? <==> a.register == Answered && a.subscribe == Answered && !a.timerFired)
            && (at' == Replacing(at.attempted) <==>
                  && (|| (a.register == Errored(false) && a.regBudget == DeadlineExceeded && a.parentLive)
                      || (a.register == Answered && a.timerFired && a.sessionLive))
                  && forall n | 0 <= n < |log| :: !log[n].Replaced?)
            && (at'.Ended? || at'.Replacing? || at'.Resting?)
  {
    RunsKeepLoops(ds, acts, i);
    assert Next(ds[i], acts[i], ds[i + 1]);
    VerdictsExactlyWhen(ch.attempt);
    TimedOutIsOurOwnVerdict(ch.attempt);
    assert LoopOk(ds[i].minInterval, ds[i].procs[p]);
  }

  /** The swap is made exactly if the condemned client is still installed and Shutdown has not claimed it. */
  lemma ReplacementIsMadeExactlyWhen(ds: seq<Daemon>, acts: seq<Action>, i: nat, p: nat, ch: Choice)
    requires IsRun(ds, acts) && i < |acts| && acts[i] == Step(p, ch) && p in ds[i].procs
    requires ds[i].procs[p].at.Replacing? || ds[i].procs[p].at.Swapping?
    ensures p in ds[i + 1].procs
    ensures var at, at' := ds[i].procs[p].at, ds[i + 1].procs[p].at;
            && (at.Replacing? ==>
                  if at.attempted.Some? && ch.dials
                  then at' == Swapping(at.attempted.value, |ds[i].conn.closes|) else at' == Resting)
            && (at.Swapping? ==>
                  if !ds[i].conn.claimed && ds[i].conn.hub == Some(at.condemned)
                  then ds[i + 1].conn.hub == Some(at.spare) && at' == ClosingOld(at.condemned)
                       && ds[i + 1].procs[p].ep.log == ds[i].procs[p].ep.log + [Replaced(at.condemned, at.spare)]
                  else ds[i + 1].conn == ds[i].conn && at' == ClosingSpare(at.spare)
                       && ds[i + 1].procs[p].ep.log == ds[i].procs[p].ep.log)
  {
    assert Next(ds[i], acts[i], ds[i + 1]);
  }
  /** Run ends in Shutdown or without it; only Shutdown claims the connection, with the client installed then. */
  lemma ShutsDownExactlyWhen(ds: seq<Daemon>, acts: seq<Action>, i: nat)
    requires IsRun(ds, acts) && i < |acts|
    ensures var up := acts[i].StepRun? && ds[i].run == Up;
            && (!ds[i].conn.claimed && ds[i + 1].conn.claimed <==> up && acts[i].ch.cancelled)
            && (up && acts[i].ch.cancelled ==> ds[i + 1].run == Deregistering(ds[i].conn.hub))
            && (up && !acts[i].ch.cancelled ==> ds[i + 1].run == Gone && ds[i + 1].conn == ds[i].conn)
  {
    RunsKeepInv(ds, acts, i);
    assert Next(ds[i], acts[i], ds[i + 1]);
  }
}
