/**
 The agent's heartbeat failure detector (internal/agent/daemon.go noteHeartbeatFailure,
 clearHeartbeatFailures, newSessionCtx): it ends a hub session after three consecutive
 failed heartbeats. Any number of callers, interleaved at sections of sessionMu and at the
 cancel calls made after them. Sessions are numbered as their contexts are created.
 */
module HeartbeatDetector {
  import opened Options

  const MAX_FAILURES: nat := 3

  /** `current`: whose cancel function is held. */
  datatype Detector = Detector(current: Option<nat>, fails: nat)

  // ---- Lock sections: the new state, and the session whose cancel the caller must now call ----

  function FailureNoted(d: Detector): (Detector, Option<nat>) {
    if d.fails + 1 < MAX_FAILURES then (d.(fails := d.fails + 1), None)
    else (Detector(None, 0), d.current)
  }

  function FailuresCleared(d: Detector): Detector {
    d.(fails := 0)
  }

  function SessionInstalled(d: Detector, sid: nat): (Detector, Option<nat>) {
    (Detector(Some(sid), 0), d.current)
  }

  // ---- What was noted, and what should follow from it ----

  datatype Note = Failed | Answered | Installed(sid: nat)

  /** The consecutive failures at the end of the log. */
  function Trailing(log: seq<Note>): nat {
    if log == [] || log[|log| - 1] != Failed then 0 else 1 + Trailing(log[..|log| - 1])
  }

  /** `m` is where session `sid` was installed, and it is the session of the `n` first notes. */
  ghost predicate SessionOf(log: seq<Note>, sid: nat, m: nat, n: nat) {
    m < n <= |log| && log[m] == Installed(sid) && forall i | m < i < n :: !log[i].Installed?
  }

  /** Three consecutive failures, from `k` on, during the session installed at `m`. */
  ghost predicate Condemned(log: seq<Note>, sid: nat, m: nat, k: nat) {
    && m < k && k + 2 < |log| && SessionOf(log, sid, m, k + 3)
    && log[k] == Failed && log[k + 1] == Failed && log[k + 2] == Failed
  }

  ghost predicate Deserved(log: seq<Note>, sid: nat) {
    exists m, k :: Condemned(log, sid, m, k)
  }

  // ---- The machine ----

  datatype Pc =
    | Failing
    | Clearing
    | Creating
    | Installing(sid: nat)
    | Cancelling(sid: nat, detector: bool)
    | Done

  /**
   `created`: sessions so far. The rest is history: what was noted, the sessions the
   detector took hold of to end, and those on which it has called cancel.
   */
  datatype Agent = Agent(det: Detector, created: nat, procs: map<nat, Pc>,
                         log: seq<Note>, dropped: seq<nat>, cancelled: seq<nat>)

  datatype Action = Call(pid: nat, pc: Pc) | Step(pid: nat)

  function Ending(sid: Option<nat>, detector: bool): Pc {
    match sid case None => Done case Some(s) => Cancelling(s, detector)
  }

  function Moved(a: Agent, pid: nat, pc: Pc): Agent {
    a.(procs := a.procs[pid := pc])
  }

  function Exec(a: Agent, pid: nat): Agent
    requires pid in a.procs
  {
    match a.procs[pid]
    case Failing =>
      var (det, sid) := FailureNoted(a.det);
      Moved(a, pid, Ending(sid, true)).(det := det, log := a.log + [Failed],
        dropped := a.dropped + (if sid.Some? then [sid.value] else []))
    case Clearing => Moved(a, pid, Done).(det := FailuresCleared(a.det), log := a.log + [Answered])
    case Creating => Moved(a, pid, Installing(a.created)).(created := a.created + 1)
    case Installing(sid) =>
      var (det, prev) := SessionInstalled(a.det, sid);
      Moved(a, pid, Ending(prev, false)).(det := det, log := a.log + [Installed(sid)])
    case Cancelling(sid, detector) =>
      Moved(a, pid, Done).(cancelled := if detector then a.cancelled + [sid] else a.cancelled)
    case Done => a
  }

  predicate Enabled(a: Agent, act: Action) {
    match act
    case Call(pid, pc) => pid !in a.procs && (pc == Failing || pc == Clearing || pc == Creating)
    case Step(pid) => pid in a.procs && a.procs[pid] != Done
  }

  function Apply(a: Agent, act: Action): Agent
    requires Enabled(a, act)
  {
    match act
    case Call(pid, pc) => Moved(a, pid, pc)
    case Step(pid) => Exec(a, pid)
  }

  const INIT: Agent := Agent(Detector(None, 0), 0, map[], [], [], [])

  ghost predicate Next(a: Agent, act: Action, a': Agent) {
    Enabled(a, act) && a' == Apply(a, act)
  }

  ghost predicate IsRun(hs: seq<Agent>, acts: seq<Action>) {
    && |hs| == |acts| + 1 && hs[0] == INIT
    && forall i {:trigger acts[i]} | 0 <= i < |acts| :: Next(hs[i], acts[i], hs[i + 1])
  }

  // ---- The log determines the detector ----

  /** The session the log leaves installed, dropped or not. */
  ghost predicate Owner(log: seq<Note>, sid: nat) {
    exists m :: SessionOf(log, sid, m, |log|)
  }

  /** Counter, held session and dropped sessions are what the log says they are. */
  ghost predicate Follows(det: Detector, log: seq<Note>, dropped: seq<nat>) {
    && det.fails == Trailing(log) % MAX_FAILURES
    && (forall sid: nat :: det.current == Some(sid) <==> Owner(log, sid) && sid !in dropped)
    && (forall sid: nat :: sid in dropped <==> Deserved(log, sid))
    && (forall sid: nat | Owner(log, sid) && Trailing(log) >= MAX_FAILURES :: sid in dropped)
  }

  lemma TrailingAppend(log: seq<Note>, n: Note)
    ensures Trailing(log + [n]) == if n == Failed then Trailing(log) + 1 else 0
  {
    assert (log + [n])[..|log|] == log;
  }

  lemma {:induction false} TrailingLast(log: seq<Note>, i: nat)
    requires |log| - Trailing(log) <= i < |log|
    ensures log[i] == Failed
  {
    if i < |log| - 1 {
      TrailingLast(log[..|log| - 1], i);
    }
  }

  lemma {:induction false} TrailingAtLeast(log: seq<Note>, n: nat)
    requires n <= |log| && forall i | |log| - n <= i < |log| :: log[i] == Failed
    ensures Trailing(log) >= n
  {
    if n > 0 {
      TrailingAtLeast(log[..|log| - 1], n - 1);
    }
  }

  lemma SessionOfAppend(log: seq<Note>, n: Note, sid: nat, m: nat, e: nat)
    requires e <= |log|
    ensures SessionOf(log + [n], sid, m, e) <==> SessionOf(log, sid, m, e)
  {
    if SessionOf(log + [n], sid, m, e) {
      forall i | m < i < e ensures !log[i].Installed? {
        assert log[i] == (log + [n])[i];
      }
    }
  }

  lemma OwnerAppend(log: seq<Note>, n: Note, sid: nat)
    ensures Owner(log + [n], sid) <==> if n.Installed? then n.sid == sid else Owner(log, sid)
  {
    var log' := log + [n];
    if n.Installed? {
      assert SessionOf(log', n.sid, |log|, |log| + 1);
      assert log'[|log|].Installed?;
      assert forall m: nat | SessionOf(log', sid, m, |log'|) :: m == |log|;
    } else {
      forall m: nat ensures SessionOf(log', sid, m, |log'|) <==> SessionOf(log, sid, m, |log|) {
        SessionOfAppend(log, n, sid, m, |log|);
        assert SessionOf(log', sid, m, |log'|) <==> SessionOf(log', sid, m, |log|);
      }
    }
  }

  lemma OwnerIsUnique(log: seq<Note>, s: nat, t: nat)
    requires Owner(log, s) && Owner(log, t)
    ensures s == t
  {
    var m: nat :| SessionOf(log, s, m, |log|);
    var l: nat :| SessionOf(log, t, l, |log|);
    assert m < l ==> log[l].Installed?;
    assert l < m ==> log[m].Installed?;
  }

  /** A session becomes deserving only with the failure that completes three in a row. */
  lemma DeservedAppend(log: seq<Note>, n: Note, sid: nat)
    ensures Deserved(log + [n], sid) <==>
              Deserved(log, sid) || (n == Failed && Owner(log, sid) && Trailing(log) >= 2)
  {
    var log' := log + [n];
    if m: nat, k: nat :| Condemned(log, sid, m, k) {
      assert Condemned(log', sid, m, k);
    }
    if n == Failed && Owner(log, sid) && Trailing(log) >= 2 {
      TrailingLast(log, |log| - 1);
      TrailingLast(log, |log| - 2);
      var m :| SessionOf(log, sid, m, |log|);
      assert Condemned(log', sid, m, |log| - 2);
    }
    if m: nat, k: nat :| Condemned(log', sid, m, k) {
      if k + 2 < |log| {
        SessionOfAppend(log, n, sid, m, k + 3);
        assert Condemned(log, sid, m, k);
      } else {
        assert log[k] == log'[k] && log[k + 1] == log'[k + 1];
        TrailingAtLeast(log, 2);
        SessionOfAppend(log, n, sid, m, |log|);
        assert SessionOf(log, sid, m, |log|);
      }
    }
  }

  lemma FailureFollows(det: Detector, log: seq<Note>, dropped: seq<nat>)
    requires Follows(det, log, dropped)
    ensures var (det', sid) := FailureNoted(det);
            Follows(det', log + [Failed], dropped + (if sid.Some? then [sid.value] else []))
  {
    var (det', target) := FailureNoted(det);
    var log' := log + [Failed];
    var dropped' := dropped + (if target.Some? then [target.value] else []);
    TrailingAppend(log, Failed);
    forall sid: nat
      ensures det'.current == Some(sid) <==> Owner(log', sid) && sid !in dropped'
      ensures sid in dropped' <==> Deserved(log', sid)
      ensures Owner(log', sid) && Trailing(log') >= MAX_FAILURES ==> sid in dropped'
    {
      OwnerAppend(log, Failed, sid);
      DeservedAppend(log, Failed, sid);
      if target.Some? && Owner(log, sid) {
        OwnerIsUnique(log, sid, target.value);
      }
    }
  }

  lemma AnswerFollows(det: Detector, log: seq<Note>, dropped: seq<nat>)
    requires Follows(det, log, dropped)
    ensures Follows(FailuresCleared(det), log + [Answered], dropped)
  {
    TrailingAppend(log, Answered);
    forall sid: nat
      ensures Owner(log + [Answered], sid) <==> Owner(log, sid)
      ensures Deserved(log + [Answered], sid) <==> Deserved(log, sid)
    {
      OwnerAppend(log, Answered, sid);
      DeservedAppend(log, Answered, sid);
    }
  }

  lemma InstallFollows(det: Detector, log: seq<Note>, dropped: seq<nat>, sid: nat)
    requires Follows(det, log, dropped) && sid !in dropped
    ensures Follows(SessionInstalled(det, sid).0, log + [Installed(sid)], dropped)
  {
    TrailingAppend(log, Installed(sid));
    forall s: nat
      ensures Owner(log + [Installed(sid)], s) <==> s == sid
      ensures Deserved(log + [Installed(sid)], s) <==> Deserved(log, s)
    {
      OwnerAppend(log, Installed(sid), s);
      DeservedAppend(log, Installed(sid), s);
    }
  }

  // ---- Invariants of every run ----

  ghost predicate NoRepeats(s: seq<nat>) {
    forall i, j | 0 <= i < j < |s| :: s[i] != s[j]
  }

  /** What a caller holds in its hand between two sections. */
  ghost predicate PcOk(a: Agent, pid: nat)
    requires pid in a.procs
  {
    match a.procs[pid]
    case Installing(sid) =>
      sid < a.created && a.det.current != Some(sid) && sid !in a.dropped && Installed(sid) !in a.log
    case Cancelling(sid, detector) =>
      && sid < a.created && a.det.current != Some(sid) && Installed(sid) in a.log
      && (detector <==> sid in a.dropped) && (detector ==> sid !in a.cancelled)
    case _ => true
  }

  /** No two callers hold one session. */
  ghost predicate Apart(procs: map<nat, Pc>) {
    forall p, q | p in procs && q in procs && p != q ::
      && (procs[p].Installing? && procs[q].Installing? ==> procs[p].sid != procs[q].sid)
      && (procs[p].Cancelling? && procs[q].Cancelling? ==> procs[p].sid != procs[q].sid)
  }

  ghost predicate Bookkeeping(a: Agent) {
    && NoRepeats(a.dropped) && NoRepeats(a.cancelled)
    && (forall sid | sid in a.cancelled :: sid in a.dropped)
    && (a.det.current.Some? ==> Installed(a.det.current.value) in a.log)
    && (forall sid | sid in a.dropped :: Installed(sid) in a.log)
    && (forall n | n in a.log && n.Installed? :: n.sid < a.created)
  }

  /** The session now held is in nobody's hand. */
  ghost predicate Inv(a: Agent) {
    && Follows(a.det, a.log, a.dropped) && Bookkeeping(a) && Apart(a.procs)
    && (forall p | p in a.procs :: PcOk(a, p))
  }

  lemma CallKeeps(a: Agent, act: Action)
    requires Inv(a) && Enabled(a, act) && act.Call?
    ensures Inv(Apply(a, act))
  {
    forall p | p in a.procs ensures PcOk(Apply(a, act), p) {
      assert PcOk(a, p);
    }
  }

  lemma StepFollows(a: Agent, pid: nat)
    requires Inv(a) && Enabled(a, Step(pid))
    ensures var a' := Exec(a, pid); Follows(a'.det, a'.log, a'.dropped)
  {
    assert PcOk(a, pid);
    match a.procs[pid]
    case Failing => FailureFollows(a.det, a.log, a.dropped);
    case Clearing => AnswerFollows(a.det, a.log, a.dropped);
    case Installing(sid) => InstallFollows(a.det, a.log, a.dropped, sid);
    case _ =>
  }

  lemma StepBookkeeping(a: Agent, pid: nat)
    requires Inv(a) && Enabled(a, Step(pid))
    ensures Bookkeeping(Exec(a, pid))
  {
    assert PcOk(a, pid);
  }

  lemma StepKeepsPcs(a: Agent, pid: nat, q: nat)
    requires Inv(a) && Enabled(a, Step(pid)) && q in a.procs
    ensures PcOk(Exec(a, pid), q)
  {
    assert PcOk(a, pid) && PcOk(a, q);
  }

  lemma StepKeepsApart(a: Agent, pid: nat)
    requires Inv(a) && Enabled(a, Step(pid))
    ensures Apart(Exec(a, pid).procs)
  {
    forall q | q in a.procs && q != pid
      ensures var pc, qc := Exec(a, pid).procs[pid], a.procs[q];
              && (pc.Installing? && qc.Installing? ==> pc.sid != qc.sid)
              && (pc.Cancelling? && qc.Cancelling? ==> pc.sid != qc.sid)
    {
      assert PcOk(a, q);
    }
  }

  lemma {:induction false} RunsKeepInv(hs: seq<Agent>, acts: seq<Action>, i: nat)
    requires IsRun(hs, acts) && i < |hs|
    ensures Inv(hs[i])
  {
    if i > 0 {
      RunsKeepInv(hs, acts, i - 1);
      assert Next(hs[i - 1], acts[i - 1], hs[i]);
      match acts[i - 1]
      case Call(_, _) => CallKeeps(hs[i - 1], acts[i - 1]);
      case Step(pid) =>
        StepFollows(hs[i - 1], pid);
        StepBookkeeping(hs[i - 1], pid);
        StepKeepsApart(hs[i - 1], pid);
        forall q | q in hs[i].procs ensures PcOk(hs[i], q) {
          StepKeepsPcs(hs[i - 1], pid, q);
        }
    } else {
      assert forall sid: nat :: !Owner([], sid) && !Deserved([], sid);
    }
  }

  // ---- Theorems ----

  /** The counter is the run of failures at the end of the log, counted anew after every third one. */
  lemma CounterIsTheTrailingRun(hs: seq<Agent>, acts: seq<Action>, i: nat)
    requires IsRun(hs, acts) && i < |hs|
    ensures hs[i].det.fails == Trailing(hs[i].log) % MAX_FAILURES
  {
    RunsKeepInv(hs, acts, i);
  }

  /**
   The detector ends a session if and only if three heartbeats in a row failed after that
   session was installed, before any other was, with no success among them.
   */
  lemma DroppedExactlyWhenDeserved(hs: seq<Agent>, acts: seq<Action>, i: nat, sid: nat)
    requires IsRun(hs, acts) && i < |hs|
    ensures sid in hs[i].dropped <==> Deserved(hs[i].log, sid)
  {
    RunsKeepInv(hs, acts, i);
  }

  /** It takes hold of a session at most once, and calls cancel on it at most once. */
  lemma NoSessionIsDroppedTwice(hs: seq<Agent>, acts: seq<Action>, i: nat)
    requires IsRun(hs, acts) && i < |hs|
    ensures NoRepeats(hs[i].dropped) && NoRepeats(hs[i].cancelled)
    ensures forall sid | sid in hs[i].cancelled :: Deserved(hs[i].log, sid)
  {
    RunsKeepInv(hs, acts, i);
  }

  /** However late a cancel is made, and whoever makes it, it never ends the session held by then. */
  lemma LateCancelIsHarmless(hs: seq<Agent>, acts: seq<Action>, i: nat, pid: nat)
    requires IsRun(hs, acts) && i < |hs| && pid in hs[i].procs && hs[i].procs[pid].Cancelling?
    ensures hs[i].det.current != Some(hs[i].procs[pid].sid)
  {
    RunsKeepInv(hs, acts, i);
    assert PcOk(hs[i], pid);
  }

  // ---- A session that is let go of is cancelled ----

  ghost predicate InHand(a: Agent, pid: nat, sid: nat) {
    pid in a.procs && a.procs[pid].Cancelling? && a.procs[pid].sid == sid
  }

  /** Step `k` calls cancel on the session. */
  ghost predicate CancelsAt(hs: seq<Agent>, acts: seq<Action>, k: nat, sid: nat)
    requires |hs| == |acts| + 1
  {
    k < |acts| && acts[k].Step? && InHand(hs[k], acts[k].pid, sid)
  }

  ghost predicate LetGo(hs: seq<Agent>, acts: seq<Action>, i: nat, sid: nat)
    requires |hs| == |acts| + 1 && i < |hs|
  {
    || (exists pid :: InHand(hs[i], pid, sid))
    || (exists k :: 0 <= k < i && CancelsAt(hs, acts, k, sid))
  }

  /** A session that ceases to be the current one is in the hand of the process that made it so. */
  lemma HandedOver(a: Agent, act: Action, sid: nat)
    requires Enabled(a, act) && a.det.current == Some(sid) && Apply(a, act).det.current != Some(sid)
    ensures act.Step? && InHand(Apply(a, act), act.pid, sid)
  {
  }

  lemma HandStep(a: Agent, act: Action, pid: nat, sid: nat)
    requires Enabled(a, act) && InHand(a, pid, sid) && act != Step(pid)
    ensures InHand(Apply(a, act), pid, sid)
  {
  }

  lemma LogStep(a: Agent, act: Action, sid: nat)
    requires Enabled(a, act) && Installed(sid) in Apply(a, act).log && Installed(sid) !in a.log
    ensures Apply(a, act).det.current == Some(sid)
  {
  }

  /**
   Every session that was ever installed is the current one, or about to be cancelled by the
   process that replaced or dropped it, or cancelled: none is left running unseen.
   */
  lemma {:induction false} SessionsLetGoAreCancelled(hs: seq<Agent>, acts: seq<Action>, i: nat, sid: nat)
    requires IsRun(hs, acts) && i < |hs| && Installed(sid) in hs[i].log
    ensures hs[i].det.current == Some(sid) || LetGo(hs, acts, i, sid)
  {
    if i > 0 {
      var h := i - 1;
      assert Next(hs[h], acts[h], hs[i]);
      if Installed(sid) !in hs[h].log {
        LogStep(hs[h], acts[h], sid);
      } else {
        SessionsLetGoAreCancelled(hs, acts, h, sid);
        if hs[h].det.current == Some(sid) && hs[i].det.current != Some(sid) {
          HandedOver(hs[h], acts[h], sid);
        } else if pid: nat :| InHand(hs[h], pid, sid) {
          if acts[h] == Step(pid) {
            assert CancelsAt(hs, acts, h, sid);
          } else {
            HandStep(hs[h], acts[h], pid, sid);
          }
        }
      }
    }
  }

  /** What the detector has dropped and no longer holds in hand, it has called cancel on. */
  ghost predicate DropsHeld(a: Agent) {
    forall sid | sid in a.dropped ::
      sid in a.cancelled || exists p :: p in a.procs && a.procs[p] == Cancelling(sid, true)
  }

  lemma StepHoldsDrops(a: Agent, act: Action)
    requires Enabled(a, act) && DropsHeld(a)
    ensures DropsHeld(Apply(a, act))
  {
    var a' := Apply(a, act);
    forall sid | sid in a'.dropped
      ensures sid in a'.cancelled || exists p :: p in a'.procs && a'.procs[p] == Cancelling(sid, true)
    {
      if sid in a.dropped {
        if p: nat :| p in a.procs && a.procs[p] == Cancelling(sid, true) {
          assert act != Step(p) ==> a'.procs[p] == Cancelling(sid, true);
        }
      } else {
        assert a'.procs[act.pid] == Cancelling(sid, true);
      }
    }
  }

  lemma {:induction false} RunsHoldDrops(hs: seq<Agent>, acts: seq<Action>, i: nat)
    requires IsRun(hs, acts) && i < |hs|
    ensures DropsHeld(hs[i])
  {
    if i > 0 {
      RunsHoldDrops(hs, acts, i - 1);
      assert Next(hs[i - 1], acts[i - 1], hs[i]);
      StepHoldsDrops(hs[i - 1], acts[i - 1]);
    }
  }

  /**
   With every caller finished, the sessions on which the detector has called cancel are
   exactly those during which three heartbeats in a row failed.
   */
  lemma CancelledExactlyWhenDeserved(hs: seq<Agent>, acts: seq<Action>, i: nat, sid: nat)
    requires IsRun(hs, acts) && i < |hs| && forall p | p in hs[i].procs :: hs[i].procs[p] == Done
    ensures sid in hs[i].cancelled <==> Deserved(hs[i].log, sid)
  {
    RunsKeepInv(hs, acts, i);
    RunsHoldDrops(hs, acts, i);
  }
  function StepsLeft(pc: Pc): nat {
    match pc
    case Failing => 2
    case Clearing => 1
    case Creating => 3
    case Installing(_) => 2
    case Cancelling(_, _) => 1
    case Done => 0
  }

  /** Every step of a caller brings it closer to its end. */
  lemma EveryStepGetsCloser(a: Agent, pid: nat)
    requires Enabled(a, Step(pid))
    ensures pid in Exec(a, pid).procs && StepsLeft(Exec(a, pid).procs[pid]) < StepsLeft(a.procs[pid])
  {
  }
}
