/**
 The agent daemon's session state as it is written (internal/agent/daemon.go): the four
 fields guarded by sessionMu, the sections that update them in place, and the reconnect
 loop. Each section is proved to be the step HubConnection or HeartbeatDetector
 interleaves, and the loop to be a run of an episode's steps.
 */
module AgentObject {
  import opened Options
  import opened ReconnectEpisode
  import opened HubConnection
  import HD = HeartbeatDetector

  class HubClient {
    ghost const id: nat
    var closes: nat

    constructor (ghost id: nat)
      ensures this.id == id && closes == 0
    {
      this.id, closes := id, 0;
    }

    method Close()
      modifies this
      ensures closes == old(closes) + 1
    {
      closes := closes + 1;
    }
  }

  /** A session's cancel function. */
  class Session {
    ghost const id: nat
    var ended: bool

    constructor (ghost id: nat)
      ensures this.id == id && !ended
    {
      this.id, ended := id, false;
    }

    method Cancel()
      modifies this
      ensures ended
    {
      ended := true;
    }
  }

  // ---- One turn of the loop, as a run of an episode's steps ----

  function Rank(at: At): nat {
    match at
    case Top => 5
    case Trying(_) => 4
    case Replacing(_) => 3
    case Swapping(_, _) => 2
    case ClosingOld(_) => 1
    case ClosingSpare(_) => 1
    case Resting => 0
    case Ended => 0
  }

  /** From wherever it is to the end of the loop body, the environment answering `ch` throughout. */
  function Turn(p: Proc, s: Conn, ch: Choice): (Proc, Conn)
    decreases Rank(p.at)
  {
    var (p', s') := Exec(p, s, ch);
    if p.at == Resting || p'.at == Ended then (p', s') else Turn(p', s', ch)
  }

  /** The whole episode, one answer per turn, until it ends or the answers run out. */
  function Turns(p: Proc, s: Conn, script: seq<Choice>): (Proc, Conn)
    decreases script
  {
    if script == [] || p.at == Ended then (p, s)
    else
      var (p', s') := Turn(p, s, script[0]);
      Turns(p', s', script[1..])
  }

  lemma {:induction false} TurnsAppend(p: Proc, s: Conn, script: seq<Choice>, ch: Choice)
    ensures var (p', s') := Turns(p, s, script);
            Turns(p, s, script + [ch]) == if p'.at == Ended then (p', s') else Turn(p', s', ch)
    decreases script
  {
    if script == [] {
      assert [ch][1..] == [];
    } else if p.at != Ended {
      var (p1, s1) := Turn(p, s, script[0]);
      TurnsAppend(p1, s1, script[1..], ch);
      assert (script + [ch])[1..] == script[1..] + [ch];
    }
  }

  /** A single-process run of the machine: what every episode does, this loop does. */
  lemma {:induction false} TurnKeepsLoop(minInterval: int, p: Proc, s: Conn, ch: Choice)
    requires LoopOk(minInterval, p)
    ensures LoopOk(minInterval, Turn(p, s, ch).0)
    decreases Rank(p.at)
  {
    LoopStep(minInterval, p, s, ch);
    var (p', s') := Exec(p, s, ch);
    if p.at != Resting && p'.at != Ended {
      TurnKeepsLoop(minInterval, p', s', ch);
    }
  }

  /** The context is cancelled, or Register and Subscribe are both answered and the set-up budget has not fired. */
  predicate EndsEpisode(ch: Choice) {
    ch.cancelled || (ch.attempt.register == Answered && ch.attempt.subscribe == Answered && !ch.attempt.timerFired)
  }

  class Daemon {
    const minReconnectInterval: int
    var hubClient: HubClient?
    var hubClientClosed: bool
    var sessionCancel: Session?
    var heartbeatFails: nat
    ghost var dialled: seq<HubClient>
    ghost var sessions: seq<Session>

    ghost predicate Dialled(c: HubClient)
      reads this
    {
      c.id < |dialled| && dialled[c.id] == c
    }

    ghost predicate Created(c: Session)
      reads this
    {
      c.id < |sessions| && sessions[c.id] == c
    }

    ghost predicate Valid()
      reads this
    {
      && (forall i | 0 <= i < |dialled| :: dialled[i].id == i)
      && (forall i | 0 <= i < |sessions| :: sessions[i].id == i)
      && (hubClient != null ==> Dialled(hubClient))
      && (sessionCancel != null ==> Created(sessionCancel))
    }

    ghost function Id(c: HubClient?): Option<nat> {
      if c == null then None else Some(c.id)
    }

    ghost function View(): Conn
      reads this, dialled
    {
      Conn(Id(hubClient), hubClientClosed,
           seq(|dialled|, i requires 0 <= i < |dialled| reads this, dialled => dialled[i].closes))
    }

    ghost function SessionId(c: Session?): Option<nat> {
      if c == null then None else Some(c.id)
    }

    ghost function Detector(): HD.Detector
      reads this
    {
      HD.Detector(SessionId(sessionCancel), heartbeatFails)
    }

    constructor (minReconnectInterval: int)
      ensures Valid() && View() == UNCONNECTED && Detector() == HD.INIT.det
      ensures this.minReconnectInterval == minReconnectInterval
    {
      this.minReconnectInterval := minReconnectInterval;
      hubClient, hubClientClosed, sessionCancel, heartbeatFails := null, false, null, 0;
      dialled, sessions := [], [];
    }

    // ---- The connection ----

    method Dial() returns (c: HubClient)
      requires Valid()
      modifies this`dialled
      ensures Valid() && Dialled(c) && fresh(c) && c.id == |old(dialled)| && c.closes == 0
      ensures dialled == old(dialled) + [c] && View() == HubConnection.Dialled(old(View()))
    {
      c := new HubClient(|dialled|);
      dialled := dialled + [c];
      assert View().closes == old(View()).closes + [0];
    }

    method SetHubClient(client: HubClient)
      requires Valid() && Dialled(client)
      modifies this`hubClient
      ensures Valid() && View() == ClientSet(old(View()), client.id) && hubClient == client
    {
      hubClient := client;
    }

    method SwapHubClient(condemned: HubClient, spare: HubClient) returns (swapped: bool)
      requires Valid() && Dialled(condemned) && Dialled(spare)
      modifies this`hubClient
      ensures Valid() && View() == Swapped(old(View()), Some(condemned.id), spare.id)
      ensures swapped <==> !hubClientClosed && old(hubClient) == condemned
      ensures hubClient == if swapped then spare else old(hubClient)
    {
      if hubClientClosed || hubClient != condemned {
        return false;
      }
      hubClient := spare;
      return true;
    }

    method CloseClient(c: HubClient)
      requires Valid() && Dialled(c)
      modifies c
      ensures Valid() && View() == Closed(old(View()), c.id) && c.closes == old(c.closes) + 1
    {
      assert dialled[c.id] == c;
      c.Close();
      assert View().closes == old(View()).closes[c.id := old(c.closes) + 1];
    }

    /** The replacement leg of an episode, from Replacing to Resting. */
    method ReplaceHubClient(condemned: HubClient?, dials: bool, ghost p: Proc, ghost ch: Choice)
      returns (replaced: bool, ghost q: Proc)
      requires Valid() && (condemned != null ==> Dialled(condemned))
      requires p.at == Replacing(Id(condemned)) && !p.ep.swapSpent && ch.dials == dials
      modifies this`hubClient, this`dialled, dialled
      ensures Valid() && old(dialled) <= dialled
      ensures fresh(set c | c in dialled && c !in old(dialled))
      ensures replaced <==> condemned != null && dials && !hubClientClosed && old(hubClient) == condemned
      ensures replaced ==> hubClient in dialled && hubClient !in old(dialled)
      ensures replaced ==> condemned.closes == old(condemned.closes) + 1
      ensures !replaced ==> hubClient == old(hubClient) && forall c | c in old(dialled) :: c.closes == old(c.closes)
      ensures forall c | c in dialled && c !in old(dialled) :: c.closes == if replaced then 0 else 1
      ensures q.at == Resting && q.ep.delay == p.ep.delay && q.ep.swapSpent == replaced
      ensures if replaced then |q.ep.log| == |p.ep.log| + 1 && q.ep.log[|p.ep.log|].Replaced? else q.ep.log == p.ep.log
      ensures Turn(p, old(View()), ch) == Turn(q, View(), ch)
    {
      ghost var s := View();
      if condemned == null || !dials {
        return false, p.(at := Resting);
      }
      var spare := Dial();
      ghost var p1 := p.(at := Swapping(condemned.id, spare.id));
      assert Exec(p, s, ch) == (p1, View());
      ghost var s1 := View();
      replaced := SwapHubClient(condemned, spare);
      ghost var s2 := View();
      if !replaced {
        CloseClient(spare);
        ghost var p2 := p.(at := ClosingSpare(spare.id));
        assert Exec(p1, s1, ch) == (p2, s2);
        q := p.(at := Resting);
        assert Exec(p2, s2, ch) == (q, View());
        assert Turn(p, s, ch) == Turn(p1, s1, ch) == Turn(p2, s2, ch);
      } else {
        CloseClient(condemned);
        ghost var p2 := Proc(Noted(p.ep, Replaced(condemned.id, spare.id)), ClosingOld(condemned.id));
        assert Exec(p1, s1, ch) == (p2, s2);
        q := Proc(p2.ep.(swapSpent := true), Resting);
        assert Exec(p2, s2, ch) == (q, View());
        assert Turn(p, s, ch) == Turn(p1, s1, ch) == Turn(p2, s2, ch);
      }
    }

    method TakeHubClientForShutdown() returns (client: HubClient?)
      requires Valid()
      modifies this`hubClientClosed
      ensures Valid() && View() == Taken(old(View())) && client == hubClient && hubClientClosed
    {
      hubClientClosed := true;
      return hubClient;
    }

    // ---- The heartbeat detector ----

    method NewSessionCtx() returns (session: Session, prev: Session?)
      requires Valid()
      modifies this`sessionCancel, this`heartbeatFails, this`sessions
      ensures Valid() && fresh(session) && session.id == |old(sessions)| && !session.ended
      ensures (Detector(), SessionId(prev)) == HD.SessionInstalled(old(Detector()), session.id)
      ensures prev == old(sessionCancel) && sessions == old(sessions) + [session]
      ensures sessionCancel == session && heartbeatFails == 0
    {
      session := new Session(|sessions|);
      sessions := sessions + [session];
      prev := sessionCancel;
      sessionCancel := session;
      heartbeatFails := 0;
    }

    method NoteHeartbeatFailure() returns (cancel: Session?)
      requires Valid()
      modifies this`sessionCancel, this`heartbeatFails
      ensures Valid() && (Detector(), SessionId(cancel)) == HD.FailureNoted(old(Detector()))
      ensures if old(heartbeatFails) < 2
              then heartbeatFails == old(heartbeatFails) + 1 && cancel == null && sessionCancel == old(sessionCancel)
              else heartbeatFails == 0 && cancel == old(sessionCancel) && sessionCancel == null
    {
      heartbeatFails := heartbeatFails + 1;
      if heartbeatFails < HD.MAX_FAILURES {
        return null;
      }
      heartbeatFails := 0;
      cancel := sessionCancel;
      sessionCancel := null;
    }

    method ClearHeartbeatFailures()
      requires Valid()
      modifies this`heartbeatFails
      ensures Valid() && Detector() == HD.FailuresCleared(old(Detector())) && heartbeatFails == 0
    {
      heartbeatFails := 0;
    }

    // ---- The reconnect loop ----

    /** The loop body for one environment answer; `p` is the episode, at its top. */
    method ReconnectTurn(ch: Choice, swapSpent: bool, delay: nat, ghost p: Proc)
      returns (done: bool, swapSpent': bool, delay': nat, ghost p': Proc)
      requires Valid() && p == Proc(p.ep, Top) && p.ep.swapSpent == swapSpent && p.ep.delay == delay
      modifies this`hubClient, this`dialled, dialled
      ensures Valid() && old(dialled) <= dialled
      ensures fresh(set c | c in dialled && c !in old(dialled))
      ensures Turn(p, old(View()), ch) == (p', View())
      ensures done <==> p'.at == Ended
      ensures var a := ch.attempt;
              && (EndsAnswered(p'.ep.log) <==> a.register == Answered && a.subscribe == Answered && !a.timerFired)
              && (done <==> EndsEpisode(ch))
      ensures !done ==> p' == Proc(p'.ep, Top) && p'.ep.swapSpent == swapSpent' && p'.ep.delay == delay'
    {
      swapSpent', delay' := swapSpent, delay;
      VerdictsExactlyWhen(ch.attempt);
      ghost var s := View();
      var attempted := hubClient;
      ghost var p1 := Proc(p.ep, Trying(Id(attempted)));
      assert Exec(p, s, ch) == (p1, s);
      var v := SessionOnce(ch.attempt);
      ghost var p2 := Proc(Noted(p.ep, Tried(Id(attempted), ch.attempt)), AfterTry(p.ep, Id(attempted), v));
      assert Exec(p1, s, ch) == (p2, s);
      ghost var q := p2;
      if v == Established {
        assert Turn(p1, s, ch) == (p2, s);
        return true, swapSpent, delay, p2;
      }
      if v == TimedOut && !swapSpent {
        swapSpent', q := ReplaceHubClient(attempted, ch.dials, p2, ch);
      }
      assert Turn(p, s, ch) == Turn(p1, s, ch) == Turn(p2, s, ch) == Turn(q, View(), ch);
      if ch.cancelled {
        return true, swapSpent', delay', q.(at := Ended);
      }
      delay' := delay * 2;
      if delay' > BACKOFF_MAX {
        delay' := BACKOFF_MAX;
      }
      return false, swapSpent', delay', Proc(Rested(q.ep), Top);
    }

    /**
     Answers come from the script; the loop ends with the episode or with the script.
     Its log keeps the discipline that HubConnection proves of every episode.
     */
    method ReconnectSession(script: seq<Choice>) returns (done: bool, ghost p: Proc)
      requires Valid()
      modifies this`hubClient, this`dialled, dialled
      ensures Valid()
      ensures Turns(Proc(Begin(minReconnectInterval), Top), old(View()), script) == (p, View())
      ensures done <==> p.at == Ended
      ensures done <==> exists n | 0 <= n < |script| :: EndsEpisode(script[n])
      ensures EndsAnswered(p.ep.log) ==> done
      ensures done ==> EndsAnswered(p.ep.log) || exists n | 0 <= n < |script| :: script[n].cancelled
      ensures LoopOk(minReconnectInterval, p)
    {
      var swapSpent := false;
      var delay: nat := BACKOFF_INITIAL;
      if minReconnectInterval > 0 {
        delay := minReconnectInterval;
      }
      ghost var start, s0 := Proc(Begin(minReconnectInterval), Top), View();
      ghost var first := dialled;
      p, done := start, false;
      BeginOk(minReconnectInterval);
      var n := 0;
      while n < |script| && !done
        invariant Valid() && n <= |script| && Turns(start, s0, script[..n]) == (p, View())
        invariant first <= dialled
        invariant fresh(set c | c in dialled && c !in first)
        invariant LoopOk(minReconnectInterval, p) && (done <==> p.at == Ended)
        invariant !done ==> forall m | 0 <= m < n :: !EndsEpisode(script[m])
        invariant done ==> n > 0 && EndsEpisode(script[n - 1]) && (EndsAnswered(p.ep.log) || script[n - 1].cancelled)
        invariant !done ==> p == Proc(p.ep, Top) && p.ep.swapSpent == swapSpent && p.ep.delay == delay
      {
        assert script[..n + 1] == script[..n] + [script[n]];
        TurnsAppend(start, s0, script[..n], script[n]);
        TurnKeepsLoop(minReconnectInterval, p, View(), script[n]);
        done, swapSpent, delay, p := ReconnectTurn(script[n], swapSpent, delay, p);
        n := n + 1;
      }
      TurnsStop(start, s0, script, n);
      assert script[..|script|] == script;
    }
  }

  /** An episode that has ended ignores the rest of the script. */
  lemma {:induction false} TurnsStop(p: Proc, s: Conn, script: seq<Choice>, n: nat)
    requires n <= |script| && (n < |script| ==> Turns(p, s, script[..n]).0.at == Ended)
    ensures Turns(p, s, script) == Turns(p, s, script[..n])
    decreases |script| - n
  {
    if n == |script| {
      assert script[..n] == script;
    } else {
      assert script[..n + 1] == script[..n] + [script[n]];
      TurnsAppend(p, s, script[..n], script[n]);
      TurnsStop(p, s, script, n + 1);
    }
  }
}
