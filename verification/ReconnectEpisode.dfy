/**
 One reconnect episode of the agent (internal/agent/daemon.go reconnectSession): what an
 attempt's verdict is, and what the retry loop may do between attempts. An episode keeps
 the log of what it did; the promises about it are promises about every such log.
 */
module ReconnectEpisode {
  import opened Options

  // ---- The verdict on one attempt ----

  datatype CtxErr = NoError | Canceled | DeadlineExceeded

  /** How a call came back; `rejected`: the hub itself answered no. */
  datatype Reply = Answered | Errored(rejected: bool)

  /**
   What one attempt meets: the two calls' replies, the register budget's own error as read
   before it is cancelled, whether the subscribe timer had fired, and whether the daemon's
   context and the session's context were still live when looked at.
   */
  datatype Attempt = Attempt(register: Reply, regBudget: CtxErr, parentLive: bool,
                             subscribe: Reply, timerFired: bool, sessionLive: bool)

  datatype Verdict = Established | TimedOut | Rejected | Failed

  predicate OurBudgetExpired(parentLive: bool, budget: CtxErr, rejected: bool) {
    budget == DeadlineExceeded && parentLive && !rejected
  }

  function SubscribeWithBudget(a: Attempt): Verdict {
    match a.subscribe
    case Errored(rejected) =>
      if a.timerFired && a.sessionLive then TimedOut else if rejected then Rejected else Failed
    case Answered =>
      if !a.timerFired then Established else if a.sessionLive then TimedOut else Failed
  }

  function SessionOnce(a: Attempt): Verdict {
    match a.register
    case Errored(rejected) =>
      if OurBudgetExpired(a.parentLive, a.regBudget, rejected) then TimedOut
      else if rejected then Rejected else Failed
    case Answered => SubscribeWithBudget(a)
  }

  /** The hub itself answered no to one of the attempt's calls. */
  predicate RefusedByHub(a: Attempt) {
    a.register == Errored(true) || (a.register == Answered && a.subscribe == Errored(true))
  }

  /** The one case in which a refusal does not clear the connection: Subscribe's, with the budget spent meanwhile. */
  predicate RefusedLate(a: Attempt) {
    a.register == Answered && a.subscribe == Errored(true) && a.timerFired && a.sessionLive
  }

  /** What the agent's own client can bring: its Subscribe reports transport errors only. */
  predicate FromHubClient(a: Attempt) {
    a.subscribe != Errored(true)
  }

  /**
   An attempt condemns its connection exactly when one of the daemon's own two budgets ran
   out with nothing being shut down meanwhile: on a Register the hub had not refused, or
   on a Subscribe, whose refusal the code does not look for. So a refused attempt condemns
   in that one case, and never with the errors the agent's own client reports.
   */
  lemma TimedOutIsOurOwnVerdict(a: Attempt)
    ensures SessionOnce(a) == TimedOut <==>
              || (a.register == Errored(false) && a.regBudget == DeadlineExceeded && a.parentLive)
              || (a.register == Answered && a.timerFired && a.sessionLive)
    ensures SessionOnce(a) == TimedOut && RefusedByHub(a) <==> RefusedLate(a)
    ensures FromHubClient(a) && RefusedByHub(a) ==> SessionOnce(a) == Rejected
  {
  }

  /** Both calls were answered, the second one within its budget. */
  predicate BothAnswered(a: Attempt) {
    a.register == Answered && a.subscribe == Answered && !a.timerFired
  }

  /**
   An attempt gives a session exactly when both calls were answered and the set-up budget
   had not fired. Otherwise it is put down to the hub's refusal, to our own budget, or, the
   rest, to a failure; a refused Subscribe counts as refused unless our budget had fired.
   */
  lemma VerdictsExactlyWhen(a: Attempt)
    ensures SessionOnce(a) == Established <==> a.register == Answered && a.subscribe == Answered && !a.timerFired
    ensures SessionOnce(a) == Rejected <==>
              || a.register == Errored(true)
              || (a.register == Answered && a.subscribe == Errored(true) && !(a.timerFired && a.sessionLive))
    ensures SessionOnce(a) == Failed <==>
              || (a.register == Errored(false) && !(a.regBudget == DeadlineExceeded && a.parentLive))
              || (a.register == Answered && a.subscribe == Errored(false) && !(a.timerFired && a.sessionLive))
              || (a.register == Answered && a.subscribe == Answered && a.timerFired && !a.sessionLive)
  {
  }

  // ---- The delays ----

  const BACKOFF_INITIAL: nat := 1000
  const BACKOFF_MAX: nat := 60000

  function Pow2(k: nat): (p: nat)
    ensures p >= 1
  {
    if k == 0 then 1 else 2 * Pow2(k - 1)
  }

  function Min(a: nat, b: nat): nat {
    if a <= b then a else b
  }

  function FirstDelay(minInterval: int): (d: nat)
    ensures d > 0
  {
    if minInterval <= 0 then BACKOFF_INITIAL else minInterval
  }

  function NextDelay(delay: nat): nat {
    if 2 * delay > BACKOFF_MAX then BACKOFF_MAX else 2 * delay
  }

  /** The k-th delay of an episode, in closed form. */
  function Backoff(minInterval: int, k: nat): nat {
    if k == 0 then FirstDelay(minInterval) else Min(FirstDelay(minInterval) * Pow2(k), BACKOFF_MAX)
  }

  lemma BackoffStep(minInterval: int, k: nat)
    ensures NextDelay(Backoff(minInterval, k)) == Backoff(minInterval, k + 1)
    ensures Backoff(minInterval, 0) == if minInterval <= 0 then 1000 else minInterval
    ensures Backoff(minInterval, k + 1) == Min(Backoff(minInterval, 0) * Pow2(k + 1), 60000)
    ensures Pow2(0) == 1 && Pow2(k + 1) == 2 * Pow2(k)
  {
    var d := FirstDelay(minInterval);
    assert d * Pow2(k + 1) == 2 * (d * Pow2(k));
  }

  // ---- The episode ----

  datatype Event =
    | Tried(client: Option<nat>, attempt: Attempt)
    | Replaced(condemned: nat, spare: nat)
    | Slept(delay: nat)

  datatype Episode = Episode(swapSpent: bool, delay: nat, log: seq<Event>)

  function Begin(minInterval: int): Episode {
    Episode(false, FirstDelay(minInterval), [])
  }

  function Noted(e: Episode, ev: Event): Episode {
    e.(log := e.log + [ev])
  }

  predicate WantsReplacement(e: Episode, v: Verdict) {
    v == TimedOut && !e.swapSpent
  }

  function Rested(e: Episode): Episode {
    Episode(e.swapSpent, NextDelay(e.delay), e.log + [Slept(e.delay)])
  }

  /** The delays an episode has slept, in order. */
  function Sleeps(log: seq<Event>): seq<nat> {
    if log == [] then []
    else
      var last := log[|log| - 1];
      Sleeps(log[..|log| - 1]) + (if last.Slept? then [last.delay] else [])
  }

  ghost predicate AtMostOneReplacement(log: seq<Event>) {
    forall i, j | 0 <= i < |log| && 0 <= j < |log| && log[i].Replaced? && log[j].Replaced? :: i == j
  }

  /** The attempt ran on this client, and the daemon's own budget ended it. */
  predicate TimedOutOn(ev: Event, client: Option<nat>) {
    ev.Tried? && ev.client == client && SessionOnce(ev.attempt) == TimedOut
  }

  /** Every replacement directly follows an attempt on the condemned connection that ran out of our own budget. */
  ghost predicate CondemnsWhatTimedOut(log: seq<Event>) {
    forall i | 0 <= i < |log| && log[i].Replaced? :: i > 0 && TimedOutOn(log[i - 1], Some(log[i].condemned))
  }

  ghost predicate DoublesUpToTheCap(minInterval: int, log: seq<Event>) {
    forall k | 0 <= k < |Sleeps(log)| :: Sleeps(log)[k] == Backoff(minInterval, k)
  }

  /** Between one attempt and the next the episode sleeps, exactly once. */
  ghost predicate Spaced(log: seq<Event>) {
    forall i | 0 < i < |log| ::
      && (log[i].Tried? ==> log[i - 1].Slept?)
      && (log[i].Slept? ==> !log[i - 1].Slept?)
  }

  /** The last thing in the log is an attempt whose two calls were answered in time. */
  predicate EndsAnswered(log: seq<Event>) {
    log != [] && log[|log| - 1].Tried? && BothAnswered(log[|log| - 1].attempt)
  }

  predicate EndsAsleep(log: seq<Event>) {
    log == [] || log[|log| - 1].Slept?
  }

  /** `spent`: a replacement was made, noted in `swapSpent` or about to be. */
  ghost predicate EpisodeOk(minInterval: int, e: Episode, spent: bool) {
    && AtMostOneReplacement(e.log)
    && CondemnsWhatTimedOut(e.log)
    && DoublesUpToTheCap(minInterval, e.log)
    && e.delay == Backoff(minInterval, |Sleeps(e.log)|)
    && (e.swapSpent ==> spent)
    && (!spent <==> forall i | 0 <= i < |e.log| :: !e.log[i].Replaced?)
    && Spaced(e.log) && (e.log != [] ==> e.log[0].Tried?)
  }

  lemma SleepsAppend(log: seq<Event>, ev: Event)
    ensures Sleeps(log + [ev]) == Sleeps(log) + (if ev.Slept? then [ev.delay] else [])
  {
    assert (log + [ev])[..|log|] == log;
  }

  lemma BeginOk(minInterval: int)
    ensures EpisodeOk(minInterval, Begin(minInterval), false)
  {
  }

  lemma TryKeeps(minInterval: int, e: Episode, spent: bool, client: Option<nat>, a: Attempt)
    requires EpisodeOk(minInterval, e, spent) && EndsAsleep(e.log)
    ensures EpisodeOk(minInterval, Noted(e, Tried(client, a)), spent)
  {
    SleepsAppend(e.log, Tried(client, a));
    NoReplacementYet(e.log, Tried(client, a));
  }

  lemma NoReplacementYet(log: seq<Event>, ev: Event)
    ensures (forall i | 0 <= i < |log + [ev]| :: !(log + [ev])[i].Replaced?) <==>
              !ev.Replaced? && forall i | 0 <= i < |log| :: !log[i].Replaced?
  {
    var log' := log + [ev];
    assert log'[|log|] == ev && forall i | 0 <= i < |log| :: log'[i] == log[i];
  }

  lemma ReplaceKeeps(minInterval: int, e: Episode, condemned: nat, spare: nat)
    requires EpisodeOk(minInterval, e, false)
    requires |e.log| > 0 && TimedOutOn(e.log[|e.log| - 1], Some(condemned))
    ensures EpisodeOk(minInterval, Noted(e, Replaced(condemned, spare)), true)
  {
    SleepsAppend(e.log, Replaced(condemned, spare));
    NoReplacementYet(e.log, Replaced(condemned, spare));
  }

  lemma RestKeeps(minInterval: int, e: Episode, spent: bool)
    requires EpisodeOk(minInterval, e, spent) && e.log != [] && !EndsAsleep(e.log)
    ensures EpisodeOk(minInterval, Rested(e), spent)
  {
    SleepsAppend(e.log, Slept(e.delay));
    NoReplacementYet(e.log, Slept(e.delay));
    BackoffStep(minInterval, |Sleeps(e.log)|);
  }
}
