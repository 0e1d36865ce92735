/**
 The bounded gRPC stop (internal/hub/lifecycle.go StopServer, internal/hub/hub.go
 splitRemaining). Times are milliseconds; when the server would come down is an input.
 */
module ShutdownBudget {
  import opened HubLifecycle

  const SHUTDOWN_BUDGET := 6000
  const SHUTDOWN_GRACE := 3000
  const MIN_FORCED_WAIT := 500

  /** A moment that may never come. */
  datatype Moment = Never | At(time: nat)

  predicate By(m: Moment, limit: nat) {
    m.At? && m.time <= limit
  }

  datatype Split = Split(grace: nat, hardLimit: nat)

  function SplitRemaining(remaining: int, want: nat): (s: Split)
    ensures s.grace + s.hardLimit == if remaining < 0 then 0 else remaining
    ensures s.grace == if want <= remaining then want else if remaining < 0 then 0 else remaining
  {
    var left := if remaining < 0 then 0 else remaining;
    var grace := if want > left then left else want;
    Split(grace, left - grace)
  }

  function ForcedWindow(hardLimit: nat): nat {
    if hardLimit < MIN_FORCED_WAIT then MIN_FORCED_WAIT else hardLimit
  }

  /**
   `own`: when GracefulStop's return is reported; `forced`: how long after the forced Stop
   the server is down; `toss`, `toss2`: which ready case a select picks when both are;
   `seen`: whether a report of that very instant has arrived by the re-check.
   */
  method StopServer(own: Moment, forced: Moment, grace: nat, hardLimit: nat, toss: bool, seen: bool, toss2: bool)
    returns (outcome: Outcome, elapsed: nat)
    ensures outcome == StopGraceful <==> own.At? && (own.time < grace || (own.time == grace && (toss || seen)))
    ensures outcome == StopHung ==>
              !By(own, grace + ForcedWindow(hardLimit) - 1) && !By(forced, ForcedWindow(hardLimit) - 1)
    ensures outcome == StopForced ==> By(own, grace + ForcedWindow(hardLimit)) || By(forced, ForcedWindow(hardLimit))
    ensures elapsed <= grace + ForcedWindow(hardLimit)
    ensures outcome == StopGraceful ==> elapsed == own.time <= grace
    ensures outcome == StopHung ==> elapsed == grace + ForcedWindow(hardLimit)
    ensures outcome == StopForced ==>
              && (own.At? ==> elapsed <= own.time) && (forced.At? ==> elapsed <= grace + forced.time)
              && ((own.At? && elapsed == own.time) || (forced.At? && elapsed == grace + forced.time))
  {
    if own.At? && (own.time < grace || (own.time == grace && toss)) {
      return StopGraceful, own.time;
    }
    if own.At? && own.time == grace && seen {
      return StopGraceful, grace;
    }
    var limit := hardLimit;
    if limit < MIN_FORCED_WAIT {
      limit := MIN_FORCED_WAIT;
    }
    var down := forced;
    if own.At? && (down.Never? || own.time - grace < down.time) {
      down := At(own.time - grace);
    }
    if down.At? && (down.time < limit || (down.time == limit && toss2)) {
      return StopForced, grace + down.time;
    }
    return StopHung, grace + limit;
  }

  /**
   However much of the budget is already spent, the gRPC stop overruns it by at most the
   forced floor, and a forced stop that answers within that floor is never reported hung.
   */
  method StopWithin(remaining: int, own: Moment, forced: Moment, toss: bool, seen: bool, toss2: bool)
    returns (outcome: Outcome, elapsed: nat)
    requires remaining <= SHUTDOWN_BUDGET
    ensures elapsed <= (if remaining < 0 then 0 else remaining) + 500
    ensures By(forced, 499) ==> outcome != StopHung
    ensures own.At? && own.time < 3000 && own.time < remaining ==> outcome == StopGraceful && elapsed == own.time
    ensures outcome == StopGraceful ==> own.At? && elapsed == own.time <= 3000
    ensures outcome == StopHung ==> elapsed >= 500 && elapsed >= remaining
  {
    var split := SplitRemaining(remaining, SHUTDOWN_GRACE);
    outcome, elapsed := StopServer(own, forced, split.grace, split.hardLimit, toss, seen, toss2);
  }
}
