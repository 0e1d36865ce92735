/**
 What a Join and an issuer have done when they return, in every run: each result of a Join
 has its reason, and a token lasts for the configured time from its issuer's clock reading.
 */
module JoinStories {
  import opened Options
  import opened DeviceTable
  import opened JoinTokens

  ghost predicate StepBy(acts: seq<Action>, k: nat, pid: nat) {
    k < |acts| && acts[k].Step? && acts[k].pid == pid
  }

  lemma Stands(hs: seq<Hub>, acts: seq<Action>, j: nat, pid: nat)
    requires IsRun(hs, acts) && j < |acts| && pid in hs[j].procs && !StepBy(acts, j, pid)
    ensures pid in hs[j + 1].procs && hs[j + 1].procs[pid] == hs[j].procs[pid]
  {
    assert Next(hs[j], acts[j], hs[j + 1]);
  }

  lemma Moves(hs: seq<Hub>, acts: seq<Action>, j: nat, pid: nat)
    requires IsRun(hs, acts) && StepBy(acts, j, pid)
    ensures pid in hs[j].procs && pid in hs[j + 1].procs && TicketsOk(hs[j].book.tokens)
    ensures var (pc, h') := Exec(hs[j], pid, hs[j].procs[pid], acts[j].ch);
            hs[j + 1].procs[pid] == pc && hs[j + 1] == h'.(procs := hs[j + 1].procs)
  {
    assert Next(hs[j], acts[j], hs[j + 1]);
  }

  // ---- An issuer ----

  /** At step `a` the process sets the expiry by its clock: the configured lifetime, or ten minutes if none is set. */
  ghost predicate SetsExpiryAt(hs: seq<Hub>, acts: seq<Action>, a: nat, pid: nat, expires: int)
    requires |hs| == |acts| + 1
  {
    StepBy(acts, a, pid) && expires == hs[a].now + (if hs[a].ttl != 0 then hs[a].ttl else 600000)
  }

  /** Step `k` inserts the ticket under a code that was not pending, and it is pending now. */
  ghost predicate InsertsAt(hs: seq<Hub>, acts: seq<Action>, k: nat, pid: nat, t: Ticket)
    requires |hs| == |acts| + 1
  {
    && StepBy(acts, k, pid) && t.code !in hs[k].book.tokens.pending
    && hs[k + 1].book.tokens.tickets == hs[k].book.tokens.tickets + [t]
    && t.code in hs[k + 1].book.tokens.pending
    && hs[k + 1].book.tokens.pending[t.code] == |hs[k].book.tokens.tickets|
  }

  /** The INSERT fails, or the code it drew is pending already. */
  ghost predicate InsertFailsAt(hs: seq<Hub>, acts: seq<Action>, k: nat, pid: nat)
    requires |hs| == |acts| + 1
  {
    && StepBy(acts, k, pid) && pid in hs[k].procs && hs[k].procs[pid].Issuing? && hs[k].procs[pid].issue.IInsert?
    && (acts[k].ch.fail || hs[k].procs[pid].issue.code in hs[k].book.tokens.pending)
  }

  ghost predicate IssueSoFar(hs: seq<Hub>, acts: seq<Action>, s: nat, j: nat, pid: nat)
    requires |hs| == |acts| + 1 && j < |hs|
  {
    && pid in hs[j].procs && hs[j].procs[pid].Issuing?
    && match hs[j].procs[pid].issue
       case IClock => true
       case IInsert(_, expires) => exists a :: s < a < j && SetsExpiryAt(hs, acts, a, pid, expires)
       case IReturned(ok) =>
         if ok
         then exists a, k, t: Ticket :: && s < a < k < j && SetsExpiryAt(hs, acts, a, pid, t.expires)
                                        && InsertsAt(hs, acts, k, pid, t)
         else exists k :: s < k < j && InsertFailsAt(hs, acts, k, pid)
  }

  lemma IssueMoves(hs: seq<Hub>, acts: seq<Action>, s: nat, j: nat, pid: nat)
    requires IsRun(hs, acts) && s < j < |acts| && IssueSoFar(hs, acts, s, j, pid) && StepBy(acts, j, pid)
    ensures IssueSoFar(hs, acts, s, j + 1, pid)
  {
    Moves(hs, acts, j, pid);
    var at, at' := hs[j].procs[pid].issue, hs[j + 1].procs[pid].issue;
    match at
    case IClock => assert SetsExpiryAt(hs, acts, j, pid, at'.expires);
    case IInsert(code, expires) =>
      if at'.ok {
        var a :| s < a < j && SetsExpiryAt(hs, acts, a, pid, expires);
        assert SetsExpiryAt(hs, acts, a, pid, Ticket(code, expires).expires);
        assert InsertsAt(hs, acts, j, pid, Ticket(code, expires));
      } else {
        assert InsertFailsAt(hs, acts, j, pid);
      }
    case IReturned(_) =>
  }

  lemma {:induction false} IssueReaches(hs: seq<Hub>, acts: seq<Action>, s: nat, j: nat, pid: nat)
    requires IsRun(hs, acts) && s < j < |hs| && acts[s] == Call(pid, Issuing(IClock))
    ensures IssueSoFar(hs, acts, s, j, pid)
  {
    if j == s + 1 {
      assert Next(hs[s], acts[s], hs[s + 1]);
    } else {
      var k := j - 1;
      IssueReaches(hs, acts, s, k, pid);
      if StepBy(acts, k, pid) {
        IssueMoves(hs, acts, s, k, pid);
      } else {
        Stands(hs, acts, k, pid);
      }
    }
  }

  /**
   An issuer that returns a token has inserted a ticket that expires the configured time,
   or ten minutes if none is configured, after the clock it had read; one that returns an
   error had its INSERT fail, or drew a code that was pending.
   */
  lemma IssueStory(hs: seq<Hub>, acts: seq<Action>, s: nat, j: nat, pid: nat, ok: bool)
    requires IsRun(hs, acts) && s < j < |hs| && acts[s] == Call(pid, Issuing(IClock))
    requires pid in hs[j].procs && hs[j].procs[pid] == Issuing(IReturned(ok))
    ensures ok ==> exists a, k, t: Ticket :: && s < a < k < j && SetsExpiryAt(hs, acts, a, pid, t.expires)
                                     && InsertsAt(hs, acts, k, pid, t)
    ensures !ok ==> exists k :: s < k < j && InsertFailsAt(hs, acts, k, pid)
  {
    IssueReaches(hs, acts, s, j, pid);
  }

  // ---- A Join ----

  ghost predicate ClaimFailsAt(hs: seq<Hub>, acts: seq<Action>, k: nat, pid: nat)
    requires |hs| == |acts| + 1
  {
    && StepBy(acts, k, pid) && acts[k].ch.fail
    && pid in hs[k].procs && hs[k].procs[pid].Joining? && hs[k].procs[pid].join.JClaim?
  }

  /** At step `k` the call fails that the process is to make at `at`. */
  ghost predicate FailsAt(hs: seq<Hub>, acts: seq<Action>, k: nat, pid: nat, at: JoinAt)
    requires |hs| == |acts| + 1
  {
    && StepBy(acts, k, pid) && acts[k].ch.fail
    && pid in hs[k].procs && hs[k].procs[pid].Joining? && hs[k].procs[pid].join == at
  }

  /** At step `k` the certificate is signed. */
  ghost predicate SignsAt(hs: seq<Hub>, acts: seq<Action>, k: nat, pid: nat)
    requires |hs| == |acts| + 1
  {
    && StepBy(acts, k, pid) && !acts[k].ch.fail
    && pid in hs[k].procs && hs[k].procs[pid].Joining? && hs[k].procs[pid].join == JSign
  }

  /** At step `k` the process finds the code pending, with this expiry. */
  ghost predicate FindsAt(hs: seq<Hub>, acts: seq<Action>, k: nat, pid: nat, code: Code, expires: int)
    requires |hs| == |acts| + 1
  {
    && StepBy(acts, k, pid) && code in hs[k].book.tokens.pending
    && hs[k].book.tokens.pending[code] < |hs[k].book.tokens.tickets|
    && hs[k].book.tokens.tickets[hs[k].book.tokens.pending[code]] == Ticket(code, expires)
  }

  ghost predicate Found(hs: seq<Hub>, acts: seq<Action>, s: nat, j: nat, pid: nat, code: Code, expires: int)
    requires |hs| == |acts| + 1
  {
    exists k :: s < k < j && FindsAt(hs, acts, k, pid, code, expires)
  }

  /** At step `k` the process has a clock reading by which its token cannot be claimed: not pending, or expired. */
  ghost predicate UnclaimableAt(hs: seq<Hub>, acts: seq<Action>, k: nat, pid: nat, code: Code)
    requires |hs| == |acts| + 1
  {
    && StepBy(acts, k, pid) && pid in hs[k].procs && hs[k].procs[pid].Joining? && hs[k].procs[pid].join.JClaim?
    && var t := hs[k].book.tokens;
       code in t.pending && t.pending[code] < |t.tickets| ==>
         t.tickets[t.pending[code]].expires <= hs[k].procs[pid].join.read
  }

  ghost predicate Unclaimable(hs: seq<Hub>, acts: seq<Action>, s: nat, j: nat, pid: nat, code: Code)
    requires |hs| == |acts| + 1
  {
    exists k :: s < k < j && UnclaimableAt(hs, acts, k, pid, code)
  }

  /** At step `k` the code is not pending: never issued, claimed or swept. */
  ghost predicate MissesAt(hs: seq<Hub>, acts: seq<Action>, k: nat, pid: nat, code: Code)
    requires |hs| == |acts| + 1
  {
    StepBy(acts, k, pid) && code !in hs[k].book.tokens.pending
  }

  /** At step `k` the clock is past the expiry of the ticket it has found, or not. */
  ghost predicate JudgesAt(hs: seq<Hub>, acts: seq<Action>, s: nat, k: nat, pid: nat, code: Code, late: bool)
    requires |hs| == |acts| + 1
  {
    && StepBy(acts, k, pid)
    && exists expires :: Found(hs, acts, s, k, pid, code, expires) && (late <==> hs[k].now > expires)
  }

  /** Step `k` takes the code out of the pending ones, and logs the process as its claimant. */
  ghost predicate ClaimsAt(hs: seq<Hub>, acts: seq<Action>, k: nat, pid: nat, code: Code)
    requires |hs| == |acts| + 1
  {
    && StepBy(acts, k, pid) && code in hs[k].book.tokens.pending
    && hs[k + 1].book.tokens.pending == hs[k].book.tokens.pending - {code}
    && |hs[k + 1].book.claims| == |hs[k].book.claims| + 1
    && hs[k + 1].book.claims[|hs[k].book.claims|].pid == pid
    && hs[k + 1].book.claims[|hs[k].book.claims|].ticket == hs[k].book.tokens.pending[code]
  }

  ghost predicate NicknameUsed(devices: Table, nickname: string) {
    exists d :: d in devices && devices[d].nickname == nickname
  }

  ghost predicate TakenAt(hs: seq<Hub>, acts: seq<Action>, k: nat, pid: nat, req: Request)
    requires |hs| == |acts| + 1
  {
    StepBy(acts, k, pid) && NicknameUsed(hs[k].devices, req.nickname)
  }

  /** The look-up of the nickname fails, or finds nobody. */
  ghost predicate SeemsFreeAt(hs: seq<Hub>, acts: seq<Action>, k: nat, pid: nat, req: Request)
    requires |hs| == |acts| + 1
  {
    && StepBy(acts, k, pid) && pid in hs[k].procs && hs[k].procs[pid].Joining? && hs[k].procs[pid].join == JNickname
    && (acts[k].ch.fail || !NicknameUsed(hs[k].devices, req.nickname))
  }

  ghost predicate SeemsFree(hs: seq<Hub>, acts: seq<Action>, s: nat, j: nat, pid: nat, req: Request)
    requires |hs| == |acts| + 1
  {
    exists k :: s < k < j && Claims(hs, acts, s, k, pid, req.token) && SeemsFreeAt(hs, acts, k, pid, req)
  }

  /** The INSERT fails, or finds the device or the nickname there. */
  ghost predicate RejectsRowAt(hs: seq<Hub>, acts: seq<Action>, k: nat, pid: nat, req: Request)
    requires |hs| == |acts| + 1
  {
    && StepBy(acts, k, pid)
    && (acts[k].ch.fail || req.device in hs[k].devices || NicknameUsed(hs[k].devices, req.nickname))
  }

  /** Step `k` inserts the device's row, as asked for. */
  ghost predicate CreatesAt(hs: seq<Hub>, acts: seq<Action>, k: nat, pid: nat, req: Request)
    requires |hs| == |acts| + 1
  {
    && StepBy(acts, k, pid) && req.device !in hs[k].devices && !NicknameUsed(hs[k].devices, req.nickname)
    && hs[k + 1].devices == hs[k].devices[req.device := Row(req.nickname, req.ip, 0, Registered, hs[k].now)]
  }

  ghost predicate Claims(hs: seq<Hub>, acts: seq<Action>, s: nat, j: nat, pid: nat, code: Code)
    requires |hs| == |acts| + 1
  {
    exists k :: s < k < j && ClaimsAt(hs, acts, k, pid, code)
  }

  ghost predicate Creates(hs: seq<Hub>, acts: seq<Action>, s: nat, j: nat, pid: nat, req: Request)
    requires |hs| == |acts| + 1
  {
    exists m :: s < m < j && SeemsFree(hs, acts, s, m, pid, req) && CreatesAt(hs, acts, m, pid, req)
  }

  /** The reason for each result of a Join. */
  ghost predicate Explained(hs: seq<Hub>, acts: seq<Action>, s: nat, j: nat, pid: nat, req: Request, r: Result)
    requires |hs| == |acts| + 1
  {
    match r
    case InvalidToken =>
      || req.token == ""
      || (&& Unclaimable(hs, acts, s, j, pid, req.token)
          && (|| (exists k :: s < k < j && FailsAt(hs, acts, k, pid, JDiagnose))
              || (exists k :: s < k < j && MissesAt(hs, acts, k, pid, req.token))
              || (exists k :: s < k < j && JudgesAt(hs, acts, s, k, pid, req.token, false))))
    case TokenExpired =>
      && Unclaimable(hs, acts, s, j, pid, req.token)
      && exists k :: s < k < j && JudgesAt(hs, acts, s, k, pid, req.token, true)
    case ClaimFailed => exists k :: s < k < j && ClaimFailsAt(hs, acts, k, pid)
    case NicknameTaken =>
      Claims(hs, acts, s, j, pid, req.token) && exists k :: s < k < j && TakenAt(hs, acts, k, pid, req)
    case CreateFailed =>
      exists k :: s < k < j && SeemsFree(hs, acts, s, k, pid, req) && RejectsRowAt(hs, acts, k, pid, req)
    case SignFailed => Creates(hs, acts, s, j, pid, req) && exists k :: s < k < j && FailsAt(hs, acts, k, pid, JSign)
    case Joined => Creates(hs, acts, s, j, pid, req) && exists k :: s < k < j && SignsAt(hs, acts, k, pid)
  }

  ghost predicate JoinSoFar(hs: seq<Hub>, acts: seq<Action>, s: nat, j: nat, pid: nat, req: Request)
    requires |hs| == |acts| + 1 && j < |hs|
  {
    && pid in hs[j].procs && hs[j].procs[pid].Joining? && hs[j].procs[pid].req == req
    && match hs[j].procs[pid].join
       case JEnter => true
       case JClaim(_) => true
       case JDiagnose => Unclaimable(hs, acts, s, j, pid, req.token)
       case JJudge(expires) =>
         Unclaimable(hs, acts, s, j, pid, req.token) && Found(hs, acts, s, j, pid, req.token, expires)
       case JNickname => Claims(hs, acts, s, j, pid, req.token)
       case JCreate => SeemsFree(hs, acts, s, j, pid, req)
       case JSign => Creates(hs, acts, s, j, pid, req)
       case JReturned(r) => Explained(hs, acts, s, j, pid, req, r)
  }

  lemma JoinClaims(hs: seq<Hub>, acts: seq<Action>, s: nat, j: nat, pid: nat, req: Request)
    requires IsRun(hs, acts) && s < j < |acts| && JoinSoFar(hs, acts, s, j, pid, req) && StepBy(acts, j, pid)
    requires hs[j].procs[pid].join.JClaim? || hs[j].procs[pid].join == JEnter
    ensures JoinSoFar(hs, acts, s, j + 1, pid, req)
  {
    Moves(hs, acts, j, pid);
    if hs[j + 1].procs[pid].join == JReturned(ClaimFailed) {
      assert ClaimFailsAt(hs, acts, j, pid);
    } else if hs[j + 1].procs[pid].join == JNickname {
      assert ClaimsAt(hs, acts, j, pid, req.token);
    } else if hs[j + 1].procs[pid].join == JDiagnose {
      assert UnclaimableAt(hs, acts, j, pid, req.token);
    }
  }

  lemma JoinDiagnoses(hs: seq<Hub>, acts: seq<Action>, s: nat, j: nat, pid: nat, req: Request)
    requires IsRun(hs, acts) && s < j < |acts| && JoinSoFar(hs, acts, s, j, pid, req) && StepBy(acts, j, pid)
    requires hs[j].procs[pid].join == JDiagnose || hs[j].procs[pid].join.JJudge?
    ensures JoinSoFar(hs, acts, s, j + 1, pid, req)
  {
    Moves(hs, acts, j, pid);
    var at, at' := hs[j].procs[pid].join, hs[j + 1].procs[pid].join;
    if at.JJudge? {
      assert JudgesAt(hs, acts, s, j, pid, req.token, hs[j].now > at.expires);
    } else if at'.JJudge? {
      assert FindsAt(hs, acts, j, pid, req.token, at'.expires);
    } else {
      assert FailsAt(hs, acts, j, pid, JDiagnose) || MissesAt(hs, acts, j, pid, req.token);
    }
  }

  lemma JoinCreates(hs: seq<Hub>, acts: seq<Action>, s: nat, j: nat, pid: nat, req: Request)
    requires IsRun(hs, acts) && s < j < |acts| && JoinSoFar(hs, acts, s, j, pid, req) && StepBy(acts, j, pid)
    requires var at := hs[j].procs[pid].join; at == JNickname || at == JCreate || at == JSign || at.JReturned?
    ensures JoinSoFar(hs, acts, s, j + 1, pid, req)
  {
    Moves(hs, acts, j, pid);
    var at, at' := hs[j].procs[pid].join, hs[j + 1].procs[pid].join;
    if at == JSign {
      assert if acts[j].ch.fail then FailsAt(hs, acts, j, pid, JSign) else SignsAt(hs, acts, j, pid);
    } else if at == JCreate && at' == JSign {
      assert CreatesAt(hs, acts, j, pid, req);
    } else if at == JCreate {
      assert RejectsRowAt(hs, acts, j, pid, req);
    } else if at == JNickname {
      assert if at' == JCreate then SeemsFreeAt(hs, acts, j, pid, req) else TakenAt(hs, acts, j, pid, req);
    }
  }

  lemma {:induction false} JoinReaches(hs: seq<Hub>, acts: seq<Action>, s: nat, j: nat, pid: nat, req: Request)
    requires IsRun(hs, acts) && s < j < |hs| && acts[s] == Call(pid, Joining(req, JEnter))
    ensures JoinSoFar(hs, acts, s, j, pid, req)
  {
    if j == s + 1 {
      assert Next(hs[s], acts[s], hs[s + 1]);
    } else {
      var k := j - 1;
      JoinReaches(hs, acts, s, k, pid, req);
      if StepBy(acts, k, pid) {
        var at := hs[k].procs[pid].join;
        if at == JEnter || at.JClaim? {
          JoinClaims(hs, acts, s, k, pid, req);
        } else if at == JDiagnose || at.JJudge? {
          JoinDiagnoses(hs, acts, s, k, pid, req);
        } else {
          JoinCreates(hs, acts, s, k, pid, req);
        }
      } else {
        Stands(hs, acts, k, pid);
      }
    }
  }

  /**
   Every result of a Join has its reason. It joined: it claimed its token, found the nickname
   free, then inserted the row it was asked for, and the certificate was signed. The
   nickname is taken, or the row cannot be created: it claimed its token, and found it so.
   A token is refused only if by the Join's clock it could not be claimed: as expired if it
   then was found past its expiry, and as invalid if it was found pending and not past it, or
   not found. Everything else is a failure.
   */
  lemma JoinStory(hs: seq<Hub>, acts: seq<Action>, s: nat, j: nat, pid: nat, req: Request)
    requires IsRun(hs, acts) && s < j < |hs| && acts[s] == Call(pid, Joining(req, JEnter))
    requires pid in hs[j].procs && hs[j].procs[pid].Joining? && hs[j].procs[pid].join.JReturned?
    ensures Explained(hs, acts, s, j, pid, req, hs[j].procs[pid].join.result)
  {
    JoinReaches(hs, acts, s, j, pid, req);
  }
  // ---- A sweep ----

  /** Step `k` deletes exactly the tokens that had expired before `read`, or fails and changes nothing. */
  ghost predicate SweepsAt(hs: seq<Hub>, acts: seq<Action>, k: nat, pid: nat, read: int)
    requires |hs| == |acts| + 1
  {
    && StepBy(acts, k, pid)
    && var t, t' := hs[k].book.tokens, hs[k + 1].book.tokens;
       && t'.tickets == t.tickets
       && forall code :: code in t'.pending <==>
            code in t.pending && t.pending[code] < |t.tickets|
            && (acts[k].ch.fail || read <= t.tickets[t.pending[code]].expires)
  }

  ghost predicate SweepSoFar(hs: seq<Hub>, acts: seq<Action>, s: nat, j: nat, pid: nat)
    requires |hs| == |acts| + 1 && j < |hs|
  {
    && pid in hs[j].procs && hs[j].procs[pid].Sweeping?
    && match hs[j].procs[pid].sweep
       case SClock => true
       case SDelete(read) => exists a :: s < a < j && StepBy(acts, a, pid) && hs[a].now == read
       case SReturned =>
         exists a, k :: s < a < k < j && StepBy(acts, a, pid) && SweepsAt(hs, acts, k, pid, hs[a].now)
  }

  /** A sweep that has returned has deleted what had expired by the clock it had read, unless its DELETE failed. */
  lemma {:induction false} SweepStory(hs: seq<Hub>, acts: seq<Action>, s: nat, j: nat, pid: nat)
    requires IsRun(hs, acts) && s < j < |hs| && acts[s] == Call(pid, Sweeping(SClock))
    ensures SweepSoFar(hs, acts, s, j, pid)
  {
    if j == s + 1 {
      assert Next(hs[s], acts[s], hs[s + 1]);
    } else {
      var k := j - 1;
      SweepStory(hs, acts, s, k, pid);
      if StepBy(acts, k, pid) {
        Moves(hs, acts, k, pid);
        match hs[k].procs[pid].sweep
        case SClock =>
        case SDelete(read) =>
          var a :| s < a < k && StepBy(acts, a, pid) && hs[a].now == read;
          assert SweepsAt(hs, acts, k, pid, hs[a].now);
        case SReturned =>
      } else {
        Stands(hs, acts, k, pid);
      }
    }
  }
  // ---- Nothing runs forever ----

  function StepsLeft(pc: Pc): nat {
    match pc
    case Issuing(at) => (match at case IClock => 2 case IInsert(_, _) => 1 case IReturned(_) => 0)
    case Sweeping(at) => (match at case SClock => 2 case SDelete(_) => 1 case SReturned => 0)
    case Joining(_, at) =>
      match at
      case JEnter => 5
      case JClaim(_) => 4
      case JDiagnose => 2
      case JJudge(_) => 1
      case JNickname => 3
      case JCreate => 2
      case JSign => 1
      case JReturned(_) => 0
  }

  /** Every step of a call that has not returned brings it closer to its return; five are enough for a Join. */
  lemma EveryStepGetsCloser(h: Hub, pid: nat, pc: Pc, ch: Choice)
    requires TicketsOk(h.book.tokens) && StepsLeft(pc) > 0
    ensures StepsLeft(Exec(h, pid, pc, ch).0) < StepsLeft(pc) <= 5
    ensures pc.Issuing? <==> Exec(h, pid, pc, ch).0.Issuing?
    ensures pc.Joining? <==> Exec(h, pid, pc, ch).0.Joining?
  {
  }
}
