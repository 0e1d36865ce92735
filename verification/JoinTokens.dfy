/**
 Join tokens (internal/hub/join_token.go, Registry.Join in internal/hub/registry.go and the
 token statements of internal/hub/store/sqlite.go): any number of issuers, joiners and
 expiry sweeps, interleaved at SQL statements and clock readings. Every issued row is a
 numbered ticket, so a code that is drawn a second time is another ticket.
 */
module JoinTokens {
  import opened DeviceTable

  type Code = string

  const DEFAULT_TTL: int := 600000

  function Ttl(configured: int): int {
    if configured == 0 then DEFAULT_TTL else configured
  }

  datatype Ticket = Ticket(code: Code, expires: int)

  /** pending_join_tokens, by primary key, and every row ever inserted into it. */
  datatype Tokens = Tokens(pending: map<Code, nat>, tickets: seq<Ticket>)

  // ---- Statements ----

  predicate Issuable(t: Tokens, code: Code) {
    code !in t.pending
  }

  function Issued(t: Tokens, code: Code, expires: int): Tokens {
    if Issuable(t, code) then Tokens(t.pending[code := |t.tickets|], t.tickets + [Ticket(code, expires)]) else t
  }

  predicate TicketsOk(t: Tokens) {
    forall code | code in t.pending :: t.pending[code] < |t.tickets| && t.tickets[t.pending[code]].code == code
  }

  function Expiry(t: Tokens, code: Code): int
    requires TicketsOk(t) && code in t.pending
  {
    t.tickets[t.pending[code]].expires
  }

  predicate Claimable(t: Tokens, code: Code, now: int)
    requires TicketsOk(t)
  {
    code in t.pending && Expiry(t, code) > now
  }

  function Claimed(t: Tokens, code: Code, now: int): Tokens
    requires TicketsOk(t)
  {
    if Claimable(t, code, now) then t.(pending := t.pending - {code}) else t
  }

  function ExpiredCodes(t: Tokens, now: int): set<Code>
    requires TicketsOk(t)
  {
    set code | code in t.pending && Expiry(t, code) < now
  }

  function Swept(t: Tokens, now: int): Tokens
    requires TicketsOk(t)
  {
    t.(pending := t.pending - ExpiredCodes(t, now))
  }

  predicate Pending(t: Tokens, id: nat)
    requires id < |t.tickets|
  {
    t.tickets[id].code in t.pending && t.pending[t.tickets[id].code] == id
  }

  // ---- The machine ----

  datatype Request = Request(device: Device, nickname: string, ip: string, token: Code)

  datatype Result = InvalidToken | TokenExpired | ClaimFailed | NicknameTaken | CreateFailed | SignFailed | Joined

  datatype IssueAt = IClock | IInsert(code: Code, expires: int) | IReturned(ok: bool)

  datatype JoinAt =
    | JEnter
    | JClaim(read: int)
    | JDiagnose
    | JJudge(expires: int)
    | JNickname
    | JCreate
    | JSign
    | JReturned(result: Result)

  datatype SweepAt = SClock | SDelete(read: int) | SReturned

  datatype Pc = Issuing(issue: IssueAt) | Joining(req: Request, join: JoinAt) | Sweeping(sweep: SweepAt)

  /** `pid` deleted the ticket's row when the clock stood at `at`, judging by the clock it had read before. */
  datatype Claim = Claim(pid: nat, ticket: nat, read: int, at: int)

  /** The token table with its history: the claims, and which ticket was swept by which clock. */
  datatype Book = Book(tokens: Tokens, claims: seq<Claim>, swept: map<nat, int>)

  /** `creators`: the processes that inserted a device row. */
  datatype Hub = Hub(now: int, ttl: int, book: Book, devices: Table, procs: map<nat, Pc>, creators: seq<nat>)

  /** The environment: the code drawn, and whether the statement or call fails. */
  datatype Choice = Choice(code: Code, fail: bool)

  datatype Action =
    | Tick(to: int)
    | OthersWrite(devices: Table)
    | Call(pid: nat, pc: Pc)
    | Step(pid: nat, ch: Choice)

  function BookIssued(b: Book, code: Code, expires: int): Book {
    b.(tokens := Issued(b.tokens, code, expires))
  }

  function BookClaimed(b: Book, pid: nat, code: Code, read: int, at: int): Book
    requires TicketsOk(b.tokens) && Claimable(b.tokens, code, read)
  {
    Book(Claimed(b.tokens, code, read), b.claims + [Claim(pid, b.tokens.pending[code], read, at)], b.swept)
  }

  function BookSwept(b: Book, read: int): Book
    requires TicketsOk(b.tokens)
  {
    Book(Swept(b.tokens, read), b.claims, b.swept + SweepMarks(b.tokens, read))
  }

  function SweepIds(t: Tokens, read: int): set<nat>
    requires TicketsOk(t)
  {
    set code | code in ExpiredCodes(t, read) :: t.pending[code]
  }

  function SweepMarks(t: Tokens, read: int): map<nat, int>
    requires TicketsOk(t)
  {
    map id | id in SweepIds(t, read) :: read
  }

  function ExecIssue(h: Hub, at: IssueAt, ch: Choice): (IssueAt, Hub) {
    match at
    case IClock => (IInsert(ch.code, h.now + Ttl(h.ttl)), h)
    case IInsert(code, expires) =>
      if ch.fail || !Issuable(h.book.tokens, code) then (IReturned(false), h)
      else (IReturned(true), h.(book := BookIssued(h.book, code, expires)))
    case IReturned(_) => (at, h)
  }

  function ExecJoin(h: Hub, pid: nat, req: Request, at: JoinAt, ch: Choice): (JoinAt, Hub)
    requires TicketsOk(h.book.tokens)
  {
    match at
    case JEnter => (if req.token == "" then JReturned(InvalidToken) else JClaim(h.now), h)
    case JClaim(read) =>
      if ch.fail then (JReturned(ClaimFailed), h)
      else if Claimable(h.book.tokens, req.token, read) then
        (JNickname, h.(book := BookClaimed(h.book, pid, req.token, read, h.now)))
      else (JDiagnose, h)
    case JDiagnose =>
      (if ch.fail || req.token !in h.book.tokens.pending then JReturned(InvalidToken)
       else JJudge(Expiry(h.book.tokens, req.token)), h)
    case JJudge(expires) => (JReturned(if h.now > expires then TokenExpired else InvalidToken), h)
    case JNickname =>
      (if !ch.fail && exists d | d in h.devices :: h.devices[d].nickname == req.nickname then JReturned(NicknameTaken)
       else JCreate, h)
    case JCreate =>
      if ch.fail || !Insertable(h.devices, req.device, req.nickname) then (JReturned(CreateFailed), h)
      else (JSign, h.(devices := Insert(h.devices, req.device, Row(req.nickname, req.ip, 0, Registered, h.now)),
                      creators := h.creators + [pid]))
    case JSign => (JReturned(if ch.fail then SignFailed else Joined), h)
    case JReturned(_) => (at, h)
  }

  function ExecSweep(h: Hub, at: SweepAt, ch: Choice): (SweepAt, Hub)
    requires TicketsOk(h.book.tokens)
  {
    match at
    case SClock => (SDelete(h.now), h)
    case SDelete(read) =>
      (SReturned, if ch.fail then h else h.(book := BookSwept(h.book, read)))
    case SReturned => (at, h)
  }

  function Exec(h: Hub, pid: nat, pc: Pc, ch: Choice): (Pc, Hub)
    requires TicketsOk(h.book.tokens)
  {
    match pc
    case Issuing(at) => var (at', h') := ExecIssue(h, at, ch); (Issuing(at'), h')
    case Joining(req, at) => var (at', h') := ExecJoin(h, pid, req, at, ch); (Joining(req, at'), h')
    case Sweeping(at) => var (at', h') := ExecSweep(h, at, ch); (Sweeping(at'), h')
  }

  predicate Fresh(pc: Pc) {
    match pc
    case Issuing(at) => at == IClock
    case Joining(_, at) => at == JEnter
    case Sweeping(at) => at == SClock
  }

  predicate Enabled(h: Hub, a: Action) {
    match a
    case Tick(to) => to >= h.now
    case OthersWrite(_) => true
    case Call(pid, pc) => pid !in h.procs && Fresh(pc)
    case Step(pid, _) => pid in h.procs
  }

  function Apply(h: Hub, a: Action): Hub
    requires TicketsOk(h.book.tokens) && Enabled(h, a)
  {
    match a
    case Tick(to) => h.(now := to)
    case OthersWrite(devices) => h.(devices := devices)
    case Call(pid, pc) => h.(procs := h.procs[pid := pc])
    case Step(pid, ch) =>
      var (pc, h') := Exec(h, pid, h.procs[pid], ch);
      h'.(procs := h'.procs[pid := pc])
  }

  ghost predicate Next(h: Hub, a: Action, h': Hub) {
    TicketsOk(h.book.tokens) && Enabled(h, a) && h' == Apply(h, a)
  }

  ghost predicate Init(h: Hub) {
    && h.book.tokens == Tokens(map[], []) && h.procs == map[]
    && h.book.claims == [] && h.creators == [] && h.book.swept == map[]
  }

  ghost predicate IsRun(hs: seq<Hub>, acts: seq<Action>) {
    && |hs| == |acts| + 1 && Init(hs[0])
    && forall i {:trigger acts[i]} | 0 <= i < |acts| :: Next(hs[i], acts[i], hs[i + 1])
  }

  // ---- The token ledger ----

  ghost predicate Burnt(claims: seq<Claim>, id: nat) {
    exists i :: 0 <= i < |claims| && claims[i].ticket == id
  }

  /** Exactly one of pending, claimed and swept. */
  ghost predicate Placed(b: Book, id: nat)
    requires id < |b.tokens.tickets|
  {
    && (Pending(b.tokens, id) || Burnt(b.claims, id) || id in b.swept)
    && !(Pending(b.tokens, id) && Burnt(b.claims, id))
    && !(Pending(b.tokens, id) && id in b.swept)
    && !(Burnt(b.claims, id) && id in b.swept)
  }

  ghost predicate AllPlaced(b: Book) {
    forall id | 0 <= id < |b.tokens.tickets| :: Placed(b, id)
  }

  ghost predicate ClaimsOk(b: Book) {
    && (forall i | 0 <= i < |b.claims| ::
          b.claims[i].ticket < |b.tokens.tickets| && b.claims[i].read < b.tokens.tickets[b.claims[i].ticket].expires)
    && (forall i, j | 0 <= i < j < |b.claims| :: b.claims[i].ticket != b.claims[j].ticket)
    && (forall id | id in b.swept :: id < |b.tokens.tickets| && b.tokens.tickets[id].expires < b.swept[id])
  }

  predicate Balanced(b: Book) {
    |b.tokens.tickets| == |b.tokens.pending| + |b.claims| + |b.swept|
  }

  ghost predicate Ledger(b: Book) {
    TicketsOk(b.tokens) && ClaimsOk(b) && AllPlaced(b) && Balanced(b)
  }

  lemma IssueKeepsLedger(b: Book, code: Code, expires: int)
    requires Ledger(b) && Issuable(b.tokens, code)
    ensures Ledger(BookIssued(b, code, expires))
  {
    var b' := BookIssued(b, code, expires);
    forall id | 0 <= id < |b'.tokens.tickets| ensures Placed(b', id) {
      assert id < |b.tokens.tickets| ==> Placed(b, id);
    }
  }

  lemma BurntAppend(claims: seq<Claim>, c: Claim, id: nat)
    ensures Burnt(claims + [c], id) <==> Burnt(claims, id) || id == c.ticket
  {
    var claims' := claims + [c];
    assert claims'[|claims|] == c;
    if Burnt(claims, id) {
      var i :| 0 <= i < |claims| && claims[i].ticket == id;
      assert claims'[i].ticket == id;
    }
  }

  lemma ClaimPlaces(b: Book, pid: nat, code: Code, read: int, at: int)
    requires Ledger(b) && Claimable(b.tokens, code, read)
    ensures AllPlaced(BookClaimed(b, pid, code, read, at))
  {
    var b' := BookClaimed(b, pid, code, read, at);
    forall id | 0 <= id < |b'.tokens.tickets| ensures Placed(b', id) {
      assert Placed(b, id);
      BurntAppend(b.claims, b'.claims[|b.claims|], id);
    }
  }

  lemma ClaimBalances(b: Book, pid: nat, code: Code, read: int, at: int)
    requires Balanced(b) && TicketsOk(b.tokens) && Claimable(b.tokens, code, read)
    ensures Balanced(BookClaimed(b, pid, code, read, at))
  {
    var after := BookClaimed(b, pid, code, read, at).tokens.pending;
    assert b.tokens.pending == after[code := b.tokens.pending[code]];
  }

  lemma ClaimKeepsLedger(b: Book, pid: nat, code: Code, read: int, at: int)
    requires Ledger(b) && Claimable(b.tokens, code, read)
    ensures Ledger(BookClaimed(b, pid, code, read, at))
  {
    ClaimPlaces(b, pid, code, read, at);
    ClaimBalances(b, pid, code, read, at);
    assert Placed(b, b.tokens.pending[code]);
    assert ClaimsOk(BookClaimed(b, pid, code, read, at));
  }

  lemma {:induction false} ImageSize(m: map<Code, nat>, ks: set<Code>)
    requires ks <= m.Keys && forall a, b | a in ks && b in ks && m[a] == m[b] :: a == b
    ensures |set k | k in ks :: m[k]| == |ks|
  {
    if ks == {} {
      assert (set k | k in ks :: m[k]) == {};
    } else {
      var k0 :| k0 in ks;
      ImageSize(m, ks - {k0});
      assert (set k | k in ks :: m[k]) == (set k | k in ks - {k0} :: m[k]) + {m[k0]};
    }
  }

  lemma SweepBalances(b: Book, read: int)
    requires Ledger(b)
    ensures Balanced(BookSwept(b, read))
  {
    var codes, ids, marks := ExpiredCodes(b.tokens, read), SweepIds(b.tokens, read), SweepMarks(b.tokens, read);
    ImageSize(b.tokens.pending, codes);
    assert marks.Keys == ids;
    assert ids !! b.swept.Keys by {
      forall code | code in codes ensures b.tokens.pending[code] !in b.swept {
        assert Placed(b, b.tokens.pending[code]);
      }
    }
    assert (b.swept + marks).Keys == b.swept.Keys + ids;
    assert Swept(b.tokens, read).pending.Keys == b.tokens.pending.Keys - codes;
  }

  lemma SweptIs(t: Tokens, read: int, id: nat)
    requires TicketsOk(t) && id < |t.tickets|
    ensures id in SweepIds(t, read) <==> Pending(t, id) && t.tickets[id].expires < read
    ensures Pending(Swept(t, read), id) <==> Pending(t, id) && id !in SweepIds(t, read)
  {
  }

  lemma SweepPlaces(b: Book, read: int)
    requires Ledger(b)
    ensures AllPlaced(BookSwept(b, read))
  {
    var b' := BookSwept(b, read);
    forall id | 0 <= id < |b'.tokens.tickets| ensures Placed(b', id) {
      assert Placed(b, id);
      SweptIs(b.tokens, read, id);
    }
  }

  lemma SweepKeepsLedger(b: Book, read: int)
    requires Ledger(b)
    ensures Ledger(BookSwept(b, read))
  {
    SweepBalances(b, read);
    SweepPlaces(b, read);
    assert ClaimsOk(BookSwept(b, read)) by {
      forall id | id in SweepIds(b.tokens, read)
        ensures id < |b.tokens.tickets| && b.tokens.tickets[id].expires < read {
      }
    }
  }

  lemma JoinKeepsLedger(h: Hub, pid: nat, req: Request, at: JoinAt, ch: Choice)
    requires Ledger(h.book)
    ensures Ledger(ExecJoin(h, pid, req, at, ch).1.book)
  {
    if at.JClaim? && Claimable(h.book.tokens, req.token, at.read) {
      ClaimKeepsLedger(h.book, pid, req.token, at.read, h.now);
    }
  }

  lemma IssuerKeepsLedger(h: Hub, at: IssueAt, ch: Choice)
    requires Ledger(h.book)
    ensures Ledger(ExecIssue(h, at, ch).1.book)
  {
    if at.IInsert? && Issuable(h.book.tokens, at.code) {
      IssueKeepsLedger(h.book, at.code, at.expires);
    }
  }

  lemma SweeperKeepsLedger(h: Hub, at: SweepAt, ch: Choice)
    requires Ledger(h.book)
    ensures Ledger(ExecSweep(h, at, ch).1.book)
  {
    if at.SDelete? {
      SweepKeepsLedger(h.book, at.read);
    }
  }

  lemma ExecKeepsLedger(h: Hub, pid: nat, pc: Pc, ch: Choice)
    requires Ledger(h.book)
    ensures Ledger(Exec(h, pid, pc, ch).1.book)
  {
    match pc
    case Issuing(at) => IssuerKeepsLedger(h, at, ch);
    case Joining(req, at) => JoinKeepsLedger(h, pid, req, at, ch);
    case Sweeping(at) => SweeperKeepsLedger(h, at, ch);
  }

  // ---- Who claimed and who created ----

  /** Past the claim: the token is burnt, whatever becomes of the Join. */
  predicate HasClaimed(pc: Pc) {
    && pc.Joining?
    && match pc.join
       case JNickname => true
       case JCreate => true
       case JSign => true
       case JReturned(r) => r == NicknameTaken || r == CreateFailed || r == SignFailed || r == Joined
       case _ => false
  }

  predicate HasCreated(pc: Pc) {
    && pc.Joining?
    && match pc.join
       case JSign => true
       case JReturned(r) => r == SignFailed || r == Joined
       case _ => false
  }

  function Claimants(claims: seq<Claim>): seq<nat> {
    seq(|claims|, i requires 0 <= i < |claims| => claims[i].pid)
  }

  ghost predicate NoRepeats(s: seq<nat>) {
    forall i, j | 0 <= i < j < |s| :: s[i] != s[j]
  }

  /** The log names exactly the processes that are past the logged step. */
  ghost predicate Logs(log: seq<nat>, procs: map<nat, Pc>, past: Pc -> bool) {
    NoRepeats(log) && forall p :: p in log <==> p in procs && past(procs[p])
  }

  ghost predicate PeopleOk(h: Hub) {
    Logs(Claimants(h.book.claims), h.procs, HasClaimed) && Logs(h.creators, h.procs, HasCreated)
  }

  /** One process moves; it is appended to the log exactly when it passes the logged step. */
  lemma LogsStep(log: seq<nat>, procs: map<nat, Pc>, past: Pc -> bool, pid: nat, pc: Pc, log': seq<nat>)
    requires Logs(log, procs, past) && (pid in procs && past(procs[pid]) ==> past(pc))
    requires log' == if past(pc) && !(pid in procs && past(procs[pid])) then log + [pid] else log
    ensures Logs(log', procs[pid := pc], past)
  {
  }

  lemma ExecLogs(h: Hub, pid: nat, pc: Pc, ch: Choice)
    requires TicketsOk(h.book.tokens)
    ensures var (pc', h') := Exec(h, pid, pc, ch);
            && h'.procs == h.procs
            && (HasClaimed(pc) ==> HasClaimed(pc')) && (HasCreated(pc) ==> HasCreated(pc'))
            && Claimants(h'.book.claims) ==
                 Claimants(h.book.claims) + (if HasClaimed(pc') && !HasClaimed(pc) then [pid] else [])
            && h'.creators == (if HasCreated(pc') && !HasCreated(pc) then h.creators + [pid] else h.creators)
  {
  }

  lemma StepKeepsPeople(h: Hub, a: Action)
    requires TicketsOk(h.book.tokens) && PeopleOk(h) && Enabled(h, a)
    ensures PeopleOk(Apply(h, a))
  {
    match a
    case Call(pid, pc) =>
      LogsStep(Claimants(h.book.claims), h.procs, HasClaimed, pid, pc, Claimants(h.book.claims));
      LogsStep(h.creators, h.procs, HasCreated, pid, pc, h.creators);
    case Step(pid, ch) =>
      ExecLogs(h, pid, h.procs[pid], ch);
      var (pc, h') := Exec(h, pid, h.procs[pid], ch);
      LogsStep(Claimants(h.book.claims), h.procs, HasClaimed, pid, pc, Claimants(h'.book.claims));
      LogsStep(h.creators, h.procs, HasCreated, pid, pc, h'.creators);
    case _ =>
  }

  ghost predicate Inv(h: Hub) {
    Ledger(h.book) && PeopleOk(h)
  }

  lemma StepKeepsInv(h: Hub, a: Action)
    requires Inv(h) && Enabled(h, a)
    ensures Inv(Apply(h, a))
  {
    StepKeepsPeople(h, a);
    if a.Step? {
      ExecKeepsLedger(h, a.pid, h.procs[a.pid], a.ch);
    }
  }

  lemma StartsInv(h: Hub)
    requires Init(h)
    ensures Inv(h)
  {
  }

  lemma NextKeepsInv(h: Hub, a: Action, h': Hub)
    requires Inv(h) && Next(h, a, h')
    ensures Inv(h')
  {
    StepKeepsInv(h, a);
  }

  lemma {:induction false} RunsKeepInv(hs: seq<Hub>, acts: seq<Action>, i: nat)
    requires IsRun(hs, acts) && i < |hs|
    ensures Inv(hs[i])
  {
    if i == 0 {
      StartsInv(hs[0]);
    } else {
      RunsKeepInv(hs, acts, i - 1);
      assert Next(hs[i - 1], acts[i - 1], hs[i]);
      NextKeepsInv(hs[i - 1], acts[i - 1], hs[i]);
    }
  }

  // ---- Theorems ----

  /**
   Issued tokens are pending, claimed or swept, and never two of these: both token by
   token and in number, under any number of concurrent Joins and sweeps.
   */
  lemma TokensAreConserved(hs: seq<Hub>, acts: seq<Action>, i: nat)
    requires IsRun(hs, acts) && i < |hs|
    ensures forall id | 0 <= id < |hs[i].book.tokens.tickets| :: Placed(hs[i].book, id)
    ensures |hs[i].book.tokens.tickets| == |hs[i].book.tokens.pending| + |hs[i].book.claims| + |hs[i].book.swept|
  {
    RunsKeepInv(hs, acts, i);
  }

  /** No token is claimed twice, none by a clock at or past its expiry, and no Join claims two. */
  lemma ClaimedOnceBeforeExpiry(hs: seq<Hub>, acts: seq<Action>, i: nat, m: nat, n: nat)
    requires IsRun(hs, acts) && i < |hs| && m < |hs[i].book.claims| && n < |hs[i].book.claims|
    ensures hs[i].book.claims[m].ticket < |hs[i].book.tokens.tickets|
    ensures hs[i].book.claims[m].read < hs[i].book.tokens.tickets[hs[i].book.claims[m].ticket].expires
    ensures hs[i].book.claims[m].ticket == hs[i].book.claims[n].ticket <==> m == n
    ensures hs[i].book.claims[m].pid == hs[i].book.claims[n].pid <==> m == n
  {
    RunsKeepInv(hs, acts, i);
    assert Claimants(hs[i].book.claims)[m] == hs[i].book.claims[m].pid;
    assert Claimants(hs[i].book.claims)[n] == hs[i].book.claims[n].pid;
  }

  lemma {:induction false} ClockGrows(hs: seq<Hub>, acts: seq<Action>, i: nat, j: nat)
    requires IsRun(hs, acts) && i <= j < |hs|
    ensures hs[i].now <= hs[j].now
  {
    if i < j {
      ClockGrows(hs, acts, i, j - 1);
      ClockStep(hs, acts, j);
    }
  }

  lemma ClockStep(hs: seq<Hub>, acts: seq<Action>, j: nat)
    requires IsRun(hs, acts) && 0 < j < |hs|
    ensures hs[j - 1].now <= hs[j].now
  {
    assert Next(hs[j - 1], acts[j - 1], hs[j]);
  }

  /** At step `e` the Join `pid` reads the clock it will judge its token by. */
  ghost predicate ReadsClock(hs: seq<Hub>, acts: seq<Action>, e: nat, pid: nat, read: int)
    requires |hs| == |acts| + 1
  {
    && e < |acts| && acts[e].Step? && acts[e].pid == pid && pid in hs[e].procs && hs[e].now == read
    && hs[e].procs[pid].Joining? && hs[e].procs[pid].join == JEnter
  }

  /** At step `x` it deletes the row. */
  ghost predicate Deletes(hs: seq<Hub>, acts: seq<Action>, x: nat, c: Claim)
    requires |hs| == |acts| + 1
  {
    && x < |acts| && acts[x].Step? && acts[x].pid == c.pid && c.pid in hs[x].procs && hs[x].now == c.at
    && hs[x].procs[c.pid].Joining? && hs[x].procs[c.pid].join == JClaim(c.read)
    && hs[x + 1].book.claims == hs[x].book.claims + [c]
  }

  lemma {:induction false} ReadWhen(hs: seq<Hub>, acts: seq<Action>, i: nat, pid: nat) returns (e: nat)
    requires IsRun(hs, acts) && i < |hs| && pid in hs[i].procs
    requires hs[i].procs[pid].Joining? && hs[i].procs[pid].join.JClaim?
    ensures e < i && ReadsClock(hs, acts, e, pid, hs[i].procs[pid].join.read)
  {
    if i == 0 {
      assert false;
    }
    assert Next(hs[i - 1], acts[i - 1], hs[i]);
    if acts[i - 1].Step? && acts[i - 1].pid == pid {
      e := i - 1;
    } else {
      e := ReadWhen(hs, acts, i - 1, pid);
    }
  }

  lemma StepClaims(h: Hub, a: Action)
    requires TicketsOk(h.book.tokens) && Enabled(h, a) && Apply(h, a).book.claims != h.book.claims
    ensures a.Step? && h.procs[a.pid].Joining? && h.procs[a.pid].join.JClaim?
    ensures exists ticket: nat :: Apply(h, a).book.claims ==
              h.book.claims + [Claim(a.pid, ticket, h.procs[a.pid].join.read, h.now)]
  {
  }

  lemma {:induction false} ClaimWhen(hs: seq<Hub>, acts: seq<Action>, i: nat, m: nat) returns (e: nat, x: nat)
    requires IsRun(hs, acts) && i < |hs| && m < |hs[i].book.claims|
    ensures e < x < i && Deletes(hs, acts, x, hs[i].book.claims[m])
    ensures ReadsClock(hs, acts, e, hs[i].book.claims[m].pid, hs[i].book.claims[m].read)
  {
    if i == 0 {
      assert false;
    }
    assert Next(hs[i - 1], acts[i - 1], hs[i]);
    if hs[i].book.claims != hs[i - 1].book.claims {
      StepClaims(hs[i - 1], acts[i - 1]);
    }
    if m < |hs[i - 1].book.claims| {
      e, x := ClaimWhen(hs, acts, i - 1, m);
    } else {
      x := i - 1;
      e := ReadWhen(hs, acts, x, acts[x].pid);
    }
  }

  /** The clock goes past `time` with one tick. */
  ghost predicate Crosses(hs: seq<Hub>, t: nat, time: int)
    requires t + 1 < |hs|
  {
    hs[t].now < time <= hs[t + 1].now
  }

  lemma {:induction false} CrossesBetween(hs: seq<Hub>, e: nat, x: nat, time: int)
    requires e <= x < |hs| && hs[e].now < time <= hs[x].now
    ensures exists t | e <= t < x :: Crosses(hs, t, time)
  {
    if hs[x - 1].now >= time {
      CrossesBetween(hs, e, x - 1, time);
    } else {
      assert Crosses(hs, x - 1, time);
    }
  }

  /**
   When a claim happens, in every run: the joiner read the clock at step `e` and deleted
   the row at a later step `x`. The row goes at or past its expiry if and only if the
   clock passed the expiry between the two.
   */
  lemma LateClaimExactlyWhen(hs: seq<Hub>, acts: seq<Action>, i: nat, m: nat) returns (e: nat, x: nat)
    requires IsRun(hs, acts) && i < |hs| && m < |hs[i].book.claims|
    ensures e < x < i && hs[i].book.claims[m].ticket < |hs[i].book.tokens.tickets|
    ensures var c := hs[i].book.claims[m];
            var expires := hs[i].book.tokens.tickets[c.ticket].expires;
            && ReadsClock(hs, acts, e, c.pid, c.read) && Deletes(hs, acts, x, c)
            && c.read <= c.at && c.read < expires
            && (c.at >= expires <==> exists t | e <= t < x :: Crosses(hs, t, expires))
  {
    e, x := ClaimWhen(hs, acts, i, m);
    RunsKeepInv(hs, acts, i);
    ClockGrows(hs, acts, e, x);
    var c := hs[i].book.claims[m];
    var expires := hs[i].book.tokens.tickets[c.ticket].expires;
    if c.at >= expires {
      CrossesBetween(hs, e, x, expires);
    } else {
      forall t | e <= t < x ensures !Crosses(hs, t, expires) {
        ClockGrows(hs, acts, t + 1, x);
      }
    }
  }

  const ASKS: Request := Request(Device("laptop"), "laptop", "", "HUB-AAA-BBB")
  const DRAWS: Choice := Choice("HUB-AAA-BBB", false)
  const ISSUED: Tokens := Tokens(map["HUB-AAA-BBB" := 0], [Ticket("HUB-AAA-BBB", DEFAULT_TTL)])

  lemma Extend(hs: seq<Hub>, acts: seq<Action>, a: Action) returns (hs': seq<Hub>, acts': seq<Action>)
    requires IsRun(hs, acts) && TicketsOk(hs[|acts|].book.tokens) && Enabled(hs[|acts|], a)
    ensures IsRun(hs', acts') && hs' == hs + [Apply(hs[|acts|], a)] && acts' == acts + [a]
  {
    hs', acts' := hs + [Apply(hs[|acts|], a)], acts + [a];
    forall i | 0 <= i < |acts'| ensures Next(hs'[i], acts'[i], hs'[i + 1]) {
      assert i < |acts| ==> Next(hs[i], acts[i], hs[i + 1]);
    }
  }

  lemma IssuedOnce() returns (hs: seq<Hub>, acts: seq<Action>)
    ensures IsRun(hs, acts) && hs[|acts|] ==
              Hub(0, 0, Book(ISSUED, [], map[]), map[], map[0 := Issuing(IReturned(true))], [])
  {
    hs, acts := [Hub(0, 0, Book(Tokens(map[], []), [], map[]), map[], map[], [])], [];
    hs, acts := Extend(hs, acts, Call(0, Issuing(IClock)));
    hs, acts := Extend(hs, acts, Step(0, DRAWS));
    hs, acts := Extend(hs, acts, Step(0, DRAWS));
  }

  /** A run in which a token is claimed at the very moment of its expiry. */
  lemma ClaimCanLandLate() returns (hs: seq<Hub>, acts: seq<Action>)
    ensures IsRun(hs, acts) && hs[|acts|].book.tokens.tickets == ISSUED.tickets
    ensures hs[|acts|].book.claims == [Claim(1, 0, 0, DEFAULT_TTL)] && DEFAULT_TTL >= ISSUED.tickets[0].expires
  {
    hs, acts := IssuedOnce();
    hs, acts := Extend(hs, acts, Call(1, Joining(ASKS, JEnter)));
    hs, acts := Extend(hs, acts, Step(1, DRAWS));
    hs, acts := Extend(hs, acts, Tick(DEFAULT_TTL));
    hs, acts := Extend(hs, acts, Step(1, DRAWS));
  }

  lemma {:induction false} NoMoreThan(a: seq<nat>, b: seq<nat>)
    requires NoRepeats(a) && forall x | x in a :: x in b
    ensures |a| <= |b|
  {
    if a != [] {
      var last := a[|a| - 1];
      assert last in a;
      var k :| 0 <= k < |b| && b[k] == last;
      var front, rest := a[..|a| - 1], b[..k] + b[k + 1..];
      forall x | x in front ensures x in rest {
        assert x in a;
        var j :| 0 <= j < |b| && b[j] == x;
        assert j != k;
        assert rest[if j < k then j else j - 1] == x;
      }
      NoMoreThan(front, rest);
    }
  }

  /** Joins insert no more device rows than tokens were claimed, and only for claimed tokens. */
  lemma RowsNeverExceedClaims(hs: seq<Hub>, acts: seq<Action>, i: nat)
    requires IsRun(hs, acts) && i < |hs|
    ensures |hs[i].creators| <= |hs[i].book.claims|
    ensures forall p | p in hs[i].creators :: p in Claimants(hs[i].book.claims)
  {
    RunsKeepInv(hs, acts, i);
    NoMoreThan(hs[i].creators, Claimants(hs[i].book.claims));
    assert |Claimants(hs[i].book.claims)| == |hs[i].book.claims|;
  }

  /** What a Join returns tells whether it burnt its token and whether it left a device row. */
  lemma ResultTellsWhatHappened(hs: seq<Hub>, acts: seq<Action>, i: nat, pid: nat)
    requires IsRun(hs, acts) && i < |hs| && pid in hs[i].procs
    requires hs[i].procs[pid].Joining? && hs[i].procs[pid].join.JReturned?
    ensures var r := hs[i].procs[pid].join.result;
            && (pid in Claimants(hs[i].book.claims) <==> r != InvalidToken && r != TokenExpired && r != ClaimFailed)
            && (pid in hs[i].creators <==> r == SignFailed || r == Joined)
  {
    RunsKeepInv(hs, acts, i);
  }

  /** A sweep takes expired tokens only: it never removes one that its own clock would let be claimed. */
  lemma SweptAreExpired(hs: seq<Hub>, acts: seq<Action>, i: nat, id: nat)
    requires IsRun(hs, acts) && i < |hs| && id in hs[i].book.swept
    ensures id < |hs[i].book.tokens.tickets| && hs[i].book.tokens.tickets[id].expires < hs[i].book.swept[id]
    ensures !Burnt(hs[i].book.claims, id)
  {
    RunsKeepInv(hs, acts, i);
    assert Placed(hs[i].book, id);
  }
}
