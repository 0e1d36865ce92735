/**
 Hub.Start against Hub.Stop (internal/hub/hub.go): any number of calls of each, RPC
 handlers and the two background goroutines, interleaved at lock sections and blocking
 calls. Stop runs its body once (sync.Once); the other callers wait for its outcome.
 A GracefulStop that returns without a forced Stop means that every handler returned.
 */
module HubLifecycle {
  import opened Options

  datatype State = NotStarted | Started | Stopped

  datatype Outcome = StopGraceful | StopForced | StopHung

  /** hub.go stopResultFor. */
  function SettledFor(o: Outcome): bool {
    o != StopHung
  }

  function ClosesStoreFor(o: Outcome): bool {
    o == StopGraceful
  }

  datatype Once = Unused | Running(pid: nat) | Finished(settled: bool)

  /** A background goroutine: counted by the WaitGroup from Add until it is Exited. */
  datatype Goroutine = Unborn | Added | Alive | Exited

  /**
   `ctxDone`: Start's caller has cancelled the context it passed; `grpc`: h.grpcServer is
   set; `cancelled`: Stop has cancelled the context of the goroutines; `served`: Serve has
   begun; `quit`: the gRPC server accepts no more connections; `down`: GracefulStop
   returned unforced; `handlers`: RPC handlers now running; `closes`: how often the store
   was closed; `readies`: how often OnReady ran. Two are history: how the gRPC server went
   down, if there was one to stop, and whether the wait for the goroutines was cut short.
   */
  datatype Life = Life(state: State, ctxDone: bool, grpc: bool, hasCancel: bool, cancelled: bool,
                       served: bool, quit: bool, down: bool, handlers: nat,
                       monitor: Goroutine, sweeper: Goroutine, once: Once, closes: nat, readies: nat,
                       outcome: Option<Outcome>, late: bool)

  /** What made a call fail: nothing to do with the shutdown, or one of its three effects. */
  datatype Cause = Environment | CtxCancelled | StoreClosed | ServerStopped

  /** Why Start reports an error. */
  datatype Failure = ReconcileFailed(cause: Cause) | ListenFailed | ServeFailed(cause: Cause)

  /** The failure is an effect of the shutdown: its cancel, its store.Close or its server stop. */
  predicate ShutdownCaused(why: Failure) {
    match why
    case ReconcileFailed(cause) => cause != Environment
    case ListenFailed => false
    case ServeFailed(cause) => cause != Environment
  }

  datatype StartAt =
    | SEnter
    | SReconcile
    | SReconcileErr(cause: Cause)
    | SListen
    | SPublish
    | SAbandon
    | SSpawnMonitor
    | SSpawnSweeper
    | SServe
    | SServing
    | SServeErr(cause: Cause)
    | SReturned(error: bool, why: Failure)

  datatype StopAt =
    | TEnter
    | TMark
    | TDrain(hadServer: bool, hadCancel: bool)
    | TCancel(hadServer: bool, hadCancel: bool)
    | TSweep(hadServer: bool)
    | TServer(hadServer: bool)
    | TQuit
    | TResult(outcome: Outcome)
    | TWait
    | TClose
    | TFinish(settled: bool)
    | TReturned(settled: bool)

  datatype Pc = Start(s: StartAt) | Stop(t: StopAt)

  datatype Hub = Hub(life: Life, procs: map<nat, Pc>)

  /**
   The environment's choice: whether a call fails, and if so whether it is the cancelled
   context it fails on; which stop outcome occurs; whether the budget runs out.
   */
  datatype Choice = Choice(fail: bool, onCtx: bool, outcome: Outcome, late: bool)

  datatype Action =
    | CallStart(pid: nat)
    | CallStop(pid: nat)
    | Run(pid: nat, ch: Choice)
    | CancelCtx
    | HandlerBegins
    | HandlerReturns
    | MonitorExits
    | SweeperExits

  const NIL: StartAt := SReturned(false, ListenFailed)

  function ExecStart(at: StartAt, l: Life, ch: Choice): (StartAt, Life) {
    match at
    case SEnter =>
      if l.state != NotStarted then (NIL, l)
      else (SReconcile, l.(state := Started, hasCancel := true))
    case SReconcile =>
      if l.closes > 0 then (SReconcileErr(StoreClosed), l)
      else (if ch.fail then SReconcileErr(if ch.onCtx then CtxCancelled else Environment) else SListen, l)
    case SReconcileErr(cause) =>
      (if l.state == Stopped then NIL else SReturned(true, ReconcileFailed(cause)), l)
    case SListen => (if ch.fail then SReturned(true, ListenFailed) else SPublish, l)
    case SPublish =>
      if l.state == Stopped then (SAbandon, l)
      else (SSpawnMonitor, l.(grpc := true, monitor := Added, sweeper := Added, readies := l.readies + 1))
    case SAbandon => (NIL, l)
    case SSpawnMonitor => (SSpawnSweeper, l.(monitor := Alive))
    case SSpawnSweeper => (SServe, l.(sweeper := Alive))
    case SServe => if l.quit then (SServeErr(ServerStopped), l) else (SServing, l.(served := true))
    case SServing => (if l.quit then NIL else SServeErr(Environment), l)
    case SServeErr(cause) =>
      (if cause == ServerStopped && l.state == Stopped then NIL else SReturned(true, ServeFailed(cause)), l)
    case _ => (at, l)
  }

  function ExecStop(pid: nat, at: StopAt, l: Life, ch: Choice): (StopAt, Life) {
    match at
    case TEnter =>
      if l.once == Unused then (TMark, l.(once := Running(pid)))
      else if l.once.Finished? then (TReturned(l.once.settled), l)
      else (at, l)
    case TMark => (TDrain(l.grpc, l.hasCancel), l.(state := Stopped))
    case TDrain(hadServer, hadCancel) => (TCancel(hadServer, hadCancel), l)
    case TCancel(hadServer, hadCancel) => (TSweep(hadServer), l.(cancelled := l.cancelled || hadCancel))
    case TSweep(hadServer) => (TServer(hadServer), l)
    case TServer(hadServer) =>
      if hadServer then (TQuit, l.(quit := true)) else (TResult(StopGraceful), l)
    case TQuit => (TResult(ch.outcome), l.(down := ch.outcome == StopGraceful, outcome := Some(ch.outcome)))
    case TResult(outcome) =>
      (if ClosesStoreFor(outcome) then TWait else TFinish(SettledFor(outcome)), l)
    case TWait => (if ch.late then TFinish(true) else TClose, l.(late := ch.late))
    case TClose => (TFinish(true), l.(closes := l.closes + 1))
    case TFinish(settled) => (TReturned(settled), l.(once := Finished(settled)))
    case _ => (at, l)
  }

  function Exec(pid: nat, pc: Pc, l: Life, ch: Choice): (Pc, Life) {
    match pc
    case Start(at) => var (at', l') := ExecStart(at, l, ch); (Start(at'), l')
    case Stop(at) => var (at', l') := ExecStop(pid, at, l, ch); (Stop(at'), l')
  }

  /** The WaitGroup's counter is zero. */
  predicate WaitOver(l: Life) {
    && (l.monitor == Unborn || l.monitor == Exited)
    && (l.sweeper == Unborn || l.sweeper == Exited)
  }

  /** The goroutines' context is derived from the caller's, so either cancel ends it. */
  predicate RunCtxDone(l: Life) {
    l.cancelled || l.ctxDone
  }

  predicate MayStart(at: StartAt, l: Life, ch: Choice) {
    match at
    case SReturned(_, _) => false
    case SReconcile => ch.onCtx ==> l.ctxDone
    case SServing => l.quit || ch.fail
    case _ => true
  }

  predicate MayStop(at: StopAt, l: Life, ch: Choice) {
    match at
    case TReturned(_) => false
    case TEnter => !l.once.Running?
    case TQuit => ch.outcome == StopGraceful ==> l.handlers == 0
    case TWait => !ch.late ==> WaitOver(l)
    case _ => true
  }

  predicate MayStep(pc: Pc, l: Life, ch: Choice) {
    match pc
    case Start(at) => MayStart(at, l, ch)
    case Stop(at) => MayStop(at, l, ch)
  }

  predicate Enabled(h: Hub, a: Action) {
    match a
    case CallStart(pid) => pid !in h.procs
    case CallStop(pid) => pid !in h.procs
    case Run(pid, ch) => pid in h.procs && MayStep(h.procs[pid], h.life, ch)
    case CancelCtx => true
    case HandlerBegins => h.life.served && !h.life.down
    case HandlerReturns => h.life.handlers > 0
    case MonitorExits => h.life.monitor == Alive && RunCtxDone(h.life)
    case SweeperExits => h.life.sweeper == Alive && RunCtxDone(h.life)
  }

  function Apply(h: Hub, a: Action): Hub
    requires Enabled(h, a)
  {
    match a
    case CallStart(pid) => h.(procs := h.procs[pid := Start(SEnter)])
    case CallStop(pid) => h.(procs := h.procs[pid := Stop(TEnter)])
    case Run(pid, ch) =>
      var (pc, l) := Exec(pid, h.procs[pid], h.life, ch);
      Hub(l, h.procs[pid := pc])
    case CancelCtx => h.(life := h.life.(ctxDone := true))
    case HandlerBegins => h.(life := h.life.(handlers := h.life.handlers + 1))
    case HandlerReturns => h.(life := h.life.(handlers := h.life.handlers - 1))
    case MonitorExits => h.(life := h.life.(monitor := Exited))
    case SweeperExits => h.(life := h.life.(sweeper := Exited))
  }

  const INIT: Hub :=
    Hub(Life(NotStarted, false, false, false, false, false, false, false, 0,
             Unborn, Unborn, Unused, 0, 0, None, false), map[])

  ghost predicate Next(h: Hub, a: Action, h': Hub) {
    Enabled(h, a) && h' == Apply(h, a)
  }

  ghost predicate IsRun(hs: seq<Hub>, acts: seq<Action>) {
    && |hs| == |acts| + 1 && hs[0] == INIT
    && forall i {:trigger acts[i]} | 0 <= i < |acts| :: Next(hs[i], acts[i], hs[i + 1])
  }

  /** Start is past its first lock section: at most one call gets here. */
  predicate IsStarter(pc: Pc) {
    pc.Start? && !pc.s.SEnter? && !pc.s.SAbandon? && !pc.s.SReturned?
  }

  /** A running Stop body: at most one, the one named by the Once. */
  predicate IsStopper(pc: Pc) {
    pc.Stop? && !pc.t.TEnter? && !pc.t.TReturned?
  }

  /** No handler or background goroutine is running or can ever run again. */
  predicate AtRest(l: Life) {
    l.state == Stopped && WaitOver(l) && l.handlers == 0 && (l.grpc ==> l.down)
  }

  predicate LifeOk(l: Life) {
    && (l.once == Unused ==> l.state != Stopped)
    && (l.once.Finished? ==> l.state == Stopped)
    && (l.quit ==> l.state == Stopped)
    && (l.state == NotStarted ==> !l.grpc)
    && (!l.grpc ==> l.monitor == Unborn && l.sweeper == Unborn && l.handlers == 0 && !l.served)
    && (l.down ==> l.quit)
    && (l.closes > 0 ==> AtRest(l))
    && l.readies == (if l.grpc then 1 else 0)
    && (l.grpc || l.state == Started ==> l.hasCancel)
    && l.closes <= 1
    && (l.once == Unused ==> l.closes == 0 && l.outcome.None? && !l.late)
    && (l.once.Finished? ==> StopDone(l, l.once.settled))
  }

  /** There was no gRPC server to stop, or it came down by itself within the grace. */
  predicate WentDown(l: Life) {
    l.outcome.None? || l.outcome.value == StopGraceful
  }

  /** What Stop has done when it is finished, and what it then returns. */
  predicate StopDone(l: Life, settled: bool) {
    && l.state == Stopped && (l.hasCancel ==> l.cancelled) && (l.grpc ==> l.quit)
    && (l.grpc <==> l.outcome.Some?)
    && (settled <==> l.outcome != Some(StopHung))
    && (l.closes == 1 <==> WentDown(l) && !l.late)
  }

  /** Stop has cancelled the goroutines' context, and dealt with the server. */
  predicate StopHalted(l: Life) {
    && l.state == Stopped && (l.hasCancel ==> l.cancelled) && (l.grpc ==> l.quit) && l.closes == 0 && !l.late
    && (l.grpc <==> l.outcome.Some?)
  }

  predicate StartOk(at: StartAt, l: Life) {
    && (!at.SEnter? && !at.SReturned? ==> l.state != NotStarted)
    && match at
       case SReconcile => !l.grpc
       case SReconcileErr(cause) =>
         && !l.grpc && cause != ServerStopped
         && (cause == StoreClosed ==> l.state == Stopped) && (cause == CtxCancelled ==> l.ctxDone)
       case SListen => !l.grpc
       case SPublish => !l.grpc
       case SSpawnMonitor => l.grpc && l.monitor == Added && l.sweeper == Added
       case SSpawnSweeper => l.grpc && l.sweeper == Added
       case SServe => l.grpc
       case SServing => l.grpc && l.served
       case SServeErr(cause) =>
         l.grpc && (cause == Environment || cause == ServerStopped) && (cause == ServerStopped ==> l.state == Stopped)
       case _ => true
  }

  predicate StoppingOk(at: StopAt, l: Life) {
    match at
    case TMark => l.state != Stopped && l.closes == 0 && l.outcome.None? && !l.late
    case TDrain(hadServer, hadCancel) => StopOk(hadServer, l) && hadCancel == l.hasCancel
    case TCancel(hadServer, hadCancel) => StopOk(hadServer, l) && hadCancel == l.hasCancel
    case TSweep(hadServer) => StopOk(hadServer, l) && (l.hasCancel ==> l.cancelled)
    case TServer(hadServer) => StopOk(hadServer, l) && (l.hasCancel ==> l.cancelled)
    case TQuit => StopOk(true, l) && l.quit && (l.hasCancel ==> l.cancelled)
    case TResult(outcome) =>
      && StopHalted(l) && (outcome == StopGraceful ==> Quiet(l))
      && (if l.grpc then l.outcome == Some(outcome) else outcome == StopGraceful)
    case TWait => StopHalted(l) && WentDown(l) && Quiet(l)
    case TClose => StopHalted(l) && WentDown(l) && AtRest(l)
    case TFinish(settled) => StopDone(l, settled)
    case TReturned(settled) => l.once == Finished(settled)
    case _ => true
  }

  predicate PcOk(pid: nat, pc: Pc, l: Life) {
    match pc
    case Start(at) => StartOk(at, l)
    case Stop(at) => (IsStopper(pc) ==> l.once == Running(pid)) && StoppingOk(at, l)
  }

  predicate StopOk(hadServer: bool, l: Life) {
    l.state == Stopped && l.closes == 0 && l.grpc == hadServer && l.outcome.None? && !l.late
  }

  predicate Quiet(l: Life) {
    l.state == Stopped && l.handlers == 0 && (l.grpc ==> l.down)
  }

  ghost predicate Inv(h: Hub) {
    && LifeOk(h.life)
    && (forall p | p in h.procs :: PcOk(p, h.procs[p], h.life))
    && OneStarter(h.procs)
    && (h.life.state == NotStarted ==> NoStarter(h.procs))
  }

  ghost predicate OneStarter(procs: map<nat, Pc>) {
    forall p, q | p in procs && q in procs && IsStarter(procs[p]) && IsStarter(procs[q]) :: p == q
  }

  ghost predicate NoStarter(procs: map<nat, Pc>) {
    forall p | p in procs :: !IsStarter(procs[p])
  }

  lemma StartKeepsLife(at: StartAt, l: Life, ch: Choice)
    requires LifeOk(l) && StartOk(at, l) && MayStart(at, l, ch)
    ensures LifeOk(ExecStart(at, l, ch).1)
  {
  }

  lemma StopKeepsLife(pid: nat, at: StopAt, l: Life, ch: Choice)
    requires LifeOk(l) && PcOk(pid, Stop(at), l) && MayStop(at, l, ch)
    ensures LifeOk(ExecStop(pid, at, l, ch).1)
  {
  }

  lemma StartKeepsPc(at: StartAt, l: Life, ch: Choice)
    requires LifeOk(l) && StartOk(at, l) && MayStart(at, l, ch)
    ensures StartOk(ExecStart(at, l, ch).0, ExecStart(at, l, ch).1)
  {
  }

  lemma StopKeepsPc(pid: nat, at: StopAt, l: Life, ch: Choice)
    requires LifeOk(l) && PcOk(pid, Stop(at), l) && MayStop(at, l, ch)
    ensures PcOk(pid, Stop(ExecStop(pid, at, l, ch).0), ExecStop(pid, at, l, ch).1)
  {
  }

  lemma StartKeepsOther(at: StartAt, l: Life, ch: Choice, q: nat, qc: Pc)
    requires LifeOk(l) && StartOk(at, l) && MayStart(at, l, ch)
    requires PcOk(q, qc, l) && !(IsStarter(Start(at)) && IsStarter(qc))
    ensures PcOk(q, qc, ExecStart(at, l, ch).1)
  {
  }

  lemma StopKeepsOther(pid: nat, at: StopAt, l: Life, ch: Choice, q: nat, qc: Pc)
    requires LifeOk(l) && PcOk(pid, Stop(at), l) && MayStop(at, l, ch) && q != pid && PcOk(q, qc, l)
    ensures PcOk(q, qc, ExecStop(pid, at, l, ch).1)
  {
  }

  lemma ExecKeeps(pid: nat, pc: Pc, l: Life, ch: Choice)
    requires LifeOk(l) && PcOk(pid, pc, l) && MayStep(pc, l, ch)
    ensures LifeOk(Exec(pid, pc, l, ch).1) && PcOk(pid, Exec(pid, pc, l, ch).0, Exec(pid, pc, l, ch).1)
  {
    match pc
    case Start(at) =>
      StartKeepsLife(at, l, ch);
      StartKeepsPc(at, l, ch);
    case Stop(at) =>
      StopKeepsLife(pid, at, l, ch);
      StopKeepsPc(pid, at, l, ch);
  }

  lemma ExecKeepsOther(pid: nat, pc: Pc, l: Life, ch: Choice, q: nat, qc: Pc)
    requires LifeOk(l) && PcOk(pid, pc, l) && MayStep(pc, l, ch)
    requires q != pid && PcOk(q, qc, l) && !(IsStarter(pc) && IsStarter(qc))
    ensures PcOk(q, qc, Exec(pid, pc, l, ch).1)
  {
    match pc
    case Start(at) => StartKeepsOther(at, l, ch, q, qc);
    case Stop(at) => StopKeepsOther(pid, at, l, ch, q, qc);
  }

  lemma RunKeepsInv(h: Hub, pid: nat, ch: Choice)
    requires Inv(h) && Enabled(h, Run(pid, ch))
    ensures Inv(Apply(h, Run(pid, ch)))
  {
    var pc := h.procs[pid];
    var h' := Apply(h, Run(pid, ch));
    ExecKeeps(pid, pc, h.life, ch);
    forall q | q in h'.procs ensures PcOk(q, h'.procs[q], h'.life) {
      if q != pid {
        ExecKeepsOther(pid, pc, h.life, ch, q, h.procs[q]);
      }
    }
    StartsOnce(h, pid, ch);
  }

  lemma UpdateKeepsOne(procs: map<nat, Pc>, pid: nat, pc: Pc)
    requires OneStarter(procs)
    requires IsStarter(pc) ==> (pid in procs && IsStarter(procs[pid])) || NoStarter(procs)
    ensures OneStarter(procs[pid := pc])
  {
  }

  /** Only the call that finds the hub not started goes on. */
  lemma StarterStep(pid: nat, pc: Pc, l: Life, ch: Choice)
    requires IsStarter(Exec(pid, pc, l, ch).0) && !IsStarter(pc)
    ensures pc == Start(SEnter) && l.state == NotStarted
  {
  }

  /** A step never goes back to not started, and until then there is no starter to keep. */
  lemma StartLeavesNotStarted(at: StartAt, l: Life, ch: Choice)
    requires StartOk(at, l) && ExecStart(at, l, ch).1.state == NotStarted
    ensures l.state == NotStarted && !IsStarter(Start(ExecStart(at, l, ch).0))
  {
  }

  lemma StopLeavesNotStarted(pid: nat, at: StopAt, l: Life, ch: Choice)
    requires ExecStop(pid, at, l, ch).1.state == NotStarted
    ensures l.state == NotStarted
  {
    assert at != TMark ==> ExecStop(pid, at, l, ch).1.state == l.state;
  }

  lemma StartsOnce(h: Hub, pid: nat, ch: Choice)
    requires Inv(h) && Enabled(h, Run(pid, ch))
    ensures var h' := Apply(h, Run(pid, ch));
            OneStarter(h'.procs) && (h'.life.state == NotStarted ==> NoStarter(h'.procs))
  {
    var pc := h.procs[pid];
    var next := Exec(pid, pc, h.life, ch);
    if IsStarter(next.0) && !IsStarter(pc) {
      StarterStep(pid, pc, h.life, ch);
    }
    UpdateKeepsOne(h.procs, pid, next.0);
    assert PcOk(pid, pc, h.life);
    if next.1.state == NotStarted {
      match pc
      case Start(at) => StartLeavesNotStarted(at, h.life, ch);
      case Stop(at) => StopLeavesNotStarted(pid, at, h.life, ch);
    }
  }

  lemma CallKeepsInv(h: Hub, pid: nat, pc: Pc)
    requires Inv(h) && pid !in h.procs && (pc == Start(SEnter) || pc == Stop(TEnter))
    ensures Inv(h.(procs := h.procs[pid := pc]))
  {
    UpdateKeepsOne(h.procs, pid, pc);
  }

  lemma OutsideKeepsInv(h: Hub, a: Action)
    requires Inv(h) && Enabled(h, a)
    requires !a.CallStart? && !a.CallStop? && !a.Run?
    ensures Inv(Apply(h, a))
  {
    var l := Apply(h, a).life;
    OutsideKeepsLife(h, a);
    forall p | p in h.procs ensures PcOk(p, h.procs[p], l) {
      OutsideKeepsPc(h, a, p, h.procs[p]);
    }
  }

  lemma OutsideKeepsLife(h: Hub, a: Action)
    requires LifeOk(h.life) && Enabled(h, a) && !a.CallStart? && !a.CallStop? && !a.Run?
    ensures LifeOk(Apply(h, a).life) && Apply(h, a).procs == h.procs && Apply(h, a).life.state == h.life.state
  {
    match a
    case HandlerBegins =>
    case HandlerReturns =>
    case MonitorExits =>
    case SweeperExits =>
    case _ =>
  }

  lemma OutsideKeepsPc(h: Hub, a: Action, p: nat, pc: Pc)
    requires LifeOk(h.life) && Enabled(h, a) && !a.CallStart? && !a.CallStop? && !a.Run? && PcOk(p, pc, h.life)
    ensures PcOk(p, pc, Apply(h, a).life)
  {
    var l, l' := h.life, Apply(h, a).life;
    OutsideChanges(h, a);
    match pc
    case Start(at) => OutsideKeepsStart(at, l, l');
    case Stop(at) => OutsideKeepsStop(at, l, l');
  }

  /** What the rest of the world may change: nothing a call relies on, and no handler begins once the server is down. */
  ghost predicate Outside(l: Life, l': Life) {
    && l' == l.(ctxDone := l'.ctxDone, handlers := l'.handlers, monitor := l'.monitor, sweeper := l'.sweeper)
    && (l.ctxDone ==> l'.ctxDone)
    && (l.handlers == 0 && (l.down || !l.served) ==> l'.handlers == 0)
    && (l'.monitor == l.monitor || (l.monitor == Alive && l'.monitor == Exited))
    && (l'.sweeper == l.sweeper || (l.sweeper == Alive && l'.sweeper == Exited))
  }

  lemma OutsideChanges(h: Hub, a: Action)
    requires Enabled(h, a) && !a.CallStart? && !a.CallStop? && !a.Run?
    ensures Outside(h.life, Apply(h, a).life)
  {
    match a
    case HandlerBegins =>
    case HandlerReturns =>
    case MonitorExits =>
    case SweeperExits =>
    case _ =>
  }

  lemma OutsideKeepsStart(at: StartAt, l: Life, l': Life)
    requires StartOk(at, l) && Outside(l, l')
    ensures StartOk(at, l')
  {
  }

  lemma OutsideKeepsStop(at: StopAt, l: Life, l': Life)
    requires StoppingOk(at, l) && LifeOk(l) && Outside(l, l')
    ensures StoppingOk(at, l')
  {
  }

  lemma StepKeepsInv(h: Hub, a: Action)
    requires Inv(h) && Enabled(h, a)
    ensures Inv(Apply(h, a))
  {
    match a
    case CallStart(pid) => CallKeepsInv(h, pid, Start(SEnter));
    case CallStop(pid) => CallKeepsInv(h, pid, Stop(TEnter));
    case Run(pid, ch) => RunKeepsInv(h, pid, ch);
    case _ => OutsideKeepsInv(h, a);
  }

  lemma {:induction false} RunsKeepInv(hs: seq<Hub>, acts: seq<Action>, i: nat)
    requires IsRun(hs, acts) && i < |hs|
    ensures Inv(hs[i])
  {
    if i > 0 {
      RunsKeepInv(hs, acts, i - 1);
      assert Next(hs[i - 1], acts[i - 1], hs[i]);
      StepKeepsInv(hs[i - 1], acts[i - 1]);
    }
  }

  /** What is never taken back. */
  ghost predicate Later(l: Life, l': Life) {
    && (l.state == Stopped ==> l'.state == Stopped && l'.readies == l.readies)
    && l.closes <= l'.closes
    && (l.once.Finished? ==> l'.once == l.once)
  }

  lemma StepLater(h: Hub, a: Action)
    requires Inv(h) && Enabled(h, a)
    ensures Later(h.life, Apply(h, a).life)
  {
    if a.Run? {
      assert PcOk(a.pid, h.procs[a.pid], h.life);
      match h.procs[a.pid]
      case Start(at) => StartLater(at, h.life, a.ch);
      case Stop(at) => StopLater(a.pid, at, h.life, a.ch);
    }
  }

  lemma StartLater(at: StartAt, l: Life, ch: Choice)
    requires LifeOk(l) && StartOk(at, l)
    ensures Later(l, ExecStart(at, l, ch).1)
  {
    match at
    case SEnter =>
    case SPublish =>
    case _ =>
  }

  lemma StopLater(pid: nat, at: StopAt, l: Life, ch: Choice)
    requires LifeOk(l) && PcOk(pid, Stop(at), l) && MayStop(at, l, ch)
    ensures Later(l, ExecStop(pid, at, l, ch).1)
  {
    match at
    case TMark =>
    case TClose =>
    case TFinish(_) =>
    case _ =>
  }

  lemma {:induction false} RunsLater(hs: seq<Hub>, acts: seq<Action>, i: nat, j: nat)
    requires IsRun(hs, acts) && i <= j < |hs|
    ensures Later(hs[i].life, hs[j].life)
  {
    if i < j {
      RunsLater(hs, acts, i, j - 1);
      RunsKeepInv(hs, acts, j - 1);
      assert Next(hs[j - 1], acts[j - 1], hs[j]);
      StepLater(hs[j - 1], acts[j - 1]);
    }
  }

  /** OnReady runs at most once, and never after Stop has marked the hub stopped. */
  lemma ReadyNeverAfterStop(hs: seq<Hub>, acts: seq<Action>, i: nat, j: nat)
    requires IsRun(hs, acts) && i <= j < |hs| && hs[i].life.state == Stopped
    ensures hs[j].life.readies == hs[i].life.readies <= 1
  {
    RunsKeepInv(hs, acts, i);
    RunsLater(hs, acts, i, j);
  }

  /**
   The store is closed at most once, and only when both background goroutines and all
   handlers have finished; none of them runs again afterwards.
   */
  lemma StoreClosesAtRest(hs: seq<Hub>, acts: seq<Action>, i: nat, j: nat)
    requires IsRun(hs, acts) && i <= j < |hs|
    ensures hs[j].life.closes <= 1
    ensures hs[i].life.closes == 1 ==> AtRest(hs[j].life)
  {
    RunsLater(hs, acts, i, j);
    RunsKeepInv(hs, acts, j);
  }

  lemma CloseStep(h: Hub, a: Action)
    requires Inv(h) && Enabled(h, a) && h.life.closes < Apply(h, a).life.closes
    ensures AtRest(h.life)
  {
    if a.Run? {
      assert PcOk(a.pid, h.procs[a.pid], h.life);
      CloseExec(a.pid, h.procs[a.pid], h.life, a.ch);
    }
  }

  lemma CloseExec(pid: nat, pc: Pc, l: Life, ch: Choice)
    requires LifeOk(l) && PcOk(pid, pc, l) && MayStep(pc, l, ch) && l.closes < Exec(pid, pc, l, ch).1.closes
    ensures AtRest(l)
  {
  }

  lemma StoreClosesOnlyAtRest(hs: seq<Hub>, acts: seq<Action>, i: nat)
    requires IsRun(hs, acts) && i < |acts| && hs[i].life.closes < hs[i + 1].life.closes
    ensures AtRest(hs[i].life)
  {
    RunsKeepInv(hs, acts, i);
    assert Next(hs[i], acts[i], hs[i + 1]);
    CloseStep(hs[i], acts[i]);
  }

  predicate HasStopped(pc: Pc) {
    pc.Stop? && pc.t.TReturned?
  }

  predicate HasReturned(pc: Pc) {
    pc.Start? && pc.s.SReturned?
  }

  /** Every Stop call that returns, whenever it was made, returns the same outcome. */
  lemma StopsAgree(hs: seq<Hub>, acts: seq<Action>, i: nat, p: nat, j: nat, q: nat)
    requires IsRun(hs, acts) && i <= j < |hs| && p in hs[i].procs && q in hs[j].procs
    requires HasStopped(hs[i].procs[p]) && HasStopped(hs[j].procs[q])
    ensures hs[i].procs[p] == hs[j].procs[q]
  {
    RunsKeepInv(hs, acts, i);
    RunsKeepInv(hs, acts, j);
    assert PcOk(p, hs[i].procs[p], hs[i].life) && PcOk(q, hs[j].procs[q], hs[j].life);
    RunsLater(hs, acts, i, j);
  }

  /**
   What a Stop that has returned says and has done, in every run: it is unsettled if and
   only if the gRPC server hung, so never without one; the goroutines' context is cancelled
   and the server accepts nothing any more; and the store is closed if and only if there was
   no server or it went down gracefully, and the wait for the goroutines was not cut short.
   */
  lemma StopAnswersExactlyWhen(hs: seq<Hub>, acts: seq<Action>, i: nat, p: nat)
    requires IsRun(hs, acts) && i < |hs| && p in hs[i].procs && HasStopped(hs[i].procs[p])
    ensures var l, settled := hs[i].life, hs[i].procs[p].t.settled;
            && (!settled <==> l.outcome == Some(StopHung))
            && (l.outcome.Some? <==> l.grpc) && (!l.grpc ==> settled)
            && l.state == Stopped && (l.hasCancel ==> l.cancelled) && (l.grpc ==> l.quit)
            && l.closes <= 1
            && (l.closes == 1 <==> (l.outcome.None? || l.outcome == Some(StopGraceful)) && !l.late)
  {
    RunsKeepInv(hs, acts, i);
    assert PcOk(p, hs[i].procs[p], hs[i].life);
  }

  /** Step `i` is the one at which the Start call `pid` returns. */
  ghost predicate StartReturns(hs: seq<Hub>, acts: seq<Action>, i: nat, pid: nat, ch: Choice)
    requires |hs| == |acts| + 1
  {
    && i < |acts| && acts[i] == Run(pid, ch) && pid in hs[i].procs && pid in hs[i + 1].procs
    && !HasReturned(hs[i].procs[pid]) && HasReturned(hs[i + 1].procs[pid])
  }

  /**
   A Start that returns when the hub is stopped reports an error if and only if its own
   Listen just failed, or Serve failed before any stop reached it.
   */
  lemma PreemptedStartReturnsNil(hs: seq<Hub>, acts: seq<Action>, i: nat, pid: nat, ch: Choice)
    requires IsRun(hs, acts) && StartReturns(hs, acts, i, pid, ch) && hs[i].life.state == Stopped
    ensures hs[i + 1].procs[pid].s.error <==>
              || (hs[i].procs[pid] == Start(SListen) && ch.fail)
              || hs[i].procs[pid] == Start(SServeErr(Environment))
  {
    RunsKeepInv(hs, acts, i);
    assert Next(hs[i], acts[i], hs[i + 1]);
    assert PcOk(pid, hs[i].procs[pid], hs[i].life);
  }

  /**
   What each error of Start comes from. A closed store and a stopped server are never
   reported; a cancelled context is, if Stop has not yet marked the hub stopped.
   */
  lemma StartErrorCauses(hs: seq<Hub>, acts: seq<Action>, i: nat, pid: nat, ch: Choice)
    requires IsRun(hs, acts) && StartReturns(hs, acts, i, pid, ch) && hs[i + 1].procs[pid].s.error
    ensures match hs[i + 1].procs[pid].s.why
            case ReconcileFailed(cause) =>
              && hs[i].procs[pid] == Start(SReconcileErr(cause)) && hs[i].life.state == Started
              && (cause == Environment || (cause == CtxCancelled && hs[i].life.ctxDone))
            case ListenFailed => hs[i].procs[pid] == Start(SListen) && ch.fail
            case ServeFailed(cause) => hs[i].procs[pid] == Start(SServeErr(cause)) && cause == Environment
  {
    RunsKeepInv(hs, acts, i);
    assert Next(hs[i], acts[i], hs[i + 1]);
    assert PcOk(pid, hs[i].procs[pid], hs[i].life);
  }

  predicate ReportsShutdown(pc: Pc) {
    HasReturned(pc) && pc.s.error && ShutdownCaused(pc.s.why)
  }

  /**
   Step `k`: the call's reconcile has failed on the cancelled context, and its question
   whether the hub is stopped is answered before Stop has marked it.
   */
  ghost predicate AskedTooEarly(hs: seq<Hub>, acts: seq<Action>, k: nat, pid: nat)
    requires |hs| == |acts| + 1
  {
    && k < |acts| && acts[k].Run? && acts[k].pid == pid && pid in hs[k].procs
    && hs[k].procs[pid] == Start(SReconcileErr(CtxCancelled)) && hs[k].life.state != Stopped
  }

  /** One step makes a call report the shutdown exactly if it is that one; nothing takes the report back. */
  lemma ReportStep(h: Hub, a: Action, pid: nat)
    requires Inv(h) && Enabled(h, a) && pid in Apply(h, a).procs
    ensures ReportsShutdown(Apply(h, a).procs[pid]) <==>
              && pid in h.procs
              && (ReportsShutdown(h.procs[pid])
                  || (a.Run? && a.pid == pid && h.procs[pid] == Start(SReconcileErr(CtxCancelled))
                      && h.life.state != Stopped))
  {
    if pid in h.procs {
      assert PcOk(pid, h.procs[pid], h.life);
    }
  }

  /**
   For every run: Start has reported an error that the shutdown caused if and only if its
   reconcile failed on the cancelled context and it asked before Stop's mark.
   */
  lemma {:induction false} ShutdownReportedExactlyWhen(hs: seq<Hub>, acts: seq<Action>, i: nat, pid: nat)
    requires IsRun(hs, acts) && i < |hs| && pid in hs[i].procs
    ensures ReportsShutdown(hs[i].procs[pid]) <==> exists k | 0 <= k < i :: AskedTooEarly(hs, acts, k, pid)
  {
    if i > 0 {
      RunsKeepInv(hs, acts, i - 1);
      assert Next(hs[i - 1], acts[i - 1], hs[i]);
      ReportStep(hs[i - 1], acts[i - 1], pid);
      if pid in hs[i - 1].procs {
        ShutdownReportedExactlyWhen(hs, acts, i - 1, pid);
        assert AskedTooEarly(hs, acts, i - 1, pid) ==> ReportsShutdown(hs[i].procs[pid]);
      } else {
        NotYetCalled(hs, acts, i - 1, pid);
      }
    }
  }

  /** Who is not called yet has done nothing. */
  lemma {:induction false} NotYetCalled(hs: seq<Hub>, acts: seq<Action>, i: nat, pid: nat)
    requires IsRun(hs, acts) && i < |hs| && pid !in hs[i].procs
    ensures forall k | 0 <= k <= i :: pid !in hs[k].procs
  {
    if i > 0 {
      assert Next(hs[i - 1], acts[i - 1], hs[i]);
      NotYetCalled(hs, acts, i - 1, pid);
    }
  }

  /** So a caller that cancels only once Stop has marked the hub never sees such an error. */
  lemma CancelAfterMarkIsClean(hs: seq<Hub>, acts: seq<Action>, i: nat, pid: nat)
    requires IsRun(hs, acts) && i < |hs| && pid in hs[i].procs
    requires forall k | 0 <= k < |hs| :: hs[k].life.ctxDone ==> hs[k].life.state == Stopped
    ensures !ReportsShutdown(hs[i].procs[pid])
  {
    ShutdownReportedExactlyWhen(hs, acts, i, pid);
    forall k | 0 <= k < i ensures !AskedTooEarly(hs, acts, k, pid) {
      RunsKeepInv(hs, acts, k);
      if pid in hs[k].procs {
        assert PcOk(pid, hs[k].procs[pid], hs[k].life);
      }
    }
  }

  const FINE: Choice := Choice(false, false, StopGraceful, false)

  lemma Extend(hs: seq<Hub>, acts: seq<Action>, a: Action) returns (hs': seq<Hub>, acts': seq<Action>)
    requires IsRun(hs, acts) && Enabled(hs[|acts|], a)
    ensures IsRun(hs', acts') && hs' == hs + [Apply(hs[|acts|], a)] && acts' == acts + [a]
  {
    hs', acts' := hs + [Apply(hs[|acts|], a)], acts + [a];
    forall i | 0 <= i < |acts'| ensures Next(hs'[i], acts'[i], hs'[i + 1]) {
      assert i < |acts| ==> Next(hs[i], acts[i], hs[i + 1]);
    }
  }

  /** A run in which Stop wins and Start still reports an error: its Listen fails afterwards. */
  lemma PreemptedStartCanFail() returns (hs: seq<Hub>, acts: seq<Action>)
    ensures IsRun(hs, acts) && StartReturns(hs, acts, 6, 0, FINE.(fail := true))
    ensures hs[6].life.state == Stopped && hs[7].procs[0] == Start(SReturned(true, ListenFailed))
  {
    hs, acts := [INIT], [];
    hs, acts := Extend(hs, acts, CallStart(0));
    hs, acts := Extend(hs, acts, Run(0, FINE));
    hs, acts := Extend(hs, acts, CallStop(1));
    hs, acts := Extend(hs, acts, Run(1, FINE));
    hs, acts := Extend(hs, acts, Run(1, FINE));
    hs, acts := Extend(hs, acts, Run(0, FINE));
    hs, acts := Extend(hs, acts, Run(0, FINE.(fail := true)));
  }

  /** A signal during startup: the caller cancels while the reconcile is about to run. */
  lemma CancelledReconcile() returns (hs: seq<Hub>, acts: seq<Action>)
    ensures IsRun(hs, acts) && |acts| == 4 && acts[2] == CancelCtx
    ensures hs[4] == Hub(INIT.life.(state := Started, hasCancel := true, ctxDone := true),
                         map[0 := Start(SReconcileErr(CtxCancelled))])
  {
    hs, acts := [INIT], [];
    hs, acts := Extend(hs, acts, CallStart(0));
    hs, acts := Extend(hs, acts, Run(0, FINE));
    hs, acts := Extend(hs, acts, CancelCtx);
    hs, acts := Extend(hs, acts, Run(0, FINE.(fail := true, onCtx := true)));
  }

  /** Its reconcile fails on that, and Start reports it as an error: Stop has yet to begin. */
  lemma CancelledStartReportsShutdown() returns (hs: seq<Hub>, acts: seq<Action>)
    ensures IsRun(hs, acts) && |acts| == 5 && acts[2] == CancelCtx && StartReturns(hs, acts, 4, 0, FINE)
    ensures hs[5].life.state == Started
    ensures hs[5].procs == map[0 := Start(SReturned(true, ReconcileFailed(CtxCancelled)))]
  {
    hs, acts := CancelledReconcile();
    hs, acts := Extend(hs, acts, Run(0, FINE));
  }
}
