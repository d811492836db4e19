/**
 The lifecycle of the WhatsApp session as a state machine: `initialize`,
 `disconnect`, the awaits of an attempt, retry timers and socket events, in any
 order. Two generation counters fence off stale attempts and stale sockets.
 */
module SessionLifecycle {
  import opened Wrappers

  const MAX_RETRIES: nat := 5
  const RETRY_BASE_DELAY_MS: nat := 3_000
  const RETRY_MAX_DELAY_MS: nat := 30_000

  datatype Lifecycle = Idle | Connecting | Connected | Reconnecting | LoggedOut | Stopping

  /** Where `initializeInternal` is suspended; `Running` is behind the creation of its promise. */
  datatype Stage = LoadingDeps | FetchingVersion | LoadingAuth | Running | Failed

  datatype Outcome = Resolved | Rejected

  /**
   One call of `initializeInternal` with its closure variables. `outcome` is what
   settled its promise, `observed` that `initialize` has seen it.
   */
  datatype Attempt = Attempt(stage: Stage, outcome: Option<Outcome>, observed: bool)

  /**
   The closure variable `retries`; `scheduled` and `waited` count the retries scheduled since
   the last open, and their delays.
   */
  datatype Counters = Counters(retries: nat, scheduled: nat, waited: nat)

  /** The settlements of attempts' promises, the last one on the outside. */
  datatype Log = Start | Then(before: Log, attempt: nat, outcome: Outcome)

  type Attempts = map<nat, Attempt>

  /** The lifecycle generation, which names the attempts, with the fields that go with it. */
  datatype Life = Life(generation: nat, stopping: bool, state: Lifecycle)

  /** The connection generation, which names the sockets, with the socket in use and the attempt of each socket. */
  datatype Link = Link(generation: nat, sock: Option<nat>, isConnected: bool, sockets: map<nat, nat>)

  /** The attempts and their promises: the one `initialize` awaits, and the one `disconnect` may reject. */
  datatype Promises = Promises(attempts: Attempts, initialize: Option<nat>, pendingReject: Option<nat>, log: Log)

  /** The retries armed since the lifecycle began or a socket last opened, whichever attempt they belong to. */
  datatype Tally = Tally(armed: nat, waited: nat)

  /**
   The retry timer held, the live timers with their attempts, and the retries of each attempt
   and of the lifecycle.
   */
  datatype Retries = Retries(
    timer: Option<nat>,
    live: map<nat, nat>,
    next: nat,
    counters: map<nat, Counters>,
    tally: Tally)

  datatype State = State(life: Life, link: Link, promises: Promises, retries: Retries)

  datatype Event =
    | Initialize
    | Advance(attempt: nat, ok: bool)
    | Observe(attempt: nat)
    | SocketOpen(socket: nat)
    | SocketClose(socket: nat, loggedOut: bool)
    | RetryTimer(timer: nat)
    | Disconnect

  function Initial(): State {
    State(Life(0, false, Idle), Link(0, None, false, map[]), Promises(map[], None, None, Start),
          Retries(None, map[], 0, map[], Tally(0, 0)))
  }

  /** The base delay times 2 to the power of `exponent`. */
  function Doubled(exponent: nat): nat {
    if exponent == 0 then RETRY_BASE_DELAY_MS else 2 * Doubled(exponent - 1)
  }

  function RetryDelayMs(retry: nat): nat {
    var delay := Doubled(if retry == 0 then 0 else retry - 1);
    if delay < RETRY_MAX_DELAY_MS then delay else RETRY_MAX_DELAY_MS
  }

  // ----- promises -----

  function Settle(p: Promises, g: nat, outcome: Outcome): Promises
    requires g in p.attempts
  {
    p.(attempts := p.attempts[g := p.attempts[g].(outcome := Some(outcome))], log := Then(p.log, g, outcome))
  }

  /** `settleReject` of attempt `g`, and the resolution that excludes it. */
  function SettleOpen(p: Promises, g: nat, outcome: Outcome): Promises
    requires g in p.attempts
  {
    if p.attempts[g].outcome.Some? then p else Settle(p, g, outcome).(pendingReject := None)
  }

  function AtStage(p: Promises, g: nat, stage: Stage): Promises
    requires g in p.attempts
  {
    p.(attempts := p.attempts[g := p.attempts[g].(stage := stage)])
  }

  /** An exception before the promise of the attempt exists. */
  function Throw(p: Promises, g: nat): Promises
    requires g in p.attempts
  {
    Settle(AtStage(p, g, Failed), g, Rejected)
  }

  predicate Stale(life: Life, g: nat) {
    g != life.generation || life.stopping
  }

  // ----- initialize -----

  function WithoutTimer(r: Retries): Retries {
    if r.timer.None? then r else r.(timer := None, live := r.live - {r.timer.value})
  }

  function Untallied(r: Retries): Retries {
    r.(tally := Tally(0, 0))
  }

  /** `initialize` returns the socket or joins the running attempt instead of starting one. */
  predicate Joins(st: State) {
    (st.link.isConnected && st.link.sock.Some?) || st.promises.initialize.Some?
  }

  function Begun(p: Promises, g: nat): Promises {
    p.(attempts := p.attempts[g := Attempt(LoadingDeps, None, false)], initialize := Some(g))
  }

  function DoInitialize(st: State): State {
    if Joins(st) then
      st
    else
      var g := st.life.generation + 1;
      State(Life(g, false, Connecting), st.link, Begun(st.promises, g), Untallied(WithoutTimer(st.retries)))
  }

  function NextSocket(link: Link, g: nat): Link {
    var k := link.generation + 1;
    link.(generation := k, sock := Some(k), sockets := link.sockets[k := g])
  }

  function StartSocket(st: State, g: nat): State
    requires g in st.promises.attempts
  {
    if Stale(st.life, g) then
      st.(promises := SettleOpen(st.promises, g, Rejected))
    else
      st.(link := NextSocket(st.link, g))
  }

  /** An await of the attempt is over; `ok` is false when the awaited work or the file checks behind it throw. */
  function DoAdvance(st: State, g: nat, ok: bool): State
    requires g in st.promises.attempts
  {
    var p := st.promises;
    if !ok || Stale(st.life, g) then
      st.(promises := Throw(p, g))
    else
      match p.attempts[g].stage
      case LoadingDeps => st.(promises := AtStage(p, g, FetchingVersion))
      case FetchingVersion => st.(promises := AtStage(p, g, LoadingAuth))
      case _ => StartSocket(st.(promises := AtStage(p, g, Running).(pendingReject := Some(g))), g)
  }

  /** The part of `initialize` behind its await. */
  function Observed(p: Promises, g: nat): Promises
    requires g in p.attempts
  {
    p.(initialize := if p.initialize == Some(g) then None else p.initialize,
       attempts := p.attempts[g := p.attempts[g].(observed := true)])
  }

  function DoObserve(st: State, g: nat): State
    requires g in st.promises.attempts
  {
    var failed := st.promises.attempts[g].outcome == Some(Rejected);
    var toIdle := failed && !Stale(st.life, g) && !st.life.state.LoggedOut?;
    st.(life := if toIdle then st.life.(state := Idle) else st.life, promises := Observed(st.promises, g))
  }

  // ----- socket events -----

  function CountersOf(counters: map<nat, Counters>, g: nat): Counters {
    if g in counters then counters[g] else Counters(0, 0, 0)
  }

  function Counting(r: Retries, g: nat, counters: Counters): Retries {
    r.(counters := r.counters[g := counters])
  }

  predicate IsCurrentSocket(link: Link, k: nat) {
    k == link.generation && link.sock == Some(k)
  }

  predicate HasAttempt(st: State, k: nat) {
    k in st.link.sockets && st.link.sockets[k] in st.promises.attempts
  }

  function DoOpen(st: State, k: nat): State
    requires HasAttempt(st, k)
  {
    if !IsCurrentSocket(st.link, k) then
      st
    else
      var g := st.link.sockets[k];
      State(st.life.(state := Connected), st.link.(isConnected := true), SettleOpen(st.promises, g, Resolved),
            Untallied(Counting(st.retries, g, Counters(0, 0, 0))))
  }

  function ScheduleRetry(r: Retries, stopping: bool, g: nat): Retries {
    if stopping || r.timer.Some? then
      r
    else
      var c := CountersOf(r.counters, g);
      var delay := RetryDelayMs(c.retries);
      Counting(r.(timer := Some(r.next), live := r.live[r.next := g], next := r.next + 1,
                  tally := Tally(r.tally.armed + 1, r.tally.waited + delay)),
               g, Counters(c.retries, c.scheduled + 1, c.waited + delay))
  }

  function OneMoreClose(r: Retries, g: nat): Retries {
    var c := CountersOf(r.counters, g);
    Counting(r, g, c.(retries := c.retries + 1))
  }

  /** One more close of the socket: the next retry, or the end of the retries. */
  function CountRetry(st: State, g: nat): State
    requires g in st.promises.attempts
  {
    var r := OneMoreClose(st.retries, g);
    if CountersOf(r.counters, g).retries > MAX_RETRIES then
      State(st.life.(state := Idle), st.link, SettleOpen(st.promises, g, Rejected), r)
    else
      st.(retries := ScheduleRetry(r, st.life.stopping, g))
  }

  function AfterClose(st: State, g: nat, loggedOut: bool): State
    requires g in st.promises.attempts
  {
    if st.life.stopping then
      st.(life := st.life.(state := Stopping), promises := SettleOpen(st.promises, g, Rejected))
    else if loggedOut then
      st.(life := st.life.(state := LoggedOut), promises := SettleOpen(st.promises, g, Rejected))
    else
      CountRetry(st.(life := st.life.(state := Reconnecting)), g)
  }

  function DoClose(st: State, k: nat, loggedOut: bool): State
    requires HasAttempt(st, k)
  {
    if !IsCurrentSocket(st.link, k) then
      st
    else
      AfterClose(st.(link := st.link.(isConnected := false, sock := None)), st.link.sockets[k], loggedOut)
  }

  function Fired(r: Retries, t: nat): Retries {
    r.(timer := None, live := r.live - {t})
  }

  function DoRetryTimer(st: State, t: nat): State
    requires t in st.retries.live && st.retries.live[t] in st.promises.attempts
  {
    StartSocket(st.(retries := Fired(st.retries, t)), st.retries.live[t])
  }

  // ----- disconnect -----

  function RejectedPending(p: Promises): Promises {
    if p.pendingReject.Some? && p.pendingReject.value in p.attempts then
      SettleOpen(p, p.pendingReject.value, Rejected).(pendingReject := None)
    else
      p.(pendingReject := None)
  }

  function DoDisconnect(st: State): State {
    State(Life(st.life.generation + 1, true, Stopping),
          Link(st.link.generation + 1, None, false, st.link.sockets),
          RejectedPending(st.promises).(initialize := None),
          WithoutTimer(st.retries))
  }

  // ----- runs -----

  predicate Loading(a: Attempt) {
    a.stage.LoadingDeps? || a.stage.FetchingVersion? || a.stage.LoadingAuth?
  }

  predicate Enabled(st: State, e: Event) {
    var attempts := st.promises.attempts;
    match e
    case Advance(g, _) => g in attempts && Loading(attempts[g])
    case Observe(g) => g in attempts && attempts[g].outcome.Some? && !attempts[g].observed
    case SocketOpen(k) => HasAttempt(st, k)
    case SocketClose(k, _) => HasAttempt(st, k)
    case RetryTimer(t) => t in st.retries.live && st.retries.live[t] in attempts
    case _ => true
  }

  function Step(st: State, e: Event): State {
    if !Enabled(st, e) then
      st
    else
      match e
      case Initialize => DoInitialize(st)
      case Advance(g, ok) => DoAdvance(st, g, ok)
      case Observe(g) => DoObserve(st, g)
      case SocketOpen(k) => DoOpen(st, k)
      case SocketClose(k, loggedOut) => DoClose(st, k, loggedOut)
      case RetryTimer(t) => DoRetryTimer(st, t)
      case Disconnect => DoDisconnect(st)
  }

  function RunFrom(st: State, events: seq<Event>): State {
    if events == [] then st else Step(RunFrom(st, events[..|events| - 1]), events[|events| - 1])
  }

  function Run(events: seq<Event>): State {
    RunFrom(Initial(), events)
  }

  // ----- the invariant -----

  function Count(log: Log, g: nat): nat {
    match log
    case Start => 0
    case Then(before, attempt, _) => Count(before, g) + (if attempt == g then 1 else 0)
  }

  predicate IsRunning(attempts: Attempts, g: nat) {
    g in attempts && attempts[g].stage.Running?
  }

  /** Attempt `g` runs and its promise is open. */
  predicate IsOpen(attempts: Attempts, g: nat) {
    IsRunning(attempts, g) && attempts[g].outcome.None?
  }

  /** Promises: who may still be rejected, and by whom `initialize` is awaited. */
  ghost predicate PromisesKept(p: Promises, life: Life) {
    && (forall g :: g in p.attempts ==> g <= life.generation)
    && (forall g: nat :: IsOpen(p.attempts, g) ==> !Stale(life, g) && p.pendingReject == Some(g))
    && (life.generation in p.attempts && p.attempts[life.generation].outcome.None? ==>
      p.initialize == Some(life.generation))
    && (forall g :: g in p.attempts && Loading(p.attempts[g]) ==> p.attempts[g].outcome.None?)
    && (p.pendingReject.Some? ==> IsOpen(p.attempts, p.pendingReject.value))
  }

  ghost predicate SettledAsTold(p: Promises) {
    forall g :: Count(p.log, g) == if g in p.attempts && p.attempts[g].outcome.Some? then 1 else 0
  }

  ghost predicate SocketsKept(link: Link, attempts: Attempts) {
    && (forall k :: k in link.sockets ==> k <= link.generation && IsRunning(attempts, link.sockets[k]))
    && (link.sock.Some? ==> link.sock.value == link.generation && link.sock.value in link.sockets)
  }

  ghost predicate TimersKept(r: Retries, attempts: Attempts) {
    && (forall t :: t in r.live <==> r.timer == Some(t))
    && (forall t :: t in r.live ==> t < r.next && IsRunning(attempts, r.live[t]))
    && (forall g :: g in r.counters ==> IsRunning(attempts, g))
  }

  predicate Quiet(st: State) {
    && st.link.sock.None? && !st.link.isConnected && st.retries.timer.None? && st.life.state.Stopping?
    && st.promises.initialize.None? && st.promises.pendingReject.None?
  }

  ghost predicate Inv(st: State) {
    && PromisesKept(st.promises, st.life) && SettledAsTold(st.promises)
    && SocketsKept(st.link, st.promises.attempts)
    && TimersKept(st.retries, st.promises.attempts)
    && (st.life.stopping ==> Quiet(st))
  }

  /** What runs keeps running. */
  ghost predicate RunningStays(attempts: Attempts, attempts': Attempts) {
    forall g :: IsRunning(attempts, g) ==> IsRunning(attempts', g)
  }

  lemma SocketsStayKept(link: Link, r: Retries, attempts: Attempts, attempts': Attempts)
    requires SocketsKept(link, attempts) && TimersKept(r, attempts) && RunningStays(attempts, attempts')
    ensures SocketsKept(link, attempts') && TimersKept(r, attempts')
  {
  }

  lemma SettleOpenKeeps(p: Promises, life: Life, g: nat, outcome: Outcome)
    requires PromisesKept(p, life) && SettledAsTold(p) && IsRunning(p.attempts, g)
    ensures var p' := SettleOpen(p, g, outcome);
            && PromisesKept(p', life) && SettledAsTold(p')
            && RunningStays(p.attempts, p'.attempts) && p'.initialize == p.initialize
            && p'.attempts[g].outcome.Some?
            && forall h :: h in p.attempts && h != g ==> h in p'.attempts && p'.attempts[h] == p.attempts[h]
  {
    var p' := SettleOpen(p, g, outcome);
    forall h: nat ensures IsOpen(p'.attempts, h) ==> IsOpen(p.attempts, h) && h != g {
    }
    assert IsOpen(p.attempts, g) || p' == p;
  }

  lemma ThrowKeeps(p: Promises, life: Life, g: nat)
    requires PromisesKept(p, life) && SettledAsTold(p) && g in p.attempts && Loading(p.attempts[g])
    ensures PromisesKept(Throw(p, g), life) && SettledAsTold(Throw(p, g))
    ensures RunningStays(p.attempts, Throw(p, g).attempts)
  {
  }

  lemma StageKeeps(p: Promises, life: Life, g: nat, stage: Stage)
    requires PromisesKept(p, life) && SettledAsTold(p) && g in p.attempts && Loading(p.attempts[g])
    requires Loading(Attempt(stage, None, false))
    ensures PromisesKept(AtStage(p, g, stage), life) && SettledAsTold(AtStage(p, g, stage))
    ensures RunningStays(p.attempts, AtStage(p, g, stage).attempts)
  {
  }

  lemma RunningKeeps(p: Promises, life: Life, g: nat)
    requires PromisesKept(p, life) && SettledAsTold(p) && g in p.attempts && Loading(p.attempts[g]) && !Stale(life, g)
    ensures var p' := AtStage(p, g, Running).(pendingReject := Some(g));
            PromisesKept(p', life) && SettledAsTold(p') && RunningStays(p.attempts, p'.attempts)
  {
  }

  /** Settling the promise of a running attempt, whatever else happens to the state of the lifecycle. */
  lemma SettleKeepsInv(st: State, g: nat, outcome: Outcome, state: Lifecycle)
    requires Inv(st) && IsRunning(st.promises.attempts, g) && (st.life.stopping ==> state.Stopping?)
    ensures Inv(st.(life := st.life.(state := state), promises := SettleOpen(st.promises, g, outcome)))
  {
    SettleOpenKeeps(st.promises, st.life, g, outcome);
    SocketsStayKept(st.link, st.retries, st.promises.attempts, SettleOpen(st.promises, g, outcome).attempts);
  }

  lemma StartKeepsInv(st: State, g: nat)
    requires Inv(st) && IsRunning(st.promises.attempts, g)
    ensures Inv(StartSocket(st, g))
  {
    if Stale(st.life, g) {
      SettleKeepsInv(st, g, Rejected, st.life.state);
    }
  }

  lemma AdvanceKeepsInv(st: State, g: nat, ok: bool)
    requires Inv(st) && g in st.promises.attempts && Loading(st.promises.attempts[g])
    ensures Inv(DoAdvance(st, g, ok))
  {
    var p, life := st.promises, st.life;
    if !ok || Stale(life, g) {
      ThrowKeeps(p, life, g);
      SocketsStayKept(st.link, st.retries, p.attempts, Throw(p, g).attempts);
    } else {
      match p.attempts[g].stage
      case LoadingDeps =>
        StageKeeps(p, life, g, FetchingVersion);
        SocketsStayKept(st.link, st.retries, p.attempts, AtStage(p, g, FetchingVersion).attempts);
      case FetchingVersion =>
        StageKeeps(p, life, g, LoadingAuth);
        SocketsStayKept(st.link, st.retries, p.attempts, AtStage(p, g, LoadingAuth).attempts);
      case LoadingAuth =>
        RunningKeeps(p, life, g);
        SocketsStayKept(st.link, st.retries, p.attempts, AtStage(p, g, Running).attempts);
        StartKeepsInv(st.(promises := AtStage(p, g, Running).(pendingReject := Some(g))), g);
    }
  }

  /** Only an attempt of the current lifecycle can be open, and `initialize` would join it. */
  lemma NoneOpenAtStart(st: State, g: nat)
    requires Inv(st) && !Joins(st)
    ensures !IsOpen(st.promises.attempts, g)
  {
  }

  lemma BegunKeeps(p: Promises, life: Life)
    requires PromisesKept(p, life) && SettledAsTold(p) && p.initialize.None?
    ensures var g := life.generation + 1;
            && PromisesKept(Begun(p, g), Life(g, false, Connecting)) && SettledAsTold(Begun(p, g))
            && RunningStays(p.attempts, Begun(p, g).attempts)
  {
    var g := life.generation + 1;
    forall h: nat ensures IsOpen(Begun(p, g).attempts, h) ==> IsOpen(p.attempts, h) {
    }
  }

  lemma WithoutTimerKeeps(r: Retries, attempts: Attempts)
    requires TimersKept(r, attempts)
    ensures TimersKept(WithoutTimer(r), attempts) && WithoutTimer(r).timer.None? && WithoutTimer(r).live == map[]
    ensures TimersKept(Untallied(WithoutTimer(r)), attempts)
  {
    forall t ensures t !in WithoutTimer(r).live {
    }
  }

  lemma BeginsKeeps(life: Life, link: Link, p: Promises, r: Retries)
    requires PromisesKept(p, life) && SettledAsTold(p) && p.initialize.None?
    requires SocketsKept(link, p.attempts) && TimersKept(r, p.attempts)
    ensures var p' := Begun(p, life.generation + 1);
            && PromisesKept(p', Life(life.generation + 1, false, Connecting)) && SettledAsTold(p')
            && SocketsKept(link, p'.attempts) && TimersKept(Untallied(WithoutTimer(r)), p'.attempts)
  {
    BegunKeeps(p, life);
    WithoutTimerKeeps(r, p.attempts);
    SocketsStayKept(link, Untallied(WithoutTimer(r)), p.attempts, Begun(p, life.generation + 1).attempts);
  }

  lemma InitializeKeepsInv(st: State)
    requires Inv(st)
    ensures Inv(DoInitialize(st))
  {
    if !Joins(st) {
      BeginsKeeps(st.life, st.link, st.promises, st.retries);
    }
  }

  lemma ObserveKeepsInv(st: State, g: nat)
    requires Inv(st) && g in st.promises.attempts && st.promises.attempts[g].outcome.Some?
    ensures Inv(DoObserve(st, g))
  {
    forall h: nat ensures IsOpen(Observed(st.promises, g).attempts, h) ==> IsOpen(st.promises.attempts, h) {
    }
    SocketsStayKept(st.link, st.retries, st.promises.attempts, Observed(st.promises, g).attempts);
  }

  lemma OpenKeepsInv(st: State, k: nat)
    requires Inv(st) && k in st.link.sockets
    ensures Inv(DoOpen(st, k))
  {
    if IsCurrentSocket(st.link, k) {
      var g := st.link.sockets[k];
      SettleKeepsInv(st, g, Resolved, Connected);
    }
  }

  lemma CountingKeeps(r: Retries, attempts: Attempts, stopping: bool, g: nat)
    requires TimersKept(r, attempts) && IsRunning(attempts, g)
    ensures TimersKept(OneMoreClose(r, g), attempts)
    ensures TimersKept(ScheduleRetry(r, stopping, g), attempts)
  {
  }

  lemma CountRetryKeepsInv(st: State, g: nat)
    requires Inv(st) && IsRunning(st.promises.attempts, g) && !st.life.stopping
    ensures Inv(CountRetry(st, g))
  {
    CountingKeeps(st.retries, st.promises.attempts, false, g);
    var r := OneMoreClose(st.retries, g);
    CountingKeeps(r, st.promises.attempts, false, g);
    SettleKeepsInv(st.(retries := r), g, Rejected, Idle);
  }

  lemma CloseKeepsInv(st: State, k: nat, loggedOut: bool)
    requires Inv(st) && k in st.link.sockets
    ensures Inv(DoClose(st, k, loggedOut))
  {
    if IsCurrentSocket(st.link, k) {
      var st1, g := st.(link := st.link.(isConnected := false, sock := None)), st.link.sockets[k];
      if loggedOut {
        SettleKeepsInv(st1, g, Rejected, LoggedOut);
      } else {
        CountRetryKeepsInv(st1.(life := st1.life.(state := Reconnecting)), g);
      }
    }
  }

  lemma TimerKeepsInv(st: State, t: nat)
    requires Inv(st) && t in st.retries.live
    ensures Inv(DoRetryTimer(st, t))
  {
    StartKeepsInv(st.(retries := Fired(st.retries, t)), st.retries.live[t]);
  }

  lemma RejectedPendingKeeps(p: Promises, life: Life)
    requires PromisesKept(p, life) && SettledAsTold(p)
    ensures var p' := RejectedPending(p);
            && PromisesKept(p'.(initialize := None), Life(life.generation + 1, true, Stopping))
            && SettledAsTold(p') && RunningStays(p.attempts, p'.attempts)
            && forall g: nat :: !IsOpen(p'.attempts, g)
  {
    if p.pendingReject.Some? {
      SettleOpenKeeps(p, life, p.pendingReject.value, Rejected);
    }
    var p' := RejectedPending(p);
    forall g: nat ensures IsOpen(p'.attempts, g) ==> IsOpen(p.attempts, g) {
    }
  }

  lemma DisconnectKeepsInv(st: State)
    requires Inv(st)
    ensures Inv(DoDisconnect(st))
  {
    RejectedPendingKeeps(st.promises, st.life);
    SocketsStayKept(st.link, WithoutTimer(st.retries), st.promises.attempts, RejectedPending(st.promises).attempts);
  }

  lemma StepKeepsInv(st: State, e: Event)
    requires Inv(st)
    ensures Inv(Step(st, e))
  {
    if Enabled(st, e) {
      match e
      case Initialize => InitializeKeepsInv(st);
      case Advance(g, ok) => AdvanceKeepsInv(st, g, ok);
      case Observe(g) => ObserveKeepsInv(st, g);
      case SocketOpen(k) => OpenKeepsInv(st, k);
      case SocketClose(k, loggedOut) => CloseKeepsInv(st, k, loggedOut);
      case RetryTimer(t) => TimerKeepsInv(st, t);
      case Disconnect => DisconnectKeepsInv(st);
    }
  }

  lemma {:induction false} RunKeepsInv(st: State, events: seq<Event>)
    requires Inv(st)
    ensures Inv(RunFrom(st, events))
  {
    if events != [] {
      RunKeepsInv(st, events[..|events| - 1]);
      StepKeepsInv(RunFrom(st, events[..|events| - 1]), events[|events| - 1]);
    }
  }

  // ----- retries -----

  /** The sum of the first `n` retry delays. */
  function Budget(n: nat): nat {
    if n == 0 then 0 else Budget(n - 1) + RetryDelayMs(n)
  }

  function Spent(c: Counters): nat {
    if c.retries < MAX_RETRIES then c.retries else MAX_RETRIES
  }

  predicate WithinBudget(c: Counters) {
    c.scheduled <= Spent(c) && c.waited <= Budget(Spent(c))
  }

  ghost predicate BudgetKept(r: Retries) {
    forall g :: WithinBudget(CountersOf(r.counters, g))
  }

  lemma RetryKeepsBudget(c: Counters)
    requires WithinBudget(c)
    ensures WithinBudget(c.(retries := c.retries + 1))
    ensures c.retries < MAX_RETRIES ==>
              WithinBudget(Counters(c.retries + 1, c.scheduled + 1, c.waited + RetryDelayMs(c.retries + 1)))
  {
  }

  lemma CountRetryKeepsBudget(st: State, g: nat)
    requires g in st.promises.attempts && BudgetKept(st.retries)
    ensures BudgetKept(CountRetry(st, g).retries)
  {
    RetryKeepsBudget(CountersOf(st.retries.counters, g));
    var r := CountRetry(st, g).retries;
    forall h ensures WithinBudget(CountersOf(r.counters, h)) {
      assert WithinBudget(CountersOf(st.retries.counters, h));
    }
  }

  lemma StepKeepsBudget(st: State, e: Event)
    requires BudgetKept(st.retries)
    ensures BudgetKept(Step(st, e).retries)
  {
    var r := Step(st, e).retries;
    if e.SocketClose? && Enabled(st, e) {
      var st1 := st.(link := st.link.(isConnected := false, sock := None));
      CountRetryKeepsBudget(st1.(life := st1.life.(state := Reconnecting)), st.link.sockets[e.socket]);
    } else {
      forall h ensures WithinBudget(CountersOf(r.counters, h)) {
        assert WithinBudget(CountersOf(st.retries.counters, h));
      }
    }
  }

  lemma {:induction false} RunKeepsBudget(events: seq<Event>)
    ensures BudgetKept(Run(events).retries)
  {
    if events != [] {
      RunKeepsBudget(events[..|events| - 1]);
      StepKeepsBudget(Run(events[..|events| - 1]), events[|events| - 1]);
    }
  }

  // ----- guarantees -----

  /** A step only creates a socket for the current lifecycle, and never while stopping; generations never go back. */
  lemma StepsCreateForTheCurrent(st: State, e: Event)
    ensures var st' := Step(st, e);
            && st.life.generation <= st'.life.generation
            && (forall k :: k in st.link.sockets && k <= st.link.generation ==>
                  k in st'.link.sockets && st'.link.sockets[k] == st.link.sockets[k])
            && (forall k :: k in st'.link.sockets && k !in st.link.sockets ==>
                  !st.life.stopping && st'.link.sockets[k] == st.life.generation)
  {
  }

  /**
   Once the lifecycle has moved past an attempt, no continuation of the run, with
   whatever calls and callbacks, creates a socket for it.
   */
  lemma {:induction false} StaleAttemptsCreateNoSocket(before: seq<Event>, after: seq<Event>, k: nat)
    ensures Run(before).life.generation <= RunFrom(Run(before), after).life.generation
    ensures var st, st' := Run(before), RunFrom(Run(before), after);
            k in st'.link.sockets && k !in st.link.sockets ==> st'.link.sockets[k] >= st.life.generation
  {
    if after != [] {
      var front := after[..|after| - 1];
      StaleAttemptsCreateNoSocket(before, front, k);
      RunKeepsInv(Initial(), before);
      RunKeepsInv(Run(before), front);
      StepsCreateForTheCurrent(RunFrom(Run(before), front), after[|after| - 1]);
    }
  }

  ghost predicate NoInitialize(events: seq<Event>) {
    forall i :: 0 <= i < |events| ==> !events[i].Initialize?
  }

  function ResolvedIn(log: Log): nat {
    match log
    case Start => 0
    case Then(before, _, outcome) => ResolvedIn(before) + (if outcome.Resolved? then 1 else 0)
  }

  lemma StoppedStepStaysQuiet(st: State, e: Event)
    requires Inv(st) && st.life.stopping && !e.Initialize?
    ensures var st' := Step(st, e);
            st'.life.stopping && st'.link.sockets == st.link.sockets
              && ResolvedIn(st'.promises.log) == ResolvedIn(st.promises.log)
  {
  }

  /**
   After `disconnect`, until the next `initialize`, no callback creates a socket,
   resolves a promise, or makes the session connected.
   */
  lemma {:induction false} DisconnectIsFinal(before: seq<Event>, after: seq<Event>)
    requires NoInitialize(after)
    ensures var stopped := Step(Run(before), Disconnect);
            var st := RunFrom(stopped, after);
            && st.life.stopping && Quiet(st)
            && st.link.sockets == stopped.link.sockets
            && ResolvedIn(st.promises.log) == ResolvedIn(stopped.promises.log)
  {
    RunKeepsInv(Initial(), before);
    DisconnectKeepsInv(Run(before));
    var stopped := Step(Run(before), Disconnect);
    RunKeepsInv(stopped, after);
    if after != [] {
      var front := after[..|after| - 1];
      DisconnectIsFinal(before, front);
      RunKeepsInv(stopped, front);
      StoppedStepStaysQuiet(RunFrom(stopped, front), after[|after| - 1]);
    }
  }

  /** Events of every socket but the latest one created change nothing at all. */
  lemma OldSocketsAreIgnored(events: seq<Event>, k: nat, later: nat, loggedOut: bool)
    requires k in Run(events).link.sockets && later in Run(events).link.sockets && k < later
    ensures Step(Run(events), SocketOpen(k)) == Run(events)
    ensures Step(Run(events), SocketClose(k, loggedOut)) == Run(events)
  {
    RunKeepsInv(Initial(), events);
  }

  /** Every promise of `initialize` is settled at most once, and exactly once when it is reported settled. */
  lemma PromisesSettleOnce(events: seq<Event>, g: nat)
    ensures var p := Run(events).promises;
            && Count(p.log, g) <= 1
            && (g in p.attempts ==> (Count(p.log, g) == 1 <==> p.attempts[g].outcome.Some?))
  {
    RunKeepsInv(Initial(), events);
  }

  /** An attempt whose promise is still open can always be rejected by `disconnect`, unless it is still loading. */
  lemma DisconnectRejectsTheRunning(events: seq<Event>, g: nat)
    requires IsOpen(Run(events).promises.attempts, g)
    ensures Step(Run(events), Disconnect).promises.attempts[g].outcome == Some(Rejected)
  {
    RunKeepsInv(Initial(), events);
  }

  /** The only live retry timer is the one in `retryTimer`. */
  lemma OneRetryTimer(events: seq<Event>, t: nat)
    ensures t in Run(events).retries.live <==> Run(events).retries.timer == Some(t)
  {
    RunKeepsInv(Initial(), events);
  }

  /** Between two opens of an attempt's socket at most five retries are scheduled, with at most 75 seconds of delay. */
  lemma RetriesAreBounded(events: seq<Event>, g: nat)
    ensures var c := CountersOf(Run(events).retries.counters, g);
            c.scheduled <= MAX_RETRIES && c.waited <= 75_000
  {
    RunKeepsBudget(events);
    var c := CountersOf(Run(events).retries.counters, g);
    assert WithinBudget(c);
    BudgetOfAll();
    BudgetGrows(Spent(c), MAX_RETRIES);
  }

  lemma BudgetOfAll()
    ensures Budget(MAX_RETRIES) == 75_000
  {
    assert Doubled(0) == 3_000 && Doubled(1) == 6_000 && Doubled(2) == 12_000;
    assert Doubled(3) == 24_000 && Doubled(4) == 48_000;
    assert Budget(1) == 3_000;
    assert Budget(2) == 9_000;
    assert Budget(3) == 21_000;
    assert Budget(4) == 45_000;
  }

  lemma {:induction false} BudgetGrows(m: nat, n: nat)
    requires m <= n
    ensures Budget(m) <= Budget(n)
  {
    if m < n {
      BudgetGrows(m, n - 1);
    }
  }
}
