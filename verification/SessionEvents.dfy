/**
 What the callbacks of the current socket and of the retry timer do to the session,
 in every run: opens, closes and logouts, retries and their delays.
 */
module SessionEvents {
  import opened Wrappers
  import opened SessionLifecycle

  /** Socket `k` is the one in use, created by attempt `g`. */
  predicate IsSocketOf(st: State, k: nat, g: nat) {
    IsCurrentSocket(st.link, k) && k in st.link.sockets && st.link.sockets[k] == g
  }

  /** How often a socket of attempt `g` has closed, other than by a logout, since one of its sockets last opened. */
  function ClosesSinceOpen(events: seq<Event>, g: nat): nat {
    if events == [] then 0
    else
      var front, e := events[..|events| - 1], events[|events| - 1];
      match e
      case SocketOpen(k) => if IsSocketOf(Run(front), k, g) then 0 else ClosesSinceOpen(front, g)
      case SocketClose(k, loggedOut) =>
        ClosesSinceOpen(front, g) + (if IsSocketOf(Run(front), k, g) && !loggedOut then 1 else 0)
      case _ => ClosesSinceOpen(front, g)
  }

  lemma CloseCounts(st: State, k: nat, loggedOut: bool, g: nat)
    requires Inv(st) && HasAttempt(st, k)
    ensures CountersOf(DoClose(st, k, loggedOut).retries.counters, g).retries ==
            CountersOf(st.retries.counters, g).retries + (if IsSocketOf(st, k, g) && !loggedOut then 1 else 0)
  {
  }

  lemma StepCounts(st: State, e: Event, g: nat)
    requires Inv(st) && !e.SocketClose?
    ensures CountersOf(Step(st, e).retries.counters, g).retries ==
            if e.SocketOpen? && IsSocketOf(st, e.socket, g) then 0 else CountersOf(st.retries.counters, g).retries
  {
  }

  /** In every run the counter of an attempt is the number of closes since one of its sockets last opened. */
  lemma {:induction false} RetriesAreCloses(events: seq<Event>, g: nat)
    ensures CountersOf(Run(events).retries.counters, g).retries == ClosesSinceOpen(events, g)
  {
    if events != [] {
      var front, e := events[..|events| - 1], events[|events| - 1];
      RetriesAreCloses(front, g);
      RunKeepsInv(Initial(), front);
      if e.SocketClose? {
        if HasAttempt(Run(front), e.socket) { CloseCounts(Run(front), e.socket, e.loggedOut, g); }
      } else {
        StepCounts(Run(front), e, g);
      }
    }
  }

  /** The promise of attempt `g` is settled that way if it was open; no other promise, and no stage, changes. */
  ghost predicate OnlySettles(p: Promises, p': Promises, g: nat, outcome: Outcome) {
    && p'.attempts.Keys == p.attempts.Keys && g in p.attempts
    && p'.initialize == p.initialize
    && (forall h :: h in p.attempts && h != g ==> p'.attempts[h] == p.attempts[h])
    && p'.attempts[g] ==
       if p.attempts[g].outcome.None? then p.attempts[g].(outcome := Some(outcome)) else p.attempts[g]
  }

  lemma SettlesOnly(p: Promises, g: nat, outcome: Outcome)
    requires g in p.attempts
    ensures OnlySettles(p, SettleOpen(p, g, outcome), g, outcome)
  {
  }

  /** The open of the current socket connects the session, and resolves an open promise; no timer changes. */
  lemma OpenConnects(events: seq<Event>, k: nat, g: nat)
    requires IsSocketOf(Run(events), k, g)
    ensures var st, st' := Run(events), Step(Run(events), SocketOpen(k));
            && st'.life == st.life.(state := Connected) && st'.link == st.link.(isConnected := true)
            && OnlySettles(st.promises, st'.promises, g, Resolved)
            && st'.retries.timer == st.retries.timer && st'.retries.live == st.retries.live
            && ClosesSinceOpen(events + [SocketOpen(k)], g) == 0
  {
    RunKeepsInv(Initial(), events);
    SettlesOnly(Run(events).promises, g, Resolved);
    var longer := events + [SocketOpen(k)];
    assert longer[..|longer| - 1] == events;
  }

  /** A logout of the current socket ends the session: an open promise is rejected, and nothing is retried. */
  lemma LogoutEnds(events: seq<Event>, k: nat, g: nat)
    requires IsSocketOf(Run(events), k, g)
    ensures var st, st' := Run(events), Step(Run(events), SocketClose(k, true));
            && st'.life == st.life.(state := LoggedOut)
            && st'.link == st.link.(isConnected := false, sock := None)
            && OnlySettles(st.promises, st'.promises, g, Rejected) && st'.retries == st.retries
  {
    RunKeepsInv(Initial(), events);
    SettlesOnly(Run(events).promises, g, Rejected);
  }

  /** One timer more, for attempt `g` and with that delay. */
  predicate Arms(r: Retries, r': Retries, g: nat, delay: nat) {
    && r'.timer == Some(r.next) && r'.live == map[r.next := g] && r'.next == r.next + 1
    && r'.tally == Tally(r.tally.armed + 1, r.tally.waited + delay)
  }

  /** The timers are as they were. */
  predicate ArmsNothing(r: Retries, r': Retries) {
    r'.timer == r.timer && r'.live == r.live && r'.next == r.next && r'.tally == r.tally
  }

  /**
   Any other close of the current socket is retried: unless a timer is held, one is armed,
   with the delay of that retry.
   */
  lemma CloseRetries(events: seq<Event>, k: nat, g: nat)
    requires IsSocketOf(Run(events), k, g) && ClosesSinceOpen(events, g) < 5
    ensures var st, st' := Run(events), Step(Run(events), SocketClose(k, false));
            && st'.life == st.life.(state := Reconnecting)
            && st'.link == st.link.(isConnected := false, sock := None) && st'.promises == st.promises
            && (if st.retries.timer.None?
                then Arms(st.retries, st'.retries, g, RetryDelayMs(ClosesSinceOpen(events, g) + 1))
                else ArmsNothing(st.retries, st'.retries))
  {
    RunKeepsInv(Initial(), events);
    RetriesAreCloses(events, g);
    CloseArms(Run(events), k, g, ClosesSinceOpen(events, g));
  }

  lemma CloseArms(st: State, k: nat, g: nat, closes: nat)
    requires Inv(st) && IsSocketOf(st, k, g) && CountersOf(st.retries.counters, g).retries == closes < 5
    ensures var st' := DoClose(st, k, false);
            && st'.life == st.life.(state := Reconnecting)
            && st'.link == st.link.(isConnected := false, sock := None) && st'.promises == st.promises
            && (if st.retries.timer.None? then Arms(st.retries, st'.retries, g, RetryDelayMs(closes + 1))
                else ArmsNothing(st.retries, st'.retries))
  {
    if st.retries.timer.None? {
      NoTimerNoneLive(st.retries, st.promises.attempts);
    }
  }

  lemma NoTimerNoneLive(r: Retries, attempts: Attempts)
    requires TimersKept(r, attempts) && r.timer.None?
    ensures r.live == map[]
  {
    assert forall t :: t !in r.live;
  }

  /** The sixth close since an open is not: the attempt gives up, and its promise is rejected if it is open. */
  lemma SixthCloseGivesUp(events: seq<Event>, k: nat, g: nat)
    requires IsSocketOf(Run(events), k, g) && ClosesSinceOpen(events, g) >= 5
    ensures var st, st' := Run(events), Step(Run(events), SocketClose(k, false));
            && st'.life == st.life.(state := Idle)
            && st'.link == st.link.(isConnected := false, sock := None)
            && ArmsNothing(st.retries, st'.retries) && OnlySettles(st.promises, st'.promises, g, Rejected)
  {
    RunKeepsInv(Initial(), events);
    RetriesAreCloses(events, g);
    SettlesOnly(Run(events).promises, g, Rejected);
  }

  /** One socket more, in use, for attempt `g`. */
  function WithSocketOf(link: Link, g: nat): Link {
    Link(link.generation + 1, Some(link.generation + 1), link.isConnected, link.sockets[link.generation + 1 := g])
  }

  /** The timer that fires is forgotten, and opens the next socket for its attempt iff that is still the current one. */
  lemma TimerReconnects(events: seq<Event>, t: nat)
    requires t in Run(events).retries.live
    ensures var st, st' := Run(events), Step(Run(events), RetryTimer(t));
            var g := st.retries.live[t];
            && st'.retries.timer.None? && st'.retries.live == map[] && st'.life == st.life
            && (if g == st.life.generation && !st.life.stopping
                then st'.link == WithSocketOf(st.link, g) && st'.promises == st.promises
                else st'.link == st.link && OnlySettles(st.promises, st'.promises, g, Rejected))
  {
    RunKeepsInv(Initial(), events);
    var r := Run(events).retries;
    SettlesOnly(Run(events).promises, r.live[t], Rejected);
    assert r.live - {t} == map[] by {
      assert forall u :: u !in r.live - {t};
    }
  }

  /** The first retry waits three seconds, and each later one twice as long as the one before, up to thirty. */
  lemma DelaysDouble(retry: nat)
    ensures RetryDelayMs(1) == 3_000
    ensures retry >= 1 ==>
              RetryDelayMs(retry + 1) == if 2 * RetryDelayMs(retry) < 30_000 then 2 * RetryDelayMs(retry) else 30_000
  {
  }

  // ----- attempts -----

  /** An await of attempt `g` is over, in time. */
  predicate Passes(st: State, e: Event, g: nat) {
    e == Advance(g, true) && Enabled(st, e) && !Stale(st.life, g)
  }

  /** How many awaits attempt `g` has passed. */
  function Passed(events: seq<Event>, g: nat): nat {
    if events == [] then 0
    else
      var front, e := events[..|events| - 1], events[|events| - 1];
      Passed(front, g) + (if Passes(Run(front), e, g) then 1 else 0)
  }

  function StageBehind(passed: nat): Stage {
    if passed == 0 then LoadingDeps
    else if passed == 1 then FetchingVersion
    else if passed == 2 then LoadingAuth
    else Running
  }

  ghost predicate AtStageOf(st: State, g: nat, passed: nat) {
    if g in st.promises.attempts
    then st.promises.attempts[g].stage.Failed? || (passed <= 3 && st.promises.attempts[g].stage == StageBehind(passed))
    else passed == 0
  }

  lemma AdvancePasses(st: State, h: nat, ok: bool, g: nat, passed: nat)
    requires Inv(st) && AtStageOf(st, g, passed) && h in st.promises.attempts && Loading(st.promises.attempts[h])
    ensures AtStageOf(DoAdvance(st, h, ok), g, passed + (if h == g && ok && !Stale(st.life, g) then 1 else 0))
  {
  }

  lemma StepPasses(st: State, e: Event, g: nat, passed: nat)
    requires Inv(st) && AtStageOf(st, g, passed)
    ensures AtStageOf(Step(st, e), g, passed + (if Passes(st, e, g) then 1 else 0))
  {
    if e.Advance? && Enabled(st, e) {
      AdvancePasses(st, e.attempt, e.ok, g, passed);
    }
  }

  lemma {:induction false} StageIsPassed(events: seq<Event>, g: nat)
    ensures AtStageOf(Run(events), g, Passed(events, g))
  {
    if events != [] {
      StageIsPassed(events[..|events| - 1], g);
      RunKeepsInv(Initial(), events[..|events| - 1]);
      StepPasses(Run(events[..|events| - 1]), events[|events| - 1], g, Passed(events[..|events| - 1], g));
    }
  }

  /**
   An attempt opens its first socket when it has passed its third await in time; an
   await that throws, or comes too late, rejects it, and no await touches the timers.
   */
  lemma ThirdAwaitOpens(events: seq<Event>, g: nat, ok: bool)
    requires Enabled(Run(events), Advance(g, ok))
    ensures var st, st' := Run(events), Step(Run(events), Advance(g, ok));
            && st'.life == st.life && st'.retries == st.retries && Passed(events, g) <= 2
            && st'.link == (if Passes(st, Advance(g, ok), g) && Passed(events, g) == 2
                            then WithSocketOf(st.link, g) else st.link)
            && (!Passes(st, Advance(g, ok), g) ==>
                  OnlySettles(st.promises, AtStage(st'.promises, g, st.promises.attempts[g].stage), g, Rejected))
  {
    RunKeepsInv(Initial(), events);
    StageIsPassed(events, g);
    AwaitOver(Run(events), g, ok, Passed(events, g));
  }

  lemma AwaitOver(st: State, g: nat, ok: bool, passed: nat)
    requires Inv(st) && AtStageOf(st, g, passed) && g in st.promises.attempts && Loading(st.promises.attempts[g])
    ensures var st', inTime := DoAdvance(st, g, ok), ok && !Stale(st.life, g);
            && st'.life == st.life && st'.retries == st.retries && passed <= 2
            && st'.link == (if inTime && passed == 2 then WithSocketOf(st.link, g) else st.link)
            && (!inTime ==>
                  OnlySettles(st.promises, AtStage(st'.promises, g, st.promises.attempts[g].stage), g, Rejected))
  {
  }

  // ----- initialize and disconnect -----

  /**
   `initialize` starts an attempt, without a retry timer, iff there is neither a connected
   socket nor a running attempt.
   */
  lemma InitializeStartsIff(events: seq<Event>)
    ensures var st, st' := Run(events), Step(Run(events), Initialize);
            var g := st.life.generation + 1;
            if (st.link.isConnected && st.link.sock.Some?) || st.promises.initialize.Some? then st' == st
            else
              && st'.life == Life(g, false, Connecting) && st'.link == st.link
              && st'.promises == st.promises.(initialize := Some(g),
                                              attempts := st.promises.attempts[g := Attempt(LoadingDeps, None, false)])
              && g !in st.promises.attempts
              && st'.retries.timer.None? && st'.retries.live == map[]
  {
    RunKeepsInv(Initial(), events);
    var st := Run(events);
    WithoutTimerKeeps(st.retries, st.promises.attempts);
  }

  /**
   `initialize` sees its attempt settled: it is awaited no longer, and a failure of the
   current one leaves the session idle.
   */
  lemma FailureFallsBack(events: seq<Event>, g: nat)
    requires Enabled(Run(events), Observe(g))
    ensures var st, st' := Run(events), Step(Run(events), Observe(g));
            && st'.link == st.link && st'.retries == st.retries
            && st'.promises.initialize == (if st.promises.initialize == Some(g) then None else st.promises.initialize)
            && st'.life == if st.promises.attempts[g].outcome == Some(Rejected) && g == st.life.generation
                              && !st.life.stopping && st.life.state != LoggedOut
                           then st.life.(state := Idle) else st.life
  {
  }

  /** `disconnect` moves both generations on, forgets socket and timer, and rejects the running attempt that is open. */
  lemma DisconnectStops(events: seq<Event>)
    ensures var st, st' := Run(events), Step(Run(events), Disconnect);
            && st'.life == Life(st.life.generation + 1, true, Stopping)
            && st'.link == Link(st.link.generation + 1, None, false, st.link.sockets)
            && st'.retries.timer.None? && st'.retries.live == map[] && st'.promises.initialize.None?
            && st'.promises.attempts.Keys == st.promises.attempts.Keys
            && forall g :: g in st.promises.attempts ==>
                 st'.promises.attempts[g] == if IsOpen(st.promises.attempts, g)
                                             then st.promises.attempts[g].(outcome := Some(Rejected))
                                             else st.promises.attempts[g]
  {
    RunKeepsInv(Initial(), events);
    var st := Run(events);
    WithoutTimerKeeps(st.retries, st.promises.attempts);
  }
}
