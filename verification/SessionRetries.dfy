/**
 The retries of one lifecycle, whichever attempt arms them: `initialize` leaves a
 socket of an earlier attempt in use, and its close is retried beside the closes
 of the new attempt.
 */
module SessionRetries {
  import opened Wrappers
  import opened SessionLifecycle
  import opened SessionOverlap

  const MAX_WAITED_MS: nat := 75_000

  /** More retries, or more delay, than one attempt may have between two opens. */
  predicate Overrun(st: State) {
    st.retries.tally.armed > MAX_RETRIES || st.retries.tally.waited > MAX_WAITED_MS
  }

  /** The socket in use belongs to an attempt of an earlier lifecycle. */
  predicate InheritsSocket(st: State) {
    st.link.sock.Some? && st.link.sock.value in st.link.sockets
    && st.link.sockets[st.link.sock.value] != st.life.generation
  }

  function Mine(st: State): Counters {
    CountersOf(st.retries.counters, st.life.generation)
  }

  lemma DelayIsBounded(retry: nat)
    ensures RetryDelayMs(retry) <= RETRY_MAX_DELAY_MS
  {
  }

  lemma AttemptIsBounded(r: Retries, g: nat)
    requires BudgetKept(r)
    ensures CountersOf(r.counters, g).scheduled <= MAX_RETRIES && CountersOf(r.counters, g).waited <= MAX_WAITED_MS
  {
    var c := CountersOf(r.counters, g);
    assert WithinBudget(c);
    BudgetOfAll();
    BudgetGrows(Spent(c), MAX_RETRIES);
  }

  // ----- at most one retry more than the attempt's own -----

  /** Beside the retries of the current attempt at most one more is armed, for the socket it has inherited. */
  predicate AtMostOneMore(st: State) {
    && st.retries.tally.armed <= Mine(st).scheduled + 1
    && st.retries.tally.waited <= Mine(st).waited + RETRY_MAX_DELAY_MS
    && (InheritsSocket(st) ==>
          st.retries.tally == Tally(0, 0) && Mine(st) == Counters(0, 0, 0) && st.retries.timer.None?)
  }

  predicate Bounded(st: State) {
    && st.retries.tally.armed <= MAX_RETRIES + 1
    && st.retries.tally.waited <= MAX_WAITED_MS + RETRY_MAX_DELAY_MS
  }

  ghost predicate Paired(st: State) {
    Bounded(st) && (!st.life.stopping ==> AtMostOneMore(st))
  }

  lemma CloseKeepsPaired(st: State, k: nat, loggedOut: bool)
    requires Inv(st) && Paired(st) && HasAttempt(st, k) && !st.life.stopping
    ensures AtMostOneMore(DoClose(st, k, loggedOut))
  {
    DelayIsBounded(CountersOf(st.retries.counters, st.link.sockets[k]).retries + 1);
  }

  lemma StepKeepsPaired(st: State, e: Event)
    requires Inv(st) && BudgetKept(st.retries) && Paired(st)
    ensures Paired(Step(st, e))
  {
    var st' := Step(st, e);
    StepKeepsBudget(st, e);
    AttemptIsBounded(st'.retries, st'.life.generation);
    if Enabled(st, e) && e.SocketClose? && !st.life.stopping {
      CloseKeepsPaired(st, e.socket, e.loggedOut);
    }
  }

  /**
   In every run at most six retries are armed between two opens of one lifecycle, with at
   most 105 seconds of delay.
   */
  lemma {:induction false} RetriesOfALifecycle(events: seq<Event>)
    ensures Paired(Run(events))
  {
    if events != [] {
      var front := events[..|events| - 1];
      RetriesOfALifecycle(front);
      RunKeepsInv(Initial(), front);
      RunKeepsBudget(front);
      StepKeepsPaired(Run(front), events[|events| - 1]);
    }
  }

  // ----- no socket in use: the retries of the lifecycle are those of its attempt -----

  /** Every retry since attempt `g` began is one of its own. */
  ghost predicate OwnRetries(st: State, g: nat) {
    && Alone(st, g) && !Overrun(st)
    && (!st.life.stopping ==> st.retries.tally == Tally(Mine(st).scheduled, Mine(st).waited))
  }

  lemma StepKeepsOwn(st: State, g: nat, e: Event)
    requires Inv(st) && BudgetKept(st.retries) && OwnRetries(st, g) && !e.Initialize?
    ensures OwnRetries(Step(st, e), g)
  {
    var st' := Step(st, e);
    StepKeepsAlone(st, g, e);
    StepKeepsBudget(st, e);
    AttemptIsBounded(st'.retries, st'.life.generation);
  }

  lemma {:induction false} RunKeepsOwn(st: State, g: nat, after: seq<Event>)
    requires Inv(st) && BudgetKept(st.retries) && OwnRetries(st, g) && NoInitialize(after)
    ensures OwnRetries(RunFrom(st, after), g) && BudgetKept(RunFrom(st, after).retries)
  {
    if after != [] {
      var front := after[..|after| - 1];
      RunKeepsOwn(st, g, front);
      RunKeepsInv(st, front);
      StepKeepsOwn(RunFrom(st, front), g, after[|after| - 1]);
      StepKeepsBudget(RunFrom(st, front), after[|after| - 1]);
    }
  }

  // ----- a socket in use: six retries -----

  /**
   Attempt `g` has a socket in use and no timer; `i` of its closes have been retried, and one
   of an earlier attempt.
   */
  predicate Cycling(st: State, g: nat, i: nat) {
    && !st.life.stopping && st.life.generation == g && g in st.promises.attempts
    && st.link.sock == Some(st.link.generation) && st.link.generation in st.link.sockets
    && st.link.sockets[st.link.generation] == g
    && st.retries.timer.None? && st.retries.live == map[]
    && Mine(st).retries == i && st.retries.tally.armed == i + 1
  }

  /** The timer of the old attempt fires as stale. */
  lemma StaleTimerFires(st: State, g: nat, earlier: nat, t: nat)
    requires Armed(st, g, earlier, t) && st.retries.tally.armed == 1
    ensures var running := Step(Step(Step(st, Advance(g, true)), Advance(g, true)), Advance(g, true));
            Cycling(Step(running, RetryTimer(t)), g, 0)
  {
    NewAttemptRuns(st, g, earlier, t);
  }

  /** The socket closes, and the retry opens the next one. */
  lemma OneMoreRetry(st: State, g: nat, i: nat)
    requires Cycling(st, g, i) && i < MAX_RETRIES
    ensures var closed := Step(st, SocketClose(st.link.generation, false));
            Cycling(Step(closed, RetryTimer(st.retries.next)), g, i + 1)
  {
    var closed := Step(st, SocketClose(st.link.generation, false));
    assert closed.retries.live == map[st.retries.next := g] && closed.promises == st.promises;
  }

  lemma {:induction false} AllRetries(st: State, g: nat, i: nat) returns (after: seq<Event>)
    requires Cycling(st, g, i) && i <= MAX_RETRIES
    ensures NoInitialize(after) && Cycling(RunFrom(st, after), g, MAX_RETRIES)
    decreases MAX_RETRIES - i
  {
    if i == MAX_RETRIES {
      after := [];
    } else {
      var retrying := [SocketClose(st.link.generation, false), RetryTimer(st.retries.next)];
      RunOfTwo(st, retrying[0], retrying[1]);
      OneMoreRetry(st, g, i);
      var rest := AllRetries(RunFrom(st, retrying), g, i + 1);
      RunFromTwo(st, retrying, rest);
      after := retrying + rest;
    }
  }

  lemma ArmedOverruns(st: State, g: nat, earlier: nat, t: nat) returns (after: seq<Event>)
    requires Armed(st, g, earlier, t) && st.retries.tally.armed == 1
    ensures NoInitialize(after) && Cycling(RunFrom(st, after), g, MAX_RETRIES)
  {
    var first, second := [Advance(g, true), Advance(g, true)], [Advance(g, true), RetryTimer(t)];
    RunOfTwo(st, first[0], first[1]);
    RunOfTwo(RunFrom(st, first), second[0], second[1]);
    StaleTimerFires(st, g, earlier, t);
    RunFromTwo(st, first, second);
    var rest := AllRetries(RunFrom(st, first + second), g, 0);
    RunFromTwo(st, first + second, rest);
    after := first + second + rest;
  }

  /** The old socket opens and closes, its timer fires as stale, and the new attempt retries five times. */
  lemma SixRetries(st: State, k: nat) returns (after: seq<Event>)
    requires Inv(st) && !Joins(st) && st.link.sock == Some(k)
    ensures NoInitialize(after) && RunFrom(Step(st, Initialize), after).retries.tally.armed == MAX_RETRIES + 1
  {
    var s0, closing := Step(st, Initialize), [SocketOpen(k), SocketClose(k, false)];
    RunOfTwo(s0, closing[0], closing[1]);
    OldSocketCloses(st, k);
    OldAttemptIsSettled(st, k);
    var rest := ArmedOverruns(RunFrom(s0, closing), st.life.generation + 1, st.link.sockets[k], st.retries.next);
    RunFromTwo(s0, closing, rest);
    after := closing + rest;
  }

  ghost predicate CanOverrun(st: State) {
    exists after :: NoInitialize(after) && Overrun(RunFrom(st, after))
  }

  /**
   When `initialize` starts an attempt in any run: the five retries and 75 seconds of
   one attempt bound the whole lifecycle, until the next `initialize`, iff no socket
   was in use at that moment.
   */
  lemma OverrunIff(before: seq<Event>)
    requires !Joins(Run(before))
    ensures CanOverrun(Step(Run(before), Initialize)) <==> Run(before).link.sock.Some?
  {
    var st := Run(before);
    RunKeepsInv(Initial(), before);
    if st.link.sock.Some? {
      var after := SixRetries(st, st.link.sock.value);
      assert Overrun(RunFrom(Step(st, Initialize), after));
    } else {
      RunKeepsBudget(before);
      OwnRetriesSuffice(st);
    }
  }

  lemma OwnRetriesSuffice(st: State)
    requires Inv(st) && BudgetKept(st.retries) && !Joins(st) && st.link.sock.None?
    ensures !CanOverrun(Step(st, Initialize))
  {
    var s0, g := Step(st, Initialize), st.life.generation + 1;
    InitializeKeepsInv(st);
    StartsAlone(st);
    StepKeepsBudget(st, Initialize);
    forall after | NoInitialize(after) ensures !Overrun(RunFrom(s0, after)) {
      RunKeepsOwn(s0, g, after);
    }
  }
}
