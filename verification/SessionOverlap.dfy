/**
 What happens when `initialize` starts an attempt while a socket of an earlier
 attempt is still in use: `initialize` replaces neither the socket nor what its
 events do.
 */
module SessionOverlap {
  import opened Wrappers
  import opened SessionLifecycle

  /**
   The promise of attempt `g` is open and `initialize` awaits it, but there is no
   socket whose events and no timer whose callback could settle it.
   */
  predicate Stuck(st: State, g: nat) {
    && IsOpen(st.promises.attempts, g) && st.promises.initialize == Some(g)
    && st.link.sock.None? && st.retries.live == map[]
  }

  /** The session is connected through a socket of an attempt of an earlier lifecycle. */
  predicate TakenOver(st: State) {
    && st.link.isConnected && st.link.sock.Some? && st.link.sock.value in st.link.sockets
    && st.link.sockets[st.link.sock.value] < st.life.generation
  }

  ghost predicate NoDisconnect(events: seq<Event>) {
    forall i :: 0 <= i < |events| ==> !events[i].Disconnect?
  }

  lemma StuckStays(st: State, e: Event, g: nat)
    requires Inv(st) && Stuck(st, g) && !e.Disconnect?
    ensures Stuck(Step(st, e), g)
  {
  }

  /** Nothing but `disconnect` ends a stuck attempt; every later `initialize` joins it. */
  lemma {:induction false} StuckForGood(st: State, after: seq<Event>, g: nat)
    requires Inv(st) && Stuck(st, g) && NoDisconnect(after)
    ensures Stuck(RunFrom(st, after), g)
  {
    if after != [] {
      var front := after[..|after| - 1];
      StuckForGood(st, front, g);
      RunKeepsInv(st, front);
      StuckStays(RunFrom(st, front), after[|after| - 1], g);
    }
  }

  // ----- no socket in use: the new attempt is alone -----

  /** Unless the session is stopping, the socket, the timer and the open promise are those of attempt `g`. */
  ghost predicate Alone(st: State, g: nat) {
    !st.life.stopping ==>
      && st.life.generation == g
      && (st.link.sock.Some? ==> st.link.sock.value in st.link.sockets && st.link.sockets[st.link.sock.value] == g)
      && (forall t :: t in st.retries.live ==> st.retries.live[t] == g)
      && (IsOpen(st.promises.attempts, g) ==> st.link.sock.Some? || st.retries.timer.Some?)
  }

  lemma StartsAlone(st: State)
    requires Inv(st) && !Joins(st) && st.link.sock.None?
    ensures Alone(Step(st, Initialize), st.life.generation + 1)
  {
  }

  lemma AdvanceKeepsAlone(st: State, g: nat, a: nat, ok: bool)
    requires Inv(st) && Alone(st, g) && Enabled(st, Advance(a, ok))
    ensures Alone(DoAdvance(st, a, ok), g)
  {
  }

  lemma CloseKeepsAlone(st: State, g: nat, k: nat, loggedOut: bool)
    requires Inv(st) && Alone(st, g) && HasAttempt(st, k)
    ensures Alone(DoClose(st, k, loggedOut), g)
  {
  }

  lemma StepKeepsAlone(st: State, g: nat, e: Event)
    requires Inv(st) && Alone(st, g) && !e.Initialize?
    ensures Alone(Step(st, e), g)
  {
    if Enabled(st, e) {
      match e
      case Advance(a, ok) => AdvanceKeepsAlone(st, g, a, ok);
      case SocketClose(k, loggedOut) => CloseKeepsAlone(st, g, k, loggedOut);
      case _ =>
    }
  }

  lemma {:induction false} RunKeepsAlone(st: State, g: nat, after: seq<Event>)
    requires Inv(st) && Alone(st, g) && NoInitialize(after)
    ensures Alone(RunFrom(st, after), g)
  {
    if after != [] {
      var front := after[..|after| - 1];
      RunKeepsAlone(st, g, front);
      RunKeepsInv(st, front);
      StepKeepsAlone(RunFrom(st, front), g, after[|after| - 1]);
    }
  }

  lemma AloneIsSound(st: State, g: nat)
    requires Inv(st) && Alone(st, g)
    ensures !Stuck(st, g) && !TakenOver(st)
  {
  }

  // ----- a socket in use: it can take over, and it can leave the new attempt stuck -----

  /** The attempt of a socket still in use has its promise settled, or `initialize` would have joined it. */
  lemma OldAttemptIsSettled(st: State, k: nat)
    requires Inv(st) && !Joins(st) && st.link.sock == Some(k)
    ensures HasAttempt(st, k) && st.link.sockets[k] <= st.life.generation && k == st.link.generation
    ensures st.promises.attempts[st.link.sockets[k]].outcome.Some?
        && IsRunning(st.promises.attempts, st.link.sockets[k])
    ensures !st.link.isConnected
  {
    NoneOpenAtStart(st, st.link.sockets[k]);
  }

  /** The old socket opens. */
  lemma OldSocketOpens(st: State, k: nat)
    requires Inv(st) && !Joins(st) && st.link.sock == Some(k)
    ensures var st' := Step(Step(st, Initialize), SocketOpen(k));
            && TakenOver(st')
            && st'.life == Life(st.life.generation + 1, false, Connected)
            && st'.link == st.link.(isConnected := true)
            && st'.promises == Begun(st.promises, st.life.generation + 1)
            && st'.retries == Untallied(Counting(WithoutTimer(st.retries), st.link.sockets[k], Counters(0, 0, 0)))
  {
    OldAttemptIsSettled(st, k);
  }

  /** The state behind the close of the old socket, which has armed the timer of its own attempt. */
  predicate Armed(st: State, g: nat, earlier: nat, t: nat) {
    && st.life == Life(g, false, Reconnecting) && st.link.sock.None?
    && g in st.promises.attempts && st.promises.attempts[g] == Attempt(LoadingDeps, None, false)
    && st.promises.initialize == Some(g)
    && earlier != g && IsRunning(st.promises.attempts, earlier) && st.promises.attempts[earlier].outcome.Some?
    && st.retries.timer == Some(t) && st.retries.live == map[t := earlier]
    && g !in st.retries.counters
  }

  lemma OldSocketCloses(st: State, k: nat)
    requires Inv(st) && !Joins(st) && st.link.sock == Some(k)
    ensures var st' := Step(Step(Step(st, Initialize), SocketOpen(k)), SocketClose(k, false));
            && Armed(st', st.life.generation + 1, st.link.sockets[k], st.retries.next)
            && st'.retries.tally.armed == 1
  {
    OldAttemptIsSettled(st, k);
    OldSocketOpens(st, k);
    var r := WithoutTimer(st.retries);
    assert r.timer.None? && r.live == map[] by {
      assert forall t :: t !in r.live;
    }
  }

  /** The new attempt passes its awaits and opens its socket; the timer of the old one stays. */
  lemma NewAttemptRuns(st: State, g: nat, earlier: nat, t: nat)
    requires Armed(st, g, earlier, t)
    ensures var st' := Step(Step(Step(st, Advance(g, true)), Advance(g, true)), Advance(g, true));
            && st'.life == st.life && st'.retries == st.retries
            && st'.link.sock == Some(st.link.generation + 1) && st'.link.generation == st.link.generation + 1
            && st.link.generation + 1 in st'.link.sockets && st'.link.sockets[st.link.generation + 1] == g
            && IsOpen(st'.promises.attempts, g) && st'.promises.initialize == Some(g)
            && earlier in st'.promises.attempts && st'.promises.attempts[earlier] == st.promises.attempts[earlier]
  {
  }

  /**
   Its socket closes, and the retry is dropped because the timer of the old attempt is in the
   way; then that timer fires.
   */
  lemma RetryIsDropped(st: State, g: nat, earlier: nat, t: nat, k: nat)
    requires !st.life.stopping && st.life.generation == g && earlier != g
    requires st.retries.timer == Some(t) && st.retries.live == map[t := earlier] && g !in st.retries.counters
    requires st.link.sock == Some(k) && st.link.generation == k && k in st.link.sockets && st.link.sockets[k] == g
    requires IsOpen(st.promises.attempts, g) && st.promises.initialize == Some(g)
    requires earlier in st.promises.attempts && st.promises.attempts[earlier].outcome.Some?
    ensures Stuck(Step(Step(st, SocketClose(k, false)), RetryTimer(t)), g)
  {
    var closed := Step(st, SocketClose(k, false));
    assert closed.retries.timer == Some(t) && closed.retries.live == map[t := earlier];
    assert closed.promises == st.promises && closed.link.sock.None?;
  }

  lemma {:induction false} RunFromTwo(st: State, first: seq<Event>, second: seq<Event>)
    ensures RunFrom(st, first + second) == RunFrom(RunFrom(st, first), second)
  {
    if second == [] {
      assert first + second == first;
    } else {
      assert (first + second)[..|first + second| - 1] == first + second[..|second| - 1];
      RunFromTwo(st, first, second[..|second| - 1]);
    }
  }

  lemma RunOfTwo(st: State, a: Event, b: Event)
    ensures RunFrom(st, [a, b]) == Step(Step(st, a), b)
  {
    assert [a, b][..1] == [a] && [a][..0] == [];
    assert RunFrom(st, [a]) == Step(st, a);
  }

  lemma RunOfThree(st: State, a: Event, b: Event, c: Event)
    ensures RunFrom(st, [a, b, c]) == Step(Step(Step(st, a), b), c)
  {
    assert [a, b, c][..2] == [a, b];
    RunOfTwo(st, a, b);
  }

  /** The old socket opens and closes, the new attempt passes its awaits, its socket closes, and the timer fires. */
  lemma OverlapSticks(st: State, k: nat) returns (after: seq<Event>)
    requires Inv(st) && !Joins(st) && st.link.sock == Some(k)
    ensures NoInitialize(after) && Stuck(RunFrom(Step(st, Initialize), after), st.life.generation + 1)
  {
    var s0, g, earlier, t := Step(st, Initialize), st.life.generation + 1, st.link.sockets[k], st.retries.next;
    var closing := [SocketOpen(k), SocketClose(k, false)];
    RunOfTwo(s0, closing[0], closing[1]);
    OldSocketCloses(st, k);
    var dropping := Drops(RunFrom(s0, closing), g, earlier, t);
    RunFromTwo(s0, closing, dropping);
    after := closing + dropping;
  }

  lemma Drops(st: State, g: nat, earlier: nat, t: nat) returns (after: seq<Event>)
    requires Armed(st, g, earlier, t)
    ensures NoInitialize(after) && Stuck(RunFrom(st, after), g)
  {
    var next := st.link.generation + 1;
    var advancing := [Advance(g, true), Advance(g, true), Advance(g, true)];
    var dropping := [SocketClose(next, false), RetryTimer(t)];
    RunOfThree(st, advancing[0], advancing[1], advancing[2]);
    NewAttemptRuns(st, g, earlier, t);
    RunOfTwo(RunFrom(st, advancing), dropping[0], dropping[1]);
    RetryIsDropped(RunFrom(st, advancing), g, earlier, t, next);
    RunFromTwo(st, advancing, dropping);
    after := advancing + dropping;
  }

  // ----- guarantees -----

  ghost predicate CanStick(st: State, g: nat) {
    exists after :: NoInitialize(after) && Stuck(RunFrom(st, after), g)
  }

  ghost predicate CanBeTakenOver(st: State) {
    exists after :: NoInitialize(after) && TakenOver(RunFrom(st, after))
  }

  /**
   When `initialize` starts an attempt in any run: some continuation leaves the attempt
   stuck for good, and some continuation connects the session through a socket of an
   earlier attempt, iff a socket was in use at that moment.
   */
  lemma OverlapIff(before: seq<Event>)
    requires !Joins(Run(before))
    ensures CanStick(Step(Run(before), Initialize), Run(before).life.generation + 1) <==> Run(before).link.sock.Some?
    ensures CanBeTakenOver(Step(Run(before), Initialize)) <==> Run(before).link.sock.Some?
  {
    var st := Run(before);
    RunKeepsInv(Initial(), before);
    if st.link.sock.Some? {
      OverlapHarms(st, st.link.sock.value);
    } else {
      NoOverlapNoHarm(st);
    }
  }

  lemma OverlapHarms(st: State, k: nat)
    requires Inv(st) && !Joins(st) && st.link.sock == Some(k)
    ensures CanStick(Step(st, Initialize), st.life.generation + 1)
    ensures CanBeTakenOver(Step(st, Initialize))
  {
    var s0 := Step(st, Initialize);
    var after := OverlapSticks(st, k);
    OldSocketOpens(st, k);
    var opening := [SocketOpen(k)];
    assert opening[..0] == [] && RunFrom(s0, opening) == Step(s0, SocketOpen(k));
    assert NoInitialize(opening) && TakenOver(RunFrom(s0, opening));
  }

  lemma NoOverlapNoHarm(st: State)
    requires Inv(st) && !Joins(st) && st.link.sock.None?
    ensures !CanStick(Step(st, Initialize), st.life.generation + 1)
    ensures !CanBeTakenOver(Step(st, Initialize))
  {
    var s0, g := Step(st, Initialize), st.life.generation + 1;
    InitializeKeepsInv(st);
    StartsAlone(st);
    forall after | NoInitialize(after)
      ensures !Stuck(RunFrom(s0, after), g) && !TakenOver(RunFrom(s0, after))
    {
      RunKeepsAlone(s0, g, after);
      RunKeepsInv(s0, after);
      AloneIsSound(RunFrom(s0, after), g);
    }
  }

  lemma Connects(st: State)
    requires st == Initial()
    ensures var loading := Step(Step(Step(st, Initialize), Advance(1, true)), Advance(1, true));
            var st' := Step(Step(Step(loading, Advance(1, true)), SocketOpen(1)), Observe(1));
            && st'.promises.initialize.None? && IsRunning(st'.promises.attempts, 1)
            && st'.life == Life(1, false, Connected) && st'.link == Link(1, Some(1), true, map[1 := 1])
            && st'.retries == Retries(None, map[], 0, map[1 := Counters(0, 0, 0)], Tally(0, 0))
  {
    var s3 := Step(Step(Step(st, Initialize), Advance(1, true)), Advance(1, true));
    assert s3.promises.attempts == map[1 := Attempt(LoadingAuth, None, false)];
    var s4 := Step(s3, Advance(1, true));
    assert s4.link == Link(1, Some(1), false, map[1 := 1]) && IsOpen(s4.promises.attempts, 1);
    var s5 := Step(s4, SocketOpen(1));
    assert s5.promises.attempts[1] == Attempt(Running, Some(Resolved), false);
  }

  lemma Reopens(st: State)
    requires st.promises.initialize.None? && IsRunning(st.promises.attempts, 1)
    requires st.life == Life(1, false, Connected) && st.link == Link(1, Some(1), true, map[1 := 1])
    requires st.retries == Retries(None, map[], 0, map[1 := Counters(0, 0, 0)], Tally(0, 0))
    ensures var st' := Step(Step(st, SocketClose(1, false)), RetryTimer(0));
            !Joins(st') && st'.link.sock == Some(2)
  {
    var s1 := Step(st, SocketClose(1, false));
    assert s1.retries.live == map[0 := 1] && s1.promises == st.promises;
  }

  /**
   A run from the start that reaches such a moment: the connection closes, and its retry has
   opened the next socket.
   */
  lemma OverlapIsReached() returns (before: seq<Event>)
    ensures !Joins(Run(before)) && Run(before).link.sock.Some?
  {
    var starting := [Initialize, Advance(1, true), Advance(1, true)];
    var connecting := [Advance(1, true), SocketOpen(1), Observe(1)];
    var closing := [SocketClose(1, false), RetryTimer(0)];
    RunOfThree(Initial(), starting[0], starting[1], starting[2]);
    RunOfThree(RunFrom(Initial(), starting), connecting[0], connecting[1], connecting[2]);
    Connects(Initial());
    var connected := RunFrom(RunFrom(Initial(), starting), connecting);
    RunOfTwo(connected, closing[0], closing[1]);
    Reopens(connected);
    RunFromTwo(Initial(), starting, connecting);
    RunFromTwo(Initial(), starting + connecting, closing);
    before := starting + connecting + closing;
  }
}
