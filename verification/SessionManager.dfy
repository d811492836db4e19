/**
 The WhatsApp session manager in the form its source has. The closures of an
 attempt and of its sockets are rows of `attempts`, `counters` and `sockets`;
 the timers of the event loop are rows of `timers`.
 */
module SessionManagers {
  import opened Wrappers
  import opened SessionLifecycle

  class SessionManager {
    var sock: Option<nat>
    var isConnected: bool
    var initializePromise: Option<nat>
    var retryTimer: Option<nat>
    var connectionGeneration: nat
    var lifecycleGeneration: nat
    var pendingReject: Option<nat>
    var stopping: bool
    var lifecycleState: Lifecycle
    var attempts: Attempts
    var counters: map<nat, Counters>
    var sockets: map<nat, nat>
    var timers: map<nat, nat>
    var nextTimer: nat
    ghost var tally: Tally
    ghost var log: Log

    ghost function Lives(): Life
      reads this`lifecycleGeneration, this`stopping, this`lifecycleState
    {
      Life(lifecycleGeneration, stopping, lifecycleState)
    }

    ghost function Links(): Link
      reads this`connectionGeneration, this`sock, this`isConnected, this`sockets
    {
      Link(connectionGeneration, sock, isConnected, sockets)
    }

    ghost function Promised(): Promises
      reads this`attempts, this`initializePromise, this`pendingReject, this`log
    {
      Promises(attempts, initializePromise, pendingReject, log)
    }

    ghost function Retried(): Retries
      reads this`retryTimer, this`timers, this`nextTimer, this`counters, this`tally
    {
      Retries(retryTimer, timers, nextTimer, counters, tally)
    }

    ghost function Abs(): State
      reads this
    {
      State(Lives(), Links(), Promised(), Retried())
    }

    /** What `SessionLifecycle` proves of every run. */
    ghost predicate Valid()
      reads this
    {
      Inv(Abs())
    }

    constructor ()
      ensures Valid()
      ensures Abs() == Initial()
    {
      sock, isConnected, initializePromise, retryTimer := None, false, None, None;
      connectionGeneration, lifecycleGeneration, pendingReject := 0, 0, None;
      stopping, lifecycleState := false, Idle;
      attempts, counters, sockets, timers, nextTimer := map[], map[], map[], map[], 0;
      tally, log := Tally(0, 0), Start;
    }

    // ----- initialize -----

    method Initialize()
      modifies this
      ensures Abs() == DoInitialize(old(Abs()))
    {
      if isConnected && sock.Some? { return; }
      if initializePromise.Some? { return; }
      ClearRetryTimer();
      Begin();
    }

    method ClearRetryTimer()
      modifies this`retryTimer, this`timers
      ensures Retried() == WithoutTimer(old(Retried()))
    {
      if retryTimer.Some? {
        timers := timers - {retryTimer.value};
        retryTimer := None;
      }
    }

    method Begin()
      modifies this`stopping, this`lifecycleState, this`lifecycleGeneration, this`attempts, this`initializePromise
      modifies this`tally
      ensures Lives() == Life(old(lifecycleGeneration) + 1, false, Connecting)
      ensures Retried() == Untallied(old(Retried()))
      ensures Promised() == Begun(old(Promised()), old(lifecycleGeneration) + 1)
    {
      stopping := false;
      lifecycleState := Connecting;
      lifecycleGeneration := lifecycleGeneration + 1;
      attempts := attempts[lifecycleGeneration := Attempt(LoadingDeps, None, false)];
      initializePromise := Some(lifecycleGeneration);
      tally := Tally(0, 0);
    }

    /**
     An await of `initializeInternal` is over; `ok` is false when what it awaited, or the file
     checks behind it, throws.
     */
    method OnAwaited(g: nat, ok: bool)
      requires g in attempts && Loading(attempts[g])
      modifies this
      ensures Abs() == DoAdvance(old(Abs()), g, ok)
    {
      var a := attempts[g];
      if !ok || g != lifecycleGeneration || stopping {
        attempts := attempts[g := a.(stage := Failed, outcome := Some(Rejected))];
        log := Then(log, g, Rejected);
      } else if a.stage.LoadingDeps? {
        attempts := attempts[g := a.(stage := FetchingVersion)];
      } else if a.stage.FetchingVersion? {
        attempts := attempts[g := a.(stage := LoadingAuth)];
      } else {
        attempts := attempts[g := a.(stage := Running)];
        pendingReject := Some(g);
        OpenSocket(g);
      }
    }

    /** The catch and finally clauses of `initialize`. */
    method OnInitialized(g: nat)
      requires g in attempts && attempts[g].outcome.Some? && !attempts[g].observed
      modifies this
      ensures Abs() == DoObserve(old(Abs()), g)
    {
      if attempts[g].outcome == Some(Rejected) && lifecycleGeneration == g && !stopping {
        if lifecycleState != LoggedOut {
          lifecycleState := Idle;
        }
      }
      if initializePromise == Some(g) {
        initializePromise := None;
      }
      attempts := attempts[g := attempts[g].(observed := true)];
    }

    method RejectPromise(g: nat)
      requires g in attempts
      modifies this`attempts, this`pendingReject, this`log
      ensures Promised() == SettleOpen(old(Promised()), g, Rejected)
    {
      if attempts[g].outcome.Some? { return; }
      attempts := attempts[g := attempts[g].(outcome := Some(Rejected))];
      pendingReject := None;
      log := Then(log, g, Rejected);
    }

    method OpenSocket(g: nat)
      requires g in attempts
      modifies this`connectionGeneration, this`sockets, this`sock, this`attempts, this`pendingReject, this`log
      ensures Abs() == StartSocket(old(Abs()), g)
    {
      if stopping || g != lifecycleGeneration {
        RejectPromise(g);
        return;
      }
      connectionGeneration := connectionGeneration + 1;
      sockets := sockets[connectionGeneration := g];
      sock := Some(connectionGeneration);
    }

    // ----- socket events -----

    method OnOpen(k: nat)
      requires HasAttempt(Abs(), k)
      modifies this
      ensures Abs() == DoOpen(old(Abs()), k)
    {
      if k == connectionGeneration && sock == Some(k) {
        var g := sockets[k];
        counters := counters[g := Counters(0, 0, 0)];
        tally := Tally(0, 0);
        lifecycleState := Connected;
        isConnected := true;
        ResolvePromise(g);
      }
    }

    method ResolvePromise(g: nat)
      requires g in attempts
      modifies this`attempts, this`pendingReject, this`log
      ensures Promised() == SettleOpen(old(Promised()), g, Resolved)
    {
      if attempts[g].outcome.None? {
        attempts := attempts[g := attempts[g].(outcome := Some(Resolved))];
        pendingReject := None;
        log := Then(log, g, Resolved);
      }
    }

    method OnClose(k: nat, loggedOut: bool)
      requires HasAttempt(Abs(), k)
      modifies this
      ensures Abs() == DoClose(old(Abs()), k, loggedOut)
    {
      if k == connectionGeneration && sock == Some(k) {
        isConnected := false;
        sock := None;
        Closed(sockets[k], loggedOut);
      }
    }

    /** What the close of the current socket means for attempt `g`. */
    method Closed(g: nat, loggedOut: bool)
      requires g in attempts
      modifies this`lifecycleState, this`attempts, this`pendingReject, this`log
      modifies this`counters, this`retryTimer, this`timers, this`nextTimer, this`tally
      ensures Abs() == AfterClose(old(Abs()), g, loggedOut)
    {
      if stopping {
        lifecycleState := Stopping;
        RejectPromise(g);
        return;
      }
      if loggedOut {
        lifecycleState := LoggedOut;
        RejectPromise(g);
        return;
      }
      lifecycleState := Reconnecting;
      Retry(g);
    }

    method Retry(g: nat)
      requires g in attempts
      modifies this`lifecycleState, this`attempts, this`pendingReject, this`log
      modifies this`counters, this`retryTimer, this`timers, this`nextTimer, this`tally
      ensures Abs() == CountRetry(old(Abs()), g)
    {
      var retries := CountClose(g);
      assert Promised() == old(Promised()) && Links() == old(Links()) && Lives() == old(Lives());
      if retries > MAX_RETRIES {
        GiveUp(g);
        return;
      }
      Schedule(g);
    }

    method GiveUp(g: nat)
      requires g in attempts
      modifies this`lifecycleState, this`attempts, this`pendingReject, this`log
      ensures Lives() == old(Lives()).(state := Idle) && Promised() == SettleOpen(old(Promised()), g, Rejected)
    {
      lifecycleState := Idle;
      RejectPromise(g);
    }

    method CountClose(g: nat) returns (retries: nat)
      modifies this`counters
      ensures Retried() == OneMoreClose(old(Retried()), g)
      ensures retries == CountersOf(counters, g).retries
    {
      var c := CountersOf(counters, g);
      retries := c.retries + 1;
      counters := counters[g := c.(retries := retries)];
    }

    method Schedule(g: nat)
      modifies this`retryTimer, this`timers, this`nextTimer, this`counters, this`tally
      ensures Retried() == ScheduleRetry(old(Retried()), stopping, g)
    {
      if stopping || retryTimer.Some? {
        return;
      }
      var c := CountersOf(counters, g);
      retryTimer := Some(nextTimer);
      timers := timers[nextTimer := g];
      nextTimer := nextTimer + 1;
      counters := counters[g := Counters(c.retries, c.scheduled + 1, c.waited + RetryDelayMs(c.retries))];
      tally := Tally(tally.armed + 1, tally.waited + RetryDelayMs(c.retries));
    }

    method OnRetryTimer(t: nat)
      requires t in timers && timers[t] in attempts
      modifies this
      ensures Abs() == DoRetryTimer(old(Abs()), t)
    {
      var g := timers[t];
      timers := timers - {t};
      retryTimer := None;
      OpenSocket(g);
    }

    // ----- disconnect -----

    method Disconnect()
      modifies this
      ensures Abs() == DoDisconnect(old(Abs()))
    {
      Fence();
      ClearRetryTimer();
      RejectPending();
      assert Links() == old(Links()).(generation := old(connectionGeneration) + 1);
      assert Retried() == WithoutTimer(old(Retried())) && Promised() == RejectedPending(old(Promised()));
      Forget();
    }

    /** Both generations move on. */
    method Fence()
      modifies this`stopping, this`lifecycleState, this`lifecycleGeneration, this`connectionGeneration
      ensures Lives() == Life(old(lifecycleGeneration) + 1, true, Stopping)
      ensures connectionGeneration == old(connectionGeneration) + 1
    {
      stopping := true;
      lifecycleState := Stopping;
      lifecycleGeneration := lifecycleGeneration + 1;
      connectionGeneration := connectionGeneration + 1;
    }

    method Forget()
      modifies this`sock, this`isConnected, this`initializePromise
      ensures Links() == old(Links()).(sock := None, isConnected := false)
      ensures Promised() == old(Promised()).(initialize := None)
    {
      sock := None;
      isConnected := false;
      initializePromise := None;
    }

    method RejectPending()
      modifies this`attempts, this`pendingReject, this`log
      ensures Promised() == RejectedPending(old(Promised()))
    {
      if pendingReject.Some? && pendingReject.value in attempts {
        RejectPromise(pendingReject.value);
      }
      pendingReject := None;
    }

    // ----- the event loop -----

    /** Every call and every callback, whenever it comes, keeps the invariant and is that step of the lifecycle. */
    method Handle(e: Event)
      requires Valid() && Enabled(Abs(), e)
      modifies this
      ensures Valid()
      ensures Abs() == Step(old(Abs()), e)
    {
      StepKeepsInv(Abs(), e);
      match e
      case Initialize => Initialize();
      case Advance(g, ok) => OnAwaited(g, ok);
      case Observe(g) => OnInitialized(g);
      case SocketOpen(k) => OnOpen(k);
      case SocketClose(k, loggedOut) => OnClose(k, loggedOut);
      case RetryTimer(t) => OnRetryTimer(t);
      case Disconnect => Disconnect();
    }
  }
}
