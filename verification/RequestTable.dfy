/**
 Request and response correlation of the IPC client: the table of pending
 requests, their timers, and every settlement, over arbitrary orders of calls,
 responses, timeouts, and opening and closing of any number of connections.
 */
module RequestTable {
  import opened Wrappers

  /** A response may carry any number or string as its id. */
  datatype Id = Number(value: int) | Text(text: string)

  /**
   An entry of the table; `timed` says that it has a timer. When a request cannot be
   serialized its promise is rejected at once while its entry stays: it is not `sent`.
   */
  datatype Pending = Pending(id: int, timed: bool, sent: bool)

  datatype How = Resolved | Rejected | TimedOut | Disconnected | Unsent

  datatype Settlement = Settlement(id: int, how: How)

  /**
   Each `connect` creates a socket, numbered from 1 to `connections`. `calledBack`
   are those whose callback has run, `closed` those whose close event has come, and
   `socket` is the one in use.
   */
  datatype State = State(
    connections: nat,
    calledBack: set<nat>,
    closed: set<nat>,
    socket: Option<nat>,
    disconnectHandled: bool,
    nextId: int,
    pending: seq<Pending>,
    timers: set<int>,
    log: seq<Settlement>)

  datatype Event =
    | Connect
    | Connected(connection: nat)
    | Request(timeoutMs: int, serializable: bool)
    | Response(id: Id, isError: bool)
    | TimerFires(number: int)
    | Disconnect
    | Close(connection: nat)

  function Initial(): State {
    State(0, {}, {}, None, true, 1, [], {}, [])
  }

  predicate Has(pending: seq<Pending>, id: int) {
    exists i :: 0 <= i < |pending| && pending[i].id == id
  }

  /** The promise of request `id` is still open. */
  predicate Awaited(pending: seq<Pending>, id: int) {
    exists i :: 0 <= i < |pending| && pending[i].id == id && pending[i].sent
  }

  function Without(pending: seq<Pending>, id: int): seq<Pending> {
    if pending == [] then []
    else if pending[0].id == id then pending[1..]
    else [pending[0]] + Without(pending[1..], id)
  }

  /** Settling a promise that is settled already has no effect. */
  function Settled(st: State, id: int, how: How): State {
    st.(pending := Without(st.pending, id), timers := st.timers - {id},
        log := if Awaited(st.pending, id) then st.log + [Settlement(id, how)] else st.log)
  }

  function AfterRequest(st: State, timeoutMs: int, serializable: bool): State {
    if st.socket.None? then st
    else st.(nextId := st.nextId + 1,
             pending := st.pending + [Pending(st.nextId, timeoutMs > 0, serializable)],
             timers := if timeoutMs > 0 then st.timers + {st.nextId} else st.timers,
             log := if serializable then st.log else st.log + [Settlement(st.nextId, Unsent)])
  }

  function AfterResponse(st: State, id: Id, isError: bool): State {
    if id.Number? && Has(st.pending, id.value) then
      Settled(st, id.value, if isError then Rejected else Resolved)
    else
      st
  }

  /** The settlements of a lost connection, in the order of the table. */
  function AllDisconnected(pending: seq<Pending>): seq<Settlement> {
    if pending == [] then []
    else
      var last := pending[|pending| - 1];
      AllDisconnected(pending[..|pending| - 1]) + (if last.sent then [Settlement(last.id, Disconnected)] else [])
  }

  function PendingIds(pending: seq<Pending>): set<int> {
    set p | p in pending :: p.id
  }

  /** `handleDisconnect`: everything pending is rejected, once after each `connect`. */
  function HandleDisconnect(st: State): State {
    if st.disconnectHandled then st
    else st.(disconnectHandled := true,
             pending := [],
             timers := st.timers - PendingIds(st.pending),
             log := st.log + AllDisconnected(st.pending))
  }

  lemma DisconnectOneMore(pending: seq<Pending>, i: nat)
    requires i < |pending|
    ensures AllDisconnected(pending[..i + 1]) ==
            AllDisconnected(pending[..i]) + (if pending[i].sent then [Settlement(pending[i].id, Disconnected)] else [])
    ensures PendingIds(pending[..i + 1]) == PendingIds(pending[..i]) + {pending[i].id}
  {
    assert pending[..i + 1][..i] == pending[..i];
    assert pending[..i + 1] == pending[..i] + [pending[i]];
  }

  predicate Exists(st: State, connection: nat) {
    1 <= connection <= st.connections && connection !in st.closed
  }

  predicate Enabled(st: State, e: Event) {
    match e
    case Connected(c) => Exists(st, c) && c !in st.calledBack
    case TimerFires(id) => id in st.timers
    case Close(c) => Exists(st, c)
    case _ => true
  }

  /** One callback or call. */
  function Step(st: State, e: Event): State {
    if !Enabled(st, e) then
      st
    else
      match e
      case Connect => st.(connections := st.connections + 1, disconnectHandled := false)
      case Connected(c) => st.(calledBack := st.calledBack + {c}, socket := Some(c))
      case Request(timeoutMs, serializable) => AfterRequest(st, timeoutMs, serializable)
      case Response(id, isError) => AfterResponse(st, id, isError)
      case TimerFires(id) => Settled(st, id, TimedOut)
      case Disconnect => HandleDisconnect(st).(socket := None)
      case Close(c) => HandleDisconnect(st.(socket := None)).(closed := st.closed + {c})
  }

  function RunFrom(st: State, events: seq<Event>): State {
    if events == [] then st else Step(RunFrom(st, events[..|events| - 1]), events[|events| - 1])
  }

  function Run(events: seq<Event>): State {
    RunFrom(Initial(), events)
  }

  // ----- the invariant -----

  function Count(log: seq<Settlement>, id: int): nat {
    if log == [] then 0
    else Count(log[..|log| - 1], id) + (if log[|log| - 1].id == id then 1 else 0)
  }

  lemma {:induction false} CountAppend(log: seq<Settlement>, more: seq<Settlement>, id: int)
    ensures Count(log + more, id) == Count(log, id) + Count(more, id)
  {
    if more == [] {
      assert log + more == log;
    } else {
      assert (log + more)[..|log + more| - 1] == log + more[..|more| - 1];
      CountAppend(log, more[..|more| - 1], id);
    }
  }

  lemma CountOne(log: seq<Settlement>, s: Settlement, id: int)
    ensures Count(log + [s], id) == Count(log, id) + (if s.id == id then 1 else 0)
  {
    assert (log + [s])[..|log|] == log;
  }

  ghost predicate Ascending(pending: seq<Pending>) {
    forall i, j :: 0 <= i < j < |pending| ==> pending[i].id < pending[j].id
  }

  lemma {:induction false} CountDisconnected(pending: seq<Pending>, id: int)
    requires Ascending(pending)
    ensures Count(AllDisconnected(pending), id) == if Awaited(pending, id) then 1 else 0
  {
    if pending != [] {
      var front, last := pending[..|pending| - 1], pending[|pending| - 1];
      CountDisconnected(front, id);
      if last.sent {
        CountOne(AllDisconnected(front), Settlement(last.id, Disconnected), id);
      } else {
        assert AllDisconnected(front) + [] == AllDisconnected(front);
      }
      assert pending == front + [last];
      AwaitedAppend(front, last, id);
    }
  }

  lemma AwaitedAppend(pending: seq<Pending>, p: Pending, id: int)
    ensures Awaited(pending + [p], id) <==> Awaited(pending, id) || (p.id == id && p.sent)
  {
    if Awaited(pending, id) {
      var i :| 0 <= i < |pending| && pending[i].id == id && pending[i].sent;
      assert (pending + [p])[i] == pending[i];
    }
    assert (pending + [p])[|pending|] == p;
  }

  lemma {:induction false} WithoutOne(pending: seq<Pending>, id: int)
    requires Ascending(pending)
    ensures Ascending(Without(pending, id))
    ensures forall p :: p in Without(pending, id) <==> p in pending && p.id != id
  {
    if pending != [] && pending[0].id != id {
      WithoutOne(pending[1..], id);
      assert forall p :: p in Without(pending, id) <==> p == pending[0] || p in Without(pending[1..], id);
    }
  }

  lemma AwaitedMember(pending: seq<Pending>, id: int)
    ensures Awaited(pending, id) <==> exists p :: p in pending && p.id == id && p.sent
  {
    if Awaited(pending, id) {
      var i :| 0 <= i < |pending| && pending[i].id == id && pending[i].sent;
      assert pending[i] in pending;
    }
  }

  lemma AwaitedWithout(pending: seq<Pending>, id: int, n: int)
    requires Ascending(pending)
    ensures Awaited(Without(pending, id), n) <==> Awaited(pending, n) && n != id
  {
    WithoutOne(pending, id);
    AwaitedMember(pending, n);
    AwaitedMember(Without(pending, id), n);
  }

  /** From the moment it is issued, a request is awaited or settled, not both. */
  ghost predicate Accounted(st: State, id: int) {
    Count(st.log, id) + (if Awaited(st.pending, id) then 1 else 0) == if 1 <= id < st.nextId then 1 else 0
  }

  ghost predicate HasTimed(pending: seq<Pending>, id: int) {
    exists p :: p in pending && p.id == id && p.timed
  }

  /** The table holds issued ids in order, and the timed ones have the timers. */
  ghost predicate TableKept(st: State) {
    && st.nextId >= 1
    && Ascending(st.pending)
    && (forall p :: p in st.pending ==> 1 <= p.id < st.nextId)
    && (forall id :: id in st.timers <==> HasTimed(st.pending, id))
  }

  /** The socket in use is one whose callback has run and that has not closed. */
  ghost predicate SocketKept(st: State) {
    && (forall c :: c in st.calledBack ==> 1 <= c <= st.connections)
    && (st.socket.Some? ==> st.socket.value in st.calledBack && st.socket.value !in st.closed)
  }

  ghost predicate Inv(st: State) {
    TableKept(st) && SocketKept(st) && forall id :: Accounted(st, id)
  }

  lemma SettleKeepsTable(st: State, id: int, how: How)
    requires TableKept(st)
    ensures TableKept(Settled(st, id, how))
  {
    WithoutOne(st.pending, id);
    var st' := Settled(st, id, how);
    forall n ensures n in st'.timers <==> HasTimed(st'.pending, n) {
      assert n in st.timers <==> HasTimed(st.pending, n);
    }
  }

  lemma SettleKeepsAccount(st: State, id: int, how: How, n: int)
    requires Ascending(st.pending) && Accounted(st, n)
    ensures Accounted(Settled(st, id, how), n)
  {
    AwaitedWithout(st.pending, id, n);
    CountOne(st.log, Settlement(id, how), n);
  }

  lemma SettleKeepsInv(st: State, id: int, how: How)
    requires Inv(st)
    ensures Inv(Settled(st, id, how))
  {
    SettleKeepsTable(st, id, how);
    forall n ensures Accounted(Settled(st, id, how), n) {
      assert Accounted(st, n);
      SettleKeepsAccount(st, id, how, n);
    }
  }

  lemma RequestKeepsTable(st: State, timeoutMs: int, serializable: bool)
    requires TableKept(st)
    ensures TableKept(AfterRequest(st, timeoutMs, serializable))
  {
    if st.socket.Some? {
      var st', p := AfterRequest(st, timeoutMs, serializable), Pending(st.nextId, timeoutMs > 0, serializable);
      assert forall q :: q in st'.pending <==> q in st.pending || q == p;
      forall i | 0 <= i < |st.pending| ensures st.pending[i].id < st.nextId {
        assert st.pending[i] in st.pending;
      }
      forall n ensures n in st'.timers <==> HasTimed(st'.pending, n) {
        assert n in st.timers <==> HasTimed(st.pending, n);
        TimedAppend(st.pending, p, n);
      }
    }
  }

  lemma TimedAppend(pending: seq<Pending>, p: Pending, n: int)
    ensures HasTimed(pending + [p], n) <==> HasTimed(pending, n) || (p.id == n && p.timed)
  {
    assert p in pending + [p];
  }

  lemma NotYetAwaited(st: State, id: int)
    requires TableKept(st) && id >= st.nextId
    ensures !Awaited(st.pending, id)
  {
    AwaitedMember(st.pending, id);
  }

  lemma RequestKeepsAccount(st: State, timeoutMs: int, serializable: bool, n: int)
    requires TableKept(st) && Accounted(st, n) && Accounted(st, st.nextId)
    ensures Accounted(AfterRequest(st, timeoutMs, serializable), n)
  {
    if st.socket.Some? {
      NotYetAwaited(st, st.nextId);
      AwaitedAppend(st.pending, Pending(st.nextId, timeoutMs > 0, serializable), n);
      CountOne(st.log, Settlement(st.nextId, Unsent), n);
    }
  }

  lemma RequestKeepsInv(st: State, timeoutMs: int, serializable: bool)
    requires Inv(st)
    ensures Inv(AfterRequest(st, timeoutMs, serializable))
  {
    RequestKeepsTable(st, timeoutMs, serializable);
    forall n ensures Accounted(AfterRequest(st, timeoutMs, serializable), n) {
      assert Accounted(st, n) && Accounted(st, st.nextId);
      RequestKeepsAccount(st, timeoutMs, serializable, n);
    }
  }

  lemma DisconnectClearsTimers(st: State)
    requires TableKept(st)
    ensures st.timers - PendingIds(st.pending) == {}
  {
    forall id | id in st.timers ensures id in PendingIds(st.pending) {
      assert HasTimed(st.pending, id);
    }
  }

  lemma HandleKeepsAccounts(st: State, n: int)
    requires Ascending(st.pending) && Accounted(st, n)
    ensures Accounted(HandleDisconnect(st), n)
  {
    CountAppend(st.log, AllDisconnected(st.pending), n);
    CountDisconnected(st.pending, n);
  }

  lemma HandleKeepsTable(st: State)
    requires TableKept(st)
    ensures TableKept(HandleDisconnect(st))
  {
    DisconnectClearsTimers(st);
  }

  /** Sockets and the flag alone do not touch the table or the accounts. */
  lemma SocketsDoNotCount(st: State, st': State)
    requires TableKept(st) && (forall n :: Accounted(st, n)) && SocketKept(st')
    requires st' == st.(connections := st'.connections, calledBack := st'.calledBack, closed := st'.closed,
                        socket := st'.socket, disconnectHandled := st'.disconnectHandled)
    ensures Inv(st')
  {
    forall n ensures Accounted(st', n) {
      assert Accounted(st, n);
    }
  }

  lemma LossKeepsInv(st: State, e: Event)
    requires Inv(st) && Enabled(st, e) && (e.Disconnect? || e.Close?)
    ensures Inv(Step(st, e))
  {
    HandleKeepsTable(st);
    forall n ensures Accounted(HandleDisconnect(st), n) {
      assert Accounted(st, n);
      HandleKeepsAccounts(st, n);
    }
    SocketsDoNotCount(HandleDisconnect(st), Step(st, e));
  }

  lemma StepKeepsInv(st: State, e: Event)
    requires Inv(st)
    ensures Inv(Step(st, e))
  {
    if Enabled(st, e) {
      match e
      case Request(timeoutMs, serializable) => RequestKeepsInv(st, timeoutMs, serializable);
      case Response(id, isError) =>
        if id.Number? {
          SettleKeepsInv(st, id.value, if isError then Rejected else Resolved);
        }
      case TimerFires(id) => SettleKeepsInv(st, id, TimedOut);
      case Disconnect => LossKeepsInv(st, e);
      case Close(_) => LossKeepsInv(st, e);
      case Connect => SocketsDoNotCount(st, Step(st, e));
      case Connected(_) => SocketsDoNotCount(st, Step(st, e));
    }
  }

  lemma {:induction false} RunKeepsInv(events: seq<Event>)
    ensures Inv(Run(events))
  {
    if events == [] {
      assert forall n :: Accounted(Initial(), n);
    } else {
      RunKeepsInv(events[..|events| - 1]);
      StepKeepsInv(Run(events[..|events| - 1]), events[|events| - 1]);
    }
  }

  // ----- guarantees -----

  /**
   In every run each request ever issued is awaited and unsettled, or settled exactly
   once and no longer awaited; no other id is settled or awaited.
   */
  lemma SettledExactlyOnce(events: seq<Event>, id: int)
    ensures var st := Run(events);
            && (1 <= id < st.nextId && Awaited(st.pending, id) ==> Count(st.log, id) == 0)
            && (1 <= id < st.nextId && !Awaited(st.pending, id) ==> Count(st.log, id) == 1)
            && (!(1 <= id < st.nextId) ==> Count(st.log, id) == 0 && !Awaited(st.pending, id))
  {
    RunKeepsInv(events);
    assert Accounted(Run(events), id);
  }

  /** A timer is live iff an entry of the table with a timeout owns it. */
  lemma TimersMatchPending(events: seq<Event>, id: int)
    ensures id in Run(events).timers <==> HasTimed(Run(events).pending, id)
  {
    RunKeepsInv(events);
  }

  lemma {:induction false} DisconnectedAreAwaited(pending: seq<Pending>, i: nat)
    requires i < |AllDisconnected(pending)|
    ensures AllDisconnected(pending)[i].how == Disconnected && Awaited(pending, AllDisconnected(pending)[i].id)
  {
    var front, last := pending[..|pending| - 1], pending[|pending| - 1];
    assert pending == front + [last];
    AwaitedAppend(front, last, AllDisconnected(pending)[i].id);
    if i < |AllDisconnected(front)| {
      DisconnectedAreAwaited(front, i);
    }
  }

  /**
   Settlements are never taken back, and each is made by the event that names its
   request: a response, a timer, the loss of the connection, or the call itself when
   it cannot be serialized.
   */
  lemma SettlementsMatchTheirCause(events: seq<Event>, e: Event)
    ensures var st, st' := Run(events), Step(Run(events), e);
            && |st.log| <= |st'.log| && st'.log[..|st.log|] == st.log
            && forall i :: |st.log| <= i < |st'.log| ==>
                 && (st'.log[i].how.Unsent? || Awaited(st.pending, st'.log[i].id))
                 && match st'.log[i].how
                    case Resolved => e == Response(Number(st'.log[i].id), false)
                    case Rejected => e == Response(Number(st'.log[i].id), true)
                    case TimedOut => e == TimerFires(st'.log[i].id)
                    case Disconnected => e.Disconnect? || e.Close?
                    case Unsent => e.Request? && !e.serializable && st'.log[i].id == st.nextId
  {
    var st, st' := Run(events), Step(Run(events), e);
    if e.Disconnect? || e.Close? {
      forall i | |st.log| <= i < |st'.log|
        ensures st'.log[i].how == Disconnected && Awaited(st.pending, st'.log[i].id)
      {
        DisconnectedAreAwaited(st.pending, i - |st.log|);
      }
    }
  }

  /** A response to a request that is settled or was never issued, whenever it comes, settles nothing. */
  lemma StrayResponseSettlesNothing(events: seq<Event>, id: int, isError: bool)
    requires Count(Run(events).log, id) > 0 || !(1 <= id < Run(events).nextId)
    ensures Step(Run(events), Response(Number(id), isError)).log == Run(events).log
    ensures !Has(Run(events).pending, id) ==> Step(Run(events), Response(Number(id), isError)) == Run(events)
  {
    SettledExactlyOnce(events, id);
  }

  // ----- the connection goes down -----

  /** The connection goes down: a call of `disconnect`, or the close event of any connection. */
  predicate Loses(st: State, e: Event) {
    e.Disconnect? || (e.Close? && Enabled(st, e))
  }

  /** A `connect` at position `i`, and no loss behind it. */
  ghost predicate ArmedAt(events: seq<Event>, i: nat) {
    && i < |events| && events[i].Connect?
    && forall j :: i < j < |events| ==> !Loses(Run(events[..j]), events[j])
  }

  /** Some `connect` has no loss behind it. */
  ghost predicate Armed(events: seq<Event>) {
    exists i :: ArmedAt(events, i)
  }

  lemma ArmedLater(events: seq<Event>, i: nat)
    requires events != [] && i < |events| - 1
    ensures ArmedAt(events, i) <==>
              ArmedAt(events[..|events| - 1], i) && !Loses(Run(events[..|events| - 1]), events[|events| - 1])
  {
    var front := events[..|events| - 1];
    forall j | i < j < |front| ensures Loses(Run(events[..j]), events[j]) <==> Loses(Run(front[..j]), front[j]) {
      assert front[..j] == events[..j];
    }
  }

  /** The loss of the connection is still to be handled iff some `connect` has no loss behind it. */
  lemma {:induction false} ArmedIff(events: seq<Event>)
    ensures !Run(events).disconnectHandled <==> Armed(events)
  {
    if events != [] {
      var n := |events| - 1;
      ArmedIff(events[..n]);
      forall i | 0 <= i < n
        ensures ArmedAt(events, i) <==> ArmedAt(events[..n], i) && !Loses(Run(events[..n]), events[n])
      {
        ArmedLater(events, i);
      }
      assert ArmedAt(events, n) <==> events[n].Connect?;
    }
  }

  /** Every open promise of the table is rejected, its entry and its timer are gone. */
  predicate AllRejected(st: State, st': State) {
    st'.pending == [] && st'.timers == {} && st'.log == st.log + AllDisconnected(st.pending)
  }

  /** What is pending when the connection goes down is rejected iff some `connect` has no earlier loss behind it. */
  lemma LossRejectsIff(events: seq<Event>, e: Event)
    requires Loses(Run(events), e) && Run(events).pending != []
    ensures AllRejected(Run(events), Step(Run(events), e)) <==> Armed(events)
    ensures !Armed(events) ==>
              var st, st' := Run(events), Step(Run(events), e);
              st'.pending == st.pending && st'.timers == st.timers && st'.log == st.log
  {
    RunKeepsInv(events);
    ArmedIff(events);
    DisconnectClearsTimers(Run(events));
  }

  /** The callback of a `connect` runs although the connection has gone down since the last `connect`. */
  predicate Overtakes(st: State, e: Event) {
    e.Connected? && Enabled(st, e) && st.disconnectHandled
  }

  ghost predicate Overtaken(events: seq<Event>) {
    exists i :: 0 <= i < |events| && Overtakes(Run(events[..i]), events[i])
  }

  lemma OvertakenBefore(events: seq<Event>)
    requires events != [] && !Overtaken(events)
    ensures !Overtaken(events[..|events| - 1])
    ensures !Overtakes(Run(events[..|events| - 1]), events[|events| - 1])
  {
    var front := events[..|events| - 1];
    forall i | 0 <= i < |front| ensures !Overtakes(Run(front[..i]), front[i]) {
      assert front[..i] == events[..i];
    }
  }

  /** Nothing is pending without a connection, and a connection in use still has its loss to be handled. */
  predicate UpOrEmpty(st: State) {
    if st.socket.Some? then !st.disconnectHandled else st.pending == []
  }

  lemma {:induction false} RunKeepsUpOrEmpty(events: seq<Event>)
    requires !Overtaken(events)
    ensures UpOrEmpty(Run(events))
  {
    if events != [] {
      OvertakenBefore(events);
      RunKeepsUpOrEmpty(events[..|events| - 1]);
    }
  }

  /**
   While there is no connection nothing is pending and no timer is live, if no loss has
   overtaken a callback of `connect`.
   */
  lemma DownMeansEmpty(events: seq<Event>)
    requires !Overtaken(events) && Run(events).socket.None?
    ensures Run(events).pending == [] && Run(events).timers == {}
  {
    RunKeepsInv(events);
    RunKeepsUpOrEmpty(events);
    DisconnectClearsTimers(Run(events));
  }

  // ----- stranded requests -----

  /** Nothing in `after` settles request `id` by name, and no `connect` is made. */
  ghost predicate LeavesAlone(after: seq<Event>, id: int) {
    forall i :: 0 <= i < |after| ==>
      && !after[i].Connect? && after[i] != TimerFires(id)
      && (after[i].Response? ==> after[i].id != Number(id))
  }

  lemma StrandedStep(st: State, e: Event, id: int)
    requires Inv(st) && st.disconnectHandled && Awaited(st.pending, id) && LeavesAlone([e], id)
    ensures Step(st, e).disconnectHandled && Awaited(Step(st, e).pending, id)
  {
    assert [e][0] == e;
    if Enabled(st, e) {
      match e
      case Request(timeoutMs, serializable) =>
        AwaitedAppend(st.pending, Pending(st.nextId, timeoutMs > 0, serializable), id);
      case Response(other, _) =>
        if other.Number? {
          AwaitedWithout(st.pending, other.value, id);
        }
      case TimerFires(other) => AwaitedWithout(st.pending, other, id);
      case _ =>
    }
  }

  lemma {:induction false} Stranded(st: State, after: seq<Event>, id: int)
    requires Inv(st) && st.disconnectHandled && Awaited(st.pending, id) && LeavesAlone(after, id)
    ensures Inv(RunFrom(st, after)) && RunFrom(st, after).disconnectHandled && Awaited(RunFrom(st, after).pending, id)
  {
    if after != [] {
      var front, e := after[..|after| - 1], after[|after| - 1];
      Stranded(st, front, id);
      StepKeepsInv(RunFrom(st, front), e);
      StrandedStep(RunFrom(st, front), e, id);
    }
  }

  /** Some continuation without a `connect` settles request `id`, though neither a response nor its timer does. */
  ghost predicate CanBeRejected(st: State, id: int) {
    exists after :: LeavesAlone(after, id) && !Awaited(RunFrom(st, after).pending, id)
  }

  /**
   An open request can be rejected by the loss of the connection, before another
   `connect`, iff some `connect` has no loss behind it; otherwise it stays open until
   a response names it or its timer fires, whatever goes down.
   */
  lemma RejectedIff(events: seq<Event>, id: int)
    requires Awaited(Run(events).pending, id)
    ensures CanBeRejected(Run(events), id) <==> Armed(events)
  {
    RunKeepsInv(events);
    ArmedIff(events);
    var st := Run(events);
    if Armed(events) {
      var after := [Disconnect];
      assert after[..0] == [] && RunFrom(st, after) == Step(st, Disconnect);
      assert LeavesAlone(after, id);
    } else {
      forall after | LeavesAlone(after, id) ensures Awaited(RunFrom(st, after).pending, id) {
        Stranded(st, after, id);
      }
    }
  }

  lemma RunAppend(events: seq<Event>, e: Event)
    ensures Run(events + [e]) == Step(Run(events), e)
  {
    assert (events + [e])[..|events|] == events;
  }

  lemma OneRequest(events: seq<Event>)
    requires Run(events).socket.Some? && Run(events).disconnectHandled
    requires Run(events).nextId == 1 && Run(events).pending == []
    ensures var asked := events + [Request(0, true)];
            Run(asked).socket.Some? && Awaited(Run(asked).pending, 1) && !Armed(asked)
  {
    RunAppend(events, Request(0, true));
    ArmedIff(events + [Request(0, true)]);
    assert Run(events + [Request(0, true)]).pending[0] == Pending(1, false, true);
  }

  /**
   A `disconnect` between `connect` and its callback: a request made over the connection is
   open, and no loss rejects it.
   */
  lemma HastyDisconnectStrandsARequest() returns (events: seq<Event>)
    ensures |events| == 4 && events[0] == Connect && events[1] == Disconnect
    ensures Run(events).socket == Some(1) && Awaited(Run(events).pending, 1) && !CanBeRejected(Run(events), 1)
  {
    var r0: seq<Event> := [];
    RunAppend(r0, Connect);
    RunAppend(r0 + [Connect], Disconnect);
    RunAppend(r0 + [Connect] + [Disconnect], Connected(1));
    var connected := r0 + [Connect] + [Disconnect] + [Connected(1)];
    RunAppend(connected, Request(0, true));
    OneRequest(connected);
    events := connected + [Request(0, true)];
    RejectedIff(events, 1);
  }

  /** The close event of a failed first connection between the second `connect` and its callback does the same. */
  lemma LateCloseStrandsARequest() returns (events: seq<Event>)
    ensures |events| == 5 && events[1] == Connect && events[2] == Close(1) && Disconnect !in events
    ensures Run(events).socket == Some(2) && Awaited(Run(events).pending, 1) && !CanBeRejected(Run(events), 1)
  {
    var r0: seq<Event> := [];
    RunAppend(r0, Connect);
    RunAppend(r0 + [Connect], Connect);
    var twice := r0 + [Connect] + [Connect];
    assert Run(twice) == Initial().(connections := 2, disconnectHandled := false);
    RunAppend(twice, Close(1));
    RunAppend(twice + [Close(1)], Connected(2));
    var connected := twice + [Close(1)] + [Connected(2)];
    RunAppend(connected, Request(0, true));
    OneRequest(connected);
    events := connected + [Request(0, true)];
    RejectedIff(events, 1);
  }

  // ----- a second connection -----

  /** Neither `disconnect` nor `connect` is called, and connection `c` does not close. */
  ghost predicate KeepsUp(after: seq<Event>, c: nat) {
    forall i :: 0 <= i < |after| ==> !after[i].Disconnect? && !after[i].Connect? && after[i] != Close(c)
  }

  /** Connection `c` is in use, and every other connection has closed. */
  ghost predicate OnlyOpen(st: State, c: nat) {
    st.socket == Some(c) && forall d :: 1 <= d <= st.connections && d != c ==> d in st.closed
  }

  lemma {:induction false} OnlyOpenStays(st: State, after: seq<Event>, c: nat)
    requires SocketKept(st) && OnlyOpen(st, c) && KeepsUp(after, c)
    ensures SocketKept(RunFrom(st, after)) && OnlyOpen(RunFrom(st, after), c)
  {
    if after != [] {
      OnlyOpenStays(st, after[..|after| - 1], c);
    }
  }

  /** Some continuation takes connection `c` out of use although it stays open and nobody disconnects. */
  ghost predicate CanBeTakenDown(st: State, c: nat) {
    exists after :: KeepsUp(after, c) && RunFrom(st, after).socket.None?
  }

  /** A connection in use can be taken down by the close event of another one iff some other one has not closed yet. */
  lemma TakenDownIff(events: seq<Event>, c: nat)
    requires Run(events).socket == Some(c)
    ensures CanBeTakenDown(Run(events), c) <==> !OnlyOpen(Run(events), c)
  {
    RunKeepsInv(events);
    var st := Run(events);
    if OnlyOpen(st, c) {
      forall after | KeepsUp(after, c) ensures RunFrom(st, after).socket == Some(c) {
        OnlyOpenStays(st, after, c);
      }
    } else {
      var d :| 1 <= d <= st.connections && d != c && d !in st.closed;
      var after := [Close(d)];
      assert after[..0] == [] && RunFrom(st, after) == Step(st, Close(d));
      assert KeepsUp(after, c);
    }
  }

  /** The close event of another connection rejects what was asked over the one in use, which stays open but unused. */
  lemma LateCloseTakesDown(events: seq<Event>, c: nat, d: nat)
    requires Run(events).socket == Some(c) && d != c && Exists(Run(events), d)
    ensures var st, st' := Run(events), Step(Run(events), Close(d));
            && st'.socket.None? && Exists(st', c) && Step(st', Connected(c)) == st'
            && (Armed(events) ==> AllRejected(st, st'))
            && forall timeoutMs, serializable :: Step(st', Request(timeoutMs, serializable)) == st'
  {
    RunKeepsInv(events);
    ArmedIff(events);
    DisconnectClearsTimers(Run(events));
  }
}
