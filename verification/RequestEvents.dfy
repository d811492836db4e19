/**
 The request table of the IPC client as a function of the events of a run: which
 requests are issued, which connection carries them, and how each of them is settled.
 */
module RequestEvents {
  import opened Wrappers
  import opened RequestTable

  // ----- connections -----

  function Connects(events: seq<Event>): nat {
    if events == [] then 0
    else Connects(events[..|events| - 1]) + (if events[|events| - 1].Connect? then 1 else 0)
  }

  /** Connection `c` has been made, and its close event has come. */
  predicate HasClosed(events: seq<Event>, c: nat) {
    events != []
    && (var front := events[..|events| - 1];
        HasClosed(front, c) || (events[|events| - 1] == Close(c) && 1 <= c <= Connects(front)))
  }

  /** The callback of connection `c` has run, while it was open. */
  predicate HasCalledBack(events: seq<Event>, c: nat) {
    events != []
    && (var front := events[..|events| - 1];
        HasCalledBack(front, c)
        || (events[|events| - 1] == Connected(c) && 1 <= c <= Connects(front) && !HasClosed(front, c)))
  }

  /** The connection whose callback ran last, unless something has gone down behind it. */
  function InUse(events: seq<Event>): Option<nat> {
    if events == [] then None
    else
      var front, e := events[..|events| - 1], events[|events| - 1];
      match e
      case Connected(c) =>
        if 1 <= c <= Connects(front) && !HasClosed(front, c) && !HasCalledBack(front, c) then Some(c) else InUse(front)
      case Close(c) => if 1 <= c <= Connects(front) && !HasClosed(front, c) then None else InUse(front)
      case Disconnect => None
      case _ => InUse(front)
  }

  /** In every run the connections and the one in use are what the events make of them. */
  lemma {:induction false} ConnectionsByTheRules(events: seq<Event>, c: nat)
    ensures var st := Run(events);
            && st.connections == Connects(events) && st.socket == InUse(events)
            && (c in st.closed <==> HasClosed(events, c)) && (c in st.calledBack <==> HasCalledBack(events, c))
  {
    if events != [] {
      var front, e := events[..|events| - 1], events[|events| - 1];
      ConnectionsByTheRules(front, c);
      if e.Connected? || e.Close? {
        ConnectionsByTheRules(front, e.connection);
      }
    }
  }

  // ----- requests -----

  /** The requests made over a connection, in order; request `n` has the id `n`, counted from 1. */
  function Issued(events: seq<Event>): (issued: seq<Event>)
    ensures forall i :: 0 <= i < |issued| ==> issued[i].Request?
  {
    if events == [] then []
    else
      var front, e := events[..|events| - 1], events[|events| - 1];
      if e.Request? && InUse(front).Some? then Issued(front) + [e] else Issued(front)
  }

  predicate IsIssued(events: seq<Event>, id: int) {
    1 <= id <= |Issued(events)|
  }

  function IssuedAs(events: seq<Event>, id: int): Event
    requires IsIssued(events, id)
  {
    Issued(events)[id - 1]
  }

  /** The entries of the table are of issued requests, with what their calls asked for. */
  ghost predicate EntriesKept(st: State, issued: seq<Event>) {
    && st.nextId == |issued| + 1
    && forall p :: p in st.pending ==>
         && 1 <= p.id <= |issued| && issued[p.id - 1].Request?
         && (p.timed <==> issued[p.id - 1].timeoutMs > 0) && (p.sent <==> issued[p.id - 1].serializable)
  }

  lemma StepKeepsEntries(st: State, e: Event, issued: seq<Event>)
    requires Inv(st) && EntriesKept(st, issued)
    ensures EntriesKept(Step(st, e), if e.Request? && st.socket.Some? then issued + [e] else issued)
  {
    if Enabled(st, e) {
      match e
      case Response(id, _) => if id.Number? { WithoutOne(st.pending, id.value); }
      case TimerFires(id) => WithoutOne(st.pending, id);
      case _ =>
    }
  }

  lemma {:induction false} RunKeepsEntries(events: seq<Event>)
    ensures EntriesKept(Run(events), Issued(events))
  {
    if events != [] {
      RunKeepsEntries(events[..|events| - 1]);
      RunKeepsInv(events[..|events| - 1]);
      ConnectionsByTheRules(events[..|events| - 1], 0);
      StepKeepsEntries(Run(events[..|events| - 1]), events[|events| - 1], Issued(events[..|events| - 1]));
    }
  }

  /** An issued request has the next id, and a timer, while it is in the table, iff its timeout is positive. */
  lemma TimedAsIssued(events: seq<Event>, id: int)
    ensures Run(events).nextId == |Issued(events)| + 1
    ensures id in Run(events).timers <==>
              Has(Run(events).pending, id) && IsIssued(events, id) && IssuedAs(events, id).timeoutMs > 0
  {
    RunKeepsInv(events);
    RunKeepsEntries(events);
    var st := Run(events);
    if Has(st.pending, id) {
      var i :| 0 <= i < |st.pending| && st.pending[i].id == id;
      assert st.pending[i] in st.pending;
    }
    if HasTimed(st.pending, id) {
      var p :| p in st.pending && p.id == id && p.timed;
      var i :| 0 <= i < |st.pending| && st.pending[i] == p;
    }
  }

  // ----- how requests are settled -----

  function OutcomeIn(log: seq<Settlement>, id: int): Option<How> {
    if log == [] then None
    else if log[|log| - 1].id == id then Some(log[|log| - 1].how)
    else OutcomeIn(log[..|log| - 1], id)
  }

  /**
   How request `id` is settled: by the call itself, when it cannot be serialized; or by
   the first of its response, its timer, if it has one, and the loss of a connection
   that is still to be handled.
   */
  ghost function SettledAs(events: seq<Event>, id: int): Option<How> {
    if events == [] then None
    else SettledNext(events[..|events| - 1], events[|events| - 1], SettledAs(events[..|events| - 1], id), id)
  }

  /** What the step `e` behind `front` adds to the outcome `before`. */
  ghost function SettledNext(front: seq<Event>, e: Event, before: Option<How>, id: int): Option<How> {
    if before.Some? then before
    else if !IsIssued(front, id) then
      if e.Request? && InUse(front).Some? && id == |Issued(front)| + 1 && !e.serializable then Some(Unsent) else None
    else
      match e
      case Response(n, isError) => if n != Number(id) then None else Some(if isError then Rejected else Resolved)
      case TimerFires(n) => if n == id && IssuedAs(front, id).timeoutMs > 0 then Some(TimedOut) else None
      case _ => if Loses(Run(front), e) && Armed(front) then Some(Disconnected) else None
  }

  lemma OutcomeAppend(log: seq<Settlement>, s: Settlement, id: int)
    ensures OutcomeIn(log + [s], id) == if s.id == id then Some(s.how) else OutcomeIn(log, id)
  {
    assert (log + [s])[..|log|] == log;
  }

  lemma {:induction false} OutcomeOfLoss(log: seq<Settlement>, pending: seq<Pending>, id: int)
    ensures OutcomeIn(log + AllDisconnected(pending), id) ==
            if Awaited(pending, id) then Some(Disconnected) else OutcomeIn(log, id)
  {
    if pending == [] {
      assert log + [] == log;
    } else {
      var front, last := pending[..|pending| - 1], pending[|pending| - 1];
      OutcomeOfLoss(log, front, id);
      assert pending == front + [last];
      AwaitedAppend(front, last, id);
      if last.sent {
        var s := Settlement(last.id, Disconnected);
        assert log + (AllDisconnected(front) + [s]) == log + AllDisconnected(front) + [s];
        OutcomeAppend(log + AllDisconnected(front), s, id);
      } else {
        assert AllDisconnected(front) + [] == AllDisconnected(front);
      }
    }
  }

  /** Open means issued and not settled. */
  ghost predicate Settles(st: State, issued: bool, how: Option<How>, id: int) {
    OutcomeIn(st.log, id) == how && (Awaited(st.pending, id) <==> issued && how.None?)
  }

  lemma AwaitedIsThere(pending: seq<Pending>, id: int)
    requires Awaited(pending, id)
    ensures Has(pending, id)
  {
  }

  lemma {:induction false} UnissuedIsUnsettled(events: seq<Event>, id: int)
    requires !IsIssued(events, id)
    ensures SettledAs(events, id) == None
  {
    if events != [] {
      UnissuedIsUnsettled(events[..|events| - 1], id);
    }
  }

  lemma RequestSettles(st: State, timeoutMs: int, serializable: bool, how: Option<How>, id: int)
    requires Inv(st) && st.socket.Some? && Settles(st, 1 <= id < st.nextId, how, id)
    requires id == st.nextId ==> how == None
    ensures Settles(AfterRequest(st, timeoutMs, serializable), 1 <= id <= st.nextId,
                    if id == st.nextId && !serializable then Some(Unsent) else how, id)
  {
    AwaitedAppend(st.pending, Pending(st.nextId, timeoutMs > 0, serializable), id);
    OutcomeAppend(st.log, Settlement(st.nextId, Unsent), id);
  }

  lemma NamedSettles(st: State, n: int, outcome: How, issued: bool, how: Option<How>, id: int)
    requires Inv(st) && Settles(st, issued, how, id)
    ensures Settles(Settled(st, n, outcome), issued,
                    if how.None? && issued && n == id then Some(outcome) else how, id)
  {
    AwaitedWithout(st.pending, n, id);
    OutcomeAppend(st.log, Settlement(n, outcome), id);
  }

  lemma LossSettles(st: State, issued: bool, how: Option<How>, id: int)
    requires Inv(st) && Settles(st, issued, how, id)
    ensures Settles(HandleDisconnect(st), issued,
                    if how.None? && issued && !st.disconnectHandled then Some(Disconnected) else how, id)
  {
    OutcomeOfLoss(st.log, st.pending, id);
  }

  lemma ResponseSettles(st: State, n: int, isError: bool, issued: bool, how: Option<How>, id: int)
    requires Inv(st) && Settles(st, issued, how, id)
    ensures Settles(AfterResponse(st, Number(n), isError), issued,
                    if how.None? && issued && n == id then Some(if isError then Rejected else Resolved) else how, id)
  {
    NamedSettles(st, n, if isError then Rejected else Resolved, issued, how, id);
  }

  lemma TimerSettles(events: seq<Event>, n: int, how: Option<How>, id: int)
    requires Settles(Run(events), IsIssued(events, id), how, id)
    ensures Settles(Step(Run(events), TimerFires(n)), IsIssued(events, id),
                    if how.None? && IsIssued(events, id) && n == id && IssuedAs(events, id).timeoutMs > 0
                    then Some(TimedOut) else how, id)
  {
    RunKeepsInv(events);
    TimedAsIssued(events, n);
    if n in Run(events).timers {
      NamedSettles(Run(events), n, TimedOut, IsIssued(events, id), how, id);
    }
  }

  lemma StepSettles(front: seq<Event>, e: Event, how: Option<How>, id: int)
    requires Settles(Run(front), IsIssued(front, id), how, id) && (!IsIssued(front, id) ==> how == None)
    ensures Settles(Step(Run(front), e),
                    IsIssued(front, id) || (e.Request? && InUse(front).Some? && id == |Issued(front)| + 1),
                    SettledNext(front, e, how, id), id)
  {
    RunKeepsInv(front);
    var st, issued := Run(front), IsIssued(front, id);
    match e
    case Request(timeoutMs, serializable) =>
      RunKeepsEntries(front);
      ConnectionsByTheRules(front, 0);
      if st.socket.Some? { RequestSettles(st, timeoutMs, serializable, how, id); }
    case Response(n, isError) =>
      if n.Number? { ResponseSettles(st, n.value, isError, issued, how, id); }
    case TimerFires(n) => TimerSettles(front, n, how, id);
    case Connect =>
    case Connected(_) =>
    case Disconnect =>
      ArmedIff(front);
      LossSettles(st, issued, how, id);
    case Close(_) =>
      ArmedIff(front);
      LossSettles(st, issued, how, id);
  }

  /** In every run each request is settled as the events say, and open iff it is issued and not settled. */
  lemma {:induction false} SettledByTheRules(events: seq<Event>, id: int)
    ensures OutcomeIn(Run(events).log, id) == SettledAs(events, id)
    ensures Awaited(Run(events).pending, id) <==> IsIssued(events, id) && SettledAs(events, id).None?
  {
    if events != [] {
      var front, e := events[..|events| - 1], events[|events| - 1];
      SettledByTheRules(front, id);
      if !IsIssued(front, id) {
        UnissuedIsUnsettled(front, id);
      }
      StepSettles(front, e, SettledAs(front, id), id);
    }
  }

  // ----- what one answer does -----

  /** One entry is gone from the table, and all others are as they were, in their order. */
  ghost predicate OnlyRemoves(before: seq<Pending>, after: seq<Pending>, id: int) {
    && !Has(after, id)
    && exists i :: 0 <= i < |before| && before[i].id == id && after == before[..i] + before[i + 1..]
  }

  lemma {:induction false} WithoutAt(pending: seq<Pending>, id: int, i: nat)
    requires Ascending(pending) && i < |pending| && pending[i].id == id
    ensures Without(pending, id) == pending[..i] + pending[i + 1..]
  {
    if i == 0 {
      assert pending[..0] + pending[1..] == pending[1..];
    } else {
      var rest := pending[1..];
      WithoutAt(rest, id, i - 1);
      assert rest[..i - 1] == pending[1..i] && rest[i..] == pending[i + 1..];
      assert [pending[0]] + (pending[1..i] + pending[i + 1..]) == pending[..i] + pending[i + 1..];
    }
  }

  lemma WithoutRemoves(pending: seq<Pending>, id: int)
    requires Ascending(pending) && Has(pending, id)
    ensures OnlyRemoves(pending, Without(pending, id), id)
  {
    var i :| 0 <= i < |pending| && pending[i].id == id;
    WithoutAt(pending, id, i);
    WithoutOne(pending, id);
  }

  /** The step settles request `id` that way, takes its entry and its timer away, and changes nothing else. */
  ghost predicate Answers(st: State, st': State, id: int, how: How) {
    && st'.log == st.log + [Settlement(id, how)]
    && OnlyRemoves(st.pending, st'.pending, id) && st'.timers == st.timers - {id}
    && st' == st.(log := st'.log, pending := st'.pending, timers := st'.timers)
  }

  /**
   In every run, the response to an open request resolves it, or rejects it when it is
   an error; its timer, if it has one, times it out. Its entry and its timer are gone
   then, and every other entry, timer and settlement is as it was.
   */
  lemma OpenRequestsAreAnswered(events: seq<Event>, id: int, isError: bool)
    requires Awaited(Run(events).pending, id)
    ensures Answers(Run(events), Step(Run(events), Response(Number(id), isError)), id,
                    if isError then Rejected else Resolved)
    ensures id in Run(events).timers ==> Answers(Run(events), Step(Run(events), TimerFires(id)), id, TimedOut)
    ensures IsIssued(events, id) && (id in Run(events).timers <==> IssuedAs(events, id).timeoutMs > 0)
  {
    RunKeepsInv(events);
    SettledByTheRules(events, id);
    AwaitedIsThere(Run(events).pending, id);
    WithoutRemoves(Run(events).pending, id);
    TimedAsIssued(events, id);
  }
}
