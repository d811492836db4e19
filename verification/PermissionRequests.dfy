/**
 Pending permission requests of the Telegram gateway as a state machine: requests
 registered per chat, expiry timers, replies and late replies, in any order. The
 callback of a timer deletes by chat, without looking at what is pending there.
 */
module PermissionRequests {
  import opened Wrappers

  /** `number` stands for the identity of the request object. */
  datatype Request = Request(number: nat, toolUseId: string, toolName: string, messageId: Option<int>)

  datatype Outcome = Resolved | TimedOut | Superseded

  datatype Note =
    | Left(number: nat, chat: int, toolUseId: string, outcome: Outcome, at: int)
    | Wiped(numbers: set<nat>)

  /** What has left the pending state, the last one on the outside. */
  datatype Log = Start | Then(before: Log, note: Note)

  /** What a timer has captured. */
  datatype Callback = Callback(chat: int, request: Request)

  datatype State = State(
    pending: map<int, Request>,
    timers: map<int, nat>,
    lastResolved: map<int, int>,
    live: map<nat, Callback>,
    next: nat,
    log: Log)

  datatype Event =
    | Register(chat: int, toolUseId: string, toolName: string, messageId: Option<int>, now: int)
    | Resolve(chat: int, now: int)
    | TimerFires(timer: nat, now: int)
    | Cleanup

  function Initial(): State {
    State(map[], map[], map[], map[], 0, Start)
  }

  /** The live timers without the one held for `chat`. */
  function Cleared(live: map<nat, Callback>, timers: map<int, nat>, chat: int): map<nat, Callback> {
    if chat in timers then live - {timers[chat]} else live
  }

  function Noted(st: State, chat: int, request: Request, outcome: Outcome, now: int): State {
    st.(lastResolved := st.lastResolved[chat := now],
        log := Then(st.log, Left(request.number, chat, request.toolUseId, outcome, now)))
  }

  /** The request pending in the chat, if any, gives way; its entry is overwritten next. */
  function Supersede(st: State, chat: int, now: int): State {
    if chat !in st.pending then
      st
    else
      Noted(st.(timers := st.timers - {chat}, live := Cleared(st.live, st.timers, chat)),
            chat, st.pending[chat], Superseded, now)
  }

  function Added(st: State, chat: int, request: Request): State {
    st.(pending := st.pending[chat := request], timers := st.timers[chat := st.next],
        live := st.live[st.next := Callback(chat, request)], next := st.next + 1)
  }

  function DoRegister(st: State, chat: int, toolUseId: string, toolName: string, messageId: Option<int>,
                      now: int): State
  {
    Added(Supersede(st, chat, now), chat, Request(st.next, toolUseId, toolName, messageId))
  }

  function DoResolve(st: State, chat: int, now: int): State {
    if chat !in st.pending then
      st
    else
      Noted(st, chat, st.pending[chat], Resolved, now).(
        pending := st.pending - {chat}, timers := st.timers - {chat}, live := Cleared(st.live, st.timers, chat))
  }

  function DoFire(st: State, t: nat, now: int): State
    requires t in st.live
  {
    var c := st.live[t];
    Noted(st, c.chat, c.request, TimedOut, now).(
      pending := st.pending - {c.chat}, timers := st.timers - {c.chat}, live := st.live - {t})
  }

  function Numbers(pending: map<int, Request>): set<nat> {
    set c | c in pending :: pending[c].number
  }

  function Handles(timers: map<int, nat>): set<nat> {
    set c | c in timers :: timers[c]
  }

  function DoCleanup(st: State): State {
    st.(pending := map[], timers := map[], lastResolved := map[], live := st.live - Handles(st.timers),
        log := Then(st.log, Wiped(Numbers(st.pending))))
  }

  predicate Enabled(st: State, e: Event) {
    e.TimerFires? ==> e.timer in st.live
  }

  function Step(st: State, e: Event): State {
    if !Enabled(st, e) then
      st
    else
      match e
      case Register(chat, toolUseId, toolName, messageId, now) =>
        DoRegister(st, chat, toolUseId, toolName, messageId, now)
      case Resolve(chat, now) => DoResolve(st, chat, now)
      case TimerFires(t, now) => DoFire(st, t, now)
      case Cleanup => DoCleanup(st)
  }

  function Run(events: seq<Event>): State {
    if events == [] then Initial() else Step(Run(events[..|events| - 1]), events[|events| - 1])
  }

  // ----- the invariant -----

  /** How often request `n` has left the pending state. */
  function Count(log: Log, n: nat): nat {
    match log
    case Start => 0
    case Then(before, note) =>
      Count(before, n) + match note
                         case Left(number, _, _, _, _) => if number == n then 1 else 0
                         case Wiped(numbers) => if n in numbers then 1 else 0
  }

  /** When a request of `chat` last left the pending state, since the last clean-up. */
  function LastLeft(log: Log, chat: int): Option<int> {
    match log
    case Start => None
    case Then(before, note) =>
      match note
      case Left(_, c, _, _, at) => if c == chat then Some(at) else LastLeft(before, chat)
      case Wiped(_) => None
  }

  ghost predicate IsPending(pending: map<int, Request>, n: nat) {
    exists c :: c in pending && pending[c].number == n
  }

  /** The live timers are exactly those held, and each holds the request pending in its chat. */
  ghost predicate TimersMatch(st: State) {
    && st.timers.Keys == st.pending.Keys
    && (forall c :: c in st.pending ==> st.timers[c] in st.live && st.live[st.timers[c]] == Callback(c, st.pending[c]))
    && (forall t :: t in st.live ==> t < st.next && st.live[t].chat in st.timers && st.timers[st.live[t].chat] == t)
  }

  ghost predicate NumbersUnique(st: State) {
    && (forall c :: c in st.pending ==> st.pending[c].number < st.next)
    && (forall c, d :: c in st.pending && d in st.pending && st.pending[c].number == st.pending[d].number ==> c == d)
  }

  ghost predicate Accounted(st: State, n: nat) {
    Count(st.log, n) + (if IsPending(st.pending, n) then 1 else 0) == if n < st.next then 1 else 0
  }

  predicate GraceKept(st: State, chat: int) {
    LastLeft(st.log, chat) == if chat in st.lastResolved then Some(st.lastResolved[chat]) else None
  }

  ghost predicate Inv(st: State) {
    TimersMatch(st) && NumbersUnique(st) && (forall n: nat :: Accounted(st, n)) && forall c :: GraceKept(st, c)
  }

  lemma AddedPending(pending: map<int, Request>, chat: int, request: Request, n: nat)
    requires forall c, d :: c in pending && d in pending && pending[c].number == pending[d].number ==> c == d
    requires !IsPending(pending, request.number)
    ensures IsPending(pending[chat := request], n) <==>
            n == request.number || (IsPending(pending, n) && !(chat in pending && pending[chat].number == n))
  {
    var after := pending[chat := request];
    assert after[chat].number == request.number;
    if IsPending(pending, n) && !(chat in pending && pending[chat].number == n) {
      var c :| c in pending && pending[c].number == n;
      assert c in after && after[c].number == n;
    }
  }

  lemma RemovedPending(pending: map<int, Request>, chat: int, n: nat)
    requires forall c, d :: c in pending && d in pending && pending[c].number == pending[d].number ==> c == d
    requires chat in pending
    ensures IsPending(pending - {chat}, n) <==> IsPending(pending, n) && pending[chat].number != n
  {
    if IsPending(pending, n) && pending[chat].number != n {
      var c :| c in pending && pending[c].number == n;
      assert c in pending - {chat} && (pending - {chat})[c].number == n;
    }
  }

  lemma RegisterKeepsInv(st: State, chat: int, toolUseId: string, toolName: string, messageId: Option<int>, now: int)
    requires Inv(st)
    ensures Inv(DoRegister(st, chat, toolUseId, toolName, messageId, now))
  {
    var request := Request(st.next, toolUseId, toolName, messageId);
    var st' := DoRegister(st, chat, toolUseId, toolName, messageId, now);
    RegisterKeepsTimers(st, chat, request, now);
    RegisterKeepsNumbers(st, chat, request, now);
    forall n: nat ensures Accounted(st', n) {
      assert Accounted(st, n) && Accounted(st, st.next);
      RegisterAccounts(st, chat, request, now, n);
    }
    forall c ensures GraceKept(st', c) {
      assert GraceKept(st, c);
    }
  }

  lemma RegisterKeepsTimers(st: State, chat: int, request: Request, now: int)
    requires TimersMatch(st) && request.number == st.next
    ensures TimersMatch(Added(Supersede(st, chat, now), chat, request))
  {
  }

  lemma RegisterKeepsNumbers(st: State, chat: int, request: Request, now: int)
    requires NumbersUnique(st) && request.number == st.next
    ensures NumbersUnique(Added(Supersede(st, chat, now), chat, request))
  {
  }

  lemma RegisterAccounts(st: State, chat: int, request: Request, now: int, n: nat)
    requires NumbersUnique(st) && Accounted(st, n) && Accounted(st, st.next) && request.number == st.next
    ensures Accounted(Added(Supersede(st, chat, now), chat, request), n)
  {
    AddedPending(st.pending, chat, request, n);
    if chat in st.pending {
      assert IsPending(st.pending, st.pending[chat].number);
    }
  }

  /** Resolving, or firing the timer held for `chat`, removes that chat's request and timer alike. */
  lemma RemovalKeepsInv(st: State, chat: int, outcome: Outcome, now: int)
    requires Inv(st) && chat in st.pending
    ensures Inv(Noted(st, chat, st.pending[chat], outcome, now).(
                  pending := st.pending - {chat}, timers := st.timers - {chat},
                  live := Cleared(st.live, st.timers, chat)))
  {
    var st' := Noted(st, chat, st.pending[chat], outcome, now).(
      pending := st.pending - {chat}, timers := st.timers - {chat}, live := Cleared(st.live, st.timers, chat));
    forall n: nat ensures Accounted(st', n) {
      assert Accounted(st, n);
      RemovedPending(st.pending, chat, n);
    }
    forall c ensures GraceKept(st', c) {
      assert GraceKept(st, c);
    }
  }

  lemma CleanupKeepsInv(st: State)
    requires Inv(st)
    ensures Inv(DoCleanup(st))
  {
    var st' := DoCleanup(st);
    forall n: nat ensures Accounted(st', n) {
      assert Accounted(st, n);
      assert IsPending(st.pending, n) <==> n in Numbers(st.pending);
    }
    forall c ensures GraceKept(st', c) {
    }
    forall t | t in st.live ensures t in Handles(st.timers) {
      assert st.timers[st.live[t].chat] == t;
    }
  }

  lemma StepKeepsInv(st: State, e: Event)
    requires Inv(st)
    ensures Inv(Step(st, e))
  {
    if Enabled(st, e) {
      match e
      case Register(chat, toolUseId, toolName, messageId, now) =>
        RegisterKeepsInv(st, chat, toolUseId, toolName, messageId, now);
      case Resolve(chat, now) => if chat in st.pending { RemovalKeepsInv(st, chat, Resolved, now); }
      case TimerFires(t, now) =>
        var c := st.live[t];
        assert c.chat in st.pending && st.timers[c.chat] == t && st.pending[c.chat] == c.request;
        RemovalKeepsInv(st, c.chat, TimedOut, now);
      case Cleanup => CleanupKeepsInv(st);
    }
  }

  lemma {:induction false} RunKeepsInv(events: seq<Event>)
    ensures Inv(Run(events))
  {
    if events == [] {
      assert forall n: nat :: Accounted(Initial(), n);
      assert forall c :: GraceKept(Initial(), c);
    } else {
      RunKeepsInv(events[..|events| - 1]);
      StepKeepsInv(Run(events[..|events| - 1]), events[|events| - 1]);
    }
  }

  // ----- guarantees -----

  /** Every request ever registered is pending and has not left, or has left the pending state exactly once. */
  lemma LeavesExactlyOnce(events: seq<Event>, n: nat)
    requires n < Run(events).next
    ensures Count(Run(events).log, n) == if IsPending(Run(events).pending, n) then 0 else 1
  {
    RunKeepsInv(events);
    assert Accounted(Run(events), n);
  }

  /** A chat has a live timer iff it has a pending request, and the timer holds that very request. */
  lemma TimerHoldsThePending(events: seq<Event>, chat: int, t: nat)
    ensures var st := Run(events);
            (t in st.live && st.live[t].chat == chat) <==>
            (chat in st.pending && chat in st.timers && st.timers[chat] == t && t in st.live
             && st.live[t] == Callback(chat, st.pending[chat]))
    ensures chat in Run(events).pending <==> exists u :: u in Run(events).live && Run(events).live[u].chat == chat
  {
    RunKeepsInv(events);
    var st := Run(events);
    if chat in st.pending {
      assert st.timers[chat] in st.live && st.live[st.timers[chat]].chat == chat;
    }
  }

  /** A timer that fires removes the request it was set for, no other, and reports that request's id. */
  lemma TimerExpiresItsOwn(events: seq<Event>, t: nat, now: int)
    requires t in Run(events).live
    ensures var st, st' := Run(events), Step(Run(events), TimerFires(t, now));
            var c := st.live[t];
            && c.chat in st.pending && st.pending[c.chat] == c.request
            && st'.pending == st.pending - {c.chat}
            && st'.log == Then(st.log, Left(c.request.number, c.chat, c.request.toolUseId, TimedOut, now))
  {
    RunKeepsInv(events);
  }

  /** `isRecentlyResolved`: a reply is late iff a request of the chat left the pending state less than `graceMs` ago. */
  lemma {:induction false} LateReplyIff(events: seq<Event>, chat: int, graceMs: int, now: int)
    ensures var st := Run(events);
            (chat in st.lastResolved && now - st.lastResolved[chat] < graceMs) <==>
            (LastLeft(st.log, chat).Some? && now - LastLeft(st.log, chat).value < graceMs)
  {
    RunKeepsInv(events);
    assert GraceKept(Run(events), chat);
  }
}
