/**
 The permission prompts of the Telegram gateway as a function of the events of a run:
 what is pending in a chat is what was last registered there, and every report names
 the registration it is about.
 */
module PermissionEvents {
  import opened Wrappers
  import opened PermissionRequests

  /** All registrations, in order; a request, and its timer, has the number of its registration, counted from 0. */
  function Registrations(events: seq<Event>): (registrations: seq<Event>)
    ensures forall i :: 0 <= i < |registrations| ==> registrations[i].Register?
  {
    if events == [] then []
    else
      var front, e := events[..|events| - 1], events[|events| - 1];
      if e.Register? then Registrations(front) + [e] else Registrations(front)
  }

  /** The number of the registration pending in the chat: the last one, unless it has left. */
  function PendingIn(events: seq<Event>, chat: int): Option<nat> {
    if events == [] then None
    else
      var front, e := events[..|events| - 1], events[|events| - 1];
      match e
      case Register(c, _, _, _, _) => if c == chat then Some(|Registrations(front)|) else PendingIn(front, chat)
      case Resolve(c, _) => if c == chat then None else PendingIn(front, chat)
      case TimerFires(t, _) => if PendingIn(front, chat) == Some(t) then None else PendingIn(front, chat)
      case Cleanup => None
  }

  function ChatOf(events: seq<Event>, n: nat): int
    requires n < |Registrations(events)|
  {
    Registrations(events)[n].chat
  }

  /** Request `n` as it was registered. */
  function RequestOf(registrations: seq<Event>, n: nat): Request
    requires n < |registrations| && registrations[n].Register?
  {
    Request(n, registrations[n].toolUseId, registrations[n].toolName, registrations[n].messageId)
  }

  ghost predicate PendingKept(st: State, registrations: seq<Event>, chat: int, n: Option<nat>) {
    if n.None? then chat !in st.pending
    else
      && n.value < |registrations| && registrations[n.value].Register? && registrations[n.value].chat == chat
      && chat in st.pending && st.pending[chat] == RequestOf(registrations, n.value)
      && chat in st.timers && st.timers[chat] == n.value
  }

  lemma StepKeepsPending(st: State, e: Event, registrations: seq<Event>, chat: int, n: Option<nat>)
    requires Inv(st) && st.next == |registrations| && PendingKept(st, registrations, chat, n)
    ensures var n' := match e
                      case Register(c, _, _, _, _) => if c == chat then Some(|registrations|) else n
                      case Resolve(c, _) => if c == chat then None else n
                      case TimerFires(t, _) => if n == Some(t) then None else n
                      case Cleanup => None;
            PendingKept(Step(st, e), if e.Register? then registrations + [e] else registrations, chat, n')
    ensures Step(st, e).next == |registrations| + (if e.Register? then 1 else 0)
  {
  }

  /** In every run, what is pending in a chat is the registration that the events leave there, as it was made. */
  lemma {:induction false} PendingAsRegistered(events: seq<Event>, chat: int)
    ensures Run(events).next == |Registrations(events)|
    ensures PendingKept(Run(events), Registrations(events), chat, PendingIn(events, chat))
  {
    if events != [] {
      PendingAsRegistered(events[..|events| - 1], chat);
      RunKeepsInv(events[..|events| - 1]);
      StepKeepsPending(Run(events[..|events| - 1]), events[|events| - 1], Registrations(events[..|events| - 1]), chat,
                       PendingIn(events[..|events| - 1], chat));
    }
  }

  // ----- reports -----

  function NotesIn(log: Log): seq<Note> {
    match log
    case Start => []
    case Then(before, note) => NotesIn(before) + [note]
  }

  /** The report that request `n` has left its chat. */
  function Report(registrations: seq<Event>, n: nat, outcome: Outcome, at: int): Note
    requires n < |registrations| && registrations[n].Register?
  {
    Left(n, registrations[n].chat, registrations[n].toolUseId, outcome, at)
  }

  /** The registrations that are pending in some chat. */
  ghost predicate IsOpen(events: seq<Event>, n: nat) {
    n < |Registrations(events)| && PendingIn(events, ChatOf(events, n)) == Some(n)
  }

  /**
   What the event reports: the request that gives way to a registration, the one resolved,
   the one whose timer fires while it is pending, or all of them.
   */
  ghost predicate Reports(front: seq<Event>, e: Event, notes: seq<Note>) {
    match e
    case Register(chat, _, _, _, now) => notes == LeftChat(front, chat, Superseded, now)
    case Resolve(chat, now) => notes == LeftChat(front, chat, Resolved, now)
    case TimerFires(t, now) =>
      notes == if IsOpen(front, t) then [Report(Registrations(front), t, TimedOut, now)] else []
    case Cleanup => |notes| == 1 && notes[0].Wiped? && forall n :: n in notes[0].numbers <==> IsOpen(front, n)
  }

  ghost function LeftChat(front: seq<Event>, chat: int, outcome: Outcome, at: int): seq<Note> {
    var n := PendingIn(front, chat);
    if n.Some? && n.value < |Registrations(front)| then [Report(Registrations(front), n.value, outcome, at)] else []
  }

  lemma OpenIsPending(events: seq<Event>, n: nat)
    ensures IsOpen(events, n) <==> IsPending(Run(events).pending, n)
    ensures IsOpen(events, n) <==> n in Run(events).live
    ensures IsOpen(events, n) ==>
              Run(events).live[n] == Callback(ChatOf(events, n), RequestOf(Registrations(events), n))
  {
    RunKeepsInv(events);
    var st := Run(events);
    PendingAsRegistered(events, 0);
    if IsOpen(events, n) {
      PendingAsRegistered(events, ChatOf(events, n));
    }
    if IsPending(st.pending, n) {
      var c :| c in st.pending && st.pending[c].number == n;
      PendingAsRegistered(events, c);
    }
    if n in st.live {
      PendingAsRegistered(events, st.live[n].chat);
    }
  }

  /** In every run each event adds to the record exactly what it reports. */
  lemma EventsReport(events: seq<Event>, e: Event)
    ensures NotesIn(Run(events).log) <= NotesIn(Step(Run(events), e).log)
    ensures Reports(events, e, NotesIn(Step(Run(events), e).log)[|NotesIn(Run(events).log)|..])
  {
    RunKeepsInv(events);
    match e
    case Register(chat, _, _, _, _) => PendingAsRegistered(events, chat);
    case Resolve(chat, _) => PendingAsRegistered(events, chat);
    case TimerFires(t, _) => OpenIsPending(events, t);
    case Cleanup =>
      forall n: nat ensures n in Numbers(Run(events).pending) <==> IsOpen(events, n) {
        OpenIsPending(events, n);
      }
  }

  // ----- late replies -----

  /** When a request of `chat` last left the pending state, since the last clean-up. */
  function LastLeaving(events: seq<Event>, chat: int): Option<int> {
    if events == [] then None
    else
      var front := events[..|events| - 1];
      LeftAt(PendingIn(front, chat), events[|events| - 1], chat, LastLeaving(front, chat))
  }

  /** In every run, a reply is late iff a request of its chat left less than the grace period ago. */
  lemma LateIffLastLeft(events: seq<Event>, chat: int, graceMs: int, now: int)
    ensures var left := LastLeaving(events, chat);
            chat in Run(events).lastResolved && now - Run(events).lastResolved[chat] < graceMs
            <==> left.Some? && now - left.value < graceMs
  {
    LastLeavingIsKept(events, chat);
  }

  function LeftAt(pending: Option<nat>, e: Event, chat: int, before: Option<int>): Option<int> {
    match e
    case Register(c, _, _, _, now) => if c == chat && pending.Some? then Some(now) else before
    case Resolve(c, now) => if c == chat && pending.Some? then Some(now) else before
    case TimerFires(t, now) => if pending == Some(t) then Some(now) else before
    case Cleanup => None
  }

  function LastResolved(st: State, chat: int): Option<int> {
    if chat in st.lastResolved then Some(st.lastResolved[chat]) else None
  }

  lemma StepKeepsLeaving(st: State, e: Event, registrations: seq<Event>, chat: int, n: Option<nat>)
    requires Inv(st) && PendingKept(st, registrations, chat, n)
    ensures LastResolved(Step(st, e), chat) == LeftAt(n, e, chat, LastResolved(st, chat))
  {
  }

  lemma {:induction false} LastLeavingIsKept(events: seq<Event>, chat: int)
    ensures LastResolved(Run(events), chat) == LastLeaving(events, chat)
  {
    if events != [] {
      var front := events[..|events| - 1];
      LastLeavingIsKept(front, chat);
      RunKeepsInv(front);
      PendingAsRegistered(front, chat);
      StepKeepsLeaving(Run(front), events[|events| - 1], Registrations(front), chat, PendingIn(front, chat));
    }
  }
}
