/**
 What the WhatsApp gateway records in a run, as functions of the events of the run:
 which messages are accepted, what every reply says, how every message is settled,
 and when a turn is over. The state is consulted only for who is active, how long a
 queue is, and what a suspended call or handler has captured.
 */
module TurnEvents {
  import opened Wrappers
  import opened Sequences
  import opened TurnHistory
  import opened SenderTracking
  import opened MessageQueues
  import opened TurnScheduler
  import opened TurnGuarantees
  import opened TurnStale

  // ----- the record of one step -----

  /** The loop of `processQueue` goes on with `queue`, while `active` holds the slot. */
  function NextFor(log: Log, active: Option<string>, s: string, queue: seq<QueueEntry>): Log {
    if queue == [] then log
    else if active.Some? && active.value != s then Then(log, Left(s, queue[0], Refused))
    else Then(log, Took(s, queue[0]))
  }

  /** What the step records before the loop of a call goes on. */
  function First(st: State, e: Event): Log
    requires Enabled(st, e)
  {
    match e
    case Inbound(entry, maxQueueSize, _) =>
      if |QueueOf(st.queues, entry.sender)| >= maxQueueSize then st.log else Then(st.log, Accepted(entry.sender, entry))
    case SubmitFailed(_) => Then(st.log, Fault)
    case NoticeSent(id) => Then(st.log, Left(st.workers[id].sender, st.workers[id].entry, Failed))
    case Release(id) => Then(st.log, Left(st.workers[id].sender, st.workers[id].entry, Completed))
    case AssistantChunk(content) => if st.active.None? then st.log else Then(st.log, Heard(content))
    case ResultEvent =>
      if st.active.None? then st.log
      else
        var s, text := st.active.value, Accumulated(st.senders, st.active.value);
        if text == "" then EmptyResult(st.log, s) else Then(Then(st.log, Replied(s, text)), Terminal)
    case ErrorEvent => if st.active.None? then st.log else Then(st.log, Terminal)
    case HandlerDone(index) => Then(st.log, Cleared(st.handlers[index]))
    case _ => st.log
  }

  /** The sender whose call goes on behind the step, if one does. */
  function Caller(st: State, e: Event): string
    requires Enabled(st, e)
  {
    match e
    case Inbound(entry, _, _) => entry.sender
    case RefusalSent(id) => st.workers[id].sender
    case NoticeSent(id) => st.workers[id].sender
    case Release(id) => st.workers[id].sender
    case _ => ""
  }

  /** The queue its loop goes on with; empty when no call does. */
  function Pending(st: State, e: Event): seq<QueueEntry>
    requires Enabled(st, e)
  {
    var queue := QueueOf(st.queues, Caller(st, e));
    match e
    case Inbound(entry, maxQueueSize, media) =>
      var full := |queue| >= maxQueueSize;
      if (full && !media) || entry.sender in st.processing then [] else if full then queue else queue + [entry]
    case RefusalSent(_) => queue
    case NoticeSent(_) => queue
    case Release(_) => queue
    case _ => []
  }

  /** Who holds the slot then. */
  function Slot(st: State, e: Event): Option<string> {
    if e.NoticeSent? || e.Release? then None else st.active
  }

  function Noted(st: State, e: Event): Log
    requires Enabled(st, e)
  {
    NextFor(First(st, e), Slot(st, e), Caller(st, e), Pending(st, e))
  }

  lemma DrainNoted(st: State, id: nat, s: string)
    requires s in st.senders
    ensures Drain(st, id, s).log == NextFor(st.log, st.active, s, QueueOf(st.queues, s))
    ensures Drain(st, id, s).active ==
            if QueueOf(st.queues, s) == [] || (st.active.Some? && st.active.value != s) then st.active else Some(s)
  {
  }

  lemma ActiveIsRegistered(st: State)
    requires Inv(st) && st.active.Some?
    ensures st.active.value in st.senders
  {
  }

  lemma ArrivalNoted(st: State, e: Event)
    requires Enabled(st, e) && e.Inbound?
    ensures Step(st, e).log == Noted(st, e)
  {
    var s := e.entry.sender;
    var st1 := if |QueueOf(st.queues, s)| >= e.maxQueueSize then st else Enqueued(st, e.entry);
    DrainNoted(Started(st1, s), st1.started, s);
  }

  lemma CallNoted(st: State, e: Event)
    requires Inv(st) && Enabled(st, e) && (e.RefusalSent? || e.NoticeSent? || e.Release?)
    ensures Step(st, e).log == Noted(st, e)
  {
    var s := st.workers[e.id].sender;
    match e
    case RefusalSent(id) => DrainNoted(Resumed(st, id), id, s);
    case NoticeSent(id) => DrainNoted(GivenBack(st.(flags := st.flags - {s}), id, Failed), id, s);
    case Release(id) => DrainNoted(GivenBack(st, id, Completed), id, s);
  }

  lemma StepNoted(st: State, e: Event)
    requires Inv(st) && Enabled(st, e)
    ensures Step(st, e).log == Noted(st, e)
  {
    if e.Inbound? {
      ArrivalNoted(st, e);
    } else if e.RefusalSent? || e.NoticeSent? || e.Release? {
      CallNoted(st, e);
    } else if e.ErrorEvent? && st.active.Some? {
      ActiveIsRegistered(st);
    }
  }

  // ----- the turn in flight -----

  /** A turn takes the slot in this step: it was free, or is given back by the call that goes on. */
  predicate Begins(before: State, e: Event, after: State) {
    after.active.Some? && (before.active.None? || (Enabled(before, e) && (e.NoticeSent? || e.Release?)))
  }

  /** The step ends the turn in flight: its result, its error, or its failed submission. */
  predicate EndsTurn(st: State, e: Event) {
    Enabled(st, e) && (e.SubmitFailed? || ((e.ResultEvent? || e.ErrorEvent?) && st.active.Some?))
  }

  /**
   The turn in flight since it took the slot: the text streamed, the part of it that
   no handler has erased, whether it has ended, and whether its call need not wait.
   */
  datatype Progress = Progress(streamed: string, remaining: string, over: bool, freed: bool)

  const FRESH := Progress("", "", false, false)

  function Advanced(p: Progress, st: State, e: Event): Progress {
    if Begins(st, e, Step(st, e)) then FRESH
    else if !Enabled(st, e) || st.active.None? then p
    else
      match e
      case AssistantChunk(content) => p.(streamed := p.streamed + content, remaining := p.remaining + content)
      case ResultEvent => p.(over := true, freed := p.freed || p.remaining == "")
      case ErrorEvent => p.(over := true)
      case SubmitFailed(_) => p.(over := true)
      case HandlerDone(index) =>
        if st.handlers[index] == st.active.value then p.(remaining := "", freed := true) else p
      case _ => p
  }

  function ProgressOf(events: seq<Event>): Progress {
    if events == [] then FRESH
    else Advanced(ProgressOf(events[..|events| - 1]), Run(events[..|events| - 1]), events[|events| - 1])
  }

  /** The record and the flags agree with it. */
  ghost predicate Follows(st: State, p: Progress) {
    && HeardSinceTook(st.log) == p.streamed && Kept(st.log) == p.remaining && (Ended(st.log) <==> p.over)
    && (st.active.Some? ==> (st.active.value in st.flags <==> !p.freed))
  }

  lemma WorkerIsActive(st: State, id: nat)
    requires Inv(st) && id in st.workers
    ensures InFlight(st.workers[id]) ==> st.active == Some(st.workers[id].sender)
    ensures st.workers[id].pc.Refusing? ==> st.active != Some(st.workers[id].sender)
  {
  }

  /** The loop goes on: a message takes the slot iff it was free and stays taken. */
  lemma DrainFollows(st: State, id: nat, s: string, p: Progress)
    requires Follows(st, p) && s in st.senders && st.active != Some(s)
    ensures var st' := Drain(st, id, s);
            Follows(st', if st.active.None? && st'.active.Some? then FRESH else p)
  {
    DrainNoted(st, id, s);
  }

  lemma ArrivalFollows(st: State, entry: QueueEntry, maxQueueSize: int, media: bool, p: Progress)
    requires Inv(st) && entry.sender in st.senders && Follows(st, p)
    ensures var st' := Arrive(st, entry, maxQueueSize, media);
            Follows(st', if st.active.None? && st'.active.Some? then FRESH else p)
  {
    var s := entry.sender;
    var st1 := if |QueueOf(st.queues, s)| >= maxQueueSize then st else Enqueued(st, entry);
    assert Follows(st1, p);
    if s !in st.processing {
      DrainFollows(Started(st1, s), st1.started, s, p);
    }
  }

  lemma CallFollows(st: State, e: Event, p: Progress)
    requires Inv(st) && Enabled(st, e) && Follows(st, p) && (e.RefusalSent? || e.NoticeSent? || e.Release?)
    ensures Follows(Step(st, e), if Begins(st, e, Step(st, e)) then FRESH else p)
  {
    WorkerIsActive(st, e.id);
    var s := st.workers[e.id].sender;
    match e
    case RefusalSent(id) => DrainFollows(Resumed(st, id), id, s, p);
    case NoticeSent(id) => DrainFollows(GivenBack(st.(flags := st.flags - {s}), id, Failed), id, s, p);
    case Release(id) => DrainFollows(GivenBack(st, id, Completed), id, s, p);
  }

  lemma ResultFollows(st: State, p: Progress)
    requires Inv(st) && Follows(st, p) && st.active.Some?
    ensures Follows(OnResult(st), p.(over := true, freed := p.freed || p.remaining == ""))
  {
    StepNoted(st, ResultEvent);
    if p.remaining == "" {
      EmptyResultFollows(st.log, st.active.value);
    }
  }

  lemma HandlerFollows(st: State, index: nat, p: Progress)
    requires Inv(st) && Follows(st, p) && index < |st.handlers|
    ensures Follows(FinishHandler(st, index),
                    if st.active == Some(st.handlers[index]) then p.(remaining := "", freed := true) else p)
  {
    StepNoted(st, HandlerDone(index));
  }

  lemma OthersFollow(st: State, e: Event, p: Progress)
    requires Inv(st) && Enabled(st, e) && Follows(st, p)
    requires !e.Inbound? && !e.RefusalSent? && !e.NoticeSent? && !e.Release? && !e.ResultEvent? && !e.HandlerDone?
    ensures Follows(Step(st, e), Advanced(p, st, e))
  {
    OthersTakeNothing(st, e);
    StepNoted(st, e);
    if e.SubmitDone? || e.SubmitFailed? || e.Poll? {
      WorkerIsActive(st, e.id);
    }
  }

  lemma OthersTakeNothing(st: State, e: Event)
    requires Inv(st) && !e.Inbound? && !e.RefusalSent? && !e.NoticeSent? && !e.Release?
    ensures Step(st, e).active == st.active
  {
  }

  lemma EmptyResultFollows(log: Log, s: string)
    requires Holder(log).Some? && Holder(log).value.who == s && Kept(log) == ""
    ensures var l := EmptyResult(log, s); HeardSinceTook(l) == HeardSinceTook(log) && Kept(l) == "" && Ended(l)
  {
    var replied := Then(log, Replied(s, ""));
    var ended := Then(replied, Terminal);
    assert Holder(replied) == Holder(log) && Holder(ended) == Holder(replied);
    assert HeardSinceTook(ended) == HeardSinceTook(replied);
  }

  lemma StepFollows(st: State, e: Event, p: Progress)
    requires Inv(st) && Follows(st, p)
    ensures Follows(Step(st, e), Advanced(p, st, e))
  {
    if Enabled(st, e) {
      if e.Inbound? {
        ArrivalFollows(st, e.entry, e.maxQueueSize, e.media, p);
      } else if e.RefusalSent? || e.NoticeSent? || e.Release? {
        CallFollows(st, e, p);
      } else if e.ResultEvent? {
        if st.active.Some? { ResultFollows(st, p); }
      } else if e.HandlerDone? {
        HandlerFollows(st, e.index, p);
      } else {
        OthersFollow(st, e, p);
      }
    }
  }

  /** In every run the record of the turn in flight, and the flag it waits for, are what its events make of them. */
  lemma {:induction false} RunFollows(events: seq<Event>)
    ensures Follows(Run(events), ProgressOf(events))
  {
    if events != [] {
      RunFollows(events[..|events| - 1]);
      RunKeepsInv(events[..|events| - 1]);
      StepFollows(Run(events[..|events| - 1]), events[|events| - 1], ProgressOf(events[..|events| - 1]));
    }
  }

  // ----- arrivals -----

  /** The address of the last registration of `s`, and the number of its registrations. */
  function Registration(events: seq<Event>, s: string): Option<Contact> {
    if events == [] then None
    else
      var before, e := Registration(events[..|events| - 1], s), events[|events| - 1];
      if e.Register? && e.phone == s
      then Some(Contact(e.jid, e.isGroup, if before.Some? then before.value.messageCount + 1 else 1)) else before
  }

  /** The messages of `s` that came from a registered sender while its queue was shorter than the limit. */
  function Arrived(events: seq<Event>, s: string): seq<QueueEntry> {
    if events == [] then []
    else
      var front, e := events[..|events| - 1], events[|events| - 1];
      if e.Inbound? && e.entry.sender == s && Registration(front, s).Some?
         && |QueueOf(Run(front).queues, s)| < e.maxQueueSize
      then Arrived(front, s) + [e.entry] else Arrived(front, s)
  }

  /** The parts of the state that no call of `processQueue` changes. */
  ghost predicate RestKept(st: State, st': State) {
    && SameContacts(st.senders, st'.senders) && st'.connected == st.connected && st'.handlers == st.handlers
  }

  datatype Contact = Contact(jid: string, isGroup: bool, messageCount: nat)

  function ContactOf(senders: Senders, s: string): Option<Contact> {
    if s in senders then Some(Contact(senders[s].jid, senders[s].isGroup, senders[s].messageCount)) else None
  }

  ghost predicate SameContacts(senders: Senders, senders': Senders) {
    forall t :: ContactOf(senders', t) == ContactOf(senders, t)
  }

  lemma {:induction false} DrainKeepsRest(st: State, id: nat, s: string)
    ensures RestKept(st, Drain(st, id, s))
    decreases |QueueOf(st.queues, s)|
  {
    var queue := QueueOf(st.queues, s);
    if queue != [] && st.active.Some? && st.active.value != s && s !in st.senders {
      DrainKeepsRest(Logged(st.(queues := st.queues[s := queue[1..]]), Left(s, queue[0], Refused)), id, s);
    }
  }

  lemma StepKeepsRest(st: State, e: Event)
    requires !e.Register? && !e.Connection? && !e.ResultEvent? && !e.ErrorEvent? && !e.HandlerDone?
    ensures RestKept(st, Step(st, e))
  {
    if Enabled(st, e) {
      match e
      case Inbound(entry, maxQueueSize, media) =>
        var st1 := if |QueueOf(st.queues, entry.sender)| >= maxQueueSize then st else Enqueued(st, entry);
        DrainKeepsRest(Started(st1, entry.sender), st1.started, entry.sender);
      case RefusalSent(id) => DrainKeepsRest(Resumed(st, id), id, st.workers[id].sender);
      case SubmitFailed(id) =>
        var s := st.workers[id].sender;
        DrainKeepsRest(GivenBack(Logged(st, Fault).(flags := st.flags - {s}), id, Failed), id, s);
      case NoticeSent(id) =>
        var s := st.workers[id].sender;
        DrainKeepsRest(GivenBack(st.(flags := st.flags - {s}), id, Failed), id, s);
      case Release(id) => DrainKeepsRest(GivenBack(st, id, Completed), id, st.workers[id].sender);
      case _ =>
    }
  }

  lemma StepRegisters(st: State, e: Event)
    ensures !e.Register? ==> SameContacts(st.senders, Step(st, e).senders)
    ensures Step(st, e).connected == if e.Connection? then e.up else st.connected
  {
    if !e.Register? && !e.Connection? && !e.ResultEvent? && !e.ErrorEvent? && !e.HandlerDone? {
      StepKeepsRest(st, e);
    }
  }

  /** In every run the senders known, and how to reach them, are those of their registrations. */
  lemma {:induction false} ContactsAreRegistrations(events: seq<Event>, s: string)
    ensures ContactOf(Run(events).senders, s) == Registration(events, s)
  {
    if events != [] {
      ContactsAreRegistrations(events[..|events| - 1], s);
      StepRegisters(Run(events[..|events| - 1]), events[|events| - 1]);
    }
  }

  lemma NextAccepts(log: Log, active: Option<string>, s: string, queue: seq<QueueEntry>, t: string)
    ensures AcceptedBy(NextFor(log, active, s, queue), t) == AcceptedBy(log, t)
    ensures RepliesIn(NextFor(log, active, s, queue)) == RepliesIn(log)
    ensures EndsOnce(NextFor(log, active, s, queue)) <==> EndsOnce(log)
    ensures CompletedAfterEnd(NextFor(log, active, s, queue)) <==> CompletedAfterEnd(log)
  {
    assert AcceptedBy(log, t) + [] == AcceptedBy(log, t) && RepliesIn(log) + [] == RepliesIn(log);
  }

  lemma StepAccepts(st: State, e: Event, t: string)
    requires Enabled(st, e)
    ensures AcceptedBy(Noted(st, e), t) ==
            if e.Inbound? && e.entry.sender == t && |QueueOf(st.queues, t)| < e.maxQueueSize
            then AcceptedBy(st.log, t) + [e.entry] else AcceptedBy(st.log, t)
  {
    assert AcceptedBy(st.log, t) + [] == AcceptedBy(st.log, t);
    NextAccepts(First(st, e), Slot(st, e), Caller(st, e), Pending(st, e), t);
    if e.ResultEvent? && st.active.Some? { EmptyResultAccepts(st.log, st.active.value, t); }
  }

  lemma EmptyResultAccepts(log: Log, s: string, t: string)
    ensures AcceptedBy(EmptyResult(log, s), t) == AcceptedBy(log, t)
    ensures RepliesIn(EmptyResult(log, s)) == RepliesIn(log) + [(s, "")]
    ensures SettledBy(EmptyResult(log, s), t) == SettledBy(log, t)
  {
    var replied := Then(log, Replied(s, ""));
    var ended := Then(replied, Terminal);
    assert AcceptedBy(ended, t) == AcceptedBy(replied, t) && RepliesIn(ended) == RepliesIn(replied);
    assert SettledBy(ended, t) == SettledBy(replied, t);
  }

  /** In every run the messages accepted are those that arrived: registered sender, queue not full, in order. */
  lemma {:induction false} AcceptedAreArrived(events: seq<Event>, s: string)
    ensures AcceptedBy(Run(events).log, s) == Arrived(events, s)
  {
    if events != [] {
      var front, e := events[..|events| - 1], events[|events| - 1];
      AcceptedAreArrived(front, s);
      RunKeepsInv(front);
      ContactsAreRegistrations(front, s);
      if Enabled(Run(front), e) {
        StepNoted(Run(front), e);
        StepAccepts(Run(front), e, s);
      }
    }
  }

  /** What arrived is settled, in flight or queued, in the order of arrival. */
  lemma ArrivalsConserved(events: seq<Event>, s: string)
    ensures var st := Run(events);
            Arrived(events, s) == LeftBy(st.log, s) + Current(st.log, s) + QueueOf(st.queues, s)
  {
    AcceptedAreArrived(events, s);
    MessagesConserved(events, s);
  }

  // ----- replies -----

  /** A reply for every result: to the active sender, with the text of its turn that has not been erased. */
  function Answers(events: seq<Event>): seq<(string, string)> {
    if events == [] then []
    else
      var front, e := events[..|events| - 1], events[|events| - 1];
      if e.ResultEvent? && Run(front).active.Some?
      then Answers(front) + [(Run(front).active.value, ProgressOf(front).remaining)] else Answers(front)
  }

  /** The same with all of the text streamed in the turn. */
  function WholeAnswers(events: seq<Event>): seq<(string, string)> {
    if events == [] then []
    else
      var front, e := events[..|events| - 1], events[|events| - 1];
      if e.ResultEvent? && Run(front).active.Some?
      then WholeAnswers(front) + [(Run(front).active.value, ProgressOf(front).streamed)] else WholeAnswers(front)
  }

  lemma StepReplies(st: State, e: Event)
    requires Enabled(st, e)
    ensures RepliesIn(Noted(st, e)) ==
            if e.ResultEvent? && st.active.Some?
            then RepliesIn(st.log) + [(st.active.value, Accumulated(st.senders, st.active.value))]
            else RepliesIn(st.log)
  {
    assert RepliesIn(st.log) + [] == RepliesIn(st.log);
    NextAccepts(First(st, e), Slot(st, e), Caller(st, e), Pending(st, e), "");
    if e.ResultEvent? && st.active.Some? { EmptyResultAccepts(st.log, st.active.value, ""); }
  }

  /** In every run the replies are the answers: one for each result with an active sender, and nothing else. */
  lemma {:induction false} RepliesAreAnswers(events: seq<Event>)
    ensures RepliesIn(Run(events).log) == Answers(events)
  {
    if events != [] {
      var front, e := events[..|events| - 1], events[|events| - 1];
      RepliesAreAnswers(front);
      RunKeepsInv(front);
      RunFollows(front);
      if Enabled(Run(front), e) {
        StepNoted(Run(front), e);
        StepReplies(Run(front), e);
      }
    }
  }

  lemma NextIsFaithful(log: Log, active: Option<string>, s: string, queue: seq<QueueEntry>)
    ensures RepliesFaithful(NextFor(log, active, s, queue)) <==> RepliesFaithful(log)
  {
  }

  lemma EmptyResultIsFaithfulIff(log: Log, s: string)
    requires Holder(log).Some? && Holder(log).value.who == s
    ensures RepliesFaithful(EmptyResult(log, s)) <==> RepliesFaithful(log) && HeardSinceTook(log) == ""
    ensures EndsOnce(EmptyResult(log, s)) <==> EndsOnce(log) && !Ended(log)
    ensures CompletedAfterEnd(EmptyResult(log, s)) <==> CompletedAfterEnd(log)
  {
    var replied := Then(log, Replied(s, ""));
    assert RepliesFaithful(Then(replied, Terminal)) <==> RepliesFaithful(replied);
    EmptyResultEnds(log, s);
  }

  lemma StepIsFaithfulIff(st: State, e: Event)
    requires Inv(st) && Enabled(st, e)
    ensures RepliesFaithful(Noted(st, e)) <==>
              RepliesFaithful(st.log) && (e.ResultEvent? && st.active.Some? ==> Kept(st.log) == HeardSinceTook(st.log))
  {
    NextIsFaithful(First(st, e), Slot(st, e), Caller(st, e), Pending(st, e));
    if e.ResultEvent? && st.active.Some? {
      EmptyResultIsFaithfulIff(st.log, st.active.value);
      var replied := Then(st.log, Replied(st.active.value, Accumulated(st.senders, st.active.value)));
      assert RepliesFaithful(Then(replied, Terminal)) <==> RepliesFaithful(replied);
    }
  }

  /** The record calls the replies faithful iff each of them carries all of the text streamed in its turn. */
  lemma {:induction false} FaithfulIffWhole(events: seq<Event>)
    ensures RepliesFaithful(Run(events).log) <==> Answers(events) == WholeAnswers(events)
    ensures |Answers(events)| == |WholeAnswers(events)|
  {
    if events != [] {
      var front, e := events[..|events| - 1], events[|events| - 1];
      FaithfulIffWhole(front);
      RunKeepsInv(front);
      RunFollows(front);
      if Enabled(Run(front), e) {
        StepNoted(Run(front), e);
        StepIsFaithfulIff(Run(front), e);
      }
      if e.ResultEvent? && Run(front).active.Some? {
        var s, p := Run(front).active.value, ProgressOf(front);
        AppendedAlike(Answers(front), WholeAnswers(front), (s, p.remaining), (s, p.streamed));
      }
    }
  }

  // ----- turns that end once -----

  predicate TurnsEndOnce(events: seq<Event>) {
    events == []
    || (var front := events[..|events| - 1];
        TurnsEndOnce(front) && (EndsTurn(Run(front), events[|events| - 1]) ==> !ProgressOf(front).over))
  }

  /** No turn is completed before it has ended. */
  predicate CompletedWhenOver(events: seq<Event>) {
    events == []
    || (var front, e := events[..|events| - 1], events[|events| - 1];
        CompletedWhenOver(front) && (e.Release? && Enabled(Run(front), e) ==> ProgressOf(front).over))
  }

  lemma StepEnds(st: State, e: Event)
    requires Inv(st) && Enabled(st, e)
    ensures EndsOnce(Noted(st, e)) <==> EndsOnce(st.log) && (EndsTurn(st, e) ==> !Ended(st.log))
    ensures CompletedAfterEnd(Noted(st, e)) <==> CompletedAfterEnd(st.log) && (e.Release? ==> Ended(st.log))
  {
    NextAccepts(First(st, e), Slot(st, e), Caller(st, e), Pending(st, e), "");
    if e.ResultEvent? && st.active.Some? {
      EmptyResultIsFaithfulIff(st.log, st.active.value);
      var replied := Then(st.log, Replied(st.active.value, Accumulated(st.senders, st.active.value)));
      assert EndsOnce(Then(replied, Terminal)) <==> EndsOnce(replied) && !Ended(replied);
      assert CompletedAfterEnd(Then(replied, Terminal)) <==> CompletedAfterEnd(replied);
    }
  }

  /** What the record says of the ends of turns is what the events say. */
  lemma {:induction false} EndsAreRecorded(events: seq<Event>)
    ensures EndsOnce(Run(events).log) <==> TurnsEndOnce(events)
    ensures CompletedAfterEnd(Run(events).log) <==> CompletedWhenOver(events)
  {
    if events != [] {
      var front, e := events[..|events| - 1], events[|events| - 1];
      EndsAreRecorded(front);
      RunKeepsInv(front);
      RunFollows(front);
      if Enabled(Run(front), e) {
        StepNoted(Run(front), e);
        StepEnds(Run(front), e);
      }
    }
  }

  /** If every turn ends once, the replies are one for each result, with all of the text streamed in its turn. */
  lemma RepliesAreWholeWhenTurnsEndOnce(events: seq<Event>)
    requires TurnsEndOnce(events)
    ensures RepliesIn(Run(events).log) == WholeAnswers(events)
  {
    EndsAreRecorded(events);
    RepliesFaithfulWhenTurnsEndOnce(events);
    FaithfulIffWhole(events);
    RepliesAreAnswers(events);
  }

  // ----- how messages are settled -----

  /**
   A released call completes its message and a reported one fails it. A message is
   refused when its turn comes while somebody else holds the slot: on arrival, or
   behind the notice of an earlier refusal.
   */
  ghost function SettledNow(st: State, e: Event, s: string): seq<(QueueEntry, Outcome)> {
    if !Enabled(st, e) then []
    else
      match e
      case Release(id) => if st.workers[id].sender == s then [(st.workers[id].entry, Completed)] else []
      case NoticeSent(id) => if st.workers[id].sender == s then [(st.workers[id].entry, Failed)] else []
      case Inbound(entry, maxQueueSize, _) =>
        if entry.sender == s && |QueueOf(st.queues, s)| < maxQueueSize && !Live(st.workers, s) && st.active.Some?
        then [(entry, Refused)] else []
      case RefusalSent(id) =>
        if st.workers[id].sender == s && QueueOf(st.queues, s) != [] && st.active.Some?
        then [(QueueOf(st.queues, s)[0], Refused)] else []
      case _ => []
  }

  ghost function SettledIn(events: seq<Event>, s: string): seq<(QueueEntry, Outcome)> {
    if events == [] then []
    else SettledIn(events[..|events| - 1], s) + SettledNow(Run(events[..|events| - 1]), events[|events| - 1], s)
  }

  lemma NextSettles(log: Log, active: Option<string>, s: string, queue: seq<QueueEntry>, t: string)
    ensures SettledBy(NextFor(log, active, s, queue), t) ==
            SettledBy(log, t)
            + (if s == t && queue != [] && active.Some? && active.value != s then [(queue[0], Refused)] else [])
  {
    assert SettledBy(log, t) + [] == SettledBy(log, t);
  }

  lemma ArrivalSettles(st: State, entry: QueueEntry, maxQueueSize: int, media: bool, t: string)
    requires Inv(st) && entry.sender in st.senders
    ensures var e := Inbound(entry, maxQueueSize, media);
            SettledBy(Noted(st, e), t) == SettledBy(st.log, t) + SettledNow(st, e, t)
  {
    var e, s := Inbound(entry, maxQueueSize, media), entry.sender;
    assert SettledBy(st.log, t) + [] == SettledBy(st.log, t);
    assert Live(st.workers, s) <==> s in st.processing;
    NextSettles(First(st, e), st.active, s, Pending(st, e), t);
    if s !in st.processing {
      assert QueueOf(st.queues, s) == [] && st.active != Some(s) && [] + [entry] == [entry];
    }
  }

  lemma StepSettles(st: State, e: Event, t: string)
    requires Inv(st) && Enabled(st, e)
    ensures SettledBy(Noted(st, e), t) == SettledBy(st.log, t) + SettledNow(st, e, t)
  {
    assert SettledBy(st.log, t) + [] == SettledBy(st.log, t);
    if e.Inbound? {
      ArrivalSettles(st, e.entry, e.maxQueueSize, e.media, t);
    } else if e.RefusalSent? || e.NoticeSent? || e.Release? {
      CallSettles(st, e, t);
    } else if e.ResultEvent? && st.active.Some? {
      EmptyResultAccepts(st.log, st.active.value, t);
    }
  }

  lemma CallSettles(st: State, e: Event, t: string)
    requires Inv(st) && Enabled(st, e) && (e.RefusalSent? || e.NoticeSent? || e.Release?)
    ensures SettledBy(Noted(st, e), t) == SettledBy(st.log, t) + SettledNow(st, e, t)
  {
    assert SettledBy(st.log, t) + [] == SettledBy(st.log, t);
    NextSettles(First(st, e), Slot(st, e), Caller(st, e), Pending(st, e), t);
    WorkerIsActive(st, e.id);
  }

  /** In every run the messages settled, and how, are what the events of their calls make of them. */
  lemma {:induction false} SettledByTheirCalls(events: seq<Event>, s: string)
    ensures SettledBy(Run(events).log, s) == SettledIn(events, s)
  {
    if events != [] {
      var front, e := events[..|events| - 1], events[|events| - 1];
      SettledByTheirCalls(front, s);
      RunKeepsInv(front);
      if Enabled(Run(front), e) {
        StepNoted(Run(front), e);
        StepSettles(Run(front), e, s);
      }
    }
  }

  // ----- who holds the slot -----

  /**
   The slot goes to the message that arrives at an idle call while it is free, and to
   the next message of a call that goes on while it is free or gives it back.
   */
  ghost function HolderNow(holder: Option<Turn<string, QueueEntry>>, st: State, e: Event)
    : Option<Turn<string, QueueEntry>>
  {
    if !Enabled(st, e) then holder
    else
      match e
      case Inbound(entry, maxQueueSize, _) =>
        var s := entry.sender;
        if holder.None? && |QueueOf(st.queues, s)| < maxQueueSize && !Live(st.workers, s) then Some(Turn(s, entry))
        else holder
      case RefusalSent(id) => if holder.None? then NextOf(st.queues, st.workers[id].sender) else holder
      case NoticeSent(id) => NextOf(st.queues, st.workers[id].sender)
      case Release(id) => NextOf(st.queues, st.workers[id].sender)
      case _ => holder
  }

  function NextOf(queues: Queues, s: string): Option<Turn<string, QueueEntry>> {
    if QueueOf(queues, s) == [] then None else Some(Turn(s, QueueOf(queues, s)[0]))
  }

  ghost function HolderIn(events: seq<Event>): Option<Turn<string, QueueEntry>> {
    if events == [] then None
    else HolderNow(HolderIn(events[..|events| - 1]), Run(events[..|events| - 1]), events[|events| - 1])
  }

  lemma NextHolds(log: Log, active: Option<string>, s: string, queue: seq<QueueEntry>)
    requires active != Some(s)
    ensures Holder(NextFor(log, active, s, queue)) ==
            if queue != [] && active.None? then Some(Turn(s, queue[0])) else Holder(log)
  {
  }

  lemma ArrivalHolds(st: State, e: Event)
    requires Inv(st) && Enabled(st, e) && e.Inbound?
    ensures Holder(Noted(st, e)) == HolderNow(Holder(st.log), st, e)
  {
    var s := e.entry.sender;
    assert Live(st.workers, s) <==> s in st.processing;
    if s !in st.processing {
      assert QueueOf(st.queues, s) == [] && [] + [e.entry] == [e.entry];
      NextHolds(First(st, e), st.active, s, Pending(st, e));
    }
  }

  lemma CallHolds(st: State, e: Event)
    requires Inv(st) && Enabled(st, e) && (e.RefusalSent? || e.NoticeSent? || e.Release?)
    ensures Holder(Noted(st, e)) == HolderNow(Holder(st.log), st, e)
  {
    WorkerIsActive(st, e.id);
    NextHolds(First(st, e), Slot(st, e), Caller(st, e), Pending(st, e));
  }

  lemma StepHolds(st: State, e: Event)
    requires Inv(st) && Enabled(st, e)
    ensures Holder(Noted(st, e)) == HolderNow(Holder(st.log), st, e)
  {
    if e.Inbound? {
      ArrivalHolds(st, e);
    } else if e.RefusalSent? || e.NoticeSent? || e.Release? {
      CallHolds(st, e);
    } else if e.ResultEvent? && st.active.Some? {
      EmptyResultEnds(st.log, st.active.value);
    }
  }

  /** In every run the turn that holds the slot, and the active sender, are what these rules make of the events. */
  lemma {:induction false} HolderByTheRules(events: seq<Event>)
    ensures Holder(Run(events).log) == HolderIn(events)
    ensures Run(events).active == if HolderIn(events).Some? then Some(HolderIn(events).value.who) else None
  {
    RunKeepsInv(events);
    if events != [] {
      var front, e := events[..|events| - 1], events[|events| - 1];
      HolderByTheRules(front);
      RunKeepsInv(front);
      if Enabled(Run(front), e) {
        StepNoted(Run(front), e);
        StepHolds(Run(front), e);
      }
    }
  }

  // ----- calls and handlers -----

  lemma AwaitEnds(st: State, id: nat, p: Progress)
    requires Inv(st) && Follows(st, p) && (AtPc(st, id, Submitting) || AtPc(st, id, Waiting))
    ensures CheckFlag(st, id) == Parked(st, id, if p.freed then Releasing else Waiting)
  {
    WorkerIsActive(st, id);
  }

  /** A call passes its await iff its turn is freed: a handler of its sender has ended since it took the slot. */
  lemma AwaitEndsIff(events: seq<Event>, id: nat)
    requires AtPc(Run(events), id, Submitting) || AtPc(Run(events), id, Waiting)
    ensures var st := Run(events);
            Step(st, if st.workers[id].pc.Submitting? then SubmitDone(id) else Poll(id))
            == Parked(st, id, if ProgressOf(events).freed then Releasing else Waiting)
  {
    RunKeepsInv(events);
    RunFollows(events);
    AwaitEnds(Run(events), id, ProgressOf(events));
  }

  /** A submission that fails ends the turn, and is reported before anything else. */
  lemma FailureIsReported(events: seq<Event>, id: nat)
    requires AtPc(Run(events), id, Submitting)
    ensures Step(Run(events), SubmitFailed(id)) == Parked(Logged(Run(events), Fault), id, Reporting)
  {
    RunKeepsInv(events);
  }

  /** Only the sender that holds the slot can have its flag set, and not while its call gives the slot back. */
  ghost predicate FlagsOwned(st: State) {
    && (forall s :: s in st.flags ==> st.active == Some(s))
    && (forall i :: i in st.workers && st.workers[i].pc.Releasing? ==> st.workers[i].sender !in st.flags)
  }

  lemma DrainOwnsFlags(st: State, id: nat, s: string)
    requires FlagsOwned(st) && s in st.senders && st.active != Some(s)
    requires st.active.None? ==> forall i :: i in st.workers ==> !InFlight(st.workers[i])
    ensures FlagsOwned(Drain(st, id, s))
  {
  }

  lemma ArrivalOwnsFlags(st: State, entry: QueueEntry, maxQueueSize: int, media: bool)
    requires Inv(st) && FlagsOwned(st) && entry.sender in st.senders
    ensures FlagsOwned(Arrive(st, entry, maxQueueSize, media))
  {
    var st1 := if |QueueOf(st.queues, entry.sender)| >= maxQueueSize then st else Enqueued(st, entry);
    if entry.sender !in st.processing {
      DrainOwnsFlags(Started(st1, entry.sender), st1.started, entry.sender);
    }
  }

  lemma CallOwnsFlags(st: State, e: Event)
    requires Inv(st) && FlagsOwned(st) && Enabled(st, e) && (e.RefusalSent? || e.NoticeSent? || e.Release?)
    ensures FlagsOwned(Step(st, e))
  {
    var s := st.workers[e.id].sender;
    WorkerIsActive(st, e.id);
    forall i | i in st.workers && i != e.id && !e.RefusalSent? ensures !InFlight(st.workers[i]) {
      if InFlight(st.workers[i]) { OnlyOneInFlight(st, e.id, i); }
    }
    match e
    case RefusalSent(id) => DrainOwnsFlags(Resumed(st, id), id, s);
    case NoticeSent(id) => DrainOwnsFlags(GivenBack(st.(flags := st.flags - {s}), id, Failed), id, s);
    case Release(id) => DrainOwnsFlags(GivenBack(st, id, Completed), id, s);
  }

  lemma OthersOwnFlags(st: State, e: Event)
    requires Inv(st) && FlagsOwned(st) && Enabled(st, e)
    requires !e.Inbound? && !e.RefusalSent? && !e.NoticeSent? && !e.Release?
    ensures FlagsOwned(Step(st, e))
  {
  }

  /** In every run a flag is set only for the sender that holds the slot. */
  lemma {:induction false} FlagsAreOwned(events: seq<Event>)
    ensures FlagsOwned(Run(events))
  {
    if events != [] {
      var st, e := Run(events[..|events| - 1]), events[|events| - 1];
      FlagsAreOwned(events[..|events| - 1]);
      RunKeepsInv(events[..|events| - 1]);
      if Enabled(st, e) {
        match e
        case Inbound(entry, maxQueueSize, media) => ArrivalOwnsFlags(st, entry, maxQueueSize, media);
        case RefusalSent(_) => CallOwnsFlags(st, e);
        case NoticeSent(_) => CallOwnsFlags(st, e);
        case Release(_) => CallOwnsFlags(st, e);
        case _ => OthersOwnFlags(st, e);
      }
    }
  }

  predicate IsUp(events: seq<Event>) {
    events != []
    && (if events[|events| - 1].Connection? then events[|events| - 1].up else IsUp(events[..|events| - 1]))
  }

  lemma DrainTakes(st: State, id: nat, s: string)
    requires s in st.senders && st.active.None?
    requires forall i :: i in st.workers ==> !InFlight(st.workers[i])
    ensures var st' := Drain(st, id, s);
            AtItsStart(st', st.connected)
  {
  }

  lemma {:induction false} ConnectedIff(events: seq<Event>)
    ensures Run(events).connected <==> IsUp(events)
  {
    if events != [] {
      ConnectedIff(events[..|events| - 1]);
      StepRegisters(Run(events[..|events| - 1]), events[|events| - 1]);
    }
  }

  /** A turn that takes the slot is submitted iff the daemon is connected. */
  lemma BegunIsSubmittedIff(events: seq<Event>, e: Event, id: nat)
    requires Begins(Run(events), e, Step(Run(events), e))
    requires id in Step(Run(events), e).workers && InFlight(Step(Run(events), e).workers[id])
    ensures Step(Run(events), e).workers[id].pc == if IsUp(events) then Submitting else Waiting
  {
    RunKeepsInv(events);
    ConnectedIff(events);
    if e.Inbound? {
      ArrivalTakes(Run(events), e.entry, e.maxQueueSize, e.media);
    } else if e.RefusalSent? || e.NoticeSent? || e.Release? {
      CallTakes(Run(events), e);
    } else {
      OthersTakeNothing(Run(events), e);
    }
  }

  /** The call in flight, if any, is at its submission iff the daemon is connected, and waits otherwise. */
  ghost predicate AtItsStart(st: State, connected: bool) {
    forall i :: i in st.workers && InFlight(st.workers[i]) ==>
      st.workers[i].pc == if connected then Submitting else Waiting
  }

  lemma ArrivalTakes(st: State, entry: QueueEntry, maxQueueSize: int, media: bool)
    requires Inv(st) && entry.sender in st.senders && st.active.None?
    ensures AtItsStart(Arrive(st, entry, maxQueueSize, media), st.connected)
  {
    var st1 := if |QueueOf(st.queues, entry.sender)| >= maxQueueSize then st else Enqueued(st, entry);
    forall i | i in st.workers ensures !InFlight(st.workers[i]) {
      WorkerIsActive(st, i);
    }
    DrainTakes(Started(st1, entry.sender), st1.started, entry.sender);
  }

  lemma CallTakes(st: State, e: Event)
    requires Inv(st) && Enabled(st, e) && (e.NoticeSent? || e.Release? || (e.RefusalSent? && st.active.None?))
    ensures AtItsStart(Step(st, e), st.connected)
  {
    var s := st.workers[e.id].sender;
    forall i | i in st.workers && i != e.id ensures !InFlight(st.workers[i]) {
      WorkerIsActive(st, i);
      if InFlight(st.workers[i]) && !e.RefusalSent? { OnlyOneInFlight(st, e.id, i); }
    }
    match e
    case RefusalSent(id) => DrainTakes(Resumed(st, id), id, s);
    case NoticeSent(id) => DrainTakes(GivenBack(st.(flags := st.flags - {s}), id, Failed), id, s);
    case Release(id) => DrainTakes(GivenBack(st, id, Completed), id, s);
  }

  /** The senders of the suspended handlers: a result with text left suspends one, and so does an error. */
  function Suspended(events: seq<Event>): seq<string> {
    if events == [] then []
    else
      var front := events[..|events| - 1];
      StillSuspended(Suspended(front), Run(front).active, events[|events| - 1], ProgressOf(front).remaining)
  }

  function StillSuspended(handlers: seq<string>, active: Option<string>, e: Event, text: string): seq<string> {
    if active.Some? && (e.ErrorEvent? || (e.ResultEvent? && text != "")) then handlers + [active.value]
    else if e.HandlerDone? && e.index < |handlers| then handlers[..e.index] + handlers[e.index + 1..]
    else handlers
  }

  lemma StepSuspends(st: State, e: Event)
    requires Inv(st)
    ensures Step(st, e).handlers == StillSuspended(st.handlers, st.active, e, Kept(st.log))
  {
    if st.active.Some? { ActiveIsRegistered(st); }
    if !e.Register? && !e.Connection? && !e.ResultEvent? && !e.ErrorEvent? && !e.HandlerDone? {
      StepKeepsRest(st, e);
    }
  }

  lemma {:induction false} HandlersAreSuspended(events: seq<Event>)
    ensures Run(events).handlers == Suspended(events)
  {
    if events != [] {
      HandlersAreSuspended(events[..|events| - 1]);
      RunKeepsInv(events[..|events| - 1]);
      RunFollows(events[..|events| - 1]);
      StepSuspends(Run(events[..|events| - 1]), events[|events| - 1]);
    }
  }

  // ----- when an answer can miss text -----

  /** Some answer is less than the text streamed in its turn. */
  predicate MissesText(events: seq<Event>) {
    Answers(events) != WholeAnswers(events)
  }

  /** The turn in flight has not ended and lost nothing, and everything before it went well. */
  predicate IsWhole(events: seq<Event>) {
    && !ProgressOf(events).over && ProgressOf(events).remaining == ProgressOf(events).streamed
    && !MissesText(events) && CompletedWhenOver(events)
  }

  lemma WholeAsRecorded(events: seq<Event>)
    requires IsWhole(events)
    ensures Whole(Run(events).log)
  {
    RunFollows(events);
    FaithfulIffWhole(events);
    EndsAreRecorded(events);
    LostAndKept(Run(events).log);
    assert |HeardSinceTook(Run(events).log)| == |Lost(Run(events).log)| + |Kept(Run(events).log)|;
  }

  lemma {:induction false} RunOfBoth(events: seq<Event>, after: seq<Event>)
    ensures Run(events + after) == RunFrom(Run(events), after)
  {
    if after == [] {
      assert events + after == events;
    } else {
      assert (events + after)[..|events + after| - 1] == events + after[..|after| - 1];
      RunOfBoth(events, after[..|after| - 1]);
    }
  }

  lemma MissesAsRecorded(events: seq<Event>, after: seq<Event>)
    ensures MissesText(events + after + [ResultEvent])
            <==> !RepliesFaithful(Step(RunFrom(Run(events), after), ResultEvent).log)
  {
    RunOfBoth(events, after);
    RunAppend(events + after, ResultEvent);
    FaithfulIffWhole(events + after + [ResultEvent]);
  }

  ghost predicate CanMissAnswer(events: seq<Event>) {
    exists after :: NoEnd(after) && MissesText(events + after + [ResultEvent])
  }

  /**
   For a turn under way that is whole: some continuation in which nothing ends it, and
   then its result, answers with less than its text, iff a handler of its sender is
   suspended.
   */
  lemma MissesAnswerIff(events: seq<Event>, id: nat)
    requires IsOpen(Run(events), id) && IsWhole(events)
    ensures CanMissAnswer(events) <==> Run(events).workers[id].sender in Suspended(events)
  {
    WholeAsRecorded(events);
    MissesTextIff(events, id);
    HandlersAreSuspended(events);
    if CanMissText(Run(events)) {
      var after :| NoEnd(after) && !RepliesFaithful(Step(RunFrom(Run(events), after), ResultEvent).log);
      MissesAsRecorded(events, after);
    }
    if CanMissAnswer(events) {
      var after :| NoEnd(after) && MissesText(events + after + [ResultEvent]);
      MissesAsRecorded(events, after);
    }
  }
}
