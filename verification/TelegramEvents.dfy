/**
 What the Telegram gateway records in a run, as functions of the events of the run:
 which texts are accepted, which turn holds the slot, how every text is settled, and
 when a turn is over and told so.
 */
module TelegramEvents {
  import opened Wrappers
  import opened TurnHistory
  import opened TelegramScheduler
  import opened TelegramTurns

  // ----- the record of one step -----

  /** The loop of `processQueue` goes on with `queue`, while `active` holds the slot. */
  function NextFor(log: Log, active: Option<int>, chat: int, queue: seq<Prompt>): Log {
    if queue == [] then log
    else if active.Some? && active.value != chat then Then(log, Left(chat, queue[0], Refused))
    else Then(log, Took(chat, queue[0]))
  }

  /** What the step records before the loop of a call goes on. */
  function First(st: State, e: Event): Log
    requires Enabled(st, e)
  {
    match e
    case Inbound(chat, prompt) => Then(st.log, Accepted(chat, prompt))
    case TurnFailed(_) => Then(st.log, Fault)
    case ErrorReported(id) => Then(st.log, Left(st.workers[id].chat, st.workers[id].prompt, Failed))
    case ResultAwaited(id) => Then(st.log, Left(st.workers[id].chat, st.workers[id].prompt, Completed))
    case TerminalEvent => if st.active.None? then st.log else Then(st.log, Terminal)
    case _ => st.log
  }

  /** The chat whose call goes on behind the step, if one does. */
  function Caller(st: State, e: Event): int
    requires Enabled(st, e)
  {
    match e
    case Inbound(chat, _) => chat
    case RefusalSent(id) => st.workers[id].chat
    case ErrorReported(id) => st.workers[id].chat
    case ResultAwaited(id) => st.workers[id].chat
    case _ => 0
  }

  /** The queue its loop goes on with; empty when no call does. */
  function Pending(st: State, e: Event): seq<Prompt>
    requires Enabled(st, e)
  {
    var queue := QueueOf(st.queues, Caller(st, e));
    match e
    case Inbound(chat, prompt) => if chat in st.processing then [] else queue + [prompt]
    case RefusalSent(_) => queue
    case ErrorReported(_) => queue
    case ResultAwaited(_) => queue
    case _ => []
  }

  /** Who holds the slot then. */
  function Slot(st: State, e: Event): Option<int> {
    if e.ErrorReported? || e.ResultAwaited? then None else st.active
  }

  function Noted(st: State, e: Event): Log
    requires Enabled(st, e)
  {
    NextFor(First(st, e), Slot(st, e), Caller(st, e), Pending(st, e))
  }

  lemma DrainNoted(st: State, id: nat, chat: int)
    requires NoBlank(QueueOf(st.queues, chat))
    ensures Drain(st, id, chat).log == NextFor(st.log, st.active, chat, QueueOf(st.queues, chat))
  {
  }

  lemma CallNoted(st: State, e: Event)
    requires Inv(st) && Enabled(st, e) && (e.RefusalSent? || e.ErrorReported? || e.ResultAwaited?)
    ensures Step(st, e).log == Noted(st, e)
  {
    var chat := st.workers[e.id].chat;
    assert NoBlank(QueueOf(st.queues, chat));
    match e
    case RefusalSent(id) => DrainNoted(Resumed(st, id), id, chat);
    case ErrorReported(id) =>
      RestoredIsRunning(st, id, Failed);
      DrainNoted(Restored(st.(resolvers := st.resolvers - {chat}), id, Failed), id, chat);
    case ResultAwaited(id) =>
      RestoredIsRunning(st, id, Completed);
      DrainNoted(Restored(st, id, Completed), id, chat);
  }

  lemma ArrivalNoted(st: State, e: Event)
    requires Inv(st) && Enabled(st, e) && e.Inbound?
    ensures Step(st, e).log == Noted(st, e)
  {
    var st1 := Enqueued(st, e.chat, e.prompt);
    assert NoBlank(QueueOf(st.queues, e.chat));
    DrainNoted(Started(st1, e.chat), st1.started, e.chat);
  }

  lemma StepNoted(st: State, e: Event)
    requires Inv(st) && Enabled(st, e)
    ensures Step(st, e).log == Noted(st, e)
  {
    if e.Inbound? {
      ArrivalNoted(st, e);
    } else if e.RefusalSent? || e.ErrorReported? || e.ResultAwaited? {
      CallNoted(st, e);
    }
  }

  lemma WorkerIsActive(st: State, id: nat)
    requires Inv(st) && id in st.workers
    ensures InFlight(st.workers[id]) ==> st.active == Some(st.workers[id].chat)
    ensures st.workers[id].pc.Refusing? ==> st.active != Some(st.workers[id].chat)
  {
  }

  // ----- arrivals -----

  /** The process has ended: the daemon was lost, or a busy notice could not be sent. */
  predicate HasHalted(events: seq<Event>) {
    events != []
    && (var front, e := events[..|events| - 1], events[|events| - 1];
        HasHalted(front) || Halts(Run(front), e))
  }

  /** The texts of `chat` that came while the process ran. */
  function Arrived(events: seq<Event>, chat: int): seq<Prompt> {
    if events == [] then []
    else
      var front, e := events[..|events| - 1], events[|events| - 1];
      if e.Inbound? && e.chat == chat && e.prompt.text != "" && !HasHalted(front)
      then Arrived(front, chat) + [e.prompt] else Arrived(front, chat)
  }

  lemma DrainKeepsRest(st: State, id: nat, chat: int)
    ensures Drain(st, id, chat).halted == st.halted && Drain(st, id, chat).handlers == st.handlers
  {
  }

  lemma StepKeepsRest(st: State, e: Event)
    requires !e.TerminalEvent? && !e.HandlerDone? && !e.DaemonLost? && !e.RefusalFailed?
    ensures Step(st, e).halted == st.halted && Step(st, e).handlers == st.handlers
  {
    if Enabled(st, e) {
      match e
      case Inbound(chat, prompt) => DrainKeepsRest(Started(Enqueued(st, chat, prompt), chat), st.started, chat);
      case RefusalSent(id) => DrainKeepsRest(Resumed(st, id), id, st.workers[id].chat);
      case ErrorReported(id) =>
        var chat := st.workers[id].chat;
        DrainKeepsRest(Restored(st.(resolvers := st.resolvers - {chat}), id, Failed), id, chat);
      case ResultAwaited(id) => DrainKeepsRest(Restored(st, id, Completed), id, st.workers[id].chat);
      case _ =>
    }
  }

  predicate Halts(st: State, e: Event) {
    e.DaemonLost? || (e.RefusalFailed? && AtPc(st, e.id, Refusing))
  }

  lemma StepHalts(st: State, e: Event)
    ensures Step(st, e).halted <==> st.halted || Halts(st, e)
  {
    if !e.TerminalEvent? && !e.HandlerDone? && !e.DaemonLost? && !e.RefusalFailed? {
      StepKeepsRest(st, e);
    }
  }

  lemma {:induction false} HaltedIff(events: seq<Event>)
    ensures Run(events).halted <==> HasHalted(events)
  {
    if events != [] {
      HaltedIff(events[..|events| - 1]);
      StepHalts(Run(events[..|events| - 1]), events[|events| - 1]);
    }
  }

  lemma NextAccepts(log: Log, active: Option<int>, chat: int, queue: seq<Prompt>, c: int)
    ensures AcceptedBy(NextFor(log, active, chat, queue), c) == AcceptedBy(log, c)
    ensures EndsOnce(NextFor(log, active, chat, queue)) <==> EndsOnce(log)
    ensures CompletedAfterEnd(NextFor(log, active, chat, queue)) <==> CompletedAfterEnd(log)
  {
    assert AcceptedBy(log, c) + [] == AcceptedBy(log, c);
  }

  lemma StepAccepts(st: State, e: Event, c: int)
    requires Enabled(st, e)
    ensures AcceptedBy(Noted(st, e), c) ==
            if e.Inbound? && e.chat == c then AcceptedBy(st.log, c) + [e.prompt] else AcceptedBy(st.log, c)
  {
    assert AcceptedBy(st.log, c) + [] == AcceptedBy(st.log, c);
    NextAccepts(First(st, e), Slot(st, e), Caller(st, e), Pending(st, e), c);
  }

  /** In every run the texts accepted are those that arrived while the process ran, in order. */
  lemma {:induction false} AcceptedAreArrived(events: seq<Event>, chat: int)
    ensures AcceptedBy(Run(events).log, chat) == Arrived(events, chat)
  {
    if events != [] {
      var front, e := events[..|events| - 1], events[|events| - 1];
      AcceptedAreArrived(front, chat);
      RunKeepsInv(front);
      HaltedIff(front);
      if Enabled(Run(front), e) {
        StepNoted(Run(front), e);
        StepAccepts(Run(front), e, chat);
      }
    }
  }

  /** What arrived is settled, in flight or queued, in the order of arrival. */
  lemma ArrivalsConserved(events: seq<Event>, chat: int)
    ensures var st := Run(events);
            Arrived(events, chat) == LeftBy(st.log, chat) + Current(st.log, chat) + QueueOf(st.queues, chat)
  {
    AcceptedAreArrived(events, chat);
    TextsConserved(events, chat);
  }

  // ----- how texts are settled -----

  /**
   A resolved turn completes its text and a reported failure fails it. A text is refused
   when its turn comes while another chat holds the slot: on arrival, or behind the
   notice of an earlier refusal.
   */
  ghost function SettledNow(st: State, e: Event, c: int): seq<(Prompt, Outcome)> {
    if !Enabled(st, e) then []
    else
      match e
      case ResultAwaited(id) => if st.workers[id].chat == c then [(st.workers[id].prompt, Completed)] else []
      case ErrorReported(id) => if st.workers[id].chat == c then [(st.workers[id].prompt, Failed)] else []
      case Inbound(chat, prompt) =>
        if chat == c && !Live(st.workers, c) && st.active.Some? then [(prompt, Refused)] else []
      case RefusalSent(id) =>
        if st.workers[id].chat == c && QueueOf(st.queues, c) != [] && st.active.Some?
        then [(QueueOf(st.queues, c)[0], Refused)] else []
      case _ => []
  }

  ghost function SettledIn(events: seq<Event>, c: int): seq<(Prompt, Outcome)> {
    if events == [] then []
    else SettledIn(events[..|events| - 1], c) + SettledNow(Run(events[..|events| - 1]), events[|events| - 1], c)
  }

  lemma NextSettles(log: Log, active: Option<int>, chat: int, queue: seq<Prompt>, c: int)
    ensures SettledBy(NextFor(log, active, chat, queue), c) ==
            SettledBy(log, c)
            + (if chat == c && queue != [] && active.Some? && active.value != chat then [(queue[0], Refused)] else [])
  {
    assert SettledBy(log, c) + [] == SettledBy(log, c);
  }

  /** A chat without a live call has nothing queued and does not hold the slot. */
  lemma IdleChat(st: State, chat: int)
    requires Inv(st) && !st.halted
    ensures Live(st.workers, chat) <==> chat in st.processing
    ensures chat !in st.processing ==> QueueOf(st.queues, chat) == [] && st.active != Some(chat)
  {
  }

  lemma StepSettles(st: State, e: Event, c: int)
    requires Inv(st) && Enabled(st, e)
    ensures SettledBy(Noted(st, e), c) == SettledBy(st.log, c) + SettledNow(st, e, c)
  {
    assert SettledBy(st.log, c) + [] == SettledBy(st.log, c);
    if e.Inbound? {
      ArrivalSettles(st, e, c);
    } else if e.RefusalSent? || e.ErrorReported? || e.ResultAwaited? {
      CallSettles(st, e, c);
    }
  }

  lemma ArrivalSettles(st: State, e: Event, c: int)
    requires Inv(st) && Enabled(st, e) && e.Inbound?
    ensures SettledBy(Noted(st, e), c) == SettledBy(st.log, c) + SettledNow(st, e, c)
  {
    assert SettledBy(st.log, c) + [] == SettledBy(st.log, c);
    NextSettles(First(st, e), Slot(st, e), Caller(st, e), Pending(st, e), c);
    IdleChat(st, e.chat);
    assert [] + [e.prompt] == [e.prompt];
  }

  lemma CallSettles(st: State, e: Event, c: int)
    requires Inv(st) && Enabled(st, e) && (e.RefusalSent? || e.ErrorReported? || e.ResultAwaited?)
    ensures SettledBy(Noted(st, e), c) == SettledBy(st.log, c) + SettledNow(st, e, c)
  {
    assert SettledBy(st.log, c) + [] == SettledBy(st.log, c);
    NextSettles(First(st, e), Slot(st, e), Caller(st, e), Pending(st, e), c);
    WorkerIsActive(st, e.id);
  }

  /** In every run the texts settled, and how, are what the events of their calls make of them. */
  lemma {:induction false} SettledByTheirCalls(events: seq<Event>, c: int)
    ensures SettledBy(Run(events).log, c) == SettledIn(events, c)
  {
    if events != [] {
      var front, e := events[..|events| - 1], events[|events| - 1];
      SettledByTheirCalls(front, c);
      RunKeepsInv(front);
      if Enabled(Run(front), e) {
        StepNoted(Run(front), e);
        StepSettles(Run(front), e, c);
      }
    }
  }

  // ----- who holds the slot -----

  /**
   The slot goes to the text that arrives at an idle chat while it is free, and to the
   next text of a call that goes on while it is free or gives it back.
   */
  ghost function HolderNow(holder: Option<Turn<int, Prompt>>, st: State, e: Event): Option<Turn<int, Prompt>> {
    if !Enabled(st, e) then holder
    else
      match e
      case Inbound(chat, prompt) =>
        if holder.None? && !Live(st.workers, chat) then Some(Turn(chat, prompt)) else holder
      case RefusalSent(id) => if holder.None? then NextOf(st.queues, st.workers[id].chat) else holder
      case ErrorReported(id) => NextOf(st.queues, st.workers[id].chat)
      case ResultAwaited(id) => NextOf(st.queues, st.workers[id].chat)
      case _ => holder
  }

  function NextOf(queues: Queues, chat: int): Option<Turn<int, Prompt>> {
    if QueueOf(queues, chat) == [] then None else Some(Turn(chat, QueueOf(queues, chat)[0]))
  }

  ghost function HolderIn(events: seq<Event>): Option<Turn<int, Prompt>> {
    if events == [] then None
    else HolderNow(HolderIn(events[..|events| - 1]), Run(events[..|events| - 1]), events[|events| - 1])
  }

  lemma NextHolds(log: Log, active: Option<int>, chat: int, queue: seq<Prompt>)
    requires active != Some(chat)
    ensures Holder(NextFor(log, active, chat, queue)) ==
            if queue != [] && active.None? then Some(Turn(chat, queue[0])) else Holder(log)
  {
  }

  lemma StepHolds(st: State, e: Event)
    requires Inv(st) && Enabled(st, e)
    ensures Holder(Noted(st, e)) == HolderNow(Holder(st.log), st, e)
  {
    if e.Inbound? {
      IdleChat(st, e.chat);
      if e.chat !in st.processing {
        assert [] + [e.prompt] == [e.prompt];
        NextHolds(First(st, e), st.active, e.chat, Pending(st, e));
      }
    } else if e.RefusalSent? || e.ErrorReported? || e.ResultAwaited? {
      WorkerIsActive(st, e.id);
      NextHolds(First(st, e), Slot(st, e), Caller(st, e), Pending(st, e));
    }
  }

  /** In every run the turn that holds the slot, and the active chat, are what these rules make of the events. */
  lemma {:induction false} HolderByTheRules(events: seq<Event>)
    ensures Holder(Run(events).log) == HolderIn(events)
    ensures Run(events).active == if HolderIn(events).Some? then Some(HolderIn(events).value.who) else None
  {
    RunKeepsInv(events);
    if events != [] {
      var front, e := events[..|events| - 1], events[|events| - 1];
      HolderByTheRules(front);
      RunKeepsInv(front);
      if Enabled(Run(front), e) {
        StepNoted(Run(front), e);
        StepHolds(Run(front), e);
      }
    }
  }

  // ----- the turn in flight -----

  /** A turn takes the slot in this step: it was free, or is given back by the call that goes on. */
  predicate Begins(before: State, e: Event, after: State) {
    after.active.Some? && (before.active.None? || (Enabled(before, e) && (e.ErrorReported? || e.ResultAwaited?)))
  }

  /** The step ends the turn in flight: a result or an error of it, or its failure. */
  predicate EndsTurn(st: State, e: Event) {
    Enabled(st, e) && (e.TurnFailed? || (e.TerminalEvent? && st.active.Some?))
  }

  /** A handler of the chat in flight ends. */
  predicate Tells(st: State, e: Event) {
    Enabled(st, e) && e.HandlerDone? && st.active == Some(st.handlers[e.index])
  }

  /** The turn in flight since it took the slot: whether it has ended, and whether it has been told so. */
  datatype Progress = Progress(over: bool, told: bool)

  function ProgressOf(events: seq<Event>): Progress {
    if events == [] then Progress(false, false)
    else Advanced(ProgressOf(events[..|events| - 1]), Run(events[..|events| - 1]), events[|events| - 1])
  }

  /** The record and the promise of the turn in flight agree with it. */
  ghost predicate Follows(st: State, p: Progress) {
    && (Ended(st.log) <==> p.over)
    && forall i :: i in st.workers && InFlight(st.workers[i]) ==> (st.workers[i].signalled <==> p.told)
  }

  lemma DrainFollows(st: State, id: nat, chat: int, p: Progress)
    requires Follows(st, p) && InvRunning(st, id, chat)
    ensures var st' := Drain(st, id, chat);
            Follows(st', if st.active.None? && st'.active.Some? then Progress(false, false) else p)
  {
    assert NoBlank(QueueOf(st.queues, chat));
    if st.active.None? {
      assert forall i :: i in st.workers ==> !InFlight(st.workers[i]);
    }
  }

  lemma ArrivalFollows(st: State, chat: int, prompt: Prompt, p: Progress)
    requires Inv(st) && !st.halted && prompt.text != "" && Follows(st, p)
    ensures var st' := Arrive(st, chat, prompt);
            Follows(st', if st.active.None? && st'.active.Some? then Progress(false, false) else p)
  {
    if chat !in st.processing {
      StartIsRunning(st, chat);
      EnqueueKeepsBase(Started(st, chat), chat, prompt);
      assert Enqueued(Started(st, chat), chat, prompt) == Started(Enqueued(st, chat, prompt), chat);
      DrainFollows(Started(Enqueued(st, chat, prompt), chat), st.started, chat, p);
    }
  }

  lemma RefusalFollows(st: State, id: nat, p: Progress)
    requires Inv(st) && !st.halted && AtPc(st, id, Refusing) && Follows(st, p)
    ensures var st' := Drain(Resumed(st, id), id, st.workers[id].chat);
            Follows(st', if st.active.None? && st'.active.Some? then Progress(false, false) else p)
  {
    ResumedIsRunning(st, id);
    DrainFollows(Resumed(st, id), id, st.workers[id].chat, p);
  }

  lemma TurnOverFollows(st: State, id: nat, outcome: Outcome, p: Progress)
    requires Inv(st) && !st.halted && id in st.workers && InFlight(st.workers[id]) && !outcome.Refused?
    requires Follows(st, p)
    ensures var st' := Drain(Restored(st, id, outcome), id, st.workers[id].chat);
            Follows(st', if st'.active.Some? then Progress(false, false) else p)
  {
    RestoredIsRunning(st, id, outcome);
    DrainFollows(Restored(st, id, outcome), id, st.workers[id].chat, p);
  }

  lemma FailureFollows(st: State, id: nat, p: Progress)
    requires Inv(st) && !st.halted && AtPc(st, id, Reporting) && Follows(st, p)
    ensures Follows(AfterFailure(st, id), if AfterFailure(st, id).active.Some? then Progress(false, false) else p)
  {
    var st1 := st.(resolvers := st.resolvers - {st.workers[id].chat});
    MarkKeepsInv(st, st1);
    TurnOverFollows(st1, id, Failed, p);
  }

  lemma CallFollows(st: State, e: Event, p: Progress)
    requires Inv(st) && Enabled(st, e) && Follows(st, p) && (e.RefusalSent? || e.ErrorReported? || e.ResultAwaited?)
    ensures Follows(Step(st, e), if Begins(st, e, Step(st, e)) then Progress(false, false) else p)
  {
    match e
    case RefusalSent(id) => RefusalFollows(st, id, p);
    case ErrorReported(id) => FailureFollows(st, id, p);
    case ResultAwaited(id) => TurnOverFollows(st, id, Completed, p);
  }

  lemma HandlerFollows(st: State, index: nat, p: Progress)
    requires Inv(st) && Resolvable(st) && Follows(st, p) && index < |st.handlers|
    ensures Follows(FinishHandler(st, index), p.(told := p.told || st.active == Some(st.handlers[index])))
    ensures FinishHandler(st, index).active == st.active
  {
    forall i | i in st.workers && InFlight(st.workers[i])
      ensures st.active == Some(st.workers[i].chat)
      ensures forall c :: c in st.resolvers ==> c == st.workers[i].chat && st.resolvers[c] == i
    {
      OnlyItsResolver(st, i);
    }
  }

  lemma OthersFollow(st: State, e: Event, p: Progress)
    requires Inv(st) && Enabled(st, e) && Follows(st, p)
    requires e.RefusalFailed? || e.TypingShown? || e.SubmitDone? || e.TurnFailed? || e.TerminalEvent? || e.DaemonLost?
    ensures Follows(Step(st, e), p.(over := p.over || EndsTurn(st, e))) && Step(st, e).active == st.active
  {
  }

  function Advanced(p: Progress, st: State, e: Event): Progress {
    if Begins(st, e, Step(st, e)) then Progress(false, false)
    else Progress(p.over || EndsTurn(st, e), p.told || Tells(st, e))
  }

  lemma StepFollows(st: State, e: Event, p: Progress)
    requires Inv(st) && Resolvable(st) && Follows(st, p)
    ensures Follows(Step(st, e), Advanced(p, st, e))
  {
    if Enabled(st, e) {
      if e.Inbound? {
        ArrivalFollows(st, e.chat, e.prompt, p);
      } else if e.RefusalSent? || e.ErrorReported? || e.ResultAwaited? {
        CallFollows(st, e, p);
      } else if e.HandlerDone? {
        HandlerFollows(st, e.index, p);
      } else {
        OthersFollow(st, e, p);
      }
    }
  }

  /** In every run the record of the turn in flight, and its promise, are what its events make of them. */
  lemma {:induction false} RunFollows(events: seq<Event>)
    ensures Follows(Run(events), ProgressOf(events))
  {
    if events != [] {
      var front, e := events[..|events| - 1], events[|events| - 1];
      RunFollows(front);
      RunKeepsInv(front);
      TurnsAreResolvable(front);
      StepFollows(Run(front), e, ProgressOf(front));
    }
  }

  /** A turn passes its last await iff a handler of its chat has ended since it took the slot. */
  lemma AwaitEndsIff(events: seq<Event>, id: nat)
    requires AtPc(Run(events), id, Waiting)
    ensures Enabled(Run(events), ResultAwaited(id)) <==> !HasHalted(events) && ProgressOf(events).told
  {
    RunKeepsInv(events);
    RunFollows(events);
    HaltedIff(events);
    WaitsUntilTold(Run(events), id, ProgressOf(events));
  }

  lemma WaitsUntilTold(st: State, id: nat, p: Progress)
    requires Follows(st, p) && AtPc(st, id, Waiting)
    ensures Enabled(st, ResultAwaited(id)) <==> !st.halted && p.told
  {
  }

  /** The typing notice comes before the submission and that before the result; a failure of either is reported. */
  lemma AwaitsAreInOrder(events: seq<Event>, id: nat)
    requires !HasHalted(events)
    ensures AtPc(Run(events), id, Typing) ==>
              Step(Run(events), TypingShown(id)) == Parked(Run(events), id, Submitting)
    ensures AtPc(Run(events), id, Submitting) ==>
              Step(Run(events), SubmitDone(id)) == Parked(Run(events), id, Waiting)
    ensures AtPc(Run(events), id, Typing) || AtPc(Run(events), id, Submitting) ==>
              Step(Run(events), TurnFailed(id)) == Parked(Logged(Run(events), Fault), id, Reporting)
  {
    HaltedIff(events);
    NextAwait(Run(events), id);
  }

  lemma NextAwait(st: State, id: nat)
    requires !st.halted
    ensures AtPc(st, id, Typing) ==> Step(st, TypingShown(id)) == Parked(st, id, Submitting)
    ensures AtPc(st, id, Submitting) ==> Step(st, SubmitDone(id)) == Parked(st, id, Waiting)
    ensures AtPc(st, id, Typing) || AtPc(st, id, Submitting) ==>
              Step(st, TurnFailed(id)) == Parked(Logged(st, Fault), id, Reporting)
  {
  }

  /** A turn that takes the slot begins with its typing notice. */
  lemma BegunIsTyping(events: seq<Event>, e: Event, id: nat)
    requires Begins(Run(events), e, Step(Run(events), e))
    requires id in Step(Run(events), e).workers && InFlight(Step(Run(events), e).workers[id])
    ensures Step(Run(events), e).workers[id].pc.Typing? && !Step(Run(events), e).workers[id].signalled
  {
    RunKeepsInv(events);
    var st := Run(events);
    match e
    case Inbound(chat, prompt) =>
      if chat !in st.processing {
        StartIsRunning(st, chat);
        DrainTypes(Started(Enqueued(st, chat, prompt), chat), st.started, chat);
      }
    case RefusalSent(other) => DrainTypes(Resumed(st, other), other, st.workers[other].chat);
    case ErrorReported(other) =>
      var st1 := st.(resolvers := st.resolvers - {st.workers[other].chat});
      MarkKeepsInv(st, st1);
      RestoredIsRunning(st1, other, Failed);
      DrainTypes(Restored(st1, other, Failed), other, st.workers[other].chat);
    case ResultAwaited(other) =>
      RestoredIsRunning(st, other, Completed);
      DrainTypes(Restored(st, other, Completed), other, st.workers[other].chat);
    case _ => OthersTakeNothing(st, e);
  }

  lemma DrainTypes(st: State, id: nat, chat: int)
    requires st.active.None? && forall i :: i in st.workers ==> !InFlight(st.workers[i])
    ensures var st' := Drain(st, id, chat);
            forall i :: i in st'.workers && InFlight(st'.workers[i]) ==>
              st'.workers[i].pc.Typing? && !st'.workers[i].signalled
  {
  }

  lemma OthersTakeNothing(st: State, e: Event)
    requires !e.Inbound? && !e.RefusalSent? && !e.ErrorReported? && !e.ResultAwaited?
    ensures Step(st, e).active == st.active
  {
  }

  // ----- turns that end once -----

  predicate TurnsEndOnce(events: seq<Event>) {
    events == []
    || (var front := events[..|events| - 1];
        TurnsEndOnce(front) && (EndsTurn(Run(front), events[|events| - 1]) ==> !ProgressOf(front).over))
  }

  /** No turn is completed before it has ended. */
  predicate CompletedWhenOver(events: seq<Event>) {
    events == []
    || (var front, e := events[..|events| - 1], events[|events| - 1];
        CompletedWhenOver(front) && (e.ResultAwaited? && Enabled(Run(front), e) ==> ProgressOf(front).over))
  }

  lemma StepEnds(st: State, e: Event)
    requires Inv(st) && Enabled(st, e)
    ensures EndsOnce(Noted(st, e)) <==> EndsOnce(st.log) && (EndsTurn(st, e) ==> !Ended(st.log))
    ensures CompletedAfterEnd(Noted(st, e)) <==> CompletedAfterEnd(st.log) && (e.ResultAwaited? ==> Ended(st.log))
  {
    NextAccepts(First(st, e), Slot(st, e), Caller(st, e), Pending(st, e), 0);
  }

  /** What the record says of the ends of turns is what the events say. */
  lemma {:induction false} EndsAreRecorded(events: seq<Event>)
    ensures EndsOnce(Run(events).log) <==> TurnsEndOnce(events)
    ensures CompletedAfterEnd(Run(events).log) <==> CompletedWhenOver(events)
  {
    if events != [] {
      var front, e := events[..|events| - 1], events[|events| - 1];
      EndsAreRecorded(front);
      RunKeepsInv(front);
      RunFollows(front);
      if Enabled(Run(front), e) {
        StepNoted(Run(front), e);
        StepEnds(Run(front), e);
      }
    }
  }

  // ----- handlers -----

  /** The chats of the suspended handlers: every result or error with an active chat suspends one. */
  function Suspended(events: seq<Event>): seq<int> {
    if events == [] then []
    else
      var front := events[..|events| - 1];
      if HasHalted(front) then Suspended(front)
      else StillSuspended(Suspended(front), Run(front).active, events[|events| - 1])
  }

  function StillSuspended(handlers: seq<int>, active: Option<int>, e: Event): seq<int> {
    if e.TerminalEvent? && active.Some? then handlers + [active.value]
    else if e.HandlerDone? && e.index < |handlers| then handlers[..e.index] + handlers[e.index + 1..]
    else handlers
  }

  lemma StepSuspends(st: State, e: Event)
    requires !st.halted
    ensures Step(st, e).handlers == StillSuspended(st.handlers, st.active, e)
  {
    if !e.TerminalEvent? && !e.HandlerDone? && !e.DaemonLost? && !e.RefusalFailed? {
      StepKeepsRest(st, e);
    }
  }

  lemma {:induction false} HandlersAreSuspended(events: seq<Event>)
    ensures Run(events).handlers == Suspended(events)
  {
    if events != [] {
      HandlersAreSuspended(events[..|events| - 1]);
      HaltedIff(events[..|events| - 1]);
      if !HasHalted(events[..|events| - 1]) {
        StepSuspends(Run(events[..|events| - 1]), events[|events| - 1]);
      }
    }
  }
}
