/**
 Who resolves a Telegram turn: the resolver registered when the turn takes the
 slot, called by a handler that captured the chat when its event arrived.
 */
module TelegramTurns {
  import opened Wrappers
  import opened TurnHistory
  import opened TelegramScheduler

  // ----- resolvers -----

  /** A turn in flight has its resolver registered until it is signalled, and no resolver outlives its turn. */
  ghost predicate Resolvable(st: State) {
    && (forall i :: i in st.workers && InFlight(st.workers[i]) && !st.workers[i].signalled ==>
          st.workers[i].chat in st.resolvers && st.resolvers[st.workers[i].chat] == i)
    && (forall c :: c in st.resolvers ==>
          && st.resolvers[c] in st.workers && InFlight(st.workers[st.resolvers[c]])
          && st.workers[st.resolvers[c]].chat == c && !st.workers[st.resolvers[c]].signalled)
    && SignalledInFlight(st)
  }

  ghost predicate SignalledInFlight(st: State) {
    forall i :: i in st.workers && st.workers[i].signalled ==> InFlight(st.workers[i])
  }

  ghost predicate NoneInFlight(workers: map<nat, Worker>) {
    forall i :: i in workers ==> !InFlight(workers[i])
  }

  lemma DrainKeepsResolvable(st: State, id: nat, chat: int)
    requires Resolvable(st) && st.active != Some(chat) && id !in st.workers
    requires st.active.None? ==> NoneInFlight(st.workers)
    ensures Resolvable(Drain(st, id, chat))
  {
  }

  lemma ArriveKeepsResolvable(st: State, chat: int, prompt: Prompt)
    requires Inv(st) && !st.halted && Resolvable(st)
    ensures Resolvable(Arrive(st, chat, prompt))
  {
    if chat !in st.processing {
      DrainKeepsResolvable(Started(Enqueued(st, chat, prompt), chat), st.started, chat);
    }
  }

  lemma RefusalKeepsResolvable(st: State, id: nat)
    requires Inv(st) && !st.halted && Resolvable(st) && AtPc(st, id, Refusing)
    ensures Resolvable(Drain(Resumed(st, id), id, st.workers[id].chat))
  {
    ResumedIsRunning(st, id);
    DrainKeepsResolvable(Resumed(st, id), id, st.workers[id].chat);
  }

  /** Only the turn in flight can have a resolver. */
  lemma OnlyItsResolver(st: State, id: nat)
    requires Inv(st) && Resolvable(st) && id in st.workers && InFlight(st.workers[id])
    ensures forall c :: c in st.resolvers ==> c == st.workers[id].chat && st.resolvers[c] == id
  {
    forall c | c in st.resolvers ensures st.resolvers[c] == id {
      OnlyOneInFlight(st, id, st.resolvers[c]);
    }
  }

  /** With its resolver gone, a turn that is over leaves nothing behind. */
  lemma RestoredLeavesNothing(st: State, id: nat, outcome: Outcome)
    requires Inv(st) && !st.halted && id in st.workers && InFlight(st.workers[id]) && !outcome.Refused?
    requires st.resolvers == map[] && SignalledInFlight(st)
    ensures Resolvable(Restored(st, id, outcome)) && NoneInFlight(Restored(st, id, outcome).workers)
    ensures InvRunning(Restored(st, id, outcome), id, st.workers[id].chat) && Restored(st, id, outcome).active.None?
  {
    RestoredIsRunning(st, id, outcome);
    var st' := Restored(st, id, outcome);
    forall i | i in st'.workers ensures !InFlight(st'.workers[i]) {
      if InFlight(st.workers[i]) { OnlyOneInFlight(st, id, i); }
    }
  }

  lemma FailedKeepsResolvable(st: State, id: nat)
    requires Inv(st) && !st.halted && Resolvable(st) && AtPc(st, id, Reporting)
    ensures Resolvable(AfterFailure(st, id))
  {
    var chat := st.workers[id].chat;
    var st1 := st.(resolvers := st.resolvers - {chat});
    OnlyItsResolver(st, id);
    assert forall c :: c !in st1.resolvers;
    assert st1.resolvers == map[];
    MarkKeepsInv(st, st1);
    RestoredLeavesNothing(st1, id, Failed);
    DrainKeepsResolvable(Restored(st1, id, Failed), id, chat);
  }

  lemma CompletedKeepsResolvable(st: State, id: nat)
    requires Inv(st) && !st.halted && Resolvable(st) && AtPc(st, id, Waiting) && st.workers[id].signalled
    ensures Resolvable(AfterTurn(st, id))
  {
    OnlyItsResolver(st, id);
    assert forall c :: c !in st.resolvers;
    assert st.resolvers == map[];
    RestoredLeavesNothing(st, id, Completed);
    DrainKeepsResolvable(Restored(st, id, Completed), id, st.workers[id].chat);
  }

  lemma HandlerKeepsResolvable(st: State, index: nat)
    requires Inv(st) && Resolvable(st) && index < |st.handlers|
    ensures Resolvable(FinishHandler(st, index))
  {
    var chat := st.handlers[index];
    if chat in st.resolvers {
      OnlyItsResolver(st, st.resolvers[chat]);
    }
  }

  lemma StepKeepsResolvable(st: State, e: Event)
    requires Inv(st) && Resolvable(st)
    ensures Resolvable(Step(st, e))
  {
    if Enabled(st, e) {
      match e
      case Inbound(chat, prompt) => ArriveKeepsResolvable(st, chat, prompt);
      case RefusalSent(id) => RefusalKeepsResolvable(st, id);
      case ErrorReported(id) => FailedKeepsResolvable(st, id);
      case ResultAwaited(id) => CompletedKeepsResolvable(st, id);
      case HandlerDone(index) => HandlerKeepsResolvable(st, index);
      case _ => OthersKeepResolvable(st, e);
    }
  }

  lemma OthersKeepResolvable(st: State, e: Event)
    requires Resolvable(st) && Enabled(st, e)
    requires e.RefusalFailed? || e.TypingShown? || e.SubmitDone? || e.TurnFailed? || e.TerminalEvent? || e.DaemonLost?
    ensures Resolvable(Step(st, e))
  {
  }

  /** In every run each turn in flight that is not over has its own resolver, and no other resolver is registered. */
  lemma {:induction false} TurnsAreResolvable(events: seq<Event>)
    ensures Resolvable(Run(events))
  {
    if events != [] {
      var before := events[..|events| - 1];
      TurnsAreResolvable(before);
      RunKeepsInv(before);
      StepKeepsResolvable(Run(before), events[|events| - 1]);
    }
  }

  // ----- every turn ends by its own event, if every turn ends once -----

  /** While every turn ends once, no handler outlives its turn. */
  ghost predicate Tidy(st: State) {
    && CompletedAfterEnd(st.log)
    && (st.handlers != [] ==> st.active.Some? && st.handlers == [st.active.value] && Ended(st.log))
    && (forall i :: i in st.workers && (st.workers[i].signalled || st.workers[i].pc.Reporting?) ==>
          st.handlers == [] && Ended(st.log))
  }

  lemma DrainKeepsTidy(st: State, id: nat, chat: int)
    requires Tidy(st) && st.active != Some(chat) && id !in st.workers
    requires st.active.None? ==>
               forall i :: i in st.workers ==> !st.workers[i].signalled && !st.workers[i].pc.Reporting?
    ensures Tidy(Drain(st, id, chat))
  {
  }

  lemma ArriveKeepsTidy(st: State, chat: int, prompt: Prompt)
    requires Inv(st) && !st.halted && Tidy(st) && Resolvable(st)
    ensures Tidy(Arrive(st, chat, prompt))
  {
    if chat !in st.processing {
      NoneInFlightWhenFree(st);
      DrainKeepsTidy(Started(Enqueued(st, chat, prompt), chat), st.started, chat);
    }
  }

  lemma NoneInFlightWhenFree(st: State)
    requires Inv(st)
    ensures st.active.None? ==> NoneInFlight(st.workers)
  {
  }

  lemma RefusalKeepsTidy(st: State, id: nat)
    requires Inv(st) && !st.halted && Tidy(st) && Resolvable(st) && AtPc(st, id, Refusing)
    ensures Tidy(Drain(Resumed(st, id), id, st.workers[id].chat))
  {
    NoneInFlightWhenFree(st);
    ResumedIsRunning(st, id);
    DrainKeepsTidy(Resumed(st, id), id, st.workers[id].chat);
  }

  lemma RestoredKeepsTidy(st: State, id: nat, outcome: Outcome)
    requires Inv(st) && !st.halted && Tidy(st) && SignalledInFlight(st) && id in st.workers && InFlight(st.workers[id])
    requires !outcome.Refused? && st.handlers == [] && Ended(st.log)
    ensures Tidy(Restored(st, id, outcome))
    ensures InvRunning(Restored(st, id, outcome), id, st.workers[id].chat) && Restored(st, id, outcome).active.None?
    ensures var st' := Restored(st, id, outcome);
            forall i :: i in st'.workers ==> !st'.workers[i].signalled && !st'.workers[i].pc.Reporting?
  {
    RestoredIsRunning(st, id, outcome);
    var st' := Restored(st, id, outcome);
    forall i | i in st'.workers ensures !InFlight(st'.workers[i]) {
      if InFlight(st.workers[i]) { OnlyOneInFlight(st, id, i); }
    }
  }

  lemma FailureKeepsTidy(st: State, id: nat)
    requires Inv(st) && !st.halted && Tidy(st) && Resolvable(st) && AtPc(st, id, Reporting)
    ensures Tidy(AfterFailure(st, id))
  {
    var chat := st.workers[id].chat;
    var st1 := st.(resolvers := st.resolvers - {chat});
    MarkKeepsInv(st, st1);
    RestoredKeepsTidy(st1, id, Failed);
    DrainKeepsTidy(Restored(st1, id, Failed), id, chat);
  }

  lemma CompletionKeepsTidy(st: State, id: nat)
    requires Inv(st) && !st.halted && Tidy(st) && Resolvable(st) && AtPc(st, id, Waiting) && st.workers[id].signalled
    ensures Tidy(AfterTurn(st, id))
  {
    RestoredKeepsTidy(st, id, Completed);
    DrainKeepsTidy(Restored(st, id, Completed), id, st.workers[id].chat);
  }

  lemma TerminalKeepsTidy(st: State)
    requires Tidy(st) && (st.active.None? || !Ended(st.log))
    ensures Tidy(OnTerminal(st))
  {
  }

  lemma FaultKeepsTidy(st: State, id: nat)
    requires Tidy(st) && id in st.workers && !Ended(st.log)
    ensures Tidy(Parked(Logged(st, Fault), id, Reporting))
  {
  }

  lemma HandlerKeepsTidy(st: State, index: nat)
    requires Tidy(st) && index < |st.handlers|
    ensures Tidy(FinishHandler(st, index))
  {
  }

  lemma StepKeepsTidy(st: State, e: Event)
    requires Inv(st) && Resolvable(st) && Tidy(st) && EndsOnce(Step(st, e).log)
    ensures Tidy(Step(st, e))
  {
    if Enabled(st, e) {
      match e
      case Inbound(chat, prompt) => ArriveKeepsTidy(st, chat, prompt);
      case RefusalSent(id) => RefusalKeepsTidy(st, id);
      case ErrorReported(id) => FailureKeepsTidy(st, id);
      case ResultAwaited(id) => CompletionKeepsTidy(st, id);
      case TerminalEvent => TerminalKeepsTidy(st);
      case TurnFailed(id) => FaultKeepsTidy(st, id);
      case HandlerDone(index) => HandlerKeepsTidy(st, index);
      case _ => OthersKeepTidy(st, e);
    }
  }

  lemma OthersKeepTidy(st: State, e: Event)
    requires Tidy(st) && Enabled(st, e)
    requires e.RefusalFailed? || e.TypingShown? || e.SubmitDone? || e.DaemonLost?
    ensures Tidy(Step(st, e))
  {
  }

  lemma DrainExtends(st: State, id: nat, chat: int)
    requires EndsOnce(Drain(st, id, chat).log)
    ensures EndsOnce(st.log)
  {
  }

  lemma EndsOnceBefore(st: State, e: Event)
    requires EndsOnce(Step(st, e).log)
    ensures EndsOnce(st.log)
  {
    if Enabled(st, e) {
      match e
      case Inbound(chat, prompt) =>
        var st1 := Enqueued(st, chat, prompt);
        if chat !in st.processing {
          DrainExtends(Started(st1, chat), st.started, chat);
        }
      case RefusalSent(id) => DrainExtends(Resumed(st, id), id, st.workers[id].chat);
      case ErrorReported(id) =>
        var chat := st.workers[id].chat;
        DrainExtends(Restored(st.(resolvers := st.resolvers - {chat}), id, Failed), id, chat);
      case ResultAwaited(id) => DrainExtends(Restored(st, id, Completed), id, st.workers[id].chat);
      case _ =>
    }
  }

  lemma {:induction false} RunKeepsTidy(events: seq<Event>)
    requires EndsOnce(Run(events).log)
    ensures Tidy(Run(events))
  {
    if events != [] {
      var before := events[..|events| - 1];
      EndsOnceBefore(Run(before), events[|events| - 1]);
      RunKeepsTidy(before);
      RunKeepsInv(before);
      TurnsAreResolvable(before);
      StepKeepsTidy(Run(before), events[|events| - 1]);
    }
  }

  /**
   If every turn ends once, by one result, one error or one failure, then each completed turn
   has ended by its own event.
   */
  lemma TurnsCompleteByTheirOwnEnd(events: seq<Event>)
    requires EndsOnce(Run(events).log)
    ensures CompletedAfterEnd(Run(events).log)
  {
    RunKeepsTidy(events);
  }

  // ----- where another turn's handler resolves it -----

  /**
   A handler still suspended from an earlier turn of the chat resolves the turn in flight,
   whatever that has received.
   */
  lemma StaleHandlerResolves(st: State, id: nat)
    requires Inv(st) && Resolvable(st) && id in st.workers && InFlight(st.workers[id]) && !st.workers[id].signalled
    requires st.handlers != [] && st.handlers[0] == st.workers[id].chat
    ensures var st' := FinishHandler(st, 0);
            id in st'.workers && st'.workers[id] == st.workers[id].(signalled := true) && st'.log == st.log
  {
  }

  const ONE := Prompt("one")
  const TWO := Prompt("two")

  lemma RunFour(events: seq<Event>, a: Event, b: Event, c: Event, d: Event)
    ensures Run(events + [a, b, c, d]) == Step(Step(Step(Step(Run(events), a), b), c), d)
  {
    var e := events + [a, b, c, d];
    assert e[..|e| - 1] == events + [a, b, c] && (events + [a, b, c])[..|events| + 2] == events + [a, b];
    assert (events + [a, b])[..|events| + 1] == events + [a] && (events + [a])[..|events|] == events;
    assert Run(events + [a]) == Step(Run(events), a);
    assert Run(events + [a, b]) == Step(Run(events + [a]), b);
    assert Run(events + [a, b, c]) == Step(Run(events + [a, b]), c);
  }

  /** The turn of "one" receives an error, whose handler is still sending, and "two" waits. */
  lemma OneReceivesAnError(st: State)
    requires st == Initial()
    ensures var st' := Step(Step(Step(Step(st, Inbound(1, ONE)), Inbound(1, TWO)), TypingShown(0)), TerminalEvent);
            && !st'.halted && st'.active == Some(1) && st'.handlers == [1] && st'.resolvers == map[1 := 0]
            && st'.workers == map[0 := Worker(1, Submitting, ONE, None, false)] && QueueOf(st'.queues, 1) == [TWO]
  {
    var st1 := Step(st, Inbound(1, ONE));
    assert QueueOf(Enqueued(st, 1, ONE).queues, 1) == [ONE];
    assert st1.workers == map[0 := Worker(1, Typing, ONE, None, false)] && QueueOf(st1.queues, 1) == [];
    var st2 := Step(st1, Inbound(1, TWO));
    assert QueueOf(st2.queues, 1) == [TWO] && st2.workers == st1.workers;
  }

  /** Its submission fails too, and "two" takes the slot. */
  lemma OneFails(st: State)
    requires !st.halted && st.active == Some(1) && st.handlers == [1] && st.resolvers == map[1 := 0]
    requires st.workers == map[0 := Worker(1, Submitting, ONE, None, false)] && QueueOf(st.queues, 1) == [TWO]
    ensures var st' := Step(Step(st, TurnFailed(0)), ErrorReported(0));
            && !st'.halted && !Ended(st'.log) && st'.handlers == [1] && st'.resolvers == map[1 := 0]
            && st'.workers == map[0 := Worker(1, Typing, TWO, None, false)] && QueueOf(st'.queues, 1) == []
  {
    var st1 := Step(st, TurnFailed(0));
    assert st1.workers == map[0 := Worker(1, Reporting, ONE, None, false)];
  }

  /** The handler of "one" resolves it. */
  lemma TwoIsResolved(st: State)
    requires !st.halted && st.active == Some(1) && st.handlers == [1] && st.resolvers == map[1 := 0]
    requires st.workers == map[0 := Worker(1, Submitting, ONE, None, false)] && QueueOf(st.queues, 1) == [TWO]
    ensures var st' := Step(Step(Step(Step(st, TurnFailed(0)), ErrorReported(0)), HandlerDone(0)), TypingShown(0));
            && !st'.halted && !Ended(st'.log)
            && st'.workers == map[0 := Worker(1, Submitting, TWO, None, true)] && QueueOf(st'.queues, 1) == []
  {
    OneFails(st);
    var st1 := Step(Step(Step(st, TurnFailed(0)), ErrorReported(0)), HandlerDone(0));
    assert st1.workers == map[0 := Worker(1, Typing, TWO, None, true)];
  }

  lemma TwoIsCompleted(st: State)
    requires !st.halted && !Ended(st.log)
    requires st.workers == map[0 := Worker(1, Submitting, TWO, None, true)] && QueueOf(st.queues, 1) == []
    ensures !CompletedAfterEnd(Step(Step(st, SubmitDone(0)), ResultAwaited(0)).log)
  {
    var st1 := Step(st, SubmitDone(0));
    assert st1.workers[0] == Worker(1, Waiting, TWO, None, true);
  }

  lemma TwoIsReached() returns (events: seq<Event>)
    ensures var st := Run(events);
            && !st.halted && !Ended(st.log)
            && st.workers == map[0 := Worker(1, Submitting, TWO, None, true)] && QueueOf(st.queues, 1) == []
  {
    var none: seq<Event> := [];
    var first: seq<Event> := none + [Inbound(1, ONE), Inbound(1, TWO), TypingShown(0), TerminalEvent];
    RunFour(none, Inbound(1, ONE), Inbound(1, TWO), TypingShown(0), TerminalEvent);
    OneReceivesAnError(Initial());
    events := first + [TurnFailed(0), ErrorReported(0), HandlerDone(0), TypingShown(0)];
    RunFour(first, TurnFailed(0), ErrorReported(0), HandlerDone(0), TypingShown(0));
    TwoIsResolved(Run(first));
  }

  /** A run in which a turn completes although nothing of it has arrived. */
  lemma TurnsCanCompleteUnanswered()
    ensures exists events :: !CompletedAfterEnd(Run(events).log)
  {
    var reached := TwoIsReached();
    TwoIsCompleted(Run(reached));
    RunOne(reached, SubmitDone(0));
    RunOne(reached + [SubmitDone(0)], ResultAwaited(0));
  }

  lemma RunOne(events: seq<Event>, e: Event)
    ensures Run(events + [e]) == Step(Run(events), e)
  {
    assert (events + [e])[..|events|] == events;
  }
}
