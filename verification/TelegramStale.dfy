/**
 When a Telegram turn can be over before anything of it has arrived: exactly when
 a handler of an earlier turn of its chat is still suspended.
 */
module TelegramStale {
  import opened Wrappers
  import opened TurnHistory
  import opened TelegramScheduler
  import opened TelegramTurns

  function RunFrom(st: State, events: seq<Event>): State {
    if events == [] then st else Step(RunFrom(st, events[..|events| - 1]), events[|events| - 1])
  }

  /** Nothing arrives that ends a turn, and no turn fails. */
  ghost predicate NoEnd(events: seq<Event>) {
    forall i :: 0 <= i < |events| ==> !events[i].TerminalEvent? && !events[i].TurnFailed?
  }

  /** The turn of call `id` is under way: not failed, and not yet told that it is over. */
  predicate IsOpen(st: State, id: nat) {
    id in st.workers && InFlight(st.workers[id]) && !st.workers[id].signalled && !st.workers[id].pc.Reporting?
  }

  predicate Signalled(st: State, id: nat) {
    id in st.workers && st.workers[id].signalled
  }

  /** So it is when it takes the slot. */
  lemma TakenIsOpen(st: State, id: nat, chat: int, prompt: Prompt)
    ensures IsOpen(Take(st, id, chat, prompt), id) && !Ended(Take(st, id, chat, prompt).log)
  {
  }

  // ----- without a suspended handler of its chat, the turn stays open -----

  /** The turn of `id` is as it was, and no handler of its chat is suspended. */
  ghost predicate StillOpen(st: State, st': State, id: nat)
    requires id in st.workers
  {
    && IsOpen(st', id) && st'.workers[id].chat == st.workers[id].chat && st'.workers[id].prompt == st.workers[id].prompt
    && st.workers[id].chat !in st'.handlers
    && (Ended(st'.log) <==> Ended(st.log))
    && (CompletedAfterEnd(st.log) ==> CompletedAfterEnd(st'.log))
  }

  /** Another call finds the slot taken: it is refused, or it ends. */
  lemma DrainLeavesOpen(st: State, id: nat, other: nat, chat: int)
    requires IsOpen(st, id) && st.active == Some(st.workers[id].chat) && st.workers[id].chat !in st.handlers
    requires other != id && chat != st.workers[id].chat
    ensures StillOpen(st, Drain(st, other, chat), id)
  {
  }

  lemma ArrivalLeavesOpen(st: State, id: nat, chat: int, prompt: Prompt)
    requires Inv(st) && !st.halted && IsOpen(st, id) && st.workers[id].chat !in st.handlers
    ensures StillOpen(st, Arrive(st, chat, prompt), id)
  {
    if chat !in st.processing {
      DrainLeavesOpen(Started(Enqueued(st, chat, prompt), chat), id, st.started, chat);
    }
  }

  lemma RefusalLeavesOpen(st: State, id: nat, other: nat)
    requires Inv(st) && IsOpen(st, id) && st.workers[id].chat !in st.handlers && AtPc(st, other, Refusing)
    ensures StillOpen(st, Drain(Resumed(st, other), other, st.workers[other].chat), id)
  {
    DrainLeavesOpen(Resumed(st, other), id, other, st.workers[other].chat);
  }

  lemma HandlerLeavesOpen(st: State, id: nat, index: nat)
    requires Inv(st) && Resolvable(st) && IsOpen(st, id) && st.workers[id].chat !in st.handlers && index < |st.handlers|
    ensures StillOpen(st, FinishHandler(st, index), id)
  {
    OnlyItsResolver(st, id);
  }

  lemma OthersLeaveOpen(st: State, id: nat, e: Event)
    requires Inv(st) && IsOpen(st, id) && st.workers[id].chat !in st.handlers && Enabled(st, e)
    requires e.RefusalFailed? || e.TypingShown? || e.SubmitDone? || e.DaemonLost?
    ensures StillOpen(st, Step(st, e), id)
  {
  }

  /** Only a turn that failed or was signalled can be given back, and only the turn in flight. */
  lemma OpenIsNotGivenBack(st: State, id: nat, e: Event)
    requires Inv(st) && IsOpen(st, id) && (e.ErrorReported? || e.ResultAwaited?)
    ensures !Enabled(st, e)
  {
    if Enabled(st, e) { OnlyOneInFlight(st, id, e.id); }
  }

  lemma StepLeavesOpen(st: State, id: nat, e: Event)
    requires Inv(st) && Resolvable(st) && IsOpen(st, id) && st.workers[id].chat !in st.handlers
    requires !e.TerminalEvent? && !e.TurnFailed?
    ensures StillOpen(st, Step(st, e), id)
  {
    if e.ErrorReported? || e.ResultAwaited? {
      OpenIsNotGivenBack(st, id, e);
    } else if Enabled(st, e) {
      match e
      case Inbound(chat, prompt) => ArrivalLeavesOpen(st, id, chat, prompt);
      case RefusalSent(other) => RefusalLeavesOpen(st, id, other);
      case HandlerDone(index) => HandlerLeavesOpen(st, id, index);
      case _ => OthersLeaveOpen(st, id, e);
    }
  }

  lemma {:induction false} RunLeavesOpen(st: State, id: nat, after: seq<Event>)
    requires Inv(st) && Resolvable(st) && IsOpen(st, id) && st.workers[id].chat !in st.handlers && NoEnd(after)
    ensures StillOpen(st, RunFrom(st, after), id)
    ensures Inv(RunFrom(st, after)) && Resolvable(RunFrom(st, after))
  {
    if after != [] {
      var front := after[..|after| - 1];
      RunLeavesOpen(st, id, front);
      StepLeavesOpen(RunFrom(st, front), id, after[|after| - 1]);
      StepKeepsInv(RunFrom(st, front), after[|after| - 1]);
      StepKeepsResolvable(RunFrom(st, front), after[|after| - 1]);
    }
  }

  // ----- a suspended handler of its chat can end it -----

  lemma RunOfOne(st: State, a: Event)
    ensures RunFrom(st, [a]) == Step(st, a)
  {
    assert [a][..0] == [];
  }

  lemma RunOfFour(st: State, a: Event, b: Event, c: Event, d: Event)
    ensures RunFrom(st, [a, b, c, d]) == Step(Step(Step(Step(st, a), b), c), d)
  {
    assert [a, b, c, d][..3] == [a, b, c] && [a, b, c][..2] == [a, b] && [a, b][..1] == [a];
    RunOfOne(st, a);
    assert RunFrom(st, [a, b]) == Step(RunFrom(st, [a]), b);
    assert RunFrom(st, [a, b, c]) == Step(RunFrom(st, [a, b]), c);
  }

  /** The handler finds the resolver of the turn in flight. */
  lemma HandlerSignals(st: State, id: nat, index: nat)
    requires Inv(st) && !st.halted && Resolvable(st) && IsOpen(st, id)
    requires index < |st.handlers| && st.handlers[index] == st.workers[id].chat
    ensures var st' := Step(st, HandlerDone(index));
            && !st'.halted && st'.log == st.log
            && id in st'.workers && st'.workers[id] == st.workers[id].(signalled := true)
  {
  }

  /** A signalled turn passes its awaits, whichever it is at, and then waits for nothing. */
  lemma SignalledAdvances(st: State, id: nat)
    requires !st.halted && Signalled(st, id) && InFlight(st.workers[id]) && !st.workers[id].pc.Reporting?
    ensures var st' := Step(Step(st, TypingShown(id)), SubmitDone(id));
            !st'.halted && st'.log == st.log && Signalled(st', id) && st'.workers[id].pc == Waiting
  {
    var st1 := Step(st, TypingShown(id));
    assert Signalled(st1, id) && (st1.workers[id].pc.Submitting? || st1.workers[id].pc.Waiting?);
  }

  lemma DrainKeepsUnanswered(st: State, id: nat, chat: int)
    requires !CompletedAfterEnd(st.log)
    ensures !CompletedAfterEnd(Drain(st, id, chat).log)
  {
  }

  /** Completing a turn that has not ended is what must not happen. */
  lemma CompletedUnanswered(st: State, id: nat)
    requires !st.halted && Signalled(st, id) && st.workers[id].pc == Waiting && !Ended(st.log)
    ensures !CompletedAfterEnd(Step(st, ResultAwaited(id)).log)
  {
    DrainKeepsUnanswered(Restored(st, id, Completed), id, st.workers[id].chat);
  }

  // ----- guarantees -----

  ghost predicate CanBeSignalled(st: State, id: nat) {
    exists after :: NoEnd(after) && Signalled(RunFrom(st, after), id)
  }

  ghost predicate CanCompleteUnanswered(st: State) {
    exists after :: NoEnd(after) && !CompletedAfterEnd(RunFrom(st, after).log)
  }

  /**
   At any moment of any run: some continuation in which nothing ends a turn tells the
   turn in flight that it is over iff a handler of its chat is still suspended.
   */
  lemma SignalledIff(events: seq<Event>, id: nat)
    requires !Run(events).halted && IsOpen(Run(events), id)
    ensures CanBeSignalled(Run(events), id) <==> Run(events).workers[id].chat in Run(events).handlers
  {
    var st := Run(events);
    RunKeepsInv(events);
    TurnsAreResolvable(events);
    var chat := st.workers[id].chat;
    if chat in st.handlers {
      var index :| 0 <= index < |st.handlers| && st.handlers[index] == chat;
      HandlerSignals(st, id, index);
      RunOfOne(st, HandlerDone(index));
      assert NoEnd([HandlerDone(index)]);
    } else {
      forall after | NoEnd(after) ensures !Signalled(RunFrom(st, after), id) {
        RunLeavesOpen(st, id, after);
      }
    }
  }

  /**
   At any moment of any run, for a turn in flight that has not ended: some continuation
   in which nothing ends a turn completes one unanswered iff a handler of the chat of
   that turn is still suspended.
   */
  lemma UnansweredIff(events: seq<Event>, id: nat)
    requires !Run(events).halted && IsOpen(Run(events), id)
    requires !Ended(Run(events).log) && CompletedAfterEnd(Run(events).log)
    ensures CanCompleteUnanswered(Run(events)) <==> Run(events).workers[id].chat in Run(events).handlers
  {
    var st := Run(events);
    RunKeepsInv(events);
    TurnsAreResolvable(events);
    var chat := st.workers[id].chat;
    if chat in st.handlers {
      var index :| 0 <= index < |st.handlers| && st.handlers[index] == chat;
      StaleHandlerCompletes(st, id, index);
    } else {
      forall after | NoEnd(after) ensures CompletedAfterEnd(RunFrom(st, after).log) {
        RunLeavesOpen(st, id, after);
      }
    }
  }

  lemma StaleHandlerCompletes(st: State, id: nat, index: nat)
    requires Inv(st) && !st.halted && Resolvable(st) && IsOpen(st, id) && !Ended(st.log)
    requires index < |st.handlers| && st.handlers[index] == st.workers[id].chat
    ensures CanCompleteUnanswered(st)
  {
    var after := [HandlerDone(index), TypingShown(id), SubmitDone(id), ResultAwaited(id)];
    HandlerSignals(st, id, index);
    SignalledAdvances(Step(st, HandlerDone(index)), id);
    CompletedUnanswered(Step(Step(Step(st, HandlerDone(index)), TypingShown(id)), SubmitDone(id)), id);
    RunOfFour(st, after[0], after[1], after[2], after[3]);
    assert NoEnd(after);
  }
}
