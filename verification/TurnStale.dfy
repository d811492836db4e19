/**
 When a turn of the WhatsApp gateway can miss text, or be over before it ended:
 exactly when a handler of an earlier turn of its sender is still suspended.
 */
module TurnStale {
  import opened Wrappers
  import opened TurnHistory
  import opened SenderTracking
  import opened MessageQueues
  import opened TurnScheduler
  import opened TurnGuarantees

  function RunFrom(st: State, events: seq<Event>): State {
    if events == [] then st else Step(RunFrom(st, events[..|events| - 1]), events[|events| - 1])
  }

  /** No result, no error and no failed submission. */
  ghost predicate NoEnd(events: seq<Event>) {
    forall i :: 0 <= i < |events| ==> !events[i].ResultEvent? && !events[i].ErrorEvent? && !events[i].SubmitFailed?
  }

  /** The turn of call `id` is under way: submitted or waited for, with the flag of its sender set. */
  predicate IsOpen(st: State, id: nat) {
    && id in st.workers && (st.workers[id].pc.Submitting? || st.workers[id].pc.Waiting?)
    && st.workers[id].sender in st.flags
  }

  /** The turn has not ended and lost nothing, and everything before it went well. */
  ghost predicate Whole(log: Log) {
    !Ended(log) && Lost(log) == "" && RepliesFaithful(log) && CompletedAfterEnd(log)
  }

  /** So it is when a turn takes the slot. */
  lemma TakenIsOpen(st: State, id: nat, s: string, entry: QueueEntry)
    ensures IsOpen(Take(st, id, s, entry), id)
    ensures RepliesFaithful(st.log) && CompletedAfterEnd(st.log) ==> Whole(Take(st, id, s, entry).log)
  {
  }

  // ----- without a suspended handler of its sender, the turn stays open and whole -----

  /** The turn of `id` is as it was, and no handler of its sender is suspended. */
  ghost predicate StillOpen(st: State, st': State, id: nat)
    requires id in st.workers
  {
    && IsOpen(st', id)
    && st'.workers[id].sender == st.workers[id].sender && st'.workers[id].entry == st.workers[id].entry
    && st.workers[id].sender !in st'.handlers
    && (Whole(st.log) ==> Whole(st'.log))
  }

  /** Another call finds the slot taken: it is refused, or it ends. */
  lemma DrainLeavesOpen(st: State, id: nat, other: nat, s: string)
    requires IsOpen(st, id) && st.active == Some(st.workers[id].sender) && st.workers[id].sender !in st.handlers
    requires other != id && s != st.workers[id].sender && s in st.senders
    ensures StillOpen(st, Drain(st, other, s), id)
  {
  }

  lemma ArrivalLeavesOpen(st: State, id: nat, entry: QueueEntry, maxQueueSize: int, media: bool)
    requires Inv(st) && IsOpen(st, id) && st.workers[id].sender !in st.handlers && entry.sender in st.senders
    ensures StillOpen(st, Arrive(st, entry, maxQueueSize, media), id)
  {
    var s := entry.sender;
    var st1 := if |QueueOf(st.queues, s)| >= maxQueueSize then st else Enqueued(st, entry);
    if s !in st.processing {
      DrainLeavesOpen(Started(st1, s), id, st.started, s);
    }
  }

  lemma RefusalLeavesOpen(st: State, id: nat, other: nat)
    requires Inv(st) && IsOpen(st, id) && st.workers[id].sender !in st.handlers && AtPc(st, other, Refusing)
    ensures StillOpen(st, AfterRefusal(st, other), id)
  {
    OnlyHolderParks(st, id);
    DrainLeavesOpen(Resumed(st, other), id, other, st.workers[other].sender);
  }

  lemma CheckLeavesOpen(st: State, id: nat, other: nat)
    requires Inv(st) && IsOpen(st, id) && st.workers[id].sender !in st.handlers
    requires AtPc(st, other, Submitting) || AtPc(st, other, Waiting)
    ensures StillOpen(st, CheckFlag(st, other), id)
  {
    OnlyOneInFlight(st, id, other);
  }

  /** A handler of somebody else erases nothing of this turn. */
  lemma HandlerLeavesOpen(st: State, id: nat, index: nat)
    requires Inv(st) && IsOpen(st, id) && st.workers[id].sender !in st.handlers && index < |st.handlers|
    ensures StillOpen(st, FinishHandler(st, index), id)
  {
    OnlyHolderParks(st, id);
  }

  lemma ChunkLeavesOpen(st: State, id: nat, content: string)
    requires IsOpen(st, id) && st.workers[id].sender !in st.handlers
    ensures StillOpen(st, OnChunk(st, content), id)
  {
  }

  /** Only a turn that failed or saw its flag cleared can be given back, and only the turn in flight. */
  lemma OpenIsNotGivenBack(st: State, id: nat, e: Event)
    requires Inv(st) && IsOpen(st, id) && (e.NoticeSent? || e.Release?)
    ensures !Enabled(st, e)
  {
    if Enabled(st, e) { OnlyOneInFlight(st, id, e.id); }
  }

  lemma StepLeavesOpen(st: State, id: nat, e: Event)
    requires Inv(st) && IsOpen(st, id) && st.workers[id].sender !in st.handlers
    requires !e.ResultEvent? && !e.ErrorEvent? && !e.SubmitFailed?
    ensures StillOpen(st, Step(st, e), id)
  {
    if e.NoticeSent? || e.Release? {
      OpenIsNotGivenBack(st, id, e);
    } else if Enabled(st, e) {
      if e.Inbound? {
        ArrivalLeavesOpen(st, id, e.entry, e.maxQueueSize, e.media);
      } else if e.RefusalSent? {
        RefusalLeavesOpen(st, id, e.id);
      } else if e.SubmitDone? || e.Poll? {
        CheckLeavesOpen(st, id, e.id);
      } else if e.AssistantChunk? {
        ChunkLeavesOpen(st, id, e.content);
      } else if e.HandlerDone? {
        HandlerLeavesOpen(st, id, e.index);
      }
    }
  }

  lemma {:induction false} RunLeavesOpen(st: State, id: nat, after: seq<Event>)
    requires Inv(st) && IsOpen(st, id) && st.workers[id].sender !in st.handlers && NoEnd(after)
    ensures StillOpen(st, RunFrom(st, after), id) && Inv(RunFrom(st, after))
  {
    if after != [] {
      var front := after[..|after| - 1];
      RunLeavesOpen(st, id, front);
      StepLeavesOpen(RunFrom(st, front), id, after[|after| - 1]);
      StepKeepsInv(RunFrom(st, front), after[|after| - 1]);
    }
  }

  /** A turn that lost nothing is answered with all of its text. */
  lemma WholeIsAnswered(st: State)
    requires Inv(st) && Whole(st.log)
    ensures RepliesFaithful(OnResult(st).log)
  {
    if st.active.Some? {
      var s := st.active.value;
      LostAndKept(st.log);
      assert "" + Kept(st.log) == Kept(st.log);
      var replied := Then(st.log, Replied(s, Accumulated(st.senders, s)));
      assert RepliesFaithful(replied) && RepliesFaithful(Then(replied, Terminal));
    }
  }

  // ----- a suspended handler of its sender can take its text, or end it -----

  lemma RunOfTwo(st: State, a: Event, b: Event)
    ensures RunFrom(st, [a, b]) == Step(Step(st, a), b)
  {
    assert [a, b][..1] == [a] && [a][..0] == [];
    assert RunFrom(st, [a]) == Step(st, a);
  }

  lemma OneMore(st: State, events: seq<Event>, e: Event)
    ensures RunFrom(st, events + [e]) == Step(RunFrom(st, events), e)
  {
    assert (events + [e])[..|events|] == events;
  }

  lemma RunOfFour(st: State, a: Event, b: Event, c: Event, d: Event)
    ensures RunFrom(st, [a, b] + [c] + [d]) == Step(Step(Step(Step(st, a), b), c), d)
  {
    RunOfTwo(st, a, b);
    OneMore(st, [a, b], c);
    OneMore(st, [a, b] + [c], d);
  }

  /** The flag is cleared, so that the next test of it ends the wait. */
  lemma HandlerReleases(st: State, id: nat, index: nat)
    requires IsOpen(st, id) && index < |st.handlers| && st.handlers[index] == st.workers[id].sender && !Ended(st.log)
    ensures var st' := Step(Step(Step(st, HandlerDone(index)), SubmitDone(id)), Poll(id));
            AtPc(st', id, Releasing) && !Ended(st'.log)
  {
    var st1 := Step(st, HandlerDone(index));
    assert st1.workers == st.workers && st.workers[id].sender !in st1.flags && !Ended(st1.log);
  }

  lemma {:induction false} DrainKeepsUnanswered(st: State, id: nat, s: string)
    requires !CompletedAfterEnd(st.log)
    ensures !CompletedAfterEnd(Drain(st, id, s).log)
    decreases |QueueOf(st.queues, s)|
  {
    var queue := QueueOf(st.queues, s);
    if queue != [] && st.active.Some? && st.active.value != s && s !in st.senders {
      DrainKeepsUnanswered(Logged(st.(queues := st.queues[s := queue[1..]]), Left(s, queue[0], Refused)), id, s);
    }
  }

  lemma ReleasedUnanswered(st: State, id: nat)
    requires AtPc(st, id, Releasing) && !Ended(st.log)
    ensures !CompletedAfterEnd(Step(st, Release(id)).log)
  {
    DrainKeepsUnanswered(GivenBack(st, id, Completed), id, st.workers[id].sender);
  }

  // ----- guarantees -----

  /** The result that comes next can be answered with less than the text of its turn. */
  ghost predicate CanMissText(st: State) {
    exists after :: NoEnd(after) && !RepliesFaithful(Step(RunFrom(st, after), ResultEvent).log)
  }

  ghost predicate CanCompleteUnanswered(st: State) {
    exists after :: NoEnd(after) && !CompletedAfterEnd(RunFrom(st, after).log)
  }

  /**
   At any moment of any run, for a turn under way that has not ended and lost nothing:
   its result can be answered with less than its text iff a handler of its sender is
   still suspended.
   */
  lemma MissesTextIff(events: seq<Event>, id: nat)
    requires IsOpen(Run(events), id) && Whole(Run(events).log)
    ensures CanMissText(Run(events)) <==> Run(events).workers[id].sender in Run(events).handlers
  {
    var st := Run(events);
    RunKeepsInv(events);
    if st.workers[id].sender in st.handlers {
      var index :| 0 <= index < |st.handlers| && st.handlers[index] == st.workers[id].sender;
      var after := [AssistantChunk("x"), HandlerDone(index)];
      OnlyHolderParks(st, id);
      StaleStepsLoseText(st, "x", index);
      RunOfTwo(st, after[0], after[1]);
      assert NoEnd(after);
    } else {
      forall after | NoEnd(after) ensures RepliesFaithful(Step(RunFrom(st, after), ResultEvent).log) {
        RunLeavesOpen(st, id, after);
        WholeIsAnswered(RunFrom(st, after));
      }
    }
  }

  /**
   For such a turn: it can be completed with nothing having ended it iff a handler of its
   sender is still suspended.
   */
  lemma UnansweredIff(events: seq<Event>, id: nat)
    requires IsOpen(Run(events), id) && Whole(Run(events).log)
    ensures CanCompleteUnanswered(Run(events)) <==> Run(events).workers[id].sender in Run(events).handlers
  {
    var st := Run(events);
    RunKeepsInv(events);
    if st.workers[id].sender in st.handlers {
      var index :| 0 <= index < |st.handlers| && st.handlers[index] == st.workers[id].sender;
      var after := [HandlerDone(index), SubmitDone(id)] + [Poll(id)] + [Release(id)];
      HandlerReleases(st, id, index);
      ReleasedUnanswered(Step(Step(Step(st, HandlerDone(index)), SubmitDone(id)), Poll(id)), id);
      RunOfFour(st, HandlerDone(index), SubmitDone(id), Poll(id), Release(id));
      assert NoEnd(after);
    } else {
      forall after | NoEnd(after) ensures CompletedAfterEnd(RunFrom(st, after).log) {
        RunLeavesOpen(st, id, after);
      }
    }
  }
}
