/** What the single-slot scheduler guarantees in every run. */
module TurnGuarantees {
  import opened Wrappers
  import opened TurnHistory
  import opened SenderTracking
  import opened MessageQueues
  import opened TurnScheduler

  // ----- the slot -----

  /**
   In every run the turns exclude each other, every call of `processQueue` with a
   message in flight belongs to the active sender, and the active sender has one.
   */
  lemma SingleSlot(events: seq<Event>)
    ensures var st := Run(events);
            && Exclusive(st.log)
            && (forall i, j :: i in st.workers && j in st.workers ==>
                  InFlight(st.workers[i]) && InFlight(st.workers[j]) ==> i == j)
            && (forall i :: i in st.workers && InFlight(st.workers[i]) ==> st.active == Some(st.workers[i].sender))
            && (st.active.Some? ==> Serving(st.workers, st.active.value))
  {
    RunKeepsInv(events);
    var st := Run(events);
    forall i, j | i in st.workers && j in st.workers && InFlight(st.workers[i]) && InFlight(st.workers[j])
      ensures i == j
    {
      OnlyOneInFlight(st, i, j);
    }
  }

  lemma DrainWhileTaken(st: State, id: nat, s: string)
    requires st.active.Some? && st.active.value != s && s in st.senders
    ensures Holder(Drain(st, id, s).log) == Holder(st.log)
  {
  }

  lemma InboundKeepsHolder(st: State, entry: QueueEntry, maxQueueSize: int, media: bool)
    requires Inv(st) && entry.sender in st.senders && st.active.Some?
    ensures Holder(Arrive(st, entry, maxQueueSize, media).log) == Holder(st.log)
  {
    var s := entry.sender;
    if s !in st.processing {
      DrainWhileTaken(Started(st, s), st.started, s);
      DrainWhileTaken(Started(Enqueued(st, entry), s), st.started, s);
    }
  }

  lemma OthersKeepHolder(st: State, e: Event)
    requires Enabled(st, e) && st.active.Some?
    requires !e.Inbound? && !e.RefusalSent? && !e.SubmitFailed? && !e.NoticeSent? && !e.Release?
    ensures Holder(Step(st, e).log) == Holder(st.log)
  {
    EmptyResultEnds(st.log, st.active.value);
  }

  lemma FailureKeepsHolder(st: State, id: nat)
    requires id in st.workers && st.workers[id].sender in st.senders
    ensures Holder(SubmitFails(st, id).log) == Holder(st.log)
  {
  }

  /** The slot of a sender is given back only by a step of that sender's own call. */
  lemma OnlyTheOwnerReleases(events: seq<Event>, e: Event)
    ensures var st := Run(events);
            st.active.Some? && Holder(Step(st, e).log) != Holder(st.log) ==>
              && (e.NoticeSent? || e.Release?)
              && e.id in st.workers
              && st.workers[e.id].sender == st.active.value
  {
    RunKeepsInv(events);
    var st := Run(events);
    if st.active.Some? && Enabled(st, e) {
      match e
      case Inbound(entry, maxQueueSize, media) => InboundKeepsHolder(st, entry, maxQueueSize, media);
      case RefusalSent(id) => DrainWhileTaken(Resumed(st, id), id, st.workers[id].sender);
      case SubmitFailed(id) => FailureKeepsHolder(st, id);
      case NoticeSent(_) =>
      case Release(_) =>
      case _ => OthersKeepHolder(st, e);
    }
  }

  // ----- workers and queues -----

  /** At every await point each sender with a queued message has exactly one live call of `processQueue`. */
  lemma NoLostWakeup(events: seq<Event>, s: string)
    ensures var st := Run(events);
            && (QueueOf(st.queues, s) != [] ==> Live(st.workers, s))
            && (forall i, j :: i in st.workers && j in st.workers ==>
                  st.workers[i].sender == s == st.workers[j].sender ==> i == j)
            && (s in st.processing <==> Live(st.workers, s))
  {
    RunKeepsInv(events);
  }

  /** Nothing accepted is dropped, duplicated or reordered: what left, then the turn in flight, then the queue. */
  lemma MessagesConserved(events: seq<Event>, s: string)
    ensures var st := Run(events);
            && AcceptedBy(st.log, s) == LeftBy(st.log, s) + Current(st.log, s) + QueueOf(st.queues, s)
            && LeftBy(st.log, s) <= AcceptedBy(st.log, s)
  {
    RunKeepsInv(events);
    assert Balanced(Run(events), s);
  }

  /** When no call of `processQueue` is parked, the slot is free and every accepted message has left. */
  lemma QuietMeansSettled(events: seq<Event>, s: string)
    requires Run(events).workers == map[]
    ensures Run(events).active == None
    ensures LeftBy(Run(events).log, s) == AcceptedBy(Run(events).log, s)
  {
    NoLostWakeup(events, s);
    MessagesConserved(events, s);
    SingleSlot(events);
    RunKeepsInv(events);
  }

  // ----- replies -----

  /**
   In every run a reply goes to the sender holding the slot, and it is the whole turn's text
   iff nothing was erased before.
   */
  lemma RepliesExactly(events: seq<Event>)
    ensures RepliesKept(Run(events).log)
    ensures RepliesFaithful(Run(events).log) <==> NothingLost(Run(events).log)
  {
    RunKeepsInv(events);
    FaithfulIffNothingLost(Run(events).log);
  }

  /** While every turn ends once, no stream handler outlives its turn. */
  ghost predicate Tidy(st: State) {
    && NothingLost(st.log) && CompletedAfterEnd(st.log)
    && (st.active.None? ==> st.handlers == [])
    && (st.active.Some? && !Ended(st.log) ==> st.handlers == [] && st.active.value in st.flags && Lost(st.log) == "")
    && (st.active.Some? && st.handlers != [] ==> st.handlers == [st.active.value] && st.active.value in st.flags)
    && (forall i :: i in st.workers && (st.workers[i].pc.Reporting? || st.workers[i].pc.Releasing?) ==>
          st.handlers == [] && Ended(st.log))
  }

  lemma DrainKeepsTidy(st: State, id: nat, s: string)
    requires Tidy(st) && s in st.senders && st.active != Some(s) && id !in st.workers
    requires st.active.None? ==> forall i :: i in st.workers ==> !InFlight(st.workers[i])
    ensures Tidy(Drain(st, id, s))
  {
  }

  lemma InboundKeepsTidy(st: State, entry: QueueEntry, maxQueueSize: int, media: bool)
    requires Inv(st) && Tidy(st) && entry.sender in st.senders
    ensures Tidy(Arrive(st, entry, maxQueueSize, media))
  {
    var s := entry.sender;
    assert Tidy(Enqueued(st, entry));
    if s !in st.processing {
      DrainKeepsTidy(Started(st, s), st.started, s);
      DrainKeepsTidy(Started(Enqueued(st, entry), s), st.started, s);
    }
  }

  /** A call gives the slot back only after its handler, if any, is done. */
  lemma GivenBackKeepsTidy(st: State, id: nat, outcome: Outcome)
    requires Inv(st) && Tidy(st) && !outcome.Refused?
    requires AtPc(st, id, Reporting) || AtPc(st, id, Releasing)
    ensures Tidy(GivenBack(st, id, outcome))
    ensures forall i :: i in GivenBack(st, id, outcome).workers ==> !InFlight(GivenBack(st, id, outcome).workers[i])
  {
    var st' := GivenBack(st, id, outcome);
    forall i | i in st'.workers
      ensures !InFlight(st'.workers[i])
    {
      if InFlight(st.workers[i]) { OnlyOneInFlight(st, id, i); }
    }
  }

  lemma WorkerKeepsTidy(st: State, e: Event)
    requires Inv(st) && Tidy(st) && Enabled(st, e)
    requires e.RefusalSent? || e.NoticeSent? || e.Release?
    ensures Tidy(Step(st, e))
  {
    var s := st.workers[e.id].sender;
    match e
    case RefusalSent(id) =>
      ResumedIsRunning(st, id);
      DrainKeepsTidy(Resumed(st, id), id, s);
    case NoticeSent(id) =>
      GivenBackKeepsTidy(st, id, Failed);
      DrainKeepsTidy(GivenBack(st.(flags := st.flags - {s}), id, Failed), id, s);
    case Release(id) =>
      GivenBackKeepsTidy(st, id, Completed);
      DrainKeepsTidy(GivenBack(st, id, Completed), id, s);
  }

  /** The only obligation here is that the turn has not ended before. */
  lemma TurnKeepsTidy(st: State, e: Event)
    requires Inv(st) && Tidy(st) && Enabled(st, e)
    requires e.SubmitDone? || e.Poll? || e.SubmitFailed?
    requires e.SubmitFailed? ==> !Ended(st.log)
    ensures Tidy(Step(st, e))
  {
    OnlyHolderParks(st, e.id);
  }

  lemma OnlyHolderParks(st: State, id: nat)
    requires Inv(st) && id in st.workers && InFlight(st.workers[id])
    ensures st.active == Some(st.workers[id].sender)
    ensures forall i :: i in st.workers && i != id ==> !InFlight(st.workers[i])
  {
    forall i | i in st.workers && InFlight(st.workers[i]) ensures i == id {
      OnlyOneInFlight(st, id, i);
    }
  }

  lemma StreamKeepsTidy(st: State, e: Event)
    requires Inv(st) && Tidy(st) && Enabled(st, e)
    requires e.AssistantChunk? || e.ResultEvent? || e.ErrorEvent? || e.HandlerDone?
    requires e.ResultEvent? || e.ErrorEvent? ==> st.active.None? || !Ended(st.log)
    ensures Tidy(Step(st, e))
  {
    if e.ResultEvent? {
      ResultKeepsTidy(st);
    }
  }

  lemma ResultKeepsTidy(st: State)
    requires Inv(st) && Tidy(st) && (st.active.None? || !Ended(st.log))
    ensures Tidy(OnResult(st))
  {
    if st.active.Some? {
      EmptyResultEnds(st.log, st.active.value);
    }
  }

  lemma EndsOnceAllows(st: State, e: Event)
    requires Enabled(st, e) && EndsOnce(Step(st, e).log)
    requires Inv(st) && (e.SubmitFailed? || e.ResultEvent? || e.ErrorEvent?)
    ensures e.SubmitFailed? ==> !Ended(st.log)
    ensures e.ResultEvent? || e.ErrorEvent? ==> st.active.None? || !Ended(st.log)
  {
    if e.ResultEvent? && st.active.Some? {
      EmptyResultEnds(st.log, st.active.value);
    }
  }

  lemma SetupKeepsTidy(st: State, e: Event)
    requires Tidy(st) && Enabled(st, e) && (e.Register? || e.Connection?)
    ensures Tidy(Step(st, e))
  {
  }

  lemma StepKeepsTidy(st: State, e: Event)
    requires Inv(st) && Tidy(st) && EndsOnce(Step(st, e).log)
    ensures Tidy(Step(st, e))
  {
    if Enabled(st, e) {
      if e.SubmitFailed? || e.ResultEvent? || e.ErrorEvent? {
        EndsOnceAllows(st, e);
      }
      if e.Inbound? {
        InboundKeepsTidy(st, e.entry, e.maxQueueSize, e.media);
      } else if e.Register? || e.Connection? {
        SetupKeepsTidy(st, e);
      } else if e.RefusalSent? || e.NoticeSent? || e.Release? {
        WorkerKeepsTidy(st, e);
      } else if e.SubmitDone? || e.Poll? || e.SubmitFailed? {
        TurnKeepsTidy(st, e);
      } else {
        StreamKeepsTidy(st, e);
      }
    }
  }

  lemma {:induction false} DrainExtends(st: State, id: nat, s: string)
    requires EndsOnce(Drain(st, id, s).log)
    ensures EndsOnce(st.log)
    decreases |QueueOf(st.queues, s)|
  {
    var queue := QueueOf(st.queues, s);
    if queue != [] && st.active.Some? && st.active.value != s && s !in st.senders {
      DrainExtends(Logged(st.(queues := st.queues[s := queue[1..]]), Left(s, queue[0], Refused)), id, s);
    }
  }

  lemma OthersExtend(st: State, e: Event)
    requires Enabled(st, e) && EndsOnce(Step(st, e).log)
    requires !e.Inbound? && !e.RefusalSent? && !e.NoticeSent? && !e.Release? && !e.SubmitFailed?
    ensures EndsOnce(st.log)
  {
    if e.ResultEvent? && st.active.Some? {
      EmptyResultEnds(st.log, st.active.value);
    }
  }

  lemma EndsOnceBefore(st: State, e: Event)
    requires EndsOnce(Step(st, e).log)
    ensures EndsOnce(st.log)
  {
    if Enabled(st, e) {
      match e
      case Inbound(entry, maxQueueSize, media) =>
        var st1 := if |QueueOf(st.queues, entry.sender)| >= maxQueueSize then st else Enqueued(st, entry);
        if Arrive(st, entry, maxQueueSize, media) != st1 {
          DrainExtends(Started(st1, entry.sender), st1.started, entry.sender);
        }
      case RefusalSent(id) => DrainExtends(Resumed(st, id), id, st.workers[id].sender);
      case NoticeSent(id) =>
        var s := st.workers[id].sender;
        DrainExtends(GivenBack(st.(flags := st.flags - {s}), id, Failed), id, s);
      case Release(id) => DrainExtends(GivenBack(st, id, Completed), id, st.workers[id].sender);
      case SubmitFailed(id) =>
        var s := st.workers[id].sender;
        if s !in st.senders {
          DrainExtends(GivenBack(Logged(st, Fault).(flags := st.flags - {s}), id, Failed), id, s);
        }
      case _ => OthersExtend(st, e);
    }
  }

  lemma {:induction false} RunKeepsTidy(events: seq<Event>)
    requires EndsOnce(Run(events).log)
    ensures Tidy(Run(events))
  {
    if events != [] {
      var before := events[..|events| - 1];
      EndsOnceBefore(Run(before), events[|events| - 1]);
      RunKeepsTidy(before);
      RunKeepsInv(before);
      StepKeepsTidy(Run(before), events[|events| - 1]);
    }
  }

  /**
   If every turn ends once, every reply is exactly the text streamed since its
   turn took the slot, and no turn is reported completed before it ended.
   */
  lemma RepliesFaithfulWhenTurnsEndOnce(events: seq<Event>)
    requires EndsOnce(Run(events).log)
    ensures RepliesFaithful(Run(events).log) && CompletedAfterEnd(Run(events).log)
  {
    RunKeepsTidy(events);
    RepliesExactly(events);
  }

  // ----- where the reply can be short -----

  lemma RunAppend(events: seq<Event>, e: Event)
    ensures Run(events + [e]) == Step(Run(events), e)
  {
    assert (events + [e])[..|events|] == events;
  }

  lemma RunAppendThree(events: seq<Event>, a: Event, b: Event, c: Event)
    ensures Run(events + [a] + [b] + [c]) == Step(Step(Step(Run(events), a), b), c)
  {
    RunAppend(events, a);
    RunAppend(events + [a], b);
    RunAppend(events + [a] + [b], c);
  }

  /** A stale handler of the active sender erases the text streamed so far, whatever it was. */
  lemma StaleHandlerErases(st: State, content: string, index: nat)
    requires Inv(st) && st.active.Some? && index < |st.handlers| && st.handlers[index] == st.active.value
    ensures var st' := OnResult(FinishHandler(OnChunk(st, content), index));
            && st'.log == EmptyResult(FinishHandler(OnChunk(st, content), index).log, st.active.value)
            && HeardSinceTook(FinishHandler(OnChunk(st, content), index).log) == HeardSinceTook(st.log) + content
  {
    var s := st.active.value;
    assert s in st.senders;
    var st1 := OnChunk(st, content);
    assert HeardSinceTook(st1.log) == HeardSinceTook(st.log) + content;
    var st2 := FinishHandler(st1, index);
    assert Accumulated(st2.senders, s) == "" && st2.active == Some(s);
  }

  const FIRST := QueueEntry("a", "one", 1)
  const SECOND := QueueEntry("a", "two", 2)

  lemma SecondWaitsForFirst() returns (events: seq<Event>)
    ensures var st := Run(events);
            && st.active == Some("a") && "a" in st.senders && st.handlers == []
            && st.workers == map[0 := Worker("a", Submitting, FIRST)] && QueueOf(st.queues, "a") == [SECOND]
  {
    var r1 := [Register("a", "jid", false)];
    assert r1 == [] + r1;
    RunAppend([], r1[0]);
    RunAppend(r1, Connection(true));
    var st := Run(r1 + [Connection(true)]);
    RunAppend(r1 + [Connection(true)], Inbound(FIRST, 100, false));
    assert QueueOf(Enqueued(st, FIRST).queues, "a") == [FIRST];
    assert Step(st, Inbound(FIRST, 100, false)).workers == map[0 := Worker("a", Submitting, FIRST)];
    RunAppend(r1 + [Connection(true)] + [Inbound(FIRST, 100, false)], Inbound(SECOND, 100, false));
    events := r1 + [Connection(true)] + [Inbound(FIRST, 100, false)] + [Inbound(SECOND, 100, false)];
  }

  /** With text to send, the handler of the result is suspended. */
  lemma ResultOfText(st: State)
    requires st.active == Some("a") && "a" in st.senders && st.handlers == []
    ensures var st' := Step(Step(st, AssistantChunk("x")), ResultEvent);
            && st'.active == Some("a") && "a" in st'.senders && st'.handlers == ["a"]
            && st'.workers == st.workers && st'.queues == st.queues
  {
    var st1 := OnChunk(st, "x");
    assert |Accumulated(st1.senders, "a")| == |Accumulated(st.senders, "a")| + 1;
  }

  lemma FailureWithAHandler(st: State)
    requires st.active == Some("a") && "a" in st.senders && st.handlers == ["a"]
    requires st.workers == map[0 := Worker("a", Submitting, FIRST)] && QueueOf(st.queues, "a") == [SECOND]
    ensures var st' := Step(Step(st, SubmitFailed(0)), NoticeSent(0));
            st'.active == Some("a") && st'.handlers == ["a"] && HeardSinceTook(st'.log) == ""
  {
    var st1 := Step(st, SubmitFailed(0));
    assert st1.workers[0] == Worker("a", Reporting, FIRST) && QueueOf(st1.queues, "a") == [SECOND];
  }

  /** The submission of the first message fails while the handler of its result is still sending its text. */
  lemma StaleHandlerReached() returns (events: seq<Event>)
    ensures Run(events).active == Some("a") && Run(events).handlers == ["a"]
    ensures HeardSinceTook(Run(events).log) == ""
  {
    var queued := SecondWaitsForFirst();
    var answered := queued + [AssistantChunk("x")] + [ResultEvent];
    RunAppend(queued, AssistantChunk("x"));
    RunAppend(queued + [AssistantChunk("x")], ResultEvent);
    ResultOfText(Run(queued));
    RunAppend(answered, SubmitFailed(0));
    RunAppend(answered + [SubmitFailed(0)], NoticeSent(0));
    FailureWithAHandler(Run(answered));
    events := answered + [SubmitFailed(0)] + [NoticeSent(0)];
  }

  lemma StaleSteps(st: State, content: string, index: nat)
    requires st.active.Some? && index < |st.handlers|
    ensures Step(Step(st, AssistantChunk(content)), HandlerDone(index)) == FinishHandler(OnChunk(st, content), index)
    ensures Step(FinishHandler(OnChunk(st, content), index), ResultEvent)
            == OnResult(FinishHandler(OnChunk(st, content), index))
  {
  }

  lemma StaleStepsLoseText(st: State, content: string, index: nat)
    requires Inv(st) && st.active.Some? && content != ""
    requires index < |st.handlers| && st.handlers[index] == st.active.value
    ensures !RepliesFaithful(Step(Step(Step(st, AssistantChunk(content)), HandlerDone(index)), ResultEvent).log)
  {
    StaleSteps(st, content, index);
    StaleHandlerErases(st, content, index);
    EmptyResultIsUnfaithful(FinishHandler(OnChunk(st, content), index).log, st.active.value);
  }

  /** A run whose second reply is empty although its turn streamed "hello". */
  lemma RepliesCanLoseText()
    ensures exists events: seq<Event> :: !RepliesFaithful(Run(events).log)
  {
    var stale := StaleHandlerReached();
    RunKeepsInv(stale);
    StaleStepsLoseText(Run(stale), "hello", 0);
    RunAppendThree(stale, AssistantChunk("hello"), HandlerDone(0), ResultEvent);
  }
}
