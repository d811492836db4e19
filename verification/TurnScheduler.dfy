/**
 The single-slot turn scheduler of the WhatsApp gateway as a state machine. A
 step is what runs between two awaits; the suspended calls of `processQueue`
 and of the stream handler are part of the state, so a run is any sequence of
 inbound messages, worker steps, failed submissions and stream events.
 */
module TurnScheduler {
  import opened Wrappers
  import opened TurnHistory
  import opened SenderTracking
  import opened MessageQueues

  /** Where a suspended call of `processQueue` waits. */
  datatype Pc = Refusing | Submitting | Reporting | Waiting | Releasing

  datatype Worker = Worker(sender: string, pc: Pc, entry: QueueEntry)

  type Log = History<string, QueueEntry>

  /**
   `started` numbers the calls of `processQueue`; `handlers` holds the senders captured by
   suspended stream handlers.
   */
  datatype State = State(
    queues: Queues,
    processing: set<string>,
    senders: Senders,
    active: Option<string>,
    flags: set<string>,
    connected: bool,
    workers: map<nat, Worker>,
    started: nat,
    handlers: seq<string>,
    log: Log)

  datatype Event =
    | Register(phone: string, jid: string, isGroup: bool)
    | Inbound(entry: QueueEntry, maxQueueSize: int, media: bool)
    | Connection(up: bool)
    | RefusalSent(id: nat)
    | SubmitDone(id: nat)
    | SubmitFailed(id: nat)
    | NoticeSent(id: nat)
    | Poll(id: nat)
    | Release(id: nat)
    | AssistantChunk(content: string)
    | ResultEvent
    | ErrorEvent
    | HandlerDone(index: nat)

  function Initial(): State {
    State(map[], {}, map[], None, {}, false, map[], 0, [], Start)
  }

  function Logged(st: State, what: Observation<string, QueueEntry>): State {
    st.(log := Then(st.log, what))
  }

  // ----- processQueue -----

  /** From the moment a message takes the slot to the next await. */
  function Take(st: State, id: nat, s: string, entry: QueueEntry): State {
    Logged(st.(senders := WithAccumulator(st.senders, s, ""),
               active := Some(s),
               flags := st.flags + {s},
               workers := st.workers[id := Worker(s, if st.connected then Submitting else Waiting, entry)]),
           Took(s, entry))
  }

  /** The loop of `processQueue`, from its test to the next await or to its end. */
  function Drain(st: State, id: nat, s: string): State
    decreases |QueueOf(st.queues, s)|
  {
    var queue := QueueOf(st.queues, s);
    if queue == [] then
      st.(processing := st.processing - {s})
    else
      var st1 := st.(queues := st.queues[s := queue[1..]]);
      if st1.active.Some? && st1.active.value != s then
        var st2 := Logged(st1, Left(s, queue[0], Refused));
        if s in st2.senders then
          st2.(workers := st2.workers[id := Worker(s, Refusing, queue[0])])
        else
          Drain(st2, id, s)
      else
        Take(st1, id, s, queue[0])
  }

  function Enqueued(st: State, entry: QueueEntry): State {
    Logged(st.(queues := st.queues[entry.sender := QueueOf(st.queues, entry.sender) + [entry]]),
           Accepted(entry.sender, entry))
  }

  /** A new call of `processQueue` for a sender without one. */
  function Started(st: State, s: string): State {
    st.(processing := st.processing + {s}, started := st.started + 1)
  }

  /** A message arrives for a registered sender; a worker starts unless one is live. */
  function Arrive(st: State, entry: QueueEntry, maxQueueSize: int, media: bool): State {
    var s := entry.sender;
    var full := |QueueOf(st.queues, s)| >= maxQueueSize;
    var st1 := if full then st else Enqueued(st, entry);
    if (full && !media) || s in st1.processing then
      st1
    else
      Drain(Started(st1, s), st1.started, s)
  }

  /** A suspended call runs again: it is no longer parked. */
  function Resumed(st: State, id: nat): State {
    st.(workers := st.workers - {id})
  }

  function Parked(st: State, id: nat, pc: Pc): State
    requires id in st.workers
  {
    st.(workers := st.workers[id := st.workers[id].(pc := pc)])
  }

  function AfterRefusal(st: State, id: nat): State
    requires id in st.workers
  {
    Drain(Resumed(st, id), id, st.workers[id].sender)
  }

  /** The first test of `waitForResult`, and every later one. */
  function CheckFlag(st: State, id: nat): State
    requires id in st.workers
  {
    Parked(st, id, if st.workers[id].sender in st.flags then Waiting else Releasing)
  }

  /** Call `id` runs again and gives the slot back, its message settled as `outcome`. */
  function GivenBack(st: State, id: nat, outcome: Outcome): State
    requires id in st.workers
  {
    Logged(Resumed(st, id).(active := None), Left(st.workers[id].sender, st.workers[id].entry, outcome))
  }

  function AfterFailure(st: State, id: nat): State
    requires id in st.workers
  {
    var s := st.workers[id].sender;
    Drain(GivenBack(st.(flags := st.flags - {s}), id, Failed), id, s)
  }

  function SubmitFails(st: State, id: nat): State
    requires id in st.workers
  {
    var st1 := Logged(st, Fault);
    if st.workers[id].sender in st.senders then Parked(st1, id, Reporting) else AfterFailure(st1, id)
  }

  function AfterRelease(st: State, id: nat): State
    requires id in st.workers
  {
    Drain(GivenBack(st, id, Completed), id, st.workers[id].sender)
  }

  // ----- stream/event handler -----

  function OnChunk(st: State, content: string): State {
    if st.active.None? then
      st
    else
      var s := st.active.value;
      Logged(st.(senders := WithAccumulator(st.senders, s, Accumulated(st.senders, s) + content)), Heard(content))
  }

  /** The end of a result or error handler, for the sender it captured when it began. */
  function Ends(st: State, s: string): State {
    Logged(st.(senders := WithAccumulator(st.senders, s, ""), flags := st.flags - {s}), Cleared(s))
  }

  /**
   The text of the reply is read before the first await of the handler. An empty
   text is not sent and names no files, so its handler ends without an await.
   */
  function OnResult(st: State): State {
    if st.active.None? then
      st
    else
      var s := st.active.value;
      var text := Accumulated(st.senders, s);
      var st1 := Logged(Logged(st, Replied(s, text)), Terminal);
      if text == "" then Ends(st1, s) else st1.(handlers := st1.handlers + [s])
  }

  /** Without an address there is nothing to await. */
  function OnError(st: State): State {
    if st.active.None? then
      st
    else
      var s := st.active.value;
      var st1 := Logged(st, Terminal);
      if s in st.senders then st1.(handlers := st1.handlers + [s]) else Ends(st1, s)
  }

  function FinishHandler(st: State, index: nat): State
    requires index < |st.handlers|
  {
    Ends(st.(handlers := st.handlers[..index] + st.handlers[index + 1..]), st.handlers[index])
  }

  // ----- runs -----

  predicate AtPc(st: State, id: nat, pc: Pc) {
    id in st.workers && st.workers[id].pc == pc
  }

  predicate Enabled(st: State, e: Event) {
    match e
    case Register(_, _, _) => true
    case Inbound(entry, _, _) => entry.sender in st.senders
    case Connection(_) => true
    case RefusalSent(id) => AtPc(st, id, Refusing)
    case SubmitDone(id) => AtPc(st, id, Submitting)
    case SubmitFailed(id) => AtPc(st, id, Submitting)
    case NoticeSent(id) => AtPc(st, id, Reporting)
    case Poll(id) => AtPc(st, id, Waiting)
    case Release(id) => AtPc(st, id, Releasing)
    case AssistantChunk(_) => true
    case ResultEvent => true
    case ErrorEvent => true
    case HandlerDone(index) => index < |st.handlers|
  }

  /** One atomic step; an event that cannot happen in `st` changes nothing. */
  function Step(st: State, e: Event): State {
    if !Enabled(st, e) then
      st
    else
      match e
      case Register(phone, jid, isGroup) => st.(senders := Registered(st.senders, phone, jid, isGroup))
      case Inbound(entry, maxQueueSize, media) => Arrive(st, entry, maxQueueSize, media)
      case Connection(up) => st.(connected := up)
      case RefusalSent(id) => AfterRefusal(st, id)
      case SubmitDone(id) => CheckFlag(st, id)
      case SubmitFailed(id) => SubmitFails(st, id)
      case NoticeSent(id) => AfterFailure(st, id)
      case Poll(id) => CheckFlag(st, id)
      case Release(id) => AfterRelease(st, id)
      case AssistantChunk(content) => OnChunk(st, content)
      case ResultEvent => OnResult(st)
      case ErrorEvent => OnError(st)
      case HandlerDone(index) => FinishHandler(st, index)
  }

  /** The state after `events`, in the order they happened. */
  function Run(events: seq<Event>): State {
    if events == [] then Initial() else Step(Run(events[..|events| - 1]), events[|events| - 1])
  }

  // ----- the joint invariant -----

  predicate InFlight(w: Worker) {
    !w.pc.Refusing?
  }

  ghost predicate Live(workers: map<nat, Worker>, s: string) {
    exists id :: id in workers && workers[id].sender == s
  }

  ghost predicate OneWorkerEach(st: State) {
    && (forall i, j :: i in st.workers && j in st.workers && st.workers[i].sender == st.workers[j].sender ==> i == j)
    && (forall i :: i in st.workers ==>
          i < st.started && st.workers[i].sender in st.processing && st.workers[i].sender in st.senders)
  }

  ghost predicate NobodyForgotten(st: State) {
    forall s :: QueueOf(st.queues, s) != [] ==> s in st.processing
  }

  ghost predicate Serving(workers: map<nat, Worker>, s: string) {
    exists id :: id in workers && workers[id].sender == s && InFlight(workers[id])
  }

  ghost predicate SlotLogged(st: State) {
    st.active == (match Holder(st.log) case None => None case Some(turn) => Some(turn.who))
  }

  ghost predicate SlotOwned(st: State) {
    && (forall i :: i in st.workers && InFlight(st.workers[i]) ==>
          Holder(st.log) == Some(Turn(st.workers[i].sender, st.workers[i].entry)))
    && (st.active.Some? ==> Serving(st.workers, st.active.value))
  }

  /** The message whose turn holds the slot, if it is one of `s`. */
  function Current(log: Log, s: string): seq<QueueEntry> {
    if Holder(log).Some? && Holder(log).value.who == s then [Holder(log).value.entry] else []
  }

  predicate Balanced(st: State, s: string) {
    AcceptedBy(st.log, s) == LeftBy(st.log, s) + Current(st.log, s) + QueueOf(st.queues, s)
  }

  ghost predicate Conserved(st: State) {
    forall s :: Balanced(st, s)
  }

  ghost predicate TextKept(st: State) {
    && RepliesKept(st.log)
    && (st.active.Some? ==> Accumulated(st.senders, st.active.value) == Kept(st.log))
  }

  ghost predicate Base(st: State) {
    && OneWorkerEach(st)
    && NobodyForgotten(st)
    && SlotLogged(st)
    && SlotOwned(st)
    && Exclusive(st.log)
    && Conserved(st)
    && TextKept(st)
  }

  ghost predicate Inv(st: State) {
    Base(st) && forall s :: s in st.processing ==> Live(st.workers, s)
  }

  /** `Inv` while call `id` of sender `s` runs: it is not parked and does not hold the slot. */
  ghost predicate InvRunning(st: State, id: nat, s: string) {
    && Base(st)
    && id < st.started && id !in st.workers
    && s in st.processing && s in st.senders && st.active != Some(s)
    && !Live(st.workers, s)
    && (forall t :: t in st.processing && t != s ==> Live(st.workers, t))
  }

  lemma LiveAfterParking(workers: map<nat, Worker>, id: nat, w: Worker)
    requires id !in workers || workers[id].sender == w.sender
    ensures forall t :: t != w.sender && Live(workers, t) ==> Live(workers[id := w], t)
    ensures Live(workers[id := w], w.sender)
  {
    assert workers[id := w][id].sender == w.sender;
    forall t | t != w.sender && Live(workers, t)
      ensures Live(workers[id := w], t)
    {
      var i :| i in workers && workers[i].sender == t;
      assert i in workers[id := w] && workers[id := w][i].sender == t;
    }
  }

  lemma LiveAfterResuming(workers: map<nat, Worker>, id: nat)
    requires id in workers
    requires forall i, j :: i in workers && j in workers && workers[i].sender == workers[j].sender ==> i == j
    ensures forall t :: t != workers[id].sender && Live(workers, t) ==> Live(workers - {id}, t)
    ensures !Live(workers - {id}, workers[id].sender)
  {
    forall t | t != workers[id].sender && Live(workers, t)
      ensures Live(workers - {id}, t)
    {
      var i :| i in workers && workers[i].sender == t;
      assert i in workers - {id} && (workers - {id})[i].sender == t;
    }
  }

  lemma ServingAfterParking(workers: map<nat, Worker>, id: nat, w: Worker)
    requires id !in workers || (workers[id].sender == w.sender && (InFlight(workers[id]) ==> InFlight(w)))
    ensures forall t :: Serving(workers, t) ==> Serving(workers[id := w], t)
    ensures InFlight(w) ==> Serving(workers[id := w], w.sender)
  {
    assert workers[id := w][id].sender == w.sender;
    forall t | Serving(workers, t)
      ensures Serving(workers[id := w], t)
    {
      var i :| i in workers && workers[i].sender == t && InFlight(workers[i]);
      assert i in workers[id := w] && workers[id := w][i].sender == t;
    }
  }

  lemma DrainKeepsWorkers(st: State, id: nat, s: string)
    requires OneWorkerEach(st) && id < st.started
    requires s in st.processing && s in st.senders && !Live(st.workers, s)
    ensures OneWorkerEach(Drain(st, id, s))
  {
  }

  lemma DrainForgetsNobody(st: State, id: nat, s: string)
    requires NobodyForgotten(st) && s in st.processing && s in st.senders
    ensures NobodyForgotten(Drain(st, id, s))
  {
  }

  lemma DrainKeepsLive(st: State, id: nat, s: string)
    requires id !in st.workers && s in st.senders
    requires forall t :: t in st.processing && t != s ==> Live(st.workers, t)
    ensures var st' := Drain(st, id, s); forall t :: t in st'.processing ==> Live(st'.workers, t)
  {
    if QueueOf(st.queues, s) != [] {
      LiveAfterParking(st.workers, id, Drain(st, id, s).workers[id]);
    }
  }

  lemma DrainKeepsSlot(st: State, id: nat, s: string)
    requires SlotLogged(st) && SlotOwned(st) && id !in st.workers && s in st.senders && st.active != Some(s)
    ensures var st' := Drain(st, id, s); SlotLogged(st') && SlotOwned(st')
  {
    if QueueOf(st.queues, s) != [] {
      ServingAfterParking(st.workers, id, Drain(st, id, s).workers[id]);
    }
  }

  lemma DrainKeepsHistory(st: State, id: nat, s: string)
    requires SlotLogged(st) && Exclusive(st.log) && TextKept(st) && s in st.senders && st.active != Some(s)
    ensures var st' := Drain(st, id, s); Exclusive(st'.log) && TextKept(st')
  {
  }

  lemma DrainBalances(st: State, id: nat, s: string, t: string)
    requires SlotLogged(st) && Balanced(st, t) && s in st.senders && st.active != Some(s)
    ensures Balanced(Drain(st, id, s), t)
  {
    if t == s && QueueOf(st.queues, s) != [] {
      var queue := QueueOf(st.queues, s);
      assert queue == [queue[0]] + queue[1..];
    }
  }

  lemma DrainKeepsInv(st: State, id: nat, s: string)
    requires InvRunning(st, id, s)
    ensures Inv(Drain(st, id, s))
  {
    DrainKeepsWorkers(st, id, s);
    DrainForgetsNobody(st, id, s);
    DrainKeepsLive(st, id, s);
    DrainKeepsSlot(st, id, s);
    DrainKeepsHistory(st, id, s);
    forall t ensures Balanced(Drain(st, id, s), t) {
      DrainBalances(st, id, s, t);
    }
  }

  lemma EnqueueKeepsBase(st: State, entry: QueueEntry)
    requires Base(st) && entry.sender in st.processing
    ensures Base(Enqueued(st, entry))
  {
    forall t ensures Balanced(Enqueued(st, entry), t) {
      assert Balanced(st, t);
    }
  }

  lemma StartIsRunning(st: State, s: string)
    requires Inv(st) && s !in st.processing && s in st.senders
    ensures InvRunning(Started(st, s), st.started, s)
  {
    forall t ensures Balanced(Started(st, s), t) {
      assert Balanced(st, t);
    }
  }

  lemma ArriveKeepsInv(st: State, entry: QueueEntry, maxQueueSize: int, media: bool)
    requires Inv(st) && entry.sender in st.senders
    ensures Inv(Arrive(st, entry, maxQueueSize, media))
  {
    var s := entry.sender;
    var full := |QueueOf(st.queues, s)| >= maxQueueSize;
    if s in st.processing {
      EnqueueKeepsBase(st, entry);
    } else if !full {
      StartIsRunning(st, s);
      EnqueueKeepsBase(Started(st, s), entry);
      assert Enqueued(Started(st, s), entry) == Started(Enqueued(st, entry), s);
      DrainKeepsInv(Started(Enqueued(st, entry), s), st.started, s);
    } else if media {
      StartIsRunning(st, s);
      DrainKeepsInv(Started(st, s), st.started, s);
    }
  }

  lemma ResumedIsRunning(st: State, id: nat)
    requires Inv(st) && AtPc(st, id, Refusing)
    ensures InvRunning(Resumed(st, id), id, st.workers[id].sender)
  {
    LiveAfterResuming(st.workers, id);
    forall t ensures Balanced(Resumed(st, id), t) {
      assert Balanced(st, t);
    }
    if st.active.Some? {
      var i :| i in st.workers && st.workers[i].sender == st.active.value && InFlight(st.workers[i]);
      assert i in Resumed(st, id).workers;
    }
  }

  lemma GivenBackBalances(st: State, id: nat, outcome: Outcome, t: string)
    requires SlotOwned(st) && Balanced(st, t) && id in st.workers && InFlight(st.workers[id]) && !outcome.Refused?
    ensures Balanced(GivenBack(st, id, outcome), t)
  {
  }

  lemma OnlyOneInFlight(st: State, id: nat, i: nat)
    requires OneWorkerEach(st) && SlotOwned(st)
    requires id in st.workers && InFlight(st.workers[id]) && i in st.workers && InFlight(st.workers[i])
    ensures i == id
  {
  }

  lemma GivenBackIsRunning(st: State, id: nat, outcome: Outcome)
    requires Inv(st) && id in st.workers && InFlight(st.workers[id]) && !outcome.Refused?
    ensures InvRunning(GivenBack(st, id, outcome), id, st.workers[id].sender)
  {
    LiveAfterResuming(st.workers, id);
    var st' := GivenBack(st, id, outcome);
    forall t ensures Balanced(st', t) {
      GivenBackBalances(st, id, outcome, t);
    }
    forall i | i in st'.workers ensures !InFlight(st'.workers[i]) {
      if InFlight(st.workers[i]) { OnlyOneInFlight(st, id, i); }
    }
    assert SlotOwned(st');
  }

  /** What every step that neither moves a message nor changes the slot leaves true. */
  lemma ParkKeepsInv(st: State, id: nat, pc: Pc)
    requires Inv(st) && id in st.workers && InFlight(st.workers[id]) && !pc.Refusing?
    ensures Inv(Parked(st, id, pc))
  {
    LiveAfterParking(st.workers, id, st.workers[id].(pc := pc));
    ServingAfterParking(st.workers, id, st.workers[id].(pc := pc));
    forall t ensures Balanced(Parked(st, id, pc), t) {
      assert Balanced(st, t);
    }
  }

  lemma FlagsAreFree(st: State, flags: set<string>, connected: bool)
    requires Inv(st)
    ensures Inv(st.(flags := flags, connected := connected))
  {
    forall t ensures Balanced(st.(flags := flags, connected := connected), t) {
      assert Balanced(st, t);
    }
  }

  lemma HandlersAreFree(st: State, handlers: seq<string>)
    requires Inv(st)
    ensures Inv(st.(handlers := handlers))
  {
    forall t ensures Balanced(st.(handlers := handlers), t) {
      assert Balanced(st, t);
    }
  }

  /** The log may grow by what concerns only the text of the turn. */
  lemma NoteKeepsInv(st: State, senders: Senders, handlers: seq<string>, what: Observation<string, QueueEntry>)
    requires Inv(st) && senders.Keys >= st.senders.Keys
    requires what.Heard? || what.Replied? || what.Terminal? || what.Fault? || what.Cleared?
    requires what.Replied? ==> st.active == Some(what.who) && what.text == Kept(st.log)
    requires st.active.Some? ==> Accumulated(senders, st.active.value) == Kept(Then(st.log, what))
    ensures Inv(Logged(st.(senders := senders, handlers := handlers), what))
  {
    var st' := Logged(st.(senders := senders, handlers := handlers), what);
    forall t ensures Balanced(st', t) {
      assert Balanced(st, t);
    }
  }

  lemma RegisterKeepsInv(st: State, phone: string, jid: string, isGroup: bool)
    requires Inv(st)
    ensures Inv(st.(senders := Registered(st.senders, phone, jid, isGroup)))
  {
    var st' := st.(senders := Registered(st.senders, phone, jid, isGroup));
    forall t ensures Balanced(st', t) {
      assert Balanced(st, t);
    }
  }

  lemma ResultKeepsInv(st: State)
    requires Inv(st)
    ensures Inv(OnResult(st))
  {
    if st.active.Some? {
      var s := st.active.value;
      var text := Accumulated(st.senders, s);
      NoteKeepsInv(st, st.senders, st.handlers, Replied(s, text));
      var st1 := Logged(st, Replied(s, text));
      if text == "" {
        NoteKeepsInv(st1, st1.senders, st1.handlers, Terminal);
        EndKeepsInv(Logged(st1, Terminal), s);
      } else {
        NoteKeepsInv(st1, st1.senders, st1.handlers + [s], Terminal);
      }
    }
  }

  lemma EndKeepsInv(st: State, s: string)
    requires Inv(st)
    ensures Inv(Ends(st, s))
  {
    FlagsAreFree(st, st.flags - {s}, st.connected);
    NoteKeepsInv(st.(flags := st.flags - {s}), WithAccumulator(st.senders, s, ""), st.handlers, Cleared(s));
  }

  lemma FinishKeepsInv(st: State, index: nat)
    requires Inv(st) && index < |st.handlers|
    ensures Inv(FinishHandler(st, index))
  {
    var st1 := st.(handlers := st.handlers[..index] + st.handlers[index + 1..]);
    HandlersAreFree(st, st1.handlers);
    EndKeepsInv(st1, st.handlers[index]);
  }

  lemma ErrorKeepsInv(st: State)
    requires Inv(st)
    ensures Inv(OnError(st))
  {
    if st.active.Some? {
      var s := st.active.value;
      if s in st.senders {
        NoteKeepsInv(st, st.senders, st.handlers + [s], Terminal);
      } else {
        NoteKeepsInv(st, st.senders, st.handlers, Terminal);
        EndKeepsInv(Logged(st, Terminal), s);
      }
    }
  }

  lemma StreamKeepsInv(st: State, e: Event)
    requires Inv(st) && Enabled(st, e)
    requires e.AssistantChunk? || e.ResultEvent? || e.ErrorEvent? || e.HandlerDone?
    ensures Inv(Step(st, e))
  {
    if st.active.Some? || e.HandlerDone? {
      match e
      case AssistantChunk(content) =>
        var s := st.active.value;
        NoteKeepsInv(st, WithAccumulator(st.senders, s, Accumulated(st.senders, s) + content), st.handlers,
                     Heard(content));
      case ResultEvent => ResultKeepsInv(st);
      case ErrorEvent => ErrorKeepsInv(st);
      case HandlerDone(index) => FinishKeepsInv(st, index);
    }
  }

  lemma WorkerKeepsInv(st: State, e: Event)
    requires Inv(st) && Enabled(st, e)
    requires e.RefusalSent? || e.SubmitDone? || e.SubmitFailed? || e.NoticeSent? || e.Poll? || e.Release?
    ensures Inv(Step(st, e))
  {
    var s := st.workers[e.id].sender;
    match e
    case RefusalSent(id) =>
      ResumedIsRunning(st, id);
      DrainKeepsInv(Resumed(st, id), id, s);
    case SubmitDone(id) => ParkKeepsInv(st, id, if s in st.flags then Waiting else Releasing);
    case Poll(id) => ParkKeepsInv(st, id, if s in st.flags then Waiting else Releasing);
    case SubmitFailed(id) =>
      NoteKeepsInv(st, st.senders, st.handlers, Fault);
      ParkKeepsInv(Logged(st, Fault), id, Reporting);
    case NoticeSent(id) =>
      FlagsAreFree(st, st.flags - {s}, st.connected);
      GivenBackIsRunning(st.(flags := st.flags - {s}), id, Failed);
      DrainKeepsInv(GivenBack(st.(flags := st.flags - {s}), id, Failed), id, s);
    case Release(id) =>
      GivenBackIsRunning(st, id, Completed);
      DrainKeepsInv(GivenBack(st, id, Completed), id, s);
  }

  lemma StepKeepsInv(st: State, e: Event)
    requires Inv(st)
    ensures Inv(Step(st, e))
  {
    if Enabled(st, e) {
      match e
      case Register(phone, jid, isGroup) => RegisterKeepsInv(st, phone, jid, isGroup);
      case Inbound(entry, maxQueueSize, media) => ArriveKeepsInv(st, entry, maxQueueSize, media);
      case Connection(up) => FlagsAreFree(st, st.flags, up);
      case AssistantChunk(_) => StreamKeepsInv(st, e);
      case ResultEvent => StreamKeepsInv(st, e);
      case ErrorEvent => StreamKeepsInv(st, e);
      case HandlerDone(_) => StreamKeepsInv(st, e);
      case _ => WorkerKeepsInv(st, e);
    }
  }

  lemma {:induction false} RunKeepsInv(events: seq<Event>)
    ensures Inv(Run(events))
  {
    if events == [] {
      assert forall t :: Balanced(Initial(), t);
    } else {
      RunKeepsInv(events[..|events| - 1]);
      StepKeepsInv(Run(events[..|events| - 1]), events[|events| - 1]);
    }
  }
}
