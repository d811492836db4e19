/**
 The Telegram gateway's turn scheduler as a state machine: one call of
 `processQueue` per chat, one active chat, and a saved previous value that each
 turn restores when it is over. A step is what runs between two awaits.
 */
module TelegramScheduler {
  import opened Wrappers
  import opened TurnHistory

  datatype Pc = Refusing | Typing | Submitting | Waiting | Reporting

  /** A queued chat message. */
  datatype Prompt = Prompt(text: string)

  /** A suspended call; `signalled` says that the promise of its turn is resolved. */
  datatype Worker = Worker(chat: int, pc: Pc, prompt: Prompt, previous: Option<int>, signalled: bool)

  type Log = History<int, Prompt>

  type Queues = map<int, seq<Prompt>>

  datatype State = State(
    queues: Queues,
    processing: set<int>,
    active: Option<int>,
    resolvers: map<int, nat>,
    workers: map<nat, Worker>,
    started: nat,
    handlers: seq<int>,
    halted: bool,
    log: Log)

  datatype Event =
    | Inbound(chat: int, prompt: Prompt)
    | RefusalSent(id: nat)
    | RefusalFailed(id: nat)
    | TypingShown(id: nat)
    | SubmitDone(id: nat)
    | TurnFailed(id: nat)
    | ErrorReported(id: nat)
    | ResultAwaited(id: nat)
    | TerminalEvent
    | HandlerDone(index: nat)
    | DaemonLost

  function Initial(): State {
    State(map[], {}, None, map[], map[], 0, [], false, Start)
  }

  function QueueOf(queues: Queues, chat: int): seq<Prompt> {
    if chat in queues then queues[chat] else []
  }

  function Logged(st: State, what: Observation<int, Prompt>): State {
    st.(log := Then(st.log, what))
  }

  /** From the moment a text takes the slot to the first await of its turn. */
  function Take(st: State, id: nat, chat: int, prompt: Prompt): State {
    Logged(st.(active := Some(chat),
               resolvers := st.resolvers[chat := id],
               workers := st.workers[id := Worker(chat, Typing, prompt, st.active, false)]),
           Took(chat, prompt))
  }

  /** The loop of `processQueue`, from its test to the next await or to its end; an empty text ends it. */
  function Drain(st: State, id: nat, chat: int): State {
    var queue := QueueOf(st.queues, chat);
    if queue == [] then
      st.(processing := st.processing - {chat})
    else
      var prompt := queue[0];
      var st1 := st.(queues := st.queues[chat := queue[1..]]);
      if prompt.text == "" then
        st1.(processing := st1.processing - {chat})
      else if st1.active.Some? && st1.active.value != chat then
        Logged(st1.(workers := st1.workers[id := Worker(chat, Refusing, prompt, None, false)]),
               Left(chat, prompt, Refused))
      else
        Take(st1, id, chat, prompt)
  }

  function Enqueued(st: State, chat: int, prompt: Prompt): State {
    Logged(st.(queues := st.queues[chat := QueueOf(st.queues, chat) + [prompt]]), Accepted(chat, prompt))
  }

  function Started(st: State, chat: int): State {
    st.(processing := st.processing + {chat}, started := st.started + 1)
  }

  function Arrive(st: State, chat: int, prompt: Prompt): State {
    var st1 := Enqueued(st, chat, prompt);
    if chat in st1.processing then st1 else Drain(Started(st1, chat), st1.started, chat)
  }

  function Resumed(st: State, id: nat): State {
    st.(workers := st.workers - {id})
  }

  function Parked(st: State, id: nat, pc: Pc): State
    requires id in st.workers
  {
    st.(workers := st.workers[id := st.workers[id].(pc := pc)])
  }

  /** The end of `processMessage`: the saved previous value becomes active again. */
  function Restored(st: State, id: nat, outcome: Outcome): State
    requires id in st.workers
  {
    var w := st.workers[id];
    Logged(Resumed(st, id).(active := w.previous), Left(w.chat, w.prompt, outcome))
  }

  function AfterTurn(st: State, id: nat): State
    requires id in st.workers
  {
    Drain(Restored(st, id, Completed), id, st.workers[id].chat)
  }

  function AfterFailure(st: State, id: nat): State
    requires id in st.workers
  {
    var chat := st.workers[id].chat;
    Drain(Restored(st.(resolvers := st.resolvers - {chat}), id, Failed), id, chat)
  }

  /** A failed busy notice rejects the call, and an unhandled rejection ends the process. */
  function Crashed(st: State, id: nat): State {
    Resumed(st, id).(halted := true)
  }

  function OnTerminal(st: State): State {
    if st.active.None? then st else Logged(st.(handlers := st.handlers + [st.active.value]), Terminal)
  }

  /** The end of a result or error handler: the resolver of the captured chat is called, if there still is one. */
  function FinishHandler(st: State, index: nat): State
    requires index < |st.handlers|
  {
    var chat := st.handlers[index];
    var st1 := st.(handlers := st.handlers[..index] + st.handlers[index + 1..]);
    if chat !in st.resolvers then st1
    else
      var id := st.resolvers[chat];
      var st2 := st1.(resolvers := st1.resolvers - {chat});
      if id in st2.workers then st2.(workers := st2.workers[id := st2.workers[id].(signalled := true)]) else st2
  }

  predicate AtPc(st: State, id: nat, pc: Pc) {
    id in st.workers && st.workers[id].pc == pc
  }

  predicate Enabled(st: State, e: Event) {
    && !st.halted
    && match e
       case Inbound(_, prompt) => prompt.text != ""
       case RefusalSent(id) => AtPc(st, id, Refusing)
       case RefusalFailed(id) => AtPc(st, id, Refusing)
       case TypingShown(id) => AtPc(st, id, Typing)
       case SubmitDone(id) => AtPc(st, id, Submitting)
       case TurnFailed(id) => AtPc(st, id, Typing) || AtPc(st, id, Submitting)
       case ErrorReported(id) => AtPc(st, id, Reporting)
       case ResultAwaited(id) => AtPc(st, id, Waiting) && st.workers[id].signalled
       case TerminalEvent => true
       case HandlerDone(index) => index < |st.handlers|
       case DaemonLost => true
  }

  function Step(st: State, e: Event): State {
    if !Enabled(st, e) then
      st
    else
      match e
      case Inbound(chat, prompt) => Arrive(st, chat, prompt)
      case RefusalSent(id) => Drain(Resumed(st, id), id, st.workers[id].chat)
      case RefusalFailed(id) => Crashed(st, id)
      case TypingShown(id) => Parked(st, id, Submitting)
      case SubmitDone(id) => Parked(st, id, Waiting)
      case TurnFailed(id) => Parked(Logged(st, Fault), id, Reporting)
      case ErrorReported(id) => AfterFailure(st, id)
      case ResultAwaited(id) => AfterTurn(st, id)
      case TerminalEvent => OnTerminal(st)
      case HandlerDone(index) => FinishHandler(st, index)
      case DaemonLost => st.(halted := true)
  }

  function Run(events: seq<Event>): State {
    if events == [] then Initial() else Step(Run(events[..|events| - 1]), events[|events| - 1])
  }

  // ----- the joint invariant -----

  predicate InFlight(w: Worker) {
    !w.pc.Refusing?
  }

  ghost predicate Live(workers: map<nat, Worker>, chat: int) {
    exists id :: id in workers && workers[id].chat == chat
  }

  ghost predicate Serving(workers: map<nat, Worker>, chat: int) {
    exists id :: id in workers && workers[id].chat == chat && InFlight(workers[id])
  }

  ghost predicate OneWorkerEach(st: State) {
    && (forall i, j :: i in st.workers && j in st.workers && st.workers[i].chat == st.workers[j].chat ==> i == j)
    && (forall i :: i in st.workers ==> i < st.started && st.workers[i].chat in st.processing)
  }

  predicate NoBlank(queue: seq<Prompt>) {
    forall i :: 0 <= i < |queue| ==> queue[i].text != ""
  }

  ghost predicate NobodyForgotten(st: State) {
    forall c :: (QueueOf(st.queues, c) != [] ==> c in st.processing) && NoBlank(QueueOf(st.queues, c))
  }

  predicate ActiveIsHolder(st: State) {
    st.active == match Holder(st.log) case None => None case Some(turn) => Some(turn.who)
  }

  ghost predicate SlotOwned(st: State) {
    && ActiveIsHolder(st)
    && (forall i :: i in st.workers && InFlight(st.workers[i]) ==>
          && Holder(st.log) == Some(Turn(st.workers[i].chat, st.workers[i].prompt))
          && st.workers[i].previous == None)
    && (st.active.Some? ==> Serving(st.workers, st.active.value))
  }

  function Current(log: Log, chat: int): seq<Prompt> {
    if Holder(log).Some? && Holder(log).value.who == chat then [Holder(log).value.entry] else []
  }

  predicate Balanced(st: State, chat: int) {
    AcceptedBy(st.log, chat) == LeftBy(st.log, chat) + Current(st.log, chat) + QueueOf(st.queues, chat)
  }

  ghost predicate Base(st: State) {
    OneWorkerEach(st) && NobodyForgotten(st) && SlotOwned(st) && Exclusive(st.log) && forall c :: Balanced(st, c)
  }

  ghost predicate Inv(st: State) {
    Base(st) && (!st.halted ==> forall c :: c in st.processing ==> Live(st.workers, c))
  }

  /** `Inv` while call `id` of `chat` runs: it is not parked and does not hold the slot. */
  ghost predicate InvRunning(st: State, id: nat, chat: int) {
    && Base(st)
    && id < st.started && id !in st.workers && chat in st.processing && st.active != Some(chat)
    && !Live(st.workers, chat)
    && forall c :: c in st.processing && c != chat ==> Live(st.workers, c)
  }

  lemma AfterParking(workers: map<nat, Worker>, id: nat, w: Worker)
    requires id in workers ==> workers[id].chat == w.chat && (InFlight(workers[id]) ==> InFlight(w))
    ensures forall c :: Live(workers, c) ==> Live(workers[id := w], c)
    ensures forall c :: Serving(workers, c) ==> Serving(workers[id := w], c)
    ensures Live(workers[id := w], w.chat) && (InFlight(w) ==> Serving(workers[id := w], w.chat))
  {
    var after := workers[id := w];
    assert after[id].chat == w.chat;
    forall c | Live(workers, c) ensures Live(after, c) {
      var i :| i in workers && workers[i].chat == c;
      assert i in after && after[i].chat == c;
    }
    forall c | Serving(workers, c) ensures Serving(after, c) {
      var i :| i in workers && workers[i].chat == c && InFlight(workers[i]);
      assert i in after && after[i].chat == c;
    }
  }

  lemma AfterResuming(workers: map<nat, Worker>, id: nat)
    requires id in workers
    requires forall i, j :: i in workers && j in workers && workers[i].chat == workers[j].chat ==> i == j
    ensures forall c :: c != workers[id].chat && Live(workers, c) ==> Live(workers - {id}, c)
    ensures forall c :: c != workers[id].chat && Serving(workers, c) ==> Serving(workers - {id}, c)
    ensures !Live(workers - {id}, workers[id].chat)
  {
    var after := workers - {id};
    forall c | c != workers[id].chat && Live(workers, c) ensures Live(after, c) {
      var i :| i in workers && workers[i].chat == c;
      assert i in after && after[i].chat == c;
    }
    forall c | c != workers[id].chat && Serving(workers, c) ensures Serving(after, c) {
      var i :| i in workers && workers[i].chat == c && InFlight(workers[i]);
      assert i in after && after[i].chat == c;
    }
  }

  lemma DrainKeepsWorkers(st: State, id: nat, chat: int)
    requires InvRunning(st, id, chat)
    ensures var st' := Drain(st, id, chat);
            OneWorkerEach(st') && forall c :: c in st'.processing ==> Live(st'.workers, c)
  {
    if QueueOf(st.queues, chat) != [] {
      assert QueueOf(st.queues, chat)[0].text != "";
      AfterParking(st.workers, id, Drain(st, id, chat).workers[id]);
    }
  }

  lemma DrainForgetsNobody(st: State, id: nat, chat: int)
    requires NobodyForgotten(st) && chat in st.processing
    ensures NobodyForgotten(Drain(st, id, chat))
  {
    var queue := QueueOf(st.queues, chat);
    if queue != [] {
      assert queue[0].text != "" && NoBlank(queue[1..]);
    }
  }

  lemma DrainKeepsSlot(st: State, id: nat, chat: int)
    requires InvRunning(st, id, chat)
    ensures var st' := Drain(st, id, chat); SlotOwned(st') && Exclusive(st'.log)
  {
    if QueueOf(st.queues, chat) != [] {
      AfterParking(st.workers, id, Drain(st, id, chat).workers[id]);
    }
  }

  lemma DrainBalances(st: State, id: nat, chat: int, c: int)
    requires ActiveIsHolder(st) && NoBlank(QueueOf(st.queues, chat)) && Balanced(st, c) && st.active != Some(chat)
    ensures Balanced(Drain(st, id, chat), c)
  {
    var queue := QueueOf(st.queues, chat);
    if queue != [] {
      assert queue[0].text != "";
      if c == chat {
        Shifted(LeftBy(st.log, chat), queue);
      } else {
        DrainOfAnother(st, id, chat, c);
      }
    }
  }

  lemma DrainOfAnother(st: State, id: nat, chat: int, c: int)
    requires ActiveIsHolder(st) && st.active != Some(chat) && c != chat
    ensures var st' := Drain(st, id, chat);
            && QueueOf(st'.queues, c) == QueueOf(st.queues, c) && AcceptedBy(st'.log, c) == AcceptedBy(st.log, c)
            && LeftBy(st'.log, c) == LeftBy(st.log, c) && Current(st'.log, c) == Current(st.log, c)
  {
    var queue := QueueOf(st.queues, chat);
    if queue != [] {
      NotedOfAnother(st.log, chat, queue[0], c);
    }
  }

  lemma NotedOfAnother(log: Log, chat: int, prompt: Prompt, c: int)
    requires c != chat
    ensures AcceptedBy(Then(log, Left(chat, prompt, Refused)), c) == AcceptedBy(log, c)
    ensures LeftBy(Then(log, Left(chat, prompt, Refused)), c) == LeftBy(log, c)
    ensures Current(Then(log, Left(chat, prompt, Refused)), c) == Current(log, c)
    ensures AcceptedBy(Then(log, Took(chat, prompt)), c) == AcceptedBy(log, c)
    ensures LeftBy(Then(log, Took(chat, prompt)), c) == LeftBy(log, c)
    ensures Holder(log).None? ==> Current(Then(log, Took(chat, prompt)), c) == Current(log, c)
  {
    assert AcceptedBy(log, c) + [] == AcceptedBy(log, c) && LeftBy(log, c) + [] == LeftBy(log, c);
  }

  /** The first of the queue moves behind what left. */
  lemma Shifted(left: seq<Prompt>, queue: seq<Prompt>)
    requires queue != []
    ensures left + [] + queue == left + [queue[0]] + queue[1..]
    ensures left + [queue[0]] + queue[1..] == left + [queue[0]] + [] + queue[1..]
  {
    assert queue == [queue[0]] + queue[1..];
  }

  lemma DrainKeepsInv(st: State, id: nat, chat: int)
    requires InvRunning(st, id, chat)
    ensures Inv(Drain(st, id, chat))
  {
    DrainKeepsWorkers(st, id, chat);
    DrainForgetsNobody(st, id, chat);
    DrainKeepsSlot(st, id, chat);
    forall c ensures Balanced(Drain(st, id, chat), c) {
      DrainBalances(st, id, chat, c);
    }
  }

  lemma EnqueueBalances(st: State, chat: int, prompt: Prompt, c: int)
    requires Balanced(st, c)
    ensures Balanced(Enqueued(st, chat, prompt), c)
  {
    var settled, queue := LeftBy(st.log, c) + Current(st.log, c), QueueOf(st.queues, c);
    assert settled + queue + [prompt] == settled + (queue + [prompt]);
  }

  lemma EnqueueForgetsNobody(st: State, chat: int, prompt: Prompt)
    requires NobodyForgotten(st) && chat in st.processing && prompt.text != ""
    ensures NobodyForgotten(Enqueued(st, chat, prompt))
  {
    assert NoBlank(QueueOf(st.queues, chat) + [prompt]);
  }

  lemma EnqueueKeepsBase(st: State, chat: int, prompt: Prompt)
    requires Base(st) && chat in st.processing && prompt.text != ""
    ensures Base(Enqueued(st, chat, prompt))
  {
    EnqueueForgetsNobody(st, chat, prompt);
    forall c ensures Balanced(Enqueued(st, chat, prompt), c) {
      EnqueueBalances(st, chat, prompt, c);
    }
  }

  lemma StartIsRunning(st: State, chat: int)
    requires Inv(st) && !st.halted && chat !in st.processing
    ensures InvRunning(Started(st, chat), st.started, chat)
  {
    forall c ensures Balanced(Started(st, chat), c) {
      assert Balanced(st, c);
    }
  }

  lemma ArriveKeepsInv(st: State, chat: int, prompt: Prompt)
    requires Inv(st) && !st.halted && prompt.text != ""
    ensures Inv(Arrive(st, chat, prompt))
  {
    if chat in st.processing {
      EnqueueKeepsBase(st, chat, prompt);
    } else {
      StartIsRunning(st, chat);
      EnqueueKeepsBase(Started(st, chat), chat, prompt);
      assert Enqueued(Started(st, chat), chat, prompt) == Started(Enqueued(st, chat, prompt), chat);
      DrainKeepsInv(Started(Enqueued(st, chat, prompt), chat), st.started, chat);
    }
  }

  lemma ResumedIsRunning(st: State, id: nat)
    requires Inv(st) && !st.halted && AtPc(st, id, Refusing)
    ensures InvRunning(Resumed(st, id), id, st.workers[id].chat)
  {
    AfterResuming(st.workers, id);
    forall c ensures Balanced(Resumed(st, id), c) {
      assert Balanced(st, c);
    }
    if st.active.Some? {
      var i :| i in st.workers && st.workers[i].chat == st.active.value && InFlight(st.workers[i]);
      assert i in Resumed(st, id).workers;
    }
  }

  lemma OnlyOneInFlight(st: State, id: nat, i: nat)
    requires OneWorkerEach(st) && SlotOwned(st)
    requires id in st.workers && InFlight(st.workers[id]) && i in st.workers && InFlight(st.workers[i])
    ensures i == id
  {
  }

  lemma RestoredBalances(st: State, id: nat, outcome: Outcome, c: int)
    requires SlotOwned(st) && Balanced(st, c) && id in st.workers && InFlight(st.workers[id]) && !outcome.Refused?
    ensures Balanced(Restored(st, id, outcome), c)
  {
  }

  lemma RestoredIsRunning(st: State, id: nat, outcome: Outcome)
    requires Inv(st) && !st.halted && id in st.workers && InFlight(st.workers[id]) && !outcome.Refused?
    ensures InvRunning(Restored(st, id, outcome), id, st.workers[id].chat)
    ensures Restored(st, id, outcome).active == None
  {
    AfterResuming(st.workers, id);
    var st' := Restored(st, id, outcome);
    forall c ensures Balanced(st', c) {
      RestoredBalances(st, id, outcome, c);
    }
    forall i | i in st'.workers ensures !InFlight(st'.workers[i]) {
      if InFlight(st.workers[i]) { OnlyOneInFlight(st, id, i); }
    }
    assert SlotOwned(st');
  }

  /** Resolvers, handlers, the halt flag and the signal of a worker are not part of the invariant. */
  lemma MarkKeepsInv(st: State, st': State)
    requires Inv(st) && (st.halted ==> st'.halted)
    requires st' == st.(resolvers := st'.resolvers, handlers := st'.handlers, halted := st'.halted,
                        workers := st'.workers)
    requires st'.workers.Keys == st.workers.Keys
    requires forall i :: i in st.workers ==>
               && st'.workers[i].chat == st.workers[i].chat && st'.workers[i].prompt == st.workers[i].prompt
               && st'.workers[i].previous == st.workers[i].previous
               && InFlight(st'.workers[i]) == InFlight(st.workers[i])
    ensures Inv(st')
  {
    forall c ensures Balanced(st', c) {
      assert Balanced(st, c);
    }
    forall c | Live(st.workers, c) ensures Live(st'.workers, c) {
      var i :| i in st.workers && st.workers[i].chat == c;
      assert i in st'.workers;
    }
    if st.active.Some? {
      var i :| i in st.workers && st.workers[i].chat == st.active.value && InFlight(st.workers[i]);
      assert i in st'.workers;
    }
  }

  /** The end of a turn, in whatever way it is announced, moves no text and leaves the slot alone. */
  lemma NoteKeepsInv(st: State, what: Observation<int, Prompt>)
    requires Inv(st) && (what.Terminal? || what.Fault?)
    ensures Inv(Logged(st, what))
  {
    var st' := Logged(st, what);
    assert Holder(st'.log) == Holder(st.log) && Exclusive(st'.log);
    assert SlotOwned(st') && OneWorkerEach(st') && NobodyForgotten(st');
    forall c ensures Balanced(st', c) {
      NoteBalances(st, what, c);
    }
  }

  lemma NoteBalances(st: State, what: Observation<int, Prompt>, c: int)
    requires Balanced(st, c) && (what.Terminal? || what.Fault?)
    ensures Balanced(Logged(st, what), c)
  {
    assert AcceptedBy(st.log, c) + [] == AcceptedBy(st.log, c) && LeftBy(st.log, c) + [] == LeftBy(st.log, c);
  }

  lemma CrashKeepsInv(st: State, id: nat)
    requires Inv(st) && !st.halted && AtPc(st, id, Refusing)
    ensures Inv(Crashed(st, id))
  {
    ResumedIsRunning(st, id);
    forall c ensures Balanced(Crashed(st, id), c) {
      assert Balanced(Resumed(st, id), c);
    }
  }

  lemma TurnOverKeepsInv(st: State, e: Event)
    requires Inv(st) && Enabled(st, e) && (e.RefusalSent? || e.ErrorReported? || e.ResultAwaited?)
    ensures Inv(Step(st, e))
  {
    var chat := st.workers[e.id].chat;
    match e
    case RefusalSent(id) =>
      ResumedIsRunning(st, id);
      DrainKeepsInv(Resumed(st, id), id, chat);
    case ErrorReported(id) =>
      var st1 := st.(resolvers := st.resolvers - {chat});
      MarkKeepsInv(st, st1);
      RestoredIsRunning(st1, id, Failed);
      DrainKeepsInv(Restored(st1, id, Failed), id, chat);
    case ResultAwaited(id) =>
      RestoredIsRunning(st, id, Completed);
      DrainKeepsInv(Restored(st, id, Completed), id, chat);
  }

  lemma AdvanceKeepsInv(st: State, e: Event)
    requires Inv(st) && Enabled(st, e) && (e.TypingShown? || e.SubmitDone? || e.TurnFailed?)
    ensures Inv(Step(st, e))
  {
    if e.TurnFailed? {
      NoteKeepsInv(st, Fault);
      ParkKeepsInv(Logged(st, Fault), e.id, Reporting);
    } else {
      ParkKeepsInv(st, e.id, if e.TypingShown? then Submitting else Waiting);
    }
  }

  lemma ParkKeepsInv(st: State, id: nat, pc: Pc)
    requires Inv(st) && id in st.workers && InFlight(st.workers[id]) && !pc.Refusing?
    ensures Inv(Parked(st, id, pc))
  {
    MarkKeepsInv(st, Parked(st, id, pc));
  }

  lemma SignalKeepsInv(st: State, e: Event)
    requires Inv(st) && Enabled(st, e) && (e.TerminalEvent? || e.HandlerDone? || e.DaemonLost?)
    ensures Inv(Step(st, e))
  {
    match e
    case TerminalEvent =>
      if st.active.Some? {
        NoteKeepsInv(st, Terminal);
        MarkKeepsInv(Logged(st, Terminal), OnTerminal(st));
      }
    case HandlerDone(index) => MarkKeepsInv(st, FinishHandler(st, index));
    case DaemonLost => MarkKeepsInv(st, st.(halted := true));
  }

  lemma StepKeepsInv(st: State, e: Event)
    requires Inv(st)
    ensures Inv(Step(st, e))
  {
    if Enabled(st, e) {
      match e
      case Inbound(chat, prompt) => ArriveKeepsInv(st, chat, prompt);
      case RefusalSent(_) => TurnOverKeepsInv(st, e);
      case RefusalFailed(id) => CrashKeepsInv(st, id);
      case ErrorReported(_) => TurnOverKeepsInv(st, e);
      case ResultAwaited(_) => TurnOverKeepsInv(st, e);
      case TerminalEvent => SignalKeepsInv(st, e);
      case HandlerDone(_) => SignalKeepsInv(st, e);
      case DaemonLost => SignalKeepsInv(st, e);
      case _ => AdvanceKeepsInv(st, e);
    }
  }

  lemma {:induction false} RunKeepsInv(events: seq<Event>)
    ensures Inv(Run(events))
  {
    if events == [] {
      assert forall c :: Balanced(Initial(), c);
    } else {
      RunKeepsInv(events[..|events| - 1]);
      StepKeepsInv(Run(events[..|events| - 1]), events[|events| - 1]);
    }
  }

  // ----- guarantees -----

  /** In every run at most one chat has a turn in flight, it is the active one, and the turns exclude each other. */
  lemma SingleSlot(events: seq<Event>)
    ensures var st := Run(events);
            && Exclusive(st.log)
            && (forall i, j :: i in st.workers && j in st.workers ==>
                  InFlight(st.workers[i]) && InFlight(st.workers[j]) ==> i == j)
            && (forall i :: i in st.workers && InFlight(st.workers[i]) ==> st.active == Some(st.workers[i].chat))
            && (st.active.Some? ==> Serving(st.workers, st.active.value))
  {
    RunKeepsInv(events);
    var st := Run(events);
    forall i, j | i in st.workers && j in st.workers && InFlight(st.workers[i]) && InFlight(st.workers[j])
      ensures i == j
    {
      OnlyOneInFlight(st, i, j);
    }
  }

  /** Whatever a turn saved when it took the slot is null, so restoring it frees the slot. */
  lemma RestoringFreesTheSlot(events: seq<Event>, id: nat, outcome: Outcome)
    requires id in Run(events).workers && InFlight(Run(events).workers[id]) && !outcome.Refused?
    ensures Run(events).workers[id].previous == None
    ensures Restored(Run(events), id, outcome).active == None
  {
    RunKeepsInv(events);
  }

  /** While the process runs, a chat with a queued text has exactly one live call of `processQueue`. */
  lemma NoLostWakeup(events: seq<Event>, chat: int)
    ensures var st := Run(events);
            && (!st.halted && QueueOf(st.queues, chat) != [] ==> Live(st.workers, chat))
            && (forall i, j :: i in st.workers && j in st.workers ==>
                  st.workers[i].chat == chat == st.workers[j].chat ==> i == j)
  {
    RunKeepsInv(events);
  }

  /** Nothing accepted is dropped, duplicated or reordered. */
  lemma TextsConserved(events: seq<Event>, chat: int)
    ensures var st := Run(events);
            && AcceptedBy(st.log, chat) == LeftBy(st.log, chat) + Current(st.log, chat) + QueueOf(st.queues, chat)
            && LeftBy(st.log, chat) <= AcceptedBy(st.log, chat)
  {
    RunKeepsInv(events);
    assert Balanced(Run(events), chat);
  }

  /** The loop keeps every queued chat awake iff it does not meet an empty text with others behind it. */
  lemma EmptyTextStrandsTheRest(st: State, id: nat, chat: int)
    requires chat in st.processing && !Live(st.workers, chat)
    ensures var st' := Drain(st, id, chat);
            QueueOf(st'.queues, chat) != [] && !Live(st'.workers, chat) <==>
            |QueueOf(st.queues, chat)| >= 2 && QueueOf(st.queues, chat)[0].text == ""
  {
    var queue := QueueOf(st.queues, chat);
    if queue != [] && queue[0].text != "" {
      assert Drain(st, id, chat).workers[id].chat == chat;
    }
  }
}
