/** The Telegram gateway in the form its source has: a chat queue and variables changed in place by handlers. */
module TelegramGateways {
  import opened Wrappers
  import opened TurnHistory
  import opened TelegramScheduler
  import opened TelegramTurns

  class ChatQueue {
    var queues: Queues
    var processing: set<int>

    constructor ()
      ensures queues == map[] && processing == {}
    {
      queues, processing := map[], {};
    }

    method Enqueue(chatId: int, prompt: Prompt)
      modifies this`queues
      ensures queues == old(queues)[chatId := QueueOf(old(queues), chatId) + [prompt]]
    {
      var q := if chatId in queues then queues[chatId] else [];
      queues := queues[chatId := q + [prompt]];
    }

    method Dequeue(chatId: int) returns (prompt: Option<Prompt>)
      modifies this`queues
      ensures prompt == if QueueOf(old(queues), chatId) == [] then None else Some(QueueOf(old(queues), chatId)[0])
      ensures queues == if prompt.None? then old(queues) else old(queues)[chatId := QueueOf(old(queues), chatId)[1..]]
    {
      if chatId !in queues || |queues[chatId]| == 0 {
        return None;
      }
      prompt := Some(queues[chatId][0]);
      queues := queues[chatId := queues[chatId][1..]];
    }

    method HasQueued(chatId: int) returns (queued: bool)
      ensures queued <==> QueueOf(queues, chatId) != []
    {
      queued := chatId in queues && |queues[chatId]| > 0;
    }

    method IsProcessing(chatId: int) returns (busy: bool)
      ensures busy <==> chatId in processing
    {
      busy := chatId in processing;
    }

    method StartProcessing(chatId: int)
      modifies this`processing
      ensures processing == old(processing) + {chatId}
    {
      processing := processing + {chatId};
    }

    method FinishProcessing(chatId: int)
      modifies this`processing
      ensures processing == old(processing) - {chatId}
    {
      processing := processing - {chatId};
    }
  }

  class TelegramGateway {
    const chatQueue: ChatQueue
    var activeChatId: Option<int>
    var resultResolvers: map<int, nat>
    var suspended: map<nat, Worker>
    var started: nat
    var handlers: seq<int>
    var exited: bool
    ghost var log: Log

    ghost function Abs(): State
      reads this, chatQueue
    {
      State(chatQueue.queues, chatQueue.processing, activeChatId, resultResolvers, suspended, started, handlers,
            exited, log)
    }

    constructor ()
      ensures fresh(chatQueue)
      ensures Valid() && Abs() == Initial()
    {
      chatQueue := new ChatQueue();
      activeChatId, resultResolvers, suspended, started := None, map[], map[], 0;
      handlers, exited, log := [], false, Start;
      new;
      RunKeepsInv([]);
      TurnsAreResolvable([]);
    }

    /** The end of the message handler; it has already dropped messages without text. */
    method OnMessage(chatId: int, prompt: Prompt)
      requires !exited && prompt.text != ""
      modifies this, chatQueue
      ensures Abs() == Step(old(Abs()), Inbound(chatId, prompt))
    {
      chatQueue.Enqueue(chatId, prompt);
      log := Then(log, Accepted(chatId, prompt));
      var busy := chatQueue.IsProcessing(chatId);
      if !busy {
        ProcessQueue(chatId);
      }
    }

    method ProcessQueue(chatId: int)
      modifies this, chatQueue
      ensures Abs() == Drain(Started(old(Abs()), chatId), old(started), chatId)
    {
      chatQueue.StartProcessing(chatId);
      var id := started;
      started := started + 1;
      assert Abs() == Started(old(Abs()), chatId);
      Continue(id, chatId);
    }

    /**
     The loop of `processQueue` with `processMessage` inlined up to its first await; each pass
     parks or ends the call.
     */
    method Continue(id: nat, chatId: int)
      modifies this, chatQueue
      ensures Abs() == Drain(old(Abs()), id, chatId)
    {
      var queued := chatQueue.HasQueued(chatId);
      if queued {
        var next := chatQueue.Dequeue(chatId);
        if next.Some? && next.value.text != "" {
          BeginMessage(id, chatId, next.value);
          return;
        }
      }
      chatQueue.FinishProcessing(chatId);
    }

    method BeginMessage(id: nat, chatId: int, prompt: Prompt)
      modifies this
      ensures Abs() == var st := old(Abs());
                       if st.active.Some? && st.active.value != chatId then
                         Logged(st.(workers := st.workers[id := Worker(chatId, Refusing, prompt, None, false)]),
                                Left(chatId, prompt, Refused))
                       else
                         Take(st, id, chatId, prompt)
    {
      if activeChatId != None && activeChatId != Some(chatId) {
        log := Then(log, Left(chatId, prompt, Refused));
        suspended := suspended[id := Worker(chatId, Refusing, prompt, None, false)];
        return;
      }
      var previousChatId := activeChatId;
      activeChatId := Some(chatId);
      resultResolvers := resultResolvers[chatId := id];
      log := Then(log, Took(chatId, prompt));
      suspended := suspended[id := Worker(chatId, Typing, prompt, previousChatId, false)];
    }

    method OnRefusalSent(id: nat)
      requires !exited && AtPc(Abs(), id, Refusing)
      modifies this, chatQueue
      ensures Abs() == Step(old(Abs()), RefusalSent(id))
    {
      var chatId := suspended[id].chat;
      suspended := suspended - {id};
      Continue(id, chatId);
    }

    method OnRefusalFailed(id: nat)
      requires !exited && AtPc(Abs(), id, Refusing)
      modifies this
      ensures Abs() == Step(old(Abs()), RefusalFailed(id))
    {
      suspended := suspended - {id};
      exited := true;
    }

    /** The clean-up behind the catch block of `processMessage`, then the rest of the queue. */
    method OnErrorReported(id: nat)
      requires !exited && AtPc(Abs(), id, Reporting)
      modifies this, chatQueue
      ensures Abs() == Step(old(Abs()), ErrorReported(id))
    {
      var w := suspended[id];
      suspended := suspended - {id};
      resultResolvers := resultResolvers - {w.chat};
      activeChatId := w.previous;
      log := Then(log, Left(w.chat, w.prompt, Failed));
      Continue(id, w.chat);
    }

    method OnResultAwaited(id: nat)
      requires !exited && AtPc(Abs(), id, Waiting) && suspended[id].signalled
      modifies this, chatQueue
      ensures Abs() == Step(old(Abs()), ResultAwaited(id))
    {
      var w := suspended[id];
      suspended := suspended - {id};
      activeChatId := w.previous;
      log := Then(log, Left(w.chat, w.prompt, Completed));
      Continue(id, w.chat);
    }

    /** The awaits of `processMessage`: the typing notice is shown, or the submission is accepted. */
    method OnAwaited(id: nat)
      requires !exited && (AtPc(Abs(), id, Typing) || AtPc(Abs(), id, Submitting))
      modifies this`suspended
      ensures Abs() == Parked(old(Abs()), id, if old(suspended[id].pc).Typing? then Submitting else Waiting)
    {
      var w := suspended[id];
      suspended := suspended[id := w.(pc := if w.pc.Typing? then Submitting else Waiting)];
    }

    /** One of them throws, and the catch clause reports it. */
    method OnTurnFailed(id: nat)
      requires !exited && (AtPc(Abs(), id, Typing) || AtPc(Abs(), id, Submitting))
      modifies this`suspended, this`log
      ensures Abs() == Step(old(Abs()), TurnFailed(id))
    {
      log := Then(log, Fault);
      suspended := suspended[id := suspended[id].(pc := Reporting)];
    }

    method OnTerminalEvent()
      requires !exited
      modifies this`handlers, this`log
      ensures Abs() == Step(old(Abs()), TerminalEvent)
    {
      if activeChatId.Some? {
        handlers := handlers + [activeChatId.value];
        log := Then(log, Terminal);
      }
    }

    /** The daemon connection is lost, and the process exits. */
    method OnDaemonLost()
      requires !exited
      modifies this`exited
      ensures Abs() == Step(old(Abs()), DaemonLost)
    {
      exited := true;
    }

    // ----- the event loop -----

    /** What `TelegramScheduler` and `TelegramTurns` prove of every run. */
    ghost predicate Valid()
      reads this, chatQueue
    {
      Inv(Abs()) && Resolvable(Abs())
    }

    /** Every callback, whenever it comes, keeps the invariant and is that step of the scheduler. */
    method Handle(e: Event)
      requires Valid() && Enabled(Abs(), e)
      modifies this, chatQueue
      ensures Valid()
      ensures Abs() == Step(old(Abs()), e)
    {
      StepKeepsInv(Abs(), e);
      StepKeepsResolvable(Abs(), e);
      match e
      case Inbound(chat, prompt) => OnMessage(chat, prompt);
      case RefusalSent(id) => OnRefusalSent(id);
      case RefusalFailed(id) => OnRefusalFailed(id);
      case TypingShown(id) => OnAwaited(id);
      case SubmitDone(id) => OnAwaited(id);
      case TurnFailed(id) => OnTurnFailed(id);
      case ErrorReported(id) => OnErrorReported(id);
      case ResultAwaited(id) => OnResultAwaited(id);
      case TerminalEvent => OnTerminalEvent();
      case HandlerDone(index) => OnHandlerDone(index);
      case DaemonLost => OnDaemonLost();
    }

    method OnHandlerDone(index: nat)
      requires !exited && index < |handlers|
      modifies this
      ensures Abs() == Step(old(Abs()), HandlerDone(index))
    {
      var chatId := handlers[index];
      handlers := handlers[..index] + handlers[index + 1..];
      if chatId in resultResolvers {
        var id := resultResolvers[chatId];
        resultResolvers := resultResolvers - {chatId};
        if id in suspended {
          suspended := suspended[id := suspended[id].(signalled := true)];
        }
      }
    }
  }
}
