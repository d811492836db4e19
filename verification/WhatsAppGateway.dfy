/**
 The WhatsApp gateway in the form its source has: fields changed in place by the
 inbound handler, by `processQueue` and by the stream handler. An async call that
 is suspended at an await is an entry of `suspended` or of `handlers`; every
 method runs from one await to the next.
 */
module WhatsAppGateways {
  import opened Wrappers
  import opened TurnHistory
  import opened SenderTracking
  import opened MessageQueues
  import opened TurnScheduler

  class WhatsAppGateway {
    const messageQueue: MessageQueue
    const senderTracker: SenderTracker
    var activeSender: Option<string>
    var processingFlags: set<string>
    var connected: bool
    var suspended: map<nat, Worker>
    var started: nat
    var handlers: seq<string>
    ghost var log: Log

    ghost function Abs(): State
      reads this, messageQueue, senderTracker
    {
      State(messageQueue.queues, messageQueue.processing, senderTracker.senders, activeSender, processingFlags,
            connected, suspended, started, handlers, log)
    }

    constructor ()
      ensures fresh(messageQueue) && fresh(senderTracker)
      ensures Valid() && Abs() == Initial()
    {
      messageQueue := new MessageQueue();
      senderTracker := new SenderTracker();
      activeSender, processingFlags, connected := None, {}, false;
      suspended, started, handlers, log := map[], 0, [], Start;
      new;
      RunKeepsInv([]);
    }

    // ----- inbound -----

    method RegisterSender(phone: string, jid: string, isGroup: bool)
      modifies senderTracker
      ensures Abs() == Step(old(Abs()), Register(phone, jid, isGroup))
    {
      senderTracker.RegisterSender(phone, jid, isGroup);
    }

    /** The end of the inbound handler for a message of a registered sender; `media` skips the test of a full queue. */
    method Deliver(sender: string, text: string, now: int, maxQueueSize: int, media: bool)
      requires sender in senderTracker.senders
      modifies this, messageQueue, senderTracker
      ensures Abs() == Step(old(Abs()), Inbound(QueueEntry(sender, text, now), maxQueueSize, media))
    {
      var enqueued := messageQueue.Enqueue(sender, text, maxQueueSize, now);
      if enqueued {
        log := Then(log, Accepted(sender, QueueEntry(sender, text, now)));
      }
      if !enqueued && !media {
        return;
      }
      var busy := messageQueue.IsProcessing(sender);
      if !busy {
        ProcessQueue(sender);
      }
    }

    // ----- processQueue -----

    method ProcessQueue(sender: string)
      modifies this, messageQueue, senderTracker
      ensures Abs() == Drain(Started(old(Abs()), sender), old(started), sender)
    {
      messageQueue.StartProcessing(sender);
      var id := started;
      started := started + 1;
      Continue(id, sender);
    }

    /** The message takes the slot; it is submitted when the daemon is connected, and awaited in any case. */
    method TakeSlot(id: nat, sender: string, entry: QueueEntry)
      modifies this, senderTracker
      ensures Abs() == Take(old(Abs()), id, sender, entry)
    {
      senderTracker.ClearAccumulator(sender);
      activeSender := Some(sender);
      processingFlags := processingFlags + {sender};
      log := Then(log, Took(sender, entry));
      suspended := suspended[id := Worker(sender, if connected then Submitting else Waiting, entry)];
    }

    /** The loop of `processQueue`, from its test to the next await or to its end. */
    method Continue(id: nat, sender: string)
      modifies this, messageQueue, senderTracker
      ensures Abs() == Drain(old(Abs()), id, sender)
    {
      var queued := messageQueue.HasQueued(sender);
      while queued
        invariant queued <==> QueueOf(messageQueue.queues, sender) != []
        invariant Drain(Abs(), id, sender) == Drain(old(Abs()), id, sender)
        decreases |QueueOf(messageQueue.queues, sender)|
      {
        var next := messageQueue.Dequeue(sender);
        if next.None? {
          break;
        }
        var entry := next.value;
        if activeSender != None && activeSender != Some(sender) {
          log := Then(log, Left(sender, entry, Refused));
          var busyJid := senderTracker.GetJid(sender);
          if busyJid.Some? {
            suspended := suspended[id := Worker(sender, Refusing, entry)];
            return;
          }
        } else {
          TakeSlot(id, sender, entry);
          return;
        }
        queued := messageQueue.HasQueued(sender);
      }
      messageQueue.FinishProcessing(sender);
    }

    method OnRefusalSent(id: nat)
      requires AtPc(Abs(), id, Refusing)
      modifies this, messageQueue, senderTracker
      ensures Abs() == Step(old(Abs()), RefusalSent(id))
    {
      var sender := suspended[id].sender;
      suspended := suspended - {id};
      Continue(id, sender);
    }

    /** `waitForResult`: the first test and every later one, 100 ms apart. */
    method CheckProcessingFlag(id: nat)
      requires AtPc(Abs(), id, Submitting) || AtPc(Abs(), id, Waiting)
      modifies this`suspended
      ensures Abs() == CheckFlag(old(Abs()), id)
    {
      var w := suspended[id];
      if w.sender !in processingFlags {
        suspended := suspended[id := w.(pc := Releasing)];
      } else {
        suspended := suspended[id := w.(pc := Waiting)];
      }
    }

    method OnSubmitFailed(id: nat)
      requires AtPc(Abs(), id, Submitting)
      modifies this, messageQueue, senderTracker
      ensures Abs() == Step(old(Abs()), SubmitFailed(id))
    {
      var w := suspended[id];
      log := Then(log, Fault);
      var jid := senderTracker.GetJid(w.sender);
      if jid.Some? {
        suspended := suspended[id := w.(pc := Reporting)];
      } else {
        FailTurn(id);
      }
    }

    method FailTurn(id: nat)
      requires id in suspended
      modifies this, messageQueue, senderTracker
      ensures Abs() == AfterFailure(old(Abs()), id)
    {
      var w := suspended[id];
      suspended := suspended - {id};
      processingFlags := processingFlags - {w.sender};
      activeSender := None;
      log := Then(log, Left(w.sender, w.entry, Failed));
      Continue(id, w.sender);
    }

    method OnResultAwaited(id: nat)
      requires AtPc(Abs(), id, Releasing)
      modifies this, messageQueue, senderTracker
      ensures Abs() == Step(old(Abs()), Release(id))
    {
      var w := suspended[id];
      suspended := suspended - {id};
      activeSender := None;
      log := Then(log, Left(w.sender, w.entry, Completed));
      Continue(id, w.sender);
    }

    // ----- stream/event -----

    method OnAssistantChunk(content: string)
      modifies this`log, senderTracker
      ensures Abs() == Step(old(Abs()), AssistantChunk(content))
    {
      if activeSender.Some? {
        senderTracker.Accumulate(activeSender.value, content);
        log := Then(log, Heard(content));
      }
    }

    /** The text that the handler of a result will send, read before its first await, if it has one. */
    method OnResult() returns (accumulated: string)
      modifies this, senderTracker
      ensures Abs() == Step(old(Abs()), ResultEvent)
      ensures accumulated ==
              old(if activeSender.Some? then Accumulated(senderTracker.senders, activeSender.value) else "")
    {
      accumulated := "";
      if activeSender.Some? {
        var sender := activeSender.value;
        accumulated := senderTracker.GetAccumulated(sender);
        log := Then(Then(log, Replied(sender, accumulated)), Terminal);
        if |accumulated| > 0 {
          handlers := handlers + [sender];
        } else {
          EndHandler(sender);
        }
      }
    }

    method OnError()
      modifies this, senderTracker
      ensures Abs() == Step(old(Abs()), ErrorEvent)
    {
      if activeSender.Some? {
        var sender := activeSender.value;
        log := Then(log, Terminal);
        var jid := senderTracker.GetJid(sender);
        if jid.Some? {
          handlers := handlers + [sender];
        } else {
          EndHandler(sender);
        }
      }
    }

    /** The last two statements of a result or error handler. */
    method EndHandler(sender: string)
      modifies this`processingFlags, this`log, senderTracker
      ensures Abs() == Ends(old(Abs()), sender)
    {
      senderTracker.ClearAccumulator(sender);
      processingFlags := processingFlags - {sender};
      log := Then(log, Cleared(sender));
    }

    method OnHandlerDone(index: nat)
      requires index < |handlers|
      modifies this, senderTracker
      ensures Abs() == Step(old(Abs()), HandlerDone(index))
    {
      var sender := handlers[index];
      handlers := handlers[..index] + handlers[index + 1..];
      EndHandler(sender);
    }

    method OnConnection(up: bool)
      modifies this`connected
      ensures Abs() == Step(old(Abs()), Connection(up))
    {
      connected := up;
    }

    // ----- the event loop -----

    /** What `TurnScheduler` proves of every run. */
    ghost predicate Valid()
      reads this, messageQueue, senderTracker
    {
      Inv(Abs())
    }

    /** Every callback, whenever it comes, keeps the invariant and is that step of the scheduler. */
    method Handle(e: Event)
      requires Valid() && Enabled(Abs(), e)
      modifies this, messageQueue, senderTracker
      ensures Valid()
      ensures Abs() == Step(old(Abs()), e)
    {
      StepKeepsInv(Abs(), e);
      match e
      case Register(phone, jid, isGroup) => RegisterSender(phone, jid, isGroup);
      case Inbound(entry, maxQueueSize, media) =>
        Deliver(entry.sender, entry.text, entry.receivedAt, maxQueueSize, media);
      case Connection(up) => OnConnection(up);
      case RefusalSent(id) => OnRefusalSent(id);
      case SubmitDone(id) => CheckProcessingFlag(id);
      case SubmitFailed(id) => OnSubmitFailed(id);
      case NoticeSent(id) => FailTurn(id);
      case Poll(id) => CheckProcessingFlag(id);
      case Release(id) => OnResultAwaited(id);
      case AssistantChunk(content) => OnAssistantChunk(content);
      case ResultEvent => var _ := OnResult();
      case ErrorEvent => OnError();
      case HandlerDone(index) => OnHandlerDone(index);
    }
  }
}
