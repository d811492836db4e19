/** The per-sender message queues of the WhatsApp gateway, with their processing marks and id cache. */
module MessageQueues {
  import opened Wrappers
  import opened DedupCache

  datatype QueueEntry = QueueEntry(sender: string, text: string, receivedAt: int)

  type Queues = map<string, seq<QueueEntry>>

  function QueueOf(queues: Queues, sender: string): seq<QueueEntry> {
    if sender in queues then queues[sender] else []
  }

  class MessageQueue {
    var queues: Queues
    var processing: set<string>
    var seenMsgIds: seq<Seen>

    constructor ()
      ensures queues == map[] && processing == {} && seenMsgIds == []
    {
      queues, processing, seenMsgIds := map[], {}, [];
    }

    method IsDuplicate(msgId: string, now: int) returns (duplicate: bool)
      modifies this`seenMsgIds
      ensures duplicate == Has(old(seenMsgIds), msgId)
      ensures seenMsgIds == Observed(old(seenMsgIds), msgId, now)
    {
      if Has(seenMsgIds, msgId) {
        return true;
      }
      seenMsgIds := seenMsgIds + [Seen(msgId, now)];
      if |seenMsgIds| > MSG_ID_CACHE_SIZE {
        ghost var grown := seenMsgIds;
        var entries := ByAge(seenMsgIds);
        var i := 0;
        while i < EVICTION_BATCH && i < |entries|
          invariant 0 <= i <= Batch(entries)
          invariant seenMsgIds == DeletedFirst(grown, entries, i)
        {
          seenMsgIds := Deleted(seenMsgIds, entries[i].id);
          i := i + 1;
        }
      }
      return false;
    }

    method Enqueue(sender: string, message: string, maxQueueSize: int, now: int) returns (accepted: bool)
      modifies this`queues
      ensures accepted == (|QueueOf(old(queues), sender)| < maxQueueSize)
      ensures queues ==
              if !accepted then old(queues)
              else old(queues)[sender := QueueOf(old(queues), sender) + [QueueEntry(sender, message, now)]]
    {
      var length := QueueLength(sender);
      if length >= maxQueueSize {
        return false;
      }
      var entry := QueueEntry(sender, message, now);
      assert [] + [entry] == [entry];
      if sender in queues {
        queues := queues[sender := queues[sender] + [entry]];
      } else {
        queues := queues[sender := [entry]];
      }
      return true;
    }

    method Dequeue(sender: string) returns (entry: Option<QueueEntry>)
      modifies this`queues
      ensures entry == if QueueOf(old(queues), sender) == [] then None else Some(QueueOf(old(queues), sender)[0])
      ensures queues == if entry.None? then old(queues) else old(queues)[sender := QueueOf(old(queues), sender)[1..]]
    {
      if sender !in queues || |queues[sender]| == 0 {
        return None;
      }
      entry := Some(queues[sender][0]);
      queues := queues[sender := queues[sender][1..]];
    }

    method IsProcessing(sender: string) returns (busy: bool)
      ensures busy <==> sender in processing
    {
      busy := sender in processing;
    }

    method StartProcessing(sender: string)
      modifies this`processing
      ensures processing == old(processing) + {sender}
    {
      processing := processing + {sender};
    }

    method FinishProcessing(sender: string)
      modifies this`processing
      ensures processing == old(processing) - {sender}
    {
      processing := processing - {sender};
    }

    method HasQueued(sender: string) returns (queued: bool)
      ensures queued <==> QueueOf(queues, sender) != []
    {
      queued := sender in queues && |queues[sender]| > 0;
    }

    method QueueLength(sender: string) returns (length: nat)
      ensures length == |QueueOf(queues, sender)|
    {
      length := if sender in queues then |queues[sender]| else 0;
    }
  }
}
