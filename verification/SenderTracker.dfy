/**
 Per-sender state of the WhatsApp gateway: reply address, accumulated response
 text and message count.
 */
module SenderTracking {
  import opened Wrappers

  datatype SenderState = SenderState(jid: string, isGroup: bool, responseAccumulator: string, messageCount: nat)

  type Senders = map<string, SenderState>

  function Registered(senders: Senders, phone: string, jid: string, isGroup: bool): Senders {
    if phone in senders then
      senders[phone := senders[phone].(jid := jid, isGroup := isGroup, messageCount := senders[phone].messageCount + 1)]
    else
      senders[phone := SenderState(jid, isGroup, "", 1)]
  }

  function WithAccumulator(senders: Senders, phone: string, text: string): (r: Senders)
    ensures r.Keys == senders.Keys
  {
    if phone in senders then senders[phone := senders[phone].(responseAccumulator := text)] else senders
  }

  function Accumulated(senders: Senders, phone: string): string {
    if phone in senders then senders[phone].responseAccumulator else ""
  }

  class SenderTracker {
    var senders: Senders

    constructor ()
      ensures senders == map[]
    {
      senders := map[];
    }

    method RegisterSender(phone: string, jid: string, isGroup: bool)
      modifies this
      ensures senders == Registered(old(senders), phone, jid, isGroup)
    {
      if phone in senders {
        var existing := senders[phone];
        senders := senders[phone := existing.(jid := jid, isGroup := isGroup,
                                              messageCount := existing.messageCount + 1)];
      } else {
        senders := senders[phone := SenderState(jid, isGroup, "", 1)];
      }
    }

    method GetJid(phone: string) returns (jid: Option<string>)
      ensures jid == if phone in senders then Some(senders[phone].jid) else None
    {
      jid := if phone in senders then Some(senders[phone].jid) else None;
    }

    method Accumulate(phone: string, content: string)
      modifies this
      ensures senders == WithAccumulator(old(senders), phone, Accumulated(old(senders), phone) + content)
    {
      if phone in senders {
        var state := senders[phone];
        senders := senders[phone := state.(responseAccumulator := state.responseAccumulator + content)];
      }
    }

    method GetAccumulated(phone: string) returns (text: string)
      ensures text == Accumulated(senders, phone)
    {
      text := if phone in senders then senders[phone].responseAccumulator else "";
    }

    method ClearAccumulator(phone: string)
      modifies this
      ensures senders == WithAccumulator(old(senders), phone, "")
    {
      if phone in senders {
        senders := senders[phone := senders[phone].(responseAccumulator := "")];
      }
    }
  }
}
