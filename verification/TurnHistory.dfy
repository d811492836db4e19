/**
 What an observer of a chat gateway sees: messages accepted, turns taking the
 single slot, streamed text, replies and the way each message left the gateway.
 Every property here is a function of that record alone, so it does not depend
 on how a scheduler stores its state.
 */
module TurnHistory {
  import opened Wrappers

  datatype Outcome = Completed | Failed | Refused

  datatype Observation<K, E> =
    | Accepted(who: K, entry: E)
    | Took(who: K, entry: E)
    | Heard(content: string)
    | Terminal
    | Fault
    | Replied(who: K, text: string)
    | Cleared(who: K)
    | Left(who: K, entry: E, outcome: Outcome)

  datatype History<K, E> = Start | Then(before: History<K, E>, what: Observation<K, E>)

  datatype Turn<K, E> = Turn(who: K, entry: E)

  /** The messages of `who` that entered its queue, in arrival order. */
  function AcceptedBy<K(==), E>(log: History<K, E>, who: K): seq<E> {
    match log
    case Start => []
    case Then(before, what) =>
      AcceptedBy(before, who) + (if what.Accepted? && what.who == who then [what.entry] else [])
  }

  /** The messages of `who` that are settled, in the order they were settled. */
  function LeftBy<K(==), E>(log: History<K, E>, who: K): seq<E> {
    match log
    case Start => []
    case Then(before, what) =>
      LeftBy(before, who) + (if what.Left? && what.who == who then [what.entry] else [])
  }

  /** The same with the way each of them left. */
  function SettledBy<K(==), E>(log: History<K, E>, who: K): seq<(E, Outcome)> {
    match log
    case Start => []
    case Then(before, what) =>
      SettledBy(before, who) + (if what.Left? && what.who == who then [(what.entry, what.outcome)] else [])
  }

  /** All replies, in order. */
  function RepliesIn<K, E>(log: History<K, E>): seq<(K, string)> {
    match log
    case Start => []
    case Then(before, what) => RepliesIn(before) + (if what.Replied? then [(what.who, what.text)] else [])
  }

  /** The turn that has taken the slot and has not given it back. */
  function Holder<K, E>(log: History<K, E>): Option<Turn<K, E>> {
    match log
    case Start => None
    case Then(before, what) =>
      match what
      case Took(who, entry) => Some(Turn(who, entry))
      case Left(_, _, outcome) => if outcome.Refused? then Holder(before) else None
      case _ => Holder(before)
  }

  /**
   Turns never overlap: the slot is only taken when free, it is only given back
   by the turn that holds it, and a message is refused only while the turn of
   somebody else holds it.
   */
  ghost predicate Exclusive<K, E>(log: History<K, E>) {
    match log
    case Start => true
    case Then(before, what) =>
      && Exclusive(before)
      && (what.Took? ==> Holder(before) == None)
      && (what.Left? && !what.outcome.Refused? ==> Holder(before) == Some(Turn(what.who, what.entry)))
      && (what.Left? && what.outcome.Refused? ==> Holder(before).Some? && Holder(before).value.who != what.who)
  }

  /** The streamed text since the slot was last taken. */
  function HeardSinceTook<K, E>(log: History<K, E>): string {
    match log
    case Start => ""
    case Then(before, what) =>
      match what
      case Took(_, _) => ""
      case Heard(content) => HeardSinceTook(before) + content
      case _ => HeardSinceTook(before)
  }

  /** The part of `HeardSinceTook` that an erasure during the same turn discarded. */
  function Lost<K(==), E>(log: History<K, E>): string {
    match log
    case Start => ""
    case Then(before, what) =>
      match what
      case Took(_, _) => ""
      case Cleared(who) =>
        if Holder(before).Some? && Holder(before).value.who == who then HeardSinceTook(before) else Lost(before)
      case _ => Lost(before)
  }

  /** The streamed text since the slot was taken or the accumulator of its holder was last erased. */
  function Kept<K(==), E>(log: History<K, E>): string {
    match log
    case Start => ""
    case Then(before, what) =>
      match what
      case Took(_, _) => ""
      case Heard(content) => Kept(before) + content
      case Cleared(who) =>
        if Holder(before).Some? && Holder(before).value.who == who then "" else Kept(before)
      case _ => Kept(before)
  }

  lemma {:induction false} LostAndKept<K, E>(log: History<K, E>)
    ensures HeardSinceTook(log) == Lost(log) + Kept(log)
  {
    match log
    case Start =>
    case Then(before, what) => LostAndKept(before);
  }

  /** Whether the current turn has already seen its result, its error or its failed submission. */
  predicate Ended<K, E>(log: History<K, E>) {
    match log
    case Start => false
    case Then(before, what) =>
      match what
      case Took(_, _) => false
      case Terminal => true
      case Fault => true
      case _ => Ended(before)
  }

  /**
   The assumption on the daemon: a turn ends once, by a terminal event or by a
   failed submission, never by both and never twice.
   */
  ghost predicate EndsOnce<K, E>(log: History<K, E>) {
    match log
    case Start => true
    case Then(before, what) =>
      EndsOnce(before) && (what.Terminal? || what.Fault? ==> !Ended(before))
  }

  /** Every reply went to the holder of the slot and carries `Kept` as its text. */
  ghost predicate RepliesKept<K, E>(log: History<K, E>) {
    match log
    case Start => true
    case Then(before, what) =>
      && RepliesKept(before)
      && (what.Replied? ==>
            && Holder(before).Some?
            && Holder(before).value.who == what.who
            && what.text == Kept(before))
  }

  /** Every reply is exactly the text streamed since its turn took the slot. */
  ghost predicate RepliesFaithful<K, E>(log: History<K, E>) {
    match log
    case Start => true
    case Then(before, what) =>
      && RepliesFaithful(before)
      && (what.Replied? ==>
            && Holder(before).Some?
            && Holder(before).value.who == what.who
            && what.text == HeardSinceTook(before))
  }

  /** No reply was sent after part of its turn's text had been erased. */
  ghost predicate NothingLost<K, E>(log: History<K, E>) {
    match log
    case Start => true
    case Then(before, what) => NothingLost(before) && (what.Replied? ==> Lost(before) == "")
  }

  /** A turn is reported completed only after it ended. */
  ghost predicate CompletedAfterEnd<K, E>(log: History<K, E>) {
    match log
    case Start => true
    case Then(before, what) =>
      CompletedAfterEnd(before) && (what.Left? && what.outcome.Completed? ==> Ended(before))
  }

  /** What a result without text leaves in the record: the empty reply, its end, and the erasure of its handler. */
  function EmptyResult<K, E>(log: History<K, E>, who: K): History<K, E> {
    Then(Then(Then(log, Replied(who, "")), Terminal), Cleared(who))
  }

  lemma EmptyResultEnds<K, E>(log: History<K, E>, who: K)
    ensures var l := EmptyResult(log, who);
            && Holder(l) == Holder(log) && Ended(l)
            && (EndsOnce(l) <==> EndsOnce(log) && !Ended(log))
            && (NothingLost(l) <==> NothingLost(log) && Lost(log) == "")
            && (CompletedAfterEnd(l) <==> CompletedAfterEnd(log))
  {
    var replied: History<K, E> := Then(log, Replied(who, ""));
    var ended := Then(replied, Terminal);
    assert Holder(replied) == Holder(log) && Holder(ended) == Holder(log);
    assert Ended(replied) == Ended(log);
    assert NothingLost(ended) <==> NothingLost(replied);
    assert CompletedAfterEnd(ended) <==> CompletedAfterEnd(replied);
    assert EndsOnce(ended) <==> EndsOnce(replied) && !Ended(replied);
  }

  lemma EmptyResultIsUnfaithful<K, E>(log: History<K, E>, who: K)
    requires HeardSinceTook(log) != ""
    ensures !RepliesFaithful(EmptyResult(log, who))
  {
    var replied: History<K, E> := Then(log, Replied(who, ""));
    assert !RepliesFaithful(replied);
    assert !RepliesFaithful(Then(replied, Terminal));
  }

  lemma {:induction false} FaithfulIffNothingLost<K, E>(log: History<K, E>)
    requires RepliesKept(log)
    ensures RepliesFaithful(log) <==> NothingLost(log)
  {
    match log
    case Start =>
    case Then(before, what) =>
      FaithfulIffNothingLost(before);
      LostAndKept(before);
      assert |HeardSinceTook(before)| == |Lost(before)| + |Kept(before)|;
  }
}
