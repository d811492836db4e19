/** The IPC client in the form its source has: one object with a buffer, a request table and connection flags. */
module IpcClients {
  import opened Wrappers
  import opened Sequences
  import opened JsStrings
  import opened Framing
  import opened RequestTable

  /**
   What `JSON.parse` makes of a line, as far as routing looks at it. `Primitive` is
   valid JSON that is not an object, on which the test for an `id` member throws.
   */
  datatype Message =
    | Malformed
    | Primitive
    | Reply(id: Id, isError: bool)
    | Notification(name: string)
    | Unroutable

  function AfterMessage(st: State, message: Message): State {
    if message.Reply? then AfterResponse(st, message.id, message.isError) else st
  }

  function AfterLines(st: State, lines: seq<string>, parse: string -> Message): State {
    if lines == [] then st
    else AfterMessage(AfterLines(st, lines[..|lines| - 1], parse), parse(lines[|lines| - 1]))
  }

  lemma {:induction false} LinesKeepInv(st: State, lines: seq<string>, parse: string -> Message)
    requires Inv(st)
    ensures Inv(AfterLines(st, lines, parse))
  {
    if lines != [] {
      LinesKeepInv(st, lines[..|lines| - 1], parse);
      var message := parse(lines[|lines| - 1]);
      if message.Reply? {
        StepKeepsInv(AfterLines(st, lines[..|lines| - 1], parse), Response(message.id, message.isError));
      }
    }
  }

  /** The responses among the lines, in order. */
  function Responses(lines: seq<string>, parse: string -> Message): seq<Event> {
    if lines == [] then []
    else
      var message := parse(lines[|lines| - 1]);
      Responses(lines[..|lines| - 1], parse)
      + (if message.Reply? then [Response(message.id, message.isError)] else [])
  }

  /** What the lines do to the table is what their responses do as events of a run; no other line does anything. */
  lemma {:induction false} LinesAreResponses(st: State, lines: seq<string>, parse: string -> Message)
    ensures AfterLines(st, lines, parse) == RunFrom(st, Responses(lines, parse))
  {
    if lines != [] {
      var front, message := lines[..|lines| - 1], parse(lines[|lines| - 1]);
      LinesAreResponses(st, front, parse);
      var before := Responses(front, parse);
      if message.Reply? {
        assert (before + [Response(message.id, message.isError)])[..|before|] == before;
      } else {
        assert before + [] == before;
      }
    }
  }

  /** The lines handed to `handleMessage`, the last one on the outside. */
  datatype Trace = Nothing | Line(before: Trace, line: string)

  function Traced(trace: Trace, lines: seq<string>): Trace {
    if lines == [] then trace else Line(Traced(trace, lines[..|lines| - 1]), lines[|lines| - 1])
  }

  function Throws(parse: string -> Message): string -> bool {
    line => parse(line).Primitive?
  }

  /** The delivery goes on with `left` behind the lines handed on before. */
  predicate Goes(whole: Delivery, done: seq<string>, left: Delivery) {
    whole == Delivery(done + left.lines, left.rest, left.threw)
  }

  /** What one more line, which is dropped when blank and may throw, adds to them. */
  lemma OneLine(whole: Delivery, done: seq<string>, line: string, rest: string, tail: Delivery, throws: string -> bool)
    requires Goes(whole, done, Handle(line, rest, tail, throws))
    ensures if line == "" then Goes(whole, done, tail)
            else if throws(line) then whole == Delivery(done + [line], rest, true)
            else Goes(whole, done + [line], tail)
  {
    Regroup(done, [line], tail.lines);
  }

  class IpcClient {
    const parse: string -> Message
    var connections: nat
    var socket: Option<nat>
    var disconnectHandled: bool
    var buffer: string
    var nextId: int
    var pendingRequests: seq<Pending>
    var timers: set<int>
    ghost var calledBack: set<nat>
    ghost var closed: set<nat>
    ghost var log: seq<Settlement>
    ghost var handed: Trace

    ghost function Table(): State
      reads this
    {
      State(connections, calledBack, closed, socket, disconnectHandled, nextId, pendingRequests, timers, log)
    }

    /** What `RequestTable` proves of every run. */
    ghost predicate Valid()
      reads this
    {
      Inv(Table())
    }

    constructor (parse: string -> Message)
      ensures Valid()
      ensures Table() == Initial() && buffer == "" && handed == Nothing
    {
      this.parse := parse;
      connections, socket, disconnectHandled, buffer, nextId := 0, None, true, "", 1;
      pendingRequests, timers := [], {};
      calledBack, closed, log, handed := {}, {}, [], Nothing;
    }

    /** The socket created, by its number, stands for the object that its listeners hold; what is buffered stays. */
    method Connect() returns (connection: nat)
      requires Valid()
      modifies this
      ensures Valid()
      ensures Table() == Step(old(Table()), Event.Connect) && connection == connections
      ensures buffer == old(buffer) && handed == old(handed)
    {
      StepKeepsInv(Table(), Event.Connect);
      connections := connections + 1;
      connection := connections;
      disconnectHandled := false;
    }

    method OnConnected(connection: nat)
      requires Enabled(Table(), Connected(connection))
      requires Valid()
      modifies this
      ensures Valid()
      ensures Table() == Step(old(Table()), Connected(connection))
      ensures buffer == old(buffer) && handed == old(handed)
    {
      StepKeepsInv(Table(), Connected(connection));
      calledBack := calledBack + {connection};
      socket := Some(connection);
    }

    /**
     When the request cannot be serialized its promise is rejected, but its entry and its timer
     are in place already.
     */
    method Request(timeoutMs: int, serializable: bool) returns (r: Result<int, string>)
      requires Valid()
      modifies this
      ensures Valid()
      ensures Table() == Step(old(Table()), Event.Request(timeoutMs, serializable))
      ensures r == if old(socket).None? then Failure("Not connected")
                   else if serializable then Success(old(nextId))
                   else Failure("Not serializable")
      ensures buffer == old(buffer) && handed == old(handed)
    {
      StepKeepsInv(Table(), Event.Request(timeoutMs, serializable));
      if socket.None? {
        return Failure("Not connected");
      }
      var id := nextId;
      nextId := nextId + 1;
      if timeoutMs > 0 {
        timers := timers + {id};
      }
      pendingRequests := pendingRequests + [Pending(id, timeoutMs > 0, serializable)];
      if !serializable {
        log := log + [Settlement(id, Unsent)];
        return Failure("Not serializable");
      }
      return Success(id);
    }

    method OnTimer(id: int)
      requires id in timers
      requires Valid()
      modifies this
      ensures Valid()
      ensures Table() == Step(old(Table()), TimerFires(id))
      ensures buffer == old(buffer) && handed == old(handed)
    {
      StepKeepsInv(Table(), TimerFires(id));
      if Awaited(pendingRequests, id) {
        log := log + [Settlement(id, TimedOut)];
      }
      timers := timers - {id};
      pendingRequests := Without(pendingRequests, id);
    }

    /** The test and the two slices of the loop of `handleData`; `tail` is what the rest will give. */
    method NextLine() returns (found: bool, line: string, ghost tail: Delivery)
      modifies this`buffer
      ensures tail == Drain(buffer, Throws(parse))
      ensures found ==> Drain(old(buffer), Throws(parse)) == Handle(line, buffer, tail, Throws(parse))
      ensures found ==> |buffer| < |old(buffer)|
      ensures !found ==> buffer == old(buffer) && tail == Delivery([], buffer, false)
    {
      var newlineIdx := NewlineIn(buffer);
      found, line := newlineIdx != -1, "";
      if found {
        line := Trim(buffer[..newlineIdx]);
        buffer := buffer[newlineIdx + 1..];
      }
      tail := Drain(buffer, Throws(parse));
    }

    /** The loop of `handleData`; an exception from `handleMessage` ends it with the rest still buffered. */
    method HandleData(data: string) returns (threw: bool)
      requires Valid()
      modifies this`buffer, this`pendingRequests, this`timers, this`log, this`handed
      ensures Valid()
      ensures var delivery := Drain(old(buffer) + data, Throws(parse));
              && buffer == delivery.rest && threw == delivery.threw
              && handed == Traced(old(handed), delivery.lines)
              && Table() == AfterLines(old(Table()), delivery.lines, parse)
    {
      LinesKeepInv(Table(), Drain(buffer + data, Throws(parse)).lines, parse);
      buffer := buffer + data;
      ghost var whole := Drain(buffer, Throws(parse));
      ghost var done: seq<string> := [];
      threw := false;
      var found, line, tail := NextLine();
      while found
        invariant handed == Traced(old(handed), done) && Table() == AfterLines(old(Table()), done, parse)
        invariant tail == Drain(buffer, Throws(parse))
        invariant Goes(whole, done,
                       if found then Handle(line, buffer, tail, Throws(parse)) else Delivery([], buffer, false))
        decreases found, |buffer|
      {
        OneLine(whole, done, line, buffer, tail, Throws(parse));
        if |line| > 0 {
          threw := HandleMessage(line);
          AppendLine(old(Table()), old(handed), done, line);
          done := done + [line];
          if threw {
            return;
          }
        }
        found, line, tail := NextLine();
      }
      assert done + [] == done;
    }

    lemma AppendLine(st: State, trace: Trace, done: seq<string>, line: string)
      ensures AfterLines(st, done + [line], parse) == AfterMessage(AfterLines(st, done, parse), parse(line))
      ensures Traced(trace, done + [line]) == Line(Traced(trace, done), line)
    {
      assert (done + [line])[..|done|] == done;
    }

    method HandleMessage(json: string) returns (threw: bool)
      modifies this`pendingRequests, this`timers, this`log, this`handed
      ensures handed == Line(old(handed), json)
      ensures threw == Throws(parse)(json)
      ensures Table() == AfterMessage(old(Table()), parse(json))
    {
      handed := Line(handed, json);
      var parsed := parse(json);
      match parsed {
        case Malformed => return false;
        case Primitive => return true;
        case Reply(id, isError) =>
          if id.Number? && Has(pendingRequests, id.value) {
            if Awaited(pendingRequests, id.value) {
              log := log + [Settlement(id.value, if isError then Rejected else Resolved)];
            }
            pendingRequests := Without(pendingRequests, id.value);
            timers := timers - {id.value};
          }
          return false;
        case Notification(_) => return false;
        case Unroutable => return false;
      }
    }

    method Disconnect()
      requires Valid()
      modifies this
      ensures Valid()
      ensures Table() == Step(old(Table()), Event.Disconnect)
      ensures buffer == old(buffer) && handed == old(handed)
    {
      StepKeepsInv(Table(), Event.Disconnect);
      HandleDisconnect();
      socket := None;
    }

    method OnClose(connection: nat)
      requires Enabled(Table(), Close(connection))
      requires Valid()
      modifies this
      ensures Valid()
      ensures Table() == Step(old(Table()), Close(connection))
      ensures buffer == old(buffer) && handed == old(handed)
    {
      StepKeepsInv(Table(), Close(connection));
      closed := closed + {connection};
      socket := None;
      HandleDisconnect();
    }

    method HandleDisconnect()
      modifies this`disconnectHandled, this`pendingRequests, this`timers, this`log
      ensures Table() == RequestTable.HandleDisconnect(old(Table()))
    {
      if disconnectHandled {
        return;
      }
      disconnectHandled := true;
      ghost var before := log;
      for i := 0 to |pendingRequests|
        invariant disconnectHandled && pendingRequests == old(pendingRequests)
        invariant timers == old(timers) - PendingIds(pendingRequests[..i])
        invariant log == before + AllDisconnected(pendingRequests[..i])
      {
        timers := timers - {pendingRequests[i].id};
        if pendingRequests[i].sent {
          log := log + [Settlement(pendingRequests[i].id, Disconnected)];
        }
        DisconnectOneMore(pendingRequests, i);
      }
      assert pendingRequests[..|pendingRequests|] == pendingRequests;
      pendingRequests := [];
    }
  }
}
