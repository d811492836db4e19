/** Newline-delimited framing of the IPC client: buffering, splitting, trimming and dispatch of complete lines. */
module Framing {

  import opened JsStrings
  import opened Sequences

  /** The position of the first newline, or -1. */
  function NewlineIn(s: string): (i: int)
    ensures -1 <= i < |s|
    ensures i == -1 ==> '\n' !in s
    ensures i >= 0 ==> s[i] == '\n' && '\n' !in s[..i]
  {
    if s == [] then -1
    else if s[0] == '\n' then 0
    else
      var i := NewlineIn(s[1..]);
      if i == -1 then -1
      else
        assert s[..i + 1] == [s[0]] + s[1..][..i];
        i + 1
  }

  function Concat(parts: seq<string>): string {
    if parts == [] then "" else parts[0] + Concat(parts[1..])
  }

  /** The lines handed on, the text left in the buffer, and whether handing on the last line threw. */
  datatype Delivery = Delivery(lines: seq<string>, rest: string, threw: bool)

  /** A line is dropped when blank, and when handing it on throws the loop ends before `tail`. */
  function Handle(line: string, rest: string, tail: Delivery, throws: string -> bool): Delivery {
    if line == "" then tail
    else if throws(line) then Delivery([line], rest, true)
    else Delivery([line] + tail.lines, tail.rest, tail.threw)
  }

  /** The loop of `handleData` on a buffer; a line that throws leaves what follows it in the buffer. */
  function Drain(buffer: string, throws: string -> bool): Delivery
    decreases |buffer|
  {
    var i := NewlineIn(buffer);
    if i == -1 then Delivery([], buffer, false)
    else Handle(Trim(buffer[..i]), buffer[i + 1..], Drain(buffer[i + 1..], throws), throws)
  }

  /** Successive deliveries: all lines handed on, and the final buffer. */
  function FeedAll(buffer: string, chunks: seq<string>, throws: string -> bool): (seq<string>, string)
    decreases |chunks|
  {
    if chunks == [] then
      ([], buffer)
    else
      var first := Drain(buffer + chunks[0], throws);
      var others := FeedAll(first.rest, chunks[1..], throws);
      (first.lines + others.0, others.1)
  }

  // ----- one line at a time -----

  lemma {:induction false} NewlineAfter(line: string, rest: string)
    requires '\n' !in line
    ensures NewlineIn(line + "\n" + rest) == |line|
  {
    var text := line + "\n" + rest;
    if line == "" {
      assert text[0] == '\n';
    } else {
      assert text[0] == line[0] && line[0] in line;
      assert text[1..] == line[1..] + "\n" + rest;
      NewlineAfter(line[1..], rest);
    }
  }

  lemma DrainLine(line: string, rest: string, throws: string -> bool)
    requires '\n' !in line
    ensures Drain(line + "\n" + rest, throws) == Handle(Trim(line), rest, Drain(rest, throws), throws)
  {
    NewlineAfter(line, rest);
    var text := line + "\n" + rest;
    assert text[..|line|] == line && text[|line| + 1..] == rest;
  }

  lemma FirstLine(text: string) returns (line: string, rest: string)
    requires '\n' in text
    ensures text == line + "\n" + rest && '\n' !in line
  {
    var i := NewlineIn(text);
    line, rest := text[..i], text[i + 1..];
  }

  lemma NoLine(text: string, throws: string -> bool)
    requires '\n' !in text
    ensures Drain(text, throws) == Delivery([], text, false)
  {
  }

  // ----- cutting a text in two -----

  /** The delivery of a text whose front, delivered first, gave `first`. */
  function Joined(first: Delivery, b: string, second: Delivery): Delivery {
    if first.threw then Delivery(first.lines, first.rest + b, true)
    else Delivery(first.lines + second.lines, second.rest, second.threw)
  }

  lemma {:induction false} DrainOfTwo(a: string, b: string, throws: string -> bool)
    ensures Drain(a + b, throws) == Joined(Drain(a, throws), b, Drain(Drain(a, throws).rest + b, throws))
    decreases |a|
  {
    if '\n' !in a {
      NoLine(a, throws);
    } else {
      var line, rest := FirstLine(a);
      DrainLineOfTwo(line, rest, b, throws);
      var first := Drain(rest, throws);
      if Trim(line) == "" || !throws(Trim(line)) {
        DrainOfTwo(rest, b, throws);
        HandleJoined(Trim(line), rest, b, first, Drain(first.rest + b, throws), throws);
        assert Drain(a, throws).rest == first.rest;
      }
    }
  }

  lemma DrainLineOfTwo(line: string, rest: string, b: string, throws: string -> bool)
    requires '\n' !in line
    ensures Drain(line + "\n" + rest, throws) == Handle(Trim(line), rest, Drain(rest, throws), throws)
    ensures Drain(line + "\n" + rest + b, throws) == Handle(Trim(line), rest + b, Drain(rest + b, throws), throws)
  {
    Behind(line, rest, b);
    DrainLine(line, rest, throws);
    DrainLine(line, rest + b, throws);
  }

  lemma HandleJoined(line: string, rest: string, b: string, first: Delivery, second: Delivery, throws: string -> bool)
    requires line == "" || !throws(line)
    ensures Handle(line, rest + b, Joined(first, b, second), throws)
        == Joined(Handle(line, rest, first, throws), b, second)
  {
    Regroup([line], first.lines, second.lines);
  }

  lemma {:induction false} RestIsLastLine(text: string, throws: string -> bool)
    requires !Drain(text, throws).threw
    ensures '\n' !in Drain(text, throws).rest
    decreases |text|
  {
    if '\n' in text {
      var line, rest := FirstLine(text);
      DrainLine(line, rest, throws);
      RestIsLastLine(rest, throws);
    }
  }

  // ----- chunking -----

  /** `line` throws when it is handed on, and a complete line is behind it. */
  predicate ThrowingLine(line: string, behind: string, throws: string -> bool) {
    '\n' !in line && Trim(line) != "" && throws(Trim(line)) && '\n' in behind
  }

  /** Nothing, or complete lines. */
  predicate CompleteLines(front: string) {
    front == "" || front[|front| - 1] == '\n'
  }

  /** Some line of `text` throws and is not the last complete one. */
  ghost predicate ThrowsEarly(text: string, throws: string -> bool) {
    exists front, line, behind ::
      CompleteLines(front) && ThrowingLine(line, behind, throws) && text == front + (line + "\n" + behind)
  }

  /** The same, read off one whole delivery: it throws and leaves a complete line behind. */
  predicate StopsEarly(text: string, throws: string -> bool) {
    Drain(text, throws).threw && '\n' in Drain(text, throws).rest
  }

  lemma CompleteLinesRest(front: string, first: string, rest: string)
    requires front == first + "\n" + rest && CompleteLines(front)
    ensures CompleteLines(rest)
  {
  }

  lemma Behind(first: string, rest: string, tail: string)
    ensures first + "\n" + rest + tail == first + "\n" + (rest + tail)
  {
    Regroup(first + "\n", rest, tail);
  }

  lemma {:induction false} StopsBehindLines(front: string, tail: string, throws: string -> bool)
    requires CompleteLines(front) && StopsEarly(tail, throws)
    ensures StopsEarly(front + tail, throws)
    decreases |front|
  {
    if front == "" {
      assert front + tail == tail;
    } else {
      var first, rest := FirstLine(front);
      CompleteLinesRest(front, first, rest);
      StopsBehindLines(rest, tail, throws);
      LineThatThrew(rest + tail, throws);
      Behind(first, rest, tail);
      DrainLine(first, rest + tail, throws);
    }
  }

  lemma {:induction false} StoppedByALine(text: string, throws: string -> bool)
    returns (front: string, line: string, behind: string)
    requires StopsEarly(text, throws)
    ensures CompleteLines(front) && ThrowingLine(line, behind, throws) && text == front + (line + "\n" + behind)
    decreases |text|
  {
    LineThatThrew(text, throws);
    var first, rest := FirstLine(text);
    DrainLine(first, rest, throws);
    if Trim(first) != "" && throws(Trim(first)) {
      front, line, behind := "", first, rest;
      assert "" + text == text;
    } else {
      var inner;
      inner, line, behind := StoppedByALine(rest, throws);
      front := first + "\n" + inner;
      Behind(first, inner, line + "\n" + behind);
    }
  }

  /** A whole delivery leaves complete lines behind an exception iff a line that is not the last complete one throws. */
  lemma StopsEarlyIff(text: string, throws: string -> bool)
    ensures ThrowsEarly(text, throws) <==> StopsEarly(text, throws)
  {
    if ThrowsEarly(text, throws) {
      var front, line, behind :|
        CompleteLines(front) && ThrowingLine(line, behind, throws) && text == front + (line + "\n" + behind);
      DrainLine(line, behind, throws);
      StopsBehindLines(front, line + "\n" + behind, throws);
    } else if StopsEarly(text, throws) {
      var front, line, behind := StoppedByALine(text, throws);
    }
  }

  lemma FeedOne(buffer: string, chunks: seq<string>, text: string, throws: string -> bool)
    requires chunks != [] && text == buffer + chunks[0]
    ensures var others := FeedAll(Drain(text, throws).rest, chunks[1..], throws);
            FeedAll(buffer, chunks, throws) == (Drain(text, throws).lines + others.0, others.1)
  {
  }

  lemma {:induction false} ChunksAsOne(buffer: string, chunks: seq<string>, text: string, throws: string -> bool)
    requires '\n' !in buffer && text == buffer + Concat(chunks) && !StopsEarly(text, throws)
    ensures FeedAll(buffer, chunks, throws) == (Drain(text, throws).lines, Drain(text, throws).rest)
    decreases |chunks|
  {
    if chunks == [] {
      assert text == buffer;
      NoLine(buffer, throws);
    } else {
      var a, b := buffer + chunks[0], Concat(chunks[1..]);
      assert text == a + b;
      FeedOne(buffer, chunks, a, throws);
      DrainOfTwo(a, b, throws);
      JoinedIsNotEarly(a, b, throws);
      var first := Drain(a, throws);
      ChunksAsOne(first.rest, chunks[1..], first.rest + b, throws);
      assert first.lines + [] == first.lines;
    }
  }

  lemma JoinedIsNotEarly(a: string, b: string, throws: string -> bool)
    requires !StopsEarly(a + b, throws)
    ensures var first := Drain(a, throws);
            && '\n' !in first.rest && !StopsEarly(first.rest + b, throws)
            && (first.threw ==> Drain(first.rest + b, throws) == Delivery([], first.rest + b, false))
  {
    DrainOfTwo(a, b, throws);
    var first := Drain(a, throws);
    if first.threw {
      NoLine(first.rest + b, throws);
    } else {
      RestIsLastLine(a, throws);
    }
  }

  /** A delivery that throws stops right behind the line that threw. */
  lemma {:induction false} UpToTheThrow(text: string, throws: string -> bool) returns (head: string)
    requires Drain(text, throws).threw
    ensures text == head + Drain(text, throws).rest
    ensures Drain(head, throws) == Delivery(Drain(text, throws).lines, "", true)
    decreases |text|
  {
    LineThatThrew(text, throws);
    var line, rest := FirstLine(text);
    DrainLine(line, rest, throws);
    if Trim(line) == "" || !throws(Trim(line)) {
      var tail := UpToTheThrow(rest, throws);
      head := line + "\n" + tail;
      LongerHead(line, tail, rest, throws);
      Reassociated(line, tail, Drain(rest, throws).rest, rest);
    } else {
      head := line + "\n";
      ThrowingHead(line, throws);
    }
  }

  lemma LineThatThrew(text: string, throws: string -> bool)
    requires Drain(text, throws).threw
    ensures '\n' in text
  {
    if '\n' !in text {
      NoLine(text, throws);
    }
  }

  lemma ThrowingHead(line: string, throws: string -> bool)
    requires '\n' !in line && Trim(line) != "" && throws(Trim(line))
    ensures Drain(line + "\n", throws) == Delivery([], "", true)
        || Drain(line + "\n", throws) == Delivery([Trim(line)], "", true)
    ensures forall rest :: Drain(line + "\n" + rest, throws).lines == Drain(line + "\n", throws).lines
  {
    DrainLine(line, "", throws);
    assert line + "\n" + "" == line + "\n";
    forall rest ensures Drain(line + "\n" + rest, throws).lines == Drain(line + "\n", throws).lines {
      DrainLine(line, rest, throws);
    }
  }

  lemma LongerHead(line: string, tail: string, rest: string, throws: string -> bool)
    requires '\n' !in line && (Trim(line) == "" || !throws(Trim(line)))
    requires Drain(tail, throws) == Delivery(Drain(rest, throws).lines, "", true) && Drain(rest, throws).threw
    ensures Drain(line + "\n" + tail, throws) == Delivery(Drain(line + "\n" + rest, throws).lines, "", true)
  {
    DrainLine(line, tail, throws);
    DrainLine(line, rest, throws);
  }

  lemma Reassociated(line: string, tail: string, left: string, rest: string)
    requires rest == tail + left
    ensures line + "\n" + rest == line + "\n" + tail + left
  {
    Regroup(line + "\n", tail, left);
  }

  lemma {:induction false} DrainShortens(text: string, throws: string -> bool)
    ensures |Drain(text, throws).rest| <= |text|
    ensures '\n' in text ==> |Drain(text, throws).rest| < |text|
    decreases |text|
  {
    if '\n' in text {
      var line, rest := FirstLine(text);
      DrainLine(line, rest, throws);
      DrainShortens(rest, throws);
    }
  }

  lemma OneChunk(buffer: string, chunk: string, text: string, throws: string -> bool)
    requires text == buffer + chunk
    ensures Concat([chunk]) == chunk
    ensures FeedAll(buffer, [chunk], throws) == (Drain(text, throws).lines, Drain(text, throws).rest)
  {
    FeedOne(buffer, [chunk], text, throws);
    assert [chunk][1..] == [];
    assert Drain(text, throws).lines + [] == Drain(text, throws).lines;
  }

  lemma TwoChunks(a: string, b: string, throws: string -> bool)
    requires Drain(a, throws).rest == ""
    ensures Concat([a, b]) == a + b
    ensures FeedAll("", [a, b], throws).1 == Drain(b, throws).rest
  {
    TwoParts(a, b);
    FeedOne("", [a, b], a, throws);
    OneChunk("", b, b, throws);
  }

  lemma TwoParts(a: string, b: string)
    ensures [a, b][1..] == [b] && Concat([a, b]) == a + b && "" + a == a && "" + b == b
  {
    assert Concat([b]) == b + Concat([]);
  }

  /**
   However the text is cut into chunks, the lines handed on and the buffer left are
   those of one whole delivery, iff no line throws with a complete line behind it.
   */
  lemma ChunkIndependentIff(text: string, throws: string -> bool)
    ensures (forall chunks :: Concat(chunks) == text ==> FeedAll("", chunks, throws) == FeedAll("", [text], throws))
            <==> !ThrowsEarly(text, throws)
  {
    OneChunk("", text, text, throws);
    StopsEarlyIff(text, throws);
    if ThrowsEarly(text, throws) {
      var head := UpToTheThrow(text, throws);
      var rest := Drain(text, throws).rest;
      TwoChunks(head, rest, throws);
      DrainShortens(rest, throws);
      assert Concat([head, rest]) == text && FeedAll("", [head, rest], throws).1 != FeedAll("", [text], throws).1;
    } else {
      forall chunks | Concat(chunks) == text
        ensures FeedAll("", chunks, throws) == FeedAll("", [text], throws)
      {
        ChunksAsOne("", chunks, text, throws);
      }
    }
  }

  // ----- round trip -----

  function Encoded(lines: seq<string>): string {
    if lines == [] then "" else lines[0] + "\n" + Encoded(lines[1..])
  }

  /** What a serialized message is: one line, not empty, no surrounding space. */
  predicate IsFrame(line: string) {
    line != "" && '\n' !in line && !IsSpace(line[0]) && !IsSpace(line[|line| - 1])
  }

  lemma {:induction false} EncodedDrains(lines: seq<string>, throws: string -> bool)
    requires forall i :: 0 <= i < |lines| ==> IsFrame(lines[i]) && !throws(lines[i])
    ensures Drain(Encoded(lines), throws) == Delivery(lines, "", false)
  {
    if lines == [] {
      NoLine("", throws);
    } else {
      EncodedDrains(lines[1..], throws);
      DrainLine(lines[0], Encoded(lines[1..]), throws);
      assert lines == [lines[0]] + lines[1..];
    }
  }

  /** Messages written one after another come out whole and in order, whatever chunks they arrive in. */
  lemma RoundTrip(lines: seq<string>, chunks: seq<string>, throws: string -> bool)
    requires forall i :: 0 <= i < |lines| ==> IsFrame(lines[i]) && !throws(lines[i])
    requires Concat(chunks) == Encoded(lines)
    ensures FeedAll("", chunks, throws) == (lines, "")
  {
    EncodedDrains(lines, throws);
    ChunksAsOne("", chunks, Encoded(lines), throws);
  }

  // ----- any lines -----

  /** The lines without the white space around them, and without the blank ones. */
  function Nonblank(lines: seq<string>): seq<string> {
    if lines == [] then []
    else (if Trim(lines[0]) == "" then [] else [Trim(lines[0])]) + Nonblank(lines[1..])
  }

  /** Up to the first line that throws, and with it. */
  function UpToThrowing(lines: seq<string>, throws: string -> bool): seq<string> {
    if lines == [] then []
    else if throws(lines[0]) then [lines[0]]
    else [lines[0]] + UpToThrowing(lines[1..], throws)
  }

  ghost predicate NoneThrows(lines: seq<string>, throws: string -> bool) {
    forall i :: 0 <= i < |lines| ==> !throws(lines[i])
  }

  /**
   One delivery of any lines, with `rest` behind the last newline: the lines that are not
   blank are handed on in order, trimmed, up to the first that throws, and `rest` is
   left if none does.
   */
  lemma {:induction false} LinesAreHandedOn(lines: seq<string>, rest: string, throws: string -> bool)
    requires '\n' !in rest && forall i :: 0 <= i < |lines| ==> '\n' !in lines[i]
    ensures var d := Drain(Encoded(lines) + rest, throws);
            && d.lines == UpToThrowing(Nonblank(lines), throws)
            && (d.threw <==> !NoneThrows(Nonblank(lines), throws)) && (!d.threw ==> d.rest == rest)
  {
    if lines == [] {
      assert "" + rest == rest;
      NoLine(rest, throws);
    } else {
      var tail := Encoded(lines[1..]) + rest;
      LinesAreHandedOn(lines[1..], rest, throws);
      Regroup(lines[0] + "\n", Encoded(lines[1..]), rest);
      DrainLine(lines[0], tail, throws);
      NonblankFirst(lines, throws);
    }
  }

  lemma NonblankFirst(lines: seq<string>, throws: string -> bool)
    requires lines != []
    ensures Trim(lines[0]) == "" ==> Nonblank(lines) == Nonblank(lines[1..])
    ensures Trim(lines[0]) != "" ==>
              && UpToThrowing(Nonblank(lines), throws) ==
                 [Trim(lines[0])] + (if throws(Trim(lines[0])) then [] else UpToThrowing(Nonblank(lines[1..]), throws))
              && (NoneThrows(Nonblank(lines), throws) <==>
                    !throws(Trim(lines[0])) && NoneThrows(Nonblank(lines[1..]), throws))
  {
    var line, others := Trim(lines[0]), Nonblank(lines[1..]);
    if line == "" {
      assert [] + others == others;
    } else {
      ThrowingFirst(line, others, throws);
    }
  }

  lemma ThrowingFirst(line: string, others: seq<string>, throws: string -> bool)
    ensures UpToThrowing([line] + others, throws) ==
            [line] + (if throws(line) then [] else UpToThrowing(others, throws))
    ensures NoneThrows([line] + others, throws) <==> !throws(line) && NoneThrows(others, throws)
  {
    var lines := [line] + others;
    assert lines[1..] == others && lines[0] == line && [line] + [] == [line];
    assert forall i :: 0 <= i < |others| ==> lines[i + 1] == others[i];
  }

  /** So it is for every chunking, when no line throws. */
  lemma LinesAreHandedOnInChunks(lines: seq<string>, rest: string, chunks: seq<string>, throws: string -> bool)
    requires '\n' !in rest && (forall i :: 0 <= i < |lines| ==> '\n' !in lines[i])
    requires NoneThrows(Nonblank(lines), throws) && Concat(chunks) == Encoded(lines) + rest
    ensures FeedAll("", chunks, throws) == (Nonblank(lines), rest)
  {
    LinesAreHandedOn(lines, rest, throws);
    AllOfThem(Nonblank(lines), throws);
    assert "" + Concat(chunks) == Encoded(lines) + rest;
    ChunksAsOne("", chunks, Encoded(lines) + rest, throws);
  }

  lemma {:induction false} AllOfThem(lines: seq<string>, throws: string -> bool)
    requires NoneThrows(lines, throws)
    ensures UpToThrowing(lines, throws) == lines
  {
    if lines != [] {
      AllOfThem(lines[1..], throws);
    }
  }

  // ----- a second connection -----

  lemma {:induction false} TrimStartBehind(left: string, line: string)
    requires IsFrame(line)
    ensures Blank(left) ==> TrimStart(left + line) == line
    ensures !Blank(left) ==> |TrimStart(left + line)| > |line|
    ensures TrimStart(left + line)[|TrimStart(left + line)| - 1] == line[|line| - 1]
  {
    if left == [] {
      assert left + line == line;
    } else if IsSpace(left[0]) {
      assert (left + line)[1..] == left[1..] + line;
      TrimStartBehind(left[1..], line);
      assert Blank(left) <==> Blank(left[1..]) by {
        assert forall i :: 1 <= i < |left| ==> left[i] == left[1..][i - 1];
      }
    }
  }

  /** What is left in the buffer goes before the first line of the next connection. */
  lemma TrimBehind(left: string, line: string)
    requires IsFrame(line)
    ensures Trim(left + line) != ""
    ensures Trim(left + line) == line <==> Blank(left)
  {
    TrimStartBehind(left, line);
  }

  /**
   Whatever one connection left in the buffer when it went down, the messages of the
   next one arrive as they were sent iff it was blank.
   */
  lemma ReconnectIff(left: string, lines: seq<string>, chunks: seq<string>, throws: string -> bool)
    requires '\n' !in left && lines != []
    requires forall i :: 0 <= i < |lines| ==> IsFrame(lines[i]) && !throws(lines[i])
    requires Concat(chunks) == Encoded(lines)
    ensures FeedAll(left, chunks, throws) == (lines, "") <==> Blank(left)
  {
    var first, rest := left + lines[0], Encoded(lines[1..]);
    assert left + Concat(chunks) == first + "\n" + rest by {
      Regroup(left, lines[0] + "\n", rest);
      Regroup(left, lines[0], "\n");
    }
    TrimBehind(left, lines[0]);
    FirstFed(left, chunks, first, rest, throws);
    if Blank(left) {
      BlankDrains(first, lines[0], lines[1..], throws);
      assert lines == [lines[0]] + lines[1..];
      ChunksAsOne(left, chunks, first + "\n" + rest, throws);
    }
  }

  lemma BlankDrains(first: string, line: string, others: seq<string>, throws: string -> bool)
    requires '\n' !in first && Trim(first) == line && line != "" && !throws(line)
    requires forall i :: 0 <= i < |others| ==> IsFrame(others[i]) && !throws(others[i])
    ensures Drain(first + "\n" + Encoded(others), throws) == Delivery([line] + others, "", false)
  {
    DrainLine(first, Encoded(others), throws);
    EncodedDrains(others, throws);
  }

  /** However the text arrives, its first line is the first one handed on. */
  lemma {:induction false} FirstFed(buffer: string, chunks: seq<string>, line: string, rest: string,
                                    throws: string -> bool)
    requires '\n' !in buffer && '\n' !in line && Trim(line) != ""
    requires buffer + Concat(chunks) == line + "\n" + rest
    ensures var fed := FeedAll(buffer, chunks, throws).0; fed != [] && fed[0] == Trim(line)
    decreases |chunks|
  {
    NewlineAfter(line, rest);
    assert buffer + Concat([]) == buffer;
    if chunks == [] {
      assert false;
    }
    var a := buffer + chunks[0];
    FeedOne(buffer, chunks, a, throws);
    Regroup(buffer, chunks[0], Concat(chunks[1..]));
    if '\n' in a {
      var first, others := FirstLine(a);
      Behind(first, others, Concat(chunks[1..]));
      NewlineAfter(first, others + Concat(chunks[1..]));
      Regroup(line, "\n", rest);
      Regroup(first, "\n", others + Concat(chunks[1..]));
      SameFront(first, line, "\n" + (others + Concat(chunks[1..])), "\n" + rest);
      DrainLine(first, others, throws);
    } else {
      NoLine(a, throws);
      FirstFed(a, chunks[1..], line, rest, throws);
    }
  }

  lemma SameFront(a: string, b: string, c: string, d: string)
    requires |a| == |b| && a + c == b + d
    ensures a == b
  {
    assert a == (a + c)[..|a|] && b == (b + d)[..|b|];
  }
}
