/** A reader of JSON text without white space, the inverse of what `JSON.stringify` writes. */
module JsonParser {
  import opened Wrappers
  import opened Framing
  import opened JsonText
  import opened Sequences

  /** What was read from the front of a text, and what is behind it. */
  datatype Parsed<T> = Parsed(value: T, rest: string)

  // ----- strings -----

  function HexValue(c: char): int {
    if '0' <= c <= '9' then c as int - '0' as int
    else if 'a' <= c <= 'f' then c as int - 'a' as int + 10
    else if 'A' <= c <= 'F' then c as int - 'A' as int + 10
    else -1
  }

  /** The control character of a four-digit escape, if it is one. */
  function ControlChar(digits: string): Option<char>
    requires |digits| == 4
  {
    var high, low := HexValue(digits[2]), HexValue(digits[3]);
    if digits[0] == '0' && digits[1] == '0' && 0 <= high <= 1 && 0 <= low then Some((16 * high + low) as char) else None
  }

  /** What a single character behind a backslash stands for. */
  function ShortEscape(c: char): Option<char> {
    if c == '"' || c == '\\' || c == '/' then Some(c)
    else if c == 'n' then Some('\n')
    else if c == 'r' then Some('\r')
    else if c == 't' then Some('\t')
    else if c == 'b' then Some('\U{8}')
    else if c == 'f' then Some('\U{C}')
    else None
  }

  function WithRest<T>(value: Option<T>, rest: string): Option<Parsed<T>> {
    match value
    case None => None
    case Some(v) => Some(Parsed(v, rest))
  }

  /** The next character of a string's contents. */
  function ReadChar(s: string): (r: Option<Parsed<char>>)
    ensures r.Some? ==> |r.value.rest| < |s|
  {
    if s == "" || s[0] == '"' || s[0] < ' ' then None
    else if s[0] != '\\' then Some(Parsed(s[0], s[1..]))
    else if |s| >= 6 && s[1] == 'u' then WithRest(ControlChar(s[2..6]), s[6..])
    else if |s| >= 2 then WithRest(ShortEscape(s[1]), s[2..])
    else None
  }

  /** The contents of a string up to its closing quote. */
  function ReadString(s: string): (r: Option<Parsed<string>>)
    ensures r.Some? ==> |r.value.rest| < |s|
    decreases |s|
  {
    if s != "" && s[0] == '"' then Some(Parsed("", s[1..]))
    else
      match ReadChar(s)
      case None => None
      case Some(Parsed(c, rest)) =>
        match ReadString(rest)
        case None => None
        case Some(Parsed(text, behind)) => Some(Parsed([c] + text, behind))
  }

  // ----- values -----

  function NumberLength(s: string): (n: nat)
    ensures n <= |s|
  {
    if s != "" && NumberChar(s[0]) then 1 + NumberLength(s[1..]) else 0
  }

  function ReadLiteral(s: string, literal: string, value: Json): (r: Option<Parsed<Json>>)
    requires literal != ""
    ensures r.Some? ==> |r.value.rest| < |s|
  {
    if literal <= s then Some(Parsed(value, s[|literal|..])) else None
  }

  function ReadNumber(s: string): (r: Option<Parsed<Json>>)
    ensures r.Some? ==> |r.value.rest| < |s|
  {
    var n := NumberLength(s);
    if n == 0 then None else Some(Parsed(Num(s[..n]), s[n..]))
  }

  function ReadValue(s: string): (r: Option<Parsed<Json>>)
    ensures r.Some? ==> |r.value.rest| < |s|
    decreases |s|, 0
  {
    if s == "" then None
    else if s[0] == '"' then
      match ReadString(s[1..])
      case None => None
      case Some(Parsed(text, rest)) => Some(Parsed(Str(text), rest))
    else if s[0] == '[' then
      if "[]" <= s then Some(Parsed(Arr([]), s[2..]))
      else
        match ReadElements(s[1..])
        case None => None
        case Some(Parsed(items, rest)) => Some(Parsed(Arr(items), rest))
    else if s[0] == '{' then
      if "{}" <= s then Some(Parsed(Obj([], []), s[2..]))
      else
        match ReadMembers(s[1..])
        case None => None
        case Some(Parsed(members, rest)) => Some(Parsed(Obj(members.0, members.1), rest))
    else if s[0] == 'n' then ReadLiteral(s, "null", Null)
    else if s[0] == 't' then ReadLiteral(s, "true", Bool(true))
    else if s[0] == 'f' then ReadLiteral(s, "false", Bool(false))
    else ReadNumber(s)
  }

  function ReadElements(s: string): (r: Option<Parsed<seq<Json>>>)
    ensures r.Some? ==> |r.value.rest| < |s|
    decreases |s|, 1
  {
    match ReadValue(s)
    case None => None
    case Some(Parsed(item, rest)) =>
      if rest == "" then None
      else if rest[0] == ']' then Some(Parsed([item], rest[1..]))
      else if rest[0] != ',' then None
      else
        match ReadElements(rest[1..])
        case None => None
        case Some(Parsed(items, behind)) => Some(Parsed([item] + items, behind))
  }

  function ReadMember(s: string): (r: Option<Parsed<(string, Json)>>)
    ensures r.Some? ==> |r.value.rest| < |s|
    decreases |s|, 1
  {
    if s == "" || s[0] != '"' then None
    else
      match ReadString(s[1..])
      case None => None
      case Some(Parsed(name, rest)) =>
        if rest == "" || rest[0] != ':' then None
        else
          match ReadValue(rest[1..])
          case None => None
          case Some(Parsed(value, behind)) => Some(Parsed((name, value), behind))
  }

  function ReadMembers(s: string): (r: Option<Parsed<(seq<string>, seq<Json>)>>)
    ensures r.Some? ==> |r.value.rest| < |s|
    decreases |s|, 2
  {
    match ReadMember(s)
    case None => None
    case Some(Parsed(member, rest)) =>
      if rest == "" then None
      else if rest[0] == '}' then Some(Parsed(([member.0], [member.1]), rest[1..]))
      else if rest[0] != ',' then None
      else
        match ReadMembers(rest[1..])
        case None => None
        case Some(Parsed(more, behind)) => Some(Parsed(([member.0] + more.0, [member.1] + more.1), behind))
  }

  // ----- reading back -----

  lemma FirstOff(c: char, rest: string)
    ensures ([c] + rest)[0] == c && ([c] + rest)[1..] == rest
  {
  }

  lemma ReadControl(n: int, rest: string)
    requires 0 <= n < 32
    ensures ReadChar("\\u00" + [HexDigit(n / 16), HexDigit(n % 16)] + rest) == Some(Parsed(n as char, rest))
  {
    var s := "\\u00" + [HexDigit(n / 16), HexDigit(n % 16)] + rest;
    assert s[2..6] == ['0', '0', HexDigit(n / 16), HexDigit(n % 16)] && s[6..] == rest;
    assert HexValue(HexDigit(n / 16)) == n / 16 && HexValue(HexDigit(n % 16)) == n % 16;
  }

  lemma ReadShort(short: char, c: char, rest: string)
    requires ShortEscape(short) == Some(c) && short != 'u'
    ensures ReadChar("\\" + [short] + rest) == Some(Parsed(c, rest))
  {
    assert ("\\" + [short] + rest)[2..] == rest;
  }

  lemma ReadEscapedChar(c: char, rest: string)
    ensures EscapeChar(c) != "" && EscapeChar(c)[0] != '"'
    ensures ReadChar(EscapeChar(c) + rest) == Some(Parsed(c, rest))
  {
    if c == '"' { ReadShort('"', c, rest); }
    else if c == '\\' { ReadShort('\\', c, rest); }
    else if c == '\n' { ReadShort('n', c, rest); }
    else if c == '\r' { ReadShort('r', c, rest); }
    else if c == '\t' { ReadShort('t', c, rest); }
    else if c == '\U{8}' { ReadShort('b', c, rest); }
    else if c == '\U{C}' { ReadShort('f', c, rest); }
    else if c < ' ' { ReadControl(c as int, rest); }
    else { FirstOff(c, rest); }
  }

  /** A string is read back as it was, whatever it contains and whatever follows. */
  lemma {:induction false} StringReadsBack(s: string, rest: string)
    ensures ReadString(Escape(s) + ("\"" + rest)) == Some(Parsed(s, rest))
  {
    if s == "" {
      assert Escape(s) + ("\"" + rest) == "\"" + rest;
    } else {
      var tail := Escape(s[1..]) + ("\"" + rest);
      StringReadsBack(s[1..], rest);
      ReadEscapedChar(s[0], tail);
      Regroup(EscapeChar(s[0]), Escape(s[1..]), "\"" + rest);
      OneMore(EscapeChar(s[0]) + tail, s[0], tail, s[1..], rest);
      assert s == [s[0]] + s[1..];
    }
  }

  lemma OneMore(s: string, c: char, tail: string, text: string, rest: string)
    requires s != "" && s[0] != '"'
    requires ReadChar(s) == Some(Parsed(c, tail)) && ReadString(tail) == Some(Parsed(text, rest))
    ensures ReadString(s) == Some(Parsed([c] + text, rest))
  {
  }

  lemma QuotedReadsBack(s: string, rest: string)
    ensures Quoted(s) + rest == "\"" + (Escape(s) + ("\"" + rest))
    ensures (Quoted(s) + rest)[0] == '"'
    ensures ReadString((Quoted(s) + rest)[1..]) == Some(Parsed(s, rest))
  {
    StringReadsBack(s, rest);
    Regroup("\"" + Escape(s), "\"", rest);
    Regroup("\"", Escape(s), "\"" + rest);
    FirstOff('"', Escape(s) + ("\"" + rest));
  }

  /** What follows a value in JSON text does not continue a number. */
  predicate Delimited(rest: string) {
    rest == "" || !NumberChar(rest[0])
  }

  lemma {:induction false} NumberLengthOf(literal: string, rest: string)
    requires forall i :: 0 <= i < |literal| ==> NumberChar(literal[i])
    requires Delimited(rest)
    ensures NumberLength(literal + rest) == |literal|
  {
    if literal == "" {
      assert literal + rest == rest;
    } else {
      NumberLengthOf(literal[1..], rest);
      assert (literal + rest)[1..] == literal[1..] + rest;
    }
  }

  lemma NumberReadsBack(literal: string, rest: string)
    requires IsJson(Num(literal)) && Delimited(rest)
    ensures ReadValue(literal + rest) == Some(Parsed(Num(literal), rest))
  {
    NumberLengthOf(literal, rest);
    assert NumberChar((literal + rest)[0]);
    assert (literal + rest)[..|literal|] == literal && (literal + rest)[|literal|..] == rest;
  }

  lemma LiteralReadsBack(literal: string, rest: string)
    ensures literal <= literal + rest && (literal + rest)[|literal|..] == rest
  {
  }

  /** Every JSON value is read back from its text, whatever follows. */
  lemma {:induction false} ReadsBack(j: Json, rest: string)
    requires IsJson(j) && Delimited(rest)
    ensures ReadValue(Stringify(j) + rest) == Some(Parsed(j, rest))
    decreases j
  {
    match j
    case Null => LiteralReadsBack("null", rest);
    case Bool(value) => LiteralReadsBack(if value then "true" else "false", rest);
    case Num(literal) => NumberReadsBack(literal, rest);
    case Str(text) => QuotedReadsBack(text, rest);
    case Arr(items) => ArrayReadsBack(j, items, rest);
    case Obj(names, values) => ObjectReadsBack(j, names, values, rest);
  }

  lemma Bracketed(open: char, body: string, close: char, rest: string)
    ensures [open] + body + [close] + rest == [open] + (body + ([close] + rest))
  {
    Regroup([open] + body, [close], rest);
    Regroup([open], body, [close] + rest);
  }

  lemma {:induction false} ArrayReadsBack(j: Json, items: seq<Json>, rest: string)
    requires j == Arr(items) && IsJson(j)
    ensures ReadValue(Stringify(j) + rest) == Some(Parsed(j, rest))
    decreases j, |items| + 1
  {
    Bracketed('[', Elements(j, items), ']', rest);
    var body := Elements(j, items) + ("]" + rest);
    FirstOff('[', body);
    if items == [] {
      assert body == "]" + rest;
      assert ("[" + body)[2..] == rest;
    } else {
      ElementsReadBack(j, items, rest);
      ElementsStart(j, items);
      assert body[0] != ']';
    }
  }

  /** No JSON text starts with a closing bracket or brace. */
  lemma ElementsStart(whole: Json, items: seq<Json>)
    requires items != [] && forall i :: 0 <= i < |items| ==> items[i] < whole && IsJson(items[i])
    ensures Elements(whole, items) != "" && Elements(whole, items)[0] != ']'
  {
    assert Stringify(items[0]) != "" && Stringify(items[0])[0] != ']' by {
      match items[0]
      case Num(literal) => assert NumberChar(literal[0]);
      case _ =>
    }
  }

  lemma LastElement(s: string, item: Json, behind: string)
    requires ReadValue(s) == Some(Parsed(item, "]" + behind))
    ensures ReadElements(s) == Some(Parsed([item], behind))
  {
    FirstOff(']', behind);
  }

  lemma MoreElements(s: string, item: Json, t: string, items: seq<Json>, behind: string)
    requires ReadValue(s) == Some(Parsed(item, "," + t)) && ReadElements(t) == Some(Parsed(items, behind))
    ensures ReadElements(s) == Some(Parsed([item] + items, behind))
  {
    FirstOff(',', t);
  }

  lemma {:induction false} ElementsReadBack(whole: Json, items: seq<Json>, rest: string)
    requires items != [] && forall i :: 0 <= i < |items| ==> items[i] < whole && IsJson(items[i])
    ensures ReadElements(Elements(whole, items) + ("]" + rest)) == Some(Parsed(items, rest))
    decreases whole, |items|
  {
    var first, close := Stringify(items[0]), "]" + rest;
    FirstElement(whole, items);
    if |items| == 1 {
      ReadsBack(items[0], close);
      LastElement(first + close, items[0], rest);
      assert items == [items[0]];
    } else {
      var others := Elements(whole, items[1..]);
      ElementsReadBack(whole, items[1..], rest);
      ReadsBack(items[0], "," + (others + close));
      ElementBefore(first, others, close, items[0], items[1..], rest);
      HeadAndTail(items);
    }
  }

  lemma ElementBefore(first: string, more: string, close: string, item: Json, items: seq<Json>, rest: string)
    requires ReadValue(first + ("," + (more + close))) == Some(Parsed(item, "," + (more + close)))
    requires ReadElements(more + close) == Some(Parsed(items, rest))
    ensures ReadElements(first + ("," + more) + close) == Some(Parsed([item] + items, rest))
  {
    MoreElements(first + ("," + (more + close)), item, more + close, items, rest);
    ElementApart(first, more, close);
  }

  lemma FirstElement(whole: Json, items: seq<Json>)
    requires items != [] && forall i :: 0 <= i < |items| ==> items[i] < whole && IsJson(items[i])
    ensures Elements(whole, items) ==
            if |items| == 1 then Stringify(items[0]) else Stringify(items[0]) + ("," + Elements(whole, items[1..]))
  {
    assert Stringify(items[0]) + "" == Stringify(items[0]);
  }

  lemma ElementApart(first: string, more: string, close: string)
    ensures first + ("," + more) + close == first + ("," + (more + close))
  {
    Regroup(first, "," + more, close);
    Regroup(",", more, close);
  }

  lemma {:induction false} ObjectReadsBack(j: Json, names: seq<string>, values: seq<Json>, rest: string)
    requires j == Obj(names, values) && IsJson(j)
    ensures ReadValue(Stringify(j) + rest) == Some(Parsed(j, rest))
    decreases j, |values| + 1
  {
    Bracketed('{', Members(j, names, values), '}', rest);
    var body := Members(j, names, values) + ("}" + rest);
    FirstOff('{', body);
    if values == [] {
      assert body == "}" + rest;
      assert ("{" + body)[2..] == rest;
    } else {
      MembersReadBack(j, names, values, rest);
      assert body[0] == '"';
    }
  }

  lemma {:induction false} MemberReadsBack(whole: Json, name: string, value: Json, rest: string)
    requires value < whole && IsJson(value) && Delimited(rest)
    ensures ReadMember(Quoted(name) + ":" + Stringify(value) + rest) == Some(Parsed((name, value), rest))
    decreases whole, 0
  {
    Regroup(Quoted(name) + ":", Stringify(value), rest);
    Regroup(Quoted(name), ":", Stringify(value) + rest);
    QuotedReadsBack(name, ":" + (Stringify(value) + rest));
    FirstOff(':', Stringify(value) + rest);
    ReadsBack(value, rest);
  }

  lemma LastMember(s: string, names: seq<string>, values: seq<Json>, behind: string)
    requires |names| == |values| == 1 && ReadMember(s) == Some(Parsed((names[0], values[0]), "}" + behind))
    ensures ReadMembers(s) == Some(Parsed((names, values), behind))
  {
    FirstOff('}', behind);
    assert names == [names[0]] && values == [values[0]];
  }

  lemma MoreMembers(s: string, name: string, value: Json, t: string, names: seq<string>, values: seq<Json>,
                    behind: string)
    requires ReadMember(s) == Some(Parsed((name, value), "," + t))
    requires ReadMembers(t) == Some(Parsed((names, values), behind))
    ensures ReadMembers(s) == Some(Parsed(([name] + names, [value] + values), behind))
  {
    FirstOff(',', t);
  }

  lemma MembersApart(whole: Json, names: seq<string>, values: seq<Json>, close: string)
    requires values != [] && |names| == |values|
    requires forall i :: 0 <= i < |values| ==> values[i] < whole && IsJson(values[i])
    ensures var first := Quoted(names[0]) + ":" + Stringify(values[0]);
            Members(whole, names, values) + close ==
            if |values| == 1 then first + close else first + ("," + (Members(whole, names[1..], values[1..]) + close))
  {
    var first := Quoted(names[0]) + ":" + Stringify(values[0]);
    if |values| == 1 {
      assert first + "" == first;
    } else {
      ElementApart(first, Members(whole, names[1..], values[1..]), close);
    }
  }

  lemma {:induction false} MembersReadBack(whole: Json, names: seq<string>, values: seq<Json>, rest: string)
    requires values != [] && |names| == |values|
    requires forall i :: 0 <= i < |values| ==> values[i] < whole && IsJson(values[i])
    ensures ReadMembers(Members(whole, names, values) + ("}" + rest)) == Some(Parsed((names, values), rest))
    decreases whole, |values|
  {
    var first, close := Quoted(names[0]) + ":" + Stringify(values[0]), "}" + rest;
    MembersApart(whole, names, values, close);
    if |values| == 1 {
      MemberReadsBack(whole, names[0], values[0], close);
      LastMember(first + close, names, values, rest);
    } else {
      var more := Members(whole, names[1..], values[1..]) + close;
      MembersReadBack(whole, names[1..], values[1..], rest);
      MemberReadsBack(whole, names[0], values[0], "," + more);
      MoreMembers(first + ("," + more), names[0], values[0], more, names[1..], values[1..], rest);
      HeadAndTail(names);
      HeadAndTail(values);
    }
  }

  // ----- a conversation -----

  function Read(line: string): Option<Json> {
    match ReadValue(line)
    case None => None
    case Some(Parsed(j, rest)) => if rest == "" then Some(j) else None
  }

  /** A request is read back from its line, with its method, parameters and id. */
  lemma RequestReadsBack(r: Request)
    requires IsRequest(r)
    ensures Read(RequestText(r)) == Some(RequestJson(r))
  {
    ReadsBack(RequestJson(r), "");
    assert RequestText(r) + "" == RequestText(r);
  }

  lemma LastDigit(n: nat)
    ensures Digits(n)[|Digits(n)| - 1] == HexDigit(n % 10)
    ensures n < 10 ==> |Digits(n)| == 1
    ensures n >= 10 ==> |Digits(n)| > 1 && Digits(n)[..|Digits(n)| - 1] == Digits(n / 10)
  {
  }

  lemma {:induction false} DigitsDiffer(m: nat, n: nat)
    requires Digits(m) == Digits(n)
    ensures m == n
  {
    LastDigit(m);
    LastDigit(n);
    HexDigitsDiffer(m % 10, n % 10);
    if m >= 10 {
      DigitsDiffer(m / 10, n / 10);
    }
  }

  lemma HexDigitsDiffer(m: int, n: int)
    requires 0 <= m < 10 && 0 <= n < 10 && HexDigit(m) == HexDigit(n)
    ensures m == n
  {
    assert HexValue(HexDigit(m)) == m && HexValue(HexDigit(n)) == n;
  }

  /** Different requests are different lines; the id alone tells two calls apart. */
  lemma LinesDiffer(r: Request, s: Request)
    requires IsRequest(r) && IsRequest(s) && RequestText(r) == RequestText(s)
    ensures r == s
  {
    RequestReadsBack(r);
    RequestReadsBack(s);
    var a, b := RequestJson(r), RequestJson(s);
    assert a.names == b.names && a.values == b.values;
    assert |a.names| == if r.params.Some? then 4 else 3;
    assert |b.names| == if s.params.Some? then 4 else 3;
    assert a.values[|a.values| - 1] == Num(Digits(r.id)) && b.values[|b.values| - 1] == Num(Digits(s.id));
    assert a.values[1] == Str(r.name) && b.values[1] == Str(s.name);
    if r.params.Some? {
      assert a.values[2] == r.params.value && b.values[2] == s.params.value;
    }
    DigitsDiffer(r.id, s.id);
  }

  /** Requests written to the socket come out of the other end's reader as they were, in order, for every chunking. */
  lemma RequestsRoundTrip(requests: seq<Request>, lines: seq<string>, chunks: seq<string>)
    requires |lines| == |requests|
    requires forall i :: 0 <= i < |requests| ==> IsRequest(requests[i]) && lines[i] == RequestText(requests[i])
    requires Concat(chunks) == Encoded(lines)
    ensures var (received, left) := FeedAll("", chunks, (line: string) => Read(line).None?);
            && left == "" && |received| == |requests|
            && forall i :: 0 <= i < |requests| ==> Read(received[i]) == Some(RequestJson(requests[i]))
  {
    var fails := (line: string) => Read(line).None?;
    forall i | 0 <= i < |lines| ensures !fails(lines[i]) && Read(lines[i]) == Some(RequestJson(requests[i])) {
      RequestReadsBack(requests[i]);
    }
    RequestsArriveInOrder(requests, lines, chunks, fails);
  }
}
