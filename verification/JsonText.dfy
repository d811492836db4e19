/** The text of a JSON-RPC message as `JSON.stringify` writes it, one line of the framing. */
module JsonText {
  import opened Wrappers
  import opened Framing

  datatype Json =
    | Null
    | Bool(value: bool)
    | Num(literal: string)
    | Str(text: string)
    | Arr(items: seq<Json>)
    | Obj(names: seq<string>, values: seq<Json>)

  predicate NumberChar(c: char) {
    '0' <= c <= '9' || c == '-' || c == '+' || c == '.' || c == 'e' || c == 'E'
  }

  /** Number literals are not empty and use only number characters, and every member has a name. */
  predicate IsJson(j: Json) {
    match j
    case Num(literal) => literal != "" && forall i :: 0 <= i < |literal| ==> NumberChar(literal[i])
    case Arr(items) => forall i :: 0 <= i < |items| ==> IsJson(items[i])
    case Obj(names, values) => |names| == |values| && forall i :: 0 <= i < |values| ==> IsJson(values[i])
    case _ => true
  }

  function HexDigit(n: int): char
    requires 0 <= n < 16
  {
    "0123456789abcdef"[n]
  }

  /** The escapes of RFC 8259, section 7. */
  function EscapeChar(c: char): string {
    if c == '"' then "\\\""
    else if c == '\\' then "\\\\"
    else if c == '\n' then "\\n"
    else if c == '\r' then "\\r"
    else if c == '\t' then "\\t"
    else if c == '\U{8}' then "\\b"
    else if c == '\U{C}' then "\\f"
    else if c < ' ' then "\\u00" + [HexDigit(c as int / 16), HexDigit(c as int % 16)]
    else [c]
  }

  function Escape(s: string): string {
    if s == "" then "" else EscapeChar(s[0]) + Escape(s[1..])
  }

  function Quoted(s: string): string {
    "\"" + Escape(s) + "\""
  }

  function Stringify(j: Json): string
    requires IsJson(j)
    decreases j
  {
    match j
    case Null => "null"
    case Bool(value) => if value then "true" else "false"
    case Num(literal) => literal
    case Str(text) => Quoted(text)
    case Arr(items) => "[" + Elements(j, items) + "]"
    case Obj(names, values) => "{" + Members(j, names, values) + "}"
  }

  function Elements(ghost whole: Json, items: seq<Json>): string
    requires forall i :: 0 <= i < |items| ==> items[i] < whole && IsJson(items[i])
    decreases whole, |items|
  {
    if items == [] then ""
    else Stringify(items[0]) + (if |items| == 1 then "" else "," + Elements(whole, items[1..]))
  }

  function Members(ghost whole: Json, names: seq<string>, values: seq<Json>): string
    requires |names| == |values| && forall i :: 0 <= i < |values| ==> values[i] < whole && IsJson(values[i])
    decreases whole, |values|
  {
    if values == [] then ""
    else Quoted(names[0]) + ":" + Stringify(values[0])
         + (if |values| == 1 then "" else "," + Members(whole, names[1..], values[1..]))
  }

  /** No control character, so no newline. */
  predicate OneLine(s: string) {
    forall i :: 0 <= i < |s| ==> s[i] >= ' '
  }

  lemma {:induction false} EscapeIsOneLine(s: string)
    ensures OneLine(Escape(s))
  {
    if s != "" {
      EscapeIsOneLine(s[1..]);
    }
  }

  /** JSON text has no raw newline, whatever its strings contain. */
  lemma {:induction false} StringifyIsOneLine(j: Json)
    requires IsJson(j)
    ensures OneLine(Stringify(j))
    decreases j
  {
    match j
    case Str(text) => EscapeIsOneLine(text);
    case Arr(items) => ElementsAreOneLine(j, items);
    case Obj(names, values) => MembersAreOneLine(j, names, values);
    case _ =>
  }

  lemma {:induction false} ElementsAreOneLine(whole: Json, items: seq<Json>)
    requires forall i :: 0 <= i < |items| ==> items[i] < whole && IsJson(items[i])
    ensures OneLine(Elements(whole, items))
    decreases whole, |items|
  {
    if items != [] {
      StringifyIsOneLine(items[0]);
      ElementsAreOneLine(whole, items[1..]);
    }
  }

  lemma {:induction false} MembersAreOneLine(whole: Json, names: seq<string>, values: seq<Json>)
    requires |names| == |values| && forall i :: 0 <= i < |values| ==> values[i] < whole && IsJson(values[i])
    ensures OneLine(Members(whole, names, values))
    decreases whole, |values|
  {
    if values != [] {
      EscapeIsOneLine(names[0]);
      StringifyIsOneLine(values[0]);
      MembersAreOneLine(whole, names[1..], values[1..]);
    }
  }

  function Digits(n: nat): (s: string)
    ensures s != "" && forall i :: 0 <= i < |s| ==> NumberChar(s[i])
  {
    if n < 10 then [HexDigit(n)] else Digits(n / 10) + [HexDigit(n % 10)]
  }

  /** A JSON-RPC 2.0 request; a call without parameters has no `params` member. */
  datatype Request = Request(name: string, params: Option<Json>, id: nat)

  function RequestJson(r: Request): Json {
    match r.params
    case None => Obj(["jsonrpc", "method", "id"], [Str("2.0"), Str(r.name), Num(Digits(r.id))])
    case Some(params) =>
      Obj(["jsonrpc", "method", "params", "id"], [Str("2.0"), Str(r.name), params, Num(Digits(r.id))])
  }

  predicate IsRequest(r: Request) {
    r.params.Some? ==> IsJson(r.params.value)
  }

  function RequestText(r: Request): string
    requires IsRequest(r)
  {
    Stringify(RequestJson(r))
  }

  lemma RequestIsFrame(r: Request)
    requires IsRequest(r)
    ensures IsFrame(RequestText(r))
  {
    var text := RequestText(r);
    StringifyIsOneLine(RequestJson(r));
    assert text[0] == '{' && text[|text| - 1] == '}';
  }

  /** Requests written to the socket reach the other end's message handler one by one, in order, for every chunking. */
  lemma RequestsArriveInOrder(requests: seq<Request>, lines: seq<string>, chunks: seq<string>, throws: string -> bool)
    requires |lines| == |requests|
    requires forall i :: 0 <= i < |requests| ==> IsRequest(requests[i]) && lines[i] == RequestText(requests[i])
    requires forall i :: 0 <= i < |lines| ==> !throws(lines[i])
    requires Concat(chunks) == Encoded(lines)
    ensures FeedAll("", chunks, throws) == (lines, "")
  {
    forall i | 0 <= i < |lines| ensures IsFrame(lines[i]) {
      RequestIsFrame(requests[i]);
    }
    RoundTrip(lines, chunks, throws);
  }

  // ----- what a request looks like -----

  function DecimalValue(s: string): int {
    if s == "" then 0 else 10 * DecimalValue(s[..|s| - 1]) + (s[|s| - 1] as int - '0' as int)
  }

  lemma {:induction false} DigitsAreDecimal(n: nat)
    ensures DecimalValue(Digits(n)) == n && forall i :: 0 <= i < |Digits(n)| ==> '0' <= Digits(n)[i] <= '9'
  {
    var digit := HexDigit(n % 10);
    assert digit as int - '0' as int == n % 10;
    if n < 10 {
      assert [digit][..0] == "";
    } else {
      DigitsAreDecimal(n / 10);
      assert (Digits(n / 10) + [digit])[..|Digits(n / 10)|] == Digits(n / 10);
    }
  }

  function Member(names: seq<string>, values: seq<Json>, name: string): Option<Json>
    requires |names| == |values|
  {
    if names == [] then None
    else if names[0] == name then Some(values[0])
    else Member(names[1..], values[1..], name)
  }

  function RequestMember(r: Request, name: string): Option<Json> {
    Member(RequestJson(r).names, RequestJson(r).values, name)
  }

  lemma MemberOfFour(a: string, b: string, c: string, d: string, v: seq<Json>, name: string)
    requires |v| == 4
    ensures Member([a, b, c, d], v, name) ==
            if name == a then Some(v[0]) else if name == b then Some(v[1])
            else if name == c then Some(v[2]) else if name == d then Some(v[3]) else None
  {
    assert [a, b, c, d][1..] == [b, c, d] && v[1..][0] == v[1];
    MemberOfThree(b, c, d, v[1..], name);
  }

  lemma MemberOfThree(a: string, b: string, c: string, v: seq<Json>, name: string)
    requires |v| == 3
    ensures Member([a, b, c], v, name) ==
            if name == a then Some(v[0]) else if name == b then Some(v[1]) else if name == c then Some(v[2]) else None
  {
    var w := v[1..];
    assert [a, b, c][1..] == [b, c] && [b, c][1..] == [c] && w[1..][0] == v[2];
    assert Member([c], w[1..], name) == if name == c then Some(v[2]) else Member([c][1..], w[1..][1..], name);
    assert Member([b, c], w, name) == if name == b then Some(w[0]) else Member([c], w[1..], name);
  }

  /**
   A request has its version, its method, its parameters, if it has any, and its id in
   decimal, and no other member.
   */
  lemma RequestMembersAre(r: Request, name: string)
    ensures RequestMember(r, name) ==
            if name == "jsonrpc" then Some(Str("2.0"))
            else if name == "method" then Some(Str(r.name))
            else if name == "params" then r.params
            else if name == "id" then Some(Num(Digits(r.id)))
            else None
    ensures DecimalValue(Digits(r.id)) == r.id
  {
    DigitsAreDecimal(r.id);
    if r.params.Some? {
      MemberOfFour("jsonrpc", "method", "params", "id", RequestJson(r).values, name);
    } else {
      MemberOfThree("jsonrpc", "method", "id", RequestJson(r).values, name);
    }
  }
}
