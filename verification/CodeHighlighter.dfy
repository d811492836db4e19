/** Syntax highlighting of one line of code. */
module CodeHighlighter {
  import opened Ansi
  import opened Sequences

  const RESET := "0"
  const FG_BLUE := "34"
  const FG_GREEN := "32"
  const FG_GRAY := "90"
  const BG_CODE := "48;2;40;40;40"

  const KEYWORDS: set<string> := {
    "function", "const", "let", "var", "if", "else", "for", "while", "return", "import", "export",
    "from", "class", "new",
    "this", "async", "await", "try", "catch", "throw", "switch", "case", "break", "continue", "default", "typeof",
    "instanceof", "in", "of", "true", "false", "null", "undefined", "fn", "pub", "use", "mod", "struct", "enum", "impl",
    "trait", "match", "self", "super", "crate", "mut", "ref", "type", "where", "move", "def", "print",
    "with", "as", "is",
    "not", "and", "or", "None", "True", "False"
  }

  predicate IsLetter(c: char) {
    'a' <= c <= 'z' || 'A' <= c <= 'Z' || c == '_'
  }

  predicate IsWordChar(c: char) {
    IsLetter(c) || '0' <= c <= '9'
  }

  datatype Kind = Quoted | Comment | Keyword | Other

  /** The piece of the line from `start`; `end` may be one behind the line after a trailing backslash in a string. */
  datatype Token = Token(kind: Kind, text: string, start: nat, end: nat)

  /** The first position from `end` on that holds the closing quote, or one at or behind the end of the line. */
  function ClosingQuote(line: string, quote: char, end: nat): (r: nat)
    ensures end <= r && (r <= |line| + 1 || r == end)
    ensures r < |line| ==> line[r] == quote
    decreases |line| - end
  {
    if end >= |line| || line[end] == quote then end
    else ClosingQuote(line, quote, if line[end] == '\\' then end + 2 else end + 1)
  }

  function WordEnd(line: string, end: nat): (r: nat)
    requires end <= |line|
    ensures end <= r <= |line|
    ensures forall k :: end <= k < r ==> IsWordChar(line[k])
    ensures r < |line| ==> !IsWordChar(line[r])
    decreases |line| - end
  {
    if end < |line| && IsWordChar(line[end]) then WordEnd(line, end + 1) else end
  }

  predicate StartsComment(line: string, i: nat)
    requires i < |line|
  {
    || (line[i] == '/' && i + 1 < |line| && line[i + 1] == '/')
    || (line[i] == '#' && (i == 0 || line[i - 1] == ' '))
  }

  function Clamp(end: nat, length: nat): nat {
    if end <= length then end else length
  }

  function NextToken(line: string, i: nat, keywords: set<string>): (t: Token)
    requires i < |line|
    ensures t.start == i < t.end && t.text == line[i..Clamp(t.end, |line|)]
  {
    if line[i] == '"' || line[i] == '\'' then
      var quote := ClosingQuote(line, line[i], i + 1);
      var end := if quote < |line| then quote + 1 else quote;
      Token(Quoted, line[i..Clamp(end, |line|)], i, end)
    else if StartsComment(line, i) then
      Token(Comment, line[i..], i, |line|)
    else if IsLetter(line[i]) then
      var end := WordEnd(line, i);
      assert end > i;
      Token(if line[i..end] in keywords then Keyword else Other, line[i..end], i, end)
    else
      Token(Other, line[i..i + 1], i, i + 1)
  }

  function Tokens(line: string, i: nat, keywords: set<string>): seq<Token>
    decreases |line| - i
  {
    if i >= |line| then []
    else
      var t := NextToken(line, i, keywords);
      [t] + Tokens(line, t.end, keywords)
  }

  /** The text in the given style, followed by a return to the style of the code block. */
  function Marked(style: string, text: string): string {
    Sgr(style) + text + Sgr(RESET) + Sgr(BG_CODE)
  }

  function StyleOf(kind: Kind): string
    requires !kind.Other?
  {
    match kind
    case Quoted => FG_GREEN
    case Comment => FG_GRAY
    case Keyword => FG_BLUE
  }

  function Written(t: Token): string {
    if t.kind.Other? then t.text else Marked(StyleOf(t.kind), t.text)
  }

  /** What the highlighted line is: its tokens in order, each written in its style. */
  function Rendered(tokens: seq<Token>): string {
    if tokens == [] then "" else Written(tokens[0]) + Rendered(tokens[1..])
  }

  // ----- the loops -----

  method ScanString(line: string, i: nat) returns (end: nat)
    requires i < |line|
    ensures end == var quote := ClosingQuote(line, line[i], i + 1); if quote < |line| then quote + 1 else quote
  {
    var quote := line[i];
    end := i + 1;
    while end < |line| && line[end] != quote
      invariant ClosingQuote(line, quote, end) == ClosingQuote(line, quote, i + 1)
      decreases |line| - end
    {
      if line[end] == '\\' {
        end := end + 1;
      }
      end := end + 1;
    }
    if end < |line| {
      end := end + 1;
    }
  }

  method ScanWord(line: string, i: nat) returns (end: nat)
    requires i <= |line|
    ensures end == WordEnd(line, i)
  {
    end := i;
    while end < |line| && IsWordChar(line[end])
      invariant end <= |line| && WordEnd(line, end) == WordEnd(line, i)
    {
      end := end + 1;
    }
  }

  /** The body of the loop: what the token at `i` adds to the result, and where the next one starts. */
  method HighlightToken(line: string, i: nat, keywords: set<string>) returns (piece: string, end: nat)
    requires i < |line|
    ensures var t := NextToken(line, i, keywords); piece == Written(t) && end == t.end
  {
    if line[i] == '"' || line[i] == '\'' {
      end := ScanString(line, i);
      piece := Marked(FG_GREEN, line[i..if end <= |line| then end else |line|]);
    } else if line[i] == '/' && i + 1 < |line| && line[i + 1] == '/' {
      piece, end := Marked(FG_GRAY, line[i..]), |line|;
    } else if line[i] == '#' && (i == 0 || line[i - 1] == ' ') {
      piece, end := Marked(FG_GRAY, line[i..]), |line|;
    } else if IsLetter(line[i]) {
      end := ScanWord(line, i);
      var word := line[i..end];
      piece := if word in keywords then Marked(FG_BLUE, word) else word;
    } else {
      piece, end := [line[i]], i + 1;
    }
  }

  method Highlight(line: string, keywords: set<string>) returns (result: string)
    ensures result == Rendered(Tokens(line, 0, keywords))
  {
    result := "";
    var i := 0;
    while i < |line|
      invariant result + Rendered(Tokens(line, i, keywords)) == Rendered(Tokens(line, 0, keywords))
      decreases |line| - i
    {
      OneToken(result, line, i, keywords);
      var piece, end := HighlightToken(line, i, keywords);
      result := result + piece;
      i := end;
    }
  }

  method HighlightCodeLine(line: string) returns (result: string)
    ensures result == Rendered(Tokens(line, 0, KEYWORDS))
  {
    result := Highlight(line, KEYWORDS);
  }

  lemma OneToken(result: string, line: string, i: nat, keywords: set<string>)
    requires i < |line|
    ensures var t := NextToken(line, i, keywords);
            result + Rendered(Tokens(line, i, keywords))
              == result + Written(t) + Rendered(Tokens(line, t.end, keywords))
  {
    var t := NextToken(line, i, keywords);
    FirstRendered(t, Tokens(line, t.end, keywords));
    Regroup(result, Written(t), Rendered(Tokens(line, t.end, keywords)));
  }

  lemma FirstRendered(t: Token, rest: seq<Token>)
    ensures Rendered([t] + rest) == Written(t) + Rendered(rest)
  {
    assert ([t] + rest)[1..] == rest;
  }

  // ----- guarantees -----

  lemma StyleVanishes(style: string, rest: string)
    requires style == RESET || style == FG_BLUE || style == FG_GREEN || style == FG_GRAY || style == BG_CODE
    ensures Erased(Sgr(style) + rest) == Erased(rest)
  {
    ErasedStyle(style, rest);
  }

  lemma ErasedToken(t: Token, rest: string)
    requires NoEscape(t.text)
    ensures Erased(Written(t) + rest) == t.text + Erased(rest)
  {
    if t.kind.Other? {
      ErasedPlain(t.text, rest);
    } else {
      var style := StyleOf(t.kind);
      MarkedApart(style, t.text, rest);
      StyleVanishes(style, t.text + (Sgr(RESET) + (Sgr(BG_CODE) + rest)));
      ErasedPlain(t.text, Sgr(RESET) + (Sgr(BG_CODE) + rest));
      StyleVanishes(RESET, Sgr(BG_CODE) + rest);
      StyleVanishes(BG_CODE, rest);
    }
  }

  lemma MarkedApart(style: string, text: string, rest: string)
    ensures Marked(style, text) + rest == Sgr(style) + (text + (Sgr(RESET) + (Sgr(BG_CODE) + rest)))
  {
    Apart(Sgr(style), text, Sgr(RESET), Sgr(BG_CODE), rest);
  }

  lemma Apart(a: string, b: string, c: string, d: string, e: string)
    ensures a + b + c + d + e == a + (b + (c + (d + e)))
  {
    Regroup(a + b + c, d, e);
    Regroup(a + b, c, d + e);
    Regroup(a, b, c + (d + e));
  }

  /** Erasing the styles of a highlighted line without escape characters gives back the line. */
  lemma ErasingGivesTheLine(line: string, keywords: set<string>)
    requires NoEscape(line)
    ensures Erased(Rendered(Tokens(line, 0, keywords))) == line
  {
    ErasingGivesTheRest(line, 0, keywords);
    assert line[0..] == line;
  }

  lemma {:induction false} ErasingGivesTheRest(line: string, i: nat, keywords: set<string>)
    requires NoEscape(line)
    ensures Erased(Rendered(Tokens(line, i, keywords))) == line[Clamp(i, |line|)..]
    decreases |line| - i
  {
    if i < |line| {
      var t := NextToken(line, i, keywords);
      ErasingGivesTheRest(line, t.end, keywords);
      FirstRendered(t, Tokens(line, t.end, keywords));
      ErasedToken(t, Rendered(Tokens(line, t.end, keywords)));
      CutInTwo(line, i, Clamp(t.end, |line|));
    }
  }

  lemma CutInTwo(s: string, i: nat, j: nat)
    requires i <= j <= |s|
    ensures s[i..] == s[i..j] + s[j..]
  {
  }

  /**
   A piece of the line: words are marked iff they are keywords, a comment is the last token,
   and only the last string may be open.
   */
  predicate WellMarked(t: Token, line: string, keywords: set<string>, last: bool) {
    && t.text != "" && t.start < |line| && t.start < t.end && t.text == line[t.start..Clamp(t.end, |line|)]
    && (t.kind.Keyword? || (t.kind.Other? && IsLetter(t.text[0])) ==> (t.kind.Keyword? <==> t.text in keywords))
    && (t.kind.Comment? ==> last)
    && (t.kind.Quoted? && !last ==> t.text[|t.text| - 1] == t.text[0])
  }

  lemma NextIsMarked(line: string, i: nat, keywords: set<string>)
    requires i < |line|
    ensures var t := NextToken(line, i, keywords); WellMarked(t, line, keywords, t.end >= |line|)
  {
    var t := NextToken(line, i, keywords);
    assert t.text[0] == line[i];
  }

  /** Every token is marked as it should be. */
  lemma {:induction false} TokensAreMarked(line: string, i: nat, keywords: set<string>, k: nat)
    requires k < |Tokens(line, i, keywords)|
    ensures WellMarked(Tokens(line, i, keywords)[k], line, keywords, k == |Tokens(line, i, keywords)| - 1)
    decreases |line| - i
  {
    var t := NextToken(line, i, keywords);
    if k > 0 {
      TokensAreMarked(line, t.end, keywords, k - 1);
    } else {
      NextIsMarked(line, i, keywords);
      assert Tokens(line, t.end, keywords) == [] <==> t.end >= |line|;
    }
  }

  /** The characters from `start` to `end` are a word of the line: word characters, and none next to them. */
  predicate WholeWord(line: string, start: nat, end: nat)
    requires start <= end <= |line|
  {
    && (forall k :: start <= k < end ==> IsWordChar(line[k]))
    && (start == 0 || !IsWordChar(line[start - 1]))
    && (end == |line| || !IsWordChar(line[end]))
  }

  /** A token that starts here does not start in the middle of letters. */
  predicate AtTokenStart(line: string, i: nat) {
    0 < i < |line| && IsWordChar(line[i]) ==> !IsLetter(line[i - 1])
  }

  lemma TokensDoNotSplitLetters(line: string, i: nat, keywords: set<string>)
    requires i < |line| && AtTokenStart(line, i)
    ensures AtTokenStart(line, NextToken(line, i, keywords).end)
  {
    var t := NextToken(line, i, keywords);
    if t.end < |line| && IsLetter(line[i]) && !StartsComment(line, i) {
      assert !IsWordChar(line[t.end]);
    }
  }

  /**
   What is marked is in the table of keywords and ends where a word of the line
   ends; it is a whole word of the line iff no digit stands before it.
   */
  lemma {:induction false} KeywordsAreWholeIff(line: string, i: nat, keywords: set<string>, k: nat)
    requires AtTokenStart(line, i) && k < |Tokens(line, i, keywords)|
    requires Tokens(line, i, keywords)[k].kind.Keyword?
    ensures var t := Tokens(line, i, keywords)[k];
            && t.start < t.end <= |line| && line[t.start..t.end] in keywords
            && (WholeWord(line, t.start, t.end) <==> t.start == 0 || !('0' <= line[t.start - 1] <= '9'))
    decreases |line| - i
  {
    var t := NextToken(line, i, keywords);
    if k > 0 {
      TokensDoNotSplitLetters(line, i, keywords);
      KeywordsAreWholeIff(line, t.end, keywords, k - 1);
    }
  }

  /** In `2if` the `if` is marked although the word of the line is `2if`. */
  lemma TailOfAWordIsMarked()
    ensures var tokens := Tokens("2if", 0, KEYWORDS);
            && |tokens| == 2 && tokens[1] == Token(Keyword, "if", 1, 3)
            && !WholeWord("2if", 1, 3)
  {
    var line := "2if";
    assert NextToken(line, 0, KEYWORDS) == Token(Other, "2", 0, 1);
    assert WordEnd(line, 1) == 3 && line[1..3] == "if" && "if" in KEYWORDS;
    assert NextToken(line, 1, KEYWORDS) == Token(Keyword, "if", 1, 3);
    assert Tokens(line, 3, KEYWORDS) == [];
    assert Tokens(line, 1, KEYWORDS) == [Token(Keyword, "if", 1, 3)];
  }

  // ----- what each token is -----

  predicate IsQuote(c: char) {
    c == '"' || c == '\''
  }

  /** A comment starts here: two slashes, or a hash at the start of the line or behind a space. */
  predicate CommentAt(line: string, i: nat) {
    || (i + 1 < |line| && line[i] == '/' && line[i + 1] == '/')
    || (i < |line| && line[i] == '#' && (i == 0 || line[i - 1] == ' '))
  }

  /**
   The tokens cover the line from `i` on, one behind the other; what each of them is depends
   on its first characters.
   */
  lemma {:induction false} TokensAreWhatTheyStartWith(line: string, i: nat, keywords: set<string>, k: nat)
    requires k < |Tokens(line, i, keywords)|
    ensures var tokens := Tokens(line, i, keywords);
            var t := tokens[k];
            && t.start < |line| && t.start == (if k == 0 then i else tokens[k - 1].end)
            && (k == |tokens| - 1 <==> t.end >= |line|)
            && (t.kind.Quoted? <==> IsQuote(line[t.start]))
            && (t.kind.Comment? <==> CommentAt(line, t.start))
            && (t.kind.Comment? ==> t.end == |line|)
            && (t.kind.Keyword? ==> IsLetter(line[t.start]) && t.text in keywords)
            && (t.kind.Other? && !IsLetter(line[t.start]) ==> t.end == t.start + 1)
            && (t.kind.Keyword? || (t.kind.Other? && IsLetter(line[t.start])) ==> IsLongestWord(line, t.start, t.end))
    decreases |line| - i
  {
    var t := NextToken(line, i, keywords);
    var rest := Tokens(line, t.end, keywords);
    assert rest == [] <==> t.end >= |line|;
    if k > 0 {
      TokensAreWhatTheyStartWith(line, t.end, keywords, k - 1);
      assert Tokens(line, i, keywords)[k] == rest[k - 1];
      assert k > 1 ==> Tokens(line, i, keywords)[k - 1] == rest[k - 2];
    }
  }

  /** Word characters from `start` to `end`, and none behind them. */
  predicate IsLongestWord(line: string, start: nat, end: nat) {
    && start < end <= |line| && (forall k :: start <= k < end ==> IsWordChar(line[k]))
    && (end < |line| ==> !IsWordChar(line[end]))
  }

  /** A backslash that is not itself escaped stands right before position `j`, from `from` on: an odd number of them. */
  predicate Escaped(line: string, from: nat, j: nat)
    requires j <= |line|
    decreases j
  {
    j > from && line[j - 1] == '\\' && !Escaped(line, from, j - 1)
  }

  /** Every quote of that kind between `from` and `end` is escaped. */
  ghost predicate NoneCloses(line: string, quote: char, from: nat, end: nat) {
    forall j :: from <= j < end && j < |line| && line[j] == quote ==> Escaped(line, from, j)
  }

  lemma {:induction false} FirstUnescapedQuoteCloses(line: string, quote: char, from: nat, end: nat)
    requires from <= end && IsQuote(quote)
    requires end <= |line| ==> !Escaped(line, from, end)
    requires NoneCloses(line, quote, from, end)
    ensures var r := ClosingQuote(line, quote, end);
            && (r < |line| ==> line[r] == quote && !Escaped(line, from, r)) && NoneCloses(line, quote, from, r)
    decreases |line| - end
  {
    if end < |line| && line[end] != quote {
      if line[end] == '\\' {
        if end + 1 <= |line| {
          assert Escaped(line, from, end + 1);
        }
        if end + 2 <= |line| {
          assert !Escaped(line, from, end + 2);
        }
        FirstUnescapedQuoteCloses(line, quote, from, end + 2);
      } else {
        FirstUnescapedQuoteCloses(line, quote, from, end + 1);
      }
    }
  }

  /**
   A string ends behind the first quote of its own kind that is not escaped; without one it
   is the rest of the line.
   */
  lemma StringsEndBehindTheirQuote(line: string, i: nat, keywords: set<string>)
    requires i < |line| && IsQuote(line[i])
    ensures var t := NextToken(line, i, keywords);
            && t.kind.Quoted?
            && (t.end < |line| ==>
                  t.end - 1 > i && line[t.end - 1] == line[i] && !Escaped(line, i + 1, t.end - 1))
            && NoneCloses(line, line[i], i + 1, t.end - 1)
  {
    FirstUnescapedQuoteCloses(line, line[i], i + 1, i + 1);
  }

  /** Strings are green, comments gray and keywords blue; behind each of them the style of the code block comes back. */
  lemma StylesAre(t: Token)
    ensures t.kind.Quoted? ==> Written(t) == Sgr("32") + t.text + Sgr("0") + Sgr("48;2;40;40;40")
    ensures t.kind.Comment? ==> Written(t) == Sgr("90") + t.text + Sgr("0") + Sgr("48;2;40;40;40")
    ensures t.kind.Keyword? ==> Written(t) == Sgr("34") + t.text + Sgr("0") + Sgr("48;2;40;40;40")
    ensures t.kind.Other? ==> Written(t) == t.text
  {
  }
}
