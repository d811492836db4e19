/**
 The message splitters of the three gateways, on UTF-16 text. Each cuts the front
 off what remains until the rest fits; they differ in where they cut.
 */
module MessageSplitters {
  import opened Wrappers
  import opened Sequences

  type CodeUnit = c: int | 0 <= c < 0x1_0000

  type Text = seq<CodeUnit>

  const NEWLINE: CodeUnit := 10
  const PARAGRAPH: Text := [10, 10]
  const FENCE: Text := [10, 96, 96, 96, 10]

  predicate MatchesAt(text: Text, pattern: Text, i: int) {
    0 <= i && i + |pattern| <= |text| && text[i..i + |pattern|] == pattern
  }

  function LastMatchUpTo(text: Text, pattern: Text, k: int): int
    requires -1 <= k
  {
    if k == -1 then -1
    else if MatchesAt(text, pattern, k) then k
    else LastMatchUpTo(text, pattern, k - 1)
  }

  function LastIndexOf(text: Text, pattern: Text): int {
    LastMatchUpTo(text, pattern, |text|)
  }

  lemma {:induction false} LastMatchIs(text: Text, pattern: Text, k: int)
    requires -1 <= k
    ensures var i := LastMatchUpTo(text, pattern, k);
            && -1 <= i <= k && (i >= 0 ==> MatchesAt(text, pattern, i))
            && forall j :: i < j <= k ==> !MatchesAt(text, pattern, j)
  {
    if k > -1 && !MatchesAt(text, pattern, k) {
      LastMatchIs(text, pattern, k - 1);
    }
  }

  /** The position of the last occurrence of `pattern`, or -1. */
  lemma LastIndexIs(text: Text, pattern: Text)
    ensures var i := LastIndexOf(text, pattern);
            && -1 <= i && (i >= 0 ==> MatchesAt(text, pattern, i))
            && forall j :: i < j ==> !MatchesAt(text, pattern, j)
  {
    LastMatchIs(text, pattern, |text|);
  }

  lemma LastIndexHas(text: Text, pattern: Text, k: nat)
    requires LastIndexOf(text, pattern) >= 0 && k < |pattern|
    ensures var i := LastIndexOf(text, pattern); i + |pattern| <= |text| && text[i + k] == pattern[k]
  {
    LastIndexIs(text, pattern);
    var i := LastIndexOf(text, pattern);
    assert text[i..i + |pattern|][k] == text[i + k];
  }

  // ----- cutting by a rule -----

  function Joined(chunks: seq<Text>): Text {
    if chunks == [] then [] else chunks[0] + Joined(chunks[1..])
  }

  /** A rule cuts something off, and no more than there is. */
  ghost predicate Cuts(cut: Text -> int, max: nat) {
    forall r: Text :: |r| > max ==> 1 <= cut(r) <= |r|
  }

  function Chunks(remaining: Text, max: nat, cut: Text -> int): seq<Text>
    requires Cuts(cut, max)
    decreases |remaining|
  {
    if |remaining| <= max then
      if remaining == [] then [] else [remaining]
    else
      [remaining[..cut(remaining)]] + Chunks(remaining[cut(remaining)..], max, cut)
  }

  /** The chunks of a message; a text that fits stays whole, even when empty. */
  function Split(text: Text, max: nat, cut: Text -> int): seq<Text>
    requires Cuts(cut, max)
  {
    if |text| <= max then [text] else Chunks(text, max, cut)
  }

  /** One pass of a splitter's loop. */
  lemma CutOff(chunks: seq<Text>, remaining: Text, max: nat, cut: Text -> int, front: Text, rest: Text)
    requires Cuts(cut, max) && |remaining| > max
    requires front == remaining[..cut(remaining)] && rest == remaining[cut(remaining)..]
    ensures chunks + [front] + Chunks(rest, max, cut) == chunks + Chunks(remaining, max, cut)
  {
    Regroup(chunks, [front], Chunks(rest, max, cut));
  }

  lemma {:induction false} ChunksJoin(remaining: Text, max: nat, cut: Text -> int)
    requires Cuts(cut, max)
    ensures Joined(Chunks(remaining, max, cut)) == remaining
    decreases |remaining|
  {
    if |remaining| > max {
      ChunksJoin(remaining[cut(remaining)..], max, cut);
    }
  }

  /** The chunks of any splitter, put together, are the message. */
  lemma SplitJoins(text: Text, max: nat, cut: Text -> int)
    requires Cuts(cut, max)
    ensures Joined(Split(text, max, cut)) == text
  {
    if |text| > max {
      ChunksJoin(text, max, cut);
    }
  }

  /** What `good` says of every cut-off front and of every rest that fits, it says of every chunk. */
  lemma {:induction false} EveryChunk(remaining: Text, max: nat, cut: Text -> int, good: Text -> bool)
    requires Cuts(cut, max)
    requires forall r: Text :: |r| > max ==> good(r[..cut(r)])
    requires forall r: Text :: |r| <= max ==> good(r)
    ensures forall i :: 0 <= i < |Chunks(remaining, max, cut)| ==> good(Chunks(remaining, max, cut)[i])
    decreases |remaining|
  {
    if |remaining| > max {
      EveryChunk(remaining[cut(remaining)..], max, cut, good);
    }
  }

  // ----- WhatsApp -----

  function WhatsAppCut(remaining: Text, max: nat): int
    requires |remaining| > max
  {
    var region := remaining[..max];
    var paragraph, line := LastIndexOf(region, PARAGRAPH), LastIndexOf(region, [NEWLINE]);
    if paragraph > 0 then paragraph + 2
    else if line > 0 then line + 1
    else max
  }

  function WhatsAppRule(max: nat): Text -> int {
    (r: Text) => if |r| > max then WhatsAppCut(r, max) else 0
  }

  lemma WhatsAppCutFits(remaining: Text, max: nat)
    requires |remaining| > max
    ensures 0 <= WhatsAppCut(remaining, max) <= max
    ensures max >= 1 ==> WhatsAppCut(remaining, max) >= 1
  {
    LastIndexIs(remaining[..max], PARAGRAPH);
    LastIndexIs(remaining[..max], [NEWLINE]);
  }

  /**
   The loop makes progress on every message that does not fit iff the limit is positive; with
   limit 0 a pass changes nothing.
   */
  lemma WhatsAppProgressIff(max: nat)
    ensures Cuts(WhatsAppRule(max), max) <==> max >= 1
    ensures max == 0 ==> forall r: Text :: r != [] ==> WhatsAppRule(0)(r) == 0
  {
    if max == 0 {
      forall r: Text | r != [] ensures WhatsAppRule(0)(r) == 0 {
        WhatsAppCutFits(r, 0);
      }
      assert WhatsAppRule(0)([65]) == 0;
    } else {
      forall r: Text | |r| > max ensures 1 <= WhatsAppRule(max)(r) <= |r| {
        WhatsAppCutFits(r, max);
      }
    }
  }

  method WhatsAppSplitIndex(remaining: Text, maxLength: nat) returns (splitIdx: int)
    requires |remaining| > maxLength
    ensures splitIdx == WhatsAppCut(remaining, maxLength)
  {
    splitIdx := -1;
    var searchRegion := remaining[..maxLength];
    var paraIdx := LastIndexOf(searchRegion, PARAGRAPH);
    if paraIdx > 0 {
      splitIdx := paraIdx + 2;
    }
    if splitIdx < 0 {
      var lineIdx := LastIndexOf(searchRegion, [NEWLINE]);
      if lineIdx > 0 {
        splitIdx := lineIdx + 1;
      }
    }
    if splitIdx < 0 {
      splitIdx := maxLength;
    }
  }

  method WhatsAppSplit(text: Text, maxLength: nat) returns (chunks: seq<Text>)
    requires |text| <= maxLength || maxLength >= 1
    ensures |text| <= maxLength ==> chunks == [text]
    ensures maxLength >= 1 ==>
              Cuts(WhatsAppRule(maxLength), maxLength) && chunks == Split(text, maxLength, WhatsAppRule(maxLength))
  {
    WhatsAppProgressIff(maxLength);
    if |text| <= maxLength {
      return [text];
    }
    ghost var rule := WhatsAppRule(maxLength);
    chunks := [];
    var remaining := text;
    while |remaining| > maxLength
      invariant chunks + Chunks(remaining, maxLength, rule) == Chunks(text, maxLength, rule)
      decreases |remaining|
    {
      var splitIdx := WhatsAppSplitIndex(remaining, maxLength);
      WhatsAppCutFits(remaining, maxLength);
      CutOff(chunks, remaining, maxLength, rule, remaining[..splitIdx], remaining[splitIdx..]);
      chunks := chunks + [remaining[..splitIdx]];
      remaining := remaining[splitIdx..];
    }
    if |remaining| > 0 {
      chunks := chunks + [remaining];
    }
  }

  // ----- Feishu -----

  function FeishuCut(remaining: Text, max: nat): int
    requires |remaining| > max
  {
    var region := remaining[..max];
    var fence, paragraph, line :=
      LastIndexOf(region, FENCE), LastIndexOf(region, PARAGRAPH), LastIndexOf(region, [NEWLINE]);
    if fence > 0 then fence + 5
    else if paragraph > 0 then paragraph + 2
    else if line > 0 then line + 1
    else max
  }

  function FeishuRule(max: nat): Text -> int {
    (r: Text) => if |r| > max then FeishuCut(r, max) else 0
  }

  lemma FeishuCutFits(remaining: Text, max: nat)
    requires |remaining| > max
    ensures 0 <= FeishuCut(remaining, max) <= max
    ensures max >= 1 ==> FeishuCut(remaining, max) >= 1
  {
    LastIndexIs(remaining[..max], FENCE);
    LastIndexIs(remaining[..max], PARAGRAPH);
    LastIndexIs(remaining[..max], [NEWLINE]);
  }

  lemma FeishuProgressIff(max: nat)
    ensures Cuts(FeishuRule(max), max) <==> max >= 1
    ensures max == 0 ==> forall r: Text :: r != [] ==> FeishuRule(0)(r) == 0
  {
    if max == 0 {
      forall r: Text | r != [] ensures FeishuRule(0)(r) == 0 {
        FeishuCutFits(r, 0);
      }
      assert FeishuRule(0)([65]) == 0;
    } else {
      forall r: Text | |r| > max ensures 1 <= FeishuRule(max)(r) <= |r| {
        FeishuCutFits(r, max);
      }
    }
  }

  method FeishuSplitIndex(remaining: Text, maxLength: nat) returns (splitIdx: int)
    requires |remaining| > maxLength
    ensures splitIdx == FeishuCut(remaining, maxLength)
  {
    var region := remaining[..maxLength];
    splitIdx := LastIndexOf(region, FENCE);
    if splitIdx > 0 {
      splitIdx := splitIdx + 5;
    }
    if splitIdx <= 0 {
      var paraIdx := LastIndexOf(region, PARAGRAPH);
      if paraIdx > 0 { splitIdx := paraIdx + 2; }
    }
    if splitIdx <= 0 {
      var lineIdx := LastIndexOf(region, [NEWLINE]);
      if lineIdx > 0 { splitIdx := lineIdx + 1; }
    }
    if splitIdx <= 0 { splitIdx := maxLength; }
  }

  method FeishuSplit(text: Text, maxLength: nat) returns (chunks: seq<Text>)
    requires |text| <= maxLength || maxLength >= 1
    ensures |text| <= maxLength ==> chunks == [text]
    ensures maxLength >= 1 ==>
              Cuts(FeishuRule(maxLength), maxLength) && chunks == Split(text, maxLength, FeishuRule(maxLength))
  {
    FeishuProgressIff(maxLength);
    if |text| <= maxLength {
      return [text];
    }
    ghost var rule := FeishuRule(maxLength);
    chunks := [];
    var remaining := text;
    while |remaining| > maxLength
      invariant chunks + Chunks(remaining, maxLength, rule) == Chunks(text, maxLength, rule)
      decreases |remaining|
    {
      var splitIdx := FeishuSplitIndex(remaining, maxLength);
      FeishuCutFits(remaining, maxLength);
      CutOff(chunks, remaining, maxLength, rule, remaining[..splitIdx], remaining[splitIdx..]);
      chunks := chunks + [remaining[..splitIdx]];
      remaining := remaining[splitIdx..];
    }
    if |remaining| > 0 {
      chunks := chunks + [remaining];
    }
  }

  /** WhatsApp and Feishu messages come out whole, in chunks within the limit. */
  lemma GatewayChunks(text: Text, max: nat)
    requires max >= 1
    ensures Cuts(WhatsAppRule(max), max) && Cuts(FeishuRule(max), max)
    ensures Joined(Split(text, max, WhatsAppRule(max))) == text && Joined(Split(text, max, FeishuRule(max))) == text
    ensures forall i :: 0 <= i < |Split(text, max, WhatsAppRule(max))| ==>
              |Split(text, max, WhatsAppRule(max))[i]| <= max
    ensures forall i :: 0 <= i < |Split(text, max, FeishuRule(max))| ==> |Split(text, max, FeishuRule(max))[i]| <= max
  {
    WhatsAppProgressIff(max);
    FeishuProgressIff(max);
    SplitJoins(text, max, WhatsAppRule(max));
    SplitJoins(text, max, FeishuRule(max));
    var fits := (r: Text) => |r| <= max;
    forall r: Text | |r| > max ensures fits(r[..WhatsAppRule(max)(r)]) && fits(r[..FeishuRule(max)(r)]) {
      WhatsAppCutFits(r, max);
      FeishuCutFits(r, max);
    }
    EveryChunk(text, max, WhatsAppRule(max), fits);
    EveryChunk(text, max, FeishuRule(max), fits);
  }

  // ----- Telegram -----

  predicate IsHighSurrogate(code: CodeUnit) {
    0xd800 <= code <= 0xdbff
  }

  predicate IsLowSurrogate(code: CodeUnit) {
    0xdc00 <= code <= 0xdfff
  }

  predicate WellFormed(text: Text) {
    && (forall i :: 0 <= i < |text| && IsHighSurrogate(text[i]) ==> i + 1 < |text| && IsLowSurrogate(text[i + 1]))
    && (forall i :: 0 <= i < |text| && IsLowSurrogate(text[i]) ==> 0 < i && IsHighSurrogate(text[i - 1]))
  }

  function Slice(text: Text, end: nat): Text {
    if end <= |text| then text[..end] else text
  }

  /** The hard end: not between the halves of a pair, unless the limit is one unit. */
  function TelegramEnd(remaining: Text, max: nat): (end: nat)
    requires |remaining| > max >= 1
    ensures 1 <= end <= |remaining|
  {
    if IsHighSurrogate(remaining[max - 1]) then (if max == 1 then 2 else max - 1) else max
  }

  /** A paragraph break, or else a line break, or else the hard end. */
  function Preferred(paragraph: int, line: int, end: nat): int {
    if paragraph > 0 then paragraph
    else if line > 0 then line
    else end
  }

  function TelegramCut(remaining: Text, max: nat): int
    requires |remaining| > max >= 1
  {
    var end := TelegramEnd(remaining, max);
    Preferred(LastIndexOf(Slice(remaining, end + 2), PARAGRAPH), LastIndexOf(Slice(remaining, end + 1), [NEWLINE]), end)
  }

  function TelegramRule(max: nat): Text -> int
    requires max >= 1
  {
    (r: Text) => if |r| > max then TelegramCut(r, max) else 0
  }

  lemma TelegramCutFits(remaining: Text, max: nat)
    requires |remaining| > max >= 1
    ensures 1 <= TelegramCut(remaining, max) <= TelegramEnd(remaining, max) <= |remaining|
    ensures TelegramCut(remaining, max) < TelegramEnd(remaining, max) ==>
              remaining[TelegramCut(remaining, max)] == NEWLINE
  {
    var end := TelegramEnd(remaining, max);
    var paragraph := LastIndexOf(Slice(remaining, end + 2), PARAGRAPH);
    var line := LastIndexOf(Slice(remaining, end + 1), [NEWLINE]);
    if paragraph > 0 {
      LastIndexHas(Slice(remaining, end + 2), PARAGRAPH, 0);
    } else if line > 0 {
      LastIndexHas(Slice(remaining, end + 1), [NEWLINE], 0);
    }
  }

  lemma TelegramCuts(max: nat)
    requires max >= 1
    ensures Cuts(TelegramRule(max), max)
  {
    forall r: Text | |r| > max ensures 1 <= TelegramRule(max)(r) <= |r| {
      TelegramCutFits(r, max);
    }
  }

  /** `slice` with an end that may lie behind the text. */
  function SliceFrom(text: Text, start: nat, end: nat): Text
    requires start <= |text| && start <= end
  {
    if end <= |text| then text[start..end] else text[start..]
  }

  lemma SliceOfRest(text: Text, start: nat, end: nat)
    requires start <= |text| && start <= end
    ensures SliceFrom(text, start, end) == Slice(text[start..], end - start)
  {
    if end <= |text| {
      Slices(text, start, end);
    }
  }

  lemma EndOfRest(text: Text, offset: nat, max: nat)
    requires offset <= |text| && |text| - offset > max >= 1
    ensures var hard := offset + max;
            offset + TelegramEnd(text[offset..], max)
            == if !IsHighSurrogate(text[hard - 1]) then hard else if hard == offset + 1 then hard + 1 else hard - 1
  {
    assert text[offset..][max - 1] == text[offset + max - 1];
  }

  lemma CutOfRest(text: Text, offset: nat, max: nat, end: nat)
    requires offset <= |text| && |text| - offset > max >= 1
    requires var hard := offset + max;
             end == if !IsHighSurrogate(text[hard - 1]) then hard else if hard == offset + 1 then hard + 1 else hard - 1
    ensures TelegramEnd(text[offset..], max) == end - offset
    ensures Slice(text[offset..], end - offset + 2) == SliceFrom(text, offset, end + 2)
    ensures Slice(text[offset..], end - offset + 1) == SliceFrom(text, offset, end + 1)
  {
    EndOfRest(text, offset, max);
    SliceOfRest(text, offset, end + 2);
    SliceOfRest(text, offset, end + 1);
  }

  method TelegramSplitAt(text: Text, offset: nat, max: nat) returns (splitAt: nat)
    requires offset <= |text| && |text| - offset > max >= 1
    ensures splitAt == offset + TelegramCut(text[offset..], max)
  {
    var end := offset + max;
    if IsHighSurrogate(text[end - 1]) {
      end := if end == offset + 1 then end + 1 else end - 1;
    }
    CutOfRest(text, offset, max, end);
    var relSplit := LastIndexOf(SliceFrom(text, offset, end + 2), PARAGRAPH);
    if relSplit <= 0 {
      relSplit := LastIndexOf(SliceFrom(text, offset, end + 1), [NEWLINE]);
    }
    splitAt := if relSplit > 0 then offset + relSplit else end;
  }

  /** The chunks of what remains. */
  function TelegramRest(remaining: Text, max: nat): seq<Text>
    requires max >= 1
  {
    TelegramCuts(max);
    Chunks(remaining, max, TelegramRule(max))
  }

  lemma TelegramPiece(remaining: Text, max: nat, front: Text, rest: Text)
    requires |remaining| > max >= 1
    requires var cut := TelegramCut(remaining, max);
             1 <= cut <= |remaining| && front == remaining[..cut] && rest == remaining[cut..]
    ensures TelegramRest(remaining, max) == [front] + TelegramRest(rest, max)
  {
    TelegramCuts(max);
    assert TelegramRule(max)(remaining) == TelegramCut(remaining, max);
  }

  lemma TelegramLast(remaining: Text, max: nat)
    requires |remaining| <= max && max >= 1
    ensures TelegramRest(remaining, max) == if remaining == [] then [] else [remaining]
  {
  }

  method TelegramNext(text: Text, offset: nat, max: nat) returns (splitAt: nat)
    requires offset <= |text| && |text| - offset > max >= 1
    ensures offset < splitAt <= |text|
    ensures TelegramRest(text[offset..], max) == [text[offset..splitAt]] + TelegramRest(text[splitAt..], max)
  {
    splitAt := TelegramSplitAt(text, offset, max);
    TelegramCutFits(text[offset..], max);
    Slices(text, offset, splitAt);
    TelegramPiece(text[offset..], max, text[offset..splitAt], text[splitAt..]);
  }

  method TelegramPieces(text: Text, max: nat) returns (chunks: seq<Text>)
    requires max >= 1
    ensures chunks == TelegramRest(text, max)
  {
    chunks := [];
    var offset := 0;
    assert text[0..] == text;
    while |text| - offset > max
      invariant 0 <= offset <= |text|
      invariant chunks + TelegramRest(text[offset..], max) == TelegramRest(text, max)
      decreases |text| - offset
    {
      var splitAt := TelegramNext(text, offset, max);
      Regroup(chunks, [text[offset..splitAt]], TelegramRest(text[splitAt..], max));
      chunks := chunks + [text[offset..splitAt]];
      offset := splitAt;
    }
    TelegramLast(text[offset..], max);
    if offset < |text| {
      chunks := chunks + [text[offset..]];
    }
  }

  method TelegramSplit(text: Text, max: int) returns (r: Result<seq<Text>, string>)
    ensures r.Failure? <==> max < 1
    ensures r.Success? ==>
              Cuts(TelegramRule(max), max) && r.value == Split(text, max, TelegramRule(max))
  {
    if max < 1 {
      return Failure("max must be greater than zero");
    }
    TelegramCuts(max);
    if |text| <= max {
      return Success([text]);
    }
    var chunks := TelegramPieces(text, max);
    return Success(chunks);
  }

  lemma Slices(text: Text, a: nat, b: nat)
    requires a <= b <= |text|
    ensures text[a..b] == text[a..][..b - a] && text[b..] == text[a..][b - a..]
  {
  }

  /** No cut of well-formed text falls between the halves of a surrogate pair. */
  lemma TelegramCutKeepsPairs(remaining: Text, max: nat)
    requires |remaining| > max >= 1 && WellFormed(remaining)
    ensures var k := TelegramCut(remaining, max);
            0 < k <= |remaining| && WellFormed(remaining[..k]) && WellFormed(remaining[k..])
  {
    TelegramCutFits(remaining, max);
    var k := TelegramCut(remaining, max);
    assert !IsHighSurrogate(remaining[k - 1]);
    var rest := remaining[k..];
    assert forall i :: 0 <= i < |rest| ==> rest[i] == remaining[k + i];
  }

  lemma {:induction false} TelegramChunksKeepPairs(remaining: Text, max: nat)
    requires max >= 1 && WellFormed(remaining) && Cuts(TelegramRule(max), max)
    ensures forall i :: 0 <= i < |Chunks(remaining, max, TelegramRule(max))| ==>
              WellFormed(Chunks(remaining, max, TelegramRule(max))[i])
    decreases |remaining|
  {
    if |remaining| > max {
      TelegramCutKeepsPairs(remaining, max);
      TelegramCutFits(remaining, max);
      TelegramChunksKeepPairs(remaining[TelegramCut(remaining, max)..], max);
    }
  }

  /**
   A Telegram message comes out whole; every chunk is within the limit, or is one
   pair under a limit of one unit; and a well-formed message gives well-formed chunks.
   */
  lemma TelegramChunks(text: Text, max: nat)
    requires max >= 1
    ensures Cuts(TelegramRule(max), max)
    ensures Joined(Split(text, max, TelegramRule(max))) == text
    ensures forall i :: 0 <= i < |Split(text, max, TelegramRule(max))| ==>
              var chunk := Split(text, max, TelegramRule(max))[i];
              |chunk| <= max || (max == 1 && |chunk| == 2 && IsHighSurrogate(chunk[0]))
    ensures WellFormed(text) ==>
              forall i :: 0 <= i < |Split(text, max, TelegramRule(max))| ==>
                WellFormed(Split(text, max, TelegramRule(max))[i])
  {
    TelegramCuts(max);
    SplitJoins(text, max, TelegramRule(max));
    var fits := (r: Text) => |r| <= max || (max == 1 && |r| == 2 && IsHighSurrogate(r[0]));
    forall r: Text | |r| > max ensures fits(r[..TelegramRule(max)(r)]) {
      TelegramCutFits(r, max);
    }
    EveryChunk(text, max, TelegramRule(max), fits);
    if WellFormed(text) {
      TelegramChunksKeepPairs(text, max);
    }
  }

  // ----- where the cuts are -----

  predicate HasNewline(text: Text, from: int, to: int) {
    exists i :: from <= i < to && MatchesAt(text, [NEWLINE], i)
  }

  /**
   A chunk ends at a line boundary whenever its region has one behind its first
   unit; WhatsApp and Feishu keep the newline, Telegram leaves it.
   */
  lemma CutsAtLineBoundaries(remaining: Text, max: nat)
    requires |remaining| > max >= 1
    ensures HasNewline(remaining[..max], 1, max) ==>
              && 1 <= WhatsAppCut(remaining, max) <= max && remaining[WhatsAppCut(remaining, max) - 1] == NEWLINE
              && 1 <= FeishuCut(remaining, max) <= max && remaining[FeishuCut(remaining, max) - 1] == NEWLINE
    ensures HasNewline(Slice(remaining, TelegramEnd(remaining, max) + 1), 1, |remaining|) ==>
              TelegramCut(remaining, max) < |remaining| && remaining[TelegramCut(remaining, max)] == NEWLINE
  {
    if HasNewline(remaining[..max], 1, max) {
      WhatsAppLine(remaining, max);
      FeishuLine(remaining, max);
    }
    TelegramLine(remaining, max);
  }

  lemma WhatsAppLine(remaining: Text, max: nat)
    requires |remaining| > max >= 1 && HasNewline(remaining[..max], 1, max)
    ensures 1 <= WhatsAppCut(remaining, max) <= max && remaining[WhatsAppCut(remaining, max) - 1] == NEWLINE
  {
    var region := remaining[..max];
    var paragraph, line := LastIndexOf(region, PARAGRAPH), LastIndexOf(region, [NEWLINE]);
    if paragraph > 0 {
      LastIndexHas(region, PARAGRAPH, 1);
    } else {
      LastIndexIs(region, [NEWLINE]);
      LastIndexHas(region, [NEWLINE], 0);
    }
  }

  lemma FeishuLine(remaining: Text, max: nat)
    requires |remaining| > max >= 1 && HasNewline(remaining[..max], 1, max)
    ensures 1 <= FeishuCut(remaining, max) <= max && remaining[FeishuCut(remaining, max) - 1] == NEWLINE
  {
    var region := remaining[..max];
    var fence, paragraph, line :=
      LastIndexOf(region, FENCE), LastIndexOf(region, PARAGRAPH), LastIndexOf(region, [NEWLINE]);
    if fence > 0 {
      LastIndexHas(region, FENCE, 4);
    } else if paragraph > 0 {
      LastIndexHas(region, PARAGRAPH, 1);
    } else {
      LastIndexIs(region, [NEWLINE]);
      LastIndexHas(region, [NEWLINE], 0);
    }
  }

  lemma TelegramLine(remaining: Text, max: nat)
    requires |remaining| > max >= 1
    ensures HasNewline(Slice(remaining, TelegramEnd(remaining, max) + 1), 1, |remaining|) ==>
              TelegramCut(remaining, max) < |remaining| && remaining[TelegramCut(remaining, max)] == NEWLINE
  {
    var end := TelegramEnd(remaining, max);
    var paragraph := LastIndexOf(Slice(remaining, end + 2), PARAGRAPH);
    var line := LastIndexOf(Slice(remaining, end + 1), [NEWLINE]);
    LastIndexIs(Slice(remaining, end + 1), [NEWLINE]);
    if paragraph > 0 {
      LastIndexHas(Slice(remaining, end + 2), PARAGRAPH, 0);
    } else if line > 0 {
      LastIndexHas(Slice(remaining, end + 1), [NEWLINE], 0);
    }
  }

  // ----- which boundary is preferred -----

  /** The last occurrence of `pattern` behind the first unit of the region. */
  ghost predicate LastBehindFirst(region: Text, pattern: Text, i: int) {
    1 <= i && MatchesAt(region, pattern, i) && forall j :: i < j ==> !MatchesAt(region, pattern, j)
  }

  ghost predicate NoneBehindFirst(region: Text, pattern: Text) {
    forall i :: 1 <= i ==> !MatchesAt(region, pattern, i)
  }

  lemma LastIsFound(region: Text, pattern: Text)
    ensures forall i :: LastBehindFirst(region, pattern, i) ==> LastIndexOf(region, pattern) == i
    ensures NoneBehindFirst(region, pattern) <==> LastIndexOf(region, pattern) <= 0
  {
    LastIndexIs(region, pattern);
    var k := LastIndexOf(region, pattern);
    forall i | LastBehindFirst(region, pattern, i) ensures k == i {
      assert MatchesAt(region, pattern, i) && (k >= 0 ==> MatchesAt(region, pattern, k));
    }
  }

  /** WhatsApp cuts behind the last paragraph break, or else behind the last line break, or else at the limit. */
  lemma WhatsAppPrefers(remaining: Text, max: nat)
    requires |remaining| > max
    ensures var region, cut := remaining[..max], WhatsAppCut(remaining, max);
            && (forall i :: LastBehindFirst(region, [10, 10], i) ==> cut == i + 2)
            && (NoneBehindFirst(region, [10, 10]) ==> forall i :: LastBehindFirst(region, [10], i) ==> cut == i + 1)
            && (NoneBehindFirst(region, [10, 10]) && NoneBehindFirst(region, [10]) ==> cut == max)
  {
    LastIsFound(remaining[..max], PARAGRAPH);
    LastIsFound(remaining[..max], [NEWLINE]);
  }

  /** Feishu first looks for the last line that closes or opens a code block. */
  lemma FeishuPrefers(remaining: Text, max: nat)
    requires |remaining| > max
    ensures var region, cut := remaining[..max], FeishuCut(remaining, max);
            && (forall i :: LastBehindFirst(region, FENCE, i) ==> cut == i + 5)
            && (NoneBehindFirst(region, FENCE) ==>
                  && (forall i :: LastBehindFirst(region, [10, 10], i) ==> cut == i + 2)
                  && (NoneBehindFirst(region, [10, 10]) ==>
                        && (forall i :: LastBehindFirst(region, [10], i) ==> cut == i + 1)
                        && (NoneBehindFirst(region, [10]) ==> cut == max)))
    ensures FENCE == [10, 96, 96, 96, 10]
  {
    LastIsFound(remaining[..max], FENCE);
    LastIsFound(remaining[..max], PARAGRAPH);
    LastIsFound(remaining[..max], [NEWLINE]);
  }

  /** Telegram cuts before the break, which may stand right behind the hard end. */
  lemma TelegramPrefers(remaining: Text, max: nat)
    requires |remaining| > max >= 1
    ensures var end, cut := TelegramEnd(remaining, max), TelegramCut(remaining, max);
            var paragraphs, lines := Slice(remaining, end + 2), Slice(remaining, end + 1);
            && (forall i :: LastBehindFirst(paragraphs, [10, 10], i) ==> cut == i)
            && (NoneBehindFirst(paragraphs, [10, 10]) ==>
                  && (forall i :: LastBehindFirst(lines, [10], i) ==> cut == i)
                  && (NoneBehindFirst(lines, [10]) ==> cut == end))
            && end == if !IsHighSurrogate(remaining[max - 1]) then max else if max == 1 then 2 else max - 1
  {
    var end := TelegramEnd(remaining, max);
    LastIsFound(Slice(remaining, end + 2), PARAGRAPH);
    LastIsFound(Slice(remaining, end + 1), [NEWLINE]);
  }
}
