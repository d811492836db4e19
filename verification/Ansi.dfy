/** Styled terminal text: plain pieces between SGR sequences (ECMA-48, section 8.3.117). */
module Ansi {

  const ESC: char := '\U{1B}'

  predicate ParameterChar(c: char) {
    '0' <= c <= '9' || c == ';'
  }

  /** The SGR sequence with the given parameters. */
  function Sgr(parameters: string): string {
    [ESC] + "[" + parameters + "m"
  }

  function ParametersIn(s: string): (n: nat)
    ensures n <= |s|
  {
    if s != "" && ParameterChar(s[0]) then 1 + ParametersIn(s[1..]) else 0
  }

  /** The length of the SGR sequence that `s` starts with, or 0. */
  function SgrLength(s: string): (n: nat)
    ensures n <= |s|
  {
    if |s| >= 3 && s[0] == ESC && s[1] == '[' then
      var k := ParametersIn(s[2..]);
      if 2 + k < |s| && s[2 + k] == 'm' then 3 + k else 0
    else
      0
  }

  /** What a terminal shows: the text without its SGR sequences. */
  function Erased(s: string): string
    decreases |s|
  {
    if s == "" then ""
    else if SgrLength(s) > 0 then Erased(s[SgrLength(s)..])
    else [s[0]] + Erased(s[1..])
  }

  predicate NoEscape(s: string) {
    forall i :: 0 <= i < |s| ==> s[i] != ESC
  }

  lemma ErasedOne(c: char, rest: string)
    requires c != ESC
    ensures Erased([c] + rest) == [c] + Erased(rest)
  {
    assert ([c] + rest)[1..] == rest;
  }

  lemma {:induction false} ErasedPlain(text: string, rest: string)
    requires NoEscape(text)
    ensures Erased(text + rest) == text + Erased(rest)
  {
    if text == "" {
      assert text + rest == rest;
    } else {
      ErasedPlain(text[1..], rest);
      ErasedOne(text[0], text[1..] + rest);
      FirstOff(text, rest);
      FirstOff(text, Erased(rest));
    }
  }

  lemma FirstOff(s: string, t: string)
    requires s != ""
    ensures s + t == [s[0]] + (s[1..] + t)
  {
  }

  lemma {:induction false} ParametersBefore(parameters: string, rest: string)
    requires forall i :: 0 <= i < |parameters| ==> ParameterChar(parameters[i])
    requires rest != "" && !ParameterChar(rest[0])
    ensures ParametersIn(parameters + rest) == |parameters|
  {
    if parameters == "" {
      assert parameters + rest == rest;
    } else {
      ParametersBefore(parameters[1..], rest);
      assert (parameters + rest)[1..] == parameters[1..] + rest;
    }
  }

  lemma ErasedStyle(parameters: string, rest: string)
    requires forall i :: 0 <= i < |parameters| ==> ParameterChar(parameters[i])
    ensures Erased(Sgr(parameters) + rest) == Erased(rest)
  {
    var s := Sgr(parameters) + rest;
    ParametersBefore(parameters, "m" + rest);
    assert s[2..] == parameters + ("m" + rest);
    assert s[0] == ESC && s[1] == '[' && s[2 + |parameters|] == 'm';
    assert s[3 + |parameters|..] == rest;
  }

  // ----- text with sequences of its own -----

  /** Characters that cannot be part of a sequence begun before them. */
  predicate Breaks(c: char) {
    c != ESC && c != '[' && c != 'm' && !ParameterChar(c)
  }

  lemma {:induction false} ParametersUpTo(s: string, tail: string)
    requires tail != "" && Breaks(tail[0])
    ensures ParametersIn(s + tail) == ParametersIn(s)
  {
    if s == "" {
      assert s + tail == tail;
    } else {
      ParametersUpTo(s[1..], tail);
      assert (s + tail)[1..] == s[1..] + tail;
    }
  }

  lemma SgrUpTo(s: string, tail: string)
    requires tail != "" && Breaks(tail[0]) && s != ""
    ensures SgrLength(s + tail) == SgrLength(s)
  {
    var whole := s + tail;
    assert whole[|s|] == tail[0];
    if |s| >= 2 {
      ParametersUpTo(s[2..], tail);
      assert whole[2..] == s[2..] + tail;
    }
  }

  /** A sequence does not reach across a character that breaks it. */
  lemma {:induction false} ErasedUpTo(s: string, tail: string)
    requires tail != "" && Breaks(tail[0])
    ensures Erased(s + tail) == Erased(s) + Erased(tail)
    decreases |s|
  {
    if s == "" {
      assert s + tail == tail;
      assert Erased(s) + Erased(tail) == Erased(tail);
    } else {
      SgrUpTo(s, tail);
      var n := if SgrLength(s) > 0 then SgrLength(s) else 1;
      ErasedUpTo(s[n..], tail);
      StepUpTo(s, tail, n);
      if SgrLength(s) == 0 {
        FirstBefore(s[0], Erased(s[1..]), Erased(tail));
      }
    }
  }

  lemma StepUpTo(s: string, tail: string, n: nat)
    requires n <= |s| && s != ""
    ensures (s + tail)[n..] == s[n..] + tail && (s + tail)[0] == s[0]
  {
  }

  lemma FirstBefore(c: char, s: string, tail: string)
    ensures [c] + (s + tail) == [c] + s + tail
  {
  }

  /** No style sequence starts anywhere in `s`. */
  predicate NoStyle(s: string) {
    forall i :: 0 <= i < |s| ==> SgrLength(s[i..]) == 0
  }

  /** A text loses nothing when its sequences are erased iff it has none. */
  lemma {:induction false} ErasedWholeIff(s: string)
    ensures |Erased(s)| <= |s|
    ensures |Erased(s)| == |s| <==> NoStyle(s)
    ensures NoStyle(s) ==> Erased(s) == s
    decreases |s|
  {
    if s != "" {
      var n := if SgrLength(s) > 0 then SgrLength(s) else 1;
      ErasedWholeIff(s[n..]);
      assert s[0..] == s;
      if n == 1 {
        NoStyleIff(s);
        assert s == [s[0]] + s[1..];
      }
    }
  }

  lemma NoStyleIff(s: string)
    requires s != ""
    ensures NoStyle(s) <==> SgrLength(s) == 0 && NoStyle(s[1..])
  {
    assert s[0..] == s;
    forall i | 0 <= i < |s| - 1 ensures s[1..][i..] == s[i + 1..] {
    }
    if SgrLength(s) == 0 && NoStyle(s[1..]) {
      forall i | 0 <= i < |s| ensures SgrLength(s[i..]) == 0 {
        if i > 0 {
          assert s[1..][i - 1..] == s[i..];
        }
      }
    }
  }
}
