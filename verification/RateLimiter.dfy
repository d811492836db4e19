/** The sliding-window rate limiter of the WhatsApp gateway. */
module RateLimiting {

  type Windows = map<string, seq<int>>

  function WindowOf(windows: Windows, sender: string): seq<int> {
    if sender in windows then windows[sender] else []
  }

  /** The window without its expired head. */
  function Popped(times: seq<int>, cutoff: int): seq<int> {
    if times != [] && times[0] <= cutoff then Popped(times[1..], cutoff) else times
  }

  /** The times behind `cutoff`, wherever they are. */
  function Active(times: seq<int>, cutoff: int): seq<int> {
    if times == [] then []
    else Active(times[..|times| - 1], cutoff) + (if times[|times| - 1] > cutoff then [times[|times| - 1]] else [])
  }

  /** Whether a message is allowed, and the window of its sender afterwards. */
  function Consumed(times: seq<int>, maxMessages: int, windowMs: int, now: int): (bool, seq<int>) {
    var current := Popped(times, now - windowMs);
    if |current| >= maxMessages then (false, current) else (true, current + [now])
  }

  /** The remaining quota; a sender without a window has the whole of it. */
  function Quota(windows: Windows, sender: string, maxMessages: int, windowMs: int, now: int): int {
    if sender !in windows then maxMessages
    else
      var active := |Active(windows[sender], now - windowMs)|;
      if maxMessages - active > 0 then maxMessages - active else 0
  }

  class RateLimiter {
    const maxMessages: int
    const windowMs: int
    var windows: Windows

    constructor (maxMessages: int, windowMs: int)
      ensures this.maxMessages == maxMessages && this.windowMs == windowMs && windows == map[]
    {
      this.maxMessages, this.windowMs := maxMessages, windowMs;
      windows := map[];
    }

    method TryConsume(sender: string, now: int) returns (allowed: bool)
      modifies this
      ensures var (ok, times) := Consumed(WindowOf(old(windows), sender), maxMessages, windowMs, now);
              allowed == ok && windows == old(windows)[sender := times]
    {
      var cutoff := now - windowMs;
      var timestamps := if sender in windows then windows[sender] else [];
      while |timestamps| > 0 && timestamps[0] <= cutoff
        invariant Popped(timestamps, cutoff) == Popped(WindowOf(old(windows), sender), cutoff)
      {
        timestamps := timestamps[1..];
      }
      windows := windows[sender := timestamps];
      if |timestamps| >= maxMessages {
        return false;
      }
      windows := windows[sender := timestamps + [now]];
      return true;
    }

    method GetRemainingQuota(sender: string, now: int) returns (quota: int)
      ensures quota == Quota(windows, sender, maxMessages, windowMs, now)
    {
      var cutoff := now - windowMs;
      if sender !in windows {
        return maxMessages;
      }
      var active := Active(windows[sender], cutoff);
      quota := if maxMessages - |active| > 0 then maxMessages - |active| else 0;
    }
  }

  // ----- one window -----

  predicate Sorted(times: seq<int>) {
    forall i, j :: 0 <= i < j < |times| ==> times[i] <= times[j]
  }

  /** Popping the head agrees with filtering iff no expired time hides behind a live one. */
  lemma {:induction false} PoppedIsActiveIff(times: seq<int>, cutoff: int)
    ensures Popped(times, cutoff) == Active(times, cutoff) <==>
            (forall i, j :: 0 <= i < j < |times| && times[j] <= cutoff ==> times[i] <= cutoff)
  {
    PoppedIsSuffix(times, cutoff);
    ActiveLength(times, cutoff);
    var p := Popped(times, cutoff);
    var k := |times| - |p|;
    if forall i, j :: 0 <= i < j < |times| && times[j] <= cutoff ==> times[i] <= cutoff {
      ActiveOfBlock(times, cutoff, k);
    } else {
      var i, j :| 0 <= i < j < |times| && times[j] <= cutoff && times[i] > cutoff;
      assert p[j - k] == times[j];
      assert p != Active(times, cutoff);
    }
  }

  lemma {:induction false} PoppedIsSuffix(times: seq<int>, cutoff: int)
    ensures var p := Popped(times, cutoff);
            && |p| <= |times| && p == times[|times| - |p|..]
            && (forall i :: 0 <= i < |times| - |p| ==> times[i] <= cutoff)
            && (p != [] ==> p[0] > cutoff)
  {
    if times != [] && times[0] <= cutoff {
      PoppedIsSuffix(times[1..], cutoff);
    }
  }

  lemma {:induction false} ActiveLength(times: seq<int>, cutoff: int)
    ensures forall i :: 0 <= i < |Active(times, cutoff)| ==> Active(times, cutoff)[i] > cutoff
  {
    if times != [] {
      ActiveLength(times[..|times| - 1], cutoff);
    }
  }

  lemma {:induction false} ActiveOfBlock(times: seq<int>, cutoff: int, k: int)
    requires 0 <= k <= |times|
    requires forall i :: 0 <= i < |times| ==> (times[i] > cutoff <==> k <= i)
    ensures Active(times, cutoff) == times[k..]
  {
    if times != [] {
      var front := times[..|times| - 1];
      ActiveOfBlock(front, cutoff, if k == |times| then k - 1 else k);
    }
  }

  // ----- runs -----

  /** The calls of `tryConsume` so far, the last one on the outside. */
  datatype Calls = NoCalls | Then(before: Calls, sender: string, now: int)

  /** The windows after `calls`. */
  function WindowsAfter(calls: Calls, maxMessages: int, windowMs: int): Windows {
    match calls
    case NoCalls => map[]
    case Then(before, sender, now) =>
      var windows := WindowsAfter(before, maxMessages, windowMs);
      windows[sender := Consumed(WindowOf(windows, sender), maxMessages, windowMs, now).1]
  }

  /** The window of one sender, which only its own calls change. */
  function WindowAfter(calls: Calls, sender: string, maxMessages: int, windowMs: int): seq<int> {
    match calls
    case NoCalls => []
    case Then(before, s, now) =>
      var window := WindowAfter(before, sender, maxMessages, windowMs);
      if s == sender then Consumed(window, maxMessages, windowMs, now).1 else window
  }

  lemma {:induction false} WindowsAreIndependent(calls: Calls, sender: string, maxMessages: int, windowMs: int)
    ensures WindowOf(WindowsAfter(calls, maxMessages, windowMs), sender)
        == WindowAfter(calls, sender, maxMessages, windowMs)
  {
    if calls.Then? {
      WindowsAreIndependent(calls.before, sender, maxMessages, windowMs);
    }
  }

  /** Whether the next call would be allowed. */
  predicate Allowed(calls: Calls, sender: string, now: int, maxMessages: int, windowMs: int) {
    Consumed(WindowAfter(calls, sender, maxMessages, windowMs), maxMessages, windowMs, now).0
  }

  /** The times of the accepted messages of `sender`, oldest first. */
  function Accepted(calls: Calls, sender: string, maxMessages: int, windowMs: int): seq<int> {
    match calls
    case NoCalls => []
    case Then(before, s, now) =>
      var times := Accepted(before, sender, maxMessages, windowMs);
      if s == sender && Allowed(before, sender, now, maxMessages, windowMs) then times + [now] else times
  }

  predicate NotAfter(calls: Calls, t: int) {
    calls.Then? ==> calls.now <= t
  }

  /** The clock never goes back. */
  predicate Monotone(calls: Calls) {
    match calls
    case NoCalls => true
    case Then(before, _, now) => Monotone(before) && NotAfter(before, now)
  }

  /** How many of `times` lie in the window of length `windowMs` that ends with `t`. */
  function CountIn(times: seq<int>, t: int, windowMs: int): nat {
    if times == [] then 0
    else
      CountIn(times[..|times| - 1], t, windowMs)
      + (if t - windowMs < times[|times| - 1] <= t then 1 else 0)
  }

  lemma CountAppend(times: seq<int>, x: int, t: int, windowMs: int)
    ensures CountIn(times + [x], t, windowMs) == CountIn(times, t, windowMs) + (if t - windowMs < x <= t then 1 else 0)
  {
    assert (times + [x])[..|times|] == times;
  }

  lemma ActiveAppend(times: seq<int>, x: int, cutoff: int)
    ensures Active(times + [x], cutoff) == Active(times, cutoff) + (if x > cutoff then [x] else [])
  {
    assert (times + [x])[..|times|] == times;
  }

  /** `window` holds the newest of `times`, and whatever it dropped had expired by `now`. */
  predicate Tracks(window: seq<int>, times: seq<int>, windowMs: int, now: int) {
    && Sorted(times) && (forall i :: 0 <= i < |times| ==> times[i] <= now)
    && |window| <= |times| && window == times[|times| - |window|..]
    && (forall i :: 0 <= i < |times| - |window| ==> times[i] <= now - windowMs)
  }

  lemma PopTracks(window: seq<int>, times: seq<int>, windowMs: int, now: int)
    requires Tracks(window, times, windowMs, now)
    ensures Tracks(Popped(window, now - windowMs), times, windowMs, now)
    ensures CountIn(times, now, windowMs) == |Popped(window, now - windowMs)|
    ensures Active(window, now - windowMs) == Popped(window, now - windowMs)
  {
    var p := Popped(window, now - windowMs);
    PoppedIsSuffix(window, now - windowMs);
    SuffixOfSuffix(p, window, times);
    forall i | 0 <= i < |times| - |p| ensures times[i] <= now - windowMs {
      if i >= |times| - |window| {
        assert times[i] == window[i - (|times| - |window|)];
      }
    }
    forall i | |times| - |p| <= i < |times| ensures now - windowMs < times[i] {
      assert times[|times| - |p|] == p[0];
    }
    CountOfSuffix(times, |times| - |p|, now, windowMs);
    forall i, j | 0 <= i < j < |window| ensures window[i] <= window[j] {
      assert window[i] == times[|times| - |window| + i] && window[j] == times[|times| - |window| + j];
    }
    PoppedIsActiveIff(window, now - windowMs);
  }

  lemma SuffixOfSuffix(a: seq<int>, b: seq<int>, c: seq<int>)
    requires |a| <= |b| <= |c| && a == b[|b| - |a|..] && b == c[|c| - |b|..]
    ensures a == c[|c| - |a|..]
  {
  }

  lemma {:induction false} CountOfSuffix(times: seq<int>, k: nat, t: int, windowMs: int)
    requires k <= |times|
    requires forall i :: 0 <= i < k ==> times[i] <= t - windowMs
    requires forall i :: k <= i < |times| ==> t - windowMs < times[i] <= t
    ensures CountIn(times, t, windowMs) == |times| - k
  {
    if times != [] {
      CountOfSuffix(times[..|times| - 1], if k == |times| then k - 1 else k, t, windowMs);
    }
  }

  lemma GrowTracks(window: seq<int>, times: seq<int>, windowMs: int, now: int)
    requires Tracks(window, times, windowMs, now)
    ensures Tracks(window + [now], times + [now], windowMs, now)
  {
  }

  lemma {:induction false} WindowTracks(calls: Calls, sender: string, t: int, maxMessages: int, windowMs: int)
    requires Monotone(calls) && NotAfter(calls, t)
    ensures Tracks(WindowAfter(calls, sender, maxMessages, windowMs), Accepted(calls, sender, maxMessages, windowMs),
                   windowMs, t)
  {
    if calls.Then? {
      WindowTracks(calls.before, sender, calls.now, maxMessages, windowMs);
      var window := WindowAfter(calls.before, sender, maxMessages, windowMs);
      var times := Accepted(calls.before, sender, maxMessages, windowMs);
      StepTracks(window, times, windowMs, calls.now, t);
    }
  }

  lemma StepTracks(window: seq<int>, times: seq<int>, windowMs: int, now: int, t: int)
    requires Tracks(window, times, windowMs, now) && now <= t
    ensures var popped := Popped(window, now - windowMs);
            Tracks(window, times, windowMs, t) && Tracks(popped, times, windowMs, t)
            && Tracks(popped + [now], times + [now], windowMs, t)
  {
    var popped := Popped(window, now - windowMs);
    PopTracks(window, times, windowMs, now);
    GrowTracks(popped, times, windowMs, now);
    Later(window, times, windowMs, now, t);
    Later(popped, times, windowMs, now, t);
    Later(popped + [now], times + [now], windowMs, now, t);
  }

  lemma Later(window: seq<int>, times: seq<int>, windowMs: int, now: int, t: int)
    requires Tracks(window, times, windowMs, now) && now <= t
    ensures Tracks(window, times, windowMs, t)
  {
  }

  lemma WindowNow(calls: Calls, sender: string, now: int, maxMessages: int, windowMs: int)
    requires Monotone(calls) && NotAfter(calls, now)
    ensures var window := WindowAfter(calls, sender, maxMessages, windowMs);
            && CountIn(Accepted(calls, sender, maxMessages, windowMs), now, windowMs)
              == |Popped(window, now - windowMs)|
            && Active(window, now - windowMs) == Popped(window, now - windowMs)
  {
    WindowTracks(calls, sender, now, maxMessages, windowMs);
    PopTracks(WindowAfter(calls, sender, maxMessages, windowMs), Accepted(calls, sender, maxMessages, windowMs),
              windowMs, now);
  }

  /**
   While the clock does not go back, a message is allowed iff fewer than `maxMessages` were
   accepted in the window ending now.
   */
  lemma AllowedIffNotFull(calls: Calls, sender: string, now: int, maxMessages: int, windowMs: int)
    requires Monotone(calls) && NotAfter(calls, now)
    ensures Allowed(calls, sender, now, maxMessages, windowMs)
            <==> CountIn(Accepted(calls, sender, maxMessages, windowMs), now, windowMs) < maxMessages
  {
    WindowNow(calls, sender, now, maxMessages, windowMs);
  }

  /** The quota read just before a call is positive iff the call is allowed, and an allowed call lowers it by one iff
      the window has a length at all. */
  lemma QuotaPredicts(calls: Calls, sender: string, now: int, maxMessages: int, windowMs: int)
    requires Monotone(calls) && NotAfter(calls, now)
    ensures var before := WindowsAfter(calls, maxMessages, windowMs);
            var after := WindowsAfter(Then(calls, sender, now), maxMessages, windowMs);
            var allowed := Allowed(calls, sender, now, maxMessages, windowMs);
            && (allowed <==> Quota(before, sender, maxMessages, windowMs, now) > 0)
            && (allowed ==>
                  (Quota(after, sender, maxMessages, windowMs, now)
                    == Quota(before, sender, maxMessages, windowMs, now) - 1
                   <==> windowMs > 0))
  {
    WindowNow(calls, sender, now, maxMessages, windowMs);
    WindowsAreIndependent(calls, sender, maxMessages, windowMs);
    WindowsAreIndependent(Then(calls, sender, now), sender, maxMessages, windowMs);
    ActiveGrows(WindowAfter(calls, sender, maxMessages, windowMs), now, windowMs);
  }

  lemma ActiveGrows(window: seq<int>, now: int, windowMs: int)
    requires Active(window, now - windowMs) == Popped(window, now - windowMs)
    ensures |Active(Popped(window, now - windowMs) + [now], now - windowMs)|
            == |Active(window, now - windowMs)| + (if windowMs > 0 then 1 else 0)
  {
    var p, cutoff := Popped(window, now - windowMs), now - windowMs;
    ActiveTwice(window, cutoff);
    ActiveSize(p, now, cutoff);
  }

  lemma ActiveSize(times: seq<int>, x: int, cutoff: int)
    ensures |Active(times + [x], cutoff)| == |Active(times, cutoff)| + (if x > cutoff then 1 else 0)
  {
    ActiveAppend(times, x, cutoff);
  }

  lemma {:induction false} ActiveTwice(times: seq<int>, cutoff: int)
    ensures Active(Active(times, cutoff), cutoff) == Active(times, cutoff)
  {
    if times != [] {
      var front, last := times[..|times| - 1], times[|times| - 1];
      ActiveTwice(front, cutoff);
      ActiveAppend(Active(front, cutoff), last, cutoff);
      assert Active(front, cutoff) + [] == Active(front, cutoff);
    }
  }

  /** In every run, every window of length `windowMs` holds at most `maxMessages` accepted messages of a sender. */
  lemma {:induction false} WindowsAreBounded(calls: Calls, sender: string, t: int, maxMessages: nat, windowMs: int)
    requires Monotone(calls)
    ensures CountIn(Accepted(calls, sender, maxMessages, windowMs), t, windowMs) <= maxMessages
  {
    if calls.Then? {
      var times := Accepted(calls.before, sender, maxMessages, windowMs);
      WindowsAreBounded(calls.before, sender, t, maxMessages, windowMs);
      CountAppend(times, calls.now, t, windowMs);
      if t - windowMs < calls.now <= t {
        AllowedIffNotFull(calls.before, sender, calls.now, maxMessages, windowMs);
        WindowTracks(calls.before, sender, calls.now, maxMessages, windowMs);
        EarlierWindowHoldsMore(times, calls.now, t, windowMs);
      }
    }
  }

  lemma {:induction false} EarlierWindowHoldsMore(times: seq<int>, now: int, t: int, windowMs: int)
    requires now <= t && forall i :: 0 <= i < |times| ==> times[i] <= now
    ensures CountIn(times, t, windowMs) <= CountIn(times, now, windowMs)
  {
    if times != [] {
      EarlierWindowHoldsMore(times[..|times| - 1], now, t, windowMs);
    }
  }

  /** With a clock that goes back the quota can promise a message that is then refused. */
  lemma ClockGoingBackBreaksTheQuota()
    ensures exists calls: Calls ::
              Quota(WindowsAfter(calls, 2, 10), "a", 2, 10, 15) > 0 && !Allowed(calls, "a", 15, 2, 10)
  {
    var calls := Then(Then(NoCalls, "a", 9), "a", 3);
    assert WindowsAfter(calls.before, 2, 10) == map["a" := [] + [9]];
    WindowsAreIndependent(calls, "a", 2, 10);
    LaterThenEarlier(calls);
    assert Quota(WindowsAfter(calls, 2, 10), "a", 2, 10, 15) > 0;
  }

  lemma LaterThenEarlier(calls: Calls)
    requires calls == Then(Then(NoCalls, "a", 9), "a", 3)
    ensures WindowAfter(calls, "a", 2, 10) == [9, 3]
    ensures Active([9, 3], 5) == [9] && Popped([9, 3], 5) == [9, 3]
  {
    assert WindowAfter(calls.before, "a", 2, 10) == [] + [9] == [9];
    assert [9, 3][..1] == [9] && [9][..0] == [];
  }
}
