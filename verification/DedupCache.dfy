/**
 The bounded cache of message ids: an insertion-ordered map from id to arrival
 time, from which the oldest entries are evicted in batches.
 */
module DedupCache {

  const MSG_ID_CACHE_SIZE: nat := 1000
  const EVICTION_BATCH: nat := 100

  datatype Seen = Seen(id: string, at: int)

  predicate Has(cache: seq<Seen>, id: string) {
    exists i :: 0 <= i < |cache| && cache[i].id == id
  }

  ghost predicate Distinct(cache: seq<Seen>) {
    forall i, j :: 0 <= i < j < |cache| ==> cache[i].id != cache[j].id
  }

  ghost predicate Sorted(entries: seq<Seen>) {
    forall i, j :: 0 <= i < j < |entries| ==> entries[i].at <= entries[j].at
  }

  // ----- the sort and the deletions -----

  /** `e` goes behind every entry that is not younger. */
  function Insert(entries: seq<Seen>, e: Seen): seq<Seen> {
    if entries == [] || entries[|entries| - 1].at <= e.at then
      entries + [e]
    else
      Insert(entries[..|entries| - 1], e) + [entries[|entries| - 1]]
  }

  /** The stable sort by arrival time. */
  function ByAge(entries: seq<Seen>): seq<Seen> {
    if entries == [] then [] else Insert(ByAge(entries[..|entries| - 1]), entries[|entries| - 1])
  }

  lemma {:induction false} InsertKeepsEntries(entries: seq<Seen>, e: Seen)
    ensures multiset(Insert(entries, e)) == multiset(entries) + multiset{e}
  {
    if entries != [] && entries[|entries| - 1].at > e.at {
      var front, last := entries[..|entries| - 1], entries[|entries| - 1];
      InsertKeepsEntries(front, e);
      assert entries == front + [last];
    }
  }

  ghost predicate NoneAfter(entries: seq<Seen>, t: int) {
    forall i :: 0 <= i < |entries| ==> entries[i].at <= t
  }

  lemma SortedAppend(entries: seq<Seen>, e: Seen)
    requires Sorted(entries) && NoneAfter(entries, e.at)
    ensures Sorted(entries + [e])
  {
  }

  lemma {:induction false} InsertSorts(entries: seq<Seen>, e: Seen)
    requires Sorted(entries)
    ensures Sorted(Insert(entries, e))
    ensures forall t :: NoneAfter(entries, t) && e.at <= t ==> NoneAfter(Insert(entries, e), t)
  {
    if entries == [] || entries[|entries| - 1].at <= e.at {
      SortedAppend(entries, e);
    } else {
      var front, last := entries[..|entries| - 1], entries[|entries| - 1];
      InsertSorts(front, e);
      assert NoneAfter(front, last.at);
      SortedAppend(Insert(front, e), last);
      forall t | NoneAfter(entries, t) && e.at <= t ensures NoneAfter(Insert(entries, e), t) {
        assert NoneAfter(front, t) && last.at <= t;
      }
    }
  }

  /** `ByAge` is a sort: its result is ordered by time and has the same entries. */
  lemma {:induction false} ByAgeSorts(entries: seq<Seen>)
    ensures Sorted(ByAge(entries)) && multiset(ByAge(entries)) == multiset(entries)
  {
    if entries != [] {
      ByAgeSorts(entries[..|entries| - 1]);
      InsertSorts(ByAge(entries[..|entries| - 1]), entries[|entries| - 1]);
      InsertKeepsEntries(ByAge(entries[..|entries| - 1]), entries[|entries| - 1]);
      assert entries == entries[..|entries| - 1] + [entries[|entries| - 1]];
    }
  }

  lemma SortedFront(entries: seq<Seen>, front: seq<Seen>, last: Seen)
    requires entries == front + [last] && Sorted(entries)
    ensures Sorted(front) && (front == [] || front[|front| - 1].at <= last.at)
  {
    forall i, j | 0 <= i < j < |front| ensures front[i].at <= front[j].at {
      assert entries[i].at <= entries[j].at;
    }
    if front != [] {
      assert entries[|front| - 1].at <= entries[|front|].at;
    }
  }

  lemma {:induction false} SortedIsByAge(entries: seq<Seen>)
    requires Sorted(entries)
    ensures ByAge(entries) == entries
  {
    if entries != [] {
      var front, last := entries[..|entries| - 1], entries[|entries| - 1];
      SortedFront(entries, front, last);
      SortedIsByAge(front);
      assert entries == front + [last];
    }
  }

  function Deleted(cache: seq<Seen>, id: string): seq<Seen> {
    if cache == [] then []
    else if cache[0].id == id then cache[1..]
    else [cache[0]] + Deleted(cache[1..], id)
  }

  /** The cache without the ids of the first `n` of `victims`. */
  function DeletedFirst(cache: seq<Seen>, victims: seq<Seen>, n: nat): seq<Seen>
    requires n <= |victims|
  {
    if n == 0 then cache else Deleted(DeletedFirst(cache, victims, n - 1), victims[n - 1].id)
  }

  lemma {:induction false} DeletingThePrefix(cache: seq<Seen>, n: nat)
    requires n <= |cache|
    ensures DeletedFirst(cache, cache, n) == cache[n..]
  {
    if n > 0 {
      DeletingThePrefix(cache, n - 1);
      assert cache[n - 1..][0] == cache[n - 1];
    }
  }

  // ----- isDuplicate -----

  function Batch(entries: seq<Seen>): (n: nat)
    ensures n <= |entries|
  {
    if |entries| < EVICTION_BATCH then |entries| else EVICTION_BATCH
  }

  /** The cache after `isDuplicate(id)` at time `now`. */
  function Observed(cache: seq<Seen>, id: string, now: int): seq<Seen> {
    if Has(cache, id) then
      cache
    else
      var grown := cache + [Seen(id, now)];
      if |grown| > MSG_ID_CACHE_SIZE then
        DeletedFirst(grown, ByAge(grown), Batch(ByAge(grown)))
      else
        grown
  }

  /** The calls of `isDuplicate` so far with their clock readings, the last one on the outside. */
  datatype Calls = NoCalls | Then(before: Calls, last: Seen)

  function CacheAfter(calls: Calls): seq<Seen> {
    match calls
    case NoCalls => []
    case Then(before, last) => Observed(CacheAfter(before), last.id, last.at)
  }

  /** The ids that were reported as not seen before, in order. */
  function Fresh(calls: Calls): seq<string> {
    match calls
    case NoCalls => []
    case Then(before, last) => Fresh(before) + (if Has(CacheAfter(before), last.id) then [] else [last.id])
  }

  /** The clock never goes back. */
  predicate Monotone(calls: Calls) {
    calls.Then? ==> Monotone(calls.before) && (calls.before.Then? ==> calls.before.last.at <= calls.last.at)
  }

  predicate Called(calls: Calls, id: string) {
    calls.Then? && (calls.last.id == id || Called(calls.before, id))
  }

  /** The ids of `cache` are the last ones of `ids`. */
  ghost predicate IsSuffix(cache: seq<Seen>, ids: seq<string>) {
    && |cache| <= |ids|
    && forall i :: 0 <= i < |cache| ==> cache[i].id == ids[|ids| - |cache| + i]
  }

  ghost predicate InOrder(cache: seq<Seen>, now: int) {
    Distinct(cache) && Sorted(cache) && forall i :: 0 <= i < |cache| ==> cache[i].at <= now
  }

  lemma GrowsInOrder(cache: seq<Seen>, id: string, now: int)
    requires InOrder(cache, now) && !Has(cache, id)
    ensures InOrder(cache + [Seen(id, now)], now)
  {
  }

  lemma DropsInOrder(cache: seq<Seen>, now: int, n: nat)
    requires InOrder(cache, now) && n <= |cache|
    ensures InOrder(cache[n..], now)
  {
  }

  /** While the clock does not go back, `Observed` appends a fresh id and drops the front of an overfull cache. */
  lemma ObservedInOrder(cache: seq<Seen>, id: string, now: int)
    requires InOrder(cache, now) && |cache| <= MSG_ID_CACHE_SIZE
    ensures var grown := cache + [Seen(id, now)];
            Observed(cache, id, now) ==
            if Has(cache, id) then cache
            else if |grown| > MSG_ID_CACHE_SIZE then grown[EVICTION_BATCH..]
            else grown
    ensures InOrder(Observed(cache, id, now), now)
  {
    if !Has(cache, id) {
      var grown := cache + [Seen(id, now)];
      GrowsInOrder(cache, id, now);
      if |grown| > MSG_ID_CACHE_SIZE {
        SortedIsByAge(grown);
        DeletingThePrefix(grown, Batch(grown));
        DropsInOrder(grown, now, EVICTION_BATCH);
      }
    }
  }

  ghost predicate Bounded(cache: seq<Seen>, ids: seq<string>) {
    |cache| <= MSG_ID_CACHE_SIZE && (|cache| >= 901 || |cache| == |ids|)
  }

  lemma SuffixAppend(cache: seq<Seen>, ids: seq<string>, e: Seen)
    requires IsSuffix(cache, ids)
    ensures IsSuffix(cache + [e], ids + [e.id])
  {
  }

  lemma SuffixDrops(cache: seq<Seen>, ids: seq<string>, n: nat)
    requires IsSuffix(cache, ids) && n <= |cache|
    ensures IsSuffix(cache[n..], ids)
  {
    forall i | 0 <= i < |cache| - n ensures cache[n..][i].id == ids[|ids| - (|cache| - n) + i] {
      assert cache[n + i].id == ids[|ids| - |cache| + (n + i)];
    }
  }

  lemma SuffixGrows(cache: seq<Seen>, ids: seq<string>, e: Seen)
    requires IsSuffix(cache, ids) && Bounded(cache, ids)
    ensures var grown := cache + [e];
            var kept := if |grown| > MSG_ID_CACHE_SIZE then grown[EVICTION_BATCH..] else grown;
            IsSuffix(kept, ids + [e.id]) && Bounded(kept, ids + [e.id])
  {
    SuffixAppend(cache, ids, e);
    if |cache| + 1 > MSG_ID_CACHE_SIZE {
      SuffixDrops(cache + [e], ids + [e.id], EVICTION_BATCH);
    }
  }

  lemma StillInOrder(cache: seq<Seen>, t: int, now: int)
    requires InOrder(cache, t) && t <= now
    ensures InOrder(cache, now)
  {
  }

  /** One call keeps the cache a suffix of the fresh ids. */
  lemma ObservedKeepsSuffix(cache: seq<Seen>, ids: seq<string>, id: string, now: int)
    requires IsSuffix(cache, ids) && Bounded(cache, ids) && InOrder(cache, now)
    ensures var ids' := ids + (if Has(cache, id) then [] else [id]);
            IsSuffix(Observed(cache, id, now), ids') && Bounded(Observed(cache, id, now), ids')
    ensures InOrder(Observed(cache, id, now), now)
  {
    ObservedInOrder(cache, id, now);
    if Has(cache, id) {
      assert ids + [] == ids;
    } else {
      SuffixGrows(cache, ids, Seen(id, now));
    }
  }

  /** With a clock that never goes back, the cache is a suffix of the fresh ids, with 901 to 1000 of them once full. */
  lemma {:induction false} CacheIsSuffix(calls: Calls)
    requires Monotone(calls)
    ensures IsSuffix(CacheAfter(calls), Fresh(calls)) && Bounded(CacheAfter(calls), Fresh(calls))
    ensures InOrder(CacheAfter(calls), if calls.NoCalls? then 0 else calls.last.at)
  {
    if calls.Then? {
      var before, last := calls.before, calls.last;
      CacheIsSuffix(before);
      if before.Then? {
        StillInOrder(CacheAfter(before), before.last.at, last.at);
      }
      ObservedKeepsSuffix(CacheAfter(before), Fresh(before), last.id, last.at);
    }
  }

  /** The answer for the next id: duplicate for each of the last 901 fresh ids, never for an id not seen. */
  lemma DuplicateAnswers(calls: Calls, id: string)
    requires Monotone(calls)
    ensures forall i :: 0 <= i < |Fresh(calls)| && |Fresh(calls)| - 901 <= i && Fresh(calls)[i] == id ==>
              Has(CacheAfter(calls), id)
    ensures Has(CacheAfter(calls), id) ==> Called(calls, id)
  {
    CacheIsSuffix(calls);
    var ids, cache := Fresh(calls), CacheAfter(calls);
    forall i | 0 <= i < |ids| && |ids| - 901 <= i && ids[i] == id
      ensures Has(cache, id)
    {
      assert cache[i - (|ids| - |cache|)].id == id;
    }
    if Has(cache, id) {
      var i :| 0 <= i < |cache| && cache[i].id == id;
      assert ids[|ids| - |cache| + i] == id;
      FreshWereCalled(calls, id);
    }
  }

  lemma {:induction false} FreshWereCalled(calls: Calls, id: string)
    requires id in Fresh(calls)
    ensures Called(calls, id)
  {
    if id in Fresh(calls.before) {
      FreshWereCalled(calls.before, id);
    }
  }

  // ----- the answers, without the cache -----

  /** How many of `n` ids not seen before are remembered: the id behind 1000 remembered ones drops the oldest 100. */
  function Held(n: nat): nat {
    if n <= 1000 then n else 901 + (n - 1001) % 100
  }

  function Remembered(ids: seq<string>): seq<string> {
    ids[|ids| - Held(|ids|)..]
  }

  /** The ids reported as not seen before, from the calls alone. */
  function Unseen(calls: Calls): seq<string> {
    match calls
    case NoCalls => []
    case Then(before, last) =>
      if last.id in Remembered(Unseen(before)) then Unseen(before) else Unseen(before) + [last.id]
  }

  lemma HeldNext(n: nat)
    ensures Held(n + 1) == if Held(n) == 1000 then 901 else Held(n) + 1
  {
  }

  lemma SuffixIs(cache: seq<Seen>, ids: seq<string>, id: string)
    requires IsSuffix(cache, ids) && |cache| == Held(|ids|)
    ensures Has(cache, id) <==> id in Remembered(ids)
  {
    if Has(cache, id) {
      var i :| 0 <= i < |cache| && cache[i].id == id;
      assert Remembered(ids)[i] == id;
    }
    if id in Remembered(ids) {
      var i :| 0 <= i < |Remembered(ids)| && Remembered(ids)[i] == id;
      assert cache[i].id == id;
    }
  }

  lemma ObservedSize(cache: seq<Seen>, id: string, now: int)
    requires InOrder(cache, now) && |cache| <= MSG_ID_CACHE_SIZE
    ensures |Observed(cache, id, now)| ==
            if Has(cache, id) then |cache| else if |cache| == 1000 then 901 else |cache| + 1
  {
    ObservedInOrder(cache, id, now);
  }

  lemma {:induction false} CacheHolds(calls: Calls)
    requires Monotone(calls)
    ensures |CacheAfter(calls)| == Held(|Fresh(calls)|) && Fresh(calls) == Unseen(calls)
  {
    if calls.Then? {
      var before, last := calls.before, calls.last;
      var cache, ids := CacheAfter(before), Fresh(before);
      CacheHolds(before);
      CacheIsSuffix(before);
      HeldNext(|ids|);
      SuffixIs(cache, ids, last.id);
      if before.Then? {
        StillInOrder(cache, before.last.at, last.at);
      }
      ObservedSize(cache, last.id, last.at);
      assert ids + [] == ids;
    }
  }

  /** While the clock does not go back, the next id is a duplicate iff it is remembered. */
  lemma DuplicateIff(calls: Calls, id: string)
    requires Monotone(calls)
    ensures Has(CacheAfter(calls), id) <==> id in Remembered(Unseen(calls))
  {
    CacheHolds(calls);
    CacheIsSuffix(calls);
    SuffixIs(CacheAfter(calls), Fresh(calls), id);
  }
}
