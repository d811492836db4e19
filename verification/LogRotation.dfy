/**
 Size-triggered rotation of the log file over the current file and three older
 ones. A file is the list of records appended to it; the size of a record is its
 length in bytes with the newline.
 */
module LogRotation {
  import opened Sequences

  const MAX_LOG_BYTES: nat := 5 * 1024 * 1024
  const MAX_ROTATED_LOGS: nat := 3

  datatype Record = Record(text: string, bytes: nat)

  type File = seq<Record>

  function Size(file: File): nat {
    if file == [] then 0 else Size(file[..|file| - 1]) + file[|file| - 1].bytes
  }

  /** The directory: index 0 is the current file, 1 to 3 the rotated ones. A missing key is a missing file. */
  type Files = map<nat, File>

  function Renamed(files: Files, source: nat, target: nat): Files {
    if source in files then (files - {source})[target := files[source]] else files
  }

  /** The rotation: .2 becomes .3, .1 becomes .2, and the current file .1. */
  function Rotated(files: Files): Files {
    Renamed(Renamed(Renamed(files, 2, 3), 1, 2), 0, 1)
  }

  function CurrentBytes(files: Files): nat {
    if 0 in files then Size(files[0]) else 0
  }

  function Contents(files: Files, index: nat): File {
    if index in files then files[index] else []
  }

  /** The rotation up to the rename of file `index`, which throws. */
  function PartlyRotated(files: Files, index: nat): Files {
    if index == 2 then files
    else if index == 1 then Renamed(files, 2, 3)
    else Renamed(Renamed(files, 2, 3), 1, 2)
  }

  /** What becomes of a write: a failed append is reported on the console, a failed rename throws out of `write`. */
  datatype Fate = Appends | AppendFails | RenameFails(index: nat)

  predicate Overfull(files: Files, record: Record) {
    CurrentBytes(files) + record.bytes > MAX_LOG_BYTES
  }

  predicate Throws(files: Files, record: Record, fate: Fate) {
    Overfull(files, record) && fate.RenameFails? && fate.index < MAX_ROTATED_LOGS && fate.index in files
  }

  function Ready(files: Files, record: Record): Files {
    if Overfull(files, record) then Rotated(files) else files
  }

  function Written(files: Files, record: Record, fate: Fate): Files {
    if Throws(files, record, fate) then PartlyRotated(files, fate.index)
    else if fate.AppendFails? then Ready(files, record)
    else Ready(files, record)[0 := Contents(Ready(files, record), 0) + [record]]
  }

  class Logger {
    var currentLevel: nat
    var hasFile: bool
    var files: Files

    constructor ()
      ensures currentLevel == 1 && !hasFile && files == map[]
    {
      currentLevel, hasFile, files := 1, false, map[];
    }

    method Write(level: nat, record: Record, fate: Fate) returns (threw: bool)
      modifies this`files
      ensures files == if level < currentLevel || !hasFile then old(files) else Written(old(files), record, fate)
      ensures threw <==> level >= currentLevel && hasFile && Throws(old(files), record, fate)
    {
      threw := false;
      if level < currentLevel {
        return;
      }
      if hasFile {
        var currentBytes := if 0 in files then Size(files[0]) else 0;
        if currentBytes + record.bytes > MAX_LOG_BYTES {
          threw := Rotate(fate);
          if threw {
            return;
          }
        }
        if !fate.AppendFails? {
          files := files[0 := (if 0 in files then files[0] else []) + [record]];
        }
      }
    }

    /** The renames; one that fails throws, with those before it done. */
    method Rotate(fate: Fate) returns (threw: bool)
      modifies this`files
      ensures threw <==> fate.RenameFails? && fate.index < MAX_ROTATED_LOGS && fate.index in old(files)
      ensures files == if threw then PartlyRotated(old(files), fate.index) else Rotated(old(files))
    {
      var index := MAX_ROTATED_LOGS - 1;
      while index >= 1
        invariant 0 <= index <= 2
        invariant index == 2 ==> files == old(files)
        invariant index == 1 ==> files == Renamed(old(files), 2, 3)
        invariant index == 0 ==> files == Renamed(Renamed(old(files), 2, 3), 1, 2)
        invariant fate.RenameFails? && index < fate.index < MAX_ROTATED_LOGS ==> fate.index !in old(files)
      {
        if index in files {
          if fate == RenameFails(index) {
            return true;
          }
          files := (files - {index})[index + 1 := files[index]];
        }
        index := index - 1;
      }
      if 0 in files {
        if fate == RenameFails(0) {
          return true;
        }
        files := (files - {0})[1 := files[0]];
      }
      threw := false;
    }
  }

  // ----- runs -----

  datatype Write = Write(record: Record, fate: Fate)

  /** The record reaches the file. */
  predicate Reaches(files: Files, write: Write) {
    !write.fate.AppendFails? && !Throws(files, write.record, write.fate)
  }

  /** The writes so far, the last one on the outside. */
  datatype Writes = NoWrites | Then(before: Writes, last: Write)

  function FilesAfter(writes: Writes): Files {
    match writes
    case NoWrites => map[]
    case Then(before, last) => Written(FilesAfter(before), last.record, last.fate)
  }

  /** Everything that was appended. */
  function Appended(writes: Writes): File {
    match writes
    case NoWrites => []
    case Then(before, last) =>
      if Reaches(FilesAfter(before), last) then Appended(before) + [last.record] else Appended(before)
  }

  function Retained(files: Files): File {
    Contents(files, 3) + Contents(files, 2) + Contents(files, 1) + Contents(files, 0)
  }

  predicate IsSuffix(s: File, whole: File) {
    |s| <= |whole| && s == whole[|whole| - |s|..]
  }

  lemma RotatedContents(files: Files)
    requires files.Keys <= {0, 1, 2, 3}
    ensures var r := Rotated(files);
            && r.Keys <= {1, 2, 3} && Contents(r, 0) == []
            && (0 in files ==> Contents(r, 1) == files[0])
            && (0 !in files ==> 1 !in r)
            && (1 in files ==> Contents(r, 2) == files[1])
            && (1 !in files ==> 2 !in r)
            && Contents(r, 3) == if 2 in files then files[2] else Contents(files, 3)
  {
  }

  lemma RotationDropsAPrefix(files: Files)
    requires files.Keys <= {0, 1, 2, 3}
    ensures IsSuffix(Retained(Rotated(files)), Retained(files))
  {
    RotatedContents(files);
    var r := Rotated(files);
    var oldest, a, b, c := Contents(files, 3), Contents(files, 2), Contents(files, 1), Contents(files, 0);
    assert Contents(r, 2) == b && Contents(r, 1) == c;
    if 2 in files {
      assert Retained(r) == a + b + c + [] == a + b + c;
      FrontDropped(oldest, a, b, c);
    } else {
      assert Retained(r) == oldest + b + c + [] == oldest + b + c;
      OneIsEmpty(oldest, b, c);
    }
  }

  lemma PartlyRotatedContents(files: Files, index: nat)
    requires files.Keys <= {0, 1, 2, 3} && index < MAX_ROTATED_LOGS && index in files
    ensures var p := PartlyRotated(files, index);
            && p.Keys <= {0, 1, 2, 3} && Contents(p, 0) == Contents(files, 0)
            && (index == 2 ==> p == files)
            && (index == 1 ==> Contents(p, 1) == files[1] && 2 !in p
                               && Contents(p, 3) == if 2 in files then files[2] else Contents(files, 3))
            && (index == 0 ==> 1 !in p && Contents(p, 2) == (if 1 in files then files[1] else [])
                               && Contents(p, 3) == if 2 in files then files[2] else Contents(files, 3))
  {
  }

  lemma PartialRotationDropsAPrefix(files: Files, index: nat)
    requires files.Keys <= {0, 1, 2, 3} && index < MAX_ROTATED_LOGS && index in files
    ensures PartlyRotated(files, index).Keys <= {0, 1, 2, 3}
    ensures IsSuffix(Retained(PartlyRotated(files, index)), Retained(files))
  {
    PartlyRotatedContents(files, index);
    var p := PartlyRotated(files, index);
    var oldest, a, b, c := Contents(files, 3), Contents(files, 2), Contents(files, 1), Contents(files, 0);
    if index < 2 {
      if 2 in files {
        assert Retained(p) == if index == 1 then a + [] + b + c else a + b + [] + c;
        OneIsEmpty(a, b, c);
        FrontDropped(oldest, a, b, c);
      } else {
        assert Retained(p) == if index == 1 then oldest + [] + b + c else oldest + b + [] + c;
        OneIsEmpty(oldest, b, c);
      }
    }
  }

  lemma OneIsEmpty(a: File, b: File, c: File)
    ensures a + [] + b + c == a + b + c && a + b + [] + c == a + b + c
  {
  }

  lemma FrontDropped(oldest: File, a: File, b: File, c: File)
    ensures IsSuffix(a + b + c, oldest + a + b + c)
  {
    Regroup(oldest, a, b);
    Regroup(oldest, a + b, c);
  }

  lemma SuffixAppend(s: File, whole: File, more: File)
    requires IsSuffix(s, whole)
    ensures IsSuffix(s + more, whole + more)
  {
  }

  lemma SuffixOfSuffix(a: File, b: File, c: File)
    requires IsSuffix(a, b) && IsSuffix(b, c)
    ensures IsSuffix(a, c)
  {
  }

  lemma RetainedGrows(files: Files, record: Record)
    ensures Retained(files[0 := Contents(files, 0) + [record]]) == Retained(files) + [record]
  {
    Regroup(Contents(files, 3) + Contents(files, 2) + Contents(files, 1), Contents(files, 0), [record]);
  }

  /** In every run, the retained files read from oldest to newest are a suffix of everything appended. */
  lemma {:induction false} RetainedIsSuffix(writes: Writes)
    ensures FilesAfter(writes).Keys <= {0, 1, 2, 3}
    ensures IsSuffix(Retained(FilesAfter(writes)), Appended(writes))
  {
    if writes.Then? {
      RetainedIsSuffix(writes.before);
      var files, record := FilesAfter(writes.before), writes.last.record;
      if Throws(files, record, writes.last.fate) {
        PartialRotationDropsAPrefix(files, writes.last.fate.index);
        SuffixOfSuffix(Retained(FilesAfter(writes)), Retained(files), Appended(writes.before));
      } else {
        var ready := Ready(files, record);
        RotationDropsAPrefix(files);
        RotatedContents(files);
        SuffixOfSuffix(Retained(ready), Retained(files), Appended(writes.before));
        if !writes.last.fate.AppendFails? {
          SuffixAppend(Retained(ready), Appended(writes.before), [record]);
          RetainedGrows(ready, record);
        }
      }
    }
  }

  lemma SizeAppend(file: File, record: Record)
    ensures Size(file + [record]) == Size(file) + record.bytes
  {
    assert (file + [record])[..|file|] == file;
  }

  predicate Fits(file: File) {
    Size(file) <= MAX_LOG_BYTES || |file| == 1
  }

  predicate AllFit(files: Files) {
    files.Keys <= {0, 1, 2, 3} && forall i :: i in files ==> Fits(files[i])
  }

  lemma RotationKeepsFit(files: Files)
    requires AllFit(files)
    ensures AllFit(Rotated(files)) && 0 !in Rotated(files)
  {
  }

  lemma PartialRotationKeepsFit(files: Files, index: nat)
    requires AllFit(files)
    ensures AllFit(PartlyRotated(files, index))
  {
  }

  lemma AppendKeepsFit(files: Files, record: Record)
    requires AllFit(files) && (0 !in files || Size(files[0]) + record.bytes <= MAX_LOG_BYTES)
    ensures AllFit(files[0 := Contents(files, 0) + [record]])
  {
    var file := Contents(files, 0) + [record];
    assert Fits(file) by {
      SizeAppend(Contents(files, 0), record);
    }
    var files' := files[0 := file];
    forall i | i in files' ensures Fits(files'[i]) {
      if i != 0 { assert i in files; }
    }
  }

  /** In every run, each file is within the limit or is a single record. */
  lemma {:induction false} FilesFit(writes: Writes)
    ensures FilesAfter(writes).Keys <= {0, 1, 2, 3}
    ensures forall i :: i in FilesAfter(writes) ==> Fits(FilesAfter(writes)[i])
  {
    if writes.Then? {
      FilesFit(writes.before);
      var files, record := FilesAfter(writes.before), writes.last.record;
      RotationKeepsFit(files);
      AppendKeepsFit(Ready(files, record), record);
      if writes.last.fate.RenameFails? {
        PartialRotationKeepsFit(files, writes.last.fate.index);
      }
    }
  }

  // ----- how much is retained -----

  /** Adjacent files together exceed the limit, and no file is missing between two others. */
  predicate Packed(files: Files) {
    && files.Keys <= {0, 1, 2, 3}
    && (3 in files ==> 2 in files) && (2 in files ==> 1 in files) && (1 in files ==> 0 in files)
    && (1 in files ==> Size(files[1]) + Size(files[0]) > MAX_LOG_BYTES)
    && (2 in files ==> Size(files[2]) + Size(files[1]) > MAX_LOG_BYTES)
    && (3 in files ==> Size(files[3]) + Size(files[2]) > MAX_LOG_BYTES)
    && (0 !in files ==> files == map[])
  }

  /** The records dropped so far. */
  function Dropped(writes: Writes): int {
    |Appended(writes)| - |Retained(FilesAfter(writes))|
  }

  lemma AppendKeepsPacked(files: Files, record: Record)
    requires Packed(files)
    ensures Packed(files[0 := Contents(files, 0) + [record]])
  {
    SizeAppend(Contents(files, 0), record);
  }

  /**
   The record that triggers the rotation is the first of the new file, so that file and the
   one before exceed the limit.
   */
  lemma RotationKeepsPacked(files: Files, record: Record)
    requires Packed(files) && CurrentBytes(files) + record.bytes > MAX_LOG_BYTES
    ensures Packed(Rotated(files)[0 := [record]])
    ensures 0 in files ==> 1 in Rotated(files)
    ensures 3 in files || 2 in files ==> 3 in Rotated(files)
  {
    RotatedContents(files);
    SizeAppend([], record);
    assert [] + [record] == [record];
  }

  /** The write renames a file and then fails, at a later rename or at its append. */
  predicate FailedRotation(files: Files, write: Write) {
    && Overfull(files, write.record) && !Reaches(files, write)
    && exists index :: Renames(write.fate, index) && index in files
  }

  /** The rename of file `index` is done unless there is no such file. */
  predicate Renames(fate: Fate, index: nat) {
    index < MAX_ROTATED_LOGS && (fate.RenameFails? ==> fate.index < index)
  }

  predicate NoFailedRotation(writes: Writes) {
    writes.Then? ==> NoFailedRotation(writes.before) && !FailedRotation(FilesAfter(writes.before), writes.last)
  }

  predicate AlwaysPacked(writes: Writes) {
    Packed(FilesAfter(writes)) && (writes.Then? ==> AlwaysPacked(writes.before))
  }

  lemma PartialRotationPacks(files: Files, index: nat)
    requires Packed(files) && index < MAX_ROTATED_LOGS && index in files
    ensures Packed(PartlyRotated(files, index)) <==> forall k :: index < k < MAX_ROTATED_LOGS ==> k !in files
  {
    PartlyRotatedContents(files, index);
    if index == 1 && 2 in files {
      assert 3 in PartlyRotated(files, index);
    }
    if index == 0 && 1 in files {
      assert 2 in PartlyRotated(files, index);
    }
    if index < 2 && index + 1 !in files {
      assert 2 !in files && PartlyRotated(files, index) == files;
    }
  }

  lemma WritePacks(files: Files, write: Write)
    requires Packed(files)
    ensures Packed(Written(files, write.record, write.fate)) <==> !FailedRotation(files, write)
  {
    var record := write.record;
    if Throws(files, record, write.fate) {
      PartialRotationPacks(files, write.fate.index);
      assert FailedRotation(files, write) <==> exists k :: write.fate.index < k < MAX_ROTATED_LOGS && k in files by {
        assert forall k: nat :: k < MAX_ROTATED_LOGS ==> (Renames(write.fate, k) <==> write.fate.index < k);
      }
    } else if Overfull(files, record) {
      RotatedContents(files);
      RotationKeepsPacked(files, record);
      assert [] + [record] == [record];
      if write.fate.AppendFails? && 0 in files {
        assert Renames(write.fate, 0) && 1 in Rotated(files);
      }
    } else {
      AppendKeepsPacked(files, record);
    }
  }

  /** Adjacent files exceed the limit throughout a run iff no write fails with part of its rotation done. */
  lemma {:induction false} PackedIff(writes: Writes)
    ensures AlwaysPacked(writes) <==> NoFailedRotation(writes)
  {
    if writes.Then? {
      PackedIff(writes.before);
      if AlwaysPacked(writes.before) {
        WritePacks(FilesAfter(writes.before), writes.last);
      }
    }
  }

  lemma {:induction false} DroppedOnlyWhenFull(writes: Writes)
    requires AlwaysPacked(writes)
    ensures Dropped(writes) > 0 ==> 3 in FilesAfter(writes)
  {
    if writes.Then? {
      DroppedOnlyWhenFull(writes.before);
      var files, write := FilesAfter(writes.before), writes.last;
      WritePacks(files, write);
      if Throws(files, write.record, write.fate) {
        NothingMoved(files, write);
      } else if Overfull(files, write.record) {
        RotatedContents(files);
        RotationKeepsPacked(files, write.record);
        RetainedGrows(Rotated(files), write.record);
        if 0 !in files {
          assert Rotated(files) == files;
        } else {
          assert !write.fate.AppendFails? by {
            assert Renames(write.fate, 0) || write.fate.RenameFails?;
          }
        }
      } else {
        RetainedGrows(files, write.record);
      }
    }
  }

  lemma NothingMoved(files: Files, write: Write)
    requires Packed(files) && Throws(files, write.record, write.fate) && !FailedRotation(files, write)
    ensures PartlyRotated(files, write.fate.index) == files
  {
    var index := write.fate.index;
    assert forall k: nat :: index < k < MAX_ROTATED_LOGS ==> k !in files by {
      assert forall k: nat :: index < k < MAX_ROTATED_LOGS ==> Renames(write.fate, k);
    }
  }

  lemma {:induction false} SizeConcat(a: File, b: File)
    ensures Size(a + b) == Size(a) + Size(b)
  {
    if b == [] {
      assert a + b == a;
    } else {
      assert (a + b)[..|a + b| - 1] == a + b[..|b| - 1];
      SizeConcat(a, b[..|b| - 1]);
    }
  }

  /**
   While no write fails with part of its rotation done, once a record has been dropped more
   than twice the limit is retained.
   */
  lemma MuchIsRetained(writes: Writes)
    requires NoFailedRotation(writes) && Dropped(writes) > 0
    ensures Size(Retained(FilesAfter(writes))) > 2 * MAX_LOG_BYTES
  {
    PackedIff(writes);
    DroppedOnlyWhenFull(writes);
    var f := FilesAfter(writes);
    SizeConcat(f[3] + f[2] + f[1], f[0]);
    SizeConcat(f[3] + f[2], f[1]);
    SizeConcat(f[3], f[2]);
  }

  const TINY := Record("t", 1)
  const HUGE := Record("h", MAX_LOG_BYTES)

  /** A record written, then a rotation whose append fails. */
  function TinyThenFailure(before: Writes): Writes {
    Then(Then(before, Write(TINY, Appends)), Write(HUGE, AppendFails))
  }

  lemma FailureRotates(before: Writes)
    requires 0 !in FilesAfter(before)
    ensures FilesAfter(TinyThenFailure(before)) == Rotated(FilesAfter(before)[0 := [TINY]])
    ensures Appended(TinyThenFailure(before)) == Appended(before) + [TINY]
  {
    assert [] + [TINY] == [TINY];
    SizeAppend([], TINY);
  }

  lemma ThreeFailures() returns (writes: Writes)
    ensures FilesAfter(writes) == map[1 := [TINY], 2 := [TINY], 3 := [TINY]]
    ensures |Appended(writes)| == 3
  {
    var w1 := TinyThenFailure(NoWrites);
    FailureRotates(NoWrites);
    assert FilesAfter(w1) == map[1 := [TINY]];
    var w2 := TinyThenFailure(w1);
    FailureRotates(w1);
    assert FilesAfter(w2) == map[1 := [TINY], 2 := [TINY]];
    writes := TinyThenFailure(w2);
    FailureRotates(w2);
  }

  lemma SizeOfThree(record: Record)
    ensures Size([record] + [record] + [record]) == 3 * record.bytes
  {
    SizeAppend([], record);
    assert [] + [record] == [record];
    SizeAppend([record], record);
    SizeAppend([record] + [record], record);
  }

  /** When appends fail, records are dropped although next to nothing is retained. */
  lemma FailedAppendsRetainLittle()
    ensures exists writes: Writes :: Dropped(writes) > 0 && Size(Retained(FilesAfter(writes))) == 3
  {
    var before := ThreeFailures();
    var writes := TinyThenFailure(before);
    FailureRotates(before);
    assert FilesAfter(writes) == map[1 := [TINY], 2 := [TINY], 3 := [TINY]];
    assert Retained(FilesAfter(writes)) == [TINY] + [TINY] + [TINY];
    SizeOfThree(TINY);
    assert Dropped(writes) == 1;
  }

  /** A large record that is appended, behind a rotation if there is anything to rotate. */
  lemma HugeIsWritten(before: Writes) returns (writes: Writes)
    requires 0 !in Rotated(FilesAfter(before))
    requires 0 in FilesAfter(before) ==> Size(FilesAfter(before)[0]) > 0
    ensures FilesAfter(writes) ==
            (if 0 in FilesAfter(before) then Rotated(FilesAfter(before)) else FilesAfter(before))[0 := [HUGE]]
    ensures |Appended(writes)| == |Appended(before)| + 1
    ensures NoFailedRotation(writes) ==> NoFailedRotation(before)
  {
    writes := Then(before, Write(HUGE, Appends));
    assert [] + [HUGE] == [HUGE];
  }

  lemma SizeOfFourHuge()
    ensures Size([HUGE] + [HUGE] + [HUGE] + [HUGE]) == 4 * MAX_LOG_BYTES
    ensures Size([HUGE]) == MAX_LOG_BYTES
  {
    SizeOfThree(HUGE);
    SizeAppend([HUGE] + [HUGE] + [HUGE], HUGE);
    SizeAppend([], HUGE);
    assert [] + [HUGE] == [HUGE];
  }

  lemma RotatedIs(a: File, b: File, c: File)
    ensures Rotated(map[0 := a, 1 := b]) == map[1 := a, 2 := b]
    ensures Rotated(map[0 := a, 1 := b, 2 := c]) == map[1 := a, 2 := b, 3 := c]
  {
  }

  lemma FailureThenTwo() returns (writes: Writes)
    ensures FilesAfter(writes) == map[0 := [HUGE], 1 := [HUGE], 2 := [TINY]]
    ensures |Appended(writes)| == 3 && !NoFailedRotation(writes)
  {
    var w0 := FailureLeavesAGap();
    SizeOfFourHuge();
    var w1 := HugeIsWritten(w0);
    assert FilesAfter(w1) == map[0 := [HUGE], 1 := [TINY]];
    RotatedIs([HUGE], [TINY], []);
    writes := HugeIsWritten(w1);
  }

  lemma FailureLeavesAGap() returns (writes: Writes)
    ensures FilesAfter(writes) == map[1 := [TINY]]
    ensures |Appended(writes)| == 1 && !NoFailedRotation(writes)
  {
    writes := TinyThenFailure(NoWrites);
    FailureRotates(NoWrites);
    TinyFails();
  }

  lemma OneMoreHuge(before: Writes) returns (writes: Writes)
    requires FilesAfter(before) == map[0 := [HUGE], 1 := [HUGE], 2 := [HUGE], 3 := [TINY]]
    ensures FilesAfter(writes) == map[0 := [HUGE], 1 := [HUGE], 2 := [HUGE], 3 := [HUGE]]
    ensures |Appended(writes)| == |Appended(before)| + 1 && (NoFailedRotation(writes) ==> NoFailedRotation(before))
  {
    SizeOfFourHuge();
    assert Rotated(FilesAfter(before)) == map[1 := [HUGE], 2 := [HUGE], 3 := [HUGE]];
    writes := HugeIsWritten(before);
  }

  /** A failed rotation need not cost the bound: large lines written later can make up for it. */
  lemma FailureCanBeMadeUp()
    ensures exists writes: Writes ::
              !NoFailedRotation(writes) && Dropped(writes) > 0 && Size(Retained(FilesAfter(writes))) > 2 * MAX_LOG_BYTES
  {
    var w2 := FailureThenTwo();
    SizeOfFourHuge();
    RotatedIs([HUGE], [HUGE], [TINY]);
    var w3 := HugeIsWritten(w2);
    var w4 := OneMoreHuge(w3);
    FourHugeFiles(FilesAfter(w4));
    assert Dropped(w4) == 1;
  }

  lemma FourHugeFiles(files: Files)
    requires files == map[0 := [HUGE], 1 := [HUGE], 2 := [HUGE], 3 := [HUGE]]
    ensures |Retained(files)| == 4 && Size(Retained(files)) == 4 * MAX_LOG_BYTES
  {
    SizeOfFourHuge();
    assert Retained(files) == [HUGE] + [HUGE] + [HUGE] + [HUGE];
  }

  lemma TinyFails()
    ensures !NoFailedRotation(TinyThenFailure(NoWrites))
  {
    var before := Then(NoWrites, Write(TINY, Appends));
    var files := FilesAfter(before);
    SizeAppend([], TINY);
    assert [] + [TINY] == [TINY];
    assert files == map[0 := [TINY]] && Overfull(files, HUGE);
    assert Renames(AppendFails, 0) && FailedRotation(files, Write(HUGE, AppendFails));
  }
}
