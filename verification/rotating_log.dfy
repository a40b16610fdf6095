/**
  The size-rotated log shared by the Runtime and its services: file 0 is the live file, files
  1 to `backups` the older ones. A rotation renames each file to the next number, highest first,
  and may fail part-way; the live file is reopened either way, and that may fail as well.
 */
module RotatingLogs {
  type Bytes = seq<bv8>

  datatype Reopening = Opens | FailsAfterCreating | Fails

  datatype Outcome = Written | RotationFailed | HandleClosed

  function FileAt(files: map<nat, Bytes>, n: nat): Bytes {
    if n in files then files[n] else []
  }

  /** What the files 0 to n hold, oldest byte first. */
  function Retained(files: map<nat, Bytes>, n: nat): Bytes {
    FileAt(files, n) + if n == 0 then [] else Retained(files, n - 1)
  }

  function Below(files: map<nat, Bytes>, n: nat): Bytes {
    if n == 0 then [] else Retained(files, n - 1)
  }

  /** `part` is the end of `whole`: only a beginning was lost, nothing was reordered or repeated. */
  predicate EndOf(part: Bytes, whole: Bytes) {
    |part| <= |whole| && whole[|whole| - |part|..] == part
  }

  lemma EndOfEnd(a: Bytes, b: Bytes, c: Bytes)
    requires EndOf(a, b) && EndOf(b, c)
    ensures EndOf(a, c)
  {
    assert c[|c| - |b|..][|b| - |a|..] == c[|c| - |a|..];
  }

  lemma EndGrows(a: Bytes, b: Bytes, more: Bytes)
    requires EndOf(a, b)
    ensures EndOf(a + more, b + more)
  {
    assert (b + more)[|b + more| - |a + more|..] == b[|b| - |a|..] + more;
  }

  lemma LaterIsEnd(front: Bytes, back: Bytes)
    ensures EndOf(back, front + back)
  {
    assert (front + back)[|front|..] == back;
  }

  lemma {:induction false} SameFilesRetainSame(a: map<nat, Bytes>, b: map<nat, Bytes>, n: nat)
    requires forall k | 0 <= k <= n :: FileAt(a, k) == FileAt(b, k)
    ensures Retained(a, n) == Retained(b, n)
  {
    if n > 0 {
      SameFilesRetainSame(a, b, n - 1);
    }
  }

  function Renamed(files: map<nat, Bytes>, index: nat): map<nat, Bytes>
    requires index > 0 && index - 1 in files
  {
    (files - {index - 1})[index := files[index - 1]]
  }

  lemma AbsentHoldsNothing(files: map<nat, Bytes>, n: nat)
    requires n !in files
    ensures Retained(files, n) == Below(files, n)
  {
    assert [] + Below(files, n) == Below(files, n);
  }

  lemma RenameIntoTop(files: map<nat, Bytes>, n: nat)
    requires 0 < n && n - 1 in files && n !in files
    ensures Retained(Renamed(files, n), n) == Retained(files, n)
  {
    var files' := Renamed(files, n);
    AbsentHoldsNothing(files, n);
    AbsentHoldsNothing(files', n - 1);
    if n - 1 > 0 {
      SameFilesRetainSame(files, files', n - 2);
    }
    assert Below(files', n - 1) == Below(files, n - 1);
    assert Retained(files', n) == files[n - 1] + Below(files, n - 1);
  }

  /** Renaming into a free number moves nothing in the order. */
  lemma {:induction false} RenameKeepsOrder(files: map<nat, Bytes>, index: nat, n: nat)
    requires 0 < index <= n && index - 1 in files && index !in files
    ensures Retained(Renamed(files, index), n) == Retained(files, n)
    decreases n
  {
    if index < n {
      RenameKeepsOrder(files, index, n - 1);
      assert FileAt(Renamed(files, index), n) == FileAt(files, n);
    } else {
      RenameIntoTop(files, n);
    }
  }

  /** Renaming onto the last number drops what that file held, the oldest bytes. */
  lemma RenameOntoLast(files: map<nat, Bytes>, n: nat)
    requires n > 0 && n - 1 in files
    ensures EndOf(Retained(Renamed(files, n), n), Retained(files, n))
  {
    var freed := files - {n};
    SameFilesRetainSame(files, freed, n - 1);
    LaterIsEnd(FileAt(files, n), Retained(files, n - 1));
    assert Renamed(freed, n) == Renamed(files, n);
    RenameKeepsOrder(freed, n, n);
  }

  datatype Shift = Shift(files: map<nat, Bytes>, ok: bool)

  /** Rename the files below `index` up by one, highest first; the rename to number `bad` raises (0: none does). */
  function Shifted(files: map<nat, Bytes>, index: nat, bad: nat): Shift
    decreases index
  {
    if index == 0 then Shift(files, true)
    else if index - 1 !in files then Shifted(files, index - 1, bad)
    else if index == bad then Shift(files, false)
    else Shifted(Renamed(files, index), index - 1, bad)
  }

  lemma EndOfItself(a: Bytes)
    ensures EndOf(a, a)
  {
    assert a[0..] == a;
  }

  /** One rename of a rotation keeps the end: the number it takes is free, or the last one. */
  lemma RenameKeepsTheEnd(files: map<nat, Bytes>, index: nat, n: nat)
    requires 0 < index <= n && index - 1 in files && (index < n ==> index !in files)
    ensures EndOf(Retained(Renamed(files, index), n), Retained(files, n))
  {
    if index == n {
      RenameOntoLast(files, n);
    } else {
      RenameKeepsOrder(files, index, n);
      EndOfItself(Retained(files, n));
    }
  }

  lemma ShiftedOn(files: map<nat, Bytes>, index: nat, bad: nat)
    requires index > 0
    ensures Shifted(files, index, bad)
         == if index - 1 !in files then Shifted(files, index - 1, bad)
            else if index == bad then Shift(files, false)
            else Shifted(Renamed(files, index), index - 1, bad)
  {
  }

  /** However far a rotation gets, what remains is the end of what was there. */
  lemma {:induction false} ShiftKeepsTheEnd(files: map<nat, Bytes>, index: nat, n: nat, bad: nat)
    requires index <= n && (index < n ==> index !in files)
    ensures EndOf(Retained(Shifted(files, index, bad).files, n), Retained(files, n))
    decreases index
  {
    var was := Retained(files, n);
    if index == 0 {
      EndOfItself(was);
    } else {
      ShiftedOn(files, index, bad);
      if index - 1 !in files {
        ShiftKeepsTheEnd(files, index - 1, n, bad);
      } else if index == bad {
        EndOfItself(was);
      } else {
        RenamedShiftKeepsTheEnd(files, index, n, bad);
      }
    }
  }

  lemma {:induction false} RenamedShiftKeepsTheEnd(files: map<nat, Bytes>, index: nat, n: nat, bad: nat)
    requires 0 < index <= n && index - 1 in files && (index < n ==> index !in files)
    ensures EndOf(Retained(Shifted(Renamed(files, index), index - 1, bad).files, n), Retained(files, n))
    decreases index, 0
  {
    var moved := Renamed(files, index);
    ShiftKeepsTheEnd(moved, index - 1, n, bad);
    RenameKeepsTheEnd(files, index, n);
    EndOfEnd(Retained(Shifted(moved, index - 1, bad).files, n), Retained(moved, n), Retained(files, n));
  }

  /** A rotation that completes moves each file to the next number and frees the live one. */
  lemma {:induction false} ShiftMovesEachFile(files: map<nat, Bytes>, index: nat, bad: nat, k: nat)
    requires Shifted(files, index, bad).ok
    ensures var after := Shifted(files, index, bad).files;
            && (k > index ==> FileAt(after, k) == FileAt(files, k))
            && (0 < k <= index ==> FileAt(after, k) == if k - 1 in files then files[k - 1] else if k == index then FileAt(files, k) else [])
            && (index > 0 ==> 0 !in after)
    decreases index
  {
    if index > 0 {
      var moved := if index - 1 in files then Renamed(files, index) else files;
      ShiftMovesEachFile(moved, index - 1, bad, k);
    }
  }

  lemma Associates(a: Bytes, b: Bytes, c: Bytes)
    ensures a + (b + c) == a + b + c
  {
  }

  lemma {:induction false} AppendToLive(files: map<nat, Bytes>, n: nat, value: Bytes)
    ensures Retained(files[0 := FileAt(files, 0) + value], n) == Retained(files, n) + value
  {
    var files' := files[0 := FileAt(files, 0) + value];
    if n == 0 {
      assert Retained(files, 0) == FileAt(files, 0);
      assert Retained(files', 0) == FileAt(files', 0);
    } else {
      AppendToLive(files, n - 1, value);
      assert FileAt(files', n) == FileAt(files, n);
      Associates(FileAt(files, n), Retained(files, n - 1), value);
    }
  }

  // -- whole runs

  datatype Log = Log(files: map<nat, Bytes>, size: nat, handle: bool)

  /** One write request, with the rename that fails and how reopening goes should it rotate. */
  datatype Call = Call(value: Bytes, bad: nat, luck: Reopening)

  predicate Consistent(l: Log) {
    l.handle ==> 0 in l.files && l.size == |l.files[0]|
  }

  predicate Rotates(maxBytes: int, l: Log, value: Bytes) {
    l.size > 0 && l.size + |value| > maxBytes
  }

  function Reopened(l: Log, luck: Reopening): Log {
    var files := if luck.Fails? then l.files else l.files[0 := FileAt(l.files, 0)];
    Log(files, if luck.Opens? then |FileAt(l.files, 0)| else l.size, luck.Opens?)
  }

  /** The log a write appends to, and whether the write still happens. */
  function Prepared(maxBytes: int, backups: nat, l: Log, c: Call): (Log, Outcome) {
    if Rotates(maxBytes, l, c.value) then
      var shift := Shifted(l.files, backups, c.bad);
      var l' := Reopened(l.(files := shift.files), c.luck);
      (l', if shift.ok && l'.handle then Written else RotationFailed)
    else (l, if l.handle then Written else HandleClosed)
  }

  function After(maxBytes: int, backups: nat, l: Log, c: Call): (Log, Outcome) {
    var (l', outcome) := Prepared(maxBytes, backups, l, c);
    (if outcome.Written?
     then l'.(files := l'.files[0 := FileAt(l'.files, 0) + c.value], size := l'.size + |c.value|)
     else l', outcome)
  }

  function RunLog(maxBytes: int, backups: nat, l: Log, calls: seq<Call>): Log
    decreases |calls|
  {
    if calls == [] then l else RunLog(maxBytes, backups, After(maxBytes, backups, l, calls[0]).0, calls[1..])
  }

  /** The values whose writes were reported as done, in order. */
  function Reported(maxBytes: int, backups: nat, l: Log, calls: seq<Call>): Bytes
    decreases |calls|
  {
    if calls == [] then [] else
      var (l', outcome) := After(maxBytes, backups, l, calls[0]);
      (if outcome.Written? then calls[0].value else []) + Reported(maxBytes, backups, l', calls[1..])
  }

  lemma PreparedKeepsTheEnd(maxBytes: int, backups: nat, l: Log, c: Call)
    requires Consistent(l)
    ensures Consistent(Prepared(maxBytes, backups, l, c).0)
    ensures EndOf(Retained(Prepared(maxBytes, backups, l, c).0.files, backups), Retained(l.files, backups))
    ensures Prepared(maxBytes, backups, l, c).1.Written? ==> Prepared(maxBytes, backups, l, c).0.handle
  {
    LaterIsEnd([], Retained(l.files, backups));
    assert [] + Retained(l.files, backups) == Retained(l.files, backups);
    if Rotates(maxBytes, l, c.value) {
      ShiftKeepsTheEnd(l.files, backups, backups, c.bad);
      SameFilesRetainSame(Prepared(maxBytes, backups, l, c).0.files, Shifted(l.files, backups, c.bad).files, backups);
    }
  }

  lemma WriteKeepsTheEnd(maxBytes: int, backups: nat, l: Log, c: Call)
    requires Consistent(l)
    ensures var (l', outcome) := After(maxBytes, backups, l, c);
            && Consistent(l')
            && EndOf(Retained(l'.files, backups), Retained(l.files, backups) + if outcome.Written? then c.value else [])
  {
    var (ready, outcome) := Prepared(maxBytes, backups, l, c);
    PreparedKeepsTheEnd(maxBytes, backups, l, c);
    if outcome.Written? {
      AppendToLive(ready.files, backups, c.value);
      EndGrows(Retained(ready.files, backups), Retained(l.files, backups), c.value);
    } else {
      assert Retained(l.files, backups) + [] == Retained(l.files, backups);
    }
  }

  // -- exactly what one write does

  /** Below the last number a rotation moves files without changing what they hold together. */
  lemma {:induction false} InnerShiftKeepsAll(files: map<nat, Bytes>, index: nat, n: nat, bad: nat)
    requires index < n && index !in files
    ensures Retained(Shifted(files, index, bad).files, n) == Retained(files, n)
    decreases index
  {
    if index > 0 {
      ShiftedOn(files, index, bad);
      if index - 1 !in files {
        InnerShiftKeepsAll(files, index - 1, n, bad);
      } else if index != bad {
        RenameKeepsOrder(files, index, n);
        InnerShiftKeepsAll(Renamed(files, index), index - 1, n, bad);
      }
    }
  }

  /** What a rotation drops: the last file, if another is renamed onto it. */
  function Dropped(files: map<nat, Bytes>, n: nat, bad: nat): Bytes {
    if n > 0 && n - 1 in files && bad != n then FileAt(files, n) else []
  }

  lemma ShiftDropsTheLast(files: map<nat, Bytes>, n: nat, bad: nat)
    ensures Retained(files, n) == Dropped(files, n, bad) + Retained(Shifted(files, n, bad).files, n)
  {
    assert [] + Retained(files, n) == Retained(files, n);
    if n > 0 {
      ShiftedOn(files, n, bad);
      if n - 1 !in files {
        InnerShiftKeepsAll(files, n - 1, n, bad);
      } else if n != bad {
        var freed := files - {n};
        SameFilesRetainSame(files, freed, n - 1);
        assert Renamed(freed, n) == Renamed(files, n);
        RenameKeepsOrder(freed, n, n);
        AbsentHoldsNothing(freed, n);
        InnerShiftKeepsAll(Renamed(files, n), n - 1, n, bad);
      }
    }
  }

  /** A rotation fails exactly when the rename that raises is one it has to make. */
  lemma {:induction false} ShiftFailsIff(files: map<nat, Bytes>, index: nat, bad: nat)
    ensures Shifted(files, index, bad).ok <==> !(1 <= bad <= index && bad - 1 in files)
    decreases index
  {
    if index > 0 {
      ShiftedOn(files, index, bad);
      if index - 1 !in files {
        ShiftFailsIff(files, index - 1, bad);
      } else if index != bad {
        ShiftFailsIff(Renamed(files, index), index - 1, bad);
      }
    }
  }

  /** The live file is empty or the value fits behind it. */
  predicate Fits(maxBytes: int, l: Log, value: Bytes) {
    FileAt(l.files, 0) == [] || |FileAt(l.files, 0)| + |value| <= maxBytes
  }

  /**
    One write to an open log. A value that fits goes behind the live file, and no file moves and no
    byte is dropped. One that does not is refused exactly if a rename it needs raises or the live
    file cannot be reopened; what is dropped is the last file or nothing, and nothing else.
   */
  lemma WriteIsExact(maxBytes: int, backups: nat, l: Log, c: Call)
    requires Consistent(l) && l.handle
    ensures var (l', outcome) := After(maxBytes, backups, l, c);
      var own := if outcome.Written? then c.value else [];
      if Fits(maxBytes, l, c.value) then
        && outcome.Written? && l'.files == l.files[0 := FileAt(l.files, 0) + c.value]
        && Retained(l'.files, backups) == Retained(l.files, backups) + c.value
      else
        && (outcome.Written? <==> c.luck.Opens? && !(1 <= c.bad <= backups && c.bad - 1 in l.files))
        && Retained(l.files, backups) + own == Dropped(l.files, backups, c.bad) + Retained(l'.files, backups)
        && (outcome.Written? && backups > 0 ==> FileAt(l'.files, 0) == c.value && FileAt(l'.files, 1) == FileAt(l.files, 0))
  {
    var (ready, outcome) := Prepared(maxBytes, backups, l, c);
    if Fits(maxBytes, l, c.value) {
      AppendToLive(l.files, backups, c.value);
    } else {
      var shifted := Shifted(l.files, backups, c.bad);
      ShiftFailsIff(l.files, backups, c.bad);
      ShiftDropsTheLast(l.files, backups, c.bad);
      SameFilesRetainSame(ready.files, shifted.files, backups);
      AppendToLive(ready.files, backups, c.value);
      Associates(Dropped(l.files, backups, c.bad), Retained(ready.files, backups), c.value);
      if shifted.ok {
        ShiftMovesEachFile(l.files, backups, c.bad, 0);
        ShiftMovesEachFile(l.files, backups, c.bad, 1);
        assert [] + c.value == c.value;
      }
      assert Retained(l.files, backups) + [] == Retained(l.files, backups);
    }
  }

  /**
    Over any run of writes, rotations, failed renames and failed reopenings: the files hold, in
    order, the end of everything that was there at the start and was reported written since.
   */
  lemma {:induction false} LogIsTheEndOfHistory(maxBytes: int, backups: nat, l: Log, calls: seq<Call>)
    requires Consistent(l)
    ensures EndOf(Retained(RunLog(maxBytes, backups, l, calls).files, backups),
                  Retained(l.files, backups) + Reported(maxBytes, backups, l, calls))
    decreases |calls|
  {
    if calls == [] {
      LaterIsEnd([], Retained(l.files, backups));
      assert [] + Retained(l.files, backups) == Retained(l.files, backups) + [];
    } else {
      var (l', outcome) := After(maxBytes, backups, l, calls[0]);
      var rest := Reported(maxBytes, backups, l', calls[1..]);
      var own := if outcome.Written? then calls[0].value else [];
      WriteKeepsTheEnd(maxBytes, backups, l, calls[0]);
      LogIsTheEndOfHistory(maxBytes, backups, l', calls[1..]);
      EndGrows(Retained(l'.files, backups), Retained(l.files, backups) + own, rest);
      Associates(Retained(l.files, backups), own, rest);
      EndOfEnd(Retained(RunLog(maxBytes, backups, l, calls).files, backups), Retained(l'.files, backups) + rest,
               Retained(l.files, backups) + own + rest);
    }
  }

  /** The values whose writes were reported as done, one by one. */
  function ReportedValues(maxBytes: int, backups: nat, l: Log, calls: seq<Call>): seq<Bytes>
    decreases |calls|
  {
    if calls == [] then [] else
      var (l', outcome) := After(maxBytes, backups, l, calls[0]);
      (if outcome.Written? then [calls[0].value] else []) + ReportedValues(maxBytes, backups, l', calls[1..])
  }

  /** A rotation, however far it gets, either frees the live name or leaves the live file alone. */
  lemma {:induction false} ShiftFreesOrLeavesLive(files: map<nat, Bytes>, index: nat, bad: nat)
    ensures var after := Shifted(files, index, bad).files;
            0 !in after || (0 in files && after[0] == files[0])
    decreases index
  {
    if index > 0 {
      ShiftedOn(files, index, bad);
      if index - 1 !in files {
        ShiftFreesOrLeavesLive(files, index - 1, bad);
      } else if index != bad {
        ShiftFreesOrLeavesLive(Renamed(files, index), index - 1, bad);
      }
    }
  }

  /** What one call may leave in the live file when there is a backup to move it to. */
  lemma LiveAfterOneCall(maxBytes: int, backups: nat, l: Log, c: Call)
    requires Consistent(l) && backups > 0
    ensures var (l', outcome) := After(maxBytes, backups, l, c);
            var live, was := FileAt(l'.files, 0), FileAt(l.files, 0);
            && Consistent(l')
            && if outcome.Written? then |live| <= maxBytes || live == c.value else live == [] || live == was
  {
    WriteKeepsTheEnd(maxBytes, backups, l, c);
    if Rotates(maxBytes, l, c.value) {
      ShiftFreesOrLeavesLive(l.files, backups, c.bad);
      if Shifted(l.files, backups, c.bad).ok {
        ShiftMovesEachFile(l.files, backups, c.bad, 0);
      }
      assert [] + c.value == c.value;
    } else if l.size == 0 {
      assert l.handle ==> FileAt(l.files, 0) + c.value == c.value;
    }
  }

  /**
    Over any run with at least one backup, failed renames and reopenings included: the live file
    is within the limit, or empty, or holds one reported write alone, or still its opening
    content when no write has been reported yet.
   */
  lemma {:induction false} LiveFileIsBounded(maxBytes: int, backups: nat, l: Log, calls: seq<Call>)
    requires Consistent(l) && backups > 0
    ensures var live := FileAt(RunLog(maxBytes, backups, l, calls).files, 0);
            var reported := ReportedValues(maxBytes, backups, l, calls);
            || |live| <= maxBytes || live == []
            || live in reported
            || (live == FileAt(l.files, 0) && reported == [])
    decreases |calls|
  {
    if calls != [] {
      LiveAfterOneCall(maxBytes, backups, l, calls[0]);
      LiveFileIsBounded(maxBytes, backups, After(maxBytes, backups, l, calls[0]).0, calls[1..]);
    }
  }

  function ValuesOf(calls: seq<Call>): seq<Bytes>
    decreases |calls|
  {
    if calls == [] then [] else [calls[0].value] + ValuesOf(calls[1..])
  }

  /**
    Without backups nothing is ever moved away: over any run the live file is its opening content
    and everything reported since, whatever the limit. Nothing is refused while reopening works.
   */
  lemma {:induction false} WithoutBackupsTheLogGrows(maxBytes: int, l: Log, calls: seq<Call>)
    requires Consistent(l)
    ensures FileAt(RunLog(maxBytes, 0, l, calls).files, 0) == FileAt(l.files, 0) + Reported(maxBytes, 0, l, calls)
    ensures l.handle && (forall c | c in calls :: c.luck.Opens?) ==> ReportedValues(maxBytes, 0, l, calls) == ValuesOf(calls)
    decreases |calls|
  {
    if calls != [] {
      var (l', outcome) := After(maxBytes, 0, l, calls[0]);
      var own := if outcome.Written? then calls[0].value else [];
      WriteKeepsTheEnd(maxBytes, 0, l, calls[0]);
      assert FileAt(l'.files, 0) == FileAt(l.files, 0) + own;
      WithoutBackupsTheLogGrows(maxBytes, l', calls[1..]);
      Associates(FileAt(l.files, 0), own, Reported(maxBytes, 0, l', calls[1..]));
      assert calls[0] in calls;
    }
  }

  class RotatingLog {
    const maxBytes: int
    const backups: nat
    var files: map<nat, Bytes>
    var size: nat
    var handle: bool

    function Contents(): Log
      reads this
    {
      Log(files, size, handle)
    }

    constructor (maxBytes: int, backups: nat, found: map<nat, Bytes>)
      ensures Consistent(Contents()) && handle && this.maxBytes == maxBytes && this.backups == backups
      ensures files == found[0 := FileAt(found, 0)]
      ensures Retained(files, backups) == Retained(found, backups)
    {
      this.maxBytes, this.backups := maxBytes, backups;
      files, size, handle := found[0 := FileAt(found, 0)], |FileAt(found, 0)|, true;
      SameFilesRetainSame(found[0 := FileAt(found, 0)], found, backups);
    }

    method ShiftFiles(bad: nat) returns (ok: bool)
      modifies this`files
      ensures Shift(files, ok) == Shifted(old(files), backups, bad)
    {
      var index := backups;
      while index > 0
        invariant 0 <= index <= backups
        invariant Shifted(files, index, bad) == Shifted(old(files), backups, bad)
      {
        if index - 1 in files {
          if index == bad {
            return false;
          }
          files := Renamed(files, index);
        }
        index := index - 1;
      }
      return true;
    }

    method Reopen(luck: Reopening)
      modifies this
      ensures Contents() == Reopened(old(Contents()), luck)
    {
      handle := false;
      if !luck.Fails? {
        files := files[0 := FileAt(files, 0)];
      }
      if luck.Opens? {
        handle, size := true, |files[0]|;
      }
    }

    /** Append one value, rotating first when it does not fit. */
    method Write(c: Call) returns (outcome: Outcome)
      requires Consistent(Contents())
      modifies this
      ensures Consistent(Contents())
      ensures (Contents(), outcome) == After(maxBytes, backups, old(Contents()), c)
      ensures EndOf(Retained(files, backups), Retained(old(files), backups) + if outcome.Written? then c.value else [])
    {
      WriteKeepsTheEnd(maxBytes, backups, Contents(), c);
      if size > 0 && size + |c.value| > maxBytes {
        handle := false;
        var ok := ShiftFiles(c.bad);
        Reopen(c.luck);
        if !ok || !handle {
          return RotationFailed;
        }
      } else if !handle {
        return HandleClosed;
      }
      files, size := files[0 := FileAt(files, 0) + c.value], size + |c.value|;
      return Written;
    }
  }
}
