/**
 The size-rotated line log behind the file sink and the dead-letter file: a live file and
 numbered older ones, 1 being the newest of those.
 */
module RotatingFile {
  import opened Wrappers
  import opened Sequences

  type Line = string

  /** Bytes of a file holding these lines, each with its newline. */
  function Bytes(lines: seq<Line>): nat
  {
    if lines == [] then 0 else Bytes(lines[..|lines| - 1]) + |lines[|lines| - 1]| + 1
  }

  function LastN<T>(s: seq<T>, n: nat): seq<T> { if |s| <= n then s else s[|s| - n..] }

  predicate MustRotate(live: seq<Line>, maxBytes: int, line: Line)
  {
    live != [] && Bytes(live) + |line| + 1 > maxBytes
  }

  /** One call on an open log: the line, and whether the write succeeded. */
  datatype Attempt = Attempt(line: Line, ok: bool)

  function Put(live: seq<Line>, a: Attempt): seq<Line> { if a.ok then live + [a.line] else live }

  /** The lines whose writes succeeded. */
  function Written(attempts: seq<Attempt>): seq<Line>
  {
    if attempts == [] then [] else Put(Written(attempts[..|attempts| - 1]), attempts[|attempts| - 1])
  }

  /** All files ever started, oldest first and the live one last, after one more write: a line
      that does not fit starts a new file, even if writing it then fails. */
  function More(files: seq<seq<Line>>, maxBytes: int, a: Attempt): (r: seq<seq<Line>>)
    requires |files| >= 1
    ensures |r| >= 1
  {
    var live := files[|files| - 1];
    if MustRotate(live, maxBytes, a.line) then files + [Put([], a)]
    else files[..|files| - 1] + [Put(live, a)]
  }

  /** The same after a run of writes. */
  function Logged(files: seq<seq<Line>>, maxBytes: int, attempts: seq<Attempt>): (r: seq<seq<Line>>)
    requires |files| >= 1
    ensures |r| >= 1
  {
    if attempts == [] then files
    else More(Logged(files, maxBytes, attempts[..|attempts| - 1]), maxBytes, attempts[|attempts| - 1])
  }

  lemma LoggedSnoc(files: seq<seq<Line>>, maxBytes: int, attempts: seq<Attempt>, a: Attempt)
    requires |files| >= 1
    ensures Logged(files, maxBytes, attempts + [a]) == More(Logged(files, maxBytes, attempts), maxBytes, a)
  {
    assert (attempts + [a])[..|attempts|] == attempts;
  }

  /** A log that starts with one empty file. */
  const EMPTY_LOG: seq<seq<Line>> := [[]]

  lemma FlattenReplaceLast(init: seq<seq<Line>>, live: seq<Line>, a: Attempt)
    ensures Flatten(init + [Put(live, a)]) == Put(Flatten(init + [live]), a)
  {
    FlattenSnoc(init, live);
    FlattenSnoc(init, Put(live, a));
    assert Flatten(init) + (live + [a.line]) == Flatten(init) + live + [a.line];
  }

  lemma FlattenAddFile(files: seq<seq<Line>>, a: Attempt)
    ensures Flatten(files + [Put([], a)]) == Put(Flatten(files), a)
  {
    FlattenSnoc(files, Put([], a));
  }

  lemma FlattenMore(files: seq<seq<Line>>, maxBytes: int, a: Attempt)
    requires |files| >= 1
    ensures Flatten(More(files, maxBytes, a)) == Put(Flatten(files), a)
  {
    SplitLast(files);
    if MustRotate(files[|files| - 1], maxBytes, a.line) {
      FlattenAddFile(files, a);
    } else {
      FlattenReplaceLast(files[..|files| - 1], files[|files| - 1], a);
    }
  }

  lemma {:induction false} LoggedHoldsAllLines(files: seq<seq<Line>>, maxBytes: int, attempts: seq<Attempt>)
    requires |files| >= 1
    ensures Flatten(Logged(files, maxBytes, attempts)) == Flatten(files) + Written(attempts)
  {
    if attempts != [] {
      var init, a := attempts[..|attempts| - 1], attempts[|attempts| - 1];
      LoggedHoldsAllLines(files, maxBytes, init);
      FlattenMore(Logged(files, maxBytes, init), maxBytes, a);
      assert Put(Flatten(files) + Written(init), a) == Flatten(files) + Put(Written(init), a);
    }
  }

  /** Rotation neither loses nor reorders a line. */
  lemma SegmentsHoldAllLines(maxBytes: int, attempts: seq<Attempt>)
    ensures Flatten(Logged(EMPTY_LOG, maxBytes, attempts)) == Written(attempts)
  {
    LoggedHoldsAllLines(EMPTY_LOG, maxBytes, attempts);
    assert EMPTY_LOG[..0] == [] && Flatten(EMPTY_LOG) == [];
  }

  ghost predicate WithinBound(f: seq<Line>, maxBytes: int) { Bytes(f) <= maxBytes || |f| <= 1 }

  ghost predicate AllWithinBound(files: seq<seq<Line>>, maxBytes: int)
  {
    forall i :: 0 <= i < |files| ==> WithinBound(files[i], maxBytes)
  }

  lemma PutWithinBound(live: seq<Line>, maxBytes: int, a: Attempt)
    requires WithinBound(live, maxBytes) && !MustRotate(live, maxBytes, a.line)
    ensures WithinBound(Put(live, a), maxBytes)
  {
    BytesSnoc(live, a.line);
  }

  lemma MoreWithinBound(files: seq<seq<Line>>, maxBytes: int, a: Attempt)
    requires |files| >= 1 && AllWithinBound(files, maxBytes)
    ensures AllWithinBound(More(files, maxBytes, a), maxBytes)
  {
    var live := files[|files| - 1];
    assert WithinBound(live, maxBytes);
    if !MustRotate(live, maxBytes, a.line) { PutWithinBound(live, maxBytes, a); }
  }

  lemma {:induction false} LoggedWithinBound(files: seq<seq<Line>>, maxBytes: int, attempts: seq<Attempt>)
    requires |files| >= 1 && AllWithinBound(files, maxBytes)
    ensures AllWithinBound(Logged(files, maxBytes, attempts), maxBytes)
  {
    if attempts != [] {
      LoggedWithinBound(files, maxBytes, attempts[..|attempts| - 1]);
      MoreWithinBound(Logged(files, maxBytes, attempts[..|attempts| - 1]), maxBytes, attempts[|attempts| - 1]);
    }
  }

  ghost predicate IsSuffix<T>(s: seq<T>, t: seq<T>) { |s| <= |t| && t[|t| - |s|..] == s }

  lemma SuffixSnoc<T>(s: seq<T>, t: seq<T>, more: seq<T>)
    requires IsSuffix(s, t)
    ensures IsSuffix(s + more, t + more)
  {
    var k := |t| - |s|;
    assert (t + more)[k..] == t[k..] + more;
  }

  lemma {:induction false} FlattenSuffix(files: seq<seq<Line>>, n: nat)
    ensures IsSuffix(Flatten(LastN(files, n)), Flatten(files))
  {
    if n > 0 && files != [] {
      var init, last := files[..|files| - 1], files[|files| - 1];
      FlattenSuffix(init, n - 1);
      assert LastN(files, n) == LastN(init, n - 1) + [last];
      FlattenSnoc(LastN(init, n - 1), last);
      SuffixSnoc(Flatten(LastN(init, n - 1)), Flatten(init), last);
    }
  }

  /** What is on disk of all the files: the last maxFiles + 1. */
  function OnDisk(maxFiles: nat, files: seq<seq<Line>>): seq<seq<Line>> { LastN(files, maxFiles + 1) }

  lemma LastNWithinBound(files: seq<seq<Line>>, n: nat, maxBytes: int)
    requires AllWithinBound(files, maxBytes)
    ensures AllWithinBound(LastN(files, n), maxBytes)
  {
  }

  /** Over every run of writes, failed ones among them: the rotated files oldest to newest
      followed by the live one are a contiguous suffix of what was written, at most maxFiles are
      rotated, each is within maxBytes or holds a single line, and nothing is gone before
      maxFiles rotations. */
  lemma DiskIsSuffix(maxBytes: int, maxFiles: nat, attempts: seq<Attempt>)
    ensures var all := Logged(EMPTY_LOG, maxBytes, attempts);
            var files := OnDisk(maxFiles, all);
            && 1 <= |files| <= maxFiles + 1
            && IsSuffix(Flatten(files), Written(attempts))
            && AllWithinBound(files, maxBytes)
            && (|all| <= maxFiles + 1 ==> Flatten(files) == Written(attempts))
  {
    SegmentsHoldAllLines(maxBytes, attempts);
    LoggedWithinBound(EMPTY_LOG, maxBytes, attempts);
    OnDiskIsSuffix(Logged(EMPTY_LOG, maxBytes, attempts), maxFiles, maxBytes);
  }

  lemma OnDiskIsSuffix(all: seq<seq<Line>>, maxFiles: nat, maxBytes: int)
    requires |all| >= 1 && AllWithinBound(all, maxBytes)
    ensures var files := OnDisk(maxFiles, all);
            && 1 <= |files| <= maxFiles + 1 && IsSuffix(Flatten(files), Flatten(all))
            && AllWithinBound(files, maxBytes) && (|all| <= maxFiles + 1 ==> files == all)
  {
    FlattenSuffix(all, maxFiles + 1);
    LastNWithinBound(all, maxFiles + 1, maxBytes);
  }

  const DEFAULT_MAX_SIZE_MB := 100
  const DEFAULT_MAX_FILES := 5

  /** The file under a number, if there is one. */
  function Slot(m: map<int, seq<Line>>, j: int): Option<seq<Line>> { if j in m then Some(m[j]) else None }

  /** Files above i have moved up by one, those up to i are where they were, and i + 1 is free. */
  ghost predicate HalfShifted(before: map<int, seq<Line>>, m: map<int, seq<Line>>, i: int, maxFiles: int)
  {
    && (forall j :: j in m ==> 1 <= j <= maxFiles)
    && (forall j :: 1 <= j <= i ==> Slot(m, j) == Slot(before, j))
    && (forall j :: i < j < maxFiles ==> Slot(m, j + 1) == Slot(before, j))
    && i + 1 !in m
  }

  function Renamed(m: map<int, seq<Line>>, i: int): map<int, seq<Line>>
  {
    if i in m then (m - {i})[i + 1 := m[i]] else m
  }

  lemma RenameShifts(before: map<int, seq<Line>>, m: map<int, seq<Line>>, i: int, maxFiles: int)
    requires 1 <= i < maxFiles && HalfShifted(before, m, i, maxFiles)
    ensures HalfShifted(before, Renamed(m, i), i - 1, maxFiles)
  {
    var r := Renamed(m, i);
    assert Slot(r, i + 1) == Slot(m, i);
    forall j | j != i && j != i + 1 ensures Slot(r, j) == Slot(m, j) {}
  }

  lemma ShiftedAll(before: map<int, seq<Line>>, m: map<int, seq<Line>>, k: nat, maxFiles: int, live: seq<Line>)
    requires 1 <= maxFiles && k <= maxFiles && HalfShifted(before, m, 0, maxFiles)
    requires forall j :: j in before <==> 1 <= j <= k
    ensures var r, k' := m[1 := live], if k < maxFiles then k + 1 else maxFiles;
            && (forall j :: j in r <==> 1 <= j <= k')
            && (forall j :: 1 <= j < k' ==> Slot(r, j + 1) == Slot(before, j))
  {
    var r := m[1 := live];
    forall j | j != 1 ensures Slot(r, j) == Slot(m, j) {}
    forall j ensures j in m <==> 2 <= j <= maxFiles && j - 1 <= k {
      if 2 <= j <= maxFiles { assert Slot(m, (j - 1) + 1) == Slot(before, j - 1); }
    }
  }

  /** The disk shows the newest of all the files: the live one, and under each number the one
      that many before it. */
  ghost predicate Shows(live: seq<Line>, numbered: map<int, seq<Line>>, count: nat, maxFiles: int,
                        files: seq<seq<Line>>)
  {
    && |files| >= 1 && live == files[|files| - 1]
    && count == (if |files| - 1 < maxFiles then |files| - 1 else maxFiles)
    && forall j :: 1 <= j <= count ==> Slot(numbered, j) == Some(files[|files| - 1 - j])
  }

  /** The numbered files 1 to k, oldest first. */
  ghost function Older(numbered: map<int, seq<Line>>, k: nat): (files: seq<seq<Line>>)
    requires forall j :: 1 <= j <= k ==> j in numbered
    ensures |files| == k && forall i :: 0 <= i < k ==> files[i] == numbered[k - i]
  {
    if k == 0 then [] else [numbered[k]] + Older(numbered, k - 1)
  }

  /** Listed oldest to newest, the files on disk are the last of all the files. */
  lemma DiskIsLastFiles(live: seq<Line>, numbered: map<int, seq<Line>>, count: nat, maxFiles: nat,
                        files: seq<seq<Line>>)
    requires Shows(live, numbered, count, maxFiles, files) && forall j :: 1 <= j <= count ==> j in numbered
    ensures Older(numbered, count) + [live] == OnDisk(maxFiles, files)
  {
    var kept := OnDisk(maxFiles, files);
    assert |kept| == count + 1;
    forall i | 0 <= i < count ensures kept[i] == Older(numbered, count)[i] {
      assert Slot(numbered, count - i) == Some(files[|files| - 1 - (count - i)]);
    }
  }

  lemma ShowsAfterRotation(live: seq<Line>, before: map<int, seq<Line>>, k: nat, after: map<int, seq<Line>>, k': nat,
                           maxFiles: int, files: seq<seq<Line>>)
    requires Shows(live, before, k, maxFiles, files) && 1 <= maxFiles
    requires k' == (if k < maxFiles then k + 1 else maxFiles) && Slot(after, 1) == Some(live)
    requires forall j :: 1 <= j < k' ==> Slot(after, j + 1) == Slot(before, j)
    ensures Shows([], after, k', maxFiles, files + [[]])
  {
    forall j | 1 <= j <= k' ensures Slot(after, j) == Some((files + [[]])[|files| - j]) {
      if j > 1 { assert Slot(after, (j - 1) + 1) == Slot(before, j - 1); }
    }
  }

  lemma ShowsAfterWrite(live: seq<Line>, numbered: map<int, seq<Line>>, k: nat, maxFiles: int, files: seq<seq<Line>>,
                        newLive: seq<Line>)
    requires Shows(live, numbered, k, maxFiles, files)
    ensures Shows(newLive, numbered, k, maxFiles, files[..|files| - 1] + [newLive])
  {
  }

  class RotatingFile {
    const maxBytes: int
    const maxFiles: int
    var isOpen: bool
    var live: seq<Line>
    var numbered: map<int, seq<Line>>
    var size: int
    ghost var count: nat
    ghost var files: seq<seq<Line>>

    /** Rotated files are numbered without gaps from 1. */
    ghost predicate Contiguous()
      reads this
    {
      && 1 <= maxFiles && count <= maxFiles
      && forall j :: j in numbered <==> 1 <= j <= count
    }

    ghost predicate Valid()
      reads this
    {
      Contiguous() && size == Bytes(live) && Shows(live, numbered, count, maxFiles, files)
    }

    /** newRotatingFile on a path where nothing exists yet. */
    constructor (maxSizeMb: int, fileLimit: int)
      ensures Valid() && isOpen && files == EMPTY_LOG
      ensures maxBytes == (if maxSizeMb <= 0 then DEFAULT_MAX_SIZE_MB else maxSizeMb) * 1024 * 1024
      ensures maxFiles == if fileLimit <= 0 then DEFAULT_MAX_FILES else fileLimit
    {
      var mb := if maxSizeMb <= 0 then DEFAULT_MAX_SIZE_MB else maxSizeMb;
      maxBytes := mb * 1024 * 1024;
      maxFiles := if fileLimit <= 0 then DEFAULT_MAX_FILES else fileLimit;
      isOpen, live, numbered, size, count, files := true, [], map[], 0, 0, EMPTY_LOG;
    }

    /** From the highest number down, every file takes the number above its own; the one at the
        top goes. */
    method ShiftUp()
      requires Contiguous()
      modifies this`numbered
      ensures HalfShifted(old(numbered), numbered, 0, maxFiles)
    {
      numbered := numbered - {maxFiles};
      var i := maxFiles - 1;
      while i >= 1
        invariant 0 <= i < maxFiles && HalfShifted(old(numbered), numbered, i, maxFiles)
      {
        RenameShifts(old(numbered), numbered, i, maxFiles);
        if i in numbered {
          numbered := (numbered - {i})[i + 1 := numbered[i]];
        }
        i := i - 1;
      }
    }

    /** Shift the numbered files up, dropping the oldest, and restart the live one. */
    method Rotate()
      requires Valid()
      modifies this`live, this`numbered, this`size, this`count, this`files
      ensures Valid() && live == [] && files == old(files) + [[]]
    {
      ShiftUp();
      ShiftedAll(old(numbered), numbered, count, maxFiles, live);
      numbered := numbered[1 := live];
      count := if count < maxFiles then count + 1 else maxFiles;
      ShowsAfterRotation(live, old(numbered), old(count), numbered, count, maxFiles, files);
      live, size, files := [], 0, files + [[]];
    }

    /** Rotates first when the line would not fit. */
    method MakeRoom(line: Line)
      requires Valid()
      modifies this`live, this`numbered, this`size, this`count, this`files
      ensures Valid() && files == Roomy(old(files), maxBytes, line)
    {
      BytesSnoc(live, line);
      if size + |line| + 1 > maxBytes && size > 0 {
        Rotate();
      }
    }

    /** The write itself. */
    method Append(a: Attempt)
      requires Valid()
      modifies this`live, this`size, this`files
      ensures Valid() && files == old(files)[..|old(files)| - 1] + [Put(old(live), a)]
    {
      BytesSnoc(live, a.line);
      ShowsAfterWrite(live, numbered, count, maxFiles, files, Put(live, a));
      files := files[..|files| - 1] + [Put(live, a)];
      if a.ok {
        live := live + [a.line];
        size := size + |a.line| + 1;
      }
    }

    /** writeLine; fails says that writing the line fails, with nothing written of it. */
    method WriteLine(line: Line, fails: bool) returns (ok: bool)
      requires Valid()
      modifies this
      ensures Valid()
      ensures ok == (old(isOpen) && !fails) && isOpen == old(isOpen)
      ensures files == if isOpen then More(old(files), maxBytes, Attempt(line, ok)) else old(files)
    {
      if !isOpen { return false; }
      MoreInTwoSteps(files, maxBytes, Attempt(line, !fails));
      MakeRoom(line);
      Append(Attempt(line, !fails));
      return !fails;
    }

    method Close()
      requires Valid()
      modifies this`isOpen
      ensures Valid() && !isOpen
    {
      isOpen := false;
    }

    /** open on files that exist, as a restart with the same limits finds them: the size is that
        of the live file, so the log goes on as if it had not been closed. */
    method Reopen()
      requires Valid()
      modifies this`isOpen, this`size
      ensures Valid() && isOpen && size == old(size)
    {
      isOpen, size := true, Bytes(live);
    }
  }

  /** All files once there is room for a line: with a new, empty one if it would not fit. */
  ghost function Roomy(files: seq<seq<Line>>, maxBytes: int, line: Line): (r: seq<seq<Line>>)
    requires |files| >= 1
    ensures |r| >= 1
  {
    if MustRotate(files[|files| - 1], maxBytes, line) then files + [[]] else files
  }

  lemma MoreInTwoSteps(files: seq<seq<Line>>, maxBytes: int, a: Attempt)
    requires |files| >= 1
    ensures var room := Roomy(files, maxBytes, a.line);
            More(files, maxBytes, a) == room[..|room| - 1] + [Put(room[|room| - 1], a)]
  {
    var live := files[|files| - 1];
    if MustRotate(live, maxBytes, a.line) { assert (files + [[]])[..|files|] == files; }
  }

  lemma BytesSnoc(lines: seq<Line>, line: Line)
    ensures Bytes(lines + [line]) == Bytes(lines) + |line| + 1
    ensures Bytes(lines) > 0 <==> lines != []
  {
    assert (lines + [line])[..|lines|] == lines;
  }
}
