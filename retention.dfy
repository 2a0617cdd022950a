/** Retention of old log files: the name pattern of the files the logger
    creates, and the cleanup that deletes the oldest matching files until
    their total size is within the budget. The directory is an abstract
    snapshot of its entries. */
module Retention {
  import opened Basics
  import opened Decimal
  import opened Record

  /** A directory entry: file name (without the directory), size in bytes,
      last write time, and whether it is a regular file. */
  datatype Entry = Entry(name: string, size: nat, mtime: int, regular: bool)

  const LogSuffix: string := ".log"

  /** The cleanup name filter: the name starts with the base name and an
      underscore, ends with `.log`, and is strictly longer than the two. */
  predicate IsLogFileName(base: string, name: string) {
    var prefix := base + "_";
    prefix <= name && |name| > |prefix| + |LogSuffix| && name[|name| - |LogSuffix|..] == LogSuffix
  }

  /** The stamp of a file name, `YYYY-MM-DD_HH-MM-SS` as `%04d` and `%02d`
      print the fields. */
  function Stamp(t: DateTime): (s: string)
    ensures |s| >= 19
  {
    Padded(t.year, 4) + ("-" + (Padded(t.month, 2) + ("-" + (Padded(t.day, 2) + ("_"
    + (Padded(t.hour, 2) + ("-" + (Padded(t.minute, 2) + ("-" + Padded(t.second, 2))))))))))
  }

  /** The name `createNewLogFile` gives a new file, and its full path. */
  function FileNameFor(base: string, t: DateTime): string {
    base + ("_" + (Stamp(t) + LogSuffix))
  }

  function FilePathFor(logPath: string, base: string, t: DateTime): string {
    logPath + FileNameFor(base, t)
  }

  /** The entries cleanup considers: regular files whose names match, in
      directory order. */
  function Matching(base: string, dir: seq<Entry>): (r: seq<Entry>)
    ensures |r| <= |dir|
  {
    if |dir| == 0 then []
    else
      var e := dir[|dir| - 1];
      Matching(base, dir[..|dir| - 1]) + (if e.regular && IsLogFileName(base, e.name) then [e] else [])
  }

  function TotalSize(s: seq<Entry>): nat {
    if |s| == 0 then 0 else s[0].size + TotalSize(s[1..])
  }

  predicate SortedByMtime(s: seq<Entry>) {
    forall i, j :: 0 <= i < j < |s| ==> s[i].mtime <= s[j].mtime
  }

  /** Inserts before the first entry that is not older, so entries with
      equal times keep their input order. */
  function Insert(e: Entry, s: seq<Entry>): (r: seq<Entry>)
    ensures |r| == |s| + 1
  {
    if |s| == 0 then [e]
    else if e.mtime <= s[0].mtime then [e] + s
    else [s[0]] + Insert(e, s[1..])
  }

  /** Ascending last write time. */
  function SortByMtime(s: seq<Entry>): (r: seq<Entry>)
    ensures |r| == |s|
  {
    if |s| == 0 then [] else Insert(s[0], SortByMtime(s[1..]))
  }

  /** The deletion loop over `s`, starting from the running total `total`:
      stop once the total is within `max`, otherwise delete the next entry
      and subtract its size, going to zero rather than below. */
  function OldestFirstUntil(s: seq<Entry>, total: nat, max: nat): (d: seq<Entry>)
    ensures |d| <= |s|
  {
    if |s| == 0 || total <= max then [] else [s[0]] + OldestFirstUntil(s[1..], SatSub(total, s[0].size), max)
  }

  /** The running total when that loop ends. */
  function Remaining(s: seq<Entry>, total: nat, max: nat): nat {
    if |s| == 0 || total <= max then total else Remaining(s[1..], SatSub(total, s[0].size), max)
  }

  /** The entries `cleanupOldLogFiles` deletes, oldest first. A budget of
      zero disables the cleanup. */
  function CleanupSelection(maxTotal: nat, base: string, dir: seq<Entry>): seq<Entry> {
    if maxTotal == 0 then []
    else
      var files := Matching(base, dir);
      if |files| == 0 then []
      else
        var total := TotalSize(files);
        if total <= maxTotal then [] else OldestFirstUntil(SortByMtime(files), total, maxTotal)
  }

  /** The scan of the log directory: the regular files whose names pass
      the filter, in directory order. */
  method CollectMatching(base: string, dir: seq<Entry>) returns (files: seq<Entry>)
    ensures files == Matching(base, dir)
  {
    files := [];
    var i := 0;
    while i < |dir|
      invariant 0 <= i <= |dir|
      invariant files == Matching(base, dir[..i])
    {
      assert dir[..i + 1][..i] == dir[..i];
      var e := dir[i];
      if e.regular && IsLogFileName(base, e.name) {
        files := files + [e];
      }
      i := i + 1;
    }
    assert dir[..i] == dir;
  }

  /** The sum of the sizes of the matching files. */
  method SumSizes(files: seq<Entry>) returns (total: nat)
    ensures total == TotalSize(files)
  {
    total := 0;
    var i := 0;
    while i < |files|
      invariant 0 <= i <= |files|
      invariant total == TotalSize(files[..i])
    {
      TotalSizeAppend(files[..i], [files[i]]);
      assert files[..i] + [files[i]] == files[..i + 1];
      total := total + files[i].size;
      i := i + 1;
    }
    assert files[..i] == files;
  }

  /** The deletion loop over the sorted files, from the running total
      `total0`. */
  method DeleteOldest(sorted: seq<Entry>, total0: nat, maxTotal: nat) returns (deleted: seq<Entry>)
    ensures deleted == OldestFirstUntil(sorted, total0, maxTotal)
  {
    deleted := [];
    var total: nat := total0;
    var i := 0;
    while i < |sorted|
      invariant 0 <= i <= |sorted|
      invariant deleted + OldestFirstUntil(sorted[i..], total, maxTotal) == OldestFirstUntil(sorted, total0, maxTotal)
    {
      if total <= maxTotal {
        break;
      }
      var sz := sorted[i].size;
      assert sorted[i..][1..] == sorted[i + 1..];
      deleted := deleted + [sorted[i]];
      if total >= sz {
        total := total - sz;
      } else {
        total := 0;
      }
      i := i + 1;
    }
  }

  /** `cleanupOldLogFiles`: collect the matching files, sum their sizes, and
      if the sum is over the budget delete the oldest files until it is not. */
  method Cleanup(maxTotal: nat, base: string, dir: seq<Entry>) returns (deleted: seq<Entry>)
    ensures deleted == CleanupSelection(maxTotal, base, dir)
  {
    deleted := [];
    if maxTotal == 0 {
      return;
    }
    var files := CollectMatching(base, dir);
    if |files| == 0 {
      return;
    }
    var total := SumSizes(files);
    if total <= maxTotal {
      return;
    }
    deleted := DeleteOldest(SortByMtime(files), total, maxTotal);
  }

  // ---------------------------------------------------------------------
  // Properties of the name pattern

  /** The middle part of a matching name, between the prefix and `.log`. */
  function Middle(base: string, name: string): string
    requires IsLogFileName(base, name)
  {
    name[|base| + 1..|name| - |LogSuffix|]
  }

  /** The filter accepts exactly the names `base + "_" + mid + ".log"` with a
      non-empty `mid`: every accepted name has that form ... */
  lemma MatchingNameForm(base: string, name: string)
    requires IsLogFileName(base, name)
    ensures |Middle(base, name)| > 0
    ensures name == base + ("_" + (Middle(base, name) + LogSuffix))
  {
    var k := |base| + 1;
    assert name[..k] == base + "_";
    assert name == name[..k] + (Middle(base, name) + name[|name| - |LogSuffix|..]);
  }

  /** ... and every such name is accepted. */
  lemma NameFormMatches(base: string, mid: string)
    requires |mid| > 0
    ensures IsLogFileName(base, base + ("_" + (mid + LogSuffix)))
  {
    var name := base + ("_" + (mid + LogSuffix));
    assert name == (base + "_") + (mid + LogSuffix);
    assert name[|name| - |LogSuffix|..] == LogSuffix;
  }

  /** Every name built from the base name and the stamp passes the filter.
      Whether the file the logger creates is seen by the cleanup also
      depends on the path; see `GeneratedPathInDirectory`. */
  lemma GeneratedNameMatches(base: string, t: DateTime)
    ensures IsLogFileName(base, FileNameFor(base, t))
    ensures Middle(base, FileNameFor(base, t)) == Stamp(t)
  {
    NameFormMatches(base, Stamp(t));
    MatchingNameForm(base, FileNameFor(base, t));
    CancelFront(base + "_", Stamp(t) + LogSuffix, base + "_", Middle(base, FileNameFor(base, t)) + LogSuffix);
    CancelBack(Stamp(t), Middle(base, FileNameFor(base, t)), LogSuffix);
  }

  /** The path of a new file is `logPath` followed by the generated name.
      When `logPath` ends with a separator and the base name contains none,
      that name is the file-name component of an entry of `logPath`, so the
      cleanup considers the file; otherwise it lies elsewhere and is never a
      cleanup candidate. */
  lemma GeneratedPathInDirectory(logPath: string, base: string, t: DateTime)
    requires |logPath| > 0 && logPath[|logPath| - 1] == '/' && '/' !in base
    ensures FilePathFor(logPath, base, t) == logPath + FileNameFor(base, t)
    ensures '/' !in FileNameFor(base, t)
    ensures IsLogFileName(base, FileNameFor(base, t))
  {
    GeneratedNameMatches(base, t);
    StampHasNoSeparator(t);
  }

  lemma StampHasNoSeparator(t: DateTime)
    ensures '/' !in Stamp(t)
  {
    AllDigitsNoSeparator(Padded(t.year, 4));
    AllDigitsNoSeparator(Padded(t.month, 2));
    AllDigitsNoSeparator(Padded(t.day, 2));
    AllDigitsNoSeparator(Padded(t.hour, 2));
    AllDigitsNoSeparator(Padded(t.minute, 2));
    AllDigitsNoSeparator(Padded(t.second, 2));
  }

  lemma AllDigitsNoSeparator(s: string)
    requires AllDigits(s)
    ensures '/' !in s
  {
    assert forall i :: 0 <= i < |s| ==> s[i] != '/';
  }

  lemma CancelFront(a1: string, r1: string, a2: string, r2: string)
    requires |a1| == |a2| && a1 + r1 == a2 + r2
    ensures a1 == a2 && r1 == r2
  {
    assert a1 == (a1 + r1)[..|a1|] && a2 == (a2 + r2)[..|a2|];
    assert r1 == (a1 + r1)[|a1|..] && r2 == (a2 + r2)[|a2|..];
  }

  lemma CancelBack(a1: string, a2: string, r: string)
    requires a1 + r == a2 + r
    ensures a1 == a2
  {
    assert |a1| == |a2|;
    CancelFront(a1, r, a2, r);
  }

  lemma StampFieldWidths(t: DateTime)
    requires InRange(t)
    ensures |Padded(t.year, 4)| == 4
    ensures |Padded(t.month, 2)| == 2 && |Padded(t.day, 2)| == 2 && |Padded(t.hour, 2)| == 2
    ensures |Padded(t.minute, 2)| == 2 && |Padded(t.second, 2)| == 2
    ensures |Stamp(t)| == 19
  {
    PaddedExact(t.year, 4);
    PaddedExact(t.month, 2);
    PaddedExact(t.day, 2);
    PaddedExact(t.hour, 2);
    PaddedExact(t.minute, 2);
    PaddedExact(t.second, 2);
  }

  /** Two different in-range times give two different names, so a new file
      never reuses the name of one created at another second. */
  lemma FileNameInjective(base: string, a: DateTime, b: DateTime)
    requires InRange(a) && InRange(b)
    requires FileNameFor(base, a) == FileNameFor(base, b)
    ensures a == b
  {
    GeneratedNameMatches(base, a);
    GeneratedNameMatches(base, b);
    StampInjective(a, b);
  }

  lemma StampInjective(a: DateTime, b: DateTime)
    requires InRange(a) && InRange(b) && Stamp(a) == Stamp(b)
    ensures a == b
  {
    StampFieldWidths(a);
    StampFieldWidths(b);
    var a9, b9 := "-" + Padded(a.second, 2), "-" + Padded(b.second, 2);
    var a8, b8 := Padded(a.minute, 2) + a9, Padded(b.minute, 2) + b9;
    var a7, b7 := "-" + a8, "-" + b8;
    var a6, b6 := Padded(a.hour, 2) + a7, Padded(b.hour, 2) + b7;
    var a5, b5 := "_" + a6, "_" + b6;
    var a4, b4 := Padded(a.day, 2) + a5, Padded(b.day, 2) + b5;
    var a3, b3 := "-" + a4, "-" + b4;
    var a2, b2 := Padded(a.month, 2) + a3, Padded(b.month, 2) + b3;
    var a1, b1 := "-" + a2, "-" + b2;
    CancelFront(Padded(a.year, 4), a1, Padded(b.year, 4), b1);
    CancelFront("-", a2, "-", b2);
    CancelFront(Padded(a.month, 2), a3, Padded(b.month, 2), b3);
    CancelFront("-", a4, "-", b4);
    CancelFront(Padded(a.day, 2), a5, Padded(b.day, 2), b5);
    CancelFront("_", a6, "_", b6);
    CancelFront(Padded(a.hour, 2), a7, Padded(b.hour, 2), b7);
    CancelFront("-", a8, "-", b8);
    CancelFront(Padded(a.minute, 2), a9, Padded(b.minute, 2), b9);
    CancelFront("-", Padded(a.second, 2), "-", Padded(b.second, 2));
    PaddedInjective(a.year, b.year, 4);
    PaddedInjective(a.month, b.month, 2);
    PaddedInjective(a.day, b.day, 2);
    PaddedInjective(a.hour, b.hour, 2);
    PaddedInjective(a.minute, b.minute, 2);
    PaddedInjective(a.second, b.second, 2);
  }

  // ---------------------------------------------------------------------
  // Properties of the cleanup

  lemma {:induction false} TotalSizeAppend(a: seq<Entry>, b: seq<Entry>)
    ensures TotalSize(a + b) == TotalSize(a) + TotalSize(b)
  {
    if |a| > 0 {
      assert (a + b)[1..] == a[1..] + b;
      TotalSizeAppend(a[1..], b);
    } else {
      assert a + b == b;
    }
  }

  /** The filter keeps exactly the regular files with matching names. */
  lemma {:induction false} MatchingSpec(base: string, dir: seq<Entry>)
    ensures forall e :: e in Matching(base, dir) ==> e in dir && e.regular && IsLogFileName(base, e.name)
    ensures forall i :: 0 <= i < |dir| && dir[i].regular && IsLogFileName(base, dir[i].name)
                        ==> dir[i] in Matching(base, dir)
  {
    if |dir| > 0 {
      var init := dir[..|dir| - 1];
      MatchingSpec(base, init);
      assert forall i :: 0 <= i < |init| ==> init[i] == dir[i];
    }
  }

  lemma {:induction false} InsertPerm(e: Entry, s: seq<Entry>)
    ensures multiset(Insert(e, s)) == multiset{e} + multiset(s)
    ensures TotalSize(Insert(e, s)) == e.size + TotalSize(s)
  {
    if |s| > 0 && e.mtime > s[0].mtime {
      InsertPerm(e, s[1..]);
      assert s == [s[0]] + s[1..];
      assert Insert(e, s)[1..] == Insert(e, s[1..]);
    }
  }

  lemma {:induction false} InsertSorted(e: Entry, s: seq<Entry>)
    requires SortedByMtime(s)
    ensures SortedByMtime(Insert(e, s))
    ensures Insert(e, s)[0] == e || (|s| > 0 && Insert(e, s)[0] == s[0])
  {
    var r := Insert(e, s);
    if |s| > 0 && e.mtime > s[0].mtime {
      var u := Insert(e, s[1..]);
      InsertSorted(e, s[1..]);
      assert r == [s[0]] + u;
      assert s[0].mtime <= u[0].mtime;
      forall i, j | 0 <= i < j < |r| ensures r[i].mtime <= r[j].mtime {
        if i == 0 {
          assert r[j] == u[j - 1];
        } else {
          assert r[i] == u[i - 1] && r[j] == u[j - 1];
        }
      }
    } else if |s| > 0 {
      assert r == [e] + s;
      forall i, j | 0 <= i < j < |r| ensures r[i].mtime <= r[j].mtime {
        if i == 0 {
          assert r[j] == s[j - 1];
        } else {
          assert r[i] == s[i - 1] && r[j] == s[j - 1];
        }
      }
    }
  }

  /** The sort yields an ascending permutation of its input, with the same
      total size. */
  lemma {:induction false} SortSpec(s: seq<Entry>)
    ensures SortedByMtime(SortByMtime(s))
    ensures multiset(SortByMtime(s)) == multiset(s)
    ensures TotalSize(SortByMtime(s)) == TotalSize(s)
  {
    if |s| > 0 {
      SortSpec(s[1..]);
      InsertSorted(s[0], SortByMtime(s[1..]));
      InsertPerm(s[0], SortByMtime(s[1..]));
      assert s == [s[0]] + s[1..];
    }
  }

  /** The saturating branch is never taken when the loop starts from the
      exact total of the entries it walks over. */
  predicate NeverSaturates(s: seq<Entry>, total: nat, max: nat)
    decreases |s|
  {
    if |s| == 0 || total <= max then true
    else total >= s[0].size && NeverSaturates(s[1..], total - s[0].size, max)
  }

  /** The deletion loop deletes a prefix of what it walks over. */
  lemma {:induction false} OldestFirstPrefix(s: seq<Entry>, total: nat, max: nat)
    ensures OldestFirstUntil(s, total, max) == s[..|OldestFirstUntil(s, total, max)|]
  {
    if |s| > 0 && total > max {
      OldestFirstPrefix(s[1..], SatSub(total, s[0].size), max);
      assert s == [s[0]] + s[1..];
    }
  }

  /** Started from the exact total, the loop ends after the last entry or
      with the rest within the budget, and its running total is then the
      exact size of the rest. */
  lemma {:induction false} OldestFirstEnd(s: seq<Entry>, max: nat)
    ensures var k := |OldestFirstUntil(s, TotalSize(s), max)|;
      && (k == |s| || TotalSize(s[k..]) <= max)
      && Remaining(s, TotalSize(s), max) == TotalSize(s[k..])
  {
    if |s| == 0 || TotalSize(s) <= max {
      assert s[0..] == s;
    } else {
      var t := s[1..];
      OldestFirstEnd(t, max);
      var k' := |OldestFirstUntil(t, TotalSize(t), max)|;
      assert s[k' + 1..] == t[k'..];
    }
  }

  /** Every entry it deletes was deleted while the rest, that entry
      included, was over the budget: it stops at the first point where the
      rest fits. */
  lemma {:induction false} OldestFirstMinimal(s: seq<Entry>, max: nat)
    ensures var k := |OldestFirstUntil(s, TotalSize(s), max)|;
      forall j :: 0 <= j < k ==> TotalSize(s[j..]) > max
  {
    if |s| > 0 && TotalSize(s) > max {
      var t := s[1..];
      OldestFirstMinimal(t, max);
      var k := |OldestFirstUntil(s, TotalSize(s), max)|;
      forall j | 0 <= j < k ensures TotalSize(s[j..]) > max {
        if j == 0 {
          assert s[0..] == s;
        } else {
          assert s[j..] == t[j - 1..];
        }
      }
    }
  }

  /** The running total never goes below zero. */
  lemma {:induction false} OldestFirstNoUnderflow(s: seq<Entry>, max: nat)
    ensures NeverSaturates(s, TotalSize(s), max)
  {
    if |s| > 0 && TotalSize(s) > max {
      OldestFirstNoUnderflow(s[1..], max);
    }
  }

  lemma OldestFirstSpec(s: seq<Entry>, max: nat)
    ensures var d := OldestFirstUntil(s, TotalSize(s), max);
      && d == s[..|d|]
      && (|d| == |s| || TotalSize(s[|d|..]) <= max)
      && (forall j :: 0 <= j < |d| ==> TotalSize(s[j..]) > max)
      && Remaining(s, TotalSize(s), max) == TotalSize(s[|d|..])
      && NeverSaturates(s, TotalSize(s), max)
  {
    OldestFirstPrefix(s, TotalSize(s), max);
    OldestFirstEnd(s, max);
    OldestFirstMinimal(s, max);
    OldestFirstNoUnderflow(s, max);
  }

  /** Nothing is deleted when the budget is zero, when no file matches, or
      when the matching files are within the budget. */
  lemma CleanupNothing(maxTotal: nat, base: string, dir: seq<Entry>)
    requires maxTotal == 0 || TotalSize(Matching(base, dir)) <= maxTotal
    ensures CleanupSelection(maxTotal, base, dir) == []
  {
  }

  lemma {:induction false} MatchingEmpty(base: string, dir: seq<Entry>)
    requires forall i :: 0 <= i < |dir| ==> !dir[i].regular || !IsLogFileName(base, dir[i].name)
    ensures Matching(base, dir) == []
  {
    if |dir| > 0 {
      var init := dir[..|dir| - 1];
      assert forall i :: 0 <= i < |init| ==> init[i] == dir[i];
      MatchingEmpty(base, init);
    }
  }

  lemma NoMatchNoCleanup(maxTotal: nat, base: string, dir: seq<Entry>)
    requires forall i :: 0 <= i < |dir| ==> !dir[i].regular || !IsLogFileName(base, dir[i].name)
    ensures CleanupSelection(maxTotal, base, dir) == []
  {
    MatchingEmpty(base, dir);
  }

  /** Over the budget, the deleted files are the oldest matching files: a
      non-empty prefix of the matching files in ascending last write time;
      deletion stops at the first point where the rest fits the budget, and
      afterwards the rest fits or every matching file is gone. */
  lemma CleanupOldestFirst(maxTotal: nat, base: string, dir: seq<Entry>)
    requires maxTotal > 0 && TotalSize(Matching(base, dir)) > maxTotal
    ensures var files := Matching(base, dir);
      var sorted := SortByMtime(files);
      var d := CleanupSelection(maxTotal, base, dir);
      && SortedByMtime(sorted) && multiset(sorted) == multiset(files)
      && 0 < |d| && d == sorted[..|d|]
      && (forall j :: 0 <= j < |d| ==> TotalSize(sorted[j..]) > maxTotal)
      && TotalSize(d) + TotalSize(sorted[|d|..]) == TotalSize(files)
      && (TotalSize(sorted[|d|..]) <= maxTotal || |d| == |files|)
  {
    var files := Matching(base, dir);
    var sorted := SortByMtime(files);
    var d := CleanupSelection(maxTotal, base, dir);
    SortSpec(files);
    OldestFirstSpec(sorted, maxTotal);
    assert sorted == d + sorted[|d|..];
    TotalSizeAppend(d, sorted[|d|..]);
  }

  /** Only regular files of the directory with matching names are deleted. */
  lemma CleanupDeletesOnlyLogs(maxTotal: nat, base: string, dir: seq<Entry>)
    ensures forall e :: e in CleanupSelection(maxTotal, base, dir)
                        ==> e in dir && e.regular && IsLogFileName(base, e.name)
  {
    var files := Matching(base, dir);
    MatchingSpec(base, dir);
    if maxTotal > 0 && TotalSize(files) > maxTotal {
      CleanupOldestFirst(maxTotal, base, dir);
      var sorted := SortByMtime(files);
      var d := CleanupSelection(maxTotal, base, dir);
      forall e | e in d ensures e in files {
        assert e in sorted;
        assert e in multiset(sorted);
      }
    }
  }
}
