/**
 The migration runner: files in name order, each applied and recorded in one transaction
 under the 14-character prefix of its name. A run may break off anywhere and be resumed.
 */
module Migrations {
  import opened Ordering

  const PREFIX: nat := 14

  function Version(name: string): string
    requires |name| >= PREFIX
  {
    name[..PREFIX]
  }

  /** Applied scripts in order, and the recorded versions. */
  datatype Schema = Schema(applied: seq<string>, recorded: set<string>)

  ghost predicate LongNames(files: seq<string>) {
    forall i | 0 <= i < |files| :: |files[i]| >= PREFIX
  }

  /** One file: skipped when its version is recorded, otherwise applied and recorded together. */
  function Migrated(s: Schema, name: string): Schema
    requires |name| >= PREFIX
  {
    if Version(name) in s.recorded then s else Schema(s.applied + [name], s.recorded + {Version(name)})
  }

  function MigratedAll(s: Schema, files: seq<string>): Schema
    requires LongNames(files)
  {
    if |files| == 0 then s else Migrated(MigratedAll(s, files[..|files| - 1]), files[|files| - 1])
  }

  /** Entries of the migration directory, by name; the runner skips directories. */
  datatype DirEntry = DirEntry(name: string, isDir: bool)

  function Files(entries: seq<DirEntry>): seq<string> {
    if |entries| == 0 then []
    else Files(entries[..|entries| - 1]) + if entries[|entries| - 1].isDir then [] else [entries[|entries| - 1].name]
  }

  ghost predicate ByName(entries: seq<DirEntry>) {
    forall i, j | 0 <= i < j < |entries| :: Less(entries[i].name, entries[j].name)
  }

  function InsertEntry(entries: seq<DirEntry>, e: DirEntry): seq<DirEntry> {
    if |entries| == 0 then [e]
    else if Less(e.name, entries[0].name) then [e] + entries
    else [entries[0]] + InsertEntry(entries[1..], e)
  }

  /** sort.Slice by name, for names that differ. */
  function SortEntries(entries: seq<DirEntry>): seq<DirEntry> {
    if |entries| == 0 then [] else InsertEntry(SortEntries(entries[..|entries| - 1]), entries[|entries| - 1])
  }

  ghost predicate DistinctNames(entries: seq<DirEntry>) {
    forall i, j | 0 <= i < j < |entries| :: entries[i].name != entries[j].name
  }

  lemma {:induction false} InsertedByName(entries: seq<DirEntry>, e: DirEntry)
    requires ByName(entries) && forall x <- entries :: x.name != e.name
    ensures ByName(InsertEntry(entries, e)) && forall x :: x in InsertEntry(entries, e) <==> x in entries || x == e
  {
    if |entries| > 0 {
      assert entries == [entries[0]] + entries[1..];
      assert entries[0] in entries;
      Total(e.name, entries[0].name);
      if Less(e.name, entries[0].name) {
        forall j | 0 <= j < |entries| ensures Less(e.name, entries[j].name) {
          if j > 0 {
            Transitive(e.name, entries[0].name, entries[j].name);
          }
        }
      } else {
        InsertedByName(entries[1..], e);
        var rest := InsertEntry(entries[1..], e);
        forall j | 0 <= j < |rest| ensures Less(entries[0].name, rest[j].name) {
          assert rest[j] in rest;
          if rest[j] != e {
            var i :| 0 <= i < |entries| - 1 && entries[1..][i] == rest[j];
            assert entries[i + 1] == rest[j];
          }
        }
      }
    }
  }

  lemma {:induction false} SortedByName(entries: seq<DirEntry>)
    requires DistinctNames(entries)
    ensures ByName(SortEntries(entries)) && forall x :: x in SortEntries(entries) <==> x in entries
  {
    if |entries| > 0 {
      var n := |entries| - 1;
      SortedByName(entries[..n]);
      assert entries == entries[..n] + [entries[n]];
      forall x <- SortEntries(entries[..n]) ensures x.name != entries[n].name {
        var i :| 0 <= i < n && entries[..n][i] == x;
        assert entries[i] == x;
      }
      InsertedByName(SortEntries(entries[..n]), entries[n]);
    }
  }

  datatype RunEnd = Complete | TransactionFailed | Panic

  class Database {
    var applied: seq<string>
    var recorded: set<string>
    var luck: nat

    /** `luck` is how many transactions commit before one fails. */
    constructor (s: Schema, luck: nat)
      ensures State() == s && this.luck == luck
    {
      applied, recorded, this.luck := s.applied, s.recorded, luck;
    }

    function State(): Schema
      reads this
    {
      Schema(applied, recorded)
    }

    method RunTransaction(name: string) returns (ok: bool)
      requires |name| >= PREFIX && Version(name) !in recorded
      modifies this
      ensures ok == (old(luck) > 0)
      ensures State() == if ok then Migrated(old(State()), name) else old(State())
    {
      ok := luck > 0;
      if !ok {
        return;
      }
      luck := luck - 1;
      applied := applied + [name];
      recorded := recorded + {Version(name)};
    }

    /** A run ends after the last file, at a failing transaction, or in a panic at a name too short to slice. */
    method Migrate(dir: seq<DirEntry>) returns (r: RunEnd, done: nat)
      modifies this
      ensures var files := Files(SortEntries(dir));
              && done <= |files| && LongNames(files[..done])
              && State() == MigratedAll(old(State()), files[..done])
              && match r
                 case Complete => done == |files|
                 case TransactionFailed =>
                   done < |files| && |files[done]| >= PREFIX && Version(files[done]) !in recorded
                 case Panic => done < |files| && |files[done]| < PREFIX
    {
      var entries := SortEntries(dir);
      var i := 0;
      ghost var all := Files(entries);
      done := 0;
      while i < |entries|
        invariant 0 <= i <= |entries| && done <= |all| && all[..done] == Files(entries[..i])
        invariant LongNames(all[..done]) && State() == MigratedAll(old(State()), all[..done])
      {
        FilesStep(entries, i);
        if !entries[i].isDir {
          if |entries[i].name| < PREFIX {
            return Panic, done;
          }
          RunNext(old(State()), all, done);
          var version := Version(entries[i].name);
          if version !in recorded {
            var ok := RunTransaction(entries[i].name);
            if !ok {
              return TransactionFailed, done;
            }
          }
          done := done + 1;
        }
        i := i + 1;
      }
      assert entries[..i] == entries;
      assert all[..done] == all;
      return Complete, done;
    }
  }

  lemma {:induction false} FilesPrefix(entries: seq<DirEntry>, i: nat)
    requires i <= |entries|
    ensures Files(entries[..i]) <= Files(entries)
  {
    if i < |entries| {
      assert entries[..|entries| - 1][..i] == entries[..i];
      FilesPrefix(entries[..|entries| - 1], i);
    } else {
      assert entries[..i] == entries;
    }
  }

  lemma FilesStep(entries: seq<DirEntry>, i: nat)
    requires i < |entries|
    ensures var k := |Files(entries[..i])|;
            if entries[i].isDir then Files(entries[..i + 1]) == Files(entries[..i])
            else k < |Files(entries)| && Files(entries)[k] == entries[i].name
                 && Files(entries)[..k + 1] == Files(entries[..i + 1])
  {
    assert entries[..i + 1][..i] == entries[..i];
    FilesPrefix(entries, i + 1);
  }

  lemma {:induction false} FilesAscending(entries: seq<DirEntry>)
    requires ByName(entries)
    ensures Ascending(Files(entries))
    ensures forall f <- Files(entries) :: exists i | 0 <= i < |entries| :: entries[i].name == f
  {
    if |entries| > 0 {
      var n := |entries| - 1;
      FilesAscending(entries[..n]);
      var before := Files(entries[..n]);
      forall k | 0 <= k < |before| ensures Less(before[k], entries[n].name) {
        assert before[k] in before;
        var i :| 0 <= i < n && entries[..n][i].name == before[k];
        assert Less(entries[i].name, entries[n].name);
      }
      forall f <- Files(entries) ensures exists i | 0 <= i < |entries| :: entries[i].name == f {
        if f in before {
          var i :| 0 <= i < n && entries[..n][i].name == f;
          assert entries[i].name == f;
        } else {
          assert entries[n].name == f;
        }
      }
    }
  }

  lemma {:induction false} FilesAre(entries: seq<DirEntry>, f: string)
    ensures f in Files(entries) <==> exists e <- entries :: !e.isDir && e.name == f
  {
    if |entries| > 0 {
      FilesAre(entries[..|entries| - 1], f);
      assert entries == entries[..|entries| - 1] + [entries[|entries| - 1]];
    }
  }

  /** The files of a directory, subdirectories skipped, in ascending order of their names. */
  lemma FilesOfDirectory(dir: seq<DirEntry>)
    requires DistinctNames(dir)
    ensures Ascending(Files(SortEntries(dir)))
    ensures forall f :: f in Files(SortEntries(dir)) <==> exists e <- dir :: !e.isDir && e.name == f
  {
    SortedByName(dir);
    FilesAscending(SortEntries(dir));
    forall f ensures f in Files(SortEntries(dir)) <==> exists e <- dir :: !e.isDir && e.name == f {
      FilesAre(SortEntries(dir), f);
    }
  }

  // ---- Runs that break off and resume ----

  ghost predicate UniqueVersions(files: seq<string>) {
    LongNames(files) && forall i, j | 0 <= i < j < |files| :: Version(files[i]) != Version(files[j])
  }

  function Versions(files: seq<string>): set<string>
    requires LongNames(files)
  {
    set f <- files :: Version(f)
  }

  /** The first k files, each applied once, in order. */
  function Upto(files: seq<string>, k: nat): Schema
    requires LongNames(files) && k <= |files|
  {
    Schema(files[..k], Versions(files[..k]))
  }

  ghost predicate Resumable(s: Schema, files: seq<string>, k: nat)
    requires LongNames(files)
  {
    k <= |files| && s == Upto(files, k)
  }

  lemma ApplyNext(files: seq<string>, k: nat)
    requires UniqueVersions(files) && k < |files|
    ensures Migrated(Upto(files, k), files[k]) == Upto(files, k + 1)
  {
  }

  lemma SkipRecorded(files: seq<string>, k: nat, i: nat)
    requires UniqueVersions(files) && i < k <= |files|
    ensures Migrated(Upto(files, k), files[i]) == Upto(files, k)
  {
  }

  function Max(a: nat, b: nat): nat {
    if a > b then a else b
  }

  /** A run that gets through n files leaves the longer of what was there and what it reached. */
  lemma {:induction false} RunReaches(files: seq<string>, k: nat, n: nat)
    requires UniqueVersions(files) && k <= |files| && n <= |files|
    ensures LongNames(files[..n]) && MigratedAll(Upto(files, k), files[..n]) == Upto(files, Max(n, k))
  {
    if n > 0 {
      RunReaches(files, k, n - 1);
      RunNext(Upto(files, k), files, n - 1);
      if n > k {
        ApplyNext(files, n - 1);
      } else {
        SkipRecorded(files, k, n - 1);
      }
    }
  }

  lemma RunNext(s: Schema, files: seq<string>, n: nat)
    requires n < |files| && LongNames(files[..n]) && |files[n]| >= PREFIX
    ensures LongNames(files[..n + 1])
    ensures MigratedAll(s, files[..n + 1]) == Migrated(MigratedAll(s, files[..n]), files[n])
  {
    assert files[..n + 1][..n] == files[..n];
  }

  /** The schema after runs that each got through some of the files. */
  function AfterRuns(s: Schema, files: seq<string>, reached: seq<nat>): Schema
    requires LongNames(files)
  {
    if |reached| == 0 then s
    else
      var n := reached[|reached| - 1];
      MigratedAll(AfterRuns(s, files, reached[..|reached| - 1]), if n <= |files| then files[..n] else files)
  }

  lemma {:induction false} InterruptedRuns(files: seq<string>, reached: seq<nat>) returns (k: nat)
    requires UniqueVersions(files)
    ensures Resumable(AfterRuns(Schema([], {}), files, reached), files, k)
  {
    if |reached| == 0 {
      k := 0;
      assert files[..0] == [] && Versions([]) == {};
    } else {
      k := InterruptedRuns(files, reached[..|reached| - 1]);
      var last := reached[|reached| - 1];
      var n := if last <= |files| then last else |files|;
      assert files[..|files|] == files;
      RunReaches(files, k, n);
      k := Max(n, k);
    }
  }

  /**
   From whatever interrupted runs left, one complete run has every file applied exactly once,
   in name order, and every version recorded; a further run changes nothing.
   */
  lemma CompleteRunResumes(files: seq<string>, reached: seq<nat>)
    requires UniqueVersions(files)
    ensures var after := MigratedAll(AfterRuns(Schema([], {}), files, reached), files);
            after == Schema(files, Versions(files)) && MigratedAll(after, files) == after
  {
    var k := InterruptedRuns(files, reached);
    assert files[..|files|] == files;
    RunReaches(files, k, |files|);
    RunReaches(files, |files|, |files|);
  }

  lemma {:induction false} AppliedBound(s: Schema, files: seq<string>)
    requires LongNames(files)
    ensures |MigratedAll(s, files).applied| <= |s.applied| + |files|
  {
    if |files| > 0 {
      AppliedBound(s, files[..|files| - 1]);
    }
  }

  lemma {:induction false} RecordedStays(s: Schema, files: seq<string>)
    requires LongNames(files)
    ensures s.recorded <= MigratedAll(s, files).recorded && Versions(files) <= MigratedAll(s, files).recorded
  {
    if |files| > 0 {
      var n := |files| - 1;
      RecordedStays(s, files[..n]);
      assert files == files[..n] + [files[n]];
    }
  }

  lemma {:induction false} MigratedConcat(s: Schema, a: seq<string>, b: seq<string>)
    requires LongNames(a) && LongNames(b)
    ensures LongNames(a + b) && MigratedAll(s, a + b) == MigratedAll(MigratedAll(s, a), b)
  {
    if |b| == 0 {
      assert a + b == a;
    } else {
      var n := |b| - 1;
      assert (a + b)[..|a| + n] == a + b[..n] && (a + b)[|a| + n] == b[n];
      assert forall f <- b[..n] :: f in b;
      MigratedConcat(s, a, b[..n]);
    }
  }

  /** Two files with one prefix: the later is silently skipped. A first run applies every file iff no prefix repeats. */
  lemma AppliesAllIff(files: seq<string>)
    requires LongNames(files)
    ensures MigratedAll(Schema([], {}), files).applied == files <==> UniqueVersions(files)
  {
    if UniqueVersions(files) {
      CompleteRunResumes(files, []);
      assert AfterRuns(Schema([], {}), files, []) == Schema([], {});
    } else {
      var i, j :| 0 <= i < j < |files| && Version(files[i]) == Version(files[j]);
      assert files[i] == files[..j][i];
      var a, b := files[..j], files[j + 1..];
      assert files == a + ([files[j]] + b);
      SkipsOne(a, files[j], b);
    }
  }

  /** The second of two files with one prefix never runs, and its version counts as recorded. */
  lemma OnePrefixTwice()
    ensures var files := ["00000000000001_a.sql", "00000000000001_b.sql"];
            LongNames(files) && MigratedAll(Schema([], {}), files) == Schema([files[0]], {"00000000000001"})
  {
    var files := ["00000000000001_a.sql", "00000000000001_b.sql"];
    assert Version(files[0]) == "00000000000001" && Version(files[1]) == "00000000000001";
    assert files[..1] == [files[0]] && files[..1][..0] == [];
  }

  /** A file whose version was already there is not applied. */
  lemma SkipsOne(a: seq<string>, f: string, b: seq<string>)
    requires LongNames(a + ([f] + b)) && exists g <- a :: |g| >= PREFIX && |f| >= PREFIX && Version(g) == Version(f)
    ensures |MigratedAll(Schema([], {}), a + ([f] + b)).applied| < |a + ([f] + b)|
  {
    LongParts(a, [f] + b);
    LongParts([f], b);
    var s := MigratedAll(Schema([], {}), a);
    MigratedConcat(Schema([], {}), a, [f] + b);
    MigratedConcat(s, [f], b);
    RecordedStays(Schema([], {}), a);
    AppliedBound(Schema([], {}), a);
    assert [f][..0] == [] && f in [f];
    assert Version(f) in s.recorded;
    AppliedBound(MigratedAll(s, [f]), b);
  }

  lemma LongParts(a: seq<string>, b: seq<string>)
    requires LongNames(a + b)
    ensures LongNames(a) && LongNames(b)
  {
    assert (a + b)[..|a|] == a && (a + b)[|a|..] == b;
  }
}
