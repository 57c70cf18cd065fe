// The diff report of crates/core/src/codebase_diff.rs: per-file diffs and
// per-hunk diffs between a base, an upstream and a local tree, with
// counters that the two add operations keep in step with the lists.

module CodebaseDiff {
  import opened Wrappers
  import opened Seqs

  datatype FileStatus = Added | Modified | Deleted | Renamed | Unchanged | Conflict

  datatype FileDiff = FileDiff(
    filePath: string, status: FileStatus,
    baseContent: Option<string>, upstreamContent: Option<string>, localContent: Option<string>,
    linesAdded: nat, linesRemoved: nat, linesModified: nat)

  datatype DiffHunk = DiffHunk(
    filePath: string, hunkId: nat, startLine: nat, endLine: nat,
    baseLines: seq<string>, upstreamLines: seq<string>, localLines: seq<string>,
    conflict: bool)

  datatype MergeDecision = Adopt | Adapt | Skip | Replace | Manual

  /** A `u8` priority. */
  newtype Priority = n: int | 0 <= n < 256

  datatype MergeHunk = MergeHunk(hunk: DiffHunk, decision: MergeDecision, reason: string, priority: Priority)

  /** The scan date every new report carries. */
  const ScanDate: string := "2025-11-21T23:55:00Z"

  function HasStatus(s: FileStatus): FileDiff -> bool
  {
    (d: FileDiff) => d.status == s
  }

  /** The number of diffs with status s. */
  function StatusCount(diffs: seq<FileDiff>, s: FileStatus): nat
  {
    |Filter(diffs, HasStatus(s))|
  }

  /** One more diff adds one to the count of its own status only. */
  lemma StatusCountSnoc(diffs: seq<FileDiff>, d: FileDiff, s: FileStatus)
    ensures StatusCount(diffs + [d], s) == StatusCount(diffs, s) + (if d.status == s then 1 else 0)
  {
    FilterSnoc(diffs, d, HasStatus(s));
  }

  predicate IsConflictHunk(h: DiffHunk)
  {
    h.conflict
  }

  /** The four counted statuses together never exceed the number of
      diffs, since each diff has one status. */
  lemma {:induction false} CountedStatusesBounded(diffs: seq<FileDiff>)
    ensures StatusCount(diffs, Added) + StatusCount(diffs, Modified) +
            StatusCount(diffs, Deleted) + StatusCount(diffs, Conflict) <= |diffs|
    decreases |diffs|
  {
    if diffs != [] {
      var front := diffs[..|diffs| - 1];
      CountedStatusesBounded(front);
      assert diffs == front + [diffs[|diffs| - 1]];
    }
  }

  /** The four status counters match the diffs. */
  predicate Counted(diffs: seq<FileDiff>, added: nat, modified: nat, deleted: nat, conflicted: nat)
  {
    added == StatusCount(diffs, Added) && modified == StatusCount(diffs, Modified) &&
    deleted == StatusCount(diffs, Deleted) && conflicted == StatusCount(diffs, Conflict)
  }

  /** Appending a diff adds one to the counter of its status only. */
  lemma CountedSnoc(diffs: seq<FileDiff>, d: FileDiff, added: nat, modified: nat, deleted: nat, conflicted: nat)
    requires Counted(diffs, added, modified, deleted, conflicted)
    ensures Counted(diffs + [d], added + (if d.status == Added then 1 else 0),
                    modified + (if d.status == Modified then 1 else 0),
                    deleted + (if d.status == Deleted then 1 else 0),
                    conflicted + (if d.status == Conflict then 1 else 0))
  {
    StatusCountSnoc(diffs, d, Added);
    StatusCountSnoc(diffs, d, Modified);
    StatusCountSnoc(diffs, d, Deleted);
    StatusCountSnoc(diffs, d, Conflict);
  }

  class CodebaseDiffReport {
    var scanDate: string
    var baseVersion: string
    var upstreamVersion: string
    var localVersion: string
    var fileDiffs: seq<FileDiff>
    var hunks: seq<DiffHunk>
    var totalFiles: nat
    var filesAdded: nat
    var filesModified: nat
    var filesDeleted: nat
    var filesConflicted: nat
    var totalHunks: nat
    var conflictedHunks: nat

    /** Each counter is the number of list entries it stands for. */
    predicate Valid()
      reads this
    {
      totalFiles == |fileDiffs| &&
      Counted(fileDiffs, filesAdded, filesModified, filesDeleted, filesConflicted) &&
      totalHunks == |hunks| &&
      conflictedHunks == |Filter(hunks, IsConflictHunk)|
    }

    /** `new`: every counter zero and both lists empty. */
    constructor (baseVersion: string, upstreamVersion: string, localVersion: string)
      ensures Valid()
      ensures this.baseVersion == baseVersion && this.upstreamVersion == upstreamVersion
      ensures this.localVersion == localVersion && scanDate == ScanDate
      ensures fileDiffs == [] && hunks == []
      ensures totalFiles == 0 && filesAdded == 0 && filesModified == 0 && filesDeleted == 0
      ensures filesConflicted == 0 && totalHunks == 0 && conflictedHunks == 0
    {
      scanDate := ScanDate;
      this.baseVersion := baseVersion;
      this.upstreamVersion := upstreamVersion;
      this.localVersion := localVersion;
      fileDiffs := [];
      hunks := [];
      totalFiles := 0;
      filesAdded := 0;
      filesModified := 0;
      filesDeleted := 0;
      filesConflicted := 0;
      totalHunks := 0;
      conflictedHunks := 0;
    }

    /** `add_file_diff`: appends the diff, counts it in the total and in
        the counter of its status if that status has one (Renamed and
        Unchanged have none). */
    method AddFileDiff(diff: FileDiff)
      requires Valid()
      modifies this`fileDiffs, this`totalFiles, this`filesAdded, this`filesModified, this`filesDeleted, this`filesConflicted
      ensures Valid()
      ensures fileDiffs == old(fileDiffs) + [diff] && totalFiles == old(totalFiles) + 1
      ensures filesAdded == old(filesAdded) + (if diff.status == Added then 1 else 0)
      ensures filesModified == old(filesModified) + (if diff.status == Modified then 1 else 0)
      ensures filesDeleted == old(filesDeleted) + (if diff.status == Deleted then 1 else 0)
      ensures filesConflicted == old(filesConflicted) + (if diff.status == Conflict then 1 else 0)
    {
      CountedSnoc(fileDiffs, diff, filesAdded, filesModified, filesDeleted, filesConflicted);
      match diff.status {
        case Added => filesAdded := filesAdded + 1;
        case Modified => filesModified := filesModified + 1;
        case Deleted => filesDeleted := filesDeleted + 1;
        case Conflict => filesConflicted := filesConflicted + 1;
        case _ =>
      }
      totalFiles := totalFiles + 1;
      fileDiffs := fileDiffs + [diff];
    }

    /** `add_hunk`: appends the hunk, counts it, and counts it as
        conflicted if it is. */
    method AddHunk(hunk: DiffHunk)
      requires Valid()
      modifies this`hunks, this`totalHunks, this`conflictedHunks
      ensures Valid()
      ensures hunks == old(hunks) + [hunk] && totalHunks == old(totalHunks) + 1
      ensures conflictedHunks == old(conflictedHunks) + (if hunk.conflict then 1 else 0)
    {
      if hunk.conflict {
        conflictedHunks := conflictedHunks + 1;
      }
      totalHunks := totalHunks + 1;
      FilterSnoc(hunks, hunk, IsConflictHunk);
      hunks := hunks + [hunk];
    }

    /** In a valid report the counted statuses never exceed the total. */
    lemma CountersWithinTotal()
      requires Valid()
      ensures filesAdded + filesModified + filesDeleted + filesConflicted <= totalFiles
      ensures conflictedHunks <= totalHunks
    {
      CountedStatusesBounded(fileDiffs);
    }
  }

  // ---------------------------------------------------------------------
  // The unit tests of the module, as scenarios.

  /** One Added diff counts once in the total and once as added; one
      conflict hunk counts once as conflicted, a clean one not at all. */
  method CountingScenario() returns (files: nat, added: nat, hunks: nat, conflicted: nat)
    ensures files == 1 && added == 1 && hunks == 2 && conflicted == 1
  {
    var report := new CodebaseDiffReport("1.0.0", "1.0.1", "1.0.0");
    report.AddFileDiff(FileDiff("src/test.rs", Added, Option.None, Some("code"), Option.None, 10, 0, 0));
    report.AddHunk(DiffHunk("src/test.rs", 1, 1, 10, ["line1"], ["line2"], ["line1"], false));
    report.AddHunk(DiffHunk("src/test.rs", 1, 1, 10, ["line1"], ["line2"], ["line3"], true));
    files, added, hunks, conflicted := report.totalFiles, report.filesAdded, report.totalHunks, report.conflictedHunks;
  }
}
