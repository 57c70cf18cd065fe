// The three-way comparison of crates/core/src/three_way_diff.rs: a merge
// status from the base, upstream and local line lists, the single-line
// conflict regions, whether a merge can be automatic, and the merged text.

module ThreeWayDiff {
  import opened Text

  datatype MergeStatus = Clean | Conflict | BothModified | OnlyUpstreamModified | OnlyLocalModified

  datatype ConflictRegion = ConflictRegion(
    startLine: nat, endLine: nat,
    baseLines: seq<string>, upstreamLines: seq<string>, localLines: seq<string>)

  datatype ThreeWayDiff = ThreeWayDiff(
    filePath: string, baseContent: string, upstreamContent: string, localContent: string,
    mergeStatus: MergeStatus, conflicts: seq<ConflictRegion>)

  // ---------------------------------------------------------------------
  // The merge status.

  /** `determine_merge_status` as written: the three equalities (base with
      upstream, base with local, upstream with local) looked up in a table.
      The row for "base and local agree, upstream differs" names the local
      side, although it is upstream that changed. */
  function DetermineMergeStatusAsWritten(base: seq<string>, upstream: seq<string>, local: seq<string>): (r: MergeStatus)
    ensures r != BothModified
    ensures r == Conflict <==> base != upstream && base != local && upstream != local
    ensures base != upstream && base == local ==> r == OnlyLocalModified
  {
    match (base == upstream, base == local, upstream == local)
    case (true, true, true) => Clean
    case (false, false, false) => Conflict
    case (false, false, true) => OnlyUpstreamModified
    case (false, true, false) => OnlyLocalModified
    case (true, false, false) => OnlyLocalModified
    case _ => Clean
  }

  /** Upstream changed while local kept the base: the status as written
      calls it a local modification, where the unit test for this input
      expects an upstream one. */
  lemma UpstreamChangeMislabelled()
    ensures DetermineMergeStatusAsWritten(["base"], ["upstream"], ["base"]) == OnlyLocalModified
  {
  }

  /** The status with the "upstream changed, local kept the base" row
      naming the upstream side. Clean when nothing changed, Conflict when
      all three differ, the upstream side whenever upstream changed and
      local either kept the base or made the same change, and the local
      side when only local changed. */
  function DetermineMergeStatus(base: seq<string>, upstream: seq<string>, local: seq<string>): (r: MergeStatus)
    ensures r != BothModified
    ensures r == Clean <==> base == upstream && base == local
    ensures r == Conflict <==> base != upstream && base != local && upstream != local
    ensures r == OnlyUpstreamModified <==> base != upstream && (local == base || local == upstream)
    ensures r == OnlyLocalModified <==> base == upstream && base != local
  {
    match (base == upstream, base == local, upstream == local)
    case (true, true, true) => Clean
    case (false, false, false) => Conflict
    case (false, false, true) => OnlyUpstreamModified
    case (false, true, false) => OnlyUpstreamModified
    case (true, false, false) => OnlyLocalModified
    case _ => Clean
  }

  /** The two agree on every input but the mislabelled row. */
  lemma StatusesAgreeElsewhere(base: seq<string>, upstream: seq<string>, local: seq<string>)
    ensures !(base != upstream && base == local) ==>
      DetermineMergeStatusAsWritten(base, upstream, local) == DetermineMergeStatus(base, upstream, local)
  {
  }

  // ---------------------------------------------------------------------
  // Conflict regions.

  /** `get(i).unwrap_or("")`: a missing line reads as empty. */
  function LineAt(lines: seq<string>, i: nat): string
  {
    if i < |lines| then lines[i] else ""
  }

  function MaxLen(base: seq<string>, upstream: seq<string>, local: seq<string>): (r: nat)
    ensures r >= |base| && r >= |upstream| && r >= |local|
    ensures r == |base| || r == |upstream| || r == |local|
  {
    var m := if |base| < |upstream| then |upstream| else |base|;
    if m < |local| then |local| else m
  }

  /** The three lines at i are pairwise different. */
  predicate ConflictAt(base: seq<string>, upstream: seq<string>, local: seq<string>, i: nat)
  {
    LineAt(base, i) != LineAt(upstream, i) && LineAt(base, i) != LineAt(local, i) &&
    LineAt(upstream, i) != LineAt(local, i)
  }

  /** The single-line region `detect_conflicts` pushes for index i. */
  function RegionAt(base: seq<string>, upstream: seq<string>, local: seq<string>, i: nat): ConflictRegion
  {
    ConflictRegion(i, i, [LineAt(base, i)], [LineAt(upstream, i)], [LineAt(local, i)])
  }

  /** The regions of the indices below n, ascending: exactly one for each
      index whose three lines are pairwise different. */
  function ConflictsBelow(base: seq<string>, upstream: seq<string>, local: seq<string>, n: nat): (r: seq<ConflictRegion>)
    ensures forall k | 0 <= k < |r| ::
      r[k].startLine < n && ConflictAt(base, upstream, local, r[k].startLine) &&
      r[k] == RegionAt(base, upstream, local, r[k].startLine)
    ensures forall k, k' | 0 <= k < k' < |r| :: r[k].startLine < r[k'].startLine
    decreases n
  {
    if n == 0 then []
    else
      var front := ConflictsBelow(base, upstream, local, n - 1);
      if ConflictAt(base, upstream, local, n - 1) then
        var r := front + [RegionAt(base, upstream, local, n - 1)];
        assert forall k | 0 <= k < |front| :: r[k] == front[k];
        r
      else front
  }

  /** The regions `detect_conflicts` finds. */
  function Conflicts(base: seq<string>, upstream: seq<string>, local: seq<string>): seq<ConflictRegion>
  {
    ConflictsBelow(base, upstream, local, MaxLen(base, upstream, local))
  }

  /** Every conflicting index below n has its region. */
  lemma {:induction false} ConflictsBelowComplete(base: seq<string>, upstream: seq<string>, local: seq<string>, n: nat, i: nat)
    requires i < n && ConflictAt(base, upstream, local, i)
    ensures exists k | 0 <= k < |ConflictsBelow(base, upstream, local, n)| ::
      ConflictsBelow(base, upstream, local, n)[k].startLine == i
    decreases n
  {
    var r := ConflictsBelow(base, upstream, local, n);
    if i == n - 1 {
      assert r[|r| - 1].startLine == i;
    } else {
      ConflictsBelowComplete(base, upstream, local, n - 1, i);
      var front := ConflictsBelow(base, upstream, local, n - 1);
      var k :| 0 <= k < |front| && front[k].startLine == i;
      assert r[k] == front[k];
    }
  }

  /** Past the longest list every line reads as empty, so the regions
      below the maximum length are all there are: every conflicting index
      has its region. */
  lemma ConflictsComplete(base: seq<string>, upstream: seq<string>, local: seq<string>, i: nat)
    requires ConflictAt(base, upstream, local, i)
    ensures exists k | 0 <= k < |Conflicts(base, upstream, local)| :: Conflicts(base, upstream, local)[k].startLine == i
  {
    var n := MaxLen(base, upstream, local);
    assert i < n;
    ConflictsBelowComplete(base, upstream, local, n, i);
    var k :| 0 <= k < |ConflictsBelow(base, upstream, local, n)| && ConflictsBelow(base, upstream, local, n)[k].startLine == i;
    assert Conflicts(base, upstream, local)[k].startLine == i;
  }

  /** When two of the lists are equal no index conflicts. */
  lemma AgreementHasNoConflicts(base: seq<string>, upstream: seq<string>, local: seq<string>)
    requires base == upstream || base == local || upstream == local
    ensures Conflicts(base, upstream, local) == []
  {
    var r := Conflicts(base, upstream, local);
    assert forall i: nat :: !ConflictAt(base, upstream, local, i);
    assert |r| == 0 || ConflictAt(base, upstream, local, r[0].startLine);
  }

  /** `detect_conflicts`. */
  method DetectConflicts(base: seq<string>, upstream: seq<string>, local: seq<string>)
    returns (conflicts: seq<ConflictRegion>)
    ensures conflicts == Conflicts(base, upstream, local)
  {
    var maxLen := MaxLen(base, upstream, local);
    conflicts := [];
    for i := 0 to maxLen
      invariant conflicts == ConflictsBelow(base, upstream, local, i)
    {
      var b, u, l := LineAt(base, i), LineAt(upstream, i), LineAt(local, i);
      if b != u && b != l && u != l {
        conflicts := conflicts + [ConflictRegion(i, i, [b], [u], [l])];
      }
    }
  }

  // ---------------------------------------------------------------------
  // Analysis and the merge decisions.

  /** d is what `analyze` returns for these inputs. */
  predicate IsAnalysis(d: ThreeWayDiff, filePath: string, base: string, upstream: string, local: string)
  {
    d.filePath == filePath && d.baseContent == base && d.upstreamContent == upstream &&
    d.localContent == local &&
    d.mergeStatus == DetermineMergeStatus(Lines(base), Lines(upstream), Lines(local)) &&
    d.conflicts == Conflicts(Lines(base), Lines(upstream), Lines(local))
  }

  /** `analyze`: the contents split into lines, the status and the
      regions. */
  method Analyze(filePath: string, base: string, upstream: string, local: string) returns (d: ThreeWayDiff)
    ensures IsAnalysis(d, filePath, base, upstream, local)
  {
    var b, u, l := Lines(base), Lines(upstream), Lines(local);
    var status := DetermineMergeStatus(b, u, l);
    var conflicts := DetectConflicts(b, u, l);
    d := ThreeWayDiff(filePath, base, upstream, local, status, conflicts);
  }

  /** `can_auto_merge`. */
  predicate CanAutoMerge(d: ThreeWayDiff)
  {
    d.mergeStatus == Clean || d.mergeStatus == OnlyUpstreamModified || d.mergeStatus == OnlyLocalModified
  }

  /** `requires_manual_merge`. */
  predicate RequiresManualMerge(d: ThreeWayDiff)
  {
    d.mergeStatus == Conflict || d.conflicts != []
  }

  /** On what `analyze` returns the two questions always get opposite
      answers: a status other than Conflict means two of the line lists
      agree, which leaves no conflict region. */
  lemma AutoMergeIsNotManual(d: ThreeWayDiff, filePath: string, base: string, upstream: string, local: string)
    requires IsAnalysis(d, filePath, base, upstream, local)
    ensures CanAutoMerge(d) == !RequiresManualMerge(d)
    ensures d.mergeStatus != BothModified
  {
    var b, u, l := Lines(base), Lines(upstream), Lines(local);
    if d.mergeStatus != Conflict {
      AgreementHasNoConflicts(b, u, l);
    }
  }

  // ---------------------------------------------------------------------
  // The merged text.

  /** The line `merge_both_modified` keeps: the changed side if only one
      side changed, otherwise upstream if both agree, else local. */
  function PickLine(b: string, u: string, l: string): (r: string)
    ensures u == b ==> r == l
    ensures l == b ==> r == u
    ensures u == l ==> r == u
    ensures u != b && l != b && u != l ==> r == l
  {
    if u != b && l == b then u
    else if l != b && u == b then l
    else if u == l then u
    else l
  }

  /** The picked lines of the indices below n. */
  function PicksBelow(base: seq<string>, upstream: seq<string>, local: seq<string>, n: nat): (r: seq<string>)
    ensures |r| == n
    ensures forall i | 0 <= i < n :: r[i] == PickLine(LineAt(base, i), LineAt(upstream, i), LineAt(local, i))
    decreases n
  {
    if n == 0 then []
    else PicksBelow(base, upstream, local, n - 1) + [PickLine(LineAt(base, n - 1), LineAt(upstream, n - 1), LineAt(local, n - 1))]
  }

  /** The text `merge_both_modified` builds: each picked line followed by
      "\n". */
  function MergedText(base: seq<string>, upstream: seq<string>, local: seq<string>): string
  {
    JoinLines(PicksBelow(base, upstream, local, MaxLen(base, upstream, local)))
  }

  /** For lines free of '\r', reading the merged text back with `lines`
      gives one picked line per index. */
  lemma MergedTextLines(base: seq<string>, upstream: seq<string>, local: seq<string>)
    requires forall i | 0 <= i < |base| :: '\n' !in base[i] && '\r' !in base[i]
    requires forall i | 0 <= i < |upstream| :: '\n' !in upstream[i] && '\r' !in upstream[i]
    requires forall i | 0 <= i < |local| :: '\n' !in local[i] && '\r' !in local[i]
    ensures |Lines(MergedText(base, upstream, local))| == MaxLen(base, upstream, local)
    ensures forall i | 0 <= i < MaxLen(base, upstream, local) ::
      Lines(MergedText(base, upstream, local))[i] == PickLine(LineAt(base, i), LineAt(upstream, i), LineAt(local, i))
  {
    var picks := PicksBelow(base, upstream, local, MaxLen(base, upstream, local));
    forall k | 0 <= k < |picks|
      ensures '\n' !in picks[k] && '\r' !in picks[k]
    {
    }
    LinesJoinLines(picks);
  }

  /** `merge_both_modified`. */
  method MergeBothModified(base: string, upstream: string, local: string) returns (result: string)
    ensures result == MergedText(Lines(base), Lines(upstream), Lines(local))
  {
    var b, u, l := Lines(base), Lines(upstream), Lines(local);
    result := [];
    for i := 0 to MaxLen(b, u, l)
      invariant result == JoinLines(PicksBelow(b, u, l, i))
    {
      var bl, ul, ll := LineAt(b, i), LineAt(u, i), LineAt(l, i);
      JoinLinesSnoc(PicksBelow(b, u, l, i), PickLine(bl, ul, ll));
      if ul != bl && ll == bl {
        result := result + ul;
      } else if ll != bl && ul == bl {
        result := result + ll;
      } else if ul == ll {
        result := result + ul;
      } else {
        result := result + ll;
      }
      result := result + "\n";
    }
  }

  const LocalMarker: string := "<<<<<<< LOCAL\n"
  const Separator: string := "\n=======\n"
  const UpstreamMarker: string := "\n>>>>>>> UPSTREAM\n"

  /** `generate_conflict_markers`: the local text after the local marker,
      then the separator, the upstream text and the upstream marker; the
      base text is not used. */
  function ConflictMarkers(upstream: string, local: string): (r: string)
    ensures |r| == |LocalMarker| + |local| + |Separator| + |upstream| + |UpstreamMarker|
    ensures StartsWith(r, LocalMarker) && EndsWith(r, UpstreamMarker)
    ensures r[|LocalMarker|..|LocalMarker| + |local|] == local
    ensures r[|LocalMarker| + |local|..|LocalMarker| + |local| + |Separator|] == Separator
    ensures r[|LocalMarker| + |local| + |Separator|..|r| - |UpstreamMarker|] == upstream
  {
    var r := LocalMarker + local + Separator + upstream + UpstreamMarker;
    assert r[..|LocalMarker|] == LocalMarker;
    assert r[|r| - |UpstreamMarker|..] == UpstreamMarker;
    r
  }

  /** What `generate_merge_result` returns. */
  function MergeResultOf(d: ThreeWayDiff): string
  {
    match d.mergeStatus
    case Clean => d.baseContent
    case OnlyUpstreamModified => d.upstreamContent
    case OnlyLocalModified => d.localContent
    case BothModified => MergedText(Lines(d.baseContent), Lines(d.upstreamContent), Lines(d.localContent))
    case Conflict => ConflictMarkers(d.upstreamContent, d.localContent)
  }

  /** `generate_merge_result`. */
  method GenerateMergeResult(d: ThreeWayDiff) returns (result: string)
    ensures result == MergeResultOf(d)
    ensures d.mergeStatus == Conflict ==> StartsWith(result, LocalMarker)
  {
    match d.mergeStatus {
      case Clean => result := d.baseContent;
      case OnlyUpstreamModified => result := d.upstreamContent;
      case OnlyLocalModified => result := d.localContent;
      case BothModified => result := MergeBothModified(d.baseContent, d.upstreamContent, d.localContent);
      case Conflict => result := ConflictMarkers(d.upstreamContent, d.localContent);
    }
  }

  /** Outside a conflict the merged text keeps every change: its lines
      are upstream's when upstream changed, and local's when local did. */
  lemma MergeKeepsChanges(d: ThreeWayDiff, filePath: string, base: string, upstream: string, local: string)
    requires IsAnalysis(d, filePath, base, upstream, local)
    requires d.mergeStatus != Conflict
    ensures Lines(upstream) != Lines(base) ==> Lines(MergeResultOf(d)) == Lines(upstream)
    ensures Lines(local) != Lines(base) ==> Lines(MergeResultOf(d)) == Lines(local)
  {
  }

  /** As written, the same inputs lose the upstream change: the result is
      the local text, which is the base. */
  lemma AsWrittenLosesUpstreamChange(base: string, upstream: string, local: string)
    requires base == "base" && upstream == "upstream" && local == "base"
    ensures DetermineMergeStatusAsWritten(Lines(base), Lines(upstream), Lines(local)) == OnlyLocalModified
    ensures Lines(local) != Lines(upstream)
  {
    SingleLine(base);
    SingleLine(upstream);
  }

  // ---------------------------------------------------------------------
  // The unit tests of the module, as scenarios.

  /** Equal texts merge cleanly. */
  method CleanMergeScenario() returns (status: MergeStatus)
    ensures status == Clean
  {
    var d := Analyze("test.rs", "base", "base", "base");
    status := d.mergeStatus;
  }

  /** Only upstream changed "base": OnlyUpstreamModified with the
      corrected status, which can be merged automatically. */
  method OnlyUpstreamScenario(base: string, upstream: string) returns (status: MergeStatus, auto: bool)
    requires base == "base" && upstream == "upstream"
    ensures status == OnlyUpstreamModified && auto
  {
    SingleLine(base);
    SingleLine(upstream);
    var d := Analyze("test.rs", base, upstream, base);
    status, auto := d.mergeStatus, CanAutoMerge(d);
  }

  /** Only local changed "base". */
  method OnlyLocalScenario(base: string, local: string) returns (status: MergeStatus)
    requires base == "base" && local == "local"
    ensures status == OnlyLocalModified
  {
    SingleLine(base);
    SingleLine(local);
    var d := Analyze("test.rs", base, base, local);
    status := d.mergeStatus;
  }

  /** Three different texts conflict and need a manual merge. */
  method ConflictScenario(base: string, upstream: string, local: string) returns (status: MergeStatus, manual: bool)
    requires base == "base" && upstream == "upstream" && local == "local"
    ensures status == Conflict && manual
  {
    SingleLine(base);
    SingleLine(upstream);
    SingleLine(local);
    var d := Analyze("test.rs", base, upstream, local);
    status, manual := d.mergeStatus, RequiresManualMerge(d);
  }
}
