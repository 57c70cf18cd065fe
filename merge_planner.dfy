// The merge planner of crates/core/src/merge_planner.rs: a decision per
// diff hunk, a priority and a category per file path, the plan sorted by
// priority, the effort counts and the grouping of file diffs by category.
// The planner's two tables are filled once by `new` and only read after,
// so they are constants here.

module MergePlanner {
  import opened Wrappers
  import opened Seqs
  import opened Text
  import opened CodebaseDiff

  // ---------------------------------------------------------------------
  // The tables `new` builds.

  /** `initialize_priorities`: one priority per category name. */
  const PriorityMap: map<string, Priority> := map[
    "Bluetooth backends" := 1, "Protocol messages" := 2, "FFI bridge" := 3,
    "Android merge" := 4, "Build/packaging" := 5, "CI/CD" := 6,
    "i18n/a11y" := 7, "Security" := 8, "Documentation" := 9,
    "Release chores" := 10]

  /** The ten category names, in the order the table lists them. */
  const CategoryNames: seq<string> := [
    "Bluetooth backends", "Protocol messages", "FFI bridge", "Android merge",
    "Build/packaging", "CI/CD", "i18n/a11y", "Security", "Documentation",
    "Release chores"]

  /** Every priority of the table lies in 1..10, and its keys are the ten
      category names. */
  lemma PriorityMapRange()
    ensures forall c | c in PriorityMap :: 1 <= PriorityMap[c] <= 10
    ensures PriorityMap.Keys == Elements(CategoryNames)
  {
  }

  // ---------------------------------------------------------------------
  // Decisions.

  /** `decide_merge_action`: a conflict needs review, an empty upstream
      side is skipped, an untouched local side adopts upstream, a local
      side that differs from both base and upstream is adapted, and what
      is left (local changed, upstream equal to base) is replaced. */
  function DecideMergeAction(h: DiffHunk): (r: MergeDecision)
    ensures r == Manual <==> h.conflict
    ensures r == Skip <==> !h.conflict && h.upstreamLines == []
    ensures r == Adopt <==> !h.conflict && h.upstreamLines != [] && h.baseLines == h.localLines
    ensures r == Adapt <==> !h.conflict && h.upstreamLines != [] && h.baseLines != h.localLines && h.baseLines != h.upstreamLines
    ensures r == Replace <==> !h.conflict && h.upstreamLines != [] && h.baseLines == h.upstreamLines && h.baseLines != h.localLines
  {
    if h.conflict then Manual
    else if h.upstreamLines == [] then Skip
    else if h.baseLines == h.localLines then Adopt
    else if h.baseLines != h.upstreamLines && h.baseLines != h.localLines then Adapt
    else Replace
  }

  /** The text `generate_reason` puts before the path. */
  function ReasonPrefix(d: MergeDecision): string
  {
    match d
    case Adopt => "Adopt upstream changes for "
    case Adapt => "Adapt upstream changes for "
    case Skip => "Skip changes for "
    case Replace => "Replace with upstream version for "
    case Manual => "Manual review required for "
  }

  /** `generate_reason`: the decision's sentence, ending in the path. */
  function Reason(path: string, d: MergeDecision): (r: string)
    ensures StartsWith(r, ReasonPrefix(d)) && EndsWith(r, path)
  {
    var r := ReasonPrefix(d) + path;
    assert r[..|ReasonPrefix(d)|] == ReasonPrefix(d);
    assert r[|r| - |path|..] == path;
    r
  }

  /** Two reasons for the same path are equal only for the same decision. */
  lemma ReasonNamesDecision(path: string, d1: MergeDecision, d2: MergeDecision)
    requires Reason(path, d1) == Reason(path, d2)
    ensures d1 == d2
  {
    var p1, p2 := ReasonPrefix(d1), ReasonPrefix(d2);
    assert |p1| == |p2|;
    assert p1 == Reason(path, d1)[..|p1|];
    assert p2 == Reason(path, d2)[..|p2|];
    assert p1[0] == p2[0] && p1[2] == p2[2];
  }

  // ---------------------------------------------------------------------
  // Categories and priorities.

  /** `categorize_file`: the first keyword test that succeeds names the
      category; a path matching none is a release chore. */
  function CategorizeFile(path: string): (r: string)
    ensures r in PriorityMap
  {
    if Contains(path, "backends") then "Bluetooth backends"
    else if Contains(path, "protocol") then "Protocol messages"
    else if Contains(path, "ffi") then "FFI bridge"
    else if Contains(path, "android") then "Android merge"
    else if Contains(path, "build") || Contains(path, "Cargo") then "Build/packaging"
    else if Contains(path, "github") || Contains(path, "ci") then "CI/CD"
    else if Contains(path, "i18n") || Contains(path, "a11y") then "i18n/a11y"
    else if Contains(path, "security") || Contains(path, "crypto") then "Security"
    else if Contains(path, "docs") || Contains(path, "README") then "Documentation"
    else "Release chores"
  }

  /** The keyword rules as a table, tried in order; `CategorizeFile` is
      its first match. */
  const CategoryRules: seq<(seq<string>, string)> := [
    (["backends"], "Bluetooth backends"), (["protocol"], "Protocol messages"),
    (["ffi"], "FFI bridge"), (["android"], "Android merge"),
    (["build", "Cargo"], "Build/packaging"), (["github", "ci"], "CI/CD"),
    (["i18n", "a11y"], "i18n/a11y"), (["security", "crypto"], "Security"),
    (["docs", "README"], "Documentation")]

  /** The category of the first rule one of whose keywords the path
      contains, or the release chores when none does. */
  function FirstMatching(rules: seq<(seq<string>, string)>, path: string): string
    decreases |rules|
  {
    if rules == [] then "Release chores"
    else if ContainsAny(path, rules[0].0) then rules[0].1
    else FirstMatching(rules[1..], path)
  }

  /** The if-chain of `categorize_file` is the first match of the rule
      table. */
  lemma CategorizeByRules(path: string)
    ensures CategorizeFile(path) == FirstMatching(CategoryRules, path)
  {
    var rules := CategoryRules;
    AnyOfOne(path, "backends");
    AnyOfOne(path, "protocol");
    AnyOfOne(path, "ffi");
    AnyOfOne(path, "android");
    AnyOfTwo(path, "build", "Cargo");
    AnyOfTwo(path, "github", "ci");
    AnyOfTwo(path, "i18n", "a11y");
    AnyOfTwo(path, "security", "crypto");
    AnyOfTwo(path, "docs", "README");
    assert rules[9..] == [];
  }

  /** The second half of `calculate_priority`: the same keyword tests,
      answered with numbers. */
  function FallbackPriority(path: string): Priority
  {
    if Contains(path, "backends") then 1
    else if Contains(path, "protocol") then 2
    else if Contains(path, "ffi") then 3
    else if Contains(path, "android") then 4
    else if Contains(path, "build") || Contains(path, "Cargo") then 5
    else if Contains(path, "github") || Contains(path, "ci") then 6
    else if Contains(path, "i18n") || Contains(path, "a11y") then 7
    else if Contains(path, "security") || Contains(path, "crypto") then 8
    else if Contains(path, "docs") || Contains(path, "README") then 9
    else 10
  }

  /** The fallback priority is the table's priority of the path's category. */
  lemma FallbackIsCategoryPriority(path: string)
    ensures FallbackPriority(path) == PriorityMap[CategorizeFile(path)]
    ensures 1 <= FallbackPriority(path) <= 10
  {
  }

  /** The path contains the name of some category. */
  predicate NamesCategory(path: string)
  {
    exists c | c in PriorityMap :: Contains(path, c)
  }

  /** A path that contains none of the ten names names no category. */
  lemma NamesNoCategory(path: string)
    requires !ContainsAny(path, CategoryNames)
    ensures !NamesCategory(path)
  {
    PriorityMapRange();
    forall c | c in PriorityMap
      ensures !Contains(path, c)
    {
      var k :| 0 <= k < |CategoryNames| && CategoryNames[k] == c;
    }
  }

  /** The priorities `calculate_priority` may give: the first loop walks the
      `HashMap` in its own order and answers for the first category name the
      path contains, so any contained name's priority is possible; without
      one the keyword fallback decides. */
  predicate PriorityChoice(path: string, p: Priority)
  {
    if NamesCategory(path) then exists c | c in PriorityMap && Contains(path, c) :: p == PriorityMap[c]
    else p == FallbackPriority(path)
  }

  /** `calculate_priority`, with the map's order left open. */
  method CalculatePriority(path: string) returns (p: Priority)
    ensures PriorityChoice(path, p)
    ensures 1 <= p <= 10
    ensures !NamesCategory(path) ==> p == PriorityMap[CategorizeFile(path)]
  {
    PriorityMapRange();
    FallbackIsCategoryPriority(path);
    var todo := PriorityMap.Keys;
    while todo != {}
      invariant todo <= PriorityMap.Keys
      invariant forall c | c in PriorityMap.Keys - todo :: !Contains(path, c)
      decreases |todo|
    {
      var c :| c in todo;
      if Contains(path, c) {
        return PriorityMap[c];
      }
      todo := todo - {c};
    }
    p := FallbackPriority(path);
  }

  // ---------------------------------------------------------------------
  // The plan.

  /** What the plan holds for one hunk before sorting. */
  predicate PlanEntry(h: DiffHunk, m: MergeHunk)
  {
    m.hunk == h && m.decision == DecideMergeAction(h) &&
    m.reason == Reason(h.filePath, m.decision) && PriorityChoice(h.filePath, m.priority) &&
    1 <= m.priority <= 10
  }

  /** entries holds one entry per hunk, in hunk order. */
  predicate PlanFor(hunks: seq<DiffHunk>, entries: seq<MergeHunk>)
  {
    |entries| == |hunks| && forall i | 0 <= i < |hunks| :: PlanEntry(hunks[i], entries[i])
  }

  predicate SortedByPriority(s: seq<MergeHunk>)
  {
    forall i, j | 0 <= i < j < |s| :: s[i].priority <= s[j].priority
  }

  function AtPriority(k: Priority): MergeHunk -> bool
  {
    (m: MergeHunk) => m.priority == k
  }

  /** x placed after every entry of t whose priority is at most its own. */
  function InsertByPriority(x: MergeHunk, t: seq<MergeHunk>): (r: seq<MergeHunk>)
    ensures |r| == |t| + 1
    decreases |t|
  {
    if t == [] then [x]
    else if t[0].priority <= x.priority then [t[0]] + InsertByPriority(x, t[1..])
    else [x] + t
  }

  /** Insertion adds x and loses nothing. */
  lemma {:induction false} InsertPermutes(x: MergeHunk, t: seq<MergeHunk>)
    ensures multiset(InsertByPriority(x, t)) == multiset(t) + multiset{x}
    decreases |t|
  {
    if t != [] && t[0].priority <= x.priority {
      InsertPermutes(x, t[1..]);
      assert t == [t[0]] + t[1..];
    }
  }

  /** Every entry has a priority of at least b. */
  predicate AllAtLeast(s: seq<MergeHunk>, b: Priority)
  {
    forall i | 0 <= i < |s| :: b <= s[i].priority
  }

  /** A lower bound of a list and of x bounds their insertion too. */
  lemma {:induction false} InsertAtLeast(x: MergeHunk, t: seq<MergeHunk>, b: Priority)
    requires AllAtLeast(t, b) && b <= x.priority
    ensures AllAtLeast(InsertByPriority(x, t), b)
    decreases |t|
  {
    if t != [] && t[0].priority <= x.priority {
      var rest := InsertByPriority(x, t[1..]);
      InsertAtLeast(x, t[1..], b);
      var r := [t[0]] + rest;
      forall i | 0 <= i < |r|
        ensures b <= r[i].priority
      {
        if i > 0 {
          assert r[i] == rest[i - 1];
        }
      }
    }
  }

  /** Insertion keeps a sorted list sorted. */
  lemma {:induction false} InsertSorted(x: MergeHunk, t: seq<MergeHunk>)
    requires SortedByPriority(t)
    ensures SortedByPriority(InsertByPriority(x, t))
    decreases |t|
  {
    if t != [] && t[0].priority <= x.priority {
      var rest := InsertByPriority(x, t[1..]);
      InsertSorted(x, t[1..]);
      InsertAtLeast(x, t[1..], t[0].priority);
      var r := [t[0]] + rest;
      forall i, j | 0 <= i < j < |r|
        ensures r[i].priority <= r[j].priority
      {
        assert r[j] == rest[j - 1];
        if i > 0 {
          assert r[i] == rest[i - 1];
        }
      }
    }
  }

  /** `sort_by_key(|m| m.priority)`: a stable sort, here an insertion sort
      that puts each later entry after the earlier ones of equal priority. */
  function SortByPriority(s: seq<MergeHunk>): (r: seq<MergeHunk>)
    ensures |r| == |s|
    decreases |s|
  {
    if s == [] then []
    else InsertByPriority(s[|s| - 1], SortByPriority(s[..|s| - 1]))
  }

  /** The sort sorts. */
  lemma {:induction false} SortSorts(s: seq<MergeHunk>)
    ensures SortedByPriority(SortByPriority(s))
    decreases |s|
  {
    if s != [] {
      SortSorts(s[..|s| - 1]);
      InsertSorted(s[|s| - 1], SortByPriority(s[..|s| - 1]));
    }
  }

  /** The sort is a permutation. */
  lemma {:induction false} SortPermutes(s: seq<MergeHunk>)
    ensures multiset(SortByPriority(s)) == multiset(s)
    decreases |s|
  {
    if s != [] {
      var front := s[..|s| - 1];
      SortPermutes(front);
      InsertPermutes(s[|s| - 1], SortByPriority(front));
      assert s == front + [s[|s| - 1]];
    }
  }

  /** Inserting x into a sorted list appends it to the entries of its own
      priority and leaves the others' order alone. */
  lemma {:induction false} InsertKeepsBuckets(x: MergeHunk, t: seq<MergeHunk>, k: Priority)
    requires SortedByPriority(t)
    ensures Filter(InsertByPriority(x, t), AtPriority(k)) ==
            Filter(t, AtPriority(k)) + (if x.priority == k then [x] else [])
    decreases |t|
  {
    var p := AtPriority(k);
    var own := if x.priority == k then [x] else [];
    if t == [] {
      FilterCons(x, [], p);
      assert [x] + [] == [x];
    } else if t[0].priority <= x.priority {
      InsertKeepsBuckets(x, t[1..], k);
      FilterConsExtends(t[0], t[1..], InsertByPriority(x, t[1..]), own, p);
      assert [t[0]] + t[1..] == t;
    } else {
      FilterCons(x, t, p);
      if x.priority == k {
        forall i | 0 <= i < |t|
          ensures !p(t[i])
        {
          assert t[0].priority <= t[i].priority;
        }
        FilterNone(t, p);
      }
    }
  }

  /** The sort is stable: the entries of each priority keep their input
      order. */
  lemma {:induction false} SortIsStable(s: seq<MergeHunk>, k: Priority)
    ensures Filter(SortByPriority(s), AtPriority(k)) == Filter(s, AtPriority(k))
    decreases |s|
  {
    if s != [] {
      var front, x := s[..|s| - 1], s[|s| - 1];
      SortIsStable(front, k);
      SortSorts(front);
      InsertKeepsBuckets(x, SortByPriority(front), k);
    }
  }

  /** The plan entries, before sorting. */
  lemma PlanForRange(hunks: seq<DiffHunk>, entries: seq<MergeHunk>)
    requires PlanFor(hunks, entries)
    ensures forall i | 0 <= i < |entries| :: 1 <= entries[i].priority <= 10
  {
  }

  /** `generate_merge_plan`: one entry per hunk of the report, sorted by
      priority; which entries tie is decided by the map order that each
      `calculate_priority` call meets. */
  method GenerateMergePlan(report: CodebaseDiffReport) returns (plan: seq<MergeHunk>)
    ensures |plan| == |report.hunks|
    ensures SortedByPriority(plan)
    ensures forall i | 0 <= i < |plan| :: 1 <= plan[i].priority <= 10
    ensures exists entries :: PlanFor(report.hunks, entries) && plan == SortByPriority(entries)
  {
    var hunks := report.hunks;
    var entries: seq<MergeHunk> := [];
    for i := 0 to |hunks|
      invariant PlanFor(hunks[..i], entries)
    {
      var hunk := hunks[i];
      var decision := DecideMergeAction(hunk);
      var priority := CalculatePriority(hunk.filePath);
      var reason := Reason(hunk.filePath, decision);
      entries := entries + [MergeHunk(hunk, decision, reason, priority)];
      assert hunks[..i + 1] == hunks[..i] + [hunk];
    }
    assert hunks[..|hunks|] == hunks;
    PlanForRange(hunks, entries);
    plan := SortByPriority(entries);
    SortSorts(entries);
    SortKeepsRange(entries);
  }

  /** Sorting keeps every priority of a plan within 1..10. */
  lemma SortKeepsRange(entries: seq<MergeHunk>)
    requires forall i | 0 <= i < |entries| :: 1 <= entries[i].priority <= 10
    ensures forall i | 0 <= i < |SortByPriority(entries)| :: 1 <= SortByPriority(entries)[i].priority <= 10
  {
    var plan := SortByPriority(entries);
    SortPermutes(entries);
    forall i | 0 <= i < |plan|
      ensures 1 <= plan[i].priority <= 10
    {
      assert plan[i] in multiset(entries);
    }
  }

  // ---------------------------------------------------------------------
  // Effort and categories.

  function HasDecision(d: MergeDecision): MergeHunk -> bool
  {
    (m: MergeHunk) => m.decision == d
  }

  /** The number of entries with decision d. */
  function DecisionCount(hunks: seq<MergeHunk>, d: MergeDecision): nat
  {
    |Filter(hunks, HasDecision(d))|
  }

  /** The decisions estimate_effort counts never outnumber the entries. */
  lemma {:induction false} EffortBounded(hunks: seq<MergeHunk>)
    ensures DecisionCount(hunks, Adopt) + DecisionCount(hunks, Adapt) + DecisionCount(hunks, Manual) <= |hunks|
    decreases |hunks|
  {
    if hunks != [] {
      var front, x := hunks[..|hunks| - 1], hunks[|hunks| - 1];
      EffortBounded(front);
      assert hunks == front + [x];
      FilterSnoc(front, x, HasDecision(Adopt));
      FilterSnoc(front, x, HasDecision(Adapt));
      FilterSnoc(front, x, HasDecision(Manual));
    }
  }

  /** `estimate_effort`: how many entries adopt, adapt and need review;
      Skip and Replace are not counted. */
  method EstimateEffort(hunks: seq<MergeHunk>) returns (adopt: nat, adapt: nat, manual: nat)
    ensures adopt == DecisionCount(hunks, Adopt)
    ensures adapt == DecisionCount(hunks, Adapt)
    ensures manual == DecisionCount(hunks, Manual)
    ensures adopt + adapt + manual <= |hunks|
  {
    adopt, adapt, manual := 0, 0, 0;
    for i := 0 to |hunks|
      invariant adopt == DecisionCount(hunks[..i], Adopt)
      invariant adapt == DecisionCount(hunks[..i], Adapt)
      invariant manual == DecisionCount(hunks[..i], Manual)
    {
      var m := hunks[i];
      assert hunks[..i + 1] == hunks[..i] + [m];
      FilterSnoc(hunks[..i], m, HasDecision(Adopt));
      FilterSnoc(hunks[..i], m, HasDecision(Adapt));
      FilterSnoc(hunks[..i], m, HasDecision(Manual));
      match m.decision {
        case Adopt => adopt := adopt + 1;
        case Adapt => adapt := adapt + 1;
        case Manual => manual := manual + 1;
        case _ =>
      }
    }
    assert hunks[..|hunks|] == hunks;
    EffortBounded(hunks);
  }

  function InCategory(c: string): FileDiff -> bool
  {
    (d: FileDiff) => CategorizeFile(d.filePath) == c
  }

  /** The categories some diff falls in. */
  function CategoriesOf(diffs: seq<FileDiff>): set<string>
  {
    set i | 0 <= i < |diffs| :: CategorizeFile(diffs[i].filePath)
  }

  /** The grouping `categorize_changes` builds: each category met is mapped
      to its diffs in input order. */
  function Grouped(diffs: seq<FileDiff>): map<string, seq<FileDiff>>
  {
    map c | c in CategoriesOf(diffs) :: Filter(diffs, InCategory(c))
  }

  /** One more diff joins the group of its own category, which is created
      if it was missing. */
  lemma GroupedSnoc(diffs: seq<FileDiff>, d: FileDiff)
    ensures Grouped(diffs + [d]) ==
            Grouped(diffs)[CategorizeFile(d.filePath) :=
              (if CategorizeFile(d.filePath) in Grouped(diffs) then Grouped(diffs)[CategorizeFile(d.filePath)] else []) + [d]]
  {
    var s := diffs + [d];
    var c := CategorizeFile(d.filePath);
    var before := Grouped(diffs);
    var after := Grouped(s);
    var expected := before[c := (if c in before then before[c] else []) + [d]];
    CategoriesSnoc(diffs, d);
    assert after.Keys == expected.Keys;
    forall x | x in after
      ensures after[x] == expected[x]
    {
      FilterSnoc(diffs, d, InCategory(x));
      if x == c && c !in before {
        FilterNone(diffs, InCategory(c));
      }
    }
  }

  /** One more diff adds its own category to the categories met. */
  lemma CategoriesSnoc(diffs: seq<FileDiff>, d: FileDiff)
    ensures CategoriesOf(diffs + [d]) == CategoriesOf(diffs) + {CategorizeFile(d.filePath)}
  {
    var s := diffs + [d];
    forall x | x in CategoriesOf(s)
      ensures x in CategoriesOf(diffs) + {CategorizeFile(d.filePath)}
    {
      var i :| 0 <= i < |s| && x == CategorizeFile(s[i].filePath);
      if i < |diffs| {
        assert s[i] == diffs[i];
      }
    }
    forall x | x in CategoriesOf(diffs)
      ensures x in CategoriesOf(s)
    {
      var i :| 0 <= i < |diffs| && x == CategorizeFile(diffs[i].filePath);
      assert s[i] == diffs[i];
    }
    assert s[|diffs|] == d;
  }

  /** Every diff lies in the group of its category and in no other. */
  lemma ExactlyOneGroup(diffs: seq<FileDiff>, i: nat)
    requires i < |diffs|
    ensures CategorizeFile(diffs[i].filePath) in Grouped(diffs)
    ensures diffs[i] in Grouped(diffs)[CategorizeFile(diffs[i].filePath)]
    ensures forall c | c in Grouped(diffs) && c != CategorizeFile(diffs[i].filePath) :: diffs[i] !in Grouped(diffs)[c]
  {
    var d := diffs[i];
    FilterMembers(diffs, InCategory(CategorizeFile(d.filePath)), d);
    forall c | c in Grouped(diffs) && c != CategorizeFile(d.filePath)
      ensures d !in Grouped(diffs)[c]
    {
      FilterMembers(diffs, InCategory(c), d);
    }
  }

  /** `categorize_changes`: the report's file diffs grouped by category. */
  method CategorizeChanges(report: CodebaseDiffReport) returns (categories: map<string, seq<FileDiff>>)
    ensures categories == Grouped(report.fileDiffs)
  {
    var diffs := report.fileDiffs;
    categories := map[];
    for i := 0 to |diffs|
      invariant categories == Grouped(diffs[..i])
    {
      var d := diffs[i];
      var c := CategorizeFile(d.filePath);
      GroupedSnoc(diffs[..i], d);
      assert diffs[..i + 1] == diffs[..i] + [d];
      categories := categories[c := (if c in categories then categories[c] else []) + [d]];
    }
    assert diffs[..|diffs|] == diffs;
  }

  // ---------------------------------------------------------------------
  // The unit tests of the module, as scenarios.

  /** A path that contains "backends" but no category name is the first
      category and gets priority 1, whatever the map's order: the fallback
      decides. */
  method BackendsPriority(path: string) returns (category: string, p: Priority)
    requires Contains(path, "backends") && !NamesCategory(path)
    ensures category == "Bluetooth backends" && p == 1
  {
    category := CategorizeFile(path);
    p := CalculatePriority(path);
  }

  /** "src/backends/bluez.rs" contains "backends" and no category name. */
  lemma BackendsPathFacts(path: string)
    requires path == "src/backends/bluez.rs"
    ensures Contains(path, "backends") && !NamesCategory(path)
  {
    ContainsByChars(path, "backends", 4);
    NoneContainedByMissingChars(path, CategoryNames, "BPFABC1SDR");
    NamesNoCategory(path);
  }

  /** The test: a backends path is the first category with priority 1. */
  method BackendsScenario(path: string) returns (category: string, p: Priority)
    requires path == "src/backends/bluez.rs"
    ensures category == "Bluetooth backends" && p == 1
  {
    BackendsPathFacts(path);
    category, p := BackendsPriority(path);
  }

  /** The keywords tested before "docs" that are not two-letter pairs. */
  const EarlyKeywords: seq<string> :=
    ["backends", "protocol", "ffi", "android", "build", "Cargo", "github", "i18n", "a11y", "crypto"]

  /** A path with "docs" and none of the earlier keywords is documentation. */
  lemma DocumentationByKeyword(path: string)
    requires Contains(path, "docs")
    requires !ContainsAny(path, EarlyKeywords)
    requires !Contains(path, "ci") && !Contains(path, "security")
    ensures CategorizeFile(path) == "Documentation"
  {
    var k := EarlyKeywords;
    assert !Contains(path, k[0]) && !Contains(path, k[1]) && !Contains(path, k[2]);
    assert !Contains(path, k[3]) && !Contains(path, k[4]) && !Contains(path, k[5]);
    assert !Contains(path, k[6]) && !Contains(path, k[7]) && !Contains(path, k[8]);
    assert !Contains(path, k[9]);
  }

  lemma SecurityDocsMissesKeywords(path: string)
    requires path == "Security/docs"
    ensures !ContainsAny(path, EarlyKeywords)
  {
    NoneContainedByMissingChars(path, EarlyKeywords, "bpfabCg1ap");
  }

  lemma SecurityDocsMissesPairs(path: string)
    requires path == "Security/docs"
    ensures !Contains(path, "ci") && !Contains(path, "security")
  {
    MissingPairNotContained(path, "ci");
    MissingPairNotContained(path, "security");
  }

  /** "Security/docs" fails every keyword test before "docs". */
  lemma SecurityDocsCategory(path: string)
    requires path == "Security/docs"
    ensures CategorizeFile(path) == "Documentation"
  {
    assert Contains(path, "docs") by {
      ContainsByChars(path, "docs", 9);
    }
    SecurityDocsMissesKeywords(path);
    SecurityDocsMissesPairs(path);
    DocumentationByKeyword(path);
  }

  /** The only category name in "Security/docs" is "Security". */
  lemma SecurityDocsNames(path: string)
    requires path == "Security/docs"
    ensures forall c | c in PriorityMap :: Contains(path, c) <==> c == "Security"
  {
    assert Contains(path, "Security") by {
      ContainsByChars(path, "Security", 0);
    }
    var others := ["Bluetooth backends", "Protocol messages", "FFI bridge", "Android merge",
                   "Build/packaging", "CI/CD", "i18n/a11y", "Documentation", "Release chores"];
    NoneContainedByMissingChars(path, others, "BPFABI1DR");
    PriorityMapRange();
    forall c | c in PriorityMap && c != "Security"
      ensures !Contains(path, c)
    {
      var k :| 0 <= k < |CategoryNames| && CategoryNames[k] == c;
      assert c == others[if k < 7 then k else k - 1];
    }
  }

  /** A path holding a category name takes that category's priority from
      the first loop, even where the keyword tests put it in another
      category: "Security/docs" is Documentation (9) but gets 8. */
  method CategoryNameScenario(path: string) returns (category: string, p: Priority)
    requires path == "Security/docs"
    ensures category == "Documentation" && p == 8
    ensures PriorityMap[category] != p
  {
    SecurityDocsCategory(path);
    SecurityDocsNames(path);
    category := CategorizeFile(path);
    assert "Security" in PriorityMap && Contains(path, "Security");
    p := CalculatePriority(path);
    var c :| c in PriorityMap && Contains(path, c) && p == PriorityMap[c];
  }

  /** An unchanged local side with a non-empty upstream side adopts. */
  method DecisionScenario() returns (d: MergeDecision)
    ensures d == Adopt
  {
    d := DecideMergeAction(DiffHunk("test.rs", 1, 1, 10, ["line1"], ["line2"], ["line1"], false));
  }

  /** One Adopt and one Adapt entry: counts (1, 1, 0). */
  method EffortScenario() returns (adopt: nat, adapt: nat, manual: nat)
    ensures adopt == 1 && adapt == 1 && manual == 0
  {
    var h1 := MergeHunk(DiffHunk("test1.rs", 1, 1, 10, [], [], [], false), Adopt, "test", 1);
    var h2 := MergeHunk(DiffHunk("test2.rs", 2, 1, 10, [], [], [], false), Adapt, "test", 2);
    FilterPair(h1, h2, HasDecision(Adopt));
    FilterPair(h1, h2, HasDecision(Adapt));
    FilterPair(h1, h2, HasDecision(Manual));
    adopt, adapt, manual := EstimateEffort([h1, h2]);
  }
}
