// The release notes of crates/core/src/release_notes.rs: a list of change
// entries whose breaking and deprecated titles are also kept apart, known
// issues, contributors without duplicates, and a Markdown rendering; the
// generator keeps notes by version.

module ReleaseNotes {
  import opened Wrappers
  import opened Seqs
  import opened Text

  datatype ChangeType = Feature | Bugfix | Improvement | Security | Breaking | Deprecated

  datatype ChangeEntry = ChangeEntry(
    entryId: string, changeType: ChangeType, title: string, description: string,
    author: string, prNumber: Option<nat>)

  datatype Notes = Notes(
    version: string, releaseDate: string, summary: string, changes: seq<ChangeEntry>,
    breakingChanges: seq<string>, deprecations: seq<string>, knownIssues: seq<string>,
    contributors: seq<string>)

  const ReleaseDate: string := "2025-11-21T00:00:00Z"

  function OfType(t: ChangeType): ChangeEntry -> bool
  {
    (c: ChangeEntry) => c.changeType == t
  }

  /** The titles of the entries of type t, in order. */
  function Titles(changes: seq<ChangeEntry>, t: ChangeType): seq<string>
    decreases |changes|
  {
    if changes == [] then []
    else
      var last := changes[|changes| - 1];
      Titles(changes[..|changes| - 1], t) + (if last.changeType == t then [last.title] else [])
  }

  /** There is one title per entry of the type. */
  lemma {:induction false} TitlesCount(changes: seq<ChangeEntry>, t: ChangeType)
    ensures |Titles(changes, t)| == |Filter(changes, OfType(t))|
    decreases |changes|
  {
    if changes != [] {
      var front, last := changes[..|changes| - 1], changes[|changes| - 1];
      TitlesCount(front, t);
      assert changes == front + [last];
      FilterSnoc(front, last, OfType(t));
    }
  }

  /** The breaking and deprecation lists hold the titles of the Breaking
      and the Deprecated entries, and no contributor is listed twice. */
  predicate Consistent(notes: Notes)
  {
    notes.breakingChanges == Titles(notes.changes, Breaking) &&
    notes.deprecations == Titles(notes.changes, Deprecated) &&
    Distinct(notes.contributors)
  }

  /** `ReleaseNotes::new`: every list empty and no summary. */
  function NewNotes(version: string): (r: Notes)
    ensures Consistent(r)
    ensures r.version == version && r.releaseDate == ReleaseDate && r.summary == ""
    ensures r.changes == [] && r.breakingChanges == [] && r.deprecations == [] && r.knownIssues == [] && r.contributors == []
  {
    Notes(version, ReleaseDate, "", [], [], [], [], [])
  }

  /** `add_change`: appends the entry, and its title to the breaking list
      exactly when it is Breaking and to the deprecations exactly when it is
      Deprecated. */
  function AddChange(notes: Notes, change: ChangeEntry): (r: Notes)
    ensures Consistent(notes) ==> Consistent(r)
    ensures r.changes == notes.changes + [change]
    ensures r.breakingChanges == notes.breakingChanges + (if change.changeType == Breaking then [change.title] else [])
    ensures r.deprecations == notes.deprecations + (if change.changeType == Deprecated then [change.title] else [])
    ensures r == notes.(changes := r.changes, breakingChanges := r.breakingChanges, deprecations := r.deprecations)
  {
    var changes := notes.changes + [change];
    assert changes[..|changes| - 1] == notes.changes;
    var breaking := if change.changeType == Breaking then notes.breakingChanges + [change.title] else notes.breakingChanges;
    var deprecations := if change.changeType == Deprecated then notes.deprecations + [change.title] else notes.deprecations;
    notes.(changes := changes, breakingChanges := breaking, deprecations := deprecations)
  }

  /** `add_known_issue`: appends the issue. */
  function AddKnownIssue(notes: Notes, issue: string): (r: Notes)
    ensures Consistent(notes) ==> Consistent(r)
    ensures r.knownIssues == notes.knownIssues + [issue] && r == notes.(knownIssues := r.knownIssues)
  {
    notes.(knownIssues := notes.knownIssues + [issue])
  }

  /** `add_contributor`: appends a contributor not yet listed and ignores
      one already there, so the list stays free of duplicates and in the
      order of first appearance. */
  function AddContributor(notes: Notes, contributor: string): (r: Notes)
    ensures Consistent(notes) ==> Consistent(r)
    ensures contributor in notes.contributors ==> r == notes
    ensures contributor !in notes.contributors ==> r == notes.(contributors := notes.contributors + [contributor])
    ensures forall x :: x in r.contributors <==> x in notes.contributors || x == contributor
  {
    if contributor in notes.contributors then notes
    else notes.(contributors := notes.contributors + [contributor])
  }

  /** Adding a contributor twice is adding them once. */
  lemma AddContributorIdempotent(notes: Notes, contributor: string)
    ensures AddContributor(AddContributor(notes, contributor), contributor) == AddContributor(notes, contributor)
  {
  }

  /** `set_summary`: only the summary changes. */
  function SetSummary(notes: Notes, summary: string): (r: Notes)
    ensures Consistent(notes) ==> Consistent(r)
    ensures r.summary == summary && r == notes.(summary := r.summary)
  {
    notes.(summary := summary)
  }

  /** `get_changes_by_type`: the entries of that type, in order. */
  function ChangesByType(notes: Notes, t: ChangeType): (r: seq<ChangeEntry>)
    ensures forall c :: c in r <==> c in notes.changes && c.changeType == t
  {
    FilterMembersAll(notes.changes, OfType(t));
    Filter(notes.changes, OfType(t))
  }

  /** `get_feature_count`. */
  function FeatureCount(notes: Notes): nat
  {
    |ChangesByType(notes, Feature)|
  }

  /** `get_bugfix_count`. */
  function BugfixCount(notes: Notes): nat
  {
    |ChangesByType(notes, Bugfix)|
  }

  /** A change raises the feature count exactly when it is a Feature and
      the bugfix count exactly when it is a Bugfix. */
  lemma AddChangeCounts(notes: Notes, change: ChangeEntry)
    ensures FeatureCount(AddChange(notes, change)) == FeatureCount(notes) + (if change.changeType == Feature then 1 else 0)
    ensures BugfixCount(AddChange(notes, change)) == BugfixCount(notes) + (if change.changeType == Bugfix then 1 else 0)
  {
    FilterSnoc(notes.changes, change, OfType(Feature));
    FilterSnoc(notes.changes, change, OfType(Bugfix));
  }

  /** In consistent notes there are as many breaking titles as Breaking
      entries and as many deprecations as Deprecated entries. */
  lemma TitleListsCount(notes: Notes)
    requires Consistent(notes)
    ensures |notes.breakingChanges| == |ChangesByType(notes, Breaking)|
    ensures |notes.deprecations| == |ChangesByType(notes, Deprecated)|
  {
    TitlesCount(notes.changes, Breaking);
    TitlesCount(notes.changes, Deprecated);
  }

  // ---------------------------------------------------------------------
  // The Markdown rendering.

  /** The line of a plain list item. */
  function Bullet(item: string): string
  {
    "- " + item + "\n"
  }

  /** `{:?}` of an `Option<u32>`. */
  function DebugOption(n: Option<nat>): string
  {
    match n
    case Some(v) => "Some(" + NatToString(v) + ")"
    case None => "None"
  }

  /** The line of a feature: its title and its pull request. */
  function FeatureLine(c: ChangeEntry): string
  {
    "- " + c.title + " (#" + DebugOption(c.prNumber) + ")\n"
  }

  function TitleLine(c: ChangeEntry): string
  {
    Bullet(c.title)
  }

  /** One line per item, in order. */
  function Lines<T>(items: seq<T>, line: T -> string): string
    decreases |items|
  {
    if items == [] then "" else Lines(items[..|items| - 1], line) + line(items[|items| - 1])
  }

  /** A section: nothing for no items, else its heading, the lines and
      (except for the last section) a blank line. */
  function Section<T>(heading: string, items: seq<T>, line: T -> string, trailer: string): (r: string)
    ensures items == [] ==> r == ""
    ensures items != [] ==> StartsWith(r, heading)
  {
    if items == [] then "" else heading + Lines(items, line) + trailer
  }

  const BreakingHeading: string := "## ⚠️ Breaking Changes\n\n"
  const FeaturesHeading: string := "## ✨ Features\n\n"
  const BugfixHeading: string := "## \U{1F41B} Bug Fixes\n\n"
  const ImprovementsHeading: string := "## \U{1F4C8} Improvements\n\n"
  const KnownIssuesHeading: string := "## \U{1F50D} Known Issues\n\n"
  const ContributorsHeading: string := "## \U{1F465} Contributors\n\n"

  /** The title line of the rendering. */
  function Title(notes: Notes): string
  {
    "# Release " + notes.version + "\n\n"
  }

  /** The title line and the release date. */
  function Header(notes: Notes): string
  {
    Title(notes) + "**Release Date**: " + notes.releaseDate + "\n\n"
  }

  /** The summary paragraph, when there is a summary. */
  function SummaryPart(notes: Notes): string
  {
    if notes.summary == "" then "" else notes.summary + "\n\n"
  }

  /** What `generate_markdown` produces: the header, the summary and the
      sections in the order it writes them. */
  function Markdown(notes: Notes): string
  {
    Header(notes) + SummaryPart(notes) +
    Section(BreakingHeading, notes.breakingChanges, Bullet, "\n") +
    Section(FeaturesHeading, ChangesByType(notes, Feature), FeatureLine, "\n") +
    Section(BugfixHeading, ChangesByType(notes, Bugfix), TitleLine, "\n") +
    Section(ImprovementsHeading, ChangesByType(notes, Improvement), TitleLine, "\n") +
    Section(KnownIssuesHeading, notes.knownIssues, Bullet, "\n") +
    Section(ContributorsHeading, notes.contributors, Bullet, "")
  }

  /** The rendering starts with "# Release " and the version. */
  lemma MarkdownStartsWithTitle(notes: Notes)
    ensures StartsWith(Markdown(notes), "# Release " + notes.version + "\n\n")
  {
    var t := Title(notes);
    var md := Header(notes);
    StartsWithAppend(t + "**Release Date**: " + notes.releaseDate, "\n\n", t) by {
      StartsWithAppend(t + "**Release Date**: ", notes.releaseDate, t) by {
        StartsWithAppend(t, "**Release Date**: ", t);
      }
    }
    StartsWithAppend(md, SummaryPart(notes), t);
    md := md + SummaryPart(notes);
    StartsWithAppend(md, Section(BreakingHeading, notes.breakingChanges, Bullet, "\n"), t);
    md := md + Section(BreakingHeading, notes.breakingChanges, Bullet, "\n");
    StartsWithAppend(md, Section(FeaturesHeading, ChangesByType(notes, Feature), FeatureLine, "\n"), t);
    md := md + Section(FeaturesHeading, ChangesByType(notes, Feature), FeatureLine, "\n");
    StartsWithAppend(md, Section(BugfixHeading, ChangesByType(notes, Bugfix), TitleLine, "\n"), t);
    md := md + Section(BugfixHeading, ChangesByType(notes, Bugfix), TitleLine, "\n");
    StartsWithAppend(md, Section(ImprovementsHeading, ChangesByType(notes, Improvement), TitleLine, "\n"), t);
    md := md + Section(ImprovementsHeading, ChangesByType(notes, Improvement), TitleLine, "\n");
    StartsWithAppend(md, Section(KnownIssuesHeading, notes.knownIssues, Bullet, "\n"), t);
    md := md + Section(KnownIssuesHeading, notes.knownIssues, Bullet, "\n");
    StartsWithAppend(md, Section(ContributorsHeading, notes.contributors, Bullet, ""), t);
  }

  /** Notes with nothing in them render as the header alone. */
  lemma EmptyNotesMarkdown(version: string)
    ensures Markdown(NewNotes(version)) == Header(NewNotes(version))
  {
    var notes := NewNotes(version);
    assert ChangesByType(notes, Feature) == [] && ChangesByType(notes, Bugfix) == [];
    assert ChangesByType(notes, Improvement) == [];
  }

  /** The loop of one section: appends one line per item. */
  method AppendLines<T>(md: string, items: seq<T>, line: T -> string) returns (r: string)
    ensures r == md + Lines(items, line)
  {
    r := md;
    for i := 0 to |items|
      invariant r == md + Lines(items[..i], line)
    {
      assert items[..i + 1][..i] == items[..i];
      r := r + line(items[i]);
    }
    assert items[..|items|] == items;
  }

  /** Appends a section: nothing for no items. */
  method AppendSection<T>(md: string, heading: string, items: seq<T>, line: T -> string, trailer: string)
    returns (r: string)
    ensures r == md + Section(heading, items, line, trailer)
  {
    r := md;
    if items != [] {
      r := AppendLines(r + heading, items, line);
      r := r + trailer;
    }
  }

  /** `generate_markdown`: the header, then each section whose list is not
      empty. */
  method GenerateMarkdown(notes: Notes) returns (md: string)
    ensures md == Markdown(notes)
  {
    md := "# Release " + notes.version + "\n\n";
    md := md + "**Release Date**: " + notes.releaseDate + "\n\n";
    if notes.summary != "" {
      md := md + (notes.summary + "\n\n");
    }
    md := AppendSection(md, BreakingHeading, notes.breakingChanges, Bullet, "\n");
    md := AppendSection(md, FeaturesHeading, ChangesByType(notes, Feature), FeatureLine, "\n");
    md := AppendSection(md, BugfixHeading, ChangesByType(notes, Bugfix), TitleLine, "\n");
    md := AppendSection(md, ImprovementsHeading, ChangesByType(notes, Improvement), TitleLine, "\n");
    md := AppendSection(md, KnownIssuesHeading, notes.knownIssues, Bullet, "\n");
    md := AppendSection(md, ContributorsHeading, notes.contributors, Bullet, "");
  }

  class Generator {
    var notes: map<string, Notes>

    /** Every set of notes is stored under its own version and is
        consistent. */
    predicate Valid()
      reads this
    {
      forall v | v in notes :: notes[v].version == v && Consistent(notes[v])
    }

    constructor ()
      ensures Valid() && notes == map[]
    {
      notes := map[];
    }

    /** `create_notes`: new notes under the version, replacing any notes
        already there. The source hands back a `&mut` into that map entry;
        the model hands back a copy, and updates reach the stored notes
        through the by-version methods below. */
    method CreateNotes(version: string) returns (created: Notes)
      modifies this
      ensures created == NewNotes(version)
      ensures notes == old(notes)[version := created]
      ensures old(Valid()) ==> Valid()
    {
      created := NewNotes(version);
      notes := notes[version := created];
    }

    /** `get_notes`. */
    function GetNotes(version: string): (r: Option<Notes>)
      reads this
      ensures r.Some? <==> version in notes
      ensures r.Some? ==> r.value == notes[version]
    {
      if version in notes then Some(notes[version]) else None
    }

    /** `add_change` through the reference to the notes stored under the
        version; nothing changes for an unknown version. */
    method AddChangeTo(version: string, change: ChangeEntry)
      modifies this
      ensures version !in old(notes) ==> notes == old(notes)
      ensures version in old(notes) ==> notes == old(notes)[version := AddChange(old(notes)[version], change)]
      ensures old(Valid()) ==> Valid()
    {
      if version in notes {
        notes := notes[version := AddChange(notes[version], change)];
      }
    }

    /** `add_known_issue` through the reference to the notes stored under the
        version; nothing changes for an unknown version. */
    method AddKnownIssueTo(version: string, issue: string)
      modifies this
      ensures version !in old(notes) ==> notes == old(notes)
      ensures version in old(notes) ==> notes == old(notes)[version := AddKnownIssue(old(notes)[version], issue)]
      ensures old(Valid()) ==> Valid()
    {
      if version in notes {
        notes := notes[version := AddKnownIssue(notes[version], issue)];
      }
    }

    /** `add_contributor` through the reference to the notes stored under the
        version; nothing changes for an unknown version. */
    method AddContributorTo(version: string, contributor: string)
      modifies this
      ensures version !in old(notes) ==> notes == old(notes)
      ensures version in old(notes) ==> notes == old(notes)[version := AddContributor(old(notes)[version], contributor)]
      ensures old(Valid()) ==> Valid()
    {
      if version in notes {
        notes := notes[version := AddContributor(notes[version], contributor)];
      }
    }

    /** `set_summary` through the reference to the notes stored under the
        version; nothing changes for an unknown version. */
    method SetSummaryOf(version: string, summary: string)
      modifies this
      ensures version !in old(notes) ==> notes == old(notes)
      ensures version in old(notes) ==> notes == old(notes)[version := SetSummary(old(notes)[version], summary)]
      ensures old(Valid()) ==> Valid()
    {
      if version in notes {
        notes := notes[version := SetSummary(notes[version], summary)];
      }
    }

    /** `get_all_notes`: every set of notes once. */
    method GetAllNotes() returns (all: seq<Notes>)
      ensures |all| == |notes|
      ensures forall n :: n in all <==> n in notes.Values
    {
      all := [];
      var todo := notes.Keys;
      while todo != {}
        invariant todo <= notes.Keys
        invariant |all| + |todo| == |notes|
        invariant forall n :: n in all ==> n in notes.Values
        invariant forall v | v in notes.Keys - todo :: notes[v] in all
        decreases |todo|
      {
        var v :| v in todo;
        all := all + [notes[v]];
        todo := todo - {v};
      }
      forall n | n in notes.Values
        ensures n in all
      {
        var v :| v in notes && notes[v] == n;
      }
    }
  }

  // ---------------------------------------------------------------------
  // The unit tests of the module, as scenarios.

  function Change(t: ChangeType, title: string, prNumber: Option<nat>): ChangeEntry
  {
    ChangeEntry("change-1", t, title, "description", "dev", prNumber)
  }

  /** A feature counts as one feature and is no breaking change; a
      breaking change is listed once. */
  lemma AddChangeScenario()
    ensures FeatureCount(AddChange(NewNotes("1.0.0"), Change(Feature, "Add new feature", Some(123)))) == 1
    ensures AddChange(NewNotes("1.0.0"), Change(Feature, "Add new feature", Some(123))).breakingChanges == []
    ensures |AddChange(NewNotes("1.0.0"), Change(Breaking, "API change", None)).breakingChanges| == 1
  {
    AddChangeCounts(NewNotes("1.0.0"), Change(Feature, "Add new feature", Some(123)));
  }

  /** The rendering of notes with a summary contains "# Release 1.0.0". */
  method MarkdownScenario() returns (md: string)
    ensures Contains(md, "# Release 1.0.0")
  {
    var notes := SetSummary(NewNotes("1.0.0"), "Initial release");
    md := GenerateMarkdown(notes);
    MarkdownStartsWithTitle(notes);
    assert StartsWith(md, "# Release 1.0.0");
  }

  /** One set of notes created and a repeated contributor listed once. */
  method GeneratorScenario() returns (all: nat, contributors: nat)
    ensures all == 1 && contributors == 1
  {
    var generator := new Generator();
    var created := generator.CreateNotes("1.0.0");
    var notes := generator.GetAllNotes();
    all := |notes|;
    contributors := |AddContributor(AddContributor(created, "dev"), "dev").contributors|;
  }

  /** The notes half of the two release workflows: a feature, a summary
      and a contributor given through the reference to the notes created
      for the release are all stored in them. */
  method WorkflowScenario() returns (features: nat, summary: string, contributors: seq<string>)
    ensures features == 1 && summary == "Production-ready release" && contributors == ["Rivers Engineering"]
  {
    var generator := new Generator();
    var _ := generator.CreateNotes("1.0.0-rivers");
    generator.AddChangeTo("1.0.0-rivers", Change(Feature, "Complete Phase 7 implementation", None));
    generator.SetSummaryOf("1.0.0-rivers", "Production-ready release");
    generator.AddContributorTo("1.0.0-rivers", "Rivers Engineering");
    var stored := generator.notes["1.0.0-rivers"];
    AddChangeCounts(NewNotes("1.0.0-rivers"), Change(Feature, "Complete Phase 7 implementation", None));
    features, summary, contributors := FeatureCount(stored), stored.summary, stored.contributors;
  }
}
