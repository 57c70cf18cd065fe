// The GPL-3.0 compliance checker of crates/core/src/gpl_checker.rs: which
// files carry the project's license header, what year and author the
// header names, which licenses may be combined with GPL-3.0, and the
// violations a list of headers or of dependencies gives.

module GplChecker {
  import opened Wrappers
  import opened Seqs
  import opened Text
  import opened LegalScan

  /** The SPDX expression the project's headers are meant to carry. */
  const RequiredHeader: string := "GPL-3.0-or-later WITH Classpath-exception-2.0"

  /** The compatibility table `initialize_compatibility` fills. */
  const CompatibilityTable: map<string, bool> :=
    map["GPL-3.0" := true, "GPL-2.0" := false, "MIT" := true,
        "Apache-2.0" := true, "BSD" := true, "Proprietary" := false]

  /** `get(license).copied().unwrap_or(false)`: a license missing from the
      table is incompatible. */
  predicate IsCompatible(table: map<string, bool>, license: string)
  {
    license in table && table[license]
  }

  /** Exactly GPL-3.0, MIT, Apache-2.0 and BSD are compatible; GPL-2.0,
      Proprietary and every license the table does not list are not. */
  lemma CompatibleLicenses(license: string)
    ensures IsCompatible(CompatibilityTable, license) <==>
      license == "GPL-3.0" || license == "MIT" || license == "Apache-2.0" || license == "BSD"
  {
  }

  // ---------------------------------------------------------------------
  // Reading the header: year and author from the first 20 lines.

  /** How many lines of a file the header readers look at. */
  const HeaderWindow: nat := 20

  /** `content.lines().take(20)`. */
  function HeaderLines(content: string): (r: seq<string>)
    ensures |r| <= HeaderWindow && |r| <= |Lines(content)|
    ensures r == Lines(content)[..|r|]
    ensures |r| < HeaderWindow ==> r == Lines(content)
  {
    var ls := Lines(content);
    if |ls| <= HeaderWindow then ls else ls[..HeaderWindow]
  }

  predicate IsYearWord(w: string)
  {
    StartsWith(w, "202")
  }

  /** Some whitespace-separated word of the line starts with "202". */
  predicate HasYearWord(line: string)
  {
    FirstIndex(Words(line), IsYearWord).Some?
  }

  /** A line with a year word contains "202", so the `contains("202")`
      guard before the word search never hides a year. */
  lemma YearWordIsContained(line: string)
    ensures HasYearWord(line) ==> Contains(line, "202")
  {
    if HasYearWord(line) {
      var j := FirstIndex(Words(line), IsYearWord).value;
      WordsContained(line, j);
      ContainsPrefix(line, Words(line)[j], "202");
    }
  }

  /** What `extract_year` returns: the first word starting with "202" of
      the first of the first 20 lines that has one. */
  function YearOf(content: string): (y: Option<string>)
    ensures y.Some? <==> exists i | 0 <= i < |HeaderLines(content)| :: HasYearWord(HeaderLines(content)[i])
    ensures y.Some? ==> IsYearWord(y.value)
    ensures y.Some? ==>
      var ls := HeaderLines(content);
      exists i, j | 0 <= i < |ls| && 0 <= j < |Words(ls[i])| ::
        y.value == Words(ls[i])[j] &&
        (forall k | 0 <= k < i :: !HasYearWord(ls[k])) &&
        (forall m | 0 <= m < j :: !IsYearWord(Words(ls[i])[m]))
  {
    var ls := HeaderLines(content);
    match FirstIndex(ls, HasYearWord)
    case None => Option.None
    case Some(i) =>
      var j := FirstIndex(Words(ls[i]), IsYearWord).value;
      Some(Words(ls[i])[j])
  }

  predicate MentionsAuthor(line: string)
  {
    Contains(line, "Author") || Contains(line, "author")
  }

  /** A line `extract_author` takes its value from. */
  predicate HasAuthorField(line: string)
  {
    MentionsAuthor(line) && ':' in line
  }

  /** The text between the first and the second ':' of a line (up to its
      end if there is only one). */
  function FieldAfterColon(line: string): string
    requires ':' in line
  {
    var rest := line[FindChar(line, ':') + 1..];
    rest[..FindChar(rest, ':')]
  }

  /** A line with a ':' splits into more than one piece, the second being
      the field after the colon. */
  lemma SecondPieceIsField(line: string)
    requires ':' in line
    ensures |SplitOn(line, ':')| > 1 && SplitOn(line, ':')[1] == FieldAfterColon(line)
  {
    SplitOnPieces(line, ':');
  }

  /** What `extract_author` returns: the trimmed text after the first ':'
      (up to the next one) of the first of the first 20 lines that mentions
      "Author" or "author" and has a ':'. */
  function AuthorOf(content: string): (a: Option<string>)
    ensures a.Some? <==> exists i | 0 <= i < |HeaderLines(content)| :: HasAuthorField(HeaderLines(content)[i])
    ensures a.Some? ==>
      var ls := HeaderLines(content);
      exists i | 0 <= i < |ls| ::
        HasAuthorField(ls[i]) && (forall k | 0 <= k < i :: !HasAuthorField(ls[k])) &&
        a.value == Trim(FieldAfterColon(ls[i]))
  {
    var ls := HeaderLines(content);
    match FirstIndex(ls, HasAuthorField)
    case None => Option.None
    case Some(i) =>
      SecondPieceIsField(ls[i]);
      Some(Trim(SplitOn(ls[i], ':')[1]))
  }

  // ---------------------------------------------------------------------
  // Violations.

  /** `format!("{:?}", license_type)`. */
  function LicenseTypeName(t: LicenseType): string
  {
    match t
    case GPL3 => "GPL3"
    case MIT => "MIT"
    case Apache2 => "Apache2"
    case BSD => "BSD"
    case Proprietary => "Proprietary"
    case Unknown => "Unknown"
  }

  predicate LacksHeader(f: LicenseHeader)
  {
    !f.hasHeader
  }

  /** A file typed with a license other than GPL-3.0 (Unknown is not
      counted). */
  predicate HasForeignLicense(f: LicenseHeader)
  {
    f.licenseType != GPL3 && f.licenseType != Unknown
  }

  function MissingHeaderViolation(f: LicenseHeader): GplViolation
  {
    GplViolation(f.filePath, "Missing GPL header", "File does not contain GPL-3.0 license header", Medium)
  }

  function ForeignLicenseViolation(f: LicenseHeader): GplViolation
  {
    GplViolation(f.filePath, "Incompatible license",
      "File has " + LicenseTypeName(f.licenseType) + " license, expected GPL-3.0", High)
  }

  /** The violations one file gives, in the order they are pushed. */
  function FileViolations(f: LicenseHeader): seq<GplViolation>
  {
    (if LacksHeader(f) then [MissingHeaderViolation(f)] else []) +
    (if HasForeignLicense(f) then [ForeignLicenseViolation(f)] else [])
  }

  /** What `check_for_violations` returns: the violations of each file in
      file order, one per header-less file and one per foreign license. */
  function ViolationsOf(files: seq<LicenseHeader>): (r: seq<GplViolation>)
    ensures |r| == |Filter(files, LacksHeader)| + |Filter(files, HasForeignLicense)|
    decreases |files|
  {
    if files == [] then []
    else ViolationsOf(files[..|files| - 1]) + FileViolations(files[|files| - 1])
  }

  /** The file checks report Medium and High violations only, never
      Critical ones. */
  lemma {:induction false} ViolationSeverities(files: seq<LicenseHeader>)
    ensures forall i | 0 <= i < |ViolationsOf(files)| :: ViolationsOf(files)[i].severity == Medium || ViolationsOf(files)[i].severity == High
    decreases |files|
  {
    if files != [] {
      var front := files[..|files| - 1];
      ViolationSeverities(front);
      var r := ViolationsOf(files);
      forall i | 0 <= i < |r|
        ensures r[i].severity == Medium || r[i].severity == High
      {
        if i >= |ViolationsOf(front)| {
          assert r[i] in FileViolations(files[|files| - 1]);
        }
      }
    }
  }

  /** Every header-less file has its Medium violation and every foreign
      license its High one, and nothing else is reported. */
  lemma {:induction false} ViolationsMembers(files: seq<LicenseHeader>, v: GplViolation)
    ensures v in ViolationsOf(files) <==>
      exists f | f in files :: (LacksHeader(f) && v == MissingHeaderViolation(f)) ||
                               (HasForeignLicense(f) && v == ForeignLicenseViolation(f))
    decreases |files|
  {
    if files != [] {
      var front := files[..|files| - 1];
      var f := files[|files| - 1];
      assert files == front + [f];
      ViolationsMembers(front, v);
      assert ViolationsOf(files) == ViolationsOf(front) + FileViolations(f);
    }
  }

  /** Headers that name no license but GPL-3.0 or none, as
      `check_license_header` makes them, give only Medium violations, one
      per header-less file: the "Incompatible license" branch is never
      taken for them. */
  lemma {:induction false} CheckedHeadersGiveOnlyMissing(files: seq<LicenseHeader>)
    requires forall i | 0 <= i < |files| :: files[i].licenseType == GPL3 || files[i].licenseType == Unknown
    ensures |ViolationsOf(files)| == |Filter(files, LacksHeader)|
    ensures forall i | 0 <= i < |ViolationsOf(files)| :: ViolationsOf(files)[i].severity == Medium
    decreases |files|
  {
    FilterNone(files, HasForeignLicense);
    if files != [] {
      CheckedHeadersGiveOnlyMissing(files[..|files| - 1]);
    }
  }

  /** The violation `check_dependency_licenses` records for one
      dependency, given as (name, license). */
  function DependencyViolation(dep: (string, string)): GplViolation
  {
    GplViolation("Cargo.toml (" + dep.0 + ")", "Incompatible dependency license",
      "Dependency " + dep.0 + " has incompatible license: " + dep.1, High)
  }

  function IncompatibleWith(table: map<string, bool>): ((string, string)) -> bool
  {
    (dep: (string, string)) => !IsCompatible(table, dep.1)
  }

  /** What `check_dependency_licenses` returns: one High violation per
      dependency whose license the table does not accept, in input order. */
  function DependencyViolations(table: map<string, bool>, deps: seq<(string, string)>): (r: seq<GplViolation>)
    ensures |r| == |Filter(deps, IncompatibleWith(table))|
    ensures forall i | 0 <= i < |r| :: r[i] == DependencyViolation(Filter(deps, IncompatibleWith(table))[i])
    ensures forall i | 0 <= i < |r| :: r[i].severity == High
    decreases |deps|
  {
    if deps == [] then []
    else
      var d := deps[|deps| - 1];
      DependencyViolations(table, deps[..|deps| - 1]) +
      (if IsCompatible(table, d.1) then [] else [DependencyViolation(d)])
  }

  class GplChecker {
    var requiredHeader: string
    var knownViolations: seq<GplViolation>
    var licenseCompatibility: map<string, bool>

    predicate Valid()
      reads this
    {
      licenseCompatibility == CompatibilityTable
    }

    /** `new` followed by `initialize_compatibility`. */
    constructor ()
      ensures Valid()
      ensures requiredHeader == RequiredHeader && knownViolations == []
    {
      requiredHeader := RequiredHeader;
      knownViolations := [];
      var table: map<string, bool> := map[];
      table := table["GPL-3.0" := true];
      table := table["GPL-2.0" := false];
      table := table["MIT" := true];
      table := table["Apache-2.0" := true];
      table := table["BSD" := true];
      table := table["Proprietary" := false];
      licenseCompatibility := table;
    }

    /** `check_license_compatibility`. */
    function CheckLicenseCompatibility(license: string): (c: bool)
      reads this
      requires Valid()
      ensures c <==> license == "GPL-3.0" || license == "MIT" || license == "Apache-2.0" || license == "BSD"
    {
      CompatibleLicenses(license);
      IsCompatible(licenseCompatibility, license)
    }

    /** `check_license_header`: a file has a header iff it mentions
        "GPL-3" (the "GPL-3.0" test is subsumed), and is then typed GPL3,
        otherwise Unknown. */
    function CheckLicenseHeader(filePath: string, content: string): (h: LicenseHeader)
      ensures h.filePath == filePath
      ensures h.hasHeader <==> Contains(content, "GPL-3")
      ensures h.licenseType == (if h.hasHeader then GPL3 else Unknown)
      ensures h.year == YearOf(content) && h.author == AuthorOf(content)
    {
      var hasHeader := Contains(content, "GPL-3.0") || Contains(content, "GPL-3");
      assert Contains(content, "GPL-3.0") ==> Contains(content, "GPL-3") by {
        if Contains(content, "GPL-3.0") {
          ContainsPrefix(content, "GPL-3.0", "GPL-3");
        }
      }
      LicenseHeader(filePath, hasHeader, if hasHeader then GPL3 else Unknown,
        YearOf(content), AuthorOf(content))
    }

    /** `extract_year`: scans the first 20 lines, and on a line containing
        "202" the words, returning at the first word starting with "202". */
    method ExtractYear(content: string) returns (year: Option<string>)
      ensures year == YearOf(content)
    {
      var lines := HeaderLines(content);
      var i := 0;
      while i < |lines|
        invariant 0 <= i <= |lines|
        invariant forall k | 0 <= k < i :: !HasYearWord(lines[k])
      {
        var line := lines[i];
        YearWordIsContained(line);
        if Contains(line, "202") {
          var words := Words(line);
          var j := 0;
          while j < |words|
            invariant 0 <= j <= |words|
            invariant forall m | 0 <= m < j :: !IsYearWord(words[m])
          {
            if StartsWith(words[j], "202") {
              FirstIndexAt(words, IsYearWord, j);
              FirstIndexAt(lines, HasYearWord, i);
              return Some(words[j]);
            }
            j := j + 1;
          }
        }
        i := i + 1;
      }
      return Option.None;
    }

    /** `extract_author`: the first of the first 20 lines that mentions
        Author/author and splits on ':' into more than one piece gives its
        trimmed second piece. */
    method ExtractAuthor(content: string) returns (author: Option<string>)
      ensures author == AuthorOf(content)
    {
      var lines := HeaderLines(content);
      var i := 0;
      while i < |lines|
        invariant 0 <= i <= |lines|
        invariant forall k | 0 <= k < i :: !HasAuthorField(lines[k])
      {
        var line := lines[i];
        SplitOnPieces(line, ':');
        if Contains(line, "Author") || Contains(line, "author") {
          var parts := SplitOn(line, ':');
          if |parts| > 1 {
            FirstIndexAt(lines, HasAuthorField, i);
            return Some(Trim(parts[1]));
          }
        }
        i := i + 1;
      }
      return Option.None;
    }

    /** `verify_all_files_have_headers`: (files with a header, all files);
        the files without a header make up the difference, every file has
        one exactly when the two agree, and none exactly when the first
        is 0. */
    function VerifyAllFilesHaveHeaders(files: seq<LicenseHeader>): (r: (nat, nat))
      ensures r.0 == |Filter(files, HasHeader)| && r.1 == |files|
      ensures r.0 + |Filter(files, Not(HasHeader))| == r.1
      ensures r.0 == r.1 <==> forall i | 0 <= i < |files| :: files[i].hasHeader
      ensures r.0 == 0 <==> forall i | 0 <= i < |files| :: !files[i].hasHeader
    {
      FilterKeepsAll(files, HasHeader);
      FilterPartition(files, HasHeader);
      (|Filter(files, HasHeader)|, |files|)
    }

    /** `check_for_violations`. */
    method CheckForViolations(files: seq<LicenseHeader>) returns (violations: seq<GplViolation>)
      ensures violations == ViolationsOf(files)
    {
      violations := [];
      for i := 0 to |files|
        invariant violations == ViolationsOf(files[..i])
      {
        var file := files[i];
        assert files[..i + 1][..i] == files[..i];
        ghost var expected := ViolationsOf(files[..i]) + FileViolations(file);
        assert ViolationsOf(files[..i + 1]) == expected;
        if !file.hasHeader {
          violations := violations + [MissingHeaderViolation(file)];
        }
        if file.licenseType != GPL3 && file.licenseType != Unknown {
          violations := violations + [ForeignLicenseViolation(file)];
        }
      }
      assert files[..|files|] == files;
    }

    /** `check_dependency_licenses`. */
    method CheckDependencyLicenses(deps: seq<(string, string)>) returns (violations: seq<GplViolation>)
      requires Valid()
      ensures violations == DependencyViolations(CompatibilityTable, deps)
    {
      violations := [];
      for i := 0 to |deps|
        invariant violations == DependencyViolations(CompatibilityTable, deps[..i])
      {
        var (name, license) := deps[i];
        assert deps[..i + 1][..i] == deps[..i];
        if !CheckLicenseCompatibility(license) {
          CompatibleLicenses(license);
          violations := violations + [DependencyViolation((name, license))];
        } else {
          CompatibleLicenses(license);
        }
      }
      assert deps[..|deps|] == deps;
    }
  }

  predicate HasHeader(f: LicenseHeader)
  {
    f.hasHeader
  }

  // ---------------------------------------------------------------------
  // The unit tests of the module, as scenarios.

  /** The header text of the unit test mentions "GPL-3". */
  lemma Gpl3HeaderText(content: string)
    requires content == "// GPL-3.0 License\n// Copyright 2025"
    ensures Contains(content, "GPL-3")
  {
    ContainsByChars(content, "GPL-3", 3);
  }

  /** A header naming GPL-3.0 is recognised and typed GPL3. */
  method HeaderScenario(content: string) returns (h: LicenseHeader)
    requires content == "// GPL-3.0 License\n// Copyright 2025"
    ensures h.hasHeader && h.licenseType == GPL3
  {
    var checker := new GplChecker();
    Gpl3HeaderText(content);
    h := checker.CheckLicenseHeader("test.rs", content);
  }

  /** One file of two has a header. */
  method VerifyHeadersScenario() returns (counted: (nat, nat))
    ensures counted == (1, 2)
  {
    var checker := new GplChecker();
    var f1 := LicenseHeader("file1.rs", true, GPL3, Some("2025"), Option.None);
    var f2 := LicenseHeader("file2.rs", false, Unknown, Option.None, Option.None);
    FilterPair(f1, f2, HasHeader);
    counted := checker.VerifyAllFilesHaveHeaders([f1, f2]);
  }

  /** A single header-less Unknown file gives one violation. */
  method CheckViolationsScenario() returns (violations: nat)
    ensures violations == 1
  {
    var checker := new GplChecker();
    var test := LicenseHeader("test.rs", false, Unknown, Option.None, Option.None);
    var vs := checker.CheckForViolations([test]);
    assert [test][..0] == [];
    violations := |vs|;
  }

  /** Of serde (MIT) and proprietary-lib (Proprietary) only the second is
      reported. */
  method DependencyLicensesScenario() returns (depViolations: nat)
    ensures depViolations == 1
  {
    var checker := new GplChecker();
    var serde := ("serde", "MIT");
    var lib := ("proprietary-lib", "Proprietary");
    var ds := checker.CheckDependencyLicenses([serde, lib]);
    CompatibleLicenses(serde.1);
    CompatibleLicenses(lib.1);
    FilterPair(serde, lib, IncompatibleWith(CompatibilityTable));
    depViolations := |ds|;
  }
}
