// The releases of crates/core/src/release_manager.rs: version strings split
// into numbers and suffixes, releases with artifacts that are drafts until
// published, and a manager that keeps releases by version.

module ReleaseManager {
  import opened Wrappers
  import opened Seqs
  import opened Text

  datatype ReleaseVersion = ReleaseVersion(
    version: string, major: nat, minor: nat, patch: nat,
    prerelease: Option<string>, buildMetadata: Option<string>)

  datatype ArtifactType = Binary | Library | Documentation | SourceCode | Sbom | ReleaseNotes | Changelog

  datatype ReleaseArtifact = ReleaseArtifact(
    artifactId: string, artifactType: ArtifactType, filePath: string, fileSize: nat,
    checksum: string, checksumAlgorithm: string)

  datatype Release = Release(
    releaseId: string, version: ReleaseVersion, releaseDate: string, artifacts: seq<ReleaseArtifact>,
    releaseNotes: string, changelog: string, isDraft: bool, isPrerelease: bool, downloadCount: nat)

  const ReleaseDate: string := "2025-11-21T00:00:00Z"

  /** Field k of the dot-separated core, as a `u32`; 0 when the field is
      missing, not a number or too large. */
  function NumberAt(base: seq<string>, k: nat): (n: nat)
    ensures n < U32Limit
    ensures k >= |base| ==> n == 0
  {
    if k < |base| then
      match ParseU32(base[k])
      case Some(v) => v
      case None => 0
    else 0
  }

  /** `ReleaseVersion::new`: the text before the first '-' is split on '.'
      and its first three fields are the numbers; the second '-' piece is
      the prerelease and the third the build metadata. */
  function ParseVersion(version: string): (v: ReleaseVersion)
    ensures v.version == version
    ensures v.major < U32Limit && v.minor < U32Limit && v.patch < U32Limit
    ensures v.prerelease.Some? <==> '-' in version
    ensures v.buildMetadata.Some? ==> v.prerelease.Some?
  {
    var parts := SplitOn(version, '-');
    var base := SplitOn(parts[0], '.');
    SplitOnPieces(version, '-');
    ReleaseVersion(version, NumberAt(base, 0), NumberAt(base, 1), NumberAt(base, 2),
                   if |parts| > 1 then Some(parts[1]) else None,
                   if |parts| > 2 then Some(parts[2]) else None)
  }

  /** `is_prerelease`. */
  predicate IsPrerelease(v: ReleaseVersion)
  {
    v.prerelease.Some?
  }

  /** `is_stable`: the opposite of `is_prerelease`. */
  predicate IsStable(v: ReleaseVersion)
  {
    !IsPrerelease(v)
  }

  /** A parsed version is stable exactly when its text has no '-'. */
  lemma StableIffNoDash(version: string)
    ensures IsStable(ParseVersion(version)) <==> '-' !in version
  {
  }

  /** `get_semver`: "major.minor.patch" in decimal. */
  function Semver(v: ReleaseVersion): string
  {
    JoinWith([NatToString(v.major), NatToString(v.minor), NatToString(v.patch)], '.')
  }

  /** The version whose text is the pieces joined by '-', the first of
      which is the dot-joined base. */
  lemma ParseOfPieces(version: string, parts: seq<string>, base: seq<string>)
    requires |parts| >= 1 && |base| >= 1
    requires forall k | 0 <= k < |parts| :: '-' !in parts[k]
    requires forall k | 0 <= k < |base| :: '.' !in base[k]
    requires parts[0] == JoinWith(base, '.') && version == JoinWith(parts, '-')
    ensures var v := ParseVersion(version);
      v.major == NumberAt(base, 0) && v.minor == NumberAt(base, 1) && v.patch == NumberAt(base, 2) &&
      v.prerelease == (if |parts| > 1 then Some(parts[1]) else None) &&
      v.buildMetadata == (if |parts| > 2 then Some(parts[2]) else None)
  {
    SplitJoin(parts, '-');
    SplitJoin(base, '.');
  }

  /** A numeral has neither '-' nor '.'. */
  lemma NumeralHasNoSeparators(n: nat)
    ensures '-' !in NatToString(n) && '.' !in NatToString(n)
  {
    var s := NatToString(n);
    assert forall k | 0 <= k < |s| :: IsDigit(s[k]);
  }

  /** Rendering the numbers and parsing them back gives the same numbers,
      and a stable version. */
  lemma SemverRoundTrip(major: nat, minor: nat, patch: nat)
    requires major < U32Limit && minor < U32Limit && patch < U32Limit
    ensures var v := ParseVersion(Semver(ReleaseVersion("", major, minor, patch, None, None)));
      v.major == major && v.minor == minor && v.patch == patch && IsStable(v)
  {
    var base := [NatToString(major), NatToString(minor), NatToString(patch)];
    NumeralHasNoSeparators(major);
    NumeralHasNoSeparators(minor);
    NumeralHasNoSeparators(patch);
    var s := JoinWith(base, '.');
    JoinAvoids(base, '.', '-');
    ParseOfPieces(s, [s], base);
    ParseNatToString(major);
    ParseNatToString(minor);
    ParseNatToString(patch);
  }

  /** The numerals the scenarios below use. */
  lemma SmallNumerals()
    ensures ParseU32("0") == Some(0) && ParseU32("1") == Some(1) && ParseU32("2") == Some(2)
  {
    assert DigitsValue("0") == 0 && DigitsValue("1") == 1 && DigitsValue("2") == 2;
  }

  /** "3+b" is no number. */
  lemma PlusIsNoNumber()
    ensures ParseU32("3+b") == None
  {
    assert !IsDigit("3+b"[1]);
  }

  /** "1.0.0" is 1.0.0 and stable. */
  lemma StableScenario(version: string)
    requires version == "1.0.0"
    ensures var v := ParseVersion(version);
      v.major == 1 && v.minor == 0 && v.patch == 0 && IsStable(v) && v.buildMetadata == None
  {
    ParseOfPieces(version, ["1.0.0"], ["1", "0", "0"]);
    SmallNumerals();
  }

  /** "1.0.0-rc.1" is a prerelease "rc.1" of 1.0.0. */
  lemma PrereleaseScenario(version: string)
    requires version == "1.0.0-rc.1"
    ensures var v := ParseVersion(version);
      v.major == 1 && v.minor == 0 && v.patch == 0 && v.prerelease == Some("rc.1") && v.buildMetadata == None
  {
    ParseOfPieces(version, ["1.0.0", "rc.1"], ["1", "0", "0"]);
    SmallNumerals();
  }

  /** Unlike SemVer 2.0.0 (section 9), a '-' inside the prerelease splits
      it: "1.0.0-rc-1" has prerelease "rc" and build metadata "1". */
  lemma DashInPrereleaseScenario(version: string)
    requires version == "1.0.0-rc-1"
    ensures var v := ParseVersion(version);
      v.prerelease == Some("rc") && v.buildMetadata == Some("1")
  {
    ParseOfPieces(version, ["1.0.0", "rc", "1"], ["1", "0", "0"]);
  }

  /** Unlike SemVer 2.0.0 (section 10), '+' does not start build metadata:
      "1.2.3+b" keeps "3+b" as its third field, which is no number, so the
      patch is 0 and there is no build metadata. */
  lemma PlusBuildScenario(version: string)
    requires version == "1.2.3+b"
    ensures var v := ParseVersion(version);
      v.major == 1 && v.minor == 2 && v.patch == 0 && v.buildMetadata == None
  {
    ParseOfPieces(version, ["1.2.3+b"], ["1", "2", "3+b"]);
    SmallNumerals();
    PlusIsNoNumber();
  }

  function Size(a: ReleaseArtifact): nat
  {
    a.fileSize
  }

  function OfType(t: ArtifactType): ReleaseArtifact -> bool
  {
    (a: ReleaseArtifact) => a.artifactType == t
  }

  /** `Release::new`: a draft that is not a prerelease, whatever its
      version, with no artifacts and no downloads. */
  function NewRelease(version: string): (r: Release)
    ensures r.releaseId == "release-" + version && r.version == ParseVersion(version)
    ensures r.isDraft && !r.isPrerelease && r.artifacts == [] && r.downloadCount == 0
    ensures r.releaseNotes == "" && r.changelog == "" && r.releaseDate == ReleaseDate
  {
    Release("release-" + version, ParseVersion(version), ReleaseDate, [], "", "", true, false, 0)
  }

  /** `get_total_size`: the sum of the artifact sizes. */
  function TotalSize(r: Release): nat
  {
    SumOf(r.artifacts, Size)
  }

  /** `add_artifact`: appends the artifact, which adds its size to the
      total. */
  function AddArtifact(r: Release, a: ReleaseArtifact): (r': Release)
    ensures r'.artifacts == r.artifacts + [a]
    ensures TotalSize(r') == TotalSize(r) + a.fileSize
    ensures r' == r.(artifacts := r'.artifacts)
  {
    SumOfSnoc(r.artifacts, a, Size);
    r.(artifacts := r.artifacts + [a])
  }

  /** `set_release_notes`: only the notes change. */
  function SetReleaseNotes(r: Release, notes: string): (r': Release)
    ensures r'.releaseNotes == notes && r' == r.(releaseNotes := r'.releaseNotes)
  {
    r.(releaseNotes := notes)
  }

  /** `set_changelog`: only the changelog changes. */
  function SetChangelog(r: Release, changelog: string): (r': Release)
    ensures r'.changelog == changelog && r' == r.(changelog := r'.changelog)
  {
    r.(changelog := changelog)
  }

  /** `publish`: no longer a draft, and a prerelease exactly when the
      version is; nothing else changes. */
  function Publish(r: Release): (r': Release)
    ensures r.version == ParseVersion(r.version.version) ==> (r'.isPrerelease <==> '-' in r.version.version)
    ensures !r'.isDraft && r'.isPrerelease == IsPrerelease(r.version)
    ensures r' == r.(isDraft := false, isPrerelease := r'.isPrerelease)
  {
    r.(isDraft := false, isPrerelease := IsPrerelease(r.version))
  }

  /** Publishing twice is publishing once. */
  lemma PublishIdempotent(r: Release)
    ensures Publish(Publish(r)) == Publish(r)
  {
  }

  /** `get_artifacts_by_type`: the artifacts of that type, in order. */
  function ArtifactsByType(r: Release, t: ArtifactType): (s: seq<ReleaseArtifact>)
    ensures forall a :: a in s <==> a in r.artifacts && a.artifactType == t
  {
    FilterMembersAll(r.artifacts, OfType(t));
    Filter(r.artifacts, OfType(t))
  }

  /** (major, minor, patch) of a is at most that of b, lexicographically:
      the key `get_latest_release` maximises. */
  predicate NumbersLe(a: ReleaseVersion, b: ReleaseVersion)
  {
    a.major < b.major || (a.major == b.major && (a.minor < b.minor || (a.minor == b.minor && a.patch <= b.patch)))
  }

  function VersionOf(r: Release): string
  {
    r.version.version
  }

  class Manager {
    var releases: map<string, Release>

    /** Every release is stored under its version text. */
    predicate Valid()
      reads this
    {
      forall v | v in releases :: releases[v].version.version == v
    }

    constructor ()
      ensures Valid() && releases == map[]
    {
      releases := map[];
    }

    /** `create_release`: a new release under the version, replacing any
        release there. The source hands back a `&mut` into the map entry
        that `values_mut().last()` meets, which need not be the new one;
        the model hands back that entry's key, through which the by-key
        updates below reach the stored release, and a copy of its value. */
    method CreateRelease(version: string) returns (r: Release, key: string)
      modifies this
      ensures releases == old(releases)[version := NewRelease(version)]
      ensures key in releases && r == releases[key]
      ensures old(Valid()) ==> Valid()
    {
      releases := releases[version := NewRelease(version)];
      assert version in releases;
      key :| key in releases;
      r := releases[key];
    }

    /** `add_artifact` through the reference to the release stored under
        the key; nothing changes for an unknown key. */
    method AddArtifactTo(key: string, artifact: ReleaseArtifact)
      modifies this
      ensures key !in old(releases) ==> releases == old(releases)
      ensures key in old(releases) ==> releases == old(releases)[key := AddArtifact(old(releases)[key], artifact)]
      ensures old(Valid()) ==> Valid()
    {
      if key in releases {
        releases := releases[key := AddArtifact(releases[key], artifact)];
      }
    }

    /** `set_release_notes` through the reference to the release stored
        under the key; nothing changes for an unknown key. */
    method SetReleaseNotesOf(key: string, notes: string)
      modifies this
      ensures key !in old(releases) ==> releases == old(releases)
      ensures key in old(releases) ==> releases == old(releases)[key := SetReleaseNotes(old(releases)[key], notes)]
      ensures old(Valid()) ==> Valid()
    {
      if key in releases {
        releases := releases[key := SetReleaseNotes(releases[key], notes)];
      }
    }

    /** `set_changelog` through the reference to the release stored under
        the key; nothing changes for an unknown key. */
    method SetChangelogOf(key: string, changelog: string)
      modifies this
      ensures key !in old(releases) ==> releases == old(releases)
      ensures key in old(releases) ==> releases == old(releases)[key := SetChangelog(old(releases)[key], changelog)]
      ensures old(Valid()) ==> Valid()
    {
      if key in releases {
        releases := releases[key := SetChangelog(releases[key], changelog)];
      }
    }

    /** `get_release`. */
    function GetRelease(version: string): (r: Option<Release>)
      reads this
      ensures r.Some? <==> version in releases
      ensures r.Some? ==> r.value == releases[version]
    {
      if version in releases then Some(releases[version]) else None
    }

    /** `publish_release`: publishes an existing release; false and no
        change for an unknown version. */
    method PublishRelease(version: string) returns (found: bool)
      modifies this
      ensures found <==> version in old(releases)
      ensures !found ==> releases == old(releases)
      ensures found ==> releases == old(releases)[version := Publish(old(releases)[version])]
      ensures old(Valid()) ==> Valid()
    {
      if version in releases {
        releases := releases[version := Publish(releases[version])];
        found := true;
      } else {
        found := false;
      }
    }

    /** `get_latest_release`: a release with the largest (major, minor,
        patch), ties going to the one met last; None without releases. */
    method GetLatestRelease() returns (latest: Option<Release>)
      ensures latest.None? <==> releases == map[]
      ensures latest.Some? ==> latest.value in releases.Values
      ensures latest.Some? ==> forall v | v in releases :: NumbersLe(releases[v].version, latest.value.version)
    {
      latest := None;
      var todo := releases.Keys;
      while todo != {}
        invariant todo <= releases.Keys
        invariant latest.None? <==> todo == releases.Keys
        invariant latest.Some? ==> latest.value in releases.Values
        invariant latest.Some? ==> forall v | v in releases.Keys - todo :: NumbersLe(releases[v].version, latest.value.version)
        decreases |todo|
      {
        var v :| v in todo;
        if latest.None? || NumbersLe(latest.value.version, releases[v].version) {
          latest := Some(releases[v]);
        }
        todo := todo - {v};
      }
      assert releases == map[] <==> releases.Keys == {};
    }

    /** The versions of the stable releases. */
    function StableVersions(): set<string>
      reads this
    {
      set v | v in releases && IsStable(releases[v].version)
    }

    /** The versions of the prerelease releases. */
    function PrereleaseVersions(): set<string>
      reads this
    {
      set v | v in releases && IsPrerelease(releases[v].version)
    }

    /** Each release is stable or a prerelease, never both. */
    lemma StableAndPrereleasePartition()
      ensures StableVersions() + PrereleaseVersions() == releases.Keys
      ensures StableVersions() * PrereleaseVersions() == {}
      ensures |StableVersions()| + |PrereleaseVersions()| == |releases|
    {
      assert StableVersions() + PrereleaseVersions() == releases.Keys;
      assert |StableVersions() + PrereleaseVersions()| == |StableVersions()| + |PrereleaseVersions()|;
    }

    /** Of two releases where b has the larger numbers, only b's release
        has numbers at least those of every release. */
    lemma OnlyLatest(a: string, b: string)
      requires releases == map[a := NewRelease(a), b := NewRelease(b)] && a != b
      requires NumbersLe(ParseVersion(a), ParseVersion(b)) && !NumbersLe(ParseVersion(b), ParseVersion(a))
      ensures forall x | x in releases.Values && NumbersLe(releases[b].version, x.version) :: x.version == ParseVersion(b)
    {
    }

    /** With one stable and one prerelease release, each kind has one
        version. */
    lemma OneStableOnePrerelease(a: string, b: string)
      requires releases == map[a := NewRelease(a), b := NewRelease(b)]
      requires a != b && IsStable(ParseVersion(a)) && IsPrerelease(ParseVersion(b))
      ensures StableVersions() == {a} && PrereleaseVersions() == {b} && |releases| == 2
    {
      assert releases.Keys == {a, b};
    }

    /** The stored releases whose versions are `versions`, each once, in
        the map's order. */
    method ReleasesIn(versions: set<string>) returns (r: seq<Release>)
      requires versions <= releases.Keys
      ensures |r| == |versions|
      ensures forall x :: x in r <==> exists v | v in versions :: releases[v] == x
    {
      r := [];
      var todo := versions;
      while todo != {}
        invariant todo <= versions
        invariant |r| + |todo| == |versions|
        invariant forall x | x in r :: exists v | v in versions :: releases[v] == x
        invariant forall v | v in versions - todo :: releases[v] in r
        decreases |todo|
      {
        var v :| v in todo;
        r := r + [releases[v]];
        todo := todo - {v};
      }
    }

    /** `get_all_releases`: every release once. */
    method GetAllReleases() returns (r: seq<Release>)
      requires Valid()
      ensures |r| == |releases|
      ensures forall x :: x in r <==> x in releases.Values
    {
      r := ReleasesIn(releases.Keys);
    }

    /** `get_stable_releases`: every stable release once. */
    method GetStableReleases() returns (r: seq<Release>)
      requires Valid()
      ensures |r| == |StableVersions()|
      ensures forall x :: x in r <==> x in releases.Values && IsStable(x.version)
    {
      r := ReleasesIn(StableVersions());
    }

    /** `get_prerelease_releases`: every prerelease release once. */
    method GetPrereleaseReleases() returns (r: seq<Release>)
      requires Valid()
      ensures |r| == |PrereleaseVersions()|
      ensures forall x :: x in r <==> x in releases.Values && IsPrerelease(x.version)
    {
      r := ReleasesIn(PrereleaseVersions());
    }
  }

  // ---------------------------------------------------------------------
  // The unit tests of the module, as scenarios.

  /** A new release is a draft; publishing it makes it final. */
  lemma PublishScenario()
    ensures NewRelease("1.0.0").isDraft && !Publish(NewRelease("1.0.0")).isDraft
  {
  }

  function Artifact(size: nat): ReleaseArtifact
  {
    ReleaseArtifact("artifact", Binary, "/path/to/artifact", size, "abc123", "sha256")
  }

  /** Three artifacts of one MiB each make three MiB. */
  lemma TotalSizeScenario()
    ensures TotalSize(AddArtifact(AddArtifact(AddArtifact(NewRelease("1.0.0"), Artifact(1048576)),
              Artifact(1048576)), Artifact(1048576))) == 3145728
  {
  }

  /** The facts about 1.0.0 and 1.1.0 that the latest-release scenario
      needs. */
  lemma TwoMinorVersions(a: string, b: string)
    requires a == "1.0.0" && b == "1.1.0"
    ensures a != b && ParseVersion(b).version == b
    ensures NumbersLe(ParseVersion(a), ParseVersion(b)) && !NumbersLe(ParseVersion(b), ParseVersion(a))
  {
    StableScenario(a);
    ParseOfPieces(b, ["1.1.0"], ["1", "1", "0"]);
    SmallNumerals();
  }

  /** Of 1.0.0 and 1.1.0, 1.1.0 is the latest. */
  method LatestScenario(a: string, b: string) returns (latest: Option<Release>)
    requires a == "1.0.0" && b == "1.1.0"
    ensures latest.Some? && latest.value.version.version == b
  {
    var manager := new Manager();
    var _, _ := manager.CreateRelease(a);
    var _, _ := manager.CreateRelease(b);
    TwoMinorVersions(a, b);
    assert manager.releases == map[a := NewRelease(a), b := NewRelease(b)];
    manager.OnlyLatest(a, b);
    latest := manager.GetLatestRelease();
  }

  /** The facts about 1.0.0 and 1.1.0-rc.1 that the stable-release
      scenario needs. */
  lemma StableAndPrerelease(a: string, b: string)
    requires a == "1.0.0" && b == "1.1.0-rc.1"
    ensures a != b && IsStable(ParseVersion(a)) && IsPrerelease(ParseVersion(b))
  {
    StableIffNoDash(a);
    StableIffNoDash(b);
    assert '-' !in a && b[5] == '-';
  }

  /** Of 1.0.0 and 1.1.0-rc.1, one release is stable and one is a
      prerelease. */
  method StableSplitScenario(a: string, b: string) returns (all: nat, stable: nat, prerelease: nat)
    requires a == "1.0.0" && b == "1.1.0-rc.1"
    ensures all == 2 && stable == 1 && prerelease == 1
  {
    var manager := new Manager();
    var _, _ := manager.CreateRelease(a);
    var _, _ := manager.CreateRelease(b);
    StableAndPrerelease(a, b);
    assert manager.releases == map[a := NewRelease(a), b := NewRelease(b)];
    manager.OneStableOnePrerelease(a, b);
    var releases := manager.GetAllReleases();
    var s := manager.GetStableReleases();
    var p := manager.GetPrereleaseReleases();
    all, stable, prerelease := |releases|, |s|, |p|;
  }

  /** The release half of the two release workflows: a release created
      alone, given three artifacts of 50 MiB and notes through the
      reference and published, is stored final with its three artifacts
      and its notes. */
  method WorkflowScenario(version: string) returns (isDraft: bool, artifacts: nat, size: nat, notes: string)
    requires version == "1.0.0-rivers"
    ensures !isDraft && artifacts == 3 && size == 157286400 && notes == "Production release"
  {
    var manager := new Manager();
    var _, key := manager.CreateRelease(version);
    var i := 0;
    while i < 3
      invariant 0 <= i <= 3 && manager.releases.Keys == {key}
      invariant |manager.releases[key].artifacts| == i && TotalSize(manager.releases[key]) == i * 52428800
    {
      manager.AddArtifactTo(key, Artifact(52428800));
      i := i + 1;
    }
    manager.SetReleaseNotesOf(key, "Production release");
    var _ := manager.PublishRelease(key);
    var r := manager.releases[key];
    isDraft, artifacts, size, notes := r.isDraft, |r.artifacts|, TotalSize(r), r.releaseNotes;
  }
}
