// The `DataIngestionEngine` of crates/core/src/ingestion.rs: it fills an
// `UpstreamDiff` and keeps a cache of firmware versions by version string.

module Ingestion {
  import opened Wrappers
  import opened Errors
  import opened Text
  import opened Upstream

  /** The last entry of `fws` whose version is v: what a `HashMap` insert
      per entry leaves under key v. */
  function LastWithVersion(fws: seq<FirmwareVersion>, v: string): (r: Option<FirmwareVersion>)
    ensures r.None? <==> forall i | 0 <= i < |fws| :: fws[i].version != v
    ensures r.Some? ==> r.value.version == v && r.value in fws
    decreases |fws|
  {
    if fws == [] then None
    else if fws[|fws| - 1].version == v then Some(fws[|fws| - 1])
    else
      var r := LastWithVersion(fws[..|fws| - 1], v);
      assert forall i | 0 <= i < |fws| - 1 :: fws[..|fws| - 1][i] == fws[i];
      r
  }

  /** No later entry has the same version. */
  lemma {:induction false} LastWithVersionIsLast(fws: seq<FirmwareVersion>, v: string)
    requires LastWithVersion(fws, v).Some?
    ensures exists i | 0 <= i < |fws| ::
      fws[i] == LastWithVersion(fws, v).value && forall j | i < j < |fws| :: fws[j].version != v
    decreases |fws|
  {
    var n := |fws| - 1;
    if fws[n].version == v {
      assert fws[n] == LastWithVersion(fws, v).value;
    } else {
      var p := fws[..n];
      LastWithVersionIsLast(p, v);
      var i :| 0 <= i < |p| && p[i] == LastWithVersion(p, v).value && forall j | i < j < |p| :: p[j].version != v;
      assert fws[i] == LastWithVersion(fws, v).value;
      forall j | i < j < |fws|
        ensures fws[j].version != v
      {
        if j < n {
          assert fws[j] == p[j];
        }
      }
    }
  }

  lemma LastWithVersionSnoc(fws: seq<FirmwareVersion>, x: FirmwareVersion, v: string)
    ensures LastWithVersion(fws + [x], v) == if x.version == v then Some(x) else LastWithVersion(fws, v)
  {
    assert (fws + [x])[..|fws|] == fws;
  }

  /** Ingesting a second batch: a version the new batch mentions is found
      in it, any other keeps its earlier entry. */
  lemma {:induction false} LastWithVersionAppend(a: seq<FirmwareVersion>, b: seq<FirmwareVersion>, v: string)
    ensures LastWithVersion(a + b, v) ==
      if LastWithVersion(b, v).Some? then LastWithVersion(b, v) else LastWithVersion(a, v)
    decreases |b|
  {
    if b == [] {
      assert a + b == a;
    } else {
      var b' := b[..|b| - 1];
      var x := b[|b| - 1];
      assert b == b' + [x];
      assert a + b == (a + b') + [x];
      LastWithVersionSnoc(a + b', x, v);
      LastWithVersionSnoc(b', x, v);
      LastWithVersionAppend(a, b', v);
    }
  }

  const ReportTitle := "=== UPSTREAM DATA INGESTION REPORT ===\n\n"

  function BoolToString(b: bool): string
  {
    if b then "true" else "false"
  }

  /** One "  - item\n" line per item. */
  function ItemLines(items: seq<string>): string
    decreases |items|
  {
    if items == [] then "" else ItemLines(items[..|items| - 1]) + "  - " + items[|items| - 1] + "\n"
  }

  /** A title followed by a body. */
  function Titled(title: string, body: string): (r: string)
    ensures StartsWith(r, title)
  {
    assert (title + body)[..|title|] == title;
    title + body
  }

  class DataIngestionEngine {
    const upstreamDiff: UpstreamDiff
    var protocolCache: map<string, string>
    var firmwareCache: map<string, FirmwareVersion>

    /** The cache holds, for every version ever ingested, the last entry
        ingested with it, and nothing else. */
    ghost predicate Valid()
      reads this, upstreamDiff
    {
      (forall v | v in firmwareCache :: LastWithVersion(upstreamDiff.firmwareVersions, v) == Some(firmwareCache[v])) &&
      (forall v | LastWithVersion(upstreamDiff.firmwareVersions, v).Some? :: v in firmwareCache)
    }

    constructor ()
      ensures Valid() && fresh(upstreamDiff)
      ensures upstreamDiff.repository == EmptyRepository && upstreamDiff.protocolDefinitions == EmptyProtocol
      ensures upstreamDiff.latestCommits == [] && upstreamDiff.latestReleases == []
      ensures upstreamDiff.tags == [] && upstreamDiff.firmwareVersions == []
      ensures upstreamDiff.newMessageTypes == [] && upstreamDiff.newUuids == [] && upstreamDiff.newFeatures == []
      ensures upstreamDiff.dependencyChanges == map[] && upstreamDiff.lastSync == "2025-11-21T23:55:00Z"
      ensures protocolCache == map[] && firmwareCache == map[]
    {
      upstreamDiff := new UpstreamDiff();
      protocolCache := map[];
      firmwareCache := map[];
    }

    method IngestRepositoryMetadata(repository: UpstreamRepository) returns (r: Result<()>)
      requires Valid()
      modifies upstreamDiff
      ensures Valid() && r == Ok(())
      ensures upstreamDiff.repository == repository
      ensures unchanged(upstreamDiff`latestCommits, upstreamDiff`latestReleases, upstreamDiff`tags)
      ensures unchanged(upstreamDiff`protocolDefinitions, upstreamDiff`firmwareVersions, upstreamDiff`dependencyChanges)
      ensures unchanged(upstreamDiff`newMessageTypes, upstreamDiff`newUuids, upstreamDiff`newFeatures, upstreamDiff`lastSync)
    {
      upstreamDiff.repository := repository;
      r := Ok(());
    }

    method IngestCommits(commits: seq<Commit>) returns (r: Result<()>)
      requires Valid()
      modifies upstreamDiff
      ensures Valid() && r == Ok(())
      ensures upstreamDiff.latestCommits == old(upstreamDiff.latestCommits) + commits
      ensures unchanged(upstreamDiff`repository, upstreamDiff`latestReleases, upstreamDiff`tags)
      ensures unchanged(upstreamDiff`protocolDefinitions, upstreamDiff`firmwareVersions, upstreamDiff`dependencyChanges)
      ensures unchanged(upstreamDiff`newMessageTypes, upstreamDiff`newUuids, upstreamDiff`newFeatures, upstreamDiff`lastSync)
    {
      var i := 0;
      while i < |commits|
        invariant 0 <= i <= |commits|
        invariant upstreamDiff.latestCommits == old(upstreamDiff.latestCommits) + commits[..i]
        invariant unchanged(upstreamDiff`repository, upstreamDiff`latestReleases, upstreamDiff`tags)
        invariant unchanged(upstreamDiff`protocolDefinitions, upstreamDiff`firmwareVersions, upstreamDiff`dependencyChanges)
        invariant unchanged(upstreamDiff`newMessageTypes, upstreamDiff`newUuids, upstreamDiff`newFeatures, upstreamDiff`lastSync)
      {
        assert commits[..i + 1] == commits[..i] + [commits[i]];
        upstreamDiff.AddCommit(commits[i]);
        i := i + 1;
      }
      assert commits[..i] == commits;
      r := Ok(());
    }

    method IngestReleases(releases: seq<Release>) returns (r: Result<()>)
      requires Valid()
      modifies upstreamDiff
      ensures Valid() && r == Ok(())
      ensures upstreamDiff.latestReleases == old(upstreamDiff.latestReleases) + releases
      ensures unchanged(upstreamDiff`repository, upstreamDiff`latestCommits, upstreamDiff`tags)
      ensures unchanged(upstreamDiff`protocolDefinitions, upstreamDiff`firmwareVersions, upstreamDiff`dependencyChanges)
      ensures unchanged(upstreamDiff`newMessageTypes, upstreamDiff`newUuids, upstreamDiff`newFeatures, upstreamDiff`lastSync)
    {
      var i := 0;
      while i < |releases|
        invariant 0 <= i <= |releases|
        invariant upstreamDiff.latestReleases == old(upstreamDiff.latestReleases) + releases[..i]
        invariant unchanged(upstreamDiff`repository, upstreamDiff`latestCommits, upstreamDiff`tags)
        invariant unchanged(upstreamDiff`protocolDefinitions, upstreamDiff`firmwareVersions, upstreamDiff`dependencyChanges)
        invariant unchanged(upstreamDiff`newMessageTypes, upstreamDiff`newUuids, upstreamDiff`newFeatures, upstreamDiff`lastSync)
      {
        assert releases[..i + 1] == releases[..i] + [releases[i]];
        upstreamDiff.AddRelease(releases[i]);
        i := i + 1;
      }
      assert releases[..i] == releases;
      r := Ok(());
    }

    method IngestTags(tags: seq<Tag>) returns (r: Result<()>)
      requires Valid()
      modifies upstreamDiff
      ensures Valid() && r == Ok(())
      ensures upstreamDiff.tags == old(upstreamDiff.tags) + tags
      ensures unchanged(upstreamDiff`repository, upstreamDiff`latestCommits, upstreamDiff`latestReleases)
      ensures unchanged(upstreamDiff`protocolDefinitions, upstreamDiff`firmwareVersions, upstreamDiff`dependencyChanges)
      ensures unchanged(upstreamDiff`newMessageTypes, upstreamDiff`newUuids, upstreamDiff`newFeatures, upstreamDiff`lastSync)
    {
      var i := 0;
      while i < |tags|
        invariant 0 <= i <= |tags|
        invariant upstreamDiff.tags == old(upstreamDiff.tags) + tags[..i]
        invariant unchanged(upstreamDiff`repository, upstreamDiff`latestCommits, upstreamDiff`latestReleases)
        invariant unchanged(upstreamDiff`protocolDefinitions, upstreamDiff`firmwareVersions, upstreamDiff`dependencyChanges)
        invariant unchanged(upstreamDiff`newMessageTypes, upstreamDiff`newUuids, upstreamDiff`newFeatures, upstreamDiff`lastSync)
      {
        assert tags[..i + 1] == tags[..i] + [tags[i]];
        upstreamDiff.AddTag(tags[i]);
        i := i + 1;
      }
      assert tags[..i] == tags;
      r := Ok(());
    }

    method IngestProtocolDefinitions(protocol: ProtocolDefinition) returns (r: Result<()>)
      requires Valid()
      modifies upstreamDiff
      ensures Valid() && r == Ok(())
      ensures upstreamDiff.protocolDefinitions == protocol
      ensures unchanged(upstreamDiff`repository, upstreamDiff`latestCommits, upstreamDiff`latestReleases, upstreamDiff`tags)
      ensures unchanged(upstreamDiff`firmwareVersions, upstreamDiff`dependencyChanges)
      ensures unchanged(upstreamDiff`newMessageTypes, upstreamDiff`newUuids, upstreamDiff`newFeatures, upstreamDiff`lastSync)
    {
      upstreamDiff.protocolDefinitions := protocol;
      r := Ok(());
    }

    /** Appends every entry to the diff and caches it under its version, so
        the cache keeps the last entry of each version. */
    method IngestFirmwareVersions(firmwareVersions: seq<FirmwareVersion>) returns (r: Result<()>)
      requires Valid()
      modifies this, upstreamDiff
      ensures Valid() && r == Ok(())
      ensures upstreamDiff.firmwareVersions == old(upstreamDiff.firmwareVersions) + firmwareVersions
      ensures forall v :: (GetFirmwareByVersion(v) ==
        if LastWithVersion(firmwareVersions, v).Some? then LastWithVersion(firmwareVersions, v)
        else old(GetFirmwareByVersion(v)))
      ensures protocolCache == old(protocolCache)
      ensures unchanged(upstreamDiff`repository, upstreamDiff`latestCommits, upstreamDiff`latestReleases, upstreamDiff`tags)
      ensures unchanged(upstreamDiff`protocolDefinitions, upstreamDiff`dependencyChanges)
      ensures unchanged(upstreamDiff`newMessageTypes, upstreamDiff`newUuids, upstreamDiff`newFeatures, upstreamDiff`lastSync)
    {
      var i := 0;
      while i < |firmwareVersions|
        invariant 0 <= i <= |firmwareVersions|
        invariant Valid()
        invariant upstreamDiff.firmwareVersions == old(upstreamDiff.firmwareVersions) + firmwareVersions[..i]
        invariant protocolCache == old(protocolCache)
        invariant unchanged(upstreamDiff`repository, upstreamDiff`latestCommits, upstreamDiff`latestReleases, upstreamDiff`tags)
        invariant unchanged(upstreamDiff`protocolDefinitions, upstreamDiff`dependencyChanges)
        invariant unchanged(upstreamDiff`newMessageTypes, upstreamDiff`newUuids, upstreamDiff`newFeatures, upstreamDiff`lastSync)
      {
        var firmware := firmwareVersions[i];
        assert firmwareVersions[..i + 1] == firmwareVersions[..i] + [firmware];
        forall v
          ensures LastWithVersion(upstreamDiff.firmwareVersions + [firmware], v) ==
            if firmware.version == v then Some(firmware) else LastWithVersion(upstreamDiff.firmwareVersions, v)
        {
          LastWithVersionSnoc(upstreamDiff.firmwareVersions, firmware, v);
        }
        upstreamDiff.AddFirmware(firmware);
        firmwareCache := firmwareCache[firmware.version := firmware];
        i := i + 1;
      }
      assert firmwareVersions[..i] == firmwareVersions;
      forall v
        ensures LastWithVersion(upstreamDiff.firmwareVersions, v) ==
          if LastWithVersion(firmwareVersions, v).Some? then LastWithVersion(firmwareVersions, v)
          else LastWithVersion(old(upstreamDiff.firmwareVersions), v)
      {
        LastWithVersionAppend(old(upstreamDiff.firmwareVersions), firmwareVersions, v);
      }
      r := Ok(());
    }

    method DetectNewMessageTypes(newTypes: seq<string>) returns (r: Result<()>)
      requires Valid()
      modifies upstreamDiff
      ensures Valid() && r == Ok(())
      ensures upstreamDiff.newMessageTypes == newTypes
      ensures unchanged(upstreamDiff`repository, upstreamDiff`latestCommits, upstreamDiff`latestReleases, upstreamDiff`tags)
      ensures unchanged(upstreamDiff`protocolDefinitions, upstreamDiff`firmwareVersions, upstreamDiff`dependencyChanges)
      ensures unchanged(upstreamDiff`newUuids, upstreamDiff`newFeatures, upstreamDiff`lastSync)
    {
      upstreamDiff.newMessageTypes := newTypes;
      r := Ok(());
    }

    method DetectNewUuids(newUuids: seq<string>) returns (r: Result<()>)
      requires Valid()
      modifies upstreamDiff
      ensures Valid() && r == Ok(())
      ensures upstreamDiff.newUuids == newUuids
      ensures unchanged(upstreamDiff`repository, upstreamDiff`latestCommits, upstreamDiff`latestReleases, upstreamDiff`tags)
      ensures unchanged(upstreamDiff`protocolDefinitions, upstreamDiff`firmwareVersions, upstreamDiff`dependencyChanges)
      ensures unchanged(upstreamDiff`newMessageTypes, upstreamDiff`newFeatures, upstreamDiff`lastSync)
    {
      upstreamDiff.newUuids := newUuids;
      r := Ok(());
    }

    method DetectNewFeatures(newFeatures: seq<string>) returns (r: Result<()>)
      requires Valid()
      modifies upstreamDiff
      ensures Valid() && r == Ok(())
      ensures upstreamDiff.newFeatures == newFeatures
      ensures unchanged(upstreamDiff`repository, upstreamDiff`latestCommits, upstreamDiff`latestReleases, upstreamDiff`tags)
      ensures unchanged(upstreamDiff`protocolDefinitions, upstreamDiff`firmwareVersions, upstreamDiff`dependencyChanges)
      ensures unchanged(upstreamDiff`newMessageTypes, upstreamDiff`newUuids, upstreamDiff`lastSync)
    {
      upstreamDiff.newFeatures := newFeatures;
      r := Ok(());
    }

    method IngestDependencyChanges(changes: map<string, string>) returns (r: Result<()>)
      requires Valid()
      modifies upstreamDiff
      ensures Valid() && r == Ok(())
      ensures upstreamDiff.dependencyChanges == changes
      ensures unchanged(upstreamDiff`repository, upstreamDiff`latestCommits, upstreamDiff`latestReleases, upstreamDiff`tags)
      ensures unchanged(upstreamDiff`protocolDefinitions, upstreamDiff`firmwareVersions)
      ensures unchanged(upstreamDiff`newMessageTypes, upstreamDiff`newUuids, upstreamDiff`newFeatures, upstreamDiff`lastSync)
    {
      upstreamDiff.dependencyChanges := changes;
      r := Ok(());
    }

    /** The first commit ever ingested (not the newest). */
    function GetLatestCommit(): (r: Option<Commit>)
      reads this, upstreamDiff
      ensures r.None? <==> upstreamDiff.latestCommits == []
      ensures r.Some? ==> r.value == upstreamDiff.latestCommits[0]
    {
      if upstreamDiff.latestCommits == [] then None else Some(upstreamDiff.latestCommits[0])
    }

    /** The first release ever ingested (not the newest). */
    function GetLatestRelease(): (r: Option<Release>)
      reads this, upstreamDiff
      ensures r.None? <==> upstreamDiff.latestReleases == []
      ensures r.Some? ==> r.value == upstreamDiff.latestReleases[0]
    {
      if upstreamDiff.latestReleases == [] then None else Some(upstreamDiff.latestReleases[0])
    }

    function GetFirmwareByVersion(version: string): (r: Option<FirmwareVersion>)
      reads this
      ensures r.Some? <==> version in firmwareCache
      ensures r.Some? ==> r.value == firmwareCache[version]
    {
      if version in firmwareCache then Some(firmwareCache[version]) else None
    }

    /** Under the cache invariant, the lookup is the last ingested entry
        with that version. */
    lemma FirmwareLookupIsLastIngested(version: string)
      requires Valid()
      ensures GetFirmwareByVersion(version) == LastWithVersion(upstreamDiff.firmwareVersions, version)
    {
    }

    predicate HasProtocolDrift()
      reads this, upstreamDiff
    {
      upstreamDiff.DetectProtocolDrift()
    }

    predicate HasBreakingChanges()
      reads this, upstreamDiff
    {
      upstreamDiff.HasBreakingChanges()
    }

    /** `generate_ingestion_report`. The dependency lines come in `depOrder`,
        the order the `HashMap` yields its keys. The first commit's SHA is
        cut to its first 8 characters, so a shorter SHA is excluded. */
    function GenerateIngestionReport(depOrder: seq<string>): (r: string)
      requires forall i | 0 <= i < |depOrder| :: depOrder[i] in upstreamDiff.dependencyChanges
      requires forall i, j | 0 <= i < j < |depOrder| :: depOrder[i] != depOrder[j]
      requires forall k | k in upstreamDiff.dependencyChanges :: k in depOrder
      requires upstreamDiff.latestCommits != [] ==> |upstreamDiff.latestCommits[0].sha| >= 8
      reads this, upstreamDiff
      ensures StartsWith(r, ReportTitle)
    {
      Titled(ReportTitle, ReportBody(depOrder))
    }

    /** Everything after the title, in the order `generate_ingestion_report`
        writes it. */
    function ReportBody(depOrder: seq<string>): string
      requires forall i | 0 <= i < |depOrder| :: depOrder[i] in upstreamDiff.dependencyChanges
      requires upstreamDiff.latestCommits != [] ==> |upstreamDiff.latestCommits[0].sha| >= 8
      reads this, upstreamDiff
    {
      var d := upstreamDiff;
      var deps := d.dependencyChanges;
      var repo := d.repository;
      "Repository: " + repo.fullName + "\n" +
      "Owner: " + repo.owner + "\n" +
      "Stars: " + NatToString(repo.stars) + "\n" +
      "Forks: " + NatToString(repo.forks) + "\n" +
      "Open Issues: " + NatToString(repo.openIssues) + "\n\n" +
      "Latest Commits: " + NatToString(|d.latestCommits|) + "\n" +
      (match GetLatestCommit()
       case Some(c) => "  Latest: " + c.sha[..8] + " (" + c.date + ")\n"
       case None => "") +
      "\nLatest Releases: " + NatToString(|d.latestReleases|) + "\n" +
      (match GetLatestRelease()
       case Some(rel) => "  Latest: " + rel.tagName + " (" + rel.publishedAt + ")\n"
       case None => "") +
      "\nTags: " + NatToString(|d.tags|) + "\n" +
      "Firmware Versions: " + NatToString(|d.firmwareVersions|) + "\n" +
      "\nProtocol Drift: " + BoolToString(HasProtocolDrift()) + "\n" +
      "Breaking Changes: " + BoolToString(HasBreakingChanges()) + "\n" +
      "\nNew Message Types: " + NatToString(|d.newMessageTypes|) + "\n" + ItemLines(d.newMessageTypes) +
      "\nNew UUIDs: " + NatToString(|d.newUuids|) + "\n" + ItemLines(d.newUuids) +
      "\nNew Features: " + NatToString(|d.newFeatures|) + "\n" + ItemLines(d.newFeatures) +
      "\nDependency Changes: " + NatToString(|deps|) + "\n" +
      ItemLines(seq(|depOrder|, i requires 0 <= i < |depOrder| => depOrder[i] + ": " + deps[depOrder[i]])) +
      "\nLast Sync: " + d.lastSync + "\n"
    }
  }

  /** The tests: ingested commits are appended and the "latest" is the
      first one; one new type is drift; three are breaking; dependency
      changes are stored as given; ingested firmware is found by version. */
  method IngestionScenario()
    returns (count: nat, latest: Option<Commit>, drift: bool, breaking0: bool, breaking: bool,
             serde: Option<string>, firmware: Option<FirmwareVersion>)
    ensures count == 2 && latest.Some? && latest.value.sha == "abc123"
    ensures drift && !breaking0 && breaking
    ensures serde == Some("1.0.0")
    ensures firmware.Some? && firmware.value.releaseDate == "2025-11-22"
  {
    var engine := new DataIngestionEngine();
    var _ := engine.IngestCommits([
      Commit("abc123", "First commit", "Author1", "2025-11-20", "https://github.com/test1"),
      Commit("def456", "Second commit", "Author2", "2025-11-21", "https://github.com/test2")]);
    count := |engine.upstreamDiff.latestCommits|;
    latest := engine.GetLatestCommit();
    breaking0 := engine.HasBreakingChanges();
    var _ := engine.DetectNewMessageTypes(["NewType"]);
    drift := engine.HasProtocolDrift();
    var _ := engine.DetectNewMessageTypes(["Type1", "Type2", "Type3"]);
    breaking := engine.HasBreakingChanges();
    var _ := engine.IngestDependencyChanges(map["serde" := "1.0.0", "tokio" := "1.35.0", "nom" := "7.1.0"]);
    serde := if "serde" in engine.upstreamDiff.dependencyChanges
      then Some(engine.upstreamDiff.dependencyChanges["serde"]) else None;
    var _ := engine.IngestFirmwareVersions([
      FirmwareVersion("5E135", "AirPodsProGen2", "2025-11-21", []),
      FirmwareVersion("5E135", "AirPodsProGen2", "2025-11-22", [])]);
    firmware := engine.GetFirmwareByVersion("5E135");
  }
}
