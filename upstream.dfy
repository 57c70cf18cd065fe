// The upstream snapshot `UpstreamDiff` of crates/core/src/upstream.rs:
// repository metadata, commits, releases, tags, firmware versions and the
// protocol novelties seen upstream.

module Upstream {
  import opened Wrappers

  datatype UpstreamRepository = UpstreamRepository(
    name: string, fullName: string, owner: string, url: string, description: string,
    stars: u32, forks: u32, openIssues: u32,
    language: string, license: string, updatedAt: string, pushedAt: string)

  datatype Commit = Commit(sha: string, message: string, author: string, date: string, url: string)

  datatype ReleaseAsset = ReleaseAsset(
    name: string, size: u64, downloadCount: u32, digest: string, contentType: string)

  datatype Release = Release(
    tagName: string, name: string, draft: bool, prerelease: bool,
    createdAt: string, publishedAt: string, body: string, assets: seq<ReleaseAsset>)

  datatype Tag = Tag(name: string, commitSha: string)

  datatype ProtocolDefinition = ProtocolDefinition(
    serviceUuid: string, characteristicUuid: string,
    batteryServiceUuid: string, deviceInfoServiceUuid: string,
    messageTypes: map<byte, string>)

  datatype FirmwareVersion = FirmwareVersion(
    version: string, deviceModel: string, releaseDate: string, features: seq<string>)

  const EmptyRepository := UpstreamRepository("", "", "", "", "", 0, 0, 0, "", "", "", "")
  const EmptyProtocol := ProtocolDefinition("", "", "", "", map[])

  /** The rule of `detect_protocol_drift`: new message types or new UUIDs
      (new features do not count). */
  predicate HasDrift(newTypes: seq<string>, newUuids: seq<string>)
  {
    |newTypes| > 0 || |newUuids| > 0
  }

  /** The rule of `has_breaking_changes`: more than two new message types
      or more than one new UUID. */
  predicate IsBreaking(newTypes: seq<string>, newUuids: seq<string>)
  {
    |newTypes| > 2 || |newUuids| > 1
  }

  /** Breaking changes are always drift, but one new type is drift without
      being breaking. */
  lemma BreakingIsDrift(newTypes: seq<string>, newUuids: seq<string>)
    ensures IsBreaking(newTypes, newUuids) ==> HasDrift(newTypes, newUuids)
    ensures !HasDrift(newTypes, newUuids) ==> !IsBreaking(newTypes, newUuids)
    ensures HasDrift(["NewType"], []) && !IsBreaking(["NewType"], [])
  {
  }

  class UpstreamDiff {
    var repository: UpstreamRepository
    var latestCommits: seq<Commit>
    var latestReleases: seq<Release>
    var tags: seq<Tag>
    var protocolDefinitions: ProtocolDefinition
    var firmwareVersions: seq<FirmwareVersion>
    var newMessageTypes: seq<string>
    var newUuids: seq<string>
    var newFeatures: seq<string>
    var dependencyChanges: map<string, string>
    var lastSync: string

    constructor ()
      ensures repository == EmptyRepository && protocolDefinitions == EmptyProtocol
      ensures latestCommits == [] && latestReleases == [] && tags == [] && firmwareVersions == []
      ensures newMessageTypes == [] && newUuids == [] && newFeatures == []
      ensures dependencyChanges == map[] && lastSync == "2025-11-21T23:55:00Z"
      ensures !DetectProtocolDrift() && !HasBreakingChanges()
    {
      repository := EmptyRepository;
      latestCommits, latestReleases, tags := [], [], [];
      protocolDefinitions := EmptyProtocol;
      firmwareVersions := [];
      newMessageTypes, newUuids, newFeatures := [], [], [];
      dependencyChanges := map[];
      lastSync := "2025-11-21T23:55:00Z";
    }

    method AddCommit(commit: Commit)
      modifies this
      ensures latestCommits == old(latestCommits) + [commit]
      ensures unchanged(this`repository, this`latestReleases, this`tags, this`protocolDefinitions, this`firmwareVersions)
      ensures unchanged(this`newMessageTypes, this`newUuids, this`newFeatures, this`dependencyChanges, this`lastSync)
    {
      latestCommits := latestCommits + [commit];
    }

    method AddRelease(release: Release)
      modifies this
      ensures latestReleases == old(latestReleases) + [release]
      ensures unchanged(this`repository, this`latestCommits, this`tags, this`protocolDefinitions, this`firmwareVersions)
      ensures unchanged(this`newMessageTypes, this`newUuids, this`newFeatures, this`dependencyChanges, this`lastSync)
    {
      latestReleases := latestReleases + [release];
    }

    method AddTag(tag: Tag)
      modifies this
      ensures tags == old(tags) + [tag]
      ensures unchanged(this`repository, this`latestCommits, this`latestReleases, this`protocolDefinitions, this`firmwareVersions)
      ensures unchanged(this`newMessageTypes, this`newUuids, this`newFeatures, this`dependencyChanges, this`lastSync)
    {
      tags := tags + [tag];
    }

    method AddFirmware(firmware: FirmwareVersion)
      modifies this
      ensures firmwareVersions == old(firmwareVersions) + [firmware]
      ensures unchanged(this`repository, this`latestCommits, this`latestReleases, this`tags, this`protocolDefinitions)
      ensures unchanged(this`newMessageTypes, this`newUuids, this`newFeatures, this`dependencyChanges, this`lastSync)
    {
      firmwareVersions := firmwareVersions + [firmware];
    }

    predicate DetectProtocolDrift()
      reads this
    {
      HasDrift(newMessageTypes, newUuids)
    }

    /** Breaking changes are always drift. */
    predicate HasBreakingChanges(): (r: bool)
      reads this
      ensures r ==> DetectProtocolDrift()
    {
      IsBreaking(newMessageTypes, newUuids)
    }
  }

  /** The tests: a new diff is empty and has no drift; one new message type
      is drift; three new message types are breaking; a commit is recorded. */
  method UpstreamScenario() returns (drift0: bool, drift1: bool, breaking0: bool, breaking3: bool, commits: nat)
    ensures !drift0 && drift1 && !breaking0 && breaking3 && commits == 1
  {
    var diff := new UpstreamDiff();
    drift0 := diff.DetectProtocolDrift();
    breaking0 := diff.HasBreakingChanges();
    diff.newMessageTypes := diff.newMessageTypes + ["NewType"];
    drift1 := diff.DetectProtocolDrift();
    diff.newMessageTypes := diff.newMessageTypes + ["Type2", "Type3"];
    breaking3 := diff.HasBreakingChanges();
    diff.AddCommit(Commit("abc123", "test commit", "Test Author", "2025-11-21", "https://github.com/test"));
    commits := |diff.latestCommits|;
  }
}
