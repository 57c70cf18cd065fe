// The DMCA scanner of crates/core/src/dmca_scanner.rs: known takedown
// notices by repository, a block list, and the flagged keywords that a
// repository description or a commit message is searched for (after
// lowercasing).

module DmcaScanner {
  import opened Wrappers
  import opened Seqs
  import opened Text
  import opened LegalScan

  const FlaggedKeywords: seq<string> := ["proprietary", "confidential", "trade secret", "nda", "restricted"]

  const ScanDate := "2025-11-21"

  function BlockedNotice(repo: string): DmcaNotice
  {
    DmcaNotice(ScanDate, repo, "Repository is on blocked list", "Active")
  }

  function KeywordNotice(repo: string, keyword: string): DmcaNotice
  {
    DmcaNotice(ScanDate, repo, "Flagged keyword detected: " + keyword, "Review")
  }

  /** The keywords found in the lowered text, as `contains` tests them. */
  function FoundIn(lowered: string): string -> bool
  {
    k => Contains(lowered, k)
  }

  /** The keyword loop of `scan_repository`: one review notice per keyword
      the lowered description contains, in keyword order. */
  function KeywordNotices(repo: string, keywords: seq<string>, lowered: string): (r: seq<DmcaNotice>)
    ensures |r| == |Filter(keywords, FoundIn(lowered))|
    ensures forall i | 0 <= i < |r| :: r[i] == KeywordNotice(repo, Filter(keywords, FoundIn(lowered))[i])
    decreases |keywords|
  {
    if keywords == [] then []
    else
      var n := |keywords| - 1;
      var r := KeywordNotices(repo, keywords[..n], lowered);
      if Contains(lowered, keywords[n]) then r + [KeywordNotice(repo, keywords[n])] else r
  }

  /** Everything `scan_repository` reports: the block-list notice first,
      then the keyword notices. */
  function ScanNotices(repo: string, blocked: bool, keywords: seq<string>, description: string): seq<DmcaNotice>
  {
    (if blocked then [BlockedNotice(repo)] else []) + KeywordNotices(repo, keywords, ToLower(description))
  }

  /** One notice per found keyword, plus the block-list notice, first,
      exactly when the repository is blocked. */
  lemma ScanNoticesCount(repo: string, blocked: bool, keywords: seq<string>, description: string)
    ensures |ScanNotices(repo, blocked, keywords, description)|
      == (if blocked then 1 else 0) + |Filter(keywords, FoundIn(ToLower(description)))|
    ensures blocked ==> ScanNotices(repo, blocked, keywords, description)[0] == BlockedNotice(repo)
  {
  }

  /** The keyword notices are exactly those of the keywords the lowered
      text contains. */
  lemma KeywordNoticesMembers(repo: string, keywords: seq<string>, lowered: string, k: string)
    ensures KeywordNotice(repo, k) in KeywordNotices(repo, keywords, lowered) <==> k in keywords && Contains(lowered, k)
  {
    var found := Filter(keywords, FoundIn(lowered));
    var kn := KeywordNotices(repo, keywords, lowered);
    FilterMembers(keywords, FoundIn(lowered), k);
    if k in found {
      var i :| 0 <= i < |found| && found[i] == k;
      assert kn[i] == KeywordNotice(repo, k);
    }
    if KeywordNotice(repo, k) in kn {
      var j :| 0 <= j < |kn| && kn[j] == KeywordNotice(repo, k);
      var prefix := "Flagged keyword detected: ";
      assert prefix + found[j] == prefix + k;
      assert found[j] == (prefix + found[j])[|prefix|..];
      assert k == (prefix + k)[|prefix|..];
    }
  }

  /** A commit message is flagged when its lowercase form contains some
      keyword. */
  function IsFlagged(keywords: seq<string>): string -> bool
  {
    m => ContainsAny(ToLower(m), keywords)
  }

  class DmcaScanner {
    var knownNotices: map<string, DmcaNotice>
    var blockedRepositories: seq<string>
    var flaggedKeywords: seq<string>

    /** `initialize_known_notices` adds nothing. */
    constructor ()
      ensures knownNotices == map[] && blockedRepositories == [] && flaggedKeywords == FlaggedKeywords
      ensures forall repo :: IsRepositorySafe(repo)
    {
      knownNotices := map[];
      blockedRepositories := [];
      flaggedKeywords := FlaggedKeywords;
    }

    method ScanRepository(repoName: string, description: string) returns (notices: seq<DmcaNotice>)
      ensures notices == ScanNotices(repoName, repoName in blockedRepositories, flaggedKeywords, description)
    {
      notices := [];
      if repoName in blockedRepositories {
        notices := notices + [BlockedNotice(repoName)];
      }
      ghost var head := notices;
      var lowered := ToLower(description);
      for i := 0 to |flaggedKeywords|
        invariant notices == head + KeywordNotices(repoName, flaggedKeywords[..i], lowered)
      {
        var keyword := flaggedKeywords[i];
        assert flaggedKeywords[..i + 1][..i] == flaggedKeywords[..i];
        if Contains(lowered, keyword) {
          notices := notices + [KeywordNotice(repoName, keyword)];
        }
      }
      assert flaggedKeywords[..|flaggedKeywords|] == flaggedKeywords;
    }

    predicate CheckForTakedown(repoName: string)
      reads this
    {
      repoName in knownNotices || repoName in blockedRepositories
    }

    function GetNotice(repoName: string): (r: Option<DmcaNotice>)
      reads this
      ensures r.Some? <==> repoName in knownNotices
      ensures r.Some? ==> r.value == knownNotices[repoName]
    {
      if repoName in knownNotices then Some(knownNotices[repoName]) else Option.None
    }

    method AddBlockedRepository(repo: string)
      modifies this
      ensures blockedRepositories == old(blockedRepositories) + [repo]
      ensures knownNotices == old(knownNotices) && flaggedKeywords == old(flaggedKeywords)
      ensures CheckForTakedown(repo) && !IsRepositorySafe(repo)
      ensures forall r | r != repo :: IsRepositorySafe(r) == old(IsRepositorySafe(r))
    {
      blockedRepositories := blockedRepositories + [repo];
    }

    predicate IsRepositorySafe(repoName: string)
      reads this
    {
      !CheckForTakedown(repoName)
    }

    /** For each message in order, the keyword loop stops at the first
        keyword found and pushes the message once. */
    method ScanCommitMessages(messages: seq<string>) returns (flagged: seq<string>)
      ensures flagged == Filter(messages, IsFlagged(flaggedKeywords))
    {
      flagged := [];
      for i := 0 to |messages|
        invariant flagged == Filter(messages[..i], IsFlagged(flaggedKeywords))
      {
        var message := messages[i];
        var hit := ContainsSomeKeyword(ToLower(message), flaggedKeywords);
        assert messages[..i + 1] == messages[..i] + [message];
        FilterSnoc(messages[..i], message, IsFlagged(flaggedKeywords));
        if hit {
          flagged := flagged + [message];
        }
      }
      assert messages[..|messages|] == messages;
    }
  }

  /** The inner loop of `scan_commit_messages`: the keywords are tried in
      order and the first one found stops the search. */
  method ContainsSomeKeyword(lowered: string, keywords: seq<string>) returns (hit: bool)
    ensures hit == ContainsAny(lowered, keywords)
  {
    hit := false;
    var j := 0;
    while j < |keywords|
      invariant 0 <= j <= |keywords|
      invariant hit ==> ContainsAny(lowered, keywords)
      invariant !hit ==> forall k | 0 <= k < j :: !Contains(lowered, keywords[k])
      decreases |keywords| - j
    {
      if Contains(lowered, keywords[j]) {
        hit := true;
        break;
      }
      j := j + 1;
    }
  }

  /** Scanning commit messages keeps exactly the flagged ones, in order,
      one per flagged message. */
  lemma ScanCommitMessagesMembers(keywords: seq<string>, messages: seq<string>)
    ensures |Filter(messages, IsFlagged(keywords))| <= |messages|
    ensures forall m :: m in Filter(messages, IsFlagged(keywords)) <==> m in messages && ContainsAny(ToLower(m), keywords)
  {
    FilterMembersAll(messages, IsFlagged(keywords));
  }

  /** The tests: a fresh scanner calls every repository safe, and a blocked
      one is not safe. */
  method BlockScenario() returns (safe0: bool, safe1: bool, blockedSafe: bool)
    ensures safe0 && safe1 && !blockedSafe
  {
    var scanner := new DmcaScanner();
    safe0 := scanner.IsRepositorySafe("librepods-ng");
    safe1 := scanner.IsRepositorySafe("kavishdevar/librepods");
    scanner.AddBlockedRepository("blocked-repo");
    blockedSafe := scanner.IsRepositorySafe("blocked-repo");
  }

  lemma LowerNormalDescription()
    ensures ToLower("A normal repository") == "a normal repository"
  {
  }

  /** "pr" never occurs in "a normal repository". */
  lemma NormalDescriptionLacksProprietary(s: string)
    requires s == "a normal repository"
    ensures !Contains(s, "proprietary")
  {
    MissingPairNotContained(s, "proprietary");
  }

  /** Neither 'c' nor 'd' occurs in "a normal repository". */
  lemma NormalDescriptionLacksLetters(s: string)
    requires s == "a normal repository"
    ensures 'c' !in s && 'd' !in s
  {
  }

  /** "a normal repository" contains none of the keywords: "proprietary"
      because "pr" never occurs, the others for a missing letter. */
  lemma NormalDescriptionLacksKeywords(s: string)
    requires s == "a normal repository"
    ensures forall i | 0 <= i < |FlaggedKeywords| :: !Contains(s, FlaggedKeywords[i])
  {
    NormalDescriptionLacksLetters(s);
    forall i | 0 <= i < |FlaggedKeywords|
      ensures !Contains(s, FlaggedKeywords[i])
    {
      if i == 0 {
        NormalDescriptionLacksProprietary(s);
      } else if i == 1 || i == 4 {
        MissingCharNotContained(s, FlaggedKeywords[i], 'c');
      } else {
        MissingCharNotContained(s, FlaggedKeywords[i], 'd');
      }
    }
  }

  /** "A normal repository" contains none of the keywords. */
  lemma NormalDescriptionIsClean()
    ensures Filter(FlaggedKeywords, FoundIn(ToLower("A normal repository"))) == []
  {
    LowerNormalDescription();
    NormalDescriptionLacksKeywords("a normal repository");
    FilterNone(FlaggedKeywords, FoundIn("a normal repository"));
  }

  /** "This is proprietary code" contains the first keyword. */
  lemma ProprietaryDescriptionIsFlagged(s: string)
    requires s == "This is proprietary code"
    ensures |Filter(FlaggedKeywords, FoundIn(ToLower(s)))| > 0
  {
    var lowered := ToLower(s);
    ContainsByChars(lowered, "proprietary", 8);
    FilterMembers(FlaggedKeywords, FoundIn(lowered), "proprietary");
  }

  /** The tests: a plain description gives no notice, one mentioning
      proprietary code gives at least one. */
  method DescriptionScenario() returns (plain: nat, flagged: nat)
    ensures plain == 0 && flagged > 0
  {
    var scanner := new DmcaScanner();
    var n0 := scanner.ScanRepository("test-repo", "A normal repository");
    NormalDescriptionIsClean();
    ScanNoticesCount("test-repo", false, FlaggedKeywords, "A normal repository");
    var n1 := scanner.ScanRepository("test-repo", "This is proprietary code");
    ProprietaryDescriptionIsFlagged("This is proprietary code");
    ScanNoticesCount("test-repo", false, FlaggedKeywords, "This is proprietary code");
    plain, flagged := |n0|, |n1|;
  }

  lemma FixBugNotFlagged(m: string)
    requires m == "Fix bug"
    ensures !IsFlagged(FlaggedKeywords)(m)
  {
    assert ToLower(m) == "fix bug";
    NoneContainedByMissingChars(ToLower(m), FlaggedKeywords, "pctnr");
  }

  lemma UpdateDocsNotFlagged(m: string)
    requires m == "Update docs"
    ensures !IsFlagged(FlaggedKeywords)(m)
  {
    assert ToLower(m) == "update docs";
    NoneContainedByMissingChars(ToLower(m), FlaggedKeywords, "rfrnr");
  }

  lemma ProprietaryCodeFlagged(m: string)
    requires m == "Add proprietary code"
    ensures IsFlagged(FlaggedKeywords)(m)
  {
    assert ToLower(m) == "add proprietary code";
    ContainsByChars(ToLower(m), "proprietary", 4);
    assert Contains(ToLower(m), FlaggedKeywords[0]);
  }

  /** Of "Fix bug", "Add proprietary code" and "Update docs" only the
      second is flagged. */
  lemma CommitMessagesFlagged(fix: string, add: string, update: string)
    requires fix == "Fix bug" && add == "Add proprietary code" && update == "Update docs"
    ensures Filter([fix, add, update], IsFlagged(FlaggedKeywords)) == [add]
  {
    FixBugNotFlagged(fix);
    ProprietaryCodeFlagged(add);
    UpdateDocsNotFlagged(update);
    FilterOfThree(fix, add, update, IsFlagged(FlaggedKeywords));
  }

  /** The test: one of three commit messages is flagged. */
  method CommitScenario() returns (flagged: seq<string>)
    ensures flagged == ["Add proprietary code"]
  {
    var scanner := new DmcaScanner();
    var messages := ["Fix bug", "Add proprietary code", "Update docs"];
    flagged := scanner.ScanCommitMessages(messages);
    CommitMessagesFlagged(messages[0], messages[1], messages[2]);
  }
}
