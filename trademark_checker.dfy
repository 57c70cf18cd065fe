// The trademark checker of crates/core/src/trademark_checker.rs: a table
// of protected terms with the contexts in which each may and may not be
// used, the compliance verdict for one usage, and a scan of a text for the
// protected terms it mentions.

module TrademarkChecker {
  import opened Wrappers
  import opened Seqs
  import opened Text
  import opened LegalScan

  datatype TrademarkPolicy = TrademarkPolicy(
    term: string, owner: string, requiresPermission: bool,
    allowedContexts: seq<string>, forbiddenContexts: seq<string>)

  const AirPodsPolicy := TrademarkPolicy("AirPods", "Apple Inc.", false,
    ["descriptive use", "nominative use", "compatibility statements"],
    ["brand name", "product endorsement", "trademark registration"])

  const ApplePolicy := TrademarkPolicy("Apple", "Apple Inc.", true,
    ["descriptive use"],
    ["brand name", "company name", "product name"])

  /** The table `initialize_trademarks` fills. */
  const ProtectedTrademarks: map<string, TrademarkPolicy> :=
    map["AirPods" := AirPodsPolicy, "Apple" := ApplePolicy]

  /** The list of fair-use kinds a new checker carries. */
  const CompliantUsages: seq<string> := ["descriptive use", "nominative use", "comparative advertising"]

  const CompliantReason: string := "Usage is compliant with trademark policy"
  const ViolationReason: string := "Usage may violate trademark policy"
  const UnprotectedReason: string := "Trademark not in protected list"

  /** A policy accepts a context when, lowercased, it mentions some allowed
      context and no forbidden one; `requires_permission` is not consulted. */
  predicate Accepts(policy: TrademarkPolicy, context: string)
  {
    var lower := ToLower(context);
    ContainsAny(lower, policy.allowedContexts) && !ContainsAny(lower, policy.forbiddenContexts)
  }

  /** What `check_trademark_usage` returns for a table. */
  function UsageOf(table: map<string, TrademarkPolicy>, term: string, context: string): (u: TrademarkUsage)
    ensures u.term == term && u.context == context
    ensures term !in table ==> u.compliant && u.reason == UnprotectedReason
    ensures term in table ==> u.reason == (if u.compliant then CompliantReason else ViolationReason)
  {
    if term in table then
      var compliant := Accepts(table[term], context);
      TrademarkUsage(term, context, compliant, if compliant then CompliantReason else ViolationReason)
    else
      TrademarkUsage(term, context, true, UnprotectedReason)
  }

  /** The verdict does not depend on the case of the context. */
  lemma UsageIgnoresCase(table: map<string, TrademarkPolicy>, term: string, context: string)
    ensures UsageOf(table, term, ToLower(context)).compliant == UsageOf(table, term, context).compliant
  {
    ToLowerIdempotent(context);
  }

  /** `is_descriptive_use`. */
  predicate IsDescriptiveUse(context: string)
  {
    var lower := ToLower(context);
    Contains(lower, "descriptive") || Contains(lower, "compatibility") || Contains(lower, "works with")
  }

  /** `is_nominative_use`. */
  predicate IsNominativeUse(context: string)
  {
    var lower := ToLower(context);
    Contains(lower, "nominative") || Contains(lower, "refers to") || Contains(lower, "compatible with")
  }

  /** Neither kind of fair use depends on the case of the context. */
  lemma FairUseIgnoresCase(context: string)
    ensures IsDescriptiveUse(ToLower(context)) == IsDescriptiveUse(context)
    ensures IsNominativeUse(ToLower(context)) == IsNominativeUse(context)
  {
    ToLowerIdempotent(context);
  }

  /** Every usage of a protected term that the table accepts is a
      descriptive or a nominative use: each allowed context begins with
      "descriptive", "nominative" or "compatibility". */
  lemma AcceptedUsageIsFairUse(term: string, context: string)
    requires term in ProtectedTrademarks
    requires UsageOf(ProtectedTrademarks, term, context).compliant
    ensures IsDescriptiveUse(context) || IsNominativeUse(context)
  {
    var lower := ToLower(context);
    var allowed := ProtectedTrademarks[term].allowedContexts;
    assert ContainsAny(lower, allowed);
    var k :| 0 <= k < |allowed| && Contains(lower, allowed[k]);
    if allowed[k] == "descriptive use" {
      ContainsPrefix(lower, "descriptive use", "descriptive");
    } else if allowed[k] == "nominative use" {
      ContainsPrefix(lower, "nominative use", "nominative");
    } else {
      assert allowed[k] == "compatibility statements";
      ContainsPrefix(lower, "compatibility statements", "compatibility");
    }
  }

  // ---------------------------------------------------------------------
  // Scanning a text.

  function HoldsTerm(term: string): string -> bool
  {
    line => Contains(line, term)
  }

  /** What `extract_context` returns: the first line of the text that
      contains the term, or the term itself if no line does. */
  function ContextOf(text: string, term: string): (c: string)
    ensures
      var ls := Lines(text);
      (forall i | 0 <= i < |ls| :: !Contains(ls[i], term)) ==> c == term
    ensures
      var ls := Lines(text);
      (exists i | 0 <= i < |ls| :: Contains(ls[i], term)) ==>
        exists i | 0 <= i < |ls| ::
          c == ls[i] && Contains(ls[i], term) && forall k | 0 <= k < i :: !Contains(ls[k], term)
  {
    var ls := Lines(text);
    match FirstIndex(ls, HoldsTerm(term))
    case None => term
    case Some(i) => ls[i]
  }

  /** The usage `scan_text` records for a term, if the text mentions it. */
  function Scanned(table: map<string, TrademarkPolicy>, text: string): string -> Option<TrademarkUsage>
  {
    term => if Contains(text, term) then Some(UsageOf(table, term, ContextOf(text, term))) else Option.None
  }

  function TermOf(u: TrademarkUsage): string
  {
    u.term
  }

  /** The context of a protected term the text mentions contains the term:
      neither term has a line break, so some line of the text holds it. */
  lemma ContextHoldsTerm(text: string, term: string)
    requires term in ProtectedTrademarks && Contains(text, term)
    ensures Contains(ContextOf(text, term), term)
  {
    assert term != [] && '\n' !in term && '\r' !in term by {
      assert term == "AirPods" || term == "Apple";
    }
    ContainedInSomeLine(text, term);
  }

  class TrademarkChecker {
    var protectedTrademarks: map<string, TrademarkPolicy>
    var compliantUsages: seq<string>

    predicate Valid()
      reads this
    {
      protectedTrademarks == ProtectedTrademarks
    }

    /** `new` followed by `initialize_trademarks`. */
    constructor ()
      ensures Valid() && compliantUsages == CompliantUsages
      ensures "AirPods" in protectedTrademarks
    {
      compliantUsages := CompliantUsages;
      var table: map<string, TrademarkPolicy> := map[];
      table := table["AirPods" := AirPodsPolicy];
      table := table["Apple" := ApplePolicy];
      protectedTrademarks := table;
    }

    /** `check_trademark_usage` against the checker's table: AirPods and
        Apple each by their own contexts, every other term compliant. */
    function CheckTrademarkUsage(term: string, context: string): (u: TrademarkUsage)
      reads this
      requires Valid()
      ensures u.term == term && u.context == context
      ensures term != "AirPods" && term != "Apple" ==> u.compliant && u.reason == UnprotectedReason
      ensures term == "AirPods" ==>
        var lower := ToLower(context);
        (u.compliant <==>
          (Contains(lower, "descriptive use") || Contains(lower, "nominative use") ||
           Contains(lower, "compatibility statements")) &&
          !Contains(lower, "brand name") && !Contains(lower, "product endorsement") &&
          !Contains(lower, "trademark registration"))
      ensures term == "Apple" ==>
        var lower := ToLower(context);
        (u.compliant <==>
          Contains(lower, "descriptive use") &&
          !Contains(lower, "brand name") && !Contains(lower, "company name") &&
          !Contains(lower, "product name"))
    {
      var lower := ToLower(context);
      AnyOfThree(lower, "descriptive use", "nominative use", "compatibility statements");
      AnyOfThree(lower, "brand name", "product endorsement", "trademark registration");
      AnyOfThree(lower, "brand name", "company name", "product name");
      AnyOfOne(lower, "descriptive use");
      UsageOf(protectedTrademarks, term, context)
    }

    /** `extract_context`: the lines of the text in order, returning at the
        first that contains the term. */
    method ExtractContext(text: string, term: string) returns (context: string)
      ensures context == ContextOf(text, term)
    {
      var lines := Lines(text);
      for i := 0 to |lines|
        invariant forall k | 0 <= k < i :: !HoldsTerm(term)(lines[k])
      {
        if Contains(lines[i], term) {
          FirstIndexAt(lines, HoldsTerm(term), i);
          return lines[i];
        }
      }
      return term;
    }

    /** `scan_text`: one usage per protected term the text mentions
        (case-sensitively), in the order the table yields its keys, each
        judged in the first line that mentions it. */
    method ScanText(text: string) returns (usages: seq<TrademarkUsage>)
      requires Valid()
      ensures forall i | 0 <= i < |usages| ::
        usages[i].term in ProtectedTrademarks && Contains(text, usages[i].term) &&
        usages[i] == UsageOf(ProtectedTrademarks, usages[i].term, ContextOf(text, usages[i].term))
      ensures forall i | 0 <= i < |usages| :: Contains(usages[i].context, usages[i].term)
      ensures forall i, j | 0 <= i < j < |usages| :: usages[i].term != usages[j].term
      ensures forall t | t in ProtectedTrademarks && Contains(text, t) ::
        exists i | 0 <= i < |usages| :: usages[i].term == t
    {
      usages := CollectByKey(protectedTrademarks.Keys, Scanned(protectedTrademarks, text), TermOf);
      forall i | 0 <= i < |usages|
        ensures Contains(usages[i].context, usages[i].term)
      {
        ContextHoldsTerm(text, usages[i].term);
      }
    }

    /** `check_project_description` and `check_readme` are `scan_text`. */
    method CheckProjectDescription(description: string) returns (usages: seq<TrademarkUsage>)
      requires Valid()
      ensures forall i | 0 <= i < |usages| ::
        usages[i].term in ProtectedTrademarks && Contains(description, usages[i].term) &&
        usages[i] == UsageOf(ProtectedTrademarks, usages[i].term, ContextOf(description, usages[i].term))
      ensures forall i | 0 <= i < |usages| :: Contains(usages[i].context, usages[i].term)
      ensures forall i, j | 0 <= i < j < |usages| :: usages[i].term != usages[j].term
      ensures forall t | t in ProtectedTrademarks && Contains(description, t) ::
        exists i | 0 <= i < |usages| :: usages[i].term == t
    {
      usages := ScanText(description);
    }

    method CheckReadme(readmeContent: string) returns (usages: seq<TrademarkUsage>)
      requires Valid()
      ensures forall i | 0 <= i < |usages| ::
        usages[i].term in ProtectedTrademarks && Contains(readmeContent, usages[i].term) &&
        usages[i] == UsageOf(ProtectedTrademarks, usages[i].term, ContextOf(readmeContent, usages[i].term))
      ensures forall i | 0 <= i < |usages| :: Contains(usages[i].context, usages[i].term)
      ensures forall i, j | 0 <= i < j < |usages| :: usages[i].term != usages[j].term
      ensures forall t | t in ProtectedTrademarks && Contains(readmeContent, t) ::
        exists i | 0 <= i < |usages| :: usages[i].term == t
    {
      usages := ScanText(readmeContent);
    }
  }

  // ---------------------------------------------------------------------
  // The unit tests of the module, as scenarios.

  lemma DescriptiveUseAllowed(s: string)
    requires s == "descriptive use"
    ensures ContainsAny(s, AirPodsPolicy.allowedContexts)
  {
    assert StartsWith(s, AirPodsPolicy.allowedContexts[0]);
  }

  lemma DescriptiveUseNotForbidden(s: string)
    requires s == "descriptive use"
    ensures !ContainsAny(s, AirPodsPolicy.forbiddenContexts)
  {
    var marks := "bom";
    assert forall i | 0 <= i < 3 :: marks[i] !in s;
    NoneContainedByMissingChars(s, AirPodsPolicy.forbiddenContexts, marks);
  }

  lemma DescriptiveUseAccepted(s: string)
    requires s == "descriptive use"
    ensures Accepts(AirPodsPolicy, s)
  {
    ToLowerOfLower(s);
    DescriptiveUseAllowed(s);
    DescriptiveUseNotForbidden(s);
  }

  lemma BrandNameRejected(s: string)
    requires s == "brand name"
    ensures !Accepts(ApplePolicy, s)
  {
    ToLowerOfLower(s);
    assert StartsWith(s, ApplePolicy.forbiddenContexts[0]);
  }

  /** AirPods in a descriptive-use context is compliant; Apple as a brand
      name is not. */
  method UsageScenario() returns (airPods: TrademarkUsage, apple: TrademarkUsage)
    ensures airPods.compliant && !apple.compliant
  {
    var checker := new TrademarkChecker();
    DescriptiveUseAccepted("descriptive use");
    BrandNameRejected("brand name");
    airPods := checker.CheckTrademarkUsage("AirPods", "descriptive use");
    apple := checker.CheckTrademarkUsage("Apple", "brand name");
  }

  /** A text that mentions AirPods gives at least one usage. */
  method ScanScenario() returns (usages: seq<TrademarkUsage>)
    ensures |usages| > 0
  {
    var checker := new TrademarkChecker();
    var text := "This project works with AirPods devices";
    ContainsByChars(text, "AirPods", 24);
    usages := checker.ScanText(text);
  }

  /** A context that begins with a lower-case phrase still begins with it
      once lowercased. */
  lemma LowerPhraseAtFront(phrase: string, tail: string)
    requires forall i | 0 <= i < |phrase| :: !('A' <= phrase[i] <= 'Z')
    ensures Contains(ToLower(phrase + tail), phrase)
  {
    var lower := ToLower(phrase + tail);
    forall i | 0 <= i < |phrase|
      ensures lower[i] == phrase[i]
    {
      assert (phrase + tail)[i] == phrase[i];
    }
    assert lower[..|phrase|] == phrase;
  }

  /** "descriptive use of AirPods" and "works with AirPods" are
      descriptive; "compatible with AirPods" and "refers to AirPods" are
      nominative. */
  lemma FairUseScenario(descriptive: string, worksWith: string, compatible: string, refersTo: string)
    requires descriptive == "descriptive use of AirPods" && worksWith == "works with AirPods"
    requires compatible == "compatible with AirPods" && refersTo == "refers to AirPods"
    ensures IsDescriptiveUse(descriptive) && IsDescriptiveUse(worksWith)
    ensures IsNominativeUse(compatible) && IsNominativeUse(refersTo)
  {
    LowerPhraseAtFront("descriptive", " use of AirPods");
    assert descriptive == "descriptive" + " use of AirPods";
    LowerPhraseAtFront("works with", " AirPods");
    assert worksWith == "works with" + " AirPods";
    LowerPhraseAtFront("compatible with", " AirPods");
    assert compatible == "compatible with" + " AirPods";
    LowerPhraseAtFront("refers to", " AirPods");
    assert refersTo == "refers to" + " AirPods";
  }
}
