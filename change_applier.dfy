// The change log and the change applier of crates/core/src/change_applier.rs:
// a log of applied changes with success counters, and a store of the
// changes applied so far keyed by an id made from the change type and path.

module ChangeApplier {
  import opened Wrappers
  import opened Seqs
  import opened Text

  datatype ChangeType = Add | Modify | Delete | Rename

  datatype AppliedChange = AppliedChange(
    changeId: string, filePath: string, changeType: ChangeType,
    oldContent: Option<string>, newContent: Option<string>,
    timestamp: string, appliedBy: string, success: bool, errorMessage: Option<string>)

  /** The timestamp of a new log and of every applied change. */
  const Timestamp: string := "2025-11-21T00:00:00Z"
  const AppliedBy: string := "system"

  function Succeeded(): AppliedChange -> bool
  {
    (c: AppliedChange) => c.success
  }

  function OfType(t: ChangeType): AppliedChange -> bool
  {
    (c: AppliedChange) => c.changeType == t
  }

  class ChangeLog {
    var changes: seq<AppliedChange>
    var totalChanges: nat
    var successfulChanges: nat
    var failedChanges: nat
    var startTime: string
    var endTime: string

    /** The counters are those of the list: all, the successful and the
        failed changes. */
    predicate Valid()
      reads this
    {
      totalChanges == |changes| &&
      successfulChanges == |Filter(changes, Succeeded())| &&
      failedChanges == |Filter(changes, Not(Succeeded()))|
    }

    /** `new`: empty, started at the fixed timestamp, not ended. */
    constructor ()
      ensures Valid()
      ensures changes == [] && totalChanges == 0 && successfulChanges == 0 && failedChanges == 0
      ensures startTime == Timestamp && endTime == ""
    {
      changes := [];
      totalChanges := 0;
      successfulChanges := 0;
      failedChanges := 0;
      startTime := Timestamp;
      endTime := "";
    }

    /** `add_change`: appends the change and counts it in the total and in
        exactly one of the successful and the failed counters. */
    method AddChange(change: AppliedChange)
      requires Valid()
      modifies this
      ensures Valid()
      ensures changes == old(changes) + [change] && totalChanges == old(totalChanges) + 1
      ensures successfulChanges == old(successfulChanges) + (if change.success then 1 else 0)
      ensures failedChanges == old(failedChanges) + (if change.success then 0 else 1)
      ensures unchanged(`startTime) && unchanged(`endTime)
    {
      totalChanges := totalChanges + 1;
      if change.success {
        successfulChanges := successfulChanges + 1;
      } else {
        failedChanges := failedChanges + 1;
      }
      FilterSnoc(changes, change, Succeeded());
      FilterSnoc(changes, change, Not(Succeeded()));
      changes := changes + [change];
    }

    /** In a valid log every change is either successful or failed. */
    lemma TotalIsSuccessfulPlusFailed()
      requires Valid()
      ensures totalChanges == successfulChanges + failedChanges
    {
      FilterPartition(changes, Succeeded());
    }

    /** `get_success_rate`: 0 for an empty log, else the share of
        successful changes in percent. */
    function SuccessRate(): (r: real)
      reads this
      ensures totalChanges == 0 || successfulChanges == 0 ==> r == 0.0
      ensures totalChanges > 0 && successfulChanges == totalChanges ==> r == 100.0
      ensures successfulChanges <= totalChanges ==> 0.0 <= r <= 100.0
    {
      if totalChanges == 0 then 0.0
      else successfulChanges as real / totalChanges as real * 100.0
    }

    /** `get_changes_by_type`: the changes of that type, in order. */
    function ChangesByType(t: ChangeType): (r: seq<AppliedChange>)
      reads this
      ensures forall c :: c in r <==> c in changes && c.changeType == t
    {
      FilterMembersAll(changes, OfType(t));
      Filter(changes, OfType(t))
    }

    /** `get_failed_changes`: the failed changes, in order; in a valid log
        as many as the failed counter says. */
    function FailedChanges(): (r: seq<AppliedChange>)
      reads this
      ensures forall c :: c in r <==> c in changes && !c.success
      ensures Valid() ==> |r| == failedChanges
    {
      FilterMembersAll(changes, Not(Succeeded()));
      Filter(changes, Not(Succeeded()))
    }
  }

  /** The id of a change: the prefix of its type followed by the path with
      every '/' turned into '-'. */
  function ChangeId(prefix: string, path: string): (r: string)
    ensures StartsWith(r, prefix) && |r| == |prefix| + |path|
    ensures forall k | 0 <= k < |path| :: r[|prefix| + k] == if path[k] == '/' then '-' else path[k]
    ensures '/' !in prefix ==> '/' !in r
  {
    prefix + ReplaceChar(path, '/', '-')
  }

  const AddPrefix: string := "add-"
  const ModifyPrefix: string := "modify-"
  const DeletePrefix: string := "delete-"
  const RenamePrefix: string := "rename-"

  /** The id of a rename: both paths with '/' turned into '-', joined by
      '-'. */
  function RenameId(oldPath: string, newPath: string): (r: string)
    ensures StartsWith(r, RenamePrefix)
    ensures '/' !in r
  {
    var a := ChangeId(RenamePrefix, oldPath);
    var b := ChangeId("-", newPath);
    assert '/' !in RenamePrefix && '/' !in "-";
    assert (a + b)[..|RenamePrefix|] == a[..|RenamePrefix|];
    a + b
  }

  /** The record every `apply_*` stores: applied by the system at the fixed
      timestamp, successful and without an error. */
  predicate Applied(c: AppliedChange, id: string, path: string, t: ChangeType,
                    oldContent: Option<string>, newContent: Option<string>)
  {
    c == AppliedChange(id, path, t, oldContent, newContent, Timestamp, AppliedBy, true, None)
  }

  /** The ids of two different change types never collide: their prefixes
      differ in the first character. */
  lemma TypesNeverCollide(p: string, q: string)
    ensures ChangeId(AddPrefix, p) != ChangeId(ModifyPrefix, q)
    ensures ChangeId(AddPrefix, p) != ChangeId(DeletePrefix, q)
    ensures ChangeId(ModifyPrefix, p) != ChangeId(DeletePrefix, q)
    ensures forall r :: ChangeId(AddPrefix, p) != RenameId(q, r) && ChangeId(ModifyPrefix, p) != RenameId(q, r)
    ensures forall r :: ChangeId(DeletePrefix, p) != RenameId(q, r)
  {
    assert ChangeId(AddPrefix, p)[0] == 'a';
    assert ChangeId(ModifyPrefix, q)[0] == 'm' && ChangeId(ModifyPrefix, p)[0] == 'm';
    assert ChangeId(DeletePrefix, q)[0] == 'd' && ChangeId(DeletePrefix, p)[0] == 'd';
    forall r
      ensures RenameId(q, r)[0] == 'r'
    {
      assert StartsWith(RenameId(q, r), RenamePrefix);
    }
  }

  /** Paths without '-' get distinct ids: the replacement can be undone. */
  lemma IdsDistinctWithoutDash(prefix: string, p: string, q: string)
    requires '-' !in p && '-' !in q && p != q
    ensures ChangeId(prefix, p) != ChangeId(prefix, q)
  {
    if |p| == |q| {
      var k :| 0 <= k < |p| && p[k] != q[k];
      assert ChangeId(prefix, p)[|prefix| + k] != ChangeId(prefix, q)[|prefix| + k];
    }
  }

  /** A path with '/' and the same path with '-' in its place share an id. */
  lemma SlashAndDashCollide(prefix: string)
    ensures ChangeId(prefix, "a/b") == ChangeId(prefix, "a-b")
  {
    assert ReplaceChar("a/b", '/', '-') == "a-b";
    assert ReplaceChar("a-b", '/', '-') == "a-b";
  }

  class Applier {
    var appliedChanges: map<string, AppliedChange>

    /** Each change is stored under its own id. */
    predicate Valid()
      reads this
    {
      forall id | id in appliedChanges :: appliedChanges[id].changeId == id
    }

    constructor ()
      ensures Valid() && appliedChanges == map[]
    {
      appliedChanges := map[];
    }

    /** `apply_add`: records the new content of a file; always succeeds. */
    method ApplyAdd(filePath: string, content: string) returns (change: AppliedChange)
      modifies this
      ensures Applied(change, ChangeId(AddPrefix, filePath), filePath, Add, None, Some(content))
      ensures appliedChanges == old(appliedChanges)[change.changeId := change]
      ensures old(Valid()) ==> Valid()
    {
      change := AppliedChange(ChangeId(AddPrefix, filePath), filePath, Add, None, Some(content),
                              Timestamp, AppliedBy, true, None);
      appliedChanges := appliedChanges[change.changeId := change];
    }

    /** `apply_modify`: records the old and new content; always succeeds. */
    method ApplyModify(filePath: string, oldContent: string, newContent: string) returns (change: AppliedChange)
      modifies this
      ensures Applied(change, ChangeId(ModifyPrefix, filePath), filePath, Modify, Some(oldContent), Some(newContent))
      ensures appliedChanges == old(appliedChanges)[change.changeId := change]
      ensures old(Valid()) ==> Valid()
    {
      change := AppliedChange(ChangeId(ModifyPrefix, filePath), filePath, Modify, Some(oldContent), Some(newContent),
                              Timestamp, AppliedBy, true, None);
      appliedChanges := appliedChanges[change.changeId := change];
    }

    /** `apply_delete`: records the old content; always succeeds. */
    method ApplyDelete(filePath: string, oldContent: string) returns (change: AppliedChange)
      modifies this
      ensures Applied(change, ChangeId(DeletePrefix, filePath), filePath, Delete, Some(oldContent), None)
      ensures appliedChanges == old(appliedChanges)[change.changeId := change]
      ensures old(Valid()) ==> Valid()
    {
      change := AppliedChange(ChangeId(DeletePrefix, filePath), filePath, Delete, Some(oldContent), None,
                              Timestamp, AppliedBy, true, None);
      appliedChanges := appliedChanges[change.changeId := change];
    }

    /** `apply_rename`: the file path is the new path and the old path is
        kept in the old-content slot; always succeeds. */
    method ApplyRename(oldPath: string, newPath: string) returns (change: AppliedChange)
      modifies this
      ensures Applied(change, RenameId(oldPath, newPath), newPath, Rename, Some(oldPath), None)
      ensures appliedChanges == old(appliedChanges)[change.changeId := change]
      ensures old(Valid()) ==> Valid()
    {
      change := AppliedChange(RenameId(oldPath, newPath), newPath, Rename, Some(oldPath), None,
                              Timestamp, AppliedBy, true, None);
      appliedChanges := appliedChanges[change.changeId := change];
    }

    /** `get_applied_change`: the change last stored under the id. */
    function GetAppliedChange(changeId: string): (r: Option<AppliedChange>)
      reads this
      ensures r.Some? <==> changeId in appliedChanges
      ensures Valid() && r.Some? ==> r.value.changeId == changeId
    {
      if changeId in appliedChanges then Some(appliedChanges[changeId]) else None
    }

    /** `get_all_changes`: every stored change once, in the map's order,
        which the model leaves open. */
    method GetAllChanges() returns (all: seq<AppliedChange>)
      ensures |all| == |appliedChanges|
      ensures forall c :: c in all <==> c in appliedChanges.Values
    {
      all := [];
      var todo := appliedChanges.Keys;
      while todo != {}
        invariant todo <= appliedChanges.Keys
        invariant |all| + |todo| == |appliedChanges|
        invariant forall c :: c in all ==> c in appliedChanges.Values
        invariant forall id | id in appliedChanges.Keys - todo :: appliedChanges[id] in all
        decreases |todo|
      {
        var id :| id in todo;
        all := all + [appliedChanges[id]];
        todo := todo - {id};
      }
      forall c | c in appliedChanges.Values
        ensures c in all
      {
        var id :| id in appliedChanges && appliedChanges[id] == c;
      }
    }
  }

  // ---------------------------------------------------------------------
  // The unit tests of the module, as scenarios.

  function LoggedChange(success: bool): AppliedChange
  {
    AppliedChange("test-1", "test.rs", Add, None, Some("code"), Timestamp, "dev", success,
                  if success then None else Some("Error"))
  }

  /** Ten changes of which the first eight succeed: a success rate of 80. */
  method SuccessRateScenario() returns (rate: real, total: nat, failed: nat)
    ensures rate == 80.0 && total == 10 && failed == 2
  {
    var log := new ChangeLog();
    var i := 0;
    while i < 10
      invariant 0 <= i <= 10 && log.Valid()
      invariant log.totalChanges == i && log.successfulChanges == (if i < 8 then i else 8)
      invariant log.failedChanges == (if i < 8 then 0 else i - 8)
    {
      log.AddChange(LoggedChange(i < 8));
      i := i + 1;
    }
    rate, total, failed := log.SuccessRate(), log.totalChanges, log.failedChanges;
  }

  /** Adding "a/b" and then "a-b" stores both under "add-a-b": the second
      replaces the first. */
  method CollisionScenario() returns (stored: Option<AppliedChange>, size: nat)
    ensures stored.Some? && stored.value.filePath == "a-b" && size == 1
  {
    var applier := new Applier();
    SlashAndDashCollide(AddPrefix);
    var first := applier.ApplyAdd("a/b", "1");
    var second := applier.ApplyAdd("a-b", "2");
    stored := applier.GetAppliedChange(ChangeId(AddPrefix, "a/b"));
    size := |applier.appliedChanges|;
  }
}
