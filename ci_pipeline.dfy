// The CI pipeline of crates/core/src/ci_pipeline.rs: a list of stages and
// counters of added stages, of Success and Failed status updates and of
// the reported durations.

module CiPipeline {
  import opened Wrappers
  import opened Seqs

  datatype StageStatus = Pending | Running | Success | Failed | Skipped

  datatype PipelineStage = PipelineStage(
    stageId: string, stageName: string, description: string, commands: seq<string>,
    timeoutSeconds: nat, status: StageStatus, durationMs: nat, errorMessage: Option<string>)

  /** One accepted status update: the status and duration reported. */
  datatype StageUpdate = StageUpdate(status: StageStatus, durationMs: nat)

  const StartedAt: string := "2025-11-21T00:00:00Z"

  function HasId(id: string): PipelineStage -> bool
  {
    (s: PipelineStage) => s.stageId == id
  }

  function HasStatus(status: StageStatus): PipelineStage -> bool
  {
    (s: PipelineStage) => s.status == status
  }

  /** 1 for an update reporting the given status. */
  function Reports(status: StageStatus): StageUpdate -> nat
  {
    (u: StageUpdate) => if u.status == status then 1 else 0
  }

  function Duration(u: StageUpdate): nat
  {
    u.durationMs
  }

  class Pipeline {
    var pipelineId: string
    var branch: string
    var commitHash: string
    var stages: seq<PipelineStage>
    var totalStages: nat
    var completedStages: nat
    var failedStages: nat
    var totalDurationMs: nat
    var startedAt: string
    var completedAt: Option<string>
    /** The accepted status updates, oldest first: the counters count
        these, not the stages. */
    ghost var updates: seq<StageUpdate>

    /** The stage counter counts added stages; the completed and failed
        counters and the duration count accepted updates. */
    ghost predicate Valid()
      reads this
    {
      totalStages == |stages| &&
      completedStages == SumOf(updates, Reports(Success)) &&
      failedStages == SumOf(updates, Reports(Failed)) &&
      totalDurationMs == SumOf(updates, Duration)
    }

    /** `new`: no stages, every counter zero, not completed. */
    constructor (pipelineId: string, branch: string, commitHash: string)
      ensures Valid() && updates == []
      ensures this.pipelineId == pipelineId && this.branch == branch && this.commitHash == commitHash
      ensures stages == [] && totalStages == 0 && completedStages == 0 && failedStages == 0
      ensures totalDurationMs == 0 && startedAt == StartedAt && completedAt == None
    {
      this.pipelineId := pipelineId;
      this.branch := branch;
      this.commitHash := commitHash;
      stages := [];
      totalStages := 0;
      completedStages := 0;
      failedStages := 0;
      totalDurationMs := 0;
      startedAt := StartedAt;
      completedAt := None;
      updates := [];
    }

    /** `add_stage`: appends and counts the stage; its status, even Success
        or Failed, is not counted. */
    method AddStage(stage: PipelineStage)
      requires Valid()
      modifies this`stages, this`totalStages
      ensures Valid()
      ensures stages == old(stages) + [stage] && totalStages == old(totalStages) + 1
    {
      totalStages := totalStages + 1;
      stages := stages + [stage];
    }

    /** `update_stage_status`: false and no change for an unknown id;
        otherwise the first stage with the id gets the status and duration,
        the duration is added to the total, and a Success or a Failed
        status is counted once more, whatever the stage's earlier status. */
    method UpdateStageStatus(stageId: string, status: StageStatus, durationMs: nat) returns (found: bool)
      requires Valid()
      modifies this`stages, this`updates, this`completedStages, this`failedStages, this`totalDurationMs
      ensures Valid()
      ensures found <==> FirstIndex(old(stages), HasId(stageId)).Some?
      ensures !found ==> stages == old(stages) && updates == old(updates) &&
                         completedStages == old(completedStages) && failedStages == old(failedStages) &&
                         totalDurationMs == old(totalDurationMs)
      ensures found ==>
        var i := FirstIndex(old(stages), HasId(stageId)).value;
        stages == old(stages)[i := old(stages)[i].(status := status, durationMs := durationMs)] &&
        updates == old(updates) + [StageUpdate(status, durationMs)] &&
        totalDurationMs == old(totalDurationMs) + durationMs &&
        completedStages == old(completedStages) + (if status == Success then 1 else 0) &&
        failedStages == old(failedStages) + (if status == Failed then 1 else 0)
    {
      match FirstIndex(stages, HasId(stageId)) {
        case None =>
          found := false;
        case Some(i) =>
          var update := StageUpdate(status, durationMs);
          SumOfSnoc(updates, update, Reports(Success));
          SumOfSnoc(updates, update, Reports(Failed));
          SumOfSnoc(updates, update, Duration);
          stages := stages[i := stages[i].(status := status, durationMs := durationMs)];
          totalDurationMs := totalDurationMs + durationMs;
          if status == Success {
            completedStages := completedStages + 1;
          } else if status == Failed {
            failedStages := failedStages + 1;
          }
          updates := updates + [update];
          found := true;
      }
    }

    /** `is_successful`: no failed update and as many Success updates as
        stages, so a successful pipeline with stages has a success rate of
        100 percent. */
    predicate IsSuccessful(): (r: bool)
      reads this
      ensures r && totalStages > 0 ==> SuccessRate() == 100.0
    {
      failedStages == 0 && completedStages == totalStages
    }

    /** `get_success_rate`: 0 without stages, else completed over total in
        percent; not bounded by 100, since the completed counter counts
        updates. */
    function SuccessRate(): (r: real)
      reads this
      ensures totalStages == 0 || completedStages == 0 ==> r == 0.0
      ensures totalStages > 0 && completedStages == totalStages ==> r == 100.0
      ensures totalStages > 0 && completedStages > totalStages ==> r > 100.0
      ensures r >= 0.0
    {
      if totalStages == 0 then 0.0
      else
        RatioAboveOne(completedStages as real, totalStages as real);
        completedStages as real / totalStages as real * 100.0
    }

    /** `get_stages_by_status`: the stages with that status, in order. */
    function StagesByStatus(status: StageStatus): (r: seq<PipelineStage>)
      reads this
      ensures forall s :: s in r <==> s in stages && s.status == status
      ensures |r| <= |stages|
    {
      FilterMembersAll(stages, HasStatus(status));
      Filter(stages, HasStatus(status))
    }

    /** The Success and the Failed updates together are at most all
        updates. */
    lemma CountersWithinUpdates()
      requires Valid()
      ensures completedStages + failedStages <= |updates|
    {
      UpdateCountsBounded(updates);
    }
  }

  /** A share of more than the whole is more than 100 percent. */
  lemma RatioAboveOne(part: real, whole: real)
    requires whole > 0.0
    ensures part == 0.0 ==> part / whole * 100.0 == 0.0
    ensures part == whole ==> part / whole * 100.0 == 100.0
    ensures part > whole ==> part / whole * 100.0 > 100.0
    ensures part >= 0.0 ==> part / whole * 100.0 >= 0.0
  {
    if part > whole {
      assert part / whole > 1.0;
    }
  }

  lemma {:induction false} UpdateCountsBounded(updates: seq<StageUpdate>)
    ensures SumOf(updates, Reports(Success)) + SumOf(updates, Reports(Failed)) <= |updates|
    decreases |updates|
  {
    if updates != [] {
      var front := updates[..|updates| - 1];
      UpdateCountsBounded(front);
      assert updates == front + [updates[|updates| - 1]];
      SumOfSnoc(front, updates[|updates| - 1], Reports(Success));
      SumOfSnoc(front, updates[|updates| - 1], Reports(Failed));
    }
  }

  // ---------------------------------------------------------------------
  // The unit tests of the module, as scenarios.

  function BuildStage(id: string): PipelineStage
  {
    PipelineStage(id, "Build", "Build stage", ["cargo build"], 300, Pending, 0, None)
  }

  /** One stage marked Success: one completed stage and a successful
      pipeline; marking it Failed instead makes it unsuccessful; an unknown
      id is refused. */
  method StatusScenario() returns (completed: nat, successful: bool, failedOne: bool, unknown: bool)
    ensures completed == 1 && successful && failedOne && !unknown
  {
    var pipeline := new Pipeline("pipeline-1", "main", "abc123");
    pipeline.AddStage(BuildStage("build"));
    assert HasId("build")(pipeline.stages[0]);
    var _ := pipeline.UpdateStageStatus("build", Success, 5000);
    completed, successful := pipeline.completedStages, pipeline.IsSuccessful();

    var other := new Pipeline("pipeline-1", "main", "abc123");
    other.AddStage(BuildStage("build"));
    assert HasId("build")(other.stages[0]);
    var _ := other.UpdateStageStatus("build", Failed, 5000);
    failedOne := other.failedStages == 1 && !other.IsSuccessful();
    assert !HasId("lint")(other.stages[0]);
    unknown := other.UpdateStageStatus("lint", Success, 10);
  }

  /** Reporting Success twice for the only stage counts two completed
      stages out of one: the pipeline is then not successful, and the
      durations of both reports add up. */
  method DoubleSuccessScenario() returns (completed: nat, total: nat, successful: bool, duration: nat)
    ensures completed == 2 && total == 1 && !successful && duration == 3000
  {
    var pipeline := new Pipeline("pipeline-1", "main", "abc123");
    pipeline.AddStage(BuildStage("build"));
    assert HasId("build")(pipeline.stages[0]);
    var _ := pipeline.UpdateStageStatus("build", Success, 1000);
    assert HasId("build")(pipeline.stages[0]);
    var _ := pipeline.UpdateStageStatus("build", Success, 2000);
    completed, total := pipeline.completedStages, pipeline.totalStages;
    successful, duration := pipeline.IsSuccessful(), pipeline.totalDurationMs;
  }
}
