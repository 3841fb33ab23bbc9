/** The execute bodies of the workflow tools. Starting a Temporal workflow and awaiting
    its result is the oracle `temporal`; the background block that follows a run is
    modelled as the sequential steps it takes after the tool has replied. */
module WorkflowTools {
  import opened Wrappers
  import opened Json
  import opened Types
  import opened Storage

  datatype ListReply = ListReply(workflows: seq<Workflow>, count: nat)

  /** `listWorkflows`: every workflow, with `count` the number listed. */
  method ListWorkflowsTool(store: WorkflowStore) returns (reply: ListReply)
    ensures reply.workflows == store.Workflows() && reply.count == |reply.workflows|
    ensures store.workflowsFile.None? ==> reply.count == 3
  {
    var workflows := store.GetWorkflows();
    reply := ListReply(seq(|workflows|, i requires 0 <= i < |workflows| =>
      Workflow(workflows[i].id, workflows[i].name, workflows[i].description)), |workflows|);
  }

  /** `workflow?.name || run.workflowId`. */
  function DisplayName(workflow: Option<Workflow>, workflowId: string): (r: string)
    ensures workflow.Some? && workflow.value.name != "" ==> r == workflow.value.name
    ensures workflow.None? || workflow.value.name == "" ==> r == workflowId
  {
    if workflow.Some? && workflow.value.name != "" then workflow.value.name else workflowId
  }

  datatype RunReply =
    | RunDetail(runId: string, workflowId: string, workflowName: string, status: WorkflowStatus,
                parameters: Json, result: Json, startedAt: Timestamp, completedAt: Option<Timestamp>)
    | RunError(error: string)

  const RunNotFound: string := "Workflow run not found"

  /** `getWorkflowRun`: the run with its workflow's name, or an error for an unknown run. */
  method GetWorkflowRunTool(store: WorkflowStore, runId: string) returns (reply: RunReply)
    ensures Find(store.Runs(), RunKey, runId).None? <==> reply == RunError(RunNotFound)
    ensures Find(store.Runs(), RunKey, runId).Some? ==>
      var run := Find(store.Runs(), RunKey, runId).value;
      && reply.RunDetail?
      && reply.runId == run.id == runId && reply.workflowId == run.workflowId && reply.status == run.status
      && reply.parameters == run.parameters && reply.result == run.result && reply.startedAt == run.startedAt
      && reply.workflowName == DisplayName(Find(store.Workflows(), WorkflowKey, run.workflowId), run.workflowId)
      && (reply.completedAt.Some? <==> run.completedAt.Some? && run.completedAt.value != "")
      && (reply.completedAt.Some? ==> reply.completedAt == run.completedAt)
  {
    var found := store.GetRun(runId);
    if found.None? {
      return RunError(RunNotFound);
    }
    var run := found.value;
    var workflow := store.GetWorkflow(run.workflowId);
    reply := RunDetail(run.id, run.workflowId, DisplayName(workflow, run.workflowId), run.status,
      run.parameters, run.result, run.startedAt,
      if run.completedAt.Some? && run.completedAt.value != "" then run.completedAt else None);
  }

  datatype WorkflowKind = DataProcessing | ReportGeneration | LongRunning

  /** The `switch (workflowId)` choosing the workflow function. */
  function KindOf(workflowId: string): (r: Option<WorkflowKind>)
    ensures r == Some(DataProcessing) <==> workflowId == "data-processing"
    ensures r == Some(ReportGeneration) <==> workflowId == "report-generation"
    ensures r == Some(LongRunning) <==> workflowId == "long-running-processing"
  {
    match workflowId
    case "data-processing" => Some(DataProcessing)
    case "report-generation" => Some(ReportGeneration)
    case "long-running-processing" => Some(LongRunning)
    case _ => None
  }

  /** The Temporal workflow id of a run. */
  function TemporalId(workflowId: string, runId: string): string {
    workflowId + "-" + runId
  }

  datatype StartReply =
    | Started(runId: string, workflowId: string, workflowName: string, status: WorkflowStatus, message: string)
    | StartError(error: string)

  function StartedMessage(name: string, runId: string): string {
    "Started workflow \"" + name + "\". Use getWorkflowRun with runId \"" + runId + "\" to check status."
  }

  /** The immediate part of `runWorkflow`: check the workflow exists, record a pending run
      and reply. */
  method StartWorkflowRun(store: WorkflowStore, workflowId: string, parameters: Json, runId: string, now: Timestamp)
    returns (reply: StartReply, workflow: Option<Workflow>)
    modifies store
    ensures workflow == Find(old(store.Workflows()), WorkflowKey, workflowId)
    ensures store.workflowsFile == old(store.workflowsFile)
    ensures workflow.None? ==>
      reply == StartError("Workflow \"" + workflowId + "\" not found") && store.runsFile == old(store.runsFile)
    ensures workflow.Some? ==>
      && store.runsFile == Some(old(store.Runs()) + [WorkflowRun(runId, workflowId, Pending, now, None, parameters, JUndefined, None)])
      && reply == Started(runId, workflow.value.id, workflow.value.name, Pending, StartedMessage(workflow.value.name, runId))
  {
    workflow := store.GetWorkflow(workflowId);
    if workflow.None? {
      return StartError("Workflow \"" + workflowId + "\" not found"), workflow;
    }
    var run := store.CreateRun(NewRun(workflowId, Pending, None, parameters, JUndefined, None), runId, now);
    reply := Started(run.id, workflow.value.id, workflow.value.name, Pending, StartedMessage(workflow.value.name, run.id));
  }

  /** What the background block meets: whether the Temporal client can be had, the
      workflow's outcome, the two `new Date()` readings, the new artifact's id and time,
      and whether writing that artifact fails. */
  datatype Background = Background(
    clientError: Option<string>,
    temporal: (WorkflowKind, string, Json) -> Result<Json>,
    completedAt: Timestamp,
    failedAt: Timestamp,
    artifactId: string,
    artifactAt: Timestamp,
    artifactError: Option<string>)

  const ResultTag: string := "workflow-result"

  /** `result && typeof result === 'object' && 'content' in result`. */
  predicate HasContent(result: Json) {
    HasKey(result, "content")
  }

  /** The artifact saved for a result with content. */
  function ResultArtifact(workflow: Workflow, workflowId: string, result: Json, env: Background): (a: Artifact)
    ensures a.title == "Workflow Result: " + workflow.name
    ensures a.tags == [ResultTag, workflowId]
  {
    var content := Get(result, "content");
    Artifact(env.artifactId, "Workflow Result: " + workflow.name, if content.JStr? then content.s else "",
      [ResultTag, workflowId], env.artifactAt, env.artifactAt)
  }

  function RunningPatch(): RunPatch { RunPatch(Some(Running), None, None, None) }

  function CompletedPatch(result: Json, env: Background): RunPatch {
    RunPatch(Some(Completed), Some(env.completedAt), Some(result), None)
  }

  function FailedPatch(message: string, env: Background): RunPatch {
    RunPatch(Some(Failed), Some(env.failedAt), Some(JObj([("error", JStr(message))])), None)
  }

  /** Whether the background block ends with the run completed: the client is available,
      the workflow id is known, the workflow succeeds, and no artifact write fails. */
  predicate Succeeds(runId: string, workflowId: string, parameters: Json, env: Background) {
    && env.clientError.None? && KindOf(workflowId).Some?
    && var outcome := env.temporal(KindOf(workflowId).value, TemporalId(workflowId, runId), parameters);
       outcome.Success? && !(HasContent(outcome.value) && env.artifactError.Some?)
  }

  /** The statuses a run passes through, its final record, and the artifact saved. */
  datatype Lifecycle = Lifecycle(statuses: seq<WorkflowStatus>, finalRun: WorkflowRun, artifact: Option<Artifact>)

  /** The background block of `runWorkflow`, run to its end on the run record `run`. */
  function RunLifecycle(run: WorkflowRun, workflow: Workflow, workflowId: string, parameters: Json, env: Background)
    : (l: Lifecycle)
    ensures |l.statuses| >= 2 && l.statuses[0] == Pending && l.statuses[|l.statuses| - 1] == l.finalRun.status
    ensures l.statuses in {[Pending, Failed], [Pending, Running, Failed], [Pending, Running, Completed],
                           [Pending, Running, Completed, Failed]}
    ensures l.finalRun.id == run.id && l.finalRun.workflowId == run.workflowId
    ensures l.finalRun.startedAt == run.startedAt && l.finalRun.parameters == run.parameters
    ensures l.finalRun.status == Completed <==> Succeeds(run.id, workflowId, parameters, env)
    ensures l.finalRun.status == Completed ==>
      && l.finalRun.completedAt == Some(env.completedAt)
      && l.finalRun.result == env.temporal(KindOf(workflowId).value, TemporalId(workflowId, run.id), parameters).value
    ensures l.finalRun.status == Failed ==>
      && l.finalRun.completedAt == Some(env.failedAt)
      && Get(l.finalRun.result, "error").JStr?
    ensures l.artifact.Some? <==> l.finalRun.status == Completed && HasContent(l.finalRun.result)
    ensures l.artifact.Some? ==> l.artifact.value == ResultArtifact(workflow, workflowId, l.finalRun.result, env)
  {
    if env.clientError.Some? then
      Lifecycle([Pending, Failed], PatchRun(run, FailedPatch(env.clientError.value, env), run.id), None)
    else
      var running := PatchRun(run, RunningPatch(), run.id);
      var kind := KindOf(workflowId);
      if kind.None? then
        Lifecycle([Pending, Running, Failed],
          PatchRun(running, FailedPatch("Unknown workflow: " + workflowId, env), run.id), None)
      else
        match env.temporal(kind.value, TemporalId(workflowId, run.id), parameters)
        case Failure(e) =>
          Lifecycle([Pending, Running, Failed], PatchRun(running, FailedPatch(e, env), run.id), None)
        case Success(result) =>
          var completed := PatchRun(running, CompletedPatch(result, env), run.id);
          if !HasContent(result) then
            Lifecycle([Pending, Running, Completed], completed, None)
          else if env.artifactError.Some? then
            var failed := PatchRun(completed, FailedPatch(env.artifactError.value, env), run.id);
            assert !HasContent(failed.result) by {
              assert failed.result.fields == [("error", JStr(env.artifactError.value))];
            }
            Lifecycle([Pending, Running, Completed, Failed], failed, None)
          else
            Lifecycle([Pending, Running, Completed], completed, Some(ResultArtifact(workflow, workflowId, result, env)))
  }

  /** The failure result `{error: message}` has an `error` field holding the message. */
  lemma FailedResultCarriesMessage(message: string, env: Background)
    ensures Get(FailedPatch(message, env).result.value, "error") == JStr(message)
  {
  }

  /** One `updateRun` of the background block on run `i` of the runs file as it was at
      the start, whose record is now `cur`. */
  method SetRun(store: WorkflowStore, runId: string, runs0: seq<WorkflowRun>, i: nat, cur: WorkflowRun, patch: RunPatch)
    returns (next: WorkflowRun)
    requires FindIndex(runs0, RunKey, runId) == Some(i) && cur.id == runId
    requires store.Runs() == runs0[i := cur]
    modifies store
    ensures next == PatchRun(cur, patch, runId)
    ensures store.runsFile == Some(runs0[i := next]) && store.Runs() == runs0[i := next]
    ensures store.workflowsFile == old(store.workflowsFile)
  {
    FindIndexAfterUpdate(runs0, RunKey, runId, cur);
    var u := store.UpdateRun(runId, patch);
    next := u.value;
    assert runs0[i := cur][i := next] == runs0[i := next];
  }

  /** The completion of a run: record the result, then save a result artifact when the
      result has content (which fails when the artifact cannot be written). */
  method Complete(store: WorkflowStore, artifacts: ArtifactStore, runId: string, runs0: seq<WorkflowRun>, i: nat,
                  cur: WorkflowRun, workflow: Workflow, workflowId: string, result: Json, env: Background)
    returns (next: WorkflowRun, failure: Option<string>)
    requires FindIndex(runs0, RunKey, runId) == Some(i) && cur.id == runId
    requires store.Runs() == runs0[i := cur]
    modifies store, artifacts
    ensures next == PatchRun(cur, CompletedPatch(result, env), runId)
    ensures store.runsFile == Some(runs0[i := next]) && store.Runs() == runs0[i := next]
    ensures store.workflowsFile == old(store.workflowsFile)
    ensures failure == (if HasContent(result) then env.artifactError else None)
    ensures artifacts.file == (if HasContent(result) && env.artifactError.None?
      then Some(old(artifacts.Artifacts()) + [ResultArtifact(workflow, workflowId, result, env)]) else old(artifacts.file))
  {
    next := SetRun(store, runId, runs0, i, cur, CompletedPatch(result, env));
    failure := None;
    if HasContent(result) {
      if env.artifactError.Some? {
        failure := env.artifactError;
      } else {
        var _ := artifacts.CreateArtifact(
          NewArtifact("Workflow Result: " + workflow.name, ResultArtifact(workflow, workflowId, result, env).content,
            [ResultTag, workflowId]),
          env.artifactId, env.artifactAt);
      }
    }
  }

  /** The background block of `runWorkflow`, as its sequence of storage updates. */
  method RunInBackground(store: WorkflowStore, artifacts: ArtifactStore, runId: string, workflow: Workflow,
                         workflowId: string, parameters: Json, env: Background)
    returns (statuses: seq<WorkflowStatus>)
    requires FindIndex(store.Runs(), RunKey, runId).Some?
    modifies store, artifacts
    ensures store.workflowsFile == old(store.workflowsFile)
    ensures var i := FindIndex(old(store.Runs()), RunKey, runId).value;
      statuses == RunLifecycle(old(store.Runs())[i], workflow, workflowId, parameters, env).statuses
    ensures var i := FindIndex(old(store.Runs()), RunKey, runId).value;
      store.runsFile == Some(old(store.Runs())[i := RunLifecycle(old(store.Runs())[i], workflow, workflowId, parameters, env).finalRun])
    ensures var i := FindIndex(old(store.Runs()), RunKey, runId).value;
      var l := RunLifecycle(old(store.Runs())[i], workflow, workflowId, parameters, env);
      artifacts.file == (if l.artifact.Some? then Some(old(artifacts.Artifacts()) + [l.artifact.value]) else old(artifacts.file))
  {
    var i := FindIndex(store.Runs(), RunKey, runId).value;
    var runs0 := store.Runs();
    var run0 := runs0[i];
    assert runs0[i := run0] == runs0;
    statuses := [Pending];
    var failure: Option<string> := None;
    var current := run0;
    if env.clientError.Some? {
      failure := env.clientError;
    } else {
      current := SetRun(store, runId, runs0, i, current, RunningPatch());
      statuses := statuses + [Running];
      var kind := KindOf(workflowId);
      if kind.None? {
        failure := Some("Unknown workflow: " + workflowId);
      } else {
        var outcome := env.temporal(kind.value, TemporalId(workflowId, runId), parameters);
        if outcome.Failure? {
          failure := Some(outcome.error);
        } else {
          current, failure := Complete(store, artifacts, runId, runs0, i, current, workflow, workflowId, outcome.value, env);
          statuses := statuses + [Completed];
        }
      }
    }
    if failure.Some? {
      current := SetRun(store, runId, runs0, i, current, FailedPatch(failure.value, env));
      statuses := statuses + [Failed];
    }
    assert current == RunLifecycle(run0, workflow, workflowId, parameters, env).finalRun;
  }

  /** The run record `runWorkflow` creates. */
  function PendingRun(runId: string, workflowId: string, parameters: Json, now: Timestamp): WorkflowRun {
    WorkflowRun(runId, workflowId, Pending, now, None, parameters, JUndefined, None)
  }

  /** `runWorkflow`: the immediate reply, then the background block to its end. For a run
      id not used before, the new run ends as the lifecycle says. */
  method RunWorkflowTool(store: WorkflowStore, artifacts: ArtifactStore, workflowId: string, parameters: Json,
                         runId: string, now: Timestamp, env: Background)
    returns (reply: StartReply, statuses: seq<WorkflowStatus>)
    modifies store, artifacts
    ensures Find(old(store.Workflows()), WorkflowKey, workflowId).None? ==>
      && reply == StartError("Workflow \"" + workflowId + "\" not found") && statuses == []
      && store.runsFile == old(store.runsFile) && artifacts.file == old(artifacts.file)
    ensures Find(old(store.Workflows()), WorkflowKey, workflowId).Some? ==>
      var w := Find(old(store.Workflows()), WorkflowKey, workflowId).value;
      reply == Started(runId, w.id, w.name, Pending, StartedMessage(w.name, runId))
    ensures Find(old(store.Workflows()), WorkflowKey, workflowId).Some? && FindIndex(old(store.Runs()), RunKey, runId).None? ==>
      var w := Find(old(store.Workflows()), WorkflowKey, workflowId).value;
      var l := RunLifecycle(PendingRun(runId, workflowId, parameters, now), w, workflowId, parameters, env);
      && statuses == l.statuses
      && artifacts.file == (if l.artifact.Some? then Some(old(artifacts.Artifacts()) + [l.artifact.value]) else old(artifacts.file))
      && store.runsFile == Some(old(store.Runs()) + [l.finalRun])
  {
    var workflow;
    reply, workflow := StartWorkflowRun(store, workflowId, parameters, runId, now);
    if workflow.None? {
      return reply, [];
    }
    ghost var before := old(store.Runs());
    ghost var runs := store.Runs();
    assert runs == before + [PendingRun(runId, workflowId, parameters, now)];
    var i := FindIndex(runs, RunKey, runId);
    assert i.Some? by {
      assert runs[|runs| - 1].id == runId;
    }
    if FindIndex(before, RunKey, runId).None? {
      FindIndexAppend(before, RunKey, runId, PendingRun(runId, workflowId, parameters, now));
      assert runs[i.value] == PendingRun(runId, workflowId, parameters, now);
    }
    statuses := RunInBackground(store, artifacts, runId, workflow.value, workflowId, parameters, env);
    if FindIndex(before, RunKey, runId).None? {
      forall f: WorkflowRun ensures runs[|before| := f] == before + [f] { }
    }
  }

}
