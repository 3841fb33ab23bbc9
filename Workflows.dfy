/** The three Temporal workflows. Each is deterministic orchestration of activities; the
    model returns the workflow result together with the activity invocations it makes, in
    order. What the activities read from the clock comes in as `Clock`. */
module Workflows {
  import opened Wrappers
  import opened Json
  import opened Text
  import opened Types
  import opened Activities

  /** Clock readings and serialisation seen by the activities of one workflow run. */
  datatype Clock = Clock(now: Timestamp, elapsedMs: int, stringify: Json -> string)

  datatype ActivityCall =
    | ProcessDataCall(params: ProcessDataParams)
    | GenerateReportCall(report: GenerateReportParams)
    | ProcessLargeDatasetCall(dataSize: nat, chunkSize: nat)
    | FetchExternalDataCall(source: string, query: Option<string>)

  /** A workflow outcome (its result or the error it fails with) and the activity calls made. */
  datatype Execution<T> = Execution(outcome: Result<T>, calls: seq<ActivityCall>)

  const DataProcessingId: string := "data-processing"
  const ReportGenerationId: string := "report-generation"
  const LongRunningId: string := "long-running-processing"

  function CountReportCalls(calls: seq<ActivityCall>): nat {
    if calls == [] then 0
    else CountReportCalls(calls[..|calls| - 1]) + (if calls[|calls| - 1].GenerateReportCall? then 1 else 0)
  }

  datatype DataProcessingResult = DataProcessingResult(
    result: string, metadata: ProcessDataMetadata, workflowId: string)

  /** `dataProcessingWorkflow`: one `processData` call; its result plus the workflow id,
      or its error. */
  function DataProcessingWorkflow(params: ProcessDataParams, clock: Clock): (e: Execution<DataProcessingResult>)
    ensures e.calls == [ProcessDataCall(params)]
    ensures e.outcome.Success? <==> KnownOperation(params.operation)
    ensures e.outcome.Failure? ==> e.outcome.error == "Unknown operation: " + params.operation
    ensures e.outcome.Success? ==>
      && e.outcome.value.workflowId == DataProcessingId
      && var p := ProcessData(params, clock.now).value;
         e.outcome.value.result == p.result && e.outcome.value.metadata == p.metadata
  {
    var outcome := match ProcessData(params, clock.now)
      case Success(p) => Success(DataProcessingResult(p.result, p.metadata, DataProcessingId))
      case Failure(err) => Failure(err);
    Execution(outcome, [ProcessDataCall(params)])
  }

  datatype ReportGenerationParams = ReportGenerationParams(
    title: string, dataSource: string, query: Option<string>, format: string)

  datatype ReportMetadata = ReportMetadata(
    title: string, dataSource: string, generatedAt: Timestamp, recordCount: nat)

  datatype ReportGenerationResult = ReportGenerationResult(
    content: string, format: string, metadata: ReportMetadata, workflowId: string)

  /** `reportGenerationWorkflow`: fetch data, then generate a report over the fetched data. */
  function ReportGenerationWorkflow(params: ReportGenerationParams, clock: Clock): (e: Execution<ReportGenerationResult>)
    ensures e.outcome.Success?
    ensures |e.calls| == 2 && e.calls[0] == FetchExternalDataCall(params.dataSource, params.query)
    ensures e.calls[1].GenerateReportCall? && e.calls[1].report.title == params.title
         && e.calls[1].report.format == params.format
    ensures e.calls[1].report.data == FetchedEntries(FetchExternalData(params.dataSource, params.query, clock.now).data)
    ensures e.outcome.value.metadata.recordCount == |FetchExternalData(params.dataSource, params.query, clock.now).data.results|
    ensures var r := e.outcome.value;
      && r.content == ReportContent(e.calls[1].report, clock.now, clock.stringify)
      && r.format == params.format
      && r.metadata == ReportMetadata(params.title, params.dataSource, clock.now, 3)
      && r.workflowId == ReportGenerationId
  {
    var fetched := FetchExternalData(params.dataSource, params.query, clock.now);
    var reportParams := GenerateReportParams(params.title, FetchedEntries(fetched.data), params.format);
    var report := ReportContent(reportParams, clock.now, clock.stringify);
    Execution(
      Success(ReportGenerationResult(report, params.format,
        ReportMetadata(params.title, params.dataSource, clock.now, |fetched.data.results|), ReportGenerationId)),
      [FetchExternalDataCall(params.dataSource, params.query), GenerateReportCall(reportParams)])
  }

  datatype LongRunningParams = LongRunningParams(dataSize: nat, chunkSize: nat, generateReport: bool)

  datatype LongRunningResult = LongRunningResult(
    processedChunks: nat, totalTime: int, report: Option<string>, workflowId: string)

  const ProcessingReportTitle: string := "Data Processing Report"

  /** `longRunningWorkflow`: process the dataset, then optionally a markdown report of the
      processing figures. */
  function LongRunningWorkflow(params: LongRunningParams, clock: Clock): (e: Execution<LongRunningResult>)
    requires params.chunkSize > 0
    ensures e.outcome.Success?
    ensures 1 <= |e.calls| && e.calls[0] == ProcessLargeDatasetCall(params.dataSize, params.chunkSize)
    ensures e.outcome.value.processedChunks == ChunkCount(params.dataSize, params.chunkSize)
    ensures e.outcome.value.totalTime == clock.elapsedMs
    ensures e.outcome.value.workflowId == LongRunningId
    ensures e.outcome.value.report.Some? <==> params.generateReport
    ensures CountReportCalls(e.calls) == (if params.generateReport then 1 else 0)
    ensures params.generateReport ==>
      && |e.calls| == 2 && e.calls[1].GenerateReportCall?
      && e.calls[1].report.format == "markdown"
      && e.calls[1].report.title == ProcessingReportTitle
      && e.calls[1].report.data ==
        [("dataSize", JNum(params.dataSize)), ("chunkSize", JNum(params.chunkSize)),
         ("processedChunks", JNum(e.outcome.value.processedChunks)), ("totalTime", JNum(e.outcome.value.totalTime))]
      && e.outcome.value.report.value == ReportContent(e.calls[1].report, clock.now, clock.stringify)
  {
    var chunks := ChunkCount(params.dataSize, params.chunkSize);
    var first := [ProcessLargeDatasetCall(params.dataSize, params.chunkSize)];
    assert CountReportCalls(first) == 0 by { assert first[..0] == []; }
    if params.generateReport then
      var reportParams := GenerateReportParams(ProcessingReportTitle,
        [("dataSize", JNum(params.dataSize)), ("chunkSize", JNum(params.chunkSize)),
         ("processedChunks", JNum(chunks)), ("totalTime", JNum(clock.elapsedMs))],
        "markdown");
      var calls := first + [GenerateReportCall(reportParams)];
      assert calls[..1] == first;
      Execution(
        Success(LongRunningResult(chunks, clock.elapsedMs,
          Some(ReportContent(reportParams, clock.now, clock.stringify)), LongRunningId)),
        calls)
    else
      Execution(Success(LongRunningResult(chunks, clock.elapsedMs, None, LongRunningId)), first)
  }
}
