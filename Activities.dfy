/** The Temporal activities: text processing, report generation, the chunked dataset
    simulation and the simulated external fetch. Clock readings are parameters, and
    `JSON.stringify(value, null, 2)` is the caller-supplied `stringify`. */
module Activities {
  import opened Wrappers
  import opened Json
  import opened Text
  import opened Types
  import opened Seqs

  datatype ProcessDataParams = ProcessDataParams(inputData: string, operation: string)

  datatype ProcessDataMetadata = ProcessDataMetadata(
    operation: string, inputLength: nat, outputLength: nat, processedAt: Timestamp)

  datatype ProcessDataResult = ProcessDataResult(result: string, metadata: ProcessDataMetadata)

  /** `s.split('').reverse().join('')`. */
  function Reverse(s: string): (r: string)
    ensures |r| == |s|
  {
    seq(|s|, i requires 0 <= i < |s| => s[|s| - 1 - i])
  }

  /** Reversal yields the characters in reverse order, and undoes itself. */
  lemma ReverseSpec(s: string)
    ensures forall i :: 0 <= i < |s| ==> Reverse(s)[i] == s[|s| - 1 - i]
    ensures Reverse(Reverse(s)) == s
  {
  }

  const WordCountLabel: string := "Word count: "

  /** The `wordcount` operation: `inputData.trim().split(/\s+/).length`, rendered. */
  function WordCount(s: string): string {
    WordCountLabel + NatToString(|SplitWs(Trim(s))|)
  }

  /** The number reported is the number of words, and 1 for empty or blank input. */
  lemma WordCountSpec(s: string)
    ensures WordCount(s) == WordCountLabel + NatToString(if Words(s) == 0 then 1 else Words(s))
  {
    FieldCountIsWordCount(s);
  }

  predicate KnownOperation(op: string) {
    op == "uppercase" || op == "lowercase" || op == "reverse" || op == "wordcount"
  }

  /** `processData`: transform `inputData` by `operation`, or throw on an unknown operation. */
  function ProcessData(params: ProcessDataParams, processedAt: Timestamp): (r: Result<ProcessDataResult>)
    ensures r.Failure? <==> !KnownOperation(params.operation)
    ensures r.Failure? ==> r.error == "Unknown operation: " + params.operation
    ensures r.Success? ==>
      && r.value.metadata.operation == params.operation
      && r.value.metadata.inputLength == |params.inputData|
      && r.value.metadata.outputLength == |r.value.result|
      && r.value.metadata.processedAt == processedAt
    ensures r.Success? && params.operation != "wordcount" ==> |r.value.result| == |params.inputData|
  {
    var input := params.inputData;
    var result :- match params.operation
      case "uppercase" => Success(ToUpper(input))
      case "lowercase" => Success(ToLower(input))
      case "reverse" => Success(Reverse(input))
      case "wordcount" => Success(WordCount(input))
      case _ => Failure("Unknown operation: " + params.operation);
    Success(ProcessDataResult(result, ProcessDataMetadata(params.operation, |input|, |result|, processedAt)))
  }

  /** What each known operation computes. */
  lemma ProcessDataResults(input: string, at: Timestamp)
    ensures ProcessData(ProcessDataParams(input, "uppercase"), at).value.result == ToUpper(input)
    ensures ProcessData(ProcessDataParams(input, "lowercase"), at).value.result == ToLower(input)
    ensures ProcessData(ProcessDataParams(input, "reverse"), at).value.result == Reverse(input)
    ensures ProcessData(ProcessDataParams(input, "wordcount"), at).value.result
         == WordCountLabel + NatToString(if Words(input) == 0 then 1 else Words(input))
  {
    WordCountSpec(input);
  }

  datatype GenerateReportParams = GenerateReportParams(title: string, data: seq<(string, Json)>, format: string)

  datatype GenerateReportResult = GenerateReportResult(content: string, format: string, generatedAt: Timestamp)

  /** The heading a markdown report starts with. */
  function TitleLine(title: string): string {
    "# " + title + "\n\n"
  }

  function MarkdownHeader(title: string, generatedAt: Timestamp): string {
    TitleLine(title) + ("*Generated at: " + generatedAt + "*\n\n" + "## Data\n\n")
  }

  function EntryLine(entry: (string, Json), stringify: Json -> string): string {
    "- **" + entry.0 + "**: " + stringify(entry.1) + "\n"
  }

  /** The data lines of a markdown report, one per entry, in entry order. */
  function EntryLines(entries: seq<(string, Json)>, stringify: Json -> string): string {
    if entries == [] then ""
    else EntryLines(entries[..|entries| - 1], stringify) + EntryLine(entries[|entries| - 1], stringify)
  }

  lemma {:induction false} EntryLinesAppend(a: seq<(string, Json)>, b: seq<(string, Json)>, stringify: Json -> string)
    ensures EntryLines(a + b, stringify) == EntryLines(a, stringify) + EntryLines(b, stringify)
    decreases |b|
  {
    if b == [] {
      assert a + b == a;
    } else {
      var b', last := b[..|b| - 1], b[|b| - 1];
      assert (a + b)[..|a + b| - 1] == a + b';
      assert (a + b)[|a + b| - 1] == last;
      EntryLinesAppend(a, b', stringify);
      calc {
        EntryLines(a + b, stringify);
        EntryLines(a + b', stringify) + EntryLine(last, stringify);
        (EntryLines(a, stringify) + EntryLines(b', stringify)) + EntryLine(last, stringify);
        EntryLines(a, stringify) + (EntryLines(b', stringify) + EntryLine(last, stringify));
        EntryLines(a, stringify) + EntryLines(b, stringify);
      }
    }
  }

  /** The report content `generateReport` builds for `params` at `generatedAt`. */
  function ReportContent(params: GenerateReportParams, generatedAt: Timestamp, stringify: Json -> string): string {
    if params.format == "markdown" then
      MarkdownHeader(params.title, generatedAt) + EntryLines(params.data, stringify)
    else
      stringify(JObj([("title", JStr(params.title)), ("generatedAt", JStr(generatedAt)), ("data", JObj(params.data))]))
  }

  lemma EntryLinesAround(front: seq<(string, Json)>, mid: (string, Json), back: seq<(string, Json)>, stringify: Json -> string)
    ensures EntryLines(front + [mid] + back, stringify)
         == EntryLines(front, stringify) + EntryLine(mid, stringify) + EntryLines(back, stringify)
  {
    EntryLinesAppend(front + [mid], back, stringify);
    EntryLinesAppend(front, [mid], stringify);
    assert [mid][..0] == [];
  }

  /** Entry line `j` sits between the lines of the earlier and of the later entries. */
  lemma EntryLinesSplit(es: seq<(string, Json)>, j: nat, stringify: Json -> string)
    requires j < |es|
    ensures EntryLines(es, stringify)
         == EntryLines(es[..j], stringify) + EntryLine(es[j], stringify) + EntryLines(es[j + 1..], stringify)
  {
    SplitAround(es, j);
    EntryLinesAround(es[..j], es[j], es[j + 1..], stringify);
  }

  /** A markdown report starts with the title heading, and its body after the header is
      the entry lines in order. */
  lemma MarkdownReportShape(params: GenerateReportParams, generatedAt: Timestamp, stringify: Json -> string, j: nat)
    requires params.format == "markdown" && j < |params.data|
    ensures TitleLine(params.title) <= ReportContent(params, generatedAt, stringify)
    ensures ReportContent(params, generatedAt, stringify)
         == MarkdownHeader(params.title, generatedAt)
            + EntryLines(params.data[..j], stringify)
            + EntryLine(params.data[j], stringify)
            + EntryLines(params.data[j + 1..], stringify)
  {
    EntryLinesSplit(params.data, j, stringify);
    var mid := "*Generated at: " + generatedAt + "*\n\n" + "## Data\n\n";
    var lines := EntryLines(params.data, stringify);
    ConcatAssoc(TitleLine(params.title), mid, lines);
    ConcatAssoc4(MarkdownHeader(params.title, generatedAt), EntryLines(params.data[..j], stringify),
                 EntryLine(params.data[j], stringify), EntryLines(params.data[j + 1..], stringify));
  }

  /** `generateReport`: build the content (for markdown, with `+=` per data entry) and
      return it with the requested format. */
  method GenerateReport(params: GenerateReportParams, generatedAt: Timestamp, stringify: Json -> string)
    returns (r: GenerateReportResult)
    ensures r.content == ReportContent(params, generatedAt, stringify)
    ensures r.format == params.format && r.generatedAt == generatedAt
  {
    var content: string;
    if params.format == "markdown" {
      content := "# " + params.title + "\n\n";
      content := content + "*Generated at: " + generatedAt + "*\n\n";
      content := content + "## Data\n\n";
      for k := 0 to |params.data|
        invariant content == MarkdownHeader(params.title, generatedAt) + EntryLines(params.data[..k], stringify)
      {
        assert params.data[..k + 1][..k] == params.data[..k];
        content := content + EntryLine(params.data[k], stringify);
      }
      assert params.data[..|params.data|] == params.data;
    } else {
      content := stringify(JObj([("title", JStr(params.title)), ("generatedAt", JStr(generatedAt)), ("data", JObj(params.data))]));
    }
    r := GenerateReportResult(content, params.format, generatedAt);
  }

  /** `Math.ceil(dataSize / chunkSize)`: the least number of chunks covering the data. */
  function ChunkCount(dataSize: nat, chunkSize: nat): (n: nat)
    requires chunkSize > 0
    ensures n * chunkSize >= dataSize
    ensures n > 0 ==> (n - 1) * chunkSize < dataSize
  {
    var n := (dataSize + chunkSize - 1) / chunkSize;
    var rem := (dataSize + chunkSize - 1) % chunkSize;
    assert n * chunkSize + rem == dataSize + chunkSize - 1;
    assert n > 0 ==> (n - 1) * chunkSize == n * chunkSize - chunkSize;
    n
  }

  /** No smaller number of chunks covers the data. */
  lemma ChunkCountLeast(dataSize: nat, chunkSize: nat, m: nat)
    requires chunkSize > 0 && m * chunkSize >= dataSize
    ensures ChunkCount(dataSize, chunkSize) <= m
  {
  }

  datatype LargeDatasetResult = LargeDatasetResult(processedChunks: nat, totalTime: int)

  /** `processLargeDataset`: one simulated unit of work per chunk. `steps` counts the
      iterations of the work loop; the elapsed time is the parameter `totalTime`. */
  method ProcessLargeDataset(dataSize: nat, chunkSize: nat, totalTime: int)
    returns (r: LargeDatasetResult, steps: nat)
    requires chunkSize > 0
    ensures r.processedChunks == ChunkCount(dataSize, chunkSize) && r.totalTime == totalTime
    ensures steps == r.processedChunks
  {
    var chunks := ChunkCount(dataSize, chunkSize);
    steps := 0;
    for i := 0 to chunks
      invariant steps == i
    {
      steps := steps + 1;
    }
    r := LargeDatasetResult(chunks, totalTime);
  }

  datatype SampleRecord = SampleRecord(id: nat, value: string)

  datatype FetchedData = FetchedData(source: string, query: Option<string>, results: seq<SampleRecord>)

  datatype FetchResult = FetchResult(data: FetchedData, fetchedAt: Timestamp)

  /** `fetchExternalData`: fixed sample records, echoing source and query. */
  function FetchExternalData(source: string, query: Option<string>, fetchedAt: Timestamp): (r: FetchResult)
    ensures r.data.source == source && r.data.query == query && r.fetchedAt == fetchedAt
    ensures |r.data.results| == 3
    ensures forall k :: 0 <= k < 3 ==> r.data.results[k] == SampleRecord(k + 1, "Sample data " + NatToString(k + 1))
  {
    FetchResult(
      FetchedData(source, query, [
        SampleRecord(1, "Sample data 1"),
        SampleRecord(2, "Sample data 2"),
        SampleRecord(3, "Sample data 3")]),
      fetchedAt)
  }

  /** The fetched data as the object a workflow hands to `generateReport`: `Object.entries`
      yields `source`, `query` and `results`, in that order. The activity result reaches
      the workflow through Temporal's JSON payload conversion, which drops a `query` that
      is `undefined`. */
  function FetchedEntries(d: FetchedData): (r: seq<(string, Json)>)
    ensures |r| == (if d.query.Some? then 3 else 2)
    ensures r[0] == ("source", JStr(d.source))
    ensures d.query.Some? ==> r[1] == ("query", JStr(d.query.value))
    ensures r[|r| - 1].0 == "results" && r[|r| - 1].1.JArr? && |r[|r| - 1].1.items| == |d.results|
    ensures forall k :: 0 <= k < |d.results| ==>
      r[|r| - 1].1.items[k] == JObj([("id", JNum(d.results[k].id)), ("value", JStr(d.results[k].value))])
  {
    var results := ("results", JArr(seq(|d.results|, k requires 0 <= k < |d.results| =>
      JObj([("id", JNum(d.results[k].id)), ("value", JStr(d.results[k].value))]))));
    if d.query.Some? then [("source", JStr(d.source)), ("query", JStr(d.query.value)), results]
    else [("source", JStr(d.source)), results]
  }
}
