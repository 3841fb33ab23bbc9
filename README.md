# ai-template core, modelled in Dafny

This project models the deterministic core of a Next.js chat assistant that has tools and
Temporal workflows. It covers:

- the parser for `[artifact:id]` and `[artifact:id|display]` references, and the text
  segmenter built on it;
- the four Temporal activities and the three workflows composed from them;
- the insertion-ordered tool registry;
- the JSON-file record stores for chat sessions and messages, artifacts, workflows and
  workflow runs;
- the agent tools over artifacts and workflow runs, including the background run
  lifecycle;
- the chat stream route: request validation, conversion of stored history into model
  messages, and the tool-calling agent loop, which is capped at two model calls.

Each source file is one module:

- `ArtifactRefs`: `src/lib/utils.ts`
- `Activities`: `src/temporal/activities/index.ts`
- `Workflows`: `src/temporal/workflows/index.ts`
- `Registry`: `src/lib/tools/registry.ts`
- `Storage`: `src/lib/storage/filesystem.ts`
- `ArtifactTools`: `src/lib/tools/artifacts.ts`
- `WorkflowTools`: `src/lib/tools/workflows.ts`
- `ChatStream`: `src/app/api/chat/stream/route.ts`

`Types` holds the record shapes of `src/lib/types.ts`. `Json` holds JSON values, with
`JUndefined` standing for JavaScript `undefined`, and JavaScript truthiness. `Text` holds
ASCII case mapping, the JavaScript whitespace set, `trim`, `split(/\s+/)`, `includes` and
decimal printing. `Wrappers` holds `Option` and `Result`, and `Seqs` holds generic
sequence lemmas.

The model is built as follows.

- Code that loops or mutates stays imperative:
  - the regex `exec` loop, the segmenting loop, the report `+=` loop and the chunk loop
    are methods;
  - the registry and the stores are classes;
  - each JSON file is a field: `Option<seq<..>>` for one file, where `None` is a
    missing or unparsable file, and a `map` for the per-session message files.
- Each method is proved against a specification function, and the lemmas are stated
  about those functions.
- Everything the source gets from its environment comes in as parameters:
  - generated ids and timestamps;
  - `JSON.stringify`, as a function `Json -> string`;
  - the Temporal client and the workflow outcome;
  - the Anthropic model, as a function from the message list to a reply holding text
    and tool uses;
  - the tool implementations, as a function from a tool and its input to a result.

The chat route's effect on the store is stated with a few functions:

- `Storage.AppendMessages` gives the message files once messages are appended, one
  `addMessage` each.
- `Storage.TouchAll` gives the sessions file once each of those calls has touched the
  session's updatedAt.
- `ChatStream.Written` gives what an unknown session keeps: `addMessage` writes the
  message and then throws, so the first save is the only one written.
- `ChatStream.SavedMessages` lists the messages of all rounds in order. In round j,
  the text and tool messages get the stamps `2 j` and `2 j + 1`.

## Model

| member | source | states |
|---|---|---|
| ArtifactRefs.IdEnd | src/lib/utils.ts:24 | The id group extends to the first `]` or vertical bar, or to the end of the text, and no further. |
| ArtifactRefs.DisplayEnd | src/lib/utils.ts:24 | The display group extends to the first `]` or to the end of the text. |
| ArtifactRefs.MatchAt | src/lib/utils.ts:24-33 | A match at position i starts at i and is well formed. Its span lies inside the text and spells `[artifact:id]` with display `artifact`, or `[artifact:id`, a vertical bar, then `display]`. The id is non-empty and free of `]` and the bar. The display is non-empty and free of `]`. |
| ArtifactRefs.MatchAtComplete | src/lib/utils.ts:24 | Completeness of one regex attempt: every well-formed reference starting at position i is exactly the match found at i. |
| ArtifactRefs.NextMatch | src/lib/utils.ts:27 | One `exec` from `lastIndex`: the result is the leftmost match at or after `lastIndex`. When it finds nothing, no position from `lastIndex` on matches. |
| ArtifactRefs.ParseFrom | src/lib/utils.ts:26-34 | The references found from position i are in strictly increasing start order and do not overlap. Each lies inside the text from i on and is well formed. |
| ArtifactRefs.OrderedPairwise | src/lib/utils.ts:26-34 | Every reference has 0 ≤ start < end ≤ the text length, and `refs[j].end ≤ refs[j+1].start`. |
| ArtifactRefs.ParseFromCovers | src/lib/utils.ts:27-34 | The scan misses no match: any position where a reference could start lies inside some reported reference. |
| ArtifactRefs.Exec | src/lib/utils.ts:27 | The imperative scan for the next match equals `NextMatch`. |
| ArtifactRefs.ParseArtifactReferences | src/lib/utils.ts:22-37 | The `while` loop over `exec` returns `Parse(text)`. The references are ordered, non-overlapping and well formed. |
| ArtifactRefs.SegmentTextWithArtifacts | src/lib/utils.ts:49-88 | The method returns `Segment(text)`. With no references it returns exactly one text segment holding the whole input, even when the input is empty. |
| ArtifactRefs.SegmentsLoop | src/lib/utils.ts:56-87 | The `for` loop that appends gap, artifact and tail segments equals the recursive segment specification. |
| ArtifactRefs.SegmentRoundTrip | src/lib/utils.ts:56-87 | Concatenating the contents of all segments gives back the input text exactly. |
| ArtifactRefs.SegmentSeparated | src/lib/utils.ts:61-85 | When there is at least one reference, no text segment is empty and no two text segments are adjacent. |
| ArtifactRefs.SegmentArtifacts | src/lib/utils.ts:69-74 | There is one artifact segment per reference, in reference order. Segment j carries reference j's id and display text, and its content is the matched span. |
| Text.ToUpper | src/temporal/activities/index.ts:48 | Uppercasing preserves length. |
| Text.ToUpperSpec | src/temporal/activities/index.ts:48 | After uppercasing, no ASCII lowercase letter remains. Each lowercase letter becomes the capital that lowercases back to it, and every other character is unchanged. |
| Text.ToUpperIdempotent | src/temporal/activities/index.ts:48 | Uppercasing twice is the same as uppercasing once. |
| Text.ToLower | src/temporal/activities/index.ts:51 | Lowercasing preserves length; its meaning is stated by Text.ToLowerSpec. |
| Text.ToLowerSpec | src/temporal/activities/index.ts:51 | After lowercasing, no ASCII capital remains. Each capital becomes the lowercase letter that uppercases back to it, and every other character is unchanged. |
| Text.ToLowerAfterToUpper | src/temporal/activities/index.ts:48-51 | Lowercasing after uppercasing is the same as lowercasing alone. |
| Text.ToUpperAfterToLower | src/temporal/activities/index.ts:48-51 | Uppercasing after lowercasing is the same as uppercasing alone. |
| Text.ToLowerIdempotent | src/temporal/activities/index.ts:51 | Lowercasing twice is the same as lowercasing once. |
| Text.Trim | src/temporal/activities/index.ts:57 | A non-empty trimmed string neither starts nor ends with whitespace. |
| Text.FieldCountIsWordCount | src/temporal/activities/index.ts:57 | `trim().split(/\s+/).length` is the number of whitespace-separated words, or 1 when there are none. |
| Activities.Reverse | src/temporal/activities/index.ts:54 | Reversing preserves length. |
| Activities.ReverseSpec | src/temporal/activities/index.ts:54 | Character i of the result is character n-1-i of an input of length n, and reversing twice gives back the input. |
| Activities.WordCountSpec | src/temporal/activities/index.ts:57-58 | The word-count result is `Word count: N`, where N is the number of words after trimming. Empty or whitespace-only input gives N = 1. |
| Activities.ProcessData | src/temporal/activities/index.ts:41-73 | The call fails exactly when the operation is not one of the four known ones, with `Unknown operation: <op>`. On success the metadata echoes the operation, inputLength is the input's length and outputLength the result's length. Every operation except wordcount preserves length. |
| Activities.ProcessDataResults | src/temporal/activities/index.ts:46-59 | What each known operation computes: uppercase, lowercase, reverse, or the word-count label. |
| Activities.EntryLinesAppend | src/temporal/activities/index.ts:89-91 | The entry lines of a concatenation of entries are the concatenation of their entry lines. |
| Activities.MarkdownReportShape | src/temporal/activities/index.ts:84-91 | Markdown content starts with `# <title>\n\n`. After the header, entry j's `- **key**: value` line sits between the lines of the entries before it and after it, in entry order. |
| Activities.GenerateReport | src/temporal/activities/index.ts:78-106 | The `+=` loop builds the report content. The returned format is the requested one, and generatedAt is the given time. |
| Activities.ChunkCount | src/temporal/activities/index.ts:116 | `ceil(dataSize/chunkSize)`: n·chunkSize ≥ dataSize, and (n-1)·chunkSize < dataSize when n > 0. |
| Activities.ChunkCountLeast | src/temporal/activities/index.ts:116 | The chunk count is the least n with n·chunkSize ≥ dataSize. |
| Activities.ProcessLargeDataset | src/temporal/activities/index.ts:111-130 | The loop runs exactly ChunkCount times, and processedChunks is that count. totalTime is passed through. |
| Activities.FetchExternalData | src/temporal/activities/index.ts:135-157 | The result echoes source and query and has exactly three results, `{id: k, value: 'Sample data k'}` for k = 1, 2, 3. |
| Activities.FetchedEntries | src/temporal/activities/index.ts:146-154 | The fetched `data` object holds source, then query when one is given, then the results array. Item k of that array is the object `{id, value}` of record k. |
| Workflows.DataProcessingWorkflow | src/temporal/workflows/index.ts:43-52 | The workflow calls processData once. It fails exactly when processData fails. Otherwise it returns processData's result and metadata unchanged, with workflowId `data-processing`. |
| Workflows.ReportGenerationWorkflow | src/temporal/workflows/index.ts:77-106 | The workflow calls fetchExternalData once. It then calls generateReport once, with the title, the format and the fetched data as the report data. It returns the report content and the requested format. The metadata recordCount is the number of fetched results, which is 3, and the workflowId is `report-generation`. |
| Workflows.LongRunningWorkflow | src/temporal/workflows/index.ts:125-158 | processedChunks is ChunkCount and totalTime is copied. A report is present exactly when generateReport is set. generateReport is then called exactly once, in markdown, titled `Data Processing Report`, on the data dataSize, chunkSize, processedChunks and totalTime, in that order; the report is its content. workflowId is `long-running-processing`. |
| Registry.InsertName | src/lib/tools/registry.ts:13-15 | `Map.set` key order: a new name goes at the end, and a known name leaves the order unchanged. |
| Registry.Dispatch | src/lib/tools/registry.ts:45-53 | An unregistered name fails with `Unknown tool: <name>`, which runs no tool. Otherwise the registered tool runs on the input. |
| Registry.InsertPreservesWellFormed | src/lib/tools/registry.ts:13-15 | Registering keeps the name order consistent with the table: the names are distinct and are exactly the table's keys. |
| Registry.NamesAfterAppend | src/lib/tools/registry.ts:20-33 | Registering one sequence of tools and then another equals registering their concatenation. |
| Registry.NamesAfterExtends | src/lib/tools/registry.ts:13-33 | Registering keeps the old names as a prefix. A name is registered afterwards iff it was before or it occurs among the new tools. |
| Registry.ToolsAfterOthers | src/lib/tools/registry.ts:13-15 | Registering tools leaves the entry of every other name untouched. |
| Registry.ReregisterKeepsOrder | src/lib/tools/registry.ts:13-15 | Re-registering only known names leaves the name list unchanged, in order and length. |
| Registry.FirstOccurrenceOrder | src/lib/tools/registry.ts:80-84 | From an empty registry, the names are the distinct tool names in order of first occurrence. |
| Registry.ToolRegistry.constructor | src/lib/tools/registry.ts:7-8 | A new registry is empty. |
| Registry.ToolRegistry.RegisterTool | src/lib/tools/registry.ts:13-15 | The tool is stored under its name, so the last registration wins. The name order follows `Map.set`. |
| Registry.ToolRegistry.RegisterToolSet | src/lib/tools/registry.ts:20-24 | Registering a set equals registering its tools one by one, in order. |
| Registry.ToolRegistry.RegisterToolSets | src/lib/tools/registry.ts:29-33 | Registering several sets equals registering all their tools in sequence. |
| Registry.ToolRegistry.GetDefinitions | src/lib/tools/registry.ts:38-40 | There is one definition per name, in name order, and definition i is named name i. |
| Registry.ToolRegistry.Execute | src/lib/tools/registry.ts:45-53 | An unknown name fails with `Unknown tool: <name>`, and a known name runs its tool. |
| Registry.ToolRegistry.HasTool | src/lib/tools/registry.ts:58-60 | True exactly for registered names. |
| Registry.ToolRegistry.GetToolNames | src/lib/tools/registry.ts:65-67 | The names are duplicate-free, in key order, and exactly the registered names. |
| Registry.ToolRegistry.Clear | src/lib/tools/registry.ts:72-74 | No names and no tools remain. |
| Registry.CreateToolRegistry | src/lib/tools/registry.ts:80-84 | A fresh registry holding all the sets' tools, registered in order. |
| Storage.ReadJSONFile | src/lib/storage/filesystem.ts:18-25 | A missing or unparsable file reads as the default value. Otherwise it reads as its contents. |
| Storage.FindIndex | src/lib/storage/filesystem.ts:66 | `findIndex`: the least index whose key matches, or none when no key matches. |
| Storage.Find | src/lib/storage/filesystem.ts:43 | `find`: a record with the key exists iff one is returned, and the returned record is in the collection with that key. |
| Storage.Filter | src/lib/storage/filesystem.ts:82 | The kept records are exactly those whose key test is as requested. |
| Storage.FilterAppend | src/lib/storage/filesystem.ts:82 | Filtering distributes over concatenation, so the kept records stay in their original order. |
| Storage.FilterNoop | src/lib/storage/filesystem.ts:179 | Deleting an absent id leaves the collection unchanged. |
| Storage.FindIndexAfterUpdate | src/lib/storage/filesystem.ts:66-74 | After an in-place update that keeps the id, the record is still found at the same index. |
| Storage.FindIndexAppend | src/lib/storage/filesystem.ts:54 | A record appended under a new id is found at the end. |
| Storage.PatchSession | src/lib/storage/filesystem.ts:69-74 | Fields come from the update when it gives them. The id is forced back to the original, and updatedAt is the time of the update. |
| Storage.PatchArtifact | src/lib/storage/filesystem.ts:166-171 | Fields come from the update when it gives them. The id is forced back, createdAt is kept, and updatedAt is the time of the update. |
| Storage.PatchRun | src/lib/storage/filesystem.ts:240-244 | Fields come from the update when it gives them. The id is forced back, and there is no timestamp update. |
| Storage.Search | src/lib/storage/filesystem.ts:183-192 | The results are exactly the artifacts whose lowercased title, content or some tag contains the query. |
| Storage.SearchAppend | src/lib/storage/filesystem.ts:186-191 | Search distributes over concatenation, so results keep their original order. |
| Storage.SearchEmptyQuery | src/lib/storage/filesystem.ts:183-192 | An empty query returns every artifact. |
| Storage.ChatStore.constructor | src/lib/storage/filesystem.ts:33-35 | The store holds the given files. |
| Storage.ChatStore.GetSessions | src/lib/storage/filesystem.ts:37-39 | With no sessions file there are no sessions. |
| Storage.ChatStore.GetSession | src/lib/storage/filesystem.ts:41-44 | The first session with the id, or none. |
| Storage.ChatStore.CreateSession | src/lib/storage/filesystem.ts:46-62 | Exactly one session is appended, with createdAt = updatedAt = now, and it is returned. The session's message file is created empty. |
| Storage.ChatStore.UpdateSession | src/lib/storage/filesystem.ts:64-78 | An unknown id fails with `Session <id> not found` and writes nothing. Otherwise only that index changes, to the patched session. |
| Storage.ChatStore.DeleteSession | src/lib/storage/filesystem.ts:80-92 | Every session with the id is removed, the others keep their order, and the message file is removed. |
| Storage.ChatStore.GetMessages | src/lib/storage/filesystem.ts:94-98 | A missing message file reads as no messages. |
| Storage.ChatStore.AddMessage | src/lib/storage/filesystem.ts:100-117 | The message is appended to the session's file. The sessions file becomes its TouchSession at `now`. For an unknown session the message stays written, the sessions file is unchanged and the call fails with `Session <id> not found`. |
| Storage.TouchSession | src/lib/storage/filesystem.ts:64-78 | The touch that `addMessage` performs through `updateSession(sessionId, {})`: the first session with the id gets updatedAt = now, and every other session is unchanged. A file without the session is left as it is. Which index holds the session does not change. |
| Storage.TouchAll | src/lib/storage/filesystem.ts:100-117 | The touches of several `addMessage` calls in a row: for an unknown session the file is unchanged, and the session's index never moves. |
| Storage.TouchAllAppend | src/lib/storage/filesystem.ts:100-117 | Touching for one batch of messages, then another, is touching for both batches in order. |
| Storage.TouchAllLast | src/lib/storage/filesystem.ts:100-117 | After saving messages to an existing session, its updatedAt is the last message's timestamp, and no other session changes. |
| Storage.AppendMessages | src/lib/storage/filesystem.ts:100-111 | The messages files after several `addMessage` calls: the session's file gains the messages at its end, created when missing, and every other file is unchanged. |
| Storage.AppendMessagesAppend | src/lib/storage/filesystem.ts:100-111 | Appending one batch of messages, then another, is appending both batches in order. |
| Storage.ChatStore.DeleteMessage | src/lib/storage/filesystem.ts:119-124 | Every message with the id is removed from that session's file, and nothing else changes. |
| Storage.ArtifactStore.constructor | src/lib/storage/filesystem.ts:136-137 | The store holds the given file. |
| Storage.ArtifactStore.GetArtifacts | src/lib/storage/filesystem.ts:139-141 | With no file there are no artifacts. |
| Storage.ArtifactStore.GetArtifact | src/lib/storage/filesystem.ts:143-146 | The first artifact with the id, or none. |
| Storage.ArtifactStore.CreateArtifact | src/lib/storage/filesystem.ts:148-159 | Exactly one artifact is appended at the end and returned. Earlier records are unchanged. |
| Storage.ArtifactStore.UpdateArtifact | src/lib/storage/filesystem.ts:161-175 | An unknown id fails and writes nothing. Otherwise only that index changes, to the patched artifact. |
| Storage.ArtifactStore.DeleteArtifact | src/lib/storage/filesystem.ts:177-181 | Every artifact with the id is removed, and the others keep their order. |
| Storage.ArtifactStore.SearchArtifacts | src/lib/storage/filesystem.ts:183-192 | A search with the lowercased query. |
| Storage.WorkflowStore.constructor | src/lib/storage/filesystem.ts:196-198 | The store holds the given files. |
| Storage.WorkflowStore.GetWorkflows | src/lib/storage/filesystem.ts:200-268 | With no workflows file, the result is the three defaults data-processing, report-generation and long-running-processing. |
| Storage.WorkflowStore.GetWorkflow | src/lib/storage/filesystem.ts:205-208 | The first workflow with the id, or none. |
| Storage.WorkflowStore.GetRuns | src/lib/storage/filesystem.ts:210-216 | The runs of the given workflow, in order. An absent or empty workflow id gives all runs. |
| Storage.WorkflowStore.GetRun | src/lib/storage/filesystem.ts:218-221 | The first run with the id, or none. |
| Storage.WorkflowStore.CreateRun | src/lib/storage/filesystem.ts:223-233 | Exactly one run is appended, with startedAt = now, and it is returned. The workflows file is untouched. |
| Storage.WorkflowStore.UpdateRun | src/lib/storage/filesystem.ts:235-248 | An unknown id fails with `Run <id> not found` and writes nothing. Otherwise only that index changes. |
| ArtifactTools.Excerpt | src/lib/tools/artifacts.ts:36 | The first 200 characters, followed by `...` iff the content is longer. The excerpt has at most 203 characters and equals the content when the content is short. |
| ArtifactTools.Summaries | src/lib/tools/artifacts.ts:32-39 | There is one summary per artifact, in order. Each has the artifact's id, title, tags, createdAt and updatedAt, and the excerpt of its content. |
| ArtifactTools.SearchSelection | src/lib/tools/artifacts.ts:25-29 | An absent or blank query lists everything. Otherwise the selection is exactly the artifacts matching the lowercased, untrimmed query. |
| ArtifactTools.SearchArtifactsTool | src/lib/tools/artifacts.ts:21-45 | The reply summarises the selection, and count equals the number of results. |
| ArtifactTools.BlankQueryListsAll | src/lib/tools/artifacts.ts:25-29 | A whitespace-only query returns every artifact. |
| ArtifactTools.GetArtifactTool | src/lib/tools/artifacts.ts:66-83 | An unknown id gives `{error: 'Artifact not found'}`, and only then. Otherwise the reply holds the stored artifact's fields. |
| ArtifactTools.CreateArtifactTool | src/lib/tools/artifacts.ts:113-127 | One artifact is appended. With no tags it has no tags. The reply carries the id, the title and the creation message. |
| ArtifactTools.UpdateArtifactTool | src/lib/tools/artifacts.ts:161-179 | Only the given fields change and the omitted ones keep their stored values. An unknown id fails and changes nothing. The collection's length never changes. |
| WorkflowTools.ListWorkflowsTool | src/lib/tools/workflows.ts:22-33 | count equals the number of listed workflows, which is 3 with no workflows file. |
| WorkflowTools.DisplayName | src/lib/tools/workflows.ts:182 | The workflow's name, falling back to the run's workflowId when the workflow is missing or its name is empty. |
| WorkflowTools.GetWorkflowRunTool | src/lib/tools/workflows.ts:168-189 | An unknown run gives `Workflow run not found`, and only then. Otherwise the reply copies the run, with the display name. completedAt is present iff it is set and non-empty, and then it is the run's completedAt. |
| WorkflowTools.KindOf | src/lib/tools/workflows.ts:86-99 | Each of the three ids selects its own workflow function, and anything else selects none. |
| WorkflowTools.StartWorkflowRun | src/lib/tools/workflows.ts:59-146 | An unknown workflow gives an error and creates no run. Otherwise exactly one pending run is appended with the parameters, and the reply carries its run id with status pending. |
| WorkflowTools.ResultArtifact | src/lib/tools/workflows.ts:119-126 | The result artifact is titled `Workflow Result: <name>` and tagged `workflow-result` and the workflow id. |
| WorkflowTools.RunLifecycle | src/lib/tools/workflows.ts:76-136 | The statuses go pending → running → completed, or end in failed. A failure can come before `running` is written, or after `completed` when the artifact write fails. A run ends completed iff it succeeds, with completedAt and the Temporal result. A failed run has completedAt and `result.error`. An artifact is created iff the final run is completed with a result that has `content`. |
| WorkflowTools.FailedResultCarriesMessage | src/lib/tools/workflows.ts:132-134 | The failure result's `error` field holds the error message. |
| WorkflowTools.SetRun | src/lib/tools/workflows.ts:81-83 | One status update of the run: only the run's index changes, to the patched run. |
| WorkflowTools.Complete | src/lib/tools/workflows.ts:109-126 | The run is written completed with the result. An artifact is added iff the result has content and the write succeeds. The block fails iff the artifact write fails. |
| WorkflowTools.RunInBackground | src/lib/tools/workflows.ts:76-136 | The sequence of storage updates leaves the run as RunLifecycle's final run, and only that run changes. The statuses written are the lifecycle's statuses, and the artifact file grows by the lifecycle's artifact. |
| WorkflowTools.RunWorkflowTool | src/lib/tools/workflows.ts:59-147 | An unknown workflow gives an error, and no run and no artifact are created. Otherwise the reply is pending with the new run id. For a fresh run id, the run list grows by exactly the run's final record, and the Temporal id is `<workflowId>-<runId>`. |
| ChatStream.ToolUseId | src/app/api/chat/stream/route.ts:70-92 | The stored `toolCallId` is used when it is truthy. Otherwise a generated id is used. |
| ChatStream.StoredIdShared | src/app/api/chat/stream/route.ts:70-92 | When a stored toolCallId exists, the tool_use id and the tool_result id are both that id. |
| ChatStream.ToolUseBlocksAt | src/app/api/chat/stream/route.ts:65-75 | There is one tool_use block per stored tool call, in order, with the call's name and arguments. |
| ChatStream.AssistantBlocks | src/app/api/chat/stream/route.ts:54-75 | There is a text block iff the content is non-empty, and it comes first. One tool_use block per tool call follows. |
| ChatStream.ResultBlocks | src/app/api/chat/stream/route.ts:85-97 | There are at most as many tool_result blocks as calls, and none is an error result. |
| ChatStream.ResultBlocksEmpty | src/app/api/chat/stream/route.ts:85-98 | There are no tool_result blocks iff no call has a truthy result. |
| ChatStream.ResultBlocksAllPresent | src/app/api/chat/stream/route.ts:87-95 | When every call has a result, block j is call j's result, in order. |
| ChatStream.ResultPositions | src/app/api/chat/stream/route.ts:87-88 | The positions of the calls with a truthy result: all in range, strictly increasing, and every such call's position is included. |
| ChatStream.ResultBlocksAt | src/app/api/chat/stream/route.ts:86-96 | The t-th tool_result block replays the t-th call that has a result, under that call's id or its fallback. So the blocks are exactly the calls with a result, in increasing index order. |
| ChatStream.ConvertMessage | src/app/api/chat/stream/route.ts:46-105 | A user message becomes one user message with the same content, and a system message is dropped. An assistant message first gives its assistant blocks, when there are any. When some call has a result, a second user message holds exactly the ResultBlocks. When no call has a result, no tool_result message follows. |
| ChatStream.UserHistory | src/app/api/chat/stream/route.ts:46-52 | A history of user messages converts one to one, with the same contents. |
| ChatStream.SystemDropped | src/app/api/chat/stream/route.ts:46-52 | A stored system message adds nothing to the converted history. |
| ChatStream.ConvertStoredHistory | src/app/api/chat/stream/route.ts:44-106 | The push loop builds exactly the converted history. |
| ChatStream.Rejection | src/app/api/chat/stream/route.ts:22-38 | A null or unreadable body gives 500 `Failed to generate response`, before any check. A missing sessionId, or messages that are not an array, gives 400. Then a missing API key gives 500. An empty messages array, or a null or undefined latest message, then gives 500 `Failed to generate response`; this is the outer catch at lines 347-356. Otherwise the request is accepted. |
| ChatStream.LatestMessage | src/app/api/chat/stream/route.ts:109 | The last element of the messages array, or undefined when the array is empty. |
| ChatStream.RequestHistory | src/app/api/chat/stream/route.ts:108-113 | The latest request message comes last, after the converted stored history. |
| ChatStream.Post | src/app/api/chat/stream/route.ts:20-119 | A rejected request stores nothing. An accepted one appends the latest message to the session's file exactly once, before the loop, and the sessions file becomes its TouchSession at `now`. The route streams iff the session exists, and otherwise answers 500 with the details `Session <id> not found`. |
| ChatStream.ResultFor | src/app/api/chat/stream/route.ts:270-292 | The tool_result carries the tool use's id. It is marked is_error iff the tool failed. |
| ChatStream.ToolResults | src/app/api/chat/stream/route.ts:259-294 | Every tool use gets exactly one tool_result, in order, for the outcome of executing it. |
| ChatStream.SavedCalls | src/app/api/chat/stream/route.ts:276-284 | Only successful calls are saved. If every tool fails, nothing is saved. |
| ChatStream.AllSaved | src/app/api/chat/stream/route.ts:276-284 | When every tool succeeds, every call is saved in order, with its toolCallId and result. |
| ChatStream.SavedCallReplays | src/app/api/chat/stream/route.ts:277-284 | A saved call replays with the live tool use id. Its result content is the tool's value when that value is truthy. |
| ChatStream.ExecuteToolUses | src/app/api/chat/stream/route.ts:259-294 | The execution loop builds exactly those tool_results and saved calls. |
| ChatStream.AssistantTurn | src/app/api/chat/stream/route.ts:227-249 | The live assistant message has a text block iff there is text, then one tool_use block per tool use, in order. |
| ChatStream.ReplayMatchesLive | src/app/api/chat/stream/route.ts:54-310 | Suppose every tool succeeds with a truthy value and every tool use id is non-empty. Then the history rebuilt from the saved message has the live tool_use blocks and the live tool_results. |
| ChatStream.RoundMessages | src/app/api/chat/stream/route.ts:206-304 | One round saves the text message iff there is text. It then saves the tool-call message iff there were tool uses. |
| ChatStream.SaveMessage | src/app/api/chat/stream/route.ts:298-304 | One save appends the message to the session's file and touches the session at the message's time. It fails with `Session <id> not found` iff the session is unknown, and the message stays written. |
| ChatStream.SaveText | src/app/api/chat/stream/route.ts:205-212 | Empty text saves nothing. Otherwise the text message is appended and touched, and the save fails iff the session is unknown. |
| ChatStream.RunTools | src/app/api/chat/stream/route.ts:215-304 | The tool results are ToolResults. Then one tool-call message holding the saved calls is appended and touched, and the save fails iff the session is unknown. |
| ChatStream.Respond | src/app/api/chat/stream/route.ts:205-316 | With no tool uses the transcript is unchanged. Otherwise it gains the assistant turn and then the tool results. The session's file gains the round's messages, and each is touched in order. For an unknown session only the first is written. It fails iff the round saves something and the session is unknown. |
| ChatStream.RoundWritten | src/app/api/chat/stream/route.ts:205-304 | A round writes its text message, then its tool message. For an unknown session with text, the text message is the only one written. |
| ChatStream.Turn | src/app/api/chat/stream/route.ts:246-310 | A reply without tool uses adds nothing to the transcript. One with tool uses adds the assistant turn, then a user message with one tool_result per tool use. |
| ChatStream.Step | src/app/api/chat/stream/route.ts:140-316 | A failing model call ends with that error, no change to the transcript and nothing stored. A successful one stores the round's messages, as Respond does. Without an error it extends the transcript by the reply's Turn. |
| ChatStream.Converse | src/app/api/chat/stream/route.ts:133-317 | The model is called at most twice. Reply j answers the request history plus the Turns of replies before j. The loop stops as soon as a reply has no tool uses. The session's file gains the SavedMessages of all rounds, each with its own stamps and touch; an unknown session stops at the first save. A failing model call ends the loop with its error. |
| ChatStream.Turns | src/app/api/chat/stream/route.ts:246-310 | The transcript entries of several replies in order: two per reply that used tools. |
| ChatStream.SavedMessages | src/app/api/chat/stream/route.ts:205-304 | The messages the rounds save, in order: all from the assistant, between one per tool round and two per reply. |
| ChatStream.Round | src/app/api/chat/stream/route.ts:140-316 | One iteration of the loop keeps the loop invariant Progress, with one more iteration counted. |
| ChatStream.Succeeded | src/app/api/chat/stream/route.ts:205-316 | A round whose model call answered records the reply and its writes, and keeps Progress. |
| ChatStream.Failed | src/app/api/chat/stream/route.ts:144-151 | A round whose model call failed ends the loop, writes nothing and keeps Progress. |
| ChatStream.Concluded | src/app/api/chat/stream/route.ts:140-317 | When the loop stops, its invariant gives the loop's bounds, stop rule, transcript, writes and error. |
| ChatStream.AnsweredInOrder | src/app/api/chat/stream/route.ts:140-151 | The first reply answers the request history itself, and each later one answers the Turns before it. |
| ChatStream.AnsweredOne | src/app/api/chat/stream/route.ts:140-151 | Reply j answers the request history plus the Turns of the replies before j. |
| ChatStream.AgentLoop | src/app/api/chat/stream/route.ts:131-338 | The same bounds and writes as Converse. Then, when there is no error, the sessions file gets one more TouchSession at `doneAt`. |
| ChatStream.TouchOnDone | src/app/api/chat/stream/route.ts:319-325 | When the session exists, only its updatedAt changes, to `now`. The messages are unchanged. |

## Left out

- Streaming is left out: the server-sent events, event encoding, the writer, and the
  partial-JSON accumulation of tool inputs from stream deltas. The model reply is given
  whole, as text plus tool uses.
- Console logging, and the model name, `max_tokens` and `temperature` passed to the
  model, are left out. They do not affect the modelled state.
- File I/O is not modelled. Each JSON file is a field. `writeJSONFile` is assignment,
  and data-directory creation is left out.
- JSON numbers are integers (`Json.JNum` holds an `int`). Fractions, `NaN` and
  `Infinity` cannot be represented.
- JSON text serialisation is a caller-supplied function. Values it produces are treated
  as opaque strings.
- Id and timestamp generation (`Date.now`, `Math.random`, `new Date`, `toISOString`) are
  parameters. `processedAt`, `generatedAt`, `fetchedAt` and `totalTime` are passed
  through, not computed.
- Storage.ChatStore.CreateSession: both `new Date()` calls are taken to be the same
  instant.
- Storage.ChatStore.AddMessage: one `now` serves as the message timestamp and as the
  session's new updatedAt. The source reads `new Date()` twice, once in `addMessage`
  and once in `updateSession`.
- Workflows.Clock: one `now` stands for every `new Date()` reading of the activities in
  one workflow run, for example the `fetchedAt` of fetchExternalData and the
  `generatedAt` of generateReport. The source reads the clock once in each.
- Storage.ArtifactStore.CreateArtifact: one `now` serves as createdAt and updatedAt.
  The source reads `new Date()` once for each.
- JavaScript strings are sequences of UTF-16 code units, and Dafny strings are
  sequences of Unicode scalar values. Lone surrogates cannot be represented, and the
  members below count a character outside the Basic Multilingual Plane as one where
  JavaScript counts two:
- Activities.Reverse: `split('').reverse().join('')` reverses code units, so it splits a
  surrogate pair into two lone surrogates. The model reverses whole characters.
- Activities.ProcessData: inputLength and outputLength are character counts, not
  code-unit counts.
- ArtifactTools.Excerpt: the 200-character cut counts characters, not code units, so it
  never splits a surrogate pair.
- ArtifactRefs.ParseArtifactReferences: the reported start and end offsets are
  character offsets, not code-unit offsets.
- The two `new Date()` calls in the run lifecycle, and the artifact's own id and time,
  are parameters too.
- Temporal itself is not modelled: the client, the worker, the task queue, and the
  retry and timeout configuration of the activity proxies. The workflow outcome is an
  oracle `Result`, and obtaining the client is an oracle that may fail.
- The fire-and-forget background block of `runWorkflow` runs to its end before the
  reply is observed, because concurrency is not modelled. The activities' `setTimeout`
  delays are dropped.
- Text.ToUpper: case mapping is ASCII only. Unicode case mapping can change length,
  and it is not modelled.
- Text.ToLower: case mapping is ASCII only. Search lowercasing uses the same ASCII
  mapping.
- Activities.ChunkCount: JavaScript float division is modelled as natural numbers, with
  the precondition chunkSize > 0. In the source, chunkSize 0 with a positive dataSize
  gives `Math.ceil(dataSize / 0) == Infinity`, so the sleep loop runs until Temporal's
  activity timeout stops it; that run is not modelled.
- Activities.GenerateReport: JSON output stays a call of the serialiser on a `{title,
  generatedAt, data}` value, not a byte layout.
- Activities.ReportContent: the report data is a sequence of key and value pairs, in
  sequence order. `Object.entries` lists integer-like keys first, and an object never
  repeats a key. No call site passes such keys or repeats one, so the output is the
  same for every use in this code.
- Activities.FetchedEntries: an absent query is left out of the data object. That is
  what `JSON.stringify` does with an `undefined` field.
- Tool inputs are taken to match their input schemas, so the casts `input.x as string`
  are not checked. For example, `updateArtifact` treats an absent field as "not given".
- ArtifactTools.UpdateArtifactTool: storage throws on an unknown id, so the tool's own
  `{error: 'Artifact not found'}` branch is dead. The model fails with the storage
  error instead.
- WorkflowTools.RunWorkflowTool: the lifecycle is stated for a run id not used before.
  With a reused id, the background updates hit the first run with that id.
- WorkflowTools.ResultArtifact: result content that is not a string is stored as the
  empty string. A JavaScript cast would store the value itself.
- WorkflowTools.GetWorkflowRunTool: the `toISOString` of a `Date` is not modelled, and
  timestamps are strings throughout. An empty completedAt counts as absent because it
  is falsy.
- ChatStream.ReplayMatchesLive: the result is stated only for truthy tool values. For a
  falsy value (`0`, `""`, `false`, `null`), `result?.result || toolCall.result` replays
  the whole stored wrapper `{toolCallId, result}` instead of the value.
- ChatStream.Post: an unreadable or missing request body is modelled as `None`. Such a
  body, a `null` body, an empty `messages` array, or a `null` or `undefined` latest
  message leads to the outer catch. A latest content that is not a string is taken as
  its string form. A sessionId that is not a string is also taken as its string form,
  which the source does only in file paths. The session lookups compare ids with `===`,
  so in the source a numeric sessionId never matches a session: the message file
  `<id>.json` is written and the request then answers 500. The model looks the session
  up by the string form instead.
- ChatStream.Rejection: the `details` of the outer catch's 500 reply is the message of
  an error the JavaScript engine throws for an unreadable or null body or a null latest
  message (a `SyntaxError` or `TypeError`). Its text is `Details.EngineError`, not
  spelt out.
- The tool implementations are modelled as a function of the tool and its input. Their
  store effects are not modelled: `createArtifact` appending a record with a fresh id,
  `runWorkflow` creating a run. Nor is their dependence on earlier calls, so
  `ChatStream.ToolResults`, `ChatStream.ExecuteToolUses` and the agent loop give two
  identical tool uses the same result. In the source, two `createArtifact` uses return
  different ids, and a `getWorkflowRun` polled again can see the run's status advance.
- ChatStream.AgentLoop: the final touch's own `new Date()` is the parameter `doneAt`.
- ChatStream.Converse: when the session is unknown and a save fails, the contract says
  only that the transcript extends the request history. The stream then ends with an
  error event and the transcript is discarded.
- The UI, the contexts, the thin HTTP routes for artifacts, sessions and workflows, and
  `cn` are outside this model.
