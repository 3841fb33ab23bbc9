/** The file-backed stores. Each JSON file is a field holding its parsed contents,
    `None` when the file is missing or unreadable; every operation reads the whole
    collection, changes it, and writes it back. Generated ids and the current time are
    parameters. */
module Storage {
  import opened Wrappers
  import opened Json
  import opened Text
  import opened Types

  /** `readJSONFile`: the file's contents, or the default when it cannot be read. */
  function ReadJSONFile<T>(file: Option<T>, defaultValue: T): (r: T)
    ensures file.None? ==> r == defaultValue
    ensures file.Some? ==> r == file.value
  {
    file.GetOr(defaultValue)
  }

  /** `findIndex(x => key(x) === k)`, with `None` for -1. */
  function FindIndex<T>(s: seq<T>, key: T -> string, k: string): (r: Option<nat>)
    ensures r.Some? ==> r.value < |s| && key(s[r.value]) == k
    ensures r.Some? ==> forall i :: 0 <= i < r.value ==> key(s[i]) != k
    ensures r.None? ==> forall i :: 0 <= i < |s| ==> key(s[i]) != k
  {
    if s == [] then None
    else if key(s[0]) == k then Some(0)
    else match FindIndex(s[1..], key, k)
      case None => None
      case Some(i) => Some(i + 1)
  }

  /** `find(x => key(x) === k) || null`: the first record with the key. */
  function Find<T>(s: seq<T>, key: T -> string, k: string): (r: Option<T>)
    ensures r.Some? <==> exists i :: 0 <= i < |s| && key(s[i]) == k
    ensures r.Some? ==> exists i :: 0 <= i < |s| && s[i] == r.value && key(s[i]) == k
                          && forall j :: 0 <= j < i ==> key(s[j]) != k
  {
    match FindIndex(s, key, k)
    case None => None
    case Some(i) => Some(s[i])
  }

  /** `filter`: the records whose key equals `k` (when `keep`) or differs from it. */
  function Filter<T(!new)>(s: seq<T>, key: T -> string, k: string, keep: bool): (r: seq<T>)
    ensures forall x :: x in r <==> x in s && (key(x) == k) == keep
    ensures |r| <= |s|
  {
    if s == [] then []
    else
      var init := Filter(s[..|s| - 1], key, k, keep);
      var last := s[|s| - 1];
      assert s == s[..|s| - 1] + [last];
      if (key(last) == k) == keep then init + [last] else init
  }

  /** Filtering keeps the original order: it distributes over concatenation. */
  lemma {:induction false} FilterAppend<T(!new)>(a: seq<T>, b: seq<T>, key: T -> string, k: string, keep: bool)
    ensures Filter(a + b, key, k, keep) == Filter(a, key, k, keep) + Filter(b, key, k, keep)
    decreases |b|
  {
    if b == [] {
      assert a + b == a;
    } else {
      assert (a + b)[..|a + b| - 1] == a + b[..|b| - 1];
      FilterAppend(a, b[..|b| - 1], key, k, keep);
    }
  }

  /** Replacing the first record with a key by a record with the same key keeps it first. */
  lemma FindIndexAfterUpdate<T>(s: seq<T>, key: T -> string, k: string, x: T)
    requires FindIndex(s, key, k).Some? && key(x) == k
    ensures FindIndex(s[FindIndex(s, key, k).value := x], key, k) == FindIndex(s, key, k)
  {
    var i := FindIndex(s, key, k).value;
    assert s[i := x][i] == x;
  }

  /** A record appended with a key no earlier record has is the first with that key. */
  lemma {:induction false} FindIndexAppend<T>(s: seq<T>, key: T -> string, k: string, x: T)
    requires FindIndex(s, key, k).None? && key(x) == k
    ensures FindIndex(s + [x], key, k) == Some(|s|)
    decreases |s|
  {
    if s != [] {
      assert key(s[0]) != k;
      assert (s + [x])[1..] == s[1..] + [x];
      FindIndexAppend(s[1..], key, k, x);
    }
  }

  /** Filtering out a key no record has changes nothing. */
  lemma {:induction false} FilterNoop<T(!new)>(s: seq<T>, key: T -> string, k: string)
    requires forall i :: 0 <= i < |s| ==> key(s[i]) != k
    ensures Filter(s, key, k, false) == s
    decreases |s|
  {
    if s != [] {
      FilterNoop(s[..|s| - 1], key, k);
      assert s == s[..|s| - 1] + [s[|s| - 1]];
    }
  }

  function SessionKey(s: ChatSession): string { s.id }
  function MessageKey(m: Message): string { m.id }
  function ArtifactKey(a: Artifact): string { a.id }
  function WorkflowKey(w: Workflow): string { w.id }
  function RunKey(r: WorkflowRun): string { r.id }
  function RunWorkflowKey(r: WorkflowRun): string { r.workflowId }

  /** A `Partial<ChatSession>` update: the fields present in it. */
  datatype SessionPatch = SessionPatch(title: Option<string>, createdAt: Option<Timestamp>, messages: Option<seq<Message>>)

  /** `{...session, ...updates, id, updatedAt: now}`. */
  function PatchSession(s: ChatSession, p: SessionPatch, id: string, now: Timestamp): (r: ChatSession)
    ensures r.id == id && r.updatedAt == now
    ensures r.title == (if p.title.Some? then p.title.value else s.title)
    ensures r.createdAt == (if p.createdAt.Some? then p.createdAt.value else s.createdAt)
    ensures r.messages == (if p.messages.Some? then p.messages.value else s.messages)
  {
    ChatSession(id, p.title.GetOr(s.title), p.createdAt.GetOr(s.createdAt), now, p.messages.GetOr(s.messages))
  }

  /** A message as handed to `addMessage`, before it gets an id and a timestamp. */
  datatype NewMessage = NewMessage(role: MessageRole, content: string, toolCalls: Option<seq<StoredToolCall>>)

  /** The sessions file once `addMessage` has touched session `sessionId` at `now`: the
      first session with the id gets the new `updatedAt`, every other session stays as it
      was, and a file without the session is left alone. */
  function TouchSession(file: Option<seq<ChatSession>>, sessionId: string, now: Timestamp): (r: Option<seq<ChatSession>>)
    ensures FindIndex(ReadJSONFile(file, []), SessionKey, sessionId).None? ==> r == file
    ensures FindIndex(ReadJSONFile(file, []), SessionKey, sessionId).Some? ==>
      var ss := ReadJSONFile(file, []);
      var i := FindIndex(ss, SessionKey, sessionId).value;
      && r.Some? && |r.value| == |ss|
      && r.value[i] == ss[i].(updatedAt := now)
      && forall j :: 0 <= j < |ss| && j != i ==> r.value[j] == ss[j]
    ensures FindIndex(ReadJSONFile(r, []), SessionKey, sessionId) == FindIndex(ReadJSONFile(file, []), SessionKey, sessionId)
  {
    var ss := ReadJSONFile(file, []);
    match FindIndex(ss, SessionKey, sessionId)
    case None => file
    case Some(i) =>
      FindIndexAfterUpdate(ss, SessionKey, sessionId, ss[i].(updatedAt := now));
      Some(ss[i := ss[i].(updatedAt := now)])
  }

  /** The sessions file once `addMessage` has saved each of `msgs`, in order, each touch
      at the message's own timestamp. */
  function TouchAll(file: Option<seq<ChatSession>>, sessionId: string, msgs: seq<Message>): (r: Option<seq<ChatSession>>)
    ensures FindIndex(ReadJSONFile(r, []), SessionKey, sessionId) == FindIndex(ReadJSONFile(file, []), SessionKey, sessionId)
    ensures FindIndex(ReadJSONFile(file, []), SessionKey, sessionId).None? ==> r == file
    decreases |msgs|
  {
    if msgs == [] then file
    else TouchSession(TouchAll(file, sessionId, msgs[..|msgs| - 1]), sessionId, msgs[|msgs| - 1].timestamp)
  }

  /** Saving one batch of messages after another touches the file as saving them all. */
  lemma {:induction false} TouchAllAppend(file: Option<seq<ChatSession>>, sessionId: string, a: seq<Message>, b: seq<Message>)
    ensures TouchAll(TouchAll(file, sessionId, a), sessionId, b) == TouchAll(file, sessionId, a + b)
    decreases |b|
  {
    if b == [] {
      assert a + b == a;
    } else {
      assert (a + b)[..|a + b| - 1] == a + b[..|b| - 1];
      TouchAllAppend(file, sessionId, a, b[..|b| - 1]);
    }
  }

  /** After saving messages to an existing session, its `updatedAt` is the timestamp of
      the last message saved, and no other session has changed. */
  lemma {:induction false} TouchAllLast(file: Option<seq<ChatSession>>, sessionId: string, msgs: seq<Message>)
    requires msgs != [] && FindIndex(ReadJSONFile(file, []), SessionKey, sessionId).Some?
    ensures var ss := ReadJSONFile(file, []);
      var i := FindIndex(ss, SessionKey, sessionId).value;
      TouchAll(file, sessionId, msgs) == Some(ss[i := ss[i].(updatedAt := msgs[|msgs| - 1].timestamp)])
    decreases |msgs|
  {
    var ss := ReadJSONFile(file, []);
    var i := FindIndex(ss, SessionKey, sessionId).value;
    var n := |msgs| - 1;
    var t := msgs[n].timestamp;
    if n > 0 {
      TouchAllLast(file, sessionId, msgs[..n]);
      var prev := ss[i := ss[i].(updatedAt := msgs[..n][n - 1].timestamp)];
      assert TouchAll(file, sessionId, msgs[..n]) == Some(prev);
      assert prev[i := prev[i].(updatedAt := t)] == ss[i := ss[i].(updatedAt := t)];
    }
  }

  /** The messages files once `msgs` are appended, one `addMessage` each, to the file of
      session `sessionId`; no other file changes. */
  function AppendMessages(files: map<string, seq<Message>>, sessionId: string, msgs: seq<Message>): (r: map<string, seq<Message>>)
    ensures msgs == [] ==> r == files
    ensures msgs != [] ==> sessionId in r && r[sessionId] == (if sessionId in files then files[sessionId] else []) + msgs
    ensures r.Keys == files.Keys + (if msgs == [] then {} else {sessionId})
    ensures forall s :: s in files && s != sessionId ==> r[s] == files[s]
  {
    if msgs == [] then files
    else files[sessionId := (if sessionId in files then files[sessionId] else []) + msgs]
  }

  /** Appending one batch of messages after another is appending them all. */
  lemma AppendMessagesAppend(files: map<string, seq<Message>>, sessionId: string, a: seq<Message>, b: seq<Message>)
    ensures AppendMessages(AppendMessages(files, sessionId, a), sessionId, b) == AppendMessages(files, sessionId, a + b)
  {
    if a == [] {
      assert a + b == b;
    } else if b == [] {
      assert a + b == a;
    } else {
      var old0 := if sessionId in files then files[sessionId] else [];
      assert old0 + a + b == old0 + (a + b);
    }
  }

  /** `FileSystemChatStorage`: the sessions file and one messages file per session. */
  class ChatStore {
    var sessionsFile: Option<seq<ChatSession>>
    var messageFiles: map<string, seq<Message>>

    constructor (sessionsFile: Option<seq<ChatSession>>, messageFiles: map<string, seq<Message>>)
      ensures this.sessionsFile == sessionsFile && this.messageFiles == messageFiles
    {
      this.sessionsFile := sessionsFile;
      this.messageFiles := messageFiles;
    }

    function Sessions(): seq<ChatSession>
      reads this
    {
      ReadJSONFile(sessionsFile, [])
    }

    function Messages(sessionId: string): seq<Message>
      reads this
    {
      if sessionId in messageFiles then messageFiles[sessionId] else []
    }

    method GetSessions() returns (r: seq<ChatSession>)
      ensures r == Sessions()
      ensures sessionsFile.None? ==> r == []
    {
      r := ReadJSONFile(sessionsFile, []);
    }

    method GetSession(sessionId: string) returns (r: Option<ChatSession>)
      ensures r == Find(Sessions(), SessionKey, sessionId)
    {
      var sessions := GetSessions();
      r := Find(sessions, SessionKey, sessionId);
    }

    /** `createSession`: append the new session and create its empty messages file. */
    method CreateSession(title: string, messages: seq<Message>, id: string, now: Timestamp) returns (r: ChatSession)
      modifies this
      ensures r == ChatSession(id, title, now, now, messages)
      ensures sessionsFile == Some(old(Sessions()) + [r])
      ensures messageFiles == old(messageFiles)[id := []]
    {
      var sessions := GetSessions();
      r := ChatSession(id, title, now, now, messages);
      sessions := sessions + [r];
      sessionsFile := Some(sessions);
      messageFiles := messageFiles[id := []];
    }

    /** `updateSession`: patch the first session with the id; throw when there is none. */
    method UpdateSession(sessionId: string, updates: SessionPatch, now: Timestamp) returns (r: Result<ChatSession>)
      modifies this
      ensures messageFiles == old(messageFiles)
      ensures FindIndex(old(Sessions()), SessionKey, sessionId).None? ==>
        r == Failure("Session " + sessionId + " not found") && sessionsFile == old(sessionsFile)
      ensures FindIndex(old(Sessions()), SessionKey, sessionId).Some? ==>
        var i := FindIndex(old(Sessions()), SessionKey, sessionId).value;
        && r == Success(PatchSession(old(Sessions())[i], updates, sessionId, now))
        && sessionsFile == Some(old(Sessions())[i := r.value])
    {
      var sessions := GetSessions();
      var index := FindIndex(sessions, SessionKey, sessionId);
      if index.None? {
        return Failure("Session " + sessionId + " not found");
      }
      var updated := PatchSession(sessions[index.value], updates, sessionId, now);
      sessions := sessions[index.value := updated];
      sessionsFile := Some(sessions);
      r := Success(updated);
    }

    /** `deleteSession`: drop every session with the id and its messages file. */
    method DeleteSession(sessionId: string)
      modifies this
      ensures sessionsFile == Some(Filter(old(Sessions()), SessionKey, sessionId, false))
      ensures messageFiles == old(messageFiles) - {sessionId}
    {
      var sessions := GetSessions();
      sessionsFile := Some(Filter(sessions, SessionKey, sessionId, false));
      messageFiles := messageFiles - {sessionId};
    }

    method GetMessages(sessionId: string) returns (r: seq<Message>)
      ensures r == Messages(sessionId)
      ensures sessionId !in messageFiles ==> r == []
    {
      r := if sessionId in messageFiles then messageFiles[sessionId] else [];
    }

    /** `addMessage`: append the message to the session's file, then touch the session's
        `updatedAt`, which throws when the session does not exist (after the write). */
    method AddMessage(sessionId: string, message: NewMessage, id: string, now: Timestamp) returns (r: Result<Message>)
      modifies this
      ensures var m := Message(id, message.role, message.content, now, message.toolCalls);
        messageFiles == old(messageFiles)[sessionId := old(Messages(sessionId)) + [m]]
        && (r.Success? ==> r.value == m)
      ensures FindIndex(old(Sessions()), SessionKey, sessionId).None? ==>
        r == Failure("Session " + sessionId + " not found") && sessionsFile == old(sessionsFile)
      ensures FindIndex(old(Sessions()), SessionKey, sessionId).Some? ==>
        var i := FindIndex(old(Sessions()), SessionKey, sessionId).value;
        && r.Success?
        && sessionsFile == Some(old(Sessions())[i := old(Sessions())[i].(updatedAt := now)])
      ensures sessionsFile == TouchSession(old(sessionsFile), sessionId, now)
    {
      var messages := GetMessages(sessionId);
      var newMessage := Message(id, message.role, message.content, now, message.toolCalls);
      messages := messages + [newMessage];
      messageFiles := messageFiles[sessionId := messages];
      var touched := UpdateSession(sessionId, SessionPatch(None, None, None), now);
      if touched.Failure? {
        return Failure(touched.error);
      }
      r := Success(newMessage);
    }

    /** `deleteMessage`: drop every message with the id from the session's file. */
    method DeleteMessage(sessionId: string, messageId: string)
      modifies this
      ensures sessionsFile == old(sessionsFile)
      ensures messageFiles == old(messageFiles)[sessionId := Filter(old(Messages(sessionId)), MessageKey, messageId, false)]
    {
      var messages := GetMessages(sessionId);
      messageFiles := messageFiles[sessionId := Filter(messages, MessageKey, messageId, false)];
    }
  }

  /** What `createArtifact` is given: an artifact without id and dates. */
  datatype NewArtifact = NewArtifact(title: string, content: string, tags: seq<string>)

  /** A `Partial<Omit<Artifact, 'id' | 'createdAt'>>` update: the fields present in it. */
  datatype ArtifactPatch = ArtifactPatch(title: Option<string>, content: Option<string>, tags: Option<seq<string>>)

  /** `{...artifact, ...updates, id, updatedAt: now}`. */
  function PatchArtifact(a: Artifact, p: ArtifactPatch, id: string, now: Timestamp): (r: Artifact)
    ensures r.id == id && r.createdAt == a.createdAt && r.updatedAt == now
    ensures r.title == (if p.title.Some? then p.title.value else a.title)
    ensures r.content == (if p.content.Some? then p.content.value else a.content)
    ensures r.tags == (if p.tags.Some? then p.tags.value else a.tags)
  {
    Artifact(id, p.title.GetOr(a.title), p.content.GetOr(a.content), p.tags.GetOr(a.tags), a.createdAt, now)
  }

  /** The search test: the lowercased query occurs in the lowercased title, content or
      some tag. */
  predicate Matches(a: Artifact, lowerQuery: string) {
    || Includes(ToLower(a.title), lowerQuery)
    || Includes(ToLower(a.content), lowerQuery)
    || exists tag :: tag in a.tags && Includes(ToLower(tag), lowerQuery)
  }

  /** The artifacts that match, in their stored order. */
  function Search(s: seq<Artifact>, lowerQuery: string): (r: seq<Artifact>)
    ensures forall a :: a in r <==> a in s && Matches(a, lowerQuery)
    ensures |r| <= |s|
  {
    if s == [] then []
    else
      var init := Search(s[..|s| - 1], lowerQuery);
      var last := s[|s| - 1];
      assert s == s[..|s| - 1] + [last];
      if Matches(last, lowerQuery) then init + [last] else init
  }

  lemma {:induction false} SearchAppend(a: seq<Artifact>, b: seq<Artifact>, lowerQuery: string)
    ensures Search(a + b, lowerQuery) == Search(a, lowerQuery) + Search(b, lowerQuery)
    decreases |b|
  {
    if b == [] {
      assert a + b == a;
    } else {
      assert (a + b)[..|a + b| - 1] == a + b[..|b| - 1];
      SearchAppend(a, b[..|b| - 1], lowerQuery);
    }
  }

  /** The empty query matches every artifact, so it returns the whole collection. */
  lemma {:induction false} SearchEmptyQuery(s: seq<Artifact>)
    ensures Search(s, "") == s
    decreases |s|
  {
    if s != [] {
      SearchEmptyQuery(s[..|s| - 1]);
      IncludesEmpty(ToLower(s[|s| - 1].title));
      assert s == s[..|s| - 1] + [s[|s| - 1]];
    }
  }

  /** `FileSystemArtifactStorage`: the artifacts file. */
  class ArtifactStore {
    var file: Option<seq<Artifact>>

    constructor (file: Option<seq<Artifact>>)
      ensures this.file == file
    {
      this.file := file;
    }

    function Artifacts(): seq<Artifact>
      reads this
    {
      ReadJSONFile(file, [])
    }

    method GetArtifacts() returns (r: seq<Artifact>)
      ensures r == Artifacts()
      ensures file.None? ==> r == []
    {
      r := ReadJSONFile(file, []);
    }

    method GetArtifact(artifactId: string) returns (r: Option<Artifact>)
      ensures r == Find(Artifacts(), ArtifactKey, artifactId)
    {
      var artifacts := GetArtifacts();
      r := Find(artifacts, ArtifactKey, artifactId);
    }

    /** `createArtifact`: append the artifact with its new id and dates. */
    method CreateArtifact(artifact: NewArtifact, id: string, now: Timestamp) returns (r: Artifact)
      modifies this
      ensures r == Artifact(id, artifact.title, artifact.content, artifact.tags, now, now)
      ensures file == Some(old(Artifacts()) + [r])
    {
      var artifacts := GetArtifacts();
      r := Artifact(id, artifact.title, artifact.content, artifact.tags, now, now);
      artifacts := artifacts + [r];
      file := Some(artifacts);
    }

    /** `updateArtifact`: patch the first artifact with the id; throw when there is none. */
    method UpdateArtifact(artifactId: string, updates: ArtifactPatch, now: Timestamp) returns (r: Result<Artifact>)
      modifies this
      ensures FindIndex(old(Artifacts()), ArtifactKey, artifactId).None? ==>
        r == Failure("Artifact " + artifactId + " not found") && file == old(file)
      ensures FindIndex(old(Artifacts()), ArtifactKey, artifactId).Some? ==>
        var i := FindIndex(old(Artifacts()), ArtifactKey, artifactId).value;
        && r == Success(PatchArtifact(old(Artifacts())[i], updates, artifactId, now))
        && file == Some(old(Artifacts())[i := r.value])
    {
      var artifacts := GetArtifacts();
      var index := FindIndex(artifacts, ArtifactKey, artifactId);
      if index.None? {
        return Failure("Artifact " + artifactId + " not found");
      }
      var updated := PatchArtifact(artifacts[index.value], updates, artifactId, now);
      artifacts := artifacts[index.value := updated];
      file := Some(artifacts);
      r := Success(updated);
    }

    method DeleteArtifact(artifactId: string)
      modifies this
      ensures file == Some(Filter(old(Artifacts()), ArtifactKey, artifactId, false))
    {
      var artifacts := GetArtifacts();
      file := Some(Filter(artifacts, ArtifactKey, artifactId, false));
    }

    /** `searchArtifacts`: case-insensitive substring search over title, content and tags. */
    method SearchArtifacts(query: string) returns (r: seq<Artifact>)
      ensures r == Search(Artifacts(), ToLower(query))
    {
      var artifacts := GetArtifacts();
      r := Search(artifacts, ToLower(query));
    }
  }

  const DefaultWorkflows: seq<Workflow> := [
    Workflow("data-processing", "Data Processing",
      "Process text data with operations like uppercase, lowercase, reverse, or word count"),
    Workflow("report-generation", "Report Generation",
      "Fetch data from a source and generate a formatted report in markdown or JSON"),
    Workflow("long-running-processing", "Long Running Processing",
      "Process large datasets in chunks with optional report generation")
  ]

  /** What `createRun` is given: a run without id and start time. */
  datatype NewRun = NewRun(
    workflowId: string, status: WorkflowStatus, completedAt: Option<Timestamp>,
    parameters: Json, result: Json, error: Option<string>)

  /** A `Partial<WorkflowRun>` update: the fields present in it (its `id` is ignored). */
  datatype RunPatch = RunPatch(
    status: Option<WorkflowStatus>, completedAt: Option<Timestamp>,
    result: Option<Json>, error: Option<string>)

  /** `{...run, ...updates, id}`. */
  function PatchRun(run: WorkflowRun, p: RunPatch, id: string): (r: WorkflowRun)
    ensures r.id == id
    ensures r.workflowId == run.workflowId && r.startedAt == run.startedAt && r.parameters == run.parameters
    ensures r.status == (if p.status.Some? then p.status.value else run.status)
    ensures r.completedAt == (if p.completedAt.Some? then p.completedAt else run.completedAt)
    ensures r.result == (if p.result.Some? then p.result.value else run.result)
    ensures r.error == (if p.error.Some? then p.error else run.error)
  {
    WorkflowRun(id, run.workflowId, p.status.GetOr(run.status), run.startedAt,
      if p.completedAt.Some? then p.completedAt else run.completedAt,
      run.parameters, p.result.GetOr(run.result),
      if p.error.Some? then p.error else run.error)
  }

  /** `FileSystemWorkflowStorage`: the workflows file and the runs file. */
  class WorkflowStore {
    var workflowsFile: Option<seq<Workflow>>
    var runsFile: Option<seq<WorkflowRun>>

    constructor (workflowsFile: Option<seq<Workflow>>, runsFile: Option<seq<WorkflowRun>>)
      ensures this.workflowsFile == workflowsFile && this.runsFile == runsFile
    {
      this.workflowsFile := workflowsFile;
      this.runsFile := runsFile;
    }

    function Workflows(): seq<Workflow>
      reads this
    {
      ReadJSONFile(workflowsFile, DefaultWorkflows)
    }

    function Runs(): seq<WorkflowRun>
      reads this
    {
      ReadJSONFile(runsFile, [])
    }

    /** `getWorkflows`: with no workflows file, the three built-in workflows. */
    method GetWorkflows() returns (r: seq<Workflow>)
      ensures r == Workflows()
      ensures workflowsFile.None? ==>
        |r| == 3 && r[0].id == "data-processing" && r[1].id == "report-generation"
        && r[2].id == "long-running-processing"
    {
      r := ReadJSONFile(workflowsFile, DefaultWorkflows);
    }

    method GetWorkflow(workflowId: string) returns (r: Option<Workflow>)
      ensures r == Find(Workflows(), WorkflowKey, workflowId)
    {
      var workflows := GetWorkflows();
      r := Find(workflows, WorkflowKey, workflowId);
    }

    /** `getRuns`: the runs of one workflow, or all runs when no (or an empty) id is given. */
    method GetRuns(workflowId: Option<string>) returns (r: seq<WorkflowRun>)
      ensures workflowId.Some? && workflowId.value != "" ==> r == Filter(Runs(), RunWorkflowKey, workflowId.value, true)
      ensures workflowId.None? || workflowId.value == "" ==> r == Runs()
    {
      var runs := ReadJSONFile(runsFile, []);
      if workflowId.Some? && workflowId.value != "" {
        return Filter(runs, RunWorkflowKey, workflowId.value, true);
      }
      r := runs;
    }

    method GetRun(runId: string) returns (r: Option<WorkflowRun>)
      ensures r == Find(Runs(), RunKey, runId)
    {
      var runs := GetRuns(None);
      r := Find(runs, RunKey, runId);
    }

    /** `createRun`: append the run with its new id and start time. */
    method CreateRun(run: NewRun, id: string, now: Timestamp) returns (r: WorkflowRun)
      modifies this
      ensures r == WorkflowRun(id, run.workflowId, run.status, now, run.completedAt, run.parameters, run.result, run.error)
      ensures runsFile == Some(old(Runs()) + [r]) && workflowsFile == old(workflowsFile)
    {
      var runs := GetRuns(None);
      r := WorkflowRun(id, run.workflowId, run.status, now, run.completedAt, run.parameters, run.result, run.error);
      runs := runs + [r];
      runsFile := Some(runs);
    }

    /** `updateRun`: patch the first run with the id; throw when there is none. */
    method UpdateRun(runId: string, updates: RunPatch) returns (r: Result<WorkflowRun>)
      modifies this
      ensures workflowsFile == old(workflowsFile)
      ensures FindIndex(old(Runs()), RunKey, runId).None? ==>
        r == Failure("Run " + runId + " not found") && runsFile == old(runsFile)
      ensures FindIndex(old(Runs()), RunKey, runId).Some? ==>
        var i := FindIndex(old(Runs()), RunKey, runId).value;
        && r == Success(PatchRun(old(Runs())[i], updates, runId))
        && runsFile == Some(old(Runs())[i := r.value])
    {
      var runs := GetRuns(None);
      var index := FindIndex(runs, RunKey, runId);
      if index.None? {
        return Failure("Run " + runId + " not found");
      }
      var updated := PatchRun(runs[index.value], updates, runId);
      runs := runs[index.value := updated];
      runsFile := Some(runs);
      r := Success(updated);
    }
  }
}
