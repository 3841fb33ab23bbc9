/** The execute bodies of the artifact tools, over an `ArtifactStore`. Tool inputs are
    given with the types their input schemas declare; an absent optional field is `None`. */
module ArtifactTools {
  import opened Wrappers
  import opened Text
  import opened Types
  import opened Storage

  const ExcerptLength: nat := 200

  /** `content.substring(0, 200) + (content.length > 200 ? '...' : '')`. */
  function Excerpt(content: string): (r: string)
    ensures |content| <= ExcerptLength ==> r == content
    ensures |content| > ExcerptLength ==> r == content[..ExcerptLength] + "..."
    ensures |r| <= ExcerptLength + 3
    ensures r[..if |content| < ExcerptLength then |content| else ExcerptLength] == content[..if |content| < ExcerptLength then |content| else ExcerptLength]
  {
    if |content| > ExcerptLength then content[..ExcerptLength] + "..." else content
  }

  datatype ArtifactSummary = ArtifactSummary(
    id: string, title: string, tags: seq<string>, excerpt: string, createdAt: Timestamp, updatedAt: Timestamp)

  datatype SearchReply = SearchReply(results: seq<ArtifactSummary>, count: nat)

  function Summary(a: Artifact): ArtifactSummary {
    ArtifactSummary(a.id, a.title, a.tags, Excerpt(a.content), a.createdAt, a.updatedAt)
  }

  /** The search reply for a list of artifacts: one summary per artifact, in order. */
  function Summaries(arts: seq<Artifact>): (r: seq<ArtifactSummary>)
    ensures |r| == |arts|
    ensures forall i :: 0 <= i < |arts| ==>
      && r[i].id == arts[i].id && r[i].title == arts[i].title && r[i].tags == arts[i].tags
      && r[i].excerpt == Excerpt(arts[i].content)
      && r[i].createdAt == arts[i].createdAt && r[i].updatedAt == arts[i].updatedAt
  {
    seq(|arts|, i requires 0 <= i < |arts| => Summary(arts[i]))
  }

  /** Whether the query selects a search rather than the full list. */
  predicate IsSearch(query: Option<string>) {
    query.Some? && query.value != "" && |Trim(query.value)| > 0
  }

  /** The artifacts the search tool reports. */
  function SearchSelection(all: seq<Artifact>, query: Option<string>): (r: seq<Artifact>)
    ensures !IsSearch(query) ==> r == all
    ensures IsSearch(query) ==> forall a :: a in r <==> a in all && Matches(a, ToLower(query.value))
  {
    if IsSearch(query) then Search(all, ToLower(query.value)) else all
  }

  /** `searchArtifacts`: search with the untrimmed query, or list all when it is absent or
      blank; `count` is the number of results. */
  method SearchArtifactsTool(store: ArtifactStore, query: Option<string>) returns (reply: SearchReply)
    ensures reply.results == Summaries(SearchSelection(store.Artifacts(), query))
    ensures reply.count == |reply.results|
  {
    var artifacts: seq<Artifact>;
    if query.Some? && query.value != "" && |Trim(query.value)| > 0 {
      artifacts := store.SearchArtifacts(query.value);
    } else {
      artifacts := store.GetArtifacts();
    }
    reply := SearchReply(Summaries(artifacts), |artifacts|);
  }

  /** A blank query lists every stored artifact. */
  lemma BlankQueryListsAll(all: seq<Artifact>, q: string)
    requires Trim(q) == ""
    ensures SearchSelection(all, Some(q)) == all
    ensures |Summaries(SearchSelection(all, Some(q)))| == |all|
  {
  }

  datatype GetReply =
    | ArtifactDetail(id: string, title: string, content: string, tags: seq<string>, createdAt: Timestamp, updatedAt: Timestamp)
    | ArtifactError(error: string)

  const NotFoundMessage: string := "Artifact not found"

  /** `getArtifact`: the full artifact, or `{error: 'Artifact not found'}`. */
  method GetArtifactTool(store: ArtifactStore, id: string) returns (reply: GetReply)
    ensures Find(store.Artifacts(), ArtifactKey, id).None? <==> reply == ArtifactError(NotFoundMessage)
    ensures Find(store.Artifacts(), ArtifactKey, id).Some? ==>
      var a := Find(store.Artifacts(), ArtifactKey, id).value;
      reply == ArtifactDetail(a.id, a.title, a.content, a.tags, a.createdAt, a.updatedAt) && a.id == id
  {
    var artifact := store.GetArtifact(id);
    if artifact.None? {
      return ArtifactError(NotFoundMessage);
    }
    var a := artifact.value;
    reply := ArtifactDetail(a.id, a.title, a.content, a.tags, a.createdAt, a.updatedAt);
  }

  datatype ChangeReply = ChangeReply(id: string, title: string, message: string)

  /** `createArtifact`: store the artifact, with no tags when none are given. */
  method CreateArtifactTool(store: ArtifactStore, title: string, content: string, tags: Option<seq<string>>,
                            id: string, now: Timestamp) returns (reply: ChangeReply)
    modifies store
    ensures store.file == Some(old(store.Artifacts()) + [Artifact(id, title, content, tags.GetOr([]), now, now)])
    ensures tags.None? ==> store.Artifacts()[|store.Artifacts()| - 1].tags == []
    ensures reply == ChangeReply(id, title, "Created artifact \"" + title + "\" with ID: " + id)
  {
    var artifact := store.CreateArtifact(NewArtifact(title, content, if tags.Some? then tags.value else []), id, now);
    reply := ChangeReply(artifact.id, artifact.title,
      "Created artifact \"" + artifact.title + "\" with ID: " + artifact.id);
  }

  /** `updateArtifact`: build the update from the fields given, then update storage. The
      storage layer throws on an unknown id, so that error is what the tool fails with. */
  method UpdateArtifactTool(store: ArtifactStore, id: string, title: Option<string>, content: Option<string>,
                            tags: Option<seq<string>>, now: Timestamp) returns (reply: Result<ChangeReply>)
    modifies store
    ensures FindIndex(old(store.Artifacts()), ArtifactKey, id).None? ==>
      reply == Failure("Artifact " + id + " not found") && store.file == old(store.file)
    ensures |store.Artifacts()| == |old(store.Artifacts())|
    ensures FindIndex(old(store.Artifacts()), ArtifactKey, id).Some? ==>
      var i := FindIndex(old(store.Artifacts()), ArtifactKey, id).value;
      var a := old(store.Artifacts())[i];
      var b := store.Artifacts()[i];
      && store.file == Some(old(store.Artifacts())[i := b])
      && b.id == id && b.createdAt == a.createdAt && b.updatedAt == now
      && b.title == (if title.Some? then title.value else a.title)
      && b.content == (if content.Some? then content.value else a.content)
      && b.tags == (if tags.Some? then tags.value else a.tags)
      && reply == Success(ChangeReply(id, b.title, "Updated artifact \"" + b.title + "\""))
  {
    var updates := ArtifactPatch(None, None, None);
    if title.Some? { updates := updates.(title := title); }
    if content.Some? { updates := updates.(content := content); }
    if tags.Some? { updates := updates.(tags := tags); }
    assert updates == ArtifactPatch(title, content, tags);
    var updated := store.UpdateArtifact(id, updates, now);
    if updated.Failure? {
      return Failure(updated.error);
    }
    var a := updated.value;
    reply := Success(ChangeReply(a.id, a.title, "Updated artifact \"" + a.title + "\""));
  }
}
