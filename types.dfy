/** The records the pages and the API exchange with the backend, as declared in
    src/types.ts. JSON fields that may be absent are `Option`s; the model type
    and status enumerations are kept as the strings that are sent. */
module Types {
  import opened Wrappers

  datatype ModelEntry = ModelEntry(
    id: nat,
    name: string,
    developer: Option<string>,
    modelType: Option<string>,
    status: Option<string>,
    dateInteracted: Option<string>,
    tags: Option<seq<string>>,
    notes: Option<string>,
    sourceLinks: Option<seq<string>>,
    parameters: Option<int>,
    license: Option<string>,
    version: Option<string>,
    userId: Option<nat>,
    workspaceId: Option<nat>,
    username: Option<string>)

  /** `Partial<ModelEntry>`: a model being drafted, edited or autofilled. */
  datatype Draft = Draft(
    id: Option<nat>,
    name: Option<string>,
    developer: Option<string>,
    modelType: Option<string>,
    status: Option<string>,
    dateInteracted: Option<string>,
    tags: Option<seq<string>>,
    notes: Option<string>,
    sourceLinks: Option<seq<string>>,
    parameters: Option<int>,
    license: Option<string>,
    version: Option<string>,
    userId: Option<nat>,
    workspaceId: Option<nat>,
    username: Option<string>)

  const EmptyDraft := Draft(None, None, None, None, None, None, None, None, None, None, None, None, None, None, None)

  /** A full record seen as a draft: every field it has is present. */
  function AsDraft(m: ModelEntry): Draft {
    Draft(Some(m.id), Some(m.name), m.developer, m.modelType, m.status, m.dateInteracted,
          m.tags, m.notes, m.sourceLinks, m.parameters, m.license, m.version,
          m.userId, m.workspaceId, m.username)
  }

  datatype WorkspaceEntry = WorkspaceEntry(
    id: nat,
    name: string,
    description: Option<string>,
    createdAt: string,
    isDefault: bool,
    userId: nat,
    models: seq<ModelEntry>)

  datatype User = User(
    id: nat,
    username: string,
    email: string,
    isActive: bool,
    createdAt: string,
    workspaces: seq<WorkspaceEntry>)

  /** What the login, register and verify-token endpoints answer; either part
      may be missing from a malformed answer. */
  datatype AuthResponse = AuthResponse(token: Option<string>, user: Option<User>)

  datatype SearchParams = SearchParams(
    q: Option<string>,
    modelType: Option<string>,
    status: Option<string>,
    tag: Option<string>,
    dateInteracted: Option<string>,
    workspaceId: Option<nat>)

  /** A rejected request: the HTTP status when there was a response, and the
      error's message. */
  datatype ApiError = ApiError(status: Option<int>, message: string)

  /** JavaScript truthiness of an optional string: present and not empty. */
  predicate Truthy(s: Option<string>) {
    s.Some? && s.value != ""
  }

  /** `model.tags || []`. */
  function TagsOf(m: ModelEntry): seq<string> {
    m.tags.GetOr([])
  }

  /** `models.flatMap(model => model.tags || [])`: every tag of every model,
      model by model. */
  function AllTags(models: seq<ModelEntry>): (r: seq<string>)
    ensures forall i, k :: 0 <= i < |models| && 0 <= k < |TagsOf(models[i])| ==> TagsOf(models[i])[k] in r
    ensures forall k :: 0 <= k < |r| ==> exists i :: 0 <= i < |models| && r[k] in TagsOf(models[i])
  {
    if models == [] then []
    else
      var init := models[..|models| - 1];
      var rest := AllTags(init);
      var r := rest + TagsOf(models[|models| - 1]);
      assert forall i :: 0 <= i < |init| ==> init[i] == models[i];
      r
  }
}
