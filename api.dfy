/** The API module of the app (src/services/api.ts): how a search becomes query
    parameters, how a model becomes a request body, the stored bearer token and
    the interceptors around it, and the requests the pages can issue. */
module Api {
  import opened Wrappers
  import opened Types
  import opened Numbers

  /** A request sent to the backend, with the arguments the page passed to the
      API function that sends it. */
  datatype Call =
    | GetAllModels
    | GetModel(id: Num)
    | SearchModels(params: SearchParams)
    | SemanticSearch(query: string)
    | CreateModel(draft: Draft)
    | UpdateModel(id: Num, draft: Draft)
    | DeleteModel(id: Num)
    | AutofillModel(identifier: string, links: seq<string>)
    | CompareModels(ids: seq<Num>)
    | VerifyToken
    | Login
    | Register
    | GetAllWorkspaces
    | GetWorkspace(target: Num)
    | CreateWorkspace(name: string, description: Option<string>)
    | UpdateWorkspace(workspaceId: nat, name: string, description: Option<string>)
    | DeleteWorkspace(workspaceId: nat)
    | MoveModel(modelId: nat, fromWorkspace: nat, toWorkspace: nat)

  // ---------------------------------------------------------------------------
  // Search parameters

  /** The query parameters `search` may send, in the order it appends them. */
  function Rank(key: string): nat {
    if key == "q" then 0
    else if key == "type" then 1
    else if key == "status" then 2
    else if key == "tag" then 3
    else if key == "date_interacted" then 4
    else 5
  }

  /** The value sent for `key`, if any. */
  function Lookup(query: seq<(string, string)>, key: string): Option<string> {
    if query == [] then None
    else if query[0].0 == key then Some(query[0].1)
    else Lookup(query[1..], key)
  }

  /** `searchParams.append(key, value)` when the value is truthy. */
  function AppendIf(query: seq<(string, string)>, key: string, value: Option<string>): seq<(string, string)> {
    if Truthy(value) then query + [(key, value.value)] else query
  }

  /** The query string `search` builds: q, type, status and tag when truthy,
      then the date converted to ISO form when it is truthy. */
  function SearchQuery(p: SearchParams, toIso: string -> string): seq<(string, string)> {
    if Truthy(p.dateInteracted) then Leading(p) + [("date_interacted", toIso(p.dateInteracted.value))]
    else Leading(p)
  }

  /** `search` appending one parameter after the other to `URLSearchParams`. */
  method BuildSearchParams(p: SearchParams, toIso: string -> string) returns (query: seq<(string, string)>)
    ensures query == SearchQuery(p, toIso)
  {
    query := [];
    if Truthy(p.q) { query := query + [("q", p.q.value)]; }
    if Truthy(p.modelType) { query := query + [("type", p.modelType.value)]; }
    if Truthy(p.status) { query := query + [("status", p.status.value)]; }
    if Truthy(p.tag) { query := query + [("tag", p.tag.value)]; }
    if Truthy(p.dateInteracted) {
      query := query + [("date_interacted", toIso(p.dateInteracted.value))];
    }
  }

  /** Every key comes before `n` in the fixed order. */
  predicate Below(query: seq<(string, string)>, n: nat) {
    forall i :: 0 <= i < |query| ==> Rank(query[i].0) < n
  }

  /** Keys in strictly increasing order, hence each at most once. */
  predicate Ordered(query: seq<(string, string)>) {
    forall i, j :: 0 <= i < j < |query| ==> Rank(query[i].0) < Rank(query[j].0)
  }

  lemma {:induction false} LookupSnoc(query: seq<(string, string)>, key: string, value: string, k: string)
    ensures Lookup(query + [(key, value)], k)
         == if Lookup(query, k).Some? then Lookup(query, k) else if key == k then Some(value) else None
    decreases |query|
  {
    if query != [] {
      assert (query + [(key, value)])[1..] == query[1..] + [(key, value)];
      LookupSnoc(query[1..], key, value, k);
    }
  }

  lemma {:induction false} LookupMissing(query: seq<(string, string)>, k: string)
    requires forall i :: 0 <= i < |query| ==> query[i].0 != k
    ensures Lookup(query, k) == None
    decreases |query|
  {
    if query != [] {
      LookupMissing(query[1..], k);
    }
  }

  /** Appending a later key keeps the order and adds exactly that key. */
  lemma AppendLater(query: seq<(string, string)>, key: string, value: string, k: string)
    requires Ordered(query) && Below(query, Rank(key)) && Rank(key) < 5
    ensures Ordered(query + [(key, value)]) && Below(query + [(key, value)], Rank(key) + 1)
    ensures Lookup(query + [(key, value)], k) == if k == key then Some(value) else Lookup(query, k)
  {
    LookupSnoc(query, key, value, k);
    if k == key {
      LookupMissing(query, k);
    }
  }

  /** The value `search` sends under `k`: the field of that name when it is
      truthy (the date in ISO form), and nothing for any other key. */
  function Expected(p: SearchParams, toIso: string -> string, k: string): Option<string> {
    if k == "q" then (if Truthy(p.q) then p.q else None)
    else if k == "type" then (if Truthy(p.modelType) then p.modelType else None)
    else if k == "status" then (if Truthy(p.status) then p.status else None)
    else if k == "tag" then (if Truthy(p.tag) then p.tag else None)
    else if k == "date_interacted" then
      (if Truthy(p.dateInteracted) then Some(toIso(p.dateInteracted.value)) else None)
    else None
  }

  /** The four fields before the date. */
  function Leading(p: SearchParams): seq<(string, string)> {
    AppendIf(AppendIf(AppendIf(AppendIf([], "q", p.q), "type", p.modelType), "status", p.status), "tag", p.tag)
  }

  /** Appending a later key when its value is truthy: the order is kept and
      the key maps to that value exactly when it is truthy. */
  lemma AppendIfLater(query: seq<(string, string)>, key: string, value: Option<string>, k: string)
    requires Ordered(query) && Below(query, Rank(key)) && Rank(key) < 5
    ensures Ordered(AppendIf(query, key, value)) && Below(AppendIf(query, key, value), Rank(key) + 1)
    ensures Lookup(AppendIf(query, key, value), k)
         == if k == key then (if Truthy(value) then value else None) else Lookup(query, k)
  {
    if Truthy(value) {
      AppendLater(query, key, value.value, k);
    } else if k == key {
      LookupMissing(query, k);
    }
  }

  lemma LeadingContents(p: SearchParams, k: string)
    ensures Ordered(Leading(p)) && Below(Leading(p), 4)
    ensures Lookup(Leading(p), k) == if k == "date_interacted" then None else Expected(p, s => s, k)
  {
    var q1 := AppendIf([], "q", p.q);
    var q2 := AppendIf(q1, "type", p.modelType);
    var q3 := AppendIf(q2, "status", p.status);
    AppendIfLater([], "q", p.q, k);
    AppendIfLater(q1, "type", p.modelType, k);
    AppendIfLater(q2, "status", p.status, k);
    AppendIfLater(q3, "tag", p.tag, k);
  }

  /** What `search` sends under any key `k`: q, type, status, tag and the date
      each exactly when the field is truthy, with its value (the date in ISO
      form), and nothing under any other key, so the workspace is never sent. */
  lemma SearchQueryLookup(p: SearchParams, toIso: string -> string, k: string)
    ensures Lookup(SearchQuery(p, toIso), k) == Expected(p, toIso, k)
  {
    LeadingContents(p, k);
    if Truthy(p.dateInteracted) {
      AppendLater(Leading(p), "date_interacted", toIso(p.dateInteracted.value), k);
    }
  }

  /** The keys `search` sends come in the fixed order q, type, status, tag,
      date_interacted, each at most once, and are among those five. */
  lemma SearchQueryOrdered(p: SearchParams, toIso: string -> string)
    ensures Ordered(SearchQuery(p, toIso)) && Below(SearchQuery(p, toIso), 5)
  {
    LeadingContents(p, "q");
    if Truthy(p.dateInteracted) {
      AppendLater(Leading(p), "date_interacted", toIso(p.dateInteracted.value), "q");
    }
  }

  // ---------------------------------------------------------------------------
  // Request bodies

  /** The body `create` and `update` send, as the draft it renders to JSON
      (absent fields are not sent): every field of the draft except `user_id`,
      with the date in ISO form when it is truthy and left out otherwise. */
  function ModelBody(d: Draft, toIso: string -> string): (r: Draft)
    ensures r.userId == None
    ensures r.dateInteracted.Some? <==> Truthy(d.dateInteracted)
    ensures Truthy(d.dateInteracted) ==> r.dateInteracted == Some(toIso(d.dateInteracted.value))
    ensures r.(userId := d.userId, dateInteracted := d.dateInteracted) == d
  {
    var date := if Truthy(d.dateInteracted) then Some(toIso(d.dateInteracted.value)) else None;
    d.(userId := None, dateInteracted := date)
  }

  /** The body `compareModels` sends: the ids as given, under `model_ids`. */
  function CompareBody(ids: seq<Num>): (r: map<string, seq<Num>>)
    ensures r.Keys == {"model_ids"} && r["model_ids"] == ids
  {
    map["model_ids" := ids]
  }

  // ---------------------------------------------------------------------------
  // The stored token

  /** Whether a rejected request was answered with 401 Unauthorized. */
  predicate Unauthorized<T>(outcome: Result<T, ApiError>) {
    outcome.Failure? && outcome.error.status == Some(401)
  }

  /** What Web Storage keeps when `setItem` is given the token of an answer:
      the token, or the text "undefined" when the answer has none. */
  function StoredText(token: Option<string>): string {
    if token.Some? then token.value else "undefined"
  }

  /** The `auth_token` entry of local storage, and the interceptors and
      `authApi` operations that read and change it. */
  class TokenStore {
    var token: Option<string>

    constructor (initial: Option<string>)
      ensures token == initial
    {
      token := initial;
    }

    /** The request interceptor: the `Authorization` header a request carries. */
    function Authorization(): (h: Option<string>)
      reads this
      ensures h.Some? <==> Truthy(token)
      ensures h.Some? ==> h.value == "Bearer " + token.value
    {
      if Truthy(token) then Some("Bearer " + token.value) else None
    }

    /** The response interceptor: a 401 clears the token; every outcome, 401 or
        not, reaches the caller unchanged. */
    method Intercept<T>(outcome: Result<T, ApiError>) returns (r: Result<T, ApiError>)
      modifies this
      ensures r == outcome
      ensures token == if Unauthorized(outcome) then None else old(token)
    {
      if Unauthorized(outcome) {
        token := None;
      }
      r := outcome;
    }

    /** `authApi.login`: on success the answer's token is stored as it is. */
    method Login(outcome: Result<AuthResponse, ApiError>) returns (r: Result<AuthResponse, ApiError>)
      modifies this
      ensures r == outcome
      ensures outcome.Success? ==> token == Some(StoredText(outcome.value.token))
      ensures outcome.Failure? ==> token == if Unauthorized(outcome) then None else old(token)
    {
      r := Intercept(outcome);
      if r.Success? {
        token := Some(StoredText(r.value.token));
      }
    }

    /** `authApi.register`: stores the token like `login`. */
    method Register(outcome: Result<AuthResponse, ApiError>) returns (r: Result<AuthResponse, ApiError>)
      modifies this
      ensures r == outcome
      ensures outcome.Success? ==> token == Some(StoredText(outcome.value.token))
      ensures outcome.Failure? ==> token == if Unauthorized(outcome) then None else old(token)
    {
      r := Intercept(outcome);
      if r.Success? {
        token := Some(StoredText(r.value.token));
      }
    }

    /** `authApi.logout`: removes the token; no request is sent. */
    method Logout()
      modifies this
      ensures token == None
    {
      token := None;
    }

    /** `authApi.deleteUser`: removes the token once the deletion succeeded. */
    method DeleteUser(outcome: Result<(), ApiError>) returns (r: Result<(), ApiError>)
      modifies this
      ensures r == outcome
      ensures token == if outcome.Success? || Unauthorized(outcome) then None else old(token)
    {
      r := Intercept(outcome);
      if r.Success? {
        token := None;
      }
    }
  }
}
