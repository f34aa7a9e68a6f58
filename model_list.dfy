/** The model list page (src/pages/ModelList.tsx): fetching with keyword or
    semantic search, the tag catalogue, creating, deleting and autofilling a
    model draft, the link chips, and the selection of models to compare. */
module ModelList {
  import opened Wrappers
  import opened Types
  import opened Text
  import opened Numbers
  import opened Lists
  import opened Api
  import Inputs

  const FetchModelsError := "Failed to fetch models"
  const FetchTagsError := "Failed to fetch tags"
  const AuthRequiredError := "User authentication required"
  const NameRequiredError := "Name is required"
  const CreateError := "Failed to create model"
  const DeleteError := "Failed to delete model"
  const AutofillError := "Failed to autofill model information"
  const CompareSelectionError := "Please select at least 2 models to compare"

  /** The draft the create form starts from and is reset to. */
  const FreshDraft := EmptyDraft.(tags := Some([]), sourceLinks := Some([]))

  // ---------------------------------------------------------------------------
  // Selection and comparison

  /** The test `prev.filter(modelId => modelId !== id)` keeps. */
  function Other(id: nat): nat -> bool {
    x => x != id
  }

  /** `handleModelSelection`: selecting appends the id at the end, even when it
      is already selected; deselecting removes every occurrence of it and keeps
      every other id as often as before. */
  function ToggleSelection(prev: seq<nat>, id: nat, selected: bool): (r: seq<nat>)
    ensures selected ==> r == prev + [id]
    ensures !selected ==> id !in r
    ensures !selected ==> forall x :: x != id ==> multiset(r)[x] == multiset(prev)[x]
  {
    if selected then prev + [id]
    else
      var r := Filter(prev, Other(id));
      assert forall x :: multiset(r)[x] == if x != id then multiset(prev)[x] else 0 by {
        forall x ensures multiset(r)[x] == if x != id then multiset(prev)[x] else 0 {
          FilterCount(prev, Other(id), x);
        }
      }
      r
  }

  /** Deselecting keeps the relative order of the other ids: it acts on each
      part of the list separately. */
  lemma DeselectKeepsOrder(a: seq<nat>, b: seq<nat>, id: nat)
    ensures ToggleSelection(a + b, id, false) == ToggleSelection(a, id, false) + ToggleSelection(b, id, false)
  {
    FilterConcat(a, b, Other(id));
  }

  /** Deselecting an id that is not selected changes nothing. */
  lemma DeselectAbsent(prev: seq<nat>, id: nat)
    requires id !in prev
    ensures ToggleSelection(prev, id, false) == prev
  {
    FilterKeepsAll(prev, Other(id));
  }

  /** The decimal texts of the ids. */
  function IdTexts(ids: seq<nat>): (r: seq<string>)
    ensures |r| == |ids|
    ensures forall i :: 0 <= i < |ids| ==> r[i] == NatToString(ids[i])
  {
    seq(|ids|, i requires 0 <= i < |ids| => NatToString(ids[i]))
  }

  /** `selectedModels.join(',')`. */
  function IdList(ids: seq<nat>): string {
    Join(IdTexts(ids), ",")
  }

  /** `handleCompare`: fewer than two selected models is refused with a
      message; otherwise the page navigates to the comparison of the selected
      ids, in selection order. The compare button is shown exactly when the
      second case applies. */
  function CompareTarget(selected: seq<nat>): (r: Result<string, string>)
    ensures r.Failure? <==> |selected| < 2
    ensures r.Failure? ==> r.error == CompareSelectionError
    ensures r.Success? ==> r.value == "/compare?models=" + IdList(selected)
  {
    if |selected| < 2 then Failure(CompareSelectionError)
    else Success("/compare?models=" + IdList(selected))
  }

  // ---------------------------------------------------------------------------
  // Fetching

  /** The request `fetchModels` sends for the filter state: semantic search of
      the untrimmed query when semantic mode is on and the query is not blank,
      keyword search with the query and the three filters otherwise. */
  function FetchRequest(q: string, semantic: bool, modelType: string, status: string, tag: string): (r: Call)
    ensures r.SemanticSearch? || r.SearchModels?
    ensures r.SemanticSearch? <==> semantic && Trim(q) != ""
    ensures r.SemanticSearch? ==> r.query == q
    ensures r.SearchModels? ==> r.params == SearchParams(Some(q), Some(modelType), Some(status), Some(tag), None, None)
  {
    if semantic && Trim(q) != "" then SemanticSearch(q)
    else SearchModels(SearchParams(Some(q), Some(modelType), Some(status), Some(tag), None, None))
  }

  /** A keyword search sends the query untrimmed when it is not empty, sends a
      filter only when one is chosen, and never sends a date or a workspace. */
  lemma KeywordSearchQuery(q: string, modelType: string, status: string, tag: string, toIso: string -> string)
    ensures var p := SearchParams(Some(q), Some(modelType), Some(status), Some(tag), None, None);
      && Lookup(SearchQuery(p, toIso), "q") == (if q != "" then Some(q) else None)
      && Lookup(SearchQuery(p, toIso), "type") == (if modelType != "" then Some(modelType) else None)
      && Lookup(SearchQuery(p, toIso), "status") == (if status != "" then Some(status) else None)
      && Lookup(SearchQuery(p, toIso), "tag") == (if tag != "" then Some(tag) else None)
      && Lookup(SearchQuery(p, toIso), "date_interacted") == None
      && Lookup(SearchQuery(p, toIso), "workspace_id") == None
  {
    var p := SearchParams(Some(q), Some(modelType), Some(status), Some(tag), None, None);
    SearchQueryLookup(p, toIso, "q");
    SearchQueryLookup(p, toIso, "type");
    SearchQueryLookup(p, toIso, "status");
    SearchQueryLookup(p, toIso, "tag");
    SearchQueryLookup(p, toIso, "date_interacted");
    SearchQueryLookup(p, toIso, "workspace_id");
  }

  /** `fetchTags`: the tags of all models, each once, sorted. */
  function TagCatalogue(models: seq<ModelEntry>): (r: seq<string>)
    ensures StrictlySorted(r)
    ensures forall t :: t in r <==> t in AllTags(models)
  {
    var d := Distinct(AllTags(models));
    SortDistinct(d);
    var r := SortStrings(d);
    assert forall t :: t in r <==> t in multiset(d);
    r
  }

  // ---------------------------------------------------------------------------
  // Creating and autofilling

  /** The checks and the record of `handleCreateModel`: a missing user (or user
      id 0) is refused first, then a missing or empty name; otherwise the
      record carries the user id, today's date and the draft's fields, with
      tags and links defaulting to empty lists. */
  function CreateRequest(user: Option<User>, d: Draft, today: string): (r: Result<Draft, string>)
    ensures (user.None? || user.value.id == 0) ==> r == Failure(AuthRequiredError)
    ensures user.Some? && user.value.id != 0 && !Truthy(d.name) ==> r == Failure(NameRequiredError)
    ensures r.Success? <==> user.Some? && user.value.id != 0 && Truthy(d.name)
    ensures r.Success? ==> r.value.userId == Some(user.value.id) && r.value.name == d.name
    ensures r.Success? ==> r.value.tags == Some(d.tags.GetOr([])) && r.value.sourceLinks == Some(d.sourceLinks.GetOr([]))
    ensures r.Success? ==> r.value.dateInteracted == Some(today) && r.value.id == None
    ensures r.Success? ==>
              r.value.developer == d.developer && r.value.modelType == d.modelType && r.value.status == d.status
              && r.value.notes == d.notes && r.value.parameters == d.parameters
              && r.value.license == d.license && r.value.version == d.version
              && r.value.workspaceId == None && r.value.username == None
  {
    if user.None? || user.value.id == 0 then Failure(AuthRequiredError)
    else if !Truthy(d.name) then Failure(NameRequiredError)
    else Success(Draft(None, d.name, d.developer, d.modelType, d.status, Some(today), Some(d.tags.GetOr([])),
                       d.notes, Some(d.sourceLinks.GetOr([])), d.parameters, d.license, d.version,
                       Some(user.value.id), None, None))
  }

  /** `{...prev, ...data}`: every field the server sent replaces the draft's. */
  function Override(prev: Draft, data: Draft): Draft {
    Draft(
      if data.id.Some? then data.id else prev.id,
      if data.name.Some? then data.name else prev.name,
      if data.developer.Some? then data.developer else prev.developer,
      if data.modelType.Some? then data.modelType else prev.modelType,
      if data.status.Some? then data.status else prev.status,
      if data.dateInteracted.Some? then data.dateInteracted else prev.dateInteracted,
      if data.tags.Some? then data.tags else prev.tags,
      if data.notes.Some? then data.notes else prev.notes,
      if data.sourceLinks.Some? then data.sourceLinks else prev.sourceLinks,
      if data.parameters.Some? then data.parameters else prev.parameters,
      if data.license.Some? then data.license else prev.license,
      if data.version.Some? then data.version else prev.version,
      if data.userId.Some? then data.userId else prev.userId,
      if data.workspaceId.Some? then data.workspaceId else prev.workspaceId,
      if data.username.Some? then data.username else prev.username)
  }

  /** Spreading an answer with no fields changes nothing, spreading the same
      answer twice is spreading it once, and two spreads in a row are one
      spread of the second over the first. */
  lemma OverrideLaws(prev: Draft, a: Draft, b: Draft)
    ensures Override(prev, EmptyDraft) == prev
    ensures Override(Override(prev, a), a) == Override(prev, a)
    ensures Override(Override(prev, a), b) == Override(prev, Override(a, b))
  {
  }

  /** The merge `handleAutofill` applies: the server's fields replace the
      draft's, except that the tags are the draft's followed by the server's
      and the links are the draft's, then the link chips, then the server's. */
  function AutofillMerge(prev: Draft, data: Draft, links: seq<string>): (r: Draft)
    ensures r.tags == Some(prev.tags.GetOr([]) + data.tags.GetOr([]))
    ensures r.sourceLinks == Some(prev.sourceLinks.GetOr([]) + links + data.sourceLinks.GetOr([]))
    ensures r.(tags := None, sourceLinks := None) == Override(prev, data).(tags := None, sourceLinks := None)
  {
    Override(prev, data).(tags := Some(prev.tags.GetOr([]) + data.tags.GetOr([])),
                          sourceLinks := Some(prev.sourceLinks.GetOr([]) + links + data.sourceLinks.GetOr([])))
  }

  /** An answer with no fields and no link chips changes nothing but turns
      absent tags and links into empty lists. */
  lemma AutofillNothing(prev: Draft)
    ensures AutofillMerge(prev, EmptyDraft, []) == prev.(tags := Some(prev.tags.GetOr([])),
                                                        sourceLinks := Some(prev.sourceLinks.GetOr([])))
  {
    assert prev.tags.GetOr([]) + [] == prev.tags.GetOr([]);
    assert prev.sourceLinks.GetOr([]) + [] + [] == prev.sourceLinks.GetOr([]);
  }

  /** Two autofills in a row accumulate: the tags are the draft's, then the
      first answer's, then the second's; nothing is lost or reordered. */
  lemma AutofillAccumulates(prev: Draft, d1: Draft, d2: Draft, links: seq<string>)
    ensures AutofillMerge(AutofillMerge(prev, d1, links), d2, links).tags
         == Some(prev.tags.GetOr([]) + d1.tags.GetOr([]) + d2.tags.GetOr([]))
  {
  }

  // ---------------------------------------------------------------------------
  // Link chips

  /** Every chip is a trimmed, non-empty link. */
  predicate CleanLinks(links: seq<string>) {
    forall i :: 0 <= i < |links| ==> links[i] != "" && IsTrimmed(links[i])
  }

  /** Adding a link: the trimmed input is appended when it is not blank. */
  function AddLink(links: seq<string>, input: string): (r: seq<string>)
    ensures Trim(input) != "" ==> r == links + [Trim(input)]
    ensures Trim(input) == "" ==> r == links
    ensures CleanLinks(links) ==> CleanLinks(r)
  {
    if Trim(input) != "" then links + [Trim(input)] else links
  }

  /** Typing into the link box key by key, as written: the box is held empty,
      so every keystroke reaches the change handler as a one-character value,
      which becomes a chip of its own unless it is a space. */
  function TypeLink(links: seq<string>, typed: string): (r: seq<string>)
    ensures |links| <= |r| <= |links| + |typed|
    ensures r[..|links|] == links
    decreases |typed|
  {
    if typed == [] then links else TypeLink(AddLink(links, [typed[0]]), typed[1..])
  }

  /** Typing "ab" into the link box gives the two chips "a" and "b". */
  lemma TypingSplitsLink()
    ensures TypeLink([], "ab") == ["a", "b"]
  {
    TrimTrimmed("a");
    TrimTrimmed("b");
    assert "ab"[1..] == "b";
    assert TypeLink(["a", "b"], "") == ["a", "b"];
  }

  /** The intended link box: a link entered whole and added with Enter or the
      Add button becomes exactly one chip, unchanged. */
  lemma AddLinkWhole(links: seq<string>, link: string)
    requires link != "" && IsTrimmed(link)
    ensures AddLink(links, link) == links + [link]
  {
    TrimTrimmed(link);
  }

  /** `newLinks.splice(index, 1)`: the chip at `index` is removed and the
      others keep their order; an index past the end removes nothing. */
  function RemoveLinkAt(links: seq<string>, index: nat): (r: seq<string>)
    ensures index < |links| ==> |r| == |links| - 1 && multiset(r) + multiset{links[index]} == multiset(links)
    ensures index < |links| ==> r[..index] == links[..index] && r[index..] == links[index + 1..]
    ensures index >= |links| ==> r == links
    ensures CleanLinks(links) ==> CleanLinks(r)
  {
    if index < |links| then
      assert links == links[..index] + [links[index]] + links[index + 1..];
      links[..index] + links[index + 1..]
    else links
  }

  // ---------------------------------------------------------------------------
  // The semantic-search checkbox

  /** The fetch the checkbox triggers, as written: it runs when the box is
      checked and the query is not empty, but `fetchModels` is the closure of
      the render before the change, so it still sees the previous flag. */
  function ToggleFetchAsWritten(q: string, previous: bool, checked: bool, modelType: string, status: string, tag: string): (r: Option<Call>)
    ensures r.Some? <==> checked && q != ""
    ensures r.Some? ==> r.value == FetchRequest(q, previous, modelType, status, tag)
  {
    if checked && q != "" then Some(FetchRequest(q, previous, modelType, status, tag)) else None
  }

  /** Checking the box (so it was unchecked before) with the query "llama"
      sends a keyword search, not a semantic one. */
  lemma ToggleFetchStale()
    ensures ToggleFetchAsWritten("llama", false, true, "", "", "")
         == Some(SearchModels(SearchParams(Some("llama"), Some(""), Some(""), Some(""), None, None)))
  {
    assert Trim("llama") != "" by { assert "llama"[0] == 'l'; }
  }

  /** The fetch the checkbox evidently means to trigger: with the new flag. */
  function ToggleFetch(q: string, checked: bool, modelType: string, status: string, tag: string): (r: Option<Call>)
    ensures r.Some? <==> checked && q != ""
    ensures r.Some? ==> r.value == FetchRequest(q, checked, modelType, status, tag)
  {
    if checked && q != "" then Some(FetchRequest(q, checked, modelType, status, tag)) else None
  }

  /** Checking the box with a query that is not blank runs a semantic search
      of that query. */
  lemma ToggleFetchSemantic(q: string, modelType: string, status: string, tag: string)
    requires Trim(q) != ""
    ensures ToggleFetch(q, true, modelType, status, tag) == Some(SemanticSearch(q))
  {
    assert q != "" by { TrimTrimmed(""); }
  }

  // ---------------------------------------------------------------------------
  // The page

  class ModelListPage {
    const user: Option<User>
    var models: seq<ModelEntry>
    var loading: bool
    var error: string
    var searchQuery: string
    var isSemanticSearch: bool
    var selectedType: string
    var selectedStatus: string
    var selectedTag: string
    var tags: seq<string>
    var showCreateModal: bool
    var newModel: Draft
    var isAutofilling: bool
    var sourceIdentifier: string
    var modelLinks: seq<string>
    var selectedModels: seq<nat>
    /** Where the page navigated to, if anywhere. */
    var location: Option<string>
    /** The requests sent so far, oldest first. */
    var calls: seq<Call>

    /** The link chips are always trimmed and non-empty. */
    predicate Valid()
      reads this
    {
      CleanLinks(modelLinks)
    }

    constructor (user: Option<User>)
      ensures this.user == user && Valid()
      ensures models == [] && loading && error == "" && searchQuery == "" && !isSemanticSearch
      ensures selectedType == "" && selectedStatus == "" && selectedTag == "" && tags == []
      ensures !showCreateModal && newModel == FreshDraft && !isAutofilling && sourceIdentifier == ""
      ensures modelLinks == [] && selectedModels == [] && location == None && calls == []
    {
      this.user := user;
      models := [];
      loading := true;
      error := "";
      searchQuery := "";
      isSemanticSearch := false;
      selectedType := "";
      selectedStatus := "";
      selectedTag := "";
      tags := [];
      showCreateModal := false;
      newModel := FreshDraft;
      isAutofilling := false;
      sourceIdentifier := "";
      modelLinks := [];
      selectedModels := [];
      location := None;
      calls := [];
    }

    /** `fetchModels`: one search request for the current filters; its
        answer replaces the list, a failure keeps the list and reports. */
    method FetchModels(outcome: Result<seq<ModelEntry>, ApiError>)
      modifies this`models, this`loading, this`error, this`calls
      ensures calls == old(calls) + [FetchRequest(searchQuery, isSemanticSearch, selectedType, selectedStatus, selectedTag)]
      ensures outcome.Success? ==> models == outcome.value && error == old(error)
      ensures outcome.Failure? ==> models == old(models) && error == FetchModelsError
      ensures !loading
    {
      loading := true;
      calls := calls + [FetchRequest(searchQuery, isSemanticSearch, selectedType, selectedStatus, selectedTag)];
      if outcome.Success? {
        models := outcome.value;
        loading := false;
      } else {
        error := FetchModelsError;
        loading := false;
      }
    }

    /** `fetchTags`: the catalogue of every model's tags. */
    method FetchTags(outcome: Result<seq<ModelEntry>, ApiError>)
      modifies this`tags, this`error, this`calls
      ensures calls == old(calls) + [GetAllModels]
      ensures outcome.Success? ==> tags == TagCatalogue(outcome.value) && error == old(error)
      ensures outcome.Failure? ==> tags == old(tags) && error == FetchTagsError
    {
      calls := calls + [GetAllModels];
      if outcome.Success? {
        tags := TagCatalogue(outcome.value);
      } else {
        error := FetchTagsError;
      }
    }

    /** The first render: the models, then the tags. */
    method Mount(modelsOutcome: Result<seq<ModelEntry>, ApiError>, tagsOutcome: Result<seq<ModelEntry>, ApiError>)
      modifies this`models, this`loading, this`error, this`calls, this`tags
      ensures calls == old(calls) + [FetchRequest(searchQuery, isSemanticSearch, selectedType, selectedStatus, selectedTag), GetAllModels]
      ensures models == if modelsOutcome.Success? then modelsOutcome.value else old(models)
      ensures tags == if tagsOutcome.Success? then TagCatalogue(tagsOutcome.value) else old(tags)
      ensures !loading
      ensures error == if tagsOutcome.Failure? then FetchTagsError
                       else if modelsOutcome.Failure? then FetchModelsError
                       else old(error)
    {
      FetchModels(modelsOutcome);
      FetchTags(tagsOutcome);
    }

    /** `handleCreateModel`: the checks come first and send nothing when they
        fail; a created model closes the form, resets the draft and refetches
        the list. */
    method CreateModel(today: string, outcome: Result<ModelEntry, ApiError>, refetch: Result<seq<ModelEntry>, ApiError>)
      modifies this`error, this`calls, this`showCreateModal, this`newModel, this`models, this`loading
      ensures CreateRequest(user, old(newModel), today).Failure? ==>
        calls == old(calls) && error == CreateRequest(user, old(newModel), today).error
        && newModel == old(newModel) && showCreateModal == old(showCreateModal) && models == old(models)
        && loading == old(loading)
      ensures CreateRequest(user, old(newModel), today).Success? ==>
        |calls| > |old(calls)| && calls[|old(calls)|] == Api.CreateModel(CreateRequest(user, old(newModel), today).value)
      ensures CreateRequest(user, old(newModel), today).Success? && outcome.Success? ==>
        !showCreateModal && newModel == FreshDraft
        && calls == old(calls) + [Api.CreateModel(CreateRequest(user, old(newModel), today).value),
                                  FetchRequest(searchQuery, isSemanticSearch, selectedType, selectedStatus, selectedTag)]
        && models == (if refetch.Success? then refetch.value else old(models))
        && !loading && error == (if refetch.Success? then old(error) else FetchModelsError)
      ensures CreateRequest(user, old(newModel), today).Success? && outcome.Failure? ==>
        error == CreateError && newModel == old(newModel) && showCreateModal == old(showCreateModal)
        && calls == old(calls) + [Api.CreateModel(CreateRequest(user, old(newModel), today).value)]
        && models == old(models) && loading == old(loading)
    {
      var request := CreateRequest(user, newModel, today);
      if request.Failure? {
        error := request.error;
        return;
      }
      calls := calls + [Api.CreateModel(request.value)];
      if outcome.Success? {
        showCreateModal := false;
        newModel := FreshDraft;
        FetchModels(refetch);
      } else {
        error := CreateError;
      }
    }

    /** `handleDeleteModel`: nothing happens unless the user confirms; a
        deletion refetches the list. */
    method DeleteModel(id: nat, confirmed: bool, outcome: Result<(), ApiError>, refetch: Result<seq<ModelEntry>, ApiError>)
      modifies this`error, this`calls, this`models, this`loading
      ensures !confirmed ==>
        calls == old(calls) && models == old(models) && error == old(error) && loading == old(loading)
      ensures confirmed && outcome.Success? ==>
        calls == old(calls) + [Api.DeleteModel(Int(id)), FetchRequest(searchQuery, isSemanticSearch, selectedType, selectedStatus, selectedTag)]
        && models == (if refetch.Success? then refetch.value else old(models))
        && !loading && error == (if refetch.Success? then old(error) else FetchModelsError)
      ensures confirmed && outcome.Failure? ==>
        calls == old(calls) + [Api.DeleteModel(Int(id))] && models == old(models) && error == DeleteError
        && loading == old(loading)
    {
      if !confirmed {
        return;
      }
      calls := calls + [Api.DeleteModel(Int(id))];
      if outcome.Success? {
        FetchModels(refetch);
      } else {
        error := DeleteError;
      }
    }

    /** `handleAutofill`: nothing happens without a source identifier;
        otherwise the identifier and the link chips are sent, the answer is
        merged into the draft, and a failure reports its own message when it
        has one. The page is not autofilling afterwards in every case. */
    method Autofill(outcome: Result<Draft, ApiError>)
      modifies this`newModel, this`error, this`isAutofilling, this`calls
      ensures sourceIdentifier == "" ==>
        calls == old(calls) && newModel == old(newModel) && error == old(error) && isAutofilling == old(isAutofilling)
      ensures sourceIdentifier != "" ==> calls == old(calls) + [AutofillModel(sourceIdentifier, modelLinks)] && !isAutofilling
      ensures sourceIdentifier != "" && outcome.Success? ==>
        newModel == AutofillMerge(old(newModel), outcome.value, modelLinks) && error == old(error)
      ensures sourceIdentifier != "" && outcome.Failure? ==>
        newModel == old(newModel)
        && error == (if outcome.error.message != "" then outcome.error.message else AutofillError)
    {
      if sourceIdentifier == "" {
        return;
      }
      isAutofilling := true;
      calls := calls + [AutofillModel(sourceIdentifier, modelLinks)];
      if outcome.Success? {
        newModel := AutofillMerge(newModel, outcome.value, modelLinks);
      } else {
        error := if outcome.error.message != "" then outcome.error.message else AutofillError;
      }
      isAutofilling := false;
    }

    /** The tags input of the create form. */
    method EditDraftTags(text: string)
      modifies this`newModel
      ensures newModel == old(newModel).(tags := Some(Inputs.ParseTags(text)))
    {
      newModel := newModel.(tags := Some(Inputs.ParseTags(text)));
    }

    method SelectModel(id: nat, selected: bool)
      modifies this`selectedModels
      ensures selectedModels == ToggleSelection(old(selectedModels), id, selected)
    {
      selectedModels := ToggleSelection(selectedModels, id, selected);
    }

    /** `handleCompare`: navigates, or reports and stays. */
    method Compare()
      modifies this`error, this`location
      ensures |selectedModels| < 2 ==> error == CompareSelectionError && location == old(location)
      ensures |selectedModels| >= 2 ==> location == Some("/compare?models=" + IdList(selectedModels)) && error == old(error)
    {
      var target := CompareTarget(selectedModels);
      if target.Failure? {
        error := target.error;
        return;
      }
      location := Some(target.value);
    }

    /** The link input's Enter key, its change handler and the Add button. */
    method AddModelLink(input: string)
      requires Valid()
      modifies this`modelLinks
      ensures modelLinks == AddLink(old(modelLinks), input) && Valid()
    {
      modelLinks := AddLink(modelLinks, input);
    }

    /** The remove button of the chip at `index`. */
    method RemoveModelLink(index: nat)
      requires Valid()
      modifies this`modelLinks
      ensures modelLinks == RemoveLinkAt(old(modelLinks), index) && Valid()
    {
      modelLinks := RemoveLinkAt(modelLinks, index);
    }

    /** "Clear all links". */
    method ClearModelLinks()
      modifies this`modelLinks
      ensures modelLinks == [] && Valid()
    {
      modelLinks := [];
    }

    /** The semantic-search checkbox: sets the flag, and when it is checked
        with a query, runs `fetchModels` of the render before the change,
        which still reads the previous flag (so checking the box sends a
        keyword search). The flag's new value is in place afterwards. */
    method ToggleSemantic(checked: bool, outcome: Result<seq<ModelEntry>, ApiError>)
      modifies this`isSemanticSearch, this`models, this`loading, this`error, this`calls
      ensures isSemanticSearch == checked
      ensures ToggleFetchAsWritten(searchQuery, old(isSemanticSearch), checked, selectedType, selectedStatus, selectedTag).None? ==>
        calls == old(calls) && models == old(models) && error == old(error) && loading == old(loading)
      ensures ToggleFetchAsWritten(searchQuery, old(isSemanticSearch), checked, selectedType, selectedStatus, selectedTag).Some? ==>
        calls == old(calls) + [ToggleFetchAsWritten(searchQuery, old(isSemanticSearch), checked, selectedType, selectedStatus, selectedTag).value]
        && models == (if outcome.Success? then outcome.value else old(models))
        && !loading && error == (if outcome.Success? then old(error) else FetchModelsError)
    {
      if checked && searchQuery != "" {
        FetchModels(outcome);
      }
      isSemanticSearch := checked;
    }
  }
}
