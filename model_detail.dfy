/** The model detail page (src/pages/ModelDetail.tsx): loading one model by the
    id in the route, editing a copy of it, saving or cancelling the edit, and
    deleting the model. */
module ModelDetail {
  import opened Wrappers
  import opened Types
  import opened Numbers
  import opened Api
  import opened Inputs

  const FetchError := "Failed to fetch model details"
  const UpdateError := "Failed to update model"
  const DeleteError := "Failed to delete model"

  /** `!id`: the route gives no id, or an empty one. */
  predicate NoId(routeId: Option<string>) {
    !Truthy(routeId)
  }

  class ModelDetailPage {
    /** The `:id` route parameter. */
    const routeId: Option<string>
    var model: Option<ModelEntry>
    var loading: bool
    var error: string
    var isEditing: bool
    var editedModel: Option<ModelEntry>
    var location: Option<string>
    var calls: seq<Call>

    /** Once a model is shown, there is a draft of it to edit. */
    predicate Valid()
      reads this
    {
      model.Some? ==> editedModel.Some?
    }

    constructor (routeId: Option<string>)
      ensures this.routeId == routeId && Valid()
      ensures model == None && loading && error == "" && !isEditing && editedModel == None
      ensures location == None && calls == []
    {
      this.routeId := routeId;
      model := None;
      loading := true;
      error := "";
      isEditing := false;
      editedModel := None;
      location := None;
      calls := [];
    }

    /** `fetchModel`: without an id nothing happens; otherwise the model with
        the id read by `parseInt` is requested, and the answer becomes both
        the model shown and the draft. */
    method FetchModel(outcome: Result<ModelEntry, ApiError>)
      requires Valid()
      modifies this`model, this`editedModel, this`loading, this`error, this`calls
      ensures Valid()
      ensures NoId(routeId) ==>
        calls == old(calls) && model == old(model) && editedModel == old(editedModel) && loading == old(loading)
        && error == old(error)
      ensures !NoId(routeId) ==> calls == old(calls) + [GetModel(ParseInt(routeId.value))] && !loading
      ensures !NoId(routeId) && outcome.Success? ==>
        model == Some(outcome.value) && editedModel == Some(outcome.value) && error == old(error)
      ensures !NoId(routeId) && outcome.Failure? ==>
        model == old(model) && editedModel == old(editedModel) && error == FetchError
    {
      if NoId(routeId) {
        return;
      }
      calls := calls + [GetModel(ParseInt(routeId.value))];
      if outcome.Success? {
        model := Some(outcome.value);
        editedModel := Some(outcome.value);
        loading := false;
      } else {
        error := FetchError;
        loading := false;
      }
    }

    /** `handleSave`: without a draft or an id nothing happens; a saved draft
        becomes the model shown, editing ends and the model is fetched again;
        a failed save keeps the model and the edit mode. */
    method Save(outcome: Result<ModelEntry, ApiError>, refetch: Result<ModelEntry, ApiError>)
      requires Valid()
      modifies this`model, this`editedModel, this`isEditing, this`loading, this`error, this`calls
      ensures Valid()
      ensures old(editedModel).None? || NoId(routeId) ==>
        calls == old(calls) && model == old(model) && isEditing == old(isEditing) && error == old(error)
        && editedModel == old(editedModel) && loading == old(loading)
      ensures old(editedModel).Some? && !NoId(routeId) && outcome.Failure? ==>
        calls == old(calls) + [UpdateModel(ParseInt(routeId.value), AsDraft(old(editedModel).value))]
        && model == old(model) && editedModel == old(editedModel) && isEditing == old(isEditing) && error == UpdateError
        && loading == old(loading)
      ensures old(editedModel).Some? && !NoId(routeId) && outcome.Success? ==>
        calls == old(calls) + [UpdateModel(ParseInt(routeId.value), AsDraft(old(editedModel).value)),
                               GetModel(ParseInt(routeId.value))]
        && !isEditing
        && model == (if refetch.Success? then Some(refetch.value) else old(editedModel))
        && editedModel == (if refetch.Success? then Some(refetch.value) else old(editedModel))
        && error == (if refetch.Success? then old(error) else FetchError)
        && !loading
    {
      if editedModel.None? || NoId(routeId) {
        return;
      }
      calls := calls + [UpdateModel(ParseInt(routeId.value), AsDraft(editedModel.value))];
      if outcome.Success? {
        model := editedModel;
        isEditing := false;
        FetchModel(refetch);
      } else {
        error := UpdateError;
      }
    }

    /** `handleDelete`: nothing happens without an id or without the user's
        confirmation; the page leaves for the list only once the model is
        deleted. */
    method Delete(confirmed: bool, outcome: Result<(), ApiError>)
      modifies this`location, this`error, this`calls
      ensures NoId(routeId) || !confirmed ==> calls == old(calls) && location == old(location) && error == old(error)
      ensures !NoId(routeId) && confirmed ==> calls == old(calls) + [DeleteModel(ParseInt(routeId.value))]
      ensures !NoId(routeId) && confirmed && outcome.Success? ==> location == Some("/models") && error == old(error)
      ensures !NoId(routeId) && confirmed && outcome.Failure? ==> location == old(location) && error == DeleteError
    {
      if NoId(routeId) || !confirmed {
        return;
      }
      calls := calls + [DeleteModel(ParseInt(routeId.value))];
      if outcome.Success? {
        location := Some("/models");
      } else {
        error := DeleteError;
      }
    }

    /** The Edit button. */
    method StartEdit()
      modifies this`isEditing
      ensures isEditing
    {
      isEditing := true;
    }

    /** The Cancel button: the draft goes back to the model last loaded and
        editing ends. */
    method Cancel()
      requires Valid()
      modifies this`isEditing, this`editedModel
      ensures !isEditing && editedModel == model && Valid()
    {
      isEditing := false;
      editedModel := model;
    }

    /** The tags input: the draft's tags become the parsed list. */
    method EditTags(text: string)
      requires editedModel.Some?
      modifies this`editedModel
      ensures editedModel == Some(old(editedModel).value.(tags := Some(ParseTags(text))))
    {
      editedModel := Some(editedModel.value.(tags := Some(ParseTags(text))));
    }

    /** The source links input: the draft's links become the parsed list. */
    method EditLinks(text: string)
      requires editedModel.Some?
      modifies this`editedModel
      ensures editedModel == Some(old(editedModel).value.(sourceLinks := Some(ParseLinks(text))))
    {
      editedModel := Some(editedModel.value.(sourceLinks := Some(ParseLinks(text))));
    }

    /** The parameters input: zero or unparsable text clears the field. */
    method EditParameters(text: string)
      requires editedModel.Some?
      modifies this`editedModel
      ensures editedModel == Some(old(editedModel).value.(parameters := ParametersFromInput(text)))
    {
      editedModel := Some(editedModel.value.(parameters := ParametersFromInput(text)));
    }
  }
}
