/** The workspace detail page (src/pages/WorkspaceDetail.tsx): loading one
    workspace by the id in the route, renaming it, moving a model out of it,
    and deleting it. */
module WorkspaceDetail {
  import opened Wrappers
  import opened Types
  import opened Numbers
  import opened Api
  import Workspaces

  const LoadError := "Failed to load workspace"
  const UpdateError := "Failed to update workspace"
  const DeleteError := "Failed to delete workspace"
  const MoveError := "Failed to move model"

  /** The update request the edit form sends: none without a workspace or
      with a blank name, otherwise the workspace's id with the trimmed name
      and description. */
  function UpdateRequest(workspace: Option<WorkspaceEntry>, name: string, description: string): Option<Call>
  {
    match (workspace, Workspaces.WorkspacePayload(name, description))
    case (Some(w), Some(p)) => Some(UpdateWorkspace(w.id, p.name, p.description))
    case _ => None
  }

  class WorkspaceDetailPage {
    /** The `:id` route parameter. */
    const routeId: Option<string>
    var workspace: Option<WorkspaceEntry>
    var loading: bool
    var error: string
    var isEditing: bool
    var editName: string
    var editDescription: string
    var location: Option<string>
    var calls: seq<Call>

    constructor (routeId: Option<string>)
      ensures this.routeId == routeId
      ensures workspace == None && loading && error == "" && !isEditing
      ensures editName == "" && editDescription == "" && location == None && calls == []
    {
      this.routeId := routeId;
      workspace := None;
      loading := true;
      error := "";
      isEditing := false;
      editName := "";
      editDescription := "";
      location := None;
      calls := [];
    }

    /** The effect on the route id: without one nothing is requested;
        otherwise the workspace with the id read by `parseInt` is loaded and
        the edit fields start from its name and description. */
    method Load(outcome: Result<WorkspaceEntry, ApiError>)
      modifies this`workspace, this`editName, this`editDescription, this`loading, this`error, this`calls
      ensures !Truthy(routeId) ==>
                calls == old(calls) && workspace == old(workspace) && loading == old(loading)
                && editName == old(editName) && editDescription == old(editDescription) && error == old(error)
      ensures Truthy(routeId) ==> calls == old(calls) + [GetWorkspace(ParseInt(routeId.value))] && !loading
      ensures Truthy(routeId) && outcome.Success? ==>
                workspace == Some(outcome.value)
                && editName == outcome.value.name && editDescription == outcome.value.description.GetOr("")
                && error == old(error)
      ensures Truthy(routeId) && outcome.Failure? ==>
                workspace == old(workspace) && error == LoadError
                && editName == old(editName) && editDescription == old(editDescription)
    {
      if !Truthy(routeId) {
        return;
      }
      calls := calls + [GetWorkspace(ParseInt(routeId.value))];
      if outcome.Success? {
        var data := outcome.value;
        workspace := Some(data);
        editName := data.name;
        editDescription := data.description.GetOr("");
        loading := false;
      } else {
        error := LoadError;
        loading := false;
      }
    }

    /** The Edit/Cancel toggle. */
    method ToggleEdit()
      modifies this`isEditing
      ensures isEditing == !old(isEditing)
    {
      isEditing := !isEditing;
    }

    /** `handleUpdateWorkspace`: with no workspace or a blank name nothing is
        sent; otherwise the normalised form is sent, and the server's answer
        replaces the workspace and ends editing. */
    method Update(outcome: Result<WorkspaceEntry, ApiError>)
      modifies this`workspace, this`isEditing, this`error, this`calls
      ensures UpdateRequest(old(workspace), old(editName), old(editDescription)).None? ==>
                calls == old(calls) && workspace == old(workspace) && isEditing == old(isEditing) && error == old(error)
      ensures UpdateRequest(old(workspace), old(editName), old(editDescription)).Some? ==>
                calls == old(calls) + [UpdateRequest(old(workspace), old(editName), old(editDescription)).value]
                && (outcome.Success? ==> workspace == Some(outcome.value) && !isEditing && error == old(error))
                && (outcome.Failure? ==> workspace == old(workspace) && isEditing == old(isEditing) && error == UpdateError)
    {
      var request := UpdateRequest(workspace, editName, editDescription);
      if request.None? {
        return;
      }
      calls := calls + [request.value];
      if outcome.Success? {
        workspace := Some(outcome.value);
        isEditing := false;
      } else {
        error := UpdateError;
      }
    }

    /** `handleDeleteWorkspace`: nothing happens without a workspace or
        without the user's confirmation; the page leaves for the list only
        once the workspace is deleted. */
    method Delete(confirmed: bool, outcome: Result<(), ApiError>)
      modifies this`location, this`error, this`calls
      ensures workspace.None? || !confirmed ==> calls == old(calls) && location == old(location) && error == old(error)
      ensures workspace.Some? && confirmed ==> calls == old(calls) + [DeleteWorkspace(workspace.value.id)]
      ensures workspace.Some? && confirmed && outcome.Success? ==> location == Some("/workspaces") && error == old(error)
      ensures workspace.Some? && confirmed && outcome.Failure? ==> location == old(location) && error == DeleteError
    {
      if workspace.None? || !confirmed {
        return;
      }
      calls := calls + [DeleteWorkspace(workspace.value.id)];
      if outcome.Success? {
        location := Some("/workspaces");
      } else {
        error := DeleteError;
      }
    }

    /** `handleMoveModel`: nothing happens without a workspace; otherwise the
        model is moved out of the current workspace, which is then fetched
        again by the same id and replaces the one shown. */
    method MoveModel(modelId: nat, target: nat, moved: Result<(), ApiError>, refetch: Result<WorkspaceEntry, ApiError>)
      modifies this`workspace, this`error, this`calls
      ensures old(workspace).None? ==> calls == old(calls) && workspace == old(workspace) && error == old(error)
      ensures old(workspace).Some? && moved.Failure? ==>
        calls == old(calls) + [Api.MoveModel(modelId, old(workspace).value.id, target)]
        && workspace == old(workspace) && error == MoveError
      ensures old(workspace).Some? && moved.Success? ==>
        calls == old(calls) + [Api.MoveModel(modelId, old(workspace).value.id, target), GetWorkspace(Int(old(workspace).value.id))]
      ensures old(workspace).Some? && moved.Success? && refetch.Success? ==> workspace == Some(refetch.value) && error == old(error)
      ensures old(workspace).Some? && moved.Success? && refetch.Failure? ==> workspace == old(workspace) && error == MoveError
    {
      if workspace.None? {
        return;
      }
      var id := workspace.value.id;
      calls := calls + [Api.MoveModel(modelId, id, target)];
      if moved.Failure? {
        error := MoveError;
        return;
      }
      calls := calls + [GetWorkspace(Int(id))];
      if refetch.Success? {
        workspace := Some(refetch.value);
      } else {
        error := MoveError;
      }
    }
  }
}
