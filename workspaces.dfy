/** The workspace list page (src/pages/Workspaces.tsx): loading the workspaces,
    creating one from the name and description inputs, and deleting one. The
    normalisation of a name and description into a request is shared with the
    workspace detail page. */
module Workspaces {
  import opened Wrappers
  import opened Types
  import opened Text
  import opened Lists
  import opened Api

  const LoadError := "Failed to load workspaces"
  const CreateError := "Failed to create workspace"
  const DeleteError := "Failed to delete workspace"

  /** What a workspace form sends: the trimmed name, and the trimmed
      description or nothing when it is blank. */
  datatype Payload = Payload(name: string, description: Option<string>)

  /** The form's inputs as a request, or nothing when the trimmed name is
      empty (then no request is sent). */
  function WorkspacePayload(name: string, description: string): Option<Payload> {
    if Trim(name) == "" then None
    else
      var d := Trim(description);
      Some(Payload(Trim(name), if d == "" then None else Some(d)))
  }

  /** No request is sent exactly when the name is blank; a request carries
      the trimmed name, which is not empty, and the trimmed description, or
      none when that is blank. */
  lemma PayloadMeaning(name: string, description: string)
    ensures var r := WorkspacePayload(name, description);
      && (r.None? <==> AllSpace(name))
      && (r.Some? ==> r.value.name == Trim(name) && r.value.name != "" && IsTrimmed(r.value.name))
      && (r.Some? ==> (r.value.description.None? <==> AllSpace(description)))
      && (r.Some? && r.value.description.Some? ==>
            r.value.description.value == Trim(description) && IsTrimmed(r.value.description.value))
  {
  }

  /** Submitting what was sent changes nothing: a payload put back into the
      form gives the same payload. */
  lemma PayloadStable(name: string, description: string)
    requires WorkspacePayload(name, description).Some?
    ensures var p := WorkspacePayload(name, description).value;
      WorkspacePayload(p.name, p.description.GetOr("")) == Some(p)
  {
    var n, d := Trim(name), Trim(description);
    TrimIdempotent(name);
    TrimIdempotent(description);
    if d == "" {
      assert WorkspacePayload(name, description) == Some(Payload(n, None));
      assert WorkspacePayload(n, "") == Some(Payload(n, None));
    } else {
      assert WorkspacePayload(name, description) == Some(Payload(n, Some(d)));
      assert WorkspacePayload(n, d) == Some(Payload(n, Some(d)));
    }
  }

  /** The submit button is enabled exactly when a create would send a
      request and none is running. */
  function CanSubmit(isCreating: bool, name: string): (r: bool)
    ensures r <==> !isCreating && WorkspacePayload(name, "").Some?
  {
    !isCreating && Trim(name) != ""
  }

  /** The test `workspaces.filter(w => w.id !== id)` keeps. */
  function OtherWorkspace(id: nat): WorkspaceEntry -> bool {
    (w: WorkspaceEntry) => w.id != id
  }

  /** The list after a deletion: exactly the entries with that id are gone;
      every other entry stays, as often as before. */
  function RemoveById(workspaces: seq<WorkspaceEntry>, id: nat): (r: seq<WorkspaceEntry>)
    ensures forall i :: 0 <= i < |r| ==> r[i].id != id
    ensures forall w: WorkspaceEntry :: w.id != id ==> multiset(r)[w] == multiset(workspaces)[w]
  {
    var r := Filter(workspaces, OtherWorkspace(id));
    assert forall w: WorkspaceEntry :: w.id != id ==> multiset(r)[w] == multiset(workspaces)[w] by {
      forall w: WorkspaceEntry | w.id != id ensures multiset(r)[w] == multiset(workspaces)[w] {
        FilterCount(workspaces, OtherWorkspace(id), w);
      }
    }
    r
  }

  /** Deleting keeps the others in their order: it acts on each part of the
      list separately. */
  lemma RemoveByIdKeepsOrder(a: seq<WorkspaceEntry>, b: seq<WorkspaceEntry>, id: nat)
    ensures RemoveById(a + b, id) == RemoveById(a, id) + RemoveById(b, id)
  {
    FilterConcat(a, b, OtherWorkspace(id));
  }

  class WorkspacesPage {
    var workspaces: seq<WorkspaceEntry>
    var loading: bool
    var error: string
    var newWorkspaceName: string
    var newWorkspaceDescription: string
    var isCreating: bool
    var calls: seq<Call>

    constructor ()
      ensures workspaces == [] && loading && error == "" && newWorkspaceName == ""
      ensures newWorkspaceDescription == "" && !isCreating && calls == []
    {
      workspaces := [];
      loading := true;
      error := "";
      newWorkspaceName := "";
      newWorkspaceDescription := "";
      isCreating := false;
      calls := [];
    }

    /** `loadWorkspaces`. */
    method Load(outcome: Result<seq<WorkspaceEntry>, ApiError>)
      modifies this`workspaces, this`loading, this`error, this`calls
      ensures calls == old(calls) + [GetAllWorkspaces] && !loading
      ensures outcome.Success? ==> workspaces == outcome.value && error == old(error)
      ensures outcome.Failure? ==> workspaces == old(workspaces) && error == LoadError
    {
      calls := calls + [GetAllWorkspaces];
      if outcome.Success? {
        workspaces := outcome.value;
        loading := false;
      } else {
        error := LoadError;
        loading := false;
      }
    }

    /** `handleCreateWorkspace`: a blank name sends nothing; otherwise the
        normalised form is sent, the new workspace is appended and the form is
        cleared, or on failure the list and the form stay as they were. The
        page is not creating afterwards in every case. */
    method Create(outcome: Result<WorkspaceEntry, ApiError>)
      modifies this`workspaces, this`error, this`newWorkspaceName, this`newWorkspaceDescription, this`isCreating, this`calls
      ensures var p := WorkspacePayload(old(newWorkspaceName), old(newWorkspaceDescription));
        p.None? ==>
          (calls == old(calls) && workspaces == old(workspaces) && isCreating == old(isCreating)
           && newWorkspaceName == old(newWorkspaceName) && newWorkspaceDescription == old(newWorkspaceDescription)
           && error == old(error))
      ensures var p := WorkspacePayload(old(newWorkspaceName), old(newWorkspaceDescription));
        p.Some? ==> calls == old(calls) + [CreateWorkspace(p.value.name, p.value.description)] && !isCreating
      ensures var p := WorkspacePayload(old(newWorkspaceName), old(newWorkspaceDescription));
        p.Some? && outcome.Success? ==>
          (workspaces == old(workspaces) + [outcome.value]
           && newWorkspaceName == "" && newWorkspaceDescription == "" && error == old(error))
      ensures var p := WorkspacePayload(old(newWorkspaceName), old(newWorkspaceDescription));
        p.Some? && outcome.Failure? ==>
          (workspaces == old(workspaces) && error == CreateError
           && newWorkspaceName == old(newWorkspaceName) && newWorkspaceDescription == old(newWorkspaceDescription))
    {
      var p := WorkspacePayload(newWorkspaceName, newWorkspaceDescription);
      if p.None? {
        return;
      }
      isCreating := true;
      calls := calls + [CreateWorkspace(p.value.name, p.value.description)];
      if outcome.Success? {
        workspaces := workspaces + [outcome.value];
        newWorkspaceName := "";
        newWorkspaceDescription := "";
      } else {
        error := CreateError;
      }
      isCreating := false;
    }

    /** `handleDeleteWorkspace`: nothing happens unless the user confirms; a
        deletion removes exactly the entries with that id. */
    method Delete(id: nat, confirmed: bool, outcome: Result<(), ApiError>)
      modifies this`workspaces, this`error, this`calls
      ensures !confirmed ==> calls == old(calls) && workspaces == old(workspaces) && error == old(error)
      ensures confirmed ==> calls == old(calls) + [DeleteWorkspace(id)]
      ensures confirmed && outcome.Success? ==> workspaces == RemoveById(old(workspaces), id) && error == old(error)
      ensures confirmed && outcome.Failure? ==> workspaces == old(workspaces) && error == DeleteError
    {
      if !confirmed {
        return;
      }
      calls := calls + [DeleteWorkspace(id)];
      if outcome.Success? {
        workspaces := RemoveById(workspaces, id);
      } else {
        error := DeleteError;
      }
    }
  }
}
