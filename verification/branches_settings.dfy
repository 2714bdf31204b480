/** The branch administration page (`components/settings/branches-settings.tsx`): the branch list
    with add, rename and delete dialogs. Each handler runs from the click to the end of its `finally`
    block in one step; the API's answer is a parameter. A list reload that a handler starts without
    waiting for it is split into its start (inside the handler) and `FinishLoad`. */
module BranchesSettings {
  import opened Wrappers
  import opened Records
  import opened JsStrings
  import opened Api

  const AddFallback := "Failed to add branch"
  const UpdateFallback := "Failed to update branch"

  /** Everything the page holds, for stating what a handler changes. */
  datatype Snapshot = Snapshot(
    branches: seq<Branch>, loading: bool, addDialogOpen: bool, editDialogOpen: bool, deleteDialogOpen: bool,
    branchName: string, selectedBranch: Option<Branch>, isSubmitting: bool, error: Option<string>, calls: seq<Call>)

  class Page {
    var branches: seq<Branch>
    var loading: bool
    var addDialogOpen: bool
    var editDialogOpen: bool
    var deleteDialogOpen: bool
    /** The name field shared by the add and edit dialogs. */
    var branchName: string
    var selectedBranch: Option<Branch>
    var isSubmitting: bool
    /** The message shown under the name field. */
    var error: Option<string>
    /** The calls made into the API layer, in order. */
    var calls: seq<Call>

    function State(): Snapshot
      reads this
    {
      Snapshot(branches, loading, addDialogOpen, editDialogOpen, deleteDialogOpen, branchName, selectedBranch,
               isSubmitting, error, calls)
    }

    /** No request is in flight between handlers: each handler clears `isSubmitting` in its
        `finally` block. */
    ghost predicate Valid()
      reads this
    {
      !isSubmitting
    }

    /** The first render and its mount effect, which starts loading the list. */
    constructor ()
      ensures Valid()
      ensures State() == Snapshot([], true, false, false, false, "", None, false, None, [FetchBranchesCall])
    {
      branches := [];
      loading := true;
      addDialogOpen := false;
      editDialogOpen := false;
      deleteDialogOpen := false;
      branchName := "";
      selectedBranch := None;
      isSubmitting := false;
      error := None;
      calls := [FetchBranchesCall];
    }

    /** The start of `loadBranches`. */
    method StartLoad()
      modifies this
      ensures State() == old(State()).(loading := true, calls := old(calls) + [FetchBranchesCall])
    {
      loading := true;
      calls := calls + [FetchBranchesCall];
    }

    /** The start of a request from a dialog: the buttons are disabled while it is in flight. */
    method Send(call: Call)
      modifies this
      ensures State() == old(State()).(isSubmitting := true, calls := old(calls) + [call])
    {
      isSubmitting := true;
      calls := calls + [call];
    }

    /** The end of `loadBranches`: the list is replaced only when the fetch succeeded, and the
        page stops loading either way. */
    method FinishLoad(reply: Result<seq<Branch>, Exception>)
      requires Valid()
      modifies this
      ensures Valid()
      ensures State() == old(State()).(loading := false,
                                       branches := if reply.Ok? then reply.value else old(branches))
    {
      if reply.Ok? {
        branches := reply.value;
      }
      loading := false;
    }

    /** The "Add Branch" button. */
    method OpenAddDialog()
      requires Valid()
      modifies this
      ensures Valid()
      ensures State() == old(State()).(branchName := "", error := None, addDialogOpen := true)
    {
      branchName := "";
      error := None;
      addDialogOpen := true;
    }

    /** Typing in the name field of either dialog. */
    method EditName(value: string)
      requires Valid()
      modifies this
      ensures Valid()
      ensures State() == old(State()).(branchName := value)
    {
      branchName := value;
    }

    /** The add dialog dismissed (escape key or a click outside): only the flag changes. */
    method DismissAddDialog()
      requires Valid()
      modifies this
      ensures Valid()
      ensures State() == old(State()).(addDialogOpen := false)
    {
      addDialogOpen := false;
    }

    /** The edit dialog dismissed: only the flag changes. */
    method DismissEditDialog()
      requires Valid()
      modifies this
      ensures Valid()
      ensures State() == old(State()).(editDialogOpen := false)
    {
      editDialogOpen := false;
    }

    /** The delete dialog dismissed: only the flag changes. */
    method DismissDeleteDialog()
      requires Valid()
      modifies this
      ensures Valid()
      ensures State() == old(State()).(deleteDialogOpen := false)
    {
      deleteDialogOpen := false;
    }

    /** The add dialog's cancel button. */
    method CancelAdd()
      requires Valid()
      modifies this
      ensures Valid()
      ensures State() == old(State()).(addDialogOpen := false, branchName := "", error := None)
    {
      addDialogOpen := false;
      branchName := "";
      error := None;
    }

    /** The edit dialog's cancel button. */
    method CancelEdit()
      requires Valid()
      modifies this
      ensures Valid()
      ensures State() == old(State()).(editDialogOpen := false, branchName := "", selectedBranch := None, error := None)
    {
      editDialogOpen := false;
      branchName := "";
      selectedBranch := None;
      error := None;
    }

    /** The delete dialog's cancel button. */
    method CancelDelete()
      requires Valid()
      modifies this
      ensures Valid()
      ensures State() == old(State()).(deleteDialogOpen := false, selectedBranch := None)
    {
      deleteDialogOpen := false;
      selectedBranch := None;
    }

    /** `openEditDialog`: the branch is selected, its name fills the field, and the dialog opens
        without an error. */
    method OpenEditDialog(b: Branch)
      requires Valid()
      modifies this
      ensures Valid()
      ensures State() == old(State()).(selectedBranch := Some(b), branchName := b.name, error := None,
                                       editDialogOpen := true)
    {
      selectedBranch := Some(b);
      branchName := b.name;
      error := None;
      editDialogOpen := true;
    }

    /** `openDeleteDialog`. */
    method OpenDeleteDialog(b: Branch)
      requires Valid()
      modifies this
      ensures Valid()
      ensures State() == old(State()).(selectedBranch := Some(b), deleteDialogOpen := true)
    {
      selectedBranch := Some(b);
      deleteDialogOpen := true;
    }

    /** `handleAddBranch`, with `reply` what `addBranch` returns or throws. A blank name is refused
        before any call; a success closes the dialog, empties the field and reloads the list; a
        failure keeps the dialog open with the thrown message. */
    method HandleAddBranch(reply: Result<Branch, Exception>)
      requires Valid()
      modifies this
      ensures Valid()
      ensures IsBlank(old(branchName)) ==> State() == old(State()).(error := Some(NameRequired))
      ensures !IsBlank(old(branchName)) && reply.Ok? ==>
                State() == old(State()).(error := None, addDialogOpen := false, branchName := "", loading := true,
                                         calls := old(calls) + [AddBranchCall(Trim(old(branchName))), FetchBranchesCall])
      ensures !IsBlank(old(branchName)) && reply.Err? ==>
                State() == old(State()).(error := Some(MessageOr(reply.error, AddFallback)),
                                         calls := old(calls) + [AddBranchCall(Trim(old(branchName)))])
    {
      AddTrimmed(Trim(branchName), reply);
    }

    /** The rest of `handleAddBranch` once the name has been trimmed. */
    method AddTrimmed(trimmed: string, reply: Result<Branch, Exception>)
      requires Valid()
      modifies this
      ensures Valid()
      ensures trimmed == "" ==> State() == old(State()).(error := Some(NameRequired))
      ensures trimmed != "" && reply.Ok? ==>
                State() == old(State()).(error := None, addDialogOpen := false, branchName := "", loading := true,
                                         calls := old(calls) + [AddBranchCall(trimmed), FetchBranchesCall])
      ensures trimmed != "" && reply.Err? ==>
                State() == old(State()).(error := Some(MessageOr(reply.error, AddFallback)),
                                         calls := old(calls) + [AddBranchCall(trimmed)])
    {
      if trimmed == "" {
        error := Some(NameRequired);
      } else {
        Send(AddBranchCall(trimmed));
        error := None;
        if reply.Ok? {
          addDialogOpen, branchName := false, "";
          StartLoad();
        } else {
          error := Some(MessageOr(reply.error, AddFallback));
        }
        isSubmitting := false;
      }
    }

    /** `handleEditBranch`: like an addition, but a missing selection is refused like a blank name,
        and a success also clears the selection. */
    method HandleEditBranch(reply: Result<Branch, Exception>)
      requires Valid()
      modifies this
      ensures Valid()
      ensures IsBlank(old(branchName)) || old(selectedBranch).None? ==>
                State() == old(State()).(error := Some(NameRequired))
      ensures !IsBlank(old(branchName)) && old(selectedBranch).Some? && reply.Ok? ==>
                State() == old(State()).(error := None, editDialogOpen := false, branchName := "",
                                         selectedBranch := None, loading := true,
                                         calls := old(calls) + [UpdateBranchCall(old(selectedBranch).value.id, Trim(old(branchName))),
                                                                FetchBranchesCall])
      ensures !IsBlank(old(branchName)) && old(selectedBranch).Some? && reply.Err? ==>
                State() == old(State()).(error := Some(MessageOr(reply.error, UpdateFallback)),
                                         calls := old(calls) + [UpdateBranchCall(old(selectedBranch).value.id, Trim(old(branchName)))])
    {
      EditTrimmed(Trim(branchName), reply);
    }

    /** The rest of `handleEditBranch` once the name has been trimmed. */
    method EditTrimmed(trimmed: string, reply: Result<Branch, Exception>)
      requires Valid()
      modifies this
      ensures Valid()
      ensures trimmed == "" || old(selectedBranch).None? ==> State() == old(State()).(error := Some(NameRequired))
      ensures trimmed != "" && old(selectedBranch).Some? && reply.Ok? ==>
                State() == old(State()).(error := None, editDialogOpen := false, branchName := "",
                                         selectedBranch := None, loading := true,
                                         calls := old(calls) + [UpdateBranchCall(old(selectedBranch).value.id, trimmed),
                                                                FetchBranchesCall])
      ensures trimmed != "" && old(selectedBranch).Some? && reply.Err? ==>
                State() == old(State()).(error := Some(MessageOr(reply.error, UpdateFallback)),
                                         calls := old(calls) + [UpdateBranchCall(old(selectedBranch).value.id, trimmed)])
    {
      if trimmed == "" || selectedBranch.None? {
        error := Some(NameRequired);
      } else {
        Send(UpdateBranchCall(selectedBranch.value.id, trimmed));
        error := None;
        if reply.Ok? {
          editDialogOpen, branchName, selectedBranch := false, "", None;
          StartLoad();
        } else {
          error := Some(MessageOr(reply.error, UpdateFallback));
        }
        isSubmitting := false;
      }
    }

    /** `handleDeleteBranch`, with `failure` the error `deleteBranch` throws, if any. The dialog
        closes either way; the selection is cleared and the list reloaded only on success; a failure
        is reported in a toast only, so `error` is left alone. */
    method HandleDeleteBranch(failure: Option<Exception>)
      requires Valid()
      modifies this
      ensures Valid()
      ensures old(selectedBranch).None? ==> State() == old(State())
      ensures old(selectedBranch).Some? && failure.None? ==>
                State() == old(State()).(deleteDialogOpen := false, selectedBranch := None, loading := true,
                                         calls := old(calls) + [DeleteBranchCall(old(selectedBranch).value.id), FetchBranchesCall])
      ensures old(selectedBranch).Some? && failure.Some? ==>
                State() == old(State()).(deleteDialogOpen := false,
                                         calls := old(calls) + [DeleteBranchCall(old(selectedBranch).value.id)])
    {
      if selectedBranch.Some? {
        Send(DeleteBranchCall(selectedBranch.value.id));
        if failure.None? {
          deleteDialogOpen, selectedBranch := false, None;
          StartLoad();
        }
        isSubmitting, deleteDialogOpen := false, false;
      }
    }
  }
}
