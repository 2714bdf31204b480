/** The stand-alone "Add Branch" dialog (`components/branches/add-branch-dialog.tsx`). Its submit
    handler runs from the click to the end of its `finally` block in one step, with the answer of
    `addBranch` as a parameter. */
module AddBranchDialog {
  import opened Wrappers
  import opened Records
  import opened JsStrings
  import opened Api

  const AddFallback := "Failed to add branch"

  /** Everything the dialog holds, for stating what a handler changes. */
  datatype Snapshot = Snapshot(
    open: bool, branchName: string, isSubmitting: bool, error: Option<string>, calls: seq<Call>,
    added: seq<Branch>)

  class Dialog {
    var open: bool
    var branchName: string
    var isSubmitting: bool
    /** The message shown under the name field. */
    var error: Option<string>
    /** The calls made into the API layer, in order. */
    var calls: seq<Call>
    /** The branches handed to the parent's `onBranchAdded`, in order. */
    var added: seq<Branch>

    function State(): Snapshot
      reads this
    {
      Snapshot(open, branchName, isSubmitting, error, calls, added)
    }

    /** No request is in flight between handlers: `isSubmitting` is cleared in the `finally` block. */
    ghost predicate Valid()
      reads this
    {
      !isSubmitting
    }

    constructor ()
      ensures Valid()
      ensures State() == Snapshot(false, "", false, None, [], [])
    {
      open := false;
      branchName := "";
      isSubmitting := false;
      error := None;
      calls := [];
      added := [];
    }

    /** `handleOpenChange`: opening only sets the flag (the delayed focus of the name field is not
        part of this model); closing also empties the field and the error. */
    method HandleOpenChange(newOpen: bool)
      requires Valid()
      modifies this
      ensures Valid()
      ensures newOpen ==> State() == old(State()).(open := true)
      ensures !newOpen ==> State() == old(State()).(open := false, branchName := "", error := None)
    {
      open := newOpen;
      if !newOpen {
        branchName := "";
        error := None;
      }
    }

    /** The "Add Branch" button, which calls `setOpen(true)` directly. */
    method OpenFromButton()
      requires Valid()
      modifies this
      ensures Valid()
      ensures State() == old(State()).(open := true)
    {
      open := true;
    }

    /** The Cancel button, which calls `setOpen(false)` directly and so keeps the typed name and the
        error for the next opening. */
    method Cancel()
      requires Valid()
      modifies this
      ensures Valid()
      ensures State() == old(State()).(open := false)
    {
      open := false;
    }

    /** Typing in the name field. */
    method EditName(value: string)
      requires Valid()
      modifies this
      ensures Valid()
      ensures State() == old(State()).(branchName := value)
    {
      branchName := value;
    }

    /** `handleSubmit`, with `reply` what `addBranch` returns or throws. A blank name is refused
        before any call; otherwise the trimmed name is sent, a success closes the dialog, empties the
        field and hands the new branch to the parent once, and a failure keeps the dialog open with
        the thrown message and tells the parent nothing. */
    method HandleSubmit(reply: Result<Branch, Exception>)
      requires Valid()
      modifies this
      ensures Valid()
      ensures IsBlank(old(branchName)) ==> State() == old(State()).(error := Some(NameRequired))
      ensures !IsBlank(old(branchName)) && reply.Ok? ==>
                State() == old(State()).(open := false, branchName := "", error := None,
                                         calls := old(calls) + [AddBranchCall(Trim(old(branchName)))],
                                         added := old(added) + [reply.value])
      ensures !IsBlank(old(branchName)) && reply.Err? ==>
                State() == old(State()).(error := Some(MessageOr(reply.error, AddFallback)),
                                         calls := old(calls) + [AddBranchCall(Trim(old(branchName)))])
    {
      SubmitTrimmed(Trim(branchName), reply);
    }

    /** The rest of `handleSubmit` once the name has been trimmed. */
    method SubmitTrimmed(trimmed: string, reply: Result<Branch, Exception>)
      requires Valid()
      modifies this
      ensures Valid()
      ensures trimmed == "" ==> State() == old(State()).(error := Some(NameRequired))
      ensures trimmed != "" && reply.Ok? ==>
                State() == old(State()).(open := false, branchName := "", error := None,
                                         calls := old(calls) + [AddBranchCall(trimmed)],
                                         added := old(added) + [reply.value])
      ensures trimmed != "" && reply.Err? ==>
                State() == old(State()).(error := Some(MessageOr(reply.error, AddFallback)),
                                         calls := old(calls) + [AddBranchCall(trimmed)])
    {
      if trimmed == "" {
        error := Some(NameRequired);
      } else {
        isSubmitting := true;
        error := None;
        calls := calls + [AddBranchCall(trimmed)];
        if reply.Ok? {
          open, branchName := false, "";
          added := added + [reply.value];
        } else {
          error := Some(MessageOr(reply.error, AddFallback));
        }
        isSubmitting := false;
      }
    }
  }
}
