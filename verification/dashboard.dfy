/** The dashboard page (`app/dashboard/page.tsx`): loading the vehicles of the branch named by the
    `branchId` query parameter together with that branch's name, and removing a deleted vehicle from
    the list. Each handler runs to its end in one step, with the API's answers as parameters. */
module Dashboard {
  import opened Wrappers
  import opened Records
  import opened Lists
  import opened Store
  import opened Api

  const LoadFallback := "Failed to load vehicles"

  /** After a successful deletion a vehicle stays in the list exactly when it was there and has
      another identifier. */
  lemma DeleteLeavesOthers(vehicles: seq<Vehicle>, id: string, v: Vehicle)
    ensures v in RemoveVehicle(vehicles, id) <==> v in vehicles && v.id != id
  {
    FilterMembers(vehicles, (v: Vehicle) => v.id != id, v);
  }

  /** The remaining vehicles keep their order: removing from a list split in two is removing from
      each part, and a part without the identifier is left as it is. */
  lemma DeleteKeepsOrder(front: seq<Vehicle>, back: seq<Vehicle>, id: string)
    ensures RemoveVehicle(front + back, id) == RemoveVehicle(front, id) + RemoveVehicle(back, id)
    ensures (forall k :: 0 <= k < |front| ==> front[k].id != id) ==> RemoveVehicle(front, id) == front
  {
    FilterConcat(front, back, (v: Vehicle) => v.id != id);
    if forall k :: 0 <= k < |front| ==> front[k].id != id {
      FilterKeepsAll(front, (v: Vehicle) => v.id != id);
    }
  }

  /** Everything the page holds, for stating what a handler changes. */
  datatype Snapshot = Snapshot(vehicles: seq<Vehicle>, loading: bool, error: Option<string>, branchName: string,
                               calls: seq<Call>)

  class Page {
    var vehicles: seq<Vehicle>
    var loading: bool
    /** The message shown in the alert above the list. */
    var error: Option<string>
    /** The name shown in the heading when a branch is selected. */
    var branchName: string
    /** The calls made into the API layer, in order. */
    var calls: seq<Call>

    function State(): Snapshot
      reads this
    {
      Snapshot(vehicles, loading, error, branchName, calls)
    }

    /** The first render, before the load effect has run. */
    constructor ()
      ensures State() == Snapshot([], true, None, "", [])
    {
      vehicles := [];
      loading := true;
      error := None;
      branchName := "";
      calls := [];
    }

    /** `loadVehicles`, run when the page mounts and whenever `branchId` (the query parameter, absent
        or present) changes. `vehiclesReply` and `branchesReply` are what `fetchVehiclesByBranch` and
        `fetchBranches` return or throw; the branches are fetched only for a truthy `branchId`, and
        only after the vehicles arrived. A failure keeps the vehicles already shown (or the fresh ones,
        when only the branch fetch failed) and sets the message; loading ends either way. */
    method LoadVehicles(branchId: Option<string>, vehiclesReply: Result<seq<Vehicle>, Exception>,
                        branchesReply: Result<seq<Branch>, Exception>)
      modifies this
      ensures vehiclesReply.Err? ==>
                State() == old(State()).(loading := false, error := Some(MessageOr(vehiclesReply.error, LoadFallback)),
                                         calls := old(calls) + [FetchVehiclesCall(branchId)])
      ensures vehiclesReply.Ok? && !Given(branchId) ==>
                State() == old(State()).(loading := false, error := None, vehicles := vehiclesReply.value,
                                         branchName := "", calls := old(calls) + [FetchVehiclesCall(branchId)])
      ensures vehiclesReply.Ok? && Given(branchId) && branchesReply.Err? ==>
                State() == old(State()).(loading := false, vehicles := vehiclesReply.value,
                                         error := Some(MessageOr(branchesReply.error, LoadFallback)),
                                         calls := old(calls) + [FetchVehiclesCall(branchId), FetchBranchesCall])
      ensures vehiclesReply.Ok? && Given(branchId) && branchesReply.Ok? ==>
                State() == old(State()).(loading := false, error := None, vehicles := vehiclesReply.value,
                                         branchName := BranchNameOr(branchesReply.value, branchId.value, ""),
                                         calls := old(calls) + [FetchVehiclesCall(branchId), FetchBranchesCall])
    {
      loading := true;
      error := None;
      calls := calls + [FetchVehiclesCall(branchId)];
      if vehiclesReply.Err? {
        error := Some(MessageOr(vehiclesReply.error, LoadFallback));
      } else {
        vehicles := vehiclesReply.value;
        if Given(branchId) {
          calls := calls + [FetchBranchesCall];
          if branchesReply.Err? {
            error := Some(MessageOr(branchesReply.error, LoadFallback));
          } else {
            branchName := BranchNameOr(branchesReply.value, branchId.value, "");
          }
        } else {
          branchName := "";
        }
      }
      loading := false;
    }

    /** `handleDelete`, with `failure` the error `deleteVehicle` throws, if any. A success removes the
        vehicle from the list; a failure is only logged, so nothing but the call log changes. */
    method HandleDelete(id: string, failure: Option<Exception>)
      modifies this
      ensures failure.None? ==>
                State() == old(State()).(vehicles := RemoveVehicle(old(vehicles), id),
                                         calls := old(calls) + [DeleteVehicleCall(id)])
      ensures failure.Some? ==> State() == old(State()).(calls := old(calls) + [DeleteVehicleCall(id)])
    {
      calls := calls + [DeleteVehicleCall(id)];
      if failure.None? {
        vehicles := RemoveVehicle(vehicles, id);
      }
    }
  }
}
