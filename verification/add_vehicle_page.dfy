/** The "Add New Vehicle" page (`app/vehicles/add/page.tsx`): the required-field checks it makes before
    calling `addVehicle`, and what it shows and where it goes afterwards. */
module AddVehiclePage {
  import opened Wrappers
  import opened Records
  import opened Api

  const BranchRequired := "Branch is required"
  const FleetNumberRequired := "Fleet Number is required"
  const AddFallback := "Failed to add vehicle"

  /** The page the browser is sent to after a vehicle is added. */
  const HomePath := "/"

  /** The message of the first required field that is missing from the submitted columns; the
      branch is checked before the fleet number. A field counts as present when it is truthy. */
  function RequiredFieldError(data: Row): (r: Option<string>)
    ensures r == Some(BranchRequired) <==> !Truthy(Field(data, "branch_id"))
    ensures r == Some(FleetNumberRequired) <==> Truthy(Field(data, "branch_id")) && !Truthy(Field(data, "fleet_number"))
    ensures r.None? <==> Truthy(Field(data, "branch_id")) && Truthy(Field(data, "fleet_number"))
  {
    if !Truthy(Field(data, "branch_id")) then Some(BranchRequired)
    else if !Truthy(Field(data, "fleet_number")) then Some(FleetNumberRequired)
    else None
  }

  /** What the submit handler resolves to: `false` on every refusal and failure, `undefined` after a
      successful addition. */
  datatype Outcome = ReturnedFalse | ReturnedNothing

  /** Everything the page holds, for stating what a handler changes. */
  datatype Snapshot = Snapshot(error: Option<string>, calls: seq<Call>, pushed: seq<string>)

  class Page {
    /** The message shown in the alert above the form. */
    var error: Option<string>
    /** The calls made into the API layer, in order. */
    var calls: seq<Call>
    /** The paths handed to the router, in order. */
    var pushed: seq<string>

    function State(): Snapshot
      reads this
    {
      Snapshot(error, calls, pushed)
    }

    constructor ()
      ensures State() == Snapshot(None, [], [])
    {
      error := None;
      calls := [];
      pushed := [];
    }

    /** `handleSubmit`, with `failure` the error `addVehicle` throws, if any. A missing field is
        reported without a call; otherwise the error is cleared, the columns are sent as they are, and
        a success goes to the home page while a failure shows the thrown message and stays. */
    method HandleSubmit(data: Row, failure: Option<Exception>) returns (outcome: Outcome)
      modifies this
      ensures RequiredFieldError(data).Some? ==>
                outcome == ReturnedFalse && State() == old(State()).(error := RequiredFieldError(data))
      ensures RequiredFieldError(data).None? && failure.None? ==>
                outcome == ReturnedNothing
                && State() == old(State()).(error := None, calls := old(calls) + [AddVehicleCall(data)],
                                            pushed := old(pushed) + [HomePath])
      ensures RequiredFieldError(data).None? && failure.Some? ==>
                outcome == ReturnedFalse
                && State() == old(State()).(error := Some(MessageOr(failure.value, AddFallback)),
                                            calls := old(calls) + [AddVehicleCall(data)])
    {
      if !Truthy(Field(data, "branch_id")) {
        error := Some(BranchRequired);
        return ReturnedFalse;
      }
      if !Truthy(Field(data, "fleet_number")) {
        error := Some(FleetNumberRequired);
        return ReturnedFalse;
      }
      error := None;
      calls := calls + [AddVehicleCall(data)];
      if failure.Some? {
        error := Some(MessageOr(failure.value, AddFallback));
        return ReturnedFalse;
      }
      pushed := pushed + [HomePath];
      outcome := ReturnedNothing;
    }
  }
}
