/** The vehicle form (`components/vehicles/vehicle-form.tsx`): the record of entered columns, how each
    kind of input changes it, and the loading flag around a submission. The parent's `onSubmit` is
    represented by how its promise settles. */
module VehicleForm {
  import opened Wrappers
  import opened Records
  import opened JsNumbers
  import opened Api

  /** Where the Cancel button goes when the parent names no other page. */
  const DefaultReturnPath := "/dashboard"

  /** The value `handleNumberChange` stores for the text of a number input: null for an empty input,
      otherwise `Number(text)`. */
  function NumberValue(input: string): (v: Value)
    ensures v == Null <==> input == ""
    ensures v.Number? <==> ParseInteger(input).Some?
    ensures v.Number? ==> v.number == ParseInteger(input).value
    ensures v.NonInteger? ==> v.literal == input
  {
    if input == "" then Null
    else match ParseInteger(input)
      case Some(n) => Number(n)
      case None => NonInteger(input)
  }

  /** Typing the decimal form of a whole number stores that number. */
  lemma NumberValueOfDecimal(n: int)
    ensures NumberValue(IntToString(n)) == Number(n)
  {
    ParseIntegerRoundTrip(n);
  }

  /** How the promise returned by the parent's `onSubmit` settles: resolved (with any value, `false`
      included) or rejected. */
  datatype Settlement = Resolved | Rejected(error: Exception)

  /** Everything the form holds, for stating what a handler changes. */
  datatype Snapshot = Snapshot(branches: seq<Branch>, isLoading: bool, formData: Row, submitted: seq<Row>,
                               pushed: seq<string>)

  class Form {
    /** The page the Cancel button goes to. */
    const returnPath: string
    var branches: seq<Branch>
    var isLoading: bool
    /** The columns entered so far. */
    var formData: Row
    /** The records passed to the parent's `onSubmit`, in order. */
    var submitted: seq<Row>
    /** The paths handed to the router, in order. */
    var pushed: seq<string>

    function State(): Snapshot
      reads this
    {
      Snapshot(branches, isLoading, formData, submitted, pushed)
    }

    /** The first render: the record starts as the initial data (empty when none is given) and the
        return path defaults to the dashboard. */
    constructor (initialData: Option<Row>, returnPath: Option<string>)
      ensures this.returnPath == if returnPath.Some? then returnPath.value else DefaultReturnPath
      ensures State() == Snapshot([], false, if initialData.Some? then initialData.value else map[], [], [])
    {
      this.returnPath := if returnPath.Some? then returnPath.value else DefaultReturnPath;
      branches := [];
      isLoading := false;
      formData := if initialData.Some? then initialData.value else map[];
      submitted := [];
      pushed := [];
    }

    /** The end of the mount effect's `loadBranches`: a failure is only logged. */
    method FinishLoadBranches(reply: Result<seq<Branch>, Exception>)
      modifies this
      ensures State() == old(State()).(branches := if reply.Ok? then reply.value else old(branches))
    {
      if reply.Ok? {
        branches := reply.value;
      }
    }

    /** `handleChange` of a text input or text area: the named column takes the typed text and no
        other column changes. */
    method HandleChange(name: string, value: string)
      modifies this
      ensures State() == old(State()).(formData := old(formData)[name := Text(value)])
      ensures name in formData && formData[name] == Text(value)
      ensures forall k :: k != name ==> (k in formData <==> k in old(formData))
      ensures forall k :: k != name && k in formData ==> formData[k] == old(formData)[k]
    {
      formData := formData[name := Text(value)];
    }

    /** `handleSelectChange`: the same for a drop-down (the branch or the vehicle type). */
    method HandleSelectChange(name: string, value: string)
      modifies this
      ensures State() == old(State()).(formData := old(formData)[name := Text(value)])
      ensures name in formData && formData[name] == Text(value)
      ensures forall k :: k != name ==> (k in formData <==> k in old(formData))
      ensures forall k :: k != name && k in formData ==> formData[k] == old(formData)[k]
    {
      formData := formData[name := Text(value)];
    }

    /** `handleNumberChange`: the named column takes the number typed, or null for an empty input. */
    method HandleNumberChange(name: string, value: string)
      modifies this
      ensures State() == old(State()).(formData := old(formData)[name := NumberValue(value)])
      ensures value == "" ==> formData[name] == Null
      ensures forall k :: k != name ==> (k in formData <==> k in old(formData))
      ensures forall k :: k != name && k in formData ==> formData[k] == old(formData)[k]
    {
      formData := formData[name := NumberValue(value)];
    }

    /** `handleSubmit`, for a form whose submit button is enabled (while `isLoading` the button is
        disabled and the browser does not submit). The record is passed on as it is; only a rejected
        promise ends the loading state, so a parent that resolves with `false` leaves the form
        loading. */
    method HandleSubmit(settlement: Settlement)
      modifies this
      ensures old(isLoading) ==> State() == old(State())
      ensures !old(isLoading) ==>
                State() == old(State()).(isLoading := !settlement.Rejected?, submitted := old(submitted) + [old(formData)])
    {
      if isLoading {
        return;
      }
      isLoading := true;
      submitted := submitted + [formData];
      if settlement.Rejected? {
        isLoading := false;
      }
    }

    /** The Cancel button, disabled while loading: goes back to the return path. */
    method Cancel()
      modifies this
      ensures old(isLoading) ==> State() == old(State())
      ensures !old(isLoading) ==> State() == old(State()).(pushed := old(pushed) + [returnPath])
    {
      if !isLoading {
        pushed := pushed + [returnPath];
      }
    }
  }
}
