/** The plain vehicle list (`components/vehicles/vehicle-table.tsx`): the status badge colours, the
    highlighting of the URL's search term in the cells, which of its three views it shows, and the
    confirm-then-delete flow. The data table repeats the badge colours, the views and the flow. */
module VehicleTable {
  import opened Wrappers
  import opened Records
  import opened JsStrings
  import opened JsNumbers
  import opened Api

  const GreenBadge := "bg-green-100 text-green-800"
  const AmberBadge := "bg-amber-100 text-amber-800"
  const RedBadge := "bg-red-100 text-red-800"
  const BlueBadge := "bg-blue-100 text-blue-800"
  const GrayBadge := "bg-gray-100 text-gray-800"

  /** The statuses that have a colour of their own, in lower case. */
  const KnownStatuses: set<string> := {"active", "maintenance", "out of service", "reserved"}

  /** `getStatusBadgeClass`: the colour of a status, compared without regard to case; a missing,
      empty or unknown status is gray. */
  function StatusBadgeClass(status: Option<string>): (r: string)
    ensures r == GrayBadge <==> status.None? || ToLower(status.value) !in KnownStatuses
    ensures status.Some? && ToLower(status.value) == "active" ==> r == GreenBadge
    ensures status.Some? && ToLower(status.value) == "maintenance" ==> r == AmberBadge
    ensures status.Some? && ToLower(status.value) == "out of service" ==> r == RedBadge
    ensures status.Some? && ToLower(status.value) == "reserved" ==> r == BlueBadge
  {
    if status.None? || status.value == "" then GrayBadge
    else
      var lower := ToLower(status.value);
      if lower == "active" then GreenBadge
      else if lower == "maintenance" then AmberBadge
      else if lower == "out of service" then RedBadge
      else if lower == "reserved" then BlueBadge
      else GrayBadge
  }

  /** Two spellings of a status that differ only in case get the same colour, and the lower-case
      spelling stands for all of them. */
  lemma StatusBadgeIgnoresCase(s: string, t: string)
    requires ToLower(s) == ToLower(t)
    ensures StatusBadgeClass(Some(s)) == StatusBadgeClass(Some(t))
    ensures StatusBadgeClass(Some(ToLower(s))) == StatusBadgeClass(Some(s))
  {
    ToLowerIdempotent(s);
  }

  /** The four known statuses get four different colours, none of them gray. */
  lemma KnownStatusesDistinct(s: string, t: string)
    requires ToLower(s) in KnownStatuses && ToLower(t) in KnownStatuses
    requires StatusBadgeClass(Some(s)) == StatusBadgeClass(Some(t))
    ensures ToLower(s) == ToLower(t)
  {
  }

  /** What a table cell holds: text, a whole number, or nothing. */
  datatype Cell = CellText(text: string) | CellNumber(number: int) | CellNull

  /** JavaScript truthiness of a cell. */
  predicate CellTruthy(c: Cell) {
    match c
    case CellText(s) => s != ""
    case CellNumber(n) => n != 0
    case CellNull => false
  }

  /** `String(cell)`. */
  function CellString(c: Cell): string {
    match c
    case CellText(s) => s
    case CellNumber(n) => IntToString(n)
    case CellNull => "null"
  }

  /** What `highlightMatch` renders: the cell as it was, its text without a mark, or its text
      split around a marked part. */
  datatype Highlighted = Unchanged(cell: Cell) | Plain(text: string) | Marked(before: string, marked: string, after: string)

  /** `highlightMatch`: marks the first occurrence of the search term in the cell's text,
      comparing without regard to case. */
  function Highlight(cell: Cell, term: Option<string>): (h: Highlighted)
    ensures h.Unchanged? <==> !CellTruthy(cell) || term.None? || term.value == ""
    ensures h.Unchanged? ==> h.cell == cell
    ensures h.Plain? <==> !h.Unchanged? && !Includes(ToLower(CellString(cell)), ToLower(term.value))
    ensures h.Plain? ==> h.text == CellString(cell)
    ensures h.Marked? ==>
              h.before + h.marked + h.after == CellString(cell)
              && |h.marked| == |term.value|
              && ToLower(h.marked) == ToLower(term.value)
              && forall k: nat :: k < |h.before| ==> !OccursAt(ToLower(CellString(cell)), ToLower(term.value), k)
  {
    if !CellTruthy(cell) || term.None? || term.value == "" then Unchanged(cell)
    else
      var text := CellString(cell);
      var index := IndexOf(ToLower(text), ToLower(term.value));
      if index == -1 then Plain(text)
      else
        var end := index + |term.value|;
        MarkedPartMatches(text, term.value, index);
        Marked(text[..index], text[index..end], text[end..])
  }

  /** Where the lower-cased term occurs in the lower-cased text, the text splits around a part of
      the term's length that matches it in any case. */
  lemma MarkedPartMatches(text: string, term: string, index: nat)
    requires OccursAt(ToLower(text), ToLower(term), index)
    ensures index + |term| <= |text|
    ensures text[..index] + text[index..index + |term|] + text[index + |term|..] == text
    ensures ToLower(text[index..index + |term|]) == ToLower(term)
  {
    ToLowerSlice(text, index, index + |term|);
    assert text == text[..index] + text[index..index + |term|] + text[index + |term|..];
  }

  /** A term that is a slice of the text, in any case, is always found and marked. */
  lemma HighlightFindsSlice(text: string, i: nat, j: nat, term: string)
    requires i < j <= |text|
    requires ToLower(term) == ToLower(text[i..j])
    ensures Highlight(CellText(text), Some(term)).Marked?
  {
    ToLowerSlice(text, i, j);
    assert OccursAt(ToLower(text), ToLower(term), i);
  }

  /** The three views of a vehicle list: the spinner, the notice that there are no vehicles
      (with or without a button to add one), and the rows. */
  datatype View = Spinner | NoVehicles(offersAdd: bool) | Rows

  /** Which view a list shows: loading comes first, then an empty list, then the rows. */
  function ViewFor(loading: bool, rowCount: nat, offersAdd: bool): (v: View)
    ensures v.Spinner? <==> loading
    ensures v.NoVehicles? <==> !loading && rowCount == 0
    ensures v.NoVehicles? ==> v.offersAdd == offersAdd
  {
    if loading then Spinner
    else if rowCount == 0 then NoVehicles(offersAdd)
    else Rows
  }

  /** The confirm-then-delete flow of a vehicle list. */
  class RowDeletion {
    /** The vehicle whose delete button was pressed; the confirm dialog is open while there is one. */
    var vehicleToDelete: Option<Vehicle>
    var isDeleting: bool
    /** The identifiers passed to the parent's `onDelete`, in order. */
    var deleteCalls: seq<string>

    constructor ()
      ensures vehicleToDelete == None && !isDeleting && deleteCalls == []
    {
      vehicleToDelete := None;
      isDeleting := false;
      deleteCalls := [];
    }

    /** The delete button of a row. */
    method SelectForDeletion(v: Vehicle)
      modifies this
      ensures vehicleToDelete == Some(v) && isDeleting == old(isDeleting) && deleteCalls == old(deleteCalls)
    {
      vehicleToDelete := Some(v);
    }

    /** The dialog's cancel button. */
    method CancelDeletion()
      modifies this
      ensures vehicleToDelete == None && isDeleting == old(isDeleting) && deleteCalls == old(deleteCalls)
    {
      vehicleToDelete := None;
    }

    /** `handleDelete`, with `failure` the error `onDelete` throws, if any. Without a selection it
        does nothing; otherwise it calls `onDelete` once, and ends with the dialog closed and
        nothing in progress whether or not the call failed. */
    method HandleDelete(failure: Option<Exception>)
      modifies this
      ensures old(vehicleToDelete).None? ==>
                vehicleToDelete == None && isDeleting == old(isDeleting) && deleteCalls == old(deleteCalls)
      ensures old(vehicleToDelete).Some? ==>
                deleteCalls == old(deleteCalls) + [old(vehicleToDelete).value.id]
                && vehicleToDelete == None && !isDeleting
    {
      if vehicleToDelete.None? {
        return;
      }
      isDeleting := true;
      deleteCalls := deleteCalls + [vehicleToDelete.value.id];
      isDeleting := false;
      vehicleToDelete := None;
    }
  }
}
