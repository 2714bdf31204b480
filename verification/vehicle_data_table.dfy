/** The data-table view of the vehicle list (`components/vehicles/vehicle-data-table.tsx`). Sorting,
    filtering, pagination and row selection are delegated to a table library; what the component
    itself decides is the library's starting state, the page sizes it offers, and the same badge
    colours, views and delete flow as the plain list (`VehicleTable`). */
module VehicleDataTable {
  import opened Wrappers
  import opened JsNumbers

  /** The page sizes the "Rows per page" menu offers. */
  const PageSizeOptions: seq<nat> := [10, 20, 30, 40, 50]

  /** The text of a menu entry (`${pageSize}`). */
  function PageSizeLabel(size: nat): string {
    IntToString(size)
  }

  /** The page size the menu passes on for a chosen entry (`Number(value)`). */
  function PageSizeChoice(entry: string): Option<int> {
    ParseInteger(entry)
  }

  /** Choosing an entry of the menu sets exactly the page size it shows. */
  lemma ChoosingAnEntryGivesItsSize(i: nat)
    requires i < |PageSizeOptions|
    ensures PageSizeChoice(PageSizeLabel(PageSizeOptions[i])) == Some(PageSizeOptions[i])
  {
    ParseIntegerRoundTrip(PageSizeOptions[i]);
  }

  /** A sort on one column. */
  datatype ColumnSort = ColumnSort(column: string, descending: bool)

  /** A filter on one column. */
  datatype ColumnFilter = ColumnFilter(column: string, value: string)

  /** The state the component keeps for the table library. */
  class TableState {
    var sorting: seq<ColumnSort>
    var columnFilters: seq<ColumnFilter>
    var columnVisibility: map<string, bool>
    var rowSelection: map<string, bool>
    var pageIndex: nat
    var pageSize: nat
    var globalFilter: string

    /** The first render: no sort, no filter, every column visible, nothing selected, the first
        page of ten rows and an empty search. */
    constructor ()
      ensures sorting == [] && columnFilters == [] && columnVisibility == map[] && rowSelection == map[]
      ensures pageIndex == 0 && pageSize == 10 && pageSize == PageSizeOptions[0]
      ensures globalFilter == ""
    {
      sorting := [];
      columnFilters := [];
      columnVisibility := map[];
      rowSelection := map[];
      pageIndex := 0;
      pageSize := 10;
      globalFilter := "";
    }

    /** Typing in the table's search box. */
    method SetGlobalFilter(value: string)
      modifies this
      ensures globalFilter == value
      ensures sorting == old(sorting) && columnFilters == old(columnFilters)
      ensures columnVisibility == old(columnVisibility) && rowSelection == old(rowSelection)
      ensures pageIndex == old(pageIndex) && pageSize == old(pageSize)
    {
      globalFilter := value;
    }
  }
}
