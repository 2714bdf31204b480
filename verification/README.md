# Fleet management front-end: a Dafny model

This project models the logic of a fleet-management web application. The application is a set of
React components over a hosted PostgreSQL database. It keeps two tables: **branches** (depots, each with a
name) and **vehicles** (each with a branch, a fleet number, a registration number, a VIN, a type, a
status and free-form columns). Its users list, filter, add, edit and delete them.

Two layers are modelled:

- **The data-access layer** (`lib/api.ts`, module `Api`). Each function queries or writes a
  `Store.Database`, which holds both tables as sequences. The remote side's answer is a parameter
  chosen by the caller: success, a null answer, or an error with a SQLSTATE code. The pure decision
  rules are functions with lemmas:
  - validating and trimming a branch name;
  - classifying a failed branch write as a duplicate, a permission refusal or anything else;
  - naming a duplicated vehicle column;
  - refusing to delete a branch that vehicles still refer to.

  The database enforces no constraint in this model. Its only refusal of its own is that of
  `.single()`, which rejects a statement that does not touch exactly one row (PostgREST's
  `PGRST116`).
- **The components.** Each stateful component is a class whose fields are its React state. Each
  event handler is a method that runs from the event to the end of its `finally` block in one step.
  - The awaited API answer is a parameter of the handler.
  - The calls the component makes into the API layer are recorded in a `calls` log.
  - Navigations are recorded in `pushed`.
  - Each class has a `State()` snapshot, so each method can state its whole new state, including
    everything it leaves alone.
  - Invariants such as "the filter count equals the number of active filters" and "no request is in
    flight between handlers" are `Valid()` predicates that every method keeps.

The URL query string follows section 6.2 of the WHATWG URL Standard (`URLSearchParams`). It is modelled as a
sequence of name/value pairs (`UrlQuery`), with `append`, `delete` and `set`, and with lemmas on what
`getAll` reads back afterwards. JavaScript's `trim`, ASCII `toLowerCase`, `indexOf`/`includes`,
integer printing and integer parsing are in `JsStrings` and `JsNumbers`.

The data-table view (`components/vehicles/vehicle-data-table.tsx`) repeats the status colours, the
loading/empty/rows precedence and the confirm-then-delete flow of the plain vehicle table. Both are
modelled once, in `VehicleTable`, and the data table's own lines are cited next to the plain table's
below. The data table defines its own copy of `getStatusBadgeClass` but never uses it, because it has
no status column.

## Model

| member | source | states |
|---|---|---|
| Api.MessageOr | components/settings/branches-settings.tsx:94 | the message of a thrown `Error`, or the fallback text for the database's plain error object |
| Api.ValidateBranchName | lib/api.ts:135-139 | refused with "Branch name is required" exactly when the name is empty or only white space; otherwise the non-empty trimmed name |
| Api.ValidateBranchNameIdempotent | lib/api.ts:139 | a name that passed the check passes it again unchanged |
| Api.BranchWriteError | lib/api.ts:145-151 | add/update: 23505 gives the duplicate-name message, 42501 or 42503 the permission message, anything else "Failed to add/update branch: " plus the database's message; for a deletion (lib/api.ts lines 208-214) there is no duplicate case, 42501 or 42503 gives the permission message and anything else "Failed to delete branch: " plus the message |
| Api.BranchWriteErrorDistinguishes | lib/api.ts:145-151 | equal messages mean the same kind of failure, and for the catch-all kind the same original message |
| Api.AddVehicleError | lib/api.ts:72-83 | a unique violation names registration number, then VIN, then a generic conflict, by substring of the message; any other error is rethrown unchanged |
| Api.RegistrationTakesPrecedence | lib/api.ts:74-77 | a message mentioning both columns is reported as a registration clash |
| Api.DependencyMessageNamesCount | lib/api.ts:198-202 | the refusal to delete a referenced branch contains the number of dependent vehicles |
| Api.DependencyMessageInjective | lib/api.ts:198-202 | different numbers of dependents give different refusal messages |
| Api.DeleteGuard | lib/api.ts:189-203 | aborts with "Failed to check vehicles: " plus the message on a query error, with the count message when vehicles refer to the branch, and lets the deletion go on otherwise (a null answer counts as none) |
| Api.GuardRefusesReferencedBranch | lib/api.ts:189-203 | when some vehicle refers to the branch and the check is answered, the guard refuses with the number of such vehicles |
| Api.DeleteUnreferencedKeepsIntegrity | lib/api.ts:205-206 | deleting a branch no vehicle refers to keeps every vehicle's branch in existence |
| Api.VehiclesFor | lib/api.ts:44-48 | no branch filter for a null or empty identifier; otherwise exactly the vehicles of that branch |
| Api.FetchBranches | lib/api.ts:4-21 | the table's rows, [] for a null answer, the database's error rethrown |
| Api.FetchVehiclesByBranch | lib/api.ts:24-63 | the vehicles of the branch (or all of them), [] for a null answer, the error rethrown |
| Api.GetVehicleById | lib/api.ts:112-128 | the one vehicle with that identifier; the `.single()` error when there is none or more than one; null for a null answer; a read error rethrown |
| Api.AddVehicle | lib/api.ts:66-87 | inserts the columns and returns the new row, or throws the mapped error leaving the table unchanged |
| Api.UpdateVehicle | lib/api.ts:90-99 | patches the one vehicle with that identifier; any error, `.single()`'s included, rethrown with the table unchanged |
| Api.DeleteVehicle | lib/api.ts:102-109 | removes every row with that identifier, or rethrows the error with the table unchanged |
| Api.AddBranch | lib/api.ts:131-156 | a blank name is refused before the database is touched; otherwise the trimmed name is inserted, or the mapped error is thrown with the table unchanged |
| Api.UpdateBranch | lib/api.ts:159-184 | a blank name is refused first; otherwise the one branch with that identifier is renamed to the trimmed name, or the mapped error is thrown with the table unchanged |
| Api.DeleteBranch | lib/api.ts:187-218 | the dependency check runs first and a refusal leaves the store unchanged; otherwise exactly that branch is removed, or the mapped error is thrown; referential integrity is kept |
| Store.Database.SelectVehicles | lib/api.ts:28-48 | the vehicles, narrowed to one branch when an identifier is passed |
| Store.Database.UpdateBranchName | lib/api.ts:167 | `.single()`: renames when exactly one row matches, otherwise reports PGRST116 and changes nothing |
| Store.Database.InsertVehicle | lib/api.ts:67 | appends the new row, with the database's timestamps under the supplied columns |
| Store.Database.DeleteBranchRows | lib/api.ts:205 | removes the rows with that identifier unless the database refuses |
| Store.OfBranchMembers | lib/api.ts:46-48 | a vehicle is in the narrowed list exactly when it is in the table and belongs to the branch |
| Store.RemoveBranchMembers | lib/api.ts:205 | a branch survives the deletion exactly when it has another identifier |
| JsStrings.Trim | lib/api.ts:135 | the input without leading and trailing white space; empty exactly when the input is blank |
| JsStrings.TrimIdempotent | lib/api.ts:139 | trimming twice is trimming once |
| JsStrings.IndexOf | components/vehicles/vehicle-table.tsx:61 | the first position where the term occurs, or -1 when it occurs nowhere |
| VehicleFilters.BranchBadgeLabel | components/vehicles/vehicle-filters.tsx:229-232 | "Unknown Branch" when no loaded branch has the identifier |
| VehicleFilters.BranchBadgeShowsLoadedName | components/vehicles/vehicle-filters.tsx:229-232 | with unique identifiers, a loaded branch's badge shows its name |
| VehicleFilters.Without | components/vehicles/vehicle-filters.tsx:185-188 | a value is kept exactly when it was there and differs from the removed one; unchanged when it was absent (order and repetitions: `WithoutKeepsOrder`) |
| VehicleFilters.WithoutKeepsOrder | components/vehicles/vehicle-filters.tsx:185-188 | removal distributes over concatenation and keeps each other value in place, so the remaining values keep their order and repetitions |
| VehicleFilters.Toggled | components/vehicles/vehicle-filters.tsx:214-226 | a selected value is removed everywhere by the order-preserving `Without`, an unselected one appended at the end, every other value kept |
| VehicleFilters.ToggleTwice | components/vehicles/vehicle-filters.tsx:214-226 | ticking and unticking a box restores the selection exactly |
| VehicleFilters.WithSelected | components/vehicles/vehicle-filters.tsx:216-224 | one category changes, the other is untouched |
| VehicleFilters.AppliedQueryReadsBack | components/vehicles/vehicle-filters.tsx:148-168 | after applying, the query's branch and type values are exactly the selection in order, search is replaced only by a non-empty term, other parameters are untouched |
| VehicleFilters.RewrittenQueryReadsBack | components/vehicles/vehicle-filters.tsx:194-208 | removing a badge rewrites only that category's parameter, to the remaining values |
| VehicleFilters.SubmittedQueryReadsBack | components/vehicles/vehicle-filters.tsx:123-134 | after a submission the query holds exactly the submitted term, or none for an empty term, and nothing else changes |
| VehicleFilters.ClearingDropsFilterParams | components/vehicles/vehicle-filters.tsx:246-250 | the three deletions remove exactly the bar's own parameters |
| VehicleFilters.EditForApply | components/vehicles/vehicle-filters.tsx:148-168 | the in-place `URLSearchParams` edits, loops included, build the applied query |
| VehicleFilters.EditForRemove | components/vehicles/vehicle-filters.tsx:194-208 | the in-place edits build the rewritten query |
| VehicleFilters.EditForSubmit | components/vehicles/vehicle-filters.tsx:125-131 | the in-place edits build the submitted query |
| VehicleFilters.EditForClear | components/vehicles/vehicle-filters.tsx:246-250 | the in-place edits build the query without the bar's parameters |
| VehicleFilters.UrlFilters | components/vehicles/vehicle-filters.tsx:73-80 | each category's selection is exactly that parameter's values in the URL, in order |
| VehicleFilters.UrlSearchTerm | components/vehicles/vehicle-filters.tsx:75-88 | a term is taken exactly when the first search value exists and is not empty, and it is that value |
| VehicleFilters.FilterBar.SetActive | components/vehicles/vehicle-filters.tsx:82-97 | the active selection is replaced and the badge count becomes its size |
| VehicleFilters.FilterBar.constructor | components/vehicles/vehicle-filters.tsx:37-54 | empty selections, empty search, count 0, sheet closed |
| VehicleFilters.FilterBar.Initialize | components/vehicles/vehicle-filters.tsx:70-91 | runs once: both selections from the URL's branch and type values, the search term from a non-empty search parameter |
| VehicleFilters.FilterBar.LoadBranches | components/vehicles/vehicle-filters.tsx:57-67 | a failed fetch leaves the options as they were |
| VehicleFilters.FilterBar.HandleSearchChange | components/vehicles/vehicle-filters.tsx:116-120 | the box shows the text and the debounce restarts with it |
| VehicleFilters.FilterBar.DebounceElapsed | components/vehicles/vehicle-filters.tsx:100-113 | the parent hears only the last term typed, once |
| VehicleFilters.FilterBar.HandleSearchSubmit | components/vehicles/vehicle-filters.tsx:123-134 | commits the box's term and pushes the submitted query |
| VehicleFilters.FilterBar.ClearSearchBox | components/vehicles/vehicle-filters.tsx:340-345 | empties the box and tells the parent; badge and URL unchanged |
| VehicleFilters.FilterBar.RemoveSearchBadge | components/vehicles/vehicle-filters.tsx:386-394 | the term leaves the box, the badge and the URL |
| VehicleFilters.FilterBar.SetSheetOpen | components/vehicles/vehicle-filters.tsx:258 | only the sheet flag changes |
| VehicleFilters.FilterBar.ToggleFilter | components/vehicles/vehicle-filters.tsx:214-226 | only the pending selection of one category changes |
| VehicleFilters.FilterBar.ResetFilters | components/vehicles/vehicle-filters.tsx:174-179 | only the pending selection is emptied; active filters and URL unchanged |
| VehicleFilters.FilterBar.ApplyFilters | components/vehicles/vehicle-filters.tsx:144-171 | active becomes pending, the sheet closes, the applied query is pushed, the count follows |
| VehicleFilters.FilterBar.RemoveFilter | components/vehicles/vehicle-filters.tsx:182-211 | the value leaves one active category, pending follows active, only that parameter is rewritten |
| VehicleFilters.FilterBar.ClearAllFilters | components/vehicles/vehicle-filters.tsx:235-252 | no filters, no search terms, the bar's parameters deleted and every other one kept |
| VehicleTable.StatusBadgeClass | components/vehicles/vehicle-table.tsx:39-54 | green, amber, red and blue for the four known statuses in any case; gray for a missing or unknown one; the data table (vehicle-data-table.tsx lines 71-86) uses the same mapping |
| VehicleTable.StatusBadgeIgnoresCase | components/vehicles/vehicle-table.tsx:42 | spellings that differ only in case get the same colour |
| VehicleTable.KnownStatusesDistinct | components/vehicles/vehicle-table.tsx:43-51 | the four known statuses get four different colours |
| VehicleTable.Highlight | components/vehicles/vehicle-table.tsx:57-73 | unchanged for a falsy cell or no term; plain text when the term does not occur in any case; otherwise before + marked + after is the text, the marked part has the term's length and matches it in any case, and no earlier occurrence exists |
| VehicleTable.HighlightFindsSlice | components/vehicles/vehicle-table.tsx:60-65 | a term that occurs in the text, in any case, is always marked |
| VehicleTable.ViewFor | components/vehicles/vehicle-table.tsx:76-98 | the spinner while loading, then the empty notice for no vehicles, then the rows; the data table (vehicle-data-table.tsx lines 223-253) has the same precedence |
| VehicleTable.RowDeletion.HandleDelete | components/vehicles/vehicle-table.tsx:24-36 | nothing without a selection; otherwise one `onDelete` call, then nothing in progress and no selection, whether it failed or not; the data table (vehicle-data-table.tsx lines 209-221) has the same flow |
| VehicleTable.RowDeletion.SelectForDeletion | components/vehicles/vehicle-table.tsx:154 | the row's vehicle is selected and the dialog opens |
| VehicleTable.RowDeletion.CancelDeletion | components/vehicles/vehicle-table.tsx:173 | the selection is dropped |
| VehicleDataTable.TableState.constructor | components/vehicles/vehicle-data-table.tsx:58-68 | no sort, no column filter, page 0 of 10 rows, empty search |
| VehicleDataTable.TableState.SetGlobalFilter | components/vehicles/vehicle-data-table.tsx:264 | only the search text changes |
| VehicleDataTable.ChoosingAnEntryGivesItsSize | components/vehicles/vehicle-data-table.tsx:344-357 | each of the sizes 10, 20, 30, 40, 50 read back from its menu entry is that size |
| BranchesSettings.Page.constructor | components/settings/branches-settings.tsx:34-64 | empty list, loading, every dialog closed, a branch fetch started |
| BranchesSettings.Page.StartLoad | components/settings/branches-settings.tsx:45-47 | loading starts and a fetch is made |
| BranchesSettings.Page.FinishLoad | components/settings/branches-settings.tsx:48-60 | the list is replaced only on success; loading ends either way |
| BranchesSettings.Page.OpenAddDialog | components/settings/branches-settings.tsx:201-205 | empty name, no error, add dialog open |
| BranchesSettings.Page.EditName | components/settings/branches-settings.tsx:293 | only the name changes |
| BranchesSettings.Page.DismissAddDialog | components/settings/branches-settings.tsx:278 | only the add dialog's flag changes |
| BranchesSettings.Page.DismissEditDialog | components/settings/branches-settings.tsx:323 | only the edit dialog's flag changes |
| BranchesSettings.Page.DismissDeleteDialog | components/settings/branches-settings.tsx:369 | only the delete dialog's flag changes |
| BranchesSettings.Page.CancelAdd | components/settings/branches-settings.tsx:305-309 | add dialog closed, name and error cleared |
| BranchesSettings.Page.CancelEdit | components/settings/branches-settings.tsx:350-355 | edit dialog closed, name, selection and error cleared |
| BranchesSettings.Page.CancelDelete | components/settings/branches-settings.tsx:382-385 | delete dialog closed, selection cleared |
| BranchesSettings.Page.OpenEditDialog | components/settings/branches-settings.tsx:184-189 | selects the branch, pre-fills its name, clears the error, opens the edit dialog |
| BranchesSettings.Page.OpenDeleteDialog | components/settings/branches-settings.tsx:191-194 | selects the branch and opens the delete dialog |
| BranchesSettings.Page.HandleAddBranch | components/settings/branches-settings.tsx:66-105 | a blank name is refused without a call; success sends the trimmed name, closes the dialog, clears the name and reloads; failure keeps the dialog with the thrown message; never left submitting |
| BranchesSettings.Page.HandleEditBranch | components/settings/branches-settings.tsx:107-147 | like adding, and a missing selection is refused exactly like a blank name |
| BranchesSettings.Page.HandleDeleteBranch | components/settings/branches-settings.tsx:149-182 | the dialog closes on success and failure; the selection is cleared and the list reloaded only on success; the error field is untouched |
| AddBranchDialog.Dialog.HandleOpenChange | components/branches/add-branch-dialog.tsx:35-47 | closing clears the name and the error; opening only opens |
| AddBranchDialog.Dialog.OpenFromButton | components/branches/add-branch-dialog.tsx:96 | only opens |
| AddBranchDialog.Dialog.Cancel | components/branches/add-branch-dialog.tsx:125 | only closes; the name and the error stay |
| AddBranchDialog.Dialog.EditName | components/branches/add-branch-dialog.tsx:116 | only the name changes |
| AddBranchDialog.Dialog.HandleSubmit | components/branches/add-branch-dialog.tsx:49-88 | a blank name is refused without a call; success sends the trimmed name, closes, clears the name and hands the new branch to the parent once; failure shows the message, stays open and tells the parent nothing; never left submitting |
| AddVehiclePage.RequiredFieldError | app/vehicles/add/page.tsx:20-38 | "Branch is required" when the branch is missing, else "Fleet Number is required" when the fleet number is missing, else nothing |
| AddVehiclePage.Page.HandleSubmit | app/vehicles/add/page.tsx:17-59 | a missing field gives its message and `false` without a call; otherwise the error is cleared, the columns are sent, and success goes to "/" while failure shows the thrown message and returns `false` |
| Dashboard.DeleteLeavesOthers | app/dashboard/page.tsx:58 | after a delete a vehicle remains exactly when it was listed and has another identifier |
| Dashboard.DeleteKeepsOrder | app/dashboard/page.tsx:58 | the remaining vehicles keep their order, and a list without the identifier is unchanged |
| Dashboard.Page.LoadVehicles | app/dashboard/page.tsx:20-53 | no error after a fully successful load; vehicles replaced on success; the heading names the first branch with the identifier, or "" when none matches or no branch is chosen; a failure sets the error and keeps the vehicles; loading ends either way |
| Dashboard.Page.HandleDelete | app/dashboard/page.tsx:55-62 | success removes the vehicle from the list; failure leaves it unchanged |
| Records.BranchNameOr | app/dashboard/page.tsx:33-40 | the name of the first branch with the identifier, or the fallback when none has it |
| BranchSelector.CurrentBranchId | components/layout/branch-selector.tsx:16 | the first `branchId` value, or "" when the parameter is absent |
| BranchSelector.BranchChangeReadsBack | components/layout/branch-selector.tsx:33-41 | a real branch leaves exactly one `branchId` pair with that value; "all" or "" leaves none; every other pair is kept |
| BranchSelector.BranchChangeShowsChoice | components/layout/branch-selector.tsx:16-41 | after a choice the selector shows the chosen branch, or the placeholder for "all" |
| BranchSelector.EditForBranchChange | components/layout/branch-selector.tsx:34-39 | the in-place edits build the chosen query |
| BranchSelector.Selector.constructor | components/layout/branch-selector.tsx:11-12 | no branches and loading |
| BranchSelector.Selector.FinishLoad | components/layout/branch-selector.tsx:19-28 | the list is replaced only on success; loading ends either way |
| BranchSelector.Selector.HandleBranchChange | components/layout/branch-selector.tsx:33-41 | navigates to the same path with the rewritten query |
| VehicleForm.NumberValue | components/vehicles/vehicle-form.tsx:65 | null exactly for an empty input; the integer for a decimal integer literal |
| VehicleForm.NumberValueOfDecimal | components/vehicles/vehicle-form.tsx:65 | typing the decimal form of a whole number stores that number |
| VehicleForm.Form.constructor | components/vehicles/vehicle-form.tsx:31-39 | the record starts as the initial data, empty by default; the return path defaults to "/dashboard"; not loading |
| VehicleForm.Form.FinishLoadBranches | components/vehicles/vehicle-form.tsx:41-48 | a failed fetch leaves the branch options as they were |
| VehicleForm.Form.HandleChange | components/vehicles/vehicle-form.tsx:54-61 | exactly the named column takes the text; no other column changes |
| VehicleForm.Form.HandleSelectChange | components/vehicles/vehicle-form.tsx:69-71 | exactly the named column takes the chosen value |
| VehicleForm.Form.HandleNumberChange | components/vehicles/vehicle-form.tsx:63-67 | exactly the named column takes the number, null for an empty input |
| VehicleForm.Form.HandleSubmit | components/vehicles/vehicle-form.tsx:73-83 | loading starts and the current record is passed on; only a rejection ends loading |
| VehicleForm.Form.Cancel | components/vehicles/vehicle-form.tsx:229-232 | goes to the return path unless loading |
| UrlQuery.SearchParams.AppendEach | components/vehicles/vehicle-filters.tsx:157-162 | a `forEach` of `append` adds the values at the end in order |
| UrlQuery.GetAllWithSet | components/vehicles/vehicle-filters.tsx:165 | after `set`, the name reads back as exactly the one value and other names are unchanged |
| UrlQuery.OthersWithSet | components/vehicles/vehicle-filters.tsx:165 | `set` does not disturb the pairs of other names |
| UrlQuery.WithSetKeepsPosition | components/vehicles/vehicle-filters.tsx:165 | `set` keeps the first pair's position |

## Left out

- Network I/O with the hosted database. It is replaced by `Store.Database` and an outcome chosen by the caller. Server-side ordering (`order("name")`, `order("fleet_number")`) and collation are not modelled, so lists keep table order. Constraint checking by the database (unique names, foreign keys, permissions) appears only as an injected error.
- Api.FetchVehiclesByBranch: does not model the column projection or the join with the branch name; vehicles are returned with their own columns.
- Api.GetVehicleById: does not return the embedded `branch` row that the query's `branch:branches(*)` join attaches; the vehicle is returned with its own columns only.
- The race between the dependency check and the deletion in `deleteBranch`. Each API function runs in one step on a store nobody else changes.
- Interleaving of asynchronous handlers. Each handler is atomic. The buttons that a component disables while a request is in flight are not modelled, except the vehicle form's submit and cancel buttons.
- Sorting, global filtering, pagination and row selection of the data table. These are done by a table library whose code is not part of this model. Only its starting state, the search text and the page-size menu are modelled.
- Timers. The add-branch dialog's delayed focus is left out. The 300 ms search debounce is modelled only as the pair `HandleSearchChange` / `DebounceElapsed`, without time.
- Toasts, console logging and JSX rendering.
- Percent-encoding and serialisation of the query string. A query is a list of pairs.
- Api.UpdateVehicle: does not model a patch that changes a vehicle's own identifier, because the model keeps identifiers out of the updated columns.
- JsStrings.ToLower: maps ASCII letters only, because full Unicode case mapping can change a string's length.
- VehicleForm.NumberValue: computes the value of decimal integer literals only. Any other number the browser accepts (a fraction, an exponent form) is kept as its literal text. `NaN` and floating-point rounding are not modelled, and such a literal counts as truthy.
- Api.MessageOr: assumes the database client's error object is not an `Error` instance, so a component shows its own fallback text for it.
- The page-level wrappers that only place these components on a page, the navigation sidebar and headers, and the diagnostic pages.
