/** The filter bar above the vehicle list (`components/vehicles/vehicle-filters.tsx`): a search box,
    a side sheet of branch and vehicle-type check boxes whose selection is pending until applied,
    badges for the active filters, and the page URL's query, which it rewrites on every change. */
module VehicleFilters {
  import opened Wrappers
  import opened Records
  import opened Lists
  import opened UrlQuery
  import opened Api

  /** The vehicle types the sheet offers. */
  const VehicleTypes: seq<string> := ["Truck", "Van", "Sedan", "SUV", "Pickup", "Bus", "Trailer", "Other"]

  /** The badge text of a branch filter whose branch is not (or not yet) loaded. */
  const UnknownBranch := "Unknown Branch"

  /** `getBranchName`: the badge text of a branch filter, the name of the first loaded branch with
      that identifier, or `UnknownBranch` when none is loaded. */
  function BranchBadgeLabel(branches: seq<Branch>, branchId: string): (r: string)
    ensures (forall k :: 0 <= k < |branches| ==> branches[k].id != branchId) ==> r == UnknownBranch
  {
    BranchNameOr(branches, branchId, UnknownBranch)
  }

  /** With branch identifiers unique, as the table's primary key makes them, the badge of a loaded
      branch shows that branch's name. */
  lemma BranchBadgeShowsLoadedName(branches: seq<Branch>, b: Branch)
    requires b in branches
    requires forall i, j :: 0 <= i < j < |branches| ==> branches[i].id != branches[j].id
    ensures BranchBadgeLabel(branches, b.id) == b.name
  {
    var j :| 0 <= j < |branches| && branches[j] == b;
    var k :| 0 <= k < |branches| && branches[k].id == b.id && branches[k].name == BranchBadgeLabel(branches, b.id);
  }

  /** The query parameters the filter bar owns. */
  const FilterParams: set<string> := {"branch", "type", "search"}

  /** A selection of branch identifiers and vehicle types. */
  datatype Filters = Filters(branches: seq<string>, types: seq<string>)

  const NoFilters := Filters([], [])

  datatype Category = BranchCategory | TypeCategory

  /** The query parameter that carries a category. */
  function ParamName(c: Category): string {
    match c
    case BranchCategory => "branch"
    case TypeCategory => "type"
  }

  function Selected(f: Filters, c: Category): seq<string> {
    match c
    case BranchCategory => f.branches
    case TypeCategory => f.types
  }

  function WithSelected(f: Filters, c: Category, values: seq<string>): (r: Filters)
    ensures Selected(r, c) == values
    ensures forall d :: d != c ==> Selected(r, d) == Selected(f, d)
  {
    match c
    case BranchCategory => f.(branches := values)
    case TypeCategory => f.(types := values)
  }

  /** `values.filter(x => x !== v)`. */
  function Without(values: seq<string>, v: string): (r: seq<string>)
    ensures forall x :: x in r <==> x in values && x != v
    ensures v !in values ==> r == values
  {
    var r := Filter(values, (x: string) => x != v);
    assert forall x :: x in r <==> x in values && x != v by {
      forall x {
        FilterMembers(values, (x: string) => x != v, x);
      }
    }
    assert v !in values ==> r == values by {
      if v !in values {
        FilterKeepsAll(values, (x: string) => x != v);
      }
    }
    r
  }

  /** `filter` keeps the order and the repetitions of the kept values: removal distributes over
      concatenation, and a single value is kept exactly when it differs from the removed one. */
  lemma WithoutKeepsOrder(a: seq<string>, b: seq<string>, v: string)
    ensures Without(a + b, v) == Without(a, v) + Without(b, v)
    ensures forall x :: Without([x], v) == if x == v then [] else [x]
  {
    FilterConcat(a, b, (y: string) => y != v);
  }

  /** The check-box toggle: a selected value is dropped everywhere it occurs, an unselected one
      is added at the end. */
  function Toggled(values: seq<string>, v: string): (r: seq<string>)
    ensures v in r <==> v !in values
    ensures forall x :: x != v ==> (x in r <==> x in values)
    ensures v in values ==> r == Without(values, v)
    ensures v !in values ==> r == values + [v]
  {
    if v in values then Without(values, v) else values + [v]
  }

  /** Ticking a box and unticking it again restores the selection exactly. */
  lemma ToggleTwice(values: seq<string>, v: string)
    requires v !in values
    ensures Toggled(Toggled(values, v), v) == values
  {
    FilterConcat(values, [v], (x: string) => x != v);
    FilterKeepsAll(values, (x: string) => x != v);
  }

  /** The query `applyFilters` pushes: both filter parameters rewritten from the selection, and
      the search term set when the search box holds one. */
  function AppliedQuery(q: Query, f: Filters, live: string): Query {
    var cleared := Deleted(Deleted(q, "branch"), "type");
    var withFilters := AppendedAll(AppendedAll(cleared, "branch", f.branches), "type", f.types);
    if live != "" then WithSet(withFilters, "search", live) else withFilters
  }

  /** Reading the applied query back gives exactly the selection, in order; the search term is
      replaced only by a non-empty one; the parameters the bar does not own are untouched. */
  lemma AppliedQueryReadsBack(q: Query, f: Filters, live: string)
    ensures GetAll(AppliedQuery(q, f, live), "branch") == f.branches
    ensures GetAll(AppliedQuery(q, f, live), "type") == f.types
    ensures GetAll(AppliedQuery(q, f, live), "search") == if live != "" then [live] else GetAll(q, "search")
    ensures Others(AppliedQuery(q, f, live), FilterParams) == Others(q, FilterParams)
  {
    var cleared := Deleted(Deleted(q, "branch"), "type");
    var withBranches := AppendedAll(cleared, "branch", f.branches);
    var withFilters := AppendedAll(withBranches, "type", f.types);
    forall m | m in FilterParams
      ensures GetAll(withFilters, m) ==
                if m == "branch" then f.branches else if m == "type" then f.types else GetAll(q, m)
    {
      GetAllDeleted(q, "branch", m);
      GetAllDeleted(Deleted(q, "branch"), "type", m);
      GetAllAppendedAll(cleared, "branch", f.branches, m);
      GetAllAppendedAll(withBranches, "type", f.types, m);
    }
    OthersDeleted(q, "branch", FilterParams);
    OthersDeleted(Deleted(q, "branch"), "type", FilterParams);
    OthersAppendedAll(cleared, "branch", f.branches, FilterParams);
    OthersAppendedAll(withBranches, "type", f.types, FilterParams);
    if live != "" {
      GetAllWithSet(withFilters, "search", live, "branch");
      GetAllWithSet(withFilters, "search", live, "type");
      GetAllWithSet(withFilters, "search", live, "search");
      OthersWithSet(withFilters, "search", live, FilterParams);
    }
  }

  /** The query `removeFilter` pushes: one category's parameter rewritten from its remaining values. */
  function RewrittenQuery(q: Query, c: Category, values: seq<string>): Query {
    AppendedAll(Deleted(q, ParamName(c)), ParamName(c), values)
  }

  lemma RewrittenQueryReadsBack(q: Query, c: Category, values: seq<string>)
    ensures GetAll(RewrittenQuery(q, c, values), ParamName(c)) == values
    ensures Others(RewrittenQuery(q, c, values), {ParamName(c)}) == Others(q, {ParamName(c)})
  {
    var n := ParamName(c);
    GetAllAppendedAll(Deleted(q, n), n, values, n);
    GetAllDeleted(q, n, n);
    OthersAppendedAll(Deleted(q, n), n, values, {n});
    OthersDeleted(q, n, {n});
  }

  /** The query `handleSearchSubmit` pushes. */
  function SubmittedQuery(q: Query, term: string): Query {
    if term != "" then WithSet(q, "search", term) else Deleted(q, "search")
  }

  /** After a submission the query holds exactly the submitted term, or no term when it is empty. */
  lemma SubmittedQueryReadsBack(q: Query, term: string)
    ensures GetAll(SubmittedQuery(q, term), "search") == if term != "" then [term] else []
    ensures Others(SubmittedQuery(q, term), {"search"}) == Others(q, {"search"})
  {
    if term != "" {
      GetAllWithSet(q, "search", term, "search");
      OthersWithSet(q, "search", term, {"search"});
    } else {
      GetAllDeleted(q, "search", "search");
      OthersDeleted(q, "search", {"search"});
    }
  }

  /** `clearAllFilters` deletes the three parameters the bar owns and nothing else. */
  lemma ClearingDropsFilterParams(q: Query)
    ensures Deleted(Deleted(Deleted(q, "branch"), "type"), "search") == Others(q, FilterParams)
  {
    OthersOthers(q, {"branch"}, {"type"});
    OthersOthers(q, {"branch"} + {"type"}, {"search"});
    assert {"branch"} + {"type"} + {"search"} == FilterParams;
  }

  /** The `URLSearchParams` edits of `applyFilters`. */
  method EditForApply(q: Query, f: Filters, live: string) returns (r: Query)
    ensures r == AppliedQuery(q, f, live)
  {
    var params := new SearchParams(q);
    params.Delete("branch");
    params.Delete("type");
    params.AppendEach("branch", f.branches);
    params.AppendEach("type", f.types);
    if live != "" {
      params.Set("search", live);
    }
    r := params.pairs;
  }

  /** The `URLSearchParams` edits of `removeFilter`. */
  method EditForRemove(q: Query, c: Category, values: seq<string>) returns (r: Query)
    ensures r == RewrittenQuery(q, c, values)
  {
    var params := new SearchParams(q);
    params.Delete(ParamName(c));
    params.AppendEach(ParamName(c), values);
    r := params.pairs;
  }

  /** The `URLSearchParams` edits of `handleSearchSubmit`. */
  method EditForSubmit(q: Query, term: string) returns (r: Query)
    ensures r == SubmittedQuery(q, term)
  {
    var params := new SearchParams(q);
    if term != "" {
      params.Set("search", term);
    } else {
      params.Delete("search");
    }
    r := params.pairs;
  }

  /** The `URLSearchParams` edits of `clearAllFilters`. */
  method EditForClear(q: Query) returns (r: Query)
    ensures r == Others(q, FilterParams)
  {
    var params := new SearchParams(q);
    params.Delete("branch");
    params.Delete("type");
    params.Delete("search");
    ClearingDropsFilterParams(q);
    r := params.pairs;
  }

  /** The filters a URL carries: every `branch` value and every `type` value, in order. */
  function UrlFilters(q: Query): (f: Filters)
    ensures Selected(f, BranchCategory) == GetAll(q, ParamName(BranchCategory))
    ensures Selected(f, TypeCategory) == GetAll(q, ParamName(TypeCategory))
  {
    Filters(GetAll(q, "branch"), GetAll(q, "type"))
  }

  /** The search term a URL carries: its first `search` value, when that is present and not empty. */
  function UrlSearchTerm(q: Query): (t: Option<string>)
    ensures t.Some? <==> GetAll(q, "search") != [] && GetAll(q, "search")[0] != ""
    ensures t.Some? ==> t.value == GetAll(q, "search")[0]
  {
    match Get(q, "search")
    case Some(v) => if v != "" then Some(v) else None
    case None => None
  }

  /** Everything the filter bar holds, for stating what a handler changes. */
  datatype Snapshot = Snapshot(
    branches: seq<Branch>, searchTerm: string, liveSearchTerm: string, active: Filters, pending: Filters,
    filterCount: nat, sheetOpen: bool, initialized: bool, scheduledSearch: Option<string>,
    liveSearches: seq<string>, query: Query, pushed: seq<Query>)

  class FilterBar {
    /** Whether the parent passed an `onLiveSearch` callback. */
    const hasLiveSearch: bool
    /** The branches offered in the sheet. */
    var branches: seq<Branch>
    /** The search term last committed to the URL (shown as a badge). */
    var searchTerm: string
    /** The contents of the search box. */
    var liveSearchTerm: string
    /** `activeFilters`, shown as badges and written to the URL. */
    var active: Filters
    /** `tempFilters`, the check boxes in the sheet. */
    var pending: Filters
    var filterCount: nat
    var sheetOpen: bool
    var initialized: bool
    /** The term the debounce timer will pass to `onLiveSearch` when it fires, if it is running. */
    var scheduledSearch: Option<string>
    /** The arguments of the calls to `onLiveSearch`, in order. */
    var liveSearches: seq<string>
    /** The query of the page's current URL. */
    var query: Query
    /** The queries passed to `router.push`, in order (the path stays the same). */
    var pushed: seq<Query>

    function State(): Snapshot
      reads this
    {
      Snapshot(branches, searchTerm, liveSearchTerm, active, pending, filterCount, sheetOpen, initialized,
               scheduledSearch, liveSearches, query, pushed)
    }

    /** The badge count always equals the number of active filters. */
    ghost predicate Valid()
      reads this
    {
      filterCount == |active.branches| + |active.types|
    }

    /** The first render, on a page whose URL has the query `query`. */
    constructor (query: Query, hasLiveSearch: bool)
      ensures Valid()
      ensures this.hasLiveSearch == hasLiveSearch
      ensures State() == Snapshot([], "", "", NoFilters, NoFilters, 0, false, false, None, [], query, [])
    {
      this.hasLiveSearch := hasLiveSearch;
      branches := [];
      searchTerm := "";
      liveSearchTerm := "";
      active := NoFilters;
      pending := NoFilters;
      filterCount := 0;
      sheetOpen := false;
      initialized := false;
      scheduledSearch := None;
      liveSearches := [];
      this.query := query;
      pushed := [];
    }

    /** `router.push` of a new query for the same path; the page's URL then carries it. */
    method Push(q: Query)
      modifies this
      ensures State() == old(State()).(query := q, pushed := old(pushed) + [q])
    {
      query := q;
      pushed := pushed + [q];
    }

    /** `setActiveFilters`, followed by the effect that recounts the badge from the active filters. */
    method SetActive(f: Filters)
      modifies this
      ensures Valid()
      ensures State() == old(State()).(active := f, filterCount := |f.branches| + |f.types|)
    {
      active := f;
      filterCount := |f.branches| + |f.types|;
    }

    /** The mount effect that reads the filters and the search term from the URL; it runs again
        whenever the query changes but acts only the first time. */
    method Initialize()
      requires Valid()
      modifies this
      ensures Valid()
      ensures old(initialized) ==> State() == old(State())
      ensures !old(initialized) ==>
                var f := UrlFilters(old(query));
                var t := UrlSearchTerm(old(query));
                State() == old(State()).(active := f, pending := f, filterCount := |f.branches| + |f.types|,
                                         searchTerm := if t.Some? then t.value else old(searchTerm),
                                         liveSearchTerm := if t.Some? then t.value else old(liveSearchTerm),
                                         initialized := true)
    {
      if !initialized {
        var f := UrlFilters(query);
        var t := UrlSearchTerm(query);
        SetActive(f);
        pending := f;
        if t.Some? {
          searchTerm, liveSearchTerm := t.value, t.value;
        }
        initialized := true;
      }
    }

    /** `loadBranches`: a failed fetch leaves the options as they were. */
    method LoadBranches(reply: Result<seq<Branch>, Exception>)
      requires Valid()
      modifies this
      ensures Valid()
      ensures State() == if reply.Ok? then old(State()).(branches := reply.value) else old(State())
    {
      if reply.Ok? {
        branches := reply.value;
      }
    }

    /** Typing in the search box: the box shows the text and the debounce timer restarts with it. */
    method HandleSearchChange(value: string)
      requires Valid()
      modifies this
      ensures Valid()
      ensures State() == old(State()).(liveSearchTerm := value, scheduledSearch := Some(value))
    {
      liveSearchTerm := value;
      scheduledSearch := Some(value);
    }

    /** The debounce timer fires: the parent hears only the last term typed. */
    method DebounceElapsed()
      requires Valid()
      modifies this
      ensures Valid()
      ensures old(scheduledSearch).None? ==> State() == old(State())
      ensures old(scheduledSearch).Some? ==>
                State() == old(State()).(scheduledSearch := None,
                                         liveSearches := old(liveSearches)
                                           + (if hasLiveSearch then [old(scheduledSearch).value] else []))
    {
      if scheduledSearch.Some? {
        if hasLiveSearch {
          liveSearches := liveSearches + [scheduledSearch.value];
        }
        scheduledSearch := None;
      }
    }

    /** `handleSearchSubmit` (the search button or Enter): the box's term goes into the URL, or
        leaves it when the box is empty. */
    method HandleSearchSubmit()
      requires Valid()
      modifies this
      ensures Valid()
      ensures State() == old(State()).(searchTerm := old(liveSearchTerm),
                                       query := SubmittedQuery(old(query), old(liveSearchTerm)),
                                       pushed := old(pushed) + [SubmittedQuery(old(query), old(liveSearchTerm))])
    {
      var q := EditForSubmit(query, liveSearchTerm);
      searchTerm := liveSearchTerm;
      Push(q);
    }

    /** The cross inside the search box: it empties the box and tells the parent, but leaves the
        URL and the search badge alone. */
    method ClearSearchBox()
      requires Valid()
      modifies this
      ensures Valid()
      ensures State() == old(State()).(liveSearchTerm := "",
                                       liveSearches := old(liveSearches) + (if hasLiveSearch then [""] else []))
    {
      liveSearchTerm := "";
      if hasLiveSearch {
        liveSearches := liveSearches + [""];
      }
    }

    /** The cross on the search badge: the term leaves the box, the badge and the URL. */
    method RemoveSearchBadge()
      requires Valid()
      modifies this
      ensures Valid()
      ensures State() == old(State()).(searchTerm := "", liveSearchTerm := "",
                                       liveSearches := old(liveSearches) + (if hasLiveSearch then [""] else []),
                                       query := Deleted(old(query), "search"),
                                       pushed := old(pushed) + [Deleted(old(query), "search")])
    {
      searchTerm := "";
      liveSearchTerm := "";
      if hasLiveSearch {
        liveSearches := liveSearches + [""];
      }
      Push(Deleted(query, "search"));
    }

    /** The sheet's `onOpenChange`. */
    method SetSheetOpen(open: bool)
      requires Valid()
      modifies this
      ensures Valid()
      ensures State() == old(State()).(sheetOpen := open)
    {
      sheetOpen := open;
    }

    /** `toggleFilter`: a check box in the sheet changes the pending selection of its category only. */
    method ToggleFilter(c: Category, value: string)
      requires Valid()
      modifies this
      ensures Valid()
      ensures State() == old(State()).(pending := WithSelected(old(pending), c, Toggled(Selected(old(pending), c), value)))
    {
      pending := WithSelected(pending, c, Toggled(Selected(pending, c), value));
    }

    /** `resetFilters`: only the pending selection is emptied. */
    method ResetFilters()
      requires Valid()
      modifies this
      ensures Valid()
      ensures State() == old(State()).(pending := NoFilters)
    {
      pending := NoFilters;
    }

    /** `applyFilters`: the pending selection becomes active and is written to the URL, the sheet
        closes, and a term in the search box is committed with it. */
    method ApplyFilters()
      requires Valid()
      modifies this
      ensures Valid()
      ensures var q := AppliedQuery(old(query), old(pending), old(liveSearchTerm));
              State() == old(State()).(active := old(pending), sheetOpen := false,
                                       filterCount := |old(pending).branches| + |old(pending).types|,
                                       searchTerm := if old(liveSearchTerm) != "" then old(liveSearchTerm) else old(searchTerm),
                                       query := q, pushed := old(pushed) + [q])
    {
      var q := EditForApply(query, pending, liveSearchTerm);
      SetActive(pending);
      sheetOpen := false;
      if liveSearchTerm != "" {
        searchTerm := liveSearchTerm;
      }
      Push(q);
    }

    /** `removeFilter`: the cross on a filter badge drops the value from that category of the active
        selection, the sheet is reset to the new selection, and only that category's parameter is
        rewritten. */
    method RemoveFilter(c: Category, value: string)
      requires Valid()
      modifies this
      ensures Valid()
      ensures var f := WithSelected(old(active), c, Without(Selected(old(active), c), value));
              var q := RewrittenQuery(old(query), c, Selected(f, c));
              State() == old(State()).(active := f, pending := f, filterCount := |f.branches| + |f.types|,
                                       query := q, pushed := old(pushed) + [q])
    {
      var remaining := WithSelected(active, c, Without(Selected(active, c), value));
      var q := EditForRemove(query, c, Selected(remaining, c));
      SetActive(remaining);
      pending := remaining;
      Push(q);
    }

    /** `clearAllFilters`: no filters, no search term, and none of the bar's parameters in the URL.
        A debounce timer still running is not cancelled. */
    method ClearAllFilters()
      requires Valid()
      modifies this
      ensures Valid()
      ensures var q := Others(old(query), FilterParams);
              State() == old(State()).(active := NoFilters, pending := NoFilters, filterCount := 0,
                                       liveSearchTerm := "", searchTerm := "",
                                       liveSearches := old(liveSearches) + (if hasLiveSearch then [""] else []),
                                       query := q, pushed := old(pushed) + [q])
    {
      var q := EditForClear(query);
      SetActive(NoFilters);
      pending := NoFilters;
      liveSearchTerm, searchTerm := "", "";
      if hasLiveSearch {
        liveSearches := liveSearches + [""];
      }
      Push(q);
    }
  }
}
