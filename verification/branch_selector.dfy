/** The branch drop-down of the header (`components/layout/branch-selector.tsx`): which entry it shows
    as chosen, how choosing an entry rewrites the `branchId` query parameter, and its branch list. */
module BranchSelector {
  import opened Wrappers
  import opened Records
  import opened UrlQuery
  import opened Api

  const BranchIdParam := "branchId"

  /** The value of the entry that stands for every branch. */
  const AllBranches := "all"

  /** `searchParams.get("branchId") || ""`: the chosen branch, or "" (the "All Branches"
      placeholder) when the parameter is absent or empty. */
  function CurrentBranchId(q: Query): (r: string)
    ensures GetAll(q, BranchIdParam) == [] ==> r == ""
    ensures GetAll(q, BranchIdParam) != [] ==> r == GetAll(q, BranchIdParam)[0]
  {
    match Get(q, BranchIdParam)
    case Some(id) => id
    case None => ""
  }

  /** The query `handleBranchChange` navigates to: a real branch sets the parameter, "all" or the
      empty value removes it. */
  function BranchChangeQuery(q: Query, value: string): Query {
    if value != "" && value != AllBranches then WithSet(q, BranchIdParam, value)
    else Deleted(q, BranchIdParam)
  }

  /** After a choice the query holds exactly one `branchId` pair with the chosen branch, or none for
      "all" and "", and every other pair as it was. */
  lemma BranchChangeReadsBack(q: Query, value: string)
    ensures GetAll(BranchChangeQuery(q, value), BranchIdParam) ==
              if value != "" && value != AllBranches then [value] else []
    ensures Others(BranchChangeQuery(q, value), {BranchIdParam}) == Others(q, {BranchIdParam})
  {
    if value != "" && value != AllBranches {
      GetAllWithSet(q, BranchIdParam, value, BranchIdParam);
      OthersWithSet(q, BranchIdParam, value, {BranchIdParam});
    } else {
      GetAllDeleted(q, BranchIdParam, BranchIdParam);
      OthersDeleted(q, BranchIdParam, {BranchIdParam});
    }
  }

  /** The drop-down then shows the entry that was chosen, with "all" shown as the placeholder. */
  lemma BranchChangeShowsChoice(q: Query, value: string)
    ensures CurrentBranchId(BranchChangeQuery(q, value)) == if value == AllBranches then "" else value
  {
    BranchChangeReadsBack(q, value);
  }

  /** The `URLSearchParams` edits of `handleBranchChange`. */
  method EditForBranchChange(q: Query, value: string) returns (r: Query)
    ensures r == BranchChangeQuery(q, value)
  {
    var params := new SearchParams(q);
    if value != "" && value != AllBranches {
      params.Set(BranchIdParam, value);
    } else {
      params.Delete(BranchIdParam);
    }
    r := params.pairs;
  }

  /** A URL handed to the router: a path and its query. */
  datatype Location = Location(path: string, query: Query)

  /** Everything the selector holds, for stating what a handler changes. */
  datatype Snapshot = Snapshot(branches: seq<Branch>, loading: bool, query: Query, pushed: seq<Location>)

  class Selector {
    /** The path of the page the selector is shown on. */
    const pathname: string
    var branches: seq<Branch>
    var loading: bool
    /** The query of the current URL. */
    var query: Query
    /** The URLs handed to the router, in order. */
    var pushed: seq<Location>

    function State(): Snapshot
      reads this
    {
      Snapshot(branches, loading, query, pushed)
    }

    /** The first render: no branches yet and the loading placeholder shown. */
    constructor (pathname: string, query: Query)
      ensures this.pathname == pathname
      ensures State() == Snapshot([], true, query, [])
    {
      this.pathname := pathname;
      branches := [];
      loading := true;
      this.query := query;
      pushed := [];
    }

    /** The end of the mount effect's `loadBranches`: the list is replaced only when the fetch
        succeeded, and loading ends either way. */
    method FinishLoad(reply: Result<seq<Branch>, Exception>)
      modifies this
      ensures State() == old(State()).(loading := false, branches := if reply.Ok? then reply.value else old(branches))
    {
      if reply.Ok? {
        branches := reply.value;
      }
      loading := false;
    }

    /** `handleBranchChange`: navigates to the same path with the rewritten query. */
    method HandleBranchChange(value: string)
      modifies this
      ensures State() == old(State()).(query := BranchChangeQuery(old(query), value),
                                       pushed := old(pushed) + [Location(pathname, BranchChangeQuery(old(query), value))])
    {
      var q := EditForBranchChange(query, value);
      query := q;
      pushed := pushed + [Location(pathname, q)];
    }
  }
}
